/** The driver's flag for continuous mode against the mode the chip is in. */
module ModeFlag {
  import opened Chips
  import opened Driver
  import opened Protocol

  /** The two calls of a free device that part flag and mode: cutting the power of a chip in
      continuous mode, which the flag outlives, and starting a chip that has no power. */
  ghost predicate Parts(w: World, s: Sys, op: Op) {
    && s.dev.owner == NULL
    && match op
       case OpPowerDown => s.dev.pwdnPin >= 0 && s.dev.rdatac
       case OpStart => !s.dev.rdatac && s.chip.down && w.ok(|s.chip.log|)
       case _ => false
  }

  // ---------------------------------------------------------------------------
  // Pieces of the calls

  lemma SendKeepsMode(w: World, s: Sys, tx: seq<bv8>)
    requires Ordinary(tx)
    ensures var s' := Send(w, s, tx).0;
            s'.dev == s.dev && s'.chip.continuous == s.chip.continuous && s'.chip.down == s.chip.down
  {
  }

  lemma LeaveInSync(w: World, s: Sys)
    requires InStep(s) && InSync(s)
    ensures InSync(LeaveContinuous(w, s).0)
  {
  }

  lemma WriteInSync(w: World, s: Sys, reg: bv8, val: bv8)
    requires InStep(s) && InSync(s)
    ensures InSync(WriteReg(w, s, reg, val).0)
  {
    hide Send, LeaveContinuous;
    RegisterMessages(reg);
    LeaveInSync(w, s);
    SendKeepsMode(w, LeaveContinuous(w, s).0, [CMD_WREG | reg, 0, val]);
  }

  lemma ReadInSync(w: World, s: Sys, reg: bv8)
    requires InStep(s) && InSync(s)
    ensures InSync(ReadReg(w, s, reg).0)
  {
    hide Send, LeaveContinuous;
    RegisterMessages(reg);
    LeaveInSync(w, s);
    SendKeepsMode(w, LeaveContinuous(w, s).0, [CMD_RREG | reg, 0, 0]);
  }

  /** A reset that succeeds sets flag and mode right whatever they were. */
  lemma ResetInSync(w: World, s: Sys)
    requires !w.resetContinuous && (s.chip.down ==> !s.chip.continuous)
    ensures Reset(w, s).1 == EOK || InSync(s) ==> InSync(Reset(w, s).0)
  {
  }

  lemma ConfigureInSync(w: World, s: Sys, config: bv8)
    requires InStep(s) && InSync(s)
    ensures InSync(Configure0(w, s, config).0) && InSync(Configure1(w, s, config).0)
  {
    hide WriteReg;
    WriteInSync(w, s.(dev := s.dev.(config0 := config)), REG_CONFIG0, config);
    WriteInSync(w, s.(dev := s.dev.(config1 := config)), REG_CONFIG1, config);
  }

  lemma SetterInSync(w: World, s: Sys, op: Op)
    requires InStep(s) && InSync(s) && Setter(op)
    ensures InSync(Do(w, s, op).0)
  {
    hide Do, ChangeOf, Configure0, Configure1;
    SetterConfigures(w, s, op);
    match ChangeOf(s.dev, op) {
      case Nothing =>
      case Zero(c0) => ConfigureInSync(w, s, c0);
      case One(c1) => ConfigureInSync(w, s, c1);
    }
  }

  lemma HpfInSync(w: World, s: Sys, low: bv8, high: bv8)
    requires Safe(s) && InSync(s)
    ensures InSync(SetHpf(w, s, low, high).0)
  {
    hide WriteReg;
    WriteInSync(w, s, REG_HPF0, low);
    WriteSafe(w, s, REG_HPF0, low);
    WriteInSync(w, WriteReg(w, s, REG_HPF0, low).0, REG_HPF1, high);
  }

  lemma PowerUpInSync(w: World, s: Sys)
    requires !w.resetContinuous && Safe(s) && InSync(s)
    ensures InSync(PowerUp(w, s).0)
  {
    hide WriteReg, Reset;
    if s.dev.owner == NULL {
      var s0 := if s.dev.pwdnPin >= 0 then s.(chip := DrivePower(w, s.chip, false)) else s;
      assert Safe(s0) && InSync(s0);
      ResetInSync(w, s0);
      ResetSafe(w, s0);
      var (s1, e1) := Reset(w, s0);
      if e1 == EOK {
        var s2 := s1.(dev := s1.dev.(config0 := s.dev.config0, config1 := s.dev.config1));
        WriteInSync(w, s2, REG_CONFIG0, s.dev.config0);
        WriteSafe(w, s2, REG_CONFIG0, s.dev.config0);
        WriteInSync(w, WriteReg(w, s2, REG_CONFIG0, s.dev.config0).0, REG_CONFIG1, s.dev.config1);
      }
    }
  }

  lemma PinInSync(w: World, s: Sys, op: Op)
    requires !w.resetContinuous && Safe(s) && InSync(s)
    requires op.OpSyncHw? || op.OpSetSyncPin? || op.OpSetPwdnPin? || op.OpPowerDown? || op.OpStart?
    ensures InSync(Do(w, s, op).0) <==> !Parts(w, s, op)
  {
    hide Send;
    match op {
      case OpSyncHw => SendKeepsMode(w, s, [CMD_SYNC]);
      case OpPowerDown => SendKeepsMode(w, s, [CMD_STANDBY]);
      case OpStart => StartOutcome(w, s);
      case _ =>
    }
  }

  lemma StartOutcome(w: World, s: Sys)
    ensures var (s', e) := Send(w, s, [CMD_RDATAC]);
            && (e == EOK <==> w.ok(|s.chip.log|)) && s'.dev == s.dev
            && s'.chip.continuous == (if e == EOK && !s.chip.down then true else s.chip.continuous)
  {
  }

  lemma CommandInSync(w: World, s: Sys, cmd: bv8)
    requires InSync(s) && Ordinary([cmd])
    ensures InSync(Command(w, s, cmd).0)
  {
    hide Send;
    SendKeepsMode(w, s, [cmd]);
  }

  lemma ReadDataInSync(w: World, s: Sys)
    requires InSync(s)
    ensures InSync(ReadData(w, s).0)
  {
    hide Send, Decode, Answer;
    SendKeepsMode(w, WaitData(w, s).0, ReadMessage(s));
  }

  // ---------------------------------------------------------------------------
  // Calls and runs

  /** From a state in which flag and mode agree, a call keeps them so if and only if it is none of
      the two. */
  lemma FlagExact(w: World, s: Sys, op: Op)
    requires !w.resetContinuous && Safe(s) && s.dev.attached && InSync(s)
    ensures InSync(Do(w, s, op).0) <==> !Parts(w, s, op)
  {
    hide WriteReg, ReadReg, ReadData, LeaveContinuous, Reset, PowerUp, RegisterRead, Command, SetHpf, Disciplined;
    if Setter(op) {
      SetterInSync(w, s, op);
    } else {
      match op {
        case OpWriteReg(reg, val) => WriteInSync(w, s, reg, val);
        case OpReadReg(reg) => ReadInSync(w, s, reg);
        case OpCheckId => ReadInSync(w, s, REG_ID);
        case OpReadData => ReadDataInSync(w, s);
        case OpStop => LeaveInSync(w, s);
        case OpSetHpf(hpf) => HpfInSync(w, s, LowByte(hpf), HighByte(hpf));
        case OpReset => ResetInSync(w, s);
        case OpPowerUp => PowerUpInSync(w, s);
        case OpStandby => CommandInSync(w, s, CMD_STANDBY);
        case OpWakeup => CommandInSync(w, s, CMD_WAKEUP);
        case OpSync => CommandInSync(w, s, CMD_SYNC);
        case OpOffsetCal => CommandInSync(w, s, CMD_OFSCAL);
        case OpGainCal => CommandInSync(w, s, CMD_GANCAL);
        case OpAttach(_) =>
        case OpDetach(_) =>
        case OpInit(_) =>
        case _ => PinInSync(w, s, op);
      }
    }
  }

  ghost predicate AlwaysInSync(w: World, s: Sys, ops: seq<Op>) {
    forall k :: 0 <= k <= |ops| ==> InSync(DoAll(w, s, ops[..k]))
  }

  ghost predicate NoneParts(w: World, s: Sys, ops: seq<Op>) {
    forall k :: 0 <= k < |ops| ==> !Parts(w, DoAll(w, s, ops[..k]), ops[k])
  }

  /** Exactly the runs in which the flag equals the chip's mode at every moment, powered or not,
      whatever transfers fail and whoever owns the device. */
  lemma {:induction false} RunFlagExact(w: World, s: Sys, ops: seq<Op>)
    requires !w.resetContinuous && Safe(s) && s.dev.attached && InSync(s)
    ensures AlwaysInSync(w, s, ops) <==> NoneParts(w, s, ops)
    decreases |ops|
  {
    hide Do, Parts, InSync, Safe;
    if ops == [] {
      assert forall k :: 0 <= k <= |ops| ==> ops[..k] == [];
    } else {
      var before := ops[..|ops| - 1];
      RunFlagExact(w, s, before);
      LastCall(w, s, ops);
      if AlwaysInSync(w, s, before) {
        assert before[..|before|] == before;
        RunSafe(w, s, before);
        FlagExact(w, DoAll(w, s, before), ops[|ops| - 1]);
      }
    }
  }

  lemma LastCall(w: World, s: Sys, ops: seq<Op>)
    requires ops != []
    ensures var before := ops[..|ops| - 1];
            && (AlwaysInSync(w, s, ops) <==> AlwaysInSync(w, s, before) && InSync(DoAll(w, s, ops)))
            && (NoneParts(w, s, ops) <==> NoneParts(w, s, before) && !Parts(w, DoAll(w, s, before), ops[|ops| - 1]))
  {
    hide Do, Parts, InSync, DoAll;
    var before := ops[..|ops| - 1];
    assert forall k :: 0 <= k <= |before| ==> before[..k] == ops[..k];
    assert ops[..|ops|] == ops;
  }

  // ---------------------------------------------------------------------------
  // Initialisation

  lemma DefaultsInSync(w: World, s: Sys, u: Setup)
    requires Safe(s) && InSync(s)
    ensures InSync(WriteDefaults(w, s, u).0)
  {
    hide Configure0, Configure1, Flag, Replace, InStep, InSync;
    ConfigureInSync(w, s, Flag(s.dev.config0, CFG0_MODE, true));
    ConfigureSafe(w, s, Flag(s.dev.config0, CFG0_MODE, true));
    var s1 := SetMode(w, s, true).0;
    ConfigureInSync(w, s1, Replace(s1.dev.config0, Dr(0x07), Dr(0)));
    ConfigureSafe(w, s1, Replace(s1.dev.config0, Dr(0x07), Dr(0)));
    var s2 := SetRate(w, s1, 250).0;
    ConfigureInSync(w, s2, Replace(s2.dev.config0, Filtr(0x03), Filtr(3)));
    ConfigureSafe(w, s2, Replace(s2.dev.config0, Filtr(0x03), Filtr(3)));
    var s3 := SetFilter(w, s2, 3).0;
    ConfigureInSync(w, s3, Replace(s3.dev.config1, Pga(0x07), Pga(0)));
    ConfigureSafe(w, s3, Replace(s3.dev.config1, Pga(0x07), Pga(0)));
    var s4 := if u.noPga then s3 else SetGain(w, s3, 1).0;
    ConfigureInSync(w, s4, Replace(s4.dev.config1, Mux(0x07), Mux(0)));
  }

  lemma InitInSync(w: World, s: Sys, u: Setup)
    requires !w.resetContinuous && Fresh(s) && InitEx(w, s, u).1 == EOK
    ensures InSync(InitEx(w, s, u).0)
  {
    hide WriteReg, Reset, ReadReg, RegisterRead, WriteDefaults;
    var s1 := InitPins(s, u);
    var s2 := s1.(dev := s1.dev.(attached := true));
    var s3 := if u.resetPin >= 0 then s2.(chip := Sees(s2.chip, Output(ResetLine))) else s2;
    ResetInSync(w, s3);
    ResetSafe(w, s3);
    var s4 := Reset(w, s3).0;
    ReadInSync(w, s4, REG_ID);
    ReadSafe(w, s4, REG_ID);
    DefaultsInSync(w, ReadReg(w, s4, REG_ID).0, u);
  }

  /** From a successful initialisation on. */
  lemma FlagAfterInit(w: World, s: Sys, u: Setup, ops: seq<Op>)
    requires !w.resetContinuous && Fresh(s) && InitEx(w, s, u).1 == EOK
    ensures var s0 := InitEx(w, s, u).0;
            AlwaysInSync(w, s0, ops) <==> NoneParts(w, s0, ops)
  {
    hide InitEx, InSync, Safe;
    InitSafe(w, s, u);
    InitAttaches(w, s, u);
    InitInSync(w, s, u);
    RunFlagExact(w, InitEx(w, s, u).0, ops);
  }

  /** From any state, right or wrong, a reset or a power-up that succeeds sets the flag right again,
      and from then on the same condition decides. */
  lemma FlagAfterReset(w: World, s: Sys, op: Op, ops: seq<Op>)
    requires !w.resetContinuous && Safe(s) && s.dev.attached
    requires (op.OpReset? || op.OpPowerUp?) && Do(w, s, op).1 == EOK
    ensures var t := Do(w, s, op).0;
            InSync(t) && (AlwaysInSync(w, t, ops) <==> NoneParts(w, t, ops))
  {
    hide WriteReg, Reset, PowerUp, AlwaysInSync, NoneParts;
    if op.OpReset? {
      ResetInSync(w, s);
    } else {
      PowerUpRights(w, s);
    }
    DoSafe(w, s, op);
    IdentityStays(w, s, op);
    RunFlagExact(w, Do(w, s, op).0, ops);
  }

  lemma PowerUpRights(w: World, s: Sys)
    requires !w.resetContinuous && Safe(s) && PowerUp(w, s).1 == EOK
    ensures InSync(PowerUp(w, s).0)
  {
    hide WriteReg, Reset;
    var s0 := if s.dev.pwdnPin >= 0 then s.(chip := DrivePower(w, s.chip, false)) else s;
    assert Safe(s0);
    ResetInSync(w, s0);
    ResetSafe(w, s0);
    var s1 := Reset(w, s0).0;
    var s2 := s1.(dev := s1.dev.(config0 := s.dev.config0, config1 := s.dev.config1));
    WriteInSync(w, s2, REG_CONFIG0, s.dev.config0);
    WriteSafe(w, s2, REG_CONFIG0, s.dev.config0);
    WriteInSync(w, WriteReg(w, s2, REG_CONFIG0, s.dev.config0).0, REG_CONFIG1, s.dev.config1);
  }
}
