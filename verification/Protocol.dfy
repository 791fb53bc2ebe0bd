/** Discipline on the bus: RREG and WREG are never sent to a chip in continuous mode. */
module Protocol {
  import opened Chips
  import opened Driver

  ghost predicate EntryOk(t: Traffic) {
    t.Spi? && t.continuous ==> !AccessesRegister(t.tx)
  }

  /** No register access has met a chip in continuous mode. */
  ghost predicate Disciplined(log: seq<Traffic>) {
    forall k :: 0 <= k < |log| ==> EntryOk(log[k])
  }

  /** The driver's flag never misses a chip in continuous mode. It may be set for a chip that is
      not: see `InSync`. */
  ghost predicate InStep(s: Sys) {
    && |s.chip.regs| == REGISTERS
    && (s.chip.continuous ==> s.dev.rdatac)
    && (s.chip.down ==> !s.chip.continuous)
  }

  /** The flag is right. */
  ghost predicate InSync(s: Sys) {
    s.dev.rdatac == s.chip.continuous
  }

  ghost predicate Safe(s: Sys) {
    InStep(s) && Disciplined(s.chip.log)
  }

  /** A message that neither changes the mode nor resets the chip. */
  predicate Ordinary(tx: seq<bv8>) {
    tx == [] || (tx[0] != CMD_RDATAC && tx[0] != CMD_SDATAC && tx[0] != CMD_RESET)
  }

  lemma SendSafe(w: World, s: Sys, tx: seq<bv8>)
    requires Safe(s) && Ordinary(tx) && (AccessesRegister(tx) ==> !s.chip.continuous)
    ensures Safe(Send(w, s, tx).0)
    ensures Send(w, s, tx).0.dev == s.dev
    ensures Send(w, s, tx).0.chip.continuous == s.chip.continuous
    ensures Send(w, s, tx).0.chip.down == s.chip.down
  {
  }

  /** Register messages are ordinary whatever register number is asked for. */
  lemma RegisterMessages(reg: bv8)
    ensures CMD_WREG | reg != CMD_RDATAC && CMD_WREG | reg != CMD_SDATAC && CMD_WREG | reg != CMD_RESET
    ensures CMD_RREG | reg != CMD_RDATAC && CMD_RREG | reg != CMD_SDATAC && CMD_RREG | reg != CMD_RESET
    ensures (CMD_RREG | reg) & 0xE0 != CMD_WREG
  {
  }

  lemma LeaveSafe(w: World, s: Sys)
    requires Safe(s)
    ensures var (s1, e) := LeaveContinuous(w, s);
            Safe(s1) && (e == EOK ==> !s1.dev.rdatac) && s1.chip.down == s.chip.down
    ensures var (s1, e) := LeaveContinuous(w, s);
            s1.dev == s.dev.(rdatac := s1.dev.rdatac)
  {
  }

  lemma WriteSafe(w: World, s: Sys, reg: bv8, val: bv8)
    requires Safe(s)
    ensures Safe(WriteReg(w, s, reg, val).0)
  {
    RegisterMessages(reg);
    LeaveSafe(w, s);
    var (s1, e) := LeaveContinuous(w, s);
    if s.dev.owner == NULL && e == EOK {
      SendSafe(w, s1, [CMD_WREG | reg, 0, val]);
    }
  }

  lemma ReadSafe(w: World, s: Sys, reg: bv8)
    requires Safe(s)
    ensures Safe(ReadReg(w, s, reg).0)
  {
    RegisterMessages(reg);
    LeaveSafe(w, s);
    var (s1, e) := LeaveContinuous(w, s);
    if s.dev.owner == NULL && e == EOK {
      SendSafe(w, s1, [CMD_RREG | reg, 0, 0]);
    }
  }

  lemma ReadDataSafe(w: World, s: Sys)
    requires Safe(s)
    ensures Safe(ReadData(w, s).0)
  {
    var s1 := WaitData(w, s).0;
    SendSafe(w, s1, ReadMessage(s1));
  }

  lemma ResetSafe(w: World, s: Sys)
    requires !w.resetContinuous && Disciplined(s.chip.log) && |s.chip.regs| == REGISTERS
    requires s.chip.down ==> !s.chip.continuous
    ensures Disciplined(Reset(w, s).0.chip.log)
    ensures Reset(w, s).1 == EOK ==> Safe(Reset(w, s).0)
    ensures InStep(s) ==> Safe(Reset(w, s).0)
  {
  }

  lemma PowerUpSafe(w: World, s: Sys)
    requires !w.resetContinuous && Safe(s)
    ensures Safe(PowerUp(w, s).0)
  {
    if s.dev.owner == NULL {
      var s0 := if s.dev.pwdnPin >= 0 then s.(chip := DrivePower(w, s.chip, false)) else s;
      assert Safe(s0);
      ResetSafe(w, s0);
      var (s1, e1) := Reset(w, s0);
      if e1 == EOK {
        var s2 := s1.(dev := s1.dev.(config0 := s.dev.config0, config1 := s.dev.config1));
        WriteSafe(w, s2, REG_CONFIG0, s.dev.config0);
        WriteSafe(w, WriteReg(w, s2, REG_CONFIG0, s.dev.config0).0, REG_CONFIG1, s.dev.config1);
      }
    }
  }

  /** The setters change nothing but the cache before they write. */
  lemma ConfigureSafe(w: World, s: Sys, config: bv8)
    requires Safe(s)
    ensures Safe(Configure0(w, s, config).0) && Safe(Configure1(w, s, config).0)
  {
    WriteSafe(w, s.(dev := s.dev.(config0 := config)), REG_CONFIG0, config);
    WriteSafe(w, s.(dev := s.dev.(config1 := config)), REG_CONFIG1, config);
  }

  lemma SetterSafe(w: World, s: Sys, op: Op)
    requires Safe(s) && Setter(op)
    ensures Safe(Do(w, s, op).0)
  {
    SetterConfigures(w, s, op);
    match ChangeOf(s.dev, op) {
      case Nothing =>
      case Zero(c0) => ConfigureSafe(w, s, c0);
      case One(c1) => ConfigureSafe(w, s, c1);
    }
  }

  lemma InputSafe(w: World, s: Sys, u: Setup)
    requires Safe(s)
    ensures Safe(SetInput(w, s, u))
  {
    hide WriteReg;
    ConfigureSafe(w, s, Replace(s.dev.config1, Pga(0x07), Pga(0)));
    var s1 := if u.noPga then s else SetGain(w, s, 1).0;
    ConfigureSafe(w, s1, Replace(s1.dev.config1, Mux(0x07), Mux(0)));
  }

  lemma DefaultsSafe(w: World, s: Sys, u: Setup)
    requires Safe(s)
    ensures Safe(WriteDefaults(w, s, u).0)
  {
    hide WriteReg, SetInput;
    ConfigureSafe(w, s, Flag(s.dev.config0, CFG0_MODE, true));
    var (s1, e1) := SetMode(w, s, true);
    ConfigureSafe(w, s1, Replace(s1.dev.config0, Dr(0x07), Dr(0)));
    var (s2, e2) := SetRate(w, s1, 250);
    ConfigureSafe(w, s2, Replace(s2.dev.config0, Filtr(0x03), Filtr(3)));
    var (s3, e3) := SetFilter(w, s2, 3);
    InputSafe(w, s3, u);
  }

  /** Before its first reset the chip may be in either mode; the reset is the first thing the
      driver sends. */
  lemma InitSafe(w: World, s: Sys, u: Setup)
    requires !w.resetContinuous && Disciplined(s.chip.log) && |s.chip.regs| == REGISTERS
    requires !s.chip.down && !s.dev.attached
    ensures InitEx(w, s, u).1 == EOK ==> Safe(InitEx(w, s, u).0)
  {
    var s1 := InitPins(s, u);
    var s2 := s1.(dev := s1.dev.(attached := true));
    var s3 := if u.resetPin >= 0 then s2.(chip := Sees(s2.chip, Output(ResetLine))) else s2;
    assert Disciplined(s3.chip.log);
    ResetSafe(w, s3);
    var (s4, e4) := Reset(w, s3);
    if e4 == EOK {
      ReadSafe(w, s4, REG_ID);
      assert Safe(CheckId(w, s4).0);
      DefaultsSafe(w, CheckId(w, s4).0, u);
    }
  }

  lemma CommandSafe(w: World, s: Sys, cmd: bv8)
    requires Safe(s) && Ordinary([cmd]) && !AccessesRegister([cmd])
    ensures Safe(Command(w, s, cmd).0)
  {
    SendSafe(w, s, [cmd]);
  }

  lemma StartSafe(w: World, s: Sys)
    requires Safe(s)
    ensures Safe(StartContinuous(w, s).0)
  {
  }

  /** Driving a pin other than RESET and PWDN means nothing to the mode. */
  lemma SeesSafe(s: Sys, t: Traffic)
    requires Safe(s) && !t.Spi?
    ensures Safe(s.(chip := Sees(s.chip, t)))
  {
  }

  lemma PowerSafe(w: World, s: Sys, high: bool)
    requires !w.resetContinuous && Safe(s)
    ensures Safe(s.(chip := DrivePower(w, s.chip, high)))
  {
  }

  lemma PinSafe(w: World, s: Sys, op: Op)
    requires !w.resetContinuous && Safe(s)
    requires op.OpSyncHw? || op.OpSetSyncPin? || op.OpSetPwdnPin? || op.OpPowerDown?
    ensures Safe(Do(w, s, op).0)
  {
    hide Transfer, DrivePower;
    match op {
      case OpSyncHw =>
        SendSafe(w, s, [CMD_SYNC]);
        SeesSafe(s, Level(SyncLine, false));
        SeesSafe(s.(chip := Sees(s.chip, Level(SyncLine, false))), Level(SyncLine, true));
      case OpSetSyncPin(pin) =>
        SeesSafe(s, Output(SyncLine));
        SeesSafe(s.(chip := Sees(s.chip, Output(SyncLine))), Level(SyncLine, true));
      case OpSetPwdnPin(pin) =>
        SeesSafe(s, Output(PowerDownLine));
      case OpPowerDown =>
        SendSafe(w, s, [CMD_STANDBY]);
        PowerSafe(w, s, true);
    }
  }

  lemma DoSafe(w: World, s: Sys, op: Op)
    requires !w.resetContinuous && Safe(s) && (op.OpInit? ==> s.dev.attached)
    ensures Safe(Do(w, s, op).0)
  {
    hide WriteReg, ReadReg, ReadData, LeaveContinuous, Reset, PowerUp, RegisterRead, Command;
    if Setter(op) {
      SetterSafe(w, s, op);
    } else {
      match op {
        case OpWriteReg(reg, val) => WriteSafe(w, s, reg, val);
        case OpReadReg(reg) => ReadSafe(w, s, reg);
        case OpCheckId => ReadSafe(w, s, REG_ID);
        case OpReadData => ReadDataSafe(w, s);
        case OpStart => StartSafe(w, s);
        case OpStop => LeaveSafe(w, s);
        case OpSetHpf(hpf) =>
          var low, high := LowByte(hpf), HighByte(hpf);
          WriteSafe(w, s, REG_HPF0, low);
          WriteSafe(w, WriteReg(w, s, REG_HPF0, low).0, REG_HPF1, high);
        case OpReset => ResetSafe(w, s);
        case OpPowerUp => PowerUpSafe(w, s);
        case OpAttach(_) =>
        case OpDetach(_) =>
        case OpInit(_) =>
        case OpSyncHw => PinSafe(w, s, op);
        case OpSetSyncPin(_) => PinSafe(w, s, op);
        case OpSetPwdnPin(_) => PinSafe(w, s, op);
        case OpPowerDown => PinSafe(w, s, op);
        case OpStandby => CommandSafe(w, s, CMD_STANDBY);
        case OpWakeup => CommandSafe(w, s, CMD_WAKEUP);
        case OpSync => CommandSafe(w, s, CMD_SYNC);
        case OpOffsetCal => CommandSafe(w, s, CMD_OFSCAL);
        case OpGainCal => CommandSafe(w, s, CMD_GANCAL);
      }
    }
  }

  /** The driver as loaded, wired to a chip that nobody has talked to. */
  ghost predicate Fresh(s: Sys) {
    && !s.dev.attached && s.dev.owner == NULL && !s.dev.rdatac
    && !s.chip.down && |s.chip.regs| == REGISTERS && s.chip.log == []
  }

  /** What no call changes once the device is initialised; the owner changes only by attaching
      and detaching. */
  lemma IdentityStays(w: World, s: Sys, op: Op)
    requires s.dev.attached
    ensures var s' := Do(w, s, op).0;
            && s'.dev.attached
            && s'.dev.resolution == s.dev.resolution
            && (!op.OpAttach? && !op.OpDetach? ==> s'.dev.owner == s.dev.owner)
  {
    hide WriteReg, ReadReg, RegisterRead, LeaveContinuous, Reset, PowerUp, Transfer, DrivePower, Decode, Answer,
         InitPins, WriteDefaults;
    if Setter(op) {
      hide ChangeOf, Configure0, Configure1;
      SetterConfigures(w, s, op);
      match ChangeOf(s.dev, op) {
        case Nothing =>
        case Zero(c0) => ConfigureFrame(w, s, c0);
        case One(c1) => ConfigureFrame(w, s, c1);
      }
    } else {
      match op {
        case OpWriteReg(reg, val) => WriteFrame(w, s, reg, val);
        case OpReadReg(reg) => ReadFrame(w, s, reg);
        case OpCheckId => ReadFrame(w, s, REG_ID);
        case OpStop => LeaveFrame(w, s);
        case OpSetHpf(hpf) =>
          var low, high := LowByte(hpf), HighByte(hpf);
          WriteFrame(w, s, REG_HPF0, low);
          WriteFrame(w, WriteReg(w, s, REG_HPF0, low).0, REG_HPF1, high);
        case OpReset => ResetFrame(w, s);
        case OpPowerUp => PowerUpFrame(w, s);
        case _ =>
      }
    }
  }

  /** Over any run of calls after a successful initialisation, whatever transfers fail and
      whoever owns the device, through power-downs and direct register access. */
  lemma {:induction false} RunSafe(w: World, s: Sys, ops: seq<Op>)
    requires !w.resetContinuous && Safe(s) && s.dev.attached
    ensures Safe(DoAll(w, s, ops)) && DoAll(w, s, ops).dev.attached
    ensures DoAll(w, s, ops).dev.resolution == s.dev.resolution
    decreases |ops|
  {
    if ops != [] {
      var before := ops[..|ops| - 1];
      RunSafe(w, s, before);
      DoSafe(w, DoAll(w, s, before), ops[|ops| - 1]);
      IdentityStays(w, DoAll(w, s, before), ops[|ops| - 1]);
    }
  }

  lemma InitAttaches(w: World, s: Sys, u: Setup)
    requires InitEx(w, s, u).1 == EOK
    ensures InitEx(w, s, u).0.dev.attached && InitEx(w, s, u).0.dev.resolution == RESOLUTION
  {
    hide ReadReg, RegisterRead, Reset, WriteDefaults;
    var s1 := InitPins(s, u);
    var s2 := s1.(dev := s1.dev.(attached := true));
    var s3 := if u.resetPin >= 0 then s2.(chip := Sees(s2.chip, Output(ResetLine))) else s2;
    ResetFrame(w, s3);
    var s4 := Reset(w, s3).0;
    ReadFrame(w, s4, REG_ID);
    DefaultsFrame(w, CheckId(w, s4).0, u);
  }

  lemma DefaultsFrame(w: World, s: Sys, u: Setup)
    ensures var s' := WriteDefaults(w, s, u).0;
            s'.dev == s.dev.(config0 := s'.dev.config0, config1 := s'.dev.config1, rdatac := s'.dev.rdatac)
  {
    hide Configure0, Configure1, SetInput;
    ConfigureFrame(w, s, Flag(s.dev.config0, CFG0_MODE, true));
    var s1 := SetMode(w, s, true).0;
    ConfigureFrame(w, s1, Replace(s1.dev.config0, Dr(0x07), Dr(0)));
    var s2 := SetRate(w, s1, 250).0;
    ConfigureFrame(w, s2, Replace(s2.dev.config0, Filtr(0x03), Filtr(3)));
    InputFrame(w, SetFilter(w, s2, 3).0, u);
  }

  lemma InputFrame(w: World, s: Sys, u: Setup)
    ensures var s' := SetInput(w, s, u);
            s'.dev == s.dev.(config1 := s'.dev.config1, rdatac := s'.dev.rdatac)
  {
    hide Configure1;
    ConfigureFrame(w, s, Replace(s.dev.config1, Pga(0x07), Pga(0)));
    var s1 := if u.noPga then s else SetGain(w, s, 1).0;
    ConfigureFrame(w, s1, Replace(s1.dev.config1, Mux(0x07), Mux(0)));
  }

  /** Continuous-mode protocol safety: if the chip is out of continuous mode after a reset, then
      after a successful initialisation no call ever sends RREG or WREG to a chip in continuous
      mode, and the driver's flag never misses that mode. */
  lemma ProtocolSafety(w: World, s: Sys, u: Setup, ops: seq<Op>)
    requires !w.resetContinuous && Fresh(s) && InitEx(w, s, u).1 == EOK
    ensures var t := DoAll(w, InitEx(w, s, u).0, ops);
            && Disciplined(t.chip.log)
            && (t.chip.continuous ==> t.dev.rdatac)
  {
    InitSafe(w, s, u);
    InitAttaches(w, s, u);
    RunSafe(w, InitEx(w, s, u).0, ops);
  }

  // ---------------------------------------------------------------------------
  // The assumption about the mode after reset is needed

  ghost predicate AlwaysDisciplined(resetContinuous: bool) {
    forall w: World, s: Sys, u: Setup, ops: seq<Op> ::
      w.resetContinuous == resetContinuous && Fresh(s) && InitEx(w, s, u).1 == EOK ==>
        Disciplined(DoAll(w, InitEx(w, s, u).0, ops).chip.log)
  }

  /** A bus on which every transfer succeeds. */
  function QuietWorld(resetContinuous: bool): World {
    World(resetContinuous, 0, (_: nat) => true, (_: nat, _: nat) => 0, (_: nat) => true,
          (_: nat) => 0, (_: nat) => 0, (_: nat, _: nat) => 0)
  }

  const POWER_ON: Sys :=
    Sys(Dev(false, 0, 0, 0, 0, 0, 0, 0, false, NULL), Chip(seq(REGISTERS, _ => 0), false, false, []))

  const NO_PINS := Setup(-1, -1, -1, false, false, true, true)

  /** The identity check, the first message after the reset, is itself a register access. */
  lemma IdCheckMeetsContinuousMode()
    ensures Fresh(POWER_ON)
    ensures var (s, e) := InitEx(QuietWorld(true), POWER_ON, NO_PINS);
            && e == EOK && [Spi([CMD_RESET], false), Spi([CMD_RREG | REG_ID, 0, 0], true)] <= s.chip.log
            && EntryOk(s.chip.log[0]) && !EntryOk(s.chip.log[1]) && !Disciplined(s.chip.log)
  {
    var w := QuietWorld(true);
    var s1 := InitPins(POWER_ON, NO_PINS);
    var s2 := s1.(dev := s1.dev.(attached := true));
    var s4 := Reset(w, s2).0;
    assert s4.chip.log == [Spi([CMD_RESET], false)];
    var s5 := CheckId(w, s4).0;
    assert s5.chip.log == [Spi([CMD_RESET], false), Spi([CMD_RREG | REG_ID, 0, 0], true)];
    assert !EntryOk(s5.chip.log[1]);
    DefaultsSucceed(w, s5, NO_PINS);
    assert !EntryOk(InitEx(w, POWER_ON, NO_PINS).0.chip.log[1]);
  }

  lemma ConfigureSucceeds(w: World, s: Sys, config: bv8)
    requires !s.dev.rdatac && s.dev.owner == NULL && w.ok(|s.chip.log|)
    ensures var (s', e) := Configure0(w, s, config);
            && e == EOK && s.chip.log <= s'.chip.log && |s'.chip.log| == |s.chip.log| + 1
            && !s'.dev.rdatac && s'.dev.owner == NULL
    ensures var (s', e) := Configure1(w, s, config);
            && e == EOK && s.chip.log <= s'.chip.log && |s'.chip.log| == |s.chip.log| + 1
            && !s'.dev.rdatac && s'.dev.owner == NULL
  {
  }

  /** On a bus that works meanwhile the defaults are written, one message each, and nothing takes
      back what was sent. */
  lemma DefaultsSucceed(w: World, s: Sys, u: Setup)
    requires !s.dev.rdatac && s.dev.owner == NULL
    requires forall t :: |s.chip.log| <= t < |s.chip.log| + 5 ==> w.ok(t)
    ensures var (s', e) := WriteDefaults(w, s, u);
            && e == EOK && s.chip.log <= s'.chip.log && !s'.dev.rdatac
            && |s'.chip.log| == |s.chip.log| + 3 + (if u.noPga then 0 else 1) + if u.singleChannel then 0 else 1
  {
    hide WriteReg, Flag, Replace, Configure0, Configure1;
    ConfigureSucceeds(w, s, Flag(s.dev.config0, CFG0_MODE, true));
    var s1 := SetMode(w, s, true).0;
    ConfigureSucceeds(w, s1, Replace(s1.dev.config0, Dr(0x07), Dr(0)));
    var s2 := SetRate(w, s1, 250).0;
    ConfigureSucceeds(w, s2, Replace(s2.dev.config0, Filtr(0x03), Filtr(3)));
    var s3 := SetFilter(w, s2, 3).0;
    ConfigureSucceeds(w, s3, Replace(s3.dev.config1, Pga(0x07), Pga(0)));
    var s4 := if u.noPga then s3 else SetGain(w, s3, 1).0;
    ConfigureSucceeds(w, s4, Replace(s4.dev.config1, Mux(0x07), Mux(0)));
  }

  /** The discipline rests on one fact about the chip: that a reset leaves it out of continuous
      mode. If it does not, a plain initialisation already breaks the rule. */
  lemma DisciplineExact(resetContinuous: bool)
    ensures AlwaysDisciplined(resetContinuous) <==> !resetContinuous
  {
    if resetContinuous {
      IdCheckMeetsContinuousMode();
      var w := QuietWorld(true);
      assert DoAll(w, InitEx(w, POWER_ON, NO_PINS).0, []) == InitEx(w, POWER_ON, NO_PINS).0;
    } else {
      forall w: World, s: Sys, u: Setup, ops: seq<Op>
          | w.resetContinuous == resetContinuous && Fresh(s) && InitEx(w, s, u).1 == EOK
        ensures Disciplined(DoAll(w, InitEx(w, s, u).0, ops).chip.log)
      {
        ProtocolSafety(w, s, u, ops);
      }
    }
  }
}
