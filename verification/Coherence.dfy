/** The cached CONFIG0 and CONFIG1 against the chip's own registers. */
module Coherence {
  import opened Chips
  import opened Driver
  import opened Protocol

  /** What the driver believes is what a chip under power holds. */
  ghost predicate Coherent(s: Sys) {
    !s.chip.down && |s.chip.regs| == REGISTERS ==>
      s.chip.regs[1] == s.dev.config0 && s.chip.regs[2] == s.dev.config1
  }

  // ---------------------------------------------------------------------------
  // Register writes

  /** The device is free and the one or two messages of a register write get through. A caller
      can tell the first; the second is up to the bus. */
  ghost predicate WillDeliver(w: World, s: Sys) {
    && s.dev.owner == NULL
    && w.ok(|s.chip.log|)
    && (s.dev.rdatac ==> w.ok(|s.chip.log| + 1))
  }

  /** The register a write of number `reg` stores into, 0 for none. The number is merged into the
      command byte as it is, so 0x41 addresses CONFIG0 just as 0x01 does. */
  function Addressed(reg: bv8): nat {
    var cmd := CMD_WREG | reg;
    var r := (cmd & 0x1F) as nat;
    if cmd & 0xE0 == CMD_WREG && r < REGISTERS then r else 0
  }

  /** A write succeeds exactly when it can be delivered, and then the chip has the value although
      it would ignore WREG in continuous mode. Otherwise, and when the chip is powered down or
      there is no such register, its registers stay as they are. */
  lemma WriteOutcome(w: World, s: Sys, reg: bv8, val: bv8)
    requires InStep(s)
    ensures var (s', e) := WriteReg(w, s, reg, val);
            && e == (if s.dev.owner != NULL then EBUSY else if WillDeliver(w, s) then EOK else EIO)
            && s'.chip.regs == (if e == EOK && !s.chip.down && Addressed(reg) > 0
                                then s.chip.regs[Addressed(reg) := val] else s.chip.regs)
            && s'.dev == s.dev.(rdatac := s'.dev.rdatac)
            && s'.chip.down == s.chip.down
            && (e == EOK ==> !s'.dev.rdatac && !s'.chip.continuous)
  {
    hide Execute, Sees, Addressed;
    LeaveOutcome(w, s);
    var (s1, e) := LeaveContinuous(w, s);
    if s.dev.owner == NULL && e == EOK {
      SeesOnly(s1.chip, Spi([CMD_WREG | reg, 0, val], s1.chip.continuous));
      Stored(w, Sees(s1.chip, Spi([CMD_WREG | reg, 0, val], s1.chip.continuous)), reg, val);
    }
  }

  /** What leaving continuous mode comes to, delivered or not. */
  lemma LeaveOutcome(w: World, s: Sys)
    requires InStep(s)
    ensures var (s1, e) := LeaveContinuous(w, s);
            && e == (if s.dev.rdatac && !w.ok(|s.chip.log|) then EIO else EOK)
            && s1.dev == s.dev.(rdatac := s.dev.rdatac && e != EOK)
            && s1.chip == s.chip.(continuous := s1.chip.continuous, log := s1.chip.log)
            && |s1.chip.log| == |s.chip.log| + (if s.dev.rdatac then 1 else 0)
            && (e == EOK ==> !s1.chip.continuous)
  {
  }

  lemma SeesOnly(chip: Chip, t: Traffic)
    ensures Sees(chip, t) == chip.(log := Sees(chip, t).log)
  {
  }

  lemma Stored(w: World, chip: Chip, reg: bv8, val: bv8)
    requires |chip.regs| == REGISTERS && !chip.continuous
    ensures Execute(w, chip, [CMD_WREG | reg, 0, val]) ==
            if !chip.down && Addressed(reg) > 0 then chip.(regs := chip.regs[Addressed(reg) := val]) else chip
  {
    RegisterMessages(reg);
  }

  /** Register numbers of the map address themselves; 0x41 and 0x42, far beyond it, address CONFIG0
      and CONFIG1. */
  lemma Addresses(reg: bv8)
    ensures reg < 11 ==> Addressed(reg) == reg as nat
    ensures Addressed(0x41) == 1 && Addressed(0x42) == 2
  {
  }

  /** The setter would put nothing new into the cache. */
  ghost predicate Harmless(dev: Dev, op: Op)
    requires Setter(op)
  {
    match ChangeOf(dev, op)
    case Nothing => true
    case Zero(c0) => c0 == dev.config0 || (op.OpSetSyncMode? && dev.owner != NULL)
    case One(c1) => c1 == dev.config1
  }

  /** Most setters change the cache before the ownership check and before the transfer. From a
      coherent state a setter leaves cache and chip equal if and only if its write is delivered
      or it asks for what is already set; in particular a rejected `ads128x_set_mode` does not. */
  lemma SetterCoherenceExact(w: World, s: Sys, op: Op)
    requires InStep(s) && Coherent(s) && !s.chip.down && Setter(op)
    ensures Coherent(Do(w, s, op).0) <==> WillDeliver(w, s) || Harmless(s.dev, op)
  {
    hide WriteReg, ChangeOf, InStep;
    SetterConfigures(w, s, op);
    match ChangeOf(s.dev, op) {
      case Nothing =>
      case Zero(c0) => Write0(w, s, c0);
      case One(c1) => Write1(w, s, c1);
    }
  }

  lemma Write0(w: World, s: Sys, c0: bv8)
    requires InStep(s) && Coherent(s) && !s.chip.down
    ensures var (s', e) := Configure0(w, s, c0);
            && (e == EOK <==> WillDeliver(w, s))
            && (Coherent(s') <==> e == EOK || c0 == s.dev.config0)
            && s'.dev == s.dev.(config0 := c0, rdatac := s'.dev.rdatac)
            && !s'.chip.down
  {
    Addresses(REG_CONFIG0);
    WriteOutcome(w, s.(dev := s.dev.(config0 := c0)), REG_CONFIG0, c0);
  }

  lemma Write1(w: World, s: Sys, c1: bv8)
    requires InStep(s) && Coherent(s) && !s.chip.down
    ensures var (s', e) := Configure1(w, s, c1);
            && (e == EOK <==> WillDeliver(w, s))
            && (Coherent(s') <==> e == EOK || c1 == s.dev.config1)
            && s'.dev == s.dev.(config1 := c1, rdatac := s'.dev.rdatac)
            && !s'.chip.down
  {
    Addresses(REG_CONFIG1);
    WriteOutcome(w, s.(dev := s.dev.(config1 := c1)), REG_CONFIG1, c1);
  }

  /** The register number reaches CONFIG0 or CONFIG1, under its own name or as an alias. */
  predicate ReachesConfig(reg: bv8) {
    Addressed(reg) == 1 || Addressed(reg) == 2
  }

  /** The write would put into CONFIG0 or CONFIG1 what the cache says anyway, if anything. */
  predicate Repeats(dev: Dev, reg: bv8, val: bv8) {
    && (Addressed(reg) == 1 ==> val == dev.config0)
    && (Addressed(reg) == 2 ==> val == dev.config1)
  }

  /** ads128x_write_reg does not touch the cache: from a coherent state it breaks coherence if
      and only if it is delivered to a configuration register with another value. */
  lemma DirectWriteExact(w: World, s: Sys, reg: bv8, val: bv8)
    requires InStep(s) && Coherent(s) && !s.chip.down
    ensures Coherent(WriteReg(w, s, reg, val).0) <==> !WillDeliver(w, s) || Repeats(s.dev, reg, val)
  {
    hide WriteReg;
    WriteOutcome(w, s, reg, val);
  }

  /** What a register read returns: in step, a read that succeeds gets the chip's register. */
  lemma ReadOutcome(w: World, s: Sys, reg: bv8)
    requires InStep(s)
    ensures var (s', e) := ReadReg(w, s, reg);
            && (e == EOK <==> WillDeliver(w, s))
            && (e == EOK && !s.chip.down && reg < 11 ==> RegisterRead(w, s, reg) == s.chip.regs[reg])
            && s'.chip.regs == s.chip.regs
  {
    assert reg < 11 ==> (CMD_RREG | reg) & 0xE0 == CMD_RREG && (CMD_RREG | reg) & 0x1F == reg;
    RegisterMessages(reg);
  }

  // ---------------------------------------------------------------------------
  // Power-up

  /** The chip with its supply back, before the reset of ads128x_power_up. */
  function Supplied(w: World, s: Sys): Sys {
    if s.dev.pwdnPin >= 0 then s.(chip := DrivePower(w, s.chip, false)) else s
  }

  /** After the reset, with the saved configuration back in the cache and not yet in the chip. */
  function Restoring(w: World, s: Sys): Sys {
    var s1 := Reset(w, Supplied(w, s)).0;
    s1.(dev := s1.dev.(config0 := s.dev.config0, config1 := s.dev.config1))
  }

  /** The reset and the two writes get through, as far as they are needed: a chip whose power is
      still cut has nothing to restore, without a reset the registers must have come back by
      chance as the cache has them, and what equals the reset value is there already. */
  ghost predicate RestoreDelivered(w: World, s: Sys) {
    var s2 := Restoring(w, s);
    || s.dev.owner != NULL || s2.chip.down
    || (if Reset(w, Supplied(w, s)).1 != EOK then Coherent(Supplied(w, s))
        else if WillDeliver(w, s2) then
          WillDeliver(w, WriteReg(w, s2, REG_CONFIG0, s.dev.config0).0) || s.dev.config1 == 0x08
        else s.dev.config0 == 0x52 && s.dev.config1 == 0x08)
  }

  /** A power-up leaves cache and chip equal if and only if reset and restoring writes get through. */
  lemma PowerUpExact(w: World, s: Sys)
    requires !w.resetContinuous && Safe(s) && Coherent(s)
    ensures Coherent(PowerUp(w, s).0) <==> RestoreDelivered(w, s)
  {
    hide WriteReg, Reset, WillDeliver;
    if s.dev.owner == NULL {
      var s0 := Supplied(w, s);
      SuppliedSafe(w, s);
      ResetSafe(w, s0);
      ResetCoherent(w, s0);
      if Reset(w, s0).1 == EOK {
        RestoreExact(w, Restoring(w, s));
      }
    }
  }

  lemma SuppliedSafe(w: World, s: Sys)
    requires !w.resetContinuous && Safe(s)
    ensures Safe(Supplied(w, s)) && Supplied(w, s).dev == s.dev
    ensures s.chip.down || Coherent(Supplied(w, s)) == Coherent(s)
    ensures Supplied(w, s).chip.down <==> s.chip.down && s.dev.pwdnPin < 0
  {
  }

  /** The writes that bring the cache back into a chip that has just been reset. */
  lemma RestoreExact(w: World, s: Sys)
    requires InStep(s)
    requires !s.chip.down ==> s.chip.regs[1] == 0x52 && s.chip.regs[2] == 0x08
    ensures var (s1, e1) := WriteReg(w, s, REG_CONFIG0, s.dev.config0);
            var (s2, e2) := WriteReg(w, s1, REG_CONFIG1, s.dev.config1);
            && (e1 == EOK <==> WillDeliver(w, s))
            && (!s.chip.down && !WillDeliver(w, s) ==>
                  (Coherent(s1) <==> s.dev.config0 == 0x52 && s.dev.config1 == 0x08))
            && (!s.chip.down && WillDeliver(w, s) ==>
                  (Coherent(s2) <==> WillDeliver(w, s1) || s.dev.config1 == 0x08))
            && (e1 == EOK && e2 == EOK && !s.chip.down ==>
                  && s2.dev == s.dev.(rdatac := false)
                  && s2.chip.regs == s.chip.regs[1 := s.dev.config0][2 := s.dev.config1]
                  && !s2.chip.continuous)
            && s1.chip.down == s.chip.down && s2.chip.down == s.chip.down
  {
    hide WriteReg, Addressed;
    Addresses(REG_CONFIG0);
    Addresses(REG_CONFIG1);
    WriteOutcome(w, s, REG_CONFIG0, s.dev.config0);
    var s1 := WriteReg(w, s, REG_CONFIG0, s.dev.config0).0;
    if WillDeliver(w, s) {
      WriteOutcome(w, s1, REG_CONFIG1, s.dev.config1);
    } else {
      PowerStays(w, s1, REG_CONFIG1, s.dev.config1);
    }
  }

  // ---------------------------------------------------------------------------
  // Runs

  /** What keeps a coherent pair coherent over one call, for a caller who knows the state and what
      the bus will do. While the chip's power is cut only power-up needs anything. */
  ghost predicate Keeps(w: World, s: Sys, op: Op) {
    if op.OpPowerUp? then RestoreDelivered(w, s)
    else if s.chip.down then true
    else if Setter(op) then WillDeliver(w, s) || Harmless(s.dev, op)
    else op.OpWriteReg? ==> !WillDeliver(w, s) || Repeats(s.dev, op.reg, op.val)
  }

  /** A message that is no register write, reset or mode change leaves the registers alone. */
  lemma SendKeepsRegisters(w: World, s: Sys, tx: seq<bv8>)
    requires tx == [] || (tx[0] != CMD_RESET && !WritesRegister(tx))
    ensures var s' := Send(w, s, tx).0;
            s'.dev == s.dev && s'.chip.regs == s.chip.regs && s'.chip.down == s.chip.down
  {
  }

  lemma LeaveKeepsRegisters(w: World, s: Sys)
    ensures var s' := LeaveContinuous(w, s).0;
            s'.dev == s.dev.(rdatac := s'.dev.rdatac) && s'.chip.regs == s.chip.regs
              && s'.chip.down == s.chip.down
  {
  }

  /** The high-pass registers are not the configuration registers. */
  lemma HpfCoherent(w: World, s: Sys, low: bv8, high: bv8)
    requires Safe(s) && Coherent(s)
    ensures Coherent(SetHpf(w, s, low, high).0)
  {
    hide WriteReg, Addressed;
    Addresses(REG_HPF0);
    Addresses(REG_HPF1);
    WriteOutcome(w, s, REG_HPF0, low);
    var s1 := WriteReg(w, s, REG_HPF0, low).0;
    WriteSafe(w, s, REG_HPF0, low);
    WriteOutcome(w, s1, REG_HPF1, high);
  }

  lemma ReadCoherent(w: World, s: Sys, reg: bv8)
    requires Coherent(s)
    ensures Coherent(ReadReg(w, s, reg).0)
  {
    RegisterMessages(reg);
    LeaveKeepsRegisters(w, s);
    var s1 := LeaveContinuous(w, s).0;
    SendKeepsRegisters(w, s1, [CMD_RREG | reg, 0, 0]);
  }

  /** A reset that succeeds makes cache and chip equal whatever they were; one that fails
      changes neither. */
  lemma ResetCoherent(w: World, s: Sys)
    ensures var (s', e) := Reset(w, s);
            && (e == EOK ==>
                  && Coherent(s') && s'.dev.config0 == 0x52 && s'.dev.config1 == 0x08 && !s'.dev.rdatac
                  && (!s.chip.down ==> s'.chip.regs == Defaults(w) && s'.chip.continuous == w.resetContinuous))
            && (e != EOK ==> s'.dev == s.dev && s'.chip == s.chip.(log := s'.chip.log))
            && (Coherent(s) ==> Coherent(s'))
            && (s.dev.owner == NULL ==> e == EOK || e == EIO)
            && s'.chip.down == s.chip.down
            && s'.dev.owner == s.dev.owner && s'.dev.resolution == s.dev.resolution
  {
  }

  lemma PowerStays(w: World, s: Sys, reg: bv8, val: bv8)
    ensures WriteReg(w, s, reg, val).0.chip.down == s.chip.down
  {
    hide Send;
    LeaveKeepsRegisters(w, s);
    SendKeepsPower(w, LeaveContinuous(w, s).0, reg, val);
  }

  lemma SendKeepsPower(w: World, s: Sys, reg: bv8, val: bv8)
    ensures var s' := Send(w, s, [CMD_WREG | reg, 0, val]).0;
            s'.chip.down == s.chip.down
  {
    hide WritesRegister;
    RegisterMessages(reg);
  }

  lemma CommandCoherent(w: World, s: Sys, cmd: bv8)
    requires Coherent(s) && cmd != CMD_RESET && !WritesRegister([cmd])
    ensures Coherent(Command(w, s, cmd).0)
  {
    hide Send;
    SendKeepsRegisters(w, s, [cmd]);
  }

  /** The calls that end in a pin or a single message. */
  lemma PinCoherent(w: World, s: Sys, op: Op)
    requires Coherent(s)
    requires op.OpStart? || op.OpReadData? || op.OpSyncHw? || op.OpSetSyncPin? || op.OpSetPwdnPin? || op.OpPowerDown?
    ensures Coherent(Do(w, s, op).0)
  {
    hide Send, Decode, Answer;
    match op {
      case OpStart => SendKeepsRegisters(w, s, [CMD_RDATAC]);
      case OpReadData => SendKeepsRegisters(w, WaitData(w, s).0, ReadMessage(s));
      case OpSyncHw => SendKeepsRegisters(w, s, [CMD_SYNC]);
      case OpPowerDown => SendKeepsRegisters(w, s, [CMD_STANDBY]);
      case _ =>
    }
  }

  lemma SetterKeeps(w: World, s: Sys, op: Op)
    requires InStep(s) && Coherent(s) && Setter(op)
    ensures Coherent(Do(w, s, op).0) <==> Keeps(w, s, op)
  {
    hide Do, WriteReg, InStep, ChangeOf;
    if s.chip.down {
      SetterConfigures(w, s, op);
      match ChangeOf(s.dev, op) {
        case Nothing =>
        case Zero(c0) => PowerStays(w, s.(dev := s.dev.(config0 := c0)), REG_CONFIG0, c0);
        case One(c1) => PowerStays(w, s.(dev := s.dev.(config1 := c1)), REG_CONFIG1, c1);
      }
    } else {
      SetterCoherenceExact(w, s, op);
    }
  }

  lemma WriteKeeps(w: World, s: Sys, reg: bv8, val: bv8)
    requires InStep(s) && Coherent(s)
    ensures Coherent(WriteReg(w, s, reg, val).0) <==> Keeps(w, s, OpWriteReg(reg, val))
  {
    if s.chip.down {
      PowerStays(w, s, reg, val);
    } else {
      DirectWriteExact(w, s, reg, val);
    }
  }

  /** Every call, from a coherent state. */
  lemma DoExact(w: World, s: Sys, op: Op)
    requires !w.resetContinuous && Safe(s) && s.dev.attached && Coherent(s)
    ensures Coherent(Do(w, s, op).0) <==> Keeps(w, s, op)
  {
    hide WriteReg, ReadReg, Reset, PowerUp, RegisterRead, LeaveContinuous, WriteDefaults, Command, Coherent, SetHpf;
    if Setter(op) {
      SetterKeeps(w, s, op);
    } else {
      hide RestoreDelivered, WillDeliver, Repeats;
      match op {
        case OpWriteReg(reg, val) => WriteKeeps(w, s, reg, val);
        case OpReadReg(reg) => ReadCoherent(w, s, reg);
        case OpCheckId => ReadCoherent(w, s, REG_ID);
        case OpStop => StopCoherent(w, s);
        case OpSetHpf(hpf) => HpfCoherent(w, s, LowByte(hpf), HighByte(hpf));
        case OpReset => ResetCoherent(w, s);
        case OpPowerUp => PowerUpExact(w, s);
        case OpStandby => CommandCoherent(w, s, CMD_STANDBY);
        case OpWakeup => CommandCoherent(w, s, CMD_WAKEUP);
        case OpSync => CommandCoherent(w, s, CMD_SYNC);
        case OpOffsetCal => CommandCoherent(w, s, CMD_OFSCAL);
        case OpGainCal => CommandCoherent(w, s, CMD_GANCAL);
        case OpAttach(_) => OwnerCoherent(w, s, op);
        case OpDetach(_) => OwnerCoherent(w, s, op);
        case OpInit(_) =>
        case _ => PinCoherent(w, s, op);
      }
    }
  }

  lemma StopCoherent(w: World, s: Sys)
    requires Coherent(s)
    ensures Coherent(StopContinuous(w, s).0)
  {
    hide LeaveContinuous;
    LeaveKeepsRegisters(w, s);
  }

  lemma OwnerCoherent(w: World, s: Sys, op: Op)
    requires Coherent(s) && (op.OpAttach? || op.OpDetach?)
    ensures Coherent(Do(w, s, op).0)
  {
  }

  /** Coherent at every moment of the run. */
  ghost predicate AlwaysCoherent(w: World, s: Sys, ops: seq<Op>) {
    forall k :: 0 <= k <= |ops| ==> Coherent(DoAll(w, s, ops[..k]))
  }

  ghost predicate AllKeep(w: World, s: Sys, ops: seq<Op>) {
    forall k :: 0 <= k < |ops| ==> Keeps(w, DoAll(w, s, ops[..k]), ops[k])
  }

  /** Exactly which runs keep cache and chip equal throughout, whatever transfers fail and whoever
      owns the device. */
  lemma {:induction false} RunCoherenceExact(w: World, s: Sys, ops: seq<Op>)
    requires !w.resetContinuous && Safe(s) && s.dev.attached && Coherent(s)
    ensures AlwaysCoherent(w, s, ops) <==> AllKeep(w, s, ops)
    decreases |ops|
  {
    hide Do, Keeps, Coherent, Safe;
    if ops == [] {
      assert forall k :: 0 <= k <= |ops| ==> ops[..k] == [];
    } else {
      var before, op := ops[..|ops| - 1], ops[|ops| - 1];
      RunCoherenceExact(w, s, before);
      LastCall(w, s, ops);
      if AlwaysCoherent(w, s, before) {
        assert before[..|before|] == before;
        RunSafe(w, s, before);
        DoExact(w, DoAll(w, s, before), op);
      }
    }
  }

  /** Both sides of the equivalence, split off at the last call. */
  lemma LastCall(w: World, s: Sys, ops: seq<Op>)
    requires ops != []
    ensures var before := ops[..|ops| - 1];
            && (AlwaysCoherent(w, s, ops) <==> AlwaysCoherent(w, s, before) && Coherent(DoAll(w, s, ops)))
            && (AllKeep(w, s, ops) <==> AllKeep(w, s, before) && Keeps(w, DoAll(w, s, before), ops[|ops| - 1]))
  {
    hide Do, Keeps, Coherent, DoAll;
    var before := ops[..|ops| - 1];
    assert forall k :: 0 <= k <= |before| ==> before[..k] == ops[..k];
    assert ops[..|ops|] == ops;
  }

  /** Not a setter on an owned device, nor a direct write of a configuration register; and no setter
      or power-up is cut short by the bus. Other calls may fail as they please. */
  ghost predicate Orderly(w: World, s: Sys, op: Op) {
    && (Setter(op) ==> s.dev.owner == NULL || op.OpSetSyncMode?)
    && (op.OpWriteReg? ==> !ReachesConfig(op.reg))
    && (Setter(op) || op.OpPowerUp? ==> Do(w, s, op).1 != EIO)
  }

  ghost predicate OrderlyRun(w: World, s: Sys, ops: seq<Op>) {
    forall k :: 0 <= k < |ops| ==> Orderly(w, DoAll(w, s, ops[..k]), ops[k])
  }

  lemma OrderlyKeeps(w: World, s: Sys, op: Op)
    requires !w.resetContinuous && Safe(s) && s.dev.attached && Orderly(w, s, op)
    ensures Keeps(w, s, op)
  {
    hide WriteReg, Reset, Addressed;
    if Setter(op) {
      SetterConfigures(w, s, op);
      if s.dev.owner == NULL {
        WriteAnswers(w, s, op);
      }
    } else if op.OpPowerUp? && s.dev.owner == NULL {
      SuppliedSafe(w, s);
      ResetSafe(w, Supplied(w, s));
      ResetCoherent(w, Supplied(w, s));
      var s2 := Restoring(w, s);
      WriteOutcome(w, s2, REG_CONFIG0, s.dev.config0);
      var s3 := WriteReg(w, s2, REG_CONFIG0, s.dev.config0).0;
      if Reset(w, Supplied(w, s)).1 == EOK && WillDeliver(w, s2) {
        WriteSafe(w, s2, REG_CONFIG0, s.dev.config0);
        WriteOutcome(w, s3, REG_CONFIG1, s.dev.config1);
      }
    }
  }

  lemma WriteAnswers(w: World, s: Sys, op: Op)
    requires InStep(s) && Setter(op) && s.dev.owner == NULL
    ensures match ChangeOf(s.dev, op)
            case Nothing => true
            case Zero(c0) => Configure0(w, s, c0).1 == if WillDeliver(w, s) then EOK else EIO
            case One(c1) => Configure1(w, s, c1).1 == if WillDeliver(w, s) then EOK else EIO
  {
    hide WriteReg, Addressed, ChangeOf;
    match ChangeOf(s.dev, op) {
      case Nothing =>
      case Zero(c0) => WriteOutcome(w, s.(dev := s.dev.(config0 := c0)), REG_CONFIG0, c0);
      case One(c1) => WriteOutcome(w, s.(dev := s.dev.(config1 := c1)), REG_CONFIG1, c1);
    }
  }

  lemma RunCoherent(w: World, s: Sys, ops: seq<Op>)
    requires !w.resetContinuous && Safe(s) && s.dev.attached && Coherent(s)
    requires OrderlyRun(w, s, ops)
    ensures AlwaysCoherent(w, s, ops) && Coherent(DoAll(w, s, ops))
  {
    hide Do, Keeps, Coherent, Orderly;
    forall k | 0 <= k < |ops|
      ensures Keeps(w, DoAll(w, s, ops[..k]), ops[k])
    {
      RunSafe(w, s, ops[..k]);
      OrderlyKeeps(w, DoAll(w, s, ops[..k]), ops[k]);
    }
    RunCoherenceExact(w, s, ops);
    assert ops[..|ops|] == ops;
  }

  // ---------------------------------------------------------------------------
  // Initialisation

  lemma InputCoherent(w: World, s: Sys, u: Setup)
    requires Safe(s) && !s.chip.down && Coherent(s) && s.dev.config1 == 0x08
    ensures var s' := SetInput(w, s, u);
            Coherent(s') && !s'.chip.down && s'.dev.config0 == s.dev.config0 && s'.dev.config1 == 0x08
  {
    hide WriteReg, InStep;
    assert Replace(0x08, Pga(0x07), Pga(0)) == 0x08;
    assert Replace(0x08, Mux(0x07), Mux(0)) == 0x08;
    Write1(w, s, 0x08);
    ConfigureSafe(w, s, 0x08);
    var s1 := if u.noPga then s else SetGain(w, s, 1).0;
    Write1(w, s1, 0x08);
  }

  lemma DefaultsCoherent(w: World, s: Sys, u: Setup)
    requires Safe(s) && !s.chip.down && Coherent(s) && s.dev.config0 == 0x52 && s.dev.config1 == 0x08
    requires WriteDefaults(w, s, u).1 == EOK
    ensures var s' := WriteDefaults(w, s, u).0;
            Coherent(s') && !s'.chip.down && s'.dev.config0 == 0x43 && s'.dev.config1 == 0x08
  {
    hide WriteReg, InStep, SetInput;
    assert Flag(0x52, CFG0_MODE, true) == 0x52;
    assert Replace(0x52, Dr(0x07), Dr(0)) == 0x42;
    assert Replace(0x42, Filtr(0x03), Filtr(3)) == 0x43;
    Write0(w, s, 0x52);
    ConfigureSafe(w, s, 0x52);
    var s1 := SetMode(w, s, true).0;
    Write0(w, s1, 0x42);
    ConfigureSafe(w, s1, 0x42);
    var s2 := SetRate(w, s1, 250).0;
    Write0(w, s2, 0x43);
    ConfigureSafe(w, s2, 0x43);
    InputCoherent(w, SetFilter(w, s2, 3).0, u);
  }

  /** A successful initialisation leaves cache and chip equal, in high-resolution mode at 250
      SPS with all filter stages. The results of setting gain and input are ignored, which does
      no harm because both are what the reset left. */
  lemma InitCoherent(w: World, s: Sys, u: Setup)
    requires !w.resetContinuous && Fresh(s) && InitEx(w, s, u).1 == EOK
    ensures var s' := InitEx(w, s, u).0;
            && Coherent(s') && !s'.chip.down
            && s'.dev.config0 == 0x43 && s'.dev.config1 == 0x08
  {
    hide WriteReg, Reset, ReadReg, RegisterRead, WriteDefaults;
    var s1 := InitPins(s, u);
    var s2 := s1.(dev := s1.dev.(attached := true));
    var s3 := if u.resetPin >= 0 then s2.(chip := Sees(s2.chip, Output(ResetLine))) else s2;
    ResetSafe(w, s3);
    ResetCoherent(w, s3);
    var (s4, e4) := Reset(w, s3);
    ReadSafe(w, s4, REG_ID);
    IdLeavesConfig(w, s4);
    DefaultsCoherent(w, CheckId(w, s4).0, u);
  }

  /** On a bus that works, initialisation succeeds; the identity check's verdict is ignored. */
  lemma InitSucceeds(w: World, s: Sys, u: Setup)
    requires !w.resetContinuous && Fresh(s) && (forall t :: w.ok(t)) && u.busAttaches && u.busConfigures
    ensures InitEx(w, s, u).1 == EOK && InitEx(w, s, u).0.dev.owner == NULL
  {
    hide WriteReg, Reset, RegisterRead, WriteDefaults;
    var s1 := InitPins(s, u);
    var s2 := s1.(dev := s1.dev.(attached := true));
    var s3 := if u.resetPin >= 0 then s2.(chip := Sees(s2.chip, Output(ResetLine))) else s2;
    ResetDev(w, s3);
    ResetSucceeds(w, s3);
    var s4 := Reset(w, s3).0;
    DefaultsSucceed(w, ReadReg(w, s4, REG_ID).0, u);
    DefaultsFrame(w, ReadReg(w, s4, REG_ID).0, u);
  }

  lemma IdLeavesConfig(w: World, s: Sys)
    requires Coherent(s)
    ensures var s' := CheckId(w, s).0;
            && s' == ReadReg(w, s, REG_ID).0
            && Coherent(s') && s'.chip.down == s.chip.down
            && s'.dev.config0 == s.dev.config0 && s'.dev.config1 == s.dev.config1
  {
    hide RegisterRead;
    RegisterMessages(REG_ID);
    LeaveKeepsRegisters(w, s);
    var s1 := LeaveContinuous(w, s).0;
    SendKeepsRegisters(w, s1, [CMD_RREG | REG_ID, 0, 0]);
  }

  /** Two-layer coherence. After a successful initialisation, any run of setters on a free device,
      resets, register reads, mode changes, standby, power cycles, attaching and detaching keeps
      the cached CONFIG0 and CONFIG1 equal to the chip's, except while the chip's power is cut.
      Transfers may fail, but for those of setters and power-ups. */
  lemma ConfigCoherence(w: World, s: Sys, u: Setup, ops: seq<Op>)
    requires !w.resetContinuous && Fresh(s) && InitEx(w, s, u).1 == EOK
    requires OrderlyRun(w, InitEx(w, s, u).0, ops)
    ensures var t := DoAll(w, InitEx(w, s, u).0, ops);
            && |t.chip.regs| == REGISTERS
            && (!t.chip.down ==> t.chip.regs[1] == t.dev.config0 && t.chip.regs[2] == t.dev.config1)
  {
    hide InitEx, Do;
    InitSafe(w, s, u);
    InitAttaches(w, s, u);
    InitCoherent(w, s, u);
    var s0 := InitEx(w, s, u).0;
    RunCoherent(w, s0, ops);
    RunSafe(w, s0, ops);
  }

  // ---------------------------------------------------------------------------
  // Power cycles

  /** Cutting the power and restoring it, if both calls succeed, brings back the configuration and
      leaves continuous mode, whichever way the device is powered down; the other registers,
      among them the high-pass corner, are back at their reset values. It does so unless the
      chip's power was cut before and the PWDN pin has been given up since: then the calls
      succeed as well, but nothing restores the supply. */
  lemma PowerCycleRestores(w: World, s: Sys)
    requires !w.resetContinuous && Safe(s)
    ensures var (s1, e1) := PowerDown(w, s);
            var (s2, e2) := PowerUp(w, s1);
            e1 == EOK && e2 == EOK ==>
              (Restored(w, s, s2) <==> !s.chip.down || s.dev.pwdnPin >= 0)
  {
    hide WriteReg, Reset, PowerUp;
    PinSafe(w, s, OpPowerDown);
    var (s1, e1) := PowerDown(w, s);
    if e1 == EOK {
      assert s1.dev == s.dev && Safe(s1);
      assert s1.chip.down <==> s.chip.down || s.dev.pwdnPin >= 0;
      PowerUpRestores(w, s1);
    }
  }

  /** The driver as in `s` but out of continuous mode, and the chip configured as it says. */
  ghost predicate Restored(w: World, s: Sys, s2: Sys) {
    && s2.dev == s.dev.(rdatac := false)
    && s2.chip.regs == Defaults(w)[1 := s.dev.config0][2 := s.dev.config1]
    && !s2.chip.continuous && !s2.chip.down
  }

  lemma PowerUpRestores(w: World, s: Sys)
    requires !w.resetContinuous && Safe(s)
    ensures var (s2, e2) := PowerUp(w, s);
            e2 == EOK ==> (Restored(w, s, s2) <==> !s.chip.down || s.dev.pwdnPin >= 0)
  {
    hide WriteReg, Reset;
    if s.dev.owner == NULL {
      var s0 := Supplied(w, s);
      SuppliedSafe(w, s);
      ResetSafe(w, s0);
      ResetCoherent(w, s0);
      ResetDev(w, s0);
      if Reset(w, s0).1 == EOK {
        RestoreExact(w, Restoring(w, s));
      }
    }
  }

  lemma ResetDev(w: World, s: Sys)
    ensures var (s', e) := Reset(w, s);
            e == EOK ==> s'.dev == s.dev.(config0 := 0x52, config1 := 0x08, rdatac := false)
  {
  }

  /** On a bus that works, both calls succeed for a free device. */
  lemma PowerCycleSucceeds(w: World, s: Sys)
    requires !w.resetContinuous && Safe(s) && s.dev.owner == NULL && (forall t :: w.ok(t))
    ensures var (s1, e1) := PowerDown(w, s);
            e1 == EOK && PowerUp(w, s1).1 == EOK
  {
    hide WriteReg, Reset;
    PinSafe(w, s, OpPowerDown);
    var s1 := PowerDown(w, s).0;
    SuppliedSafe(w, s1);
    ResetSucceeds(w, Supplied(w, s1));
    ResetSafe(w, Supplied(w, s1));
    var s2 := Restoring(w, s1);
    WriteOutcome(w, s2, REG_CONFIG0, s1.dev.config0);
    WriteOutcome(w, WriteReg(w, s2, REG_CONFIG0, s1.dev.config0).0, REG_CONFIG1, s1.dev.config1);
  }

  lemma ResetSucceeds(w: World, s: Sys)
    requires s.dev.owner == NULL && (forall t :: w.ok(t))
    ensures Reset(w, s).1 == EOK && Reset(w, s).0.dev.owner == NULL
  {
  }
}
