/** What each call of the bare interface comes to: its answer, the bytes and pin levels it sends, and
    what it changes in driver and chip. Commands, registers and defaults are spelled out as the
    data sheet has them. */
module Outcomes {
  import opened Chips
  import opened Driver
  import opened Protocol
  import opened Coherence
  import opened Fields

  /** The next message gets through. */
  ghost predicate NextOk(w: World, s: Sys) {
    w.ok(|s.chip.log|)
  }

  /** What is sent to a free device only. */
  ghost function Sent(s: Sys, ts: seq<Traffic>): seq<Traffic> {
    if s.dev.owner == NULL then s.chip.log + ts else s.chip.log
  }

  // ---------------------------------------------------------------------------
  // Continuous mode

  ghost function StartAnswer(w: World, s: Sys): Err {
    if s.dev.owner != NULL then EBUSY else if s.dev.rdatac || NextOk(w, s) then EOK else EIO
  }

  ghost function StopAnswer(w: World, s: Sys): Err {
    if s.dev.owner != NULL then EBUSY else if !s.dev.rdatac || NextOk(w, s) then EOK else EIO
  }

  /** `s'` is what a start makes of `s`: RDATAC goes out unless the flag says it is needless; when it
      gets through the flag is set, and a chip under power is in continuous mode. */
  ghost predicate Started(w: World, s: Sys, s': Sys) {
    && s'.dev == s.dev.(rdatac := s.dev.rdatac || StartAnswer(w, s) == EOK)
    && s'.chip == s.chip.(log := s'.chip.log, continuous := s'.chip.continuous)
    && s'.chip.log == (if s.dev.rdatac then s.chip.log else Sent(s, [Spi([0x10], s.chip.continuous)]))
    && s'.chip.continuous ==
         (s.chip.continuous || (StartAnswer(w, s) == EOK && !s.dev.rdatac && !s.chip.down))
  }

  lemma StartOutcome(w: World, s: Sys)
    ensures var (s', e) := Do(w, s, OpStart);
            e == StartAnswer(w, s) && Started(w, s, s')
  {
  }

  /** `s'` is what a stop makes of `s`: SDATAC goes out if the flag is set; a stop that succeeds
      leaves flag and chip out of continuous mode. */
  ghost predicate Stopped(w: World, s: Sys, s': Sys) {
    && s'.dev == s.dev.(rdatac := s.dev.rdatac && StopAnswer(w, s) != EOK)
    && s'.chip == s.chip.(log := s'.chip.log, continuous := s'.chip.continuous)
    && s'.chip.log == (if s.dev.rdatac then Sent(s, [Spi([0x11], s.chip.continuous)]) else s.chip.log)
    && s'.chip.continuous == (s.chip.continuous && StopAnswer(w, s) != EOK)
  }

  lemma StopOutcome(w: World, s: Sys)
    requires InStep(s)
    ensures var (s', e) := Do(w, s, OpStop);
            e == StopAnswer(w, s) && Stopped(w, s, s')
  {
  }

  // ---------------------------------------------------------------------------
  // Single commands

  /** `s'` is `s` after the message `[b]`, which a free device sends and nothing else. */
  ghost predicate Commanded(s: Sys, b: bv8, s': Sys) {
    s' == s.(chip := s.chip.(log := Sent(s, [Spi([b], s.chip.continuous)])))
  }

  ghost function CommandAnswer(w: World, s: Sys): Err {
    if s.dev.owner != NULL then EBUSY else if NextOk(w, s) then EOK else EIO
  }

  lemma CommandOutcomes(w: World, s: Sys)
    ensures var (s', e) := Do(w, s, OpWakeup); e == CommandAnswer(w, s) && Commanded(s, 0x00, s')
    ensures var (s', e) := Do(w, s, OpStandby); e == CommandAnswer(w, s) && Commanded(s, 0x02, s')
    ensures var (s', e) := Do(w, s, OpSync); e == CommandAnswer(w, s) && Commanded(s, 0x04, s')
    ensures var (s', e) := Do(w, s, OpOffsetCal); e == CommandAnswer(w, s) && Commanded(s, 0x60, s')
    ensures var (s', e) := Do(w, s, OpGainCal); e == CommandAnswer(w, s) && Commanded(s, 0x61, s')
  {
    hide Send;
    PlainCommand(w, s, 0x00);
    PlainCommand(w, s, 0x02);
    PlainCommand(w, s, 0x04);
    PlainCommand(w, s, 0x60);
    PlainCommand(w, s, 0x61);
  }

  lemma PlainCommand(w: World, s: Sys, b: bv8)
    requires b in {0x00, 0x02, 0x04, 0x60, 0x61}
    ensures Send(w, s, [b]) ==
            (s.(chip := s.chip.(log := s.chip.log + [Spi([b], s.chip.continuous)])), if NextOk(w, s) then EOK else EIO)
  {
  }

  // ---------------------------------------------------------------------------
  // Pins

  /** A SYNC pin is configured as an output and idles high. */
  lemma SetSyncPinOutcome(w: World, s: Sys, pin: int)
    ensures var (s', e) := Do(w, s, OpSetSyncPin(pin));
            && e == (if s.dev.owner != NULL then EBUSY else EOK)
            && s' == (if s.dev.owner != NULL then s else
                        Sys(s.dev.(syncPin := pin), s.chip.(log := s.chip.log +
                          if pin >= 0 then [Output(SyncLine), Level(SyncLine, true)] else [])))
  {
  }

  /** The pulse is low, then high; without a pin it is the command. */
  lemma SyncHwOutcome(w: World, s: Sys)
    ensures var (s', e) := Do(w, s, OpSyncHw);
            if s.dev.syncPin < 0 then e == CommandAnswer(w, s) && Commanded(s, 0x04, s')
            else
              && e == (if s.dev.owner != NULL then EBUSY else EOK)
              && s' == s.(chip := s.chip.(log := Sent(s, [Level(SyncLine, false), Level(SyncLine, true)])))
  {
    hide Send;
    PlainCommand(w, s, 0x04);
  }

  lemma SetPwdnPinOutcome(w: World, s: Sys, pin: int)
    ensures var (s', e) := Do(w, s, OpSetPwdnPin(pin));
            && e == (if s.dev.owner != NULL then EBUSY else EOK)
            && s' == (if s.dev.owner != NULL then s else
                        Sys(s.dev.(pwdnPin := pin), s.chip.(log := s.chip.log +
                          if pin >= 0 then [Output(PowerDownLine)] else [])))
  {
  }

  /** With a pin the line goes high and the power is cut; without one it is standby, which may be
      lost. */
  lemma PowerDownOutcome(w: World, s: Sys)
    ensures var (s', e) := Do(w, s, OpPowerDown);
            if s.dev.pwdnPin < 0 then e == CommandAnswer(w, s) && Commanded(s, 0x02, s')
            else
              && e == (if s.dev.owner != NULL then EBUSY else EOK)
              && s'.dev == s.dev && s'.chip.log == Sent(s, [Level(PowerDownLine, true)])
              && s'.chip.down == (s.chip.down || s.dev.owner == NULL)
  {
    hide Send;
    PlainCommand(w, s, 0x02);
  }

  // ---------------------------------------------------------------------------
  // Reset and registers

  ghost function ResetAnswer(w: World, s: Sys): Err {
    if s.dev.owner != NULL then EBUSY else if s.dev.resetPin >= 0 || NextOk(w, s) then EOK else EIO
  }

  /** `s'` is what a reset makes of `s`. */
  ghost predicate WasReset(w: World, s: Sys, s': Sys) {
    && s'.dev == (if ResetAnswer(w, s) == EOK then s.dev.(config0 := 0x52, config1 := 0x08, rdatac := false) else s.dev)
    && s'.chip.log == Sent(s, if s.dev.resetPin >= 0 then [Level(ResetLine, false), Level(ResetLine, true)]
                              else [Spi([0x06], s.chip.continuous)])
    && s'.chip.down == s.chip.down
    && (if ResetAnswer(w, s) == EOK && !s.chip.down then
          s'.chip.regs == [w.id, 0x52, 0x08, 0x32, 0x03, 0, 0, 0, 0, 0, 0x40] && s'.chip.continuous == w.resetContinuous
        else s'.chip.regs == s.chip.regs && s'.chip.continuous == s.chip.continuous)
  }

  lemma ResetOutcome(w: World, s: Sys)
    ensures var (s', e) := Do(w, s, OpReset);
            e == ResetAnswer(w, s) && WasReset(w, s, s')
  {
  }

  /** The high-pass value goes into registers 3 and 4, the low byte into the first. */
  lemma SetHpfOutcome(w: World, s: Sys, hpf: bv16)
    requires Safe(s) && !s.chip.down
    ensures var (s', e) := Do(w, s, OpSetHpf(hpf));
            && (s.dev.owner != NULL ==> e == EBUSY && s' == s)
            && (s.dev.owner == NULL ==> e == EOK || e == EIO)
            && (e == EOK ==> s'.chip.regs == s.chip.regs[3 := (hpf & 0xFF) as bv8][4 := (hpf >> 8) as bv8])
            && s'.dev == s.dev.(rdatac := s'.dev.rdatac)
  {
    hide WriteReg, Addressed;
    Addresses(3);
    Addresses(4);
    var low, high := LowByte(hpf), HighByte(hpf);
    WriteOutcome(w, s, 3, low);
    WriteSafe(w, s, 3, low);
    WriteOutcome(w, WriteReg(w, s, 3, low).0, 4, high);
    if s.dev.owner != NULL {
      OwnedWrite(w, s, 3, low);
    }
  }

  lemma OwnedWrite(w: World, s: Sys, reg: bv8, val: bv8)
    requires s.dev.owner != NULL
    ensures WriteReg(w, s, reg, val) == (s, EBUSY)
  {
  }

  /** The identity check fails on the bus, or by the low four bits of register 0, or not at all. */
  lemma CheckIdOutcome(w: World, s: Sys)
    requires InStep(s) && !s.chip.down
    ensures var (s', e) := Do(w, s, OpCheckId);
            && e == (if s.dev.owner != NULL then EBUSY else if !WillDeliver(w, s) then EIO
                     else if s.chip.regs[0] % 16 != 0 then ERROR else EOK)
            && s'.chip.regs == s.chip.regs && s'.dev == s.dev.(rdatac := s'.dev.rdatac)
  {
    hide RegisterRead, ReadReg;
    ReadOutcome(w, s, 0);
    ReadFrame(w, s, 0);
    ReadAnswers(w, s, 0);
    var b := s.chip.regs[0];
    assert b & 0x0F == b % 16;
  }

  lemma ReadAnswers(w: World, s: Sys, reg: bv8)
    requires InStep(s)
    ensures var e := ReadReg(w, s, reg).1;
            e == if s.dev.owner != NULL then EBUSY else if WillDeliver(w, s) then EOK else EIO
  {
  }

  // ---------------------------------------------------------------------------
  // Setters

  /** The arguments the driver takes. */
  predicate Acceptable(op: Op)
    requires Setter(op)
  {
    match op
    case OpSetRate(sps) => sps in {250, 500, 1000, 2000, 4000}
    case OpSetGain(gain) => gain in {1, 2, 4, 8, 16, 32, 64}
    case OpSetMux(mux) => mux <= 4
    case OpSetFilter(f) => f <= 3
    case _ => true
  }

  /** The cache takes an acceptable argument in its field even if the device is owned or the bus
      fails, except for the synchronisation mode of an owned device; a powered chip that was
      coherent follows when the call succeeds. */
  lemma SetterOutcome(w: World, s: Sys, op: Op)
    requires InStep(s) && Setter(op)
    ensures var (s', e) := Do(w, s, op);
            var before := Unpack(s.dev.config0, s.dev.config1);
            && e == (if !Acceptable(op) then EINVAL else if s.dev.owner != NULL then EBUSY
                     else if WillDeliver(w, s) then EOK else EIO)
            && Unpack(s'.dev.config0, s'.dev.config1) ==
                 (if op.OpSetSyncMode? && s.dev.owner != NULL then before else Intended(before, op))
            && s'.dev == s.dev.(config0 := s'.dev.config0, config1 := s'.dev.config1, rdatac := s'.dev.rdatac)
            && s'.chip.down == s.chip.down && |s'.chip.regs| == |s.chip.regs| == REGISTERS
            && (e != EOK ==> s'.chip.regs == s.chip.regs)
            && (forall r :: 0 <= r < REGISTERS && r != 1 && r != 2 ==> s'.chip.regs[r] == s.chip.regs[r])
            && (e == EOK && Coherent(s) && !s.chip.down ==>
                  Unpack(s'.chip.regs[1], s'.chip.regs[2]) == Intended(before, op))
  {
    hide Do, WriteReg, Unpack, Addressed, RateCode, GainCode, InStep;
    SetterSetsOneField(s.dev, op);
    SetterConfigures(w, s, op);
    ArgumentOutcome(s.dev, op);
    match ChangeOf(s.dev, op) {
      case Nothing => Sized(s);
      case Zero(c0) =>
        if !(op.OpSetSyncMode? && s.dev.owner != NULL) {
          var t := s.(dev := s.dev.(config0 := c0));
          SameStep(s, t);
          Addresses(1);
          WriteOutcome(w, t, REG_CONFIG0, c0);
        }
        Sized(s);
      case One(c1) =>
        var t := s.(dev := s.dev.(config1 := c1));
        SameStep(s, t);
        Addresses(2);
        WriteOutcome(w, t, REG_CONFIG1, c1);
        Sized(s);
    }
  }

  lemma SameStep(s: Sys, t: Sys)
    requires InStep(s) && t.chip == s.chip && t.dev.rdatac == s.dev.rdatac
    ensures InStep(t)
  {
  }

  lemma Sized(s: Sys)
    requires InStep(s)
    ensures |s.chip.regs| == REGISTERS
  {
  }

  lemma ArgumentOutcome(dev: Dev, op: Op)
    requires Setter(op)
    ensures ChangeOf(dev, op) == Nothing <==> !Acceptable(op)
  {
    match op {
      case OpSetRate(sps) => CodesInvert(sps);
      case OpSetGain(gain) => CodesInvert(gain);
      case _ =>
    }
  }

  // ---------------------------------------------------------------------------
  // Data, ownership

  /** Without a DRDY pin there is nothing to wait for; with one the wait ends well or times out. */
  lemma WaitDataOutcome(w: World, s: Sys)
    ensures var (s', e) := WaitData(w, s);
            if s.dev.drdyPin < 0 then s' == s && e == EOK
            else
              && s' == s.(chip := s.chip.(log := s.chip.log + [Polled]))
              && e == if w.ready(|s.chip.log|) then EOK else ETIMEOUT
  {
  }

  /** DRDY is looked at if there is a pin; then data are clocked out, after RDATA unless the flag says
      that the chip reads continuously. Reading changes nothing. */
  lemma ReadDataOutcome(w: World, s: Sys)
    ensures var (s', e) := Do(w, s, OpReadData);
            var seen := s.chip.log + if s.dev.drdyPin >= 0 then [Polled] else [];
            && e == EOK && s'.dev == s.dev && s'.chip == s.chip.(log := s'.chip.log)
            && s'.chip.log ==
                 if s.dev.drdyPin >= 0 && !w.ready(|s.chip.log|) then seen
                 else seen + [Spi(if s.dev.rdatac then [] else [0x12], s.chip.continuous)]
  {
    hide Decode, Answer;
  }

  lemma AttachOutcome(w: World, s: Sys, owner: Owner)
    ensures var (s', e) := Do(w, s, OpAttach(owner));
            && e == (if owner == NULL then EINVAL else if s.dev.owner != NULL then EBUSY else EOK)
            && s' == (if e == EOK then s.(dev := s.dev.(owner := owner)) else s)
    ensures var (s', e) := Do(w, s, OpDetach(owner));
            && e == (if s.dev.owner == NULL then ERROR else if s.dev.owner != owner then EBUSY else EOK)
            && s' == (if e == EOK then s.(dev := s.dev.(owner := NULL)) else s)
  {
  }

  // ---------------------------------------------------------------------------
  // Register access

  ghost function RegisterAnswer(w: World, s: Sys): Err {
    if s.dev.owner != NULL then EBUSY else if WillDeliver(w, s) then EOK else EIO
  }

  /** A register message is preceded by SDATAC if the flag is set, and given up if that is lost. */
  ghost function RegisterTraffic(w: World, s: Sys, tx: seq<bv8>): seq<Traffic> {
    if !s.dev.rdatac then [Spi(tx, false)]
    else [Spi([0x11], s.chip.continuous)] + if NextOk(w, s) then [Spi(tx, false)] else []
  }

  lemma RegisterOutcomes(w: World, s: Sys, reg: bv8, val: bv8)
    requires InStep(s)
    ensures var (s', e) := Do(w, s, OpWriteReg(reg, val));
            e == RegisterAnswer(w, s) && s'.chip.log == Sent(s, RegisterTraffic(w, s, [0x40 | reg, 0, val]))
    ensures var (s', e) := Do(w, s, OpReadReg(reg));
            e == RegisterAnswer(w, s) && s'.chip.log == Sent(s, RegisterTraffic(w, s, [0x20 | reg, 0, 0]))
  {
    hide WriteReg, ReadReg, RegisterAnswer, RegisterTraffic, Sent;
    WriteSent(w, s, reg, val);
    ReadSent(w, s, reg);
  }

  lemma WriteSent(w: World, s: Sys, reg: bv8, val: bv8)
    requires InStep(s)
    ensures var (s', e) := WriteReg(w, s, reg, val);
            && e == RegisterAnswer(w, s) && s'.chip.log == Sent(s, RegisterTraffic(w, s, [0x40 | reg, 0, val]))
            && (!s.dev.rdatac ==> s'.dev == s.dev)
  {
    hide Send, LeaveContinuous, RegisterTraffic, WillDeliver;
    AccessSent(w, s, [0x40 | reg, 0, val]);
  }

  lemma ReadSent(w: World, s: Sys, reg: bv8)
    requires InStep(s)
    ensures var (s', e) := ReadReg(w, s, reg);
            && e == RegisterAnswer(w, s) && s'.chip.log == Sent(s, RegisterTraffic(w, s, [0x20 | reg, 0, 0]))
            && (!s.dev.rdatac ==> s'.dev == s.dev)
  {
    hide Send, LeaveContinuous, RegisterTraffic, WillDeliver;
    AccessSent(w, s, [0x20 | reg, 0, 0]);
  }

  /** A message that must not meet continuous mode. */
  lemma AccessSent(w: World, s: Sys, tx: seq<bv8>)
    requires InStep(s)
    ensures var (s1, e1) := LeaveContinuous(w, s);
            var (s2, e2) := if e1 != EOK then (s1, e1) else Send(w, s1, tx);
            s.dev.owner == NULL ==>
              && e2 == (if WillDeliver(w, s) then EOK else EIO)
              && s2.chip.log == s.chip.log + RegisterTraffic(w, s, tx)
              && (!s.dev.rdatac ==> s2.dev == s.dev)
  {
    hide Send, LeaveContinuous;
    LeaveSent(w, s);
    SendAppends(w, LeaveContinuous(w, s).0, tx);
  }

  lemma SendAppends(w: World, s: Sys, tx: seq<bv8>)
    ensures var (s', e) := Send(w, s, tx);
            && s'.chip.log == s.chip.log + [Spi(tx, s.chip.continuous)] && s'.dev == s.dev
            && e == if NextOk(w, s) then EOK else EIO
  {
  }

  lemma LeaveSent(w: World, s: Sys)
    requires InStep(s)
    ensures var (s1, e) := LeaveContinuous(w, s);
            && s1.chip.log == s.chip.log + (if s.dev.rdatac then [Spi([0x11], s.chip.continuous)] else [])
            && e == (if s.dev.rdatac && !NextOk(w, s) then EIO else EOK) && (e == EOK ==> !s1.chip.continuous)
            && s1.dev == s.dev.(rdatac := s.dev.rdatac && e != EOK)
  {
  }

  // ---------------------------------------------------------------------------
  // Power-up

  /** The supply line goes low, the chip is reset, CONFIG0 and then CONFIG1 are written back; the
      first message that is lost ends the call with its error. */
  lemma PowerUpOutcome(w: World, s: Sys)
    requires !w.resetContinuous && Safe(s)
    ensures var (s', e) := Do(w, s, OpPowerUp);
            var l0 := s.chip.log + if s.dev.pwdnPin >= 0 then [Level(PowerDownLine, false)] else [];
            var l1 := l0 + if s.dev.resetPin >= 0 then [Level(ResetLine, false), Level(ResetLine, true)]
                           else [Spi([0x06], s.chip.continuous)];
            var l2 := l1 + [Spi([0x41, 0, s.dev.config0], false)];
            var l3 := l2 + [Spi([0x42, 0, s.dev.config1], false)];
            && (s.dev.owner != NULL ==> s' == s && e == EBUSY)
            && (s.dev.owner == NULL ==>
                  if s.dev.resetPin < 0 && !w.ok(|l0|) then s'.chip.log == l1 && e == EIO
                  else if !w.ok(|l1|) then s'.chip.log == l2 && e == EIO
                  else s'.chip.log == l3 && e == if w.ok(|l2|) then EOK else EIO)
  {
    hide PowerUp, WriteReg, Reset, Supplied, Disciplined, InStep;
    if s.dev.owner == NULL {
      var s0 := Supplied(w, s);
      SuppliedSafe(w, s);
      SuppliedSent(w, s);
      ResetOutcome(w, s0);
      ResetOfSafe(w, s0);
      PowerUpIs(w, s);
      if Reset(w, s0).1 == EOK {
        RestoreSent(w, Restoring(w, s));
      }
    } else {
      OwnedPowerUp(w, s);
    }
  }

  lemma OwnedPowerUp(w: World, s: Sys)
    requires s.dev.owner != NULL
    ensures PowerUp(w, s) == (s, EBUSY)
  {
  }

  lemma ResetOfSafe(w: World, s: Sys)
    requires !w.resetContinuous && Safe(s)
    ensures Safe(Reset(w, s).0)
    ensures Safe(Reset(w, s).0.(dev := Reset(w, s).0.dev.(config0 := s.dev.config0, config1 := s.dev.config1)))
  {
    hide Reset;
    ResetSafe(w, s);
  }

  lemma PowerUpIs(w: World, s: Sys)
    requires s.dev.owner == NULL
    ensures var (s1, e1) := Reset(w, Supplied(w, s));
            var (s3, e3) := WriteReg(w, Restoring(w, s), REG_CONFIG0, s.dev.config0);
            PowerUp(w, s) ==
              if e1 != EOK then (s1, e1) else if e3 != EOK then (s3, e3)
              else WriteReg(w, s3, REG_CONFIG1, s.dev.config1)
  {
    hide Reset, WriteReg;
  }

  lemma SuppliedSent(w: World, s: Sys)
    requires !w.resetContinuous && Safe(s)
    ensures var s0 := Supplied(w, s);
            && s0.chip.log == s.chip.log + (if s.dev.pwdnPin >= 0 then [Level(PowerDownLine, false)] else [])
            && s0.chip.continuous == s.chip.continuous
  {
  }

  lemma RestoreSent(w: World, s: Sys)
    requires Safe(s) && !s.dev.rdatac && s.dev.owner == NULL
    ensures var (s1, e1) := WriteReg(w, s, REG_CONFIG0, s.dev.config0);
            var (s2, e2) := WriteReg(w, s1, REG_CONFIG1, s.dev.config1);
            && e1 == (if NextOk(w, s) then EOK else EIO)
            && s1.chip.log == s.chip.log + [Spi([0x41, 0, s.dev.config0], false)]
            && e2 == (if NextOk(w, s1) then EOK else EIO)
            && s2.chip.log == s1.chip.log + [Spi([0x42, 0, s.dev.config1], false)]
  {
    hide WriteReg;
    WriteSent(w, s, REG_CONFIG0, s.dev.config0);
    WriteSafe(w, s, REG_CONFIG0, s.dev.config0);
    WriteSent(w, WriteReg(w, s, REG_CONFIG0, s.dev.config0).0, REG_CONFIG1, s.dev.config1);
  }

  // ---------------------------------------------------------------------------
  // Initialisation

  /** What is set before anything can fail. */
  ghost function Prepared(dev: Dev, u: Setup): Dev {
    dev.(resolution := 31, drdyPin := u.drdyPin, resetPin := u.resetPin, pwdnPin := -1,
         syncPin := if u.syncPin >= 0 then u.syncPin else -1)
  }

  ghost function PinTraffic(u: Setup): seq<Traffic> {
    if u.syncPin >= 0 then [Output(SyncLine), Level(SyncLine, true)] else []
  }

  /** An initialised device is left alone; without a bus only pins are set; an owned device gets as
      far as the reset; whatever comes later, the pins are those asked for. */
  lemma InitOutcome(w: World, s: Sys, u: Setup)
    ensures var (s', e) := Do(w, s, OpInit(u));
            && (s.dev.attached ==> s' == s && e == EBUSY)
            && (!s.dev.attached && !u.busAttaches ==>
                  e == ERROR && s'.dev == Prepared(s.dev, u) && s'.chip.log == s.chip.log + PinTraffic(u))
            && (!s.dev.attached && u.busAttaches && !u.busConfigures ==>
                  && e == ERROR && s'.dev == Prepared(s.dev, u).(attached := true)
                  && s'.chip.log == s.chip.log + PinTraffic(u))
            && (!s.dev.attached && u.busAttaches && u.busConfigures ==>
                  && s'.dev == Prepared(s.dev, u).(attached := true, config0 := s'.dev.config0,
                                                   config1 := s'.dev.config1, rdatac := s'.dev.rdatac)
                  && (s.dev.owner != NULL ==> e == EBUSY)
                  && (s.dev.owner == NULL && u.resetPin < 0 && !w.ok(|s.chip.log + PinTraffic(u)|) ==> e == EIO))
  {
    hide Reset, RegisterRead, WriteDefaults, ReadReg, InitPins, Sees;
    Pins(s, u);
    if !s.dev.attached && u.busAttaches && u.busConfigures {
      var s2 := InitPins(s, u).(dev := InitPins(s, u).dev.(attached := true));
      var s3 := if u.resetPin >= 0 then s2.(chip := Sees(s2.chip, Output(ResetLine))) else s2;
      ResetKeeps(w, s3);
      ReadFrame(w, Reset(w, s3).0, REG_ID);
      DefaultsFrame(w, CheckId(w, Reset(w, s3).0).0, u);
    }
  }

  lemma Pins(s: Sys, u: Setup)
    ensures InitPins(s, u).dev == Prepared(s.dev, u)
    ensures InitPins(s, u).chip == s.chip.(log := s.chip.log + PinTraffic(u))
  {
  }

  lemma ResetKeeps(w: World, s: Sys)
    ensures var (s', e) := Reset(w, s);
            && e == ResetAnswer(w, s)
            && s'.dev == s.dev.(config0 := s'.dev.config0, config1 := s'.dev.config1, rdatac := s'.dev.rdatac)
  {
    ResetOutcome(w, s);
  }

  /** The messages of an initialisation on a bus that works. */
  lemma InitMessages(w: World, s: Sys, u: Setup)
    requires !w.resetContinuous && Fresh(s) && (forall t :: w.ok(t)) && u.busAttaches && u.busConfigures
    ensures var (s', e) := Do(w, s, OpInit(u));
            && e == EOK
            && s'.chip.log ==
                 PinTraffic(u)
                 + (if u.resetPin >= 0 then [Output(ResetLine)] else [])
                 + (if u.resetPin >= 0 then [Level(ResetLine, false), Level(ResetLine, true)]
                    else [Spi([0x06], s.chip.continuous)])
                 + [Spi([0x20, 0, 0], false)]
                 + [Spi([0x41, 0, 0x52], false), Spi([0x41, 0, 0x42], false), Spi([0x41, 0, 0x43], false)]
                 + (if u.noPga then [] else [Spi([0x42, 0, 0x08], false)])
                 + (if u.singleChannel then [] else [Spi([0x42, 0, 0x08], false)])
  {
    hide Reset, RegisterRead, WriteDefaults, ReadReg, InitPins, Sees, PinTraffic, Disciplined;
    var s3 := InitToReset(w, s, u);
    var s5 := ResetAndRead(w, s3);
    hide InitEx;
    DefaultsSent(w, s5, u);
  }

  /** The state in which initialisation comes to the reset. */
  lemma InitToReset(w: World, s: Sys, u: Setup) returns (s3: Sys)
    requires Fresh(s) && u.busAttaches && u.busConfigures
    ensures Reset(w, s3).1 == EOK ==>
              InitEx(w, s, u) == WriteDefaults(w, ReadReg(w, Reset(w, s3).0, REG_ID).0, u)
    ensures s3.chip == s.chip.(log := PinTraffic(u) + if u.resetPin >= 0 then [Output(ResetLine)] else [])
    ensures s3.dev.resetPin == u.resetPin && s3.dev.owner == NULL && Disciplined(s3.chip.log)
  {
    hide Reset, RegisterRead, WriteDefaults, ReadReg;
    Pins(s, u);
    var s2 := InitPins(s, u).(dev := InitPins(s, u).dev.(attached := true));
    s3 := if u.resetPin >= 0 then s2.(chip := Sees(s2.chip, Output(ResetLine))) else s2;
  }

  lemma ResetAndRead(w: World, s: Sys) returns (s': Sys)
    requires !w.resetContinuous && Disciplined(s.chip.log) && |s.chip.regs| == REGISTERS && !s.chip.down
    requires s.dev.owner == NULL && forall t :: w.ok(t)
    ensures var (s1, e1) := Reset(w, s);
            && e1 == EOK && s' == ReadReg(w, s1, REG_ID).0
            && Safe(s') && s'.dev == s.dev.(config0 := 0x52, config1 := 0x08, rdatac := false)
            && s'.chip.log ==
                 s.chip.log
                 + (if s.dev.resetPin >= 0 then [Level(ResetLine, false), Level(ResetLine, true)]
                    else [Spi([0x06], s.chip.continuous)])
                 + [Spi([0x20, 0, 0], false)]
  {
    hide Reset, ReadReg;
    ResetOutcome(w, s);
    ResetSafe(w, s);
    var s1 := Reset(w, s).0;
    ReadSent(w, s1, REG_ID);
    ReadSafe(w, s1, REG_ID);
    s' := ReadReg(w, s1, REG_ID).0;
  }

  lemma DefaultsSent(w: World, s: Sys, u: Setup)
    requires Safe(s) && !s.dev.rdatac && s.dev.owner == NULL && (forall t :: w.ok(t))
    requires s.dev.config0 == 0x52 && s.dev.config1 == 0x08
    ensures WriteDefaults(w, s, u).1 == EOK
    ensures WriteDefaults(w, s, u).0.chip.log ==
            s.chip.log
            + [Spi([0x41, 0, 0x52], false), Spi([0x41, 0, 0x42], false), Spi([0x41, 0, 0x43], false)]
            + (if u.noPga then [] else [Spi([0x42, 0, 0x08], false)])
            + (if u.singleChannel then [] else [Spi([0x42, 0, 0x08], false)])
  {
    hide Configure0, Configure1, Safe;
    assert Flag(0x52, CFG0_MODE, true) == 0x52;
    assert Replace(0x52, Dr(0x07), Dr(0)) == 0x42;
    assert Replace(0x42, Filtr(0x03), Filtr(3)) == 0x43;
    assert Replace(0x08, Pga(0x07), Pga(0)) == 0x08;
    assert Replace(0x08, Mux(0x07), Mux(0)) == 0x08;
    ConfigureSent(w, s, 0x52);
    var s1 := SetMode(w, s, true).0;
    ConfigureSent(w, s1, 0x42);
    var s2 := SetRate(w, s1, 250).0;
    ConfigureSent(w, s2, 0x43);
    var s3 := SetFilter(w, s2, 3).0;
    ConfigureSent(w, s3, 0x08);
    var s4 := if u.noPga then s3 else SetGain(w, s3, 1).0;
    ConfigureSent(w, s4, 0x08);
  }

  lemma ConfigureSent(w: World, s: Sys, config: bv8)
    requires Safe(s) && !s.dev.rdatac && s.dev.owner == NULL && (forall t :: w.ok(t))
    ensures var (s', e) := Configure0(w, s, config);
            && e == EOK && Safe(s') && s'.dev == s.dev.(config0 := config)
            && s'.chip.log == s.chip.log + [Spi([0x41, 0, config], false)]
    ensures var (s', e) := Configure1(w, s, config);
            && e == EOK && Safe(s') && s'.dev == s.dev.(config1 := config)
            && s'.chip.log == s.chip.log + [Spi([0x42, 0, config], false)]
  {
    hide WriteReg;
    ConfigureSafe(w, s, config);
    var t0, t1 := s.(dev := s.dev.(config0 := config)), s.(dev := s.dev.(config1 := config));
    WriteSent(w, t0, REG_CONFIG0, config);
    WriteSent(w, t1, REG_CONFIG1, config);
  }
}
