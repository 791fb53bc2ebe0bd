/** From the chip's conversion to the caller's value. */
module Decoding {
  import opened Chips
  import opened Driver
  import opened Protocol
  import opened Coherence
  import opened ModeFlag

  const MIN32 := -0x8000_0000
  const MAX32 := 0x7FFF_FFFF
  const MIN24 := -0x80_0000
  const MAX24 := 0x7F_FFFF

  /** The value as the chip can put it out: 32 bits in high-resolution mode, 24 otherwise. */
  predicate Fits(v: int, wide: bool) {
    if wide then MIN32 <= v <= MAX32 else MIN24 <= v <= MAX24
  }

  lemma Modulo(v: int, m: int)
    requires m > 0 && -m <= v < m
    ensures v < 0 ==> v % m == v + m
    ensures v >= 0 ==> v % m == v
  {
    if v < 0 {
      assert v == m * -1 + (v + m);
    }
  }

  /** The bytes of a word, put together again. */
  lemma Digits(u: nat)
    ensures u / 0x1_0000 * 0x1_0000 + u / 0x100 % 0x100 * 0x100 + u % 0x100 == u
    ensures u / 0x100_0000 * 0x100_0000 + u / 0x1_0000 % 0x100 * 0x1_0000 + u / 0x100 % 0x100 * 0x100 + u % 0x100 == u
  {
    assert u / 0x100 / 0x100 == u / 0x1_0000;
    assert u / 0x1_0000 / 0x100 == u / 0x100_0000;
  }

  /** The low 24 bits as a signed value. */
  function Low24(raw: nat): int {
    var low := raw % 0x100_0000;
    if low < 0x80_0000 then low else low - 0x100_0000
  }

  /** `Low24` differs from a value by whole multiples of 2^24, so it is right if and only if the
      value fits. */
  lemma Low24Exact(raw: nat, v: int, k: int)
    requires raw == v + k * 0x100_0000
    ensures Low24(raw) == v <==> Fits(v, false)
  {
    var low := raw % 0x100_0000;
    var j := k - raw / 0x100_0000;
    assert low == v + j * 0x100_0000;
  }

  lemma Raw32(v: int)
    requires Fits(v, true)
    ensures Decode(Encode32(v), false) == Low24(Unsigned(v, 0x1_0000_0000))
    ensures var raw := Unsigned(v, 0x1_0000_0000);
            Decode(Encode32(v), true) == if raw < 0x8000_0000 then raw else raw - 0x1_0000_0000
  {
    Digits(Unsigned(v, 0x1_0000_0000));
  }

  lemma Raw24(status: Byte, v: int)
    requires Fits(v, false)
    ensures var s: int := status;
            var raw := s * 0x100_0000 + Unsigned(v, 0x100_0000);
            && raw >= 0
            && Decode(Encode24(status, v), false) == Low24(raw)
            && Decode(Encode24(status, v), true) == if raw < 0x8000_0000 then raw else raw - 0x1_0000_0000
  {
    Digits(Unsigned(v, 0x100_0000));
  }

  lemma RoundTrip32(v: int)
    requires Fits(v, true)
    ensures Decode(Encode32(v), true) == v
  {
    hide Decode, Encode32, Low24;
    Modulo(v, 0x1_0000_0000);
    Raw32(v);
  }

  lemma RoundTrip24(status: Byte, v: int)
    requires Fits(v, false)
    ensures Decode(Encode24(status, v), false) == v
  {
    hide Decode, Encode24, Low24;
    Modulo(v, 0x100_0000);
    Raw24(status, v);
    var s: int := status;
    var raw := s * 0x100_0000 + Unsigned(v, 0x100_0000);
    Low24Exact(raw, v, if v < 0 then s + 1 else s);
  }

  /** Read as 24 bits, a 32-bit word comes out right exactly when it would have fitted. */
  lemma NarrowReadExact(v: int)
    requires Fits(v, true)
    ensures Decode(Encode32(v), false) == v <==> Fits(v, false)
  {
    hide Decode, Encode32, Low24;
    Modulo(v, 0x1_0000_0000);
    Raw32(v);
    Low24Exact(Unsigned(v, 0x1_0000_0000), v, if v < 0 then 0x100 else 0);
  }

  /** Read as 32 bits, a low-power word comes out right exactly when the status byte happens to
      be the sign extension. */
  lemma WideReadExact(status: Byte, v: int)
    requires Fits(v, false)
    ensures Decode(Encode24(status, v), true) == v <==> status == (if v < 0 then 0xFF else 0)
  {
    hide Decode, Encode24, Low24;
    Modulo(v, 0x100_0000);
    Raw24(status, v);
  }

  // ---------------------------------------------------------------------------

  /** The transfer of a read that waited successfully. */
  ghost predicate ReadGoesThrough(w: World, s: Sys) {
    && WaitData(w, s).1 == EOK
    && w.ok(|WaitData(w, s).0.chip.log|)
  }

  /** The conversion the chip holds when the read's message reaches it. */
  function Converted(w: World, s: Sys): int {
    w.conversion(|WaitData(w, s).0.chip.log|)
  }

  lemma AnswerInStep(w: World, s: Sys)
    requires InStep(s) && InSync(s) && !s.chip.down && ReadGoesThrough(w, s)
    ensures var t := |WaitData(w, s).0.chip.log|;
            ReadData(w, s).1 ==
              Decode(if HighResolution(s.chip.regs[1]) then Encode32(w.conversion(t))
                     else Encode24(w.status(t), w.conversion(t)),
                     HighResolution(s.dev.config0) && s.dev.resolution > 24)
  {
    hide Decode, Encode32, Encode24, HighResolution, Execute;
  }

  /** End to end: with driver and chip in step and coherent, a read that is ready and gets
      through returns the chip's conversion, in either mode, whatever the status byte, and
      whether or not the device reads continuously or is owned. */
  lemma ReadsConversion(w: World, s: Sys)
    requires InStep(s) && InSync(s) && Coherent(s) && !s.chip.down && s.dev.resolution > 24
    requires ReadGoesThrough(w, s) && Fits(Converted(w, s), HighResolution(s.dev.config0))
    ensures ReadData(w, s).1 == Converted(w, s)
  {
    hide Decode, Encode32, Encode24, HighResolution, ReadData;
    AnswerInStep(w, s);
    if HighResolution(s.dev.config0) {
      RoundTrip32(Converted(w, s));
    } else {
      RoundTrip24(w.status(|WaitData(w, s).0.chip.log|), Converted(w, s));
    }
  }

  /** A read that times out or fails on the bus returns 0, which is also a possible sample. */
  lemma FailedReadIsZero(w: World, s: Sys)
    requires !ReadGoesThrough(w, s)
    ensures ReadData(w, s).1 == 0
  {
    hide Answer, Execute;
  }

  /** When the flag is set for a chip that is not in continuous mode, a read that is ready and gets
      through returns what is on the line while nobody speaks. */
  lemma OutOfSyncReadsNoise(w: World, s: Sys)
    requires InStep(s) && !InSync(s) && ReadGoesThrough(w, s)
    ensures var t := |WaitData(w, s).0.chip.log|;
            ReadData(w, s).1 ==
              Decode([w.noise(t, 0), w.noise(t, 1), w.noise(t, 2), w.noise(t, 3)],
                     HighResolution(s.dev.config0) && s.dev.resolution > 24)
  {
    hide Decode, Encode32, Encode24, HighResolution, Execute;
    var t := |WaitData(w, s).0.chip.log|;
    assert Answer(w, WaitData(w, s).0.chip, []) == [w.noise(t, 0), w.noise(t, 1), w.noise(t, 2), w.noise(t, 3)];
  }

  /** After every run that starts with a successful initialisation and keeps order, reads are
      right as long as the chip has power and the flag is right (`ModeFlag.FlagAfterInit`). */
  lemma ReadsConversionAfterRun(w: World, s: Sys, u: Setup, ops: seq<Op>)
    requires !w.resetContinuous && Fresh(s) && InitEx(w, s, u).1 == EOK
    requires OrderlyRun(w, InitEx(w, s, u).0, ops)
    ensures var t := DoAll(w, InitEx(w, s, u).0, ops);
            (&& InSync(t) && !t.chip.down && ReadGoesThrough(w, t)
             && Fits(Converted(w, t), HighResolution(t.dev.config0))) ==>
              ReadData(w, t).1 == Converted(w, t)
  {
    hide InitEx, ReadData, Do, WaitData, HighResolution;
    InitSafe(w, s, u);
    InitAttaches(w, s, u);
    InitCoherent(w, s, u);
    var s0 := InitEx(w, s, u).0;
    RunCoherent(w, s0, ops);
    RunSafe(w, s0, ops);
    var t := DoAll(w, s0, ops);
    if InSync(t) && !t.chip.down && ReadGoesThrough(w, t) && Fits(Converted(w, t), HighResolution(t.dev.config0)) {
      ReadsConversion(w, t);
    }
  }

  /** A rejected request for low-power mode changes how data are decoded: on an owned device in
      high-resolution mode it returns -RT_EBUSY, and the reads that follow are right exactly for
      the conversions that fit 24 bits. */
  lemma RejectedModeMisreads(w: World, s: Sys)
    requires InStep(s) && InSync(s) && Coherent(s) && !s.chip.down && s.dev.owner != NULL
    requires HighResolution(s.dev.config0)
    ensures var (s', e) := SetMode(w, s, false);
            e == EBUSY
            && (ReadGoesThrough(w, s') && Fits(Converted(w, s'), true) ==>
                  (ReadData(w, s').1 == Converted(w, s') <==> Fits(Converted(w, s'), false)))
  {
    hide Decode, Encode32, Encode24, ReadData, WaitData;
    var s' := SetMode(w, s, false).0;
    assert s' == s.(dev := s.dev.(config0 := Flag(s.dev.config0, CFG0_MODE, false)));
    assert !HighResolution(s'.dev.config0);
    if ReadGoesThrough(w, s') && Fits(Converted(w, s'), true) {
      AnswerInStep(w, s');
      NarrowReadExact(Converted(w, s'));
    }
  }

  /** A working bus and a chip whose conversion is always 2^24. */
  const STEADY: World := QuietWorld(false).(conversion := (_: nat) => 0x100_0000)

  /** It happens: initialise, attach an owner, and read 2^24; ask for low-power mode, be refused,
      and read 0 from then on. */
  lemma RefusalLosesConversion(owner: Owner)
    requires owner != NULL
    ensures Fresh(POWER_ON)
    ensures var (s1, e1) := InitEx(STEADY, POWER_ON, NO_PINS);
            var (s2, e2) := Attach(s1, owner);
            var (s3, e3) := SetMode(STEADY, s2, false);
            && e1 == EOK && e2 == EOK && e3 == EBUSY
            && ReadData(STEADY, s2).1 == 0x100_0000
            && ReadData(STEADY, s3).1 == 0
  {
    hide InitEx, Decode, Encode32, Encode24, Transfer, Execute, ReadData;
    InitSucceeds(STEADY, POWER_ON, NO_PINS);
    InitSafe(STEADY, POWER_ON, NO_PINS);
    InitAttaches(STEADY, POWER_ON, NO_PINS);
    InitCoherent(STEADY, POWER_ON, NO_PINS);
    InitInSync(STEADY, POWER_ON, NO_PINS);
    var s2 := Attach(InitEx(STEADY, POWER_ON, NO_PINS).0, owner).0;
    assert HighResolution(0x43);
    ReadGoesThroughQuietly(s2);
    ReadsConversion(STEADY, s2);
    RejectedModeMisreads(STEADY, s2);
    var s3 := SetMode(STEADY, s2, false).0;
    ReadGoesThroughQuietly(s3);
    AnswerInStep(STEADY, s3);
    NarrowOfBig();
  }

  lemma ReadGoesThroughQuietly(s: Sys)
    ensures ReadGoesThrough(STEADY, s) && Converted(STEADY, s) == 0x100_0000
  {
  }

  lemma NarrowOfBig()
    ensures Fits(0x100_0000, true) && !Fits(0x100_0000, false)
    ensures Decode(Encode32(0x100_0000), false) == 0
  {
  }

  /** A bus that loses message 11, a chip whose conversion is always 1, and a silent line. */
  const LOSSY: World :=
    World(false, 0, (t: nat) => t != 11, (_: nat, _: nat) => 0, (_: nat) => true,
          (_: nat) => 1, (_: nat) => 0, (_: nat, _: nat) => 0)

  const POWER_CYCLE: seq<Op> := [OpSetPwdnPin(0), OpStart, OpPowerDown, OpPowerUp]

  /** It happens: start, power-down, and a power-up whose RESET is lost. The chip has power, but
      its registers are not those cached and it is out of continuous mode, which the flag denies;
      from then on reads return 0 for conversions of 1. */
  lemma LostResetMisleads()
    ensures Fresh(POWER_ON)
    ensures var (s, e) := InitEx(LOSSY, POWER_ON, NO_PINS);
            var t := DoAll(LOSSY, s, POWER_CYCLE);
            && e == EOK && !t.chip.down
            && !Coherent(t) && !InSync(t)
            && ReadGoesThrough(LOSSY, t) && Converted(LOSSY, t) == 1 && ReadData(LOSSY, t).1 == 0
  {
    hide InitEx, ReadData, Decode, HighResolution;
    InitCounted();
    var s := InitEx(LOSSY, POWER_ON, NO_PINS).0;
    InitSafe(LOSSY, POWER_ON, NO_PINS);
    InitCoherent(LOSSY, POWER_ON, NO_PINS);
    CycleCounted(s);
    var t := DoAll(LOSSY, s, POWER_CYCLE);
    OutOfSyncReadsNoise(LOSSY, t);
    Silence(HighResolution(t.dev.config0) && t.dev.resolution > 24);
  }

  lemma Silence(wide: bool)
    ensures Decode([0, 0, 0, 0], wide) == 0
  {
  }

  lemma InitCounted()
    ensures var (s, e) := InitEx(LOSSY, POWER_ON, NO_PINS);
            && e == EOK && |s.chip.log| == 7 && !s.dev.rdatac && s.dev.owner == NULL
            && s.dev.resetPin < 0 && s.dev.drdyPin < 0
  {
    hide WriteDefaults, RegisterRead;
    var s1 := InitPins(POWER_ON, NO_PINS);
    var s2 := s1.(dev := s1.dev.(attached := true));
    var s4 := Reset(LOSSY, s2).0;
    assert s4.chip.log == [Spi([CMD_RESET], false)];
    var s5 := ReadReg(LOSSY, s4, REG_ID).0;
    assert |s5.chip.log| == 2 && s5.dev == s4.dev;
    DefaultsSucceed(LOSSY, s5, NO_PINS);
    DefaultsFrame(LOSSY, s5, NO_PINS);
  }

  lemma CycleCounted(s: Sys)
    requires InStep(s) && |s.chip.log| == 7 && !s.dev.rdatac && s.dev.owner == NULL
    requires s.dev.resetPin < 0 && s.dev.drdyPin < 0 && s.dev.config0 == 0x43 && !s.chip.down
    ensures var t := DoAll(LOSSY, s, POWER_CYCLE);
            && !t.chip.down && InStep(t) && !Coherent(t) && !InSync(t) && ReadGoesThrough(LOSSY, t)
            && Converted(LOSSY, t) == 1
  {
    hide Do, Coherent, DoAll;
    var s1 := Do(LOSSY, s, OpSetPwdnPin(0)).0;
    var s2 := Do(LOSSY, s1, OpStart).0;
    var s3 := Do(LOSSY, s2, OpPowerDown).0;
    var s4 := Do(LOSSY, s3, OpPowerUp).0;
    FourCalls(s, s1, s2, s3, s4);
    StartAndCut(s);
    SupplyWithoutReset(LOSSY, s3);
    NotCoherent(s4);
  }

  lemma NotCoherent(s: Sys)
    requires !s.chip.down && |s.chip.regs| == REGISTERS && s.chip.regs[1] != s.dev.config0
    ensures !Coherent(s)
  {
  }

  lemma StartAndCut(s: Sys)
    requires InStep(s) && |s.chip.log| == 7 && !s.dev.rdatac && s.dev.owner == NULL && !s.chip.down
    ensures var s1 := Do(LOSSY, s, OpSetPwdnPin(0)).0;
            var s2 := Do(LOSSY, s1, OpStart).0;
            var s3 := Do(LOSSY, s2, OpPowerDown).0;
            && s3.dev == s.dev.(pwdnPin := 0, rdatac := true)
            && s3.chip.down && !s3.chip.continuous && |s3.chip.log| == 10
            && |s3.chip.regs| == REGISTERS && s3.chip.regs[1] == 0
  {
    var s1 := Do(LOSSY, s, OpSetPwdnPin(0)).0;
    assert s1.dev == s.dev.(pwdnPin := 0) && |s1.chip.log| == 8 && !s1.chip.down;
    var s2 := Do(LOSSY, s1, OpStart).0;
    assert s2.dev == s1.dev.(rdatac := true) && |s2.chip.log| == 9;
  }

  /** A power-up whose RESET is lost supplies the chip and does nothing else. */
  lemma SupplyWithoutReset(w: World, s: Sys)
    requires s.dev.owner == NULL && s.chip.down && s.dev.pwdnPin >= 0 && s.dev.resetPin < 0
    requires !w.resetContinuous && !w.ok(|s.chip.log| + 1)
    ensures var (s', e) := Do(w, s, OpPowerUp);
            && e == EIO && s'.dev == s.dev && s'.chip.regs == s.chip.regs
            && !s'.chip.down && !s'.chip.continuous && |s'.chip.log| == |s.chip.log| + 2
  {
    hide WriteReg;
  }

  lemma FourCalls(s: Sys, s1: Sys, s2: Sys, s3: Sys, s4: Sys)
    requires Do(LOSSY, s, OpSetPwdnPin(0)).0 == s1 && Do(LOSSY, s1, OpStart).0 == s2
    requires Do(LOSSY, s2, OpPowerDown).0 == s3 && Do(LOSSY, s3, OpPowerUp).0 == s4
    ensures DoAll(LOSSY, s, POWER_CYCLE) == s4
  {
    hide Do;
    assert POWER_CYCLE[..3] == [OpSetPwdnPin(0), OpStart, OpPowerDown];
    assert POWER_CYCLE[..3][..2] == [OpSetPwdnPin(0), OpStart];
    assert [OpSetPwdnPin(0), OpStart][..1] == [OpSetPwdnPin(0)];
    assert DoAll(LOSSY, s, [OpSetPwdnPin(0)][..0]) == s;
  }
}
