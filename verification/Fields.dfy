/** The packed configuration bytes against the settings they stand for: every setter changes its
    own field and no other. */
module Fields {
  import opened Chips
  import opened Driver
  import opened Protocol
  import opened Coherence

  /** CONFIG0 and CONFIG1, read field by field as the data sheet lists them. A code outside the
      driver's tables reads as 0. */
  datatype Settings = Settings(
    continuousSync: bool,
    highRes: bool,
    sps: nat,
    minimumPhase: bool,
    filter: bv8,
    mux: bv8,
    chopping: bool,
    gain: nat)

  function Bits(b: bv8, shift: nat, mask: bv8): bv8
    requires shift < 8
  {
    (b >> shift) & mask
  }

  function SpsOf(code: bv8): nat {
    match code
    case 0 => 250
    case 1 => 500
    case 2 => 1000
    case 3 => 2000
    case 4 => 4000
    case _ => 0
  }

  function GainOf(code: bv8): nat {
    match code
    case 0 => 1
    case 1 => 2
    case 2 => 4
    case 3 => 8
    case 4 => 16
    case 5 => 32
    case 6 => 64
    case _ => 0
  }

  function Unpack(config0: bv8, config1: bv8): Settings {
    Settings(Bits(config0, 7, 1) == 1, Bits(config0, 6, 1) == 1, SpsOf(Bits(config0, 3, 7)),
             Bits(config0, 2, 1) == 1, Bits(config0, 0, 3),
             Bits(config1, 4, 7), Bits(config1, 3, 1) == 1, GainOf(Bits(config1, 0, 7)))
  }

  /** What a caller means by a setter. An argument the driver refuses means nothing. */
  function Intended(st: Settings, op: Op): Settings
    requires Setter(op)
  {
    match op
    case OpSetRate(sps) => if sps in {250, 500, 1000, 2000, 4000} then st.(sps := sps) else st
    case OpSetGain(gain) => if gain in {1, 2, 4, 8, 16, 32, 64} then st.(gain := gain) else st
    case OpSetMux(mux) => if mux <= 4 then st.(mux := mux) else st
    case OpSetFilter(f) => if f <= 3 then st.(filter := f as bv8) else st
    case OpSetPhase(minimum) => st.(minimumPhase := minimum)
    case OpSetMode(highRes) => st.(highRes := highRes)
    case OpSetSyncMode(continuous) => st.(continuousSync := continuous)
  }

  /** After a reset: high resolution, 1000 SPS, sinc and low-pass, first input, chopping, gain 1. */
  const RESET_SETTINGS := Settings(false, true, 1000, false, 2, 0, true, 1)

  lemma ResetUnpacks()
    ensures Unpack(0x52, 0x08) == RESET_SETTINGS
  {
  }

  // ---------------------------------------------------------------------------
  // One field at a time

  lemma RateField(c0: bv8, c1: bv8, dr: bv8)
    requires dr <= 4
    ensures Unpack(Replace(c0, Dr(0x07), Dr(dr)), c1) == Unpack(c0, c1).(sps := SpsOf(dr))
  {
    assert Bits(Replace(c0, Dr(0x07), Dr(dr)), 3, 7) == dr;
  }

  lemma FilterField(c0: bv8, c1: bv8, f: bv8)
    requires f <= 3
    ensures Unpack(Replace(c0, Filtr(0x03), Filtr(f)), c1) == Unpack(c0, c1).(filter := f)
  {
  }

  lemma PhaseField(c0: bv8, c1: bv8, on: bool)
    ensures Unpack(Flag(c0, CFG0_PHS, on), c1) == Unpack(c0, c1).(minimumPhase := on)
  {
  }

  lemma ModeField(c0: bv8, c1: bv8, on: bool)
    ensures Unpack(Flag(c0, CFG0_MODE, on), c1) == Unpack(c0, c1).(highRes := on)
  {
  }

  lemma SyncField(c0: bv8, c1: bv8, on: bool)
    ensures Unpack(Flag(c0, CFG0_SYNC, on), c1) == Unpack(c0, c1).(continuousSync := on)
  {
  }

  lemma GainField(c0: bv8, c1: bv8, pga: bv8)
    requires pga <= 6
    ensures Unpack(c0, Replace(c1, Pga(0x07), Pga(pga))) == Unpack(c0, c1).(gain := GainOf(pga))
  {
    assert Bits(Replace(c1, Pga(0x07), Pga(pga)), 0, 7) == pga;
  }

  lemma MuxField(c0: bv8, c1: bv8, mux: bv8)
    requires mux <= 4
    ensures Unpack(c0, Replace(c1, Mux(0x07), Mux(mux))) == Unpack(c0, c1).(mux := mux)
  {
  }

  /** The tables of the setters and of the reader are inverse to each other. */
  lemma CodesInvert(x: nat)
    ensures RateCode(x).Some? <==> x in {250, 500, 1000, 2000, 4000}
    ensures RateCode(x).Some? ==> RateCode(x).value <= 4 && SpsOf(RateCode(x).value) == x
    ensures GainCode(x).Some? <==> x in {1, 2, 4, 8, 16, 32, 64}
    ensures GainCode(x).Some? ==> GainCode(x).value <= 6 && GainOf(GainCode(x).value) == x
  {
  }

  /** Field independence: whatever the registers hold, a setter puts its value into its own field
      and leaves every other field as it was. */
  lemma SetterSetsOneField(dev: Dev, op: Op)
    requires Setter(op)
    ensures var change := ChangeOf(dev, op);
            var c0 := if change.Zero? then change.config0 else dev.config0;
            var c1 := if change.One? then change.config1 else dev.config1;
            Unpack(c0, c1) == Intended(Unpack(dev.config0, dev.config1), op)
  {
    hide Unpack, Replace, Flag, Dr, Filtr, Mux, Pga, RateCode, GainCode, SpsOf, GainOf;
    var c0, c1 := dev.config0, dev.config1;
    match op {
      case OpSetRate(sps) =>
        CodesInvert(sps);
        if RateCode(sps).Some? { RateField(c0, c1, RateCode(sps).value); }
      case OpSetGain(gain) =>
        CodesInvert(gain);
        if GainCode(gain).Some? { GainField(c0, c1, GainCode(gain).value); }
      case OpSetMux(mux) =>
        if mux <= 4 { MuxField(c0, c1, mux); }
      case OpSetFilter(f) =>
        if f <= 3 { FilterField(c0, c1, f as bv8); }
      case OpSetPhase(on) => PhaseField(c0, c1, on);
      case OpSetMode(on) => ModeField(c0, c1, on);
      case OpSetSyncMode(on) => SyncField(c0, c1, on);
    }
  }

  // ---------------------------------------------------------------------------
  // Runs of setters

  function IntendedAll(st: Settings, ops: seq<Op>): Settings
    requires forall k :: 0 <= k < |ops| ==> Setter(ops[k])
    decreases |ops|
  {
    if ops == [] then st else Intended(IntendedAll(st, ops[..|ops| - 1]), ops[|ops| - 1])
  }

  /** A successful setter leaves the intended settings in the cache and in the chip. */
  lemma SetterStep(w: World, s: Sys, op: Op)
    requires Setter(op) && Safe(s) && Coherent(s) && !s.chip.down && Do(w, s, op).1 == EOK
    ensures var s' := Do(w, s, op).0;
            && Coherent(s') && !s'.chip.down
            && Unpack(s'.dev.config0, s'.dev.config1) == Intended(Unpack(s.dev.config0, s.dev.config1), op)
  {
    hide Configure0, Configure1, ChangeOf, Unpack, Intended, InStep, Do;
    SetterConfigures(w, s, op);
    SetterSetsOneField(s.dev, op);
    match ChangeOf(s.dev, op) {
      case Nothing =>
      case Zero(c0) => Write0(w, s, c0);
      case One(c1) => Write1(w, s, c1);
    }
  }

  ghost predicate AllSucceed(w: World, s: Sys, ops: seq<Op>) {
    forall k :: 0 <= k < |ops| ==> Setter(ops[k]) && Do(w, DoAll(w, s, ops[..k]), ops[k]).1 == EOK
  }

  lemma {:induction false} SettersAccumulate(w: World, s: Sys, ops: seq<Op>)
    requires Safe(s) && Coherent(s) && !s.chip.down && AllSucceed(w, s, ops)
    ensures var t := DoAll(w, s, ops);
            && Safe(t) && Coherent(t) && !t.chip.down
            && Unpack(t.dev.config0, t.dev.config1) == IntendedAll(Unpack(s.dev.config0, s.dev.config1), ops)
    decreases |ops|
  {
    hide Do, Unpack, Intended, Safe;
    if ops != [] {
      var before := ops[..|ops| - 1];
      forall k | 0 <= k < |before|
        ensures Setter(before[k]) && Do(w, DoAll(w, s, before[..k]), before[k]).1 == EOK
      {
        assert before[..k] == ops[..k];
      }
      SettersAccumulate(w, s, before);
      SetterSafe(w, DoAll(w, s, before), ops[|ops| - 1]);
      SetterStep(w, DoAll(w, s, before), ops[|ops| - 1]);
    }
  }

  /** Last value set. From a reset of a powered chip, any run of successful setters leaves in the
      cache and in the chip's own registers the reset settings with each field replaced by the
      last value it was given. */
  lemma LastValueSet(w: World, s: Sys, ops: seq<Op>)
    requires !w.resetContinuous && Safe(s) && !s.chip.down && Reset(w, s).1 == EOK
    requires AllSucceed(w, Reset(w, s).0, ops)
    ensures var t := DoAll(w, Reset(w, s).0, ops);
            var wanted := IntendedAll(RESET_SETTINGS, ops);
            && Unpack(t.dev.config0, t.dev.config1) == wanted
            && |t.chip.regs| == REGISTERS && Unpack(t.chip.regs[1], t.chip.regs[2]) == wanted
  {
    hide Reset, Do, Unpack;
    ResetSafe(w, s);
    ResetCoherent(w, s);
    SettersAccumulate(w, Reset(w, s).0, ops);
    ResetUnpacks();
  }
}
