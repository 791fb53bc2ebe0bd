/** What ownership protects: while an aggregator owns the device, nothing the bare interface is
    asked to do reaches the chip except reading data. */
module Freeze {
  import opened Chips
  import opened Driver

  /** RDATA, data clocks, or a look at the DRDY pin. */
  predicate OnlyReads(t: Traffic) {
    t.Polled? || (t.Spi? && (t.tx == [] || t.tx == [CMD_RDATA]))
  }

  /** `s'` follows `s` without the chip or the driver's view of its mode and pins having moved. */
  ghost predicate Frozen(s: Sys, s': Sys) {
    && s'.dev == s.dev.(config0 := s'.dev.config0, config1 := s'.dev.config1)
    && s'.chip == s.chip.(log := s'.chip.log)
    && s.chip.log <= s'.chip.log
    && (forall k :: |s.chip.log| <= k < |s'.chip.log| ==> OnlyReads(s'.chip.log[k]))
  }

  ghost predicate Releases(s: Sys, op: Op) {
    op.OpDetach? && op.owner == s.dev.owner
  }

  /** The first initialisation does not ask for the owner before it sets the pins and attaches to
      the bus. It changes nothing if there is no bus and all it sets is as it would be. */
  predicate Unmoved(dev: Dev, u: Setup) {
    && !u.busAttaches && u.syncPin < 0
    && dev.resolution == RESOLUTION && dev.drdyPin == u.drdyPin && dev.resetPin == u.resetPin
    && dev.pwdnPin == -1 && dev.syncPin == -1
  }

  /** The calls that an owned device is not safe from: a detach by its owner, and an initialisation
      that comes after the attach. */
  ghost predicate Thaws(s: Sys, op: Op) {
    Releases(s, op) || (op.OpInit? && !s.dev.attached && !Unmoved(s.dev, op.setup))
  }

  lemma ReadFrozen(w: World, s: Sys)
    ensures Frozen(s, ReadData(w, s).0)
  {
    hide Decode, Answer;
  }

  /** Every other call finds the owner first, or has nothing to say to the chip. */
  lemma StepFrozen(w: World, s: Sys, op: Op)
    requires s.dev.owner != NULL
    ensures Frozen(s, Do(w, s, op).0) <==> !Thaws(s, op)
  {
    hide Transfer, Replace, Flag, RateCode, GainCode, LeaveContinuous, RegisterRead, PulseReset, DrivePower,
         WriteDefaults, InitPins, ReadData, InitEx, Unmoved;
    if op.OpReadData? {
      ReadFrozen(w, s);
    } else if Setter(op) {
      SetterConfigures(w, s, op);
    } else if op.OpInit? {
      InitOwned(w, s, op.setup);
    }
  }

  /** On an owned device initialisation gets as far as the reset. */
  lemma InitOwned(w: World, s: Sys, u: Setup)
    requires s.dev.owner != NULL
    ensures Frozen(s, InitEx(w, s, u).0) <==> s.dev.attached || Unmoved(s.dev, u)
    ensures InitEx(w, s, u).0.dev.owner == s.dev.owner
    ensures var s' := InitEx(w, s, u).0;
            !s.dev.attached && !Unmoved(s.dev, u) ==>
              || s'.dev.attached != s.dev.attached || s'.dev.resolution != s.dev.resolution
              || s'.dev.drdyPin != s.dev.drdyPin || s'.dev.resetPin != s.dev.resetPin
              || s'.dev.pwdnPin != s.dev.pwdnPin || s'.dev.syncPin != s.dev.syncPin
              || (|s.chip.log| < |s'.chip.log| && s'.chip.log[|s.chip.log|] == Output(SyncLine))
  {
    hide WriteDefaults, RegisterRead, PulseReset, Transfer;
    if !s.dev.attached && u.syncPin >= 0 {
      assert InitPins(s, u).chip.log[|s.chip.log|] == Output(SyncLine);
    }
  }

  /** What one call has disturbed, no history before it hides. */
  lemma ThawShows(w: World, s: Sys, t: Sys, op: Op)
    requires s.dev.owner != NULL && Frozen(s, t) && Thaws(t, op)
    ensures !Frozen(s, Do(w, t, op).0)
  {
    hide InitEx, Unmoved;
    if op.OpInit? {
      InitOwned(w, t, op.setup);
    }
  }

  ghost predicate AlwaysFrozen(w: World, s: Sys, ops: seq<Op>) {
    forall k :: 0 <= k <= |ops| ==> Frozen(s, DoAll(w, s, ops[..k]))
  }

  ghost predicate NeverThaws(w: World, s: Sys, ops: seq<Op>) {
    forall k :: 0 <= k < |ops| ==> !Thaws(DoAll(w, s, ops[..k]), ops[k])
  }

  /** Owned freeze: exactly over the runs of the bare interface without such a call is it so at
      every moment that the only traffic has been reading data, and that the chip's registers,
      mode and power, the control pins, the driver's mode flag and the owner are as they were. Of
      the driver's own state only the cached configuration can change. */
  lemma {:induction false} OwnedFreeze(w: World, s: Sys, ops: seq<Op>)
    requires s.dev.owner != NULL
    ensures AlwaysFrozen(w, s, ops) <==> NeverThaws(w, s, ops)
    decreases |ops|
  {
    hide Do, Thaws;
    if ops == [] {
      assert forall k :: 0 <= k <= |ops| ==> ops[..k] == [];
    } else {
      var before, op := ops[..|ops| - 1], ops[|ops| - 1];
      OwnedFreeze(w, s, before);
      LastCall(w, s, ops);
      if AlwaysFrozen(w, s, before) {
        assert before[..|before|] == before;
        var t := DoAll(w, s, before);
        StepFrozen(w, t, op);
        if Thaws(t, op) {
          ThawShows(w, s, t, op);
        }
      }
    }
  }

  lemma LastCall(w: World, s: Sys, ops: seq<Op>)
    requires ops != []
    ensures var before := ops[..|ops| - 1];
            && (AlwaysFrozen(w, s, ops) <==> AlwaysFrozen(w, s, before) && Frozen(s, DoAll(w, s, ops)))
            && (NeverThaws(w, s, ops) <==> NeverThaws(w, s, before) && !Thaws(DoAll(w, s, before), ops[|ops| - 1]))
  {
    hide Do, Thaws, Frozen, DoAll;
    var before := ops[..|ops| - 1];
    assert forall k :: 0 <= k <= |before| ==> before[..k] == ops[..k];
    assert ops[..|ops|] == ops;
  }
}
