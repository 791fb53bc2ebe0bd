/** Which conversion of each device a frame holds, and how many frames there are, in runs whose
    sessions all sample the same devices. */
module Alignment {
  import opened Pipeline
  import opened Sessions
  import opened Streams
  import opened Wakeup

  // ---------------------------------------------------------------------------
  // From pushes back to readings

  function Values(offers: seq<Reading>): seq<int> {
    seq(|offers|, k requires 0 <= k < |offers| => offers[k].v)
  }

  /** The sample of device `i` that an interrupt has read and not yet pushed. */
  ghost function Unpushed(s: State, i: nat): seq<int>
    requires i < |s.dev|
  {
    if s.dev[i].isr.Holding? then [s.dev[i].isr.v]
    else if s.agg.AggHolding? && s.agg.i == i then [s.agg.v]
    else []
  }

  /** Each device's line goes to one handler only. */
  ghost predicate Wired(c: Config, s: State) {
    if c.aggregated then forall i :: 0 <= i < |s.dev| ==> s.dev[i].isr == Idle
    else s.agg == AggIdle
  }

  ghost predicate Recorded(s: State, i: nat)
    requires i < |s.dev|
  {
    s.dev[i].samples == Values(s.dev[i].offers) + Unpushed(s, i)
  }

  lemma WiredStep(c: Config, s: State, ev: Event)
    requires Wired(c, s) && Enabled(c, s, ev)
    ensures Wired(c, Apply(c, s, ev))
  {
    if Control(ev) {
      ControlFrame(c, s, ev);
    } else if !Interrupt(ev) && !ev.StoreFrame? && !ev.FlushRest? && !ev.PopRing? {
      WorkerFrame(c, s, ev);
    }
  }

  lemma RecordedStep(c: Config, s: State, ev: Event, i: nat)
    requires Wired(c, s) && i < |s.dev| && Recorded(s, i) && Enabled(c, s, ev)
    ensures i < |Apply(c, s, ev).dev| && Recorded(Apply(c, s, ev), i)
  {
    var s' := Apply(c, s, ev);
    if Control(ev) {
      ControlFrame(c, s, ev);
    } else if Interrupt(ev) {
      if ev.IsrPush? || ev.AggPush? {
        PushRecorded(c, s, ev, i);
      }
    } else if !ev.StoreFrame? && !ev.FlushRest? && !ev.PopRing? {
      WorkerFrame(c, s, ev);
    }
  }

  lemma PushRecorded(c: Config, s: State, ev: Event, i: nat)
    requires Wired(c, s) && i < |s.dev| && Recorded(s, i) && Enabled(c, s, ev)
    requires ev.IsrPush? || ev.AggPush?
    ensures i < |Apply(c, s, ev).dev| && Recorded(Apply(c, s, ev), i)
  {
    var s' := Apply(c, s, ev);
    if s'.dev[i].offers != s.dev[i].offers {
      assert Unpushed(s', i) == [];
      assert Values(s'.dev[i].offers) == Values(s.dev[i].offers) + Unpushed(s, i);
    }
  }

  lemma {:induction false} RecordedHolds(c: Config, evs: seq<Event>, i: nat)
    requires Legal(c, Init(c), evs) && i < c.devices
    ensures var s := After(c, Init(c), evs); |s.dev| == c.devices && Wired(c, s) && Recorded(s, i)
    decreases |evs|
  {
    if evs != [] {
      var before := evs[..|evs| - 1];
      RecordedHolds(c, before, i);
      ShapeHolds(c, evs);
      WiredStep(c, After(c, Init(c), before), evs[|evs| - 1]);
      RecordedStep(c, After(c, Init(c), before), evs[|evs| - 1], i);
    }
  }

  // ---------------------------------------------------------------------------
  // Drops

  ghost function Drops(offers: seq<Reading>): nat {
    if offers == [] then 0
    else Drops(offers[..|offers| - 1]) + (if offers[|offers| - 1].kept then 0 else 1)
  }

  lemma {:induction false} KeptPlusDrops(offers: seq<Reading>)
    ensures |Kept(offers)| + Drops(offers) == |offers|
  {
    if offers != [] {
      KeptPlusDrops(offers[..|offers| - 1]);
    }
  }

  /** The push that put the `k`-th accepted sample into the ring. */
  ghost function KeptAt(offers: seq<Reading>, k: nat): nat {
    if offers == [] then 0
    else if offers[|offers| - 1].kept && k == |Kept(offers)| - 1 then |offers| - 1
    else KeptAt(offers[..|offers| - 1], k)
  }

  lemma {:induction false} KeptAtCorrect(offers: seq<Reading>, k: nat)
    requires k < |Kept(offers)|
    ensures var p := KeptAt(offers, k);
            && p < |offers| && offers[p].kept && offers[p].v == Kept(offers)[k]
            && p == k + Drops(offers[..p])
  {
    var front := offers[..|offers| - 1];
    if offers[|offers| - 1].kept && k == |Kept(offers)| - 1 {
      KeptPlusDrops(front);
    } else {
      KeptAtCorrect(front, k);
      assert front[..KeptAt(front, k)] == offers[..KeptAt(front, k)];
    }
  }

  lemma {:induction false} NoDropsBefore(offers: seq<Reading>, p: nat)
    requires Drops(offers) == 0 && p <= |offers|
    ensures Drops(offers[..p]) == 0
    decreases |offers|
  {
    if p < |offers| {
      NoDropsBefore(offers[..|offers| - 1], p);
      assert offers[..|offers| - 1][..p] == offers[..p];
    } else {
      assert offers[..p] == offers;
    }
  }

  // ---------------------------------------------------------------------------
  // Frames of runs with one mask

  ghost predicate OneMask(m: set<nat>, evs: seq<Event>) {
    forall k :: 0 <= k < |evs| && evs[k].StartSetUp? ==> evs[k].newMask == m
  }

  ghost predicate Uniform(m: set<nat>, s: State) {
    && (s.mask == m || (s.mask == {} && s.worker == NoThread && s.ctl == CtlIdle))
    && (forall p :: 0 <= p < |s.published| ==> s.published[p].mask == m)
  }

  lemma UniformStep(c: Config, m: set<nat>, s: State, ev: Event)
    requires Shape(c, s) && Uniform(m, s) && Enabled(c, s, ev)
    requires ev.StartSetUp? ==> ev.newMask == m
    ensures Uniform(m, Apply(c, s, ev))
  {
    if Interrupt(ev) {
      InterruptFrame(c, s, ev);
    } else if !Control(ev) && !ev.StoreFrame? && !ev.FlushRest? {
      WorkerFrame(c, s, ev);
    }
  }

  lemma {:induction false} UniformHolds(c: Config, m: set<nat>, evs: seq<Event>)
    requires Legal(c, Init(c), evs) && OneMask(m, evs)
    ensures Uniform(m, After(c, Init(c), evs))
    decreases |evs|
  {
    if evs != [] {
      var before := evs[..|evs| - 1];
      ShapeHolds(c, before);
      UniformHolds(c, m, before);
      UniformStep(c, m, After(c, Init(c), before), evs[|evs| - 1]);
    }
  }

  ghost function Flatten(ps: seq<Publish>): seq<Frame> {
    if ps == [] then [] else Flatten(ps[..|ps| - 1]) + ps[|ps| - 1].frames
  }

  /** Every frame assembled since the driver was loaded, in order: published ones first. */
  ghost function AllFrames(s: State): seq<Frame> {
    Flatten(s.published) + Front(s.frames, s.fi)
  }

  lemma {:induction false} DeliveredIsColumn(m: set<nat>, ps: seq<Publish>, i: nat)
    requires i in m && forall p :: 0 <= p < |ps| ==> ps[p].mask == m
    ensures Delivered(ps, i) == Column(Flatten(ps), i)
  {
    if ps != [] {
      DeliveredIsColumn(m, ps[..|ps| - 1], i);
    }
  }

  /** With one mask, conservation reads: the accepted samples of a masked device are its channel
      of all assembled frames, then of the part frame, then the ring. */
  lemma KeptIsColumn(c: Config, m: set<nat>, evs: seq<Event>, i: nat)
    requires Legal(c, Init(c), evs) && OneMask(m, evs) && i in m && i < c.devices
    ensures var s := After(c, Init(c), evs);
            && |s.dev| == c.devices
            && Kept(s.dev[i].offers) == Column(AllFrames(s), i) + PartFilled(s, i) + s.dev[i].ring
  {
    var s := After(c, Init(c), evs);
    ShapeHolds(c, evs);
    UniformHolds(c, m, evs);
    Conservation(c, evs, i);
    DeliveredIsColumn(m, s.published, i);
    ColumnSplit(Flatten(s.published), Front(s.frames, s.fi), i);
    if s.mask != m {
      assert Front(s.frames, s.fi) == [];
      assert InHand(s, i) == [];
    }
  }

  lemma ColumnSplit(a: seq<Frame>, b: seq<Frame>, i: nat)
    ensures Column(a + b, i) == Column(a, i) + Column(b, i)
  {
  }

  /** Alignment with drift. Channel `i` of frame `k` is reading number `k + d` of device `i`,
      where `d` is the number of readings of that device dropped before it. */
  lemma AlignedUpToDrops(c: Config, m: set<nat>, evs: seq<Event>, i: nat, k: nat)
    requires Legal(c, Init(c), evs) && OneMask(m, evs) && i in m && i < c.devices
    requires k < |AllFrames(After(c, Init(c), evs))|
    ensures |After(c, Init(c), evs).dev| == c.devices
    ensures var s := After(c, Init(c), evs);
            var p := KeptAt(s.dev[i].offers, k);
            && p < |s.dev[i].offers| && p < |s.dev[i].samples|
            && Channel(AllFrames(s)[k], i) == s.dev[i].samples[p]
            && p == k + Drops(s.dev[i].offers[..p])
  {
    var s := After(c, Init(c), evs);
    KeptIsColumn(c, m, evs, i);
    RecordedHolds(c, evs, i);
    assert Column(AllFrames(s), i)[k] == Kept(s.dev[i].offers)[k];
    KeptAtCorrect(s.dev[i].offers, k);
  }

  /** As long as no reading of device `i` was dropped, frame `k` holds its `k`-th reading. If that
      is so for every masked device, all channels of a frame belong to the same conversion. */
  lemma AlignedWithoutDrops(c: Config, m: set<nat>, evs: seq<Event>, i: nat, k: nat)
    requires Legal(c, Init(c), evs) && OneMask(m, evs) && i in m && i < c.devices
    requires k < |AllFrames(After(c, Init(c), evs))|
    ensures |After(c, Init(c), evs).dev| == c.devices
    ensures var s := After(c, Init(c), evs);
            Drops(s.dev[i].offers) == 0 ==>
              k < |s.dev[i].samples| && Channel(AllFrames(s)[k], i) == s.dev[i].samples[k]
  {
    AlignedUpToDrops(c, m, evs, i, k);
    var offers := After(c, Init(c), evs).dev[i].offers;
    if Drops(offers) == 0 {
      NoDropsBefore(offers, KeptAt(offers, k));
    }
  }

  /** Two channels of a frame hold the same-numbered conversion exactly when their devices had
      lost equally many readings by then. */
  lemma SameConversionExact(c: Config, m: set<nat>, evs: seq<Event>, i: nat, j: nat, k: nat)
    requires Legal(c, Init(c), evs) && OneMask(m, evs)
    requires i in m && i < c.devices && j in m && j < c.devices
    requires k < |AllFrames(After(c, Init(c), evs))|
    ensures |After(c, Init(c), evs).dev| == c.devices
    ensures var s := After(c, Init(c), evs);
            var p, q := KeptAt(s.dev[i].offers, k), KeptAt(s.dev[j].offers, k);
            && p < |s.dev[i].samples| && Channel(AllFrames(s)[k], i) == s.dev[i].samples[p]
            && q < |s.dev[j].samples| && Channel(AllFrames(s)[k], j) == s.dev[j].samples[q]
            && p <= |s.dev[i].offers| && q <= |s.dev[j].offers|
            && (p == q <==> Drops(s.dev[i].offers[..p]) == Drops(s.dev[j].offers[..q]))
  {
    AlignedUpToDrops(c, m, evs, i, k);
    AlignedUpToDrops(c, m, evs, j, k);
  }

  // ---------------------------------------------------------------------------
  // Output at rest

  /** The worker waits and nothing is on its way to wake it but time. */
  ghost predicate AtRest(s: State) {
    s.worker == Taking && s.sem == 0 && !InFlight(s)
  }

  /** Exact output. Never more frames than any masked device has accepted samples, and at rest,
      in a session armed in time, exactly as many as the device with the fewest. */
  lemma ExactOutputAtRest(c: Config, m: set<nat>, evs: seq<Event>)
    requires c.semMax > 0 && Legal(c, Init(c), evs) && OneMask(m, evs)
    requires forall i :: i in m ==> i < c.devices
    ensures |After(c, Init(c), evs).dev| == c.devices
    ensures var s := After(c, Init(c), evs);
            forall i :: i in m ==> |AllFrames(s)| <= |Kept(s.dev[i].offers)|
    ensures var s := After(c, Init(c), evs);
            AtRest(s) && s.armed ==> exists i :: i in m && |AllFrames(s)| == |Kept(s.dev[i].offers)|
  {
    var s := After(c, Init(c), evs);
    ShapeHolds(c, evs);
    forall i | i in m
      ensures |Kept(s.dev[i].offers)| == |AllFrames(s)| + |PartFilled(s, i)| + |s.dev[i].ring|
    {
      KeptIsColumn(c, m, evs, i);
    }
    if AtRest(s) && s.armed {
      NoLostWakeup(c, evs);
      UniformHolds(c, m, evs);
      var i :| i in s.mask && i < |s.dev| && s.dev[i].ring == [];
      assert |AllFrames(s)| == |Kept(s.dev[i].offers)|;
    }
  }
}
