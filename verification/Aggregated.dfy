/** All DRDY lines on one interrupt: what `ads128x_acq_isr_all` does to the alignment of frames. */
module Aggregated {
  import opened Pipeline
  import opened Sessions
  import opened Streams
  import opened Alignment
  import opened NoDrop
  import opened Schedules
  import opened Tracking

  /** 1 when the interrupt under way has already read, or pushed, for device `i`. */
  function ReadNow(s: State, i: nat): nat {
    if !s.agg.AggIdle? && (i < s.agg.i || (s.agg.AggHolding? && i == s.agg.i)) then 1 else 0
  }

  function PushedNow(s: State, i: nat): nat {
    if !s.agg.AggIdle? && i < s.agg.i then 1 else 0
  }

  /** What had been read, and pushed, before the interrupt under way. */
  ghost function PastReads(s: State, i: nat): int
    requires i < |s.dev|
  {
    |s.dev[i].samples| - ReadNow(s, i)
  }

  ghost function PastPushes(s: State, i: nat): int
    requires i < |s.dev|
  {
    |s.dev[i].offers| - PushedNow(s, i)
  }

  /** Setting aside the interrupt under way, all devices of `m` have been read and pushed equally
      often. */
  ghost predicate Abreast(m: set<nat>, s: State) {
    && (s.agg != AggIdle ==> s.mask == m)
    && forall i, j :: i in m && j in m && i < |s.dev| && j < |s.dev| ==>
         PastReads(s, i) == PastReads(s, j) && PastPushes(s, i) == PastPushes(s, j)
  }

  /** Only the end of an interrupt adds to the past, and it adds one for every masked device. */
  lemma InterruptPast(c: Config, s: State, ev: Event, i: nat)
    requires c.aggregated && Wired(c, s) && Enabled(c, s, ev) && Interrupt(ev)
    requires i < |s.dev| && (s.agg != AggIdle ==> i in s.mask)
    ensures var s' := Apply(c, s, ev);
            var more := if ev.AggRelease? then 1 else 0;
            && |s'.dev| == |s.dev|
            && PastReads(s', i) == PastReads(s, i) + more
            && PastPushes(s', i) == PastPushes(s, i) + more
  {
  }

  lemma AggStarts(c: Config, s: State, ev: Event)
    requires c.aggregated && Wired(c, s) && Enabled(c, s, ev) && Interrupt(ev)
    ensures var s' := Apply(c, s, ev);
            s'.mask == s.mask && (s.agg == AggIdle ==> s.worker != NoThread)
  {
  }

  lemma AbreastStep(c: Config, m: set<nat>, s: State, ev: Event)
    requires c.aggregated && Shape(c, s) && Wired(c, s) && Uniform(m, s) && Abreast(m, s)
    requires Enabled(c, s, ev) && (ev.StartSetUp? ==> ev.newMask == m)
    ensures Abreast(m, Apply(c, s, ev))
  {
    hide Apply, Enabled, Shape;
    var s' := Apply(c, s, ev);
    if Interrupt(ev) {
      AggStarts(c, s, ev);
      forall i, j | i in m && j in m && i < |s'.dev| && j < |s'.dev|
        ensures PastReads(s', i) == PastReads(s', j) && PastPushes(s', i) == PastPushes(s', j)
      {
        InterruptFrame(c, s, ev);
        InterruptPast(c, s, ev, i);
        InterruptPast(c, s, ev, j);
      }
    } else if Control(ev) {
      ControlCounts(c, m, s, ev);
    } else {
      WorkerCounts(c, s, ev);
    }
  }

  lemma ControlCounts(c: Config, m: set<nat>, s: State, ev: Event)
    requires Enabled(c, s, ev) && Control(ev) && (ev.StartSetUp? ==> ev.newMask == m)
    ensures var s' := Apply(c, s, ev);
            && s'.agg == s.agg && s'.dev == s.dev && (s'.mask == s.mask || s'.mask == m)
  {
  }

  lemma WorkerCounts(c: Config, s: State, ev: Event)
    requires Enabled(c, s, ev) && !Interrupt(ev) && !Control(ev)
    ensures var s' := Apply(c, s, ev);
            && s'.agg == s.agg && s'.mask == s.mask && |s'.dev| == |s.dev|
            && forall i :: 0 <= i < |s.dev| ==>
                 s'.dev[i].samples == s.dev[i].samples && s'.dev[i].offers == s.dev[i].offers
  {
  }

  lemma {:induction false} AbreastHolds(c: Config, m: set<nat>, evs: seq<Event>)
    requires c.aggregated && c.devices > 0 && Legal(c, Init(c), evs) && OneMask(m, evs)
    ensures Abreast(m, After(c, Init(c), evs))
    decreases |evs|
  {
    if evs != [] {
      var before := evs[..|evs| - 1];
      ShapeHolds(c, before);
      UniformHolds(c, m, before);
      RecordedHolds(c, before, 0);
      AbreastHolds(c, m, before);
      AbreastStep(c, m, After(c, Init(c), before), evs[|evs| - 1]);
    }
  }

  /** Between two interrupts all sampled devices have been read equally often, and at any time
      their push counts differ by one at most: sample `k` of each was read by the same interrupt. */
  lemma ReadsTogether(c: Config, m: set<nat>, evs: seq<Event>, i: nat, j: nat)
    requires c.aggregated && Legal(c, Init(c), evs) && OneMask(m, evs)
    requires i in m && i < c.devices && j in m && j < c.devices
    ensures |After(c, Init(c), evs).dev| == c.devices
    ensures var s := After(c, Init(c), evs);
            && (s.agg == AggIdle ==> |s.dev[i].samples| == |s.dev[j].samples|)
            && |s.dev[i].offers| <= |s.dev[j].offers| + 1
  {
    hide Apply, Enabled;
    ShapeHolds(c, evs);
    AbreastHolds(c, m, evs);
    var s := After(c, Init(c), evs);
    assert PastReads(s, i) == PastReads(s, j) && PastPushes(s, i) == PastPushes(s, j);
  }

  /** The worker keeps up: no sampled device has been pushed more than `burst` times since the
      worker last found a masked ring empty, at any moment of the run. */
  ghost predicate KeepsUp(c: Config, m: set<nat>, burst: nat, evs: seq<Event>)
    requires Legal(c, Init(c), evs)
  {
    forall k :: 0 <= k <= |evs| ==> Legal(c, Init(c), evs[..k]) && InBurst(m, burst, After(c, Init(c), evs[..k]))
  }

  ghost predicate InBurst(m: set<nat>, burst: nat, s: State) {
    forall i :: i in m && i < |s.dev| && i < |s.seen| ==> |s.dev[i].offers| <= s.seen[i] + burst
  }

  /** If the worker keeps up with rings one deeper than a burst, every channel of frame `k` comes
      from interrupt number `k`. */
  lemma AggregatedAligned(c: Config, m: set<nat>, burst: nat, evs: seq<Event>, i: nat, k: nat)
    requires c.aggregated && Legal(c, Init(c), evs) && OneMask(m, evs)
    requires i in m && forall j :: j in m ==> j < c.devices
    requires KeepsUp(c, m, burst, evs) && burst + 1 <= c.depth
    requires k < |AllFrames(After(c, Init(c), evs))|
    ensures |After(c, Init(c), evs).dev| == c.devices
    ensures var s := After(c, Init(c), evs);
            && Drops(s.dev[i].offers) == 0
            && k < |s.dev[i].samples| && Channel(AllFrames(s)[k], i) == s.dev[i].samples[k]
  {
    SkewIsOne(c, m, burst, evs);
    NoneDropped(c, m, 1, burst, evs, i);
    AlignedWithoutDrops(c, m, evs, i, k);
  }

  lemma SkewIsOne(c: Config, m: set<nat>, burst: nat, evs: seq<Event>)
    requires c.aggregated && Legal(c, Init(c), evs) && OneMask(m, evs)
    requires forall j :: j in m ==> j < c.devices
    requires KeepsUp(c, m, burst, evs)
    ensures PacedRun(c, m, 1, burst, evs)
  {
    forall n | 0 <= n <= |evs|
      ensures Legal(c, Init(c), evs[..n]) && Paced(m, 1, burst, After(c, Init(c), evs[..n]))
    {
      var s := After(c, Init(c), evs[..n]);
      assert InBurst(m, burst, s);
      forall i, j | i in m && j in m && i < |s.dev| && j < |s.dev|
        ensures |s.dev[i].offers| <= |s.dev[j].offers| + 1
      {
        ReadsTogether(c, m, evs[..n], i, j);
      }
    }
  }

  // ---------------------------------------------------------------------------
  // When the rings are too shallow for that

  /** In an aggregated run the skew takes care of itself. */
  lemma BurstExtend(c: Config, m: set<nat>, burst: nat, evs: seq<Event>, s: State, ev: Event, s': State)
    returns (longer: seq<Event>)
    requires c.aggregated && (forall i :: i in m ==> i < c.devices)
    requires LeadsTo(c, m, Pace(1, burst), evs, s)
    requires Enabled(c, s, ev) && !ev.StartSetUp? && s' == Apply(c, s, ev) && InBurst(m, burst, s')
    ensures LeadsTo(c, m, Pace(1, burst), longer, s')
  {
    hide Apply, Enabled;
    Extend(c, Init(c), evs, ev);
    forall i, j | i in m && j in m && i < |s'.dev| && j < |s'.dev|
      ensures |s'.dev[i].offers| <= |s'.dev[j].offers| + 1
    {
      ReadsTogether(c, m, evs + [ev], i, j);
    }
    longer := KeepsExtend(c, m, Pace(1, burst), evs, s, ev, s');
  }

  /** The interrupt reads device `i` and pushes what it read. */
  lemma ServeDevice(c: Config, m: set<nat>, burst: nat, evs: seq<Event>, s: State, i: nat, v: int)
    returns (longer: seq<Event>, s': State)
    requires c.aggregated && LeadsTo(c, m, Pace(1, burst), evs, s) && Serving(c, m, s)
    requires s.agg.AggAt? && s.agg.i == i && i in m
    requires |s.dev[i].offers| + 1 <= s.seen[i] + burst
    ensures LeadsTo(c, m, Pace(1, burst), longer, s')
    ensures s' == s.(dev := s.dev[i := Sampled(c, s.dev[i], v)], agg := AggAt(i + 1, true))
  {
    var read := s.dev[i].(samples := s.dev[i].samples + [v]);
    var s1 := s.(dev := s.dev[i := read], agg := AggHolding(i, v, s.agg.pushed));
    longer := Quiet(c, m, Pace(1, burst), evs, s, AggRead(v), s1);
    s' := s.(dev := s.dev[i := Sampled(c, s.dev[i], v)], agg := AggAt(i + 1, true));
    assert s'.dev == s1.dev[i := PushInto(c, read, v)];
    Schedules.KeepsPace(c, m, Pace(1, burst), longer, s1);
    longer := BurstExtend(c, m, burst, longer, s1, AggPush, s');
  }

  /** The interrupt begins and serves the first sampled device. */
  lemma HalfInterrupt(c: Config, m: set<nat>, burst: nat, evs: seq<Event>, s: State, lead: nat, a: Track, b: Track)
    returns (longer: seq<Event>, s': State)
    requires c.aggregated && LeadsTo(c, m, Pace(1, burst), evs, s) && Pair(c, m, s, lead, a, b, 0)
    requires s.agg == AggIdle && (forall i :: i in m ==> lead <= i) && a.pushed + 1 <= a.seen + burst
    ensures LeadsTo(c, m, Pace(1, burst), longer, s') && Pair(c, m, s', lead, Offered(c, a), b, 0)
    ensures s'.agg == AggAt(lead + 1, true) && s'.worker == s.worker
  {
    hide LeadsTo, Offered;
    s' := s.(agg := AggAt(0, false));
    longer := Quiet(c, m, Pace(1, burst), evs, s, AggEnter, s');
    var i := 0;
    while i < lead
      invariant i <= lead && LeadsTo(c, m, Pace(1, burst), longer, s') && s' == s.(agg := AggAt(i, false))
    {
      longer := SkipDevice(c, m, burst, longer, s', i);
      s' := s.(agg := AggAt(i + 1, false));
      i := i + 1;
    }
    var s1 := s';
    longer, s' := ServeDevice(c, m, burst, longer, s1, lead, a.pushed);
    SampledTracks(c, s1, lead, a, s');
  }

  lemma SkipDevice(c: Config, m: set<nat>, burst: nat, evs: seq<Event>, s: State, i: nat)
    returns (longer: seq<Event>)
    requires LeadsTo(c, m, Pace(1, burst), evs, s) && Serving(c, m, s)
    requires s.agg.AggAt? && s.agg.i == i && i < c.devices && i !in m
    ensures LeadsTo(c, m, Pace(1, burst), longer, s.(agg := AggAt(i + 1, s.agg.pushed)))
  {
    longer := Quiet(c, m, Pace(1, burst), evs, s, AggSkip, s.(agg := AggAt(i + 1, s.agg.pushed)));
  }

  /** One turn of the interrupt's loop over the devices after `lead`. */
  lemma NextDevice(c: Config, m: set<nat>, burst: nat, evs: seq<Event>, s: State, lead: nat, a: Track, b: Track, i: nat)
    returns (longer: seq<Event>, s': State)
    requires c.aggregated && LeadsTo(c, m, Pace(1, burst), evs, s) && Pair(c, m, s, lead, a, b, i)
    requires s.agg == AggAt(i, true) && lead < i < c.devices && b.pushed + 1 <= b.seen + burst
    ensures LeadsTo(c, m, Pace(1, burst), longer, s') && Pair(c, m, s', lead, a, b, i + 1)
    ensures s'.agg == AggAt(i + 1, true) && s'.worker == s.worker
  {
    hide LeadsTo, Offered;
    if i in m {
      assert Tracks(s, i, b);
      longer, s' := ServeDevice(c, m, burst, evs, s, i, b.pushed);
      SampledTracks(c, s, i, b, s');
    } else {
      longer := SkipDevice(c, m, burst, evs, s, i);
      s' := s.(agg := AggAt(i + 1, true));
    }
  }

  /** The interrupt serves the other devices and ends. */
  lemma FinishInterrupt(c: Config, m: set<nat>, burst: nat, evs: seq<Event>, s: State, lead: nat, a: Track, b: Track)
    returns (longer: seq<Event>, s': State)
    requires c.aggregated && LeadsTo(c, m, Pace(1, burst), evs, s) && Pair(c, m, s, lead, a, b, 0)
    requires s.agg == AggAt(lead + 1, true) && (forall i :: i in m ==> lead <= i) && b.pushed + 1 <= b.seen + burst
    ensures LeadsTo(c, m, Pace(1, burst), longer, s') && Pair(c, m, s', lead, a, Offered(c, b), 0)
    ensures s'.agg == AggIdle && s'.worker == s.worker
  {
    hide LeadsTo, Offered, Tracks;
    longer, s' := evs, s;
    var i := lead + 1;
    while i < c.devices
      invariant lead < i <= c.devices && LeadsTo(c, m, Pace(1, burst), longer, s')
      invariant Pair(c, m, s', lead, a, b, i) && s'.agg == AggAt(i, true) && s'.worker == s.worker
    {
      longer, s' := NextDevice(c, m, burst, longer, s', lead, a, b, i);
      i := i + 1;
    }
    longer, s' := EndInterrupt(c, m, burst, longer, s', lead, a, b);
  }

  lemma EndInterrupt(c: Config, m: set<nat>, burst: nat, evs: seq<Event>, s: State, lead: nat, a: Track, b: Track)
    returns (longer: seq<Event>, s': State)
    requires LeadsTo(c, m, Pace(1, burst), evs, s) && Pair(c, m, s, lead, a, b, c.devices)
    requires s.agg == AggAt(c.devices, true)
    ensures LeadsTo(c, m, Pace(1, burst), longer, s') && Pair(c, m, s', lead, a, Offered(c, b), 0)
    ensures s'.agg == AggIdle && s'.worker == s.worker
  {
    s' := s.(agg := AggIdle, sem := Release(c, s.sem));
    longer := Quiet(c, m, Pace(1, burst), evs, s, AggRelease, s');
  }

  /** Whole interrupts, one after the other. */
  lemma Interrupts(c: Config, m: set<nat>, burst: nat, evs: seq<Event>, s: State, lead: nat, n: nat)
    returns (longer: seq<Event>, s': State)
    requires c.aggregated && LeadsTo(c, m, Pace(1, burst), evs, s) && 1 <= n <= c.depth <= burst
    requires Pair(c, m, s, lead, Track(1, Upto(1), 1, 1), Track(1, Upto(1), 1, 0), 0)
    requires s.agg == AggIdle && forall i :: i in m ==> lead <= i
    ensures LeadsTo(c, m, Pace(1, burst), longer, s') && s'.agg == AggIdle && s'.worker == s.worker
    ensures Pair(c, m, s', lead, Track(n, Upto(n), n, 1), Track(n, Upto(n), n, 0), 0)
  {
    hide LeadsTo, Pair;
    longer, s' := evs, s;
    var j := 1;
    while j < n
      invariant 1 <= j <= n && LeadsTo(c, m, Pace(1, burst), longer, s')
      invariant Pair(c, m, s', lead, Track(j, Upto(j), j, 1), Track(j, Upto(j), j, 0), 0)
      invariant s'.agg == AggIdle && s'.worker == s.worker
    {
      var a, b := Track(j, Upto(j), j, 1), Track(j, Upto(j), j, 0);
      assert Upto(j) + [j] == Upto(j + 1);
      longer, s' := HalfInterrupt(c, m, burst, longer, s', lead, a, b);
      longer, s' := FinishInterrupt(c, m, burst, longer, s', lead, Offered(c, a), b);
      j := j + 1;
    }
  }

  /** The first interrupt fills ring `lead` before the worker looks, so that only the pushes of the
      others count into the burst. Interrupts follow until all rings are full, and one more that
      finds ring `lead` full before the worker empties them. */
  lemma DropOnOneSide(c: Config, m: set<nat>, burst: nat, lead: nat, e: nat)
    returns (evs: seq<Event>, s: State)
    requires c.aggregated && 0 < c.depth <= burst && forall i :: i in m ==> lead <= i < c.devices
    requires lead in m && e in m && e != lead
    ensures LeadsTo(c, m, Pace(1, burst), evs, s) && s.worker == Taking && s.agg == AggAt(lead + 1, true)
    ensures var n := c.depth;
            Pair(c, m, s, lead, Track(0, Upto(n), n + 1, n + 1), Track(0, Upto(n), n, n), 0)
  {
    hide LeadsTo;
    var n, none := c.depth, Track(0, [], 0, 0);
    evs, s := Begin(c, m, Pace(1, burst));
    assert Pair(c, m, s, lead, none, none, 0);
    hide Pair;
    assert none.kept + [0] == Upto(1) && Upto(0) == none.kept;
    evs, s := HalfInterrupt(c, m, burst, evs, s, lead, none, none);
    evs, s := ServeWorker(c, m, Pace(1, burst), evs, s, lead, e, Offered(c, none), none);
    evs, s := FinishInterrupt(c, m, burst, evs, s, lead, Track(1, Upto(1), 1, 1), none);
    evs, s := Interrupts(c, m, burst, evs, s, lead, n);
    evs, s := HalfInterrupt(c, m, burst, evs, s, lead, Track(n, Upto(n), n, 1), Track(n, Upto(n), n, 0));
    evs, s := ServeWorker(c, m, Pace(1, burst), evs, s, lead, e, Track(n, Upto(n), n + 1, 1), Track(n, Upto(n), n, 0));
  }

  /** Then the others keep a sample of that interrupt and `lead` does not: the next interrupt
      completes a frame of two different ones. */
  lemma MixTwo(c: Config, m: set<nat>, burst: nat, lead: nat, e: nat)
    returns (evs: seq<Event>, s: State, b: Track)
    requires c.aggregated && 0 < c.depth <= burst && forall i :: i in m ==> lead <= i < c.devices
    requires lead in m && e in m && e != lead
    ensures LeadsTo(c, m, Pace(1, burst), evs, s) && s.worker == Taking
    ensures var n := c.depth;
            && Pair(c, m, s, lead, Track(0, Upto(n) + [n + 1], n + 2, n + 2), b, 0)
            && Upto(n + 1) <= b.kept && b.pushed == n + 2
  {
    hide LeadsTo, Pair;
    var n := c.depth;
    assert Upto(n) + [n] == Upto(n + 1);
    evs, s := DropOnOneSide(c, m, burst, lead, e);
    var a0, b0 := Track(0, Upto(n), n + 1, n + 1), Track(0, Upto(n), n, n);
    var b1 := Track(1, Upto(n + 1), n + 1, n);
    assert Offered(c, b0) == b1;
    evs, s := FinishInterrupt(c, m, burst, evs, s, lead, a0, b0);
    evs, s := ServeWorker(c, m, Pace(1, burst), evs, s, lead, e, a0, b1);
    var b2 := b1.(seen := n + 1);
    var a3 := Track(1, Upto(n) + [n + 1], n + 2, n + 1);
    evs, s := HalfInterrupt(c, m, burst, evs, s, lead, a0, b2);
    evs, s := FinishInterrupt(c, m, burst, evs, s, lead, a3, b2);
    evs, s := ServeWorker(c, m, Pace(1, burst), evs, s, lead, e, a3, Offered(c, b2));
    b := Less(Offered(c, b2), 1).(seen := n + 2);
  }

  // ---------------------------------------------------------------------------
  // Alignment, exactly

  /** The runs in which the worker keeps up. */
  ghost predicate Brisk(c: Config, m: set<nat>, burst: nat, evs: seq<Event>) {
    Legal(c, Init(c), evs) && OneMask(m, evs) && KeepsUp(c, m, burst, evs)
  }

  ghost predicate AlwaysAligned(c: Config, m: set<nat>, burst: nat) {
    forall evs :: Brisk(c, m, burst, evs) ==> Aligned(m, After(c, Init(c), evs))
  }

  ghost predicate NeverLoses(c: Config, m: set<nat>, burst: nat) {
    forall evs :: Brisk(c, m, burst, evs) ==> NoneLost(m, After(c, Init(c), evs))
  }

  lemma BriskAligned(c: Config, m: set<nat>, burst: nat, evs: seq<Event>)
    requires c.aggregated && (forall i :: i in m ==> i < c.devices) && burst + 1 <= c.depth
    requires Brisk(c, m, burst, evs)
    ensures Aligned(m, After(c, Init(c), evs)) && NoneLost(m, After(c, Init(c), evs))
  {
    hide Legal, After, KeepsUp;
    var s := After(c, Init(c), evs);
    SkewIsOne(c, m, burst, evs);
    forall i | i in m && i < |s.dev|
      ensures Drops(s.dev[i].offers) == 0
    {
      NoneDropped(c, m, 1, burst, evs, i);
    }
    LosslessAligned(c, m, evs);
  }

  /** Overflow breaks alignment although one handler reads all devices: with shallower rings some
      run that keeps up mixes two interrupts in a frame. */
  lemma OverflowMisaligns(c: Config, m: set<nat>, burst: nat) returns (evs: seq<Event>)
    requires c.aggregated && |m| >= 2 && (forall i :: i in m ==> i < c.devices) && 0 < c.depth <= burst
    ensures Brisk(c, m, burst, evs) && !Aligned(m, After(c, Init(c), evs))
  {
    hide Legal, After, PacedRun, Pair, AllFrames, Kept;
    var lead, e := TwoOf(m);
    var s, b;
    evs, s, b := MixTwo(c, m, burst, lead, e);
    PacedKeepsUp(c, m, burst, evs);
    MixedFrame(c, m, evs, s, lead, e, b);
  }

  lemma PacedKeepsUp(c: Config, m: set<nat>, burst: nat, evs: seq<Event>)
    requires Legal(c, Init(c), evs) && PacedRun(c, m, 1, burst, evs)
    ensures KeepsUp(c, m, burst, evs)
  {
    forall k | 0 <= k <= |evs|
      ensures Legal(c, Init(c), evs[..k]) && InBurst(m, burst, After(c, Init(c), evs[..k]))
    {
      assert Paced(m, 1, burst, After(c, Init(c), evs[..k]));
    }
  }

  /** How deep is deep enough for an aggregated interrupt. Over all runs in which no device is pushed
      more than `burst` times between two empty sightings of the worker, every frame holds the
      readings of a single interrupt if and only if the rings hold one sample more than a burst;
      and the same depth decides whether anything is ever lost. */
  lemma AlignmentExact(c: Config, m: set<nat>, burst: nat)
    requires c.aggregated && c.depth > 0 && |m| >= 2 && forall i :: i in m ==> i < c.devices
    ensures AlwaysAligned(c, m, burst) <==> burst + 1 <= c.depth
    ensures NeverLoses(c, m, burst) <==> burst + 1 <= c.depth
  {
    hide Legal, After, KeepsUp, Aligned, NoneLost;
    if burst + 1 <= c.depth {
      forall evs | Brisk(c, m, burst, evs)
        ensures Aligned(m, After(c, Init(c), evs)) && NoneLost(m, After(c, Init(c), evs))
      {
        BriskAligned(c, m, burst, evs);
      }
    } else {
      var evs := OverflowMisaligns(c, m, burst);
      if NoneLost(m, After(c, Init(c), evs)) {
        LosslessAligned(c, m, evs);
      }
    }
  }
}
