/** `NoDrop.NoneDropped` asks for no deeper rings than necessary: with shallower rings some
    schedule of the same pace loses a sample, and a frame then mixes readings. */
module RingDepth {
  import opened Pipeline
  import opened Alignment
  import opened NoDrop
  import opened Schedules
  import opened Tracking

  // ---------------------------------------------------------------------------
  // Interrupts

  /** Device `d` may push once more without leaving the pace. */
  ghost predicate MayPush(m: set<nat>, pace: Pace, s: State, d: nat) {
    && d < |s.dev| && d < |s.seen|
    && (forall j :: j in m && j != d && j < |s.dev| ==> |s.dev[d].offers| + 1 <= |s.dev[j].offers| + pace.skew)
    && |s.dev[d].offers| + 1 <= s.seen[d] + pace.burst
  }

  /** One whole interrupt of device `d`. */
  lemma OneInterrupt(c: Config, m: set<nat>, pace: Pace, evs: seq<Event>, s: State, d: nat, v: int)
    returns (longer: seq<Event>)
    requires !c.aggregated && LeadsTo(c, m, pace, evs, s) && MayPush(m, pace, s, d) && s.dev[d].isr == Idle
    ensures LeadsTo(c, m, pace, longer, s.(dev := s.dev[d := Sampled(c, s.dev[d], v)], sem := Release(c, s.sem)))
  {
    var read := s.dev[d].(isr := Holding(v), samples := s.dev[d].samples + [v]);
    var s1 := s.(dev := s.dev[d := read]);
    longer := Quiet(c, m, pace, evs, s, IsrRead(d, v), s1);
    longer := PushAndRelease(c, m, pace, longer, s1, d);
    var d' := PushInto(c, read, v).(isr := Idle);
    assert s1.dev[d := d'] == s.dev[d := d'];
  }

  lemma PushAndRelease(c: Config, m: set<nat>, pace: Pace, evs: seq<Event>, s: State, d: nat)
    returns (longer: seq<Event>)
    requires LeadsTo(c, m, pace, evs, s) && MayPush(m, pace, s, d) && s.dev[d].isr.Holding?
    ensures LeadsTo(c, m, pace, longer,
              s.(dev := s.dev[d := PushInto(c, s.dev[d], s.dev[d].isr.v).(isr := Idle)], sem := Release(c, s.sem)))
  {
    var pushed := PushInto(c, s.dev[d], s.dev[d].isr.v).(isr := Pushed);
    var s1 := s.(dev := s.dev[d := pushed]);
    KeepsPace(c, m, pace, evs, s);
    PushKeepsPace(m, pace, s, d, s1);
    longer := KeepsExtend(c, m, pace, evs, s, IsrPush(d), s1);
    var s2 := s1.(dev := s1.dev[d := pushed.(isr := Idle)], sem := Release(c, s.sem));
    assert s2.dev == s.dev[d := pushed.(isr := Idle)];
    longer := Quiet(c, m, pace, longer, s1, IsrRelease(d), s2);
  }

  lemma PushKeepsPace(m: set<nat>, pace: Pace, s: State, d: nat, s': State)
    requires Paced(m, pace.skew, pace.burst, s) && MayPush(m, pace, s, d)
    requires |s'.dev| == |s.dev| && s'.seen == s.seen
    requires forall j :: 0 <= j < |s.dev| && j != d ==> s'.dev[j] == s.dev[j]
    requires |s'.dev[d].offers| == |s.dev[d].offers| + 1
    ensures Paced(m, pace.skew, pace.burst, s')
  {
  }

  /** The leading device delivers its next reading. */
  lemma LeadPushes(c: Config, m: set<nat>, pace: Pace, evs: seq<Event>, s: State, lead: nat, a: Track, b: Track)
    returns (longer: seq<Event>, s': State)
    requires !c.aggregated && LeadsTo(c, m, pace, evs, s) && Pair(c, m, s, lead, a, b, 0)
    requires a.pushed + 1 <= b.pushed + pace.skew && a.pushed + 1 <= a.seen + pace.burst
    ensures LeadsTo(c, m, pace, longer, s') && Pair(c, m, s', lead, Offered(c, a), b, 0)
    ensures s'.worker == s.worker && s'.agg == s.agg
  {
    hide LeadsTo, Offered;
    assert MayPush(m, pace, s, lead);
    longer := OneInterrupt(c, m, pace, evs, s, lead, a.pushed);
    s' := s.(dev := s.dev[lead := Sampled(c, s.dev[lead], a.pushed)], sem := Release(c, s.sem));
    SampledTracks(c, s, lead, a, s');
  }

  /** Every other device delivers its next reading. */
  lemma OthersPush(c: Config, m: set<nat>, pace: Pace, evs: seq<Event>, s: State, lead: nat, a: Track, b: Track)
    returns (longer: seq<Event>, s': State)
    requires !c.aggregated && LeadsTo(c, m, pace, evs, s) && Pair(c, m, s, lead, a, b, 0)
    requires 0 < pace.skew && b.pushed <= a.pushed && b.pushed + 1 <= b.seen + pace.burst
    ensures LeadsTo(c, m, pace, longer, s') && Pair(c, m, s', lead, a, Offered(c, b), 0)
    ensures s'.worker == s.worker && s'.agg == s.agg
  {
    hide LeadsTo, Offered, Tracks;
    longer, s' := evs, s;
    var x := 0;
    while x < c.devices
      invariant x <= c.devices && LeadsTo(c, m, pace, longer, s')
      invariant Pair(c, m, s', lead, a, b, x) && s'.worker == s.worker && s'.agg == s.agg
    {
      longer, s' := NextPushes(c, m, pace, longer, s', lead, a, b, x);
      x := x + 1;
    }
  }

  lemma NextPushes(c: Config, m: set<nat>, pace: Pace, evs: seq<Event>, s: State, lead: nat, a: Track, b: Track, x: nat)
    returns (longer: seq<Event>, s': State)
    requires !c.aggregated && LeadsTo(c, m, pace, evs, s) && Pair(c, m, s, lead, a, b, x) && x < c.devices
    requires 0 < pace.skew && b.pushed <= a.pushed && b.pushed + 1 <= b.seen + pace.burst
    ensures LeadsTo(c, m, pace, longer, s') && Pair(c, m, s', lead, a, b, x + 1)
    ensures s'.worker == s.worker && s'.agg == s.agg
  {
    hide LeadsTo;
    longer, s' := evs, s;
    if x in m && x != lead {
      assert Tracks(s, x, b) && Tracks(s, lead, a);
      assert MayPush(m, pace, s, x);
      longer := OneInterrupt(c, m, pace, evs, s, x, b.pushed);
      s' := s.(dev := s.dev[x := Sampled(c, s.dev[x], b.pushed)], sem := Release(c, s.sem));
      SampledTracks(c, s, x, b, s');
    }
  }

  // ---------------------------------------------------------------------------
  // More than the rings hold

  /** Pushed `p` times while nothing was taken out. */
  function Filled(c: Config, p: nat, seen: nat): Track {
    var kept := if p < c.depth then p else c.depth;
    Track(kept, Upto(kept), p, seen)
  }

  lemma FilledNext(c: Config, p: nat, seen: nat)
    ensures Offered(c, Filled(c, p, seen)) == Filled(c, p + 1, seen)
  {
    assert p < c.depth ==> Upto(p) + [p] == Upto(p + 1);
  }

  /** A schedule that keeps the pace and offers ring `lead` `skew + burst` readings while nothing is
      taken out of it. */
  lemma Overflow(c: Config, m: set<nat>, pace: Pace, lead: nat, e: nat) returns (evs: seq<Event>, s: State)
    requires !c.aggregated && forall i :: i in m ==> i < c.devices
    requires lead in m && e in m && lead != e && pace.skew > 0 && pace.burst > 0
    ensures LeadsTo(c, m, pace, evs, s) && |s.dev| == c.devices && s.worker == Taking
    ensures Pair(c, m, s, lead, Filled(c, pace.skew + pace.burst, pace.skew), Filled(c, pace.burst, 0), 0)
    ensures Drops(s.dev[lead].offers) + c.depth >= pace.skew + pace.burst
  {
    hide LeadsTo;
    evs, s := Begin(c, m, pace);
    assert Pair(c, m, s, lead, Filled(c, 0, 0), Filled(c, 0, 0), 0);
    hide Pair, Filled;
    evs, s := RunAhead(c, m, pace, evs, s, lead, e);
    evs, s := RunTogether(c, m, pace, evs, s, lead);
    Shed(c, m, s, lead, pace.skew + pace.burst, pace.skew, Filled(c, pace.burst, 0));
  }

  lemma Shed(c: Config, m: set<nat>, s: State, lead: nat, p: nat, seen: nat, b: Track)
    requires Pair(c, m, s, lead, Filled(c, p, seen), b, 0)
    ensures |s.dev| == c.devices && lead < |s.dev| && Drops(s.dev[lead].offers) + c.depth >= p
  {
    KeptPlusDrops(s.dev[lead].offers);
  }

  /** Device `lead` delivers readings one by one, and the worker, which finds ring `e` empty each time,
      notes them. */
  lemma RunAhead(c: Config, m: set<nat>, pace: Pace, evs: seq<Event>, s: State, lead: nat, e: nat)
    returns (longer: seq<Event>, s': State)
    requires !c.aggregated && lead in m && e in m && lead != e && pace.burst > 0
    requires LeadsTo(c, m, pace, evs, s) && s.worker == Taking
    requires Pair(c, m, s, lead, Filled(c, 0, 0), Filled(c, 0, 0), 0)
    ensures LeadsTo(c, m, pace, longer, s') && s'.worker == Taking
    ensures Pair(c, m, s', lead, Filled(c, pace.skew, pace.skew), Filled(c, 0, 0), 0)
  {
    hide LeadsTo, Pair;
    longer, s' := evs, s;
    var p := 0;
    while p < pace.skew
      invariant p <= pace.skew && LeadsTo(c, m, pace, longer, s') && s'.worker == Taking
      invariant Pair(c, m, s', lead, Filled(c, p, p), Filled(c, 0, 0), 0)
    {
      FilledNext(c, p, p);
      longer, s' := LeadPushes(c, m, pace, longer, s', lead, Filled(c, p, p), Filled(c, 0, 0));
      longer, s' := ServeWorker(c, m, pace, longer, s', lead, e, Filled(c, p + 1, p), Filled(c, 0, 0));
      p := p + 1;
    }
  }

  /** All devices deliver readings, the leading one last each time, and the worker sleeps on. */
  lemma RunTogether(c: Config, m: set<nat>, pace: Pace, evs: seq<Event>, s: State, lead: nat)
    returns (longer: seq<Event>, s': State)
    requires !c.aggregated && pace.skew > 0 && LeadsTo(c, m, pace, evs, s) && s.worker == Taking
    requires Pair(c, m, s, lead, Filled(c, pace.skew, pace.skew), Filled(c, 0, 0), 0)
    ensures LeadsTo(c, m, pace, longer, s') && s'.worker == Taking
    ensures Pair(c, m, s', lead, Filled(c, pace.skew + pace.burst, pace.skew), Filled(c, pace.burst, 0), 0)
  {
    hide LeadsTo, Pair;
    longer, s' := evs, s;
    var q := 0;
    while q < pace.burst
      invariant q <= pace.burst && LeadsTo(c, m, pace, longer, s') && s'.worker == Taking
      invariant Pair(c, m, s', lead, Filled(c, pace.skew + q, pace.skew), Filled(c, q, 0), 0)
    {
      var a, b := Filled(c, pace.skew + q, pace.skew), Filled(c, q, 0);
      FilledNext(c, q, 0);
      FilledNext(c, pace.skew + q, pace.skew);
      longer, s' := OthersPush(c, m, pace, longer, s', lead, a, b);
      longer, s' := LeadPushes(c, m, pace, longer, s', lead, a, Filled(c, q + 1, 0));
      q := q + 1;
    }
  }

  // ---------------------------------------------------------------------------
  // A mixed frame

  /** A run that keeps a pace keeps every more generous one. */
  lemma Generous(c: Config, m: set<nat>, less: Pace, pace: Pace, evs: seq<Event>, s: State)
    requires LeadsTo(c, m, less, evs, s) && less.skew <= pace.skew && less.burst <= pace.burst
    ensures LeadsTo(c, m, pace, evs, s)
  {
    forall k | 0 <= k <= |evs|
      ensures Legal(c, Init(c), evs[..k]) && Paced(m, pace.skew, pace.burst, After(c, Init(c), evs[..k]))
    {
      assert Paced(m, less.skew, less.burst, After(c, Init(c), evs[..k]));
    }
  }

  /** Ring `lead` has just dropped one reading, the one numbered `depth`. */
  lemma DropOne(c: Config, m: set<nat>, pace: Pace, lead: nat, e: nat)
    returns (evs: seq<Event>, s: State, q: nat, seen: nat)
    requires !c.aggregated && c.depth > 0 && forall i :: i in m ==> i < c.devices
    requires lead in m && e in m && lead != e
    requires pace.skew > 0 && pace.burst > 0 && pace.skew + pace.burst > c.depth
    ensures LeadsTo(c, m, pace, evs, s) && s.worker == Taking && q <= c.depth
    ensures var n := c.depth;
            Pair(c, m, s, lead, Track(n, Upto(n), n + 1, seen), Track(q, Upto(q), q, 0), 0)
  {
    hide LeadsTo, Pair;
    seen := if pace.skew < c.depth then pace.skew else c.depth;
    q := c.depth + 1 - seen;
    evs, s := Overflow(c, m, Pace(seen, q), lead, e);
    Generous(c, m, Pace(seen, q), pace, evs, s);
  }

  /** The worker makes the frames there are; then the others catch up with `lead`, reading by reading,
      each going into a frame. */
  lemma CatchUp(c: Config, m: set<nat>, pace: Pace, evs: seq<Event>, s: State, lead: nat, e: nat, q: nat, seen: nat)
    returns (longer: seq<Event>, s': State)
    requires !c.aggregated && e in m && lead != e && pace.skew > 0 && pace.burst > 0 && q <= c.depth
    requires LeadsTo(c, m, pace, evs, s) && s.worker == Taking
    requires var n := c.depth;
             Pair(c, m, s, lead, Track(n, Upto(n), n + 1, seen), Track(q, Upto(q), q, 0), 0)
    ensures LeadsTo(c, m, pace, longer, s') && s'.worker == Taking
    ensures var n := c.depth;
            Pair(c, m, s', lead, Track(0, Upto(n), n + 1, n + 1), Track(0, Upto(n), n, n), 0)
  {
    hide LeadsTo, Pair;
    var n := c.depth;
    longer, s' := ServeWorker(c, m, pace, evs, s, lead, e, Track(n, Upto(n), n + 1, seen), Track(q, Upto(q), q, 0));
    var j := q;
    while j < n
      invariant q <= j <= n && LeadsTo(c, m, pace, longer, s') && s'.worker == Taking
      invariant Pair(c, m, s', lead, Track(n - j, Upto(n), n + 1, n + 1), Track(0, Upto(j), j, j), 0)
    {
      var a, b := Track(n - j, Upto(n), n + 1, n + 1), Track(0, Upto(j), j, j);
      assert Upto(j) + [j] == Upto(j + 1);
      longer, s' := OthersPush(c, m, pace, longer, s', lead, a, b);
      longer, s' := ServeWorker(c, m, pace, longer, s', lead, e, a, Track(1, Upto(j + 1), j + 1, j));
      j := j + 1;
    }
  }

  /** The others keep the reading `lead` has lost; the next one of `lead` goes into its frame. */
  lemma MixTwo(c: Config, m: set<nat>, pace: Pace, lead: nat, e: nat) returns (evs: seq<Event>, s: State)
    requires !c.aggregated && c.depth > 0 && forall i :: i in m ==> i < c.devices
    requires lead in m && e in m && lead != e
    requires pace.skew > 0 && pace.burst > 0 && pace.skew + pace.burst > c.depth
    ensures LeadsTo(c, m, pace, evs, s) && s.worker == Taking
    ensures var n := c.depth;
            Pair(c, m, s, lead, Track(0, Upto(n) + [n + 1], n + 2, n + 2), Track(0, Upto(n + 1), n + 1, n + 1), 0)
  {
    hide LeadsTo, Pair;
    var n := c.depth;
    assert Upto(n) + [n] == Upto(n + 1);
    var q, seen;
    evs, s, q, seen := DropOne(c, m, pace, lead, e);
    evs, s := CatchUp(c, m, pace, evs, s, lead, e, q, seen);
    var a, b := Track(0, Upto(n), n + 1, n + 1), Track(1, Upto(n + 1), n + 1, n);
    evs, s := OthersPush(c, m, pace, evs, s, lead, a, Track(0, Upto(n), n, n));
    evs, s := ServeWorker(c, m, pace, evs, s, lead, e, a, b);
    evs, s := LeadPushes(c, m, pace, evs, s, lead, a, b.(seen := n + 1));
    evs, s := ServeWorker(c, m, pace, evs, s, lead, e, Track(1, Upto(n) + [n + 1], n + 2, n + 1), b.(seen := n + 1));
  }

  // ---------------------------------------------------------------------------
  // How deep is deep enough

  ghost predicate NeverDrops(c: Config, m: set<nat>, pace: Pace) {
    forall evs :: Keeps(c, m, pace, evs) ==> NoneLost(m, After(c, Init(c), evs))
  }

  /** Nothing sampled has been pushed, and the worker has seen nothing. */
  ghost predicate Still(m: set<nat>, s: State) {
    && |s.seen| == |s.dev|
    && forall i :: i in m && i < |s.dev| ==> s.dev[i].offers == [] && s.seen[i] == 0
  }

  /** An event pushes for one device at most, and observes at most the push counts. */
  lemma PushesOne(c: Config, s: State, ev: Event) returns (d: nat)
    requires Enabled(c, s, ev) && |s.seen| == |s.dev|
    ensures var s' := Apply(c, s, ev);
            && |s'.dev| == |s.dev| && |s'.seen| == |s.seen|
            && (forall i :: 0 <= i < |s.dev| && i != d ==> s'.dev[i].offers == s.dev[i].offers)
            && (s'.seen == s.seen || (s'.seen == PushCounts(s) && s'.dev == s.dev))
  {
    d := if ev.IsrPush? then ev.d else if ev.AggPush? then s.agg.i else |s.dev|;
  }

  lemma StillStep(c: Config, m: set<nat>, pace: Pace, s: State, ev: Event)
    requires |m| >= 2 && (pace.skew == 0 || pace.burst == 0) && Still(m, s) && Enabled(c, s, ev)
    requires (forall i :: i in m ==> i < |s.dev|) && Paced(m, pace.skew, pace.burst, Apply(c, s, ev))
    ensures Still(m, Apply(c, s, ev)) && |Apply(c, s, ev).dev| == |s.dev|
  {
    var d := PushesOne(c, s, ev);
    hide Apply, Enabled;
    var s' := Apply(c, s, ev);
    if d in m {
      var a, b := TwoOf(m);
      var other := if d == a then b else a;
      assert s'.dev[other].offers == [] && |s'.dev[d].offers| <= |s'.dev[other].offers| + pace.skew;
      if pace.skew > 0 {
        assert s'.seen[d] == 0 && |s'.dev[d].offers| <= s'.seen[d] + pace.burst;
      }
    }
  }

  /** A pace without any skew, or without any burst, lets nothing be pushed. */
  lemma {:induction false} StandStill(c: Config, m: set<nat>, pace: Pace, evs: seq<Event>)
    requires |m| >= 2 && (pace.skew == 0 || pace.burst == 0) && forall i :: i in m ==> i < c.devices
    requires Keeps(c, m, pace, evs)
    ensures var s := After(c, Init(c), evs); |s.dev| == c.devices && Still(m, s)
    decreases |evs|
  {
    hide Paced;
    if evs != [] {
      var before := evs[..|evs| - 1];
      forall k | 0 <= k <= |before|
        ensures Legal(c, Init(c), before[..k]) && Paced(m, pace.skew, pace.burst, After(c, Init(c), before[..k]))
      {
        assert before[..k] == evs[..k];
      }
      StandStill(c, m, pace, before);
      assert evs[..|evs|] == evs;
      StillStep(c, m, pace, After(c, Init(c), before), evs[|evs| - 1]);
    }
  }

  /** How deep is deep enough. Two or more devices on their own DRDY lines, never more than `skew`
      pushes apart and with at most `burst` pushes each between two empty sightings, never lose a
      sample if and only if the rings hold `skew + burst` samples, unless the pace forbids
      pushing altogether. */
  lemma DepthExact(c: Config, m: set<nat>, pace: Pace)
    requires !c.aggregated && |m| >= 2 && forall i :: i in m ==> i < c.devices
    ensures NeverDrops(c, m, pace) <==> pace.skew == 0 || pace.burst == 0 || pace.skew + pace.burst <= c.depth
  {
    hide Legal, After, PacedRun;
    if pace.skew == 0 || pace.burst == 0 {
      forall evs | Keeps(c, m, pace, evs)
        ensures NoneLost(m, After(c, Init(c), evs))
      {
        StandStill(c, m, pace, evs);
      }
    } else if pace.skew + pace.burst <= c.depth {
      forall evs | Keeps(c, m, pace, evs)
        ensures NoneLost(m, After(c, Init(c), evs))
      {
        forall d | d in m && d < |After(c, Init(c), evs).dev|
          ensures Drops(After(c, Init(c), evs).dev[d].offers) == 0
        {
          NoneDropped(c, m, pace.skew, pace.burst, evs, d);
        }
      }
    } else {
      var lead, e := TwoOf(m);
      var evs, s := Overflow(c, m, pace, lead, e);
      assert Drops(s.dev[lead].offers) > 0;
    }
  }

  ghost predicate AlwaysAligned(c: Config, m: set<nat>, pace: Pace) {
    forall evs :: Keeps(c, m, pace, evs) ==> Aligned(m, After(c, Init(c), evs))
  }

  lemma Misaligned(c: Config, m: set<nat>, pace: Pace) returns (evs: seq<Event>)
    requires !c.aggregated && c.depth > 0 && |m| >= 2 && forall i :: i in m ==> i < c.devices
    requires pace.skew > 0 && pace.burst > 0 && pace.skew + pace.burst > c.depth
    ensures Keeps(c, m, pace, evs) && !Aligned(m, After(c, Init(c), evs))
  {
    hide Legal, After, PacedRun, Pair, Aligned;
    var lead, e := TwoOf(m);
    var s;
    evs, s := MixTwo(c, m, pace, lead, e);
    var n := c.depth;
    MixedFrame(c, m, evs, s, lead, e, Track(0, Upto(n + 1), n + 1, n + 1));
  }

  /** The same depth decides over alignment: every frame of every run that keeps the pace holds
      equally numbered readings of all sampled devices if and only if nothing is ever lost. */
  lemma AlignmentExact(c: Config, m: set<nat>, pace: Pace)
    requires !c.aggregated && c.depth > 0 && |m| >= 2 && forall i :: i in m ==> i < c.devices
    ensures AlwaysAligned(c, m, pace) <==> pace.skew == 0 || pace.burst == 0 || pace.skew + pace.burst <= c.depth
  {
    hide Legal, After, PacedRun, Aligned, NoneLost;
    if pace.skew == 0 || pace.burst == 0 || pace.skew + pace.burst <= c.depth {
      DepthExact(c, m, pace);
      forall evs | Keeps(c, m, pace, evs)
        ensures Aligned(m, After(c, Init(c), evs))
      {
        LosslessAligned(c, m, evs);
      }
    } else {
      var evs := Misaligned(c, m, pace);
    }
  }
}
