/** Following the sampled devices through a schedule: one device, `lead`, and all the others, which
    do the same as each other. And when a frame is aligned. */
module Tracking {
  import opened Pipeline
  import opened Streams
  import opened Alignment
  import opened Schedules

  /** Reading number `k` of every device is `k` in the schedules built with this. */
  function Upto(n: nat): seq<int> {
    seq(n, k => k)
  }

  /** What matters of a device in such a schedule: how many samples its ring holds, which were
      accepted, how many were pushed, now and when the worker last found a ring empty. */
  datatype Track = Track(held: nat, kept: seq<int>, pushed: nat, seen: nat)

  ghost predicate Tracks(s: State, i: nat, t: Track) {
    && i < |s.dev| && i < |s.seen|
    && |s.dev[i].ring| == t.held && Kept(s.dev[i].offers) == t.kept && |s.dev[i].offers| == t.pushed
    && s.dev[i].samples == Upto(t.pushed) && s.seen[i] == t.seen && s.dev[i].isr == Idle
  }

  function Offered(c: Config, t: Track): Track {
    if t.held < c.depth then Track(t.held + 1, t.kept + [t.pushed], t.pushed + 1, t.seen)
    else t.(pushed := t.pushed + 1)
  }

  /** Device `lead` is at `a`; the others are at `b`, and those below `x` have just pushed. */
  ghost predicate Pair(c: Config, m: set<nat>, s: State, lead: nat, a: Track, b: Track, x: nat) {
    && Serving(c, m, s) && s.worker != NoThread && lead in m && Tracks(s, lead, a)
    && forall i :: i in m && i != lead ==> Tracks(s, i, if i < x then Offered(c, b) else b)
  }

  function Sampled(c: Config, d: Device, v: int): Device {
    PushInto(c, d.(samples := d.samples + [v]), v)
  }

  lemma SampledTracks(c: Config, s: State, i: nat, t: Track, s': State)
    requires Tracks(s, i, t) && i < |s'.dev| && i < |s'.seen| && s'.seen[i] == s.seen[i]
    requires s'.dev[i] == Sampled(c, s.dev[i], t.pushed)
    ensures Tracks(s', i, Offered(c, t))
  {
    KeptSnoc(s.dev[i].offers, Reading(t.pushed, |s.dev[i].ring| < c.depth));
    assert Upto(t.pushed) + [t.pushed] == Upto(t.pushed + 1);
  }

  // ---------------------------------------------------------------------------
  // The worker empties the rings

  function Less(t: Track, k: nat): Track
    requires k <= t.held
  {
    t.(held := t.held - k)
  }

  lemma TakenTracks(c: Config, m: set<nat>, s: State, s': State, lead: nat, a: Track, b: Track)
    requires Pair(c, m, s, lead, a, b, 0) && a.held > 0 && b.held > 0
    requires OneTaken(m, s, s') && Serving(c, m, s') && s'.worker != NoThread
    ensures Pair(c, m, s', lead, Less(a, 1), Less(b, 1), 0)
  {
  }

  /** The worker comes back from the semaphore, makes all the frames there are, and waits again. */
  lemma ServeWorker(
    c: Config, m: set<nat>, pace: Pace, evs: seq<Event>, s: State, lead: nat, e: nat, a: Track, b: Track)
    returns (longer: seq<Event>, s': State)
    requires LeadsTo(c, m, pace, evs, s) && Pair(c, m, s, lead, a, b, 0) && s.worker == Taking
    requires e in m && e != lead
    ensures LeadsTo(c, m, pace, longer, s') && s'.worker == Taking && s'.agg == s.agg
    ensures var k := if a.held < b.held then a.held else b.held;
            Pair(c, m, s', lead, Less(a, k).(seen := a.pushed), Less(b, k).(seen := b.pushed), 0)
  {
    hide LeadsTo, Serving, OneTaken;
    var k := if a.held < b.held then a.held else b.held;
    longer, s' := Take(c, m, pace, evs, s);
    TakeTracks(c, m, s, s', lead, a, b);
    var i := 0;
    while i < k
      invariant i <= k && LeadsTo(c, m, pace, longer, s') && s'.worker == Checking(0) && s'.agg == s.agg
      invariant Pair(c, m, s', lead, Less(a, i), Less(b, i), 0)
    {
      var s1 := s';
      longer, s' := FrameOf(c, m, pace, longer, s1, lead, Less(a, i), Less(b, i));
      i := i + 1;
    }
    longer, s' := GoBack(c, m, pace, longer, s', lead, e, Less(a, k), Less(b, k));
  }

  lemma TakeTracks(c: Config, m: set<nat>, s: State, s': State, lead: nat, a: Track, b: Track)
    requires Pair(c, m, s, lead, a, b, 0) && s' == s.(sem := s'.sem, worker := Checking(0))
    ensures Pair(c, m, s', lead, a, b, 0)
  {
  }

  lemma FrameOf(c: Config, m: set<nat>, pace: Pace, evs: seq<Event>, s: State, lead: nat, a: Track, b: Track)
    returns (longer: seq<Event>, s': State)
    requires LeadsTo(c, m, pace, evs, s) && Pair(c, m, s, lead, a, b, 0) && s.worker == Checking(0)
    requires a.held > 0 && b.held > 0
    ensures LeadsTo(c, m, pace, longer, s') && s'.worker == Checking(0) && s'.agg == s.agg
    ensures Pair(c, m, s', lead, Less(a, 1), Less(b, 1), 0)
  {
    hide LeadsTo;
    forall i | i in m
      ensures s.dev[i].ring != []
    {
      assert Tracks(s, i, if i == lead then a else b);
    }
    longer, s' := MakeFrame(c, m, pace, evs, s);
    TakenTracks(c, m, s, s', lead, a, b);
  }

  lemma GoBack(c: Config, m: set<nat>, pace: Pace, evs: seq<Event>, s: State, lead: nat, e: nat, a: Track, b: Track)
    returns (longer: seq<Event>, s': State)
    requires LeadsTo(c, m, pace, evs, s) && Pair(c, m, s, lead, a, b, 0) && s.worker == Checking(0)
    requires e in m && e != lead && (a.held == 0 || b.held == 0)
    ensures LeadsTo(c, m, pace, longer, s') && s'.worker == Taking && s'.agg == s.agg
    ensures Pair(c, m, s', lead, a.(seen := a.pushed), b.(seen := b.pushed), 0)
  {
    hide LeadsTo;
    assert Tracks(s, lead, a) && Tracks(s, e, b);
    longer, s' := FindEmpty(c, m, pace, evs, s, 0, if a.held == 0 then lead else e);
  }

  // ---------------------------------------------------------------------------
  // Alignment

  /** All channels of the frame are the readings number `n` of their devices. */
  ghost predicate FromReading(m: set<nat>, s: State, f: Frame, n: nat) {
    forall i :: i in m ==> i < |s.dev| && n < |s.dev[i].samples| && Channel(f, i) == s.dev[i].samples[n]
  }

  ghost predicate Aligned(m: set<nat>, s: State) {
    forall k :: 0 <= k < |AllFrames(s)| ==> FromOneReading(m, s, AllFrames(s)[k])
  }

  ghost predicate FromOneReading(m: set<nat>, s: State, f: Frame) {
    exists n :: FromReading(m, s, f, n)
  }

  lemma LosslessAligned(c: Config, m: set<nat>, evs: seq<Event>)
    requires Legal(c, Init(c), evs) && OneMask(m, evs) && forall i :: i in m ==> i < c.devices
    requires NoneLost(m, After(c, Init(c), evs))
    ensures Aligned(m, After(c, Init(c), evs))
  {
    hide Legal, After;
    var s := After(c, Init(c), evs);
    forall k | 0 <= k < |AllFrames(s)|
      ensures FromOneReading(m, s, AllFrames(s)[k])
    {
      forall i | i in m
        ensures i < |s.dev| && k < |s.dev[i].samples| && Channel(AllFrames(s)[k], i) == s.dev[i].samples[k]
      {
        AlignedWithoutDrops(c, m, evs, i, k);
      }
      assert FromReading(m, s, AllFrames(s)[k], k);
    }
  }

  /** Ring `lead` dropped reading `n` and accepted the next one, the other rings accepted it: frame `n`
      mixes the two. */
  lemma MixedFrame(c: Config, m: set<nat>, evs: seq<Event>, s: State, lead: nat, e: nat, b: Track)
    requires Legal(c, Init(c), evs) && OneMask(m, evs) && s == After(c, Init(c), evs)
    requires s.worker == Taking && e in m && e != lead
    requires var n := c.depth;
             && Pair(c, m, s, lead, Track(0, Upto(n) + [n + 1], n + 2, n + 2), b, 0)
             && Upto(n + 1) <= b.kept && b.pushed > n
    ensures !Aligned(m, s)
  {
    hide Legal, After, AllFrames, Kept;
    var n := c.depth;
    assert Tracks(s, lead, Track(0, Upto(n) + [n + 1], n + 2, n + 2)) && Tracks(s, e, b);
    KeptIsColumn(c, m, evs, lead);
    KeptIsColumn(c, m, evs, e);
    assert Kept(s.dev[lead].offers) == Column(AllFrames(s), lead);
    assert |AllFrames(s)| == n + 1;
    var f := AllFrames(s)[n];
    assert Channel(f, lead) == Column(AllFrames(s), lead)[n] == n + 1;
    assert Kept(s.dev[e].offers) == Column(AllFrames(s), e) + (PartFilled(s, e) + s.dev[e].ring);
    assert Channel(f, e) == Column(AllFrames(s), e)[n] == b.kept[n];
    assert b.kept[n] == Upto(n + 1)[n] == n;
    assert forall k :: 0 <= k < n + 2 ==> s.dev[lead].samples[k] == k;
    assert forall k :: 0 <= k < |s.dev[e].samples| ==> s.dev[e].samples[k] == k;
    assert lead in m && !FromOneReading(m, s, f);
  }
}
