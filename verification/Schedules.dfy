/** Building schedules event by event: runs in which all sessions sample the devices `m` and which
    keep a pace, and the worker's part in them. */
module Schedules {
  import opened Pipeline
  import opened Alignment
  import opened NoDrop

  datatype Pace = Pace(skew: nat, burst: nat)

  /** A run that samples `m` and keeps the pace. */
  ghost predicate Keeps(c: Config, m: set<nat>, pace: Pace, evs: seq<Event>) {
    && Legal(c, Init(c), evs)
    && OneMask(m, evs)
    && PacedRun(c, m, pace.skew, pace.burst, evs)
  }

  /** Such a run leads to state `s`. */
  ghost predicate LeadsTo(c: Config, m: set<nat>, pace: Pace, evs: seq<Event>, s: State) {
    Keeps(c, m, pace, evs) && After(c, Init(c), evs) == s
  }

  /** No reading of a sampled device was dropped. */
  ghost predicate NoneLost(m: set<nat>, s: State) {
    forall d :: d in m && d < |s.dev| ==> Drops(s.dev[d].offers) == 0
  }

  lemma KeepsExtend(c: Config, m: set<nat>, pace: Pace, evs: seq<Event>, s: State, ev: Event, s': State)
    returns (longer: seq<Event>)
    requires LeadsTo(c, m, pace, evs, s)
    requires Enabled(c, s, ev) && (ev.StartSetUp? ==> ev.newMask == m) && s' == Apply(c, s, ev)
    requires Paced(m, pace.skew, pace.burst, s')
    ensures LeadsTo(c, m, pace, longer, s')
  {
    longer := evs + [ev];
    hide Apply, Enabled, Paced;
    Extend(c, Init(c), evs, ev);
    forall k | 0 <= k <= |longer|
      ensures Legal(c, Init(c), longer[..k])
      ensures Paced(m, pace.skew, pace.burst, After(c, Init(c), longer[..k]))
    {
      if k <= |evs| {
        assert longer[..k] == evs[..k];
      } else {
        assert longer[..k] == longer;
      }
    }
  }

  lemma KeepsPace(c: Config, m: set<nat>, pace: Pace, evs: seq<Event>, s: State)
    requires LeadsTo(c, m, pace, evs, s)
    ensures Paced(m, pace.skew, pace.burst, s)
  {
    hide Paced;
    assert evs[..|evs|] == evs;
  }

  /** An event that neither pushes nor observes keeps any pace. */
  lemma Quiet(c: Config, m: set<nat>, pace: Pace, evs: seq<Event>, s: State, ev: Event, s': State)
    returns (longer: seq<Event>)
    requires LeadsTo(c, m, pace, evs, s)
    requires Enabled(c, s, ev) && (ev.StartSetUp? ==> ev.newMask == m) && s' == Apply(c, s, ev)
    requires |s'.dev| == |s.dev| && s'.seen == s.seen
    requires forall i :: 0 <= i < |s.dev| ==> s'.dev[i].offers == s.dev[i].offers
    ensures LeadsTo(c, m, pace, longer, s')
  {
    KeepsPace(c, m, pace, evs, s);
    longer := KeepsExtend(c, m, pace, evs, s, ev, s');
  }

  // ---------------------------------------------------------------------------
  // The worker

  /** A session that samples `m`, publishes every frame at once and is not asked to stop. */
  ghost predicate Serving(c: Config, m: set<nat>, s: State) {
    && s.mask == m && s.batch == 1 && s.fi == 0 && !s.stop && s.ctl == CtlIdle
    && |s.dev| == |s.seen| == c.devices && |s.frames| == 1 && |s.frames[0].ch| == c.devices
    && forall i :: i in m ==> i < c.devices
  }

  /** The first session is started, and its worker waits. */
  lemma Begin(c: Config, m: set<nat>, pace: Pace) returns (evs: seq<Event>, s: State)
    requires m != {} && forall i :: i in m ==> i < c.devices
    ensures LeadsTo(c, m, pace, evs, s) && Serving(c, m, s) && s.worker == Taking
    ensures s.dev == Init(c).dev && s.seen == Init(c).seen && s.agg == AggIdle
  {
    var s0 := Init(c);
    var s1 := s0.(mask := m, batch := 1, ctl := CtlSetUp);
    var s2 := s1.(ctl := CtlSemReady, armed := Apply(c, s1, SemInit).armed);
    assert LeadsTo(c, m, pace, [], s0);
    evs := Quiet(c, m, pace, [], s0, StartSetUp(m, 1), s1);
    evs := Quiet(c, m, pace, evs, s1, SemInit, s2);
    evs, s := Launch(c, m, pace, evs, s2);
  }

  /** The controller creates the worker, which goes to wait at once. */
  lemma Launch(c: Config, m: set<nat>, pace: Pace, evs: seq<Event>, s: State)
    returns (longer: seq<Event>, s': State)
    requires LeadsTo(c, m, pace, evs, s) && s.ctl == CtlSemReady && s.batch == 1 && !s.stop
    ensures LeadsTo(c, m, pace, longer, s')
    ensures s' == s.(ctl := CtlIdle, worker := Taking, frames := s'.frames, fi := 0, session := [], made := 0)
    ensures |s'.frames| == 1 && |s'.frames[0].ch| == c.devices
  {
    var frames := [Frame(0, seq(c.devices, _ => 0))];
    var s1 := s.(ctl := CtlIdle, worker := Created, session := [], made := 0);
    longer := Quiet(c, m, pace, evs, s, ThreadCreate(true), s1);
    var s2 := s1.(frames := frames, fi := 0, worker := LoopHead);
    longer := Quiet(c, m, pace, longer, s1, Malloc(frames), s2);
    s' := s2.(worker := Taking);
    longer := Quiet(c, m, pace, longer, s2, LoopTest, s');
  }

  /** What the semaphore holds after a wait, whether or not that timed out. */
  function Taken(sem: nat): nat {
    if sem > 0 then sem - 1 else 0
  }

  lemma Take(c: Config, m: set<nat>, pace: Pace, evs: seq<Event>, s: State)
    returns (longer: seq<Event>, s': State)
    requires LeadsTo(c, m, pace, evs, s) && s.worker == Taking
    ensures LeadsTo(c, m, pace, longer, s') && s' == s.(sem := Taken(s.sem), worker := Checking(0))
  {
    s' := s.(sem := Taken(s.sem), worker := Checking(0));
    longer := Quiet(c, m, pace, evs, s, if s.sem > 0 then TakeOk else TakeTimeout, s');
  }

  /** The worker looks at a ring that does not stop it. */
  lemma Pass(c: Config, m: set<nat>, pace: Pace, evs: seq<Event>, s: State, i: nat)
    returns (longer: seq<Event>)
    requires LeadsTo(c, m, pace, evs, s) && Serving(c, m, s) && s.worker == Checking(i) && i < c.devices
    requires i in m ==> s.dev[i].ring != []
    ensures LeadsTo(c, m, pace, longer, s.(worker := Checking(i + 1)))
  {
    longer := Quiet(c, m, pace, evs, s, CheckRing, s.(worker := Checking(i + 1)));
  }

  /** Some masked ring from `from` on is empty: the worker finds it, notes the push counts and waits
      again. */
  lemma {:induction false} FindEmpty(c: Config, m: set<nat>, pace: Pace, evs: seq<Event>, s: State, from: nat, e: nat)
    returns (longer: seq<Event>, s': State)
    requires LeadsTo(c, m, pace, evs, s) && Serving(c, m, s) && s.worker == Checking(from)
    requires from <= e < |s.dev| == c.devices && e in m && s.dev[e].ring == []
    ensures LeadsTo(c, m, pace, longer, s') && s' == s.(worker := Taking, seen := PushCounts(s))
    decreases e - from
  {
    hide LeadsTo, PushCounts, Serving;
    if from in m && s.dev[from].ring == [] {
      longer, s' := SeeEmpty(c, m, pace, evs, s);
    } else {
      longer := Pass(c, m, pace, evs, s, from);
      var s1 := s.(worker := Checking(from + 1));
      StillServing(c, m, s, s1);
      longer, s' := FindEmpty(c, m, pace, longer, s1, from + 1, e);
    }
  }

  lemma StillServing(c: Config, m: set<nat>, s: State, s1: State)
    requires Serving(c, m, s) && s1 == s.(worker := s1.worker)
    ensures Serving(c, m, s1) && PushCounts(s1) == PushCounts(s)
  {
  }

  lemma SeeEmpty(c: Config, m: set<nat>, pace: Pace, evs: seq<Event>, s: State)
    returns (longer: seq<Event>, s': State)
    requires LeadsTo(c, m, pace, evs, s) && Serving(c, m, s)
    requires s.worker.Checking? && s.worker.i < c.devices && s.worker.i in m && s.dev[s.worker.i].ring == []
    ensures LeadsTo(c, m, pace, longer, s') && s' == s.(worker := Taking, seen := PushCounts(s))
  {
    KeepsPace(c, m, pace, evs, s);
    var s1 := s.(worker := LoopHead, seen := PushCounts(s));
    longer := KeepsExtend(c, m, pace, evs, s, CheckRing, s1);
    s' := s1.(worker := Taking);
    longer := Quiet(c, m, pace, longer, s1, LoopTest, s');
  }

  // ---------------------------------------------------------------------------
  // Frames

  /** A frame has been made of one sample of every masked ring. */
  ghost predicate OneTaken(m: set<nat>, s: State, s': State) {
    && s'.agg == s.agg && s'.sem == s.sem && s'.seen == s.seen && |s'.dev| == |s.dev|
    && forall i :: 0 <= i < |s.dev| ==> s'.dev[i] == Popped(m, |s.dev|, s.dev[i], i)
  }

  /** Device `i` when the channels below `hi` have been filled. */
  function Popped(m: set<nat>, hi: nat, d: Device, i: nat): Device {
    if i in m && i < hi && d.ring != [] then d.(ring := d.ring[1..]) else d
  }

  lemma {:induction false} CheckAll(c: Config, m: set<nat>, pace: Pace, evs: seq<Event>, s: State, from: nat)
    returns (longer: seq<Event>)
    requires LeadsTo(c, m, pace, evs, s) && Serving(c, m, s) && s.worker == Checking(from) && from <= c.devices
    requires forall i :: i in m ==> s.dev[i].ring != []
    ensures LeadsTo(c, m, pace, longer, s.(worker := Checking(c.devices)))
    decreases c.devices - from
  {
    if from == c.devices {
      longer := evs;
    } else {
      longer := Pass(c, m, pace, evs, s, from);
      longer := CheckAll(c, m, pace, longer, s.(worker := Checking(from + 1)), from + 1);
    }
  }

  lemma PopShape(c: Config, m: set<nat>, s: State, i: nat)
    requires Serving(c, m, s) && s.worker == Popping(i) && i < c.devices && (i in m ==> s.dev[i].ring != [])
    ensures var s' := Apply(c, s, PopRing);
            && s' == s.(dev := s.dev[i := Popped(m, i + 1, s.dev[i], i)], frames := s'.frames, worker := Popping(i + 1))
            && Serving(c, m, s')
  {
    assert s.dev[i := s.dev[i]] == s.dev;
  }

  lemma PopNext(c: Config, m: set<nat>, pace: Pace, evs: seq<Event>, s: State, i: nat)
    returns (longer: seq<Event>, s': State)
    requires LeadsTo(c, m, pace, evs, s) && Serving(c, m, s) && s.worker == Popping(i) && i < c.devices
    requires i in m ==> s.dev[i].ring != []
    ensures LeadsTo(c, m, pace, longer, s') && Serving(c, m, s')
    ensures s' == s.(dev := s.dev[i := Popped(m, i + 1, s.dev[i], i)], frames := s'.frames, worker := Popping(i + 1))
  {
    s' := Apply(c, s, PopRing);
    PopShape(c, m, s, i);
    hide Apply, SetChannel;
    longer := Quiet(c, m, pace, evs, s, PopRing, s');
  }

  lemma {:induction false} PopAll(c: Config, m: set<nat>, pace: Pace, evs: seq<Event>, s0: State, s: State, i: nat)
    returns (longer: seq<Event>, s': State)
    requires LeadsTo(c, m, pace, evs, s) && Serving(c, m, s) && s.worker == Popping(i) && i <= c.devices
    requires |s0.dev| == c.devices && forall j :: j in m && j < c.devices ==> s0.dev[j].ring != []
    requires forall j :: 0 <= j < c.devices ==> s.dev[j] == Popped(m, i, s0.dev[j], j)
    ensures LeadsTo(c, m, pace, longer, s') && Serving(c, m, s')
    ensures s' == s.(dev := s'.dev, frames := s'.frames, worker := Popping(c.devices))
    ensures forall j :: 0 <= j < c.devices ==> s'.dev[j] == Popped(m, c.devices, s0.dev[j], j)
    decreases c.devices - i
  {
    if i == c.devices {
      longer, s' := evs, s;
    } else {
      var s1;
      longer, s1 := PopNext(c, m, pace, evs, s, i);
      longer, s' := PopAll(c, m, pace, longer, s0, s1, i + 1);
    }
  }

  lemma StoreOne(c: Config, m: set<nat>, pace: Pace, evs: seq<Event>, s: State)
    returns (longer: seq<Event>, s': State)
    requires LeadsTo(c, m, pace, evs, s) && Serving(c, m, s) && s.worker == Popping(c.devices)
    ensures LeadsTo(c, m, pace, longer, s') && Serving(c, m, s') && s'.worker == Checking(0)
    ensures s'.dev == s.dev && s'.agg == s.agg && s'.sem == s.sem && s'.seen == s.seen
  {
    s' := Apply(c, s, StoreFrame);
    longer := Quiet(c, m, pace, evs, s, StoreFrame, s');
  }

  /** Every masked ring has a sample: the worker makes a frame. */
  lemma MakeFrame(c: Config, m: set<nat>, pace: Pace, evs: seq<Event>, s: State)
    returns (longer: seq<Event>, s': State)
    requires LeadsTo(c, m, pace, evs, s) && Serving(c, m, s) && s.worker == Checking(0)
    requires forall i :: i in m ==> s.dev[i].ring != []
    ensures LeadsTo(c, m, pace, longer, s') && Serving(c, m, s') && s'.worker == Checking(0)
    ensures OneTaken(m, s, s')
  {
    longer := CheckAll(c, m, pace, evs, s, 0);
    var s1 := s.(worker := Checking(c.devices));
    var s2 := s.(worker := Popping(0), frames := SetTimestamp(s.frames, 0, 0));
    longer := Quiet(c, m, pace, longer, s1, Stamp(0), s2);
    longer, s' := PopAll(c, m, pace, longer, s, s2, 0);
    longer, s' := StoreOne(c, m, pace, longer, s');
  }

  // ---------------------------------------------------------------------------
  // Choosing devices

  lemma TwoOf(m: set<nat>) returns (a: nat, b: nat)
    requires |m| >= 2
    ensures a in m && b in m && a < b && forall i :: i in m ==> a <= i
  {
    a := Least(m);
    assert |m - {a}| == |m| - 1;
    b :| b in m - {a};
  }

  lemma Least(m: set<nat>) returns (a: nat)
    requires m != {}
    ensures a in m && forall i :: i in m ==> a <= i
    decreases |m|
  {
    a :| a in m;
    var rest := m - {a};
    assert forall i :: i in m ==> i == a || i in rest;
    if rest != {} {
      var b := Least(rest);
      a := if b < a then b else a;
    }
  }
}
