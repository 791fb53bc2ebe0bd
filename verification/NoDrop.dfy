/** How deep the rings must be so that no sample is ever dropped. */
module NoDrop {
  import opened Rings
  import opened Pipeline
  import opened Sessions
  import opened Streams
  import opened Alignment

  /** The interrupts of any two masked devices are never more than `skew` pushes apart, and no
      masked device has pushed more than `burst` times since the worker last found a masked ring
      empty. */
  ghost predicate Paced(m: set<nat>, skew: nat, burst: nat, s: State) {
    && (forall i, j :: i in m && j in m && i < |s.dev| && j < |s.dev| ==>
          |s.dev[i].offers| <= |s.dev[j].offers| + skew)
    && (forall i :: i in m && i < |s.dev| && i < |s.seen| ==> |s.dev[i].offers| <= s.seen[i] + burst)
  }

  /** The promise, along a whole run. */
  ghost predicate PacedRun(c: Config, m: set<nat>, skew: nat, burst: nat, evs: seq<Event>)
    requires Legal(c, Init(c), evs)
  {
    forall k :: 0 <= k <= |evs| ==> Legal(c, Init(c), evs[..k]) && Paced(m, skew, burst, After(c, Init(c), evs[..k]))
  }

  /** A ring's backlog: what other devices are behind, plus what came since `seen`. */
  ghost predicate Backlog(skew: nat, s: State, i: nat)
    requires i < |s.dev| && i < |s.seen|
  {
    Drops(s.dev[i].offers) == 0 && |s.dev[i].ring| + s.seen[i] <= skew + |s.dev[i].offers|
  }

  lemma DropsSnoc(offers: seq<Reading>, r: Reading)
    ensures Drops(offers + [r]) == Drops(offers) + (if r.kept then 0 else 1)
  {
    assert (offers + [r])[..|offers + [r]| - 1] == offers;
  }

  lemma InterruptBacklog(c: Config, skew: nat, burst: nat, s: State, ev: Event, i: nat)
    requires i < |s.dev| && i < |s.seen| && Backlog(skew, s, i)
    requires Enabled(c, s, ev) && Interrupt(ev) && skew + burst <= c.depth
    requires |Apply(c, s, ev).dev| == |s.dev|
    requires |Apply(c, s, ev).dev[i].offers| <= s.seen[i] + burst
    ensures Apply(c, s, ev).seen == s.seen && Backlog(skew, Apply(c, s, ev), i)
  {
    var s' := Apply(c, s, ev);
    InterruptFrame(c, s, ev);
    InterruptOnlyAdds(c, s, ev, i);
    if s'.dev[i].offers != s.dev[i].offers {
      var v :| s'.dev[i].ring == Offer(c.depth, s.dev[i].ring, v)
        && s'.dev[i].offers == s.dev[i].offers + [Reading(v, |s.dev[i].ring| < c.depth)];
      DropsSnoc(s.dev[i].offers, Reading(v, |s.dev[i].ring| < c.depth));
    }
  }

  /** Finding ring `j` empty bounds every other ring by the skew: both devices have had the same
      number of samples taken. */
  lemma EmptyRingBoundsOthers(c: Config, m: set<nat>, skew: nat, evs: seq<Event>, i: nat, j: nat)
    requires Legal(c, Init(c), evs) && OneMask(m, evs)
    requires i in m && i < c.devices && j in m && j < c.devices
    requires |After(c, Init(c), evs).dev| == c.devices
    requires var s := After(c, Init(c), evs);
             && s.worker.Checking?
             && s.dev[j].ring == []
             && Drops(s.dev[i].offers) == 0 && Drops(s.dev[j].offers) == 0
             && |s.dev[i].offers| <= |s.dev[j].offers| + skew
    ensures |After(c, Init(c), evs).dev[i].ring| <= skew
  {
    var s := After(c, Init(c), evs);
    KeptIsColumn(c, m, evs, i);
    KeptIsColumn(c, m, evs, j);
    KeptPlusDrops(s.dev[i].offers);
    KeptPlusDrops(s.dev[j].offers);
  }

  lemma WorkerBacklog(c: Config, m: set<nat>, skew: nat, burst: nat, evs: seq<Event>, ev: Event, i: nat)
    requires Legal(c, Init(c), evs) && OneMask(m, evs)
    requires i in m && forall j :: j in m ==> j < c.devices
    requires Shape(c, After(c, Init(c), evs)) && Uniform(m, After(c, Init(c), evs))
    requires forall j :: j in m ==> Backlog(skew, After(c, Init(c), evs), j)
    requires Paced(m, skew, burst, After(c, Init(c), evs))
    requires Enabled(c, After(c, Init(c), evs), ev) && !Interrupt(ev) && !Control(ev)
    ensures var s' := Apply(c, After(c, Init(c), evs), ev);
            i < |s'.dev| && i < |s'.seen| && Backlog(skew, s', i)
  {
    hide After, Legal;
    var s := After(c, Init(c), evs);
    if ev.CheckRing? {
      var j := s.worker.i;
      if j in s.mask && s.dev[j].ring == [] {
        EmptyRingBoundsOthers(c, m, skew, evs, i, j);
      }
    } else {
      MoveBacklog(c, skew, s, ev, i);
    }
  }

  /** Only a look at an empty ring changes the observations; other steps shorten rings at most. */
  lemma MoveBacklog(c: Config, skew: nat, s: State, ev: Event, i: nat)
    requires i < |s.dev| && i < |s.seen| && Backlog(skew, s, i)
    requires Enabled(c, s, ev) && !Interrupt(ev) && !Control(ev) && !ev.CheckRing?
    ensures var s' := Apply(c, s, ev);
            i < |s'.dev| && i < |s'.seen| && Backlog(skew, s', i)
  {
  }

  lemma BacklogStep(c: Config, m: set<nat>, skew: nat, burst: nat, evs: seq<Event>, ev: Event, i: nat)
    requires Legal(c, Init(c), evs) && OneMask(m, evs)
    requires i in m && forall j :: j in m ==> j < c.devices
    requires Shape(c, After(c, Init(c), evs)) && Uniform(m, After(c, Init(c), evs))
    requires forall j :: j in m ==> Backlog(skew, After(c, Init(c), evs), j)
    requires Paced(m, skew, burst, After(c, Init(c), evs))
    requires Enabled(c, After(c, Init(c), evs), ev)
    requires Shape(c, Apply(c, After(c, Init(c), evs), ev))
    requires Paced(m, skew, burst, Apply(c, After(c, Init(c), evs), ev))
    requires skew + burst <= c.depth
    ensures Backlog(skew, Apply(c, After(c, Init(c), evs), ev), i)
  {
    var s := After(c, Init(c), evs);
    if Interrupt(ev) {
      InterruptFrame(c, s, ev);
      InterruptBacklog(c, skew, burst, s, ev, i);
    } else if Control(ev) {
      ControlFrame(c, s, ev);
    } else {
      WorkerBacklog(c, m, skew, burst, evs, ev, i);
    }
  }

  lemma {:induction false} BacklogHolds(c: Config, m: set<nat>, skew: nat, burst: nat, evs: seq<Event>)
    requires Legal(c, Init(c), evs) && OneMask(m, evs)
    requires forall j :: j in m ==> j < c.devices
    requires PacedRun(c, m, skew, burst, evs) && skew + burst <= c.depth
    ensures Shape(c, After(c, Init(c), evs))
    ensures forall i :: i in m ==> Backlog(skew, After(c, Init(c), evs), i)
    decreases |evs|
  {
    ShapeHolds(c, evs);
    if evs != [] {
      var before := evs[..|evs| - 1];
      forall k | 0 <= k <= |before|
        ensures Legal(c, Init(c), before[..k]) && Paced(m, skew, burst, After(c, Init(c), before[..k]))
      {
        assert before[..k] == evs[..k];
      }
      BacklogHolds(c, m, skew, burst, before);
      UniformHolds(c, m, before);
      assert before[..|before|] == before && evs[..|evs|] == evs;
      forall i | i in m
        ensures Backlog(skew, After(c, Init(c), evs), i)
      {
        BacklogStep(c, m, skew, burst, before, evs[|evs| - 1], i);
      }
    }
  }

  /** No sample is dropped. If the masked devices stay within `skew` pushes of each other, none
      pushes more than `burst` times between two moments at which the worker finds a masked ring
      empty, and the rings hold `skew + burst` samples, then every reading of every masked
      device is accepted, under every schedule that keeps this pace. */
  lemma NoneDropped(c: Config, m: set<nat>, skew: nat, burst: nat, evs: seq<Event>, i: nat)
    requires Legal(c, Init(c), evs) && OneMask(m, evs)
    requires forall j :: j in m ==> j < c.devices
    requires PacedRun(c, m, skew, burst, evs) && skew + burst <= c.depth
    requires i in m
    ensures |After(c, Init(c), evs).dev| == c.devices
    ensures var s := After(c, Init(c), evs);
            Drops(s.dev[i].offers) == 0 && Kept(s.dev[i].offers) == Values(s.dev[i].offers)
  {
    BacklogHolds(c, m, skew, burst, evs);
    AllKept(After(c, Init(c), evs).dev[i].offers);
  }

  lemma {:induction false} AllKept(offers: seq<Reading>)
    requires Drops(offers) == 0
    ensures Kept(offers) == Values(offers)
  {
    if offers != [] {
      var front := offers[..|offers| - 1];
      AllKept(front);
      assert Values(offers) == Values(front) + [offers[|offers| - 1].v];
    }
  }
}
