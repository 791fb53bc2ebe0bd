/** The counting semaphore between the interrupts and the worker: when the worker can go to
    sleep although a whole frame is waiting, and when it cannot. */
module Wakeup {
  import opened Pipeline
  import opened Sessions

  /** A worker that waits now will be woken if a frame is ready. */
  ghost predicate WillWake(s: State) {
    FrameReady(s) ==> s.sem > 0 || InFlight(s)
  }

  /** The worker is at rt_sem_take, or on its way there without looking at the rings again. */
  predicate BoundToWait(s: State) {
    s.ctl == CtlSemReady || s.worker.Created? || s.worker.LoopHead? || s.worker.Taking?
  }

  ghost predicate Waking(s: State) {
    s.armed && BoundToWait(s) ==> WillWake(s)
  }

  /** Interrupts announce what they push. */
  lemma InterruptWakes(c: Config, s: State, ev: Event)
    requires c.semMax > 0 && Enabled(c, s, ev) && Interrupt(ev) && WillWake(s)
    ensures WillWake(Apply(c, s, ev))
  {
    var s' := Apply(c, s, ev);
    match ev {
      case IsrRead(d, v) =>
        if i :| 0 <= i < |s.dev| && s.dev[i].isr == Pushed {
          assert s'.dev[i].isr == Pushed;
        }
        assert FrameReady(s') ==> FrameReady(s) by { RingsUnchanged(s, s'); }
      case IsrPush(d) => assert s'.dev[d].isr == Pushed;
      case AggRead(v) =>
        if i :| 0 <= i < |s.dev| && s.dev[i].isr == Pushed {
          assert s'.dev[i].isr == Pushed;
        }
        assert FrameReady(s') ==> FrameReady(s) by { RingsUnchanged(s, s'); }
      case _ =>
    }
  }

  lemma RingsUnchanged(s: State, s': State)
    requires s'.mask == s.mask && |s'.dev| == |s.dev|
    requires forall i :: 0 <= i < |s.dev| ==> s'.dev[i].ring == s.dev[i].ring
    ensures FrameReady(s') == FrameReady(s)
  {
  }

  lemma WakingStep(c: Config, s: State, ev: Event)
    requires c.semMax > 0 && Shape(c, s) && Waking(s) && Enabled(c, s, ev)
    ensures Waking(Apply(c, s, ev))
  {
    if Interrupt(ev) {
      InterruptFrame(c, s, ev);
      if WillWake(s) {
        InterruptWakes(c, s, ev);
      }
    } else if Control(ev) {
    } else if ev.CheckRing? {
    } else if ev.StoreFrame? || ev.FlushRest? {
    } else {
      WorkerFrame(c, s, ev);
    }
  }

  lemma {:induction false} WakingHolds(c: Config, s0: State, evs: seq<Event>)
    requires c.semMax > 0 && Shape(c, s0) && Waking(s0) && Legal(c, s0, evs)
    ensures Shape(c, After(c, s0, evs)) && Waking(After(c, s0, evs))
    decreases |evs|
  {
    if evs != [] {
      var before := evs[..|evs| - 1];
      WakingHolds(c, s0, before);
      ShapeStep(c, After(c, s0, before), evs[|evs| - 1]);
      WakingStep(c, After(c, s0, before), evs[|evs| - 1]);
    }
  }

  /** The semaphore is not initialised in the run. */
  ghost predicate NoSemInit(evs: seq<Event>) {
    forall k :: 0 <= k < |evs| ==> !evs[k].SemInit?
  }

  lemma {:induction false} ArmedStays(c: Config, s: State, evs: seq<Event>)
    requires Legal(c, s, evs) && NoSemInit(evs)
    ensures After(c, s, evs).armed == s.armed
    decreases |evs|
  {
    if evs != [] {
      var before := evs[..|evs| - 1];
      ArmedStays(c, s, before);
      ArmedStep(c, After(c, s, before), evs[|evs| - 1]);
    }
  }

  lemma ArmedStep(c: Config, s: State, ev: Event)
    requires Enabled(c, s, ev) && !ev.SemInit?
    ensures Apply(c, s, ev).armed == s.armed
  {
    if Interrupt(ev) {
      InterruptFrame(c, s, ev);
    } else if !Control(ev) && !ev.StoreFrame? && !ev.FlushRest? {
      WorkerFrame(c, s, ev);
    }
  }

  /** No wakeup is lost: in every state of a session whose semaphore was initialised in time,
      if the worker waits while every masked ring has a sample, either the semaphore is positive
      or some interrupt is between its push and its release. */
  lemma NoLostWakeup(c: Config, evs: seq<Event>)
    requires c.semMax > 0 && Legal(c, Init(c), evs)
    ensures var s := After(c, Init(c), evs);
            s.armed && s.worker == Taking && FrameReady(s) ==> s.sem > 0 || InFlight(s)
  {
    WakingHolds(c, Init(c), evs);
  }

  ghost predicate NeverStuck(c: Config, s: State) {
    forall evs :: Legal(c, s, evs) && NoSemInit(evs) && After(c, s, evs).worker == Taking
      ==> WillWake(After(c, s, evs))
  }

  /** A worker created now reaches rt_sem_take without looking at any ring. */
  function StraightToTake(c: Config, s: State): seq<Event> {
    [ThreadCreate(true), Malloc(seq(s.batch, _ => Frame(0, seq(c.devices, _ => 0)))), LoopTest]
  }

  lemma ReachesTake(c: Config, s: State)
    requires s.ctl == CtlSemReady && !s.stop
    ensures Legal(c, s, StraightToTake(c, s)) && NoSemInit(StraightToTake(c, s))
    ensures var t := After(c, s, StraightToTake(c, s));
            t.worker == Taking && t.sem == s.sem && t.dev == s.dev && t.agg == s.agg && t.mask == s.mask
  {
    var evs := StraightToTake(c, s);
    ThreeSteps(c, s, evs[0], evs[1], evs[2]);
  }

  lemma ThreeSteps(c: Config, s: State, e0: Event, e1: Event, e2: Event)
    requires Enabled(c, s, e0)
    requires Enabled(c, Apply(c, s, e0), e1)
    requires Enabled(c, Apply(c, Apply(c, s, e0), e1), e2)
    ensures Legal(c, s, [e0, e1, e2])
    ensures After(c, s, [e0, e1, e2]) == Apply(c, Apply(c, Apply(c, s, e0), e1), e2)
  {
    assert Legal(c, s, []) && After(c, s, []) == s;
    Extend(c, s, [], e0);
    assert [] + [e0] == [e0];
    Extend(c, s, [e0], e1);
    assert [e0] + [e1] == [e0, e1];
    Extend(c, s, [e0, e1], e2);
    assert [e0, e1] + [e2] == [e0, e1, e2];
  }

  /** Exactly when the promise holds. `ads128x_acq_start` does not empty the rings, and the
      interrupts fill them whether or not a worker runs. The session that follows the
      initialisation of the semaphore never sleeps through a ready frame if and only if, at that
      moment, some masked ring is empty or some interrupt has pushed and not yet released.
      Otherwise a worker may wait with all rings full and nothing on its way. */
  lemma LostWakeupExact(c: Config, evs: seq<Event>)
    requires c.semMax > 0 && Legal(c, Init(c), evs) && After(c, Init(c), evs).ctl == CtlSetUp
    ensures var s := After(c, Init(c), evs);
            NeverStuck(c, Apply(c, s, SemInit)) <==> !FrameReady(s) || InFlight(s)
  {
    var s := After(c, Init(c), evs);
    var t := Apply(c, s, SemInit);
    ShapeHolds(c, evs);
    WakingHolds(c, Init(c), evs);
    ShapeStep(c, s, SemInit);
    WakingStep(c, s, SemInit);
    if !FrameReady(s) || InFlight(s) {
      forall more | Legal(c, t, more) && NoSemInit(more) && After(c, t, more).worker == Taking
        ensures WillWake(After(c, t, more))
      {
        WakingHolds(c, t, more);
        ArmedStays(c, t, more);
      }
    } else {
      ReachesTake(c, t);
      var u := After(c, t, StraightToTake(c, t));
      assert FrameReady(u) && u.sem == 0 && !InFlight(u) by {
        assert FrameReady(t) && !InFlight(t);
      }
      assert !WillWake(u);
    }
  }

  /** It happens: a start initialises the semaphore and fails for want of memory, an interrupt fills
      the only ring, and the worker of the next start may sleep beside the ready frame. */
  lemma LeftoverIsSleptThrough(c: Config) returns (evs: seq<Event>)
    requires !c.aggregated && c.devices > 0 && c.depth > 0 && c.semMax > 0
    ensures Legal(c, Init(c), evs) && After(c, Init(c), evs).ctl == CtlSetUp
    ensures !NeverStuck(c, Apply(c, After(c, Init(c), evs), SemInit))
    ensures exists k :: 0 <= k < |evs| && evs[k] == SemInit && forall j :: 0 <= j < k ==> !Interrupt(evs[j])
  {
    hide Apply, Enabled;
    var s;
    evs, s := FailedStart(c);
    evs, s := OneReading(c, evs, s);
    Enables(c, s);
    Extend(c, Init(c), evs, StartSetUp({0}, 1));
    evs := evs + [StartSetUp({0}, 1)];
    LostWakeupExact(c, evs);
    var t := After(c, Init(c), evs);
    assert t.dev[0].ring == [7] && FrameReady(t) && !InFlight(t);
    assert evs[1] == SemInit;
  }

  lemma Enables(c: Config, s: State)
    requires c.devices > 0 && s.ctl == CtlIdle && s.worker == NoThread
    ensures Enabled(c, s, StartSetUp({0}, 1))
    ensures Apply(c, s, StartSetUp({0}, 1)) == s.(mask := {0}, batch := 1, stop := false, ctl := CtlSetUp)
  {
  }

  lemma FailedStart(c: Config) returns (evs: seq<Event>, s: State)
    requires c.devices > 0
    ensures Legal(c, Init(c), evs) && After(c, Init(c), evs) == s
    ensures evs == [StartSetUp({0}, 1), SemInit, ThreadCreate(false)]
    ensures s == Init(c).(mask := {0}, batch := 1, armed := s.armed)
  {
    evs := [StartSetUp({0}, 1), SemInit, ThreadCreate(false)];
    ThreeSteps(c, Init(c), evs[0], evs[1], evs[2]);
    s := After(c, Init(c), evs);
  }

  /** One whole interrupt of device 0. */
  lemma OneReading(c: Config, evs: seq<Event>, s: State) returns (longer: seq<Event>, s': State)
    requires !c.aggregated && c.devices > 0 && c.depth > 0
    requires Legal(c, Init(c), evs) && After(c, Init(c), evs) == s && s.dev == Init(c).dev
    ensures Legal(c, Init(c), longer) && After(c, Init(c), longer) == s'
    ensures longer == evs + [IsrRead(0, 7), IsrPush(0), IsrRelease(0)]
    ensures s' == s.(dev := s.dev[0 := Device([7], Idle, [7], [Reading(7, true)])], sem := Release(c, s.sem))
  {
    hide Legal, After;
    var d := Device([], Holding(7), [7], []);
    var s1 := s.(dev := s.dev[0 := d]);
    var s2 := s.(dev := s.dev[0 := Device([7], Pushed, [7], [Reading(7, true)])]);
    s' := s.(dev := s.dev[0 := Device([7], Idle, [7], [Reading(7, true)])], sem := Release(c, s.sem));
    assert s.dev[0] == Device([], Idle, [], []) && s.dev[0].samples + [7] == [7];
    assert s1 == Apply(c, s, IsrRead(0, 7));
    assert PushInto(c, d, 7).(isr := Pushed) == s2.dev[0];
    assert s2.dev == s1.dev[0 := s2.dev[0]] && s'.dev == s2.dev[0 := s'.dev[0]];
    assert s2 == Apply(c, s1, IsrPush(0));
    assert s' == Apply(c, s2, IsrRelease(0));
    hide Apply, Enabled;
    Extend(c, Init(c), evs, IsrRead(0, 7));
    Extend(c, Init(c), evs + [IsrRead(0, 7)], IsrPush(0));
    Extend(c, Init(c), evs + [IsrRead(0, 7)] + [IsrPush(0)], IsrRelease(0));
    longer := evs + [IsrRead(0, 7)] + [IsrPush(0)] + [IsrRelease(0)];
    assert longer == evs + [IsrRead(0, 7), IsrPush(0), IsrRelease(0)];
  }

  // ---------------------------------------------------------------------------
  // Counting units

  function Released(evs: seq<Event>): nat {
    if evs == [] then 0
    else
      var last := evs[|evs| - 1];
      Released(evs[..|evs| - 1]) + if last.IsrRelease? || last.AggRelease? then 1 else 0
  }

  function TakenUp(evs: seq<Event>): nat {
    if evs == [] then 0
    else TakenUp(evs[..|evs| - 1]) + if evs[|evs| - 1].TakeOk? then 1 else 0
  }

  /** As long as the semaphore cannot saturate, every interrupt adds one unit to it and every take that
      does not time out removes one. */
  lemma {:induction false} UnitsConserved(c: Config, s: State, evs: seq<Event>)
    requires Legal(c, s, evs) && NoSemInit(evs) && s.sem + Released(evs) <= c.semMax
    ensures After(c, s, evs).sem + TakenUp(evs) == s.sem + Released(evs)
    decreases |evs|
  {
    hide Apply, Enabled;
    if evs != [] {
      var before, ev := evs[..|evs| - 1], evs[|evs| - 1];
      UnitsConserved(c, s, before);
      UnitStep(c, After(c, s, before), ev);
    }
  }

  lemma UnitStep(c: Config, s: State, ev: Event)
    requires Enabled(c, s, ev) && !ev.SemInit?
    ensures var s' := Apply(c, s, ev);
            if ev.IsrRelease? || ev.AggRelease? then s'.sem == if s.sem < c.semMax then s.sem + 1 else s.sem
            else s'.sem + (if ev.TakeOk? then 1 else 0) == s.sem
  {
  }
}
