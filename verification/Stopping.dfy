/** What a stop request does, and what it does not. */
module Stopping {
  import opened Rings
  import opened Pipeline
  import opened Sessions
  import opened Streams
  import opened NoDrop
  import opened Schedules
  import opened RingDepth
  import Tracking

  // ---------------------------------------------------------------------------
  // The outer loop looks at the flag

  predicate Waits(ev: Event) {
    ev.TakeOk? || ev.TakeTimeout?
  }

  /** How often the worker has come back from the semaphore. */
  function WaitCount(evs: seq<Event>): nat {
    if evs == [] then 0 else WaitCount(evs[..|evs| - 1]) + if Waits(evs[|evs| - 1]) then 1 else 0
  }

  /** The worker has left, or a stop is requested that only the next start could take back. */
  predicate Stopping(s: State) {
    s.worker == NoThread || (s.stop && s.ctl == CtlIdle)
  }

  lemma StoppingStep(c: Config, s: State, ev: Event)
    requires Stopping(s) && Enabled(c, s, ev) && ev != ThreadCreate(true)
    ensures var s' := Apply(c, s, ev);
            && Stopping(s')
            && (s'.worker == Taking ==> s.worker == Taking && !Waits(ev))
            && (Waits(ev) ==> s.worker == Taking)
  {
    hide Apply;
    if Interrupt(ev) {
      InterruptFrame(c, s, ev);
    } else if Control(ev) {
      ControlStops(c, s, ev);
    } else {
      WorkerStops(c, s, ev);
    }
  }

  lemma ControlStops(c: Config, s: State, ev: Event)
    requires Stopping(s) && Enabled(c, s, ev) && Control(ev) && ev != ThreadCreate(true)
    ensures Stopping(Apply(c, s, ev)) && Apply(c, s, ev).worker == s.worker
  {
  }

  lemma WorkerStops(c: Config, s: State, ev: Event)
    requires Stopping(s) && Enabled(c, s, ev) && !Interrupt(ev) && !Control(ev)
    ensures Stopping(Apply(c, s, ev)) && Apply(c, s, ev).worker != Taking
  {
  }

  lemma {:induction false} StoppingRun(c: Config, s: State, evs: seq<Event>)
    requires Stopping(s) && Legal(c, s, evs) && ThreadCreate(true) !in evs
    ensures var t := After(c, s, evs);
            && Stopping(t)
            && WaitCount(evs) + (if t.worker == Taking then 1 else 0) <= if s.worker == Taking then 1 else 0
    decreases |evs|
  {
    if evs != [] {
      var before := evs[..|evs| - 1];
      StoppingRun(c, s, before);
      StoppingStep(c, After(c, s, before), evs[|evs| - 1]);
    }
  }

  /** After a stop request, under every schedule, the worker comes back from the semaphore at most
      once more, and not at all unless it was waiting there when the stop came. */
  lemma StopEndsSession(c: Config, s: State, evs: seq<Event>)
    requires Enabled(c, s, StopRequest) && Legal(c, Apply(c, s, StopRequest), evs) && ThreadCreate(true) !in evs
    ensures WaitCount(evs) <= if s.worker == Taking then 1 else 0
  {
    StoppingRun(c, Apply(c, s, StopRequest), evs);
  }

  // ---------------------------------------------------------------------------
  // How many frames may still be made

  /** Frames made and samples of device `i` on their way into one, less what its ring accepted. */
  ghost function Balance(s: State, i: nat): int
    requires i < |s.dev|
  {
    s.made + |PartFilled(s, i)| + |s.dev[i].ring| - |Kept(s.dev[i].offers)|
  }

  /** Device `i` is sampled by the worker there is, if any. */
  predicate Served(s: State, i: nat) {
    i < |s.dev| && (s.worker != NoThread ==> i in s.mask)
  }

  lemma BalanceInterrupt(c: Config, s: State, ev: Event, i: nat)
    requires Enabled(c, s, ev) && Interrupt(ev) && Served(s, i)
    ensures Served(Apply(c, s, ev), i) && Balance(Apply(c, s, ev), i) == Balance(s, i)
  {
    hide Apply, Enabled, Kept;
    var s' := Apply(c, s, ev);
    InterruptFrame(c, s, ev);
    InterruptOnlyAdds(c, s, ev, i);
    if s'.dev[i].offers != s.dev[i].offers {
      var v :| s'.dev[i].ring == Offer(c.depth, s.dev[i].ring, v)
               && s'.dev[i].offers == s.dev[i].offers + [Reading(v, |s.dev[i].ring| < c.depth)];
      KeptSnoc(s.dev[i].offers, Reading(v, |s.dev[i].ring| < c.depth));
    }
  }

  lemma BalanceControl(c: Config, s: State, ev: Event, i: nat)
    requires Enabled(c, s, ev) && Control(ev) && ev != ThreadCreate(true) && Shape(c, s) && Served(s, i)
    ensures Served(Apply(c, s, ev), i) && Balance(Apply(c, s, ev), i) == Balance(s, i)
  {
    hide Kept;
  }

  lemma BalancePop(c: Config, s: State, i: nat)
    requires Enabled(c, s, PopRing) && Shape(c, s) && Checked(s) && Served(s, i)
    ensures Served(Apply(c, s, PopRing), i) && Balance(Apply(c, s, PopRing), i) == Balance(s, i)
  {
    hide Kept;
  }

  lemma BalanceWorker(c: Config, s: State, ev: Event, i: nat)
    requires Enabled(c, s, ev) && !Interrupt(ev) && !Control(ev) && !ev.PopRing?
    requires Shape(c, s) && Checked(s) && Served(s, i)
    ensures Served(Apply(c, s, ev), i) && Balance(Apply(c, s, ev), i) == Balance(s, i)
  {
    hide Kept;
  }

  lemma {:induction false} BalanceRun(c: Config, s: State, evs: seq<Event>, i: nat)
    requires Shape(c, s) && Checked(s) && Served(s, i) && Legal(c, s, evs) && ThreadCreate(true) !in evs
    ensures var t := After(c, s, evs);
            Shape(c, t) && Checked(t) && Served(t, i) && Balance(t, i) == Balance(s, i)
    decreases |evs|
  {
    hide Shape, Checked, Balance, Served, Apply, Enabled;
    if evs != [] {
      var before, ev := evs[..|evs| - 1], evs[|evs| - 1];
      BalanceRun(c, s, before, i);
      var t := After(c, s, before);
      ShapeStep(c, t, ev);
      CheckedStep(c, t, ev);
      if Interrupt(ev) {
        BalanceInterrupt(c, t, ev, i);
      } else if Control(ev) {
        BalanceControl(c, t, ev, i);
      } else if ev.PopRing? {
        BalancePop(c, t, i);
      } else {
        BalanceWorker(c, t, ev, i);
      }
    }
  }

  /** From any moment on, be it a stop request, a worker makes at most as many frames as the least
      provided of its devices allows: what its ring holds, a sample already in the current frame,
      and what the ring still accepts. */
  lemma FramesBound(c: Config, before: seq<Event>, evs: seq<Event>, i: nat)
    requires Legal(c, Init(c), before) && Legal(c, After(c, Init(c), before), evs) && ThreadCreate(true) !in evs
    requires i in After(c, Init(c), before).mask
    ensures var s := After(c, Init(c), before);
            var t := After(c, s, evs);
            && |t.dev| == |s.dev| == c.devices && i < c.devices
            && t.made - s.made <=
                 |s.dev[i].ring| + |PartFilled(s, i)| + |Kept(t.dev[i].offers)| - |Kept(s.dev[i].offers)|
  {
    hide Apply, Enabled;
    ShapeHolds(c, before);
    CheckedHolds(c, before);
    BalanceRun(c, After(c, Init(c), before), evs, i);
  }

  // ---------------------------------------------------------------------------
  // The inner loop does not

  /** A worker with one device, in the inner loop although a stop is requested, with a sample to
      work on. */
  ghost predicate Busy(c: Config, s: State) {
    && c.devices == 1 && !c.aggregated
    && s.mask == {0} && s.batch == 1 && s.fi == 0 && s.stop && s.ctl == CtlIdle && s.worker == Checking(0)
    && |s.frames| == 1 && |s.frames[0].ch| == 1
    && |s.dev| == 1 && s.dev[0].isr == Idle && 0 < |s.dev[0].ring| <= c.depth
  }

  /** `evs` leads from `s` to `t`, and the worker does not come to look at the flag. */
  ghost predicate Unheard(c: Config, s: State, evs: seq<Event>, t: State) {
    Legal(c, s, evs) && After(c, s, evs) == t && LoopTest !in evs
  }

  lemma Next(c: Config, s: State, evs: seq<Event>, t: State, ev: Event, t': State) returns (longer: seq<Event>)
    requires Unheard(c, s, evs, t) && Enabled(c, t, ev) && t' == Apply(c, t, ev) && ev != LoopTest
    ensures Unheard(c, s, longer, t')
  {
    hide Apply, Enabled;
    Extend(c, s, evs, ev);
    longer := evs + [ev];
  }

  /** One frame, during which the device delivers one more sample. */
  lemma OneMore(c: Config, s: State, evs: seq<Event>, t: State) returns (longer: seq<Event>, t': State)
    requires Unheard(c, s, evs, t) && Busy(c, t)
    ensures Unheard(c, s, longer, t') && Busy(c, t') && t'.made == t.made + 1
  {
    hide Unheard;
    var t1 := t.(worker := Checking(1));
    longer := Next(c, s, evs, t, CheckRing, t1);
    var t2 := t1.(frames := SetTimestamp(t1.frames, 0, 0), worker := Popping(0));
    longer := Next(c, s, longer, t1, Stamp(0), t2);
    var t3;
    longer, t3 := PopAndRefill(c, s, longer, t2);
    t' := Apply(c, t3, StoreFrame);
    longer := Next(c, s, longer, t3, StoreFrame, t');
  }

  lemma PopAndRefill(c: Config, s: State, evs: seq<Event>, t: State) returns (longer: seq<Event>, t': State)
    requires Unheard(c, s, evs, t) && Busy(c, t.(worker := Checking(0))) && t.worker == Popping(0)
    ensures Unheard(c, s, longer, t') && Busy(c, t'.(worker := Checking(0))) && t'.worker == Popping(1)
    ensures t'.made == t.made
  {
    hide Unheard;
    var d := t.dev[0];
    var t1 := t.(dev := [d.(ring := d.ring[1..])], frames := SetChannel(t.frames, 0, 0, d.ring[0]),
                 worker := Popping(1));
    assert t.dev[0 := t1.dev[0]] == t1.dev;
    longer := Next(c, s, evs, t, PopRing, t1);
    var t2 := t1.(dev := [t1.dev[0].(isr := Holding(0), samples := d.samples + [0])]);
    assert t1.dev[0 := t2.dev[0]] == t2.dev;
    longer := Next(c, s, longer, t1, IsrRead(0, 0), t2);
    var t3 := t2.(dev := [PushInto(c, t2.dev[0], 0).(isr := Pushed)]);
    assert t2.dev[0 := t3.dev[0]] == t3.dev;
    longer := Next(c, s, longer, t2, IsrPush(0), t3);
    t' := t3.(dev := [t3.dev[0].(isr := Idle)], sem := Release(c, t3.sem));
    assert t3.dev[0 := t'.dev[0]] == t'.dev;
    longer := Next(c, s, longer, t3, IsrRelease(0), t');
  }

  lemma {:induction false} StopUnheard(c: Config, s: State, n: nat) returns (evs: seq<Event>, t: State)
    requires Busy(c, s)
    ensures Unheard(c, s, evs, t) && Busy(c, t) && t.made == s.made + n
  {
    hide Busy, Unheard;
    if n == 0 {
      evs, t := [], s;
      NotYet(c, s);
    } else {
      evs, t := StopUnheard(c, s, n - 1);
      evs, t := OneMore(c, s, evs, t);
    }
  }

  lemma NotYet(c: Config, s: State)
    ensures Unheard(c, s, [], s)
  {
  }

  /** acq_stop is not read in the inner loop: a device that is as fast as the worker keeps it there.
      For every `n` there is a run in which `n` frames are made after the stop request and the
      flag has not been looked at. */
  lemma StopMayWait(c: Config, n: nat) returns (before: seq<Event>, evs: seq<Event>)
    requires c.devices == 1 && !c.aggregated && c.depth > 0
    ensures Legal(c, Init(c), before) && before != [] && before[|before| - 1] == StopRequest
    ensures var s := After(c, Init(c), before);
            && Legal(c, s, evs) && LoopTest !in evs
            && After(c, s, evs).made == s.made + n
  {
    hide Apply, Enabled, Paced;
    var pace := Pace(0, 1);
    var s;
    before, s := Begin(c, {0}, pace);
    before := OneInterrupt(c, {0}, pace, before, s, 0, 0);
    s := s.(dev := s.dev[0 := Tracking.Sampled(c, s.dev[0], 0)], sem := Release(c, s.sem));
    before, s := Take(c, {0}, pace, before, s);
    before, s := Stopped(c, before, s);
    var t;
    evs, t := StopUnheard(c, s, n);
  }

  lemma Stopped(c: Config, evs: seq<Event>, s: State) returns (longer: seq<Event>, s': State)
    requires Legal(c, Init(c), evs) && After(c, Init(c), evs) == s && s.ctl == CtlIdle
    ensures longer == evs + [StopRequest] && Legal(c, Init(c), longer)
    ensures After(c, Init(c), longer) == s' == s.(stop := true)
  {
    Extend(c, Init(c), evs, StopRequest);
    longer, s' := evs + [StopRequest], s.(stop := true);
  }
}
