/** The acquisition module in its own form: rings updated in place, the semaphore counter, the
    global variables, and the worker's nested loops (src/ads128x/ads128x_acq.c).

    A tape of events says what interrupts and controller do. Before every atomic section of the
    worker an arbitrary number of them happens, so a call of `Entry` stands for every schedule.
    `Valid` says that what has happened so far is a legal run of the `Pipeline` machine and that
    the variables hold that run's state: everything proved about its runs holds of this code. */
module Acquisitions {
  import opened Rings
  import opened Pipeline
  import opened Sessions
  import opened Streams
  import opened Groups
  import opened GroupOutcomes
  import Chips
  import Driver
  import Outcomes

  class Acquisition {
    const c: Config
    /** `acq_ring[ADS128X_MAX_DEVICES]` */
    const rings: seq<Ring>

    var sem: nat
    var threadAlive: bool
    var devMask: set<nat>
    var batch: nat
    var stop: bool
    var published: seq<Publish>

    /** Where interrupts and controller stand, and what they will try to do next. */
    var isr: seq<Isr>
    var agg: AggIsr
    var ctl: Controller
    var tape: seq<Event>

    /** The run so far and the state it leads to. */
    ghost var run: seq<Event>
    ghost var g: State

    ghost function Footprint(): set<object> {
      (set i | 0 <= i < |rings| :: rings[i] as object) + (set i | 0 <= i < |rings| :: rings[i].buf as object)
    }

    ghost predicate Separate() {
      && (forall i, j :: 0 <= i < j < |rings| ==> rings[i] != rings[j] && rings[i].buf != rings[j].buf)
      && (forall i, j :: 0 <= i < |rings| && 0 <= j < |rings| ==> rings[i] as object != rings[j].buf)
      && this !in Footprint()
    }

    ghost predicate RingsHold(dev: seq<Device>)
      reads Footprint()
    {
      && |rings| == |dev| == c.devices
      && (forall i :: 0 <= i < |rings| ==>
            rings[i].buf.Length == c.depth && rings[i].Valid() && rings[i].Contents() == dev[i].ring)
    }

    ghost predicate Coupled()
      reads this
    {
      && g.sem == sem && g.mask == devMask && g.batch == batch && g.stop == stop
      && g.published == published
      && (threadAlive <==> g.worker != NoThread)
      && g.agg == agg && g.ctl == ctl
      && |isr| == |g.dev| == |rings| && (forall i :: 0 <= i < |isr| ==> isr[i] == g.dev[i].isr)
    }

    ghost predicate Valid()
      reads this, Footprint()
    {
      && Separate()
      && RingsHold(g.dev)
      && Coupled()
      && Legal(c, Init(c), run) && After(c, Init(c), run) == g
    }

    constructor (c: Config, rings: seq<Ring>, tape: seq<Event>)
      requires 0 < c.depth <= 0xFFFF && |rings| == c.devices
      requires forall i, j :: 0 <= i < j < |rings| ==> rings[i] != rings[j] && rings[i].buf != rings[j].buf
      requires forall i :: 0 <= i < |rings| ==>
                 rings[i].buf.Length == c.depth && rings[i].Valid() && rings[i].Contents() == []
      ensures Valid() && g == Init(c) && this.c == c && this.rings == rings && this.tape == tape
    {
      this.c, this.rings, this.tape := c, rings, tape;
      sem, threadAlive, devMask, batch, stop, published := 0, false, {}, 1, false, [];
      isr, agg, ctl := seq(c.devices, _ => Idle), AggIdle, CtlIdle;
      run, g := [], Init(c);
    }

    /** One more event of the run. */
    ghost method Record(ev: Event)
      requires Legal(c, Init(c), run) && After(c, Init(c), run) == g && Enabled(c, g, ev)
      modifies `run, `g
      ensures run == old(run) + [ev] && g == Apply(c, old(g), ev)
      ensures Legal(c, Init(c), run) && After(c, Init(c), run) == g
    {
      Extend(c, Init(c), run, ev);
      run, g := run + [ev], Apply(c, g, ev);
    }

    // -------------------------------------------------------------------------
    // Interrupts, one atomic section at a time

    /** acq_ring_push on ring `d`. */
    method PushRing(d: nat, v: int, ghost dev: seq<Device>, ghost dev': seq<Device>)
      requires d < |rings| && Separate() && RingsHold(dev)
      requires |dev'| == |dev| && dev'[d].ring == Offer(c.depth, dev[d].ring, v)
      requires forall i :: 0 <= i < |dev| && i != d ==> dev'[i].ring == dev[i].ring
      modifies rings[d], rings[d].buf
      ensures RingsHold(dev')
    {
      rings[d].Push(v);
      forall i | 0 <= i < |rings| && i != d
        ensures rings[i].buf.Length == c.depth && rings[i].Valid() && rings[i].Contents() == dev'[i].ring
      {
        assert unchanged(rings[i]) && unchanged(rings[i].buf);
      }
    }

    /** acq_ring_pop on ring `d`. */
    method PopRingAt(d: nat, ghost dev: seq<Device>, ghost dev': seq<Device>) returns (v: int)
      requires d < |rings| && Separate() && RingsHold(dev)
      requires |dev'| == |dev| && dev'[d].ring == Rest(dev[d].ring)
      requires forall i :: 0 <= i < |dev| && i != d ==> dev'[i].ring == dev[i].ring
      modifies rings[d], rings[d].buf
      ensures RingsHold(dev') && v == HeadOrZero(dev[d].ring)
    {
      v := rings[d].Pop();
      forall i | 0 <= i < |rings| && i != d
        ensures rings[i].buf.Length == c.depth && rings[i].Valid() && rings[i].Contents() == dev'[i].ring
      {
        assert unchanged(rings[i]) && unchanged(rings[i].buf);
      }
    }

    /** ads128x_acq_isr: the sample is read. */
    method IsrReads(d: nat, v: int)
      requires Valid() && !c.aggregated && d < |isr| && isr[d] == Idle
      modifies `isr, `run, `g
      ensures Valid() && Did(old(run), old(g), IsrRead(d, v))
    {
      hide After, Legal;
      isr := isr[d := Holding(v)];
      Record(IsrRead(d, v));
    }

    /** ads128x_acq_isr: the sample is pushed. */
    method IsrPushes(d: nat)
      requires Valid() && d < |isr| && isr[d].Holding?
      modifies `isr, `run, `g, rings[d], rings[d].buf
      ensures Valid() && Did(old(run), old(g), IsrPush(d))
    {
      hide After, Legal;
      ghost var after := Apply(c, g, IsrPush(d));
      PushRing(d, isr[d].v, g.dev, after.dev);
      isr := isr[d := Pushed];
      Record(IsrPush(d));
    }

    /** ads128x_acq_isr: the worker is woken. */
    method IsrReleases(d: nat)
      requires Valid() && d < |isr| && isr[d] == Pushed
      modifies `isr, `sem, `run, `g
      ensures Valid() && Did(old(run), old(g), IsrRelease(d))
    {
      hide After, Legal;
      isr := isr[d := Idle];
      sem := Release(c, sem);
      Record(IsrRelease(d));
    }

    /** ads128x_acq_isr_all: entry, one device to read, one to skip, one to push, and the end. */
    method AggEnters()
      requires Valid() && c.aggregated && agg == AggIdle && threadAlive
      modifies `agg, `run, `g
      ensures Valid() && Did(old(run), old(g), AggEnter)
    {
      hide After, Legal;
      agg := AggAt(0, false);
      Record(AggEnter);
    }

    method AggReads(v: int)
      requires Valid() && agg.AggAt? && agg.i < |isr| && agg.i in devMask
      modifies `agg, `run, `g
      ensures Valid() && Did(old(run), old(g), AggRead(v))
    {
      hide After, Legal;
      agg := AggHolding(agg.i, v, agg.pushed);
      Record(AggRead(v));
    }

    method AggSkips()
      requires Valid() && agg.AggAt? && agg.i < |isr| && agg.i !in devMask
      modifies `agg, `run, `g
      ensures Valid() && Did(old(run), old(g), AggSkip)
    {
      hide After, Legal;
      agg := AggAt(agg.i + 1, agg.pushed);
      Record(AggSkip);
    }

    method AggPushes()
      requires Valid() && agg.AggHolding? && agg.i < |isr|
      modifies `agg, `run, `g, rings[agg.i], rings[agg.i].buf
      ensures Valid() && Did(old(run), old(g), AggPush)
    {
      hide After, Legal;
      ghost var after := Apply(c, g, AggPush);
      PushRing(agg.i, agg.v, g.dev, after.dev);
      agg := AggAt(agg.i + 1, true);
      Record(AggPush);
    }

    method AggReleases()
      requires Valid() && agg.AggAt? && agg.i == |isr|
      modifies `agg, `sem, `run, `g
      ensures Valid() && Did(old(run), old(g), AggRelease)
    {
      hide After, Legal;
      agg := AggIdle;
      sem := Release(c, sem);
      Record(AggRelease);
    }

    lemma InFootprint(d: nat)
      requires d < |rings|
      ensures rings[d] in Footprint() && rings[d].buf in Footprint()
    {
    }

    /** The run grew by `ev`. */
    ghost predicate Did(run0: seq<Event>, g0: State, ev: Event)
      reads `run, `g
    {
      Enabled(c, g0, ev) && run == run0 + [ev] && g == Apply(c, g0, ev)
    }

    /** The event can happen now. The worker's own events are not taken from the tape, and of the
        controller's only a stop request can happen while a worker lives. */
    predicate Possible(ev: Event)
      reads this
    {
      match ev
      case StopRequest => ctl == CtlIdle
      case IsrRead(d, v) => !c.aggregated && d < |isr| && isr[d] == Idle
      case IsrPush(d) => d < |isr| && isr[d].Holding?
      case IsrRelease(d) => d < |isr| && isr[d] == Pushed
      case AggEnter => c.aggregated && agg == AggIdle && threadAlive
      case AggSkip => agg.AggAt? && agg.i < |isr| && agg.i !in devMask
      case AggRead(v) => agg.AggAt? && agg.i < |isr| && agg.i in devMask
      case AggPush => agg.AggHolding? && agg.i < |isr|
      case AggRelease => agg.AggAt? && agg.i == |isr|
      case _ => false
    }

    lemma PossibleExact(ev: Event)
      requires Valid()
      ensures Possible(ev) <==> (Interrupt(ev) || ev.StopRequest?) && Enabled(c, g, ev)
    {
      hide After, Legal, Apply;
    }

    /** The next event of the tape happens if it can. */
    method Happen(ev: Event)
      requires Valid()
      modifies this, Footprint()
      ensures Valid() && tape == old(tape)
      ensures Undisturbed(old(g), g, 1) && old(run) <= run
      ensures g == Try(c, old(g), ev)
    {
      hide Valid, Apply, Enabled, Possible, Undisturbed;
      PossibleExact(ev);
      if Possible(ev) {
        Act(ev);
        DoesNotDisturb(c, old(g), ev);
      } else {
        NothingDisturbed(g);
      }
    }

    method Act(ev: Event)
      requires Valid() && Possible(ev)
      modifies this, Footprint()
      ensures Valid() && tape == old(tape) && Did(old(run), old(g), ev)
    {
      hide Apply, Enabled, After, Legal, RingsHold;
      match ev {
        case StopRequest => StopFlag();
        case IsrRead(d, v) => IsrReads(d, v);
        case IsrPush(d) =>
          InFootprint(d);
          IsrPushes(d);
        case IsrRelease(d) => IsrReleases(d);
        case AggEnter => AggEnters();
        case AggSkip => AggSkips();
        case AggRead(v) => AggReads(v);
        case AggPush =>
          InFootprint(agg.i);
          AggPushes();
        case AggRelease => AggReleases();
      }
    }

    /** The write of `acq_stop` in ads128x_acq_stop. */
    method StopFlag()
      requires Valid() && ctl == CtlIdle
      modifies `stop, `run, `g
      ensures Valid() && Did(old(run), old(g), StopRequest)
    {
      hide After, Legal;
      stop := true;
      Record(StopRequest);
    }

    /** Between two atomic sections of the worker, any number of events happen. */
    method Interfere() returns (ghost n: nat)
      requires Valid()
      modifies this, Footprint()
      ensures Valid() && n <= |old(tape)| && tape == old(tape)[n..]
      ensures Undisturbed(old(g), g, n) && old(run) <= run && (old(stop) ==> stop)
      ensures g == TryAll(c, old(g), old(tape)[..n])
    {
      hide Apply, Enabled, After, Legal, RingsHold, Try;
      var k: nat :| k <= |tape|;
      var left := k;
      n := 0;
      while left > 0
        invariant n + left == k && k <= |old(tape)|
        invariant Valid() && tape == old(tape)[n..]
        invariant Undisturbed(old(g), g, n) && old(run) <= run
        invariant g == TryAll(c, old(g), old(tape)[..n])
      {
        assert old(tape)[..n + 1][..n] == old(tape)[..n] && old(tape)[..n + 1][n] == tape[0];
        var ev := tape[0];
        tape := tape[1..];
        Happen(ev);
        left, n := left - 1, n + 1;
      }
    }

    // -------------------------------------------------------------------------
    // The interrupt handlers as wholes, when nothing comes between their sections

    /** ads128x_acq_isr: the ring is offered the sample and one unit is released, whether or not
        the sample was kept and whether or not a worker runs. */
    method AcqIsr(present: bool, idx: nat, value: int)
      requires Valid() && !c.aggregated && (idx < |isr| ==> isr[idx] == Idle)
      modifies this, Footprint()
      ensures Valid() && old(run) <= run && tape == old(tape)
      ensures idx >= c.devices || !present ==> g == old(g)
      ensures idx < c.devices && present ==>
                && Interrupted(c, old(g), g, {idx}, idx + 1, seq(c.devices, _ => value))
                && g == old(g).(dev := g.dev, sem := g.sem) && OneUnit(c, old(g).sem, g.sem)
    {
      assert |g.dev| == |isr| == c.devices;
      hide Valid, Apply, Enabled, Interrupted;
      if idx >= c.devices || !present {
        return;
      }
      IsrWhole(c, g, idx, value);
      ReadPushRelease(idx, value);
    }

    method ReadPushRelease(d: nat, v: int)
      requires Valid() && !c.aggregated && d < |isr| && isr[d] == Idle
      modifies this, Footprint()
      ensures Valid() && old(run) <= run && tape == old(tape)
      ensures g == WholeIsr(c, old(g), d, v)
    {
      AtDevice(d);
      hide Valid, Apply, Enabled;
      IsrReads(d, v);
      AtDevice(d);
      PushRelease(d);
    }

    method PushRelease(d: nat)
      requires Valid() && d < |isr| && isr[d].Holding?
      modifies this, Footprint()
      ensures Valid() && old(run) <= run && tape == old(tape)
      ensures Enabled(c, old(g), IsrPush(d)) && g == PushThenRelease(c, old(g), d)
    {
      AtDevice(d);
      hide Valid, Apply, Enabled;
      IsrPushes(d);
      AtDevice(d);
      IsrReleases(d);
    }

    /** ads128x_acq_isr_all: without a worker nothing; otherwise every masked ring is offered its
        sample, and one unit is released for all of them together. */
    method AcqIsrAll(value: seq<int>)
      requires Valid() && c.aggregated && agg == AggIdle && |value| == c.devices
      modifies this, Footprint()
      ensures Valid() && old(run) <= run && tape == old(tape)
      ensures !old(threadAlive) ==> g == old(g)
      ensures old(threadAlive) ==>
                && Interrupted(c, old(g), g, old(devMask), c.devices, value)
                && g == old(g).(dev := g.dev, sem := g.sem) && OneUnit(c, old(g).sem, g.sem)
    {
      hide Valid, Apply, Enabled, Interrupted, OnItsWay;
      if !threadAlive {
        return;
      }
      AggStart(value);
      var i := 0;
      while i < c.devices
        invariant i <= c.devices && Valid() && old(run) <= run && tape == old(tape)
        invariant OnItsWay(c, old(g), g, i, value)
      {
        AggDevice(i, value[i], old(g), value);
        i := i + 1;
      }
      AggFinish(old(g), value);
    }

    method AggStart(ghost value: seq<int>)
      requires Valid() && c.aggregated && agg == AggIdle && threadAlive && |value| == c.devices
      modifies `agg, `run, `g
      ensures Valid() && old(run) <= run && OnItsWay(c, old(g), g, 0, value)
      ensures old(g).mask == old(devMask) && old(g).agg == AggIdle
    {
      AggEnters();
    }

    method AggFinish(ghost s0: State, ghost value: seq<int>)
      requires Valid() && OnItsWay(c, s0, g, c.devices, value) && s0.agg == AggIdle
      modifies `agg, `sem, `run, `g
      ensures Valid() && old(run) <= run && Interrupted(c, s0, g, s0.mask, c.devices, value)
      ensures g == s0.(dev := g.dev, sem := Release(c, s0.sem))
    {
      AggReleases();
    }

    /** One turn of the loop. */
    method AggDevice(i: nat, v: int, ghost s0: State, ghost value: seq<int>)
      requires Valid() && i < c.devices && |value| == c.devices && value[i] == v
      requires OnItsWay(c, s0, g, i, value)
      modifies this, Footprint()
      ensures Valid() && old(run) <= run && tape == old(tape)
      ensures OnItsWay(c, s0, g, i + 1, value)
    {
      AtAgg();
      AggWhole(c, s0, g, i, value);
      hide Valid, Apply, Enabled, Interrupted, AggTurn, OnItsWay;
      TakeTurn(v);
    }

    method TakeTurn(v: int)
      requires Valid() && agg.AggAt? && agg.i < |isr|
      modifies this, Footprint()
      ensures Valid() && old(run) <= run && tape == old(tape)
      ensures old(g).agg.AggAt? && old(g).agg.i < |old(g).dev| && g == AggTurn(c, old(g), v)
    {
      AtAgg();
      AtDevice(agg.i);
      hide Valid, Apply, Enabled;
      if agg.i in devMask {
        ReadPush(v);
      } else {
        AggSkips();
      }
    }

    method ReadPush(v: int)
      requires Valid() && agg.AggAt? && agg.i < |isr| && agg.i in devMask
      modifies this, Footprint()
      ensures Valid() && old(run) <= run && tape == old(tape)
      ensures Enabled(c, old(g), AggRead(v))
      ensures g == Apply(c, Apply(c, old(g), AggRead(v)), AggPush)
    {
      AtAgg();
      AtDevice(agg.i);
      hide Valid, Apply, Enabled;
      AggReads(v);
      AtAgg();
      AggPushes();
    }

    lemma AtAgg()
      requires Valid()
      ensures g.agg == agg && g.mask == devMask && |g.dev| == |isr| == c.devices
      ensures agg.AggHolding? && agg.i < |isr| ==> rings[agg.i] in Footprint() && rings[agg.i].buf in Footprint()
    {
      if agg.AggHolding? && agg.i < |isr| {
        InFootprint(agg.i);
      }
    }

    lemma AtDevice(d: nat)
      requires Valid() && d < |g.dev|
      ensures d < |isr| == |rings| && isr[d] == g.dev[d].isr
      ensures rings[d] in Footprint() && rings[d].buf in Footprint()
    {
      InFootprint(d);
    }

    // -------------------------------------------------------------------------
    // The worker

    /** The worker's own variables are those of the run. */
    ghost predicate Local(frames: array<Frame>, fi: nat)
      reads this, frames
    {
      && g.frames == frames[..] && g.fi == fi
      && frames as object !in Footprint() && frames as object != this
    }

    /** rt_sem_take with a timeout: it returns with or without a unit. */
    method TakeSem()
      requires Valid() && g.worker == Taking
      modifies `sem, `run, `g
      ensures Valid() && g == old(g).(sem := sem, worker := Checking(0)) && old(run) <= run
      ensures old(sem) > 0 ==> sem == old(sem) - 1
      ensures old(sem) == 0 ==> sem == 0
    {
      hide After, Legal;
      if sem > 0 {
        sem := sem - 1;
        Record(TakeOk);
      } else {
        Record(TakeTimeout);
      }
    }

    /** One look at ring `i` on behalf of a masked device. */
    method LookAt(i: nat) returns (there: bool)
      requires Valid() && g.worker == Checking(i) && i < c.devices
      modifies `run, `g
      ensures Valid() && old(run) <= run
      ensures i < |old(g).dev| && (there <==> !(i in old(g).mask && old(g).dev[i].ring == []))
      ensures g == old(g).(worker := if there then Checking(i + 1) else LoopHead, seen := g.seen)
    {
      hide After, Legal;
      there := true;
      if i in devMask {
        var count := rings[i].Avail();
        there := count > 0;
      }
      Record(CheckRing);
    }

    /** The first inner loop: is there a sample of every masked device? */
    method AllAvailable() returns (all: bool, ghost n: nat)
      requires Valid() && g.worker == Checking(0)
      modifies this, Footprint()
      ensures Valid() && n <= |old(tape)| && tape == old(tape)[n..] && old(run) <= run
      ensures Looked(old(g), g, n)
      ensures all ==> g.worker == Checking(c.devices)
      ensures !all ==> g.worker == LoopHead && SomeEmpty(g)
    {
      hide Valid;
      var i := 0;
      n := 0;
      while i < c.devices
        invariant i <= c.devices
        invariant Valid() && n <= |old(tape)| && tape == old(tape)[n..] && old(run) <= run
        invariant Looked(old(g), g, n) && g.worker == Checking(i)
      {
        ghost var m := Interfere();
        n := n + m;
        var there := LookAt(i);
        if !there {
          return false, n;
        }
        i := i + 1;
      }
      return true, n;
    }

    /** What goes into channel `i`: a sample of a masked device, 0 for the others. */
    method SampleOf(i: nat) returns (v: int)
      requires Separate() && RingsHold(g.dev) && g.mask == devMask
      requires Enabled(c, g, PopRing) && g.worker.i == i
      modifies rings[i], rings[i].buf
      ensures RingsHold(Apply(c, g, PopRing).dev)
      ensures v == if i in g.mask then HeadOrZero(g.dev[i].ring) else 0
    {
      v := 0;
      if i in devMask {
        v := PopRingAt(i, g.dev, Apply(c, g, PopRing).dev);
      }
    }

    /** frames[fi].ch[i] = v */
    method WriteChannel(frames: array<Frame>, fi: nat, i: nat, v: int)
      requires Separate() && Coupled() && Legal(c, Init(c), run) && After(c, Init(c), run) == g
      requires Local(frames, fi) && g.worker == Popping(i) && i < |g.dev| && RingsHold(Apply(c, g, PopRing).dev)
      requires v == if i in g.mask then HeadOrZero(g.dev[i].ring) else 0
      requires fi < frames.Length && i < |frames[fi].ch|
      modifies `run, `g, frames
      ensures Valid() && Local(frames, fi) && Did(old(run), old(g), PopRing)
    {
      assert Enabled(c, g, PopRing);
      hide Apply, Enabled, After, Legal, RingsHold, HeadOrZero, Footprint, Separate;
      PopEffect(c, g);
      frames[fi] := frames[fi].(ch := frames[fi].ch[i := v]);
      Record(PopRing);
    }

    /** The second inner loop fills channel `i`. */
    method FillChannel(frames: array<Frame>, fi: nat, i: nat)
      requires Valid() && Local(frames, fi) && g.worker == Popping(i) && i < c.devices
      requires fi < frames.Length && i < |frames[fi].ch|
      modifies `run, `g, rings[i], rings[i].buf, frames
      ensures Valid() && Local(frames, fi) && Did(old(run), old(g), PopRing)
    {
      assert |rings| == |g.dev| == c.devices;
      assert Enabled(c, g, PopRing);
      hide Apply, Enabled, After, Legal, RingsHold, SetChannel, HeadOrZero, Separate;
      var v := SampleOf(i);
      WriteChannel(frames, fi, i, v);
    }

    /** What the run guarantees about the next pop. */
    lemma PopReady(frames: array<Frame>, fi: nat)
      requires Valid() && Local(frames, fi) && (g.worker.Popping? || g.worker == Checking(c.devices))
      ensures fi < frames.Length == batch && (forall k :: 0 <= k < frames.Length ==> |frames[k].ch| == c.devices)
      ensures |g.dev| == c.devices && g.mask == devMask && (forall j :: j in devMask ==> j < c.devices)
      ensures g.worker.Popping? && g.worker.i < c.devices && g.worker.i in devMask ==> g.dev[g.worker.i].ring != []
    {
      hide Apply, Enabled, RingsHold;
      ShapeHolds(c, run);
      CheckedHolds(c, run);
    }

    /** frames[fi].timestamp = rt_tick_get() */
    method StampFrame(frames: array<Frame>, fi: nat, tick: nat)
      requires Valid() && Local(frames, fi) && g.worker == Checking(c.devices)
      modifies `run, `g, frames
      ensures Valid() && Local(frames, fi) && old(run) <= run
      ensures fi < |old(g).frames|
      ensures g == old(g).(worker := Popping(0), frames := SetTimestamp(old(g).frames, fi, tick))
    {
      hide After, Legal;
      PopReady(frames, fi);
      frames[fi] := frames[fi].(timestamp := tick);
      Record(Stamp(tick));
    }

    method FillNow(frames: array<Frame>, fi: nat, i: nat)
      requires Valid() && Local(frames, fi) && g.worker == Popping(i) && i < c.devices
      modifies this, Footprint(), frames
      ensures Valid() && Local(frames, fi) && tape == old(tape)
      ensures Did(old(run), old(g), PopRing) && i < |old(g).dev|
      ensures i in old(g).mask ==> old(g).dev[i].ring != []
      ensures fi < |old(g).frames| && i < |old(g).frames[fi].ch|
    {
      hide Apply, After, Legal;
      PopReady(frames, fi);
      InFootprint(i);
      FillChannel(frames, fi, i);
    }

    /** Channel `i` with whatever happens before it. */
    method NextChannel(frames: array<Frame>, fi: nat, i: nat) returns (ghost n: nat)
      requires Valid() && Local(frames, fi) && g.worker == Popping(i) && i < c.devices
      modifies this, Footprint(), frames
      ensures Valid() && Local(frames, fi) && old(run) <= run
      ensures n <= |old(tape)| && tape == old(tape)[n..]
      ensures g.worker == Popping(i + 1) && Filled(old(g), g, n, i, i + 1)
      ensures fi < |old(g).frames| == |g.frames| && g.frames[fi].timestamp == old(g).frames[fi].timestamp
    {
      hide Valid, Apply, Filled;
      n := Interfere();
      ghost var mid := g;
      FillNow(frames, fi, i);
      PopFills(c, old(g), mid, n);
    }

    /** The second inner loop: one sample of every masked device goes into the frame. */
    method FillFrame(frames: array<Frame>, fi: nat, tick: nat) returns (ghost n: nat)
      requires Valid() && Local(frames, fi) && g.worker == Checking(c.devices)
      modifies this, Footprint(), frames
      ensures Valid() && Local(frames, fi) && old(run) <= run
      ensures n <= |old(tape)| && tape == old(tape)[n..]
      ensures g.worker == Popping(c.devices) && Filled(old(g), g, n, 0, c.devices)
      ensures fi < frames.Length && frames[fi].timestamp == tick
    {
      hide Valid, Apply, Enabled, Filled;
      n := Interfere();
      ghost var mid := g;
      StampFrame(frames, fi, tick);
      StampFills(old(g), mid, n, tick);
      var i := 0;
      while i < c.devices
        invariant i <= c.devices && Valid() && Local(frames, fi) && old(run) <= run
        invariant n <= |old(tape)| && tape == old(tape)[n..]
        invariant g.worker == Popping(i) && Filled(old(g), g, n, 0, i)
        invariant fi < |g.frames| && g.frames[fi].timestamp == tick
      {
        mid := g;
        ghost var m := NextChannel(frames, fi, i);
        FilledThen(old(g), mid, g, n, m, i);
        n := n + m;
        i := i + 1;
      }
    }

    /** ddaq_publish */
    method PublishBatch(frames: array<Frame>, fi: nat)
      requires fi <= frames.Length
      modifies `published
      ensures published == old(published) + [Publish(devMask, frames[..fi])]
    {
      published := published + [Publish(devMask, frames[..fi])];
    }

    /** `fi++`, and a publish when the batch is full. */
    method StoreNow(frames: array<Frame>, fi: nat) returns (next: nat)
      requires Valid() && Local(frames, fi) && g.worker == Popping(c.devices) && fi < frames.Length == batch
      modifies `published, `run, `g
      ensures Valid() && Local(frames, next) && old(run) <= run
      ensures g.worker == Checking(0) && g.made == old(g).made + 1 && g.dev == old(g).dev && g.mask == old(g).mask
      ensures next == if fi + 1 == batch then 0 else fi + 1
      ensures published == old(published) + (if fi + 1 == batch then [Publish(devMask, frames[..])] else [])
    {
      AtController();
      hide Valid, Apply, Front;
      StoreReady();
      StoreEffect(c, g);
      WholeFront(frames[..]);
      next := StoreStep(frames, fi);
      AtController();
    }

    lemma StoreReady()
      requires Valid() && g.worker == Popping(c.devices)
      ensures Enabled(c, g, StoreFrame)
    {
    }

    method StoreStep(frames: array<Frame>, fi: nat) returns (next: nat)
      requires Valid() && Local(frames, fi) && g.worker == Popping(c.devices) && fi < frames.Length == batch
      modifies `published, `run, `g
      ensures Valid() && Local(frames, next) && Did(old(run), old(g), StoreFrame)
      ensures next == if fi + 1 == batch then 0 else fi + 1
    {
      hide After, Legal;
      next := fi + 1;
      if next >= batch {
        PublishBatch(frames, next);
        next := 0;
      }
      Record(StoreFrame);
    }

    /** One turn of the endless inner loop: look at all rings, fill a frame, store it. */
    method OneFrame(frames: array<Frame>, fi: nat) returns (done: bool, next: nat, ghost n: nat)
      requires Valid() && Local(frames, fi) && g.worker == Checking(0)
      modifies this, Footprint(), frames
      ensures Valid() && Local(frames, next) && old(run) <= run
      ensures n <= |old(tape)| && tape == old(tape)[n..]
      ensures |g.dev| == |old(g).dev| && g.mask == old(g).mask
      ensures done ==> g.worker == LoopHead && SomeEmpty(g) && g.made == old(g).made
      ensures !done ==> g.worker == Checking(0) && g.made == old(g).made + 1
      ensures forall j :: j in g.mask && j < |g.dev| ==> Drained(old(g), g, n, if done then 0 else 1, j)
      ensures !done ==> fi < frames.Length && Framed(old(g), g, n, frames[fi])
    {
      assert |g.dev| == c.devices;
      hide Valid, Apply, Enabled, Looked, Filled;
      ghost var s := g;
      var all, m := AllAvailable();
      n := m;
      LookedDrains(s, g, n);
      if !all {
        return true, fi, n;
      }
      ghost var t := g;
      var tick: nat := *;
      m := FillFrame(frames, fi, tick);
      PopReady(frames, fi);
      FilledDrains(s, t, g, n, m, c.devices);
      n := n + m;
      next := StoreNow(frames, fi);
      done := false;
    }

    /** The endless inner loop. A frame takes a sample out of every masked ring, so it ends if only
        finitely many interrupts come; it does not look at `acq_stop` (see `Stopping`). With no
        further pushes it makes exactly as many frames as the masked ring with the fewest samples
        allows, and leaves every masked ring short of just that many. */
    method Assemble(frames: array<Frame>, fi0: nat) returns (fi: nat, ghost made: nat, ghost n: nat)
      requires Valid() && Local(frames, fi0) && g.worker == Checking(0)
      modifies this, Footprint(), frames
      ensures Valid() && Local(frames, fi) && old(run) <= run
      ensures n <= |old(tape)| && tape == old(tape)[n..]
      ensures g.worker == LoopHead && SomeEmpty(g) && g.made == old(g).made + made
      ensures |g.dev| == |old(g).dev| && g.mask == old(g).mask && TookEnough(old(g), made)
      ensures forall j :: j in g.mask && j < |g.dev| ==> Drained(old(g), g, n, made, j)
      ensures old(tape) == [] ==> TookMinimum(old(g), g, made)
    {
      ghost var d := AMaskedDevice();
      hide Valid, Apply, Enabled, Drained, SomeEmpty, TookMinimum, Local;
      fi, made, n := fi0, 0, 0;
      NoneDrained(g);
      while true
        invariant Valid() && Local(frames, fi) && old(run) <= run
        invariant n <= |old(tape)| && tape == old(tape)[n..]
        invariant g.worker == Checking(0) && g.made == old(g).made + made
        invariant |g.dev| == |old(g).dev| && g.mask == old(g).mask && d in g.mask && d < |g.dev|
        invariant forall j :: j in g.mask && j < |g.dev| ==> Drained(old(g), g, n, made, j)
        decreases |tape| + |g.dev[d].ring|
      {
        var done;
        done, fi, n := MoreFrames(frames, fi, old(g), made, d, n);
        if done {
          MinimumTaken(old(g), g, n, made);
          break;
        }
        made := made + 1;
      }
    }

    /** OneFrame, as it adds to what has happened since state `s`. */
    method MoreFrames(frames: array<Frame>, fi: nat, ghost s: State, ghost made: nat, ghost d: nat, ghost n: nat)
      returns (done: bool, next: nat, ghost n': nat)
      requires Valid() && Local(frames, fi) && g.worker == Checking(0)
      requires |g.dev| == |s.dev| && g.mask == s.mask && d in g.mask && d < |g.dev|
      requires forall j :: j in g.mask && j < |g.dev| ==> Drained(s, g, n, made, j)
      modifies this, Footprint(), frames
      ensures Valid() && Local(frames, next) && old(run) <= run
      ensures n <= n' && n' - n <= |old(tape)| && tape == old(tape)[n' - n..]
      ensures |g.dev| == |s.dev| && g.mask == s.mask
      ensures if done then g.worker == LoopHead && SomeEmpty(g) && g.made == old(g).made
              else g.worker == Checking(0) && g.made == old(g).made + 1
      ensures forall j :: j in g.mask && j < |g.dev| ==> Drained(s, g, n', if done then made else made + 1, j)
      ensures !done ==> |tape| + |g.dev[d].ring| < |old(tape)| + |old(g).dev[d].ring|
    {
      hide Valid, Apply, Enabled, Drained, SomeEmpty, Local;
      ghost var m;
      done, next, m := OneFrame(frames, fi);
      DrainedThen(s, old(g), g, n, m, made, if done then 0 else 1);
      DrainShrinks(old(g), g, m, if done then 0 else 1, d);
      n' := n + m;
    }

    ghost method AMaskedDevice() returns (d: nat)
      requires Valid() && g.worker.Checking?
      ensures d in g.mask && d < |g.dev|
    {
      hide Apply, Enabled, RingsHold;
      ShapeHolds(c, run);
      d :| d in g.mask;
    }

    /** frames = rt_malloc(acq_batch * frame_size). What the memory holds is `content`. */
    method Allocate(content: seq<Frame>) returns (frames: array<Frame>)
      requires Valid() && g.worker == Created && |content| == batch
      requires forall k :: 0 <= k < |content| ==> |content[k].ch| == c.devices
      modifies `run, `g
      ensures fresh(frames) && Valid() && Local(frames, 0) && old(run) <= run
      ensures g == old(g).(frames := content, fi := 0, worker := LoopHead)
    {
      hide After, Legal, RingsHold;
      var size := batch;
      frames := new Frame[size](k requires 0 <= k < size == |content| => content[k]);
      assert frames[..] == content;
      Record(Malloc(content));
    }

    /** No memory: acq_thread = RT_NULL. */
    method GiveUp()
      requires Valid() && g.worker == Created
      modifies `run, `g, `threadAlive
      ensures Valid() && !threadAlive && old(run) <= run
      ensures g == old(g).(worker := NoThread)
    {
      hide After, Legal, RingsHold;
      threadAlive := false;
      Record(MallocFail);
    }

    /** The test of `acq_stop` at the head of the outer loop. */
    method TestStop() returns (stopped: bool)
      requires Valid() && g.worker == LoopHead
      modifies `run, `g
      ensures Valid() && old(run) <= run
      ensures g == old(g).(worker := if stopped then Flushing else Taking)
      ensures stopped == stop
    {
      hide After, Legal, RingsHold;
      stopped := stop;
      Record(LoopTest);
    }

    /** The leftover partial batch is published. */
    method Flush(frames: array<Frame>, fi: nat)
      requires Valid() && Local(frames, fi) && g.worker == Flushing
      modifies `published, `run, `g
      ensures Valid() && old(run) <= run && g.worker == Exiting
      ensures published == old(published) + (if fi > 0 then [Publish(devMask, Front(frames[..], fi))] else [])
    {
      hide After, Legal, RingsHold;
      FlushReady(frames, fi);
      if fi > 0 {
        PublishBatch(frames, fi);
      }
      Record(FlushRest);
    }

    lemma FlushReady(frames: array<Frame>, fi: nat)
      requires Valid() && Local(frames, fi) && g.worker == Flushing
      ensures fi < frames.Length && g.mask == devMask
    {
      hide Apply, Enabled, RingsHold;
      ShapeHolds(c, run);
    }

    /** acq_thread = RT_NULL at the end of the thread. */
    method Leave()
      requires Valid() && g.worker == Exiting
      modifies `run, `g, `threadAlive
      ensures Valid() && !threadAlive && old(run) <= run
    {
      hide After, Legal, RingsHold;
      threadAlive := false;
      Record(ThreadExit);
    }

    /** One pass of the outer loop after its test: wait, then assemble. */
    method WaitAndAssemble(frames: array<Frame>, fi0: nat) returns (fi: nat)
      requires Valid() && Local(frames, fi0) && g.worker == Taking
      modifies this, Footprint(), frames
      ensures Valid() && Local(frames, fi) && old(run) <= run
      ensures g.worker == LoopHead
    {
      hide Valid, Apply, Enabled;
      ghost var n := Interfere();
      TakeSem();
      ghost var made;
      fi, made, n := Assemble(frames, fi0);
    }

    /** ads128x_acq_entry. The thread may wait for ever, so `rounds` says after how many waits we
        stop watching it; `finished` says that it has left by then. When it has, every sample a
        ring accepted has been published exactly once and in order, or is still in its ring. */
    method Entry(memory: bool, content: seq<Frame>, rounds: nat) returns (finished: bool)
      requires Valid() && g.worker == Created && |content| == batch
      requires forall k :: 0 <= k < |content| ==> |content[k].ch| == c.devices
      modifies this, Footprint()
      ensures Valid() && old(run) <= run
      ensures finished <==> !threadAlive
      ensures !memory || old(stop) ==> finished
      ensures finished || !stop
      ensures finished ==> Settled()
    {
      hide Valid, Apply, Enabled, Settled;
      AtController();
      ghost var n := Interfere();
      AtController();
      if !memory {
        GiveUp();
        AllSettled();
        return true;
      }
      var frames := Allocate(content);
      var fi := 0;
      var left := rounds;
      n := Interfere();
      var stopped := TestStop();
      while !stopped
        invariant Valid() && Local(frames, fi) && fresh(frames) && old(run) <= run
        invariant g.worker == (if stopped then Flushing else Taking) && (old(stop) ==> stopped) && (stop ==> stopped)
        decreases left
      {
        if left == 0 {
          AtController();
          return false;
        }
        left := left - 1;
        fi := WaitAndAssemble(frames, fi);
        n := Interfere();
        stopped := TestStop();
      }
      n := Interfere();
      Flush(frames, fi);
      n := Interfere();
      Leave();
      AllSettled();
      return true;
    }

    /** Nothing is under way: what each ring accepted over the whole life of the driver is what
        all sessions have published of it, followed by what the ring holds. */
    ghost predicate Settled()
      reads this, Footprint()
    {
      && RingsHold(g.dev)
      && forall i :: 0 <= i < |g.dev| ==>
           Kept(g.dev[i].offers) == Delivered(published, i) + rings[i].Contents()
    }

    lemma AllSettled()
      requires Valid() && !threadAlive
      ensures Settled()
    {
      hide Apply, Enabled;
      ShapeHolds(c, run);
      forall i | 0 <= i < |g.dev|
        ensures Kept(g.dev[i].offers) == Delivered(published, i) + rings[i].Contents()
      {
        Conservation(c, run, i);
        NothingWaiting(g, i);
      }
    }

    // -------------------------------------------------------------------------
    // The controller

    /** The variables ads128x_acq_start sets once it knows the mask. */
    method SetUp(mask: set<nat>, size: nat)
      requires Valid() && !threadAlive && ctl == CtlIdle
      requires 1 <= size <= MAX_BATCH && mask != {} && forall i :: i in mask ==> i < c.devices
      modifies `devMask, `batch, `stop, `ctl, `run, `g
      ensures Valid() && old(run) <= run
      ensures g == old(g).(mask := mask, batch := size, stop := false, ctl := CtlSetUp)
    {
      hide After, Legal, RingsHold;
      devMask, batch, stop, ctl := mask, size, false, CtlSetUp;
      Record(StartSetUp(mask, size));
    }

    /** rt_sem_init */
    method InitSem()
      requires Valid() && g.ctl == CtlSetUp
      modifies `sem, `ctl, `run, `g
      ensures Valid() && old(run) <= run
      ensures g == old(g).(sem := 0, ctl := CtlSemReady, armed := g.armed)
    {
      hide After, Legal, RingsHold;
      sem, ctl := 0, CtlSemReady;
      Record(SemInit);
    }

    /** rt_thread_create, which may fail. */
    method CreateThread(memory: bool)
      requires Valid() && g.ctl == CtlSemReady && g.worker == NoThread
      modifies `threadAlive, `ctl, `run, `g
      ensures Valid() && old(run) <= run
      ensures g == old(g).(ctl := CtlIdle, worker := if memory then Created else NoThread,
                           session := g.session, made := g.made)
    {
      hide After, Legal, RingsHold;
      threadAlive, ctl := memory, CtlIdle;
      Record(ThreadCreate(memory));
    }

    /** ads128x_acq_start over the chips of `group`. A call that is refused leaves all its variables
        alone, though not the chips: those before one that refuses stay started. Any other call
        sets the variables, starts a worker if there is memory for one, and keeps what the rings
        hold; the chips have been started and synchronised. */
    method Start(group: Group, size: nat, memory: bool) returns (ret: Driver.Err)
      requires Valid() && ctl == CtlIdle && |group.devs| == c.devices && group.Distinct()
      modifies this, Footprint(), group.devs
      ensures Valid() && old(run) <= run && ctl == CtlIdle
      ensures var (chips, refusal) := StartOutcome(old(threadAlive), size, group.Worlds(), old(group.Views()));
              && group.Views() == chips
              && (if refusal != Driver.EOK then
                    ret == refusal && g == old(g) && tape == old(tape)
                  else
                    && ret == (if memory then Driver.EOK else Driver.ENOMEM) && threadAlive == memory
                    && devMask == Present(old(group.Views())) && batch == size && !stop
                    && published == old(published) && Grown(old(g), g)
                    && AllRoused(old(group.Views()), group.Views()))
    {
      hide Valid, Apply, Enabled, Grown, StartOutcome, AllRoused;
      GrantedRouses(threadAlive, size, group.Worlds(), group.Views());
      AtController();
      var mask;
      mask, ret := Prepare(group, size);
      if ret != Driver.EOK {
        return;
      }
      Launch(mask, size, memory);
      AtController();
      ret := if memory then Driver.EOK else Driver.ENOMEM;
    }

    /** All that can turn the call down, and the chips. */
    method Prepare(group: Group, size: nat) returns (mask: set<nat>, ret: Driver.Err)
      requires Valid() && |group.devs| == c.devices && group.Distinct()
      modifies group.devs
      ensures Valid()
      ensures (group.Views(), ret) == StartOutcome(threadAlive, size, group.Worlds(), old(group.Views()))
      ensures ret == Driver.EOK ==>
                && !threadAlive && 1 <= size <= MAX_BATCH && mask == Present(old(group.Views()))
                && mask != {} && forall i :: i in mask ==> i < c.devices
    {
      hide Valid, Started, Everyone, Driver.StartContinuous;
      mask := {};
      if threadAlive {
        return mask, Driver.EBUSY;
      }
      if size == 0 || size > MAX_BATCH {
        return mask, Driver.EINVAL;
      }
      mask, ret := StartChips(group);
      if ret != Driver.EOK {
        return;
      }
      if mask == {} {
        return mask, Driver.EINVAL;
      }
      Synchronise(group, mask);
    }

    /** The chips are none of the acquisition's own variables. */
    method StartChips(group: Group) returns (mask: set<nat>, ret: Driver.Err)
      requires Valid() && |group.devs| == c.devices && group.Distinct()
      modifies group.devs
      ensures Valid()
      ensures var k := FirstRefusal(group.Worlds(), old(group.Views()), 0);
              && group.Views() == Started(group.Worlds(), old(group.Views()), k + 1)
              && (if k < |group.devs| then ret == Driver.StartContinuous(group.devs[k].w, old(group.Views())[k]).1
                  else ret == Driver.EOK && mask == Present(old(group.Views())))
    {
      hide Driver.StartContinuous, Started;
      mask, ret := group.StartDevices();
    }

    method Synchronise(group: Group, mask: set<nat>)
      requires Valid() && group.Distinct()
      modifies group.devs
      ensures Valid() && group.Views() == Everyone(group.Worlds(), old(group.Views()), mask, GroupSync)
    {
      group.SyncDevices(mask);
    }

    method Launch(mask: set<nat>, size: nat, memory: bool)
      requires Valid() && !threadAlive && ctl == CtlIdle
      requires 1 <= size <= MAX_BATCH && mask != {} && forall i :: i in mask ==> i < c.devices
      modifies this, Footprint()
      ensures Valid() && old(run) <= run && Grown(old(g), g)
      ensures g.mask == mask && g.batch == size && !g.stop && g.ctl == CtlIdle
      ensures g.published == old(g).published && g.worker == if memory then Created else NoThread
    {
      AtController();
      hide Valid, Apply, Enabled;
      SetUp(mask, size);
      ghost var n := Interfere();
      InitSem();
      n := Interfere();
      NotStopped();
      CreateThread(memory);
    }

    lemma AtController()
      requires Valid()
      ensures g.mask == devMask && g.batch == batch && g.stop == stop && g.ctl == ctl && g.published == published
      ensures threadAlive <==> g.worker != NoThread
      ensures |g.dev| == |isr| == c.devices
    {
    }

    lemma NotStopped()
      requires Valid() && g.ctl != CtlIdle
      ensures !g.stop
    {
      hide Apply, Enabled, RingsHold;
      ShapeHolds(c, run);
    }

    /** ads128x_acq_ctrl: the group is what the latest start found. */
    method ControlGroup(group: Group, cmd: GroupCmd) returns (ret: Driver.Err)
      requires Valid() && group.Distinct()
      modifies group.devs
      ensures Valid()
      ensures (group.Views(), ret) == Ctrl(group.Worlds(), old(group.Views()), devMask, cmd)
    {
      ret := group.Control(cmd, devMask);
    }

    /** ads128x_acq_stop */
    method Stop() returns (ret: Driver.Err)
      requires Valid() && ctl == CtlIdle
      modifies `stop, `run, `g
      ensures Valid() && old(run) <= run
      ensures ret == if threadAlive then Driver.EOK else Driver.ERROR
      ensures g == if threadAlive then old(g).(stop := true) else old(g)
    {
      hide After, Legal, RingsHold;
      if !threadAlive {
        return Driver.ERROR;
      }
      StopFlag();
      ret := Driver.EOK;
    }
  }

  /** Why ads128x_acq_start turns a call down, or EOK, and how it leaves the chips. */
  function StartOutcome(alive: bool, size: nat, ws: seq<Chips.World>, ss: seq<Driver.Sys>)
    : (seq<Driver.Sys>, Driver.Err)
    requires |ws| == |ss|
  {
    var k := FirstRefusal(ws, ss, 0);
    if alive then (ss, Driver.EBUSY)
    else if size == 0 || size > MAX_BATCH then (ss, Driver.EINVAL)
    else
      var started := Started(ws, ss, k + 1);
      if k < |ss| then (started, Driver.StartContinuous(ws[k], ss[k]).1)
      else if Present(ss) == {} then (started, Driver.EINVAL)
      else (Everyone(ws, started, Present(ss), GroupSync), Driver.EOK)
  }

  /** Every chip present is in continuous mode and has been sent one SYNC; the others are as before. */
  ghost predicate AllRoused(ss: seq<Driver.Sys>, chips: seq<Driver.Sys>) {
    && |chips| == |ss|
    && forall i :: 0 <= i < |ss| ==> if ss[i].dev.attached then Roused(ss[i], chips[i]) else chips[i] == ss[i]
  }

  /** Which calls are turned down, with which answer, and what has happened to the chips by then. */
  lemma StartAnswers(alive: bool, size: nat, ws: seq<Chips.World>, ss: seq<Driver.Sys>)
    requires |ws| == |ss|
    ensures var (chips, e) := StartOutcome(alive, size, ws, ss);
            var k := FirstRefusal(ws, ss, 0);
            if alive then e == Driver.EBUSY && chips == ss
            else if size < 1 || size > 16 then e == Driver.EINVAL && chips == ss
            else if k < |ss| then
              && e == (if ss[k].dev.owner != Driver.NULL then Driver.EBUSY else Driver.EIO)
              && (forall i :: 0 <= i < k && ss[i].dev.attached ==> Outcomes.Started(ws[i], ss[i], chips[i]))
              && (forall i :: k < i < |ss| ==> chips[i] == ss[i])
            else if forall i :: 0 <= i < |ss| ==> !ss[i].dev.attached then e == Driver.EINVAL && chips == ss
            else e == Driver.EOK && AllRoused(ss, chips)
  {
    hide Driver.StartContinuous, Outcomes.Started, Roused, Driver.Do;
    var k := FirstRefusal(ws, ss, 0);
    if k < |ss| {
      StartRefused(ws, ss);
    } else {
      StartRouses(ws, ss);
      assert Present(ss) == {} <==> forall i :: 0 <= i < |ss| ==> !ss[i].dev.attached by {
        forall i | 0 <= i < |ss| && ss[i].dev.attached ensures i in Present(ss) {}
      }
      if Present(ss) == {} {
        assert Started(ws, ss, k + 1) == ss;
      }
    }
  }

  lemma GrantedRouses(alive: bool, size: nat, ws: seq<Chips.World>, ss: seq<Driver.Sys>)
    requires |ws| == |ss|
    ensures var (chips, e) := StartOutcome(alive, size, ws, ss); e == Driver.EOK ==> AllRoused(ss, chips)
  {
    hide StartOutcome, AllRoused, Outcomes.Started;
    StartAnswers(alive, size, ws, ss);
  }

  /** No ring has lost anything. */
  ghost predicate Grown(s: State, s': State) {
    |s'.dev| == |s.dev| && forall i :: 0 <= i < |s.dev| ==> s.dev[i].ring <= s'.dev[i].ring
  }

  /** One unit more, unless the semaphore holds as many as it can. */
  predicate OneUnit(c: Config, sem: nat, sem': nat) {
    sem' == if sem < c.semMax then sem + 1 else sem
  }

  /** Exactly the rings of the devices in `who` below `hi` have been offered a sample each, and
      nothing else of theirs or of the worker's has changed. */
  ghost predicate Interrupted(c: Config, s: State, s': State, who: set<nat>, hi: nat, value: seq<int>) {
    && s' == s.(dev := s'.dev, agg := s'.agg, sem := s'.sem) && |s'.dev| == |s.dev| == |value|
    && forall i :: 0 <= i < |s.dev| ==>
         && s'.dev[i].isr == s.dev[i].isr
         && s'.dev[i].ring == (if i in who && i < hi then Offer(c.depth, s.dev[i].ring, value[i]) else s.dev[i].ring)
         && s'.dev[i].samples == s.dev[i].samples + (if i in who && i < hi then [value[i]] else [])
  }

  /** Only what interrupts and a stop request touch has changed; each ring kept what it had and
      gained at most `n` samples. */
  ghost predicate Undisturbed(s: State, s': State, n: nat) {
    && s' == s.(dev := s'.dev, agg := s'.agg, sem := s'.sem, stop := s'.stop)
    && |s'.dev| == |s.dev| && (s.stop ==> s'.stop)
    && forall i :: 0 <= i < |s.dev| ==>
         s.dev[i].ring <= s'.dev[i].ring && |s'.dev[i].ring| <= |s.dev[i].ring| + n
  }

  /** An interrupt or a stop request happens if it can; nothing else does. */
  ghost function Try(c: Config, s: State, ev: Event): State {
    if (Interrupt(ev) || ev.StopRequest?) && Enabled(c, s, ev) then Apply(c, s, ev) else s
  }

  ghost function TryAll(c: Config, s: State, evs: seq<Event>): State {
    if evs == [] then s else Try(c, TryAll(c, s, evs[..|evs| - 1]), evs[|evs| - 1])
  }

  lemma NothingDisturbed(s: State)
    ensures Undisturbed(s, s, 1)
  {
  }

  lemma DoesNotDisturb(c: Config, s: State, ev: Event)
    requires Enabled(c, s, ev) && (Interrupt(ev) || ev.StopRequest?)
    ensures Undisturbed(s, Apply(c, s, ev), 1)
  {
    var s' := Apply(c, s, ev);
    if Interrupt(ev) {
      hide Apply;
      InterruptFrame(c, s, ev);
      forall i | 0 <= i < |s.dev|
        ensures s.dev[i].ring <= s'.dev[i].ring && |s'.dev[i].ring| <= |s.dev[i].ring| + 1
      {
        InterruptOnlyAdds(c, s, ev, i);
      }
    }
  }

  /** `ring` became `ring'`: just `out` was taken from its front, in order, and at most `n` samples
      joined at its end. */
  predicate Gave(ring: seq<int>, ring': seq<int>, out: seq<int>, n: nat) {
    ring <= out + ring' && |out| + |ring'| <= |ring| + n
  }

  lemma GaveThen(r: seq<int>, r1: seq<int>, r2: seq<int>, out1: seq<int>, out2: seq<int>, n: nat, m: nat)
    requires Gave(r, r1, out1, n) && Gave(r1, r2, out2, m)
    ensures Gave(r, r2, out1 + out2, n + m)
  {
    assert out1 + r1 <= out1 + (out2 + r2) == out1 + out2 + r2;
  }

  /** As `Undisturbed`, with the worker's program counter and its observations moved on. */
  ghost predicate Looked(s: State, s': State, n: nat) {
    && s' == s.(dev := s'.dev, agg := s'.agg, sem := s'.sem, stop := s'.stop, worker := s'.worker, seen := s'.seen)
    && |s'.dev| == |s.dev|
    && forall i :: 0 <= i < |s.dev| ==> Gave(s.dev[i].ring, s'.dev[i].ring, [], n)
  }

  ghost predicate SomeEmpty(s: State) {
    exists i :: i in s.mask && i < |s.dev| && s.dev[i].ring == []
  }

  /** What channel `j` of the current frame holds. */
  ghost function Current(s: State, j: nat): int {
    if s.fi < |s.frames| then Channel(s.frames[s.fi], j) else 0
  }

  /** The channels from `lo` to `hi` of the current frame have been filled, and no others: each
      masked ring gave the oldest sample it had, which is what its channel holds. */
  ghost predicate Filled(s: State, s': State, n: nat, lo: nat, hi: nat) {
    && s' == s.(dev := s'.dev, agg := s'.agg, sem := s'.sem, stop := s'.stop, worker := s'.worker, frames := s'.frames)
    && |s'.dev| == |s.dev|
    && s.fi < |s.frames| == |s'.frames| && s'.frames == s.frames[s.fi := s'.frames[s.fi]]
    && forall j :: 0 <= j < |s.dev| ==> FilledAt(s, s', n, lo, hi, j)
  }

  ghost predicate FilledAt(s: State, s': State, n: nat, lo: nat, hi: nat, j: nat)
    requires j < |s.dev| == |s'.dev|
  {
    if lo <= j < hi then
      if j in s.mask then Gave(s.dev[j].ring, s'.dev[j].ring, [Current(s', j)], n)
      else Gave(s.dev[j].ring, s'.dev[j].ring, [], n) && Current(s', j) == 0
    else
      Gave(s.dev[j].ring, s'.dev[j].ring, [], n) && Current(s', j) == Current(s, j)
  }

  lemma FilledThen(s: State, t: State, u: State, n: nat, m: nat, i: nat)
    requires Filled(s, t, n, 0, i) && Filled(t, u, m, i, i + 1)
    ensures Filled(s, u, n + m, 0, i + 1)
  {
    hide Gave, Current;
    var total, hi := n + m, i + 1;
    forall j | 0 <= j < |s.dev|
      ensures FilledAt(s, u, total, 0, hi, j)
    {
      assert FilledAt(s, t, n, 0, i, j) && FilledAt(t, u, m, i, i + 1, j);
      var r, r1, r2 := s.dev[j].ring, t.dev[j].ring, u.dev[j].ring;
      var none: seq<int>, took := [], [Current(u, j)];
      assert took + none == took && none + took == took && none + none == none;
      if j !in s.mask || j > i {
        GaveThen(r, r1, r2, none, none, n, m);
      } else if j == i {
        GaveThen(r, r1, r2, none, took, n, m);
      } else {
        GaveThen(r, r1, r2, took, none, n, m);
      }
    }
  }

  lemma StampFills(s: State, t: State, n: nat, tick: nat)
    requires Undisturbed(s, t, n) && t.fi < |t.frames|
    ensures Filled(s, t.(worker := Popping(0), frames := SetTimestamp(t.frames, t.fi, tick)), n, 0, 0)
    ensures |SetTimestamp(t.frames, t.fi, tick)| == |t.frames|
    ensures SetTimestamp(t.frames, t.fi, tick)[t.fi].timestamp == tick
  {
  }

  /** Frame `f` holds the oldest sample of every masked ring, which gave just that, and 0 elsewhere. */
  ghost predicate Framed(s: State, s': State, n: nat, f: Frame) {
    && |s'.dev| == |s.dev|
    && forall j :: 0 <= j < |s.dev| ==>
         if j in s.mask then Gave(s.dev[j].ring, s'.dev[j].ring, [Channel(f, j)], n) else Channel(f, j) == 0
  }

  /** Ring `j` has given `k` samples from its front and gained at most `n` at its end. */
  ghost predicate Drained(s: State, s': State, n: nat, k: nat, j: nat)
    requires j < |s.dev| == |s'.dev|
  {
    exists out :: |out| == k && Gave(s.dev[j].ring, s'.dev[j].ring, out, n)
  }

  lemma DrainedThen(s: State, t: State, u: State, n: nat, m: nat, k: nat, l: nat)
    requires |u.dev| == |t.dev| == |s.dev| && u.mask == t.mask == s.mask
    requires forall j :: j in s.mask && j < |s.dev| ==> Drained(s, t, n, k, j)
    requires forall j :: j in s.mask && j < |s.dev| ==> Drained(t, u, m, l, j)
    ensures forall j :: j in s.mask && j < |s.dev| ==> Drained(s, u, n + m, k + l, j)
  {
    var total, gave := n + m, k + l;
    forall j | j in s.mask && j < |s.dev|
      ensures Drained(s, u, total, gave, j)
    {
      assert Drained(s, t, n, k, j) && Drained(t, u, m, l, j);
      var out1 :| |out1| == k && Gave(s.dev[j].ring, t.dev[j].ring, out1, n);
      var out2 :| |out2| == l && Gave(t.dev[j].ring, u.dev[j].ring, out2, m);
      GaveThen(s.dev[j].ring, t.dev[j].ring, u.dev[j].ring, out1, out2, n, m);
    }
  }

  /** Not fewer than the least number of samples a masked ring had. */
  ghost predicate TookEnough(s: State, k: nat) {
    exists j :: j in s.mask && j < |s.dev| && |s.dev[j].ring| <= k
  }

  /** `k` is the least number of samples in a masked ring, and each gave `k`. */
  ghost predicate TookMinimum(s: State, s': State, k: nat)
    requires |s'.dev| == |s.dev|
  {
    && (forall j :: j in s.mask && j < |s.dev| ==>
          k <= |s.dev[j].ring| && s'.dev[j].ring == s.dev[j].ring[k..])
    && (exists j :: j in s.mask && j < |s.dev| && |s.dev[j].ring| == k)
  }

  /** The three sections of ads128x_acq_isr, one after the other. */
  ghost function WholeIsr(c: Config, s: State, d: nat, v: int): State
    requires Enabled(c, s, IsrRead(d, v))
  {
    PushThenRelease(c, Apply(c, s, IsrRead(d, v)), d)
  }

  ghost function PushThenRelease(c: Config, s: State, d: nat): State
    requires Enabled(c, s, IsrPush(d))
  {
    Apply(c, Apply(c, s, IsrPush(d)), IsrRelease(d))
  }

  lemma IsrWhole(c: Config, s: State, d: nat, v: int)
    requires !c.aggregated && d < |s.dev| == c.devices && s.dev[d].isr == Idle
    ensures Enabled(c, s, IsrRead(d, v))
    ensures var s' := WholeIsr(c, s, d, v);
            && Interrupted(c, s, s', {d}, d + 1, seq(c.devices, _ => v))
            && s' == s.(dev := s'.dev, sem := Release(c, s.sem))
  {
  }

  /** What the aggregated interrupt does about the device it has come to. */
  ghost function AggTurn(c: Config, s: State, v: int): State
    requires s.agg.AggAt? && s.agg.i < |s.dev|
  {
    if s.agg.i in s.mask then Apply(c, Apply(c, s, AggRead(v)), AggPush) else Apply(c, s, AggSkip)
  }

  /** The aggregated interrupt that began in state `s0` has dealt with the devices below `i`. */
  ghost predicate OnItsWay(c: Config, s0: State, s: State, i: nat, value: seq<int>) {
    && s.agg.AggAt? && s.agg.i == i && s == s0.(dev := s.dev, agg := s.agg)
    && Interrupted(c, s0, s, s0.mask, i, value)
  }

  lemma AggWhole(c: Config, s0: State, s: State, i: nat, value: seq<int>)
    requires i < |s.dev| && OnItsWay(c, s0, s, i, value)
    ensures i < |value| && s.agg.AggAt? && s.agg.i == i
    ensures OnItsWay(c, s0, AggTurn(c, s, value[i]), i + 1, value)
  {
  }

  lemma NoneDrained(s: State)
    ensures forall j :: 0 <= j < |s.dev| ==> Drained(s, s, 0, 0, j)
  {
    forall j | 0 <= j < |s.dev|
      ensures Drained(s, s, 0, 0, j)
    {
      assert Gave(s.dev[j].ring, s.dev[j].ring, [], 0);
    }
  }

  lemma DrainShrinks(s: State, s': State, n: nat, k: nat, j: nat)
    requires j < |s.dev| == |s'.dev| && Drained(s, s', n, k, j)
    ensures |s'.dev[j].ring| + k <= |s.dev[j].ring| + n
  {
  }

  lemma MinimumTaken(s: State, s': State, n: nat, k: nat)
    requires |s'.dev| == |s.dev| && s'.mask == s.mask && SomeEmpty(s')
    requires forall j :: j in s.mask && j < |s.dev| ==> Drained(s, s', n, k, j)
    ensures TookEnough(s, k)
    ensures n == 0 ==> TookMinimum(s, s', k)
  {
    var j :| j in s'.mask && j < |s'.dev| && s'.dev[j].ring == [];
    assert Drained(s, s', n, k, j);
    if n == 0 {
      forall i | i in s.mask && i < |s.dev|
        ensures k <= |s.dev[i].ring| && s'.dev[i].ring == s.dev[i].ring[k..]
      {
        assert Drained(s, s', n, k, i);
        var out :| |out| == k && Gave(s.dev[i].ring, s'.dev[i].ring, out, 0);
        assert s.dev[i].ring == out + s'.dev[i].ring;
      }
    }
  }

  lemma LookedDrains(s: State, t: State, n: nat)
    requires Looked(s, t, n)
    ensures |t.dev| == |s.dev| && t.mask == s.mask && t.made == s.made && t.fi == s.fi && t.frames == s.frames
    ensures forall j :: 0 <= j < |s.dev| ==> Gave(s.dev[j].ring, t.dev[j].ring, [], n)
    ensures forall j :: 0 <= j < |s.dev| ==> Drained(s, t, n, 0, j)
  {
    forall j | 0 <= j < |s.dev|
      ensures Drained(s, t, n, 0, j)
    {
      assert Gave(s.dev[j].ring, t.dev[j].ring, [], n);
    }
  }

  lemma FilledDrains(s: State, t: State, u: State, n: nat, m: nat, devices: nat)
    requires |t.dev| == |s.dev| == devices && t.mask == s.mask && t.fi == s.fi
    requires forall j :: 0 <= j < |s.dev| ==> Gave(s.dev[j].ring, t.dev[j].ring, [], n)
    requires Filled(t, u, m, 0, devices)
    ensures |u.dev| == |t.dev| && u.mask == t.mask && u.made == t.made
    ensures u.fi < |u.frames| && Framed(s, u, n + m, u.frames[u.fi])
    ensures forall j :: j in u.mask && j < |s.dev| ==> Drained(s, u, n + m, 1, j)
  {
    hide Gave;
    var total, f := n + m, u.frames[u.fi];
    forall j | 0 <= j < |s.dev|
      ensures if j in s.mask then Gave(s.dev[j].ring, u.dev[j].ring, [Channel(f, j)], total) else Channel(f, j) == 0
      ensures j in s.mask ==> Drained(s, u, total, 1, j)
    {
      assert FilledAt(t, u, m, 0, devices, j);
      if j in s.mask {
        var out := [Channel(f, j)];
        assert [] + out == out;
        GaveThen(s.dev[j].ring, t.dev[j].ring, u.dev[j].ring, [], out, n, m);
      }
    }
  }

  /** What a pop by the worker changes. */
  lemma PopEffect(c: Config, s: State)
    requires Enabled(c, s, PopRing)
    ensures var i := s.worker.i;
            var u := Apply(c, s, PopRing);
            && u == s.(dev := u.dev, frames := u.frames, worker := Popping(i + 1))
            && u.frames == SetChannel(s.frames, s.fi, i, if i in s.mask then HeadOrZero(s.dev[i].ring) else 0)
            && |u.dev| == |s.dev| && forall j :: 0 <= j < |s.dev| ==> u.dev[j].isr == s.dev[j].isr
  {
  }

  lemma StoreEffect(c: Config, s: State)
    requires Enabled(c, s, StoreFrame)
    ensures var u := Apply(c, s, StoreFrame);
            var full := s.fi + 1 >= s.batch;
            && u == s.(fi := if full then 0 else s.fi + 1, made := s.made + 1, worker := Checking(0),
                       published := u.published, session := u.session)
            && u.published == s.published + if full then [Publish(s.mask, Front(s.frames, s.fi + 1))] else []
  {
  }

  lemma WholeFront(frames: seq<Frame>)
    ensures Front(frames, |frames|) == frames
  {
  }

  lemma PopFills(c: Config, s: State, t: State, n: nat)
    requires Undisturbed(s, t, n) && t.worker.Popping? && t.worker.i < |t.dev|
    requires t.worker.i in t.mask ==> t.dev[t.worker.i].ring != []
    requires t.fi < |t.frames| && t.worker.i < |t.frames[t.fi].ch|
    ensures var i := s.worker.i;
            var u := Apply(c, t, PopRing);
            && u.worker == Popping(i + 1) && Filled(s, u, n, i, i + 1)
            && |u.frames| == |s.frames| && u.frames[s.fi].timestamp == s.frames[s.fi].timestamp
  {
  }
}
