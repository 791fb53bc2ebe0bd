/** The multi-chip acquisition pipeline as a state machine (src/ads128x/ads128x_acq.c).

    Every event below is one section of code that nothing can interrupt half-way: a ring
    operation under its spinlock, a semaphore operation, or a stretch of code that touches only
    variables of its own thread. Interrupts, worker and controller interleave freely between
    events, so a run of the machine is any schedule of the driver.
 */
module Pipeline {
  import opened Rings

  const MAX_BATCH := 16

  /** `devices` is ADS128X_MAX_DEVICES and `depth` ADS128X_ACQ_RING_DEPTH; `semMax` is the
      largest value the counting semaphore takes (a release beyond it is lost). `aggregated`
      says how the DRDY lines are wired: each to its own `ads128x_acq_isr`, or all of them to
      the single `ads128x_acq_isr_all`. */
  datatype Config = Config(devices: nat, depth: nat, semMax: nat, aggregated: bool)

  /** One interrupt reading: the sample, and whether the ring had room for it. */
  datatype Reading = Reading(v: int, kept: bool)

  /** Where a device's own DRDY interrupt stands. */
  datatype Isr = Idle | Holding(v: int) | Pushed

  /** Where the aggregated interrupt stands: at device `i`, with or without a sample of that
      device in hand. `pushed` records that it has already filled some ring. */
  datatype AggIsr =
    | AggIdle
    | AggAt(i: nat, pushed: bool)
    | AggHolding(i: nat, v: int, pushed: bool)

  /** `ring` is the queue a `Rings.Ring` refines. `samples` and `offers` are history: every sample
      an interrupt read from the chip, and every push with its outcome. */
  datatype Device = Device(ring: seq<int>, isr: Isr, samples: seq<int>, offers: seq<Reading>)

  datatype Frame = Frame(timestamp: nat, ch: seq<int>)

  /** One `ddaq_publish` call, with the device mask of the session that made it. */
  datatype Publish = Publish(mask: set<nat>, frames: seq<Frame>)

  /** The worker's program counter. `NoThread` is `acq_thread == RT_NULL`. */
  datatype Worker =
    | NoThread
    | Created
    | LoopHead
    | Taking
    | Checking(i: nat)
    | Popping(i: nat)
    | Flushing
    | Exiting

  /** How far `ads128x_acq_start` has come. */
  datatype Controller = CtlIdle | CtlSetUp | CtlSemReady

  /** `published` is the log of all publishes and `session` of those the latest worker made;
      `made` counts the frames that worker has assembled. `seen` holds, for each device, how many
      pushes it had attempted when the worker last found a masked ring empty. `armed` records
      whether the semaphore was initialised in time (see `Wakeup`). */
  datatype State = State(
    dev: seq<Device>,
    agg: AggIsr,
    sem: nat,
    worker: Worker,
    ctl: Controller,
    stop: bool,
    mask: set<nat>,
    batch: nat,
    frames: seq<Frame>,
    fi: nat,
    published: seq<Publish>,
    session: seq<Publish>,
    made: nat,
    seen: seq<nat>,
    armed: bool)

  function Init(c: Config): State {
    State(seq(c.devices, _ => Device([], Idle, [], [])), AggIdle, 0, NoThread, CtlIdle, false,
          {}, 1, [], 0, [], [], 0, seq(c.devices, _ => 0), false)
  }

  datatype Event =
    // a device's own DRDY interrupt
    | IsrRead(d: nat, v: int)
    | IsrPush(d: nat)
    | IsrRelease(d: nat)
    // the aggregated DRDY interrupt
    | AggEnter
    | AggSkip
    | AggRead(v: int)
    | AggPush
    | AggRelease
    // the controller
    | StartSetUp(newMask: set<nat>, newBatch: nat)
    | SemInit
    | ThreadCreate(ok: bool)
    | StopRequest
    // the worker
    | Malloc(content: seq<Frame>)
    | MallocFail
    | LoopTest
    | TakeOk
    | TakeTimeout
    | CheckRing
    | Stamp(tick: nat)
    | PopRing
    | StoreFrame
    | FlushRest
    | ThreadExit

  // ---------------------------------------------------------------------------
  // Pieces of the steps

  function Release(c: Config, sem: nat): nat {
    if sem < c.semMax then sem + 1 else sem
  }

  function PushInto(c: Config, d: Device, v: int): Device {
    d.(ring := Offer(c.depth, d.ring, v), offers := d.offers + [Reading(v, |d.ring| < c.depth)])
  }

  /** `frames[fi].ch[i] = v`. Writing outside the allocation has no meaning; that it never
      happens is `Sessions.StoresInBounds`. */
  function SetChannel(frames: seq<Frame>, fi: nat, i: nat, v: int): seq<Frame> {
    if fi < |frames| && i < |frames[fi].ch| then
      frames[fi := frames[fi].(ch := frames[fi].ch[i := v])]
    else
      frames
  }

  function SetTimestamp(frames: seq<Frame>, fi: nat, tick: nat): seq<Frame> {
    if fi < |frames| then frames[fi := frames[fi].(timestamp := tick)] else frames
  }

  /** The first `n` frames of the buffer. */
  function Front(frames: seq<Frame>, n: nat): seq<Frame> {
    if n <= |frames| then frames[..n] else frames
  }

  /** Some push has happened whose semaphore release is still to come. */
  ghost predicate InFlight(s: State) {
    || (exists i :: 0 <= i < |s.dev| && s.dev[i].isr == Pushed)
    || (!s.agg.AggIdle? && s.agg.pushed)
  }

  /** Every masked ring has a sample: a frame can be assembled. */
  ghost predicate FrameReady(s: State) {
    forall i :: i in s.mask && i < |s.dev| ==> s.dev[i].ring != []
  }

  // ---------------------------------------------------------------------------
  // Steps

  ghost predicate Enabled(c: Config, s: State, ev: Event) {
    match ev
    case IsrRead(d, v) => !c.aggregated && d < |s.dev| && s.dev[d].isr == Idle
    case IsrPush(d) => d < |s.dev| && s.dev[d].isr.Holding?
    case IsrRelease(d) => d < |s.dev| && s.dev[d].isr == Pushed
    case AggEnter => c.aggregated && s.agg == AggIdle && s.worker != NoThread
    case AggSkip => s.agg.AggAt? && s.agg.i < |s.dev| && s.agg.i !in s.mask
    case AggRead(v) => s.agg.AggAt? && s.agg.i < |s.dev| && s.agg.i in s.mask
    case AggPush => s.agg.AggHolding? && s.agg.i < |s.dev|
    case AggRelease => s.agg.AggAt? && s.agg.i == |s.dev|
    case StartSetUp(m, b) =>
      && s.ctl == CtlIdle && s.worker == NoThread
      && 1 <= b <= MAX_BATCH && m != {} && (forall i :: i in m ==> i < c.devices)
    case SemInit => s.ctl == CtlSetUp
    case ThreadCreate(ok) => s.ctl == CtlSemReady
    // The worker may leave between the test of acq_thread and the write of acq_stop.
    case StopRequest => s.ctl == CtlIdle
    case Malloc(content) =>
      && s.worker == Created && |content| == s.batch
      && (forall k :: 0 <= k < |content| ==> |content[k].ch| == c.devices)
    case MallocFail => s.worker == Created
    case LoopTest => s.worker == LoopHead
    case TakeOk => s.worker == Taking && s.sem > 0
    case TakeTimeout => s.worker == Taking && s.sem == 0
    case CheckRing => s.worker.Checking? && s.worker.i < |s.dev|
    case Stamp(t) => s.worker.Checking? && s.worker.i == |s.dev|
    case PopRing => s.worker.Popping? && s.worker.i < |s.dev|
    case StoreFrame => s.worker.Popping? && s.worker.i == |s.dev|
    case FlushRest => s.worker == Flushing
    case ThreadExit => s.worker == Exiting
  }

  ghost function Apply(c: Config, s: State, ev: Event): State
    requires Enabled(c, s, ev)
  {
    match ev
    case IsrRead(d, v) =>
      s.(dev := s.dev[d := s.dev[d].(isr := Holding(v), samples := s.dev[d].samples + [v])])
    case IsrPush(d) =>
      s.(dev := s.dev[d := PushInto(c, s.dev[d], s.dev[d].isr.v).(isr := Pushed)])
    case IsrRelease(d) =>
      s.(dev := s.dev[d := s.dev[d].(isr := Idle)], sem := Release(c, s.sem))
    case AggEnter =>
      s.(agg := AggAt(0, false))
    case AggSkip =>
      s.(agg := AggAt(s.agg.i + 1, s.agg.pushed))
    case AggRead(v) =>
      var d := s.agg.i;
      s.(dev := s.dev[d := s.dev[d].(samples := s.dev[d].samples + [v])],
         agg := AggHolding(d, v, s.agg.pushed))
    case AggPush =>
      var d := s.agg.i;
      s.(dev := s.dev[d := PushInto(c, s.dev[d], s.agg.v)], agg := AggAt(d + 1, true))
    case AggRelease =>
      s.(agg := AggIdle, sem := Release(c, s.sem))
    case StartSetUp(m, b) =>
      s.(mask := m, batch := b, stop := false, ctl := CtlSetUp)
    case SemInit =>
      s.(sem := 0, ctl := CtlSemReady, armed := !FrameReady(s) || InFlight(s))
    case ThreadCreate(ok) =>
      if ok then s.(ctl := CtlIdle, worker := Created, session := [], made := 0)
      else s.(ctl := CtlIdle)
    case StopRequest => s.(stop := true)
    case Malloc(content) => s.(frames := content, fi := 0, worker := LoopHead)
    case MallocFail => s.(worker := NoThread)
    case LoopTest => s.(worker := if s.stop then Flushing else Taking)
    case TakeOk => s.(sem := (s.sem - 1) as nat, worker := Checking(0))
    case TakeTimeout => s.(worker := Checking(0))
    case CheckRing =>
      var i := s.worker.i;
      if i in s.mask && s.dev[i].ring == [] then
        s.(worker := LoopHead, seen := PushCounts(s))
      else
        s.(worker := Checking(i + 1))
    case Stamp(t) => s.(frames := SetTimestamp(s.frames, s.fi, t), worker := Popping(0))
    case PopRing =>
      var i := s.worker.i;
      if i in s.mask then
        s.(dev := s.dev[i := s.dev[i].(ring := Rest(s.dev[i].ring))],
           frames := SetChannel(s.frames, s.fi, i, HeadOrZero(s.dev[i].ring)),
           worker := Popping(i + 1))
      else
        s.(frames := SetChannel(s.frames, s.fi, i, 0), worker := Popping(i + 1))
    case StoreFrame =>
      if Stored(s).fi >= s.batch then PublishFrames(Stored(s)) else Stored(s)
    case FlushRest =>
      var s' := s.(worker := Exiting);
      if s'.fi > 0 then PublishFrames(s') else s'
    case ThreadExit => s.(frames := [], worker := NoThread)
  }

  /** The frame is complete and `fi` has passed it; the batch may be full now. */
  function Stored(s: State): State {
    s.(fi := s.fi + 1, made := s.made + 1, worker := Checking(0))
  }

  /** `ddaq_publish(acq_topic_id, frames, fi * frame_size)`, after which `fi` starts again. */
  function PublishFrames(s: State): State {
    var p := Publish(s.mask, Front(s.frames, s.fi));
    s.(published := s.published + [p], session := s.session + [p], fi := 0)
  }

  ghost function PushCounts(s: State): seq<nat> {
    seq(|s.dev|, i requires 0 <= i < |s.dev| => |s.dev[i].offers|)
  }

  predicate Interrupt(ev: Event) {
    || ev.IsrRead? || ev.IsrPush? || ev.IsrRelease?
    || ev.AggEnter? || ev.AggSkip? || ev.AggRead? || ev.AggPush? || ev.AggRelease?
  }

  predicate Control(ev: Event) {
    ev.StartSetUp? || ev.SemInit? || ev.ThreadCreate? || ev.StopRequest?
  }

  /** Interrupts touch the rings, the semaphore and nothing else. */
  lemma InterruptFrame(c: Config, s: State, ev: Event)
    requires Enabled(c, s, ev) && Interrupt(ev)
    ensures var s' := Apply(c, s, ev);
            s' == s.(dev := s'.dev, agg := s'.agg, sem := s'.sem) && |s'.dev| == |s.dev|
  {
  }

  /** The controller leaves the rings, the frames and the log alone. */
  lemma ControlFrame(c: Config, s: State, ev: Event)
    requires Enabled(c, s, ev) && Control(ev)
    ensures var s' := Apply(c, s, ev);
            && s' == s.(worker := s'.worker, ctl := s'.ctl, stop := s'.stop, mask := s'.mask,
                        batch := s'.batch, sem := s'.sem, armed := s'.armed,
                        session := s'.session, made := s'.made)
            && (ev == ThreadCreate(true) ==> s'.worker == Created && s'.session == [] && s'.made == 0)
            && (ev != ThreadCreate(true) ==>
                  s'.worker == s.worker && s'.session == s.session && s'.made == s.made)
            && (s.worker != NoThread ==> s'.mask == s.mask && s'.batch == s.batch)
  {
  }

  /** Apart from storing a frame and publishing the rest, the worker only moves on. */
  lemma WorkerFrame(c: Config, s: State, ev: Event)
    requires Enabled(c, s, ev) && !Interrupt(ev) && !Control(ev)
    requires !ev.StoreFrame? && !ev.FlushRest?
    ensures var s' := Apply(c, s, ev);
            && s' == s.(dev := s'.dev, frames := s'.frames, fi := s'.fi, worker := s'.worker,
                        sem := s'.sem, seen := s'.seen)
            && |s'.dev| == |s.dev|
            && (!ev.Malloc? ==> s'.fi == s.fi)
            && (ev.ThreadExit? || ev.MallocFail? <==> s'.worker == NoThread)
            && (ev.Malloc? ==> s.worker == Created && s'.worker == LoopHead && s'.fi == 0)
            && (s.worker == Created ==> ev.Malloc? || ev.MallocFail?)
            && (s.worker == Exiting ==> ev.ThreadExit?)
            && s'.worker != Created && s'.worker != Exiting
            && s.worker != NoThread
  {
  }

  // ---------------------------------------------------------------------------
  // Runs

  /** Each event of the sequence is possible when its turn comes. */
  ghost predicate Legal(c: Config, s: State, evs: seq<Event>)
    decreases |evs|, 0
  {
    evs == [] ||
    var before := evs[..|evs| - 1];
    Legal(c, s, before) && Enabled(c, After(c, s, before), evs[|evs| - 1])
  }

  ghost function After(c: Config, s: State, evs: seq<Event>): State
    requires Legal(c, s, evs)
    decreases |evs|, 1
  {
    if evs == [] then s
    else Apply(c, After(c, s, evs[..|evs| - 1]), evs[|evs| - 1])
  }

  /** A run may be extended by one more event. */
  lemma Extend(c: Config, s: State, evs: seq<Event>, ev: Event)
    requires Legal(c, s, evs) && Enabled(c, After(c, s, evs), ev)
    ensures Legal(c, s, evs + [ev])
    ensures After(c, s, evs + [ev]) == Apply(c, After(c, s, evs), ev)
  {
    assert (evs + [ev])[..|evs + [ev]| - 1] == evs;
  }
}
