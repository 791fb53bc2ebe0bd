/** Where every sample goes: from the interrupt that read it, through ring and frame, to the
    publish that carries it. Nothing is duplicated, reordered or lost once a ring took it. */
module Streams {
  import opened Rings
  import opened Pipeline
  import opened Sessions

  /** The samples the ring took, in order. */
  ghost function Kept(offers: seq<Reading>): seq<int> {
    if offers == [] then []
    else
      var last := offers[|offers| - 1];
      Kept(offers[..|offers| - 1]) + (if last.kept then [last.v] else [])
  }

  function Channel(f: Frame, i: nat): int {
    if i < |f.ch| then f.ch[i] else 0
  }

  /** Channel `i` of a sequence of frames. */
  function Column(frames: seq<Frame>, i: nat): seq<int> {
    seq(|frames|, k requires 0 <= k < |frames| => Channel(frames[k], i))
  }

  /** Channel `i` of every published frame of every session that sampled device `i`. */
  ghost function Delivered(ps: seq<Publish>, i: nat): seq<int> {
    if ps == [] then []
    else
      var last := ps[|ps| - 1];
      Delivered(ps[..|ps| - 1], i) + (if i in last.mask then Column(last.frames, i) else [])
  }

  /** The sample of device `i` the worker has put into the frame it is filling. */
  ghost function PartFilled(s: State, i: nat): seq<int> {
    if s.worker.Popping? && i < s.worker.i && s.fi < |s.frames| then [Channel(s.frames[s.fi], i)]
    else []
  }

  /** Samples of device `i` popped but not published: the waiting batch, then the part frame. */
  ghost function InHand(s: State, i: nat): seq<int> {
    if i in s.mask then Column(Front(s.frames, s.fi), i) + PartFilled(s, i) else []
  }

  lemma KeptSnoc(offers: seq<Reading>, r: Reading)
    ensures Kept(offers + [r]) == Kept(offers) + (if r.kept then [r.v] else [])
  {
    assert (offers + [r])[..|offers + [r]| - 1] == offers;
  }

  lemma DeliveredSnoc(ps: seq<Publish>, p: Publish, i: nat)
    ensures Delivered(ps + [p], i) == Delivered(ps, i) + (if i in p.mask then Column(p.frames, i) else [])
  {
    assert (ps + [p])[..|ps + [p]| - 1] == ps;
  }

  // ---------------------------------------------------------------------------
  // The rings the worker has checked stay non-empty until it pops them

  ghost predicate Checked(s: State) {
    && (s.worker.Checking? ==> forall j :: j in s.mask && j < s.worker.i && j < |s.dev| ==> s.dev[j].ring != [])
    && (s.worker.Popping? ==> forall j :: j in s.mask && s.worker.i <= j < |s.dev| ==> s.dev[j].ring != [])
  }

  /** Only the worker takes samples out of a ring. */
  lemma InterruptOnlyAdds(c: Config, s: State, ev: Event, i: nat)
    requires Enabled(c, s, ev) && Interrupt(ev) && i < |s.dev|
    ensures var s' := Apply(c, s, ev);
            || (s'.dev[i].ring == s.dev[i].ring && s'.dev[i].offers == s.dev[i].offers)
            || (exists v :: s'.dev[i].ring == Offer(c.depth, s.dev[i].ring, v)
                   && s'.dev[i].offers == s.dev[i].offers + [Reading(v, |s.dev[i].ring| < c.depth)])
  {
  }

  lemma WorkerChecked(c: Config, s: State, ev: Event)
    requires Shape(c, s) && Checked(s) && Enabled(c, s, ev) && !Interrupt(ev) && !Control(ev)
    ensures Checked(Apply(c, s, ev))
  {
  }

  lemma CheckedStep(c: Config, s: State, ev: Event)
    requires Shape(c, s) && Checked(s) && Enabled(c, s, ev)
    ensures Checked(Apply(c, s, ev))
  {
    hide Apply;
    if Interrupt(ev) {
      InterruptFrame(c, s, ev);
      forall j | 0 <= j < |s.dev| && s.dev[j].ring != []
        ensures Apply(c, s, ev).dev[j].ring != []
      {
        InterruptOnlyAdds(c, s, ev, j);
      }
    } else if Control(ev) {
      ControlFrame(c, s, ev);
    } else {
      WorkerChecked(c, s, ev);
    }
  }

  lemma {:induction false} CheckedHolds(c: Config, evs: seq<Event>)
    requires Legal(c, Init(c), evs)
    ensures Checked(After(c, Init(c), evs))
    decreases |evs|
  {
    if evs != [] {
      var before := evs[..|evs| - 1];
      ShapeHolds(c, before);
      CheckedHolds(c, before);
      CheckedStep(c, After(c, Init(c), before), evs[|evs| - 1]);
    }
  }

  // ---------------------------------------------------------------------------
  // Conservation

  ghost predicate ConservedAt(s: State, i: nat)
    requires i < |s.dev|
  {
    Kept(s.dev[i].offers) == Delivered(s.published, i) + InHand(s, i) + s.dev[i].ring
  }

  lemma InterruptConserves(c: Config, s: State, ev: Event, i: nat)
    requires Shape(c, s) && i < |s.dev| && ConservedAt(s, i)
    requires Enabled(c, s, ev) && Interrupt(ev)
    ensures |Apply(c, s, ev).dev| == |s.dev| && ConservedAt(Apply(c, s, ev), i)
  {
    hide Apply, Delivered, Column;
    var s' := Apply(c, s, ev);
    InterruptFrame(c, s, ev);
    InterruptOnlyAdds(c, s, ev, i);
    assert InHand(s', i) == InHand(s, i);
    if s'.dev[i].offers != s.dev[i].offers {
      var v :| s'.dev[i].ring == Offer(c.depth, s.dev[i].ring, v)
        && s'.dev[i].offers == s.dev[i].offers + [Reading(v, |s.dev[i].ring| < c.depth)];
      KeptSnoc(s.dev[i].offers, Reading(v, |s.dev[i].ring| < c.depth));
    }
  }

  lemma ControlConserves(c: Config, s: State, ev: Event, i: nat)
    requires Shape(c, s) && i < |s.dev| && ConservedAt(s, i)
    requires Enabled(c, s, ev) && Control(ev)
    ensures Apply(c, s, ev).dev == s.dev && ConservedAt(Apply(c, s, ev), i)
  {
    var s' := Apply(c, s, ev);
    ControlFrame(c, s, ev);
    if s.worker == NoThread {
      assert s.fi == 0;
    }
    assert InHand(s', i) == InHand(s, i);
  }

  lemma StampConserves(c: Config, s: State, t: nat, i: nat)
    requires Shape(c, s) && i < |s.dev| && ConservedAt(s, i)
    requires Enabled(c, s, Stamp(t))
    ensures Apply(c, s, Stamp(t)).dev == s.dev && ConservedAt(Apply(c, s, Stamp(t)), i)
  {
    var s' := Apply(c, s, Stamp(t));
    assert s'.frames[..s.fi] == s.frames[..s.fi];
    assert InHand(s', i) == InHand(s, i);
  }

  /** Moving one sample from the ring to the frame. */
  lemma Moved(d: seq<int>, h: seq<int>, x: int, r: seq<int>)
    ensures d + (h + [x]) + r == d + h + ([x] + r)
  {
  }

  /** What the worker holds after writing channel `s.worker.i` of its frame. */
  lemma PopInHand(s: State, v: int, i: nat)
    requires s.worker.Popping? && s.fi < |s.frames| && s.worker.i < |s.frames[s.fi].ch|
    ensures var s' := s.(frames := SetChannel(s.frames, s.fi, s.worker.i, v), worker := Popping(s.worker.i + 1));
            InHand(s', i) == InHand(s, i) + (if i == s.worker.i && i in s.mask then [v] else [])
  {
    var j := s.worker.i;
    var s' := s.(frames := SetChannel(s.frames, s.fi, j, v), worker := Popping(j + 1));
    assert s'.frames[..s.fi] == s.frames[..s.fi];
  }

  /** The worker is about to write inside its buffer, with a sample there if one is needed. */
  ghost predicate ReadyToPop(s: State) {
    && s.worker.Popping?
    && s.worker.i < |s.dev|
    && s.fi < |s.frames| && s.worker.i < |s.frames[s.fi].ch|
    && (s.worker.i in s.mask ==> s.dev[s.worker.i].ring != [])
  }

  lemma PopConservesOwn(c: Config, s: State)
    requires ReadyToPop(s) && ConservedAt(s, s.worker.i) && s.worker.i in s.mask
    ensures |Apply(c, s, PopRing).dev| == |s.dev| && ConservedAt(Apply(c, s, PopRing), s.worker.i)
  {
    var s' := Apply(c, s, PopRing);
    var i := s.worker.i;
    var v := s.dev[i].ring[0];
    PopInHand(s, v, i);
    assert InHand(s', i) == InHand(s, i) + [v];
    assert s.dev[i].ring == [v] + s'.dev[i].ring;
    Moved(Delivered(s.published, i), InHand(s, i), v, s'.dev[i].ring);
  }

  lemma PopConservesOther(c: Config, s: State, i: nat)
    requires ReadyToPop(s) && i < |s.dev| && ConservedAt(s, i)
    requires i != s.worker.i || i !in s.mask
    ensures |Apply(c, s, PopRing).dev| == |s.dev| && ConservedAt(Apply(c, s, PopRing), i)
  {
    var s' := Apply(c, s, PopRing);
    PopInHand(s, if s.worker.i in s.mask then HeadOrZero(s.dev[s.worker.i].ring) else 0, i);
    assert InHand(s', i) == InHand(s, i);
    assert s'.dev[i] == s.dev[i];
  }

  lemma PopConserves(c: Config, s: State, i: nat)
    requires Shape(c, s) && Checked(s) && i < |s.dev| && ConservedAt(s, i)
    requires Enabled(c, s, PopRing)
    ensures |Apply(c, s, PopRing).dev| == |s.dev| && ConservedAt(Apply(c, s, PopRing), i)
  {
    if i == s.worker.i && i in s.mask {
      PopConservesOwn(c, s);
    } else {
      PopConservesOther(c, s, i);
    }
  }

  /** The frame just filled joins the waiting ones. */
  lemma ColumnSnoc(frames: seq<Frame>, n: nat, i: nat)
    requires n < |frames|
    ensures Column(frames[..n + 1], i) == Column(frames[..n], i) + [Channel(frames[n], i)]
  {
  }

  /** The full frame counts as waiting from the moment `fi` has passed it. */
  lemma StoredConserves(s: State, i: nat)
    requires s.worker.Popping? && i < s.worker.i && s.fi < |s.frames|
    requires i < |s.dev| && ConservedAt(s, i)
    ensures ConservedAt(Stored(s), i)
  {
    ColumnSnoc(s.frames, s.fi, i);
    assert InHand(Stored(s), i) == InHand(s, i);
  }

  /** A publish moves the whole waiting batch to the log. */
  lemma PublishConserves(s: State, i: nat)
    requires !s.worker.Popping? && s.fi <= |s.frames| && i < |s.dev| && ConservedAt(s, i)
    ensures ConservedAt(PublishFrames(s), i)
  {
    hide *;
    PublishMoves(s, i);
    NothingWaiting(PublishFrames(s), i);
    Delivery(s, PublishFrames(s), i);
  }

  lemma PublishMoves(s: State, i: nat)
    requires !s.worker.Popping? && s.fi <= |s.frames|
    ensures PublishFrames(s).dev == s.dev
    ensures PublishFrames(s).fi == 0 && PublishFrames(s).worker == s.worker
    ensures Delivered(PublishFrames(s).published, i) == Delivered(s.published, i) + InHand(s, i)
  {
    hide Kept, Delivered, Column;
    DeliveredSnoc(s.published, Publish(s.mask, s.frames[..s.fi]), i);
    assert InHand(s, i) == if i in s.mask then Column(s.frames[..s.fi], i) else [];
  }

  /** What was in hand is now delivered. */
  lemma Delivery(s: State, s': State, i: nat)
    requires i < |s.dev| && s'.dev == s.dev && ConservedAt(s, i)
    requires InHand(s', i) == [] && Delivered(s'.published, i) == Delivered(s.published, i) + InHand(s, i)
    ensures ConservedAt(s', i)
  {
    hide Kept, Delivered, InHand;
    assert Delivered(s'.published, i) + [] == Delivered(s'.published, i);
  }

  lemma NothingWaiting(s: State, i: nat)
    requires s.fi == 0 && !s.worker.Popping?
    ensures InHand(s, i) == []
  {
  }

  lemma StoreConserves(c: Config, s: State, i: nat)
    requires s.worker.Popping? && s.worker.i == |s.dev| && s.fi < |s.frames|
    requires i < |s.dev| && ConservedAt(s, i)
    ensures Apply(c, s, StoreFrame).dev == s.dev && ConservedAt(Apply(c, s, StoreFrame), i)
  {
    StoredConserves(s, i);
    PublishConserves(Stored(s), i);
    assert Apply(c, s, StoreFrame) == PublishFrames(Stored(s)) || Apply(c, s, StoreFrame) == Stored(s);
  }

  lemma FlushConserves(c: Config, s: State, i: nat)
    requires s.worker == Flushing && s.fi <= |s.frames|
    requires i < |s.dev| && ConservedAt(s, i)
    ensures Apply(c, s, FlushRest).dev == s.dev && ConservedAt(Apply(c, s, FlushRest), i)
  {
    var leaving := s.(worker := Exiting);
    assert InHand(leaving, i) == InHand(s, i);
    if s.fi > 0 {
      PublishConserves(leaving, i);
    }
  }

  /** The worker's remaining events move its program counter only, or replace a buffer that
      holds nothing. */
  lemma MoveConserves(c: Config, s: State, ev: Event, i: nat)
    requires Shape(c, s) && i < |s.dev| && ConservedAt(s, i)
    requires Enabled(c, s, ev) && !Interrupt(ev) && !Control(ev)
    requires !ev.StoreFrame? && !ev.FlushRest? && !ev.Stamp? && !ev.PopRing?
    ensures Apply(c, s, ev).dev == s.dev && ConservedAt(Apply(c, s, ev), i)
  {
    hide Kept, Delivered, Column;
    assert InHand(Apply(c, s, ev), i) == InHand(s, i);
  }

  lemma ConservesStep(c: Config, s: State, ev: Event, i: nat)
    requires Shape(c, s) && Checked(s) && i < |s.dev| && ConservedAt(s, i)
    requires Enabled(c, s, ev)
    ensures |Apply(c, s, ev).dev| == |s.dev| && ConservedAt(Apply(c, s, ev), i)
  {
    hide Apply, ConservedAt;
    if Interrupt(ev) {
      InterruptConserves(c, s, ev, i);
    } else if Control(ev) {
      ControlConserves(c, s, ev, i);
    } else {
      match ev {
        case Stamp(t) => StampConserves(c, s, t, i);
        case PopRing => PopConserves(c, s, i);
        case StoreFrame => StoreConserves(c, s, i);
        case FlushRest => FlushConserves(c, s, i);
        case _ => MoveConserves(c, s, ev, i);
      }
    }
  }

  /** Stream conservation. Under every schedule, over any number of sessions and whatever their
      masks, and whether or not thread or buffer could be had: the samples device `i`'s ring
      accepted are, in order, channel `i` of the published frames, then of the unpublished
      batch, then of a partly filled frame, then what the ring still holds. */
  lemma {:induction false} Conservation(c: Config, evs: seq<Event>, i: nat)
    requires Legal(c, Init(c), evs) && i < c.devices
    ensures |After(c, Init(c), evs).dev| == c.devices
    ensures var s := After(c, Init(c), evs);
            Kept(s.dev[i].offers) == Delivered(s.published, i) + InHand(s, i) + s.dev[i].ring
    decreases |evs|
  {
    ShapeHolds(c, evs);
    if evs != [] {
      var before := evs[..|evs| - 1];
      Conservation(c, before, i);
      ShapeHolds(c, before);
      CheckedHolds(c, before);
      ConservesStep(c, After(c, Init(c), before), evs[|evs| - 1], i);
    }
  }

  // ---------------------------------------------------------------------------
  // What ends up in a frame

  ghost predicate CleanFrame(c: Config, mask: set<nat>, f: Frame) {
    |f.ch| == c.devices && forall j :: 0 <= j < |f.ch| && j !in mask ==> f.ch[j] == 0
  }

  ghost predicate CleanFrames(c: Config, mask: set<nat>, fs: seq<Frame>) {
    forall k :: 0 <= k < |fs| ==> CleanFrame(c, mask, fs[k])
  }

  ghost predicate Clean(c: Config, s: State) {
    && (forall p :: 0 <= p < |s.published| ==> CleanFrames(c, s.published[p].mask, s.published[p].frames))
    && (Buffered(s.worker) ==> CleanFrames(c, s.mask, Front(s.frames, s.fi)))
    && (s.worker.Popping? && s.fi < |s.frames| ==>
          forall j :: 0 <= j < s.worker.i && j < |s.frames[s.fi].ch| && j !in s.mask ==> s.frames[s.fi].ch[j] == 0)
  }

  lemma PopClean(c: Config, s: State)
    requires Shape(c, s) && Clean(c, s) && Enabled(c, s, PopRing)
    ensures Clean(c, Apply(c, s, PopRing))
  {
    assert Apply(c, s, PopRing).frames[..s.fi] == s.frames[..s.fi];
  }

  lemma StampClean(c: Config, s: State, t: nat)
    requires Shape(c, s) && Clean(c, s) && Enabled(c, s, Stamp(t))
    ensures Clean(c, Apply(c, s, Stamp(t)))
  {
    assert Apply(c, s, Stamp(t)).frames[..s.fi] == s.frames[..s.fi];
  }

  lemma StoreClean(c: Config, s: State)
    requires Shape(c, s) && Clean(c, s) && Enabled(c, s, StoreFrame)
    ensures Clean(c, Apply(c, s, StoreFrame))
  {
    assert CleanFrame(c, s.mask, s.frames[s.fi]);
    assert Clean(c, Stored(s));
  }

  lemma FlushClean(c: Config, s: State)
    requires Shape(c, s) && Clean(c, s) && Enabled(c, s, FlushRest)
    ensures Clean(c, Apply(c, s, FlushRest))
  {
  }

  lemma MoveClean(c: Config, s: State, ev: Event)
    requires Shape(c, s) && Clean(c, s) && Enabled(c, s, ev) && !Interrupt(ev) && !Control(ev)
    requires !ev.StoreFrame? && !ev.FlushRest? && !ev.Stamp? && !ev.PopRing?
    ensures Clean(c, Apply(c, s, ev))
  {
    var s' := Apply(c, s, ev);
    assert s'.published == s.published && s'.mask == s.mask && !s'.worker.Popping?;
    assert ev.Malloc? || !Buffered(s'.worker) || (s'.frames == s.frames && s'.fi == s.fi && Buffered(s.worker));
  }

  lemma CleanStep(c: Config, s: State, ev: Event)
    requires Shape(c, s) && Clean(c, s) && Enabled(c, s, ev)
    ensures Clean(c, Apply(c, s, ev))
  {
    hide Apply;
    if Interrupt(ev) {
      InterruptFrame(c, s, ev);
    } else if Control(ev) {
      ControlFrame(c, s, ev);
    } else {
      match ev {
        case PopRing => PopClean(c, s);
        case Stamp(t) => StampClean(c, s, t);
        case StoreFrame => StoreClean(c, s);
        case FlushRest => FlushClean(c, s);
        case _ => MoveClean(c, s, ev);
      }
    }
  }

  lemma {:induction false} CleanHolds(c: Config, evs: seq<Event>)
    requires Legal(c, Init(c), evs)
    ensures Clean(c, After(c, Init(c), evs))
    decreases |evs|
  {
    if evs != [] {
      var before := evs[..|evs| - 1];
      ShapeHolds(c, before);
      CleanHolds(c, before);
      CleanStep(c, After(c, Init(c), before), evs[|evs| - 1]);
    }
  }

  /** Checking all rings and popping them later is sound although interrupts run in between:
      whenever the worker is about to pop a masked ring there is a sample in it, so the 0 a pop
      of an empty ring returns is never stored, and what is stored is the oldest sample. */
  lemma CheckThenPopSound(c: Config, evs: seq<Event>)
    requires Legal(c, Init(c), evs)
    ensures var s := After(c, Init(c), evs);
            s.worker.Popping? && s.worker.i < |s.dev| && s.worker.i in s.mask ==> PopsOldest(c, s, s.worker.i)
  {
    var s := After(c, Init(c), evs);
    ShapeHolds(c, evs);
    CheckedHolds(c, evs);
    if s.worker.Popping? && s.worker.i < |s.dev| && s.worker.i in s.mask {
      ReadyPopsOldest(c, s);
    }
  }

  lemma ReadyPopsOldest(c: Config, s: State)
    requires ReadyToPop(s) && s.worker.i in s.mask
    ensures PopsOldest(c, s, s.worker.i)
  {
  }

  /** The next pop moves the oldest sample of ring `i` into channel `i` of the current frame. */
  ghost predicate PopsOldest(c: Config, s: State, i: nat)
    requires Enabled(c, s, PopRing)
  {
    var s' := Apply(c, s, PopRing);
    && s.fi < |s'.frames| && i < |s'.frames[s.fi].ch| && i < |s'.dev| && i < |s.dev|
    && s.dev[i].ring == [s'.frames[s.fi].ch[i]] + s'.dev[i].ring
  }

  /** Every published frame has a channel for every device, and the channels of the devices
      outside its session's mask are 0. */
  lemma UnmaskedChannelsZero(c: Config, evs: seq<Event>, p: nat, k: nat)
    requires Legal(c, Init(c), evs)
    requires p < |After(c, Init(c), evs).published|
    requires k < |After(c, Init(c), evs).published[p].frames|
    ensures var pub := After(c, Init(c), evs).published[p];
            && |pub.frames[k].ch| == c.devices
            && forall j :: 0 <= j < c.devices && j !in pub.mask ==> pub.frames[k].ch[j] == 0
  {
    CleanHolds(c, evs);
    var s := After(c, Init(c), evs);
    assert CleanFrames(c, s.published[p].mask, s.published[p].frames);
    assert CleanFrame(c, s.published[p].mask, s.published[p].frames[k]);
  }
}
