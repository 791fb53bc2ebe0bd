/** Which tick a frame carries: the one read when it was begun. */
module Timestamps {
  import opened Pipeline
  import opened Sessions
  import opened Alignment

  /** The ticks the worker has read, in order. */
  function Ticks(evs: seq<Event>): seq<nat> {
    if evs == [] then []
    else
      var last := evs[|evs| - 1];
      Ticks(evs[..|evs| - 1]) + if last.Stamp? then [last.tick] else []
  }

  function Stamps(frames: seq<Frame>): seq<nat> {
    seq(|frames|, k requires 0 <= k < |frames| => frames[k].timestamp)
  }

  /** The timestamp of the frame that is being filled. */
  function PartStamp(s: State): seq<nat> {
    if s.worker.Popping? && s.fi < |s.frames| then [s.frames[s.fi].timestamp] else []
  }

  /** Of all frames of all sessions: published, waiting, begun. */
  ghost function AllStamps(s: State): seq<nat> {
    Stamps(AllFrames(s)) + PartStamp(s)
  }

  lemma StampsJoin(a: seq<Frame>, b: seq<Frame>)
    ensures Stamps(a + b) == Stamps(a) + Stamps(b)
  {
  }

  /** A frame that is finished joins the others with the timestamp it has. */
  lemma StoredStamps(s: State)
    requires s.worker.Popping? && s.fi < |s.frames|
    ensures AllStamps(Stored(s)) == AllStamps(s)
  {
    assert s.frames[..s.fi + 1] == s.frames[..s.fi] + [s.frames[s.fi]];
    StampsJoin(Flatten(s.published), s.frames[..s.fi]);
    StampsJoin(Flatten(s.published), s.frames[..s.fi + 1]);
    StampsJoin(s.frames[..s.fi], [s.frames[s.fi]]);
  }

  /** Publishing moves frames from the batch to the log. */
  lemma PublishedStamps(s: State)
    requires !s.worker.Popping?
    ensures AllStamps(PublishFrames(s)) == AllStamps(s)
  {
    var p := Publish(s.mask, Front(s.frames, s.fi));
    assert (s.published + [p])[..|s.published + [p]| - 1] == s.published;
    assert Front(s.frames, 0) == [];
    assert AllFrames(PublishFrames(s)) == AllFrames(s);
  }

  lemma StoreStamps(c: Config, s: State)
    requires Enabled(c, s, StoreFrame) && s.fi < |s.frames|
    ensures AllStamps(Apply(c, s, StoreFrame)) == AllStamps(s)
  {
    hide AllStamps;
    StoredStamps(s);
    PublishedStamps(Stored(s));
  }

  lemma FlushStamps(c: Config, s: State)
    requires Enabled(c, s, FlushRest)
    ensures AllStamps(Apply(c, s, FlushRest)) == AllStamps(s)
  {
    hide Flatten;
    var s' := s.(worker := Exiting);
    assert AllStamps(s') == AllStamps(s);
    PublishedStamps(s');
  }

  /** Reading the tick begins a frame; what is in it before does not matter. */
  lemma StampStamps(c: Config, s: State, tick: nat)
    requires Enabled(c, s, Stamp(tick)) && s.fi < |s.frames|
    ensures AllStamps(Apply(c, s, Stamp(tick))) == AllStamps(s) + [tick]
  {
    var s' := Apply(c, s, Stamp(tick));
    assert Front(s'.frames, s.fi) == Front(s.frames, s.fi);
  }

  /** Filling channels leaves all timestamps alone. */
  lemma PopStamps(c: Config, s: State)
    requires Enabled(c, s, PopRing) && s.fi < |s.frames|
    ensures AllStamps(Apply(c, s, PopRing)) == AllStamps(s)
  {
    var s' := Apply(c, s, PopRing);
    assert Front(s'.frames, s.fi) == Front(s.frames, s.fi);
  }

  lemma MoveStamps(c: Config, s: State, ev: Event)
    requires Shape(c, s) && Enabled(c, s, ev) && !Interrupt(ev) && !Control(ev)
    requires !ev.StoreFrame? && !ev.FlushRest? && !ev.Stamp? && !ev.PopRing?
    ensures AllStamps(Apply(c, s, ev)) == AllStamps(s)
  {
    hide Flatten;
  }

  lemma StampsStep(c: Config, s: State, ev: Event)
    requires Shape(c, s) && Enabled(c, s, ev)
    ensures AllStamps(Apply(c, s, ev)) == AllStamps(s) + if ev.Stamp? then [ev.tick] else []
  {
    var none: seq<nat> := [];
    assert AllStamps(s) + none == AllStamps(s);
    if Interrupt(ev) {
      hide Apply, Flatten;
      InterruptFrame(c, s, ev);
    } else if Control(ev) {
      hide Apply, Flatten;
      ControlFrame(c, s, ev);
      Idle(c, s, Apply(c, s, ev));
    } else {
      hide Apply, AllStamps;
      match ev {
        case StoreFrame => StoreStamps(c, s);
        case FlushRest => FlushStamps(c, s);
        case Stamp(tick) => StampStamps(c, s, tick);
        case PopRing => PopStamps(c, s);
        case _ => MoveStamps(c, s, ev);
      }
    }
  }

  lemma Idle(c: Config, s: State, s': State)
    requires Shape(c, s) && s'.frames == s.frames && s'.fi == s.fi && s'.published == s.published
    requires s'.worker == s.worker || (!s.worker.Popping? && !s'.worker.Popping?)
    ensures AllStamps(s') == AllStamps(s)
  {
  }

  /** Over every schedule and any number of sessions, the timestamps of the published frames, then of
      the waiting ones, then of the one being filled, are in order exactly the ticks that were read
      when the frames were begun. What the allocated memory held never gets out. */
  lemma {:induction false} TimestampsExact(c: Config, evs: seq<Event>)
    requires Legal(c, Init(c), evs)
    ensures AllStamps(After(c, Init(c), evs)) == Ticks(evs)
    decreases |evs|
  {
    hide Apply, Enabled;
    if evs != [] {
      var before := evs[..|evs| - 1];
      TimestampsExact(c, before);
      ShapeHolds(c, before);
      StampsStep(c, After(c, Init(c), before), evs[|evs| - 1]);
    }
  }
}
