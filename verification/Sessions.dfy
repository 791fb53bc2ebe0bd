/** What holds of the worker's buffer, its program counter and its publishes in every run:
    stores stay inside the allocation, and frames leave in batches of exactly the size asked
    for, with at most one shorter batch at the end of a session. */
module Sessions {
  import opened Pipeline

  /** The worker holds its frame buffer. */
  predicate Buffered(w: Worker) {
    w.LoopHead? || w.Taking? || w.Checking? || w.Popping? || w.Flushing?
  }

  ghost predicate WellSized(c: Config, frames: seq<Frame>) {
    forall k :: 0 <= k < |frames| ==> |frames[k].ch| == c.devices
  }

  ghost predicate Shape(c: Config, s: State) {
    && |s.dev| == c.devices
    && |s.seen| == c.devices
    && (forall i :: i in s.mask ==> i < c.devices)
    && (Buffered(s.worker) ==> |s.frames| == s.batch && s.fi < s.batch && WellSized(c, s.frames))
    && (!Buffered(s.worker) ==> s.fi == 0)
    && (s.worker != NoThread ==> s.ctl == CtlIdle)
    && (s.ctl != CtlIdle ==> !s.stop)
    && (s.worker != NoThread || s.ctl != CtlIdle ==> s.mask != {} && 1 <= s.batch <= MAX_BATCH)
    && (s.worker.Checking? || s.worker.Popping? ==> s.worker.i <= c.devices)
    && (s.agg.AggAt? ==> s.agg.i <= c.devices)
    && (s.agg.AggHolding? ==> s.agg.i < c.devices)
  }

  lemma InterruptShape(c: Config, s: State, ev: Event)
    requires Shape(c, s) && Enabled(c, s, ev) && Interrupt(ev)
    ensures Shape(c, Apply(c, s, ev))
  {
    InterruptFrame(c, s, ev);
  }

  lemma ControlShape(c: Config, s: State, ev: Event)
    requires Shape(c, s) && Enabled(c, s, ev) && Control(ev)
    ensures Shape(c, Apply(c, s, ev))
  {
  }

  lemma WorkerShape(c: Config, s: State, ev: Event)
    requires Shape(c, s) && Enabled(c, s, ev) && !Interrupt(ev) && !Control(ev)
    ensures Shape(c, Apply(c, s, ev))
  {
  }

  lemma ShapeStep(c: Config, s: State, ev: Event)
    requires Shape(c, s) && Enabled(c, s, ev)
    ensures Shape(c, Apply(c, s, ev))
  {
    hide *;
    if Interrupt(ev) {
      InterruptShape(c, s, ev);
    } else if Control(ev) {
      ControlShape(c, s, ev);
    } else {
      WorkerShape(c, s, ev);
    }
  }

  lemma {:induction false} ShapeHolds(c: Config, evs: seq<Event>)
    requires Legal(c, Init(c), evs)
    ensures Shape(c, After(c, Init(c), evs))
    decreases |evs|
  {
    if evs != [] {
      var before := evs[..|evs| - 1];
      ShapeHolds(c, before);
      ShapeStep(c, After(c, Init(c), before), evs[|evs| - 1]);
    }
  }

  /** Every store into a frame lands inside the allocation: the index is in range and the frame
      has a channel for every device. */
  lemma StoresInBounds(c: Config, evs: seq<Event>)
    requires Legal(c, Init(c), evs)
    ensures var s := After(c, Init(c), evs);
            s.worker.Popping? ==>
              && s.fi < |s.frames| == s.batch <= MAX_BATCH
              && s.worker.i <= c.devices == |s.frames[s.fi].ch|
  {
    ShapeHolds(c, evs);
  }

  // ---------------------------------------------------------------------------
  // Batches

  ghost predicate FullBatches(batch: nat, mask: set<nat>, ps: seq<Publish>) {
    forall p :: 0 <= p < |ps| ==> |ps[p].frames| == batch && ps[p].mask == mask
  }

  /** All full but the last, which is shorter and not empty. */
  ghost predicate EndsShort(batch: nat, mask: set<nat>, ps: seq<Publish>) {
    exists full, last :: ps == full + [last]
      && FullBatches(batch, mask, full) && last.mask == mask && 1 <= |last.frames| < batch
  }

  /** The number of frames the publishes carry. */
  ghost function FrameTotal(ps: seq<Publish>): nat {
    if ps == [] then 0 else FrameTotal(ps[..|ps| - 1]) + |ps[|ps| - 1].frames|
  }

  lemma FrameTotalSnoc(ps: seq<Publish>, p: Publish)
    ensures FrameTotal(ps + [p]) == FrameTotal(ps) + |p.frames|
  {
    assert (ps + [p])[..|ps + [p]| - 1] == ps;
  }

  /** While frames are being assembled: only full batches have left. */
  ghost predicate Filling(s: State) {
    FullBatches(s.batch, s.mask, s.session) && s.made == FrameTotal(s.session) + s.fi
  }

  /** When the last publish is done. */
  ghost predicate Finished(s: State) {
    && (FullBatches(s.batch, s.mask, s.session) || EndsShort(s.batch, s.mask, s.session))
    && s.made == FrameTotal(s.session)
  }

  ghost predicate Batched(s: State) {
    && (s.worker == Created ==> s.made == 0 && s.session == [])
    && (Buffered(s.worker) ==> Filling(s))
    && (s.worker == Exiting ==> Finished(s))
  }

  lemma PublishBatched(s: State)
    requires FullBatches(s.batch, s.mask, s.session) && 1 <= s.fi <= |s.frames| && s.fi <= s.batch
    ensures var session := PublishFrames(s).session;
            && FrameTotal(session) == FrameTotal(s.session) + s.fi
            && (s.fi == s.batch ==> FullBatches(s.batch, s.mask, session))
            && (s.fi < s.batch ==> EndsShort(s.batch, s.mask, session))
  {
    FrameTotalSnoc(s.session, Publish(s.mask, s.frames[..s.fi]));
  }

  lemma StoreBatched(c: Config, s: State)
    requires s.worker.Popping? && s.worker.i == |s.dev| && s.fi < |s.frames| == s.batch
    requires Filling(s)
    ensures Apply(c, s, StoreFrame).worker == Checking(0) && Filling(Apply(c, s, StoreFrame))
  {
    if s.fi + 1 == s.batch {
      PublishBatched(Stored(s));
    } else {
      assert Filling(Stored(s));
    }
  }

  lemma FlushBatched(c: Config, s: State)
    requires s.worker == Flushing && s.fi < |s.frames| == s.batch
    requires Filling(s)
    ensures Apply(c, s, FlushRest).worker == Exiting && Finished(Apply(c, s, FlushRest))
  {
    if s.fi > 0 {
      PublishBatched(s.(worker := Exiting));
    }
  }

  lemma MoveBatched(c: Config, s: State, ev: Event)
    requires Shape(c, s) && Batched(s) && Enabled(c, s, ev) && !Interrupt(ev) && !Control(ev)
    requires !ev.StoreFrame? && !ev.FlushRest?
    ensures Batched(Apply(c, s, ev))
  {
    hide Apply;
    WorkerFrame(c, s, ev);
  }

  lemma ControlBatched(c: Config, s: State, ev: Event)
    requires Shape(c, s) && Batched(s) && Enabled(c, s, ev) && Control(ev)
    ensures Batched(Apply(c, s, ev))
  {
    hide Apply;
    ControlFrame(c, s, ev);
  }

  lemma BatchedStep(c: Config, s: State, ev: Event)
    requires Shape(c, s) && Batched(s) && Enabled(c, s, ev)
    ensures Batched(Apply(c, s, ev))
  {
    hide Apply;
    if Interrupt(ev) {
      InterruptFrame(c, s, ev);
    } else if Control(ev) {
      ControlBatched(c, s, ev);
    } else if ev.StoreFrame? {
      StoreBatched(c, s);
    } else if ev.FlushRest? {
      FlushBatched(c, s);
    } else {
      MoveBatched(c, s, ev);
    }
  }

  lemma {:induction false} BatchedHolds(c: Config, evs: seq<Event>)
    requires Legal(c, Init(c), evs)
    ensures Batched(After(c, Init(c), evs))
    decreases |evs|
  {
    if evs != [] {
      var before := evs[..|evs| - 1];
      ShapeHolds(c, before);
      BatchedHolds(c, before);
      BatchedStep(c, After(c, Init(c), before), evs[|evs| - 1]);
    }
  }

  lemma {:induction false} FullTotal(batch: nat, mask: set<nat>, ps: seq<Publish>)
    requires FullBatches(batch, mask, ps)
    ensures FrameTotal(ps) == batch * |ps|
  {
    if ps != [] {
      FullTotal(batch, mask, ps[..|ps| - 1]);
    }
  }

  /** While a session's worker runs, all its publishes carry exactly `batch` frames and fewer
      than `batch` frames wait. When it is about to leave, the `made` frames it assembled have
      gone out in as few publishes as can carry them, ceil(made / batch): all are full except
      perhaps the last, which carries the remainder and is never empty. */
  lemma BatchingExact(c: Config, evs: seq<Event>)
    requires Legal(c, Init(c), evs)
    ensures var s := After(c, Init(c), evs);
            Buffered(s.worker) ==>
              && FullBatches(s.batch, s.mask, s.session)
              && s.made == s.batch * |s.session| + s.fi && s.fi < s.batch
    ensures var s := After(c, Init(c), evs);
            s.worker == Exiting ==>
              && (FullBatches(s.batch, s.mask, s.session) || EndsShort(s.batch, s.mask, s.session))
              && s.made == FrameTotal(s.session)
              && s.batch * (|s.session| - 1) < s.made <= s.batch * |s.session|
  {
    ShapeHolds(c, evs);
    BatchedHolds(c, evs);
    var s := After(c, Init(c), evs);
    if FullBatches(s.batch, s.mask, s.session) {
      FullTotal(s.batch, s.mask, s.session);
      assert s.batch * (|s.session| - 1) == s.batch * |s.session| - s.batch;
    } else if s.worker == Exiting {
      var full, last :| s.session == full + [last] && FullBatches(s.batch, s.mask, full)
        && last.mask == s.mask && 1 <= |last.frames| < s.batch;
      FullTotal(s.batch, s.mask, full);
      FrameTotalSnoc(full, last);
      assert s.batch * |s.session| == s.batch * |full| + s.batch;
    }
  }
}
