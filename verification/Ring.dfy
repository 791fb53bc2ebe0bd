/** The per-device software ring filled by the DRDY interrupt and emptied by the
    acquisition thread (src/ads128x/ads128x_acq.c, lines 35-94).

    Three views of it are related here:
    - `Ring`, the structure as the driver keeps it: a fixed array updated in place;
    - `RingState`, the same structure as a value, with the 16-bit fields wrapping;
    - a bounded first-in first-out queue (`FifoNext`), which is what its clients rely on.
 */
module Rings {

  /** What an assignment to an `rt_uint16_t` keeps. */
  function U16(x: nat): nat {
    x % 0x1_0000
  }

  datatype RingState = RingState(buf: seq<int>, rp: nat, wp: nat, count: nat) {
    /** Both positions may be used as an index. Holds whatever the depth is. */
    ghost predicate Indexable() {
      rp < |buf| && wp < |buf|
    }

    /** The ring invariant: the write position is `count` cells after the read position. */
    ghost predicate Valid() {
      && Indexable()
      && count <= |buf| <= 0xFFFF
      && wp == (rp + count) % |buf|
    }

    /** The buffered samples, oldest first. */
    ghost function Contents(): seq<int>
      requires Indexable()
    {
      seq(count, k requires 0 <= k => buf[(rp + k) % |buf|])
    }

    function Push(v: int): RingState
      requires Indexable()
    {
      if count < |buf| then
        RingState(buf[wp := v], rp, U16((wp + 1) % |buf|), U16(count + 1))
      else
        this
    }

    function Pop(): (RingState, int)
      requires Indexable()
    {
      if count > 0 then
        (RingState(buf, U16((rp + 1) % |buf|), wp, (count - 1) as nat), buf[rp])
      else
        (this, 0)
    }
  }

  /** A zero-initialised static ring of the given depth. */
  function Zeroed(depth: nat): RingState {
    RingState(seq(depth, _ => 0), 0, 0, 0)
  }

  // ---------------------------------------------------------------------------
  // The queue the ring stands for

  /** A bounded queue that keeps what it holds and refuses the newcomer when full. */
  function Offer(depth: nat, q: seq<int>, v: int): seq<int> {
    if |q| < depth then q + [v] else q
  }

  function Rest(q: seq<int>): seq<int> {
    if |q| > 0 then q[1..] else q
  }

  function HeadOrZero(q: seq<int>): int {
    if |q| > 0 then q[0] else 0
  }

  datatype RingOp = Push(v: int) | Pop | Avail

  function RingNext(r: RingState, op: RingOp): (RingState, seq<int>)
    requires r.Indexable()
  {
    match op
    case Push(v) => (r.Push(v), [])
    case Pop => (r.Pop().0, [r.Pop().1])
    case Avail => (r, [r.count])
  }

  function FifoNext(depth: nat, q: seq<int>, op: RingOp): (seq<int>, seq<int>) {
    match op
    case Push(v) => (Offer(depth, q, v), [])
    case Pop => (Rest(q), [HeadOrZero(q)])
    case Avail => (q, [|q|])
  }

  /** Everything a ring answers over a sequence of calls. */
  function RingAnswers(r: RingState, ops: seq<RingOp>): seq<int>
    requires r.Indexable()
    decreases |ops|
  {
    if ops == [] then []
    else
      StaysIndexable(r, ops[0]);
      var (r', out) := RingNext(r, ops[0]);
      out + RingAnswers(r', ops[1..])
  }

  function FifoAnswers(depth: nat, q: seq<int>, ops: seq<RingOp>): seq<int>
    decreases |ops|
  {
    if ops == [] then []
    else
      var (q', out) := FifoNext(depth, q, ops[0]);
      out + FifoAnswers(depth, q', ops[1..])
  }

  lemma StaysIndexable(r: RingState, op: RingOp)
    requires r.Indexable()
    ensures RingNext(r, op).0.Indexable() && |RingNext(r, op).0.buf| == |r.buf|
  {
    StepInside(r.wp, |r.buf|);
    StepInside(r.rp, |r.buf|);
  }

  lemma StepInside(p: nat, depth: nat)
    requires depth > 0
    ensures U16((p + 1) % depth) < depth
  {
    var x := (p + 1) % depth;
    assert x % 0x1_0000 <= x;
  }

  // ---------------------------------------------------------------------------
  // Refinement

  /** Stepping round the ring never needs more than one turn. */
  lemma Turn(a: nat, depth: nat)
    requires 0 < depth && a < 2 * depth
    ensures a % depth == if a < depth then a else a - depth
  {
    if a < depth {
    } else {
      assert a == depth + (a - depth);
    }
  }

  lemma PushRefines(r: RingState, v: int)
    requires r.Valid()
    ensures r.Push(v).Valid()
    ensures r.Push(v).Contents() == Offer(|r.buf|, r.Contents(), v)
  {
    var depth := |r.buf|;
    if r.count < depth {
      var r' := r.Push(v);
      Turn(r.rp + r.count, depth);
      Turn(r.wp + 1, depth);
      Turn(r.rp + r.count + 1, depth);
      forall k | 0 <= k < r'.count
        ensures r'.Contents()[k] == (r.Contents() + [v])[k]
      {
        Turn(r.rp + k, depth);
      }
    }
  }

  lemma PopRefines(r: RingState)
    requires r.Valid()
    ensures r.Pop().0.Valid()
    ensures r.Pop().1 == HeadOrZero(r.Contents())
    ensures r.Pop().0.Contents() == Rest(r.Contents())
  {
    var depth := |r.buf|;
    if r.count > 0 {
      var r' := r.Pop().0;
      Turn(r.rp, depth);
      Turn(r.rp + 1, depth);
      Turn(r.rp + r.count, depth);
      Turn(r'.rp + r'.count, depth);
      forall k | 0 <= k < r'.count
        ensures r'.Contents()[k] == r.Contents()[1..][k]
      {
        Turn(r.rp + k + 1, depth);
        Turn(r'.rp + k, depth);
      }
    }
  }

  /** From any valid ring, every sequence of calls is answered as the queue answers it. */
  lemma {:induction false} AnswersAgree(r: RingState, ops: seq<RingOp>)
    requires r.Valid()
    ensures RingAnswers(r, ops) == FifoAnswers(|r.buf|, r.Contents(), ops)
    decreases |ops|
  {
    if ops != [] {
      match ops[0] {
        case Push(v) => PushRefines(r, v);
        case Pop => PopRefines(r);
        case Avail =>
      }
      StaysIndexable(r, ops[0]);
      AnswersAgree(RingNext(r, ops[0]).0, ops[1..]);
    }
  }

  /** `k` pushes and then one pop. */
  function FillThenPop(k: nat): seq<RingOp> {
    if k == 0 then [Pop] else [Push(1)] + FillThenPop(k - 1)
  }

  /** With a deeper array the 16-bit `count` comes back to 0 after 65536 pushes, and the pop
      that follows finds the ring empty. */
  lemma {:induction false} CountWraps(r: RingState, q: seq<int>, k: nat)
    requires r.Indexable() && |r.buf| > 0xFFFF
    requires k <= 0x1_0000
    requires r.count == U16(0x1_0000 - k) && |q| == 0x1_0000 - k
    requires forall i :: 0 <= i < |q| ==> q[i] == 1
    ensures RingAnswers(r, FillThenPop(k)) == [0]
    ensures FifoAnswers(|r.buf|, q, FillThenPop(k)) == [1]
    decreases k
  {
    var ops := FillThenPop(k);
    StaysIndexable(r, ops[0]);
    var (r', out) := RingNext(r, ops[0]);
    if k > 0 {
      assert ops[1..] == FillThenPop(k - 1);
      CountWraps(r', Offer(|r.buf|, q, 1), k - 1);
    } else {
      assert ops[1..] == [];
    }
  }

  ghost predicate BehavesAsQueue(depth: nat)
    requires depth > 0
  {
    forall ops: seq<RingOp> :: RingAnswers(Zeroed(depth), ops) == FifoAnswers(depth, [], ops)
  }

  /** The ring is a bounded queue for exactly the depths its 16-bit counters can hold.
      Kconfig puts no upper limit on the depth, so the limit is not checked anywhere. */
  lemma RefinementExact(depth: nat)
    requires depth > 0
    ensures BehavesAsQueue(depth) <==> depth <= 0xFFFF
  {
    var r := Zeroed(depth);
    if depth <= 0xFFFF {
      forall ops: seq<RingOp>
        ensures RingAnswers(r, ops) == FifoAnswers(depth, [], ops)
      {
        Turn(0, depth);
        assert r.Contents() == [];
        AnswersAgree(r, ops);
      }
    } else {
      CountWraps(r, [], 0x1_0000);
      assert RingAnswers(r, FillThenPop(0x1_0000)) != FifoAnswers(depth, [], FillThenPop(0x1_0000));
    }
  }

  // ---------------------------------------------------------------------------
  // The structure in place

  /** `struct ads128x_acq_ring`: the buffer is overwritten cell by cell and never reallocated. */
  class Ring {
    const buf: array<int>
    var rp: nat
    var wp: nat
    var count: nat

    ghost function State(): RingState
      reads this, buf
    {
      RingState(buf[..], rp, wp, count)
    }

    ghost predicate Valid()
      reads this, buf
    {
      State().Valid()
    }

    ghost function Contents(): seq<int>
      requires Valid()
      reads this, buf
    {
      State().Contents()
    }

    constructor (depth: nat)
      requires 0 < depth <= 0xFFFF
      ensures Valid() && fresh(buf) && buf.Length == depth
      ensures State() == Zeroed(depth) && Contents() == []
    {
      buf := new int[depth](_ => 0);
      rp, wp, count := 0, 0, 0;
      new;
      Turn(0, depth);
    }

    method Push(v: int)
      requires Valid()
      modifies this, buf
      ensures Valid()
      ensures State() == old(State()).Push(v)
      ensures Contents() == Offer(buf.Length, old(Contents()), v)
    {
      PushRefines(State(), v);
      if count < buf.Length {
        buf[wp] := v;
        wp := U16((wp + 1) % buf.Length);
        count := U16(count + 1);
      }
    }

    method Pop() returns (value: int)
      requires Valid()
      modifies `rp, `count
      ensures Valid()
      ensures State() == old(State()).Pop().0
      ensures value == HeadOrZero(old(Contents())) && Contents() == Rest(old(Contents()))
    {
      PopRefines(State());
      value := 0;
      if count > 0 {
        value := buf[rp];
        rp := U16((rp + 1) % buf.Length);
        count := count - 1;
      }
    }

    method Avail() returns (c: nat)
      requires Valid()
      ensures c == |Contents()|
    {
      c := count;
    }
  }
}
