/** The polling loop of `ads128x_wait_data` (src/ads128x/ads128x_core.c) and its test
    `rt_tick_get() - start < timeout`, computed with tick counters that wrap around. */
module Waiting {
  const TICKS: nat := 0x1_0000_0000

  /** `Polling`: neither has happened by the last moment looked at. */
  datatype Outcome = Ready | TimedOut | Polling

  /** `clock[k]` is the true time, in ticks, of the `k`-th test, and `low[k]` says whether the DRDY
      line is low when it is read after that test. */
  datatype Moments = Moments(clock: seq<nat>, low: seq<bool>)

  /** Time goes forward in steps of at most `gap`, from the call's start to its first test too. */
  ghost predicate Steps(m: Moments, start: nat, gap: nat) {
    && 0 < |m.clock| == |m.low|
    && start <= m.clock[0] <= start + gap
    && forall k :: 0 <= k < |m.clock| - 1 ==> m.clock[k] <= m.clock[k + 1] <= m.clock[k] + gap
  }

  /** What the caller wants from moment `k` on: the line goes low before `timeout` ticks have
      passed since the start, or the call gives up. */
  function Wanted(m: Moments, start: nat, timeout: nat, k: nat): Outcome
    requires k <= |m.clock| == |m.low|
    decreases |m.clock| - k
  {
    if k == |m.clock| then Polling
    else if m.clock[k] - start >= timeout then TimedOut
    else if m.low[k] then Ready
    else Wanted(m, start, timeout, k + 1)
  }

  /** The unsigned difference of two tick counters. */
  function Elapsed(now: nat, start: nat): nat {
    (now % TICKS - start % TICKS) % TICKS
  }

  /** The same, by the wrapping test. */
  function Wrapped(m: Moments, start: nat, timeout: nat, k: nat): Outcome
    requires k <= |m.clock| == |m.low|
    decreases |m.clock| - k
  {
    if k == |m.clock| then Polling
    else if Elapsed(m.clock[k], start) >= timeout then TimedOut
    else if m.low[k] then Ready
    else Wrapped(m, start, timeout, k + 1)
  }

  /** ads128x_wait_data, called `start` ticks after boot. */
  method WaitData(drdyPin: int, m: Moments, start: nat, timeout: nat) returns (ret: Outcome)
    requires |m.clock| == |m.low|
    ensures ret == if drdyPin < 0 then Ready else Wrapped(m, start, timeout, 0)
  {
    if drdyPin < 0 {
      return Ready;
    }
    var from := start % TICKS;
    var k := 0;
    while k < |m.clock| && (m.clock[k] % TICKS - from) % TICKS < timeout
      invariant k <= |m.clock|
      invariant Wrapped(m, start, timeout, 0) == Wrapped(m, start, timeout, k)
    {
      if m.low[k] {
        return Ready;
      }
      k := k + 1;
    }
    ret := if k == |m.clock| then Polling else TimedOut;
  }

  lemma ElapsedIs(now: nat, start: nat)
    requires start <= now
    ensures Elapsed(now, start) == (now - start) % TICKS
  {
    var q, p := now / TICKS, start / TICKS;
    assert now == q * TICKS + now % TICKS && start == p * TICKS + start % TICKS;
    var d := now % TICKS - start % TICKS;
    assert now - start == (q - p) * TICKS + d;
    if d >= 0 {
      Multiple(q - p, d);
      Multiple(0, d);
    } else {
      Multiple(q - p - 1, d + TICKS);
      Multiple(-1, d + TICKS);
    }
  }

  lemma Multiple(q: int, r: nat)
    requires r < TICKS
    ensures (q * TICKS + r) % TICKS == r
  {
  }

  /** Until the first test at or after the deadline both tests say the same; that test is less
      than `gap` past it, so the difference has not wrapped yet. */
  lemma {:induction false} WrapSafe(m: Moments, start: nat, gap: nat, timeout: nat, k: nat)
    requires Steps(m, start, gap) && timeout + gap <= TICKS && 0 < timeout && k <= |m.clock|
    requires 0 < k < |m.clock| ==> start <= m.clock[k - 1] < start + timeout
    ensures Wrapped(m, start, timeout, k) == Wanted(m, start, timeout, k)
    decreases |m.clock| - k
  {
    if k < |m.clock| {
      assert k > 0 ==> m.clock[k - 1] <= m.clock[(k - 1) + 1] <= m.clock[k - 1] + gap;
      ElapsedIs(m.clock[k], start);
      if m.clock[k] - start < TICKS {
        Multiple(0, m.clock[k] - start);
      }
      if m.clock[k] - start < timeout && !m.low[k] {
        WrapSafe(m, start, gap, timeout, k + 1);
      }
    }
  }

  ghost predicate SameAnswers(gap: nat, timeout: nat) {
    forall m, start :: Steps(m, start, gap) ==> Wrapped(m, start, timeout, 0) == Wanted(m, start, timeout, 0)
  }

  /** A clock that ticks up to the last moment before the deadline and then, in one gap, to the
      moment at which the counter is back where it started. */
  function Jump(timeout: nat): Moments {
    Moments(seq(timeout, k => k) + [TICKS], seq(timeout + 1, _ => false))
  }

  lemma {:induction false} JumpMissed(timeout: nat, k: nat)
    requires 0 < timeout < TICKS && k <= timeout
    ensures Wrapped(Jump(timeout), 0, timeout, k) == Polling
    ensures Wanted(Jump(timeout), 0, timeout, k) == TimedOut
    decreases timeout - k
  {
    var m := Jump(timeout);
    if k < timeout {
      assert m.clock[k] == k;
      Multiple(0, k);
      ElapsedIs(k, 0);
      JumpMissed(timeout, k + 1);
    } else {
      assert m.clock[k] == TICKS;
      ElapsedIs(TICKS, 0);
      Multiple(1, 0);
    }
  }

  /** When the wrapping test can be trusted: with gaps of at most `gap` ticks between two tests,
      it gives the wanted answer for every clock and line if and only if the timeout and one gap
      fit into the counter. */
  lemma WrapExact(gap: nat, timeout: nat)
    requires 0 < timeout < TICKS
    ensures SameAnswers(gap, timeout) <==> timeout + gap <= TICKS
  {
    if timeout + gap <= TICKS {
      forall m, start | Steps(m, start, gap)
        ensures Wrapped(m, start, timeout, 0) == Wanted(m, start, timeout, 0)
      {
        WrapSafe(m, start, gap, timeout, 0);
      }
    } else {
      var m := Jump(timeout);
      assert Steps(m, 0, gap) by {
        forall k | 0 <= k < |m.clock| - 1
          ensures m.clock[k] <= m.clock[k + 1] <= m.clock[k] + gap
        {
          assert m.clock[k] == k;
          assert k + 1 < timeout ==> m.clock[k + 1] == k + 1;
        }
        assert m.clock[0] == 0;
      }
      JumpMissed(timeout, 0);
    }
  }
}
