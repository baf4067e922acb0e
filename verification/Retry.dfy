/** The retry loop of providers/base.go. */
module Retry {
  import opened Wrappers
  import opened Latency

  /** The i-th call: its error, if any, and whether the context ends before the wait after it. */
  datatype Attempt = Attempt(error: Option<string>, cancelled: bool)

  const DEFAULT_DELAY := 300_000_000

  function Pow2(n: nat): nat { if n == 0 then 1 else 2 * Pow2(n - 1) }

  // The delay after i doublings, in int64.
  function Wait(d: int, i: nat): int {
    if i == 0 then d else Wrap(2 * Wait(d, i - 1))
  }

  // A timer for a delay that is not positive fires at once.
  function Pause(wait: int): nat { if wait > 0 then wait else 0 }

  function Slept(d: int, f: nat): nat {
    if f == 0 then 0 else Slept(d, f - 1) + Pause(Wait(d, f - 1))
  }

  lemma Doubling(d: int, i: nat)
    ensures d * Pow2(i + 1) == 2 * (d * Pow2(i))
    ensures d * (Pow2(i + 1) - 1) == d * (Pow2(i) - 1) + d * Pow2(i)
  {
  }

  lemma OnePow()
    ensures Pow2(0) == 1
  {
  }

  lemma WrapFits(x: int)
    ensures Wrap(x) < LIMIT64 && (0 <= x < LIMIT64 ==> Wrap(x) == x)
  {
  }

  // The delay is the doubled one as long as that fits, and falls short of it from then on.
  lemma {:induction false} WaitDoubles(d: int, i: nat)
    requires 0 < d < LIMIT64
    ensures d * Pow2(i) > 0
    ensures if d * Pow2(i) < LIMIT64 then Wait(d, i) == d * Pow2(i) else Wait(d, i) < LIMIT64 <= d * Pow2(i)
  {
    hide Pow2, Wrap;
    if i == 0 {
      OnePow();
    } else {
      WaitDoubles(d, i - 1);
      Doubling(d, i - 1);
      WrapFits(2 * Wait(d, i - 1));
    }
  }

  /** The pauses add up to d * (2^f - 1) exactly when the last of them still fits in int64. */
  lemma {:induction false} SleptExactly(d: int, f: nat)
    requires 0 < d < LIMIT64
    ensures Slept(d, f) <= d * (Pow2(f) - 1)
    ensures Slept(d, f) == d * (Pow2(f) - 1) <==> f == 0 || d * Pow2(f - 1) < LIMIT64
  {
    hide Wait, Pow2;
    if f == 0 {
      OnePow();
    } else {
      SleptExactly(d, f - 1);
      Doubling(d, f - 1);
      WaitDoubles(d, f - 1);
      if f > 1 {
        Doubling(d, f - 2);
        WaitDoubles(d, f - 2);
      } else {
        OnePow();
      }
    }
  }

  predicate Waited(a: Attempt) { a.error.Some? && !a.cancelled }

  /** Do returns nil exactly when some call succeeded.  It makes at most max(1, attempts) calls and
      none after a success or a cancellation; otherwise its error is the context's or that of the
      last call, never "retry failed".  After f uncancelled failures it has slept d * (2^f - 1),
      exactly when it had no failure or the delay after the last one still fits in int64. */
  method Do(attempts: int, delay: int, fn: seq<Attempt>) returns (err: Option<string>, calls: nat, slept: nat)
    requires 1 <= |fn| && attempts <= |fn| && MIN64 <= delay < LIMIT64
    ensures 1 <= calls && (calls > 1 ==> calls <= attempts)
    ensures forall i :: 0 <= i < calls - 1 ==> Waited(fn[i])
    ensures err == None <==> exists i :: 0 <= i < calls && fn[i].error == None
    ensures err == None ==> fn[calls - 1].error == None
    ensures err.Some? ==>
      if fn[calls - 1].cancelled then err == Some("context canceled")
      else calls == (if attempts > 1 then attempts else 1) && err == fn[calls - 1].error
    ensures var d, f := if delay > 0 then delay else 300_000_000, if Waited(fn[calls - 1]) then calls else calls - 1;
            && slept <= d * (Pow2(f) - 1)
            && (slept == d * (Pow2(f) - 1) <==> f == 0 || d * Pow2(f - 1) < LIMIT64)
  {
    var n := if attempts <= 0 then 1 else attempts;
    var wait := if delay <= 0 then DEFAULT_DELAY else delay;
    ghost var d := wait;
    var lastErr := None;
    slept := 0;
    calls := 0;
    while calls < n
      invariant 0 <= calls <= n
      invariant forall i :: 0 <= i < calls ==> Waited(fn[i])
      invariant calls > 0 ==> lastErr == fn[calls - 1].error
      invariant slept == Slept(d, calls) && wait == Wait(d, calls)
    {
      SleptExactly(d, calls);
      var attempt := fn[calls];
      calls := calls + 1;
      if attempt.error == None {
        return None, calls, slept;
      }
      lastErr := attempt.error;
      if attempt.cancelled {
        return Some("context canceled"), calls, slept;
      }
      slept := slept + Pause(wait);
      wait := Wrap(2 * wait);
    }
    if lastErr == None {
      lastErr := Some("retry failed");
    }
    SleptExactly(d, calls);
    return lastErr, calls, slept;
  }
}
