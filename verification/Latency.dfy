/** The running average of providers/helpers.go and the accumulator of providers/claude.go.
    Durations are int64 nanoseconds; Go's division truncates, which on non-negative numbers is `/`. */
module Latency {
  const MIN64: int := -0x8000_0000_0000_0000
  const LIMIT64: int := 0x8000_0000_0000_0000

  // int64 arithmetic wraps around.
  function Wrap(x: int): int {
    var r := x % 0x1_0000_0000_0000_0000;
    if r >= LIMIT64 then r - 0x1_0000_0000_0000_0000 else r
  }

  // Go's truncated division.
  function Quotient(a: int, b: int): int
    requires b > 0
  {
    if a >= 0 then a / b else -((-a) / b)
  }

  function AverageLatency(current: int, sample: int, count: int): int {
    if count <= 1 then sample
    else Quotient(Wrap(Wrap(current * (count - 1)) + sample), count)
  }

  // The stored average after the first n samples.
  function AverageAfter(samples: seq<int>, n: nat): int
    requires n <= |samples|
  {
    if n == 0 then 0 else AverageLatency(AverageAfter(samples, n - 1), samples[n - 1], n)
  }

  function Sum(samples: seq<int>, n: nat): int
    requires n <= |samples|
  {
    if n == 0 then 0 else Sum(samples, n - 1) + samples[n - 1]
  }

  ghost predicate Bounded(samples: seq<int>, low: int, high: int) {
    0 <= low <= high && forall i :: 0 <= i < |samples| ==> low <= samples[i] <= high
  }

  lemma WrapIsIdentity(x: int)
    requires MIN64 <= x < LIMIT64
    ensures Wrap(x) == x
  {
  }

  lemma Between(a: int, b: int, c: int, n: int)
    requires a <= b <= c && n >= 0
    ensures a * n <= b * n <= c * n
  {
    assert (b - a) * n >= 0 && (c - b) * n >= 0;
  }

  lemma DivisionStep(total: int, n: int, low: int, high: int)
    requires n > 0 && low * n <= total <= high * n
    ensures var q := total / n; low <= q <= high && 0 <= total - n * q <= n - 1
  {
    var q := total / n;
    assert total == n * q + total % n;
    assert (q + 1) * n == q * n + n && (high + 1) * n == high * n + n;
    if q < low {
      Between(q + 1, q + 1, low, n);
    }
    if q > high {
      Between(high + 1, high + 1, q, n);
    }
  }

  // While averages stay in range no intermediate value leaves int64.
  lemma NoOverflow(current: int, sample: int, n: int, high: int)
    requires n > 1 && 0 <= current <= high && 0 <= sample <= high && n * high < LIMIT64
    ensures 0 <= current * (n - 1) < LIMIT64 && 0 <= current * (n - 1) + sample < LIMIT64
    ensures AverageLatency(current, sample, n) == (current * (n - 1) + sample) / n
  {
    Between(0, current, high, n - 1);
    assert n * high == high * (n - 1) + high;
    WrapIsIdentity(current * (n - 1));
    WrapIsIdentity(current * (n - 1) + sample);
  }

  /** After n samples between low and high the stored average lies between them too, and falls
      short of the true sum by at most n(n-1)/2; with n * high < 2^63 nothing overflows. */
  lemma {:induction false} AverageBound(samples: seq<int>, n: nat, low: int, high: int)
    requires n <= |samples| && Bounded(samples, low, high) && n * high < LIMIT64
    ensures 0 <= Sum(samples, n) - n * AverageAfter(samples, n) <= n * (n - 1) / 2
    ensures n > 0 ==> low <= AverageAfter(samples, n) <= high
  {
    if n == 1 {
      assert AverageAfter(samples, 0) == 0 && Sum(samples, 0) == 0;
    } else if n > 1 {
      Between(0, n - 1, n, high);
      AverageBound(samples, n - 1, low, high);
      AverageStep(samples, n, low, high);
    }
  }

  lemma Triangle(n: int)
    ensures n * (n - 1) / 2 == (n - 1) * (n - 2) / 2 + (n - 1)
  {
    assert n * (n - 1) == (n - 1) * (n - 2) + 2 * (n - 1);
  }

  // The error grows by the remainder of one division.
  lemma ErrorStep(sum: int, before: int, sample: int, n: int, low: int, high: int, error: int)
    requires n > 1 && low <= before <= high && low <= sample <= high
    requires 0 <= sum - (n - 1) * before <= error
    ensures var after := (before * (n - 1) + sample) / n;
            low <= after <= high && 0 <= sum + sample - n * after <= error + (n - 1)
  {
    var total := before * (n - 1) + sample;
    Between(low, before, high, n - 1);
    assert low * n == low * (n - 1) + low && high * n == high * (n - 1) + high;
    DivisionStep(total, n, low, high);
    assert (n - 1) * before == before * (n - 1);
  }

  lemma AverageStep(samples: seq<int>, n: nat, low: int, high: int)
    requires 1 < n <= |samples| && Bounded(samples, low, high) && n * high < LIMIT64
    requires low <= AverageAfter(samples, n - 1) <= high
    requires 0 <= Sum(samples, n - 1) - (n - 1) * AverageAfter(samples, n - 1) <= (n - 1) * (n - 2) / 2
    ensures low <= AverageAfter(samples, n) <= high
    ensures 0 <= Sum(samples, n) - n * AverageAfter(samples, n) <= n * (n - 1) / 2
  {
    var before, sample := AverageAfter(samples, n - 1), samples[n - 1];
    assert AverageAfter(samples, n) == AverageLatency(before, sample, n) &&
        Sum(samples, n) == Sum(samples, n - 1) + sample;
    hide AverageAfter, Sum, AverageLatency;
    NoOverflow(before, sample, n, high);
    ErrorStep(Sum(samples, n - 1), before, sample, n, low, high, (n - 1) * (n - 2) / 2);
    Triangle(n);
  }

  // ---------- captureUsage ----------

  datatype UsageRecord = UsageRecord(inputTokens: int, outputTokens: int, totalTokens: int, latency: int,
      success: bool, feature: string)

  class Provider {
    const costIn: real
    const costOut: real
    var lastRecord: UsageRecord
    var totalRequests: int
    var successfulRequests: int
    var totalCost: real
    var averageLatency: int
    // The latencies of all captured calls.
    ghost var samples: seq<int>

    ghost predicate Valid()
      reads this
    {
      && totalRequests == successfulRequests == |samples|
      && averageLatency == AverageAfter(samples, |samples|)
    }

    constructor (costIn: real, costOut: real)
      ensures Valid() && samples == [] && totalCost == 0.0
    {
      this.costIn, this.costOut := costIn, costOut;
      lastRecord := UsageRecord(0, 0, 0, 0, false, "");
      totalRequests, successfulRequests, totalCost, averageLatency := 0, 0, 0.0, 0;
      samples := [];
    }

    method CaptureUsage(feature: string, latency: int, input: int, output: int)
      requires Valid()
      modifies this
      ensures Valid() && samples == old(samples) + [latency]
      ensures lastRecord == UsageRecord(input, output, input + output, latency, true, feature)
      ensures totalCost == old(totalCost) + (input as real / 1000.0 * costIn + output as real / 1000.0 * costOut)
    {
      lastRecord := UsageRecord(input, output, input + output, latency, true, feature);
      totalRequests := totalRequests + 1;
      successfulRequests := successfulRequests + 1;
      totalCost := totalCost + (input as real / 1000.0 * costIn + output as real / 1000.0 * costOut);
      averageLatency := AverageLatency(averageLatency, latency, successfulRequests);
      EarlierSamples(samples, latency, |samples|);
      samples := samples + [latency];
    }
  }

  lemma {:induction false} EarlierSamples(samples: seq<int>, next: int, n: nat)
    requires n <= |samples|
    ensures AverageAfter(samples + [next], n) == AverageAfter(samples, n)
  {
    if n > 0 {
      EarlierSamples(samples, next, n - 1);
    }
  }
}
