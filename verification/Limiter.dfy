/** The fixed-window rate limiter of middleware.go.

    A run is the sequence of `Allow` calls one limiter has served, each stamped with the
    clock value it read; clock values never decrease.  `TableAfter` replays the counter table
    over the first n calls, and the theorems speak about every such run. */
module Limiter {
  import opened Wrappers

  datatype Config = Config(limit: int, window: int)

  datatype Entry = Entry(count: int, reset: int)

  datatype Call = Call(key: string, now: int)

  // The first call of a window is admitted whatever the limit is.
  function Cap(cfg: Config): int {
    if cfg.limit > 1 then cfg.limit else 1
  }

  function Touch(cfg: Config, entry: Option<Entry>, now: int): (Entry, bool) {
    match entry
    case Some(e) =>
      if now > e.reset then (Entry(1, now + cfg.window), true)
      else if e.count >= cfg.limit then (e, false)
      else (Entry(e.count + 1, e.reset), true)
    case None => (Entry(1, now + cfg.window), true)
  }

  function TableAfter(cfg: Config, calls: seq<Call>, n: nat): map<string, Entry>
    requires n <= |calls|
  {
    if n == 0 then map[]
    else
      var before := TableAfter(cfg, calls, n - 1);
      var c := calls[n - 1];
      before[c.key := Touch(cfg, Lookup(before, c.key), c.now).0]
  }

  predicate Admitted(cfg: Config, calls: seq<Call>, i: nat)
    requires i < |calls|
  {
    Touch(cfg, Lookup(TableAfter(cfg, calls, i), calls[i].key), calls[i].now).1
  }

  ghost predicate Ordered(calls: seq<Call>) {
    forall i, j :: 0 <= i <= j < |calls| ==> calls[i].now <= calls[j].now
  }

  // Admitted calls for `key` among calls a..b-1 whose time lies in the closed interval [lo, hi].
  function Admissions(cfg: Config, calls: seq<Call>, key: string, a: nat, b: nat, lo: int, hi: int): nat
    requires a <= b <= |calls|
    decreases b
  {
    if a == b then 0
    else
      Admissions(cfg, calls, key, a, b - 1, lo, hi) +
      if calls[b - 1].key == key && lo <= calls[b - 1].now <= hi && Admitted(cfg, calls, b - 1) then 1 else 0
  }

  lemma {:induction false} NoneInInterval(cfg: Config, calls: seq<Call>, key: string, b: nat, lo: int, hi: int)
    requires b <= |calls|
    requires forall i :: 0 <= i < b ==> !(lo <= calls[i].now <= hi)
    ensures Admissions(cfg, calls, key, 0, b, lo, hi) == 0
  {
    if b > 0 {
      NoneInInterval(cfg, calls, key, b - 1, lo, hi);
    }
  }

  // A later call never changes what an earlier one saw.
  lemma {:induction false} TableIgnoresLaterCalls(cfg: Config, calls: seq<Call>, more: seq<Call>, n: nat)
    requires n <= |calls|
    ensures TableAfter(cfg, calls + more, n) == TableAfter(cfg, calls, n)
  {
    if n > 0 {
      TableIgnoresLaterCalls(cfg, calls, more, n - 1);
    }
  }

  lemma {:induction false} AppendCall(cfg: Config, calls: seq<Call>, c: Call)
    ensures var before := TableAfter(cfg, calls, |calls|);
            var (after, ok) := Touch(cfg, Lookup(before, c.key), c.now);
            && TableAfter(cfg, calls + [c], |calls| + 1) == before[c.key := after]
            && Admitted(cfg, calls + [c], |calls|) == ok
  {
    TableIgnoresLaterCalls(cfg, calls, [c], |calls|);
  }

  // ---------- The sliding bound ----------

  // How many windows have been opened for the key at or after `lo`, with what that
  // implies for the admissions so far.  Window starts are more than a window apart.
  ghost predicate Windows(cfg: Config, entry: Option<Entry>, admissions: nat, lo: int, last: int, m: nat) {
    match entry
    case None => admissions == 0 && m == 0
    case Some(e) =>
      && 1 <= e.count <= Cap(cfg)
      && e.reset - cfg.window <= last
      && (m == 0 ==> admissions <= e.count - 1)
      && (m >= 1 ==> admissions <= m * Cap(cfg) - 1 + e.count && e.reset >= lo + m * cfg.window)
      && (m >= 2 ==> e.reset - cfg.window > lo + (m - 1) * cfg.window)
  }

  lemma Distribute(m: int, x: int)
    ensures (m + 1) * x == m * x + x
  {
  }

  lemma Monotone(m: int, k: int, x: int)
    requires m <= k && 0 <= x
    ensures m * x <= k * x
  {
    assert (k - m) * x >= 0;
  }

  lemma FewWindowsFit(window: int, m: int, k: int)
    requires window >= 0 && m * window < k * window
    ensures m < k
  {
    assert m >= k ==> (m - k) * window >= 0;
  }

  // One more call of the key at a time not before `lo`.
  lemma WindowsStep(cfg: Config, before: Option<Entry>, admissions: nat, lo: int, last: int, m: nat, now: int)
      returns (m': nat)
    requires cfg.window >= 0 && last <= now && lo <= now
    requires Windows(cfg, before, admissions, lo, last, m)
    ensures var (after, ok) := Touch(cfg, before, now);
            Windows(cfg, Some(after), if ok then admissions + 1 else admissions, lo, now, m')
  {
    m' := m;
    if before == None || now > before.value.reset {
      m' := m + 1;
      Distribute(m, cfg.window);
      Distribute(m, Cap(cfg));
    }
  }

  lemma {:induction false} WindowsOpened(cfg: Config, calls: seq<Call>, key: string, n: nat, lo: int, hi: int)
      returns (m: nat)
    requires Ordered(calls) && 0 < n <= |calls| && cfg.window >= 0
    requires calls[n - 1].now <= hi
    ensures Windows(cfg, Lookup(TableAfter(cfg, calls, n), key),
                    Admissions(cfg, calls, key, 0, n, lo, hi), lo, calls[n - 1].now, m)
  {
    var now := calls[n - 1].now;
    var before := Lookup(TableAfter(cfg, calls, n - 1), key);
    var last := now;
    m := 0;
    if n > 1 {
      last := calls[n - 2].now;
      m := WindowsOpened(cfg, calls, key, n - 1, lo, hi);
    }
    var admissions := Admissions(cfg, calls, key, 0, n - 1, lo, hi);
    assert Windows(cfg, before, admissions, lo, last, m);
    if calls[n - 1].key == key {
      if now < lo {
        NoneInInterval(cfg, calls, key, n, lo, hi);
        m := 0;
      } else {
        m := WindowsStep(cfg, before, admissions, lo, last, m, now);
      }
    }
  }

  lemma WindowsBoundAdmissions(cfg: Config, entry: Option<Entry>, admissions: nat, lo: int, last: int, m: nat, k: nat)
    requires cfg.window >= 0 && k >= 1
    requires Windows(cfg, entry, admissions, lo, last, m) && last <= lo + k * cfg.window
    ensures admissions <= (k + 1) * Cap(cfg) - 1
  {
    if m >= 2 {
      assert (m - 1) * cfg.window < k * cfg.window;
      FewWindowsFit(cfg.window, m - 1, k);
    }
    Monotone(m, k, Cap(cfg));
    Distribute(k, Cap(cfg));
  }

  /** Any closed interval of length k windows holds at most (k+1)*cap - 1 admitted calls of a key. */
  lemma {:induction false} SlidingBound(cfg: Config, calls: seq<Call>, key: string, n: nat, lo: int, k: nat)
    requires Ordered(calls) && n <= |calls| && k >= 1
    ensures Admissions(cfg, calls, key, 0, n, lo, lo + k * cfg.window) <= (k + 1) * Cap(cfg) - 1
  {
    var hi := lo + k * cfg.window;
    if cfg.window < 0 || n == 0 {
      assert cfg.window < 0 ==> k * cfg.window < 0;
      NoneInInterval(cfg, calls, key, n, lo, hi);
      Distribute(k, Cap(cfg));
    } else if calls[n - 1].now > hi {
      SlidingBound(cfg, calls, key, n - 1, lo, k);
    } else {
      var m := WindowsOpened(cfg, calls, key, n, lo, hi);
      WindowsBoundAdmissions(cfg, Lookup(TableAfter(cfg, calls, n), key),
                             Admissions(cfg, calls, key, 0, n, lo, hi), lo, calls[n - 1].now, m, k);
    }
  }

  // ---------- The bound is attained ----------

  function Burst(key: string, now: int, n: nat): (calls: seq<Call>)
    ensures |calls| == n && forall i :: 0 <= i < n ==> calls[i] == Call(key, now)
  {
    seq(n, _ => Call(key, now))
  }

  // Windows that follow each other as closely as they can start one tick after the last one ended.
  function Start(cfg: Config, k: nat): int {
    if k == 0 then 0 else Start(cfg, k - 1) + cfg.window + 1
  }

  // One call opens a window at 0, cap-1 follow when it is about to end, and then each
  // of the k next windows receives a burst of `cap` calls at its start.
  function Greedy(cfg: Config, key: string, k: nat): seq<Call>
  {
    if k == 0 then [Call(key, 0)] + Burst(key, cfg.window, Cap(cfg) - 1)
    else Greedy(cfg, key, k - 1) + Burst(key, Start(cfg, k), Cap(cfg))
  }

  lemma {:induction false} AdmissionsIgnoreLaterCalls(cfg: Config, calls: seq<Call>, more: seq<Call>, key: string,
      b: nat, lo: int, hi: int)
    requires b <= |calls|
    ensures Admissions(cfg, calls + more, key, 0, b, lo, hi) == Admissions(cfg, calls, key, 0, b, lo, hi)
  {
    if b > 0 {
      AdmissionsIgnoreLaterCalls(cfg, calls, more, key, b - 1, lo, hi);
      TableIgnoresLaterCalls(cfg, calls, more, b - 1);
    }
  }

  // j calls of a burst fit into what is left of the window.
  lemma {:induction false} BurstAdmitted(cfg: Config, calls: seq<Call>, key: string, now: int, total: nat, j: nat,
      lo: int, hi: int)
    requires j <= total && lo <= now <= hi && cfg.window >= 0
    requires var e := Lookup(TableAfter(cfg, calls, |calls|), key);
             if e.Some? && now <= e.value.reset then 1 <= e.value.count <= Cap(cfg) - total else total <= Cap(cfg)
    ensures var run := calls + Burst(key, now, total);
            var e := Lookup(TableAfter(cfg, calls, |calls|), key);
            && Admissions(cfg, run, key, 0, |calls| + j, lo, hi) ==
                 Admissions(cfg, calls, key, 0, |calls|, lo, hi) + j
            && (j > 0 ==> Lookup(TableAfter(cfg, run, |calls| + j), key) ==
                          Some(if e.Some? && now <= e.value.reset then Entry(e.value.count + j, e.value.reset)
                               else Entry(j, now + cfg.window)))
  {
    hide TableAfter, Admissions, Lookup;
    var burst := Burst(key, now, total);
    TableIgnoresLaterCalls(cfg, calls, burst, |calls|);
    if j == 0 {
      AdmissionsIgnoreLaterCalls(cfg, calls, burst, key, |calls|, lo, hi);
    } else {
      BurstAdmitted(cfg, calls, key, now, total, j - 1, lo, hi);
      assert (calls + burst)[|calls| + j - 1] == Call(key, now);
      OneCallMore(cfg, calls + burst, |calls| + j, lo, hi);
    }
  }

  lemma {:induction false} OneCallMore(cfg: Config, calls: seq<Call>, n: nat, lo: int, hi: int)
    requires 0 < n <= |calls| && lo <= calls[n - 1].now <= hi
    ensures var c := calls[n - 1];
            var (after, ok) := Touch(cfg, Lookup(TableAfter(cfg, calls, n - 1), c.key), c.now);
            && Lookup(TableAfter(cfg, calls, n), c.key) == Some(after)
            && Admissions(cfg, calls, c.key, 0, n, lo, hi) ==
                 Admissions(cfg, calls, c.key, 0, n - 1, lo, hi) + if ok then 1 else 0
  {
    hide Touch;
  }

  // A full burst after the window has ended.
  lemma {:induction false} FullBurst(cfg: Config, calls: seq<Call>, key: string, now: int, lo: int, hi: int)
    requires cfg.window >= 0 && lo <= now <= hi
    requires var e := Lookup(TableAfter(cfg, calls, |calls|), key);
             e.Some? && now > e.value.reset
    ensures var run := calls + Burst(key, now, Cap(cfg));
            && Admissions(cfg, run, key, 0, |run|, lo, hi) ==
                 Admissions(cfg, calls, key, 0, |calls|, lo, hi) + Cap(cfg)
            && Lookup(TableAfter(cfg, run, |run|), key) == Some(Entry(Cap(cfg), now + cfg.window))
  {
    BurstAdmitted(cfg, calls, key, now, Cap(cfg), Cap(cfg), lo, hi);
  }

  lemma {:induction false} GreedyOrdered(cfg: Config, key: string, k: nat)
    requires cfg.window >= 0
    ensures var run := Greedy(cfg, key, k);
            && Ordered(run)
            && (forall i :: 0 <= i < |run| ==> run[i].now <= Start(cfg, k) + cfg.window)
            && (k > 0 ==> forall i :: 0 <= i < |run| ==> run[i].now <= Start(cfg, k))
  {
    if k > 0 {
      GreedyOrdered(cfg, key, k - 1);
    }
  }

  lemma {:induction false} GreedyRun(cfg: Config, key: string, k: nat, hi: int)
    requires cfg.window >= 1 && hi >= cfg.window && hi >= Start(cfg, k)
    ensures var run := Greedy(cfg, key, k);
            && Admissions(cfg, run, key, 0, |run|, cfg.window, hi) == k * Cap(cfg) + Cap(cfg) - 1
            && Lookup(TableAfter(cfg, run, |run|), key) == Some(Entry(Cap(cfg), Start(cfg, k) + cfg.window))
  {
    hide TableAfter, Admissions, Lookup;
    if k == 0 {
      GreedyFirstWindow(cfg, key, hi);
    } else {
      StartGrows(cfg, k);
      GreedyRun(cfg, key, k - 1, hi);
      FullBurst(cfg, Greedy(cfg, key, k - 1), key, Start(cfg, k), cfg.window, hi);
      Distribute(k - 1, Cap(cfg));
    }
  }

  lemma GreedyFirstWindow(cfg: Config, key: string, hi: int)
    requires 1 <= cfg.window <= hi
    ensures var run := Greedy(cfg, key, 0);
            && Admissions(cfg, run, key, 0, |run|, cfg.window, hi) == Cap(cfg) - 1
            && Lookup(TableAfter(cfg, run, |run|), key) == Some(Entry(Cap(cfg), cfg.window))
  {
    var first := [Call(key, 0)];
    assert TableAfter(cfg, first, 0) == map[];
    assert TableAfter(cfg, first, 1) == map[key := Entry(1, cfg.window)];
    assert Admissions(cfg, first, key, 0, 0, cfg.window, hi) == 0;
    BurstAdmitted(cfg, first, key, cfg.window, Cap(cfg) - 1, Cap(cfg) - 1, cfg.window, hi);
    assert first + Burst(key, cfg.window, 0) == first;
  }

  lemma {:induction false} StartGrows(cfg: Config, k: nat)
    requires cfg.window >= 0
    ensures Start(cfg, k) == k * cfg.window + k && 0 <= k * cfg.window
  {
    if k > 0 {
      StartGrows(cfg, k - 1);
      Distribute(k - 1, cfg.window);
    }
  }

  /** The bound is exact: for every limit and every k <= window some run attains it. */
  lemma BoundAttained(cfg: Config, key: string, k: nat)
    requires 1 <= k <= cfg.window
    ensures var run := Greedy(cfg, key, k);
            && Ordered(run)
            && Admissions(cfg, run, key, 0, |run|, cfg.window, cfg.window + k * cfg.window) == (k + 1) * Cap(cfg) - 1
  {
    StartGrows(cfg, k);
    GreedyOrdered(cfg, key, k);
    GreedyRun(cfg, key, k, cfg.window + k * cfg.window);
    Distribute(k, Cap(cfg));
  }

  // ---------- Denials are justified ----------

  // The current window of a key was opened by an admitted call, and its counter is
  // the number of admissions since.
  lemma {:induction false} CounterCountsItsWindow(cfg: Config, calls: seq<Call>, key: string, n: nat, lo: int,
      hi: int) returns (s: nat)
    requires Ordered(calls) && n <= |calls|
    requires forall i :: 0 <= i < n ==> calls[i].now <= hi
    requires key in TableAfter(cfg, calls, n)
    requires lo <= TableAfter(cfg, calls, n)[key].reset - cfg.window
    ensures s < n && calls[s].key == key && Admitted(cfg, calls, s)
    ensures var e := TableAfter(cfg, calls, n)[key];
            && calls[s].now == e.reset - cfg.window
            && 1 <= e.count <= Cap(cfg)
            && Admissions(cfg, calls, key, s, n, lo, hi) == e.count
  {
    var c := calls[n - 1];
    if c.key != key {
      s := CounterCountsItsWindow(cfg, calls, key, n - 1, lo, hi);
    } else if key in TableAfter(cfg, calls, n - 1) && c.now <= TableAfter(cfg, calls, n - 1)[key].reset {
      s := CounterCountsItsWindow(cfg, calls, key, n - 1, lo, hi);
    } else {
      s := n - 1;
      assert Admissions(cfg, calls, key, s, s, lo, hi) == 0;
    }
  }

  /** A call denied at time T was preceded, inside [T - window, T], by exactly cap admissions of
      the key, the first of which opened the window that is still current. */
  lemma {:induction false} JustifiedDenial(cfg: Config, calls: seq<Call>, i: nat) returns (s: nat)
    requires Ordered(calls) && i < |calls|
    requires !Admitted(cfg, calls, i)
    ensures s < i && calls[s].key == calls[i].key && Admitted(cfg, calls, s)
    ensures calls[i].now - cfg.window <= calls[s].now <= calls[i].now
    ensures var e := Lookup(TableAfter(cfg, calls, i), calls[i].key);
            e.Some? && calls[s].now == e.value.reset - cfg.window
    ensures Admissions(cfg, calls, calls[i].key, s, i, calls[i].now - cfg.window, calls[i].now) == Cap(cfg)
  {
    s := CounterCountsItsWindow(cfg, calls, calls[i].key, i, calls[i].now - cfg.window, calls[i].now);
  }

  // ---------- Keys do not influence each other ----------

  function Times(calls: seq<Call>, key: string, n: nat): seq<int>
    requires n <= |calls|
  {
    if n == 0 then []
    else Times(calls, key, n - 1) + if calls[n - 1].key == key then [calls[n - 1].now] else []
  }

  function Decisions(cfg: Config, calls: seq<Call>, key: string, n: nat): seq<bool>
    requires n <= |calls|
  {
    if n == 0 then []
    else Decisions(cfg, calls, key, n - 1) + if calls[n - 1].key == key then [Admitted(cfg, calls, n - 1)] else []
  }

  // The limiter as a client that is alone on it would see it.
  function Solo(cfg: Config, times: seq<int>): (Option<Entry>, seq<bool>) {
    if times == [] then (None, [])
    else
      var (before, decisions) := Solo(cfg, times[..|times| - 1]);
      var (after, ok) := Touch(cfg, before, times[|times| - 1]);
      (Some(after), decisions + [ok])
  }

  /** The decisions for a key are those of a limiter that serves this key alone. */
  lemma {:induction false} Locality(cfg: Config, calls: seq<Call>, key: string, n: nat)
    requires n <= |calls|
    ensures Solo(cfg, Times(calls, key, n)) ==
            (Lookup(TableAfter(cfg, calls, n), key), Decisions(cfg, calls, key, n))
  {
    if n > 0 {
      Locality(cfg, calls, key, n - 1);
      var times := Times(calls, key, n);
      if calls[n - 1].key == key {
        assert times[..|times| - 1] == Times(calls, key, n - 1);
      } else {
        assert times == Times(calls, key, n - 1);
        assert Decisions(cfg, calls, key, n) == Decisions(cfg, calls, key, n - 1);
      }
    }
  }

  lemma {:induction false} SameTimesSameDecisions(cfg: Config, calls: seq<Call>, other: seq<Call>, key: string)
    requires Times(calls, key, |calls|) == Times(other, key, |other|)
    ensures Decisions(cfg, calls, key, |calls|) == Decisions(cfg, other, key, |other|)
  {
    Locality(cfg, calls, key, |calls|);
    Locality(cfg, other, key, |other|);
  }

  // ---------- The limiter object ----------

  class RateEntry {
    var count: int
    var reset: int

    constructor (count: int, reset: int)
      ensures this.count == count && this.reset == reset
    {
      this.count, this.reset := count, reset;
    }
  }

  class RateLimiter {
    const cfg: Config
    var items: map<string, RateEntry>
    // The calls served so far.
    ghost var calls: seq<Call>
    ghost var entries: set<RateEntry>

    ghost predicate Distinct()
      reads this
    {
      forall k1, k2 :: k1 in items && k2 in items && k1 != k2 ==> items[k1] != items[k2]
    }

    ghost predicate Holds(table: map<string, Entry>)
      reads this, entries
    {
      && items.Keys == table.Keys
      && forall k :: k in items ==>
           items[k] in entries && items[k].count == table[k].count && items[k].reset == table[k].reset
    }

    ghost predicate Valid()
      reads this, entries
    {
      && Distinct()
      && Ordered(calls)
      && Holds(TableAfter(cfg, calls, |calls|))
    }

    constructor (limit: int, window: int)
      ensures Valid() && calls == [] && cfg == Config(limit, window) && items == map[]
    {
      cfg := Config(limit, window);
      items := map[];
      calls, entries := [], {};
    }

    // The critical section: one table step, which touches only this key's entry.
    method AllowLocked(key: string, now: int, ghost before: map<string, Entry>) returns (ok: bool)
      requires Distinct() && Holds(before)
      modifies this`items, this`entries, entries
      ensures Distinct() && fresh(entries - old(entries))
      ensures Holds(before[key := Touch(cfg, Lookup(before, key), now).0])
      ensures ok == Touch(cfg, Lookup(before, key), now).1
    {
      if key !in items || now > items[key].reset {
        var entry := new RateEntry(1, now + cfg.window);
        items, entries := items[key := entry], entries + {entry};
        ok := true;
      } else if items[key].count >= cfg.limit {
        ok := false;
      } else {
        items[key].count := items[key].count + 1;
        ok := true;
      }
    }

    /** Serves one call: the run is extended by it, and the answer is the run's decision. */
    method Allow(key: string, now: int) returns (ok: bool)
      requires Valid()
      requires calls != [] ==> calls[|calls| - 1].now <= now
      modifies this, entries
      ensures Valid() && fresh(entries - old(entries))
      ensures calls == old(calls) + [Call(key, now)]
      ensures ok == Admitted(cfg, calls, |calls| - 1)
    {
      hide TableAfter, Touch;
      AppendCall(cfg, calls, Call(key, now));
      ok := AllowLocked(key, now, TableAfter(cfg, calls, |calls|));
      calls := calls + [Call(key, now)];
    }
  }
}
