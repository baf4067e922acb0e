/** The provider cache over the factory over the table, with lookups interleaved step by step.

    A lookup (router.go GetProvider / GetDefaultProvider) consults the cache, reads the table, asks
    the factory and fills the cache.  Each of these is one step; between them other lookups, table
    statements and the clock may go.  `AfterRun` is the state after the first n steps. */
module Staleness {
  import opened Wrappers
  import opened ProviderTable
  import Factory
  import Keys
  import Text

  type Provider = Factory.Provider

  datatype Cached = Cached(provider: Provider, expires: int)

  // slot 0 is the tenant's default, any other slot the provider with that id
  datatype Want = ById(tenant: int, id: int) | Default(tenant: int)

  function Slot(w: Want): int { if w.ById? then w.id else 0 }

  function CacheKey(w: Want): string { Keys.FmtKey(w.tenant, Slot(w)) }

  // cache.get: an expired entry is dropped.
  function CacheGet(items: map<string, Cached>, key: string, now: int): (map<string, Cached>, Option<Provider>) {
    if key !in items || now > items[key].expires then (items - {key}, None)
    else (items, Some(items[key].provider))
  }

  // cache.set
  function CacheSet(items: map<string, Cached>, key: string, provider: Provider, expires: int): map<string, Cached> {
    items[key := Cached(provider, expires)]
  }

  // Where a lookup that missed the cache has got to.
  datatype Pending =
    | NeedRow(want: Want)
    | NeedList(want: Want)
    | HaveConfig(want: Want, config: ProviderConfig, readAt: int)
    | HaveInstance(want: Want, provider: Provider, readAt: int)

  datatype State = State(
    now: int, table: Table, items: map<string, Cached>, instances: map<string, Provider>,
    pending: map<nat, Pending>)

  datatype Step =
    | Tick(elapsed: nat)
    | Sql(statement: Statement)
    | Begin(g: nat, want: Want)
    | Read(g: nat)
    | ReadFails(g: nat)
    | Construct(g: nat)
    | Fill(g: nat)
    | Build(config: ProviderConfig)  // the factory used from the fallback chain

  /** What a lookup hands back. */
  datatype Outcome = Outcome(want: Want, result: Result<Provider, string>)

  const INIT := State(0, EMPTY, map[], map[], map[])

  function Forget(s: State, g: nat): State { s.(pending := s.pending - {g}) }

  function Park(s: State, g: nat, p: Pending): State { s.(pending := s.pending[g := p]) }

  function Missing(w: Want): string {
    if w.ById? then "provider not found" else "no providers available"
  }

  // The table queries of a lookup.
  function ReadStep(s: State, g: nat, p: Pending, fails: bool): (State, Option<Outcome>) {
    match p
    case NeedRow(ById(tenant, id)) =>
      var row := ProviderByID(s.table.rows, tenant, id);
      if fails || row == None then (Forget(s, g), Some(Outcome(p.want, Err(Missing(p.want)))))
      else (Park(s, g, HaveConfig(p.want, row.value, s.now)), None)
    case NeedRow(Default(tenant)) =>
      var row := DefaultRow(s.table.rows, tenant);
      if fails || row == None then (Park(s, g, NeedList(p.want)), None)
      else (Park(s, g, HaveConfig(p.want, row.value.config, s.now)), None)
    case NeedList(w) =>
      var row := Head(ListProviders(s.table.rows, w.tenant));
      if fails || row == None then (Forget(s, g), Some(Outcome(w, Err(Missing(w)))))
      else (Park(s, g, HaveConfig(w, row.value.config, s.now)), None)
    case _ => (s, None)
  }

  // A step that is not enabled changes nothing.
  function Next(ttl: int, s: State, step: Step): (State, Option<Outcome>) {
    match step
    case Tick(d) => (s.(now := s.now + d), None)
    case Sql(statement) => (s.(table := Exec(s.table, statement).0), None)
    case Build(config) => (s.(instances := Factory.Create(s.instances, config).0), None)
    case Begin(g, want) =>
      if g in s.pending then (s, None)
      else
        var (items, hit) := CacheGet(s.items, CacheKey(want), s.now);
        var s' := s.(items := items);
        if hit.Some? then (s', Some(Outcome(want, Ok(hit.value))))
        else (Park(s', g, NeedRow(want)), None)
    case Read(g) =>
      if g in s.pending then ReadStep(s, g, s.pending[g], false) else (s, None)
    case ReadFails(g) =>
      if g in s.pending then ReadStep(s, g, s.pending[g], true) else (s, None)
    case Construct(g) =>
      if g in s.pending && s.pending[g].HaveConfig? then
        var p := s.pending[g];
        var (instances, made) := Factory.Create(s.instances, p.config);
        var s' := s.(instances := instances);
        if made == None then (Forget(s', g), Some(Outcome(p.want, Err("provider not supported"))))
        else (Park(s', g, HaveInstance(p.want, made.value, p.readAt)), None)
      else (s, None)
    case Fill(g) =>
      if g in s.pending && s.pending[g].HaveInstance? then
        var p := s.pending[g];
        (Forget(s, g).(items := CacheSet(s.items, CacheKey(p.want), p.provider, s.now + ttl)),
         Some(Outcome(p.want, Ok(p.provider))))
      else (s, None)
  }

  function AfterRun(ttl: int, run: seq<Step>, n: nat): State
    requires n <= |run|
  {
    if n == 0 then INIT else Next(ttl, AfterRun(ttl, run, n - 1), run[n - 1]).0
  }

  // No lookup takes longer than `lag` from reading the table to filling the cache.
  ghost predicate Prompt(ttl: int, run: seq<Step>, lag: int) {
    forall n :: 0 <= n < |run| && run[n].Fill? ==>
      var s := AfterRun(ttl, run, n);
      run[n].g in s.pending && s.pending[run[n].g].HaveInstance? ==> s.now - s.pending[run[n].g].readAt <= lag
  }

  // ---------- What the table held ----------

  // The table has this configuration for a slot: in the tenant's row with that id, or for slot 0 in the
  // tenant's first active row.
  ghost predicate Held(t: Table, tenant: int, slot: int, config: ProviderConfig) {
    if slot == 0 then exists row :: IsFirst(t.rows, tenant, row) && row.config == config
    else exists row :: row in t.rows && row.tenant == tenant && row.config.id == slot && row.config == config
  }

  // State j held the configuration, no earlier than `since`, and the provider is the
  // factory's instance for it.
  ghost predicate Source(ttl: int, run: seq<Step>, n: nat, j: nat, config: ProviderConfig,
                         tenant: int, slot: int, provider: Provider, since: int)
    requires j <= n <= |run|
  {
    && AfterRun(ttl, run, j).now >= since
    && Held(AfterRun(ttl, run, j).table, tenant, slot, config)
    && Lookup(AfterRun(ttl, run, n).instances, Factory.Key(config)) == Some(provider)
  }

  ghost predicate Sourced(ttl: int, run: seq<Step>, n: nat, tenant: int, slot: int, provider: Provider, since: int)
    requires n <= |run|
  {
    exists j: nat, config :: j <= n && Source(ttl, run, n, j, config, tenant, slot, provider, since)
  }

  ghost predicate PendingSourced(ttl: int, run: seq<Step>, n: nat, p: Pending)
    requires n <= |run|
  {
    match p
    case HaveConfig(w, config, readAt) =>
      exists j: nat :: j <= n && AfterRun(ttl, run, j).now == readAt &&
          Held(AfterRun(ttl, run, j).table, w.tenant, Slot(w), config)
    case HaveInstance(w, provider, readAt) => Sourced(ttl, run, n, w.tenant, Slot(w), provider, readAt)
    case _ => true
  }

  ghost predicate ItemsSourced(ttl: int, run: seq<Step>, n: nat, lag: int)
    requires n <= |run|
  {
    var s := AfterRun(ttl, run, n);
    forall tenant, slot :: Keys.FmtKey(tenant, slot) in s.items ==>
      var item := s.items[Keys.FmtKey(tenant, slot)];
      Sourced(ttl, run, n, tenant, slot, item.provider, item.expires - ttl - lag)
  }

  ghost predicate Inv(ttl: int, run: seq<Step>, n: nat, lag: int)
    requires n <= |run|
  {
    var s := AfterRun(ttl, run, n);
    && WellFormed(s.table)
    && Factory.Valid(s.instances)
    && ItemsSourced(ttl, run, n, lag)
    && (forall g :: g in s.pending ==> PendingSourced(ttl, run, n, s.pending[g]))
    && (forall g :: g in s.pending ==> WellKinded(s.pending[g]))
  }

  predicate WellKinded(p: Pending) {
    match p
    case NeedRow(_) => true
    case NeedList(w) => w.Default?
    case HaveConfig(w, _, _) => w.Default? || w.id > 0
    case HaveInstance(w, _, _) => w.Default? || w.id > 0
  }

  // Factory entries stay, so a source remains one.
  lemma {:induction false} SourcedStays(ttl: int, run: seq<Step>, n: nat, tenant: int, slot: int,
      provider: Provider, since: int, earlier: int)
    requires n < |run| && Factory.Valid(AfterRun(ttl, run, n).instances)
    requires Sourced(ttl, run, n, tenant, slot, provider, since) && earlier <= since
    ensures Sourced(ttl, run, n + 1, tenant, slot, provider, earlier)
  {
    var s := AfterRun(ttl, run, n);
    var j: nat, config :| j <= n && Source(ttl, run, n, j, config, tenant, slot, provider, since);
    InstancesStay(ttl, s, run[n]);
    AfterStep(ttl, run, n);
    hide Next, AfterRun, Held, Factory.Valid, Factory.Key;
    assert Source(ttl, run, n + 1, j, config, tenant, slot, provider, earlier);
  }

  /** No step replaces or removes a factory instance. */
  lemma InstancesStay(ttl: int, s: State, step: Step)
    requires Factory.Valid(s.instances)
    ensures var s' := Next(ttl, s, step).0;
            Factory.Valid(s'.instances) && forall k :: k in s.instances ==>
                k in s'.instances && s'.instances[k] == s.instances[k]
  {
    hide Factory.Create, Factory.Valid, Factory.Key, Exec, DefaultRow, ProviderByID, ListProviders, CacheKey;
    if step.Build? {
      Factory.CreateMemoises(s.instances, step.config);
    } else if step.Construct? && step.g in s.pending && s.pending[step.g].HaveConfig? {
      Factory.CreateMemoises(s.instances, s.pending[step.g].config);
    }
  }

  lemma TableStaysWellFormed(ttl: int, s: State, step: Step)
    requires WellFormed(s.table)
    ensures WellFormed(Next(ttl, s, step).0.table)
  {
    if step.Sql? {
      ExecKeepsWellFormed(s.table, step.statement);
    }
  }

  // The cache after a step: each entry was there before, or was filled by this step.
  lemma ItemsStep(ttl: int, s: State, step: Step, key: string)
    ensures var s' := Next(ttl, s, step).0;
            key in s'.items ==>
              || (key in s.items && s'.items[key] == s.items[key])
              || (step.Fill? && step.g in s.pending && s.pending[step.g].HaveInstance? &&
                  CacheKey(s.pending[step.g].want) == key
                  && s'.items[key] == Cached(s.pending[step.g].provider, s.now + ttl))
  {
  }

  lemma {:induction false} AfterStep(ttl: int, run: seq<Step>, n: nat)
    requires n < |run|
    ensures AfterRun(ttl, run, n + 1) == Next(ttl, AfterRun(ttl, run, n), run[n]).0
  {
  }

  lemma {:induction false} ItemStaysSourced(ttl: int, run: seq<Step>, n: nat, lag: int, tenant: int, slot: int,
      key: string)
    requires n < |run| && Inv(ttl, run, n, lag) && Prompt(ttl, run, lag)
    requires key == Keys.FmtKey(tenant, slot) && key in AfterRun(ttl, run, n + 1).items
    ensures var item := AfterRun(ttl, run, n + 1).items[key];
            Sourced(ttl, run, n + 1, tenant, slot, item.provider, item.expires - ttl - lag)
  {
    hide Next, AfterRun, Sourced, Keys.FmtKey, WellFormed, Factory.Valid;
    AfterStep(ttl, run, n);
    var s, s' := AfterRun(ttl, run, n), AfterRun(ttl, run, n + 1);
    var step, item := run[n], s'.items[key];
    ItemsStep(ttl, s, step, key);
    if key in s.items && item == s.items[key] {
      SourcedStays(ttl, run, n, tenant, slot, item.provider, item.expires - ttl - lag, item.expires - ttl - lag);
    } else {
      var p := s.pending[step.g];
      assert PendingSourced(ttl, run, n, p);
      Keys.FmtKeyInjective(tenant, slot, p.want.tenant, Slot(p.want));
      assert s.now - p.readAt <= lag;
      SourcedStays(ttl, run, n, tenant, slot, p.provider, p.readAt, item.expires - ttl - lag);
    }
  }

  lemma {:induction false} ItemsStaySourced(ttl: int, run: seq<Step>, n: nat, lag: int)
    requires n < |run| && Inv(ttl, run, n, lag) && Prompt(ttl, run, lag)
    ensures ItemsSourced(ttl, run, n + 1, lag)
  {
    hide Next, AfterRun, WellFormed, Factory.Valid, Sourced, PendingSourced, WellKinded, Keys.FmtKey, Inv, Prompt;
    var s' := AfterRun(ttl, run, n + 1);
    forall tenant, slot | Keys.FmtKey(tenant, slot) in s'.items
      ensures var item := s'.items[Keys.FmtKey(tenant, slot)];
              Sourced(ttl, run, n + 1, tenant, slot, item.provider, item.expires - ttl - lag)
    {
      ItemStaysSourced(ttl, run, n, lag, tenant, slot, Keys.FmtKey(tenant, slot));
    }
  }

  lemma ReadIsHeld(s: State, g: nat, fails: bool)
    requires WellFormed(s.table) && g in s.pending && WellKinded(s.pending[g])
    requires s.pending[g].NeedRow? || s.pending[g].NeedList?
    ensures var s' := ReadStep(s, g, s.pending[g], fails).0;
            g in s'.pending ==>
              var c := s'.pending[g];
              && WellKinded(c) && !c.HaveInstance?
              && (c.HaveConfig? ==> c.readAt == s.now && Held(s.table, c.want.tenant, Slot(c.want), c.config))
  {
    hide IsFirst, ListProviders, DefaultRow;
    var w, rows := s.pending[g].want, s.table.rows;
    if w.Default? {
      DefaultRowFound(rows, w.tenant);
      var row := DefaultRow(rows, w.tenant);
      if row.Some? {
        DefaultRowIsHead(s.table, w.tenant, row.value);
        HeadExactly(s.table, w.tenant, row.value);
      }
      if ListProviders(rows, w.tenant) != [] {
        HeadExactly(s.table, w.tenant, ListProviders(rows, w.tenant)[0]);
      }
    } else if ProviderByID(rows, w.tenant, w.id).Some? {
      ProviderByIDExactly(s.table, w.tenant, w.id, ProviderByID(rows, w.tenant, w.id).value);
    }
  }

  // A lookup after a step: not this step's, or read, or constructed, by it.
  lemma PendingStep(ttl: int, s: State, step: Step, g: nat)
    requires WellFormed(s.table) && Factory.Valid(s.instances)
    requires g in s.pending ==> WellKinded(s.pending[g])
    ensures var s' := Next(ttl, s, step).0;
            g in s'.pending ==>
              var p := s'.pending[g];
              && WellKinded(p)
              && (|| (g in s.pending && p == s.pending[g])
                  || p.NeedRow? || p.NeedList?
                  || (p.HaveConfig? && p.readAt == s.now && Held(s.table, p.want.tenant, Slot(p.want), p.config))
                  || (p.HaveInstance? && g in s.pending && s.pending[g].HaveConfig? && s.pending[g].want == p.want
                      && s.pending[g].readAt == p.readAt
                      && Lookup(s'.instances, Factory.Key(s.pending[g].config)) == Some(p.provider)))
  {
    hide Factory.Create, Factory.Valid, Factory.Key, WellFormed, Held, CacheKey, CacheGet, DefaultRow, ListProviders;
    if (step.Read? || step.ReadFails?) && step.g == g && g in s.pending &&
        (s.pending[g].NeedRow? || s.pending[g].NeedList?) {
      ReadIsHeld(s, g, step.ReadFails?);
    } else if step.Construct? && step.g == g && g in s.pending && s.pending[g].HaveConfig? {
      Factory.CreateMemoises(s.instances, s.pending[g].config);
    }
  }

  lemma {:induction false} PendingStaysSourced(ttl: int, run: seq<Step>, n: nat, lag: int, g: nat)
    requires n < |run| && Inv(ttl, run, n, lag)
    requires g in AfterRun(ttl, run, n + 1).pending
    ensures PendingSourced(ttl, run, n + 1, AfterRun(ttl, run, n + 1).pending[g])
    ensures WellKinded(AfterRun(ttl, run, n + 1).pending[g])
  {
    var s, s' := AfterRun(ttl, run, n), AfterRun(ttl, run, n + 1);
    var p := s'.pending[g];
    assert s' == Next(ttl, s, run[n]).0;
    PendingStep(ttl, s, run[n], g);
    hide Next, Held, WellFormed, Factory.Valid, Factory.Key;
    assert g in s.pending ==> PendingSourced(ttl, run, n, s.pending[g]);
    if g in s.pending && p == s.pending[g] {
      if p.HaveInstance? {
        SourcedStays(ttl, run, n, p.want.tenant, Slot(p.want), p.provider, p.readAt, p.readAt);
      }
    } else if p.HaveInstance? {
      var config := s.pending[g].config;
      var j: nat :| j <= n && AfterRun(ttl, run, j).now == p.readAt &&
          Held(AfterRun(ttl, run, j).table, p.want.tenant, Slot(p.want), config);
      assert Source(ttl, run, n + 1, j, config, p.want.tenant, Slot(p.want), p.provider, p.readAt);
    }
  }

  lemma {:induction false} InvStep(ttl: int, run: seq<Step>, n: nat, lag: int)
    requires n < |run| && Prompt(ttl, run, lag) && Inv(ttl, run, n, lag)
    ensures ItemsSourced(ttl, run, n + 1, lag)
    ensures var s' := AfterRun(ttl, run, n + 1);
            forall g :: g in s'.pending ==>
              PendingSourced(ttl, run, n + 1, s'.pending[g]) && WellKinded(s'.pending[g])
  {
    hide *;
    var s' := AfterRun(ttl, run, n + 1);
    assert ItemsSourced(ttl, run, n + 1, lag) by {
      ItemsStaySourced(ttl, run, n, lag);
    }
    forall g | g in s'.pending
      ensures PendingSourced(ttl, run, n + 1, s'.pending[g]) && WellKinded(s'.pending[g])
    {
      PendingStaysSourced(ttl, run, n, lag, g);
    }
  }

  lemma {:induction false} NothingYet(ttl: int, run: seq<Step>, lag: int)
    ensures Inv(ttl, run, 0, lag)
  {
  }

  lemma {:induction false} Invariant(ttl: int, run: seq<Step>, n: nat, lag: int)
    requires n <= |run| && Prompt(ttl, run, lag)
    ensures Inv(ttl, run, n, lag)
  {
    hide Next, AfterRun, WellFormed, Factory.Valid, PendingSourced, WellKinded, ItemsSourced, Prompt;
    if n == 0 {
      NothingYet(ttl, run, lag);
    } else {
      Invariant(ttl, run, n - 1, lag);
      AfterStep(ttl, run, n - 1);
      TableStaysWellFormed(ttl, AfterRun(ttl, run, n - 1), run[n - 1]);
      InstancesStay(ttl, AfterRun(ttl, run, n - 1), run[n - 1]);
      InvStep(ttl, run, n - 1, lag);
    }
  }

  // A lookup succeeds on an unexpired entry, or when it fills the cache itself.
  lemma SuccessIsHitOrFill(ttl: int, s: State, step: Step)
    requires var out := Next(ttl, s, step).1; out.Some? && out.value.result.Ok?
    ensures var out := Next(ttl, s, step).1.value;
            var key := CacheKey(out.want);
            || (step.Begin? && key in s.items && s.items[key].provider == out.result.value &&
                s.now <= s.items[key].expires)
            || (step.Fill? && step.g in s.pending &&
                s.pending[step.g] == HaveInstance(out.want, out.result.value, s.pending[step.g].readAt))
  {
  }

  /** Bounded staleness.  Whatever provider a lookup hands back at time T is the factory's instance
      for a configuration that the table held for this slot at some moment in [T - ttl - lag, T],
      where lag is the longest time a lookup spends between reading the table and filling the cache. */
  lemma {:induction false} BoundedStaleness(ttl: int, run: seq<Step>, n: nat, lag: int)
    requires n < |run| && Prompt(ttl, run, lag) && ttl >= 0
    requires var out := Next(ttl, AfterRun(ttl, run, n), run[n]).1; out.Some? && out.value.result.Ok?
    ensures var s := AfterRun(ttl, run, n);
            var out := Next(ttl, s, run[n]).1.value;
            Sourced(ttl, run, n, out.want.tenant, Slot(out.want), out.result.value, s.now - ttl - lag)
  {
    hide AfterRun, Sourced, Keys.FmtKey, WellFormed, Factory.Valid, Next, Prompt;
    Invariant(ttl, run, n, lag);
    var s := AfterRun(ttl, run, n);
    SuccessIsHitOrFill(ttl, s, run[n]);
    var out := Next(ttl, s, run[n]).1.value;
    if run[n].Begin? {
      var item := s.items[Keys.FmtKey(out.want.tenant, Slot(out.want))];
      Weaken(ttl, run, n, out.want.tenant, Slot(out.want), item.provider, item.expires - ttl - lag,
          s.now - ttl - lag);
    } else {
      var p := s.pending[run[n].g];
      assert PendingSourced(ttl, run, n, p);
      assert s.now - p.readAt <= lag by { FillIsPrompt(ttl, run, n, lag); }
      Weaken(ttl, run, n, out.want.tenant, Slot(out.want), p.provider, p.readAt, s.now - ttl - lag);
    }
  }

  lemma {:induction false} FillIsPrompt(ttl: int, run: seq<Step>, n: nat, lag: int)
    requires n < |run| && Prompt(ttl, run, lag) && run[n].Fill?
    ensures var s := AfterRun(ttl, run, n);
            run[n].g in s.pending && s.pending[run[n].g].HaveInstance? ==> s.now - s.pending[run[n].g].readAt <= lag
  {
  }

  lemma {:induction false} Weaken(ttl: int, run: seq<Step>, n: nat, tenant: int, slot: int, provider: Provider,
      since: int, earlier: int)
    requires n <= |run| && earlier <= since
    requires Sourced(ttl, run, n, tenant, slot, provider, since)
    ensures Sourced(ttl, run, n, tenant, slot, provider, earlier)
  {
    var j: nat, config :| j <= n && Source(ttl, run, n, j, config, tenant, slot, provider, since);
    assert Source(ttl, run, n, j, config, tenant, slot, provider, earlier);
  }

  // ---------- The bound is exact ----------

  // A lookup reads the row, the row is deleted, the lookup fills the cache `lag` ticks later, and
  // another one hits the entry at the last moment.
  function SlowLookup(ttl: nat, c: ProviderConfig, lag: nat): seq<Step> {
    [Sql(Insert(7, c, true, false)), Begin(0, ById(7, 1)), Read(0), Sql(Delete(7, 1)), Tick(lag), Construct(0),
        Fill(0),
     Tick(ttl), Begin(0, ById(7, 1))]
  }

  lemma {:induction false} SlowLookupReads(ttl: nat, c: ProviderConfig, lag: nat, run: seq<Step>,
      stored: ProviderConfig)
    requires run == SlowLookup(ttl, c, lag) && stored == c.(id := 1)
    ensures forall n :: 0 <= n <= 3 ==> AfterRun(ttl, run, n).now == 0
    ensures AfterRun(ttl, run, 3) ==
              State(0, Table([Row(7, stored, true, false)], 2), map[], map[], map[0 := HaveConfig(ById(7, 1),
                  stored, 0)])
  {
    var row := Row(7, stored, true, false);
    assert AfterRun(ttl, run, 0) == INIT;
    assert AfterRun(ttl, run, 1) == State(0, Table([row], 2), map[], map[], map[]);
    assert AfterRun(ttl, run, 2) == State(0, Table([row], 2), map[], map[], map[0 := NeedRow(ById(7, 1))]);
    assert Find([row], 7, 1) == 0;
  }

  lemma {:induction false} SlowLookupConstructs(ttl: nat, c: ProviderConfig, lag: nat, run: seq<Step>,
      stored: ProviderConfig)
    requires run == SlowLookup(ttl, c, lag) && stored == c.(id := 1) && Factory.Build(c).Some?
    ensures forall n :: 0 <= n <= 4 ==> AfterRun(ttl, run, n).now == 0
    ensures forall n :: 4 <= n <= 6 ==> AfterRun(ttl, run, n).table == Table([], 2)
    ensures AfterRun(ttl, run, 6) ==
              State(lag, Table([], 2), map[], map[Factory.Key(stored) := Factory.Build(stored).value],
                    map[0 := HaveInstance(ById(7, 1), Factory.Build(stored).value, 0)])
  {
    hide AfterRun, Next, Factory.Build, Factory.Key;
    var pending := map[0 := HaveConfig(ById(7, 1), stored, 0)];
    SlowLookupReads(ttl, c, lag, run, stored);
    AfterStep(ttl, run, 3);
    DeleteStep(ttl, AfterRun(ttl, run, 3), Row(7, stored, true, false));
    AfterStep(ttl, run, 4);
    TickStep(ttl, AfterRun(ttl, run, 4), lag);
    AfterStep(ttl, run, 5);
    BuildsAnyId(c, 1);
    ConstructStep(ttl, AfterRun(ttl, run, 5), ById(7, 1), stored);
  }

  lemma DeleteStep(ttl: int, s: State, row: Row)
    requires s.table.rows == [row]
    ensures Next(ttl, s, Sql(Delete(row.tenant, row.config.id))).0 == s.(table := Table([], s.table.nextId))
  {
    assert Find([row], row.tenant, row.config.id) == 0;
  }

  lemma TickStep(ttl: int, s: State, elapsed: nat)
    ensures Next(ttl, s, Tick(elapsed)).0 == s.(now := s.now + elapsed)
  {
  }

  lemma BuildsAnyId(c: ProviderConfig, id: int)
    ensures Factory.Build(c).Some? <==> Factory.Build(c.(id := id)).Some?
  {
  }

  lemma ConstructStep(ttl: int, s: State, want: Want, config: ProviderConfig)
    requires s.pending == map[0 := HaveConfig(want, config, 0)] && s.instances == map[] && Factory.Build(config).Some?
    ensures Next(ttl, s, Construct(0)).0 ==
              s.(instances := map[Factory.Key(config) := Factory.Build(config).value],
                 pending := map[0 := HaveInstance(want, Factory.Build(config).value, 0)])
  {
    hide Factory.Key, Factory.Build;
  }

  lemma {:induction false} SlowLookupHits(ttl: nat, c: ProviderConfig, lag: nat, run: seq<Step>, provider: Provider)
    requires run == SlowLookup(ttl, c, lag) && Factory.Build(c).Some? && Some(provider) == Factory.Build(c.(id := 1))
    ensures forall n :: 0 <= n <= 4 ==> AfterRun(ttl, run, n).now == 0
    ensures forall n :: 4 <= n <= 8 ==> AfterRun(ttl, run, n).table.rows == []
    ensures var s := AfterRun(ttl, run, 6);
            s.now == lag && s.pending == map[0 := HaveInstance(ById(7, 1), provider, 0)]
    ensures var s := AfterRun(ttl, run, 8);
            && s.now == ttl + lag && s.pending == map[]
            && s.items == map[Keys.FmtKey(7, 1) := Cached(provider, ttl + lag)]
  {
    var stored := c.(id := 1);
    SlowLookupConstructs(ttl, c, lag, run, stored);
    hide Keys.FmtKey, Factory.Key, Factory.Build;
    var s := AfterRun(ttl, run, 6);
    var items := map[Keys.FmtKey(7, 1) := Cached(provider, ttl + lag)];
    assert AfterRun(ttl, run, 7) == s.(pending := map[], items := items);
    assert AfterRun(ttl, run, 8) == s.(pending := map[], items := items, now := ttl + lag);
  }

  // The n-th step ends a lookup with a provider.
  predicate Succeeds(ttl: int, run: seq<Step>, n: nat)
    requires n < |run|
  {
    var out := Next(ttl, AfterRun(ttl, run, n), run[n]).1;
    out.Some? && out.value.result.Ok?
  }

  // What the n-th step hands back was in the table at most `age` ticks before.
  ghost predicate Within(ttl: int, run: seq<Step>, n: nat, age: int)
    requires n < |run| && Succeeds(ttl, run, n)
  {
    var s := AfterRun(ttl, run, n);
    var out := Next(ttl, s, run[n]).1.value;
    Sourced(ttl, run, n, out.want.tenant, Slot(out.want), out.result.value, s.now - age)
  }

  /** The bound is attained: for every ttl and lag there is a run whose lookups all take at most lag,
      and whose last one hands back a provider that was in the table at T - ttl - lag and never since. */
  lemma StalenessAttained(ttl: nat, c: ProviderConfig, lag: nat)
    requires Factory.Build(c).Some?
    ensures var run := SlowLookup(ttl, c, lag);
            && Prompt(ttl, run, lag)
            && Succeeds(ttl, run, 8)
            && AfterRun(ttl, run, 8).now == ttl + lag
            && Within(ttl, run, 8, ttl + lag)
            && forall age :: age < ttl + lag ==> !Within(ttl, run, 8, age)
  {
    hide AfterRun, Factory.Build, Keys.FmtKey;
    BuildsAnyId(c, 1);
    var run, provider := SlowLookup(ttl, c, lag), Factory.Build(c.(id := 1)).value;
    SlowLookupHits(ttl, c, lag, run, provider);
    assert Next(ttl, AfterRun(ttl, run, 8), run[8]).1 == Some(Outcome(ById(7, 1), Ok(provider)));
    BoundedStaleness(ttl, run, 8, lag);
  }

  // In every run whose lookups take at most `lag`, every lookup is that fresh.
  ghost predicate AlwaysWithin(ttl: int, lag: int, age: int) {
    forall run: seq<Step>, n: nat :: n < |run| && Prompt(ttl, run, lag) && Succeeds(ttl, run, n) ==>
        Within(ttl, run, n, age)
  }

  /** ttl + lag is the exact bound: no smaller age holds of all runs. */
  lemma ExactStaleness(ttl: nat, lag: nat, age: int)
    ensures AlwaysWithin(ttl, lag, age) <==> ttl + lag <= age
  {
    if ttl + lag <= age {
      forall run: seq<Step>, n: nat | n < |run| && Prompt(ttl, run, lag) && Succeeds(ttl, run, n)
        ensures Within(ttl, run, n, age)
      {
        StaysWithin(ttl, run, n, lag, age);
      }
    } else {
      var c := Supported();
      StalenessAttained(ttl, c, lag);
      assert !Within(ttl, SlowLookup(ttl, c, lag), 8, age);
    }
  }

  lemma {:induction false} StaysWithin(ttl: nat, run: seq<Step>, n: nat, lag: int, age: int)
    requires n < |run| && Prompt(ttl, run, lag) && Succeeds(ttl, run, n) && ttl + lag <= age
    ensures Within(ttl, run, n, age)
  {
    hide Next, AfterRun, Sourced, Prompt;
    BoundedStaleness(ttl, run, n, lag);
    var s := AfterRun(ttl, run, n);
    var out := Next(ttl, s, run[n]).1.value;
    Weaken(ttl, run, n, out.want.tenant, Slot(out.want), out.result.value, s.now - ttl - lag, s.now - age);
  }

  // Some configuration a provider can be built from.
  lemma Supported() returns (c: ProviderConfig)
    ensures Factory.Build(c).Some?
  {
    c := ProviderConfig(1, "openai", "", "", "", "", "", 0);
    assert Text.ToLower("openai") == "openai";
  }

  /** The interval [T - ttl, T] of the cache alone holds exactly if no lookup may take any time
      between reading the table and filling the cache. */
  lemma CacheAloneBounds(ttl: nat, lag: int)
    ensures AlwaysWithin(ttl, lag, ttl) <==> lag <= 0
  {
    if lag >= 0 {
      ExactStaleness(ttl, lag, ttl);
    } else {
      forall run: seq<Step>, n: nat | n < |run| && Prompt(ttl, run, lag) && Succeeds(ttl, run, n)
        ensures Within(ttl, run, n, ttl)
      {
        StaysWithin(ttl, run, n, lag, ttl);
      }
    }
  }

  // ---------- Lookups that nothing interrupts ----------

  // The first outcome ends the lookup.
  function Uninterrupted(ttl: int, s: State, steps: seq<Step>): (State, Option<Outcome>)
    decreases |steps|
  {
    if steps == [] then (s, None)
    else
      var (s', out) := Next(ttl, s, steps[0]);
      if out.Some? then (s', out) else Uninterrupted(ttl, s', steps[1..])
  }

  function Finish(delay: nat): seq<Step> { [Tick(delay), Construct(0), Fill(0)] }

  lemma FirstStep(ttl: int, s: State, step: Step, rest: seq<Step>)
    ensures var (s', out) := Next(ttl, s, step);
            Uninterrupted(ttl, s, [step] + rest) == if out.Some? then (s', out) else Uninterrupted(ttl, s', rest)
  {
    assert ([step] + rest)[1..] == rest;
  }

  lemma BeginAlone(ttl: int, s: State, w: Want)
    requires s.pending == map[]
    ensures var (items, hit) := CacheGet(s.items, CacheKey(w), s.now);
            Next(ttl, s, Begin(0, w)) ==
              if hit.Some? then (s.(items := items), Some(Outcome(w, Ok(hit.value))))
              else (s.(items := items, pending := map[0 := NeedRow(w)]), None)
  {
  }

  lemma ReadAlone(ttl: int, s: State, p: Pending, fails: bool)
    requires s.pending == map[0 := p]
    ensures var (s', out) := Next(ttl, s, if fails then ReadFails(0) else Read(0));
            && s'.items == s.items && s'.instances == s.instances
            && out == ReadStep(s, 0, p, fails).1
            && (out == None ==> s' == s.(pending := map[0 := ReadStep(s, 0, p, fails).0.pending[0]]))
  {
    hide ProviderByID, DefaultRow, ListProviders;
  }

  function ReadOf(works: bool): Step { if works then Read(0) else ReadFails(0) }

  // The row the two queries of a default lookup find.
  function DefaultFound(rows: seq<Row>, tenant: int, readWorks: bool, listWorks: bool): Option<Row> {
    var row := if readWorks then DefaultRow(rows, tenant) else None;
    if row.Some? then row else if listWorks then Head(ListProviders(rows, tenant)) else None
  }

  lemma DefaultReads(ttl: int, s: State, tenant: int, readWorks: bool, listWorks: bool, delay: nat)
    requires s.pending == map[0 := NeedRow(Default(tenant))]
    ensures var row := DefaultFound(s.table.rows, tenant, readWorks, listWorks);
            var (end, out) := Uninterrupted(ttl, s, [ReadOf(readWorks)] + ([ReadOf(listWorks)] + Finish(delay)));
            if row == None then
              && out == Some(Outcome(Default(tenant), Err("no providers available")))
              && end.items == s.items && end.instances == s.instances
            else
              var pending := map[0 := HaveConfig(Default(tenant), row.value.config, s.now)];
              (end, out) == Uninterrupted(ttl, s.(pending := pending), Finish(delay))
  {
    hide Next, Uninterrupted, DefaultRow, ListProviders, Finish, ProviderByID;
    var want := Default(tenant);
    var row := if readWorks then DefaultRow(s.table.rows, tenant) else None;
    var p := if row.Some? then HaveConfig(want, row.value.config, s.now) else NeedList(want);
    var s2 := s.(pending := map[0 := p]);
    FirstStep(ttl, s, ReadOf(readWorks), [ReadOf(listWorks)] + Finish(delay));
    ReadAlone(ttl, s, NeedRow(want), !readWorks);
    FirstStep(ttl, s2, ReadOf(listWorks), Finish(delay));
    ReadAlone(ttl, s2, p, !listWorks);
  }

  // From the moment the configuration is read.
  lemma FinishLookup(ttl: int, s: State, w: Want, config: ProviderConfig, delay: nat)
    requires s.pending == map[0 := HaveConfig(w, config, s.now)]
    ensures var (instances, made) := Factory.Create(s.instances, config);
            var (end, out) := Uninterrupted(ttl, s, Finish(delay));
            && end.instances == instances
            && end.items == (if made.Some? then CacheSet(s.items, CacheKey(w), made.value, s.now + delay + ttl)
                else s.items)
            && out == Some(Outcome(w, if made.Some? then Ok(made.value) else Err("provider not supported")))
  {
    hide Next, Uninterrupted, Factory.Create, CacheKey;
    var s1, s2 := s.(now := s.now + delay), Next(ttl, s.(now := s.now + delay), Construct(0)).0;
    FirstStep(ttl, s, Tick(delay), [Construct(0), Fill(0)]);
    TickEnds(ttl, s, delay);
    FirstStep(ttl, s1, Construct(0), [Fill(0)]);
    ConstructEnds(ttl, s1, w, config, s.now);
    FirstStep(ttl, s2, Fill(0), []);
    assert Finish(delay) == [Tick(delay)] + [Construct(0), Fill(0)];
    assert [Construct(0), Fill(0)] == [Construct(0)] + [Fill(0)];
    assert [Fill(0)] == [Fill(0)] + [];
  }

  lemma TickEnds(ttl: int, s: State, delay: nat)
    ensures Next(ttl, s, Tick(delay)) == (s.(now := s.now + delay), None)
  {
  }

  // The factory's answer, and what the fill after it leaves.
  lemma ConstructEnds(ttl: int, s: State, w: Want, config: ProviderConfig, readAt: int)
    requires s.pending == map[0 := HaveConfig(w, config, readAt)]
    ensures var (instances, made) := Factory.Create(s.instances, config);
            var (s', out) := Next(ttl, s, Construct(0));
            && s'.instances == instances && s'.items == s.items
            && (made == None ==> out == Some(Outcome(w, Err("provider not supported"))))
            && (made.Some? ==>
                  && out == None
                  && var (end, filled) := Next(ttl, s', Fill(0));
                     && filled == Some(Outcome(w, Ok(made.value))) && end.instances == instances
                     && end.items == CacheSet(s.items, CacheKey(w), made.value, s.now + ttl))
  {
    hide Factory.Create, CacheKey;
  }
}
