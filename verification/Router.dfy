/** The cache and router objects of router.go. */
module Router {
  import opened Wrappers
  import opened ProviderTable
  import opened Staleness
  import Factory
  import Keys

  class Cache {
    const ttl: int
    var items: map<string, Cached>

    constructor (ttl: int)
      ensures items == map[] && this.ttl == ttl
    {
      this.ttl := ttl;
      items := map[];
    }

    method Get(key: string, now: int) returns (hit: Option<Provider>)
      modifies this
      ensures (items, hit) == CacheGet(old(items), key, now)
    {
      if key !in items || now > items[key].expires {
        items := items - {key};
        return None;
      }
      return Some(items[key].provider);
    }

    method Set(key: string, provider: Provider, now: int)
      modifies this
      ensures items == CacheSet(old(items), key, provider, now + ttl)
    {
      items := items[key := Cached(provider, now + ttl)];
    }
  }

  // Factory and cache after a lookup that read this configuration, and its answer.
  ghost predicate Completed(instances: map<string, Provider>, items: map<string, Cached>, key: string,
      config: ProviderConfig, expires: int, instances': map<string, Provider>, items': map<string, Cached>,
      r: Result<Provider, string>)
  {
    var made := Factory.Create(instances, config).1;
    && instances' == Factory.Create(instances, config).0
    && items' == (if made.Some? then items[key := Cached(made.value, expires)] else items)
    && r == (if made.Some? then Ok(made.value) else Err("provider not supported"))
  }

  predicate Fresh(items: map<string, Cached>, key: string, now: int) { key in items && now <= items[key].expires }

  predicate HasProvider(rows: seq<Row>, tenant: int, id: int) {
    exists row :: row in rows && row.tenant == tenant && row.config.id == id
  }

  class ProviderRouter {
    const factory: Factory.ProviderFactory
    const cache: Cache
    const db: ProviderStore

    constructor (factory: Factory.ProviderFactory, db: ProviderStore, ttl: int)
      ensures this.factory == factory && this.db == db && fresh(cache) && cache.ttl == ttl && cache.items == map[]
    {
      this.factory, this.db := factory, db;
      cache := new Cache(ttl);
    }

    ghost function View(now: int): State
      reads factory, cache, db
    {
      State(now, db.table, cache.items, factory.instances, map[])
    }

    // Factory and cache end a lookup: what GetProvider and GetDefaultProvider share.
    method Complete(key: string, config: ProviderConfig, later: int) returns (r: Result<Provider, string>)
      requires Factory.Valid(factory.instances)
      modifies factory, cache
      ensures Factory.Valid(factory.instances)
      ensures Completed(old(factory.instances), old(cache.items), key, config, later + cache.ttl, factory.instances,
                        cache.items, r)
    {
      hide Factory.Create, Factory.Valid;
      var provider := factory.CreateProvider(config);
      if provider == None {
        return Err("provider not supported");
      }
      cache.Set(key, provider.value, later);
      return Ok(provider.value);
    }

    /** One uninterrupted lookup by id; `readWorks` is whether the database answers, and the clock
        shows `now` at the cache lookup and `later` when the cache is filled. */
    method GetProvider(tenant: int, id: int, readWorks: bool, now: int, later: int)
        returns (r: Result<Provider, string>)
      requires Factory.Valid(factory.instances) && now <= later
      modifies factory, cache
      ensures Factory.Valid(factory.instances)
      ensures var want := ById(tenant, id);
              var (s, out) := Uninterrupted(cache.ttl, old(View(now)),
                [Begin(0, want)] + ([if readWorks then Read(0) else ReadFails(0)] + Finish(later - now)));
              out == Some(Outcome(want, r)) && cache.items == s.items && factory.instances == s.instances
      ensures var key, items, instances := Keys.FmtKey(tenant, id), old(cache.items), old(factory.instances);
              if Fresh(items, key, now) then
                r == Ok(items[key].provider) && cache.items == items && factory.instances == instances
              else if !readWorks || !HasProvider(db.table.rows, tenant, id) then
                r == Err("provider not found") && cache.items == items - {key} && factory.instances == instances
              else
                exists row :: row in db.table.rows && row.tenant == tenant && row.config.id == id &&
                  Completed(instances, items - {key}, key, row.config, later + cache.ttl, factory.instances,
                            cache.items, r)
    {
      hide Next, Uninterrupted, Keys.FmtKey, Factory.Valid, Factory.Create, ListProviders, DefaultRow,
        ProviderByID, Finish, HasProvider;
      ByIDFinds(db.table.rows, tenant, id);
      var key := Keys.FmtKey(tenant, id);
      ghost var s0 := View(now);
      ghost var want := ById(tenant, id);
      ghost var read := if readWorks then Read(0) else ReadFails(0);
      FirstStep(cache.ttl, s0, Begin(0, want), [read] + Finish(later - now));
      BeginAlone(cache.ttl, s0, want);
      var hit := cache.Get(key, now);
      if hit.Some? {
        return Ok(hit.value);
      }
      ghost var s1 := s0.(items := cache.items, pending := map[0 := NeedRow(want)]);
      FirstStep(cache.ttl, s1, read, Finish(later - now));
      ReadAlone(cache.ttl, s1, NeedRow(want), !readWorks);
      var config := if readWorks then ProviderByID(db.table.rows, tenant, id) else None;
      if config == None {
        return Err("provider not found");
      }
      FinishLookup(cache.ttl, s1.(pending := map[0 := HaveConfig(want, config.value, now)]), want, config.value,
          later - now);
      r := Complete(key, config.value, later);
    }

    method FindDefault(tenant: int, readWorks: bool, listWorks: bool) returns (row: Option<Row>)
      ensures row == DefaultFound(db.table.rows, tenant, readWorks, listWorks)
    {
      row := if readWorks then DefaultRow(db.table.rows, tenant) else None;
      if row == None {
        row := if listWorks then Head(ListProviders(db.table.rows, tenant)) else None;
      }
    }

    /** One uninterrupted lookup of the tenant's default: the default row, or else the first of
        the provider list. */
    method GetDefaultProvider(tenant: int, readWorks: bool, listWorks: bool, now: int, later: int)
        returns (r: Result<Provider, string>)
      requires Factory.Valid(factory.instances) && now <= later
      modifies factory, cache
      ensures Factory.Valid(factory.instances)
      ensures var want := Default(tenant);
              var (s, out) := Uninterrupted(cache.ttl, old(View(now)),
                [Begin(0, want)] + ([ReadOf(readWorks)] + ([ReadOf(listWorks)] + Finish(later - now))));
              out == Some(Outcome(want, r)) && cache.items == s.items && factory.instances == s.instances
      ensures var key, items, instances := Keys.FmtKey(tenant, 0), old(cache.items), old(factory.instances);
              var row := DefaultFound(db.table.rows, tenant, readWorks, listWorks);
              if Fresh(items, key, now) then
                r == Ok(items[key].provider) && cache.items == items && factory.instances == instances
              else if row == None then
                r == Err("no providers available") && cache.items == items - {key} && factory.instances == instances
              else
                Completed(instances, items - {key}, key, row.value.config, later + cache.ttl, factory.instances,
                          cache.items, r)
    {
      hide Next, Uninterrupted, Keys.FmtKey, Factory.Valid, Factory.Create, DefaultFound, Finish;
      var key := Keys.FmtKey(tenant, 0);
      ghost var s0 := View(now);
      ghost var want := Default(tenant);
      FirstStep(cache.ttl, s0, Begin(0, want), [ReadOf(readWorks)] + ([ReadOf(listWorks)] + Finish(later - now)));
      BeginAlone(cache.ttl, s0, want);
      var hit := cache.Get(key, now);
      if hit.Some? {
        return Ok(hit.value);
      }
      ghost var s1 := s0.(items := cache.items, pending := map[0 := NeedRow(want)]);
      DefaultReads(cache.ttl, s1, tenant, readWorks, listWorks, later - now);
      var row := FindDefault(tenant, readWorks, listWorks);
      if row == None {
        return Err("no providers available");
      }
      FinishLookup(cache.ttl, s1.(pending := map[0 := HaveConfig(want, row.value.config, now)]), want, row.value.config,
                   later - now);
      r := Complete(key, row.value.config, later);
    }
  }

  // The query by id finds such a row if there is one.
  lemma ByIDFinds(rows: seq<Row>, tenant: int, id: int)
    ensures var found := ProviderByID(rows, tenant, id);
            && (found == None <==> !HasProvider(rows, tenant, id))
            && (found.Some? ==>
                  exists row ::
                    row in rows && row.tenant == tenant && row.config.id == id && row.config == found.value)
  {
    var i := Find(rows, tenant, id);
    if i < |rows| {
      assert rows[i] in rows;
    }
  }

  /** In a table with at most one default the queries of a default lookup find the tenant's first active
      row: its default row, or else the one with the least id; if one of them fails, the other decides. */
  lemma DefaultFoundExactly(t: Table, tenant: int, readWorks: bool, listWorks: bool, row: Row)
    requires WellFormed(t)
    ensures DefaultFound(t.rows, tenant, readWorks, listWorks) == Some(row) <==>
              IsFirst(t.rows, tenant, row) && (listWorks || (readWorks && row.isDefault))
  {
    hide IsFirst, ListProviders, DefaultRow, WellFormed;
    DefaultRowFound(t.rows, tenant);
    HeadExactly(t, tenant, row);
    FirstIsOne(t, tenant, row);
    var found := DefaultRow(t.rows, tenant);
    if found.Some? {
      DefaultRowIsHead(t, tenant, found.value);
      HeadExactly(t, tenant, found.value);
    }
  }

  lemma FirstIsOne(t: Table, tenant: int, row: Row)
    ensures IsFirst(t.rows, tenant, row) ==> row in t.rows && row.tenant == tenant && row.active
  {
  }
}
