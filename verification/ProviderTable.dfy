/** The llm_providers table: the statements the handlers send (handlers/llm.go), the queries of
    store.go, and the agreement between the default row and the head of the provider list. */
module ProviderTable {
  import opened Wrappers

  /** The columns a provider instance is built from; `settings` stands for temperature, token
      limit, costs and rate, which nothing here reads. */
  datatype ProviderConfig = ProviderConfig(
    id: int, name: string, apiKey: string, model: string, baseURL: string,
    azureEndpoint: string, azureDeployment: string, settings: int)

  datatype Row = Row(tenant: int, config: ProviderConfig, active: bool, isDefault: bool)

  // Rows in insertion order; BIGSERIAL ids grow with it.
  datatype Table = Table(rows: seq<Row>, nextId: int)

  const EMPTY := Table([], 1)

  // ---------- Statements ----------

  /** An update request; None keeps the column. */
  datatype Patch = Patch(
    name: Option<string>, apiKey: Option<string>, model: Option<string>, baseURL: Option<string>,
    azureEndpoint: Option<string>, azureDeployment: Option<string>, settings: Option<int>,
    active: Option<bool>, isDefault: Option<bool>)

  datatype Statement =
    | ClearDefaults(tenant: int)
    | Insert(tenant: int, config: ProviderConfig, active: bool, isDefault: bool)
    | Update(tenant: int, id: int, patch: Patch)
    | Delete(tenant: int, id: int)

  function Coalesce<T>(a: Option<T>, b: T): T {
    if a.Some? then a.value else b
  }

  function Apply(row: Row, p: Patch): Row {
    var c := row.config;
    Row(row.tenant,
        ProviderConfig(c.id, Coalesce(p.name, c.name), Coalesce(p.apiKey, c.apiKey), Coalesce(p.model, c.model),
                       Coalesce(p.baseURL, c.baseURL), Coalesce(p.azureEndpoint, c.azureEndpoint),
                       Coalesce(p.azureDeployment, c.azureDeployment), Coalesce(p.settings, c.settings)),
        Coalesce(p.active, row.active), Coalesce(p.isDefault, row.isDefault))
  }

  function WithoutDefault(row: Row, tenant: int): Row {
    if row.tenant == tenant then row.(isDefault := false) else row
  }

  // The position of a tenant's row, or the number of rows if there is none.
  function Find(rows: seq<Row>, tenant: int, id: int): (i: nat)
    ensures i <= |rows|
    ensures i < |rows| ==> rows[i].tenant == tenant && rows[i].config.id == id
    ensures i == |rows| ==> forall j :: 0 <= j < |rows| ==> rows[j].tenant != tenant || rows[j].config.id != id
  {
    if rows == [] then 0
    else if rows[0].tenant == tenant && rows[0].config.id == id then 0
    else Find(rows[1..], tenant, id) + 1
  }

  // llm_providers_tenant_default_idx: the row would be a second default of its tenant.
  predicate Clashes(rows: seq<Row>, tenant: int, except: nat) {
    exists i :: 0 <= i < |rows| && i != except && rows[i].tenant == tenant && rows[i].isDefault
  }

  /** One statement: the new table, and whether the statement succeeded (an UPDATE or DELETE that
      matches no row reports "not found"; the unique index rejects a second default). */
  function Exec(t: Table, s: Statement): (Table, bool) {
    match s
    case ClearDefaults(tenant) =>
      (t.(rows := seq(|t.rows|, i requires 0 <= i < |t.rows| => WithoutDefault(t.rows[i], tenant))), true)
    case Insert(tenant, config, active, isDefault) =>
      if isDefault && Clashes(t.rows, tenant, |t.rows|) then (t.(nextId := t.nextId + 1), false)
      else (Table(t.rows + [Row(tenant, config.(id := t.nextId), active, isDefault)], t.nextId + 1), true)
    case Update(tenant, id, patch) =>
      var i := Find(t.rows, tenant, id);
      if i == |t.rows| then (t, false)
      else
        var row := Apply(t.rows[i], patch);
        if row.isDefault && Clashes(t.rows, tenant, i) then (t, false)
        else (t.(rows := t.rows[i := row]), true)
    case Delete(tenant, id) =>
      var i := Find(t.rows, tenant, id);
      if i == |t.rows| then (t, false)
      else (t.(rows := t.rows[..i] + t.rows[i + 1..]), true)
  }

  function After(run: seq<Statement>, n: nat): Table
    requires n <= |run|
  {
    if n == 0 then EMPTY else Exec(After(run, n - 1), run[n - 1]).0
  }

  // ---------- Invariant ----------

  ghost predicate OneDefault(rows: seq<Row>) {
    forall i, j :: 0 <= i < j < |rows| && rows[i].tenant == rows[j].tenant ==>
        !(rows[i].isDefault && rows[j].isDefault)
  }

  ghost predicate Ascending(rows: seq<Row>) {
    forall i, j :: 0 <= i < j < |rows| ==> rows[i].config.id < rows[j].config.id
  }

  ghost predicate IdsGrow(t: Table) {
    && Ascending(t.rows)
    && (forall i :: 0 <= i < |t.rows| ==> 0 < t.rows[i].config.id < t.nextId)
    && t.nextId > 0
  }

  ghost predicate WellFormed(t: Table) {
    OneDefault(t.rows) && IdsGrow(t)
  }

  lemma DeleteKeepsWellFormed(t: Table, i: nat)
    requires WellFormed(t) && i < |t.rows|
    ensures WellFormed(t.(rows := t.rows[..i] + t.rows[i + 1..]))
  {
    var rows := t.rows[..i] + t.rows[i + 1..];
    assert forall j :: 0 <= j < |rows| ==> rows[j] == t.rows[if j < i then j else j + 1];
  }

  lemma UpdateKeepsWellFormed(t: Table, i: nat, patch: Patch)
    requires WellFormed(t) && i < |t.rows|
    requires Apply(t.rows[i], patch).isDefault ==> !Clashes(t.rows, t.rows[i].tenant, i)
    ensures WellFormed(t.(rows := t.rows[i := Apply(t.rows[i], patch)]))
  {
    var row := Apply(t.rows[i], patch);
    assert row.config.id == t.rows[i].config.id && row.tenant == t.rows[i].tenant;
  }

  lemma ClearKeepsWellFormed(t: Table, tenant: int)
    requires WellFormed(t)
    ensures WellFormed(Exec(t, ClearDefaults(tenant)).0)
  {
  }

  lemma InsertKeepsWellFormed(t: Table, tenant: int, config: ProviderConfig, active: bool, isDefault: bool)
    requires WellFormed(t)
    ensures WellFormed(Exec(t, Insert(tenant, config, active, isDefault)).0)
  {
  }

  lemma ExecKeepsWellFormed(t: Table, s: Statement)
    requires WellFormed(t)
    ensures WellFormed(Exec(t, s).0)
  {
    hide Clashes, OneDefault, Ascending;
    match s
    case ClearDefaults(tenant) => ClearKeepsWellFormed(t, tenant);
    case Insert(tenant, config, active, isDefault) => InsertKeepsWellFormed(t, tenant, config, active, isDefault);
    case Update(tenant, id, patch) =>
      var i := Find(t.rows, tenant, id);
      if i < |t.rows| && Exec(t, s).1 {
        UpdateKeepsWellFormed(t, i, patch);
      }
    case Delete(tenant, id) =>
      var i := Find(t.rows, tenant, id);
      if i < |t.rows| {
        DeleteKeepsWellFormed(t, i);
      }
  }

  /** At most one default per tenant, in every state any interleaving of statements reaches. */
  lemma {:induction false} AlwaysWellFormed(run: seq<Statement>, n: nat)
    requires n <= |run|
    ensures WellFormed(After(run, n))
  {
    if n > 0 {
      AlwaysWellFormed(run, n - 1);
      ExecKeepsWellFormed(After(run, n - 1), run[n - 1]);
    }
  }

  // ---------- Queries ----------

  // The active rows of a tenant with the given default flag, in id order.
  function Pick(rows: seq<Row>, tenant: int, isDefault: bool): seq<Row> {
    if rows == [] then []
    else
      var row := rows[|rows| - 1];
      Pick(rows[..|rows| - 1], tenant, isDefault) +
      if row.tenant == tenant && row.active && row.isDefault == isDefault then [row] else []
  }

  // ORDER BY is_default DESC, id ASC
  function ListProviders(rows: seq<Row>, tenant: int): seq<Row> {
    Pick(rows, tenant, true) + Pick(rows, tenant, false)
  }

  // GetDefaultProvider: WHERE is_default AND is_active LIMIT 1
  function DefaultRow(rows: seq<Row>, tenant: int): Option<Row> {
    if rows == [] then None
    else if rows[0].tenant == tenant && rows[0].isDefault && rows[0].active then Some(rows[0])
    else DefaultRow(rows[1..], tenant)
  }

  function ProviderByID(rows: seq<Row>, tenant: int, id: int): Option<ProviderConfig> {
    var i := Find(rows, tenant, id);
    if i < |rows| then Some(rows[i].config) else None
  }

  function Head<T>(s: seq<T>): Option<T> {
    if s == [] then None else Some(s[0])
  }

  // What Router.GetDefaultProvider selects: the default row, or the first of the list.
  function SelectDefault(rows: seq<Row>, tenant: int): Option<Row> {
    var row := DefaultRow(rows, tenant);
    if row.Some? then row else Head(ListProviders(rows, tenant))
  }

  lemma {:induction false} PickHolds(rows: seq<Row>, tenant: int, isDefault: bool)
    ensures forall row :: row in Pick(rows, tenant, isDefault) <==>
              row in rows && row.tenant == tenant && row.active && row.isDefault == isDefault
  {
    if rows != [] {
      PickHolds(rows[..|rows| - 1], tenant, isDefault);
      assert rows == rows[..|rows| - 1] + [rows[|rows| - 1]];
    }
  }

  lemma {:induction false} PickSorted(rows: seq<Row>, tenant: int, isDefault: bool)
    requires Ascending(rows)
    ensures Ascending(Pick(rows, tenant, isDefault))
  {
    if rows != [] {
      var front := rows[..|rows| - 1];
      PickSorted(front, tenant, isDefault);
      PickHolds(front, tenant, isDefault);
      var p := Pick(front, tenant, isDefault);
      forall i | 0 <= i < |p|
        ensures p[i].config.id < rows[|rows| - 1].config.id
      {
        assert p[i] in p;
        var k :| 0 <= k < |front| && front[k] == p[i];
      }
    }
  }

  predicate Before(a: Row, b: Row) {
    (a.isDefault && !b.isDefault) || (a.isDefault == b.isDefault && a.config.id < b.config.id)
  }

  /** ListProviders holds exactly the active rows of the tenant, ordered as the query asks. */
  lemma ListProvidersOrdered(t: Table, tenant: int)
    requires WellFormed(t)
    ensures var list := ListProviders(t.rows, tenant);
            && (forall row :: row in list <==> row in t.rows && row.tenant == tenant && row.active)
            && (forall i, j :: 0 <= i < j < |list| ==> Before(list[i], list[j]))
  {
    var defaults, others := Pick(t.rows, tenant, true), Pick(t.rows, tenant, false);
    PickHolds(t.rows, tenant, true);
    PickHolds(t.rows, tenant, false);
    PickSorted(t.rows, tenant, true);
    PickSorted(t.rows, tenant, false);
    var list := ListProviders(t.rows, tenant);
    assert forall i :: 0 <= i < |list| ==>
      if i < |defaults| then list[i] == defaults[i] && defaults[i] in defaults && list[i].isDefault
      else list[i] == others[i - |defaults|] && others[i - |defaults|] in others && !list[i].isDefault;
    forall i, j | 0 <= i < j < |list|
      ensures Before(list[i], list[j])
    {
      if j < |defaults| {
        assert defaults[i].config.id < defaults[j].config.id;
      } else if i >= |defaults| {
        assert others[i - |defaults|].config.id < others[j - |defaults|].config.id;
      }
    }
  }

  lemma {:induction false} DefaultRowFound(rows: seq<Row>, tenant: int)
    ensures var r := DefaultRow(rows, tenant);
            && (r.Some? ==> r.value in rows && r.value.tenant == tenant && r.value.isDefault && r.value.active)
            && (r == None ==> forall row :: row in rows && row.tenant == tenant && row.active ==> !row.isDefault)
  {
    if rows != [] {
      DefaultRowFound(rows[1..], tenant);
      assert rows == [rows[0]] + rows[1..];
    }
  }

  /** The row GetDefaultProvider answers with is the head of the list, whichever default row
      LIMIT 1 returns. */
  lemma DefaultRowIsHead(t: Table, tenant: int, row: Row)
    requires WellFormed(t)
    requires row in t.rows && row.tenant == tenant && row.isDefault && row.active
    ensures Head(ListProviders(t.rows, tenant)) == Some(row)
  {
    ListProvidersOrdered(t, tenant);
    PickHolds(t.rows, tenant, true);
    var defaults := Pick(t.rows, tenant, true);
    assert defaults[0] in defaults;
    var i :| 0 <= i < |t.rows| && t.rows[i] == row;
    var j :| 0 <= j < |t.rows| && t.rows[j] == defaults[0];
  }

  /** Router.GetDefaultProvider selects the head of ListProviders, in every reachable table. */
  lemma {:induction false} DefaultIsHead(run: seq<Statement>, n: nat, tenant: int)
    requires n <= |run|
    ensures var rows := After(run, n).rows;
            SelectDefault(rows, tenant) == Head(ListProviders(rows, tenant))
  {
    AlwaysWellFormed(run, n);
    var t := After(run, n);
    DefaultRowFound(t.rows, tenant);
    if DefaultRow(t.rows, tenant).Some? {
      DefaultRowIsHead(t, tenant, DefaultRow(t.rows, tenant).value);
    }
  }

  /** The lookup by id answers with the configuration of the row that has the tenant and the id. */
  lemma ProviderByIDExactly(t: Table, tenant: int, id: int, config: ProviderConfig)
    requires WellFormed(t)
    ensures ProviderByID(t.rows, tenant, id) == Some(config) <==>
              exists row :: row in t.rows && row.tenant == tenant && row.config.id == id && row.config == config
    ensures ProviderByID(t.rows, tenant, id) == None <==>
              forall row :: row in t.rows ==> row.tenant != tenant || row.config.id != id
  {
    hide OneDefault;
    var i := Find(t.rows, tenant, id);
    if row :| row in t.rows && row.tenant == tenant && row.config.id == id {
      var j :| 0 <= j < |t.rows| && t.rows[j] == row;
      assert i == j;
    }
  }

  // The tenant's active row that comes before all others: the default one, or else the one with the least id.
  ghost predicate IsFirst(rows: seq<Row>, tenant: int, row: Row) {
    && row in rows && row.tenant == tenant && row.active
    && forall other :: other in rows && other.tenant == tenant && other.active && other != row ==> Before(row, other)
  }

  /** The head of the list is that row. */
  lemma HeadExactly(t: Table, tenant: int, row: Row)
    requires WellFormed(t)
    ensures Head(ListProviders(t.rows, tenant)) == Some(row) <==> IsFirst(t.rows, tenant, row)
  {
    hide OneDefault, Ascending, ListProviders;
    ListProvidersOrdered(t, tenant);
    var list := ListProviders(t.rows, tenant);
    if IsFirst(t.rows, tenant, row) {
      assert row in list && list[0] in list;
      assert list[0] == row;
    }
    if list != [] && list[0] == row {
      assert row in list;
      forall other | other in t.rows && other.tenant == tenant && other.active && other != row
        ensures Before(row, other)
      {
        assert other in list;
        var j :| 0 <= j < |list| && list[j] == other;
      }
    }
  }

  // ---------- What a statement leaves ----------

  // The column takes the given value, if there is one, and else stays.
  predicate Takes<T(==)>(column: T, given: Option<T>, was: T) {
    match given
    case Some(value) => column == value
    case None => column == was
  }

  // Column by column.
  ghost predicate Patched(was: Row, row: Row, p: Patch) {
    && row.tenant == was.tenant && row.config.id == was.config.id
    && Takes(row.config.name, p.name, was.config.name) && Takes(row.config.apiKey, p.apiKey, was.config.apiKey)
    && Takes(row.config.model, p.model, was.config.model) && Takes(row.config.baseURL, p.baseURL, was.config.baseURL)
    && Takes(row.config.azureEndpoint, p.azureEndpoint, was.config.azureEndpoint)
    && Takes(row.config.azureDeployment, p.azureDeployment, was.config.azureDeployment)
    && Takes(row.config.settings, p.settings, was.config.settings)
    && Takes(row.active, p.active, was.active) && Takes(row.isDefault, p.isDefault, was.isDefault)
  }

  // The row is as before, but for the flag if the tenant's were cleared.
  ghost predicate Kept(was: Row, row: Row, tenant: int, cleared: bool) {
    && row.tenant == was.tenant && row.config == was.config && row.active == was.active
    && (row.isDefault <==> was.isDefault && !(cleared && was.tenant == tenant))
  }

  // The rows of `was` in their places, one of them patched, if there is a patch for it.
  ghost predicate KeptOrPatched(was: seq<Row>, rows: seq<Row>, tenant: int, id: int, patch: Patch, cleared: bool) {
    && |rows| == |was|
    && forall i :: 0 <= i < |was| ==>
         if was[i].tenant == tenant && was[i].config.id == id
         then Patched(was[i].(isDefault := was[i].isDefault && !cleared), rows[i], patch)
         else Kept(was[i], rows[i], tenant, cleared)
  }

  /** An update that succeeds patches the row with the tenant and the id, column by column, and leaves all
      others but for the cleared flags. */
  lemma UpdateExactly(t: Table, tenant: int, id: int, patch: Patch, cleared: bool)
    requires WellFormed(t)
    ensures var (after, ok) := Exec(Cleared(t, tenant, cleared, true), Update(tenant, id, patch));
            ok ==> after.nextId == t.nextId && KeptOrPatched(t.rows, after.rows, tenant, id, patch, cleared)
  {
    hide Clashes, OneDefault, Apply, Patched;
    var before := Cleared(t, tenant, cleared, true);
    ClearedExactly(t, tenant, cleared);
    var i := Find(before.rows, tenant, id);
    if i < |before.rows| {
      OneRowHasId(t, i, tenant, id);
      ApplyExactly(before.rows[i], patch);
    }
  }

  lemma ApplyExactly(row: Row, p: Patch)
    ensures Patched(row, Apply(row, p), p)
  {
  }

  lemma ClearedExactly(t: Table, tenant: int, cleared: bool)
    ensures var after := Cleared(t, tenant, cleared, true);
            && after.nextId == t.nextId && |after.rows| == |t.rows|
            && forall i :: 0 <= i < |t.rows| ==>
                 && Kept(t.rows[i], after.rows[i], tenant, cleared)
                 && after.rows[i] == t.rows[i].(isDefault := after.rows[i].isDefault)
  {
  }

  lemma OneRowHasId(t: Table, i: nat, tenant: int, id: int)
    requires WellFormed(t) && i < |t.rows| && t.rows[i].config.id == id
    ensures forall j :: 0 <= j < |t.rows| && t.rows[j].tenant == tenant && t.rows[j].config.id == id ==> j == i
  {
  }

  // One row more, with a new id and otherwise the given columns; the others kept.
  ghost predicate AddedRow(was: seq<Row>, rows: seq<Row>, tenant: int, config: ProviderConfig, active: bool,
      isDefault: bool, cleared: bool)
  {
    && |rows| == |was| + 1
    && (forall i :: 0 <= i < |was| ==> Kept(was[i], rows[i], tenant, cleared))
    && var row := rows[|was|];
       && row.tenant == tenant && row.active == active && row.isDefault == isDefault
       && row.config.name == config.name && row.config.apiKey == config.apiKey
       && row.config.model == config.model && row.config.baseURL == config.baseURL
       && row.config.azureEndpoint == config.azureEndpoint
       && row.config.azureDeployment == config.azureDeployment && row.config.settings == config.settings
       && forall i :: 0 <= i < |was| ==> was[i].config.id < row.config.id
  }

  /** An insert that succeeds adds one row, with a new id and otherwise the given columns. */
  lemma InsertExactly(t: Table, tenant: int, config: ProviderConfig, active: bool, isDefault: bool, cleared: bool)
    requires WellFormed(t)
    ensures var (after, ok) := Exec(Cleared(t, tenant, cleared, true), Insert(tenant, config, active, isDefault));
            ok ==> AddedRow(t.rows, after.rows, tenant, config, active, isDefault, cleared)
  {
    hide Clashes, OneDefault;
  }

  /** A delete removes the row with the tenant and the id and no other. */
  lemma DeleteExactly(t: Table, tenant: int, id: int)
    requires WellFormed(t)
    ensures var after := Exec(t, Delete(tenant, id)).0;
            && after.nextId == t.nextId
            && forall row :: row in after.rows <==> row in t.rows && !(row.tenant == tenant && row.config.id == id)
  {
    hide OneDefault;
    var i := Find(t.rows, tenant, id);
    if i < |t.rows| {
      var after := t.rows[..i] + t.rows[i + 1..];
      forall row
        ensures row in after <==> row in t.rows && !(row.tenant == tenant && row.config.id == id)
      {
        if row in t.rows && !(row.tenant == tenant && row.config.id == id) {
          var j :| 0 <= j < |t.rows| && t.rows[j] == row;
          assert after[if j < i then j else j - 1] == row;
        }
      }
    }
  }

  // ---------- The handlers ----------

  /** What becomes of a handler's statement: it runs and is answered, it does not run, or it runs and
      the answer is lost.  In the last two cases the handler reports a failure. */
  datatype Fate = Answered | Failed | Lost

  function Try(t: Table, s: Statement, fate: Fate): (Table, bool) {
    match fate
    case Answered => Exec(t, s)
    case Failed => (t, false)
    case Lost => (Exec(t, s).0, false)
  }

  lemma TryKeepsWellFormed(t: Table, s: Statement, fate: Fate)
    requires WellFormed(t)
    ensures WellFormed(Try(t, s, fate).0)
  {
    hide Exec, WellFormed;
    ExecKeepsWellFormed(t, s);
  }

  // The clear statement of a request for the default flag; its own error is ignored.
  function Cleared(t: Table, tenant: int, asked: bool, clearWorks: bool): Table {
    if asked && clearWorks then Exec(t, ClearDefaults(tenant)).0 else t
  }

  class ProviderStore {
    var table: Table

    constructor ()
      ensures table == EMPTY
    {
      table := EMPTY;
    }

    /** CreateProvider after validation.  A failing clear statement is ignored, as in the handler;
        then the unique index is what rejects a second default. */
    method CreateProvider(tenant: int, config: ProviderConfig, active: bool, isDefault: bool, clearWorks: bool,
        insert: Fate)
        returns (ok: bool)
      requires WellFormed(table)
      modifies this
      ensures WellFormed(table)
      ensures (table, ok) ==
                Try(Cleared(old(table), tenant, isDefault, clearWorks), Insert(tenant, config, active, isDefault),
                    insert)
      ensures ok <==> insert.Answered? && (isDefault && !clearWorks ==> !HasDefault(old(table).rows, tenant))
      ensures ok ==> AddedRow(old(table).rows, table.rows, tenant, config, active, isDefault, isDefault && clearWorks)
      ensures ok && isDefault && active ==>
                SelectDefault(table.rows, tenant) == Some(Row(tenant, config.(id := old(table).nextId), true, true))
    {
      hide AddedRow;
      if isDefault && clearWorks {
        ExecKeepsWellFormed(table, ClearDefaults(tenant));
        table := Exec(table, ClearDefaults(tenant)).0;
      }
      TryKeepsWellFormed(table, Insert(tenant, config, active, isDefault), insert);
      var result := Try(table, Insert(tenant, config, active, isDefault), insert);
      table, ok := result.0, result.1;
      InsertExactly(old(table), tenant, config, active, isDefault, isDefault && clearWorks);
      if ok && isDefault && active {
        DefaultRowFound(table.rows, tenant);
        SelectedDefault(table, tenant, table.rows[|table.rows| - 1]);
      }
    }

    /** UpdateProvider after validation. */
    method UpdateProvider(tenant: int, id: int, patch: Patch, clearWorks: bool, update: Fate) returns (ok: bool)
      requires WellFormed(table)
      modifies this
      ensures WellFormed(table)
      ensures (table, ok) ==
                Try(Cleared(old(table), tenant, patch.isDefault == Some(true), clearWorks), Update(tenant, id, patch),
                    update)
      ensures var i := Find(old(table).rows, tenant, id);
              ok <==> update.Answered? && i < |old(table).rows| &&
                      (patch.isDefault == Some(true) && !clearWorks ==> !Clashes(old(table).rows, tenant, i))
      ensures ok ==> KeptOrPatched(old(table).rows, table.rows, tenant, id, patch,
                                   patch.isDefault == Some(true) && clearWorks)
      // A default request for a missing provider still strips the tenant of its default; that is the
      // one way in which a failed update that was not lost changes the table.
      ensures clearWorks && patch.isDefault == Some(true) && !ok && !update.Lost? ==>
                DefaultRow(table.rows, tenant) == None
      ensures !ok && !update.Lost? ==>
        (table == old(table) <==> !(patch.isDefault == Some(true) && clearWorks && HasDefault(old(table).rows, tenant)))
    {
      hide Exec, KeptOrPatched;
      var asked := patch.isDefault == Some(true);
      UpdateExactly(table, tenant, id, patch, asked && clearWorks);
      UpdateOutcome(table, tenant, id, patch, clearWorks);
      if asked && clearWorks {
        ExecKeepsWellFormed(table, ClearDefaults(tenant));
        table := Exec(table, ClearDefaults(tenant)).0;
      }
      TryKeepsWellFormed(table, Update(tenant, id, patch), update);
      var result := Try(table, Update(tenant, id, patch), update);
      table, ok := result.0, result.1;
    }

    method DeleteProvider(tenant: int, id: int, delete: Fate) returns (ok: bool)
      requires WellFormed(table)
      modifies this
      ensures WellFormed(table)
      ensures (table, ok) == Try(old(table), Delete(tenant, id), delete)
      ensures ProviderByID(table.rows, tenant, id) ==
                if delete.Failed? then ProviderByID(old(table).rows, tenant, id) else None
      ensures ok <==> delete.Answered? && ProviderByID(old(table).rows, tenant, id).Some?
      ensures !delete.Failed? ==> forall row ::
                row in table.rows <==> row in old(table).rows && !(row.tenant == tenant && row.config.id == id)
    {
      DeleteExactly(table, tenant, id);
      TryKeepsWellFormed(table, Delete(tenant, id), delete);
      var result := Try(table, Delete(tenant, id), delete);
      table, ok := result.0, result.1;
    }
  }

  predicate HasDefault(rows: seq<Row>, tenant: int) {
    exists i :: 0 <= i < |rows| && rows[i].tenant == tenant && rows[i].isDefault
  }

  // When an update succeeds, and what a failed one has done.
  lemma UpdateOutcome(t: Table, tenant: int, id: int, patch: Patch, clearWorks: bool)
    requires WellFormed(t)
    ensures var asked, i := patch.isDefault == Some(true), Find(t.rows, tenant, id);
            var cleared := Cleared(t, tenant, asked, clearWorks);
            var (after, ok) := Exec(cleared, Update(tenant, id, patch));
            && (ok <==> i < |t.rows| && (asked && !clearWorks ==> !Clashes(t.rows, tenant, i)))
            && (!ok ==> after == cleared)
            && (asked && clearWorks ==> DefaultRow(cleared.rows, tenant) == None)
            && (cleared == t <==> !(asked && clearWorks && HasDefault(t.rows, tenant)))
  {
    hide HasDefault;
    var asked := patch.isDefault == Some(true);
    var cleared := Cleared(t, tenant, asked, clearWorks);
    DefaultRowFound(cleared.rows, tenant);
    FindIgnoresDefaults(t.rows, cleared.rows, tenant, id);
    ClearsExactly(t, tenant);
  }

  lemma ClearsExactly(t: Table, tenant: int)
    ensures Exec(t, ClearDefaults(tenant)).0 == t <==> !HasDefault(t.rows, tenant)
  {
    var cleared := Exec(t, ClearDefaults(tenant)).0;
    if i :| 0 <= i < |t.rows| && t.rows[i].tenant == tenant && t.rows[i].isDefault {
      assert !cleared.rows[i].isDefault;
    } else {
      assert cleared.rows == t.rows;
    }
  }

  /** A failing default request for provider 2 takes the default flag from provider 1. */
  lemma FailedUpdateExample(c: ProviderConfig, patch: Patch)
    requires patch.isDefault == Some(true)
    ensures var t := After([Insert(7, c, true, true)], 1);
            var cleared := Exec(t, ClearDefaults(7)).0;
            && Exec(cleared, Update(7, 2, patch)) == (cleared, false)
            && DefaultRow(t.rows, 7) == Some(Row(7, c.(id := 1), true, true)) && DefaultRow(cleared.rows, 7) == None
  {
    var run := [Insert(7, c, true, true)];
    assert After(run, 0) == EMPTY;
    var row := Row(7, c.(id := 1), true, true);
    assert After(run, 1) == Table([row], 2);
    assert Exec(Table([row], 2), ClearDefaults(7)).0.rows == [row.(isDefault := false)];
  }

  lemma SelectedDefault(t: Table, tenant: int, row: Row)
    requires WellFormed(t)
    requires row in t.rows && row.tenant == tenant && row.isDefault && row.active
    ensures SelectDefault(t.rows, tenant) == Some(row)
  {
    DefaultRowFound(t.rows, tenant);
    var found := DefaultRow(t.rows, tenant).value;
    var i :| 0 <= i < |t.rows| && t.rows[i] == row;
    var j :| 0 <= j < |t.rows| && t.rows[j] == found;
  }

  lemma {:induction false} FindIgnoresDefaults(rows: seq<Row>, other: seq<Row>, tenant: int, id: int)
    requires |rows| == |other|
    requires forall i :: 0 <= i < |rows| ==>
      rows[i].tenant == other[i].tenant && rows[i].config.id == other[i].config.id
    ensures Find(rows, tenant, id) == Find(other, tenant, id)
  {
    if rows != [] {
      FindIgnoresDefaults(rows[1..], other[1..], tenant, id);
    }
  }
}
