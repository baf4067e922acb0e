/** Ingest steps interleaved with stored analyses (llm/pipeline.go) and with messages sent from the
    dashboard (handlers/messages.go). */
module Analysis {
  import opened Wrappers
  import opened Contract
  import opened Ingest

  // ---------- StoreAnalysis ----------

  predicate Exists(rows: seq<MessageRow>, id: int) {
    exists i :: 0 <= i < |rows| && rows[i].id == id
  }

  function Merge(metadata: Option<Metadata>, r: AnalysisResult): Metadata {
    var payload := if metadata.Some? then metadata.value else map[];
    payload["analysis" := Json.Analysis(r)]
  }

  // The position of the tenant's message with this id, or the number of rows if there is none.
  function FindMessage(rows: seq<MessageRow>, tenant: int, id: int): (i: nat)
    ensures i <= |rows|
    ensures i < |rows| ==> rows[i].id == id && rows[i].tenant == tenant
    ensures forall j :: 0 <= j < i ==> !(rows[j].id == id && rows[j].tenant == tenant)
  {
    if rows == [] then 0
    else if rows[0].id == id && rows[0].tenant == tenant then 0
    else FindMessage(rows[1..], tenant, id) + 1
  }

  /** An analysis to be stored, and the metadata its select returned: nothing if the message has none,
      if there is no such message, or if the select failed, since its error is dropped. */
  datatype Reading = Reading(tenant: int, id: int, result: AnalysisResult, metadata: Option<Metadata>)

  function Select(rows: seq<MessageRow>, tenant: int, id: int, r: AnalysisResult, readWorks: bool): Reading {
    var i := FindMessage(rows, tenant, id);
    Reading(tenant, id, r, if readWorks && i < |rows| then rows[i].metadata else None)
  }

  predicate Targets(row: MessageRow, r: Reading) { row.id == r.id && row.tenant == r.tenant }

  function AnnotateRow(row: MessageRow, r: Reading): MessageRow {
    if Targets(row, r) then row.(metadata := Some(Merge(r.metadata, r.result))) else row
  }

  // The update.
  function Annotate(rows: seq<MessageRow>, r: Reading): (annotated: seq<MessageRow>)
    ensures |annotated| == |rows|
    ensures forall i :: 0 <= i < |rows| ==> annotated[i] == AnnotateRow(rows[i], r)
  {
    seq(|rows|, i requires 0 <= i < |rows| => AnnotateRow(rows[i], r))
  }

  /** The update and the insert into important_messages, which needs an existing message (of any
      tenant: the reference is to messages(id) alone) and does nothing on one that is there already. */
  function Update(db: Db, r: Reading): Db {
    var db' := db.(messages := Annotate(db.messages, r));
    if r.result.isImportant && Exists(db.messages, r.id) && r.id !in db.important
    then db'.(important := db.important[r.id := Important(r.tenant, r.result.priority, r.result.reason)])
    else db'
  }

  function Store(db: Db, tenant: int, id: int, r: AnalysisResult, readWorks: bool): Db {
    Update(db, Select(db.messages, tenant, id, r, readWorks))
  }

  // ---------- Runs ----------

  // A delivery between its lookup, which found nothing, and its insert.
  datatype Delivery = Delivery(event: Event, conversation: int)

  // A WhatsApp message of a tenant.
  type Origin = (int, string)

  /** `pending` and `analyses` are what has been looked up or selected and not yet written; `origins`
      remembers, row by row, which WhatsApp message a row was written for. */
  datatype State = State(
    db: Db, pending: map<nat, Delivery>, analyses: map<nat, Reading>, origins: seq<Option<Origin>>)

  /** Receive handles an event at one go; LookUp and Write are the two database calls of another
      delivery, which anything may come between.  Likewise Analysed stores an analysis at one go, and
      Read and Save are the select and the update of another one. */
  datatype Action =
    | Receive(event: Event)
    | LookUp(g: nat, event: Event)
    | Write(g: nat)
    | SyncContact(tenant: int, chat: Jid, name: string, lookups: Lookups)
    | Analysed(tenant: int, id: int, result: AnalysisResult, readWorks: bool)
    | Read(g: nat, tenant: int, id: int, result: AnalysisResult, readWorks: bool)
    | Save(g: nat)
    | Send(tenant: int, conversation: int, sender: string, content: string, at: int)

  // A message sent or forwarded from the dashboard has no metadata; its conversation moves to now.
  function SendMessage(db: Db, tenant: int, conversation: int, sender: string, content: string, at: int): Db {
    db.(messages := db.messages + [MessageRow(db.nextMessage, tenant, conversation, sender, content, at, None)],
        nextMessage := db.nextMessage + 1,
        conversations := map k | k in db.conversations ::
          if k.0 == tenant && db.conversations[k].id == conversation then db.conversations[k].(lastMessageAt := at)
          else db.conversations[k])
  }

  function OriginOf(e: Event): Origin { (e.tenant, e.info.id) }

  function UpsertFor(db: Db, e: Event): (Db, int) {
    Upsert(db, ConversationKey(e), NameFor(e), e.info.timestamp, e.lookups.pictureURL)
  }

  // The event gets as far as the lookup of its message.
  predicate LooksUp(db: Db, e: Event) {
    !Ignored(e) && e.upsertWorks && UpsertFor(db, e).1 != 0 && e.insertWorks
  }

  predicate Found(db: Db, e: Event) { FindWhatsApp(db.messages, e.tenant, e.info.id) < |db.messages| }

  // The WhatsApp message the step writes a row for, if it writes one.
  function Written(s: State, a: Action): Option<Origin> {
    match a
    case Receive(e) => if LooksUp(s.db, e) && !Found(s.db, e) then Some(OriginOf(e)) else None
    case Write(g) => if g in s.pending then Some(OriginOf(s.pending[g].event)) else None
    case _ => None
  }

  // The analysis the step stores, if it stores one.
  function Stored(s: State, a: Action): Option<Reading> {
    match a
    case Analysed(tenant, id, r, readWorks) => Some(Select(s.db.messages, tenant, id, r, readWorks))
    case Save(g) => if g in s.analyses then Some(s.analyses[g]) else None
    case _ => None
  }

  // A contact sync brings no message: its time is the zero time, before every real one.
  function NextDb(s: State, a: Action): Db {
    match a
    case Receive(e) => Handle(s.db, e).0
    case LookUp(g, e) => if g in s.pending || Ignored(e) || !e.upsertWorks then s.db else UpsertFor(s.db, e).0
    case Write(g) =>
      if g !in s.pending then s.db
      else Append(s.db, s.pending[g].event, s.pending[g].conversation, Content(s.pending[g].event)).0
    case SyncContact(tenant, chat, name, lookups) =>
      Upsert(s.db, (tenant, ContactNumber(chat)), ResolveName(chat, name, lookups), 0, lookups.pictureURL).0
    case Send(tenant, conversation, sender, content, at) =>
      SendMessage(s.db, tenant, conversation, sender, content, at)
    case _ => if Stored(s, a).Some? then Update(s.db, Stored(s, a).value) else s.db
  }

  function NextPending(s: State, a: Action): map<nat, Delivery> {
    match a
    case LookUp(g, e) =>
      if g in s.pending || !LooksUp(s.db, e) || Found(s.db, e) then s.pending
      else s.pending[g := Delivery(e, UpsertFor(s.db, e).1)]
    case Write(g) => s.pending - {g}
    case _ => s.pending
  }

  function NextAnalyses(s: State, a: Action): map<nat, Reading> {
    match a
    case Read(g, tenant, id, r, readWorks) =>
      if g in s.analyses then s.analyses else s.analyses[g := Select(s.db.messages, tenant, id, r, readWorks)]
    case Save(g) => s.analyses - {g}
    case _ => s.analyses
  }

  function NextOrigins(s: State, a: Action): seq<Option<Origin>> {
    if a.Send? then s.origins + [None]
    else if Written(s, a).Some? then s.origins + [Written(s, a)]
    else s.origins
  }

  function Next(s: State, a: Action): State {
    State(NextDb(s, a), NextPending(s, a), NextAnalyses(s, a), NextOrigins(s, a))
  }

  const INIT := State(Ingest.EMPTY, map[], map[], [])

  function After(run: seq<Action>, n: nat): State
    requires n <= |run|
  {
    if n == 0 then INIT else Next(After(run, n - 1), run[n - 1])
  }

  lemma {:induction false} AfterStart(run: seq<Action>)
    ensures After(run, 0) == INIT
  {
  }

  lemma {:induction false} AfterStep(run: seq<Action>, n: nat)
    requires 0 < n <= |run|
    ensures After(run, n) == Next(After(run, n - 1), run[n - 1])
  {
  }

  /** A lookup and an insert that nothing comes between handle the event at one go. */
  lemma ReceiveIsUninterrupted(s: State, g: nat, e: Event)
    requires g !in s.pending
    ensures Next(Next(s, LookUp(g, e)), Write(g)) == Next(s, Receive(e))
  {
    hide FindWhatsApp, NameFor, Content, Ignored, InitialMetadata;
    assert s.pending - {g} == s.pending;
    if LooksUp(s.db, e) && !Found(s.db, e) {
      assert s.pending[g := Delivery(e, UpsertFor(s.db, e).1)] - {g} == s.pending;
    }
  }

  /** And a select and an update that nothing comes between store the analysis at one go. */
  lemma AnalysedIsUninterrupted(s: State, g: nat, tenant: int, id: int, r: AnalysisResult, readWorks: bool)
    requires g !in s.analyses
    ensures Next(Next(s, Read(g, tenant, id, r, readWorks)), Save(g)) == Next(s, Analysed(tenant, id, r, readWorks))
  {
    hide Select, Update;
    assert s.analyses[g := Select(s.db.messages, tenant, id, r, readWorks)] - {g} == s.analyses;
  }

  // ---------- What a row keeps ----------

  /** The merge keeps every metadata key it was given but its own, and adds no other; so a stored
      analysis leaves the row with the WhatsApp id that its select saw. */
  lemma MergeKeepsOtherKeys(metadata: Option<Metadata>, r: AnalysisResult)
    ensures var merged := Merge(metadata, r);
            && "analysis" in merged && merged["analysis"] == Json.Analysis(r)
            && (metadata.Some? ==> forall k :: k in metadata.value && k != "analysis" ==>
                  k in merged && merged[k] == metadata.value[k])
            && (forall k :: k in merged && k != "analysis" ==> metadata.Some? && k in metadata.value)
            && LabelOf(Some(merged)) == LabelOf(metadata)
  {
    assert "whatsapp_id" != "analysis" by {
      assert "whatsapp_id"[0] == 'w' && "analysis"[0] == 'a';
    }
  }

  predicate SameIdentity(a: MessageRow, b: MessageRow) {
    a.id == b.id && a.tenant == b.tenant && a.content == b.content && a.conversation == b.conversation
  }

  // The step stores an analysis over the row.
  predicate StoresOver(s: State, a: Action, row: MessageRow) {
    Stored(s, a).Some? && Targets(row, Stored(s, a).value)
  }

  lemma UpdateKeepsRow(db: Db, r: Reading, i: nat)
    requires i < |db.messages|
    ensures i < |Update(db, r).messages|
    ensures var b, c := db.messages[i], Update(db, r).messages[i];
            SameIdentity(b, c) && WhatsAppId(c) == if Targets(b, r) then LabelOf(r.metadata) else WhatsAppId(b)
  {
    hide LabelOf, Merge, Exists;
    MergeKeepsOtherKeys(r.metadata, r.result);
  }

  lemma NextKeepsRow(s: State, a: Action, i: nat)
    requires i < |s.db.messages|
    ensures i < |Next(s, a).db.messages|
    ensures var b, c := s.db.messages[i], Next(s, a).db.messages[i];
            && SameIdentity(b, c)
            && WhatsAppId(c) == if StoresOver(s, a, b) then LabelOf(Stored(s, a).value.metadata) else WhatsAppId(b)
  {
    hide LabelOf, Update, Select, FindWhatsApp, NameFor, Content, Ignored, NextPending, NextAnalyses, NextOrigins;
    if Stored(s, a).Some? {
      UpdateKeepsRow(s.db, Stored(s, a).value, i);
    }
  }

  /** Rows are never removed and never change identity; and the WhatsApp id a row shows is the one it
      showed, or else the one seen by the select of the last analysis that was stored over it, if k < n
      at step k. */
  lemma {:induction false} RowsStay(run: seq<Action>, m: nat, n: nat, i: nat) returns (k: nat)
    requires m <= n <= |run| && i < |After(run, m).db.messages|
    ensures i < |After(run, n).db.messages| && SameIdentity(After(run, m).db.messages[i], After(run, n).db.messages[i])
    ensures var b, c := After(run, m).db.messages[i], After(run, n).db.messages[i];
            if m <= k < n then
              && StoresOver(After(run, k), run[k], b)
              && (forall j :: k < j < n ==> !StoresOver(After(run, j), run[j], b))
              && WhatsAppId(c) == LabelOf(Stored(After(run, k), run[k]).value.metadata)
            else
              (forall j :: m <= j < n ==> !StoresOver(After(run, j), run[j], b)) && WhatsAppId(c) == WhatsAppId(b)
    decreases n
  {
    hide After, Next, LabelOf, WhatsAppId, Stored;
    k := n;
    if m < n {
      k := RowsStay(run, m, n - 1, i);
      AfterStep(run, n);
      NextKeepsRow(After(run, n - 1), run[n - 1], i);
      if StoresOver(After(run, n - 1), run[n - 1], After(run, m).db.messages[i]) {
        k := n - 1;
      } else if k == n - 1 {
        k := n;
      }
    }
  }

  lemma {:induction false} ReadingStays(run: seq<Action>, n: nat, g: nat)
    requires 0 < n <= |run| && g in After(run, n).analyses
    ensures if g in After(run, n - 1).analyses then
              After(run, n).analyses[g] == After(run, n - 1).analyses[g] && run[n - 1] != Save(g)
            else
              && run[n - 1].Read? && run[n - 1].g == g
              && var a := run[n - 1];
                 After(run, n).analyses[g] ==
                   Select(After(run, n - 1).db.messages, a.tenant, a.id, a.result, a.readWorks)
  {
    hide After, NextDb, NextPending, NextOrigins, Select;
    AfterStep(run, n);
  }

  /** What a separate update stores was selected by an earlier step: the metadata the row had then if
      that select worked, and nothing otherwise. */
  lemma {:induction false} ReadingFrom(run: seq<Action>, n: nat, g: nat) returns (l: nat)
    requires n <= |run| && g in After(run, n).analyses
    ensures l < n && run[l].Read? && run[l].g == g && forall k :: l < k < n ==> run[k] != Save(g)
    ensures var a := run[l];
            After(run, n).analyses[g] == Select(After(run, l).db.messages, a.tenant, a.id, a.result, a.readWorks)
  {
    hide After, Next, Select;
    if n == 0 {
      AfterStart(run);
      assert false;
    } else {
      ReadingStays(run, n, g);
      l := n - 1;
      if g in After(run, n - 1).analyses {
        l := ReadingFrom(run, n - 1, g);
      }
    }
  }

  // ---------- Which rows carry an analysis ----------

  predicate HasRow(db: Db, tenant: int, id: int) {
    exists i :: 0 <= i < |db.messages| && db.messages[i].id == id && db.messages[i].tenant == tenant
  }

  predicate Carries(row: MessageRow) { row.metadata.Some? && "analysis" in row.metadata.value }

  predicate HasAnalysis(db: Db, tenant: int, id: int) {
    exists i :: 0 <= i < |db.messages| && db.messages[i].id == id && db.messages[i].tenant == tenant &&
      Carries(db.messages[i])
  }

  // The step stores an analysis of this message, or would if it were there.
  predicate StoresFor(s: State, a: Action, tenant: int, id: int) {
    Stored(s, a).Some? && Stored(s, a).value.tenant == tenant && Stored(s, a).value.id == id
  }

  lemma UpdateCarries(db: Db, r: Reading, i: nat)
    requires i < |db.messages|
    ensures i < |Update(db, r).messages| == |db.messages|
    ensures Carries(Update(db, r).messages[i]) <==> Carries(db.messages[i]) || Targets(db.messages[i], r)
  {
    hide Exists;
  }

  lemma FreshRowsCarryNothing(e: Event, sender: string)
    ensures "analysis" !in InitialMetadata(e, sender)
  {
    hide ExtractMediaInfo;
    assert "analysis"[0] == 'a' && "source"[0] == 's' && "whatsapp_id"[0] == 'w' && "sender"[0] == 's';
    assert "chat"[0] == 'c' && "media"[0] == 'm';
  }

  // A step that stores nothing keeps the rows and appends none that carries an analysis.
  lemma OtherStepsAppend(s: State, a: Action)
    requires Stored(s, a) == None
    ensures var rows, after := s.db.messages, Next(s, a).db.messages;
            rows <= after && forall i :: |rows| <= i < |after| ==> !Carries(after[i])
  {
    hide FindWhatsApp, NameFor, Content, Ignored, InitialMetadata, NextPending, NextAnalyses, NextOrigins;
    forall e, sender {
      FreshRowsCarryNothing(e, sender);
    }
  }

  lemma NextCarries(s: State, a: Action, tenant: int, id: int)
    ensures HasRow(s.db, tenant, id) ==> HasRow(Next(s, a).db, tenant, id)
    ensures HasAnalysis(Next(s, a).db, tenant, id) <==>
              HasAnalysis(s.db, tenant, id) || (StoresFor(s, a, tenant, id) && HasRow(s.db, tenant, id))
  {
    hide Carries, Update, NextPending, NextAnalyses, NextOrigins, Select;
    var rows, after := s.db.messages, Next(s, a).db.messages;
    forall i | 0 <= i < |rows|
      ensures i < |after| && SameIdentity(rows[i], after[i])
      ensures Carries(after[i]) <==> Carries(rows[i]) || StoresOver(s, a, rows[i])
    {
      NextKeepsRow(s, a, i);
      if Stored(s, a).Some? {
        UpdateCarries(s.db, Stored(s, a).value, i);
      } else {
        OtherStepsAppend(s, a);
      }
    }
    AppendedCarryNothing(s, a);
  }

  lemma AppendedCarryNothing(s: State, a: Action)
    ensures forall i :: |s.db.messages| <= i < |Next(s, a).db.messages| ==> !Carries(Next(s, a).db.messages[i])
  {
    hide Carries, Update, NextPending, NextAnalyses, NextOrigins, Select;
    if Stored(s, a).Some? {
      UpdateLength(s.db, Stored(s, a).value);
    } else {
      OtherStepsAppend(s, a);
    }
  }

  lemma UpdateLength(db: Db, r: Reading)
    ensures |Update(db, r).messages| == |db.messages|
  {
  }

  // ---------- Which analysis a row shows ----------

  function ShownBy(row: MessageRow): Option<AnalysisResult> {
    if row.metadata.Some? && "analysis" in row.metadata.value && row.metadata.value["analysis"].Analysis?
    then Some(row.metadata.value["analysis"].result) else None
  }

  /** An update leaves its own analysis in the row it targets, whatever was there, and no trace in others. */
  lemma UpdateShows(db: Db, r: Reading, i: nat)
    requires i < |db.messages|
    ensures i < |Update(db, r).messages|
    ensures var b, c := db.messages[i], Update(db, r).messages[i];
            if b.id == r.id && b.tenant == r.tenant then ShownBy(c) == Some(r.result) else c == b
  {
    hide Exists;
  }

  /** Stored at one go over the message with the id, an analysis replaces an earlier one, and the other keys
      stay as they are if the select worked and are lost if it did not. */
  lemma StoreExactly(db: Db, tenant: int, id: int, r: AnalysisResult, readWorks: bool, i: nat)
    requires IdsGrow(db) && i < |db.messages| && db.messages[i].id == id && db.messages[i].tenant == tenant
    ensures i < |Store(db, tenant, id, r, readWorks).messages|
    ensures var was, row := db.messages[i], Store(db, tenant, id, r, readWorks).messages[i];
            && ShownBy(row) == Some(r) && row.metadata.Some? && SameIdentity(was, row)
            && row.sender == was.sender && row.timestamp == was.timestamp
            && forall k :: k != "analysis" ==>
                 && (k in row.metadata.value <==> readWorks && was.metadata.Some? && k in was.metadata.value)
                 && (k in row.metadata.value ==> row.metadata.value[k] == was.metadata.value[k])
  {
    hide Exists, FindMessage;
    var j := FindMessage(db.messages, tenant, id);
    assert j == i;
  }

  lemma NextShows(s: State, a: Action, i: nat)
    requires i < |s.db.messages|
    ensures i < |Next(s, a).db.messages|
    ensures ShownBy(Next(s, a).db.messages[i]) ==
              if StoresOver(s, a, s.db.messages[i]) then Some(Stored(s, a).value.result)
              else ShownBy(s.db.messages[i])
  {
    hide ShownBy, LabelOf, Update, Select, FindWhatsApp, NameFor, Content, Ignored;
    hide NextPending, NextAnalyses, NextOrigins;
    NextKeepsRow(s, a, i);
    if Stored(s, a).Some? {
      UpdateShows(s.db, Stored(s, a).value, i);
    } else {
      OtherStepsAppend(s, a);
    }
  }

  lemma NewShowNothing(s: State, a: Action, i: nat)
    requires |s.db.messages| <= i < |Next(s, a).db.messages|
    ensures ShownBy(Next(s, a).db.messages[i]) == None
  {
    hide Next;
    AppendedCarryNothing(s, a);
  }

  // Step k stores an analysis over row i.
  ghost predicate StoresOverRow(run: seq<Action>, k: nat, i: nat)
    requires k < |run|
  {
    var s := After(run, k);
    i < |s.db.messages| && StoresOver(s, run[k], s.db.messages[i])
  }

  /** In every run a row shows the analysis of the last step that stored one over it, and none if no step did. */
  lemma {:induction false} ShownIsLastStored(run: seq<Action>, n: nat, i: nat) returns (k: nat)
    requires n <= |run| && i < |After(run, n).db.messages|
    ensures if k < n then
              && StoresOverRow(run, k, i) && (forall j :: k < j < n ==> !StoresOverRow(run, j, i))
              && ShownBy(After(run, n).db.messages[i]) == Some(Stored(After(run, k), run[k]).value.result)
            else
              && (forall j :: 0 <= j < n ==> !StoresOverRow(run, j, i))
              && ShownBy(After(run, n).db.messages[i]) == None
  {
    hide After, Next, ShownBy, StoresOver, Stored;
    k := n;
    if n == 0 {
      AfterStart(run);
    } else {
      var s := After(run, n - 1);
      AfterStep(run, n);
      if i < |s.db.messages| {
        k := ShownIsLastStored(run, n - 1, i);
        NextShows(s, run[n - 1], i);
        if StoresOverRow(run, n - 1, i) {
          StoringIsStored(s, run[n - 1], i);
          k := n - 1;
        } else if k >= n - 1 {
          k := n;
        }
      } else {
        NotYetThere(run, n - 1, i);
        NewShowNothing(s, run[n - 1], i);
      }
    }
  }

  lemma StoringIsStored(s: State, a: Action, i: nat)
    requires i < |s.db.messages| && StoresOver(s, a, s.db.messages[i])
    ensures Stored(s, a).Some?
  {
  }

  // Rows stay, so one that is not there has never been.
  lemma {:induction false} NotYetThere(run: seq<Action>, n: nat, i: nat)
    requires n <= |run| && i >= |After(run, n).db.messages|
    ensures forall j :: 0 <= j <= n ==> i >= |After(run, j).db.messages|
  {
    hide After, Next;
    if n > 0 {
      AfterStep(run, n);
      if i < |After(run, n - 1).db.messages| {
        NextKeepsRow(After(run, n - 1), run[n - 1], i);
        assert false;
      }
      NotYetThere(run, n - 1, i);
    }
  }

  /** A message sent from the dashboard is a row without metadata, and moves the time of the conversation it
      is sent to, and no other's. */
  lemma SendExactly(s: State, tenant: int, conversation: int, sender: string, content: string, at: int)
    ensures var db, after := s.db, Next(s, Send(tenant, conversation, sender, content, at)).db;
            && |after.messages| == |db.messages| + 1 && after.messages[..|db.messages|] == db.messages
            && (var row := after.messages[|db.messages|];
                && row.id == db.nextMessage && row.tenant == tenant && row.conversation == conversation
                && row.sender == sender && row.content == content && row.timestamp == at && row.metadata == None)
            && after.conversations.Keys == db.conversations.Keys
            && forall key :: key in db.conversations ==>
                 var was, now := db.conversations[key], after.conversations[key];
                 && now.id == was.id && now.name == was.name && now.picture == was.picture
                 && now.lastMessageAt ==
                      if key.0 == tenant && was.id == conversation then at else was.lastMessageAt
  {
  }

  /** A contact sync gives the conversation of the address its name and picture, where it has one to give,
      and writes no message; an existing conversation keeps its time. */
  lemma SyncContactExactly(s: State, tenant: int, chat: Jid, name: string, lookups: Lookups)
    ensures var key, before, after := (tenant, ContactNumber(chat)), s.db.conversations,
                                      Next(s, SyncContact(tenant, chat, name, lookups)).db;
            var given := ResolveName(chat, name, lookups);
            && after.messages == s.db.messages && after.important == s.db.important
            && after.conversations.Keys == before.Keys + {key}
            && (forall k :: k in before && k != key ==> after.conversations[k] == before[k])
            && var now := after.conversations[key];
               if key !in before then
                 now.name == given && now.picture == lookups.pictureURL && now.lastMessageAt == 0
               else
                 && now.id == before[key].id
                 && now.name == (if given != "" then given else before[key].name)
                 && now.picture == (if lookups.pictureURL != "" then lookups.pictureURL else before[key].picture)
                 && (before[key].lastMessageAt >= 0 ==> now.lastMessageAt == before[key].lastMessageAt)
  {
    hide ContactNumber, ResolveName;
  }

  // ---------- Important messages ----------

  // Step i stores an important analysis of an existing message.
  predicate Marks(run: seq<Action>, i: nat, id: int)
    requires i < |run|
  {
    var s := After(run, i);
    var r := Stored(s, run[i]);
    r.Some? && r.value.id == id && r.value.result.isImportant && Exists(s.db.messages, id)
  }

  /** A message is in the important set exactly when some stored analysis of it was important, and
      it keeps the tenant, priority and reason of the first such analysis. */
  lemma {:induction false} ImportantIsFirstMark(run: seq<Action>, n: nat, id: int) returns (i: nat)
    requires n <= |run|
    ensures if i < n then
              && Marks(run, i, id) && (forall j :: 0 <= j < i ==> !Marks(run, j, id))
              && var r := Stored(After(run, i), run[i]).value;
                 Lookup(After(run, n).db.important, id) == Some(Important(r.tenant, r.result.priority, r.result.reason))
            else (forall j :: 0 <= j < n ==> !Marks(run, j, id)) && id !in After(run, n).db.important
  {
    hide After, Next, Exists, Stored;
    if n == 0 {
      i := 0;
      AfterStart(run);
    } else {
      i := ImportantIsFirstMark(run, n - 1, id);
      if i >= n - 1 {
        i := if Marks(run, n - 1, id) then n - 1 else n;
      }
      AfterStep(run, n);
      ImportantStep(After(run, n - 1), run[n - 1], id);
    }
  }

  lemma ImportantStep(s: State, a: Action, id: int)
    ensures Lookup(Next(s, a).db.important, id) ==
              if id in s.db.important then Some(s.db.important[id])
              else
                var r := Stored(s, a);
                if r.Some? && r.value.id == id && r.value.result.isImportant && Exists(s.db.messages, id) then
                  Some(Important(r.value.tenant, r.value.result.priority, r.value.result.reason))
                else None
  {
    hide Exists, FindWhatsApp, NameFor, Content, Ignored, Annotate, Select, NextPending, NextAnalyses, NextOrigins;
  }

  lemma {:induction false} ImportantGrows(run: seq<Action>, m: nat, n: nat, id: int)
    requires m <= n <= |run| && id in After(run, m).db.important
    ensures id in After(run, n).db.important && After(run, n).db.important[id] == After(run, m).db.important[id]
    decreases n
  {
    hide After, Next, Exists, Stored;
    if m < n {
      ImportantGrows(run, m, n - 1, id);
      AfterStep(run, n);
      ImportantStep(After(run, n - 1), run[n - 1], id);
    }
  }

  ghost predicate IdsGrow(db: Db) {
    && (forall i, j :: 0 <= i < j < |db.messages| ==> db.messages[i].id < db.messages[j].id)
    && (forall i :: 0 <= i < |db.messages| ==> 0 < db.messages[i].id < db.nextMessage)
    && db.nextMessage > 0
  }

  lemma OneRowAnnotated(rows: seq<MessageRow>, r: Reading)
    requires forall i, j :: 0 <= i < j < |rows| ==> rows[i].id < rows[j].id
    ensures var i := FindMessage(rows, r.tenant, r.id);
            Annotate(rows, r) == if i < |rows| then rows[i := AnnotateRow(rows[i], r)] else rows
  {
    hide Merge, FindMessage;
  }

  // ---------- The statement sequence of StoreAnalysis ----------

  class Tables {
    var db: Db

    constructor (db: Db)
      ensures this.db == db
    {
      this.db := db;
    }

    /** The flags are whether the select, the update and the insert work; after a failing select the method,
        like the code, goes on, and after a failing update it does not. */
    method StoreAnalysis(tenant: int, id: int, r: AnalysisResult, readWorks: bool, updateWorks: bool,
        insertWorks: bool)
        returns (ok: bool)
      requires IdsGrow(db)
      modifies this
      ensures IdsGrow(db)
      ensures updateWorks && insertWorks ==> db == Store(old(db), tenant, id, r, readWorks)
      ensures updateWorks && !insertWorks ==>
                db == Store(old(db), tenant, id, r, readWorks).(important := old(db).important)
      ensures !updateWorks ==> db == old(db)
      ensures ok <==> updateWorks && (r.isImportant ==>
                        insertWorks && (Exists(old(db).messages, id) || id in old(db).important))
    {
      hide Annotate, FindMessage, Exists;
      OneRowAnnotated(db.messages, Select(db.messages, tenant, id, r, readWorks));
      var payload: Metadata := map[];
      var position := FindMessage(db.messages, tenant, id);
      var found := Exists(db.messages, id);
      if readWorks && position < |db.messages| && db.messages[position].metadata.Some? {
        payload := db.messages[position].metadata.value;
      }
      payload := payload["analysis" := Json.Analysis(r)];
      if !updateWorks {
        return false;
      }
      if position < |db.messages| {
        db := db.(messages := db.messages[position := db.messages[position].(metadata := Some(payload))]);
      }
      if r.isImportant {
        if !insertWorks || (!found && id !in db.important) {
          return false;
        }
        if id !in db.important {
          db := db.(important := db.important[id := Important(tenant, r.priority, r.reason)]);
        }
      }
      return true;
    }
  }
}
