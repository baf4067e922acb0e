/** How many rows a WhatsApp message gets when deliveries and stored analyses interleave
    (whatsapp/sync.go, llm/pipeline.go). */
module Duplicates {
  import opened Wrappers
  import opened Contract
  import opened Ingest
  import opened Analysis

  // ---------- The invariant ----------

  // The id a row shows, if it shows one, is that of the message it was written for.
  predicate Labelled(row: MessageRow, origin: Option<Origin>) {
    && (origin.Some? ==> origin.value.0 == row.tenant)
    && (WhatsAppId(row).Some? ==> origin == Some((row.tenant, WhatsAppId(row).value)))
  }

  // What a select saw of a row's id is that of the message the row was written for.
  ghost predicate ReadingOk(s: State, r: Reading)
    requires |s.origins| == |s.db.messages|
  {
    LabelOf(r.metadata).Some? ==>
      && r.id < s.db.nextMessage
      && forall i :: 0 <= i < |s.origins| && Targets(s.db.messages[i], r) ==>
           s.origins[i] == Some((r.tenant, LabelOf(r.metadata).value))
  }

  ghost predicate Inv(s: State) {
    && IdsGrow(s.db)
    && |s.origins| == |s.db.messages|
    && (forall i :: 0 <= i < |s.origins| ==> Labelled(s.db.messages[i], s.origins[i]))
    && (forall g :: g in s.analyses ==> ReadingOk(s, s.analyses[g]))
  }

  lemma OriginsStay(s: State, a: Action)
    ensures s.origins <= NextOrigins(s, a)
    ensures Written(s, a).Some? ==> NextOrigins(s, a) == s.origins + [Written(s, a)]
    ensures Written(s, a) == None ==> NextOrigins(s, a) in [s.origins, s.origins + [None]]
  {
  }

  // The row a step writes, if it writes one, stands at the end and has the next id.
  lemma RowsAppended(s: State, a: Action)
    requires |s.origins| == |s.db.messages|
    ensures |NextOrigins(s, a)| == |NextDb(s, a).messages| <= |s.origins| + 1
    ensures NextDb(s, a).nextMessage == s.db.nextMessage + |NextOrigins(s, a)| - |s.origins|
    ensures |NextOrigins(s, a)| > |s.origins| ==>
              var row, origin := NextDb(s, a).messages[|s.origins|], NextOrigins(s, a)[|s.origins|];
              && row.id == s.db.nextMessage && Labelled(row, origin)
              && (origin.Some? ==> WhatsAppId(row).Some?)
  {
    hide FindWhatsApp, NameFor, Content, Ignored, Append, Stored, Update;
    AppendAppends(s, a);
    if Stored(s, a).Some? {
      UpdateAppendsNothing(s.db, Stored(s, a).value);
    }
  }

  lemma UpdateAppendsNothing(db: Db, r: Reading)
    ensures |Update(db, r).messages| == |db.messages| && Update(db, r).nextMessage == db.nextMessage
  {
  }

  lemma AppendAppends(s: State, a: Action)
    ensures forall db: Db, e, conversation, content ::
              db.messages == s.db.messages && db.nextMessage == s.db.nextMessage ==>
              var (after, id) := Append(db, e, conversation, content);
              && after.nextMessage == db.nextMessage + 1 && |after.messages| == |db.messages| + 1
              && var row := after.messages[|db.messages|];
                 row.id == db.nextMessage && row.tenant == e.tenant && WhatsAppId(row) == Some(e.info.id)
  {
  }

  lemma SelectIsOk(s: State, tenant: int, id: int, r: AnalysisResult, readWorks: bool)
    requires Inv(s)
    ensures ReadingOk(s, Select(s.db.messages, tenant, id, r, readWorks))
  {
    hide FindMessage;
    var rows, i := s.db.messages, FindMessage(s.db.messages, tenant, id);
    if i < |rows| {
      assert Labelled(rows[i], s.origins[i]);
      assert forall j :: 0 <= j < |rows| && rows[j].id == id ==> j == i;
    }
  }

  lemma StoredIsOk(s: State, a: Action)
    requires Inv(s) && Stored(s, a).Some?
    ensures ReadingOk(s, Stored(s, a).value)
  {
    hide ReadingOk, Select;
    if a.Analysed? {
      SelectIsOk(s, a.tenant, a.id, a.result, a.readWorks);
    }
  }

  lemma RowsStayLabelled(s: State, a: Action)
    requires Inv(s)
    ensures forall i :: 0 <= i < |s.origins| ==>
              && i < |NextDb(s, a).messages| && i < |NextOrigins(s, a)| && NextOrigins(s, a)[i] == s.origins[i]
              && SameIdentity(s.db.messages[i], NextDb(s, a).messages[i])
              && Labelled(NextDb(s, a).messages[i], s.origins[i])
  {
    hide NextDb, NextOrigins, LabelOf, Stored;
    OriginsStay(s, a);
    RowsAppended(s, a);
    forall i | 0 <= i < |s.origins|
      ensures SameIdentity(s.db.messages[i], NextDb(s, a).messages[i])
      ensures Labelled(NextDb(s, a).messages[i], s.origins[i])
    {
      NextKeepsRow(s, a, i);
      assert Labelled(s.db.messages[i], s.origins[i]);
      if StoresOver(s, a, s.db.messages[i]) {
        StoredIsOk(s, a);
      }
    }
  }

  lemma ReadingStaysOk(s: State, a: Action, r: Reading)
    requires Inv(s) && ReadingOk(s, r) && |NextOrigins(s, a)| == |NextDb(s, a).messages|
    ensures ReadingOk(Next(s, a), r)
  {
    hide NextDb, NextOrigins, LabelOf, Labelled, Inv;
    RowsMatchOrigins(s);
    if LabelOf(r.metadata).Some? {
      TargetsStay(s, a, r);
    }
  }

  // A later row is not the one an earlier select saw.
  lemma TargetsStay(s: State, a: Action, r: Reading)
    requires Inv(s) && r.id < s.db.nextMessage
    ensures |NextDb(s, a).messages| == |NextOrigins(s, a)| && NextDb(s, a).nextMessage >= s.db.nextMessage
    ensures forall i :: 0 <= i < |NextOrigins(s, a)| && Targets(NextDb(s, a).messages[i], r) ==>
              && i < |s.origins| && Targets(s.db.messages[i], r) && NextOrigins(s, a)[i] == s.origins[i]
  {
    hide NextDb, NextOrigins, LabelOf, Labelled;
    OriginsStay(s, a);
    RowsStayLabelled(s, a);
    RowsAppended(s, a);
    forall i | 0 <= i < |NextOrigins(s, a)| && Targets(NextDb(s, a).messages[i], r)
      ensures i < |s.origins| && Targets(s.db.messages[i], r) && NextOrigins(s, a)[i] == s.origins[i]
    {
      assert i < |s.origins| ==> SameIdentity(s.db.messages[i], NextDb(s, a).messages[i]);
    }
  }

  lemma IdsStillGrow(s: State, a: Action)
    requires Inv(s)
    ensures IdsGrow(NextDb(s, a)) && |NextOrigins(s, a)| == |NextDb(s, a).messages|
    ensures forall i :: 0 <= i < |NextOrigins(s, a)| ==> Labelled(NextDb(s, a).messages[i], NextOrigins(s, a)[i])
  {
    hide NextDb, NextOrigins, Labelled, ReadingOk, WhatsAppId, IdsGrow;
    OriginsStay(s, a);
    RowsStayLabelled(s, a);
    RowsAppended(s, a);
    OneRowMore(s.db, NextDb(s, a));
  }

  // Rows that keep their ids, and perhaps one more with the next id.
  lemma OneRowMore(db: Db, after: Db)
    requires IdsGrow(db) && |db.messages| <= |after.messages| <= |db.messages| + 1
    requires forall i :: 0 <= i < |db.messages| ==> SameIdentity(db.messages[i], after.messages[i])
    requires |after.messages| > |db.messages| ==> after.messages[|db.messages|].id == db.nextMessage
    requires after.nextMessage == db.nextMessage + |after.messages| - |db.messages|
    ensures IdsGrow(after)
  {
    assert forall i :: 0 <= i < |db.messages| ==>
      SameIdentity(db.messages[i], after.messages[i]) && after.messages[i].id == db.messages[i].id;
  }

  lemma NextKeepsInv(s: State, a: Action)
    requires Inv(s)
    ensures Inv(Next(s, a))
  {
    hide NextDb, NextOrigins, Labelled, ReadingOk, Select, IdsGrow;
    IdsStillGrow(s, a);
    var after := Next(s, a);
    forall g | g in after.analyses
      ensures ReadingOk(after, after.analyses[g])
    {
      if a.Read? && a.g == g {
        SelectIsOk(s, a.tenant, a.id, a.result, a.readWorks);
      }
      ReadingStaysOk(s, a, after.analyses[g]);
    }
  }

  lemma {:induction false} AlwaysInv(run: seq<Action>, n: nat)
    requires n <= |run|
    ensures Inv(After(run, n))
  {
    hide Next;
    if n > 0 {
      AlwaysInv(run, n - 1);
      NextKeepsInv(After(run, n - 1), run[n - 1]);
    }
  }

  // ---------- Second rows ----------

  ghost predicate Unique(origins: seq<Option<Origin>>) {
    forall i, j :: 0 <= i < j < |origins| && origins[i].Some? ==> origins[i] != origins[j]
  }

  // The step writes a second row for a message.
  predicate Doubles(s: State, a: Action) {
    Written(s, a).Some? && Written(s, a) in s.origins
  }

  lemma UniqueStep(before: seq<Option<Origin>>, after: seq<Option<Origin>>)
    requires before <= after && |after| <= |before| + 1
    ensures Unique(after) <==>
              Unique(before) && (|after| == |before| || after[|before|] == None || after[|before|] !in before)
  {
    if Unique(after) {
      assert forall i :: 0 <= i < |before| ==> before[i] == after[i];
    } else if |after| > |before| && after[|before|].Some? && after[|before|] !in before {
      assert forall i :: 0 <= i < |before| ==> after[i] == before[i] && before[i] in before;
    }
  }

  // There is at most one row per message exactly as long as no step writes a second one.
  lemma {:induction false} UniqueUntilDoubled(run: seq<Action>, n: nat)
    requires n <= |run|
    ensures Unique(After(run, n).origins) <==> forall i :: 0 <= i < n ==> !Doubles(After(run, i), run[i])
  {
    hide After, Written, NextDb, NextPending, NextAnalyses, NextOrigins;
    if n > 0 {
      UniqueUntilDoubled(run, n - 1);
      AfterStep(run, n);
      var s := After(run, n - 1);
      OriginsStay(s, run[n - 1]);
      UniqueStep(s.origins, NextOrigins(s, run[n - 1]));
    } else {
      AfterStart(run);
    }
  }

  // Some row was written for the message, and no such row shows its id any more.
  predicate Forgotten(s: State, o: Origin)
    requires |s.origins| == |s.db.messages|
  {
    && Some(o) in s.origins
    && forall i :: 0 <= i < |s.origins| && s.origins[i] == Some(o) ==> WhatsAppId(s.db.messages[i]) == None
  }

  // The lookup misses a message exactly if it has no row, or all its rows have lost their id.
  lemma FoundByOrigin(s: State, e: Event)
    requires Inv(s)
    ensures Found(s.db, e) <==> Some(OriginOf(e)) in s.origins && !Forgotten(s, OriginOf(e))
  {
    var rows, i := s.db.messages, FindWhatsApp(s.db.messages, e.tenant, e.info.id);
    hide FindWhatsApp, LabelOf, ReadingOk;
    if i < |rows| {
      assert Labelled(rows[i], s.origins[i]);
    } else {
      forall j | 0 <= j < |rows| && s.origins[j] == Some(OriginOf(e))
        ensures WhatsAppId(rows[j]) == None
      {
        assert Labelled(rows[j], s.origins[j]);
      }
    }
  }

  /** An event handled at one go writes a second row exactly if it gets as far as the lookup and all
      rows of its message have lost their id; a separate insert, exactly if there is a row by now. */
  lemma WhenDoubles(s: State, a: Action)
    requires Inv(s)
    ensures a.Receive? ==> (Doubles(s, a) <==> LooksUp(s.db, a.event) && Forgotten(s, OriginOf(a.event)))
    ensures a.Write? ==> (Doubles(s, a) <==> a.g in s.pending && Some(OriginOf(s.pending[a.g].event)) in s.origins)
    ensures !a.Receive? && !a.Write? ==> !Doubles(s, a)
  {
    hide LooksUp, FindWhatsApp, WhatsAppId, Inv, Found;
    if a.Receive? {
      FoundByOrigin(s, a.event);
    }
  }

  // ---------- Deliveries that overlap ----------

  // The rows written in between are what a message gains in between.
  lemma {:induction false} OriginsBetween(run: seq<Action>, m: nat, n: nat, o: Origin)
    requires m <= n <= |run|
    ensures Some(o) in After(run, n).origins <==>
              Some(o) in After(run, m).origins || exists k :: m <= k < n && Written(After(run, k), run[k]) == Some(o)
    decreases n
  {
    hide After, Written, NextDb, NextPending, NextAnalyses, NextOrigins;
    if m < n {
      OriginsBetween(run, m, n - 1, o);
      AfterStep(run, n);
      OriginsStay(After(run, n - 1), run[n - 1]);
    }
  }

  // The delivery that step n inserts looked its message up at step l, and found nothing.
  ghost predicate LookedUpAt(run: seq<Action>, l: nat, n: nat)
    requires n < |run|
  {
    && l < n && run[l].LookUp? && run[n] == Write(run[l].g) && run[l].g !in After(run, l).pending
    && LooksUp(After(run, l).db, run[l].event) && !Found(After(run, l).db, run[l].event)
    && (forall k :: l < k < n ==> run[k] != run[n])
    && run[l].g in After(run, n).pending && After(run, n).pending[run[l].g].event == run[l].event
  }

  lemma PendingStep(s: State, a: Action, g: nat)
    requires g in NextPending(s, a)
    ensures if g in s.pending then NextPending(s, a)[g] == s.pending[g] && a != Write(g)
            else
              && a.LookUp? && a.g == g && NextPending(s, a)[g].event == a.event
              && LooksUp(s.db, a.event) && !Found(s.db, a.event)
  {
    hide LooksUp, Found, UpsertFor;
  }

  lemma {:induction false} PendingFrom(run: seq<Action>, n: nat, g: nat) returns (l: nat)
    requires n <= |run| && g in After(run, n).pending
    ensures l < n && run[l].LookUp? && run[l].g == g && g !in After(run, l).pending
    ensures LooksUp(After(run, l).db, run[l].event) && !Found(After(run, l).db, run[l].event)
    ensures forall k :: l < k < n ==> run[k] != Write(g)
    ensures After(run, n).pending[g].event == run[l].event
  {
    hide After, NextDb, NextPending, NextAnalyses, NextOrigins, LooksUp, Found;
    if n == 0 {
      AfterStart(run);
      assert false;
    } else {
      AfterStep(run, n);
      PendingStep(After(run, n - 1), run[n - 1], g);
      l := n - 1;
      if g in After(run, n - 1).pending {
        l := PendingFrom(run, n - 1, g);
      }
    }
  }

  /** Every insert of a delivery has its lookup. */
  lemma {:induction false} EveryWriteLookedUp(run: seq<Action>, n: nat) returns (l: nat)
    requires n < |run| && run[n].Write? && run[n].g in After(run, n).pending
    ensures LookedUpAt(run, l, n)
  {
    hide After, LooksUp, Found;
    l := PendingFrom(run, n, run[n].g);
  }

  // Another row was written for the message between the lookup and the insert of step n.
  ghost predicate Overlapped(run: seq<Action>, n: nat)
    requires n < |run|
  {
    exists l: nat, k: nat :: LookedUpAt(run, l, n) && l < k < n &&
      Written(After(run, k), run[k]) == Some(OriginOf(run[l].event))
  }

  // The message was forgotten when step n, or the lookup of the delivery it inserts, looked for it.
  ghost predicate LookedInVain(run: seq<Action>, n: nat)
    requires n < |run|
  {
    || (&& run[n].Receive? && LooksUp(After(run, n).db, run[n].event)
        && HasForgotten(After(run, n), OriginOf(run[n].event)))
    || exists l: nat :: LookedUpAt(run, l, n) && HasForgotten(After(run, l), OriginOf(run[l].event))
  }

  predicate HasForgotten(s: State, o: Origin) { |s.origins| == |s.db.messages| && Forgotten(s, o) }

  /** The insert of a delivery writes a second row exactly if another one was written since its lookup,
      or the message was forgotten at that lookup. */
  lemma {:induction false} OverlapDoubles(run: seq<Action>, l: nat, n: nat)
    requires n < |run| && LookedUpAt(run, l, n)
    ensures Doubles(After(run, n), run[n]) <==>
              || HasForgotten(After(run, l), OriginOf(run[l].event))
              || exists k :: l < k < n && Written(After(run, k), run[k]) == Some(OriginOf(run[l].event))
  {
    hide After, LooksUp, Found, WhatsAppId, Inv, Doubles;
    AlwaysInv(run, l);
    AlwaysInv(run, n);
    RowsMatchOrigins(After(run, l));
    FoundByOrigin(After(run, l), run[l].event);
    OriginsBetween(run, l, n, OriginOf(run[l].event));
    WhenDoubles(After(run, n), run[n]);
    assert Written(After(run, l), run[l]) == None;
  }

  lemma RowsMatchOrigins(s: State)
    requires Inv(s)
    ensures |s.origins| == |s.db.messages|
  {
  }

  lemma {:induction false} DoublesExactly(run: seq<Action>, n: nat)
    requires n < |run|
    ensures Doubles(After(run, n), run[n]) <==> Overlapped(run, n) || LookedInVain(run, n)
  {
    hide After, LooksUp, Found, WhatsAppId, Inv, Doubles, LookedUpAt, Forgotten;
    AlwaysInv(run, n);
    RowsMatchOrigins(After(run, n));
    WhenDoubles(After(run, n), run[n]);
    OnlyWritesLookedUp(run, n);
    if run[n].Write? && run[n].g in After(run, n).pending {
      var l := EveryWriteLookedUp(run, n);
      OverlapDoubles(run, l, n);
    }
    forall l: nat | LookedUpAt(run, l, n)
      ensures HasForgotten(After(run, l), OriginOf(run[l].event)) ==> Doubles(After(run, n), run[n])
      ensures (exists k :: l < k < n && Written(After(run, k), run[k]) == Some(OriginOf(run[l].event))) ==>
                Doubles(After(run, n), run[n])
    {
      OverlapDoubles(run, l, n);
    }
  }

  lemma {:induction false} OnlyWritesLookedUp(run: seq<Action>, n: nat)
    requires n < |run|
    ensures forall l: nat :: LookedUpAt(run, l, n) ==>
              run[n].Write? && run[n].g in After(run, n).pending && l < n && run[l].LookUp?
  {
  }

  /** In any run there is at most one row per tenant and WhatsApp message if and only if no two deliveries
      of a message overlapped, one writing between the lookup and the insert of the other, and no lookup
      was made for a message whose rows had lost their id. */
  lemma {:induction false} OneRowPerMessage(run: seq<Action>, n: nat)
    requires n <= |run|
    ensures Unique(After(run, n).origins) <==> forall i :: 0 <= i < n ==> !Overlapped(run, i) && !LookedInVain(run, i)
  {
    hide After, Doubles, Overlapped, LookedInVain, Unique;
    UniqueUntilDoubled(run, n);
    forall i | 0 <= i < n
      ensures Doubles(After(run, i), run[i]) <==> Overlapped(run, i) || LookedInVain(run, i)
    {
      DoublesExactly(run, i);
    }
  }

  // ---------- Selects that see nothing ----------

  predicate ShowsId(rows: seq<MessageRow>, tenant: int, id: int) {
    exists i :: 0 <= i < |rows| && rows[i].id == id && rows[i].tenant == tenant && WhatsAppId(rows[i]).Some?
  }

  // The select of an analysis fails over a WhatsApp id; a separate one also if its message is not there yet.
  predicate Blind(s: State, a: Action) {
    match a
    case Analysed(tenant, id, _, readWorks) => !readWorks && ShowsId(s.db.messages, tenant, id)
    case Read(_, tenant, id, _, readWorks) =>
      (!readWorks && ShowsId(s.db.messages, tenant, id)) || !HasRow(s.db, tenant, id)
    case _ => false
  }

  // What has been selected for a message with a WhatsApp id shows that id.
  ghost predicate SawId(s: State, r: Reading)
    requires |s.origins| == |s.db.messages|
  {
    && r.id < s.db.nextMessage
    && forall i :: 0 <= i < |s.origins| && Targets(s.db.messages[i], r) && s.origins[i].Some? ==>
         LabelOf(r.metadata).Some?
  }

  // Every row written for a message shows its id.
  ghost predicate RowsShown(s: State) {
    && |s.origins| == |s.db.messages|
    && forall i :: 0 <= i < |s.origins| && s.origins[i].Some? ==> WhatsAppId(s.db.messages[i]).Some?
  }

  ghost predicate AllShown(s: State) {
    RowsShown(s) && forall g :: g in s.analyses ==> SawId(s, s.analyses[g])
  }

  lemma SelectSees(s: State, tenant: int, id: int, r: AnalysisResult, readWorks: bool)
    requires Inv(s) && RowsShown(s) && (readWorks || !ShowsId(s.db.messages, tenant, id))
    ensures var reading := Select(s.db.messages, tenant, id, r, readWorks);
            forall i :: 0 <= i < |s.origins| && Targets(s.db.messages[i], reading) && s.origins[i].Some? ==>
              LabelOf(reading.metadata).Some?
  {
    hide LabelOf, FindMessage, Labelled, ReadingOk;
    var rows, i := s.db.messages, FindMessage(s.db.messages, tenant, id);
    if i < |rows| {
      assert forall j :: 0 <= j < |rows| && rows[j].id == id ==> j == i;
    }
  }

  lemma RowsStayShown(s: State, a: Action)
    requires Inv(s) && AllShown(s) && !Blind(s, a)
    ensures RowsShown(Next(s, a))
  {
    hide NextDb, NextOrigins, LabelOf, Labelled, Select, ReadingOk;
    RowsStayLabelled(s, a);
    RowsAppended(s, a);
    var after := Next(s, a);
    forall i | 0 <= i < |after.origins| && after.origins[i].Some?
      ensures WhatsAppId(after.db.messages[i]).Some?
    {
      if i < |s.origins| {
        NextKeepsRow(s, a, i);
        if a.Analysed? {
          SelectSees(s, a.tenant, a.id, a.result, a.readWorks);
        }
      }
    }
  }

  lemma SawIdStays(s: State, a: Action, r: Reading)
    requires Inv(s) && SawId(s, r) && |NextOrigins(s, a)| == |NextDb(s, a).messages|
    ensures SawId(Next(s, a), r)
  {
    hide NextDb, NextOrigins, LabelOf, Labelled, Inv;
    TargetsStay(s, a, r);
  }

  lemma ReadSawId(s: State, tenant: int, id: int, r: AnalysisResult, readWorks: bool)
    requires Inv(s) && AllShown(s) && HasRow(s.db, tenant, id)
    requires readWorks || !ShowsId(s.db.messages, tenant, id)
    ensures SawId(s, Select(s.db.messages, tenant, id, r, readWorks))
  {
    hide LabelOf, Labelled, ReadingOk, FindMessage;
    SelectSees(s, tenant, id, r, readWorks);
  }

  lemma NextKeepsShown(s: State, a: Action)
    requires Inv(s) && AllShown(s) && !Blind(s, a)
    ensures AllShown(Next(s, a))
  {
    hide NextDb, NextOrigins, Inv, SawId, Select, RowsShown;
    RowsStayShown(s, a);
    RowsMatchOrigins(s);
    NextKeepsInv(s, a);
    RowsMatchOrigins(Next(s, a));
    var after := Next(s, a);
    forall g | g in after.analyses
      ensures SawId(after, after.analyses[g])
    {
      if a.Read? && a.g == g && g !in s.analyses {
        ReadSawId(s, a.tenant, a.id, a.result, a.readWorks);
      }
      SawIdStays(s, a, after.analyses[g]);
    }
  }

  ghost predicate Deduplicated(rows: seq<MessageRow>) {
    forall i, j :: 0 <= i < j < |rows| && rows[i].tenant == rows[j].tenant && WhatsAppId(rows[i]).Some? ==>
      WhatsAppId(rows[i]) != WhatsAppId(rows[j])
  }

  lemma UniqueIsDeduplicated(s: State)
    requires Inv(s) && Unique(s.origins)
    ensures Deduplicated(s.db.messages)
  {
    hide LabelOf, ReadingOk;
    var rows := s.db.messages;
    forall i, j | 0 <= i < j < |rows| && rows[i].tenant == rows[j].tenant && WhatsAppId(rows[i]).Some?
      ensures WhatsAppId(rows[i]) != WhatsAppId(rows[j])
    {
      assert Labelled(rows[i], s.origins[i]) && Labelled(rows[j], s.origins[j]);
    }
  }

  lemma {:induction false} AlwaysShown(run: seq<Action>, n: nat)
    requires n <= |run| && forall i :: 0 <= i < n ==> !Blind(After(run, i), run[i])
    ensures Inv(After(run, n)) && AllShown(After(run, n))
  {
    hide After, Next, Inv, Blind;
    AlwaysInv(run, n);
    if n == 0 {
      AfterStart(run);
    } else {
      AlwaysShown(run, n - 1);
      AfterStep(run, n);
      NextKeepsShown(After(run, n - 1), run[n - 1]);
    }
  }

  lemma ShownIsNotForgotten(s: State, o: Origin)
    requires AllShown(s)
    ensures !HasForgotten(s, o)
  {
    if Some(o) in s.origins {
      var i :| 0 <= i < |s.origins| && s.origins[i] == Some(o);
    }
  }

  /** At most one row per tenant and WhatsApp message, and per id shown, in every run in which no select
      is blind and no two deliveries of a message overlap. */
  lemma {:induction false} AlwaysDeduplicated(run: seq<Action>, n: nat)
    requires n <= |run|
    requires forall i :: 0 <= i < n ==> !Blind(After(run, i), run[i])
    requires forall i :: 0 <= i < n ==> !Overlapped(run, i)
    ensures Unique(After(run, n).origins) && Deduplicated(After(run, n).db.messages) && AllShown(After(run, n))
  {
    hide After, Inv, AllShown, Blind, Overlapped, HasForgotten, LooksUp, Found, Unique, Deduplicated;
    forall i | 0 <= i < n
      ensures !LookedInVain(run, i)
    {
      AlwaysShown(run, i);
      if run[i].Receive? {
        ShownIsNotForgotten(After(run, i), OriginOf(run[i].event));
      }
      forall l: nat | LookedUpAt(run, l, i)
        ensures !HasForgotten(After(run, l), OriginOf(run[l].event))
      {
        AlwaysShown(run, l);
        ShownIsNotForgotten(After(run, l), OriginOf(run[l].event));
      }
    }
    AlwaysShown(run, n);
    OneRowPerMessage(run, n);
    UniqueIsDeduplicated(After(run, n));
  }

  // ---------- Both conditions are needed ----------

  lemma FirstLookUp(s: State, g: nat, e: Event)
    requires LooksUp(Ingest.EMPTY, e) && g !in s.pending
    requires s.db == Ingest.EMPTY || s.db == UpsertFor(Ingest.EMPTY, e).0.(nextConversation := s.db.nextConversation)
    ensures var after := Next(s, LookUp(g, e));
            && after.pending == s.pending[g := Delivery(e, 1)] && after.origins == s.origins
            && after.db == UpsertFor(Ingest.EMPTY, e).0.(nextConversation := after.db.nextConversation)
  {
    hide NameFor, Content, Ignored;
  }

  lemma WriteAppends(s: State, g: nat, e: Event)
    requires g in s.pending && s.pending[g] == Delivery(e, 1)
    ensures var after := Next(s, Write(g));
            && after.pending == s.pending - {g} && after.origins == s.origins + [Some(OriginOf(e))]
            && |after.db.messages| == |s.db.messages| + 1 && after.db.messages[..|s.db.messages|] == s.db.messages
            && var row := after.db.messages[|s.db.messages|];
               row.tenant == e.tenant && WhatsAppId(row) == Some(e.info.id)
  {
    hide NameFor, Content, Ignored, ExtractMediaInfo;
  }

  /** Two overlapping deliveries of a message write two rows with its id. */
  lemma OverlapExample(e: Event)
    requires LooksUp(Ingest.EMPTY, e)
    ensures var s := After([LookUp(0, e), LookUp(1, e), Write(0), Write(1)], 4);
            && |s.db.messages| == 2 && s.origins == [Some(OriginOf(e)), Some(OriginOf(e))]
            && !Deduplicated(s.db.messages)
  {
    hide After, Next, LooksUp, UpsertFor, WhatsAppId;
    var run := [LookUp(0, e), LookUp(1, e), Write(0), Write(1)];
    AfterStart(run);
    AfterStep(run, 1);
    FirstLookUp(After(run, 0), 0, e);
    AfterStep(run, 2);
    FirstLookUp(After(run, 1), 1, e);
    AfterStep(run, 3);
    NoRowsYet(e);
    WriteAppends(After(run, 2), 0, e);
    AfterStep(run, 4);
    WriteAppends(After(run, 3), 1, e);
    var rows := After(run, 4).db.messages;
    assert rows[0] == rows[..1][0] && rows[0].tenant == rows[1].tenant;
  }

  lemma NoRowsYet(e: Event)
    ensures UpsertFor(Ingest.EMPTY, e).0.messages == []
  {
  }

  lemma FirstReceive(e: Event)
    requires LooksUp(Ingest.EMPTY, e)
    ensures var s := Next(INIT, Receive(e));
            && |s.db.messages| == 1 && s.db.messages[0].id == 1 && s.db.messages[0].tenant == e.tenant
            && s.origins == [Some(OriginOf(e))] && s.db.nextConversation != 0
            && ConversationKey(e) in s.db.conversations && s.db.conversations[ConversationKey(e)].id == 1
  {
    hide NameFor, Content, Ignored, ExtractMediaInfo;
  }

  lemma UpdateKeepsConversations(db: Db, r: Reading)
    ensures Update(db, r).conversations == db.conversations && |Update(db, r).messages| == |db.messages|
  {
  }

  lemma ReceiveAgain(s: State, e: Event)
    requires LooksUp(Ingest.EMPTY, e) && ConversationKey(e) in s.db.conversations
    requires s.db.conversations[ConversationKey(e)].id == 1 && !Found(s.db, e)
    ensures var after := Next(s, Receive(e));
            && after.origins == s.origins + [Some(OriginOf(e))] && |after.db.messages| == |s.db.messages| + 1
            && after.db.messages[..|s.db.messages|] == s.db.messages
            && WhatsAppId(after.db.messages[|s.db.messages|]) == Some(e.info.id)
  {
    hide NameFor, Content, Ignored, ExtractMediaInfo;
  }

  /** And after a failed select the next delivery of a message writes a second row for it. */
  lemma FailedSelectExample(e: Event, r: AnalysisResult)
    requires LooksUp(Ingest.EMPTY, e)
    ensures var s := After([Receive(e), Analysed(e.tenant, 1, r, false), Receive(e)], 3);
            && s.origins == [Some(OriginOf(e)), Some(OriginOf(e))] && |s.db.messages| == 2
            && WhatsAppId(s.db.messages[0]) == None && WhatsAppId(s.db.messages[1]) == Some(e.info.id)
  {
    hide After, LooksUp, Update, WhatsAppId, FindMessage, NameFor, Content, Ignored, ContactNumber;
    var run := [Receive(e), Analysed(e.tenant, 1, r, false), Receive(e)];
    AfterStart(run);
    AfterStep(run, 1);
    FirstReceive(e);
    var s1, s2 := After(run, 1), After(run, 2);
    AfterStep(run, 2);
    NextKeepsRow(s1, run[1], 0);
    UpdateKeepsConversations(s1.db, Select(s1.db.messages, e.tenant, 1, r, false));
    LabelOfNothing();
    AfterStep(run, 3);
    ReceiveAgain(s2, e);
    assert After(run, 3).db.messages[..1][0] == After(run, 3).db.messages[0];
  }

  lemma LabelOfNothing()
    ensures LabelOf(None) == None
  {
  }
}
