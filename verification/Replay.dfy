/** What repeated and reordered delivery of WhatsApp events does to the tables (whatsapp/sync.go). */
module Replay {
  import opened Wrappers
  import opened Ingest

  ghost predicate SameTables(a: Db, b: Db) {
    a.conversations == b.conversations && a.messages == b.messages && a.important == b.important
  }

  // The event upserts this conversation.
  predicate Touches(e: Event, key: (int, string)) {
    !Ignored(e) && e.upsertWorks && ConversationKey(e) == key
  }

  // ---------- One conversation under a list of events ----------

  function NameAfter(events: seq<Event>, key: (int, string), name: string): string {
    if events == [] then name
    else
      var before := NameAfter(events[..|events| - 1], key, name);
      var e := events[|events| - 1];
      if Touches(e, key) then Or(NameFor(e), before) else before
  }

  function PictureAfter(events: seq<Event>, key: (int, string), picture: string): string {
    if events == [] then picture
    else
      var before := PictureAfter(events[..|events| - 1], key, picture);
      var e := events[|events| - 1];
      if Touches(e, key) then Or(e.lookups.pictureURL, before) else before
  }

  function NameIn(db: Db, key: (int, string)): string {
    if key in db.conversations then db.conversations[key].name else ""
  }

  function PictureIn(db: Db, key: (int, string)): string {
    if key in db.conversations then db.conversations[key].picture else ""
  }

  // One event, seen from one conversation.
  lemma HandleConversationRow(db: Db, e: Event, key: (int, string))
    ensures var after := Handle(db, e).0;
            if Touches(e, key) then
              && key in after.conversations
              && var row := after.conversations[key];
                 && row.name == Or(NameFor(e), NameIn(db, key)) &&
                     row.picture == Or(e.lookups.pictureURL, PictureIn(db, key))
                 && row.lastMessageAt == (if key in db.conversations then
                     Max(db.conversations[key].lastMessageAt, e.info.timestamp) else e.info.timestamp)
                 && (key in db.conversations ==> row.id == db.conversations[key].id)
            else Lookup(after.conversations, key) == Lookup(db.conversations, key)
  {
  }

  /** After any events a conversation has the last non-empty name (and picture) it was given. */
  lemma {:induction false} NameIsFold(db: Db, events: seq<Event>, key: (int, string))
    ensures NameIn(HandleAll(db, events), key) == NameAfter(events, key, NameIn(db, key))
    ensures PictureIn(HandleAll(db, events), key) == PictureAfter(events, key, PictureIn(db, key))
    ensures key in db.conversations ==>
              key in HandleAll(db, events).conversations &&
                  HandleAll(db, events).conversations[key].id == db.conversations[key].id
  {
    if events != [] {
      var front, e := events[..|events| - 1], events[|events| - 1];
      NameIsFold(db, front, key);
      HandleConversationRow(HandleAll(db, front), e, key);
      hide Handle;
    }
  }

  ghost predicate NamedLastBy(events: seq<Event>, key: (int, string), i: nat)
    requires i < |events|
  {
    && Touches(events[i], key) && NameFor(events[i]) != ""
    && forall j :: i < j < |events| && Touches(events[j], key) ==> NameFor(events[j]) == ""
  }

  /** The fold is the name of the last event that brings one. */
  lemma {:induction false} NameAfterIsLastNonEmpty(events: seq<Event>, key: (int, string), name: string)
      returns (i: nat)
    ensures if i < |events| then NamedLastBy(events, key, i) && NameAfter(events, key, name) == NameFor(events[i])
            else
              && NameAfter(events, key, name) == name
              && forall j :: 0 <= j < |events| && Touches(events[j], key) ==> NameFor(events[j]) == ""
  {
    hide Touches, NameFor;
    if events == [] {
      i := 0;
    } else {
      var n := |events| - 1;
      i := NameAfterIsLastNonEmpty(events[..n], key, name);
      if Touches(events[n], key) && NameFor(events[n]) != "" {
        i := n;
      } else if i >= n {
        i := |events|;
      }
    }
  }

  /** last_message_at is the maximum over what was there and every upsert of the conversation. */
  lemma {:induction false} LastIsMax(db: Db, events: seq<Event>, key: (int, string))
    ensures var after := HandleAll(db, events);
            && (key in after.conversations <==> key in db.conversations || exists e :: e in events && Touches(e, key))
            && (key in after.conversations ==>
                  var last := after.conversations[key].lastMessageAt;
                  && (key in db.conversations ==> db.conversations[key].lastMessageAt <= last)
                  && (forall e :: e in events && Touches(e, key) ==> e.info.timestamp <= last)
                  && ((key in db.conversations && db.conversations[key].lastMessageAt == last) ||
                      exists e :: e in events && Touches(e, key) && e.info.timestamp == last))
  {
    if events != [] {
      var front, e := events[..|events| - 1], events[|events| - 1];
      LastIsMax(db, front, key);
      HandleConversationRow(HandleAll(db, front), e, key);
      hide Handle, Touches;
      assert forall d :: d in events <==> d in front || d == e;
    }
  }

  /** Order and repetition of delivery do not matter for last_message_at. */
  lemma {:induction false} AnyOrderSameLast(db: Db, events: seq<Event>, other: seq<Event>, key: (int, string))
    requires forall e :: e in events <==> e in other
    ensures var a, b := HandleAll(db, events).conversations, HandleAll(db, other).conversations;
            && (key in a <==> key in b)
            && (key in a ==> a[key].lastMessageAt == b[key].lastMessageAt)
  {
    hide Touches, HandleAll;
    LastIsMax(db, events, key);
    LastIsMax(db, other, key);
  }

  // ---------- Replay ----------

  // The tables already show everything the event would add, except a name or picture.
  predicate Absorbed(db: Db, e: Event) {
    Ignored(e) || !e.upsertWorks ||
    (&& ConversationKey(e) in db.conversations
     && e.info.timestamp <= db.conversations[ConversationKey(e)].lastMessageAt
     && (|| db.conversations[ConversationKey(e)].id == 0 || !e.insertWorks
         || FindWhatsApp(db.messages, e.tenant, e.info.id) < |db.messages|))
  }

  lemma {:induction false} FoundStaysFound(rows: seq<MessageRow>, more: seq<MessageRow>, tenant: int, id: string)
    ensures FindWhatsApp(rows, tenant, id) < |rows| ==>
        FindWhatsApp(rows + more, tenant, id) == FindWhatsApp(rows, tenant, id)
    ensures FindWhatsApp(rows, tenant, id) == |rows| ==>
              FindWhatsApp(rows + more, tenant, id) == |rows| + FindWhatsApp(more, tenant, id)
  {
    if rows == [] {
      assert rows + more == more;
    } else {
      assert (rows + more)[1..] == rows[1..] + more;
      FoundStaysFound(rows[1..], more, tenant, id);
    }
  }

  // Handling adds at most one row at the end.
  lemma HandleAppends(db: Db, e: Event) returns (more: seq<MessageRow>)
    ensures Handle(db, e).0.messages == db.messages + more
  {
    var after := Handle(db, e).0;
    more := after.messages[|db.messages|..];
  }

  // A second insert finds the row of the first.
  lemma InsertTwice(db: Db, e: Event, conversation: int, content: string)
    ensures var (after, id) := Insert(db, e, conversation, content);
            && FindWhatsApp(after.messages, e.tenant, e.info.id) < |after.messages|
            && Insert(after, e, conversation, content) == (after, id)
  {
    var after := Insert(db, e, conversation, content).0;
    if FindWhatsApp(db.messages, e.tenant, e.info.id) == |db.messages| {
      var row := after.messages[|db.messages|];
      assert WhatsAppId(row) == Some(e.info.id);
      assert FindWhatsApp([row], e.tenant, e.info.id) == 0;
      FoundStaysFound(db.messages, [row], e.tenant, e.info.id);
    }
  }

  lemma HandledIsAbsorbed(db: Db, e: Event)
    ensures Absorbed(Handle(db, e).0, e)
  {
    if !Ignored(e) && e.upsertWorks {
      var (db1, conversation) := Upsert(db, ConversationKey(e), NameFor(e), e.info.timestamp, e.lookups.pictureURL);
      InsertTwice(db1, e, conversation, Content(e));
    }
  }

  lemma AbsorbedStays(db: Db, e: Event, next: Event)
    requires Absorbed(db, e)
    ensures Absorbed(Handle(db, next).0, e)
  {
    var more := HandleAppends(db, next);
    FoundStaysFound(db.messages, more, e.tenant, e.info.id);
    HandleConversationRow(db, next, ConversationKey(e));
    hide Handle, Ignored, FindWhatsApp, NameFor;
  }

  lemma {:induction false} AllAbsorbed(db: Db, events: seq<Event>, more: seq<Event>)
    ensures forall e :: e in events ==> Absorbed(HandleAll(HandleAll(db, events), more), e)
    decreases |more|, |events|
  {
    hide Handle, Absorbed;
    if more != [] {
      AllAbsorbed(db, events, more[..|more| - 1]);
      forall e | e in events {
        AbsorbedStays(HandleAll(HandleAll(db, events), more[..|more| - 1]), e, more[|more| - 1]);
      }
    } else if events != [] {
      var front, last := events[..|events| - 1], events[|events| - 1];
      AllAbsorbed(db, front, []);
      assert HandleAll(HandleAll(db, front), []) == HandleAll(db, front);
      forall e | e in events
        ensures Absorbed(HandleAll(HandleAll(db, events), more), e)
      {
        if e in front {
          AbsorbedStays(HandleAll(db, front), e, last);
        } else {
          HandledIsAbsorbed(HandleAll(db, front), last);
        }
      }
    }
  }

  // An absorbed event adds no row and moves no time stamp.
  lemma AbsorbedAddsNothing(db: Db, e: Event)
    requires Absorbed(db, e)
    ensures var after := Handle(db, e).0;
            && after.messages == db.messages && after.important == db.important
            && after.conversations.Keys == db.conversations.Keys
            && forall key :: key in db.conversations ==>
                 after.conversations[key].id == db.conversations[key].id
                 && after.conversations[key].lastMessageAt == db.conversations[key].lastMessageAt
  {
    hide NameFor, FindWhatsApp, ExtractMediaInfo, ExtractText;
  }

  /** Events that were all handled before, in any order and number, leave the messages and the
      time stamps of the conversations as they are. */
  lemma {:induction false} ReplayAddsNothing(db: Db, events: seq<Event>, replayed: seq<Event>)
    requires forall e :: e in replayed ==> e in events
    ensures var once, again := HandleAll(db, events), HandleAll(HandleAll(db, events), replayed);
            && again.messages == once.messages && again.important == once.important
            && again.conversations.Keys == once.conversations.Keys
            && forall key :: key in once.conversations ==>
                 again.conversations[key].id == once.conversations[key].id
                 && again.conversations[key].lastMessageAt == once.conversations[key].lastMessageAt
  {
    hide Handle, Absorbed;
    if replayed != [] {
      var front, last := replayed[..|replayed| - 1], replayed[|replayed| - 1];
      ReplayAddsNothing(db, events, front);
      AllAbsorbed(db, events, front);
      assert last in replayed;
      AbsorbedAddsNothing(HandleAll(HandleAll(db, events), front), last);
    }
  }

  // A fold of "last non-empty" either forgets its start or keeps it.
  lemma {:induction false} FoldForgetsOrKeeps(events: seq<Event>, key: (int, string), a: string, b: string)
    ensures || NameAfter(events, key, a) == NameAfter(events, key, b)
            || (NameAfter(events, key, a) == a && NameAfter(events, key, b) == b)
    ensures || PictureAfter(events, key, a) == PictureAfter(events, key, b)
            || (PictureAfter(events, key, a) == a && PictureAfter(events, key, b) == b)
  {
    hide Touches, NameFor;
    if events != [] {
      FoldForgetsOrKeeps(events[..|events| - 1], key, a, b);
    }
  }

  /** Handling a list of events twice leaves the tables as handling it once. */
  lemma {:induction false} ReplayIdempotent(db: Db, events: seq<Event>)
    ensures SameTables(HandleAll(db, events + events), HandleAll(db, events))
  {
    var once := HandleAll(db, events);
    var twice := HandleAll(once, events);
    HandleAllComposes(db, events, events);
    ReplayAddsNothing(db, events, events);
    hide HandleAll, NameAfter, PictureAfter;
    forall key | key in once.conversations
      ensures twice.conversations[key] == once.conversations[key]
    {
      NameIsFold(db, events, key);
      NameIsFold(once, events, key);
      FoldForgetsOrKeeps(events, key, NameIn(db, key), NameIn(once, key));
      FoldForgetsOrKeeps(events, key, PictureIn(db, key), PictureIn(once, key));
    }
  }

  /** The queue and the hub, by contrast, hear of a repeated event again: with the same notice. */
  lemma DuplicateIsAnnouncedAgain(db: Db, e: Event)
    ensures Handle(Handle(db, e).0, e).1 == Handle(db, e).1
  {
    if !Ignored(e) && e.upsertWorks {
      var key := ConversationKey(e);
      var (db1, conversation) := Upsert(db, key, NameFor(e), e.info.timestamp, e.lookups.pictureURL);
      var (db2, message) := Insert(db1, e, conversation, Content(e));
      InsertTwice(db1, e, conversation, Content(e));
      var db3 := Upsert(db2, key, NameFor(e), e.info.timestamp, e.lookups.pictureURL).0;
      assert db3.messages == db2.messages;
      hide Ignored, NameFor, Content, ContactNumber;
    }
  }
}
