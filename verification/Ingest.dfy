/** The WhatsApp event handler of whatsapp/sync.go and the rows it writes. */
module Ingest {
  import opened Wrappers
  import opened Text
  import opened Contract

  // ---------- Incoming messages ----------

  /** One media part; a field its kind does not have is "" or 0. */
  datatype Part = Part(mime: string, fileName: string, caption: string, size: nat, seconds: nat)

  /** The message kinds the handler looks at. */
  datatype WaMessage = WaMessage(
    conversation: string, extended: Option<string>,
    image: Option<Part>, video: Option<Part>, audio: Option<Part>, document: Option<Part>, sticker: Option<Part>,
    buttons: Option<string>, list: Option<string>, template: Option<string>, poll: Option<string>)

  datatype MediaInfo = MediaInfo(kind: string, mime: string, fileName: string, caption: string, size: nat,
      seconds: nat)

  function TextOf(part: Option<string>): string { if part.Some? then part.value else "" }

  function CaptionOf(part: Option<Part>): string { if part.Some? then part.value.caption else "" }

  function ExtractText(msg: Option<WaMessage>): string {
    if msg == None then ""
    else
      var m := msg.value;
      if m.conversation != "" then m.conversation
      else if TextOf(m.extended) != "" then TextOf(m.extended)
      else if CaptionOf(m.image) != "" then CaptionOf(m.image)
      else if CaptionOf(m.video) != "" then CaptionOf(m.video)
      else if CaptionOf(m.document) != "" then CaptionOf(m.document)
      else if TextOf(m.buttons) != "" then TextOf(m.buttons)
      else if TextOf(m.list) != "" then TextOf(m.list)
      else if TextOf(m.template) != "" then TextOf(m.template)
      else TextOf(m.poll)
  }

  function ExtractMediaInfo(msg: Option<WaMessage>): Option<MediaInfo> {
    if msg == None then None
    else
      var m := msg.value;
      if m.image.Some? then
        var p := m.image.value;
        Some(MediaInfo("image", p.mime, "", p.caption, p.size, 0))
      else if m.video.Some? then
        var p := m.video.value;
        Some(MediaInfo("video", p.mime, "", p.caption, p.size, p.seconds))
      else if m.audio.Some? then
        var p := m.audio.value;
        Some(MediaInfo("audio", p.mime, "", "", p.size, p.seconds))
      else if m.document.Some? then
        var p := m.document.value;
        Some(MediaInfo("document", p.mime, p.fileName, p.caption, p.size, 0))
      else if m.sticker.Some? then
        var p := m.sticker.value;
        Some(MediaInfo("sticker", p.mime, "", "", p.size, 0))
      else None
  }

  // ---------- Events ----------

  /** A chat address: user and server part, and its printed form. */
  datatype Jid = Jid(user: string, server: string, text: string)

  datatype Contact = Contact(fullName: string, pushName: string, firstName: string)

  /** What the WhatsApp client answers about a chat when asked. */
  datatype Lookups = Lookups(groupName: Option<string>, contact: Option<Contact>, pictureURL: string)

  datatype Info = Info(id: string, sender: string, fromMe: bool, pushName: string, timestamp: int)

  /** One call of handleMessage; the last two fields say whether the two database calls succeed. */
  datatype Event = Event(
    tenant: int, chat: Jid, info: Info, message: Option<WaMessage>, contactName: string,
    lookups: Lookups, upsertWorks: bool, insertWorks: bool)

  // ---------- Tables ----------

  datatype Json = Str(text: string) | Media(info: MediaInfo) | Analysis(result: AnalysisResult)

  type Metadata = map<string, Json>

  datatype MessageRow = MessageRow(
    id: int, tenant: int, conversation: int, sender: string, content: string, timestamp: int,
        metadata: Option<Metadata>)

  datatype Conversation = Conversation(id: int, name: string, lastMessageAt: int, picture: string)

  datatype Important = Important(tenant: int, priority: string, reason: string)

  // conversations is keyed by its unique index (tenant_id, contact_number), important_messages by message_id
  datatype Db = Db(
    conversations: map<(int, string), Conversation>, nextConversation: int,
    messages: seq<MessageRow>, nextMessage: int,
    important: map<int, Important>)

  const EMPTY := Db(map[], 1, [], 1, map[])

  // metadata_json->>'whatsapp_id'
  function LabelOf(metadata: Option<Metadata>): Option<string> {
    if metadata.Some? && "whatsapp_id" in metadata.value && metadata.value["whatsapp_id"].Str?
    then Some(metadata.value["whatsapp_id"].text) else None
  }

  function WhatsAppId(row: MessageRow): Option<string> { LabelOf(row.metadata) }

  // ---------- Conversations ----------

  function BeforeAt(s: string): string {
    if s == "" || s[0] == '@' then "" else [s[0]] + BeforeAt(s[1..])
  }

  function ContactNumber(chat: Jid): string {
    if chat.user != "" then chat.user else BeforeAt(chat.text)
  }

  function BestName(c: Contact): string {
    if c.fullName != "" then c.fullName else if c.pushName != "" then c.pushName else c.firstName
  }

  function ResolveName(chat: Jid, name: string, lookups: Lookups): string {
    if name != "" && name != ContactNumber(chat) then name
    else if chat.server == "g.us" then
      if TextOf(lookups.groupName) != "" then lookups.groupName.value else name
    else if lookups.contact.Some? && BestName(lookups.contact.value) != "" then BestName(lookups.contact.value)
    else name
  }

  function Or(a: string, b: string): string { if a != "" then a else b }

  function Max(a: int, b: int): int { if a >= b then a else b }

  function Upsert(db: Db, key: (int, string), name: string, at: int, picture: string): (Db, int) {
    var row := if key in db.conversations then
                 var was := db.conversations[key];
                 Conversation(was.id, Or(name, was.name), Max(was.lastMessageAt, at), Or(picture, was.picture))
               else Conversation(db.nextConversation, name, at, picture);
    (db.(conversations := db.conversations[key := row], nextConversation := db.nextConversation + 1), row.id)
  }

  // ---------- Messages ----------

  // The position of the tenant's row with this WhatsApp id, or the number of rows if there is none.
  function FindWhatsApp(rows: seq<MessageRow>, tenant: int, id: string): (i: nat)
    ensures i <= |rows|
    ensures i < |rows| ==> rows[i].tenant == tenant && WhatsAppId(rows[i]) == Some(id)
    ensures forall j :: 0 <= j < i ==> !(rows[j].tenant == tenant && WhatsAppId(rows[j]) == Some(id))
  {
    if rows == [] then 0
    else if rows[0].tenant == tenant && WhatsAppId(rows[0]) == Some(id) then 0
    else FindWhatsApp(rows[1..], tenant, id) + 1
  }

  function InitialMetadata(e: Event, sender: string): (m: Metadata)
    ensures "whatsapp_id" in m && m["whatsapp_id"] == Str(e.info.id)
  {
    var base := map["source" := Str("whatsapp"), "whatsapp_id" := Str(e.info.id), "sender" := Str(sender),
        "chat" := Str(e.chat.text)];
    var media := ExtractMediaInfo(e.message);
    if media.Some? then base["media" := Media(media.value)] else base
  }

  function Append(db: Db, e: Event, conversation: int, content: string): (Db, int) {
    var sender := if e.info.fromMe then "me" else e.info.sender;
    (db.(messages := db.messages + [MessageRow(db.nextMessage, e.tenant, conversation, sender, content,
                                               e.info.timestamp, Some(InitialMetadata(e, sender)))],
         nextMessage := db.nextMessage + 1),
     db.nextMessage)
  }

  function Insert(db: Db, e: Event, conversation: int, content: string): (Db, int) {
    var i := FindWhatsApp(db.messages, e.tenant, e.info.id);
    if i < |db.messages| then (db, db.messages[i].id) else Append(db, e, conversation, content)
  }

  // ---------- handleMessage ----------

  function Content(e: Event): string {
    var text := ExtractText(e.message);
    var media := ExtractMediaInfo(e.message);
    if text == "" && media.Some? then "[" + media.value.kind + "]" else text
  }

  predicate Ignored(e: Event) {
    Content(e) == "" || e.info.id == ""
  }

  function ConversationKey(e: Event): (int, string) { (e.tenant, ContactNumber(e.chat)) }

  function NameFor(e: Event): string {
    ResolveName(e.chat, if e.contactName == "" then TrimSpace(e.info.pushName) else e.contactName, e.lookups)
  }

  /** What a handled message sends on: the queue entry and the broadcast. */
  datatype Notice = Notice(tenant: int, message: int, conversation: int, content: string)

  function Handle(db: Db, e: Event): (Db, Option<Notice>) {
    if Ignored(e) || !e.upsertWorks then (db, None)
    else
      var (db1, conversation) := Upsert(db, ConversationKey(e), NameFor(e), e.info.timestamp, e.lookups.pictureURL);
      if conversation == 0 || !e.insertWorks then (db1, None)
      else
        var (db2, message) := Insert(db1, e, conversation, Content(e));
        (db2, Some(Notice(e.tenant, message, conversation, Content(e))))
  }

  function HandleAll(db: Db, events: seq<Event>): Db {
    if events == [] then db else Handle(HandleAll(db, events[..|events| - 1]), events[|events| - 1]).0
  }

  function NoticesOf(db: Db, events: seq<Event>): seq<Notice> {
    if events == [] then []
    else
      var front := events[..|events| - 1];
      var notice := Handle(HandleAll(db, front), events[|events| - 1]).1;
      NoticesOf(db, front) + if notice.Some? then [notice.value] else []
  }

  lemma {:induction false} HandleAllAppends(db: Db, events: seq<Event>, e: Event)
    ensures HandleAll(db, events + [e]) == Handle(HandleAll(db, events), e).0
    ensures NoticesOf(db, events + [e]) ==
              NoticesOf(db, events) + var notice := Handle(HandleAll(db, events), e).1; if notice.Some? then
                  [notice.value] else []
  {
    assert (events + [e])[..|events + [e]| - 1] == events;
  }

  lemma {:induction false} HandleAllComposes(db: Db, first: seq<Event>, second: seq<Event>)
    ensures HandleAll(db, first + second) == HandleAll(HandleAll(db, first), second)
    ensures NoticesOf(db, first + second) == NoticesOf(db, first) + NoticesOf(HandleAll(db, first), second)
  {
    hide Handle, HandleAll, NoticesOf;
    Nothing(HandleAll(db, first));
    if second == [] {
      assert first + second == first;
      assert NoticesOf(db, first) + [] == NoticesOf(db, first);
    } else {
      var front, last := second[..|second| - 1], second[|second| - 1];
      HandleAllComposes(db, first, front);
      assert first + second == (first + front) + [last] && second == front + [last];
      HandleAllAppends(db, first + front, last);
      HandleAllAppends(HandleAll(db, first), front, last);
      var before, sent := NoticesOf(db, first), NoticesOf(HandleAll(db, first), front);
      var notice := Handle(HandleAll(db, first + front), last).1;
      var more := if notice.Some? then [notice.value] else [];
      assert (before + sent) + more == before + (sent + more);
    }
  }

  /** A message is ignored exactly when it has no id, or neither text nor media. */
  lemma IgnoredMeaning(e: Event)
    ensures Ignored(e) <==>
              || e.info.id == ""
              || e.message == None
              || (var m := e.message.value;
                  && m.conversation == "" && TextOf(m.extended) == "" && TextOf(m.buttons) == "" &&
                      TextOf(m.list) == ""
                  && TextOf(m.template) == "" && TextOf(m.poll) == ""
                  && m.image == None && m.video == None && m.audio == None && m.document == None && m.sticker == None)
  {
    var media := ExtractMediaInfo(e.message);
    assert media.Some? ==> |"[" + media.value.kind + "]"| >= 2;
  }

  // Where a message can carry text, in the order of preference.
  function Texts(m: WaMessage): seq<string> {
    [m.conversation, TextOf(m.extended), CaptionOf(m.image), CaptionOf(m.video), CaptionOf(m.document),
     TextOf(m.buttons), TextOf(m.list), TextOf(m.template), TextOf(m.poll)]
  }

  /** The stored content is the first text there is; without any it names the kind of the media. */
  lemma ContentIsFirstText(e: Event, m: WaMessage) returns (i: nat)
    requires e.message == Some(m)
    ensures i <= |Texts(m)| && forall j :: 0 <= j < i ==> Texts(m)[j] == ""
    ensures if i < |Texts(m)| then Content(e) == Texts(m)[i] != ""
            else
              var media := ExtractMediaInfo(e.message);
              Content(e) == if media.Some? then "[" + media.value.kind + "]" else ""
  {
    var s := Texts(m);
    i := if s[0] != "" then 0 else if s[1] != "" then 1 else if s[2] != "" then 2 else if s[3] != "" then 3
         else if s[4] != "" then 4 else if s[5] != "" then 5 else if s[6] != "" then 6 else if s[7] != "" then 7
         else if s[8] != "" then 8 else 9;
    assert ExtractText(e.message) == if i < 9 then s[i] else "";
  }

  // ---------- What a handled message leaves ----------

  /** The media of a message is its first part of a kind, in this order; audio and stickers have no caption,
      only documents a file name, and only video and audio a length. */
  lemma MediaIsFirstPart(m: WaMessage)
    ensures var media := ExtractMediaInfo(Some(m));
            if m.image.Some? then IsMedia(media, "image", m.image.value, "", m.image.value.caption, 0)
            else if m.video.Some? then
              IsMedia(media, "video", m.video.value, "", m.video.value.caption, m.video.value.seconds)
            else if m.audio.Some? then IsMedia(media, "audio", m.audio.value, "", "", m.audio.value.seconds)
            else if m.document.Some? then
              IsMedia(media, "document", m.document.value, m.document.value.fileName, m.document.value.caption, 0)
            else if m.sticker.Some? then IsMedia(media, "sticker", m.sticker.value, "", "", 0)
            else media == None
  {
  }

  predicate IsMedia(media: Option<MediaInfo>, kind: string, part: Part, fileName: string, caption: string,
      seconds: nat)
  {
    && media.Some? && media.value.kind == kind && media.value.mime == part.mime && media.value.size == part.size
    && media.value.fileName == fileName && media.value.caption == caption && media.value.seconds == seconds
  }

  /** The contact number is the user part of the address, or else what its printed form has before the at sign. */
  lemma {:induction false} ContactNumberExactly(chat: Jid)
    ensures chat.user != "" ==> ContactNumber(chat) == chat.user
    ensures chat.user == "" ==>
              var number := ContactNumber(chat);
              && number <= chat.text && '@' !in number
              && (|number| < |chat.text| ==> chat.text[|number|] == '@')
  {
    BeforeAtExactly(chat.text);
  }

  lemma {:induction false} BeforeAtExactly(s: string)
    ensures BeforeAt(s) <= s && '@' !in BeforeAt(s) && (|BeforeAt(s)| < |s| ==> s[|BeforeAt(s)|] == '@')
  {
    if s != "" && s[0] != '@' {
      BeforeAtExactly(s[1..]);
      assert s == [s[0]] + s[1..];
    }
  }

  function FirstNonEmpty(names: seq<string>): string {
    if names == [] then "" else if names[0] != "" then names[0] else FirstNonEmpty(names[1..])
  }

  // What a chat can be called when the name it was given is none or its number, in the order of preference.
  function NamesOf(chat: Jid, name: string, lookups: Lookups): seq<string> {
    if chat.server == "g.us" then [TextOf(lookups.groupName), name]
    else
      match lookups.contact
      case Some(c) => [c.fullName, c.pushName, c.firstName, name]
      case None => [name]
  }

  /** A chat keeps a name that is not its number; else it gets the first the client knows. */
  lemma ResolveNameExactly(chat: Jid, name: string, lookups: Lookups)
    ensures ResolveName(chat, name, lookups) ==
              if name != "" && name != ContactNumber(chat) then name
              else FirstNonEmpty(NamesOf(chat, name, lookups))
  {
    hide ContactNumber, FirstNonEmpty;
    OneName(name);
    if chat.server == "g.us" {
      PreferredName(TextOf(lookups.groupName), [name]);
      assert NamesOf(chat, name, lookups) == [TextOf(lookups.groupName)] + [name];
    } else if lookups.contact.Some? {
      var c := lookups.contact.value;
      PreferredName(c.firstName, [name]);
      PreferredName(c.pushName, [c.firstName, name]);
      PreferredName(c.fullName, [c.pushName, c.firstName, name]);
      assert [c.firstName] + [name] == [c.firstName, name];
      assert [c.pushName] + [c.firstName, name] == [c.pushName, c.firstName, name];
      assert NamesOf(chat, name, lookups) == [c.fullName] + [c.pushName, c.firstName, name];
    }
  }

  lemma PreferredName(a: string, others: seq<string>)
    ensures FirstNonEmpty([a] + others) == if a != "" then a else FirstNonEmpty(others)
  {
    assert ([a] + others)[1..] == others;
  }

  lemma OneName(a: string)
    ensures FirstNonEmpty([a]) == a
  {
    PreferredName(a, []);
    assert [a] + [] == [a];
  }

  // Nobody has written the tenant's message with this WhatsApp id.
  ghost predicate Unseen(db: Db, e: Event) {
    forall row :: row in db.messages && row.tenant == e.tenant ==> WhatsAppId(row) != Some(e.info.id)
  }

  // The metadata of a new row, key by key.
  ghost predicate DescribesEvent(m: Metadata, e: Event, sender: string) {
    && "source" in m && m["source"] == Str("whatsapp") && "whatsapp_id" in m && m["whatsapp_id"] == Str(e.info.id)
    && "sender" in m && m["sender"] == Str(sender) && "chat" in m && m["chat"] == Str(e.chat.text)
    && ("media" in m <==> ExtractMediaInfo(e.message).Some?)
    && ("media" in m ==> m["media"] == Media(ExtractMediaInfo(e.message).value))
    && forall k :: k in m ==> k in ["source", "whatsapp_id", "sender", "chat", "media"]
  }

  lemma MetadataDescribes(e: Event, sender: string)
    ensures DescribesEvent(InitialMetadata(e, sender), e, sender)
  {
    hide ExtractMediaInfo;
    assert "source" != "whatsapp_id" && "source" != "sender" && "source" != "chat" && "source" != "media" by {
      assert "source"[1] == 'o' && "sender"[1] == 'e' && "whatsapp_id"[0] == 'w' && "chat"[0] == 'c' &&
        "media"[0] == 'm';
    }
    assert "sender"[0] == 's' && "whatsapp_id"[0] == 'w' && "chat"[0] == 'c' && "media"[0] == 'm';
  }

  // The row written for an event.
  ghost predicate WrittenFor(row: MessageRow, e: Event, conversation: int) {
    && row.tenant == e.tenant && row.conversation == conversation
    && row.sender == (if e.info.fromMe then "me" else e.info.sender)
    && row.content == Content(e) && row.timestamp == e.info.timestamp
    && row.metadata.Some? && DescribesEvent(row.metadata.value, e, row.sender)
  }

  lemma AppendWrites(db: Db, e: Event, conversation: int)
    ensures var (after, id) := Append(db, e, conversation, Content(e));
            && |after.messages| == |db.messages| + 1 && after.messages[..|db.messages|] == db.messages
            && id == db.nextMessage == after.messages[|db.messages|].id && after.nextMessage == db.nextMessage + 1
            && WrittenFor(after.messages[|db.messages|], e, conversation)
            && after.conversations == db.conversations && after.important == db.important
  {
    hide InitialMetadata, DescribesEvent, Content;
    MetadataDescribes(e, if e.info.fromMe then "me" else e.info.sender);
  }

  /** Handling an event that was not seen before appends the row of the event, filed under the conversation of
      its contact number, and announces it. */
  lemma UnseenIsWritten(db: Db, e: Event)
    requires !Ignored(e) && e.upsertWorks && e.insertWorks && Unseen(db, e)
    ensures var (after, notice) := Handle(db, e);
            var key := (e.tenant, ContactNumber(e.chat));
            && key in after.conversations
            && var conversation := after.conversations[key].id;
               if conversation == 0 then after.messages == db.messages && notice == None
               else
                 && |after.messages| == |db.messages| + 1 && after.messages[..|db.messages|] == db.messages
                 && var row := after.messages[|db.messages|];
                    && row.id == db.nextMessage && WrittenFor(row, e, conversation)
                    && notice == Some(Notice(e.tenant, row.id, row.conversation, row.content))
  {
    hide Ignored, ContactNumber, NameFor, Content, DescribesEvent, Append;
    var (db1, conversation) := Upsert(db, ConversationKey(e), NameFor(e), e.info.timestamp, e.lookups.pictureURL);
    forall i | 0 <= i < |db.messages| && db.messages[i].tenant == e.tenant
      ensures WhatsAppId(db.messages[i]) != Some(e.info.id)
    {
      assert db.messages[i] in db.messages;
    }
    AppendWrites(db1, e, conversation);
  }

  /** Handling one that was seen, or that cannot be written, leaves the rows; a seen one is announced under the
      id of its first row. */
  lemma SeenIsNotWritten(db: Db, e: Event)
    requires Ignored(e) || !e.upsertWorks || !e.insertWorks || !Unseen(db, e)
    ensures var (after, notice) := Handle(db, e);
            && after.messages == db.messages
            && (Ignored(e) || !e.upsertWorks || !e.insertWorks ==> notice == None)
            && (notice.Some? ==>
                  && notice.value.tenant == e.tenant && notice.value.content == Content(e)
                  && exists i :: 0 <= i < |db.messages| && db.messages[i].id == notice.value.message &&
                       db.messages[i].tenant == e.tenant && WhatsAppId(db.messages[i]) == Some(e.info.id) &&
                       forall j :: 0 <= j < i ==> db.messages[j].tenant == e.tenant ==>
                         WhatsAppId(db.messages[j]) != Some(e.info.id))
  {
    hide Ignored, ContactNumber, NameFor, Content, Append;
  }

  /** And its conversation has the name the event gives it, or the chat's own, or else keeps its name; likewise
      its picture; and its time only moves forward. */
  lemma ConversationExactly(db: Db, e: Event)
    requires !Ignored(e) && e.upsertWorks
    ensures var key, after := (e.tenant, ContactNumber(e.chat)), Handle(db, e).0.conversations;
            var given := if e.contactName != "" then e.contactName else TrimSpace(e.info.pushName);
            var name := ResolveName(e.chat, given, e.lookups);
            && after.Keys == db.conversations.Keys + {key}
            && (forall k :: k in db.conversations && k != key ==> after[k] == db.conversations[k])
            && var now := after[key];
               if key !in db.conversations then
                 now.name == name && now.picture == e.lookups.pictureURL && now.lastMessageAt == e.info.timestamp
               else
                 var was := db.conversations[key];
                 && now.id == was.id && now.name == (if name != "" then name else was.name)
                 && now.picture == (if e.lookups.pictureURL != "" then e.lookups.pictureURL else was.picture)
                 && now.lastMessageAt == (if e.info.timestamp > was.lastMessageAt then e.info.timestamp
                                          else was.lastMessageAt)
  {
    hide Ignored, ContactNumber, ResolveName, Content, InitialMetadata, TrimSpace;
  }

  // ---------- Conversations and their messages ----------

  // Conversations have their own ids, and every message is filed under one of its tenant.
  ghost predicate Filed(db: Db) {
    && (forall k :: k in db.conversations ==> 0 < db.conversations[k].id < db.nextConversation)
    && (forall k, l :: k in db.conversations && l in db.conversations && k != l ==>
          db.conversations[k].id != db.conversations[l].id)
    && db.nextConversation > 0
    && (forall row :: row in db.messages ==>
          exists k :: k in db.conversations && k.0 == row.tenant && db.conversations[k].id == row.conversation)
  }

  lemma UpsertKeepsFiled(db: Db, key: (int, string), name: string, at: int, picture: string)
    requires Filed(db)
    ensures var (after, id) := Upsert(db, key, name, at, picture);
            && Filed(after) && id > 0 && key in after.conversations && after.conversations[key].id == id
            && after.messages == db.messages && after.important == db.important
            && forall k :: k in db.conversations ==>
                 k in after.conversations && after.conversations[k].id == db.conversations[k].id
  {
    var after := Upsert(db, key, name, at, picture).0;
    assert forall k :: k in db.conversations ==>
      k in after.conversations && after.conversations[k].id == db.conversations[k].id;
  }

  lemma HandleKeepsFiled(db: Db, e: Event)
    requires Filed(db)
    ensures Filed(Handle(db, e).0)
  {
    hide Ignored, NameFor, Content, ContactNumber, InitialMetadata, Filed;
    UpsertKeepsFiled(db, ConversationKey(e), NameFor(e), e.info.timestamp, e.lookups.pictureURL);
    var (db1, conversation) := Upsert(db, ConversationKey(e), NameFor(e), e.info.timestamp, e.lookups.pictureURL);
    AppendKeepsFiled(db1, e, conversation, ConversationKey(e));
  }

  lemma AppendKeepsFiled(db: Db, e: Event, conversation: int, key: (int, string))
    requires Filed(db) && key in db.conversations && key.0 == e.tenant && db.conversations[key].id == conversation
    ensures Filed(Append(db, e, conversation, Content(e)).0)
  {
    hide Content, InitialMetadata;
  }

  /** After any events conversations have ids of their own, so that none is refused, and every message is filed
      under a conversation of its tenant. */
  lemma {:induction false} AlwaysFiled(events: seq<Event>)
    ensures Filed(HandleAll(EMPTY, events))
  {
    hide Handle;
    if events != [] {
      AlwaysFiled(events[..|events| - 1]);
      HandleKeepsFiled(HandleAll(EMPTY, events[..|events| - 1]), events[|events| - 1]);
    }
  }

  // ---------- The syncer ----------

  /** One conversation of a history sync: its address if it parses, its name, and its messages,
      each None when missing or not parsed. */
  datatype HistoryConversation = HistoryConversation(chat: Option<Jid>, name: string, messages: seq<Option<Event>>)

  // handleMessage gets the conversation's address and trimmed name instead of the message's own.
  function Adopt(e: Event, chat: Jid, name: string): Event {
    e.(chat := chat, contactName := name)
  }

  function MessagesOf(c: HistoryConversation, n: nat): seq<Event>
    requires n <= |c.messages|
  {
    if n == 0 || c.chat == None then []
    else
      MessagesOf(c, n - 1) +
      if c.messages[n - 1].Some? then [Adopt(c.messages[n - 1].value, c.chat.value, TrimSpace(c.name))] else []
  }

  function Flatten(history: seq<HistoryConversation>, n: nat): seq<Event>
    requires n <= |history|
  {
    if n == 0 then [] else Flatten(history, n - 1) + MessagesOf(history[n - 1], |history[n - 1].messages|)
  }

  class Syncer {
    var db: Db
    // What went to the analysis queue and to the hub, oldest first.
    var notices: seq<Notice>

    constructor (db: Db)
      ensures this.db == db && notices == []
    {
      this.db, notices := db, [];
    }

    method UpsertConversation(tenant: int, chat: Jid, contactName: string, at: int, lookups: Lookups)
        returns (id: int)
      modifies this`db
      ensures (db, id) == Upsert(old(db), (tenant, ContactNumber(chat)), ResolveName(chat, contactName, lookups),
          at, lookups.pictureURL)
    {
      var contactNumber := ContactNumber(chat);
      var name := contactName;
      if name == "" || name == contactNumber {
        if chat.server == "g.us" {
          if lookups.groupName.Some? && lookups.groupName.value != "" {
            name := lookups.groupName.value;
          }
        } else if lookups.contact.Some? {
          var info := lookups.contact.value;
          if info.fullName != "" {
            name := info.fullName;
          } else if info.pushName != "" {
            name := info.pushName;
          } else if info.firstName != "" {
            name := info.firstName;
          }
        }
      }
      var result := Upsert(db, (tenant, contactNumber), name, at, lookups.pictureURL);
      db, id := result.0, result.1;
    }

    method HandleMessage(e: Event)
      modifies this
      ensures db == Handle(old(db), e).0
      ensures notices == old(notices) + var notice := Handle(old(db), e).1; if notice.Some? then [notice.value]
          else []
    {
      var content := ExtractText(e.message);
      var mediaInfo := ExtractMediaInfo(e.message);
      if (content == "" && mediaInfo == None) || e.info.id == "" {
        return;
      }
      if content == "" && mediaInfo != None {
        content := "[" + mediaInfo.value.kind + "]";
      }
      var contactName := e.contactName;
      if contactName == "" {
        contactName := TrimSpace(e.info.pushName);
      }
      if !e.upsertWorks {
        return;
      }
      var conversationID := UpsertConversation(e.tenant, e.chat, contactName, e.info.timestamp, e.lookups);
      if conversationID == 0 || !e.insertWorks {
        return;
      }
      var result := Insert(db, e, conversationID, content);
      db := result.0;
      notices := notices + [Notice(e.tenant, result.1, conversationID, content)];
    }

    method HandleConversation(conv: HistoryConversation)
      modifies this
      ensures var events := MessagesOf(conv, |conv.messages|);
              db == HandleAll(old(db), events) && notices == old(notices) + NoticesOf(old(db), events)
    {
      hide Handle, HandleAll, NoticesOf, MessagesOf, TrimSpace;
      ghost var start, sent := db, notices;
      Nothing(start);
      NoMessages(conv);
      if conv.chat == None {
        return;
      }
      var contactName := TrimSpace(conv.name);
      for j := 0 to |conv.messages|
        invariant db == HandleAll(start, MessagesOf(conv, j))
        invariant notices == sent + NoticesOf(start, MessagesOf(conv, j))
      {
        OneMessage(conv, j);
        if conv.messages[j] != None {
          var e := Adopt(conv.messages[j].value, conv.chat.value, contactName);
          HandleAllAppends(start, MessagesOf(conv, j), e);
          HandleMessage(e);
        }
      }
    }

    /** A history sync is the sequence of its usable messages, handled one by one. */
    method HandleHistorySync(history: seq<HistoryConversation>)
      modifies this
      ensures var events := Flatten(history, |history|);
              db == HandleAll(old(db), events) && notices == old(notices) + NoticesOf(old(db), events)
    {
      ghost var start, sent := db, notices;
      hide Handle, HandleAll, NoticesOf, MessagesOf;
      assert HandleAll(start, []) == start && NoticesOf(start, []) == [] by { Nothing(start); }
      for i := 0 to |history|
        invariant db == HandleAll(start, Flatten(history, i))
        invariant notices == sent + NoticesOf(start, Flatten(history, i))
      {
        HandleAllComposes(start, Flatten(history, i), MessagesOf(history[i], |history[i].messages|));
        HandleConversation(history[i]);
      }
    }
  }

  lemma OneMessage(c: HistoryConversation, n: nat)
    requires n <= |c.messages| && c.chat.Some?
    ensures n == 0 ==> MessagesOf(c, n) == []
    ensures n < |c.messages| ==>
      MessagesOf(c, n + 1) ==
        if c.messages[n].Some? then MessagesOf(c, n) + [Adopt(c.messages[n].value, c.chat.value, TrimSpace(c.name))]
            else MessagesOf(c, n)
  {
  }

  // The event of a conversation's message: under the conversation's address and name, otherwise its own.
  ghost predicate Adopted(e: Event, was: Event, c: HistoryConversation) {
    && c.chat == Some(e.chat) && e.contactName == TrimSpace(c.name)
    && e.tenant == was.tenant && e.info == was.info && e.message == was.message && e.lookups == was.lookups
    && e.upsertWorks == was.upsertWorks && e.insertWorks == was.insertWorks
  }

  lemma AdoptExactly(e: Event, c: HistoryConversation)
    requires c.chat.Some?
    ensures Adopted(Adopt(e, c.chat.value, TrimSpace(c.name)), e, c)
  {
    hide TrimSpace;
  }

  /** The events of a conversation are its usable messages, all of them, in order. */
  lemma {:induction false} MessagesInOrder(c: HistoryConversation, n: nat) returns (places: seq<nat>)
    requires n <= |c.messages| && c.chat.Some?
    ensures var events := MessagesOf(c, n);
            && |places| == |events|
            && (forall i :: 0 <= i < |places| ==>
                  places[i] < n && c.messages[places[i]].Some? && Adopted(events[i], c.messages[places[i]].value, c))
            && (forall i, j :: 0 <= i < j < |places| ==> places[i] < places[j])
            && (forall k :: 0 <= k < n && c.messages[k].Some? ==> k in places)
  {
    hide TrimSpace, Adopt, Adopted;
    places := [];
    if n > 0 {
      var before := MessagesInOrder(c, n - 1);
      if c.messages[n - 1].Some? {
        AdoptExactly(c.messages[n - 1].value, c);
      }
      places := before + if c.messages[n - 1].Some? then [n - 1] else [];
      assert forall k :: k in before ==> k in places;
      assert c.messages[n - 1].Some? ==> places[|before|] == n - 1;
    }
  }

  lemma NoMessages(c: HistoryConversation)
    ensures MessagesOf(c, 0) == [] && (c.chat == None ==> MessagesOf(c, |c.messages|) == [])
  {
  }

  lemma Nothing(db: Db)
    ensures HandleAll(db, []) == db && NoticesOf(db, []) == []
  {
  }
}
