/** The hub as a machine (realtime/hub.go, websocket.go): clients come, go and receive, and broadcasts
    run either at one go or, like the code, as a send loop without the lock. */
module Fanout {
  import opened Wrappers
  import opened Channel
  import opened Presence

  // ---------- The operations under the lock ----------

  /** A client's channel: its history, and how often it was closed. */
  datatype Chan = Chan(events: seq<Event>, closes: nat)

  /** Which part of `sent` concerns a client: from its registration to its removal, or to now. */
  datatype Span = Span(from: nat, to: Option<nat>)

  function End(span: Span, now: nat): nat { if span.to.Some? then span.to.value else now }

  /** `chans` holds every client that ever registered; `sent` and `spans` are history. */
  datatype Tables = Tables(
    clients: ClientSets, presence: Counters, chans: map<Client, Chan>, sent: seq<Sent>, spans: map<Client, Span>)

  const NO_CLIENTS := Tables(map[], map[], map[], [], map[])

  function OfferTo(chans: map<Client, Chan>, receivers: set<Client>, m: Message): map<Client, Chan> {
    map c | c in chans :: if c in receivers then Chan(chans[c].events + [Offer(m)], chans[c].closes) else chans[c]
  }

  // One message to every client of a tenant.
  function Deliver(t: Tables, tenant: int, m: Message): Tables {
    t.(chans := OfferTo(t.chans, SetOf(t.clients, tenant), m), sent := t.sent + [Sent(tenant, m)])
  }

  function Admit(t: Tables, c: Client): Tables {
    t.(clients := Added(t.clients, c), presence := Counted(t.presence, c),
       chans := t.chans[c := Chan([], 0)], spans := t.spans[c := Span(|t.sent|, None)])
  }

  // Register; `m` is the presence update, whose users come in any order.
  function Join(t: Tables, c: Client, m: Message): Tables {
    Deliver(Admit(t, c), c.tenant, m)
  }

  function Expel(t: Tables, c: Client): Tables
    requires c in t.chans && c in t.spans
  {
    t.(clients := Removed(t.clients, c), presence := Discounted(t.presence, c),
       chans := t.chans[c := Chan(t.chans[c].events, t.chans[c].closes + 1)],
       spans := t.spans[c := Span(t.spans[c].from, Some(|t.sent|))])
  }

  // A tenant without clients loses its map object.
  function Prune(clients: ClientSets, tenant: int): ClientSets {
    if SetOf(clients, tenant) == {} then clients - {tenant} else clients
  }

  // Unregister of a registered client.
  function Depart(t: Tables, c: Client, m: Message): Tables
    requires c in t.chans && c in t.spans
  {
    var told := Deliver(Expel(t, c), c.tenant, m);
    told.(clients := Prune(told.clients, c.tenant))
  }

  // A receive of the client's write pump.
  function Consume(t: Tables, c: Client): Tables
    requires c in t.chans
  {
    t.(chans := t.chans[c := Chan(t.chans[c].events + [Take], t.chans[c].closes)])
  }

  // ---------- What every operation keeps ----------

  // A client's channel was closed once if the client has gone, and is open if it is registered.
  ghost predicate ChanOk(t: Tables, c: Client)
    requires c in t.chans && c in t.spans
  {
    && t.chans[c].closes == (if In(t.clients, c) then 0 else 1)
    && (In(t.clients, c) <==> t.spans[c].to == None)
    && t.spans[c].from <= End(t.spans[c], |t.sent|) <= |t.sent|
  }

  ghost predicate ChansOk(t: Tables) {
    t.spans.Keys == t.chans.Keys && forall c :: c in t.chans ==> ChanOk(t, c)
  }

  ghost predicate Inv(t: Tables) {
    && Agree(t.clients, t.presence) && Filed(t.clients, t.chans.Keys) && ChansOk(t)
    && forall tenant :: tenant in t.clients ==> t.clients[tenant] != {}
  }

  // What was offered to a client are the messages addressed to its tenant while it was registered.
  ghost predicate Told(t: Tables, c: Client)
    requires c in t.chans && c in t.spans && ChanOk(t, c)
  {
    Offered(t.chans[c].events, |t.chans[c].events|) ==
      Addressed(t.sent, c.tenant, t.spans[c].from, End(t.spans[c], |t.sent|))
  }

  ghost predicate AllTold(t: Tables)
    requires ChansOk(t)
  {
    forall c :: c in t.chans ==> Told(t, c)
  }

  lemma DeliverKeepsChans(t: Tables, tenant: int, m: Message)
    requires ChansOk(t)
    ensures ChansOk(Deliver(t, tenant, m))
  {
    hide In;
    var after := Deliver(t, tenant, m);
    assert after.chans.Keys == t.chans.Keys;
    forall d | d in after.chans
      ensures ChanOk(after, d)
    {
      assert ChanOk(t, d);
    }
  }

  lemma DeliverKeepsInv(t: Tables, tenant: int, m: Message)
    requires Inv(t)
    ensures Inv(Deliver(t, tenant, m))
  {
    hide Agree, ChansOk;
    DeliverKeepsChans(t, tenant, m);
    assert Deliver(t, tenant, m).chans.Keys == t.chans.Keys;
  }

  lemma ConsumeKeepsInv(t: Tables, c: Client)
    requires Inv(t) && c in t.chans
    ensures Inv(Consume(t, c))
  {
    hide Agree, In;
    assert Consume(t, c).chans.Keys == t.chans.Keys;
    forall d | d in Consume(t, c).chans
      ensures ChanOk(Consume(t, c), d)
    {
      assert ChanOk(t, d);
    }
  }

  lemma AdmitKeepsChans(t: Tables, c: Client)
    requires ChansOk(t) && c !in t.chans
    requires forall d :: In(Added(t.clients, c), d) <==> In(t.clients, d) || d == c
    ensures ChansOk(Admit(t, c))
  {
    hide In, Added, Counted;
    var after := Admit(t, c);
    forall d | d in after.chans
      ensures ChanOk(after, d)
    {
      assert In(after.clients, d) <==> In(t.clients, d) || d == c;
      assert d != c ==> ChanOk(t, d);
    }
  }

  lemma AdmitKeepsInv(t: Tables, c: Client)
    requires Inv(t) && c !in t.chans
    ensures Inv(Admit(t, c))
  {
    hide Agree, In, Filed, Counted, ChansOk;
    AddKeepsTables(t.clients, t.presence, t.chans.Keys, c);
    AdmitKeepsChans(t, c);
    assert Admit(t, c).chans.Keys == t.chans.Keys + {c};
  }

  lemma InIsKnown(clients: ClientSets, known: set<Client>, c: Client)
    requires Filed(clients, known) && In(clients, c)
    ensures c in known && c.tenant in clients
  {
  }

  lemma ExpelKeepsChans(t: Tables, c: Client)
    requires ChansOk(t) && c in t.chans && In(t.clients, c)
    requires forall d :: In(Removed(t.clients, c), d) <==> In(t.clients, d) && d != c
    ensures ChansOk(Expel(t, c))
  {
    hide In, Removed, Discounted;
    var after := Expel(t, c);
    assert after.chans.Keys == t.chans.Keys && after.spans.Keys == t.spans.Keys;
    assert ChanOk(t, c);
    forall d | d in after.chans
      ensures ChanOk(after, d)
    {
      assert In(after.clients, d) <==> In(t.clients, d) && d != c;
      assert d != c ==> ChanOk(t, d);
    }
  }

  lemma PruneKeepsInv(t: Tables, tenant: int)
    requires Agree(t.clients, t.presence) && Filed(t.clients, t.chans.Keys) && ChansOk(t)
    requires forall u :: u in t.clients && u != tenant ==> t.clients[u] != {}
    ensures Inv(t.(clients := Prune(t.clients, tenant)))
    ensures forall u :: SetOf(Prune(t.clients, tenant), u) == SetOf(t.clients, u)
  {
    hide Agree, Filed;
    if SetOf(t.clients, tenant) == {} {
      DropEmptyKeepsTables(t.clients, t.presence, t.chans.Keys, tenant);
    }
    var after := t.(clients := Prune(t.clients, tenant));
    forall d | d in after.chans
      ensures ChanOk(after, d)
    {
      assert ChanOk(t, d);
    }
  }

  lemma DepartKeepsInv(t: Tables, c: Client, m: Message)
    requires Inv(t) && In(t.clients, c)
    ensures c in t.chans && c in t.spans && Inv(Depart(t, c, m))
    ensures forall tenant :: SetOf(Depart(t, c, m).clients, tenant) == SetOf(Removed(t.clients, c), tenant)
  {
    hide Agree, Filed, In, Removed, Discounted, ChansOk, Prune, OfferTo;
    InIsKnown(t.clients, t.chans.Keys, c);
    RemoveKeepsTables(t.clients, t.presence, t.chans.Keys, c);
    KnownHasSpan(t, c);
    ExpelKeepsChans(t, c);
    var told := Deliver(Expel(t, c), c.tenant, m);
    DeliverKeepsChans(Expel(t, c), c.tenant, m);
    SameKeys(t, c, m);
    OthersNotEmpty(t.clients, c);
    PruneKeepsInv(told, c.tenant);
  }

  lemma KnownHasSpan(t: Tables, c: Client)
    requires ChansOk(t) && c in t.chans
    ensures c in t.spans
  {
  }

  lemma SameKeys(t: Tables, c: Client, m: Message)
    requires c in t.chans && c in t.spans
    ensures Deliver(Expel(t, c), c.tenant, m).chans.Keys == t.chans.Keys
  {
  }

  lemma OthersNotEmpty(clients: ClientSets, c: Client)
    requires forall u :: u in clients ==> clients[u] != {}
    ensures forall u :: u in Removed(clients, c) && u != c.tenant ==> Removed(clients, c)[u] != {}
  {
  }

  lemma DeliverKeepsTold(t: Tables, tenant: int, m: Message)
    requires Inv(t) && AllTold(t)
    ensures Inv(Deliver(t, tenant, m)) && AllTold(Deliver(t, tenant, m))
  {
    hide Agree, Offered, Addressed, Told, ChanOk;
    DeliverKeepsInv(t, tenant, m);
    forall c | c in t.chans
      ensures Told(Deliver(t, tenant, m), c)
    {
      assert Told(t, c) && ChanOk(t, c);
      if c in SetOf(t.clients, tenant) {
        ReceiverTold(t, tenant, m, c);
      } else {
        StrangerTold(t, tenant, m, c);
      }
    }
  }

  lemma ReceiverTold(t: Tables, tenant: int, m: Message, c: Client)
    requires c in t.chans && c in t.spans && ChanOk(t, c) && Told(t, c)
    requires c in SetOf(t.clients, tenant) && c.tenant == tenant
    requires ChanOk(Deliver(t, tenant, m), c)
    ensures Told(Deliver(t, tenant, m), c)
  {
    hide Offered, Addressed, Buffered;
    AddressedNext(t.sent, Sent(tenant, m), tenant, t.spans[c].from);
    AppendEvent(t.chans[c].events, Offer(m));
  }

  // A broadcast to another tenant, or after the client has gone, is not the client's.
  lemma StrangerTold(t: Tables, tenant: int, m: Message, c: Client)
    requires c in t.chans && c in t.spans && ChanOk(t, c) && Told(t, c)
    requires c !in SetOf(t.clients, tenant)
    requires ChanOk(Deliver(t, tenant, m), c)
    ensures Told(Deliver(t, tenant, m), c)
  {
    hide Offered, Addressed, Buffered;
    AddressedNext(t.sent, Sent(tenant, m), c.tenant, t.spans[c].from);
    AddressedEarlier(t.sent, [Sent(tenant, m)], c.tenant, t.spans[c].from, End(t.spans[c], |t.sent|));
  }

  lemma JoinKeepsTold(t: Tables, c: Client, m: Message)
    requires Inv(t) && AllTold(t) && c !in t.chans
    ensures Inv(Join(t, c, m)) && AllTold(Join(t, c, m))
  {
    hide Agree, Offered, Addressed, ChanOk, In;
    AdmitKeepsInv(t, c);
    var after := Admit(t, c);
    assert AllTold(after) by {
      forall d | d in after.chans
        ensures Told(after, d)
      {
        if d == c {
          NothingTold(t.sent, c.tenant);
        } else {
          assert Told(t, d);
        }
      }
    }
    DeliverKeepsTold(after, c.tenant, m);
  }

  lemma NothingTold(sent: seq<Sent>, tenant: int)
    ensures Offered([], 0) == Addressed(sent, tenant, |sent|, |sent|)
  {
  }

  lemma ExpelKeepsTold(t: Tables, c: Client)
    requires ChansOk(t) && AllTold(t) && c in t.chans && In(t.clients, c) && ChansOk(Expel(t, c))
    ensures AllTold(Expel(t, c))
  {
    hide Offered, Addressed, In, Removed, Discounted;
    forall d | d in t.chans
      ensures Told(Expel(t, c), d)
    {
      assert Told(t, d) && ChanOk(t, d);
    }
  }

  // A removal step by step: the tenant is told between the removal and the pruning.
  lemma DepartKeepsTold(t: Tables, c: Client, m: Message)
    requires Inv(t) && AllTold(t) && In(t.clients, c)
    ensures c in t.chans && c in t.spans && Inv(Depart(t, c, m)) && AllTold(Depart(t, c, m))
  {
    hide Agree, Filed, In, Removed, Discounted, ChansOk, Prune, AllTold;
    DepartKeepsInv(t, c, m);
    RemoveKeepsTables(t.clients, t.presence, t.chans.Keys, c);
    ExpelKeepsChans(t, c);
    ExpelKeepsTold(t, c);
    var out := Expel(t, c);
    assert out.chans.Keys == t.chans.Keys;
    ToldWithoutEmpty(out, c.tenant, m);
    PruneKeepsTold(Deliver(out, c.tenant, m), c.tenant);
  }

  lemma ToldWithoutEmpty(t: Tables, tenant: int, m: Message)
    requires Filed(t.clients, t.chans.Keys) && ChansOk(t) && AllTold(t)
    ensures ChansOk(Deliver(t, tenant, m)) && AllTold(Deliver(t, tenant, m))
  {
    hide Offered, Addressed, Told, ChanOk, In;
    DeliverKeepsChans(t, tenant, m);
    forall c | c in t.chans
      ensures Told(Deliver(t, tenant, m), c)
    {
      assert Told(t, c) && ChanOk(t, c);
      if c in SetOf(t.clients, tenant) {
        ReceiverTold(t, tenant, m, c);
      } else {
        StrangerTold(t, tenant, m, c);
      }
    }
  }

  lemma PruneKeepsTold(t: Tables, tenant: int)
    requires ChansOk(t) && AllTold(t)
    requires ChansOk(t.(clients := Prune(t.clients, tenant)))
    ensures AllTold(t.(clients := Prune(t.clients, tenant)))
  {
    hide Offered, Addressed, ChanOk, Prune;
    forall c | c in t.chans
      ensures Told(t.(clients := Prune(t.clients, tenant)), c)
    {
      assert Told(t, c);
    }
  }

  lemma ConsumeKeepsTold(t: Tables, c: Client)
    requires Inv(t) && AllTold(t) && c in t.chans
    ensures Inv(Consume(t, c)) && AllTold(Consume(t, c))
  {
    hide Agree, Offered, Addressed, ChanOk, In, Buffered;
    ConsumeKeepsInv(t, c);
    forall d | d in t.chans
      ensures Told(Consume(t, c), d)
    {
      assert Told(t, d);
      AppendEvent(t.chans[c].events, Take);
    }
  }

  // ---------- Runs ----------

  /** A broadcast without the lock: it ranges over the map object the tenant had when it began, `start`
      being who was in it; `visited` have been offered the message, and `current` is next.  `place`
      is where the message stands in `sent`. */
  datatype Loop = Loop(
    tenant: int, message: Message, place: nat, generation: nat,
    start: set<Client>, visited: set<Client>, current: Option<Client>)

  /** `generations` counts the map objects a tenant has had: an emptied one is dropped, and the next
      client gets a new one. */
  datatype State = State(tables: Tables, generations: map<int, nat>, loops: map<nat, Loop>)

  datatype Step =
    | Register(c: Client, m: Message)
    | Unregister(c: Client, m: Message)
    | Broadcast(tenant: int, m: Message)
    | Receive(c: Client)
    | Begin(b: nat, tenant: int, m: Message)
    | Pick(b: nat, c: Client)
    | Send(b: nat)
    | Finish(b: nat)

  const INIT := State(NO_CLIENTS, map[], map[])

  function Generation(s: State, tenant: int): nat {
    if tenant in s.generations then s.generations[tenant] else 0
  }

  // What is left in the map object a loop ranges over.
  function Range(s: State, loop: Loop): set<Client> {
    if Generation(s, loop.tenant) == loop.generation then SetOf(s.tables.clients, loop.tenant) else {}
  }

  ghost predicate Joins(s: State, step: Step) {
    step.Register? && step.c !in s.tables.chans &&
        Lists(step.m, SetOf(Added(s.tables.clients, step.c), step.c.tenant))
  }

  ghost predicate Leaves(s: State, step: Step) {
    && step.Unregister? && In(s.tables.clients, step.c) && step.c in s.tables.chans && step.c in s.tables.spans
    && Lists(step.m, SetOf(Removed(s.tables.clients, step.c), step.c.tenant))
  }

  // A send to a closed channel panics.
  predicate Panics(s: State, step: Step) {
    && step.Send? && step.b in s.loops && s.loops[step.b].current.Some?
    && s.loops[step.b].current.value in s.tables.chans && s.tables.chans[s.loops[step.b].current.value].closes > 0
  }

  // A loop ends when it has visited all that have been there all the time.
  predicate Finishes(s: State, step: Step) {
    && step.Finish? && step.b in s.loops && s.loops[step.b].current == None
    && s.loops[step.b].start * Range(s, s.loops[step.b]) <= s.loops[step.b].visited
  }

  // A step that is not enabled changes nothing.
  ghost function Next(s: State, step: Step): State {
    match step
    case Register(c, m) =>
      if !Joins(s, step) then s
      else
        s.(tables := Join(s.tables, c, m),
           generations := if c.tenant in s.tables.clients then s.generations
                          else s.generations[c.tenant := Generation(s, c.tenant) + 1])
    case Unregister(c, m) => if !Leaves(s, step) then s else s.(tables := Depart(s.tables, c, m))
    case Broadcast(tenant, m) => s.(tables := Deliver(s.tables, tenant, m))
    case Receive(c) => if c !in s.tables.chans then s else s.(tables := Consume(s.tables, c))
    case Begin(b, tenant, m) =>
      if b in s.loops then s
      else
        s.(tables := s.tables.(sent := s.tables.sent + [Sent(tenant, m)]),
           loops := s.loops[b := Loop(tenant, m, |s.tables.sent|, Generation(s, tenant),
                                      SetOf(s.tables.clients, tenant), {}, None)])
    case Pick(b, c) =>
      if b !in s.loops || s.loops[b].current.Some? || c in s.loops[b].visited || c !in Range(s, s.loops[b]) then s
      else s.(loops := s.loops[b := s.loops[b].(current := Some(c))])
    case Send(b) =>
      if b !in s.loops || s.loops[b].current == None then s
      else if Panics(s, step) then s.(loops := s.loops - {b})
      else
        var loop := s.loops[b];
        var c := loop.current.value;
        s.(tables := s.tables.(chans := OfferTo(s.tables.chans, {c}, loop.message)),
           loops := s.loops[b := loop.(visited := loop.visited + {c}, current := None)])
    case Finish(b) => if Finishes(s, step) then s.(loops := s.loops - {b}) else s
  }

  ghost function After(run: seq<Step>, n: nat): State
    requires n <= |run|
  {
    if n == 0 then INIT else Next(After(run, n - 1), run[n - 1])
  }

  lemma {:induction false} AfterStep(run: seq<Step>, n: nat)
    requires 0 < n <= |run|
    ensures After(run, n) == Next(After(run, n - 1), run[n - 1])
  {
  }

  lemma {:induction false} AfterStart(run: seq<Step>)
    ensures After(run, 0) == INIT && Inv(INIT.tables) && AllTold(INIT.tables)
  {
    forall u
      ensures CountUser({}, u) == 0
    {
      assert ClientsOfUser({}, u) == {};
    }
  }

  lemma LeaverIsKnown(t: Tables, c: Client)
    requires Inv(t) && In(t.clients, c)
    ensures c in t.chans && c in t.spans
  {
  }

  lemma OfferManyKeepsInv(t: Tables, receivers: set<Client>, m: Message)
    requires Inv(t)
    ensures Inv(t.(chans := OfferTo(t.chans, receivers, m)))
  {
    hide Agree, In;
    var after := t.(chans := OfferTo(t.chans, receivers, m));
    assert after.chans.Keys == t.chans.Keys;
    forall d | d in after.chans
      ensures ChanOk(after, d)
    {
      assert ChanOk(t, d);
    }
  }

  lemma BeginKeepsInv(t: Tables, s: Sent)
    requires Inv(t)
    ensures Inv(t.(sent := t.sent + [s]))
  {
    hide Agree, In;
    forall d | d in t.chans
      ensures ChanOk(t.(sent := t.sent + [s]), d)
    {
      assert ChanOk(t, d);
    }
  }

  lemma NextKeepsInv(s: State, step: Step)
    requires Inv(s.tables)
    ensures Inv(Next(s, step).tables)
  {
    hide Inv, Deliver, Join, Depart, Consume, OfferTo, Added, Removed, Lists, In, SetOf;
    match step
    case Register(c, m) =>
      if Joins(s, step) {
        AdmitKeepsInv(s.tables, c);
        JoinIsAdmit(s.tables, c, m);
        DeliverKeepsInv(Admit(s.tables, c), c.tenant, m);
      }
    case Unregister(c, m) =>
      if Leaves(s, step) {
        DepartKeepsInv(s.tables, c, m);
      }
    case Broadcast(tenant, m) => DeliverKeepsInv(s.tables, tenant, m);
    case Receive(c) =>
      if c in s.tables.chans {
        ConsumeKeepsInv(s.tables, c);
      }
    case Begin(b, tenant, m) => BeginKeepsInv(s.tables, Sent(tenant, m));
    case Send(b) =>
      if b in s.loops && s.loops[b].current.Some? {
        OfferManyKeepsInv(s.tables, {s.loops[b].current.value}, s.loops[b].message);
      }
    case Pick(_, _) =>
    case Finish(_) =>
  }

  lemma JoinIsAdmit(t: Tables, c: Client, m: Message)
    ensures Join(t, c, m) == Deliver(Admit(t, c), c.tenant, m)
  {
  }

  /** In every run, broadcasts without the lock included: presence counts the registered clients of
      every tenant and user; no tenant keeps an empty set; and a client's channel is open while the
      client is registered, and was closed exactly once when it is not any more. */
  lemma {:induction false} AlwaysInv(run: seq<Step>, n: nat)
    requires n <= |run|
    ensures Inv(After(run, n).tables)
  {
    hide Next, Inv;
    AfterStart(run);
    if n > 0 {
      AlwaysInv(run, n - 1);
      AfterStep(run, n);
      NextKeepsInv(After(run, n - 1), run[n - 1]);
    }
  }

  // ---------- Delivery at one go ----------

  lemma NextKeepsTold(s: State, step: Step)
    requires Inv(s.tables) && AllTold(s.tables) && s.loops == map[] && !step.Begin?
    ensures Inv(Next(s, step).tables) && AllTold(Next(s, step).tables) && Next(s, step).loops == map[]
  {
    hide Inv, AllTold, Deliver, Join, Depart, Consume, OfferTo, Added, Removed, Lists, In, SetOf;
    match step
    case Register(c, m) =>
      if Joins(s, step) {
        JoinKeepsTold(s.tables, c, m);
      }
    case Unregister(c, m) =>
      if Leaves(s, step) {
        DepartKeepsTold(s.tables, c, m);
      }
    case Broadcast(tenant, m) => DeliverKeepsTold(s.tables, tenant, m);
    case Receive(c) =>
      if c in s.tables.chans {
        ConsumeKeepsTold(s.tables, c);
      }
    case _ =>
  }

  lemma {:induction false} AlwaysTold(run: seq<Step>, n: nat)
    requires n <= |run| && forall i :: 0 <= i < n ==> !run[i].Begin?
    ensures var s := After(run, n); Inv(s.tables) && AllTold(s.tables) && s.loops == map[]
  {
    hide Next, Inv, AllTold;
    AfterStart(run);
    if n > 0 {
      AlwaysTold(run, n - 1);
      AfterStep(run, n);
      NextKeepsTold(After(run, n - 1), run[n - 1]);
    }
  }

  /** In every run of registrations, removals, receives and broadcasts at one go, what a client
      received followed by what waits in its channel is a subsequence of the messages addressed to its
      tenant from its registration to its removal, and at most 16 wait. */
  lemma {:induction false} DeliveredToOwnTenant(run: seq<Step>, n: nat, c: Client)
    requires n <= |run| && forall i :: 0 <= i < n ==> !run[i].Begin?
    requires c in After(run, n).tables.chans
    ensures var t := After(run, n).tables;
            c in t.spans && t.spans[c].from <= End(t.spans[c], |t.sent|) <= |t.sent|
    ensures var t := After(run, n).tables;
            var events := t.chans[c].events;
            && |Buffered(events, |events|)| <= CAPACITY
            && Subsequence(Consumed(events, |events|) + Buffered(events, |events|),
                           Addressed(t.sent, c.tenant, t.spans[c].from, End(t.spans[c], |t.sent|)))
  {
    hide After, Agree, Filed, In;
    AlwaysTold(run, n);
    var t := After(run, n).tables;
    var events := t.chans[c].events;
    assert ChanOk(t, c) && Told(t, c);
    DeliveredIsAccepted(events, |events|);
    AcceptedAmongOffered(events, |events|);
    NeverOverfull(events, |events|);
  }

  // ---------- Sends without the lock ----------

  // Who is registered changes by joining and leaving only.
  lemma InStep(s: State, step: Step, c: Client)
    requires Inv(s.tables) && c in s.tables.chans
    ensures c in Next(s, step).tables.chans
    ensures In(Next(s, step).tables.clients, c) <==> In(s.tables.clients, c) && !(Leaves(s, step) && step.c == c)
  {
    hide Agree, Filed, ChansOk, Lists, Counted, Discounted;
    match step
    case Register(_, _) =>
    case Unregister(_, _) =>
    case Broadcast(_, _) =>
    case Receive(_) =>
    case Send(_) =>
    case _ =>
  }

  lemma {:induction false} InBetween(run: seq<Step>, m: nat, n: nat, c: Client)
    requires m <= n <= |run| && c in After(run, m).tables.chans && In(After(run, m).tables.clients, c)
    ensures c in After(run, n).tables.chans
    ensures In(After(run, n).tables.clients, c) <==>
        !exists i :: m <= i < n && Leaves(After(run, i), run[i]) && run[i].c == c
    decreases n
  {
    hide After, Next, Leaves, In;
    if m < n {
      InBetween(run, m, n - 1, c);
      AlwaysInv(run, n - 1);
      AfterStep(run, n);
      InStep(After(run, n - 1), run[n - 1], c);
    }
  }

  // Step p of the run makes c the client the loop sends to next.
  ghost predicate Picks(run: seq<Step>, p: nat, b: nat, c: Client)
    requires p < |run|
  {
    && run[p] == Pick(b, c)
    && b in After(run, p).loops && After(run, p).loops[b].current == None
    && b in After(run, p + 1).loops && After(run, p + 1).loops[b].current == Some(c)
  }

  lemma LoopStep(s: State, step: Step, b: nat)
    requires b in s.loops && s.loops[b].current.Some? && step != Send(b)
    ensures b in Next(s, step).loops && Next(s, step).loops[b] == s.loops[b]
  {
  }

  lemma {:induction false} LoopWaits(run: seq<Step>, m: nat, n: nat, b: nat)
    requires m <= n <= |run| && b in After(run, m).loops && After(run, m).loops[b].current.Some?
    requires forall i :: m <= i < n ==> run[i] != Send(b)
    ensures b in After(run, n).loops && After(run, n).loops[b] == After(run, m).loops[b]
    decreases n
  {
    hide After, Next;
    if m < n {
      LoopWaits(run, m, n - 1, b);
      AfterStep(run, n);
      LoopStep(After(run, n - 1), run[n - 1], b);
    }
  }

  lemma PickedIsIn(s: State, b: nat, c: Client)
    requires Inv(s.tables) && b in s.loops && s.loops[b].current == None
    requires Next(s, Pick(b, c)).loops[b].current == Some(c)
    ensures In(s.tables.clients, c) && c in s.tables.chans
    ensures Next(s, Pick(b, c)).tables == s.tables
  {
    hide Agree, ChansOk;
    assert c in SetOf(s.tables.clients, s.loops[b].tenant);
  }

  /** A send of a broadcast without the lock panics exactly when its receiver was removed between the
      moment the loop reached it and the send. */
  lemma {:induction false} PanicsExactly(run: seq<Step>, p: nat, n: nat, b: nat, c: Client)
    requires p < n < |run| && Picks(run, p, b, c) && run[n] == Send(b)
    requires forall i :: p < i < n ==> run[i] != Send(b)
    ensures Panics(After(run, n), run[n]) <==> exists i :: p < i < n && Leaves(After(run, i), run[i]) && run[i].c == c
  {
    hide After, Leaves, Agree, Filed, In, Next;
    AlwaysInv(run, p);
    AlwaysInv(run, n);
    AfterStep(run, p + 1);
    PickedIsIn(After(run, p), b, c);
    InBetween(run, p + 1, n, c);
    LoopWaits(run, p + 1, n, b);
    assert ChanOk(After(run, n).tables, c);
  }

  function OfferedTo(t: Tables, c: Client): seq<Message>
    requires c in t.chans
  {
    Offered(t.chans[c].events, |t.chans[c].events|)
  }

  // Everything a client was offered was addressed to its tenant.
  ghost predicate NoneForeign(t: Tables) {
    forall c, m :: c in t.chans && m in OfferedTo(t, c) ==> Sent(c.tenant, m) in t.sent
  }

  // A loop knows clients of its tenant only, and has offered its message to those it visited.
  ghost predicate LoopOk(s: State, loop: Loop) {
    && loop.place < |s.tables.sent| && s.tables.sent[loop.place] == Sent(loop.tenant, loop.message)
    && loop.start <= s.tables.chans.Keys && loop.visited <= s.tables.chans.Keys
    && (loop.current.Some? ==> loop.current.value in s.tables.chans && loop.current.value.tenant == loop.tenant)
    && (forall c :: c in loop.start && In(s.tables.clients, c) ==>
          c.tenant == loop.tenant && Generation(s, loop.tenant) == loop.generation)
    && (forall c :: c in loop.visited ==> loop.message in OfferedTo(s.tables, c))
  }

  ghost predicate LoopsOk(s: State) {
    NoneForeign(s.tables) && forall b :: b in s.loops ==> LoopOk(s, s.loops[b])
  }

  // What a step adds to the history of a client it already knew, or that is new.
  ghost predicate Grows(before: Tables, after: Tables, c: Client)
    requires c in after.chans
  {
    var events, was := after.chans[c].events, if c in before.chans then before.chans[c].events else [];
    || events == was || events == was + [Take]
    || exists m :: events == was + [Offer(m)] && Sent(c.tenant, m) in after.sent
  }

  lemma GrowsOffered(before: Tables, after: Tables, c: Client)
    requires c in after.chans && Grows(before, after, c) && before.sent <= after.sent
    ensures c in before.chans ==> forall m :: m in OfferedTo(before, c) ==> m in OfferedTo(after, c)
    ensures forall m :: m in OfferedTo(after, c) ==>
        (c in before.chans && m in OfferedTo(before, c)) || Sent(c.tenant, m) in after.sent
  {
    var events, was := after.chans[c].events, if c in before.chans then before.chans[c].events else [];
    hide Offered, Buffered;
    OfferedNothing();
    if events == was + [Take] {
      AppendEvent(was, Take);
    } else if events != was {
      var m :| events == was + [Offer(m)] && Sent(c.tenant, m) in after.sent;
      AppendEvent(was, Offer(m));
    }
  }

  lemma OfferedNothing()
    ensures Offered([], 0) == []
  {
  }

  lemma DeliverGrows(t: Tables, tenant: int, m: Message, c: Client)
    requires Filed(t.clients, t.chans.Keys) && c in t.chans
    ensures c in Deliver(t, tenant, m).chans && Grows(t, Deliver(t, tenant, m), c)
    ensures t.sent <= Deliver(t, tenant, m).sent
  {
    var after := Deliver(t, tenant, m);
    assert after.sent[|t.sent|] == Sent(tenant, m);
  }

  lemma JoinGrows(t: Tables, d: Client, m: Message, c: Client)
    requires Inv(t) && d !in t.chans && c in Join(t, d, m).chans
    ensures Grows(t, Join(t, d, m), c)
  {
    hide Agree, ChansOk, Counted, Added, Inv;
    AdmitKeepsInv(t, d);
    InvParts(Admit(t, d));
    DeliverGrows(Admit(t, d), d.tenant, m, c);
  }

  lemma DepartGrows(t: Tables, d: Client, m: Message, c: Client)
    requires Inv(t) && In(t.clients, d) && d in t.chans && d in t.spans && c in Depart(t, d, m).chans
    ensures Grows(t, Depart(t, d, m), c)
  {
    hide Agree, ChansOk, Discounted, Removed, Prune, Inv;
    InvParts(t);
    RemoveKeepsTables(t.clients, t.presence, t.chans.Keys, d);
    assert Expel(t, d).chans.Keys == t.chans.Keys;
    DeliverGrows(Expel(t, d), d.tenant, m, c);
  }

  lemma NextGrows(s: State, step: Step, c: Client)
    requires Inv(s.tables) && LoopsOk(s) && c in Next(s, step).tables.chans
    ensures Grows(s.tables, Next(s, step).tables, c)
  {
    hide Inv, NoneForeign, Lists, Join, Depart, Deliver, Grows;
    if c in s.tables.chans {
      GrowsByNothing(s.tables, c);
    }
    match step
    case Register(d, m) =>
      if Joins(s, step) {
        JoinGrows(s.tables, d, m, c);
      }
    case Unregister(d, m) =>
      if Leaves(s, step) {
        DepartGrows(s.tables, d, m, c);
      }
    case Broadcast(tenant, m) =>
      InvParts(s.tables);
      KnownReceivers(s.tables, tenant, m, c);
      DeliverGrows(s.tables, tenant, m, c);
    case _ => OthersGrow(s, step, c);
  }

  lemma GrowsByNothing(t: Tables, c: Client)
    requires c in t.chans
    ensures Grows(t, t, c)
  {
  }

  lemma KnownReceivers(t: Tables, tenant: int, m: Message, c: Client)
    ensures c in Deliver(t, tenant, m).chans <==> c in t.chans
  {
  }

  lemma OthersGrow(s: State, step: Step, c: Client)
    requires LoopsOk(s) && c in Next(s, step).tables.chans
    requires !step.Register? && !step.Unregister? && !step.Broadcast?
    ensures Grows(s.tables, Next(s, step).tables, c)
  {
    hide NoneForeign;
    if step.Send? && step.b in s.loops && s.loops[step.b].current == Some(c) {
      assert LoopOk(s, s.loops[step.b]);
    }
  }

  lemma InvParts(t: Tables)
    requires Inv(t)
    ensures Agree(t.clients, t.presence) && Filed(t.clients, t.chans.Keys)
  {
  }

  lemma NextKeepsNoneForeign(s: State, step: Step)
    requires Inv(s.tables) && LoopsOk(s)
    ensures NoneForeign(Next(s, step).tables)
    ensures s.tables.sent <= Next(s, step).tables.sent
    ensures forall c :: c in s.tables.chans ==> c in Next(s, step).tables.chans
    ensures forall c, m :: c in s.tables.chans && m in OfferedTo(s.tables, c) ==>
        m in OfferedTo(Next(s, step).tables, c)
  {
    hide Next, Inv, LoopOk, OfferedTo, Grows;
    var t, after := s.tables, Next(s, step).tables;
    assert t.sent <= after.sent by { SentGrows(s, step); }
    forall c | c in t.chans
      ensures c in after.chans
    {
      KnownStays(s, step, c);
    }
    forall c | c in after.chans
      ensures c in t.chans ==> forall m :: m in OfferedTo(t, c) ==> m in OfferedTo(after, c)
      ensures forall m :: m in OfferedTo(after, c) ==> Sent(c.tenant, m) in after.sent
    {
      NextGrows(s, step, c);
      GrowsOffered(t, after, c);
    }
  }

  lemma SentGrows(s: State, step: Step)
    ensures s.tables.sent <= Next(s, step).tables.sent
  {
    hide Lists, Counted, Discounted, OfferTo, Prune;
  }

  lemma KnownStays(s: State, step: Step, c: Client)
    requires c in s.tables.chans
    ensures c in Next(s, step).tables.chans
  {
    hide Lists, Counted, Discounted, Prune;
  }

  // The map object of a registered client is not replaced.
  lemma GenerationStays(s: State, step: Step, c: Client)
    requires Inv(s.tables) && c in s.tables.chans && In(Next(s, step).tables.clients, c)
    ensures In(s.tables.clients, c) && Generation(Next(s, step), c.tenant) == Generation(s, c.tenant)
  {
    hide Next, Inv;
    InStep(s, step, c);
    GenerationStep(s, step, c.tenant);
  }

  lemma GenerationStep(s: State, step: Step, tenant: int)
    requires tenant in s.tables.clients
    ensures Generation(Next(s, step), tenant) == Generation(s, tenant)
  {
    hide Lists, Join, Depart, Deliver, Consume, OfferTo, Range;
  }

  lemma LoopStays(s: State, step: Step, loop: Loop)
    requires Inv(s.tables) && LoopsOk(s) && LoopOk(s, loop)
    ensures LoopOk(Next(s, step), loop)
  {
    hide Next, Inv, OfferedTo, Grows, In, NoneForeign;
    NextKeepsNoneForeign(s, step);
    forall c | c in loop.start && In(Next(s, step).tables.clients, c)
      ensures c.tenant == loop.tenant && Generation(Next(s, step), loop.tenant) == loop.generation
    {
      GenerationStays(s, step, c);
    }
  }

  lemma SendOffers(t: Tables, c: Client, m: Message)
    requires c in t.chans
    ensures var after := t.(chans := OfferTo(t.chans, {c}, m));
            c in after.chans && m in OfferedTo(after, c)
  {
    AppendEvent(t.chans[c].events, Offer(m));
    hide Buffered;
  }

  lemma BeginLoopOk(s: State, b: nat, tenant: int, m: Message)
    requires Inv(s.tables) && b !in s.loops
    ensures var s' := Next(s, Begin(b, tenant, m)); b in s'.loops && LoopOk(s', s'.loops[b])
  {
    hide Agree, ChansOk, Offered;
    var s' := Next(s, Begin(b, tenant, m));
    assert s'.tables.sent[|s.tables.sent|] == Sent(tenant, m);
  }

  lemma PickLoopOk(s: State, b: nat, c: Client)
    requires Inv(s.tables) && b in s.loops && LoopOk(s, s.loops[b])
    ensures var s' := Next(s, Pick(b, c)); b in s'.loops && LoopOk(s', s'.loops[b])
  {
    hide Agree, ChansOk, OfferedTo;
  }

  lemma SendLoopOk(s: State, b: nat)
    requires Inv(s.tables) && LoopsOk(s) && b in s.loops && b in Next(s, Send(b)).loops
    ensures LoopOk(Next(s, Send(b)), Next(s, Send(b)).loops[b])
  {
    hide Inv, NoneForeign;
    LoopStays(s, Send(b), s.loops[b]);
    if s.loops[b].current.Some? {
      SendOffers(s.tables, s.loops[b].current.value, s.loops[b].message);
    }
    hide OfferTo, OfferedTo, In;
  }

  lemma NextKeepsLoops(s: State, step: Step)
    requires Inv(s.tables) && LoopsOk(s)
    ensures LoopsOk(Next(s, step))
  {
    hide Inv, LoopOk, NoneForeign, Joins, Leaves, Panics, Finishes, Range;
    NextKeepsNoneForeign(s, step);
    var s' := Next(s, step);
    forall b | b in s'.loops
      ensures LoopOk(s', s'.loops[b])
    {
      if step == Send(b) {
        SendLoopOk(s, b);
      } else if step.Pick? && step.b == b {
        PickLoopOk(s, b, step.c);
      } else if b !in s.loops {
        BeginLoopOk(s, b, step.tenant, step.m);
      } else {
        LoopStays(s, step, s.loops[b]);
      }
    }
  }

  /** In every run, broadcasts without the lock included, a client is offered only messages that were
      addressed to its own tenant. */
  lemma {:induction false} NothingForeign(run: seq<Step>, n: nat)
    requires n <= |run|
    ensures LoopsOk(After(run, n)) && NoneForeign(After(run, n).tables)
  {
    hide Next, Inv, LoopOk;
    AfterStart(run);
    if n > 0 {
      NothingForeign(run, n - 1);
      AlwaysInv(run, n - 1);
      AfterStep(run, n);
      NextKeepsLoops(After(run, n - 1), run[n - 1]);
    }
  }

  /** When a broadcast without the lock has run its course, every client that was registered when it
      began and still is has been offered the message. */
  lemma {:induction false} FinishedLoopReachedAll(run: seq<Step>, n: nat, c: Client)
    requires n < |run| && Finishes(After(run, n), run[n])
    requires var s := After(run, n); c in s.loops[run[n].b].start && In(s.tables.clients, c)
    ensures c in After(run, n).tables.chans
    ensures After(run, n).loops[run[n].b].message in OfferedTo(After(run, n).tables, c)
  {
    hide After, NoneForeign, OfferedTo;
    NothingForeign(run, n);
    var s := After(run, n);
    assert LoopOk(s, s.loops[run[n].b]);
    assert c in s.loops[run[n].b].start * Range(s, s.loops[run[n].b]);
  }

  // The message the step offers to a client, if it does.
  ghost function OfferBy(s: State, step: Step, c: Client): Option<Message> {
    match step
    case Register(d, m) =>
      if Joins(s, step) && d.tenant == c.tenant && (c == d || In(s.tables.clients, c)) then Some(m) else None
    case Unregister(d, m) =>
      if Leaves(s, step) && d.tenant == c.tenant && c != d && In(s.tables.clients, c) then Some(m) else None
    case Broadcast(tenant, m) => if tenant == c.tenant && In(s.tables.clients, c) then Some(m) else None
    case Send(b) =>
      if b in s.loops && s.loops[b].current == Some(c) && !Panics(s, step) then Some(s.loops[b].message) else None
    case _ => None
  }

  function Listed(m: Option<Message>): seq<Message> { if m.Some? then [m.value] else [] }

  // What the run offered to a client, in order.
  ghost function Stream(run: seq<Step>, n: nat, c: Client): seq<Message>
    requires n <= |run|
  {
    if n == 0 then [] else Stream(run, n - 1, c) + Listed(OfferBy(After(run, n - 1), run[n - 1], c))
  }

  function OfferedSoFar(t: Tables, c: Client): seq<Message> { if c in t.chans then OfferedTo(t, c) else [] }

  lemma DeliverOffers(t: Tables, tenant: int, m: Message, c: Client)
    requires Filed(t.clients, t.chans.Keys)
    ensures OfferedSoFar(Deliver(t, tenant, m), c) ==
              OfferedSoFar(t, c) + if c in SetOf(t.clients, tenant) then [m] else []
  {
    hide Offered;
    KnownReceivers(t, tenant, m, c);
    if c in SetOf(t.clients, tenant) {
      OfferedMore(t.chans[c].events, m);
    }
  }

  lemma {:induction false} OfferedMore(events: seq<Event>, m: Message)
    ensures Offered(events + [Offer(m)], |events| + 1) == Offered(events, |events|) + [m]
    ensures Offered(events + [Take], |events| + 1) == Offered(events, |events|)
  {
    hide Buffered;
    AppendEvent(events, Offer(m));
    AppendEvent(events, Take);
  }

  lemma JoinOffers(t: Tables, d: Client, m: Message, c: Client)
    requires Inv(t) && d !in t.chans
    ensures OfferedSoFar(Join(t, d, m), c) ==
              OfferedSoFar(t, c) + if d.tenant == c.tenant && (c == d || In(t.clients, c)) then [m] else []
  {
    hide Inv, Agree, Deliver, Counted, Offered;
    OfferedNothing();
    InvParts(t);
    AdmitKeepsInv(t, d);
    InvParts(Admit(t, d));
    DeliverOffers(Admit(t, d), d.tenant, m, c);
  }

  lemma DepartOffers(t: Tables, d: Client, m: Message, c: Client)
    requires Inv(t) && In(t.clients, d) && d in t.chans && d in t.spans
    ensures OfferedSoFar(Depart(t, d, m), c) ==
              OfferedSoFar(t, c) + if d.tenant == c.tenant && c != d && In(t.clients, c) then [m] else []
  {
    hide Inv, Agree, Deliver, Discounted, Offered, Prune;
    InvParts(t);
    RemoveKeepsTables(t.clients, t.presence, t.chans.Keys, d);
    assert Expel(t, d).chans.Keys == t.chans.Keys;
    DeliverOffers(Expel(t, d), d.tenant, m, c);
  }

  lemma NextOffers(s: State, step: Step, c: Client)
    requires Inv(s.tables) && LoopsOk(s)
    ensures OfferedSoFar(Next(s, step).tables, c) == OfferedSoFar(s.tables, c) + Listed(OfferBy(s, step, c))
  {
    hide Inv, Join, Depart, Deliver, Consume, Lists, OfferTo, LoopsOk, Range;
    assert OfferedSoFar(s.tables, c) + [] == OfferedSoFar(s.tables, c);
    match step
    case Register(d, m) =>
      if Joins(s, step) {
        JoinOffers(s.tables, d, m, c);
      }
    case Unregister(d, m) =>
      if Leaves(s, step) {
        DepartOffers(s.tables, d, m, c);
      }
    case Broadcast(tenant, m) =>
      InvParts(s.tables);
      DeliverOffers(s.tables, tenant, m, c);
    case Send(b) =>
      if b in s.loops && s.loops[b].current.Some? {
        CurrentIsKnown(s, b);
        SendOffersTo(s.tables, s.loops[b].current.value, s.loops[b].message, c);
      }
    case Receive(d) =>
      if d in s.tables.chans {
        ConsumeOffers(s.tables, d, c);
      }
    case _ =>
  }

  lemma CurrentIsKnown(s: State, b: nat)
    requires LoopsOk(s) && b in s.loops && s.loops[b].current.Some?
    ensures s.loops[b].current.value in s.tables.chans
  {
    assert LoopOk(s, s.loops[b]);
  }

  lemma SendOffersTo(t: Tables, d: Client, m: Message, c: Client)
    requires d in t.chans
    ensures OfferedSoFar(t.(chans := OfferTo(t.chans, {d}, m)), c) == OfferedSoFar(t, c) + if c == d then [m] else []
  {
    hide Offered;
    OfferedMore(t.chans[d].events, m);
  }

  lemma ConsumeOffers(t: Tables, d: Client, c: Client)
    requires d in t.chans
    ensures OfferedSoFar(Consume(t, d), c) == OfferedSoFar(t, c)
  {
    hide Offered;
    OfferedMore(t.chans[d].events, Presence([]));
  }

  lemma {:induction false} OfferedIsStream(run: seq<Step>, n: nat, c: Client)
    requires n <= |run|
    ensures OfferedSoFar(After(run, n).tables, c) == Stream(run, n, c)
  {
    hide Next, Inv, LoopsOk, OfferBy, OfferedTo;
    AfterStart(run);
    if n > 0 {
      OfferedIsStream(run, n - 1, c);
      AlwaysInv(run, n - 1);
      NothingForeign(run, n - 1);
      AfterStep(run, n);
      NextOffers(After(run, n - 1), run[n - 1], c);
    }
  }

  /** In every run, broadcasts without the lock included, what a client received followed by what waits
      in its channel is a subsequence of what was offered to it, in the order of the sends. */
  lemma {:induction false} DeliveredInSendOrder(run: seq<Step>, n: nat, c: Client)
    requires n <= |run| && c in After(run, n).tables.chans
    ensures var events := After(run, n).tables.chans[c].events;
            && |Buffered(events, |events|)| <= CAPACITY
            && Subsequence(Consumed(events, |events|) + Buffered(events, |events|), Stream(run, n, c))
  {
    hide After, Stream;
    OfferedIsStream(run, n, c);
    var events := After(run, n).tables.chans[c].events;
    DeliveredIsAccepted(events, |events|);
    AcceptedAmongOffered(events, |events|);
    NeverOverfull(events, |events|);
  }

  // A loop picks these clients one after the other and sends to each at once.
  ghost function Rounds(s: State, b: nat, cs: seq<Client>): State {
    if cs == [] then s
    else Next(Next(Rounds(s, b, cs[..|cs| - 1]), Pick(b, cs[|cs| - 1])), Send(b))
  }

  ghost predicate Distinct(cs: seq<Client>) { forall i, j :: 0 <= i < j < |cs| ==> cs[i] != cs[j] }

  lemma RoundStep(s: State, b: nat, c: Client)
    requires Inv(s.tables) && b in s.loops && s.loops[b].current == None
    requires c !in s.loops[b].visited && c in Range(s, s.loops[b])
    ensures var loop := s.loops[b];
            Next(Next(s, Pick(b, c)), Send(b)) ==
              s.(tables := s.tables.(chans := OfferTo(s.tables.chans, {c}, loop.message)),
                 loops := s.loops[b := loop.(visited := loop.visited + {c})])
  {
    assert In(s.tables.clients, c) && ChanOk(s.tables, c);
    hide Agree, OfferTo, ChansOk;
    var loop := s.loops[b];
    assert s.loops[b := loop.(current := Some(c))][b := loop.(visited := loop.visited + {c})] ==
        s.loops[b := loop.(visited := loop.visited + {c})];
  }

  lemma OfferToMore(chans: map<Client, Chan>, some: set<Client>, c: Client, m: Message)
    requires c !in some
    ensures OfferTo(OfferTo(chans, some, m), {c}, m) == OfferTo(chans, some + {c}, m)
  {
  }

  lemma {:induction false} RoundsOffer(s: State, b: nat, cs: seq<Client>)
    requires Inv(s.tables) && b in s.loops && s.loops[b].current == None && s.loops[b].visited == {}
    requires Distinct(cs) && forall i :: 0 <= i < |cs| ==> cs[i] in Range(s, s.loops[b])
    ensures var visited := set c | c in cs;
            Rounds(s, b, cs) ==
              s.(tables := s.tables.(chans := OfferTo(s.tables.chans, visited, s.loops[b].message)),
                 loops := s.loops[b := s.loops[b].(visited := visited)])
  {
    hide Next, Inv;
    if cs == [] {
      assert OfferTo(s.tables.chans, {}, s.loops[b].message) == s.tables.chans;
      assert s.loops[b := s.loops[b].(visited := {})] == s.loops;
      assert (set c | c in cs) == {};
    } else {
      var front, last, message := cs[..|cs| - 1], cs[|cs| - 1], s.loops[b].message;
      RoundsOffer(s, b, front);
      var visited := set c | c in front;
      assert last !in front && (set c | c in cs) == visited + {last} by { assert cs == front + [last]; }
      var mid := Rounds(s, b, front);
      OfferManyKeepsInv(s.tables, visited, message);
      RoundStep(mid, b, last);
      OfferToMore(s.tables.chans, visited, last, message);
      hide OfferTo;
      assert mid.loops[b := mid.loops[b].(visited := visited + {last})] ==
          s.loops[b := s.loops[b].(visited := visited + {last})];
    }
  }

  /** A loop that nothing comes between is a broadcast at one go, whatever the order of its sends. */
  lemma BroadcastIsUninterrupted(s: State, b: nat, tenant: int, m: Message, cs: seq<Client>)
    requires Inv(s.tables) && b !in s.loops
    requires Distinct(cs) && (set c | c in cs) == SetOf(s.tables.clients, tenant)
    ensures Next(Rounds(Next(s, Begin(b, tenant, m)), b, cs), Finish(b)) == Next(s, Broadcast(tenant, m))
  {
    hide Inv, OfferTo;
    var begun := Next(s, Begin(b, tenant, m));
    BeginKeepsInv(s.tables, Sent(tenant, m));
    RoundsOffer(begun, b, cs);
    var loop := begun.loops[b];
    assert forall v: set<Client> :: begun.loops[b := loop.(visited := v)] - {b} == s.loops;
  }

  // ---------- A tenant that came back ----------

  ghost predicate GenerationsOk(s: State) {
    forall b :: b in s.loops ==> s.loops[b].generation <= Generation(s, s.loops[b].tenant)
  }

  // Every loop that began before place p over the tenant's clients ranges over a map object of the past.
  ghost predicate Orphaned(s: State, tenant: int, p: nat) {
    forall b :: b in s.loops && s.loops[b].tenant == tenant && s.loops[b].place < p ==>
        s.loops[b].generation < Generation(s, tenant)
  }

  lemma GenerationsStep(s: State, step: Step, tenant: int)
    ensures Generation(Next(s, step), tenant) ==
              Generation(s, tenant) +
              if Joins(s, step) && step.c.tenant == tenant && tenant !in s.tables.clients then 1 else 0
  {
    hide Lists, Leaves, Join, Depart, Deliver, Consume, OfferTo;
  }

  // A loop after the step was there before, over the same map object, or has just begun.
  lemma LoopsStep(s: State, step: Step, b: nat)
    requires b in Next(s, step).loops
    ensures var loop := Next(s, step).loops[b];
            if b in s.loops then
              && loop.tenant == s.loops[b].tenant && loop.place == s.loops[b].place
              && loop.generation == s.loops[b].generation
            else loop.place == |s.tables.sent| && loop.generation == Generation(s, loop.tenant)
  {
    hide Joins, Leaves, Join, Depart, Deliver, Consume, OfferTo;
  }

  lemma {:induction false} AlwaysGenerationsOk(run: seq<Step>, n: nat)
    requires n <= |run|
    ensures GenerationsOk(After(run, n))
  {
    hide After, Next, Generation, Joins;
    AfterStart(run);
    if n > 0 {
      AlwaysGenerationsOk(run, n - 1);
      AfterStep(run, n);
      var s, after := After(run, n - 1), After(run, n);
      forall b | b in after.loops
        ensures after.loops[b].generation <= Generation(after, after.loops[b].tenant)
      {
        LoopsStep(s, run[n - 1], b);
        GenerationsStep(s, run[n - 1], after.loops[b].tenant);
      }
    }
  }

  lemma {:induction false} StaysOrphaned(run: seq<Step>, k: nat, n: nat, c: Client)
    requires k < n <= |run| && Joins(After(run, k), run[k]) && run[k].c == c
    requires c.tenant !in After(run, k).tables.clients
    ensures Orphaned(After(run, n), c.tenant, |After(run, k).tables.sent|)
    ensures |After(run, k).tables.sent| <= |After(run, n).tables.sent|
    decreases n
  {
    hide After, Next, Generation, Joins;
    var s, t, p := After(run, n - 1), c.tenant, |After(run, k).tables.sent|;
    AfterStep(run, n);
    SentGrows(s, run[n - 1]);
    AlwaysGenerationsOk(run, n - 1);
    GenerationsStep(s, run[n - 1], t);
    if n - 1 > k {
      StaysOrphaned(run, k, n - 1, c);
    }
    var after := After(run, n);
    forall b | b in after.loops && after.loops[b].tenant == t && after.loops[b].place < p
      ensures after.loops[b].generation < Generation(after, t)
    {
      LoopsStep(s, run[n - 1], b);
    }
  }

  /** After a tenant's clients had all gone, whoever registers is reached by no broadcast that began before: its
      loop ranges over the map object that was dropped. */
  lemma {:induction false} NewcomersAreNotReached(run: seq<Step>, k: nat, n: nat, c: Client, b: nat)
    requires k < n <= |run| && Joins(After(run, k), run[k]) && run[k].c == c
    requires c.tenant !in After(run, k).tables.clients
    requires var s := After(run, n);
             b in s.loops && s.loops[b].tenant == c.tenant && s.loops[b].place < |After(run, k).tables.sent|
    ensures Range(After(run, n), After(run, n).loops[b]) == {}
  {
    hide After, Next, Generation, Joins;
    StaysOrphaned(run, k, n, c);
  }

  // A client is removed between the moment a loop reaches it and the send.
  function RemovedInBetween(c: Client, m: Message): seq<Step> {
    [Register(c, Presence([c.user])), Begin(0, c.tenant, m), Pick(0, c), Unregister(c, Presence([])), Send(0)]
  }

  /** The exception exists. */
  lemma ClosedSendExample(c: Client, m: Message)
    ensures var run := RemovedInBetween(c, m); Panics(After(run, 4), run[4])
  {
    hide Agree, ChansOk;
    var run := RemovedInBetween(c, m);
    Registered(c, run);
    var s2, s3 := After(run, 2), After(run, 3);
    assert Picks(run, 2, 0, c);
    assert Removed(s3.tables.clients, c) == map[c.tenant := {}];
    assert Leaves(s3, run[3]);
    PanicsExactly(run, 2, 4, 0, c);
  }

  // Of two loops the second overtakes the first.
  function Overtaking(c: Client, m0: Message, m1: Message): seq<Step> {
    [Register(c, Presence([c.user])), Begin(0, c.tenant, m0), Begin(1, c.tenant, m1),
     Pick(1, c), Send(1), Pick(0, c), Send(0)]
  }

  lemma OfferToOne(c: Client, events: seq<Event>, m: Message)
    ensures OfferTo(map[c := Chan(events, 0)], {c}, m) == map[c := Chan(events + [Offer(m)], 0)]
  {
  }

  lemma {:induction false} Registered(c: Client, run: seq<Step>)
    requires |run| > 0 && run[0] == Register(c, Presence([c.user]))
    ensures var s := After(run, 1);
            && s.tables.clients == map[c.tenant := {c}] &&
                s.tables.chans == map[c := Chan([Offer(Presence([c.user]))], 0)]
            && s.tables.sent == [Sent(c.tenant, Presence([c.user]))] && s.loops == map[] &&
                s.generations == map[c.tenant := 1]
            && c in s.tables.spans
  {
    hide Agree, ChansOk, Lists, OfferTo, Added, Counted;
    AfterStart(run);
    AfterStep(run, 1);
    AddedToNone(c);
    OfferToOne(c, [], Presence([c.user]));
    assert [] + [Offer(Presence([c.user]))] == [Offer(Presence([c.user]))];
  }

  lemma AddedToNone(c: Client)
    ensures Added(map[], c) == map[c.tenant := {c}] && Lists(Presence([c.user]), {c})
  {
    var none: ClientSets := map[];
    assert SetOf(none, c.tenant) + {c} == {c};
  }

  /** Without the lock the order of broadcasts is not that of their beginnings. */
  lemma OvertakingExample(c: Client, m0: Message, m1: Message)
    ensures var run := Overtaking(c, m0, m1);
            && OfferedSoFar(After(run, 7).tables, c) == [Presence([c.user]), m1, m0]
            && After(run, 7).tables.sent ==
                 [Sent(c.tenant, Presence([c.user])), Sent(c.tenant, m0), Sent(c.tenant, m1)]
  {
    hide After;
    OvertakingSteps(c, m0, m1, Overtaking(c, m0, m1));
    OfferedThree(Presence([c.user]), m1, m0);
  }

  lemma OfferedThree(a: Message, b: Message, c: Message)
    ensures Offered([Offer(a), Offer(b), Offer(c)], 3) == [a, b, c]
  {
    var events := [Offer(a), Offer(b), Offer(c)];
    assert Offered(events, 1) == [a];
    assert Offered(events, 2) == [a, b];
  }

  lemma {:induction false} TwoLoops(c: Client, m0: Message, m1: Message, run: seq<Step>)
    requires |run| >= 3 && run[0] == Register(c, Presence([c.user]))
    requires run[1] == Begin(0, c.tenant, m0) && run[2] == Begin(1, c.tenant, m1)
    ensures var s := After(run, 3);
            && s.tables.clients == map[c.tenant := {c}] && s.generations == map[c.tenant := 1]
            && s.tables.chans == map[c := Chan([Offer(Presence([c.user]))], 0)]
            && s.tables.sent == [Sent(c.tenant, Presence([c.user])), Sent(c.tenant, m0), Sent(c.tenant, m1)]
            && s.loops == map[0 := Loop(c.tenant, m0, 1, 1, {c}, {}, None),
                              1 := Loop(c.tenant, m1, 2, 1, {c}, {}, None)]
  {
    hide After;
    Registered(c, run);
    AfterStep(run, 2);
    AfterStep(run, 3);
  }

  lemma PickAndSend(s: State, b: nat, c: Client, events: seq<Event>)
    requires s.tables.clients == map[c.tenant := {c}] && s.tables.chans == map[c := Chan(events, 0)]
    requires s.generations == map[c.tenant := 1]
    requires b in s.loops && s.loops[b].tenant == c.tenant && s.loops[b].generation == 1
    requires s.loops[b].visited == {} && s.loops[b].current == None
    ensures Next(Next(s, Pick(b, c)), Send(b)) ==
              s.(tables := s.tables.(chans := map[c := Chan(events + [Offer(s.loops[b].message)], 0)]),
                 loops := s.loops[b := s.loops[b].(visited := {c})])
  {
    hide OfferTo;
    OfferToOne(c, events, s.loops[b].message);
    var loop := s.loops[b];
    assert loop.visited + {c} == {c};
    assert s.loops[b := loop.(current := Some(c))][b := loop.(visited := {c})] == s.loops[b := loop.(visited := {c})];
  }

  lemma {:induction false} OvertakingSteps(c: Client, m0: Message, m1: Message, run: seq<Step>)
    requires |run| == 7 && run[0] == Register(c, Presence([c.user]))
    requires run[1] == Begin(0, c.tenant, m0) && run[2] == Begin(1, c.tenant, m1)
    requires run[3] == Pick(1, c) && run[4] == Send(1) && run[5] == Pick(0, c) && run[6] == Send(0)
    ensures After(run, 7).tables.chans == map[c := Chan([Offer(Presence([c.user])), Offer(m1), Offer(m0)], 0)]
    ensures After(run, 7).tables.sent == [Sent(c.tenant, Presence([c.user])), Sent(c.tenant, m0), Sent(c.tenant, m1)]
  {
    hide After, Next;
    var update := Offer(Presence([c.user]));
    TwoLoops(c, m0, m1, run);
    PickAndSend(After(run, 3), 1, c, [update]);
    AfterStep(run, 4);
    AfterStep(run, 5);
    assert [update] + [Offer(m1)] == [update, Offer(m1)];
    PickAndSend(After(run, 5), 0, c, [update, Offer(m1)]);
    AfterStep(run, 6);
    AfterStep(run, 7);
    assert [update, Offer(m1)] + [Offer(m0)] == [update, Offer(m1), Offer(m0)];
  }
}
