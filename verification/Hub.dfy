/** The realtime hub as an object (realtime/hub.go), and the life of a connection (websocket.go).

    Each method is one operation of the machine in Fanout, broadcasts being taken at one go there. */
module Hub {
  import opened Wrappers
  import opened Channel
  import opened Presence
  import opened Fanout

  // Another connection: one from before, or the i-th that has joined since.
  datatype Other = Known(client: Client) | Newcomer(i: nat)

  /** What happens while a connection lasts: its own pumps receive and pass on what the user types, and
      other connections come, go, broadcast and receive. */
  datatype Activity =
    | Delivery
    | Typing(json: string)
    | Joining(tenant: int, user: int)
    | Leaving(other: Other)
    | Elsewhere(tenant: int, json: string)
    | Reading(other: Other)

  predicate ComesOrGoes(a: Activity) { a.Joining? || a.Leaving? }

  // The connection meant, unless so many have not joined yet.
  function Meant(other: Other, joined: seq<Client>): Option<Client> {
    match other
    case Known(client) => Some(client)
    case Newcomer(i) => if i < |joined| then Some(joined[i]) else None
  }

  // Everyone the activity may mean is known to the hub.
  ghost predicate MeansKnown(a: Activity, known: set<Client>) {
    (a.Leaving? || a.Reading?) && a.other.Known? ==> a.other.client in known
  }

  class Hub {
    var clients: ClientSets
    var presence: Counters
    // Everything broadcast so far, and for every client that ever registered its part of it.
    ghost var sent: seq<Sent>
    ghost var spans: map<Client, Span>

    predicate Registered(c: Client)
      reads this
    {
      In(clients, c)
    }

    ghost function Chans(): map<Client, Chan>
      reads this, spans.Keys
    {
      map c | c in spans :: Chan(c.events, c.closes)
    }

    // The machine's view of the hub and of the channels of its clients.
    ghost function View(): Tables
      reads this, spans.Keys
    {
      Tables(clients, presence, Chans(), sent, spans)
    }

    ghost predicate ClientsValid()
      reads this, spans.Keys
    {
      forall c :: c in spans ==> c.Valid()
    }

    ghost predicate Valid()
      reads this, spans.Keys
    {
      ClientsValid() && Inv(View()) && AllTold(View())
    }

    constructor ()
      ensures Valid() && View() == NO_CLIENTS
    {
      clients, presence, sent, spans := map[], map[], [], map[];
      new;
      assert Chans() == map[];
      AfterStart([]);
    }

    // The non-blocking sends of one broadcast.
    method OfferAll(receivers: set<Client>, m: Message)
      requires forall c :: c in receivers ==> c.Valid() && !c.closed
      modifies receivers
      ensures forall c :: c in receivers ==>
        c.Valid() && !c.closed && c.closes == old(c.closes) && c.events == old(c.events) + [Offer(m)]
    {
      var todo := receivers;
      while todo != {}
        invariant todo <= receivers
        invariant forall c :: c in receivers ==> c.Valid() && !c.closed && c.closes == old(c.closes)
        invariant forall c :: c in receivers ==>
            c.events == if c in todo then old(c.events) else old(c.events) + [Offer(m)]
        decreases todo
      {
        var c :| c in todo;
        c.TrySend(m);
        todo := todo - {c};
      }
    }

    // One message to every client of a tenant.
    method SendAll(tenant: int, m: Message)
      requires ClientsValid() && Filed(clients, Chans().Keys) && ChansOk(View())
      modifies this`sent, SetOf(clients, tenant)
      ensures ClientsValid() && View() == Fanout.Deliver(old(View()), tenant, m)
    {
      hide ChansOk, Filed, SetOf;
      ghost var all := SetOf(clients, tenant);
      ReceiversAreOpen(View(), tenant);
      OfferAll(SetOf(clients, tenant), m);
      sent := sent + [Sent(tenant, m)];
      assert Chans() == OfferTo(old(Chans()), all, m);
    }

    /** A presence update lists exactly the distinct connected users of the tenant. */
    method BroadcastPresenceLocked(tenant: int) returns (ghost m: Message)
      requires ClientsValid() && Agree(clients, presence) && Filed(clients, Chans().Keys) && ChansOk(View())
      modifies this`sent, SetOf(clients, tenant)
      ensures ClientsValid() && Lists(m, SetOf(clients, tenant)) && View() == Fanout.Deliver(old(View()), tenant, m)
    {
      hide Agree, Filed, ChansOk, SetOf, CountersOf, Lists, Chans;
      var users := Enumerate(CountersOf(presence, tenant).Keys);
      UsersAreListed(clients, presence, tenant, users);
      m := Presence(users);
      SendAll(tenant, Presence(users));
    }

    /** Every registered client of the tenant is offered the message; nobody else is. */
    method Broadcast(tenant: int, json: string)
      requires Valid()
      modifies this`sent, SetOf(clients, tenant)
      ensures Valid() && View() == Fanout.Deliver(old(View()), tenant, Payload(json))
    {
      hide Agree, AllTold, ChansOk, Filed;
      DeliverKeepsTold(View(), tenant, Payload(json));
      SendAll(tenant, Payload(json));
    }

    /** A receive of a client's write pump, whether the client is still registered or not. */
    method Drain(c: Client) returns (m: Option<Message>)
      requires Valid() && c in spans
      modifies c`buffer, c`events
      ensures Valid() && View() == Consume(old(View()), c)
      ensures m == if old(c.buffer) == [] then None else Some(old(c.buffer)[0])
    {
      hide Agree, AllTold, ChansOk, Filed;
      ConsumeKeepsTold(View(), c);
      m := c.Receive();
      assert Chans() == old(Chans())[c := Chan(c.events, c.closes)];
    }

    /** A new client joins its tenant; everyone there, the newcomer included, gets the update. */
    method Register(c: Client) returns (ghost m: Message)
      requires Valid() && c !in spans && c.Valid() && !c.closed && c.events == []
      modifies this, c, SetOf(clients, c.tenant)
      ensures Valid() && View() == Join(old(View()), c, m)
      ensures Lists(m, SetOf(Added(old(clients), c), c.tenant))
    {
      hide Agree, AllTold, ChansOk, Filed, Inv, Added, Counted, Lists, SetOf, Chans, Admit, Deliver;
      ghost var before := View();
      KnownHasChannel(this, c);
      AdmitKeepsInv(before, c);
      InvMeans(Admit(before, c));
      JustAdded(before, c);
      Enter(c);
      m := BroadcastPresenceLocked(c.tenant);
      JoinKeepsTold(before, c, m);
    }

    // The table updates of a registration.
    method Enter(c: Client)
      requires ClientsValid() && c !in spans && c.Valid() && !c.closed && c.events == []
      modifies this`clients, this`presence, this`spans
      ensures ClientsValid() && View() == Admit(old(View()), c) && clients == Added(old(clients), c)
    {
      hide Added, Counted;
      ghost var before := Chans();
      clients, presence, spans := Added(clients, c), Counted(presence, c), spans[c := Span(|sent|, None)];
      assert Chans() == before[c := Chan([], 0)];
    }

    /** The first call removes the client, closes its channel and tells the others; any further
        call, and a call for a stranger, changes nothing. */
    method Unregister(c: Client) returns (ghost m: Message)
      requires Valid()
      modifies this, c, SetOf(clients, c.tenant)
      ensures Valid() && !Registered(c)
      ensures old(Registered(c)) ==> c in old(spans) && View() == Depart(old(View()), c, m)
      ensures old(Registered(c)) ==> Lists(m, SetOf(Removed(old(clients), c), c.tenant))
      ensures !old(Registered(c)) ==> unchanged(this) && unchanged(c) && View() == old(View())
    {
      m := Presence([]);
      if Registered(c) {
        m := Remove(c);
      }
    }

    // The table updates of a removal.
    method Strike(c: Client)
      requires ClientsValid() && c in spans && !c.closed
      modifies this`clients, this`presence, this`spans, c`closed, c`closes
      ensures ClientsValid() && c in old(spans) && View() == Expel(old(View()), c)
    {
      hide Removed, Discounted, Chans, ClientsValid;
      CloseChannel(c);
      TakeOut(c);
      SetSpan(c, Span(spans[c].from, Some(|sent|)));
    }

    method CloseChannel(c: Client)
      requires ClientsValid() && c in spans && !c.closed
      modifies c`closed, c`closes
      ensures ClientsValid() && c in old(Chans()) && c.closes == old(c.closes) + 1
      ensures Chans() == old(Chans())[c := Chan(old(Chans())[c].events, old(Chans())[c].closes + 1)]
    {
      c.Close();
    }

    method TakeOut(c: Client)
      requires ClientsValid()
      modifies this`clients, this`presence
      ensures ClientsValid() && clients == Removed(old(clients), c) && presence == Discounted(old(presence), c)
      ensures Chans() == old(Chans())
    {
      hide Removed, Discounted;
      clients, presence := Removed(clients, c), Discounted(presence, c);
    }

    ghost method SetSpan(c: Client, span: Span)
      requires ClientsValid() && c in spans
      modifies this`spans
      ensures ClientsValid() && spans == old(spans)[c := span] && Chans() == old(Chans())
    {
      spans := spans[c := span];
      assert spans.Keys == old(spans).Keys;
    }

    // A tenant without clients loses its entry.
    method DropIfEmpty(tenant: int)
      modifies this`clients
      ensures View() == old(View()).(clients := Prune(old(clients), tenant))
      ensures ClientsValid() == old(ClientsValid())
    {
      clients := Prune(clients, tenant);
    }

    method Remove(c: Client) returns (ghost m: Message)
      requires Valid() && Registered(c)
      modifies this, c, SetOf(clients, c.tenant)
      ensures Valid() && !Registered(c) && c in old(spans)
      ensures View() == Depart(old(View()), c, m) && Lists(m, SetOf(Removed(old(clients), c), c.tenant))
    {
      hide Agree, AllTold, ChansOk, Filed, Removed, Discounted, Lists, In, Prune, Chans, Depart, Expel, Deliver,
          SetOf;
      ghost var before := View();
      LeaverIsOpen(before, c);
      OpenChannel(this, c);
      Struck(before, c);
      Strike(c);
      m := BroadcastPresenceLocked(c.tenant);
      DepartParts(before, c, m);
      DropIfEmpty(c.tenant);
    }
  }

  lemma ReceiversAreOpen(t: Tables, tenant: int)
    requires Filed(t.clients, t.chans.Keys) && ChansOk(t)
    ensures forall c :: c in SetOf(t.clients, tenant) ==> c in t.chans && t.chans[c].closes == 0
  {
    hide Offered;
    forall c | c in SetOf(t.clients, tenant)
      ensures c in t.chans && t.chans[c].closes == 0
    {
      assert c in t.chans && ChanOk(t, c);
    }
  }

  lemma UsersAreListed(clients: ClientSets, presence: Counters, tenant: int, users: seq<int>)
    requires Agree(clients, presence) && forall u :: u in users <==> u in CountersOf(presence, tenant)
    requires forall i, j :: 0 <= i < j < |users| ==> users[i] != users[j]
    ensures Lists(Presence(users), SetOf(clients, tenant))
  {
    hide Counts, NoZeros;
    forall u
      ensures u in users <==> exists c :: c in SetOf(clients, tenant) && c.user == u
    {
      PresentMeansConnected(CountersOf(presence, tenant), SetOf(clients, tenant), u);
    }
  }

  lemma LeaverIsOpen(t: Tables, c: Client)
    requires Inv(t) && In(t.clients, c)
    ensures c in t.chans && c in t.spans && t.chans[c].closes == 0
  {
    LeaverIsKnown(t, c);
    assert ChanOk(t, c);
  }

  lemma KnownHasChannel(hub: Hub, c: Client)
    ensures c in hub.View().chans <==> c in hub.spans
  {
  }

  lemma OpenChannel(hub: Hub, c: Client)
    requires hub.Valid() && hub.Registered(c)
    ensures c in hub.spans && !c.closed
  {
    LeaverIsOpen(hub.View(), c);
  }

  lemma Struck(t: Tables, c: Client)
    requires Inv(t) && In(t.clients, c) && c in t.chans && c in t.spans
    ensures var out := Expel(t, c);
            && Agree(out.clients, out.presence) && Filed(out.clients, out.chans.Keys) && ChansOk(out)
            && out.clients == Removed(t.clients, c)
            && SetOf(out.clients, c.tenant) <= SetOf(t.clients, c.tenant)
  {
    hide Agree, Filed, ChansOk, Removed, Discounted, In;
    InvParts(t);
    RemoveKeepsTables(t.clients, t.presence, t.chans.Keys, c);
    ExpelKeepsChans(t, c);
    JustRemoved(t, c);
    assert Expel(t, c).chans.Keys == t.chans.Keys;
  }

  lemma DepartParts(t: Tables, c: Client, m: Message)
    requires Inv(t) && AllTold(t) && In(t.clients, c) && c in t.chans && c in t.spans
    ensures var told, after := Deliver(Expel(t, c), c.tenant, m), Depart(t, c, m);
            && after == told.(clients := Prune(told.clients, c.tenant))
            && Inv(after) && AllTold(after) && !In(after.clients, c)
  {
    hide Inv, Agree, Filed, ChansOk, AllTold, Discounted, Prune, OfferTo;
    DepartKeepsTold(t, c, m);
    DepartKeepsInv(t, c, m);
    JustRemoved(t, c);
  }

  lemma InvMeans(t: Tables)
    requires Inv(t)
    ensures Agree(t.clients, t.presence) && Filed(t.clients, t.chans.Keys) && ChansOk(t)
  {
  }

  lemma JustAdded(t: Tables, c: Client)
    ensures SetOf(Added(t.clients, c), c.tenant) == SetOf(t.clients, c.tenant) + {c}
  {
  }

  lemma JustRemoved(t: Tables, c: Client)
    ensures SetOf(Removed(t.clients, c), c.tenant) == SetOf(t.clients, c.tenant) - {c}
  {
  }

  // The clients a hub may touch are those that ever registered.
  lemma KnownClients(hub: Hub)
    requires hub.Valid()
    ensures forall t :: SetOf(hub.clients, t) <= hub.spans.Keys
  {
    assert hub.View().chans.Keys == hub.spans.Keys;
  }

  lemma StaysIn(t: Tables, c: Client, other: Client, m: Message)
    requires Inv(t) && In(t.clients, c) && c != other
    ensures In(Added(t.clients, other), c)
    ensures In(t.clients, other) && other in t.chans && other in t.spans ==> In(Depart(t, other, m).clients, c)
  {
    hide Inv, Depart;
    if In(t.clients, other) && other in t.chans && other in t.spans {
      DepartKeepsInv(t, other, m);
    }
  }

  // One activity leaves the connection registered.
  method Act(hub: Hub, c: Client, joined: seq<Client>, a: Activity) returns (more: seq<Client>)
    requires hub.Valid() && hub.Registered(c) && c in hub.spans
    requires MeansKnown(a, hub.spans.Keys - {c}) && forall d :: d in joined ==> d in hub.spans && d != c
    modifies hub, hub.spans.Keys
    ensures hub.Valid() && hub.Registered(c) && c in hub.spans
    ensures forall d :: d in old(hub.spans) ==> d in hub.spans
    ensures forall d :: d in hub.spans ==> d in old(hub.spans) || fresh(d)
    ensures !ComesOrGoes(a) ==> hub.clients == old(hub.clients)
    ensures forall d :: d in more ==> d in hub.spans && d != c
    ensures joined <= more && (|more| == |joined| + if a.Joining? then 1 else 0)
  {
    hide Inv, AllTold, Agree, OfferTo, Prune, In, Added, Removed;
    ghost var before := hub.View();
    KnownClients(hub);
    more := joined;
    match a
    case Delivery =>
      var received := hub.Drain(c);
    case Typing(json) =>
      hub.Broadcast(c.tenant, json);
    case Joining(tenant, user) =>
      var other := new Client(tenant, user);
      ghost var m := hub.Register(other);
      StaysIn(before, c, other, m);
      more := joined + [other];
    case Leaving(other) =>
      var d := Meant(other, joined);
      if d.Some? {
        ghost var m := hub.Unregister(d.value);
        StaysIn(before, c, d.value, m);
      }
    case Elsewhere(tenant, json) =>
      hub.Broadcast(tenant, json);
    case Reading(other) =>
      var d := Meant(other, joined);
      if d.Some? {
        var received := hub.Drain(d.value);
      }
  }

  method ActAll(hub: Hub, c: Client, activities: seq<Activity>)
    requires hub.Valid() && hub.Registered(c) && c in hub.spans
    requires forall a :: a in activities ==> MeansKnown(a, hub.spans.Keys - {c})
    modifies hub, hub.spans.Keys
    ensures hub.Valid() && hub.Registered(c) && c in hub.spans
    ensures forall d :: d in hub.spans ==> d in old(hub.spans) || fresh(d)
    ensures (forall a :: a in activities ==> !ComesOrGoes(a)) ==> hub.clients == old(hub.clients)
  {
    hide Inv, AllTold, Agree, In, OfferTo;
    ghost var known := hub.spans.Keys;
    var joined := [];
    for i := 0 to |activities|
      invariant hub.Valid() && hub.Registered(c) && c in hub.spans
      invariant forall d :: d in known ==> d in hub.spans
      invariant forall d :: d in hub.spans ==> d in known || fresh(d)
      invariant forall d :: d in joined ==> d in hub.spans && d != c
      invariant (forall a :: a in activities[..i] ==> !ComesOrGoes(a)) ==> hub.clients == old(hub.clients)
    {
      assert activities[i] in activities && activities[..i + 1] == activities[..i] + [activities[i]];
      joined := Act(hub, c, joined, activities[i]);
    }
    assert activities[..|activities|] == activities;
  }

  // Both pumps unregister the client.
  method BothPumpsEnd(hub: Hub, c: Client)
    requires hub.Valid() && hub.Registered(c)
    modifies hub, hub.spans.Keys
    ensures hub.Valid() && c in hub.spans && c.closed && c.closes == 1 && !hub.Registered(c)
    ensures c in old(hub.View()).chans && c in old(hub.View()).spans
    ensures exists m :: hub.View() == Depart(old(hub.View()), c, m)
  {
    hide Inv, AllTold, Agree, Filed, Lists, Depart, Removed, In;
    Ends(hub, c);
    KnownClients(hub);
    ghost var m := hub.Unregister(c);
    KnownClients(hub);
    ghost var n := hub.Unregister(c);
    assert hub.View() == Depart(old(hub.View()), c, m);
  }

  /** The life of a connection: the client registers once, whatever its pumps and the other connections
      do then, and when they end both its pumps unregister it.  Its channel is closed exactly once, and
      unless others came or went the hub knows the same clients as before. */
  method ServeWS(hub: Hub, tenant: int, user: int, activities: seq<Activity>) returns (c: Client)
    requires hub.Valid()
    requires forall a :: a in activities ==> MeansKnown(a, hub.spans.Keys)
    modifies hub, hub.spans.Keys
    ensures hub.Valid() && fresh(c) && c.tenant == tenant && c.user == user
    ensures c in hub.spans && c.closed && c.closes == 1 && !hub.Registered(c)
    ensures (forall a :: a in activities ==> !ComesOrGoes(a)) ==>
      forall t :: SetOf(hub.clients, t) == old(SetOf(hub.clients, t))
  {
    hide Inv, AllTold, Agree, OfferTo, Prune, Filed, Lists, Depart, Removed;
    KnownClients(hub);
    ghost var before := hub.View();
    c := new Client(tenant, user);
    ghost var m := hub.Register(c);
    JustAdded(before, c);
    ActAll(hub, c, activities);
    ghost var during := hub.View();
    if forall a :: a in activities ==> !ComesOrGoes(a) {
      GoneAgain(before.clients, during, c);
    }
    BothPumpsEnd(hub, c);
  }

  // Removing a registered client closes its channel for the first time.
  lemma Ends(hub: Hub, c: Client)
    requires hub.Valid() && hub.Registered(c)
    ensures var t := hub.View();
            && c in t.chans && c in t.spans
            && forall m :: Depart(t, c, m).spans.Keys == t.spans.Keys &&
                 c in Depart(t, c, m).chans && Depart(t, c, m).chans[c].closes == 1
  {
    hide Inv, Depart;
    var t := hub.View();
    LeaverIsOpen(t, c);
    forall m
      ensures Depart(t, c, m).spans.Keys == t.spans.Keys
      ensures c in Depart(t, c, m).chans && Depart(t, c, m).chans[c].closes == 1
    {
      ClosedOnce(t, c, m);
    }
  }

  lemma GoneAgain(clients: ClientSets, t: Tables, c: Client)
    requires Inv(t) && t.clients == Added(clients, c) && c !in SetOf(clients, c.tenant)
    ensures In(t.clients, c) && c in t.chans && c in t.spans
    ensures forall m, tenant :: SetOf(Depart(t, c, m).clients, tenant) == SetOf(clients, tenant)
    ensures forall m :: c in Depart(t, c, m).chans && Depart(t, c, m).chans[c].closes == 1
  {
    hide Inv, Depart, Removed;
    JustAdded(t.(clients := clients), c);
    LeaverIsOpen(t, c);
    AddedRemoved(clients, c);
    forall m
      ensures forall tenant :: SetOf(Depart(t, c, m).clients, tenant) == SetOf(clients, tenant)
      ensures c in Depart(t, c, m).chans && Depart(t, c, m).chans[c].closes == 1
    {
      DepartKeepsInv(t, c, m);
      ClosedOnce(t, c, m);
    }
  }

  lemma AddedRemoved(clients: ClientSets, c: Client)
    requires c !in SetOf(clients, c.tenant)
    ensures forall tenant :: SetOf(Removed(Added(clients, c), c), tenant) == SetOf(clients, tenant)
  {
    assert SetOf(clients, c.tenant) + {c} - {c} == SetOf(clients, c.tenant);
  }

  lemma ClosedOnce(t: Tables, c: Client, m: Message)
    requires c in t.chans && c in t.spans
    ensures c in Depart(t, c, m).chans && Depart(t, c, m).chans[c].closes == t.chans[c].closes + 1
    ensures Depart(t, c, m).spans.Keys == t.spans.Keys
  {
    hide Removed, Discounted, Prune;
  }
}
