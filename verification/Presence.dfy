/** The tables of the realtime hub (realtime/hub.go): client sets, presence counters, and the log of
    what was broadcast. */
module Presence {
  import opened Channel

  /** A broadcast: the tenant it is addressed to and the message. */
  datatype Sent = Sent(tenant: int, message: Message)

  // The messages addressed to a tenant among sent[a..b].
  function Addressed(sent: seq<Sent>, tenant: int, a: nat, b: nat): seq<Message>
    requires a <= b <= |sent|
    decreases b
  {
    if a == b then []
    else Addressed(sent, tenant, a, b - 1) + if sent[b - 1].tenant == tenant then [sent[b - 1].message] else []
  }

  lemma {:induction false} AddressedEarlier(sent: seq<Sent>, more: seq<Sent>, tenant: int, a: nat, b: nat)
    requires a <= b <= |sent|
    ensures Addressed(sent + more, tenant, a, b) == Addressed(sent, tenant, a, b)
    decreases b
  {
    if a < b {
      AddressedEarlier(sent, more, tenant, a, b - 1);
    }
  }

  lemma AddressedNext(sent: seq<Sent>, s: Sent, tenant: int, a: nat)
    requires a <= |sent|
    ensures Addressed(sent + [s], tenant, a, |sent| + 1) ==
              Addressed(sent, tenant, a, |sent|) + if s.tenant == tenant then [s.message] else []
  {
    AddressedEarlier(sent, [s], tenant, a, |sent|);
  }

  // ---------- Presence ----------

  function ClientsOfUser(clients: set<Client>, user: int): set<Client> {
    set c | c in clients && c.user == user
  }

  function CountUser(clients: set<Client>, user: int): nat {
    |ClientsOfUser(clients, user)|
  }

  // The counters of a tenant are the numbers of its clients, without zero entries.
  ghost predicate Counts(presence: map<int, int>, clients: set<Client>) {
    forall u :: CountUser(clients, u) == if u in presence then presence[u] else 0
  }

  ghost predicate NoZeros(presence: map<int, int>) {
    forall u :: u in presence ==> presence[u] > 0
  }

  function Joined(presence: map<int, int>, user: int): map<int, int> {
    presence[user := (if user in presence then presence[user] else 0) + 1]
  }

  function Left(presence: map<int, int>, user: int): map<int, int> {
    if user !in presence then presence
    else if presence[user] <= 1 then presence - {user}
    else presence[user := presence[user] - 1]
  }

  lemma CountWith(clients: set<Client>, c: Client, user: int)
    requires c !in clients
    ensures CountUser(clients + {c}, user) == CountUser(clients, user) + if c.user == user then 1 else 0
  {
    var before := ClientsOfUser(clients, user);
    assert ClientsOfUser(clients + {c}, user) == if c.user == user then before + {c} else before;
  }

  lemma JoinedCounts(presence: map<int, int>, clients: set<Client>, c: Client)
    requires c !in clients && Counts(presence, clients) && NoZeros(presence)
    ensures Counts(Joined(presence, c.user), clients + {c}) && NoZeros(Joined(presence, c.user))
  {
    hide CountUser;
    forall u {
      CountWith(clients, c, u);
    }
  }

  lemma LeftCounts(presence: map<int, int>, clients: set<Client>, c: Client)
    requires c in clients && Counts(presence, clients) && NoZeros(presence)
    ensures Counts(Left(presence, c.user), clients - {c}) && NoZeros(Left(presence, c.user))
  {
    hide CountUser;
    assert clients - {c} + {c} == clients;
    forall u {
      CountWith(clients - {c}, c, u);
    }
  }

  /** The users with a counter are exactly the connected users. */
  lemma PresentMeansConnected(presence: map<int, int>, clients: set<Client>, user: int)
    requires Counts(presence, clients) && NoZeros(presence)
    ensures user in presence <==> exists c :: c in clients && c.user == user
  {
    var mine := ClientsOfUser(clients, user);
    assert CountUser(clients, user) == |mine|;
    if c :| c in clients && c.user == user {
      assert c in mine;
    } else {
      assert mine == {};
    }
  }

  /** Registering a client twice would break the agreement: its set does not change, its counter does. */
  lemma SecondRegisterBreaksCounts(presence: map<int, int>, clients: set<Client>, c: Client)
    requires Counts(presence, clients)
    ensures Counts(Joined(presence, c.user), clients + {c}) <==> c !in clients
  {
    if c in clients {
      assert clients + {c} == clients;
      assert CountUser(clients, c.user) == if c.user in presence then presence[c.user] else 0;
    } else {
      hide CountUser;
      forall u {
        CountWith(clients, c, u);
      }
    }
  }

  // ---------- The tables ----------

  type ClientSets = map<int, set<Client>>

  type Counters = map<int, map<int, int>>

  function SetOf(clients: ClientSets, tenant: int): set<Client> {
    if tenant in clients then clients[tenant] else {}
  }

  function CountersOf(presence: Counters, tenant: int): map<int, int> {
    if tenant in presence then presence[tenant] else map[]
  }

  predicate In(clients: ClientSets, c: Client) { c in SetOf(clients, c.tenant) }

  // presence[t][u] is the number of registered clients of tenant t and user u, and absent if that is zero.
  ghost predicate Agree(clients: ClientSets, presence: Counters) {
    forall t :: Counts(CountersOf(presence, t), SetOf(clients, t)) && NoZeros(CountersOf(presence, t))
  }

  ghost predicate Filed(clients: ClientSets, known: set<Client>) {
    forall t, c :: t in clients && c in clients[t] ==> c.tenant == t && c in known
  }

  function Added(clients: ClientSets, c: Client): ClientSets { clients[c.tenant := SetOf(clients, c.tenant) + {c}] }

  function Removed(clients: ClientSets, c: Client): ClientSets { clients[c.tenant := SetOf(clients, c.tenant) - {c}] }

  function Counted(presence: Counters, c: Client): Counters {
    presence[c.tenant := Joined(CountersOf(presence, c.tenant), c.user)]
  }

  function Discounted(presence: Counters, c: Client): Counters {
    presence[c.tenant := Left(CountersOf(presence, c.tenant), c.user)]
  }

  lemma AddKeepsTables(clients: ClientSets, presence: Counters, known: set<Client>, c: Client)
    requires Agree(clients, presence) && Filed(clients, known) && c !in known
    ensures Agree(Added(clients, c), Counted(presence, c)) && Filed(Added(clients, c), known + {c})
    ensures forall d :: In(Added(clients, c), d) <==> In(clients, d) || d == c
  {
    hide Counts, NoZeros, Joined;
    JoinedCounts(CountersOf(presence, c.tenant), SetOf(clients, c.tenant), c);
    forall t
      ensures Counts(CountersOf(Counted(presence, c), t), SetOf(Added(clients, c), t)) &&
          NoZeros(CountersOf(Counted(presence, c), t))
    {
      assert t != c.tenant ==>
        && CountersOf(Counted(presence, c), t) == CountersOf(presence, t)
        && SetOf(Added(clients, c), t) == SetOf(clients, t);
    }
  }

  lemma RemoveKeepsTables(clients: ClientSets, presence: Counters, known: set<Client>, c: Client)
    requires Agree(clients, presence) && Filed(clients, known) && In(clients, c)
    ensures Agree(Removed(clients, c), Discounted(presence, c)) && Filed(Removed(clients, c), known)
    ensures forall d :: In(Removed(clients, c), d) <==> In(clients, d) && d != c
  {
    hide Counts, NoZeros, Left;
    LeftCounts(CountersOf(presence, c.tenant), SetOf(clients, c.tenant), c);
    forall t
      ensures Counts(CountersOf(Discounted(presence, c), t), SetOf(Removed(clients, c), t)) &&
          NoZeros(CountersOf(Discounted(presence, c), t))
    {
      assert t != c.tenant ==>
        && CountersOf(Discounted(presence, c), t) == CountersOf(presence, t)
        && SetOf(Removed(clients, c), t) == SetOf(clients, t);
    }
  }

  lemma DropEmptyKeepsTables(clients: ClientSets, presence: Counters, known: set<Client>, tenant: int)
    requires Agree(clients, presence) && Filed(clients, known) && SetOf(clients, tenant) == {}
    ensures Agree(clients - {tenant}, presence) && Filed(clients - {tenant}, known)
    ensures forall t :: SetOf(clients - {tenant}, t) == SetOf(clients, t)
  {
    hide Counts, NoZeros;
    assert forall t :: SetOf(clients - {tenant}, t) == SetOf(clients, t);
    forall t
      ensures Counts(CountersOf(presence, t), SetOf(clients - {tenant}, t)) && NoZeros(CountersOf(presence, t))
    {
      assert Counts(CountersOf(presence, t), SetOf(clients, t));
    }
  }

  // The message lists the users of these clients, each once.
  ghost predicate Lists(m: Message, clients: set<Client>) {
    && m.Presence?
    && (forall u :: u in m.users <==> exists c :: c in clients && c.user == u)
    && (forall i, j :: 0 <= i < j < |m.users| ==> m.users[i] != m.users[j])
  }

  lemma HasMember(s: set<int>)
    requires s != {}
    ensures exists u :: u in s
  {
    assert (forall u :: u !in s) ==> s == {};
  }

  // The keys of a presence table, in some order.
  method Enumerate(keys: set<int>) returns (users: seq<int>)
    ensures forall u :: u in users <==> u in keys
    ensures forall i, j :: 0 <= i < j < |users| ==> users[i] != users[j]
  {
    var todo := keys;
    users := [];
    while todo != {}
      invariant todo <= keys
      invariant forall u :: u in users <==> u in keys && u !in todo
      invariant forall i, j :: 0 <= i < j < |users| ==> users[i] != users[j]
      decreases todo
    {
      HasMember(todo);
      var u :| u in todo;
      assert forall i :: 0 <= i < |users| ==> users[i] in users && users[i] != u;
      users := users + [u];
      todo := todo - {u};
    }
  }
}
