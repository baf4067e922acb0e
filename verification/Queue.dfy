/** The analysis queue and its workers as a machine (queue.go).

    Redis lists live under string keys; LPUSH adds at the front and RPOP takes from the back.  The
    machine interleaves producers, the workers' single pops and analyses, and failing pops. */
module Queue {
  import opened Wrappers
  import Keys

  datatype Message = Message(tenant: int, message: int, content: string, feature: string)

  // The feature an event handler's announcement bears, and the one of a batch request.
  const ANNOUNCED := "analysis"
  const REQUESTED := "analyze"

  /** A payload with its position among everything its tenant ever enqueued, which tells equal
      payloads apart. */
  datatype Entry = Entry(ticket: nat, message: Message)

  // What a tenant's worker is doing: popping a batch one by one, or working it off.
  datatype Activity = Popping(items: seq<Entry>) | Working(items: seq<Entry>)

  const BATCH: nat := 100

  /** `lists` is Redis; `log`, `analysed` and `lost` remember per tenant what was enqueued, what
      was handed to the analysis, and what a failed pop threw away. */
  datatype State = State(
    lists: map<string, seq<Entry>>, workers: map<int, Activity>,
    log: map<int, seq<Entry>>, analysed: map<int, seq<Entry>>, lost: map<int, seq<Entry>>)

  datatype Step =
    | EnsureTenant(tenant: int)
    | Enqueue(message: Message)
    | Pop(tenant: int)
    | PopFails(tenant: int, taken: bool)  // `taken`: the server removed the element, but the reply was lost
    | Analyse(tenant: int)

  const INIT := State(map[], map[], map[], map[], map[])

  function At<K>(m: map<K, seq<Entry>>, k: K): seq<Entry> {
    if k in m then m[k] else []
  }

  function ListOf(s: State, tenant: int): seq<Entry> { At(s.lists, Keys.QueueKey(tenant)) }

  function InFlight(s: State, tenant: int): seq<Entry> {
    if tenant in s.workers then s.workers[tenant].items else []
  }

  function Next(s: State, step: Step): State {
    match step
    case EnsureTenant(t) =>
      if t in s.workers then s else s.(workers := s.workers[t := Popping([])])
    case Enqueue(m) =>
      var t := m.tenant;
      var e := Entry(|At(s.log, t)|, m);
      s.(lists := s.lists[Keys.QueueKey(t) := [e] + ListOf(s, t)], log := s.log[t := At(s.log, t) + [e]])
    case Pop(t) =>
      if t !in s.workers || s.workers[t].Working? then s
      else
        var items, list := s.workers[t].items, ListOf(s, t);
        if list == [] then (if items == [] then s else s.(workers := s.workers[t := Working(items)]))
        else
          var more := items + [list[|list| - 1]];
          s.(lists := s.lists[Keys.QueueKey(t) := list[..|list| - 1]],
             workers := s.workers[t := if |more| >= BATCH then Working(more) else Popping(more)])
    case PopFails(t, taken) =>
      if t !in s.workers || s.workers[t].Working? then s
      else
        var items, list := s.workers[t].items, ListOf(s, t);
        var s' := s.(workers := s.workers[t := Popping([])]);
        if taken && list != [] then
          s'.(lists := s.lists[Keys.QueueKey(t) := list[..|list| - 1]],
              lost := s.lost[t := At(s.lost, t) + items + [list[|list| - 1]]])
        else s'.(lost := s.lost[t := At(s.lost, t) + items])
    case Analyse(t) =>
      if t !in s.workers || s.workers[t].Popping? || s.workers[t].items == [] then s
      else
        var items := s.workers[t].items;
        s.(workers := s.workers[t := if |items| == 1 then Popping([]) else Working(items[1..])],
           analysed := s.analysed[t := At(s.analysed, t) + [items[0]]])
  }

  function After(run: seq<Step>, n: nat): State
    requires n <= |run|
  {
    if n == 0 then INIT else Next(After(run, n - 1), run[n - 1])
  }

  lemma {:induction false} AfterStep(run: seq<Step>, n: nat)
    requires n <= |run|
    ensures n == 0 ==> After(run, n) == INIT
    ensures n > 0 ==> After(run, n) == Next(After(run, n - 1), run[n - 1])
  {
  }

  // ---------- Conservation ----------

  function Reverse(s: seq<Entry>): (r: seq<Entry>)
    ensures |r| == |s| && forall i :: 0 <= i < |s| ==> r[i] == s[|s| - 1 - i]
  {
    seq(|s|, i requires 0 <= i < |s| => s[|s| - 1 - i])
  }

  // Entries of the log, in log order, all before position `bound`.
  ghost predicate Picked(entries: seq<Entry>, log: seq<Entry>, bound: int) {
    && (forall i :: 0 <= i < |entries| ==>
          0 <= entries[i].ticket < bound <= |log| && entries[i] == log[entries[i].ticket])
    && (forall i, j :: 0 <= i < j < |entries| ==> entries[i].ticket < entries[j].ticket)
  }

  // The bookkeeping of one tenant.
  datatype Books = Books(log: seq<Entry>, list: seq<Entry>, flight: seq<Entry>, analysed: seq<Entry>,
      lost: seq<Entry>)

  function BooksOf(s: State, t: int): Books {
    Books(At(s.log, t), ListOf(s, t), InFlight(s, t), At(s.analysed, t), At(s.lost, t))
  }

  // How many entries of the log have been popped, and how many have met their fate.
  function Popped(b: Books): int { |b.log| - |b.list| }

  function Settled(b: Books): int { Popped(b) - |b.flight| }

  ghost predicate Balanced(b: Books, t: int) {
    && 0 <= Settled(b)
    && (forall i :: 0 <= i < |b.log| ==> b.log[i].ticket == i && b.log[i].message.tenant == t)
    && b.list == Reverse(b.log[Popped(b)..])
    && b.flight == b.log[Settled(b)..Popped(b)]
    && Picked(b.analysed, b.log, Settled(b))
    && Picked(b.lost, b.log, Settled(b))
    && (forall k :: 0 <= k < Settled(b) ==> (b.log[k] in b.analysed <==> b.log[k] !in b.lost))
    && (b.lost == [] ==> b.analysed == b.log[..Settled(b)])
  }

  lemma EnqueueBalances(b: Books, t: int, m: Message)
    requires Balanced(b, t) && m.tenant == t
    ensures Balanced(b.(log := b.log + [Entry(|b.log|, m)], list := [Entry(|b.log|, m)] + b.list), t)
  {
  }

  lemma PopBalances(b: Books, t: int)
    requires Balanced(b, t) && b.list != []
    ensures Balanced(b.(list := b.list[..|b.list| - 1], flight := b.flight + [b.list[|b.list| - 1]]), t)
  {
    var p := Popped(b);
    assert b.list[|b.list| - 1] == b.log[p];
    assert b.log[Settled(b)..p + 1] == b.log[Settled(b)..p] + [b.log[p]];
  }

  lemma LoseBalances(b: Books, t: int)
    requires Balanced(b, t)
    ensures Balanced(b.(flight := [], lost := b.lost + b.flight), t)
  {
    var b' := b.(flight := [], lost := b.lost + b.flight);
    forall k | 0 <= k < Settled(b')
      ensures b.log[k] in b'.analysed <==> b.log[k] !in b'.lost
    {
      if k >= Settled(b) {
        assert b.flight[k - Settled(b)] == b.log[k];
      } else {
        assert b.log[k] !in b.flight by { EarlierNotInFlight(b, t, k); }
      }
    }
    assert Picked(b'.lost, b.log, Settled(b')) by { LostStaysPicked(b, t); }
  }

  lemma EarlierNotInFlight(b: Books, t: int, k: int)
    requires Balanced(b, t) && 0 <= k < Settled(b)
    ensures b.log[k] !in b.flight
  {
  }

  lemma LostStaysPicked(b: Books, t: int)
    requires Balanced(b, t)
    ensures Picked(b.lost + b.flight, b.log, Popped(b))
  {
    assert forall i :: 0 <= i < |b.flight| ==> b.flight[i] == b.log[Settled(b) + i];
  }

  lemma AnalyseBalances(b: Books, t: int)
    requires Balanced(b, t) && b.flight != []
    ensures Balanced(b.(flight := b.flight[1..], analysed := b.analysed + [b.flight[0]]), t)
  {
    var b' := b.(flight := b.flight[1..], analysed := b.analysed + [b.flight[0]]);
    var k := Settled(b);
    assert b.flight[0] == b.log[k];
    assert b.log[..k + 1] == b.log[..k] + [b.log[k]];
    assert b.log[k] in b'.analysed;
    hide Reverse;
  }

  // A step changes the books of its own tenant only.
  lemma OtherTenants(s: State, step: Step, t: int)
    requires t != (if step.Enqueue? then step.message.tenant else step.tenant)
    ensures BooksOf(Next(s, step), t) == BooksOf(s, t)
  {
    var u := if step.Enqueue? then step.message.tenant else step.tenant;
    if Keys.QueueKey(u) == Keys.QueueKey(t) {
      Keys.QueueKeyInjective(u, t);
    }
    hide Keys.QueueKey;
  }

  // What a step of the tenant does to its books.
  function NextBooks(b: Books, step: Step, popping: bool): Books {
    match step
    case EnsureTenant(_) => b
    case Enqueue(m) => b.(log := b.log + [Entry(|b.log|, m)], list := [Entry(|b.log|, m)] + b.list)
    case Pop(_) =>
      if !popping || b.list == [] then b
      else b.(list := b.list[..|b.list| - 1], flight := b.flight + [b.list[|b.list| - 1]])
    case PopFails(_, taken) =>
      if !popping then b
      else if taken && b.list != [] then
        b.(list := b.list[..|b.list| - 1], flight := [], lost := b.lost + (b.flight + [b.list[|b.list| - 1]]))
      else b.(flight := [], lost := b.lost + b.flight)
    case Analyse(_) =>
      if popping || b.flight == [] then b
      else b.(flight := b.flight[1..], analysed := b.analysed + [b.flight[0]])
  }

  lemma StepBooks(s: State, step: Step, t: int, popping: bool)
    requires t == if step.Enqueue? then step.message.tenant else step.tenant
    requires popping <==> t in s.workers && s.workers[t].Popping?
    ensures step.Enqueue? || step.EnsureTenant? || t in s.workers ==>
        BooksOf(Next(s, step), t) == NextBooks(BooksOf(s, t), step, popping)
    ensures !(step.Enqueue? || step.EnsureTenant? || t in s.workers) ==> Next(s, step) == s
  {
    hide Keys.QueueKey;
    if step.PopFails? && t in s.workers {
      var items, list := s.workers[t].items, ListOf(s, t);
      if list != [] {
        assert At(s.lost, t) + items + [list[|list| - 1]] == At(s.lost, t) + (items + [list[|list| - 1]]);
      }
    }
  }

  lemma NextBooksBalance(b: Books, step: Step, popping: bool, t: int)
    requires Balanced(b, t)
    requires step.Enqueue? ==> step.message.tenant == t
    ensures Balanced(NextBooks(b, step, popping), t)
  {
    hide Balanced;
    match step
    case EnsureTenant(_) =>
    case Enqueue(m) => EnqueueBalances(b, t, m);
    case Pop(_) =>
      if b.list != [] {
        PopBalances(b, t);
      }
    case PopFails(_, taken) =>
      LoseBalances(b, t);
      if taken && b.list != [] {
        PopBalances(b, t);
        LoseBalances(b.(list := b.list[..|b.list| - 1], flight := b.flight + [b.list[|b.list| - 1]]), t);
      }
    case Analyse(_) =>
      if b.flight != [] {
        AnalyseBalances(b, t);
      }
  }

  lemma NextBalances(s: State, step: Step, t: int)
    requires Balanced(BooksOf(s, t), t)
    ensures Balanced(BooksOf(Next(s, step), t), t)
  {
    hide Balanced, Next, BooksOf, NextBooks;
    if t != if step.Enqueue? then step.message.tenant else step.tenant {
      OtherTenants(s, step, t);
    } else {
      var popping := t in s.workers && s.workers[t].Popping?;
      StepBooks(s, step, t, popping);
      NextBooksBalance(BooksOf(s, t), step, popping, t);
    }
  }

  lemma NothingYet(t: int)
    ensures Balanced(BooksOf(INIT, t), t) && At(INIT.log, t) == [] && At(INIT.lost, t) == []
  {
  }

  lemma {:induction false} AlwaysBalanced(run: seq<Step>, n: nat, t: int)
    requires n <= |run|
    ensures Balanced(BooksOf(After(run, n), t), t)
  {
    hide After, Next, Balanced, BooksOf;
    AfterStep(run, n);
    if n == 0 {
      NothingYet(t);
    } else {
      AlwaysBalanced(run, n - 1, t);
      NextBalances(After(run, n - 1), run[n - 1], t);
    }
  }

  lemma FlightIsRecent(b: Books, t: int, k: int)
    requires Balanced(b, t) && 0 <= k < Popped(b)
    ensures b.log[k] in b.flight <==> k >= Settled(b)
  {
    if k >= Settled(b) {
      assert b.flight[k - Settled(b)] == b.log[k];
    }
  }

  // The fates of an entry exclude each other.
  ghost predicate OneFate(b: Books, e: Entry) {
    && (e in b.analysed || e in b.flight || e in b.lost)
    && !(e in b.analysed && e in b.flight) && !(e in b.analysed && e in b.lost) && !(e in b.flight && e in b.lost)
  }

  lemma PoppedHasOneFate(b: Books, t: int, k: int)
    requires Balanced(b, t) && 0 <= k < Popped(b)
    ensures OneFate(b, b.log[k])
  {
    FlightIsRecent(b, t, k);
  }

  lemma FatesArePopped(b: Books, t: int, e: Entry)
    requires Balanced(b, t)
    requires e in b.analysed || e in b.flight || e in b.lost
    ensures e in b.log[..Popped(b)]
  {
    if e in b.flight {
      var i :| 0 <= i < |b.flight| && b.flight[i] == e;
      assert e == b.log[Settled(b) + i];
    }
    assert b.log[..Popped(b)][e.ticket] == b.log[e.ticket];
  }

  ghost predicate TicketsGrow(entries: seq<Entry>) {
    forall i, j :: 0 <= i < j < |entries| ==> entries[i].ticket < entries[j].ticket
  }

  lemma AnalysedInOrder(b: Books, t: int)
    requires Balanced(b, t)
    ensures TicketsGrow(b.analysed + b.flight)
  {
    assert forall i :: 0 <= i < |b.flight| ==> b.flight[i].ticket == Settled(b) + i;
  }

  lemma LogSplits(b: Books, t: int)
    requires Balanced(b, t)
    ensures 0 <= Popped(b) <= |b.log| && b.log == b.log[..Popped(b)] + Reverse(b.list)
  {
    assert Reverse(b.list) == b.log[Popped(b)..];
  }

  /** Conservation: what a tenant enqueued is, in order, what was popped followed by what is still
      queued; every popped entry is exactly one of analysed, in flight, or lost; no entry is
      analysed twice; and entries are analysed in the order they were enqueued. */
  lemma {:induction false} Conservation(run: seq<Step>, n: nat, t: int)
    requires n <= |run|
    ensures var b := BooksOf(After(run, n), t);
            && 0 <= Popped(b) <= |b.log|
            && b.log == b.log[..Popped(b)] + Reverse(b.list)
            && (forall k :: 0 <= k < Popped(b) ==> OneFate(b, b.log[k]))
            && (forall e :: e in b.analysed || e in b.flight || e in b.lost ==> e in b.log[..Popped(b)])
            && TicketsGrow(b.analysed + b.flight)
  {
    AlwaysBalanced(run, n, t);
    hide After, BooksOf, Balanced, OneFate, TicketsGrow, Reverse;
    var b := BooksOf(After(run, n), t);
    LogSplits(b, t);
    AnalysedInOrder(b, t);
    forall k | 0 <= k < Popped(b) {
      PoppedHasOneFate(b, t, k);
    }
    forall e | e in b.analysed || e in b.flight || e in b.lost {
      FatesArePopped(b, t, e);
    }
  }

  lemma {:induction false} NothingLost(run: seq<Step>, n: nat, t: int)
    requires n <= |run|
    requires forall i :: 0 <= i < n ==> !(run[i].PopFails? && run[i].tenant == t)
    ensures At(After(run, n).lost, t) == []
  {
    if n > 0 {
      NothingLost(run, n - 1, t);
    }
  }

  /** Without failing pops the analysed entries are a prefix of the enqueued ones, followed by the
      batch in flight and the queue. */
  lemma {:induction false} FifoWithoutFailures(run: seq<Step>, n: nat, t: int)
    requires n <= |run|
    requires forall i :: 0 <= i < n ==> !(run[i].PopFails? && run[i].tenant == t)
    ensures var b := BooksOf(After(run, n), t);
            b.log == b.analysed + b.flight + Reverse(b.list)
  {
    AlwaysBalanced(run, n, t);
    NothingLost(run, n, t);
    var b := BooksOf(After(run, n), t);
    hide After, BooksOf;
    NothingLostSplits(b, t);
  }

  lemma NothingLostSplits(b: Books, t: int)
    requires Balanced(b, t) && b.lost == []
    ensures b.log == b.analysed + b.flight + Reverse(b.list)
  {
    assert b.log == b.log[..Settled(b)] + b.log[Settled(b)..Popped(b)] + b.log[Popped(b)..];
    assert Reverse(b.list) == b.log[Popped(b)..];
  }

  function EnqueuedBy(run: seq<Step>, n: nat, t: int): seq<Message>
    requires n <= |run|
  {
    if n == 0 then []
    else
      EnqueuedBy(run, n - 1, t) +
      if run[n - 1].Enqueue? && run[n - 1].message.tenant == t then [run[n - 1].message] else []
  }

  lemma LogStep(s: State, step: Step, t: int)
    ensures At(Next(s, step).log, t) ==
              if step.Enqueue? && step.message.tenant == t then At(s.log, t) + [Entry(|At(s.log, t)|, step.message)]
                  else At(s.log, t)
  {
    hide Keys.QueueKey;
  }

  predicate BatchFits(w: Activity) {
    match w
    case Popping(items) => |items| < BATCH
    case Working(items) => 0 < |items| <= BATCH
  }

  lemma BatchStep(s: State, step: Step, t: int)
    requires t in s.workers ==> BatchFits(s.workers[t])
    ensures t in Next(s, step).workers ==> BatchFits(Next(s, step).workers[t])
  {
    hide Keys.QueueKey;
  }

  /** The log of a tenant is what the run enqueued for it, in order. */
  lemma {:induction false} LogRecordsEnqueues(run: seq<Step>, n: nat, t: int)
    requires n <= |run|
    ensures var log := At(After(run, n).log, t);
            |log| == |EnqueuedBy(run, n, t)| && forall i :: 0 <= i < |log| ==>
                log[i].message == EnqueuedBy(run, n, t)[i]
  {
    hide After, Next, At;
    AfterStep(run, n);
    if n == 0 {
      NothingYet(t);
    } else {
      LogRecordsEnqueues(run, n - 1, t);
      LogStep(After(run, n - 1), run[n - 1], t);
    }
  }

  /** A batch never holds more than 100 entries, and one being worked off is never empty. */
  lemma {:induction false} BatchBounded(run: seq<Step>, n: nat, t: int)
    requires n <= |run|
    ensures t in After(run, n).workers ==> BatchFits(After(run, n).workers[t])
  {
    hide After, Next;
    AfterStep(run, n);
    if n > 0 {
      BatchBounded(run, n - 1, t);
      BatchStep(After(run, n - 1), run[n - 1], t);
      hide Next;
    }
  }
}
