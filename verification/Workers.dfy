/** The Redis queue, the worker and the scheduler as objects (queue.go, worker_scheduler.go), and what
    they do as runs of the machine in Queue. */
module Workers {
  import opened Wrappers
  import opened Queue
  import Keys

  // Redis holds the messages; the tickets exist in the machine only.
  function Payloads(entries: seq<Entry>): (messages: seq<Message>)
    ensures |messages| == |entries| && forall i :: 0 <= i < |entries| ==> messages[i] == entries[i].message
  {
    seq(|entries|, i requires 0 <= i < |entries| => entries[i].message)
  }

  function ContentsOf(lists: map<string, seq<Message>>, tenant: int): seq<Message> {
    if Keys.QueueKey(tenant) in lists then lists[Keys.QueueKey(tenant)] else []
  }

  // The lists are those of the machine's state.
  ghost predicate Shows(lists: map<string, seq<Message>>, s: State) {
    forall t :: ContentsOf(lists, t) == Payloads(ListOf(s, t))
  }

  // The n oldest elements of a list, oldest first.
  function Oldest<T>(list: seq<T>, n: nat): (items: seq<T>)
    requires n <= |list|
    ensures |items| == n && forall i :: 0 <= i < n ==> items[i] == list[|list| - 1 - i]
  {
    seq(n, i requires 0 <= i < n => list[|list| - 1 - i])
  }

  function Play(s: State, steps: seq<Step>): State {
    if steps == [] then s else Next(Play(s, steps[..|steps| - 1]), steps[|steps| - 1])
  }

  function Repeat(step: Step, n: nat): seq<Step> { seq(n, _ => step) }

  lemma PlayOneMore(s: State, step: Step, n: nat)
    ensures Play(s, Repeat(step, 0)) == s
    ensures Play(s, Repeat(step, n + 1)) == Next(Play(s, Repeat(step, n)), step)
  {
    assert Repeat(step, n + 1)[..n] == Repeat(step, n);
  }

  lemma {:induction false} PlayComposes(s: State, first: seq<Step>, second: seq<Step>)
    ensures Play(s, first + second) == Play(Play(s, first), second)
  {
    hide Next;
    if second == [] {
      assert first + second == first;
    } else {
      var front := second[..|second| - 1];
      PlayComposes(s, first, front);
      assert (first + second)[..|first + second| - 1] == first + front;
    }
  }

  // Everything outside the tenant's list, worker and fates is as before.
  ghost predicate OthersStay(s: State, after: State, t: int) {
    && (forall u :: u != t ==> ListOf(after, u) == ListOf(s, u))
    && after.workers.Keys == s.workers.Keys && (forall u :: u in s.workers && u != t ==>
        after.workers[u] == s.workers[u])
    && after.log == s.log
  }

  lemma StepStays(s: State, step: Step, t: int)
    requires step in [Pop(t), PopFails(t, true), PopFails(t, false), Analyse(t)]
    ensures OthersStay(s, Next(s, step), t)
  {
    hide Next, ListOf;
    WorkersStay(s, step, t);
    forall u | u != t
      ensures ListOf(Next(s, step), u) == ListOf(s, u)
    {
      OtherTenants(s, step, u);
    }
  }

  lemma WorkersStay(s: State, step: Step, t: int)
    requires step in [Pop(t), PopFails(t, true), PopFails(t, false), Analyse(t)]
    ensures var after := Next(s, step);
            && after.workers.Keys == s.workers.Keys && after.log == s.log
            && forall u :: u in s.workers && u != t ==> after.workers[u] == s.workers[u]
  {
    hide Keys.QueueKey, ListOf, Next;
    WorkerStep(s, step, t);
  }

  lemma WorkerStep(s: State, step: Step, t: int)
    requires step.Pop? || step.PopFails? || step.Analyse?
    requires step.tenant == t
    ensures Next(s, step).log == s.log
    ensures var workers := Next(s, step).workers;
            workers == s.workers || (t in s.workers && t in workers && workers == s.workers[t := workers[t]])
  {
    hide Keys.QueueKey, ListOf;
  }

  // A worker about to fetch its next batch.
  predicate Ready(s: State, t: int) { t in s.workers && s.workers[t] == Popping([]) }

  // How many elements a batch takes before it is full, the list is empty, or a pop fails.
  function BatchLength(batchSize: nat, length: nat, failAt: Option<nat>): (n: nat)
    ensures n <= length && n <= batchSize
  {
    var full := if batchSize < length then batchSize else length;
    if failAt.Some? && failAt.value < full then failAt.value else full
  }

  predicate BatchFails(batchSize: nat, length: nat, failAt: Option<nat>) {
    failAt.Some? && failAt.value < batchSize && failAt.value <= length
  }

  // How many elements a batch leaves the list without.
  function Gone(batchSize: nat, length: nat, failAt: Option<nat>, taken: bool): (n: nat)
    ensures n <= length
  {
    var n := BatchLength(batchSize, length, failAt);
    if BatchFails(batchSize, length, failAt) && taken && n < length then n + 1 else n
  }

  // The pops of one batch.
  function BatchSteps(t: int, length: nat, failAt: Option<nat>, taken: bool): seq<Step> {
    var n := BatchLength(BATCH, length, failAt);
    Repeat(Pop(t), n) +
    if BatchFails(BATCH, length, failAt) then [PopFails(t, taken)] else if n < BATCH then [Pop(t)] else []
  }

  lemma PopStep(s: State, t: int)
    requires t in s.workers && s.workers[t].Popping?
    ensures var s', items, list := Next(s, Pop(t)), s.workers[t].items, ListOf(s, t);
            && s'.analysed == s.analysed && s'.lost == s.lost
            && if list == [] then
                 ListOf(s', t) == [] && s'.workers == s.workers[t := if items == [] then Popping([])
                     else Working(items)]
               else
                 && ListOf(s', t) == list[..|list| - 1]
                 && var more := items + [list[|list| - 1]];
                    s'.workers == s.workers[t := if |more| >= BATCH then Working(more) else Popping(more)]
  {
    hide Keys.QueueKey;
  }

  lemma {:induction false} PopsTakeOldest(s: State, t: int, n: nat)
    requires Ready(s, t) && n <= |ListOf(s, t)| && n <= BATCH
    ensures var s', list := Play(s, Repeat(Pop(t), n)), ListOf(s, t);
            && OthersStay(s, s', t) && s'.analysed == s.analysed && s'.lost == s.lost
            && ListOf(s', t) == list[..|list| - n]
            && s'.workers[t] == if n >= BATCH then Working(Oldest(list, n)) else Popping(Oldest(list, n))
  {
    hide Next, Repeat, ListOf, Play;
    var list := ListOf(s, t);
    PlayOneMore(s, Pop(t), n);
    if n == 0 {
      assert Oldest(list, 0) == [];
    } else {
      PopsTakeOldest(s, t, n - 1);
      PlayOneMore(s, Pop(t), n - 1);
      var s1 := Play(s, Repeat(Pop(t), n - 1));
      PopStep(s1, t);
      StepStays(s1, Pop(t), t);
      assert Oldest(list, n) == Oldest(list, n - 1) + [list[|list| - n]];
    }
  }

  // How a batch ends: with items to work off, with nothing, or with a loss.
  ghost predicate BatchEnds(s: State, s': State, t: int, failAt: Option<nat>, taken: bool) {
    var list := ListOf(s, t);
    var n, failed := BatchLength(BATCH, |list|, failAt), BatchFails(BATCH, |list|, failAt);
    var gone := Gone(BATCH, |list|, failAt, taken);
    && OthersStay(s, s', t) && s'.analysed == s.analysed
    && ListOf(s', t) == list[..|list| - gone]
    && t in s'.workers
    && s'.workers[t] == (if failed || n == 0 then Popping([]) else Working(Oldest(list, n)))
    && At(s'.lost, t) == At(s.lost, t) + if failed then Oldest(list, gone) else []
  }

  lemma PopFailsStep(s: State, t: int, taken: bool)
    requires t in s.workers && s.workers[t].Popping?
    ensures var s', items, list := Next(s, PopFails(t, taken)), s.workers[t].items, ListOf(s, t);
            && s'.analysed == s.analysed && s'.workers == s.workers[t := Popping([])]
            && if taken && list != [] then
                 ListOf(s', t) == list[..|list| - 1] && At(s'.lost, t) == At(s.lost, t) + (items + [list[|list| - 1]])
               else
                 ListOf(s', t) == list && At(s'.lost, t) == At(s.lost, t) + items
  {
    hide Keys.QueueKey;
    var items, list := s.workers[t].items, ListOf(s, t);
    assert list != [] ==> At(s.lost, t) + items + [list[|list| - 1]] == At(s.lost, t) + (items + [list[|list| - 1]]);
  }

  lemma StaysTransitive(s: State, s1: State, s2: State, t: int)
    requires OthersStay(s, s1, t) && OthersStay(s1, s2, t)
    ensures OthersStay(s, s2, t)
  {
  }

  lemma OldestMore(list: seq<Entry>, n: nat)
    requires n < |list|
    ensures Oldest(list, n + 1) == Oldest(list, n) + [list[|list| - n - 1]]
    ensures list[..|list| - n][|list| - n - 1] == list[|list| - n - 1]
    ensures list[..|list| - n][..|list| - n - 1] == list[..|list| - (n + 1)]
  {
  }

  // After n pops: the pop that fails, the pop that finds the list empty, or none.
  lemma FailingEnd(s: State, s1: State, t: int, n: nat, taken: bool)
    requires Ready(s, t) && n <= |ListOf(s, t)| && n < BATCH
    requires OthersStay(s, s1, t) && s1.analysed == s.analysed && s1.lost == s.lost
    requires ListOf(s1, t) == ListOf(s, t)[..|ListOf(s, t)| - n] && s1.workers[t] == Popping(Oldest(ListOf(s, t), n))
    ensures BatchEnds(s, Next(s1, PopFails(t, taken)), t, Some(n), taken)
  {
    hide Next, ListOf, OthersStay, Oldest;
    KeysStay(s, s1, t);
    PopFailsStep(s1, t, taken);
    StepStays(s1, PopFails(t, taken), t);
    StaysTransitive(s, s1, Next(s1, PopFails(t, taken)), t);
    if n < |ListOf(s, t)| {
      OldestMore(ListOf(s, t), n);
    }
  }

  lemma KeysStay(s: State, after: State, t: int)
    requires OthersStay(s, after, t)
    ensures after.workers.Keys == s.workers.Keys
  {
  }

  /** The pops of one batch, played without interruption, end in one of three ways. */
  lemma BatchIsRun(s: State, t: int, failAt: Option<nat>, taken: bool)
    requires Ready(s, t)
    ensures BatchEnds(s, Play(s, BatchSteps(t, |ListOf(s, t)|, failAt, taken)), t, failAt, taken)
  {
    hide Next, Repeat, ListOf, Play, OthersStay, Oldest;
    var list := ListOf(s, t);
    var n := BatchLength(BATCH, |list|, failAt);
    var s1 := Play(s, Repeat(Pop(t), n));
    PopsTakeOldest(s, t, n);
    KeysStay(s, s1, t);
    if BatchFails(BATCH, |list|, failAt) {
      PlayLast(s, Repeat(Pop(t), n), PopFails(t, taken));
      FailingEnd(s, s1, t, n, taken);
    } else if n < BATCH {
      PlayLast(s, Repeat(Pop(t), n), Pop(t));
      PopStep(s1, t);
      StepStays(s1, Pop(t), t);
      StaysTransitive(s, s1, Next(s1, Pop(t)), t);
    } else {
      assert Repeat(Pop(t), n) + [] == Repeat(Pop(t), n);
    }
  }

  lemma {:induction false} PlayLast(s: State, steps: seq<Step>, step: Step)
    ensures Play(s, steps + [step]) == Next(Play(s, steps), step)
  {
    assert (steps + [step])[..|steps|] == steps;
  }

  lemma {:induction false} AnalysesWorkOff(s: State, t: int)
    requires t in s.workers && s.workers[t].Working? && s.workers[t].items != []
    ensures var items := s.workers[t].items;
            var s' := Play(s, Repeat(Analyse(t), |items|));
            && OthersStay(s, s', t) && Ready(s', t) && s'.lost == s.lost
            && ListOf(s', t) == ListOf(s, t)
            && At(s'.analysed, t) == At(s.analysed, t) + items
    decreases |s.workers[t].items|
  {
    hide Repeat, ListOf, Next, Play;
    var items := s.workers[t].items;
    var s1 := Next(s, Analyse(t));
    StepStays(s, Analyse(t), t);
    AnalyseStep(s, t);
    PlayOneMore(s, Analyse(t), 0);
    if |items| > 1 {
      AnalysesWorkOff(s1, t);
      RepeatSplits(Analyse(t), |items|);
      PlayComposes(s, Repeat(Analyse(t), 1), Repeat(Analyse(t), |items| - 1));
    }
    assert [items[0]] + items[1..] == items;
    assert At(s.analysed, t) + [items[0]] + items[1..] == At(s.analysed, t) + items;
  }

  lemma AnalyseStep(s: State, t: int)
    requires t in s.workers && s.workers[t].Working? && s.workers[t].items != []
    ensures var s', items := Next(s, Analyse(t)), s.workers[t].items;
            && ListOf(s', t) == ListOf(s, t) && s'.lost == s.lost
            && s'.workers == s.workers[t := if |items| == 1 then Popping([]) else Working(items[1..])]
            && At(s'.analysed, t) == At(s.analysed, t) + [items[0]]
  {
  }

  lemma RepeatSplits(step: Step, n: nat)
    requires n > 0
    ensures Repeat(step, n) == Repeat(step, 1) + Repeat(step, n - 1)
  {
  }

  class RedisQueue {
    var lists: map<string, seq<Message>>

    constructor ()
      ensures lists == map[]
    {
      lists := map[];
    }

    function Contents(tenant: int): seq<Message>
      reads this
    {
      ContentsOf(lists, tenant)
    }

    method Push(message: Message)
      modifies this
      ensures Contents(message.tenant) == [message] + old(Contents(message.tenant))
      ensures forall t :: t != message.tenant ==> ContentsOf(lists, t) == ContentsOf(old(lists), t)
      ensures forall s :: Shows(old(lists), s) ==> Shows(lists, Next(s, Enqueue(message)))
    {
      ghost var before := lists;
      lists := lists[Keys.QueueKey(message.tenant) := [message] + Contents(message.tenant)];
      forall t | t != message.tenant
        ensures ContentsOf(lists, t) == ContentsOf(before, t)
      {
        if Keys.QueueKey(t) == Keys.QueueKey(message.tenant) {
          Keys.QueueKeyInjective(t, message.tenant);
        }
      }
      forall s | Shows(before, s)
        ensures Shows(lists, Next(s, Enqueue(message)))
      {
        PushShows(before, lists, message, s);
      }
    }

    method RPop(tenant: int) returns (item: Option<Message>)
      modifies this
      ensures var list := old(Contents(tenant));
              if list == [] then item == None && Contents(tenant) == []
              else item == Some(list[|list| - 1]) && Contents(tenant) == list[..|list| - 1]
      ensures forall t :: t != tenant ==> ContentsOf(lists, t) == ContentsOf(old(lists), t)
    {
      var list := Contents(tenant);
      if list == [] {
        return None;
      }
      lists := lists[Keys.QueueKey(tenant) := list[..|list| - 1]];
      forall t | t != tenant
        ensures ContentsOf(lists, t) == ContentsOf(old(lists), t)
      {
        if Keys.QueueKey(t) == Keys.QueueKey(tenant) {
          Keys.QueueKeyInjective(t, tenant);
        }
      }
      return Some(list[|list| - 1]);
    }

    /** Pops up to batchSize elements, oldest first.  `failAt` is the pop that fails, if any, and
        `taken` whether Redis had removed its element before the reply was lost.  The items of a
        failed batch are returned with the error, and are gone from the list. */
    method DequeueBatch(tenant: int, batchSize: nat, failAt: Option<nat>, taken: bool)
        returns (items: seq<Message>, failed: bool)
      modifies this
      ensures var list := old(Contents(tenant));
              var n := BatchLength(batchSize, |list|, failAt);
              && failed == BatchFails(batchSize, |list|, failAt)
              && items == Oldest(list, n)
              && Contents(tenant) == list[..|list| - Gone(batchSize, |list|, failAt, taken)]
      ensures forall t :: t != tenant ==> ContentsOf(lists, t) == ContentsOf(old(lists), t)
    {
      items := [];
      ghost var list := Contents(tenant);
      hide Keys.QueueKey, ContentsOf;
      for i := 0 to batchSize
        invariant i <= |list|
        invariant items == Oldest(list, i) && Contents(tenant) == list[..|list| - i]
        invariant failAt.Some? ==> failAt.value >= i
        invariant forall t :: t != tenant ==> ContentsOf(lists, t) == ContentsOf(old(lists), t)
      {
        if failAt == Some(i) {
          if taken {
            var lost := RPop(tenant);
          }
          return items, true;
        }
        var item := RPop(tenant);
        if item == None {
          return items, false;
        }
        items := items + [item.value];
      }
      return items, false;
    }
  }

  lemma PushShows(before: map<string, seq<Message>>, after: map<string, seq<Message>>, m: Message, s: State)
    requires Shows(before, s)
    requires ContentsOf(after, m.tenant) == [m] + ContentsOf(before, m.tenant)
    requires forall t :: t != m.tenant ==> ContentsOf(after, t) == ContentsOf(before, t)
    ensures Shows(after, Next(s, Enqueue(m)))
  {
    var s' := Next(s, Enqueue(m));
    assert ListOf(s', m.tenant) == [Entry(|At(s.log, m.tenant)|, m)] + ListOf(s, m.tenant);
    forall t
      ensures ContentsOf(after, t) == Payloads(ListOf(s', t))
    {
      if t != m.tenant {
        OtherTenants(s, Enqueue(m), t);
      }
      assert ContentsOf(before, t) == Payloads(ListOf(s, t));
    }
  }

  // One round of a worker: a batch, and an analysis of each of its items if it did not fail.
  function RoundSteps(t: int, length: nat, failAt: Option<nat>, taken: bool): seq<Step> {
    BatchSteps(t, length, failAt, taken) +
    if BatchFails(BATCH, length, failAt) then [] else Repeat(Analyse(t), BatchLength(BATCH, length, failAt))
  }

  lemma RoundIsRun(s: State, t: int, failAt: Option<nat>, taken: bool)
    requires Ready(s, t)
    ensures var list := ListOf(s, t);
            var n, failed := BatchLength(BATCH, |list|, failAt), BatchFails(BATCH, |list|, failAt);
            var s' := Play(s, RoundSteps(t, |list|, failAt, taken));
            && OthersStay(s, s', t) && Ready(s', t)
            && ListOf(s', t) == list[..|list| - Gone(BATCH, |list|, failAt, taken)]
            && At(s'.analysed, t) == At(s.analysed, t) + (if failed then [] else Oldest(list, n))
            && (failAt == None ==> !failed && n == if |list| < 100 then |list| else 100)
  {
    hide Next, Repeat, ListOf, Play, BatchSteps, OthersStay, Gone, Oldest, BatchLength, BatchFails, At;
    var length := |ListOf(s, t)|;
    WholeBatch(length);
    var n, failed := BatchLength(BATCH, length, failAt), BatchFails(BATCH, length, failAt);
    var steps := BatchSteps(t, length, failAt, taken);
    var s1 := Play(s, steps);
    BatchIsRun(s, t, failAt, taken);
    PlayComposes(s, steps, if failed then [] else Repeat(Analyse(t), n));
    PlayOneMore(s1, Analyse(t), 0);
    PlayNothing(s1, Analyse(t));
    assert Oldest(ListOf(s, t), 0) == [] && At(s.analysed, t) + [] == At(s.analysed, t);
    if !failed && n > 0 {
      AnalysesWorkOff(s1, t);
      StaysTransitive(s, s1, Play(s1, Repeat(Analyse(t), n)), t);
    }
  }

  lemma WholeBatch(length: nat)
    ensures BatchLength(BATCH, length, None) == (if length < 100 then length else 100)
    ensures !BatchFails(BATCH, length, None)
  {
  }

  lemma PlayNothing(s: State, step: Step)
    ensures Play(s, []) == s && Repeat(step, 0) == []
  {
  }

  lemma FewerShow(before: map<string, seq<Message>>, after: map<string, seq<Message>>, s: State, s': State, t: int,
      gone: nat)
    requires Shows(before, s) && OthersStay(s, s', t) && gone <= |ListOf(s, t)|
    requires ListOf(s', t) == ListOf(s, t)[..|ListOf(s, t)| - gone]
    requires ContentsOf(after, t) == ContentsOf(before, t)[..|ContentsOf(before, t)| - gone]
    requires forall u :: u != t ==> ContentsOf(after, u) == ContentsOf(before, u)
    ensures Shows(after, s')
  {
    hide ListOf, ContentsOf;
    forall u
      ensures ContentsOf(after, u) == Payloads(ListOf(s', u))
    {
      assert ContentsOf(before, u) == Payloads(ListOf(s, u)) && ContentsOf(before, t) == Payloads(ListOf(s, t));
    }
  }

  class Worker {
    const queue: RedisQueue
    const tenant: int
    // What was handed to the analysis, oldest first.
    var analysed: seq<Message>

    constructor (queue: RedisQueue, tenant: int)
      ensures this.queue == queue && this.tenant == tenant && analysed == []
    {
      this.queue, this.tenant, analysed := queue, tenant, [];
    }

    method AnalyseAll(items: seq<Message>)
      modifies this
      ensures analysed == old(analysed) + items
    {
      for i := 0 to |items|
        invariant analysed == old(analysed) + items[..i]
      {
        assert items[..i + 1] == items[..i] + [items[i]];
        analysed := analysed + [items[i]];
      }
      assert items[..|items|] == items;
    }

    /** One turn of Start's loop that nothing comes between is a run of the machine. */
    method Round(failAt: Option<nat>, taken: bool, ghost s: State) returns (ghost s': State)
      requires Shows(queue.lists, s) && Ready(s, tenant) && analysed == Payloads(At(s.analysed, tenant))
      modifies this, queue
      ensures s' == Play(s, RoundSteps(tenant, |ListOf(s, tenant)|, failAt, taken))
      ensures Shows(queue.lists, s') && Ready(s', tenant) && analysed == Payloads(At(s'.analysed, tenant))
    {
      hide Play, RoundSteps, ListOf, Next, ContentsOf, OthersStay, Oldest, At, Shows, Payloads, BatchLength,
          BatchFails, Gone;
      RoundIsRun(s, tenant, failAt, taken);
      s' := Play(s, RoundSteps(tenant, |ListOf(s, tenant)|, failAt, taken));
      ShownLength(queue.lists, s, tenant);
      var items, failed := queue.DequeueBatch(tenant, BATCH, failAt, taken);
      FewerShow(old(queue.lists), queue.lists, s, s', tenant, Gone(BATCH, |ListOf(s, tenant)|, failAt, taken));
      OldestPayloads(At(s.analysed, tenant), ListOf(s, tenant), BatchLength(BATCH, |ListOf(s, tenant)|, failAt));
      if failed || items == [] {
        return;
      }
      AnalyseAll(items);
    }
  }

  lemma ShownLength(lists: map<string, seq<Message>>, s: State, t: int)
    requires Shows(lists, s)
    ensures ContentsOf(lists, t) == Payloads(ListOf(s, t)) && |ContentsOf(lists, t)| == |ListOf(s, t)|
  {
  }

  lemma OldestPayloads(done: seq<Entry>, list: seq<Entry>, n: nat)
    requires n <= |list|
    ensures Payloads(done + Oldest(list, n)) == Payloads(done) + Oldest(Payloads(list), n)
    ensures done + [] == done
  {
  }

  class WorkerScheduler {
    var workers: set<int>
    // Every worker ever started, by tenant.
    ghost var started: multiset<int>

    ghost predicate Valid()
      reads this
    {
      forall t :: started[t] == if t in workers then 1 else 0
    }

    constructor ()
      ensures Valid() && workers == {}
    {
      workers, started := {}, multiset{};
    }

    /** A tenant gets a worker once, however often it is asked for. */
    method EnsureTenant(tenant: int)
      requires Valid()
      modifies this
      ensures Valid() && workers == old(workers) + {tenant} && started[tenant] == 1
      ensures forall t :: t != tenant ==> started[t] == old(started[t])
      ensures forall s: State :: s.workers.Keys == old(workers) ==>
          Next(s, Step.EnsureTenant(tenant)).workers.Keys == workers
    {
      if tenant in workers {
        return;
      }
      workers := workers + {tenant};
      started := started + multiset{tenant};
    }
  }

  // ---------- The batch request ----------

  /** One message of a batch request, under an id of the caller's choice; `works` is whether its push does. */
  datatype Request = Request(message: int, content: string, works: bool)

  // The pushes of a batch that work; an error of one is ignored.
  function Pushes(tenant: int, requests: seq<Request>): seq<Step> {
    if requests == [] then []
    else
      var last := requests[|requests| - 1];
      Pushes(tenant, requests[..|requests| - 1]) +
      if last.works then [Enqueue(Message(tenant, last.message, last.content, REQUESTED))] else []
  }

  function RequestSteps(tenant: int, requests: seq<Request>): seq<Step> {
    [Step.EnsureTenant(tenant)] + Pushes(tenant, requests)
  }

  lemma {:induction false} RequestPushes(tenant: int, requests: seq<Request>, n: nat)
    requires n < |requests|
    ensures RequestSteps(tenant, requests[..n + 1]) ==
              RequestSteps(tenant, requests[..n]) +
              if requests[n].works then [Enqueue(Message(tenant, requests[n].message, requests[n].content, REQUESTED))]
              else []
  {
    assert requests[..n + 1][..n] == requests[..n];
  }

  // The push of this message, as a request of the tenant.
  predicate IsPushOf(step: Step, tenant: int, r: Request) {
    && step.Enqueue? && step.message.tenant == tenant && step.message.message == r.message
    && step.message.content == r.content && step.message.feature == "analyze"
  }

  lemma PushesMore(tenant: int, requests: seq<Request>, n: nat)
    requires |requests| == n + 1
    ensures var before, pushes := Pushes(tenant, requests[..n]), Pushes(tenant, requests);
            && |pushes| == |before| + (if requests[n].works then 1 else 0) && before <= pushes
            && (requests[n].works ==> IsPushOf(pushes[|before|], tenant, requests[n]))
  {
  }

  /** The pushes of a batch are those of its messages that work, all of them, in order, as requests of the
      tenant. */
  lemma {:induction false} PushesInOrder(tenant: int, requests: seq<Request>) returns (places: seq<nat>)
    ensures |places| == |Pushes(tenant, requests)|
    ensures forall i :: 0 <= i < |places| ==>
              places[i] < |requests| && requests[places[i]].works &&
              IsPushOf(Pushes(tenant, requests)[i], tenant, requests[places[i]])
    ensures forall i, j :: 0 <= i < j < |places| ==> places[i] < places[j]
    ensures forall k :: 0 <= k < |requests| && requests[k].works ==> k in places
  {
    hide Pushes, IsPushOf;
    if requests == [] {
      places := [];
      assert Pushes(tenant, []) == [] by { NoPushes(tenant); }
    } else {
      var n := |requests| - 1;
      var before := PushesInOrder(tenant, requests[..n]);
      PushesMore(tenant, requests, n);
      places := before + if requests[n].works then [n] else [];
      assert forall k :: k in before ==> k in places;
      assert requests[n].works ==> places[|before|] == n;
    }
  }

  lemma NoPushes(tenant: int)
    ensures Pushes(tenant, []) == []
  {
  }

  lemma StartShows(lists: map<string, seq<Message>>, s: State, tenant: int)
    requires Shows(lists, s)
    ensures Play(s, RequestSteps(tenant, [])) == Next(s, Step.EnsureTenant(tenant))
    ensures Shows(lists, Next(s, Step.EnsureTenant(tenant)))
  {
    assert [Step.EnsureTenant(tenant)] + [] == [Step.EnsureTenant(tenant)];
    assert forall t :: ListOf(Next(s, Step.EnsureTenant(tenant)), t) == ListOf(s, t);
  }

  /** A batch of 1 to 100 messages is accepted, and nothing else changes anything: the tenant's worker is
      started, and then each message is pushed in turn.  Undisturbed, that is a run of the machine. */
  method BatchAnalyze(queue: RedisQueue, scheduler: WorkerScheduler, tenant: int, requests: seq<Request>,
      ghost s: State)
      returns (accepted: bool, ghost s': State)
    requires scheduler.Valid() && Shows(queue.lists, s) && s.workers.Keys == scheduler.workers
    modifies queue, scheduler
    ensures accepted <==> 0 < |requests| <= 100
    ensures !accepted ==> unchanged(queue) && unchanged(scheduler)
    ensures s' == if accepted then Play(s, RequestSteps(tenant, requests)) else s
    ensures scheduler.Valid() && Shows(queue.lists, s') && s'.workers.Keys == scheduler.workers
    ensures accepted ==> tenant in scheduler.workers
  {
    hide Play, Shows, RequestSteps, Next;
    s' := s;
    if requests == [] || |requests| > 100 {
      return false, s;
    }
    scheduler.EnsureTenant(tenant);
    StartShows(queue.lists, s, tenant);
    s' := Next(s, Step.EnsureTenant(tenant));
    assert requests[..0] == [];
    for i := 0 to |requests|
      invariant s' == Play(s, RequestSteps(tenant, requests[..i]))
      invariant Shows(queue.lists, s') && s'.workers.Keys == scheduler.workers
      invariant scheduler.Valid() && tenant in scheduler.workers
    {
      RequestPushes(tenant, requests, i);
      var m := Message(tenant, requests[i].message, requests[i].content, REQUESTED);
      if requests[i].works {
        queue.Push(m);
        PlayLast(s, RequestSteps(tenant, requests[..i]), Enqueue(m));
        EnqueueStartsNone(s', m);
        s' := Next(s', Enqueue(m));
      } else {
        assert RequestSteps(tenant, requests[..i]) + [] == RequestSteps(tenant, requests[..i]);
      }
    }
    assert requests[..|requests|] == requests;
    return true, s';
  }

  lemma EnqueueStartsNone(s: State, m: Message)
    ensures Next(s, Enqueue(m)).workers == s.workers
  {
  }
}
