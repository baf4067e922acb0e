/** From an incoming message to its stored analysis.  Two producers feed the queue: the event handler
    announces what it stored (whatsapp/sync.go), and the batch request enqueues whatever its caller names
    and starts the tenant's worker (handlers/llm.go).  The workers analyse and store what they pop
    (llm/queue.go, pipeline.go). */
module Pipeline {
  import opened Wrappers
  import opened Contract
  import Ingest
  import Analysis
  import Keys
  import Queue

  /** `unsent` holds the announcements of handlers that have stored a message and not yet enqueued it. */
  datatype State = State(tables: Analysis.State, unsent: map<nat, Queue.Message>, queue: Queue.State)

  /** `Table` is any database step of an event handler, a contact sync, a dashboard handler or an analysis
      by request; if it stores or finds the message of an event, handler g goes on to announce it.
      `Announce` is that enqueue, whose error is ignored.  `Start` and `Request` are the two parts of a
      batch request.  `Work` is a step of a worker; an analysis is stored by the step that makes it, if its
      update works. */
  datatype Step =
    | Table(g: nat, action: Analysis.Action)
    | Announce(g: nat, works: bool)
    | Start(tenant: int)
    | Request(tenant: int, id: int, content: string)
    | Work(step: Queue.Step, result: AnalysisResult, readWorks: bool, saves: bool)

  // What the handler of the step announces, if its message is in the table now.
  function Announcement(s: Analysis.State, a: Analysis.Action): Option<Queue.Message> {
    match a
    case Receive(e) =>
      var notice := Ingest.Handle(s.db, e).1;
      if notice == None then None
      else Some(Queue.Message(e.tenant, notice.value.message, notice.value.content, Queue.ANNOUNCED))
    case LookUp(g, e) =>
      var i := Ingest.FindWhatsApp(s.db.messages, e.tenant, e.info.id);
      if g !in s.pending && Analysis.LooksUp(s.db, e) && i < |s.db.messages|
      then Some(Queue.Message(e.tenant, s.db.messages[i].id, Ingest.Content(e), Queue.ANNOUNCED)) else None
    case Write(g) =>
      if g !in s.pending then None
      else
        var e := s.pending[g].event;
        Some(Queue.Message(e.tenant, s.db.nextMessage, Ingest.Content(e), Queue.ANNOUNCED))
    case _ => None
  }

  /** A delivery whose lookup and insert nothing comes between announces what one at one go announces: the
      message's id in the table and the content of the event. */
  lemma AnnouncesAsReceived(s: Analysis.State, g: nat, e: Ingest.Event)
    requires g !in s.pending
    ensures var m := Announcement(s, Analysis.Receive(e));
            if Announcement(s, Analysis.LookUp(g, e)).Some? then m == Announcement(s, Analysis.LookUp(g, e))
            else m == Announcement(Analysis.Next(s, Analysis.LookUp(g, e)), Analysis.Write(g))
    ensures var m, notice := Announcement(s, Analysis.Receive(e)), Ingest.Handle(s.db, e).1;
            && (m.Some? <==> notice.Some?)
            && (m.Some? ==>
                  && m.value.tenant == e.tenant && m.value.message == notice.value.message
                  && m.value.content == notice.value.content && m.value.feature == "analysis")
  {
    hide Ingest.NameFor, Ingest.Content, Ingest.Ignored, Ingest.InitialMetadata;
    hide Analysis.NextAnalyses, Analysis.NextOrigins;
  }

  // The message the step analyses, if it analyses one.
  function Analysed(s: State, step: Step): Option<Queue.Message> {
    if step.Work? && step.step.Analyse? && step.step.tenant in s.queue.workers &&
       s.queue.workers[step.step.tenant].Working? && s.queue.workers[step.step.tenant].items != []
    then Some(s.queue.workers[step.step.tenant].items[0].message) else None
  }

  // The step of the queue, if there is one: workers neither enqueue nor start each other.
  function QueueStep(s: State, step: Step): Option<Queue.Step> {
    match step
    case Table(_, _) => None
    case Announce(g, works) => if works && g in s.unsent then Some(Queue.Enqueue(s.unsent[g])) else None
    case Start(t) => Some(Queue.EnsureTenant(t))
    case Request(t, id, content) => Some(Queue.Enqueue(Queue.Message(t, id, content, Queue.REQUESTED)))
    case Work(q, _, _, _) => if q.Enqueue? || q.EnsureTenant? then None else Some(q)
  }

  // The step of the tables, if there is one.
  function TableStep(s: State, step: Step): Option<Analysis.Action> {
    match step
    case Table(g, action) => if g in s.unsent then None else Some(action)
    case Work(_, r, readWorks, saves) =>
      var m := Analysed(s, step);
      if m.Some? && saves then Some(Analysis.Analysed(m.value.tenant, m.value.message, r, readWorks)) else None
    case _ => None
  }

  function NextUnsent(s: State, step: Step): map<nat, Queue.Message> {
    match step
    case Table(g, action) =>
      var m := Announcement(s.tables, action);
      if g !in s.unsent && m.Some? then s.unsent[g := m.value] else s.unsent
    case Announce(g, _) => s.unsent - {g}
    case _ => s.unsent
  }

  function NextTables(s: State, step: Step): Analysis.State {
    var a := TableStep(s, step);
    if a.Some? then Analysis.Next(s.tables, a.value) else s.tables
  }

  function NextQueue(s: State, step: Step): Queue.State {
    var q := QueueStep(s, step);
    if q.Some? then Queue.Next(s.queue, q.value) else s.queue
  }

  function Next(s: State, step: Step): State {
    State(NextTables(s, step), NextUnsent(s, step), NextQueue(s, step))
  }

  const INIT := State(Analysis.INIT, map[], Queue.INIT)

  function After(run: seq<Step>, n: nat): State
    requires n <= |run|
  {
    if n == 0 then INIT else Next(After(run, n - 1), run[n - 1])
  }

  lemma {:induction false} AfterStep(run: seq<Step>, n: nat)
    requires n <= |run|
    ensures n == 0 ==> After(run, n) == INIT
    ensures n > 0 ==> After(run, n) == Next(After(run, n - 1), run[n - 1])
  {
  }

  // ---------- The queue's own run ----------

  function QueueRun(run: seq<Step>, n: nat): seq<Queue.Step>
    requires n <= |run|
  {
    if n == 0 then []
    else
      var q := QueueStep(After(run, n - 1), run[n - 1]);
      QueueRun(run, n - 1) + if q.Some? then [q.value] else []
  }

  lemma {:induction false} EarlierSteps(steps: seq<Queue.Step>, more: seq<Queue.Step>, n: nat)
    requires n <= |steps|
    ensures Queue.After(steps + more, n) == Queue.After(steps, n)
  {
    hide Queue.Next;
    if n > 0 {
      EarlierSteps(steps, more, n - 1);
    }
  }

  lemma {:induction false} QueueFollowsRun(run: seq<Step>, n: nat)
    requires n <= |run|
    ensures After(run, n).queue == Queue.After(QueueRun(run, n), |QueueRun(run, n)|)
  {
    hide After, QueueStep, Queue.Next, NextTables, NextUnsent;
    AfterStep(run, n);
    if n > 0 {
      QueueFollowsRun(run, n - 1);
      var q := QueueStep(After(run, n - 1), run[n - 1]);
      if q.Some? {
        EarlierSteps(QueueRun(run, n - 1), [q.value], |QueueRun(run, n - 1)|);
      } else {
        assert QueueRun(run, n) == QueueRun(run, n - 1);
      }
    }
  }

  // ---------- What both producers enqueued is what is analysed ----------

  // The message the step enqueues for a tenant, if it does.
  function EnqueuedFor(s: State, step: Step, t: int): Option<Queue.Message> {
    var q := QueueStep(s, step);
    if q.Some? && q.value.Enqueue? && q.value.message.tenant == t then Some(q.value.message) else None
  }

  function Listed(m: Option<Queue.Message>): seq<Queue.Message> { if m.Some? then [m.value] else [] }

  // Everything that was enqueued for a tenant, in order.
  function Enqueued(run: seq<Step>, n: nat, t: int): seq<Queue.Message>
    requires n <= |run|
  {
    if n == 0 then [] else Enqueued(run, n - 1, t) + Listed(EnqueuedFor(After(run, n - 1), run[n - 1], t))
  }

  // The message the step enqueues for a tenant as the event handler's announcement, or as named by a request.
  function AnnouncedBy(s: State, step: Step, t: int): Option<Queue.Message> {
    if step.Announce? && step.works && step.g in s.unsent && s.unsent[step.g].tenant == t
    then Some(s.unsent[step.g]) else None
  }

  function RequestedBy(step: Step, t: int): Option<Queue.Message> {
    if step.Request? && step.tenant == t then Some(Queue.Message(t, step.id, step.content, Queue.REQUESTED)) else None
  }

  // What the event handlers announced, and what batch requests named, each in order.
  function Announced(run: seq<Step>, n: nat, t: int): seq<Queue.Message>
    requires n <= |run|
  {
    if n == 0 then [] else Announced(run, n - 1, t) + Listed(AnnouncedBy(After(run, n - 1), run[n - 1], t))
  }

  function Requested(run: seq<Step>, n: nat, t: int): seq<Queue.Message>
    requires n <= |run|
  {
    if n == 0 then [] else Requested(run, n - 1, t) + Listed(RequestedBy(run[n - 1], t))
  }

  function WithFeature(messages: seq<Queue.Message>, feature: string): seq<Queue.Message> {
    if messages == [] then []
    else
      var last := messages[|messages| - 1];
      WithFeature(messages[..|messages| - 1], feature) + if last.feature == feature then [last] else []
  }

  lemma WithFeatureMore(messages: seq<Queue.Message>, m: Queue.Message, feature: string)
    ensures WithFeature(messages + [m], feature) ==
              WithFeature(messages, feature) + if m.feature == feature then [m] else []
  {
    assert (messages + [m])[..|messages|] == messages;
  }

  ghost predicate UnsentAnnounced(s: State) {
    forall g :: g in s.unsent ==> s.unsent[g].feature == Queue.ANNOUNCED
  }

  lemma {:induction false} AlwaysUnsentAnnounced(run: seq<Step>, n: nat)
    requires n <= |run|
    ensures UnsentAnnounced(After(run, n))
  {
    hide After, NextTables, NextQueue;
    AfterStep(run, n);
    if n > 0 {
      AlwaysUnsentAnnounced(run, n - 1);
      AnnouncementsAreMarked(After(run, n - 1).tables, run[n - 1]);
    }
  }

  lemma AnnouncementsAreMarked(s: Analysis.State, step: Step)
    ensures step.Table? && Announcement(s, step.action).Some? ==>
              Announcement(s, step.action).value.feature == Queue.ANNOUNCED
  {
    hide Ingest.Handle, Ingest.FindWhatsApp, Ingest.Content, Analysis.LooksUp;
  }

  lemma FeaturesDiffer()
    ensures Queue.ANNOUNCED != Queue.REQUESTED
  {
    assert Queue.ANNOUNCED[5] == 's' && Queue.REQUESTED[5] == 'z';
  }

  // A step enqueues as one of the two producers, and the feature says which.
  lemma OneProducer(s: State, step: Step, t: int)
    requires UnsentAnnounced(s)
    ensures var m, a, r := EnqueuedFor(s, step, t), AnnouncedBy(s, step, t), RequestedBy(step, t);
            && Queue.ANNOUNCED != Queue.REQUESTED
            && a == (if m.Some? && m.value.feature == Queue.ANNOUNCED then m else None)
            && r == (if m.Some? && m.value.feature == Queue.REQUESTED then m else None)
            && (m.Some? ==> m == a || m == r)
  {
    FeaturesDiffer();
  }

  /** What was enqueued for a tenant is the announcements of the event handlers and the messages of batch
      requests, merged: the feature tells them apart, and each kind is in its own order. */
  lemma {:induction false} TwoProducers(run: seq<Step>, n: nat, t: int)
    requires n <= |run|
    ensures WithFeature(Enqueued(run, n, t), Queue.ANNOUNCED) == Announced(run, n, t)
    ensures WithFeature(Enqueued(run, n, t), Queue.REQUESTED) == Requested(run, n, t)
    ensures |Enqueued(run, n, t)| == |Announced(run, n, t)| + |Requested(run, n, t)|
  {
    hide After, WithFeature, EnqueuedFor, AnnouncedBy, RequestedBy, UnsentAnnounced;
    if n == 0 {
      NoFeatures();
    } else {
      TwoProducers(run, n - 1, t);
      AlwaysUnsentAnnounced(run, n - 1);
      OneProducer(After(run, n - 1), run[n - 1], t);
      var m := EnqueuedFor(After(run, n - 1), run[n - 1], t);
      if m.Some? {
        WithFeatureMore(Enqueued(run, n - 1, t), m.value, Queue.ANNOUNCED);
        WithFeatureMore(Enqueued(run, n - 1, t), m.value, Queue.REQUESTED);
      } else {
        assert Enqueued(run, n, t) == Enqueued(run, n - 1, t);
      }
    }
  }

  lemma NoFeatures()
    ensures WithFeature([], Queue.ANNOUNCED) == [] && WithFeature([], Queue.REQUESTED) == []
  {
  }

  lemma {:induction false} EarlierEnqueues(steps: seq<Queue.Step>, more: seq<Queue.Step>, n: nat, t: int)
    requires n <= |steps|
    ensures Queue.EnqueuedBy(steps + more, n, t) == Queue.EnqueuedBy(steps, n, t)
  {
    if n > 0 {
      EarlierEnqueues(steps, more, n - 1, t);
    }
  }

  lemma {:induction false} EnqueuesMore(steps: seq<Queue.Step>, q: Queue.Step, t: int)
    ensures Queue.EnqueuedBy(steps + [q], |steps| + 1, t) ==
              Queue.EnqueuedBy(steps, |steps|, t) + if q.Enqueue? && q.message.tenant == t then [q.message] else []
  {
    EarlierEnqueues(steps, [q], |steps|, t);
  }

  lemma {:induction false} EnqueuedInQueueRun(run: seq<Step>, n: nat, t: int)
    requires n <= |run|
    ensures Queue.EnqueuedBy(QueueRun(run, n), |QueueRun(run, n)|, t) == Enqueued(run, n, t)
  {
    hide After, QueueStep, Queue.EnqueuedBy;
    if n == 0 {
      NoneEnqueued(t);
    } else {
      EnqueuedInQueueRun(run, n - 1, t);
      var q := QueueStep(After(run, n - 1), run[n - 1]);
      if q.Some? {
        EnqueuesMore(QueueRun(run, n - 1), q.value, t);
      } else {
        assert QueueRun(run, n) == QueueRun(run, n - 1);
      }
    }
  }

  lemma NoneEnqueued(t: int)
    ensures Queue.EnqueuedBy([], 0, t) == []
  {
  }

  /** What a handler announces is, when its enqueue works, the next entry of its tenant's queue; and so is what
      a batch request names. */
  lemma AnnouncedIsEnqueued(s: State, g: nat, a: Analysis.Action, t: int, id: int, content: string)
    requires g !in s.unsent && Announcement(s.tables, a).Some?
    ensures var m := Announcement(s.tables, a).value;
            var after := Next(Next(s, Table(g, a)), Announce(g, true));
            && Queue.At(after.queue.log, m.tenant) ==
                 Queue.At(s.queue.log, m.tenant) + [Queue.Entry(|Queue.At(s.queue.log, m.tenant)|, m)]
            && after.tables == Analysis.Next(s.tables, a) && after.unsent == s.unsent
    ensures var log := Queue.At(s.queue.log, t);
            Queue.At(Next(s, Request(t, id, content)).queue.log, t) ==
              log + [Queue.Entry(|log|, Queue.Message(t, id, content, "analyze"))]
  {
    hide Announcement, Analysis.Next, Queue.Next, Queue.At;
    var m := Announcement(s.tables, a).value;
    Queue.LogStep(s.queue, Queue.Enqueue(m), m.tenant);
    Queue.LogStep(s.queue, Queue.Enqueue(Queue.Message(t, id, content, Queue.REQUESTED)), t);
    assert s.unsent[g := m] - {g} == s.unsent;
  }

  predicate Fails(step: Step, t: int) { step.Work? && step.step.PopFails? && step.step.tenant == t }

  lemma {:induction false} NoFailures(run: seq<Step>, n: nat, t: int)
    requires n <= |run| && forall i :: 0 <= i < n ==> !Fails(run[i], t)
    ensures forall i :: 0 <= i < |QueueRun(run, n)| ==>
              !(QueueRun(run, n)[i].PopFails? && QueueRun(run, n)[i].tenant == t)
  {
    hide After;
    if n > 0 {
      NoFailures(run, n - 1, t);
    }
  }

  // The messages a tenant's worker has analysed.
  function AnalysedSoFar(s: State, t: int): seq<Queue.Entry> { Queue.At(s.queue.analysed, t) }

  /** With no failing pop, what a tenant's worker has analysed is, message by message, a prefix of what was
      enqueued for the tenant by both producers; the rest is in its batch or in the queue. */
  lemma {:induction false} AnalysedAsEnqueued(run: seq<Step>, n: nat, t: int)
    requires n <= |run| && forall i :: 0 <= i < n ==> !Fails(run[i], t)
    ensures var analysed, enqueued := AnalysedSoFar(After(run, n), t), Enqueued(run, n, t);
            && |analysed| <= |enqueued|
            && (forall i :: 0 <= i < |analysed| ==> analysed[i].message == enqueued[i])
            && var b := Queue.BooksOf(After(run, n).queue, t);
               |enqueued| == |analysed| + |b.flight| + |b.list|
  {
    hide After, QueueRun, Enqueued, Queue.After, Queue.EnqueuedBy;
    var steps := QueueRun(run, n);
    QueueFollowsRun(run, n);
    EnqueuedInQueueRun(run, n, t);
    NoFailures(run, n, t);
    Queue.FifoWithoutFailures(steps, |steps|, t);
    Queue.LogRecordsEnqueues(steps, |steps|, t);
  }

  // ---------- Workers start with a batch request ----------

  lemma WorkersStep(s: State, step: Step, t: int)
    ensures t in NextQueue(s, step).workers <==> t in s.queue.workers || step == Start(t)
  {
    hide Queue.Next;
    if QueueStep(s, step).Some? {
      WorkersStart(s.queue, QueueStep(s, step).value, t);
    }
  }

  lemma WorkersStart(s: Queue.State, step: Queue.Step, t: int)
    ensures t in Queue.Next(s, step).workers <==> t in s.workers || step == Queue.EnsureTenant(t)
  {
    hide Queue.ListOf, Queue.At, Keys.QueueKey;
    match step
    case EnsureTenant(_) =>
    case Enqueue(_) =>
    case Pop(_) =>
    case PopFails(_, _) =>
    case Analyse(_) =>
  }

  lemma AnalysedGrows(s: State, step: Step, t: int)
    ensures var after := NextQueue(s, step);
            Queue.At(after.analysed, t) ==
              if Analysed(s, step).Some? && step.step.tenant == t
              then Queue.At(s.queue.analysed, t) + [s.queue.workers[t].items[0]]
              else Queue.At(s.queue.analysed, t)
  {
    hide Queue.ListOf, Queue.At, Queue.Next;
    if QueueStep(s, step).Some? {
      AnalysedStep(s.queue, QueueStep(s, step).value, t);
    }
  }

  lemma AnalysedStep(s: Queue.State, step: Queue.Step, t: int)
    ensures Queue.At(Queue.Next(s, step).analysed, t) ==
              if step == Queue.Analyse(t) && t in s.workers && s.workers[t].Working? && s.workers[t].items != []
              then Queue.At(s.analysed, t) + [s.workers[t].items[0]] else Queue.At(s.analysed, t)
  {
    hide Queue.ListOf;
  }

  /** A tenant has a worker exactly if a batch request started one; nothing of its queue is analysed before. */
  lemma {:induction false} WorkersAreStarted(run: seq<Step>, n: nat, t: int)
    requires n <= |run|
    ensures t in After(run, n).queue.workers <==> exists k :: 0 <= k < n && run[k] == Start(t)
    ensures AnalysedSoFar(After(run, n), t) != [] ==> t in After(run, n).queue.workers
  {
    hide After, NextTables, NextUnsent, NextQueue, Queue.At;
    AfterStep(run, n);
    if n == 0 {
      NothingYet(t);
    } else {
      WorkersAreStarted(run, n - 1, t);
      WorkersStep(After(run, n - 1), run[n - 1], t);
      AnalysedGrows(After(run, n - 1), run[n - 1], t);
    }
  }

  // ---------- What is analysed is stored, if it is there ----------

  // The step stores an analysis of this message, or would if it were there.
  predicate Stores(s: State, step: Step, t: int, id: int) {
    var a := TableStep(s, step);
    a.Some? && Analysis.StoresFor(s.tables, a.value, t, id)
  }

  lemma NextKeepsRows(s: State, step: Step, t: int, id: int)
    ensures Analysis.HasRow(s.tables.db, t, id) ==> Analysis.HasRow(NextTables(s, step).db, t, id)
    ensures Analysis.HasAnalysis(NextTables(s, step).db, t, id) <==>
              || Analysis.HasAnalysis(s.tables.db, t, id)
              || (Stores(s, step, t, id) && Analysis.HasRow(s.tables.db, t, id))
  {
    hide Analysis.Next, Analysis.HasRow, Analysis.HasAnalysis, Analysis.StoresFor, TableStep;
    if TableStep(s, step).Some? {
      Analysis.NextCarries(s.tables, TableStep(s, step).value, t, id);
    }
  }

  /** In every run a message carries an analysis if and only if some step stored one for its tenant and id
      when the tenant had a row with that id. */
  lemma {:induction false} CarriesExactly(run: seq<Step>, n: nat, t: int, id: int)
    requires n <= |run|
    ensures Analysis.HasAnalysis(After(run, n).tables.db, t, id) <==>
              exists k :: 0 <= k < n && Stores(After(run, k), run[k], t, id) &&
                Analysis.HasRow(After(run, k).tables.db, t, id)
  {
    hide After, NextTables, NextUnsent, NextQueue, Stores, Analysis.HasRow, Analysis.HasAnalysis;
    AfterStep(run, n);
    if n == 0 {
      NothingThere(INIT.tables.db, t, id);
    } else {
      CarriesExactly(run, n - 1, t, id);
      NextKeepsRows(After(run, n - 1), run[n - 1], t, id);
    }
  }

  lemma NothingThere(db: Ingest.Db, t: int, id: int)
    requires db.messages == []
    ensures !Analysis.HasAnalysis(db, t, id) && !Analysis.HasRow(db, t, id)
  {
  }

  lemma CarryingIsThere(db: Ingest.Db, t: int, id: int)
    requires Analysis.HasAnalysis(db, t, id)
    ensures Analysis.HasRow(db, t, id)
  {
  }

  /** After a worker's analysis its message carries one exactly if the tenant had a row with that id, and
      the update worked or the row carried one before. */
  lemma AnalysedIsStoredExactly(s: State, step: Step)
    requires Analysed(s, step).Some?
    ensures step.Work?
    ensures var m := Analysed(s, step).value;
            Analysis.HasAnalysis(Next(s, step).tables.db, m.tenant, m.message) <==>
              && Analysis.HasRow(s.tables.db, m.tenant, m.message)
              && (step.saves || Analysis.HasAnalysis(s.tables.db, m.tenant, m.message))
  {
    hide NextTables, NextUnsent, NextQueue, Stores, Analysis.HasRow, Analysis.HasAnalysis;
    var m := Analysed(s, step).value;
    NextKeepsRows(s, step, m.tenant, m.message);
    AnalysingStores(s, step);
    if Analysis.HasAnalysis(s.tables.db, m.tenant, m.message) {
      CarryingIsThere(s.tables.db, m.tenant, m.message);
    }
  }

  /** And it is the worker's result that each row with that id then shows. */
  lemma AnalysedIsShown(s: State, step: Step, i: nat)
    requires Analysed(s, step).Some? && i < |s.tables.db.messages|
    ensures step.Work? && i < |Next(s, step).tables.db.messages|
    ensures var m := Analysed(s, step).value;
            var was, row := s.tables.db.messages[i], Next(s, step).tables.db.messages[i];
            Analysis.ShownBy(row) ==
              if step.saves && was.id == m.message && was.tenant == m.tenant then Some(step.result)
              else Analysis.ShownBy(was)
  {
    hide Analysed, NextUnsent, NextQueue, Analysis.ShownBy, Analysis.Update, Analysis.Select;
    OnlyWorkAnalyses(s, step);
    if step.saves {
      var m := Analysed(s, step).value;
      Analysis.NextShows(s.tables, Analysis.Analysed(m.tenant, m.message, step.result, step.readWorks), i);
      SelectIsFor(s.tables.db, m, step.result, step.readWorks);
    }
  }

  lemma SelectIsFor(db: Ingest.Db, m: Queue.Message, r: AnalysisResult, readWorks: bool)
    ensures var reading := Analysis.Select(db.messages, m.tenant, m.message, r, readWorks);
            reading.tenant == m.tenant && reading.id == m.message && reading.result == r
  {
  }

  lemma AnalysingStores(s: State, step: Step)
    requires Analysed(s, step).Some?
    ensures step.Work?
    ensures Stores(s, step, Analysed(s, step).value.tenant, Analysed(s, step).value.message) <==> step.saves
  {
    hide Analysed;
    assert step.Work? by { OnlyWorkAnalyses(s, step); }
  }

  lemma OnlyWorkAnalyses(s: State, step: Step)
    ensures Analysed(s, step).Some? ==> step.Work? && step.step.Analyse?
  {
  }

  // ---------- Announced messages are there ----------

  predicate IsThere(s: State, m: Queue.Message) { Analysis.HasRow(s.tables.db, m.tenant, m.message) }

  lemma AnnouncementIsThere(s: Analysis.State, a: Analysis.Action)
    requires Announcement(s, a).Some?
    ensures Analysis.HasRow(Analysis.Next(s, a).db, Announcement(s, a).value.tenant, Announcement(s, a).value.message)
  {
    hide Ingest.NameFor, Ingest.Content, Ingest.Ignored, Ingest.InitialMetadata;
    hide Analysis.NextPending, Analysis.NextAnalyses, Analysis.NextOrigins;
    var m, rows := Announcement(s, a).value, Analysis.Next(s, a).db.messages;
    var i := if a.Write? then |s.db.messages| else Ingest.FindWhatsApp(s.db.messages, m.tenant, a.event.info.id);
    assert i < |rows| && rows[i].id == m.message && rows[i].tenant == m.tenant;
  }

  // Announcements, waiting, enqueued or analysed, are about messages that are there; and the analysed ones
  // carry an analysis.
  ghost predicate AnnouncementsThere(s: State, t: int) {
    && (forall g :: g in s.unsent ==> IsThere(s, s.unsent[g]))
    && (forall e :: e in Queue.At(s.queue.log, t) && e.message.feature == Queue.ANNOUNCED ==>
          Analysis.HasRow(s.tables.db, t, e.message.message))
  }

  ghost predicate AnalysedCarry(s: State, t: int) {
    forall e :: e in AnalysedSoFar(s, t) && e.message.feature == Queue.ANNOUNCED ==>
      Analysis.HasAnalysis(s.tables.db, t, e.message.message)
  }

  lemma LogStep(s: State, step: Step, t: int)
    ensures var m := EnqueuedFor(s, step, t);
            Queue.At(NextQueue(s, step).log, t) ==
              if m.Some? then Queue.At(s.queue.log, t) + [Queue.Entry(|Queue.At(s.queue.log, t)|, m.value)]
              else Queue.At(s.queue.log, t)
  {
    hide Queue.Next, Queue.At;
    if QueueStep(s, step).Some? {
      Queue.LogStep(s.queue, QueueStep(s, step).value, t);
    }
  }

  lemma UnsentStaysThere(s: State, step: Step, t: int)
    requires AnnouncementsThere(s, t)
    ensures forall g :: g in NextUnsent(s, step) ==> IsThere(Next(s, step), NextUnsent(s, step)[g])
  {
    hide NextTables, NextQueue, Announcement, Analysis.HasRow, Analysis.Next;
    var after := NextUnsent(s, step);
    forall g | g in after
      ensures IsThere(Next(s, step), after[g])
    {
      NextKeepsRows(s, step, after[g].tenant, after[g].message);
      if g !in s.unsent {
        AnnouncementIsThere(s.tables, step.action);
        TableIsNext(s, step);
      }
    }
  }

  lemma TableIsNext(s: State, step: Step)
    requires step.Table? && step.g !in s.unsent
    ensures NextTables(s, step) == Analysis.Next(s.tables, step.action)
  {
  }

  lemma LoggedStaysThere(s: State, step: Step, t: int)
    requires AnnouncementsThere(s, t)
    ensures AnnouncementsThere(Next(s, step), t)
  {
    hide NextTables, NextUnsent, NextQueue, Queue.At, Analysis.HasRow;
    UnsentStaysThere(s, step, t);
    LogStep(s, step, t);
    FeaturesDiffer();
    forall e | e in Queue.At(NextQueue(s, step).log, t) && e.message.feature == Queue.ANNOUNCED
      ensures Analysis.HasRow(NextTables(s, step).db, t, e.message.message)
    {
      NextKeepsRows(s, step, t, e.message.message);
    }
  }

  lemma AnalysedKeepCarrying(s: State, step: Step, t: int)
    requires AnnouncementsThere(s, t) && AnalysedCarry(s, t)
    requires Analysed(s, step).Some? && step.step.tenant == t ==>
               && step.saves && s.queue.workers[t].items[0] in Queue.At(s.queue.log, t)
               && Analysed(s, step).value.tenant == t
    ensures AnalysedCarry(Next(s, step), t)
  {
    hide NextTables, NextUnsent, NextQueue, Queue.At, Stores, Analysis.HasRow, Analysis.HasAnalysis;
    AnalysedGrows(s, step, t);
    forall e | e in AnalysedSoFar(Next(s, step), t) && e.message.feature == Queue.ANNOUNCED
      ensures Analysis.HasAnalysis(Next(s, step).tables.db, t, e.message.message)
    {
      NextKeepsRows(s, step, t, e.message.message);
      if Analysed(s, step).Some? {
        AnalysingStores(s, step);
      }
    }
  }

  // What the worker is about to analyse was enqueued for its tenant.
  lemma {:induction false} NextIsLogged(run: seq<Step>, n: nat, t: int)
    requires n < |run| && Analysed(After(run, n), run[n]).Some? && run[n].step.tenant == t
    ensures var s := After(run, n);
            s.queue.workers[t].items[0] in Queue.At(s.queue.log, t) && Analysed(s, run[n]).value.tenant == t
  {
    hide After, Queue.After, QueueRun;
    QueueFollowsRun(run, n);
    Queue.AlwaysBalanced(QueueRun(run, n), |QueueRun(run, n)|, t);
    FlightIsLogged(Queue.BooksOf(After(run, n).queue, t), t);
  }

  lemma FlightIsLogged(b: Queue.Books, t: int)
    requires Queue.Balanced(b, t) && b.flight != []
    ensures b.flight[0] in b.log && b.flight[0].message.tenant == t
  {
    assert b.flight[0] == b.log[Queue.Settled(b)];
  }

  /** In every run every message announced for a tenant is a row of the tenant; and unless an update of its
      worker failed, every one of them that the worker analysed carries an analysis, failing pops and failing
      selects included. */
  lemma {:induction false} AnnouncedAreStored(run: seq<Step>, n: nat, t: int)
    requires n <= |run|
    ensures AnnouncementsThere(After(run, n), t)
    ensures (forall i :: 0 <= i < n ==> !SaveFails(run[i], t)) ==> AnalysedCarry(After(run, n), t)
  {
    hide After, Next, Analysed, AnnouncementsThere, AnalysedCarry;
    AfterStep(run, n);
    if n == 0 {
      NothingYet(t);
    } else {
      var s := After(run, n - 1);
      AnnouncedAreStored(run, n - 1, t);
      OnlyWorkAnalyses(s, run[n - 1]);
      if Analysed(s, run[n - 1]).Some? && run[n - 1].step.tenant == t {
        NextIsLogged(run, n - 1, t);
      }
      LoggedStaysThere(s, run[n - 1], t);
      if forall i :: 0 <= i < n ==> !SaveFails(run[i], t) {
        AnalysedKeepCarrying(s, run[n - 1], t);
      }
    }
  }

  // A worker's update fails.
  predicate SaveFails(step: Step, t: int) { step.Work? && step.step.Analyse? && step.step.tenant == t && !step.saves }

  lemma NothingYet(t: int)
    ensures AnnouncementsThere(INIT, t) && AnalysedCarry(INIT, t)
    ensures Queue.At(INIT.queue.analysed, t) == [] && t !in INIT.queue.workers
  {
  }

  // ---------- A request for a message that is not there ----------

  function RequestForNothing(t: int, id: int, content: string, r: AnalysisResult): seq<Step> {
    [Start(t), Request(t, id, content), Work(Queue.Pop(t), r, true, true), Work(Queue.Pop(t), r, true, true),
     Work(Queue.Analyse(t), r, true, true)]
  }

  // The queue after the n-th step of that run.
  function QueueFor(e: Queue.Entry, t: int, n: nat): Queue.State {
    var key := Keys.QueueKey(t);
    Queue.State(
      if n < 2 then map[] else map[key := if n == 2 then [e] else []],
      map[t := if n == 3 then Queue.Popping([e]) else if n == 4 then Queue.Working([e]) else Queue.Popping([])],
      if n < 2 then map[] else map[t := [e]], if n < 5 then map[] else map[t := [e]], map[])
  }

  lemma OneEntrySteps(e: Queue.Entry, t: int)
    requires e.ticket == 0 && e.message.tenant == t
    ensures Queue.Next(Queue.INIT, Queue.EnsureTenant(t)) == QueueFor(e, t, 1)
    ensures Queue.Next(QueueFor(e, t, 1), Queue.Enqueue(e.message)) == QueueFor(e, t, 2)
    ensures Queue.Next(QueueFor(e, t, 2), Queue.Pop(t)) == QueueFor(e, t, 3)
    ensures Queue.Next(QueueFor(e, t, 3), Queue.Pop(t)) == QueueFor(e, t, 4)
    ensures Queue.Next(QueueFor(e, t, 4), Queue.Analyse(t)) == QueueFor(e, t, 5)
  {
    hide Keys.QueueKey;
    assert [e] + [] == [e] && [] + [e] == [e] && [e][..0] == [];
  }

  lemma {:induction false} RequestForNothingQueue(t: int, id: int, content: string, r: AnalysisResult, n: nat)
    requires 0 < n <= 5
    ensures var run, m := RequestForNothing(t, id, content, r), Queue.Message(t, id, content, Queue.REQUESTED);
            After(run, n).queue == QueueFor(Queue.Entry(0, m), t, n)
  {
    hide After, Queue.Next, QueueFor, NextTables, NextUnsent;
    var run, m := RequestForNothing(t, id, content, r), Queue.Message(t, id, content, Queue.REQUESTED);
    OneEntrySteps(Queue.Entry(0, m), t);
    AfterStep(run, n);
    if n == 1 {
      AfterStep(run, 0);
    } else {
      RequestForNothingQueue(t, id, content, r, n - 1);
    }
  }

  /** A batch request for any id starts the worker, which analyses a message no event announced; on an empty
      table nothing carries the analysis. */
  lemma RequestForNothingExample(t: int, id: int, content: string, r: AnalysisResult)
    ensures var run := RequestForNothing(t, id, content, r);
            var s := After(run, 5);
            && AnalysedSoFar(s, t) == [Queue.Entry(0, Queue.Message(t, id, content, Queue.REQUESTED))]
            && Announced(run, 5, t) == [] && !Analysis.HasAnalysis(s.tables.db, t, id)
  {
    hide After, Announced, Queue.Next, Analysis.HasAnalysis;
    var run := RequestForNothing(t, id, content, r);
    RequestForNothingQueue(t, id, content, r, 5);
    NothingAnnounced(run, 5, t);
    NoRows(run, 5);
    NothingThere(After(run, 5).tables.db, t, id);
  }

  lemma {:induction false} NothingAnnounced(run: seq<Step>, n: nat, t: int)
    requires n <= |run| && forall i :: 0 <= i < n ==> !run[i].Announce?
    ensures Announced(run, n, t) == []
  {
    hide After;
    if n > 0 {
      NothingAnnounced(run, n - 1, t);
    }
  }

  // Without an event the tables have no rows.
  lemma {:induction false} NoRows(run: seq<Step>, n: nat)
    requires n <= |run| && forall i :: 0 <= i < n ==> !run[i].Table?
    ensures After(run, n).tables.db.messages == []
  {
    hide After, NextQueue, NextUnsent;
    AfterStep(run, n);
    if n > 0 {
      NoRows(run, n - 1);
    }
  }
}
