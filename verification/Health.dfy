/** The provider health monitor (health.go), the manual test (handlers/llm.go) and the statements
    they send (store.go).  Rows are in check_time order; database writes succeed. */
module Health {
  import opened Wrappers

  // The status column of a history row: "ok", "slow" or "error".
  datatype Check = Fine | Slow | Error

  // The health_status column of a provider; Initial is what it was created with.
  datatype Status = Initial(text: string) | Last(check: Check) | Unhealthy

  datatype Record = Record(history: seq<Check>, status: Status)

  /** What a provider's HealthCheck returned: whether with an error, and the latency in
      nanoseconds unless the result was nil. */
  datatype Probe = Probe(failed: bool, latency: Option<int>)

  const THREE_SECONDS := 3_000_000_000

  // ---------- Statements ----------

  function InsertRow(r: Record, check: Check): Record { r.(history := r.history + [check]) }

  function SetStatus(r: Record, check: Check): Record { r.(status := Last(check)) }

  function InsertHealth(r: Record, check: Check): Record { SetStatus(InsertRow(r, check), check) }

  function SetUnhealthy(r: Record): Record { r.(status := Unhealthy) }

  // ORDER BY check_time DESC LIMIT 3
  function LastThree(history: seq<Check>): seq<Check> {
    if |history| <= 3 then history else history[|history| - 3..]
  }

  function NotOk(checks: seq<Check>): nat {
    if checks == [] then 0 else NotOk(checks[..|checks| - 1]) + if checks[|checks| - 1] != Fine then 1 else 0
  }

  function RecentFailures(r: Record): nat { NotOk(LastThree(r.history)) }

  // ---------- Steps ----------

  function Classify(p: Probe): Check {
    if p.failed || p.latency == None then Error
    else if p.latency.value > THREE_SECONDS then Slow
    else Fine
  }

  function MonitorStep(r: Record, p: Probe): Record {
    var r' := InsertHealth(r, Classify(p));
    if Classify(p) == Error && RecentFailures(r') >= 3 then SetUnhealthy(r') else r'
  }

  // A manual test does not know "slow" and never marks a provider unhealthy.
  function ClassifyTest(p: Probe): Check {
    if p.failed || p.latency == None then Error else Fine
  }

  function TestStep(r: Record, p: Probe): Record {
    InsertHealth(r, ClassifyTest(p))
  }

  // ---------- What the status means ----------

  // Three rows exist, none of them ok, and the newest is an error.
  ghost predicate ThreeBadWithErrorOnTop(history: seq<Check>) {
    var n := |history|;
    n >= 3 && history[n - 1] == Error && history[n - 2] != Fine && history[n - 3] != Fine
  }

  ghost function Derived(history: seq<Check>): Status
    requires history != []
  {
    if ThreeBadWithErrorOnTop(history) then Unhealthy else Last(history[|history| - 1])
  }

  lemma {:induction false} NotOkAtMostAll(checks: seq<Check>)
    ensures NotOk(checks) <= |checks|
    ensures NotOk(checks) == |checks| <==> forall i :: 0 <= i < |checks| ==> checks[i] != Fine
  {
    if checks != [] {
      NotOkAtMostAll(checks[..|checks| - 1]);
    }
  }

  lemma {:induction false} ThreeBad(history: seq<Check>)
    ensures var n := |history|;
            NotOk(LastThree(history)) >= 3 <==>
                n >= 3 && history[n - 1] != Fine && history[n - 2] != Fine && history[n - 3] != Fine
  {
    var n, t := |history|, LastThree(history);
    NotOkAtMostAll(t);
    hide NotOk;
    if n >= 3 {
      assert |t| == 3 && t[0] == history[n - 3] && t[1] == history[n - 2] && t[2] == history[n - 1];
    }
  }

  /** After a monitor step the status is a function of the last three rows alone. */
  lemma MonitorAgrees(r: Record, p: Probe)
    ensures var after := MonitorStep(r, p);
            after.history != [] && after.status == Derived(after.history)
  {
    ThreeBad(r.history + [Classify(p)]);
    hide NotOk, LastThree;
  }

  // What a check shows: an error if it failed or gave no result, and slow if it took more than three seconds.
  predicate Shows(p: Probe, check: Check) {
    match check
    case Error => p.failed || p.latency == None
    case Slow => !p.failed && p.latency.Some? && p.latency.value > 3_000_000_000
    case Fine => !p.failed && p.latency.Some? && p.latency.value <= 3_000_000_000
  }

  // A manual test shows an error or, in any time, ok.
  predicate TestShows(p: Probe, check: Check) {
    match check
    case Error => p.failed || p.latency == None
    case Slow => false
    case Fine => !p.failed && p.latency.Some?
  }

  // One row more, with this check.
  predicate AddsRow(was: Record, r: Record, check: Check) {
    |r.history| == |was.history| + 1 && r.history[..|was.history|] == was.history && r.history[|was.history|] == check
  }

  /** A monitor step adds the row the probe shows, and marks the provider unhealthy exactly if that is an error
      and the two rows before it are not ok either; its status is the row's otherwise. */
  lemma MonitorExactly(r: Record, p: Probe) returns (check: Check)
    ensures Shows(p, check) && AddsRow(r, MonitorStep(r, p), check)
    ensures MonitorStep(r, p).status ==
              if ThreeBadWithErrorOnTop(MonitorStep(r, p).history) then Unhealthy else Last(check)
  {
    check := Classify(p);
    MonitorAgrees(r, p);
  }

  /** A manual test adds the row its own probe shows, which is its status. */
  lemma TestExactly(r: Record, p: Probe) returns (check: Check)
    ensures TestShows(p, check) && AddsRow(r, TestStep(r, p), check) && TestStep(r, p).status == Last(check)
  {
    check := ClassifyTest(p);
  }

  datatype Step = Monitor(probe: Probe) | Unavailable | Test(probe: Probe)

  function Next(r: Record, s: Step): Record {
    match s
    case Monitor(p) => MonitorStep(r, p)
    case Unavailable => r
    case Test(p) => TestStep(r, p)
  }

  function After(initial: string, run: seq<Step>, n: nat): Record
    requires n <= |run|
  {
    if n == 0 then Record([], Initial(initial)) else Next(After(initial, run, n - 1), run[n - 1])
  }

  // The last step that wrote anything.
  function LastWriter(run: seq<Step>, n: nat): Option<Step>
    requires n <= |run|
  {
    if n == 0 then None
    else if run[n - 1] == Unavailable then LastWriter(run, n - 1)
    else Some(run[n - 1])
  }

  /** In any mixture of monitor steps and manual tests the status is the derived one if the monitor
      wrote last, and the newest row if a test did. */
  lemma {:induction false} StatusAgreesWithHistory(initial: string, run: seq<Step>, n: nat)
    requires n <= |run|
    ensures var r := After(initial, run, n);
            match LastWriter(run, n)
            case None => r == Record([], Initial(initial))
            case Some(Monitor(_)) => r.history != [] && r.status == Derived(r.history)
            case Some(Test(_)) => r.history != [] && r.status == Last(r.history[|r.history| - 1])
            case Some(Unavailable) => false
  {
    if n > 0 {
      StatusAgreesWithHistory(initial, run, n - 1);
      if run[n - 1].Monitor? {
        MonitorAgrees(After(initial, run, n - 1), run[n - 1].probe);
      }
    }
  }

  /** With manual tests interleaved, "unhealthy" still means an error on top of three bad rows; and
      without them it means exactly that. */
  lemma {:induction false} UnhealthyMeansThreeBad(initial: string, run: seq<Step>, n: nat)
    requires n <= |run|
    ensures var r := After(initial, run, n);
            && (r.status == Unhealthy ==> ThreeBadWithErrorOnTop(r.history))
            && ((forall i :: 0 <= i < n ==> !run[i].Test?) ==> (r.status == Unhealthy <==>
                ThreeBadWithErrorOnTop(r.history)))
  {
    StatusAgreesWithHistory(initial, run, n);
    LastWriterIsInRun(run, n);
  }

  lemma {:induction false} LastWriterIsInRun(run: seq<Step>, n: nat)
    requires n <= |run|
    ensures var s := LastWriter(run, n); s.Some? ==> exists i :: 0 <= i < n && run[i] == s.value
  {
    if n > 0 && run[n - 1] == Unavailable {
      LastWriterIsInRun(run, n - 1);
    }
  }

  /** A test can hide what the monitor would report: three bad rows, and the status is only "error". */
  lemma TestHidesUnhealthy()
    ensures var p := Probe(true, None);
            var r := After("unknown", [Monitor(p), Monitor(p), Test(p)], 3);
            ThreeBadWithErrorOnTop(r.history) && r.status == Last(Error)
  {
    hide After;
    var p := Probe(true, None);
    var run := [Monitor(p), Monitor(p), Test(p)];
    AfterFirst("unknown", run);
    FailingStep("unknown", run, 0, []);
    FailingStep("unknown", run, 1, [Error]);
    FailingStep("unknown", run, 2, [Error, Error]);
  }

  lemma {:induction false} AfterFirst(initial: string, run: seq<Step>)
    ensures After(initial, run, 0) == Record([], Initial(initial))
  {
  }

  lemma {:induction false} FailingStep(initial: string, run: seq<Step>, n: nat, before: seq<Check>)
    requires n < |run| && run[n] in [Monitor(Probe(true, None)), Test(Probe(true, None))]
    requires After(initial, run, n).history == before
    ensures After(initial, run, n + 1).history == before + [Error]
    ensures run[n].Test? ==> After(initial, run, n + 1).status == Last(Error)
  {
    hide NotOk, LastThree;
  }

  /** The status is the derived one exactly when the monitor wrote last, or the rows do not derive
      "unhealthy". */
  lemma {:induction false} DerivedExactly(initial: string, run: seq<Step>, n: nat)
    requires n <= |run| && After(initial, run, n).history != []
    ensures var r := After(initial, run, n);
            r.status == Derived(r.history) <==>
              (LastWriter(run, n).Some? && LastWriter(run, n).value.Monitor?) || !ThreeBadWithErrorOnTop(r.history)
  {
    StatusAgreesWithHistory(initial, run, n);
  }

  // ---------- Separate statements ----------

  // How far the monitor has got with a provider; there is one monitor.
  datatype Phase = Idle | Inserted(check: Check) | Counting | Marking

  /** `tests` holds the manual tests between their two statements. */
  datatype Split = Split(record: Record, phase: Phase, tests: map<nat, Check>)

  datatype Statement =
    | MonitorRow(probe: Probe) | MonitorStatus | Count | Mark
    | TestRow(t: nat, probe: Probe) | TestStatus(t: nat)

  // A statement out of turn changes nothing.
  function Execute(s: Split, st: Statement): Split {
    match st
    case MonitorRow(p) =>
      if !s.phase.Idle? then s
      else s.(record := InsertRow(s.record, Classify(p)), phase := Inserted(Classify(p)))
    case MonitorStatus =>
      if !s.phase.Inserted? then s
      else
        s.(record := SetStatus(s.record, s.phase.check),
           phase := if s.phase.check == Error then Counting else Idle)
    case Count =>
      if !s.phase.Counting? then s else s.(phase := if RecentFailures(s.record) >= 3 then Marking else Idle)
    case Mark =>
      if !s.phase.Marking? then s else s.(record := SetUnhealthy(s.record), phase := Idle)
    case TestRow(t, p) =>
      if t in s.tests then s
      else s.(record := InsertRow(s.record, ClassifyTest(p)), tests := s.tests[t := ClassifyTest(p)])
    case TestStatus(t) =>
      if t !in s.tests then s else s.(record := SetStatus(s.record, s.tests[t]), tests := s.tests - {t})
  }

  function AfterStatements(initial: string, run: seq<Statement>, n: nat): Split
    requires n <= |run|
  {
    if n == 0 then Split(Record([], Initial(initial)), Idle, map[])
        else Execute(AfterStatements(initial, run, n - 1), run[n - 1])
  }

  /** Statements that nothing comes between make up the atomic steps. */
  lemma AtomicIsUninterrupted(r: Record, tests: map<nat, Check>, p: Probe, t: nat)
    requires t !in tests
    ensures var s := Split(r, Idle, tests);
            && Execute(Execute(Execute(Execute(s, MonitorRow(p)), MonitorStatus), Count), Mark) ==
                 s.(record := MonitorStep(r, p))
            && Execute(Execute(s, TestRow(t, p)), TestStatus(t)) == s.(record := TestStep(r, p))
  {
    hide NotOk, LastThree;
    assert tests[t := ClassifyTest(p)] - {t} == tests;
  }

  // How many rows there were when the monitor last counted.
  function RowsCounted(initial: string, run: seq<Statement>, n: nat): nat
    requires n <= |run|
  {
    if n == 0 then 0
    else
      var s := AfterStatements(initial, run, n - 1);
      if run[n - 1].Count? && s.phase.Counting? then |s.record.history| else RowsCounted(initial, run, n - 1)
  }

  // The invariant of the separated statements: a count of three finds an error on top, because a
  // manual test never writes "slow".
  ghost predicate SplitInv(s: Split, counted: nat) {
    var h := s.record.history;
    && counted <= |h|
    && (forall t :: t in s.tests ==> s.tests[t] != Slow)
    && (s.phase == Inserted(Error) || s.phase == Counting ==> h != [] && h[|h| - 1] != Slow)
    && (s.phase == Counting || s.phase == Marking ==> s.record.status != Unhealthy)
    && (s.phase == Marking || s.record.status == Unhealthy ==> ThreeBadWithErrorOnTop(h[..counted]))
  }

  lemma ExecuteKeepsInv(s: Split, st: Statement, counted: nat)
    requires SplitInv(s, counted)
    ensures SplitInv(Execute(s, st), if st.Count? && s.phase.Counting? then |s.record.history| else counted)
  {
    hide NotOk, LastThree;
    var h, after := s.record.history, Execute(s, st).record.history;
    ThreeBad(h);
    assert h[..|h|] == h && after[..counted] == h[..counted];
  }

  lemma {:induction false} AlwaysSplitInv(initial: string, run: seq<Statement>, n: nat)
    requires n <= |run|
    ensures SplitInv(AfterStatements(initial, run, n), RowsCounted(initial, run, n))
  {
    if n > 0 {
      AlwaysSplitInv(initial, run, n - 1);
      hide SplitInv, Execute;
      ExecuteKeepsInv(AfterStatements(initial, run, n - 1), run[n - 1], RowsCounted(initial, run, n - 1));
    }
  }

  // The rows that came after the count are none, or have an error on top and no ok among the newest three.
  ghost predicate StillBad(since: seq<Check>) {
    since == [] || (since[|since| - 1] == Error && forall i :: 0 <= i < |since| && |since| - 3 <= i ==>
        since[i] != Fine)
  }

  lemma BadAfterMore(counted: seq<Check>, since: seq<Check>)
    requires ThreeBadWithErrorOnTop(counted)
    ensures ThreeBadWithErrorOnTop(counted + since) <==> StillBad(since)
  {
    var h, n := counted + since, |counted + since|;
    assert since != [] ==> h[n - 1] == since[|since| - 1];
    assert |since| >= 2 ==> h[n - 2] == since[|since| - 2];
    assert |since| >= 3 ==> h[n - 3] == since[|since| - 3];
  }

  /** However the statements of the monitor and of any number of manual tests interleave, an
      "unhealthy" provider has an error on top of three bad rows exactly when the rows inserted since
      the count that made it so are bad themselves; in particular when there are none. */
  lemma {:induction false} UnhealthyAmongStatements(initial: string, run: seq<Statement>, n: nat)
    requires n <= |run| && AfterStatements(initial, run, n).record.status == Unhealthy
    ensures var h, k := AfterStatements(initial, run, n).record.history, RowsCounted(initial, run, n);
            && k <= |h| && ThreeBadWithErrorOnTop(h[..k])
            && (ThreeBadWithErrorOnTop(h) <==> StillBad(h[k..]))
  {
    hide AfterStatements, RowsCounted, StillBad, ThreeBadWithErrorOnTop;
    AlwaysSplitInv(initial, run, n);
    var h, k := AfterStatements(initial, run, n).record.history, RowsCounted(initial, run, n);
    BadAfterMore(h[..k], h[k..]);
    assert h[..k] + h[k..] == h;
  }

  // Three failing checks; a test that goes well comes between the last count and its mark.
  function TestBeforeMark(): seq<Statement> {
    var p := Probe(true, None);
    [MonitorRow(p), MonitorStatus, Count, MonitorRow(p), MonitorStatus, Count, MonitorRow(p), MonitorStatus, Count,
     TestRow(0, Probe(false, Some(0))), TestStatus(0), Mark]
  }

  lemma {:induction false} FailingRound(run: seq<Statement>, n: nat, before: seq<Check>, status: Status)
    requires n + 3 <= |run| && run[n] == MonitorRow(Probe(true, None)) && run[n + 1] == MonitorStatus &&
        run[n + 2] == Count
    requires AfterStatements("unknown", run, n) == Split(Record(before, status), Idle, map[])
    ensures var after := before + [Error];
            AfterStatements("unknown", run, n + 3) ==
              Split(Record(after, Last(Error)), if ThreeBadWithErrorOnTop(after) then Marking else Idle, map[])
  {
    hide NotOk, LastThree;
    ThreeBad(before + [Error]);
    var s1 := AfterStatements("unknown", run, n + 1);
    assert s1 == Split(Record(before + [Error], status), Inserted(Error), map[]);
    assert AfterStatements("unknown", run, n + 2) == Split(Record(before + [Error], Last(Error)), Counting, map[]);
  }

  lemma {:induction false} TestThenMark(run: seq<Statement>, n: nat, before: seq<Check>, status: Status)
    requires n + 3 <= |run| && run[n] == TestRow(0, Probe(false, Some(0))) && run[n + 1] == TestStatus(0) &&
        run[n + 2] == Mark
    requires AfterStatements("unknown", run, n) == Split(Record(before, status), Marking, map[])
    ensures AfterStatements("unknown", run, n + 3).record == Record(before + [Fine], Unhealthy)
  {
    var s1 := AfterStatements("unknown", run, n + 1);
    assert s1 == Split(Record(before + [Fine], status), Marking, map[0 := Fine]);
    assert AfterStatements("unknown", run, n + 2).phase == Marking;
  }

  lemma RoundsThenTest()
    ensures var run := TestBeforeMark();
            && |run| == 12
            && run[0] == run[3] == run[6] == MonitorRow(Probe(true, None))
            && run[1] == run[4] == run[7] == MonitorStatus && run[2] == run[5] == run[8] == Count
            && run[9] == TestRow(0, Probe(false, Some(0))) && run[10] == TestStatus(0) && run[11] == Mark
  {
  }

  lemma {:induction false} StartIdle(run: seq<Statement>)
    ensures AfterStatements("unknown", run, 0) == Split(Record([], Initial("unknown")), Idle, map[])
  {
  }

  /** The exception exists: "unhealthy" on top of an ok row. */
  lemma SplitStepLosesAgreement()
    ensures var r := AfterStatements("unknown", TestBeforeMark(), 12).record;
            r.status == Unhealthy && r.history == [Error, Error, Error, Fine] && !ThreeBadWithErrorOnTop(r.history)
  {
    hide AfterStatements, TestBeforeMark;
    var run := TestBeforeMark();
    RoundsThenTest();
    StartIdle(run);
    FailingRound(run, 0, [], Initial("unknown"));
    FailingRound(run, 3, [Error], Last(Error));
    FailingRound(run, 6, [Error, Error], Last(Error));
    TestThenMark(run, 9, [Error, Error, Error], Last(Error));
  }

  // ---------- The monitor ----------

  class HealthStore {
    var records: map<int, Record>

    constructor (records: map<int, Record>)
      ensures this.records == records
    {
      this.records := records;
    }

    method RecentHealthFailures(id: int) returns (failures: nat)
      ensures failures == if id in records then RecentFailures(records[id]) else 0
    {
      failures := 0;
      var rows := if id in records then LastThree(records[id].history) else [];
      for i := 0 to |rows|
        invariant failures == NotOk(rows[..i])
      {
        assert rows[..i + 1][..i] == rows[..i];
        if rows[i] != Fine {
          failures := failures + 1;
        }
      }
      assert rows[..|rows|] == rows;
    }

    /** One round over the listed providers: each whose instance is available takes one monitor
        step, nobody else changes. */
    method RunOnce(ids: seq<int>, probes: map<int, Probe>)
      requires forall i, j :: 0 <= i < j < |ids| ==> ids[i] != ids[j]
      requires forall i :: 0 <= i < |ids| ==> ids[i] in records
      modifies this
      ensures records.Keys == old(records.Keys)
      ensures forall id :: id in records ==>
        records[id] == if id in ids && id in probes then MonitorStep(old(records)[id], probes[id])
            else old(records)[id]
      // That is, from the probe alone:
      ensures forall id :: id in records && id in ids && id in probes ==>
        var was, r := old(records)[id], records[id];
        exists check ::
          && Shows(probes[id], check) && AddsRow(was, r, check)
          && r.status == if ThreeBadWithErrorOnTop(r.history) then Unhealthy else Last(check)
    {
      ghost var before := records;
      for i := 0 to |ids|
        invariant records.Keys == before.Keys
        invariant forall id :: id in records ==>
          records[id] == if id in ids[..i] && id in probes then MonitorStep(before[id], probes[id]) else before[id]
      {
        var id := ids[i];
        assert id !in ids[..i] && ids[..i + 1] == ids[..i] + [id];
        if id !in probes {
          continue;
        }
        var probe := probes[id];
        var status := Fine;
        if probe.failed || probe.latency == None {
          status := Error;
        } else if probe.latency.value > THREE_SECONDS {
          status := Slow;
        }
        records := records[id := InsertHealth(records[id], status)];
        if status == Error {
          var failures := RecentHealthFailures(id);
          if failures >= 3 {
            records := records[id := SetUnhealthy(records[id])];
          }
        }
      }
      assert ids[..|ids|] == ids;
      forall id | id in records && id in ids && id in probes
        ensures var was, r := before[id], records[id];
                exists check ::
                  && Shows(probes[id], check) && AddsRow(was, r, check)
                  && r.status == if ThreeBadWithErrorOnTop(r.history) then Unhealthy else Last(check)
      {
        var check := MonitorExactly(before[id], probes[id]);
      }
    }

    /** A manual test of one provider: the row goes in and the status is set, whatever the monitor says.
        The row of a provider that is not there is rejected. */
    method TestProvider(id: int, probe: Probe)
      modifies this
      ensures records.Keys == old(records.Keys)
      ensures id in records ==> records[id] == TestStep(old(records)[id], probe)
      ensures forall other :: other in records && other != id ==> records[other] == old(records)[other]
      ensures id in records ==>
        exists check ::
          TestShows(probe, check) && AddsRow(old(records)[id], records[id], check) && records[id].status == Last(check)
    {
      if id !in records {
        return;
      }
      ghost var check := TestExactly(records[id], probe);
      var status := Fine;
      if probe.failed || probe.latency == None {
        status := Error;
      }
      records := records[id := InsertHealth(records[id], status)];
    }
  }
}
