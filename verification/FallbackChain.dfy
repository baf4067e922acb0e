/** The first-success chain of router.go AnalyzeWithFallback and the error masking of service.go. */
module FallbackChain {
  import opened Wrappers
  import opened ProviderTable
  import opened Contract
  import Factory
  import Keyword

  type Provider = Factory.Provider

  /** What one Analyze call returned: a result (possibly nil) without error, or an error. */
  datatype Answer = Success(result: Option<AnalysisResult>) | Failure(error: string)

  function Configs(rows: seq<Row>): (configs: seq<ProviderConfig>)
    ensures |configs| == |rows| && forall i :: 0 <= i < |rows| ==> configs[i] == rows[i].config
  {
    seq(|rows|, i requires 0 <= i < |rows| => rows[i].config)
  }

  // The instance position i of the list is served by, if it is supported.
  function Served(instances: map<string, Provider>, configs: seq<ProviderConfig>, i: nat): Option<Provider>
    requires i < |configs|
  {
    Factory.Create(Factory.InstancesAfter(instances, configs, i), configs[i]).1
  }

  function IsSupported(instances: map<string, Provider>, configs: seq<ProviderConfig>): (flags: seq<bool>)
    ensures |flags| == |configs| && forall i :: 0 <= i < |configs| ==> flags[i] == Served(instances, configs, i).Some?
  {
    seq(|configs|, i requires 0 <= i < |configs| => Served(instances, configs, i).Some?)
  }

  // The flagged positions among the first n.
  function Positions(flags: seq<bool>, n: nat): seq<nat>
    requires n <= |flags|
  {
    if n == 0 then []
    else Positions(flags, n - 1) + if flags[n - 1] then [n - 1] else []
  }

  /** Each flagged position appears, once, in order, and nothing else does. */
  lemma {:induction false} PositionsInOrder(flags: seq<bool>, n: nat)
    requires n <= |flags|
    ensures var s := Positions(flags, n);
            && (forall a :: 0 <= a < |s| ==> s[a] < n && flags[s[a]])
            && (forall a, b :: 0 <= a < b < |s| ==> s[a] < s[b])
            && (forall i :: 0 <= i < n && flags[i] ==> i in s)
  {
    if n > 0 {
      PositionsInOrder(flags, n - 1);
      var before, after := Positions(flags, n - 1), Positions(flags, n);
      assert forall i :: i in before ==> i in after;
      assert flags[n - 1] ==> after[|before|] == n - 1;
    }
  }

  predicate Wins(instances: map<string, Provider>, configs: seq<ProviderConfig>, answers: seq<Answer>, i: nat)
    requires i < |configs| <= |answers|
  {
    Served(instances, configs, i).Some? && answers[i].Success?
  }

  ghost predicate NoWinnerBefore(instances: map<string, Provider>, configs: seq<ProviderConfig>,
      answers: seq<Answer>, n: nat)
    requires n <= |configs| <= |answers|
  {
    forall i :: 0 <= i < n ==> !Wins(instances, configs, answers, i)
  }

  /** The analysis of the least supported position that succeeds; otherwise the keyword analysis. */
  function Outcome(instances: map<string, Provider>, configs: seq<ProviderConfig>, answers: seq<Answer>,
      message: string, from: nat): (r: (Option<AnalysisResult>, Option<nat>))
    requires from <= |configs| <= |answers|
    ensures r.1.Some? ==> from <= r.1.value < |configs| && Wins(instances, configs, answers, r.1.value)
    decreases |configs| - from
  {
    if from == |configs| then (Some(Keyword.Analyse(message)), None)
    else if Wins(instances, configs, answers, from) then (answers[from].result, Some(from))
    else Outcome(instances, configs, answers, message, from + 1)
  }

  /** The winner is the first position that is supported and succeeds; there is no winner exactly
      when every supported one failed; and only a successful call without a result loses the result. */
  lemma {:induction false} OutcomeIsFirstSuccess(instances: map<string, Provider>, configs: seq<ProviderConfig>,
      answers: seq<Answer>, message: string, from: nat)
    requires from <= |configs| <= |answers| && NoWinnerBefore(instances, configs, answers, from)
    ensures var (result, winner) := Outcome(instances, configs, answers, message, from);
            && (winner == None <==> NoWinnerBefore(instances, configs, answers, |configs|))
            && (winner == None ==> result == Some(Keyword.Analyse(message)))
            && (winner.Some? ==>
                  && winner.value < |configs| && Wins(instances, configs, answers, winner.value)
                  && NoWinnerBefore(instances, configs, answers, winner.value)
                  && result == answers[winner.value].result)
            && (result == None <==> winner.Some? && answers[winner.value].result == None)
    decreases |configs| - from
  {
    hide Wins, Keyword.Analyse;
    if from < |configs| && !Wins(instances, configs, answers, from) {
      OutcomeIsFirstSuccess(instances, configs, answers, message, from + 1);
    }
  }

  /** And without any such position it is the keyword analysis. */
  lemma NoSuccessDecides(instances: map<string, Provider>, configs: seq<ProviderConfig>, answers: seq<Answer>,
      message: string)
    requires |configs| <= |answers|
    requires forall j :: 0 <= j < |configs| ==> !(Served(instances, configs, j).Some? && answers[j].Success?)
    ensures Outcome(instances, configs, answers, message, 0) == (Some(Keyword.Analyse(message)), None)
  {
    hide Outcome, Served;
    OutcomeIsFirstSuccess(instances, configs, answers, message, 0);
  }

  /** The first position that is supported and answers without an error decides, with a result or without. */
  lemma FirstSuccessDecides(instances: map<string, Provider>, configs: seq<ProviderConfig>, answers: seq<Answer>,
      message: string, i: nat)
    requires i < |configs| <= |answers|
    requires Served(instances, configs, i).Some? && answers[i].Success?
    requires forall j :: 0 <= j < i ==> !(Served(instances, configs, j).Some? && answers[j].Success?)
    ensures Outcome(instances, configs, answers, message, 0) == (answers[i].result, Some(i))
  {
    hide Outcome, Served;
    OutcomeIsFirstSuccess(instances, configs, answers, message, 0);
    assert Wins(instances, configs, answers, i);
    assert forall j :: 0 <= j < i ==> !Wins(instances, configs, answers, j);
  }

  /** What the chain hands back: result, provider, row id, whether there is an error. */
  datatype Report = Report(result: Option<AnalysisResult>, provider: Option<Provider>, id: int, error: Option<string>)

  // The report and the calls are those of the first success; nobody after it was asked.
  ghost predicate ChainOutcome(instances: map<string, Provider>, configs: seq<ProviderConfig>, answers: seq<Answer>,
      message: string, r: Report, calls: seq<nat>, after: map<string, Provider>)
    requires |configs| <= |answers|
  {
    var (expected, winner) := Outcome(instances, configs, answers, message, 0);
    var tried := if winner.Some? then winner.value + 1 else |configs|;
    && r.result == expected && r.error == (if winner.Some? then None else Some("all providers failed"))
    && r.provider == (if winner.Some? then Served(instances, configs, winner.value) else None)
    && r.id == (if winner.Some? then configs[winner.value].id else 0)
    && calls == Positions(IsSupported(instances, configs), tried)
    && after == Factory.InstancesAfter(instances, configs, tried)
  }

  lemma {:induction false} WonAt(instances: map<string, Provider>, configs: seq<ProviderConfig>,
      answers: seq<Answer>, message: string, i: nat, r: Report, calls: seq<nat>)
    requires i < |configs| <= |answers|
    requires NoWinnerBefore(instances, configs, answers, i) && Wins(instances, configs, answers, i)
    requires r == Report(answers[i].result, Served(instances, configs, i), configs[i].id, None)
    requires calls == Positions(IsSupported(instances, configs), i + 1)
    ensures ChainOutcome(instances, configs, answers, message, r, calls,
                         Factory.InstancesAfter(instances, configs, i + 1))
  {
    hide Outcome, Positions, Factory.InstancesAfter, Served, IsSupported, Keyword.Analyse;
    forall j | 0 <= j < i
      ensures !(Served(instances, configs, j).Some? && answers[j].Success?)
    {
      assert !Wins(instances, configs, answers, j);
    }
    FirstSuccessDecides(instances, configs, answers, message, i);
  }

  lemma {:induction false} AllFailed(instances: map<string, Provider>, configs: seq<ProviderConfig>,
      answers: seq<Answer>, message: string, r: Report, calls: seq<nat>)
    requires |configs| <= |answers| && NoWinnerBefore(instances, configs, answers, |configs|)
    requires r.result == Some(Keyword.Analyse(message)) && r.provider == None && r.id == 0
    requires r.error == Some("all providers failed")
    requires calls == Positions(IsSupported(instances, configs), |configs|)
    ensures ChainOutcome(instances, configs, answers, message, r, calls,
        Factory.InstancesAfter(instances, configs, |configs|))
  {
    hide Outcome, Wins, Positions, Factory.InstancesAfter, Served, IsSupported, NoWinnerBefore, Keyword.Analyse;
    ChainStart(instances, configs, answers);
    OutcomeIsFirstSuccess(instances, configs, answers, message, 0);
  }

  // What one round of the loop adds.
  lemma ChainStep(instances: map<string, Provider>, configs: seq<ProviderConfig>, answers: seq<Answer>, i: nat)
    requires i < |configs| <= |answers|
    ensures Factory.Create(Factory.InstancesAfter(instances, configs, i), configs[i]) ==
        (Factory.InstancesAfter(instances, configs, i + 1), Served(instances, configs, i))
    ensures var flags := IsSupported(instances, configs);
            Positions(flags, i + 1) ==
              if Served(instances, configs, i).Some? then Positions(flags, i) + [i] else Positions(flags, i)
    ensures Wins(instances, configs, answers, i) <==> Served(instances, configs, i).Some? && answers[i].Success?
    ensures NoWinnerBefore(instances, configs, answers, i) && !Wins(instances, configs, answers, i) ==>
        NoWinnerBefore(instances, configs, answers, i + 1)
  {
    hide IsSupported, Factory.Create;
    var flags := IsSupported(instances, configs);
    assert flags[i] == Served(instances, configs, i).Some?;
  }

  lemma ChainStart(instances: map<string, Provider>, configs: seq<ProviderConfig>, answers: seq<Answer>)
    requires |configs| <= |answers|
    ensures Factory.InstancesAfter(instances, configs, 0) == instances
    ensures Positions(IsSupported(instances, configs), 0) == [] && NoWinnerBefore(instances, configs, answers, 0)
  {
  }

  datatype UsageRow = UsageRow(tenant: int, provider: int, message: Option<int>, tokens: int, success: bool,
      feature: string)

  class Service {
    const factory: Factory.ProviderFactory
    const db: ProviderStore
    var usage: seq<UsageRow>

    constructor (factory: Factory.ProviderFactory, db: ProviderStore)
      ensures this.factory == factory && this.db == db && usage == []
    {
      this.factory, this.db, usage := factory, db, [];
    }

    // The loop of the chain.
    method TryEach(configs: seq<ProviderConfig>, message: string, answers: seq<Answer>)
        returns (r: Report, ghost calls: seq<nat>)
      requires Factory.Valid(factory.instances) && |configs| <= |answers|
      modifies factory
      ensures Factory.Valid(factory.instances)
      ensures ChainOutcome(old(factory.instances), configs, answers, message, r, calls, factory.instances)
    {
      calls := [];
      ghost var instances := factory.instances;
      ghost var flags := IsSupported(instances, configs);
      ChainStart(instances, configs, answers);
      hide Outcome, Factory.Valid, Factory.Create, Keyword.Analyse, ChainOutcome, IsSupported, Factory.InstancesAfter,
          Positions, Served, Wins, NoWinnerBefore;
      for i := 0 to |configs|
        invariant Factory.Valid(factory.instances)
        invariant factory.instances == Factory.InstancesAfter(instances, configs, i)
        invariant calls == Positions(flags, i)
        invariant NoWinnerBefore(instances, configs, answers, i)
      {
        ChainStep(instances, configs, answers, i);
        var made := factory.CreateProvider(configs[i]);
        if made == None {
          continue;
        }
        calls := calls + [i];
        if answers[i].Success? {
          r := Report(answers[i].result, made, configs[i].id, None);
          WonAt(instances, configs, answers, message, i, r, calls);
          return;
        }
      }
      var analysis := Keyword.FallbackAnalysis(message);
      r := Report(Some(analysis), None, 0, Some("all providers failed"));
      AllFailed(instances, configs, answers, message, r, calls);
    }

    /** Router.AnalyzeWithFallback.  `answers[i]` is what the provider of the i-th listed
        configuration answers if it is called, and `calls` records who was. */
    method Chain(tenant: int, message: string, listWorks: bool, answers: seq<Answer>)
        returns (r: Report, ghost calls: seq<nat>)
      requires Factory.Valid(factory.instances)
      requires |ListProviders(db.table.rows, tenant)| <= |answers|
      modifies factory
      ensures Factory.Valid(factory.instances)
      ensures if listWorks then
                ChainOutcome(old(factory.instances), Configs(ListProviders(db.table.rows, tenant)), answers,
                    message, r, calls, factory.instances)
              else
                r == Report(Some(Keyword.Analyse(message)), None, 0, Some("list failed")) && calls == []
    {
      if !listWorks {
        var analysis := Keyword.FallbackAnalysis(message);
        return Report(Some(analysis), None, 0, Some("list failed")), [];
      }
      r, calls := TryEach(Configs(ListProviders(db.table.rows, tenant)), message, answers);
    }

    /** Service.AnalyzeWithFallback never reports an error; it reports no result only when the
        winning call itself returned none; and it logs one usage row exactly when a provider won. */
    method AnalyzeWithFallback(tenant: int, message: string, messageID: Option<int>, listWorks: bool,
        logWorks: bool, answers: seq<Answer>)
      returns (result: Option<AnalysisResult>, error: Option<string>)
      requires Factory.Valid(factory.instances)
      requires |ListProviders(db.table.rows, tenant)| <= |answers|
      modifies this, factory
      ensures Factory.Valid(factory.instances)
      ensures error == None
      ensures var configs := Configs(ListProviders(db.table.rows, tenant));
              var (expected, winner) := if listWorks then
                  Outcome(old(factory.instances), configs, answers, message, 0)
                                        else (Some(Keyword.Analyse(message)), None);
              && result == expected
              && (result == None <==> winner.Some? && answers[winner.value].result == None)
              && usage == old(usage) + if winner.Some? && logWorks
                   then [UsageRow(tenant, configs[winner.value].id, messageID, 0, true, "analyze")] else []
    {
      ghost var configs := Configs(ListProviders(db.table.rows, tenant));
      OutcomeIsFirstSuccess(factory.instances, configs, answers, message, 0);
      var r, _ := Chain(tenant, message, listWorks, answers);
      if r.provider != None && logWorks {
        // No provider type satisfies usageAware, so the record carries no tokens.
        usage := usage + [UsageRow(tenant, r.id, messageID, 0, r.error == None, "analyze")];
      }
      if r.error != None && r.result != None {
        return r.result, None;
      }
      return r.result, r.error;
    }
  }
}
