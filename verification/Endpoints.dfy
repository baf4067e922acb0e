/** The dispatch table of router.go read the other way round: which paths and verbs each handler answers. */
module Endpoints {
  import opened Wrappers
  import opened Text
  import opened Gate
  import Keys

  // The rest of a path under this prefix, cut at its slashes.
  function Parts(rest: string, prefix: string): seq<string> {
    if HasPrefix(rest, prefix) then Segments(rest[|prefix|..]) else []
  }

  // An id, or an id and a word.
  predicate Item(parts: seq<string>) { |parts| == 1 && IsID(parts[0]) }

  predicate ItemWord(parts: seq<string>, word: string) { |parts| == 2 && IsID(parts[0]) && parts[1] == word }

  // An id and anything but these two words.
  predicate ItemNot(parts: seq<string>, one: string, other: string) {
    |parts| >= 1 && IsID(parts[0]) && (|parts| == 2 ==> parts[1] != one && parts[1] != other)
  }

  predicate AnswersFirst(h: Handler, rest: string, verb: string) {
    match h
    case GetDashboard => verb == "GET" && rest == "dashboard"
    case StreamDashboard => verb == "GET" && rest == "dashboard/stream"
    case ServeWS => verb == "GET" && rest == "ws"
    case ListConversations => verb == "GET" && rest == "conversations"
    case SummarizeConversation => verb == "POST" && rest == "conversations/summarize"
    case GetConversationMessages => verb == "GET" && ItemWord(Parts(rest, "conversations/"), "messages")
    case ReplyMessage => verb == "POST" && rest == "messages/reply"
    case ForwardMessage => verb == "POST" && rest == "messages/forward"
    case AnalyzeMessage => verb == "POST" && rest == "messages/analyze"
    case BatchAnalyze => verb == "POST" && rest == "messages/batch-analyze"
    case ListImportantMessages => verb == "GET" && rest == "important-messages"
    case ListActionItems => verb == "GET" && rest == "action-items"
    case CreateActionItem => verb == "POST" && rest == "action-items"
    case ListActionItemComments => verb == "GET" && ItemWord(Parts(rest, "action-items/"), "comments")
    case CreateActionItemComment => verb == "POST" && ItemWord(Parts(rest, "action-items/"), "comments")
    case UpdateActionItem => verb == "PATCH" && Item(Parts(rest, "action-items/"))
    case DeleteActionItem => verb == "DELETE" && Item(Parts(rest, "action-items/"))
    case GetDailySummary => verb == "GET" && rest == "daily-summary"
    case _ => false
  }

  predicate AnswersLLM(h: Handler, rest: string, verb: string) {
    match h
    case CreateProvider => verb == "POST" && rest == "llm/providers"
    case ListProviders => verb == "GET" && rest == "llm/providers"
    case GetProviderComparison => verb == "GET" && rest == "llm/providers/comparison"
    case TestProvider => verb == "POST" && ItemWord(Parts(rest, "llm/providers/"), "test")
    case GetProviderHistory => verb == "GET" && ItemWord(Parts(rest, "llm/providers/"), "history")
    case GetProvider => verb == "GET" && ItemNot(Parts(rest, "llm/providers/"), "test", "history")
    case UpdateProvider => verb in ["PUT", "PATCH"] && ItemNot(Parts(rest, "llm/providers/"), "test", "history")
    case DeleteProvider => verb == "DELETE" && ItemNot(Parts(rest, "llm/providers/"), "test", "history")
    case GetUsageStats => verb == "GET" && rest == "llm/usage"
    case GetCosts => verb == "GET" && rest == "llm/costs"
    case GetCostBreakdown => verb == "GET" && rest == "llm/analytics/cost-breakdown"
    case GetUsageByFeature => verb == "GET" && rest == "llm/analytics/usage-by-feature"
    case GetHealthStatus => verb == "GET" && rest == "llm/health"
    case GetFeatures => verb == "GET" && rest == "llm/features"
    case AssignProviderToFeature =>
      var parts := Parts(rest, "llm/features/");
      verb == "POST" && |parts| == 2 && parts[1] == "assign-provider"
    case GetFeatureProviders =>
      var parts := Parts(rest, "llm/features/");
      verb == "GET" && |parts| == 2 && parts[1] == "providers"
    case DeleteFeatureProvider =>
      var parts := Parts(rest, "llm/features/");
      verb == "DELETE" && |parts| == 3 && parts[1] == "providers" && IsID(parts[2])
    case BulkTestProviders => verb == "POST" && rest == "llm/bulk-test"
    case GetRecommendations => verb == "GET" && rest == "llm/recommendations"
    case _ => false
  }

  predicate AnswersTeam(h: Handler, rest: string, verb: string) {
    match h
    case AddTeamUser => verb == "POST" && rest == "team/users"
    case ListTeamUsers => verb == "GET" && rest == "team/users"
    case UpdateTeamUserRole => verb == "PATCH" && ItemWord(Parts(rest, "team/users/"), "role")
    case RemoveTeamUser => verb == "DELETE" && Item(Parts(rest, "team/users/"))
    case SendInvitation => verb == "POST" && rest == "team/invitations"
    case GetTeamActivity => verb == "GET" && rest == "team/activity"
    case CreateWorkflow => verb == "POST" && rest == "workflows"
    case ListWorkflows => verb == "GET" && rest == "workflows"
    case TestWorkflow => verb == "POST" && ItemWord(Parts(rest, "workflows/"), "test")
    case GetWorkflowExecutions => verb == "GET" && ItemWord(Parts(rest, "workflows/"), "executions")
    case UpdateWorkflow => verb == "PATCH" && ItemNot(Parts(rest, "workflows/"), "test", "executions")
    case DeleteWorkflow => verb == "DELETE" && ItemNot(Parts(rest, "workflows/"), "test", "executions")
    case ConnectIntegration => verb == "POST" && |Parts(rest, "integrations/")| == 1
    case GetIntegrationConfig => verb == "GET" && ItemWord(Parts(rest, "integrations/"), "config")
    case DisconnectIntegration => verb == "DELETE" && Item(Parts(rest, "integrations/"))
    case ListIntegrations => verb == "GET" && rest == "integrations"
    case _ => false
  }

  predicate AnswersLast(h: Handler, rest: string, verb: string) {
    match h
    case ReceiveWebhook => verb == "POST" && rest == "webhooks/incoming"
    case GetAuditLogs => verb == "POST" && rest == "audit-logs"
    case ListNotifications => verb == "POST" && rest == "notifications"
    case MarkNotificationRead => verb == "PATCH" && Item(Parts(rest, "notifications/"))
    case CreateLabel => verb == "POST" && rest == "labels"
    case AddLabelToMessage => verb == "POST" && ItemWord(Parts(rest, "messages/"), "labels")
    case DeleteComment => verb == "DELETE" && Item(Parts(rest, "comments/"))
    case Login => verb == "POST" && rest == "auth/login"
    case Register => verb == "POST" && rest == "auth/register"
    case StartWhatsAppAuth => verb == "GET" && rest == "auth/whatsapp/qr"
    case WhatsAppAuthStatus => verb == "GET" && rest == "auth/whatsapp/status"
    case SyncContacts => verb == "POST" && rest == "auth/whatsapp/sync-contacts"
    case LogoutWhatsApp => verb == "POST" && rest == "auth/logout"
    case Me => verb == "GET" && rest == "auth/me"
    case _ => false
  }

  predicate Answers(h: Handler, rest: string, verb: string) {
    AnswersFirst(h, rest, verb) || AnswersLLM(h, rest, verb) || AnswersTeam(h, rest, verb) || AnswersLast(h, rest, verb)
  }

  // ---------- Cutting at slashes ----------

  function Joined(parts: seq<string>): string
    requires parts != []
  {
    if |parts| == 1 then parts[0] else parts[0] + "/" + Joined(parts[1..])
  }

  ghost predicate NoSlashes(parts: seq<string>) { forall i :: 0 <= i < |parts| ==> '/' !in parts[i] }

  lemma {:induction false} SplitJoins(s: string)
    ensures Joined(Segments(s)) == s && NoSlashes(Segments(s))
  {
    if s != [] {
      SplitJoins(s[1..]);
      var more := Segments(s[1..]);
      if s[0] == '/' {
        assert Segments(s)[1..] == more;
        assert s == "" + "/" + s[1..];
      } else {
        assert Segments(s)[1..] == more[1..];
        assert s == [s[0]] + s[1..];
        JoinedLonger(s[0], more);
      }
    }
  }

  lemma JoinedLonger(c: char, parts: seq<string>)
    requires parts != []
    ensures Joined([[c] + parts[0]] + parts[1..]) == [c] + Joined(parts)
  {
    var longer := [[c] + parts[0]] + parts[1..];
    assert longer[1..] == parts[1..];
    if |parts| > 1 {
      assert [c] + parts[0] + "/" + Joined(parts[1..]) == [c] + (parts[0] + "/" + Joined(parts[1..]));
    }
  }

  lemma {:induction false} JoinSplits(parts: seq<string>)
    requires parts != [] && NoSlashes(parts)
    ensures Segments(Joined(parts)) == parts
    decreases |parts|, |parts[0]|
  {
    if parts[0] != [] {
      var shorter := [parts[0][1..]] + parts[1..];
      assert NoSlashes(shorter) by {
        assert forall i :: 0 < i < |shorter| ==> shorter[i] == parts[i];
      }
      JoinSplits(shorter);
      JoinedLonger(parts[0][0], shorter);
      assert [parts[0][0]] + shorter[0] == parts[0];
      assert [parts[0]] + shorter[1..] == parts;
      LetterSegment(parts[0][0], Joined(shorter));
    } else if |parts| > 1 {
      JoinSplits(parts[1..]);
      SlashSegment(Joined(parts[1..]));
      assert Joined(parts) == "/" + Joined(parts[1..]);
      assert [""] + parts[1..] == parts;
    } else {
      assert parts == [""];
    }
  }

  /** The segments of a path are its parts between the slashes. */
  lemma SegmentsExactly(s: string, parts: seq<string>)
    ensures Segments(s) == parts <==> parts != [] && NoSlashes(parts) && Joined(parts) == s
  {
    SplitJoins(s);
    if parts != [] && NoSlashes(parts) {
      JoinSplits(parts);
    }
  }

  // ---------- An id is one segment ----------

  lemma {:induction false} NoSlashOneSegment(s: string)
    requires '/' !in s
    ensures Segments(s) == [s]
  {
    if s != [] {
      NoSlashOneSegment(s[1..]);
      assert s == [s[0]] + s[1..];
    }
  }

  lemma IDHasNoSlash(s: string)
    requires IsID(s)
    ensures '/' !in s
  {
    var left, plus, zeros, right := Keys.ParseIDOnlySpellings(s);
    hide Keys.ParseID, Unsigned;
    assert !IsSpace('/') && !IsDigit('/');
  }

  // One segment that is an id, and the whole being an id, are the same.
  lemma WholeIsItem(tail: string)
    ensures Item(Segments(tail)) <==> IsID(tail)
    ensures IsID(tail) ==> Segments(tail) == [tail]
  {
    hide IsID;
    if IsID(tail) {
      IDHasNoSlash(tail);
      NoSlashOneSegment(tail);
    }
    if |Segments(tail)| == 1 {
      OneSegment(tail);
    }
  }

  // ---------- The inner tables ----------

  lemma ActionItemAnswers(tail: string, verb: string)
    ensures var r, parts := ActionItemRoutes(tail, verb), Segments(tail);
            && (r == Some(ListActionItemComments) <==> verb == "GET" && ItemWord(parts, "comments"))
            && (r == Some(CreateActionItemComment) <==> verb == "POST" && ItemWord(parts, "comments"))
            && (r == Some(UpdateActionItem) <==> verb == "PATCH" && Item(parts))
            && (r == Some(DeleteActionItem) <==> verb == "DELETE" && Item(parts))
            && r in [None, Some(ListActionItemComments), Some(CreateActionItemComment), Some(UpdateActionItem),
                     Some(DeleteActionItem)]
  {
    hide Segments, IsID;
    WholeIsItem(tail);
  }

  lemma ProviderAnswers(tail: string, verb: string)
    ensures var r, parts := ProviderRoutes(tail, verb), Segments(tail);
            && (r == Some(TestProvider) <==> verb == "POST" && ItemWord(parts, "test"))
            && (r == Some(GetProviderHistory) <==> verb == "GET" && ItemWord(parts, "history"))
            && (r == Some(GetProvider) <==> verb == "GET" && ItemNot(parts, "test", "history"))
            && (r == Some(UpdateProvider) <==> verb in ["PUT", "PATCH"] && ItemNot(parts, "test", "history"))
            && (r == Some(DeleteProvider) <==> verb == "DELETE" && ItemNot(parts, "test", "history"))
            && r in [None, Some(TestProvider), Some(GetProviderHistory), Some(GetProvider), Some(UpdateProvider),
                     Some(DeleteProvider)]
  {
    hide Segments, IsID;
  }

  lemma WorkflowAnswers(tail: string, verb: string)
    ensures var r, parts := WorkflowRoutes(tail, verb), Segments(tail);
            && (r == Some(TestWorkflow) <==> verb == "POST" && ItemWord(parts, "test"))
            && (r == Some(GetWorkflowExecutions) <==> verb == "GET" && ItemWord(parts, "executions"))
            && (r == Some(UpdateWorkflow) <==> verb == "PATCH" && ItemNot(parts, "test", "executions"))
            && (r == Some(DeleteWorkflow) <==> verb == "DELETE" && ItemNot(parts, "test", "executions"))
            && r in [None, Some(TestWorkflow), Some(GetWorkflowExecutions), Some(UpdateWorkflow), Some(DeleteWorkflow)]
  {
    hide Segments, IsID;
  }

  lemma FeatureAnswers(tail: string, verb: string)
    ensures var r, parts := FeatureRoutes(tail, verb), Segments(tail);
            && (r == Some(AssignProviderToFeature) <==> verb == "POST" && |parts| == 2 && parts[1] == "assign-provider")
            && (r == Some(GetFeatureProviders) <==> verb == "GET" && |parts| == 2 && parts[1] == "providers")
            && (r == Some(DeleteFeatureProvider) <==>
                  verb == "DELETE" && |parts| == 3 && parts[1] == "providers" && IsID(parts[2]))
            && r in [None, Some(AssignProviderToFeature), Some(GetFeatureProviders), Some(DeleteFeatureProvider)]
  {
    hide Segments, IsID;
  }

  lemma OtherAnswers(tail: string, verb: string)
    ensures var r, parts := TeamUserRoutes(tail, verb), Segments(tail);
            && (r == Some(UpdateTeamUserRole) <==> verb == "PATCH" && ItemWord(parts, "role"))
            && (r == Some(RemoveTeamUser) <==> verb == "DELETE" && Item(parts))
            && r in [None, Some(UpdateTeamUserRole), Some(RemoveTeamUser)]
    ensures var r, parts := IntegrationRoutes(tail, verb), Segments(tail);
            && (r == Some(ConnectIntegration) <==> verb == "POST" && |parts| == 1)
            && (r == Some(GetIntegrationConfig) <==> verb == "GET" && ItemWord(parts, "config"))
            && (r == Some(DisconnectIntegration) <==> verb == "DELETE" && Item(parts))
            && r in [None, Some(ConnectIntegration), Some(GetIntegrationConfig), Some(DisconnectIntegration)]
    ensures var parts := Segments(tail);
            && ConversationRoutes(tail, verb) ==
                 When(verb == "GET" && ItemWord(parts, "messages"), GetConversationMessages)
            && LabelRoutes(tail, verb) == When(verb == "POST" && ItemWord(parts, "labels"), AddLabelToMessage)
  {
    hide Segments, IsID;
  }

  // ---------- The groups ----------

  lemma FirstWords(rest: string, verb: string)
    ensures verb == "GET" && rest == "dashboard" ==> AnswersFirst(GetDashboard, rest, verb)
    ensures verb == "GET" && rest == "dashboard/stream" ==> AnswersFirst(StreamDashboard, rest, verb)
    ensures verb == "GET" && rest == "ws" ==> AnswersFirst(ServeWS, rest, verb)
    ensures verb == "GET" && rest == "conversations" ==> AnswersFirst(ListConversations, rest, verb)
    ensures verb == "POST" && rest == "conversations/summarize" ==> AnswersFirst(SummarizeConversation, rest, verb)
    ensures verb == "POST" && rest == "messages/reply" ==> AnswersFirst(ReplyMessage, rest, verb)
    ensures verb == "POST" && rest == "messages/forward" ==> AnswersFirst(ForwardMessage, rest, verb)
  {
    hide Item, ItemWord, ItemNot, Parts, IsID;
  }

  lemma MoreFirstWords(rest: string, verb: string)
    ensures verb == "POST" && rest == "messages/analyze" ==> AnswersFirst(AnalyzeMessage, rest, verb)
    ensures verb == "POST" && rest == "messages/batch-analyze" ==> AnswersFirst(BatchAnalyze, rest, verb)
    ensures verb == "GET" && rest == "important-messages" ==> AnswersFirst(ListImportantMessages, rest, verb)
    ensures verb == "GET" && rest == "action-items" ==> AnswersFirst(ListActionItems, rest, verb)
    ensures verb == "POST" && rest == "action-items" ==> AnswersFirst(CreateActionItem, rest, verb)
    ensures verb == "GET" && rest == "daily-summary" ==> AnswersFirst(GetDailySummary, rest, verb)
  {
    hide Item, ItemWord, ItemNot, Parts, IsID;
  }

  lemma FirstItems(rest: string, verb: string)
    ensures HasPrefix(rest, "conversations/") ==>
              var r := ConversationRoutes(rest[14..], verb); r.Some? ==> AnswersFirst(r.value, rest, verb)
    ensures HasPrefix(rest, "action-items/") ==>
              var r := ActionItemRoutes(rest[13..], verb); r.Some? ==> AnswersFirst(r.value, rest, verb)
  {
    hide Segments, IsID, Item, ItemWord, ActionItemRoutes, ConversationRoutes;
    if HasPrefix(rest, "conversations/") {
      OtherAnswers(rest[14..], verb);
    }
    if HasPrefix(rest, "action-items/") {
      ActionItemAnswers(rest[13..], verb);
    }
  }

  lemma FirstGroupAnswers(rest: string, verb: string)
    ensures var r := DispatchFirst(rest, verb, None); r.Some? ==> AnswersFirst(r.value, rest, verb)
  {
    hide HasPrefix, ActionItemRoutes, ConversationRoutes, AnswersFirst;
    PrefixIsShorter(rest, "conversations/");
    PrefixIsShorter(rest, "action-items/");
    FirstWords(rest, verb);
    MoreFirstWords(rest, verb);
    FirstItems(rest, verb);
  }

  lemma ProviderWords(rest: string, verb: string)
    ensures verb == "POST" && rest == "llm/providers" ==> AnswersLLM(CreateProvider, rest, verb)
    ensures verb == "GET" && rest == "llm/providers" ==> AnswersLLM(ListProviders, rest, verb)
    ensures verb == "GET" && rest == "llm/providers/comparison" ==> AnswersLLM(GetProviderComparison, rest, verb)
  {
    hide Item, ItemWord, ItemNot, Parts, IsID;
  }

  lemma UsageWords(rest: string, verb: string)
    ensures verb == "GET" && rest == "llm/usage" ==> AnswersLLM(GetUsageStats, rest, verb)
    ensures verb == "GET" && rest == "llm/costs" ==> AnswersLLM(GetCosts, rest, verb)
  {
    hide Item, ItemWord, ItemNot, Parts, IsID;
  }

  lemma BreakdownWords(rest: string, verb: string)
    ensures verb == "GET" && rest == "llm/analytics/cost-breakdown" ==> AnswersLLM(GetCostBreakdown, rest, verb)
    ensures verb == "GET" && rest == "llm/analytics/usage-by-feature" ==> AnswersLLM(GetUsageByFeature, rest, verb)
  {
    hide Item, ItemWord, ItemNot, Parts, IsID;
  }

  lemma FeatureWords(rest: string, verb: string)
    ensures verb == "GET" && rest == "llm/health" ==> AnswersLLM(GetHealthStatus, rest, verb)
    ensures verb == "GET" && rest == "llm/features" ==> AnswersLLM(GetFeatures, rest, verb)
    ensures verb == "POST" && rest == "llm/bulk-test" ==> AnswersLLM(BulkTestProviders, rest, verb)
    ensures verb == "GET" && rest == "llm/recommendations" ==> AnswersLLM(GetRecommendations, rest, verb)
  {
    hide Item, ItemWord, ItemNot, Parts, IsID;
  }

  lemma ProviderItems(rest: string, verb: string)
    requires HasPrefix(rest, "llm/providers/")
    ensures var r := ProviderRoutes(rest[14..], verb); r.Some? ==> AnswersLLM(r.value, rest, verb)
  {
    hide Segments, IsID, ItemWord, ItemNot, ProviderRoutes;
    ProviderAnswers(rest[14..], verb);
  }

  lemma FeatureItems(rest: string, verb: string)
    requires HasPrefix(rest, "llm/features/")
    ensures var r := FeatureRoutes(rest[13..], verb); r.Some? ==> AnswersLLM(r.value, rest, verb)
  {
    hide Segments, IsID, ItemWord, ItemNot, FeatureRoutes;
    FeatureAnswers(rest[13..], verb);
  }

  lemma LLMGroupAnswers(rest: string, verb: string)
    ensures var r := DispatchLLM(rest, verb, None); r.Some? ==> AnswersLLM(r.value, rest, verb)
  {
    hide ProviderRoutes, FeatureRoutes, AnswersLLM;
    ProviderWords(rest, verb);
    UsageWords(rest, verb);
    BreakdownWords(rest, verb);
    FeatureWords(rest, verb);
    if HasPrefix(rest, "llm/providers/") {
      ProviderItems(rest, verb);
    }
    if HasPrefix(rest, "llm/features/") {
      FeatureItems(rest, verb);
    }
  }

  lemma TeamWords(rest: string, verb: string)
    ensures verb == "POST" && rest == "team/users" ==> AnswersTeam(AddTeamUser, rest, verb)
    ensures verb == "GET" && rest == "team/users" ==> AnswersTeam(ListTeamUsers, rest, verb)
    ensures verb == "POST" && rest == "team/invitations" ==> AnswersTeam(SendInvitation, rest, verb)
    ensures verb == "GET" && rest == "team/activity" ==> AnswersTeam(GetTeamActivity, rest, verb)
    ensures verb == "POST" && rest == "workflows" ==> AnswersTeam(CreateWorkflow, rest, verb)
    ensures verb == "GET" && rest == "workflows" ==> AnswersTeam(ListWorkflows, rest, verb)
    ensures verb == "GET" && rest == "integrations" ==> AnswersTeam(ListIntegrations, rest, verb)
  {
    hide Item, ItemWord, ItemNot, Parts, IsID;
  }

  lemma TeamUserItems(rest: string, verb: string)
    requires HasPrefix(rest, "team/users/")
    ensures var r := TeamUserRoutes(rest[11..], verb); r.Some? ==> AnswersTeam(r.value, rest, verb)
  {
    hide Segments, IsID, Item, ItemWord, ItemNot, TeamUserRoutes;
    OtherAnswers(rest[11..], verb);
  }

  lemma WorkflowItems(rest: string, verb: string)
    requires HasPrefix(rest, "workflows/")
    ensures var r := WorkflowRoutes(rest[10..], verb); r.Some? ==> AnswersTeam(r.value, rest, verb)
  {
    hide Segments, IsID, Item, ItemWord, ItemNot, WorkflowRoutes;
    WorkflowAnswers(rest[10..], verb);
  }

  lemma IntegrationItems(rest: string, verb: string)
    requires HasPrefix(rest, "integrations/")
    ensures var r := IntegrationRoutes(rest[13..], verb); r.Some? ==> AnswersTeam(r.value, rest, verb)
  {
    hide Segments, IsID, Item, ItemWord, ItemNot, IntegrationRoutes;
    OtherAnswers(rest[13..], verb);
  }

  lemma TeamGroupAnswers(rest: string, verb: string)
    ensures var r := DispatchTeam(rest, verb, None); r.Some? ==> AnswersTeam(r.value, rest, verb)
  {
    hide TeamUserRoutes, WorkflowRoutes, IntegrationRoutes, AnswersTeam;
    TeamWords(rest, verb);
    if HasPrefix(rest, "team/users/") {
      TeamUserItems(rest, verb);
    }
    if HasPrefix(rest, "workflows/") {
      WorkflowItems(rest, verb);
    }
    if HasPrefix(rest, "integrations/") {
      IntegrationItems(rest, verb);
    }
  }

  lemma ListWords(rest: string, verb: string)
    ensures verb == "POST" && rest == "webhooks/incoming" ==> AnswersLast(ReceiveWebhook, rest, verb)
    ensures verb == "POST" && rest == "audit-logs" ==> AnswersLast(GetAuditLogs, rest, verb)
    ensures verb == "POST" && rest == "notifications" ==> AnswersLast(ListNotifications, rest, verb)
    ensures verb == "POST" && rest == "labels" ==> AnswersLast(CreateLabel, rest, verb)
  {
    hide Item, ItemWord, ItemNot, Parts, IsID;
  }

  lemma LoginWords(rest: string, verb: string)
    ensures verb == "POST" && rest == "auth/login" ==> AnswersLast(Login, rest, verb)
    ensures verb == "POST" && rest == "auth/register" ==> AnswersLast(Register, rest, verb)
  {
    hide Item, ItemWord, ItemNot, Parts, IsID;
  }

  lemma WhatsAppWords(rest: string, verb: string)
    ensures verb == "GET" && rest == "auth/whatsapp/qr" ==> AnswersLast(StartWhatsAppAuth, rest, verb)
    ensures verb == "GET" && rest == "auth/whatsapp/status" ==> AnswersLast(WhatsAppAuthStatus, rest, verb)
  {
    hide Item, ItemWord, ItemNot, Parts, IsID;
  }

  lemma ContactWords(rest: string, verb: string)
    ensures verb == "POST" && rest == "auth/whatsapp/sync-contacts" ==> AnswersLast(SyncContacts, rest, verb)
  {
    hide Item, ItemWord, ItemNot, Parts, IsID;
  }

  lemma UserWords(rest: string, verb: string)
    ensures verb == "POST" && rest == "auth/logout" ==> AnswersLast(LogoutWhatsApp, rest, verb)
    ensures verb == "GET" && rest == "auth/me" ==> AnswersLast(Me, rest, verb)
  {
    hide Item, ItemWord, ItemNot, Parts, IsID;
  }

  lemma LastItems(rest: string, verb: string)
    ensures HasPrefix(rest, "notifications/") ==> IsID(rest[14..]) && verb == "PATCH" ==>
              AnswersLast(MarkNotificationRead, rest, verb)
    ensures HasPrefix(rest, "comments/") ==> IsID(rest[9..]) && verb == "DELETE" ==>
              AnswersLast(DeleteComment, rest, verb)
    ensures HasPrefix(rest, "messages/") ==>
              var r := LabelRoutes(rest[9..], verb); r.Some? ==> AnswersLast(r.value, rest, verb)
  {
    hide Segments, IsID, Item, ItemWord, LabelRoutes;
    if HasPrefix(rest, "notifications/") {
      WholeIsItem(rest[14..]);
    }
    if HasPrefix(rest, "comments/") {
      WholeIsItem(rest[9..]);
    }
    if HasPrefix(rest, "messages/") {
      OtherAnswers(rest[9..], verb);
    }
  }

  lemma LastGroupAnswers(rest: string, verb: string)
    ensures var r := DispatchLast(rest, verb); r.Some? ==> AnswersLast(r.value, rest, verb)
  {
    hide HasPrefix, HasSuffix, IsID, LabelRoutes, AnswersLast;
    PrefixIsShorter(rest, "notifications/");
    PrefixIsShorter(rest, "comments/");
    PrefixIsShorter(rest, "messages/");
    ListWords(rest, verb);
    LoginWords(rest, verb);
    WhatsAppWords(rest, verb);
    ContactWords(rest, verb);
    UserWords(rest, verb);
    LastItems(rest, verb);
  }

  /** Whatever reaches a handler is one of its own paths with one of its verbs. */
  lemma HandlerAnswers(path: string, verb: string)
    requires Dispatch(path, verb).Some?
    ensures HasPrefix(path, API) && Answers(Dispatch(path, verb).value, path[|API|..], verb)
  {
    hide DispatchFirst, DispatchLLM, DispatchTeam, DispatchLast;
    hide AnswersFirst, AnswersLLM, AnswersTeam, AnswersLast;
    var rest := path[|API|..];
    var last := DispatchLast(rest, verb);
    var team := DispatchTeam(rest, verb, last);
    FirstDecides(rest, verb, DispatchLLM(rest, verb, team));
    LLMDecides(rest, verb, team);
    TeamDecides(rest, verb, last);
    FirstGroupAnswers(rest, verb);
    LLMGroupAnswers(rest, verb);
    TeamGroupAnswers(rest, verb);
    LastGroupAnswers(rest, verb);
  }
}
