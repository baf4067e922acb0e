/** The HTTP gate: which paths need a user (router.go), which role they need (rbac.go), and which
    handler the first-match dispatch of router.go picks. */
module Gate {
  import opened Wrappers
  import opened Text
  import Keys

  const API := "/api/v1/"

  // Every pattern of the two switches below starts with API.  The patterns are written
  // without it and compared with the rest of the path.

  // ---------- Authentication ----------

  predicate Exempt(rest: string) {
    || rest == "auth/login" || rest == "auth/register" || rest == "auth/whatsapp/qr"
    || rest == "auth/whatsapp/status" || rest == "webhooks/incoming"
  }

  predicate RequiresAuth(path: string) {
    HasPrefix(path, API) && !Exempt(path[|API|..])
  }

  // ---------- Roles ----------

  /** What a path may require. */
  datatype Role = NoRole | Viewer | Member | Manager | Admin | Owner

  function Name(role: Role): string {
    match role
    case NoRole => ""
    case Viewer => "viewer"
    case Member => "member"
    case Manager => "manager"
    case Admin => "admin"
    case Owner => "owner"
  }

  function RoleRank(role: string): nat {
    if role == "owner" then 5 else if role == "admin" then 4 else if role == "manager" then 3
    else if role == "member" then 2 else if role == "viewer" then 1 else 0
  }

  function RequiredRole(path: string, verb: string): Role {
    if !HasPrefix(path, API) then NoRole else RoleUnderApi(path, path[|API|..], verb)
  }

  // The cases of RequiredRole in their order, in four groups; `others` is what the later ones say.
  function RoleFirst(path: string, rest: string, verb: string, others: Role): Role {
    if rest == "ws" then Viewer
    else if rest == "dashboard" then Viewer
    else if rest == "dashboard/stream" then Viewer
    else if rest == "conversations" then Viewer
    else if HasPrefix(rest, "conversations/") && HasSuffix(path, "/messages") then Viewer
    else if rest == "messages/reply" then Member
    else if rest == "messages/forward" then Member
    else if rest == "important-messages" then Viewer
    else if HasPrefix(rest, "messages/") && HasSuffix(path, "/labels") then Member
    else if rest == "action-items" then if verb == "GET" then Viewer else Manager
    else if HasPrefix(rest, "action-items/") && HasSuffix(path, "/comments") then
      if verb == "GET" then Viewer else Member
    else if HasPrefix(rest, "action-items/") then Manager
    else if rest == "daily-summary" then Viewer
    else if rest == "conversations/summarize" then Member
    else others
  }

  function RoleLLM(rest: string, others: Role): Role {
    if rest == "llm/providers" then Admin
    else if rest == "llm/providers/comparison" then Admin
    else if HasPrefix(rest, "llm/providers/") then Admin
    else if rest == "llm/usage" then Manager
    else if rest == "llm/costs" then Manager
    else if rest == "llm/analytics/cost-breakdown" then Manager
    else if rest == "llm/analytics/usage-by-feature" then Manager
    else if rest == "llm/health" then Manager
    else if rest == "llm/features" then Admin
    else if HasPrefix(rest, "llm/features/") then Admin
    else if rest == "llm/bulk-test" then Admin
    else if rest == "llm/recommendations" then Manager
    else others
  }

  function RoleTeam(path: string, rest: string, verb: string, others: Role): Role {
    if rest == "team/users" then Admin
    else if HasPrefix(rest, "team/users/") then Admin
    else if rest == "team/invitations" then Admin
    else if rest == "team/activity" then Manager
    else if rest == "workflows" then if verb == "GET" then Manager else Admin
    else if HasPrefix(rest, "workflows/") then
      if HasSuffix(path, "/executions") then Manager else Admin
    else if HasPrefix(rest, "integrations") then Admin
    else others
  }

  function RoleLast(rest: string): Role {
    if rest == "webhooks/incoming" then NoRole
    else if rest == "audit-logs" then Admin
    else if rest == "notifications" then Member
    else if HasPrefix(rest, "notifications/") then Member
    else if rest == "labels" then Manager
    else if HasPrefix(rest, "comments/") then Member
    else Viewer
  }

  function RoleUnderApi(path: string, rest: string, verb: string): Role {
    if rest == "auth/login" || rest == "auth/register" then NoRole
    else if rest == "auth/whatsapp/qr" || rest == "auth/whatsapp/status" then NoRole
    else RoleFirst(path, rest, verb, RoleLLM(rest, RoleTeam(path, rest, verb, RoleLast(rest))))
  }

  // The first characters of the cases in the three later groups.
  predicate Later(rest: string) {
    |rest| >= 6 &&
    (|| (rest[0] == 'l' && rest[1] == 'l') || rest[0] == 't' || (rest[0] == 'w' && (rest[1] == 'o' || rest[1] == 'e'))
     || (rest[0] == 'i' && rest[1] == 'n') || (rest[0] == 'a' && rest[1] == 'u') || rest[0] == 'n'
     || (rest[0] == 'l' && rest[1] == 'a') || (rest[0] == 'c' && rest[1] == 'o' && rest[2] == 'm'))
  }

  lemma RoleFirstPassesBy(path: string, rest: string, verb: string, others: Role)
    requires Later(rest)
    ensures RoleFirst(path, rest, verb, others) == others
  {
    hide RoleFirst;
    if rest[0] in "ltn" {
      OtherLettersPassBy(path, rest, verb, others);
    } else if rest[0] in "wi" {
      WorkflowsAndIntegrationsPassBy(path, rest, verb, others);
    } else {
      AuthAndCommentsPassBy(path, rest, verb, others);
    }
  }

  lemma OtherLettersPassBy(path: string, rest: string, verb: string, others: Role)
    requires rest != [] && rest[0] in "ltn"
    ensures RoleFirst(path, rest, verb, others) == others
  {
    hide HasSuffix;
    assert rest[0] == 'l' || rest[0] == 't' || rest[0] == 'n';
  }

  lemma WorkflowsAndIntegrationsPassBy(path: string, rest: string, verb: string, others: Role)
    requires |rest| >= 6 && ((rest[0] == 'w' && rest[1] != 's') || (rest[0] == 'i' && rest[1] == 'n'))
    ensures RoleFirst(path, rest, verb, others) == others
  {
    hide HasSuffix;
  }

  lemma AuthAndCommentsPassBy(path: string, rest: string, verb: string, others: Role)
    requires |rest| >= 6
    requires (rest[0] == 'a' && rest[1] == 'u') || (rest[0] == 'c' && rest[1] == 'o' && rest[2] == 'm')
    ensures RoleFirst(path, rest, verb, others) == others
  {
    hide HasSuffix;
  }

  lemma RoleLLMPassesBy(rest: string, others: Role)
    requires rest == [] || rest[0] != 'l' || (|rest| > 1 && rest[1] != 'l')
    ensures RoleLLM(rest, others) == others
  {
    hide RoleLLM;
    if rest == [] || rest[0] != 'l' {
      RoleLLMNeedsL(rest, others);
    } else {
      RoleLLMNeedsSecondL(rest, others);
    }
  }

  lemma RoleLLMNeedsL(rest: string, others: Role)
    requires rest == [] || rest[0] != 'l'
    ensures RoleLLM(rest, others) == others
  {
  }

  lemma NoLLMPrefix(rest: string)
    requires |rest| > 1 && rest[1] != 'l'
    ensures !HasPrefix(rest, "llm/providers/") && !HasPrefix(rest, "llm/features/")
  {
  }

  lemma RoleLLMNeedsSecondL(rest: string, others: Role)
    requires |rest| > 1 && rest[1] != 'l'
    ensures RoleLLM(rest, others) == others
  {
    hide HasPrefix;
    NoLLMPrefix(rest);
  }

  lemma RoleTeamPassesBy(path: string, rest: string, verb: string, others: Role)
    requires |rest| >= 2 && rest[0] != 't' && rest[0] != 'i' && (rest[0] != 'w' || rest[1] == 'e')
    ensures RoleTeam(path, rest, verb, others) == others
  {
  }

  lemma WebhookNeedsNoRole(path: string, verb: string)
    ensures RoleUnderApi(path, "webhooks/incoming", verb) == NoRole
  {
    hide RoleFirst, RoleLLM, RoleTeam;
    var rest := "webhooks/incoming";
    assert rest[0] == 'w' && rest[1] == 'e' && |rest| == 17;
    RoleTeamPassesBy(path, rest, verb, RoleLast(rest));
    RoleLLMPassesBy(rest, RoleLast(rest));
    RoleFirstPassesBy(path, rest, verb, RoleLast(rest));
  }

  lemma FirstKeepsNeed(path: string, rest: string, verb: string, others: Role)
    requires others != NoRole
    ensures RoleFirst(path, rest, verb, others) != NoRole
  {
    hide HasPrefix, HasSuffix;
  }

  lemma LLMAndTeamKeepNeed(path: string, rest: string, verb: string, others: Role)
    requires others != NoRole
    ensures RoleLLM(rest, others) != NoRole
    ensures RoleTeam(path, rest, verb, others) != NoRole
  {
    hide HasPrefix, HasSuffix;
  }

  lemma OthersNeedRole(path: string, rest: string, verb: string)
    requires !Exempt(rest)
    ensures RoleUnderApi(path, rest, verb) != NoRole
  {
    hide RoleFirst, RoleLLM, RoleTeam;
    var last := RoleLast(rest);
    LLMAndTeamKeepNeed(path, rest, verb, last);
    LLMAndTeamKeepNeed(path, rest, verb, RoleTeam(path, rest, verb, last));
    FirstKeepsNeed(path, rest, verb, RoleLLM(rest, RoleTeam(path, rest, verb, last)));
  }

  /** A path needs a role exactly when it needs a user. */
  lemma GateAgreement(path: string, verb: string)
    ensures RequiredRole(path, verb) == NoRole <==> !RequiresAuth(path)
  {
    hide RoleFirst, RoleLLM, RoleTeam, RoleLast;
    if HasPrefix(path, API) {
      var rest := path[|API|..];
      if rest == "webhooks/incoming" {
        WebhookNeedsNoRole(path, verb);
      } else if !Exempt(rest) {
        OthersNeedRole(path, rest, verb);
      }
    }
  }

  // ---------- Authorization ----------

  // The rank comparison of Authorize; `role` is what users_extended says about the user, if anything.
  function Authorize(role: Option<string>, required: Role): bool {
    if required == NoRole then true
    else
      var held := if role.Some? && role.value != "" then role.value else Name(Viewer);
      RoleRank(ToLower(held)) >= RoleRank(ToLower(Name(required)))
  }

  // The roles in rank order.
  function Rank(role: Role): nat {
    match role
    case NoRole => 0 case Viewer => 1 case Member => 2 case Manager => 3 case Admin => 4 case Owner => 5
  }

  lemma NameHasRank(role: Role)
    ensures ToLower(Name(role)) == Name(role) && RoleRank(Name(role)) == Rank(role)
  {
  }

  // The role a user has: a missing one counts as viewer, and a word that is no role's name as none.
  ghost function HeldRole(role: Option<string>): Role {
    if role == None || role.value == "" || Spells(role.value, "viewer") then Viewer
    else if Spells(role.value, "member") then Member
    else if Spells(role.value, "manager") then Manager
    else if Spells(role.value, "admin") then Admin
    else if Spells(role.value, "owner") then Owner
    else NoRole
  }

  lemma SpellsName(s: string, role: Role)
    ensures ToLower(s) == Name(role) <==> Spells(s, Name(role))
  {
    LowerIsWord(s, Name(role));
  }

  lemma RankOfHeld(role: Option<string>)
    ensures var held := if role.Some? && role.value != "" then role.value else Name(Viewer);
            RoleRank(ToLower(held)) == Rank(HeldRole(role))
  {
    var held := if role.Some? && role.value != "" then role.value else Name(Viewer);
    if held == Name(Viewer) {
      NameHasRank(Viewer);
      SpellsName(held, Viewer);
    } else {
      hide Spells, ToLower;
      SpellsName(held, Viewer);
      SpellsName(held, Member);
      SpellsName(held, Manager);
      SpellsName(held, Admin);
      SpellsName(held, Owner);
    }
  }

  /** A user is let in exactly if the rank of the role held, whatever its capitalisation, is at least that
      of the role required. */
  lemma AuthorizeExactly(role: Option<string>, required: Role)
    ensures Authorize(role, required) <==> Rank(HeldRole(role)) >= Rank(required)
  {
    hide HeldRole, RoleRank;
    RankOfHeld(role);
    NameHasRank(required);
  }

  /** Access is monotone in rank on every path, an owner is admitted everywhere, and a role nobody
      knows (or a missing one, which counts as viewer) is admitted where its rank suffices. */
  lemma AccessMonotone(path: string, verb: string, lower: string, higher: string)
    requires lower != "" && higher != ""
    requires RoleRank(ToLower(lower)) <= RoleRank(ToLower(higher))
    ensures Authorize(Some(lower), RequiredRole(path, verb)) ==> Authorize(Some(higher), RequiredRole(path, verb))
    ensures Authorize(Some(Name(Owner)), RequiredRole(path, verb))
    ensures Authorize(None, RequiredRole(path, verb)) <==> RequiredRole(path, verb) in [NoRole, Viewer]
    ensures RoleRank(ToLower(lower)) == 0 ==>
              (Authorize(Some(lower), RequiredRole(path, verb)) <==> !RequiresAuth(path))
  {
    var required := RequiredRole(path, verb);
    GateAgreement(path, verb);
    NameHasRank(Owner);
    NameHasRank(Viewer);
    NameHasRank(required);
    hide RequiredRole, RequiresAuth, RoleRank;
  }

  // ---------- Dispatch ----------

  datatype Handler =
    | GetDashboard | StreamDashboard | ServeWS
    | ListConversations | SummarizeConversation | GetConversationMessages
    | ReplyMessage | ForwardMessage | AnalyzeMessage | BatchAnalyze | ListImportantMessages
    | ListActionItems | CreateActionItem | ListActionItemComments | CreateActionItemComment
    | UpdateActionItem | DeleteActionItem | GetDailySummary
    | CreateProvider | ListProviders | GetProviderComparison | TestProvider | GetProviderHistory
    | GetProvider | UpdateProvider | DeleteProvider
    | GetUsageStats | GetCosts | GetCostBreakdown | GetUsageByFeature | GetHealthStatus
    | GetFeatures | AssignProviderToFeature | GetFeatureProviders | DeleteFeatureProvider
    | BulkTestProviders | GetRecommendations
    | AddTeamUser | ListTeamUsers | UpdateTeamUserRole | RemoveTeamUser | SendInvitation | GetTeamActivity
    | CreateWorkflow | ListWorkflows | TestWorkflow | GetWorkflowExecutions | UpdateWorkflow | DeleteWorkflow
    | ConnectIntegration | GetIntegrationConfig | DisconnectIntegration | ListIntegrations
    | ReceiveWebhook | GetAuditLogs | ListNotifications | MarkNotificationRead
    | CreateLabel | AddLabelToMessage | DeleteComment
    | Login | Register | StartWhatsAppAuth | WhatsAppAuthStatus | SyncContacts | LogoutWhatsApp | Me

  predicate Public(h: Handler) {
    h.Login? || h.Register? || h.StartWhatsAppAuth? || h.WhatsAppAuthStatus? || h.ReceiveWebhook?
  }

  // strings.Split(s, "/")
  function Segments(s: string): (segments: seq<string>)
    ensures |segments| >= 1
  {
    if s == [] then [""]
    else
      var more := Segments(s[1..]);
      if s[0] == '/' then [""] + more else [[s[0]] + more[0]] + more[1..]
  }

  function When(c: bool, h: Handler): Option<Handler> { if c then Some(h) else None }

  predicate IsID(part: string) { Keys.ParseID(part).Some? }

  function ActionItemRoutes(tail: string, verb: string): Option<Handler> {
    var segments := Segments(tail);
    if |segments| == 2 && segments[1] == "comments" then
      if !IsID(segments[0]) then None
      else if verb == "GET" then Some(ListActionItemComments)
      else if verb == "POST" then Some(CreateActionItemComment)
      else None
    else if !IsID(tail) then None
    else if verb == "PATCH" then Some(UpdateActionItem)
    else if verb == "DELETE" then Some(DeleteActionItem)
    else None
  }

  function ProviderRoutes(tail: string, verb: string): Option<Handler> {
    var segments := Segments(tail);
    if !IsID(segments[0]) then None
    else if |segments| == 2 && segments[1] == "test" then When(verb == "POST", TestProvider)
    else if |segments| == 2 && segments[1] == "history" then When(verb == "GET", GetProviderHistory)
    else if verb == "GET" then Some(GetProvider)
    else if verb == "PUT" || verb == "PATCH" then Some(UpdateProvider)
    else if verb == "DELETE" then Some(DeleteProvider)
    else None
  }

  function FeatureRoutes(tail: string, verb: string): Option<Handler> {
    var segments := Segments(tail);
    if |segments| == 2 && segments[1] == "assign-provider" && verb == "POST" then Some(AssignProviderToFeature)
    else if |segments| == 2 && segments[1] == "providers" && verb == "GET" then Some(GetFeatureProviders)
    else When(|segments| == 3 && segments[1] == "providers" && verb == "DELETE" &&
        IsID(segments[2]), DeleteFeatureProvider)
  }

  function TeamUserRoutes(tail: string, verb: string): Option<Handler> {
    var segments := Segments(tail);
    if |segments| == 2 && segments[1] == "role" then
      When(verb == "PATCH" && IsID(segments[0]), UpdateTeamUserRole)
    else
      When(|segments| == 1 && verb == "DELETE" && IsID(segments[0]), RemoveTeamUser)
  }

  function WorkflowRoutes(tail: string, verb: string): Option<Handler> {
    var segments := Segments(tail);
    if !IsID(segments[0]) then None
    else if |segments| == 2 && segments[1] == "test" then When(verb == "POST", TestWorkflow)
    else if |segments| == 2 && segments[1] == "executions" then When(verb == "GET", GetWorkflowExecutions)
    else if verb == "PATCH" then Some(UpdateWorkflow)
    else if verb == "DELETE" then Some(DeleteWorkflow)
    else None
  }

  function IntegrationRoutes(tail: string, verb: string): Option<Handler> {
    var segments := Segments(tail);
    if |segments| == 1 && verb == "POST" then Some(ConnectIntegration)
    else if |segments| == 2 && segments[1] == "config" && verb == "GET" &&
        IsID(segments[0]) then Some(GetIntegrationConfig)
    else When(|segments| == 1 && verb == "DELETE" && IsID(segments[0]), DisconnectIntegration)
  }

  function ConversationRoutes(tail: string, verb: string): Option<Handler> {
    var segments := Segments(tail);
    When(|segments| == 2 && segments[1] == "messages" && verb == "GET" && IsID(segments[0]), GetConversationMessages)
  }

  function LabelRoutes(tail: string, verb: string): Option<Handler> {
    var segments := Segments(tail);
    When(verb == "POST" && |segments| == 2 && segments[1] == "labels" && IsID(segments[0]), AddLabelToMessage)
  }

  // The first case whose pattern matches decides, even when its verb does not.
  function DispatchFirst(rest: string, verb: string, others: Option<Handler>): Option<Handler> {
    if rest == "dashboard" then When(verb == "GET", GetDashboard)
    else if rest == "dashboard/stream" then When(verb == "GET", StreamDashboard)
    else if rest == "ws" then When(verb == "GET", ServeWS)
    else if rest == "conversations" then When(verb == "GET", ListConversations)
    else if rest == "conversations/summarize" then When(verb == "POST", SummarizeConversation)
    else if HasPrefix(rest, "conversations/") then ConversationRoutes(rest[14..], verb)
    else if rest == "messages/reply" then When(verb == "POST", ReplyMessage)
    else if rest == "messages/forward" then When(verb == "POST", ForwardMessage)
    else if rest == "messages/analyze" then When(verb == "POST", AnalyzeMessage)
    else if rest == "messages/batch-analyze" then When(verb == "POST", BatchAnalyze)
    else if rest == "important-messages" then When(verb == "GET", ListImportantMessages)
    else if rest == "action-items" then
      if verb == "GET" then Some(ListActionItems) else When(verb == "POST", CreateActionItem)
    else if HasPrefix(rest, "action-items/") then ActionItemRoutes(rest[13..], verb)
    else if rest == "daily-summary" then When(verb == "GET", GetDailySummary)
    else others
  }

  function DispatchLLM(rest: string, verb: string, others: Option<Handler>): Option<Handler> {
    if rest == "llm/providers" then
      if verb == "POST" then Some(CreateProvider) else When(verb == "GET", ListProviders)
    else if rest == "llm/providers/comparison" then When(verb == "GET", GetProviderComparison)
    else if HasPrefix(rest, "llm/providers/") then ProviderRoutes(rest[14..], verb)
    else if rest == "llm/usage" then When(verb == "GET", GetUsageStats)
    else if rest == "llm/costs" then When(verb == "GET", GetCosts)
    else if rest == "llm/analytics/cost-breakdown" then When(verb == "GET", GetCostBreakdown)
    else if rest == "llm/analytics/usage-by-feature" then When(verb == "GET", GetUsageByFeature)
    else if rest == "llm/health" then When(verb == "GET", GetHealthStatus)
    else if rest == "llm/features" then When(verb == "GET", GetFeatures)
    else if HasPrefix(rest, "llm/features/") then FeatureRoutes(rest[13..], verb)
    else if rest == "llm/bulk-test" then When(verb == "POST", BulkTestProviders)
    else if rest == "llm/recommendations" then When(verb == "GET", GetRecommendations)
    else others
  }

  function DispatchTeam(rest: string, verb: string, others: Option<Handler>): Option<Handler> {
    if rest == "team/users" then
      if verb == "POST" then Some(AddTeamUser) else When(verb == "GET", ListTeamUsers)
    else if HasPrefix(rest, "team/users/") then TeamUserRoutes(rest[11..], verb)
    else if rest == "team/invitations" then When(verb == "POST", SendInvitation)
    else if rest == "team/activity" then When(verb == "GET", GetTeamActivity)
    else if rest == "workflows" then
      if verb == "POST" then Some(CreateWorkflow) else When(verb == "GET", ListWorkflows)
    else if HasPrefix(rest, "workflows/") then WorkflowRoutes(rest[10..], verb)
    else if HasPrefix(rest, "integrations/") then IntegrationRoutes(rest[13..], verb)
    else if rest == "integrations" then When(verb == "GET", ListIntegrations)
    else others
  }

  function DispatchLast(rest: string, verb: string): Option<Handler> {
    if rest == "webhooks/incoming" then When(verb == "POST", ReceiveWebhook)
    else if rest == "audit-logs" then When(verb == "POST", GetAuditLogs)
    else if rest == "notifications" then When(verb == "POST", ListNotifications)
    else if HasPrefix(rest, "notifications/") then When(verb == "PATCH" && IsID(rest[14..]), MarkNotificationRead)
    else if rest == "labels" then When(verb == "POST", CreateLabel)
    else if HasPrefix(rest, "messages/") && HasSuffix(API + rest, "/labels") then LabelRoutes(rest[9..], verb)
    else if HasPrefix(rest, "comments/") then When(verb == "DELETE" && IsID(rest[9..]), DeleteComment)
    else DispatchAuth(rest, verb)
  }

  function DispatchAuth(rest: string, verb: string): Option<Handler> {
    if rest == "auth/login" then When(verb == "POST", Login)
    else if rest == "auth/register" then When(verb == "POST", Register)
    else if rest == "auth/whatsapp/qr" then When(verb == "GET", StartWhatsAppAuth)
    else if rest == "auth/whatsapp/status" then When(verb == "GET", WhatsAppAuthStatus)
    else if rest == "auth/whatsapp/sync-contacts" then When(verb == "POST", SyncContacts)
    else if rest == "auth/logout" then When(verb == "POST", LogoutWhatsApp)
    else When(rest == "auth/me" && verb == "GET", Me)
  }

  function Dispatch(path: string, verb: string): Option<Handler> {
    if !HasPrefix(path, API) then None
    else
      var rest := path[|API|..];
      DispatchFirst(rest, verb, DispatchLLM(rest, verb, DispatchTeam(rest, verb, DispatchLast(rest, verb))))
  }

  // An exempt path passes by every case of the earlier groups.
  lemma NoAuthPrefix(rest: string)
    requires |rest| >= 10 && rest[0] == 'a' && rest[1] == 'u'
    ensures !HasPrefix(rest, "conversations/") && !HasPrefix(rest, "action-items/")
  {
  }

  lemma AuthPassesBy(rest: string, verb: string, others: Option<Handler>)
    requires |rest| >= 10 && rest[0] == 'a' && rest[1] == 'u'
    ensures DispatchFirst(rest, verb, others) == others
  {
    hide HasPrefix;
    NoAuthPrefix(rest);
  }

  lemma PassesByW(rest: string, verb: string, others: Option<Handler>)
    requires |rest| >= 10 && rest[0] == 'w'
    ensures DispatchFirst(rest, verb, others) == others
  {
  }

  lemma ExemptPassesBy(rest: string, verb: string, others: Option<Handler>)
    requires Exempt(rest)
    ensures DispatchFirst(rest, verb, others) == others
  {
    assert |rest| >= 10 && ((rest[0] == 'a' && rest[1] == 'u') || rest[0] == 'w');
    hide Exempt, DispatchFirst;
    if rest[0] == 'w' {
      PassesByW(rest, verb, others);
    } else {
      AuthPassesBy(rest, verb, others);
    }
  }

  lemma PassesByLLM(rest: string, verb: string, others: Option<Handler>)
    requires rest != [] && rest[0] != 'l'
    ensures DispatchLLM(rest, verb, others) == others
  {
  }

  lemma ExemptPassesByLLM(rest: string, verb: string, others: Option<Handler>)
    requires Exempt(rest)
    ensures DispatchLLM(rest, verb, others) == others
  {
    hide DispatchLLM;
    assert rest[0] in "aw";
    PassesByLLM(rest, verb, others);
  }

  lemma AuthPassesByTeam(rest: string, verb: string, others: Option<Handler>)
    requires rest != [] && rest[0] == 'a'
    ensures DispatchTeam(rest, verb, others) == others
  {
  }

  lemma WebhookPassesByTeam(rest: string, verb: string, others: Option<Handler>)
    requires |rest| >= 2 && rest[0] == 'w' && rest[1] == 'e'
    ensures DispatchTeam(rest, verb, others) == others
  {
  }

  lemma ExemptPassesByTeam(rest: string, verb: string, others: Option<Handler>)
    requires Exempt(rest)
    ensures DispatchTeam(rest, verb, others) == others
  {
    assert |rest| >= 10 && (rest[0] == 'a' || (rest[0] == 'w' && rest[1] == 'e'));
    hide Exempt, DispatchTeam;
    if rest[0] == 'w' {
      WebhookPassesByTeam(rest, verb, others);
    } else {
      AuthPassesByTeam(rest, verb, others);
    }
  }

  lemma ExemptIsPublic(rest: string, verb: string)
    requires Exempt(rest)
    ensures var h := DispatchLast(rest, verb); h.Some? ==> Public(h.value)
  {
    hide HasPrefix, DispatchAuth, LabelRoutes, Public;
    if rest == "webhooks/incoming" {
      WebhookIsPublic();
    } else {
      OpenIsAuth(rest);
      AuthIsLast(rest, verb);
      if DispatchAuth(rest, verb).Some? {
        AuthPublic(rest, verb);
      }
    }
  }

  lemma WebhookIsPublic()
    ensures Public(ReceiveWebhook)
  {
  }

  predicate Open(rest: string) {
    rest == "auth/login" || rest == "auth/register" || rest == "auth/whatsapp/qr" || rest == "auth/whatsapp/status"
  }

  predicate UnderAuth(rest: string) { HasPrefix(rest, "auth/") }

  lemma OpenIsAuth(rest: string)
    requires Open(rest)
    ensures UnderAuth(rest)
  {
  }

  lemma AuthIsLast(rest: string, verb: string)
    requires UnderAuth(rest)
    ensures DispatchLast(rest, verb) == DispatchAuth(rest, verb) && RoleLast(rest) == Viewer
  {
    hide IsID, LabelRoutes, DispatchAuth;
    assert |rest| >= 5 && rest[0] == 'a' && rest[1] == 'u' && rest[2] == 't';
  }

  lemma AuthPublic(rest: string, verb: string)
    requires DispatchAuth(rest, verb).Some?
    ensures Public(DispatchAuth(rest, verb).value) <==> Open(rest)
  {
  }

  lemma PublicIsExempt(rest: string, verb: string)
    ensures var h := DispatchLast(rest, verb); h.Some? && Public(h.value) ==> Exempt(rest)
  {
    hide HasPrefix, HasSuffix, DispatchAuth, IsID, LabelRoutes;
    if DispatchAuth(rest, verb).Some? {
      AuthPublic(rest, verb);
    }
    PrefixIsShorter(rest, "messages/");
    if |rest| >= 9 {
      LabelRoutesLabel(rest[9..], verb);
    }
  }

  lemma LabelRoutesLabel(tail: string, verb: string)
    ensures LabelRoutes(tail, verb) in [None, Some(AddLabelToMessage)]
  {
  }

  // The handlers of the first groups are not public, and only one group changes workflows.
  predicate ChangesWorkflow(h: Handler) { h.UpdateWorkflow? || h.DeleteWorkflow? }

  predicate Guarded(h: Option<Handler>) { h.Some? ==> !Public(h.value) }

  predicate Ordinary(h: Option<Handler>) { h.Some? ==> !Public(h.value) && !ChangesWorkflow(h.value) }

  lemma InnerRoutesOrdinary(tail: string, verb: string)
    ensures Ordinary(ConversationRoutes(tail, verb)) && Ordinary(ActionItemRoutes(tail, verb))
  {
    hide Segments, IsID;
  }

  lemma ProviderRoutesOrdinary(tail: string, verb: string)
    ensures Ordinary(ProviderRoutes(tail, verb)) && Ordinary(FeatureRoutes(tail, verb))
  {
    hide Segments, IsID;
  }

  lemma TeamRoutesGuarded(tail: string, verb: string)
    ensures Guarded(TeamUserRoutes(tail, verb)) && Guarded(WorkflowRoutes(tail, verb))
    ensures Guarded(IntegrationRoutes(tail, verb))
  {
    hide Segments, IsID;
  }

  lemma PrefixIsShorter(rest: string, p: string)
    ensures HasPrefix(rest, p) ==> |p| <= |rest|
  {
  }

  lemma FirstHandlersOrdinary()
    ensures Ordinary(None) && Ordinary(Some(GetDashboard)) && Ordinary(Some(StreamDashboard)) && Ordinary(Some(ServeWS))
    ensures Ordinary(Some(ListConversations)) && Ordinary(Some(SummarizeConversation)) && Ordinary(Some(ReplyMessage))
    ensures Ordinary(Some(ForwardMessage)) && Ordinary(Some(AnalyzeMessage)) && Ordinary(Some(BatchAnalyze))
    ensures Ordinary(Some(ListImportantMessages)) && Ordinary(Some(ListActionItems)) && Ordinary(Some(CreateActionItem))
    ensures Ordinary(Some(GetDailySummary))
  {
  }

  lemma FirstOrdinary(rest: string, verb: string)
    ensures Ordinary(DispatchFirst(rest, verb, None))
  {
    hide HasPrefix, ConversationRoutes, ActionItemRoutes, Ordinary;
    FirstHandlersOrdinary();
    PrefixIsShorter(rest, "conversations/");
    PrefixIsShorter(rest, "action-items/");
    if |rest| >= 14 {
      InnerRoutesOrdinary(rest[14..], verb);
    }
    if |rest| >= 13 {
      InnerRoutesOrdinary(rest[13..], verb);
    }
  }

  lemma LLMHandlersOrdinary()
    ensures Ordinary(None) && Ordinary(Some(CreateProvider)) && Ordinary(Some(ListProviders))
    ensures Ordinary(Some(GetProviderComparison)) && Ordinary(Some(GetUsageStats)) && Ordinary(Some(GetCosts))
    ensures Ordinary(Some(GetCostBreakdown)) && Ordinary(Some(GetUsageByFeature)) && Ordinary(Some(GetHealthStatus))
    ensures Ordinary(Some(GetFeatures)) && Ordinary(Some(BulkTestProviders)) && Ordinary(Some(GetRecommendations))
  {
  }

  lemma LLMOrdinary(rest: string, verb: string)
    ensures Ordinary(DispatchLLM(rest, verb, None))
  {
    hide HasPrefix, ProviderRoutes, FeatureRoutes, Ordinary;
    LLMHandlersOrdinary();
    PrefixIsShorter(rest, "llm/providers/");
    PrefixIsShorter(rest, "llm/features/");
    if |rest| >= 14 {
      ProviderRoutesOrdinary(rest[14..], verb);
    }
    if |rest| >= 13 {
      ProviderRoutesOrdinary(rest[13..], verb);
    }
  }

  lemma TeamGuarded(rest: string, verb: string)
    ensures Guarded(DispatchTeam(rest, verb, None))
  {
    hide HasPrefix, TeamUserRoutes, WorkflowRoutes, IntegrationRoutes;
    PrefixIsShorter(rest, "team/users/");
    PrefixIsShorter(rest, "workflows/");
    PrefixIsShorter(rest, "integrations/");
    if |rest| >= 10 {
      TeamRoutesGuarded(rest[10..], verb);
    }
    if |rest| >= 11 {
      TeamRoutesGuarded(rest[11..], verb);
    }
    if |rest| >= 13 {
      TeamRoutesGuarded(rest[13..], verb);
    }
  }

  // Each group of cases decides by itself or hands over.
  lemma FirstDecides(rest: string, verb: string, others: Option<Handler>)
    ensures DispatchFirst(rest, verb, others) in [others, DispatchFirst(rest, verb, None)]
  {
    hide HasPrefix, ConversationRoutes, ActionItemRoutes;
  }

  lemma LLMDecides(rest: string, verb: string, others: Option<Handler>)
    ensures DispatchLLM(rest, verb, others) in [others, DispatchLLM(rest, verb, None)]
  {
    hide HasPrefix, ProviderRoutes, FeatureRoutes;
  }

  lemma TeamDecides(rest: string, verb: string, others: Option<Handler>)
    ensures DispatchTeam(rest, verb, others) in [others, DispatchTeam(rest, verb, None)]
  {
    hide HasPrefix, TeamUserRoutes, WorkflowRoutes, IntegrationRoutes;
  }

  lemma ExemptDispatch(rest: string, verb: string, last: Option<Handler>, team: Option<Handler>, llm: Option<Handler>)
    requires Exempt(rest) && last == DispatchLast(rest, verb)
    requires team == DispatchTeam(rest, verb, last) && llm == DispatchLLM(rest, verb, team)
    ensures var h := DispatchFirst(rest, verb, llm); h == last && (h.Some? ==> Public(h.value))
  {
    hide *;
    ExemptPassesBy(rest, verb, llm);
    ExemptPassesByLLM(rest, verb, team);
    ExemptPassesByTeam(rest, verb, last);
    ExemptIsPublic(rest, verb);
  }

  lemma GuardedDispatch(rest: string, verb: string, last: Option<Handler>, team: Option<Handler>,
      llm: Option<Handler>)
    requires !Exempt(rest) && last == DispatchLast(rest, verb)
    requires team == DispatchTeam(rest, verb, last) && llm == DispatchLLM(rest, verb, team)
    ensures var h := DispatchFirst(rest, verb, llm); h.Some? ==> !Public(h.value)
  {
    hide DispatchFirst, DispatchLLM, DispatchTeam, DispatchLast, Exempt, Public;
    FirstDecides(rest, verb, llm);
    FirstOrdinary(rest, verb);
    LLMDecides(rest, verb, team);
    LLMOrdinary(rest, verb);
    TeamDecides(rest, verb, last);
    TeamGuarded(rest, verb);
    PublicIsExempt(rest, verb);
  }

  /** The handlers reachable on paths that need no user are exactly the public five. */
  lemma DispatchAgreesWithGate(path: string, verb: string)
    requires Dispatch(path, verb).Some?
    ensures Public(Dispatch(path, verb).value) <==> !RequiresAuth(path)
  {
    var rest := path[|API|..];
    var last := DispatchLast(rest, verb);
    var team := DispatchTeam(rest, verb, last);
    var llm := DispatchLLM(rest, verb, team);
    if Exempt(rest) {
      ExemptDispatch(rest, verb, last, team, llm);
    } else {
      GuardedDispatch(rest, verb, last, team, llm);
    }
  }

  // ---------- The role of a handler ----------

  /** The role a handler needs; the public ones need none. */
  function RoleOf(h: Handler): Role {
    if Public(h) then NoRole
    else if h in {ReplyMessage, ForwardMessage, SummarizeConversation, CreateActionItemComment,
                  ListNotifications, MarkNotificationRead, AddLabelToMessage, DeleteComment} then Member
    else if h in {CreateActionItem, UpdateActionItem, DeleteActionItem,
                  GetUsageStats, GetCosts, GetCostBreakdown, GetUsageByFeature, GetHealthStatus, GetRecommendations,
                  GetTeamActivity, ListWorkflows, GetWorkflowExecutions, CreateLabel} then Manager
    else if h in {GetDashboard, StreamDashboard, ServeWS, ListConversations, GetConversationMessages,
                  AnalyzeMessage, BatchAnalyze, ListImportantMessages, ListActionItems, ListActionItemComments,
                  GetDailySummary, SyncContacts, LogoutWhatsApp, Me} then Viewer
    else Admin
  }

  // An id ends in a digit or in white space.
  lemma IDEndsInNoLetter(part: string)
    requires IsID(part)
    ensures part != [] && !('a' <= part[|part| - 1] <= 'z')
  {
    var left, plus, zeros, right := Keys.ParseIDOnlySpellings(part);
    hide Keys.ParseID, Unsigned;
    var digits := Unsigned(Keys.ParseID(part).value);
    assert part[|part| - 1] == if right != [] then right[|right| - 1] else digits[|digits| - 1];
  }

  lemma {:induction false} OneSegment(tail: string)
    requires |Segments(tail)| == 1
    ensures tail == Segments(tail)[0]
  {
    if tail != [] {
      OneSegment(tail[1..]);
    }
  }

  lemma {:induction false} TwoSegments(tail: string)
    requires |Segments(tail)| == 2
    ensures tail == Segments(tail)[0] + "/" + Segments(tail)[1]
  {
    if tail[0] == '/' {
      OneSegment(tail[1..]);
    } else {
      TwoSegments(tail[1..]);
    }
  }

  lemma TwoSegmentsEnd(path: string, front: string, tail: string, last: string)
    requires path == front + tail && |Segments(tail)| == 2 && Segments(tail)[1] == last
    ensures HasSuffix(path, "/" + last)
  {
    TwoSegments(tail);
    assert path == front + Segments(tail)[0] + ("/" + last);
  }

  lemma SuffixEnds(path: string, suffix: string)
    requires HasSuffix(path, suffix) && suffix != []
    ensures path != [] && path[|path| - 1] == suffix[|suffix| - 1]
  {
    assert path[|path| - 1] == path[|path| - |suffix|..][|suffix| - 1];
  }

  // What RequiredRole says of the patterns that look into the path.
  lemma ConversationPattern(path: string, rest: string, verb: string, others: Role)
    requires HasPrefix(rest, "conversations/") && HasSuffix(path, "/messages")
    ensures RoleFirst(path, rest, verb, others) == Viewer
  {
    hide HasSuffix;
    assert rest[0] == 'c' && rest[13] == '/';
  }

  lemma LabelPattern(path: string, rest: string, verb: string, others: Role)
    requires HasPrefix(rest, "messages/") && HasSuffix(path, "/labels") && rest[|rest| - 1] == 's'
    ensures RoleFirst(path, rest, verb, others) == Member
  {
    hide HasSuffix;
    assert rest[0] == 'm' && rest[8] == '/';
  }

  lemma ActionItemPattern(path: string, rest: string, verb: string, others: Role)
    requires HasPrefix(rest, "action-items/")
    ensures RoleFirst(path, rest, verb, others) ==
              if HasSuffix(path, "/comments") then (if verb == "GET" then Viewer else Member) else Manager
  {
    hide HasSuffix;
    assert rest[0] == 'a' && rest[1] == 'c' && |rest| >= 13;
  }

  lemma WorkflowPattern(path: string, rest: string, verb: string, others: Role)
    requires HasPrefix(rest, "workflows/")
    ensures RoleTeam(path, rest, verb, others) == if HasSuffix(path, "/executions") then Manager else Admin
  {
    hide HasSuffix;
    assert rest[0] == 'w' && |rest| >= 10;
  }

  // The dispatched handler has the role its path needs, pattern by pattern.
  lemma ConversationRole(rest: string, verb: string, others: Role)
    requires HasPrefix(rest, "conversations/") && ConversationRoutes(rest[14..], verb).Some?
    ensures RoleFirst(API + rest, rest, verb, others) == Viewer
  {
    hide Segments, HasSuffix, RoleFirst;
    assert API + rest == (API + "conversations/") + rest[14..];
    TwoSegmentsEnd(API + rest, API + "conversations/", rest[14..], "messages");
    assert "/" + "messages" == "/messages";
    ConversationPattern(API + rest, rest, verb, others);
  }

  lemma LabelRole(rest: string, verb: string, others: Role)
    requires HasPrefix(rest, "messages/") && LabelRoutes(rest[9..], verb).Some?
    ensures LabelRoutes(rest[9..], verb) == Some(AddLabelToMessage)
    ensures RoleFirst(API + rest, rest, verb, others) == Member
  {
    hide Segments, HasSuffix, RoleFirst;
    assert API + rest == (API + "messages/") + rest[9..];
    TwoSegmentsEnd(API + rest, API + "messages/", rest[9..], "labels");
    assert "/" + "labels" == "/labels";
    SuffixEnds(API + rest, "/labels");
    LabelPattern(API + rest, rest, verb, others);
  }

  lemma ActionItemRole(rest: string, verb: string, others: Role)
    requires HasPrefix(rest, "action-items/") && ActionItemRoutes(rest[13..], verb).Some?
    ensures RoleFirst(API + rest, rest, verb, others) == RoleOf(ActionItemRoutes(rest[13..], verb).value)
  {
    hide Segments, IsID, HasSuffix, RoleFirst;
    var tail := rest[13..];
    var path := API + rest;
    assert path == (API + "action-items/") + tail;
    ActionItemPattern(path, rest, verb, others);
    if |Segments(tail)| == 2 && Segments(tail)[1] == "comments" {
      TwoSegmentsEnd(path, API + "action-items/", tail, "comments");
      assert "/" + "comments" == "/comments";
    } else {
      IDEndsInNoLetter(tail);
      assert path[|path| - 1] == tail[|tail| - 1];
      if HasSuffix(path, "/comments") {
        SuffixEnds(path, "/comments");
      }
    }
  }

  lemma WorkflowRole(rest: string, verb: string, others: Role)
    requires HasPrefix(rest, "workflows/") && WorkflowRoutes(rest[10..], verb).Some?
    ensures var h := WorkflowRoutes(rest[10..], verb).value;
            RoleTeam(API + rest, rest, verb, others) == RoleOf(h) <==>
              !(ChangesWorkflow(h) && HasSuffix(API + rest, "/executions"))
  {
    hide Segments, IsID, HasSuffix, RoleTeam;
    var tail := rest[10..];
    var path := API + rest;
    assert path == (API + "workflows/") + tail;
    WorkflowPattern(path, rest, verb, others);
    if |Segments(tail)| == 2 && Segments(tail)[1] == "executions" {
      TwoSegmentsEnd(path, API + "workflows/", tail, "executions");
      assert "/" + "executions" == "/executions";
    } else if |Segments(tail)| == 2 && Segments(tail)[1] == "test" {
      TwoSegmentsEnd(path, API + "workflows/", tail, "test");
      SuffixEnds(path, "/" + "test");
      if HasSuffix(path, "/executions") {
        SuffixEnds(path, "/executions");
      }
    }
  }

  predicate NeedsAdmin(h: Option<Handler>) {
    h.Some? ==> RoleOf(h.value) == Admin && !ChangesWorkflow(h.value)
  }

  lemma ProviderRoutesNeedAdmin(tail: string, verb: string)
    ensures NeedsAdmin(ProviderRoutes(tail, verb))
  {
    hide Segments, IsID;
  }

  lemma FeatureRoutesNeedAdmin(tail: string, verb: string)
    ensures NeedsAdmin(FeatureRoutes(tail, verb))
  {
    hide Segments, IsID;
  }

  lemma TeamUserRoutesNeedAdmin(tail: string, verb: string)
    ensures NeedsAdmin(TeamUserRoutes(tail, verb))
  {
    hide Segments, IsID;
  }

  lemma IntegrationRoutesNeedAdmin(tail: string, verb: string)
    ensures NeedsAdmin(IntegrationRoutes(tail, verb))
  {
    hide Segments, IsID;
  }

  lemma SummarizeRole(verb: string, others: Role)
    ensures RoleFirst(API + "conversations/summarize", "conversations/summarize", verb, others) == Member
  {
    hide HasSuffix;
    var rest := "conversations/summarize";
    var path := API + rest;
    assert path[|path| - 1] == 'e' && rest[0] == 'c' && |rest| == 23;
    if HasSuffix(path, "/messages") {
      SuffixEnds(path, "/messages");
    }
  }

  // The groups of cases.
  predicate LooksInside(rest: string) { HasPrefix(rest, "conversations/") || HasPrefix(rest, "action-items/") }

  lemma FirstPrefixRole(rest: string, verb: string, others: Role)
    requires LooksInside(rest)
    ensures var h := DispatchFirst(rest, verb, None); h.Some? ==>
        RoleFirst(API + rest, rest, verb, others) == RoleOf(h.value)
  {
    hide Segments, IsID, ConversationRoutes, ActionItemRoutes, HasSuffix, RoleFirst;
    assert |rest| >= 13 && rest[0] in "ca" && rest[1] in "oc";
    if rest == "conversations/summarize" {
      SummarizeRole(verb, others);
    } else if rest[0] == 'c' && ConversationRoutes(rest[14..], verb).Some? {
      ConversationRole(rest, verb, others);
      OneConversationRoute(rest[14..], verb);
    } else if rest[0] == 'a' && ActionItemRoutes(rest[13..], verb).Some? {
      ActionItemRole(rest, verb, others);
    }
  }

  lemma RolesOfFirst()
    ensures RoleOf(GetDashboard) == RoleOf(StreamDashboard) == RoleOf(ServeWS) == RoleOf(ListConversations) == Viewer
    ensures RoleOf(ListImportantMessages) == RoleOf(ListActionItems) == RoleOf(GetDailySummary) == Viewer
    ensures RoleOf(ReplyMessage) == RoleOf(ForwardMessage) == Member && RoleOf(CreateActionItem) == Manager
  {
  }

  lemma ExactPathsPassBy(rest: string)
    ensures rest == "conversations/summarize" ==> HasPrefix(rest, "conversations/")
    ensures rest == "action-items" || rest == "daily-summary" ==> !HasPrefix(rest, "messages/")
  {
    assert rest == "action-items" ==> rest[0] == 'a';
    assert rest == "daily-summary" ==> rest[0] == 'd';
  }

  lemma FirstExactRole(rest: string, verb: string, others: Role)
    requires !LooksInside(rest)
    ensures var h := DispatchFirst(rest, verb, None);
            h.Some? && !h.value.AnalyzeMessage? && !h.value.BatchAnalyze? ==>
              RoleFirst(API + rest, rest, verb, others) == RoleOf(h.value)
  {
    hide ConversationRoutes, ActionItemRoutes, HasSuffix, HasPrefix, RoleOf;
    RolesOfFirst();
    ExactPathsPassBy(rest);
    assert verb == "POST" ==> verb[0] == 'P';
  }

  lemma OneConversationRoute(tail: string, verb: string)
    ensures ConversationRoutes(tail, verb) in [None, Some(GetConversationMessages)]
  {
  }

  lemma LLMPrefixRole(rest: string, verb: string, others: Role)
    requires HasPrefix(rest, "llm/providers/") || HasPrefix(rest, "llm/features/")
    ensures var h := DispatchLLM(rest, verb, None); h.Some? ==> RoleLLM(rest, others) == RoleOf(h.value)
  {
    hide ProviderRoutes, FeatureRoutes;
    assert |rest| >= 13 && rest[4] in "pf" && rest[12] in "s/";
    if rest[4] == 'p' {
      ProviderRoutesNeedAdmin(rest[14..], verb);
    } else {
      FeatureRoutesNeedAdmin(rest[13..], verb);
    }
  }

  lemma RolesOfLLM()
    ensures RoleOf(CreateProvider) == RoleOf(ListProviders) == RoleOf(GetProviderComparison) == Admin
    ensures RoleOf(GetFeatures) == RoleOf(BulkTestProviders) == Admin
    ensures RoleOf(GetUsageStats) == RoleOf(GetCosts) == RoleOf(GetCostBreakdown) == Manager
    ensures RoleOf(GetUsageByFeature) == RoleOf(GetHealthStatus) == RoleOf(GetRecommendations) == Manager
  {
  }

  lemma LLMExactRole(rest: string, verb: string, others: Role)
    requires !HasPrefix(rest, "llm/providers/") && !HasPrefix(rest, "llm/features/")
    ensures var h := DispatchLLM(rest, verb, None); h.Some? ==> RoleLLM(rest, others) == RoleOf(h.value)
  {
    hide ProviderRoutes, FeatureRoutes, HasPrefix, RoleOf;
    RolesOfLLM();
  }

  lemma RolesOfTeam()
    ensures RoleOf(AddTeamUser) == RoleOf(ListTeamUsers) == RoleOf(SendInvitation) == RoleOf(ListIntegrations) == Admin
    ensures RoleOf(CreateWorkflow) == Admin && RoleOf(GetTeamActivity) == RoleOf(ListWorkflows) == Manager
  {
  }

  lemma IntegrationsPrefix(rest: string)
    ensures HasPrefix(rest, "integrations/") || rest == "integrations" ==> HasPrefix(rest, "integrations")
  {
    assert "integrations/"[..12] == "integrations";
  }

  lemma TeamRole(rest: string, verb: string, others: Role)
    requires !HasPrefix(rest, "workflows/")
    ensures var h := DispatchTeam(rest, verb, None);
            h.Some? ==> RoleTeam(API + rest, rest, verb, others) == RoleOf(h.value) && !ChangesWorkflow(h.value)
  {
    hide TeamUserRoutes, IntegrationRoutes, WorkflowRoutes, HasPrefix, RoleOf;
    RolesOfTeam();
    IntegrationsPrefix(rest);
    PrefixIsShorter(rest, "team/users/");
    PrefixIsShorter(rest, "integrations/");
    assert verb == "POST" ==> verb[0] == 'P';
    if |rest| >= 11 {
      TeamUserRoutesNeedAdmin(rest[11..], verb);
    }
    if |rest| >= 13 {
      IntegrationRoutesNeedAdmin(rest[13..], verb);
    }
  }

  lemma WorkflowDispatch(rest: string, verb: string, others: Option<Handler>)
    requires HasPrefix(rest, "workflows/")
    ensures DispatchTeam(rest, verb, others) == WorkflowRoutes(rest[10..], verb)
  {
    hide WorkflowRoutes;
    assert rest[0] == 'w' && |rest| >= 10;
  }

  lemma TeamIsLater(rest: string, verb: string)
    requires DispatchTeam(rest, verb, None).Some?
    ensures Later(rest) && rest[0] != 'l'
  {
    hide TeamUserRoutes, IntegrationRoutes, WorkflowRoutes;
  }

  lemma LLMIsLater(rest: string, verb: string)
    requires DispatchLLM(rest, verb, None).Some?
    ensures Later(rest) && rest[0] == 'l' && rest[1] == 'l'
  {
    hide DispatchLLM;
    if rest != [] && rest[0] != 'l' {
      PassesByLLM(rest, verb, None);
    } else if |rest| < 6 || rest[1] != 'l' {
      SecondLetterPassesByLLM(rest, verb);
    }
  }

  lemma SecondLetterPassesByLLM(rest: string, verb: string)
    requires |rest| < 6 || rest[1] != 'l'
    ensures DispatchLLM(rest, verb, None) == None
  {
    hide ProviderRoutes, FeatureRoutes;
  }

  lemma AuthStarts(rest: string, verb: string)
    requires DispatchAuth(rest, verb).Some?
    ensures |rest| >= 6 && rest[0] == 'a' && rest[1] == 'u'
  {
  }

  lemma LastIsLater(rest: string, verb: string)
    requires DispatchLast(rest, verb).Some? && !HasPrefix(rest, "messages/")
    ensures Later(rest) && (rest[0] != 'l' || rest[1] != 'l') && rest[0] !in "ti" &&
        (rest[0] != 'w' || rest[1] == 'e')
  {
    hide IsID, LabelRoutes, DispatchAuth, HasSuffix;
    if DispatchAuth(rest, verb).Some? {
      AuthStarts(rest, verb);
    }
  }

  lemma AuthRole(rest: string, verb: string)
    requires DispatchAuth(rest, verb).Some?
    ensures RoleOf(DispatchAuth(rest, verb).value) == if Open(rest) then NoRole else Viewer
  {
  }

  lemma LastExactRole(rest: string, verb: string)
    requires DispatchLast(rest, verb).Some? && !HasPrefix(rest, "messages/") && !UnderAuth(rest)
    ensures RoleOf(DispatchLast(rest, verb).value) == RoleLast(rest)
  {
    hide IsID, LabelRoutes, HasPrefix;
    NotUnderAuth(rest);
  }

  lemma NotUnderAuth(rest: string)
    requires !UnderAuth(rest)
    ensures rest != "auth/login" && rest != "auth/register" && rest != "auth/whatsapp/qr" &&
        rest != "auth/whatsapp/status"
    ensures rest != "auth/whatsapp/sync-contacts" && rest != "auth/logout" && rest != "auth/me"
  {
  }

  lemma LastLabelRole(rest: string, verb: string)
    requires DispatchLast(rest, verb).Some? && HasPrefix(rest, "messages/")
    ensures LabelRoutes(rest[9..], verb).Some? && DispatchLast(rest, verb) == LabelRoutes(rest[9..], verb)
  {
    hide IsID, LabelRoutes;
    assert rest[0] == 'm';
  }

  lemma AnalyzeRole(rest: string, verb: string)
    requires rest == "messages/analyze" || rest == "messages/batch-analyze"
    ensures RoleUnderApi(API + rest, rest, verb) == Viewer
  {
    hide HasSuffix, RoleFirst, RoleLLM, RoleTeam;
    assert rest[0] == 'm' && rest[|rest| - 1] == 'e' && |rest| >= 16;
    AnalyzePassesBy(rest, verb, RoleLast(rest));
    RoleLLMPassesBy(rest, RoleLast(rest));
    RoleTeamPassesBy(API + rest, rest, verb, RoleLast(rest));
  }

  lemma AnalyzePassesBy(rest: string, verb: string, others: Role)
    requires rest == "messages/analyze" || rest == "messages/batch-analyze"
    ensures RoleFirst(API + rest, rest, verb, others) == others
  {
    hide HasSuffix;
    var path := API + rest;
    assert rest[0] == 'm' && rest[|rest| - 1] == 'e' && rest[9] in "ab" && path[|path| - 1] == 'e';
    if HasSuffix(path, "/labels") {
      SuffixEnds(path, "/labels");
    }
  }

  lemma LastOrdinary(rest: string, verb: string)
    ensures var h := DispatchLast(rest, verb); h.Some? ==> !ChangesWorkflow(h.value)
  {
    hide HasPrefix, HasSuffix, IsID, LabelRoutes, DispatchAuth;
    AuthChangesNothing(rest, verb);
    PrefixIsShorter(rest, "messages/");
    if |rest| >= 9 {
      LabelRoutesLabel(rest[9..], verb);
    }
  }

  lemma AuthChangesNothing(rest: string, verb: string)
    ensures var h := DispatchAuth(rest, verb); h.Some? ==> !ChangesWorkflow(h.value)
  {
  }

  // The handler of a path has the role the path needs, unless the path of a change to a workflow
  // ends like that of its executions.
  predicate RolesAgree(rest: string, verb: string, h: Handler) {
    RoleUnderApi(API + rest, rest, verb) == RoleOf(h) <==>
        !(ChangesWorkflow(h) && HasSuffix(API + rest, "/executions"))
  }

  lemma AnalyzePaths(rest: string, verb: string)
    requires !LooksInside(rest)
    ensures DispatchFirst(rest, verb, None) == Some(AnalyzeMessage) ==> rest == "messages/analyze"
    ensures DispatchFirst(rest, verb, None) == Some(BatchAnalyze) ==> rest == "messages/batch-analyze"
  {
    hide HasPrefix;
  }

  lemma FirstGroup(rest: string, verb: string)
    requires DispatchFirst(rest, verb, None).Some?
    ensures RolesAgree(rest, verb, DispatchFirst(rest, verb, None).value)
  {
    hide DispatchFirst, RoleFirst, RoleLLM, RoleTeam, RoleLast, HasSuffix, HasPrefix, RoleOf;
    FirstOrdinary(rest, verb);
    var others := RoleLLM(rest, RoleTeam(API + rest, rest, verb, RoleLast(rest)));
    if Exempt(rest) {
      ExemptPassesBy(rest, verb, None);
    }
    var h := DispatchFirst(rest, verb, None).value;
    if LooksInside(rest) {
      FirstPrefixRole(rest, verb, others);
    } else if h == AnalyzeMessage || h == BatchAnalyze {
      AnalyzePaths(rest, verb);
      AnalyzeRole(rest, verb);
      assert RoleOf(h) == Viewer by { AnalyzeIsForViewers(); }
    } else {
      FirstExactRole(rest, verb, others);
    }
  }

  lemma AnalyzeIsForViewers()
    ensures RoleOf(AnalyzeMessage) == RoleOf(BatchAnalyze) == Viewer
  {
  }

  lemma LLMGroup(rest: string, verb: string)
    requires DispatchLLM(rest, verb, None).Some?
    ensures RolesAgree(rest, verb, DispatchLLM(rest, verb, None).value)
  {
    hide DispatchLLM, RoleFirst, RoleLLM, RoleTeam, RoleLast, HasSuffix, HasPrefix, RoleOf;
    LLMOrdinary(rest, verb);
    LLMIsLater(rest, verb);
    var others := RoleTeam(API + rest, rest, verb, RoleLast(rest));
    RoleFirstPassesBy(API + rest, rest, verb, RoleLLM(rest, others));
    if Exempt(rest) {
      ExemptPassesByLLM(rest, verb, None);
    }
    if HasPrefix(rest, "llm/providers/") || HasPrefix(rest, "llm/features/") {
      LLMPrefixRole(rest, verb, others);
    } else {
      LLMExactRole(rest, verb, others);
    }
  }

  lemma TeamGroup(rest: string, verb: string)
    requires DispatchTeam(rest, verb, None).Some?
    ensures RolesAgree(rest, verb, DispatchTeam(rest, verb, None).value)
  {
    hide DispatchTeam, RoleFirst, RoleLLM, RoleTeam, RoleLast, HasSuffix, HasPrefix, RoleOf, WorkflowRoutes;
    TeamIsLater(rest, verb);
    var role := RoleTeam(API + rest, rest, verb, RoleLast(rest));
    RoleLLMPassesBy(rest, role);
    RoleFirstPassesBy(API + rest, rest, verb, role);
    if Exempt(rest) {
      ExemptPassesByTeam(rest, verb, None);
    }
    if HasPrefix(rest, "workflows/") {
      WorkflowDispatch(rest, verb, None);
      WorkflowRole(rest, verb, RoleLast(rest));
    } else {
      TeamRole(rest, verb, RoleLast(rest));
    }
  }

  lemma LastGroup(rest: string, verb: string)
    requires DispatchLast(rest, verb).Some?
    ensures RolesAgree(rest, verb, DispatchLast(rest, verb).value)
  {
    hide DispatchLast, RoleFirst, RoleLLM, RoleTeam, RoleLast, HasSuffix, HasPrefix, RoleOf, DispatchAuth,
        LabelRoutes, Open, UnderAuth;
    LastOrdinary(rest, verb);
    OpenMeans(rest, verb);
    var last := RoleLast(rest);
    if HasPrefix(rest, "messages/") {
      LastLabelRole(rest, verb);
      LabelRole(rest, verb, RoleLLM(rest, RoleTeam(API + rest, rest, verb, last)));
      LabelIsForMembers();
      MessagesAreNotOpen(rest);
    } else {
      LastIsLater(rest, verb);
      RoleTeamPassesBy(API + rest, rest, verb, last);
      RoleLLMPassesBy(rest, last);
      RoleFirstPassesBy(API + rest, rest, verb, last);
      if UnderAuth(rest) {
        AuthIsLast(rest, verb);
        AuthRole(rest, verb);
      } else {
        LastExactRole(rest, verb);
      }
    }
  }

  lemma LabelIsForMembers()
    ensures RoleOf(AddLabelToMessage) == Member
  {
  }

  lemma MessagesAreNotOpen(rest: string)
    requires HasPrefix(rest, "messages/")
    ensures !Open(rest)
  {
    assert rest[0] == 'm';
  }

  lemma OpenMeans(rest: string, verb: string)
    ensures Open(rest) ==> UnderAuth(rest) && RoleUnderApi(API + rest, rest, verb) == NoRole
    ensures !Open(rest) ==> RoleUnderApi(API + rest, rest, verb) ==
                              RoleFirst(API + rest, rest, verb,
                                        RoleLLM(rest, RoleTeam(API + rest, rest, verb, RoleLast(rest))))
  {
    hide RoleFirst, RoleLLM, RoleTeam, RoleLast;
  }

  /** The two tables agree: whatever path and verb lead to a handler, the role asked for is the one
      role of that handler, unless a workflow is changed under a path that ends in /executions. */
  lemma HandlerDeterminesRole(path: string, verb: string)
    requires Dispatch(path, verb).Some?
    ensures var h := Dispatch(path, verb).value;
            RequiredRole(path, verb) == RoleOf(h) <==> !(ChangesWorkflow(h) && HasSuffix(path, "/executions"))
  {
    hide DispatchFirst, DispatchLLM, DispatchTeam, DispatchLast, RoleUnderApi, HasSuffix, RoleOf;
    var rest := path[|API|..];
    assert path == API + rest;
    var last := DispatchLast(rest, verb);
    var team := DispatchTeam(rest, verb, last);
    var llm := DispatchLLM(rest, verb, team);
    var h := DispatchFirst(rest, verb, llm);
    FirstDecides(rest, verb, llm);
    LLMDecides(rest, verb, team);
    TeamDecides(rest, verb, last);
    assert RolesAgree(rest, verb, h.value) by {
      if h == DispatchFirst(rest, verb, None) {
        FirstGroup(rest, verb);
      } else if h == DispatchLLM(rest, verb, None) {
        LLMGroup(rest, verb);
      } else if h == DispatchTeam(rest, verb, None) {
        TeamGroup(rest, verb);
      } else {
        LastGroup(rest, verb);
      }
    }
  }

  lemma SlashSegment(s: string)
    ensures Segments("/" + s) == [""] + Segments(s)
  {
    assert ("/" + s)[1..] == s;
  }

  lemma LetterSegment(c: char, s: string)
    requires c != '/'
    ensures Segments([c] + s) == [[c] + Segments(s)[0]] + Segments(s)[1..]
  {
    assert ([c] + s)[1..] == s;
  }

  lemma ThreeSegments()
    ensures var segments := Segments("1/x/executions"); |segments| > 2 && segments[0] == "1"
  {
    hide Segments;
    SlashSegment("executions");
    LetterSegment('x', "/executions");
    SlashSegment("x/executions");
    LetterSegment('1', "/x/executions");
    assert "/" + "executions" == "/executions" && "x" + "/executions" == "x/executions";
    assert "/" + "x/executions" == "/x/executions" && "1" + "/x/executions" == "1/x/executions";
  }

  lemma OneIsID()
    ensures IsID("1")
  {
    hide Keys.ParseID;
    Keys.ParseIDInvertsDecimal(1);
    assert Decimal(1) == "1";
  }

  lemma ExecutionsSuffixDispatch(rest: string, others: Option<Handler>)
    requires rest == "workflows/1/x" + "/executions"
    ensures DispatchTeam(rest, "PATCH", others) == Some(UpdateWorkflow)
  {
    hide DispatchTeam, Segments, IsID;
    ThreeSegments();
    OneIsID();
    assert rest[10..] == "1/x/executions";
    WorkflowDispatch(rest, "PATCH", others);
  }

  lemma ExecutionsSuffixParts(path: string, rest: string)
    requires rest == "workflows/1/x" + "/executions" && path == API + rest
    ensures HasPrefix(path, API) && path[|API|..] == rest && HasSuffix(path, "/executions")
    ensures |rest| >= 10 && rest[0] == 'w'
  {
    assert path == (API + "workflows/1/x") + "/executions";
    assert rest[0] == "workflows/1/x"[0];
  }

  // The exception exists: here a change needs the role that the list of executions needs.
  lemma ExecutionsSuffixExample()
    ensures var path := API + ("workflows/1/x" + "/executions");
            Dispatch(path, "PATCH") == Some(UpdateWorkflow) && RequiredRole(path, "PATCH") != RoleOf(UpdateWorkflow)
  {
    hide RequiredRole, DispatchFirst, DispatchLLM, DispatchTeam, DispatchLast, HasPrefix, HasSuffix, RoleOf;
    var rest := "workflows/1/x" + "/executions";
    var path := API + rest;
    ExecutionsSuffixParts(path, rest);
    var last := DispatchLast(rest, "PATCH");
    var team := DispatchTeam(rest, "PATCH", last);
    PassesByW(rest, "PATCH", team);
    PassesByLLM(rest, "PATCH", team);
    ExecutionsSuffixDispatch(rest, last);
    HandlerDeterminesRole(path, "PATCH");
  }

  // ---------- The request handler ----------

  /** What ServeHTTP looks at: the raw URL path, the user the token names, the role stored for
      that user, and the answers of the rate limiter and of the CSRF comparison. */
  datatype Request = Request(path: string, verb: string, user: Option<int>, role: Option<string>,
                             allowed: bool, csrfMatches: bool)

  datatype Response = NoContent | Unauthorized | TooManyRequests | Forbidden | NotFound | Handled(handler: Handler)

  function Normalize(raw: string): string {
    var path := if HasSuffix(raw, "/") then raw[..|raw| - 1] else raw;
    if path == "" then "/" else path
  }

  predicate CsrfValid(r: Request) {
    r.verb in ["POST", "PATCH", "DELETE"] ==> r.csrfMatches
  }

  function Serve(r: Request): Response {
    var path := Normalize(r.path);
    if r.verb == "OPTIONS" then NoContent
    else if RequiresAuth(path) && r.user == None then Unauthorized
    else if !r.allowed then TooManyRequests
    else if RequiresAuth(path) && !CsrfValid(r) then Forbidden
    else if && HasPrefix(path, API) && path != API + "auth/login" && path != API + "auth/register"
            && RequiredRole(path, r.verb) != NoRole && !Authorize(r.role, RequiredRole(path, r.verb)) then Forbidden
    else
      match Dispatch(path, r.verb)
      case Some(h) => Handled(h)
      case None => NotFound
  }

  /** A request reaches a handler exactly when the limiter lets it through, dispatch selects that
      handler, and either the handler is one of the public five or the request carries a user
      with a valid CSRF token and a role of sufficient rank. */
  lemma ReachesHandler(r: Request, h: Handler)
    ensures var path := Normalize(r.path);
            Serve(r) == Handled(h) <==>
              && r.verb != "OPTIONS" && r.allowed && Dispatch(path, r.verb) == Some(h)
              && (|| Public(h)
                  || (&& r.user.Some? && (r.verb in ["POST", "PATCH", "DELETE"] ==> r.csrfMatches)
                      && Rank(HeldRole(r.role)) >= Rank(RequiredRole(path, r.verb))))
  {
    hide RequiredRole, Dispatch, RequiresAuth, Authorize, Normalize, Public, HeldRole;
    var path := Normalize(r.path);
    GateAgreement(path, r.verb);
    AuthorizeExactly(r.role, RequiredRole(path, r.verb));
    LoginNeedsNoUser(path);
    if Dispatch(path, r.verb).Some? {
      DispatchAgreesWithGate(path, r.verb);
    }
  }

  /** Why a request is refused: the missing user is noticed before the limit, and the limit before the token
      and the role, which count on the same paths. */
  lemma RefusedExactly(r: Request)
    ensures var path := Normalize(r.path);
            var checked := RequiresAuth(path);
            var tokenOk := r.verb in ["POST", "PATCH", "DELETE"] ==> r.csrfMatches;
            var roleOk := Rank(HeldRole(r.role)) >= Rank(RequiredRole(path, r.verb));
            && (Serve(r) == NoContent <==> r.verb == "OPTIONS")
            && (Serve(r) == Unauthorized <==> r.verb != "OPTIONS" && checked && r.user == None)
            && (Serve(r) == TooManyRequests <==>
                  r.verb != "OPTIONS" && (checked ==> r.user.Some?) && !r.allowed)
            && (Serve(r) == Forbidden <==>
                  r.verb != "OPTIONS" && checked && r.user.Some? && r.allowed && !(tokenOk && roleOk))
            && (Serve(r) == NotFound <==>
                  && r.verb != "OPTIONS" && r.allowed && (checked ==> r.user.Some? && tokenOk && roleOk)
                  && Dispatch(path, r.verb) == None)
  {
    hide RequiredRole, Dispatch, RequiresAuth, Authorize, Normalize, HeldRole;
    var path := Normalize(r.path);
    GateAgreement(path, r.verb);
    AuthorizeExactly(r.role, RequiredRole(path, r.verb));
    LoginNeedsNoUser(path);
  }

  /** One slash at the end of a path does not matter, and the empty path is the root. */
  lemma NormalizeExactly(raw: string, path: string)
    ensures Normalize(raw) == path <==>
              || (path != "" && raw == path + "/")
              || (raw == path && path != "" && path[|path| - 1] != '/')
              || (path == "/" && raw in ["", "/"])
  {
    if raw != "" {
      assert raw == raw[..|raw| - 1] + [raw[|raw| - 1]];
      assert HasSuffix(raw, "/") <==> raw[|raw| - 1] == '/';
    }
    if raw == path + "/" {
      assert raw[..|raw| - 1] == path;
    }
  }

  lemma LoginNeedsNoUser(path: string)
    ensures path == API + "auth/login" || path == API + "auth/register" ==> !RequiresAuth(path)
    ensures RequiresAuth(path) ==> HasPrefix(path, API)
  {
    assert path in [API + "auth/login", API + "auth/register"] ==> path[|API|..] in ["auth/login", "auth/register"];
  }
}
