# Message-flow backend: a verified model

The backend collects WhatsApp conversations per tenant, has language-model providers analyse
them, and pushes what happens to connected browsers. Its decisions rest on small state machines in
memory and on a few table statements. This project models those machines in Dafny and proves what
they keep over every run. `dafny verify dfyconfig.toml` checks all of it.

| file | what it models |
|---|---|
| `Limiter.dfy` | the fixed-window rate limiter |
| `Gate.dfy`, `Endpoints.dfy` | the authentication table, the role table, the dispatch table read both ways, and the request handler that combines them |
| `Keys.dfy`, `Text.dfy` | the string keys of cache and queue, the ids in paths, and the Go string functions beneath them |
| `ProviderTable.dfy` | the provider table, its default flag, the create/update/delete handlers and the list and default queries |
| `Factory.dfy`, `Router.dfy`, `Staleness.dfy` | the memoising factory, the TTL cache, and lookups interleaved with table changes and time |
| `FallbackChain.dfy`, `Keyword.dfy`, `Contract.dfy` | the first-success chain over the providers and the keyword analysis behind it |
| `Ingest.dfy`, `Replay.dfy` | WhatsApp events, the rows they write, repeated and reordered delivery |
| `Analysis.dfy`, `Duplicates.dfy` | stored analyses interleaved with deliveries, and how many rows a message gets |
| `Queue.dfy`, `Workers.dfy` | the queue and its workers as a machine, and as the objects that take its steps |
| `Pipeline.dfy` | from an event or a batch request over the queue to the stored analysis |
| `Channel.dfy`, `Presence.dfy`, `Fanout.dfy`, `Order.dfy`, `Hub.dfy` | the lossy 16-slot client channels, the tables of the hub, the hub as a machine with and without its lock, the order of what a client hears, and the hub as an object |
| `Health.dfy` | the provider health status and its history |
| `Latency.dfy`, `Retry.dfy`, `Extract.dfy` | the truncating running average, the retry loop, the extraction of JSON from prose |
| `Wrappers.dfy` | Option and Result |

Two shapes recur. A *machine* has a step function (`Touch`, `Exec`, `Next`, `Handle`, `Execute`) and a
function that gives the state after the first n steps of a run (`TableAfter`, `After`, `AfterRun`,
`HandleAll`); its theorems speak about every run. A *class* stands for an object the backend updates
in place. The contracts of its methods are stated in the machine's own functions: a limiter call, a
table statement, a cache lookup, a handled event, a stored analysis or a hub operation leaves what the
machine's step gives, and a worker's round what the run of its steps gives, on the condition that
nothing else comes between the steps of one call.

Time is a non-decreasing integer input. Provider calls, database failures and WhatsApp lookups are
inputs: an answer, a flag, a record of what the client would say.

## Results that differ from what one might expect

- **Limiter.** The bound over k windows is (k+1)·cap − 1, one less than a count of windows suggests,
  and it is attained. The cap is max(1, limit): the first call of a window is admitted even when the
  limit is zero or negative.
- **Staleness.** What a lookup returns at T was in the table at some moment in [T − ttl − lag, T], where
  lag is the longest time a lookup spends between reading the row and filling the cache. That bound is
  exact for every ttl and lag: the shorter interval [T − ttl, T] holds of all runs if and only if lag is
  not positive (`Staleness.CacheAloneBounds`).
- **Factory.** The key joins its parts with colons. An instance of the right kind is handed out exactly
  when the factory really constructs, or the requested name has no colon. Id, API key and settings are
  not part of the key: the instance is that of the first buildable row with the key, so a request is
  served its own row exactly if that first row is the same.
- **Role table.** The role asked for is the one role of the handler on every path but one family: a
  change to a workflow under a path that ends in `/executions` asks for the manager role, because the
  role table looks at the end of the path and the dispatch table at its segments.
- **Providers.** A failed update whose answer was not lost leaves the table alone unless it asked for the default flag, the
  clearing statement worked, and the tenant had a default row: that row has then lost its flag.
- **Ingest.** Handling events twice leaves the tables as handling them once, but a repeated message is
  announced again: the table is deduplicated, the queue and the hub are not.
- **Deduplication.** A message gets a second row in exactly two ways: two deliveries overlap, one writing
  between the lookup and the insert of the other, or a lookup is made when the rows of the message have
  lost their WhatsApp id. A row shows the id that the select of the last analysis stored over it saw; a
  failed select, whose error the code drops, saw none.
- **Health.** With the statements of a monitor step and of manual tests interleaved, an "unhealthy"
  provider has three bad rows with an error on top exactly if the rows inserted since the monitor's count
  are bad themselves. With each step taken at one go, the status is what the rows say exactly if the
  monitor wrote last or they do not say "unhealthy".
- **Pipeline.** A tenant has a worker only after a batch request. Such a request may name any id: its
  messages are analysed among the announced ones, in the order of all enqueues, and an analysis is carried
  exactly if the tenant had a row with that id then (`Pipeline.RequestForNothingExample` is a run where it
  had none).
- **Hub.** `Broadcast` gives up its lock before it sends. The tables keep their invariant all the same,
  and nobody is offered another tenant's message; but a send panics exactly when its receiver was
  removed between the moment the loop reached it and the send. A client hears of its tenant's messages in
  the order of their beginnings exactly as long as no send overtakes an earlier offer; what it hears of from
  before its registration comes from loops that were running then.
- **Retry.** The pauses add up to delay·(2^f − 1) exactly if there was no failure or the last delay still
  fits in int64.

## Model

| member | source | states |
|---|---|---|
| `Limiter.SlidingBound` | backend/internal/middleware/middleware.go:82-97 | In every run with non-decreasing time, any closed interval of k windows holds at most (k+1)·max(1, limit) − 1 admitted calls of a key |
| `Limiter.BoundAttained` | backend/internal/middleware/middleware.go:82-97 | For every limit and every k up to the window length some run attains that bound exactly |
| `Limiter.CounterCountsItsWindow` | backend/internal/middleware/middleware.go:87-96 | The counter of a key is the number of its admissions since the admitted call that opened its window |
| `Limiter.JustifiedDenial` | backend/internal/middleware/middleware.go:92-94 | A denial at T is preceded by exactly max(1, limit) admissions of that key inside [T − window, T], the first of which opened the window |
| `Limiter.Locality` | backend/internal/middleware/middleware.go:87-96 | Entry and decisions of a key are those of a limiter that serves this key alone |
| `Limiter.SameTimesSameDecisions` | backend/internal/middleware/middleware.go:87-96 | Two runs in which a key calls at the same times decide the same for it, whatever the other keys do |
| `Limiter.RateLimiter.constructor` | backend/internal/middleware/middleware.go:78-80 | A new limiter has served no call |
| `Limiter.RateLimiter.AllowLocked` | backend/internal/middleware/middleware.go:87-96 | The in-place update of one heap entry is one table step, and no other key's entry changes |
| `Limiter.RateLimiter.Allow` | backend/internal/middleware/middleware.go:82-97 | A call extends the run by itself and answers what the run decides |
| `Gate.GateAgreement` | backend/internal/router/router.go:475-482 | On all path strings and methods, a path needs no role exactly when it needs no user |
| `Gate.AuthorizeExactly` | backend/internal/handlers/rbac.go:30-69 | For every stored role and every required one: a user is let in if and only if the rank of the role held is at least that of the role required, in any capitalisation, with a missing role as viewer and an unknown one below all |
| `Gate.AccessMonotone` | backend/internal/handlers/rbac.go:30-50 | On every path a higher rank is admitted wherever a lower one is, an owner everywhere, a missing role as a viewer, and an unknown role only where no user is needed |
| `Gate.DispatchAgreesWithGate` | backend/internal/router/router.go:75-472 | The first-match dispatch reaches one of the five public handlers exactly on paths that need no user |
| `Gate.HandlerDeterminesRole` | backend/internal/handlers/rbac.go:71-182 | Whatever path and verb lead to a handler, the role table asks for that handler's one role, except exactly where a workflow is changed under a path ending in /executions |
| `Gate.ExecutionsSuffixExample` | backend/internal/handlers/rbac.go:151-158 | A path of that exceptional family |
| `Gate.ReachesHandler` | backend/internal/router/router.go:26-72 | A request reaches a handler exactly when the limiter admits it, dispatch selects the handler, and the handler is public or the request has a user, a valid CSRF token where its verb needs one, and a role whose rank is at least that of the role required |
| `Gate.RefusedExactly` | backend/internal/router/router.go:26-72 | Each refusal as an if-and-only-if: the missing user is noticed before the limit, and the limit before the token and the role |
| `Gate.NormalizeExactly` | backend/internal/router/router.go:32-35 | Which raw paths are served as a given path: itself, or itself with one more slash |
| `Endpoints.HandlerAnswers` | backend/internal/router/router.go:75-472 | Whatever reaches a handler has one of that handler's own verbs and the form of its own path, for each of the 67 handlers |
| `Endpoints.SegmentsExactly` | backend/internal/router/router.go:109-109 | The segments of a path are its parts between the slashes, and nothing else is |
| `Keys.FmtKeyInjective` | backend/internal/llm/router.go:129-135 | Equal cache keys have the same tenant and the same provider, negative ids included |
| `Keys.QueueKeyInjective` | backend/internal/llm/queue.go:60-66 | Equal queue keys have the same tenant |
| `Keys.ParseIDAccepts` | backend/internal/handlers/api.go:63-69 | Every spelling of a positive int64 (white space around it, a plus sign, leading zeros) is read as that id |
| `Keys.ParseIDOnlySpellings` | backend/internal/handlers/api.go:63-69 | Nothing else is read as an id |
| `Keys.ParseIDInvertsDecimal` | backend/internal/handlers/api.go:63-69 | Reading the decimal form of a positive id gives the id back |
| `ProviderTable.ExecKeepsWellFormed` | backend/internal/handlers/llm.go:139-149 | Every statement, succeeding or not, keeps at most one default row per tenant and growing ids |
| `ProviderTable.AlwaysWellFormed` | backend/migrations/002_phase2_llm.sql:20 | At most one default per tenant in every table that any interleaving of statements reaches |
| `ProviderTable.ListProvidersOrdered` | backend/internal/llm/store.go:25-31 | The list holds exactly the tenant's active rows, the default first, then by id |
| `ProviderTable.HeadExactly` | backend/internal/llm/store.go:25-31 | The head of the list is the tenant's active row that is the default, or else the one with the least id |
| `ProviderTable.ProviderByIDExactly` | backend/internal/llm/store.go:76-84 | The lookup by id answers with a configuration if and only if some row with that tenant and that id has it |
| `ProviderTable.DefaultRowIsHead` | backend/internal/llm/store.go:55-61 | Any active default row is the head of the list |
| `ProviderTable.DefaultIsHead` | backend/internal/llm/router.go:82-93 | In every reachable table the default lookup selects the head of the list, the configuration the fallback chain tries first |
| `ProviderTable.InsertExactly` | backend/internal/handlers/llm.go:139-153 | A successful insert adds one row with a new id and otherwise the given columns, each under its own name, and keeps all others but for cleared flags |
| `ProviderTable.UpdateExactly` | backend/internal/handlers/llm.go:252-284 | A successful update gives the row with the tenant and the id, column by column, the request's value or else its old one, and keeps all others but for cleared flags |
| `ProviderTable.DeleteExactly` | backend/internal/handlers/llm.go:294-306 | A delete removes the row with the tenant and the id and no other |
| `ProviderTable.ProviderStore.CreateProvider` | backend/internal/handlers/llm.go:139-153 | Clear and insert as one handler, either of which may fail: it succeeds exactly if the insert is answered and the clear worked or was not needed, it adds exactly that row, and right after the call a new active default is what the tenant's default lookup selects |
| `ProviderTable.ProviderStore.UpdateProvider` | backend/internal/handlers/llm.go:252-284 | Clear and update, either of which may fail: it succeeds exactly if the update is answered, the row exists, and no other default row stands in the way of a request whose clear failed; it then patches exactly that row, column by column; a failed update whose answer was not lost leaves the table unchanged exactly if it did not ask for the default, the clear failed, or the tenant had no default row |
| `ProviderTable.FailedUpdateExample` | backend/internal/handlers/llm.go:252-284 | A failing default request that takes the flag from another row |
| `ProviderTable.ProviderStore.DeleteProvider` | backend/internal/handlers/llm.go:294-306 | Unless the statement fails the row is gone and every other stays, and the handler reports success exactly if it was there and the statement was answered |
| `Factory.CreateMemoises` | backend/internal/llm/factory.go:23-48 | The result is what is stored under the key, a second call gives the same, no entry is replaced, and only the requested key can be new |
| `Factory.BuildExactly` | backend/internal/llm/factory.go:30-46 | Which names, in any capitalisation, build which kind of provider; the instance has the whole configuration, and nothing is built exactly for all other names |
| `Factory.KeyExactly` | backend/internal/llm/factory.go:23-26 | Without colons in the first four columns two configurations share a key if and only if they agree in all five |
| `Factory.KindAgreement` | backend/internal/llm/factory.go:23-48 | The provider kind is that of a fresh construction exactly when the key is new or the requested name has no colon |
| `Factory.ColonInNameExample` | backend/internal/llm/factory.go:23-26 | An unsupported name with a colon that is served another row's instance |
| `Factory.FirstConfigWins` | backend/internal/llm/factory.go:23-48 | After any run of requests the instance under a key is built from the first buildable configuration with it, and there is none exactly if there was no such configuration |
| `Factory.OwnConfigExactly` | backend/internal/llm/factory.go:23-48 | A request is served what its own row would build if and only if that first configuration, if any, equals it |
| `Factory.ProviderFactory.CreateProvider` | backend/internal/llm/factory.go:19-49 | The object's step is the machine's: new table and result |
| `Staleness.InstancesStay` | backend/internal/llm/factory.go:23-48 | No step of any lookup, statement or clock replaces or removes a factory instance |
| `Staleness.BoundedStaleness` | backend/internal/llm/router.go:59-101 | Over all interleavings of lookups, row edits, deletes and time, what a lookup returns at T is the factory's instance for a configuration that at a moment in [T − ttl − lag, T] some row of its tenant had: the row with its id, or for the default the tenant's first active row |
| `Staleness.StalenessAttained` | backend/internal/llm/router.go:59-74 | For every ttl and lag, a run whose lookups all take at most lag and whose last one hands back a provider that was in the table at T − ttl − lag and never since |
| `Staleness.ExactStaleness` | backend/internal/llm/router.go:38-74 | All lookups of all runs with that lag are at most `age` old if and only if ttl + lag <= age |
| `Staleness.CacheAloneBounds` | backend/internal/llm/router.go:38-74 | The interval [T − ttl, T] holds of all such runs if and only if lag <= 0 |
| `Staleness.FinishLookup` | backend/internal/llm/router.go:68-73 | From the read configuration on, an uninterrupted lookup ends with the factory's answer and a cache entry exactly if there is one |
| `Router.Cache.Get` | backend/internal/llm/router.go:38-47 | A hit is an entry that has not expired; otherwise the entry is dropped and nothing else |
| `Router.Cache.Set` | backend/internal/llm/router.go:49-53 | The entry expires ttl after the clock value of this call |
| `Router.ProviderRouter.Complete` | backend/internal/llm/router.go:68-73 | Factory and cache at the end of a lookup: an unsupported name fills neither |
| `Router.ProviderRouter.GetProvider` | backend/internal/llm/router.go:59-74 | The method is the uninterrupted run of the interleaved machine; and in words of the table: a fresh entry is handed out, otherwise "provider not found" if the query fails or no row has that tenant and id, and otherwise the factory's answer for such a row, cached until ttl after the fill |
| `Router.ProviderRouter.GetDefaultProvider` | backend/internal/llm/router.go:76-101 | The same for the default, with its second query when the first finds nothing or fails |
| `Router.DefaultFoundExactly` | backend/internal/llm/router.go:82-93 | The two queries find the tenant's default row or else its first active one; if the second fails, only a default row is found, and if the first fails, the second decides |
| `FallbackChain.OutcomeIsFirstSuccess` | backend/internal/llm/router.go:116-126 | The winner is supported and succeeds and nobody before it does both; there is no winner exactly if every supported one failed, and then the keyword analysis is the result; a result is missing exactly if the winning call had none |
| `FallbackChain.FirstSuccessDecides` | backend/internal/llm/router.go:121-124 | A position that is supported, answers without an error (with a result or without) and has no such position before it is the outcome |
| `FallbackChain.NoSuccessDecides` | backend/internal/llm/router.go:126-126 | Without any such position the outcome is the keyword analysis |
| `FallbackChain.PositionsInOrder` | backend/internal/llm/router.go:116-121 | The recorded calls are the supported positions, each once and in list order |
| `FallbackChain.Service.TryEach` | backend/internal/llm/router.go:116-126 | The loop calls exactly the supported positions up to the winner, each once, and returns the winner's result and row id, or the keyword result with an error |
| `FallbackChain.Service.Chain` | backend/internal/llm/router.go:111-127 | The same over the tenant's list; a failing list gives the keyword result and no call |
| `FallbackChain.Service.AnalyzeWithFallback` | backend/internal/llm/service.go:34-44 | Never an error; the result is missing only if the winning call returned none; one usage row exactly if a provider won and the log works |
| `Keyword.FallbackAnalysis` | backend/internal/llm/fallback.go:5-43 | The step-by-step analysis computes `Analyse` |
| `Keyword.AnalyseExactly` | backend/internal/llm/fallback.go:5-43 | Priority, importance, action and sentiment as if-and-only-ifs over the words the message has in any capitalisation, its exclamation marks and its question marks; the other columns are fixed |
| `Keyword.MonotoneUnderConcatenation` | backend/internal/llm/fallback.go:11-30 | Adding text before or after never lowers severity, never loses an action or importance, and keeps a negative sentiment |
| `Keyword.ImportantIffNotLow` | backend/internal/llm/fallback.go:11-30 | Important exactly if the priority is not low, and then an action is needed |
| `Ingest.ContentIsFirstText` | backend/internal/whatsapp/sync.go:265-297 | The stored content is the first non-empty text in the order of preference, or else the name of the media kind in brackets, or else empty |
| `Ingest.MediaIsFirstPart` | backend/internal/whatsapp/sync.go:310-367 | The media is the first part there is, with its own kind and columns |
| `Ingest.ContactNumberExactly` | backend/internal/whatsapp/sync.go:145-154 | The contact number is the user part, or else what the address has before its at sign |
| `Ingest.ResolveNameExactly` | backend/internal/whatsapp/sync.go:156-175 | A name that is none or the number gives way to the first one the client knows: of the group, or full, push and first name |
| `Ingest.UnseenIsWritten` | backend/internal/whatsapp/sync.go:109-133 | Handling an unseen event appends exactly one row, filed under the conversation of its tenant and contact number, with sender, content, time and each metadata key of the event, and announces that row and its content |
| `Ingest.ConversationExactly` | backend/internal/whatsapp/sync.go:105-110 | A handled event gives its conversation a name and a picture where it has one to give, moves its time only forward, and touches no other conversation |
| `Ingest.SeenIsNotWritten` | backend/internal/whatsapp/sync.go:224-236 | Any other event leaves the rows; one seen before is announced under the id of its first row |
| `Ingest.AlwaysFiled` | backend/internal/whatsapp/sync.go:185-218 | After any events each conversation has an id of its own, and every message is filed under a conversation of its tenant |
| `Ingest.IgnoredMeaning` | backend/internal/whatsapp/sync.go:92-97 | A message is ignored exactly if it has no id, or neither any text nor any media |
| `Ingest.HandleAllComposes` | backend/internal/whatsapp/sync.go:63-84 | Handling two lists one after the other is handling their concatenation, for the tables and for what is announced |
| `Ingest.Syncer.UpsertConversation` | backend/internal/whatsapp/sync.go:144-218 | Name resolution and upsert together: the new table and the row id |
| `Ingest.Syncer.HandleMessage` | backend/internal/whatsapp/sync.go:87-142 | One event is one step: its rows, and at most one announcement, to queue and hub alike |
| `Ingest.Syncer.HandleConversation` | backend/internal/whatsapp/sync.go:72-83 | A conversation of a history sync is the sequence of its usable messages under its address and trimmed name |
| `Ingest.Syncer.HandleHistorySync` | backend/internal/whatsapp/sync.go:57-85 | A history sync is the sequence of all usable messages of all conversations whose address parses |
| `Ingest.MessagesInOrder` | backend/internal/whatsapp/sync.go:63-84 | The events of a conversation in a history sync are its usable messages, all of them and in order, under the conversation's address and trimmed name |
| `Replay.NameIsFold` | backend/internal/whatsapp/sync.go:199-207 | Name and picture of a conversation after any events, and its row id is never changed |
| `Replay.NameAfterIsLastNonEmpty` | backend/internal/whatsapp/sync.go:205 | That name is the one of the last event that brought a non-empty name, or the old one if none did |
| `Replay.LastIsMax` | backend/internal/whatsapp/sync.go:204 | A conversation exists exactly if it did or was upserted, and its last_message_at is the maximum over the old value and all its upserts |
| `Replay.AnyOrderSameLast` | backend/internal/whatsapp/sync.go:204 | Deliveries of the same events in any order and number agree on existence and last_message_at |
| `Replay.InsertTwice` | backend/internal/whatsapp/sync.go:223-258 | A second insert of the same WhatsApp message finds the first and returns its id |
| `Replay.ReplayAddsNothing` | backend/internal/whatsapp/sync.go:87-123 | Events handled before, in any order and number, leave messages, important messages, conversation ids and time stamps as they are |
| `Replay.ReplayIdempotent` | backend/internal/whatsapp/sync.go:87-263 | Handling a list of events twice leaves the conversations, messages and important tables as handling it once, names and pictures included |
| `Replay.DuplicateIsAnnouncedAgain` | backend/internal/whatsapp/sync.go:259-262 | A repeated event is announced again, with the same message id |
| `Analysis.MergeKeepsOtherKeys` | backend/internal/llm/pipeline.go:19-23 | The merge changes the key "analysis" and no other, so what is stored shows the WhatsApp id that the select saw |
| `Analysis.UpdateShows` | backend/internal/llm/pipeline.go:30-34 | An update leaves its own analysis in the row with the tenant and id, whatever was there, and every other row as it was |
| `Analysis.StoreExactly` | backend/internal/llm/pipeline.go:15-34 | A stored analysis replaces an earlier one; all other metadata keys stay if the select worked and are lost if it failed |
| `Analysis.ShownIsLastStored` | backend/internal/llm/pipeline.go:13-34 | In every run a row shows the analysis of the last step that stored one over it, and none exactly if no step did |
| `Analysis.SendExactly` | backend/internal/handlers/messages.go:66-88 | A message sent from the dashboard is a row with the given columns and no metadata, and moves the time of its own conversation only |
| `Analysis.SyncContactExactly` | backend/internal/whatsapp/sync.go:144-218 | A contact sync writes no message and changes only the name and picture of its one conversation |
| `Analysis.ReceiveIsUninterrupted` | backend/internal/whatsapp/sync.go:220-263 | A lookup and an insert that nothing comes between are the handling of the event at one go |
| `Analysis.AnalysedIsUninterrupted` | backend/internal/llm/pipeline.go:15-43 | A select and an update that nothing comes between store the analysis at one go |
| `Analysis.RowsStay` | backend/internal/llm/pipeline.go:15-31 | Message rows are never removed and keep id, tenant, content and conversation; the WhatsApp id a row shows is the one it showed, or that seen by the select of the last analysis stored over it |
| `Analysis.ReadingFrom` | backend/internal/llm/pipeline.go:15-20 | What a separate update stores was selected by one earlier step: the metadata of the row then, or nothing if that select failed |
| `Duplicates.AlwaysInv` | backend/internal/whatsapp/sync.go:242-257 | In every run the id a row or a pending analysis shows is that of the message the row was written for |
| `Duplicates.WhenDoubles` | backend/internal/whatsapp/sync.go:225-236 | An event handled at one go writes a second row exactly if all rows of its message have lost their id; a separate insert, exactly if there is a row by now |
| `Duplicates.EveryWriteLookedUp` | backend/internal/whatsapp/sync.go:225-236 | Every insert of a delivery goes back to one lookup that missed, with no insert of it since |
| `Duplicates.OverlapDoubles` | backend/internal/whatsapp/sync.go:225-258 | That insert writes a second row exactly if another row of its message was written since the lookup, or its rows had lost their id at the lookup |
| `Duplicates.OneRowPerMessage` | backend/internal/whatsapp/sync.go:220-263 | In any run there is at most one row per tenant and WhatsApp message if and only if no two deliveries of a message overlapped and no lookup was made for a message whose rows had lost their id |
| `Duplicates.AlwaysDeduplicated` | backend/internal/whatsapp/sync.go:223-258 | One row per message, and per id shown, in every run in which no select is blind to a WhatsApp id and no two deliveries of a message overlap |
| `Duplicates.OverlapExample` | backend/internal/whatsapp/sync.go:225-258 | Two overlapping deliveries of any message write two rows with its id |
| `Duplicates.FailedSelectExample` | backend/internal/llm/pipeline.go:15-31 | After a failed select the next delivery of any message writes a second row |
| `Analysis.ImportantIsFirstMark` | backend/internal/llm/pipeline.go:35-43 | A message is in the important set exactly if some stored analysis of it was important, with the tenant, priority and reason of the first such analysis |
| `Analysis.ImportantGrows` | backend/internal/llm/pipeline.go:36-39 | Entries of the important set are never removed or changed |
| `Analysis.Tables.StoreAnalysis` | backend/internal/llm/pipeline.go:13-46 | The select, update and insert, any of which may fail: together they are the one step `Store`, a failing insert leaves out the important entry, and a failing update everything; an error is reported exactly if the update fails, or the analysis is important and its insert fails or finds neither the message nor an entry of it |
| `Queue.Conservation` | backend/internal/llm/queue.go:36-118 | Per tenant: enqueued = popped followed by still queued, in order; every popped entry is exactly one of analysed, in flight, lost; none is analysed twice; analyses are in the order of enqueueing |
| `Queue.FifoWithoutFailures` | backend/internal/llm/queue.go:44-58 | Without failing pops the enqueued entries are the analysed, then the batch in flight, then the queue |
| `Queue.NothingLost` | backend/internal/llm/queue.go:89-93 | Entries are lost by failing pops of that tenant only |
| `Queue.LogRecordsEnqueues` | backend/internal/llm/queue.go:36-42 | The log of a tenant is what the run enqueued for it, in order |
| `Queue.BatchBounded` | backend/internal/llm/queue.go:77-97 | A batch never exceeds 100 entries, and one being worked off is not empty |
| `Queue.OtherTenants` | backend/internal/llm/queue.go:60-66 | A step of one tenant changes nothing in the books of another |
| `Workers.RedisQueue.Push` | backend/internal/llm/queue.go:36-42 | The message goes to the front of its own tenant's list, all other lists stay; lists that show a state of the machine show its next state after the enqueue |
| `Workers.RedisQueue.RPop` | backend/internal/llm/queue.go:48-51 | The oldest element leaves its tenant's list; all other lists stay |
| `Workers.RedisQueue.DequeueBatch` | backend/internal/llm/queue.go:44-58 | The oldest elements, oldest first, up to the batch size or the failing pop; they, and the element of a failing pop whose reply was lost, are gone from the list |
| `Workers.BatchIsRun` | backend/internal/llm/queue.go:44-58 | The pops of one batch as a run of the machine end with items to work off, with nothing, or with all of them lost |
| `Workers.RoundIsRun` | backend/internal/llm/queue.go:82-117 | A batch and the analyses of its items as a run of the machine, in closed form; without a failure all that waits, up to 100, is analysed |
| `Workers.Worker.Round` | backend/internal/llm/queue.go:82-117 | One turn of the worker's loop leaves the Redis lists and the analysed messages of that run |
| `Workers.WorkerScheduler.EnsureTenant` | backend/internal/llm/worker_scheduler.go:30-40 | However often it is asked, a tenant's worker is started exactly once, and the tenants with a worker are those of the machine |
| `Workers.BatchAnalyze` | backend/internal/handlers/llm.go:367-392 | Accepted exactly with 1 to 100 messages, and otherwise nothing changes; accepted and undisturbed it is the machine's run that starts the tenant's worker and enqueues, in order, the messages whose push works |
| `Workers.PushesInOrder` | backend/internal/handlers/llm.go:388-390 | The pushes of a batch are those of its messages that work, all of them and in order, with the tenant of the request and the message's own id and content |
| `Pipeline.TwoProducers` | backend/internal/handlers/llm.go:385-390 | In every run what was enqueued for a tenant is the event handlers' announcements and the batch requests' messages, merged: the feature tells them apart and each kind is in its own order |
| `Pipeline.AnalysedAsEnqueued` | backend/internal/llm/queue.go:82-117 | With no failing pop, what a tenant's worker has analysed is a prefix of what both producers enqueued for the tenant; the rest is in its batch or in the queue |
| `Pipeline.WorkersAreStarted` | backend/internal/handlers/llm.go:385-387 | A tenant has a worker if and only if a batch request started it, and nothing of its queue is analysed before |
| `Pipeline.CarriesExactly` | backend/internal/llm/pipeline.go:30-34 | In every run a message carries an analysis if and only if some step stored one under its tenant and id when the tenant had a row with that id |
| `Pipeline.AnalysedIsStoredExactly` | backend/internal/llm/queue.go:99-115 | After a worker's analysis its message carries one if and only if the tenant had a row with that id, and the update worked or the row carried one before |
| `Pipeline.AnnouncedAreStored` | backend/internal/whatsapp/sync.go:120-133 | In every run each announced message is a row of its tenant; and unless an update of the worker failed, each announced one it analysed carries an analysis |
| `Pipeline.AnnouncedIsEnqueued` | backend/internal/whatsapp/sync.go:125-133 | What a handler announces is, when its enqueue works, the next entry of its tenant's queue, and so is what a batch request names |
| `Pipeline.AnalysedIsShown` | backend/internal/llm/queue.go:99-115 | After a worker's analysis whose update worked, exactly the rows with the tenant and id show that result; all others show what they did |
| `Pipeline.AnnouncesAsReceived` | backend/internal/whatsapp/sync.go:120-133 | A delivery in two steps announces what one at one go does: the row's id and the event's content |
| `Pipeline.RequestForNothingExample` | backend/internal/handlers/llm.go:385-390 | A run in which the worker analyses a message that no event announced and no row has |
| `Channel.NeverOverfull` | backend/internal/realtime/websocket.go:22 | A client's buffer never exceeds 16 messages |
| `Channel.DeliveredIsAccepted` | backend/internal/realtime/hub.go:77-80 | Received followed by buffered is, in order, exactly the messages that found a free slot |
| `Channel.AcceptedAmongOffered` | backend/internal/realtime/hub.go:77-80 | Those are a subsequence of the messages offered |
| `Channel.Client.TrySend` | backend/internal/realtime/hub.go:77-80 | A non-blocking send extends the channel's history by one offer |
| `Channel.Client.Receive` | backend/internal/realtime/websocket.go:66-75 | A receive takes the oldest buffered message |
| `Channel.Client.Close` | backend/internal/realtime/hub.go:47 | A close is possible once only |
| `Presence.JoinedCounts` | backend/internal/realtime/hub.go:33-37 | Adding a new client keeps presence equal to the number of clients per user, without zero entries |
| `Presence.LeftCounts` | backend/internal/realtime/hub.go:44-57 | Removing a client keeps it too |
| `Presence.PresentMeansConnected` | backend/internal/realtime/hub.go:84-89 | The users with a counter are exactly the connected ones |
| `Presence.SecondRegisterBreaksCounts` | backend/internal/realtime/hub.go:33-37 | Registering keeps the agreement exactly if the client was not registered |
| `Presence.AddKeepsTables` | backend/internal/realtime/hub.go:27-38 | The same over the tables of all tenants, and exactly that client joins |
| `Presence.RemoveKeepsTables` | backend/internal/realtime/hub.go:41-64 | Removal over the tables of all tenants, and exactly that client leaves |
| `Fanout.AlwaysInv` | backend/internal/realtime/hub.go:27-82 | In every run, broadcasts without the lock included: presence counts the registered clients per tenant and user, no tenant keeps an empty set, and a channel is open while its client is registered and closed exactly once after |
| `Fanout.DeliveredToOwnTenant` | backend/internal/realtime/hub.go:67-82 | If all broadcasts of the run are at one go, the sharper form: received followed by buffered is a subsequence of the messages addressed to the client's own tenant from its registration to its removal |
| `Fanout.PanicsExactly` | backend/internal/realtime/hub.go:73-81 | A send of the loop without the lock hits a closed channel exactly if its receiver was removed between the moment the loop reached it and the send |
| `Fanout.ClosedSendExample` | backend/internal/realtime/hub.go:41-47 | A run in which it does |
| `Fanout.NothingForeign` | backend/internal/realtime/hub.go:73-81 | In every run, such loops included, a client is offered only messages addressed to its own tenant |
| `Fanout.OfferedIsStream` | backend/internal/realtime/hub.go:67-104 | In every run, what a client was offered is exactly what the steps that address it offer, in their order |
| `Fanout.DeliveredInSendOrder` | backend/internal/realtime/hub.go:67-104 | In every run, received followed by buffered is a subsequence of that |
| `Fanout.FinishedLoopReachedAll` | backend/internal/realtime/hub.go:76-81 | When a loop has run its course, every client registered from its beginning on has been offered the message |
| `Fanout.NewcomersAreNotReached` | backend/internal/realtime/hub.go:51-81 | After a tenant's clients had all gone, a broadcast that began before the first to come back reaches nobody any more: its loop ranges over the map that was dropped |
| `Fanout.BroadcastIsUninterrupted` | backend/internal/realtime/hub.go:73-81 | A loop that nothing comes between is a broadcast at one go, whatever the order of its sends |
| `Fanout.OvertakingExample` | backend/internal/realtime/hub.go:73-81 | Two loops whose messages reach a client in the other order |
| `Order.MarksPoint` | backend/internal/realtime/hub.go:73-81 | In every run each offer to a client has a place in the log of beginnings, where its message stands addressed to the client's own tenant |
| `Order.OrderKept` | backend/internal/realtime/hub.go:73-81 | Those places grow from offer to offer if and only if no offer to the client overtook another |
| `Order.OnlySendsOvertake` | backend/internal/realtime/hub.go:76-81 | Only a send without the lock can overtake |
| `Order.MarksConcern` | backend/internal/realtime/hub.go:67-81 | Whatever is offered to a client in any run lies between its registration and its removal, or is the message of a loop that was running when it registered |
| `Order.DeliveredInOrder` | backend/internal/realtime/hub.go:67-104 | In every run, send loops included: received followed by buffered, at most 16, is a subsequence of the offers; and if none overtook another, of the messages to the client's tenant from its registration to its removal, together with those whose loops were still running when it registered, in the order of their beginnings |
| `Order.InOrderExactly` | backend/internal/realtime/hub.go:67-104 | If the tenant's messages all differ, the offers to a client are a subsequence of those that concern it if and only if none overtook another |
| `Presence.Enumerate` | backend/internal/realtime/hub.go:85-89 | The loop lists every key once |
| `Hub.Hub.OfferAll` | backend/internal/realtime/hub.go:98-103 | Every receiver is offered the message once; no channel is closed |
| `Hub.Hub.SendAll` | backend/internal/realtime/hub.go:76-81 | Offering a message to a tenant's clients is the machine's delivery: their channels grow by it, all others stay |
| `Hub.Hub.BroadcastPresenceLocked` | backend/internal/realtime/hub.go:84-104 | The update lists exactly the distinct connected users of the tenant and is offered to all its clients |
| `Hub.Hub.Broadcast` | backend/internal/realtime/hub.go:67-82 | At one go the message is offered to every registered client of the tenant and to nobody else, and the hub invariant holds again |
| `Hub.Hub.Drain` | backend/internal/realtime/websocket.go:66-75 | A receive takes the client's oldest message, and the hub invariant and what every client was told hold again |
| `Hub.Hub.Register` | backend/internal/realtime/hub.go:27-39 | The client joins, is counted, and the tenant is told, the newcomer included; the hub invariant holds again |
| `Hub.Hub.Unregister` | backend/internal/realtime/hub.go:41-65 | The first call removes the client, closes its channel, uncounts it, tells the others and drops an empty set; any other call changes nothing |
| `Hub.ServeWS` | backend/internal/realtime/websocket.go:17-83 | Over a connection with any receives and typing messages of its own, and any joining, leaving, broadcasting and receiving of others, those that join meanwhile included, with both pumps unregistering at its end, the channel is closed exactly once; unless others came or went the client sets are as before |
| `Health.MonitorAgrees` | backend/internal/llm/health.go:38-60 | After a monitor step the status is a function of the last three history rows |
| `Health.MonitorExactly` | backend/internal/llm/health.go:38-60 | A monitor step adds one row, an error for a failed or missing result, slow for more than three seconds and ok otherwise, and its status follows from that row and the two before it |
| `Health.TestExactly` | backend/internal/handlers/llm.go:320-334 | A manual test adds one row, an error for a failed or missing result and ok otherwise, and takes it for the status |
| `Health.StatusAgreesWithHistory` | backend/internal/llm/health.go:28-62 | In any mixture of monitor steps and manual tests, each at one go, the status is that function if the monitor wrote last, and the newest row if a test did |
| `Health.UnhealthyMeansThreeBad` | backend/internal/llm/store.go:127-151 | With steps at one go, "unhealthy" implies three non-ok rows with an error on top, and without manual tests it means exactly that |
| `Health.TestHidesUnhealthy` | backend/internal/handlers/llm.go:320-334 | Three bad rows whose status is only "error" because a manual test wrote the last |
| `Health.DerivedExactly` | backend/internal/llm/health.go:28-62 | With steps at one go the status is the derived one exactly if the monitor wrote last or the rows do not derive "unhealthy" |
| `Health.AtomicIsUninterrupted` | backend/internal/llm/health.go:54-60 | Separate statements that nothing comes between are the steps at one go |
| `Health.UnhealthyAmongStatements` | backend/internal/llm/store.go:110-151 | However the statements interleave, an "unhealthy" provider has an error on top of three bad rows exactly if the rows inserted since the count are bad themselves |
| `Health.SplitStepLosesAgreement` | backend/internal/llm/health.go:54-60 | A run with a test between the count and the mark that ends "unhealthy" on top of an ok row |
| `Health.HealthStore.RecentHealthFailures` | backend/internal/llm/store.go:127-151 | The loop counts the non-ok rows among the newest three |
| `Health.HealthStore.RunOnce` | backend/internal/llm/health.go:28-62 | A round takes one monitor step for each listed provider that is available and changes no other; the row added is stated from the probe alone |
| `Health.HealthStore.TestProvider` | backend/internal/handlers/llm.go:315-342 | A manual test adds the row its probe shows and sets the status of that provider alone |
| `Latency.AverageBound` | backend/internal/llm/providers/helpers.go:19-24 | After n samples in [low, high] with n·high < 2^63: 0 <= S − n·avg <= n(n−1)/2 and low <= avg <= high |
| `Latency.NoOverflow` | backend/internal/llm/providers/helpers.go:23 | In that range no int64 intermediate value wraps around |
| `Latency.Provider.CaptureUsage` | backend/internal/llm/providers/claude.go:179-194 | The record, the counters, the cost, and an average that is the one of all captured latencies, for calls that do not overlap |
| `Retry.SleptExactly` | backend/internal/llm/providers/base.go:28-33 | The pauses after f failures add up to d·(2^f − 1) if and only if f is 0 or d·2^(f−1) < 2^63, and to less otherwise |
| `Retry.Do` | backend/internal/llm/providers/base.go:14-41 | nil exactly if some call succeeded; at most max(1, attempts) calls and none after a success or a cancellation; the last error otherwise, never "retry failed"; and the sleep total of the failures that happened, under that exact condition |
| `Extract.UnwrapsBody` | backend/internal/llm/providers/helpers.go:26-33 | Prose around a bracketed body is removed, whatever the body contains |
| `Extract.ExtractSplits` | backend/internal/llm/providers/helpers.go:26-33 | The text is prose, result and prose; a shorter result is bracketed and the prose around it holds no opening before and no closing after |
| `Extract.Idempotent` | backend/internal/llm/providers/helpers.go:26-33 | Extracting again changes nothing |

## Left out

Weaker than the source, or resting on an assumption:

- Staleness.BoundedStaleness: the interval is [T − ttl − lag, T], the exact one (Staleness.ExactStaleness). A lookup by id 0 shares the slot of the tenant's default, as in the code.
- Hub.Hub.Broadcast: the object broadcasts at one go; the loop without the lock is modelled in the machine (`Begin`, `Pick`, `Send`, `Finish`), ranging over the live map. That the Go runtime may also abort on a map that is read and written at the same time is not modelled.
- Order.DeliveredInOrder: messages from before the client's registration are counted if their loop was still running then, because such a loop can reach the client.
- Hub.ServeWS: the sends of a broadcast are not separated from each other in this method; in the machine they are.
- Pipeline.AnalysedAsEnqueued: payloads decode, and an analysis is stored by the step that makes it. The batch request without a queue, which analyses on the spot, is left out.
- Pipeline.AnnouncedAreStored: says nothing after a failing update of the worker; `Pipeline.AnalysedIsStoredExactly` does.
- Latency.Provider.CaptureUsage: the counters are plain fields of an instance that the factory shares between goroutines; calls that overlap can lose an update, and the average is then not that of all captured latencies.
- Analysis.Tables.StoreAnalysis: the method runs its statements at one go, which the machine separates (`Read`, `Save`). The stored JSON decodes, and the analysis is not nil (the code would fail on a nil one). That decoding and encoding turns JSON numbers into float64 is not modelled; no stored key but "media" and "analysis" holds numbers. In the machine the update and the insert into important_messages are one step; an update that fails changes nothing and is no step, and a failing insert is an input of the method only.
- Replay.LastIsMax: about events; a message sent or forwarded from the dashboard sets last_message_at to its own time unconditionally. That step is part of `Analysis.NextDb`, where it matters for the other theorems.
- Replay.ReplayIdempotent: what the client answers about names and pictures is part of an event and so is the same on replay; the sequences that number new rows are not compared.
- Queue.Conservation: payloads decode, and no pop that reports success has silently dropped an element in a retry of the Redis client.
- Workers.Worker.Round: a round that nothing comes between, with the batch size of 100 that every worker is started with; producers and failures in between are steps of the machine.
- Health.MonitorAgrees: database writes succeed, check times increase, so that history order is the order of writing, and one monitor runs per provider.
- Retry.Do: the context ends with "context canceled"; a deadline reads differently.
- Keyword.MonotoneUnderConcatenation: lower-casing maps the characters whose lower case is an ASCII letter and leaves the others, which no keyword contains; strings are valid Unicode.
- Gate.ReachesHandler: the ids and query values a handler receives are not carried, the hub and the limiter are present, and the second authentication on the WebSocket path sees the same user. The token check itself is an input. PUT needs no CSRF token, as in the code.
- ProviderTable.ProviderStore.CreateProvider: validation, default prices, encryption of the key and the history row around the two statements.
- FallbackChain.Service.AnalyzeWithFallback: usage rows carry no tokens, as in the code, where no provider type has the method the log asks for.

Not modelled:

- The SQL and Redis engines, row-level security, connection pooling and timeouts: tables are sequences and maps with the cited statements only.
- Vendor SDK calls, prompts, JSON decoding of their answers, and the WhatsApp sockets.
- The WhatsApp session manager and its QR codes, JWT, bcrypt, AES and HMAC: thin layers over libraries.
- The other handlers (labels, comments, workflows, integrations, team, notifications, dashboards, cost reports): one query each.
- Sleeps, tickers and liveness: nothing here says that a worker or a monitor gets to run.
- The frontend, generated protocol code and deployment files.
- `joinLines` and pagination: too simple to say anything a reader would not see.
