# custom-ai-bot-api in Dafny

A model of the core of an Express chatbot API. The bot answers questions from a
company knowledge base with retrieval-augmented generation and keeps a short
conversation memory per session. It logs every interaction for analytics and
offers analytics views. The model covers five parts:

- **Session manager** (`sessions.dfy`, module `Sessions`). It is an object with
  a table from session id to session. A session holds its full history, its
  last activity time and its conversation window size. Sessions expire lazily
  after more than 24 hours without activity, and a sweep deletes expired ones.
  A session's "formatted history" is the last *N* messages, where *N* comes from
  a call override, the session's own size, or the manager's default, in that
  order. It is modelled as a `class` whose methods update `sessions` and
  `defaultWindowSize`. Each method states the whole new table. `Valid()` keeps
  the default size positive and the empty id out of the table.
- **Question-answering graph** (`pipeline.dfy`, module `Pipeline`). The state
  is a record of optional channels. The nodes are pure functions from state to
  state: categorize, retrieve, generate, validate, refine and
  handleHumanAssistance. The edges are a `Node` enumeration with a ranking that
  goes down along every edge. `RunFrom` runs the graph and `TraceFrom` records
  the nodes visited. The classifier, vector search, reranker, relevance scorer,
  answer validator, escalation test, handoff message and language model are
  outside the core. They are fields of a `Services` value, so every lemma holds
  for every behaviour of them. `InvokeOutcome` states what an invocation
  computes without the graph.
- **Analytics store** (`analytics.dfy`, module `Analytics`). The MongoDB
  collection is a `class` field `collection: Option<seq<ChatAnalytics>>`, which
  is `None` while analytics is disabled. Records are appended by logging. The
  summary (count, mean response time, escalation percentage, per-category
  counts) and the "recent questions that needed a human" query are pure
  functions of the stored records. The window and flag filters are stated by
  the multiplicity of every record. The per-category tally is related to a
  plain count, the flagged count to the flagged records, and the newest-first
  top-k to the flagged records it leaves out.
- **Analytics routes** (`analytics_routes.dfy`, module `AnalyticsRoutes`). These
  are the query defaults and the mapping of an analytics call's outcome to 200,
  503 or 500. They also include the recommended-window policy: window 3, 5, 8
  or 10 depending on the length of the conversation, two more when a human was
  needed, and a cap of 10.
- **Chat controller** (`chat.dfy`, module `ChatController`). This is one turn:
  validate the prompt, renew the session, run the graph over the session's
  window, append both sides of the exchange, log the interaction, and answer
  with the reply and its metadata. It also maps a thrown error to the message
  the user sees.

Time is a number of milliseconds passed in by the caller. A freshly generated
uuid is also passed in (`freshId`), as is whether the database accepts an
insert or a query (`insertSucceeds`, `queryFails`). The shared helpers are
`wrappers.dfy` (`Option`, `Result`, JavaScript's `a || b` on strings) and
`text.dfy` (`join`, `includes`, decimal rendering of numbers). `documents.dfy`
models the retrieved document.

Where the compiled JavaScript and the TypeScript sources differ, the model
follows the files it cites. For the session manager, graph and routes these
are the compiled `dist/` files. For the analytics store and chat controller
they are the TypeScript `src/` files.

## Model

| member | source | states |
|---|---|---|
| `Sessions.ExpiryBoundary` | dist/utils/sessionManager.js:50-56 | a session exactly 24 h old is live; one millisecond older it is expired (the comparison is strict) |
| `Sessions.Stamp` | dist/utils/sessionManager.js:41-43 | the stored message keeps its role and content, and its own timestamp or else now |
| `Sessions.SliceFrom` | dist/utils/sessionManager.js:80 | JavaScript `slice(start)`: a negative start counts from the end, and any start is clamped to the sequence |
| `Sessions.WindowView` | dist/utils/sessionManager.js:80 | `history.slice(-w)`: for w > 0 the last min(w, length) messages; for w < 0 the history without its first -w messages; for 0 the whole history |
| `Sessions.WindowOfFiveOverTwelve` | dist/utils/sessionManager.js:72-81 | a window of 5 over 12 messages is messages 7..11 |
| `Sessions.EffectiveWindow` | dist/utils/sessionManager.js:76-78 | the window size is never 0; it is the override when that is non-zero, else the session's size when that is non-zero, else the default |
| `Sessions.LiveSessions` | dist/utils/sessionManager.js:60-67 | exactly the non-expired entries are kept, each unchanged |
| `Sessions.Renew` | dist/utils/sessionManager.js:19-29 | after renewal the activity time is now; a live session keeps its history and window size; a missing or expired one becomes empty with the default size |
| `Sessions.RenewedIsUpdate` | dist/utils/sessionManager.js:15-34 | the effect of `getOrCreateSession` on the table is a single-entry update by `Renew` |
| `Sessions.SessionManager.IsSessionExpired` | dist/utils/sessionManager.js:50-56 | a missing session is expired; a stored one exactly when more than 24 h have passed since its last activity |
| `Sessions.SessionManager.constructor` | dist/utils/sessionManager.js:7-11 | a new manager has no sessions and default window size 10 |
| `Sessions.SessionManager.Touch` | dist/utils/sessionManager.js:19-29 | replace a missing or expired entry by a fresh one, or refresh a live entry's activity time; every other entry is unchanged |
| `Sessions.SessionManager.GetOrCreateSession` | dist/utils/sessionManager.js:15-34 | the id is the requested one, or the fresh uuid when none is given; the table is renewed at that id; the returned history is the stored one |
| `Sessions.SessionManager.AddMessage` | dist/utils/sessionManager.js:38-46 | after renewal, the message is appended with its own timestamp or else now; an expired session restarts with just that message; other sessions are unchanged |
| `Sessions.SessionManager.CleanupExpiredSessions` | dist/utils/sessionManager.js:60-67 | the loop deletes expired sessions one key at a time and leaves exactly `LiveSessions` of the old table |
| `Sessions.SessionManager.GetFormattedHistory` | dist/utils/sessionManager.js:72-81 | renews the session, then returns its window by `EffectiveWindow`; the stored history is unchanged |
| `Sessions.SessionManager.SetConversationWindowSize` | dist/utils/sessionManager.js:85-89 | a stored session gets the new size with everything else kept; an unknown id changes nothing |
| `Sessions.SessionManager.GetConversationWindowSize` | dist/utils/sessionManager.js:93-95 | the session's non-zero size, else the default; never 0 |
| `Sessions.SessionManager.SetDefaultWindowSize` | dist/utils/sessionManager.js:99-103 | a positive size replaces the default; any other size is ignored; sessions are unchanged |
| `Sessions.SessionManager.GetFullHistory` | dist/utils/sessionManager.js:107-110 | renews the session and returns its whole stored history |
| `Text.Join` | dist/api/index.js:67-70 | joining nothing gives ""; otherwise the join starts with the first part |
| `Text.Contains` | src/controller/chat.ts:101-103 | a prefix is contained, and a contained string is no longer than the text |
| `Text.IntToString` | src/utils/analytics.ts:141 | a non-negative number renders as its digits, a negative one as `-` and the digits of its absolute value; both read back as the number |
| `Text.JoinAppend` | dist/api/index.js:67-70 | `join(sep)` of a concatenation is the two joins around `sep` |
| `Text.ContainsIffOccurs` | src/controller/chat.ts:101-103 | `includes` holds exactly when the pattern occurs at some position |
| `Text.NatToStringRoundTrip` | dist/routes/analytics.js:265 | the decimal rendering used in messages reads back as the same number |
| `Text.NatToString` | src/utils/analytics.ts:141 | the rendering is non-empty, all digits and has no leading zero |
| `Wrappers.StringOr` | dist/api/index.js:125 | JavaScript's or-default on strings: `s` when it is present and non-empty, else `d` |
| `Pipeline.SafeSimilaritySearch` | dist/api/index.js:23-33 | a failing vector search yields no documents instead of an error |
| `Pipeline.MatchingCategory` | dist/api/index.js:47 | each document whose category metadata equals the category occurs as often as in the input, every other document not at all |
| `Pipeline.MatchingCategoryAppend` | dist/api/index.js:47 | `filter` keeps order: the matches of a concatenation are the matches of each part, in order |
| `Pipeline.MatchingCategorySingle` | dist/api/index.js:47 | one candidate is kept exactly when its category metadata equals the category |
| `Pipeline.CategoryFilter` | dist/api/index.js:45-52 | for "General" the retrieved documents unchanged; otherwise the matching documents when there are at least 3, else the retrieved documents unchanged |
| `Pipeline.TwoMatchesFallBack` | dist/api/index.js:49-51 | with only two matching documents the filter falls back to all retrieved documents |
| `Pipeline.ThreeMatchesKept` | dist/api/index.js:46-52 | with three matching documents only those are kept |
| `Pipeline.SelectTop` | dist/api/index.js:56 | the first min(4, n) documents of the reranked order |
| `Pipeline.ChooseTemplate` | dist/api/index.js:72-74 | the conversational template is chosen exactly when there is history |
| `Pipeline.FormatContextAppend` | dist/api/index.js:67-70 | the formatted context of two document lists is the two blocks joined by a blank line |
| `Pipeline.FormatContextSingle` | dist/api/index.js:68-69 | one document renders as `Source: <source>\n<content>`, with "Company Document" when the source is missing or empty |
| `Pipeline.FormatContext` | dist/api/index.js:67-70 | no documents give ""; otherwise the context starts with the first document's block |
| `Pipeline.HistoryText` | dist/api/index.js:76-78 | the history text is empty exactly when there is no history, and otherwise starts with the first turn's line |
| `Pipeline.RefinementContext` | dist/api/index.js:109 | no documents give ""; otherwise the text starts with the first document's page content |
| `Pipeline.RefinementContextSingle` | dist/api/index.js:109 | one document gives its page content alone, with no `Source:` line |
| `Pipeline.RefinementContextAppend` | dist/api/index.js:109 | the refinement context of two document lists is the two texts joined by a blank line |
| `Pipeline.HistoryTextShape` | dist/api/index.js:76-78 | no history renders as ""; each turn renders as `role: content`, separated by blank lines |
| `Pipeline.Categorize` | dist/api/index.js:36-39 | sets only the category, to the classifier's verdict |
| `Pipeline.Retrieve` | dist/api/index.js:41-63 | sets only the context, to `SelectedContext` of the question and its category (at most 4 documents), and its relevance score to the scorer's value for that context |
| `Pipeline.Generate` | dist/api/index.js:65-88 | a model error is the node's error; otherwise only the answer is set, to the model's reply to the chosen prompt |
| `Pipeline.Validate` | dist/api/index.js:90-99 | sets only the two verdicts: refinement is needed when the validator rejects the answer; escalation as the escalation test says |
| `Pipeline.Refine` | dist/api/index.js:101-119 | with no refinement needed the final answer is the answer; otherwise the refined reply, or the model's error |
| `Pipeline.HandleHumanAssistance` | dist/api/index.js:121-131 | escalation sets the final answer to the handoff message; otherwise it is the final answer if non-empty, else the answer |
| `Pipeline.ShouldRefine` | dist/api/index.js:133-135 | routes to refine exactly when refinement is needed, else to handleHumanAssistance |
| `Pipeline.Next` | dist/api/index.js:137-154 | every edge leads to a node of lower rank |
| `Pipeline.Step` | dist/api/index.js:137-154 | a successful step leaves the state ready for the next node |
| `Pipeline.RunFrom` | dist/api/index.js:137-154 | a successful run ends with every channel set |
| `Pipeline.TraceDescends` | dist/api/index.js:144-153 | ranks strictly decrease along every trace, which starts at its first node |
| `Pipeline.VisitsEachNodeAtMostOnce` | dist/api/index.js:144-153 | an invocation's trace starts at the start node and never visits a node twice |
| `Pipeline.RunFromValidate` | dist/api/index.js:147-153 | the run from validate is the straight-line unrolling of the conditional edge |
| `Pipeline.TraceFromValidate` | dist/api/index.js:148-153 | the trace from validate is validate, then refine exactly when needed, then handleHumanAssistance and end, cut short by a refine failure |
| `Pipeline.Invoke` | dist/api/index.js:137-154 | a successful invocation always has a final answer |
| `Pipeline.InvokeKeepsRequest` | dist/api/index.js:137-154 | a successful invocation carries the question, history and session id it was given |
| `Pipeline.FinishKeepsRequest` | dist/api/index.js:90-131 | validate, refine and handleHumanAssistance leave the question, history and session id alone |
| `Pipeline.TraceFromGenerate` | dist/api/index.js:146-153 | the trace from generate is generate alone when it fails, else generate followed by the validate-onwards nodes |
| `Pipeline.InvokeUnrolled` | dist/api/index.js:137-154 | an invocation fails with generate's error or finishes with the validate-onwards unrolling |
| `Pipeline.TraceToGenerate` | dist/api/index.js:144-146 | every trace begins start, categorize, retrieve |
| `Pipeline.TraceUnrolled` | dist/api/index.js:144-153 | the full node sequence of an invocation, with a failure at generate ending it |
| `Pipeline.SelectedContext` | dist/api/index.js:43-56 | the context chosen for a question is exactly the first min(4, n) of the n reranked, filtered candidates |
| `Pipeline.InvokeOutcome` | dist/api/index.js:36-131 | the result of an invocation stated without the graph: each channel's value, and which model failure fails it |
| `Pipeline.HandoffWins` | dist/api/index.js:123-130 | when a human is needed the final answer is the handoff message, even after refinement |
| `Pipeline.FinalAnswerWithoutHandoff` | dist/api/index.js:101-126 | without escalation the final answer is the answer when unrefined, else the refined text or, when empty, the answer |
| `Pipeline.SearchFailureDegrades` | dist/api/index.js:28-32 | a failing vector search does not fail the run: the context is then the top of the reranking of no candidates |
| `Analytics.ContextSources` | src/utils/analytics.ts:96-98 | one source per document: its source, or "Unknown Source" when missing or empty |
| `Analytics.BuildRecord` | src/utils/analytics.ts:100-112 | the record carries every argument in its own field, and one source per context document with "Unknown Source" for a missing one |
| `Analytics.Period` | src/utils/analytics.ts:141 | `Last <days> days`, whose middle reads back as the number of days |
| `Analytics.StartDate` | src/utils/analytics.ts:131-132 | the start lies exactly `days` times 86 400 000 ms before now, so not after now for a non-negative count |
| `Analytics.Since` | src/utils/analytics.ts:135-137 | each record at or after the start date occurs as often as in the collection, every earlier one not at all |
| `Analytics.TotalResponseTime` | src/utils/analytics.ts:149-151 | the sum starts at 0 for no records, and the sum of non-negative response times is non-negative |
| `Analytics.TotalResponseTimeSnoc` | src/utils/analytics.ts:149-151 | the sum is the left fold of `reduce`: one more record adds its response time |
| `Analytics.CountFlagged` | src/utils/analytics.ts:153-155 | the number of flagged records is at most the number of records |
| `Analytics.CountFlaggedIsFlaggedLength` | src/utils/analytics.ts:153-155 | the flagged count of the summary is the number of records the flagged-records query returns |
| `Analytics.Bump` | src/utils/analytics.ts:158 | the category becomes a key with its count raised by one (1 when new); every other count is kept |
| `Analytics.Tally` | src/utils/analytics.ts:157-160 | every count is positive and every record's category is a key |
| `Analytics.SumOverRemove` | src/utils/analytics.ts:157-160 | a sum over keys splits off one key |
| `Analytics.SumOverAgree` | src/utils/analytics.ts:157-160 | sums over keys on which two maps agree are equal |
| `Analytics.MapSumBump` | src/utils/analytics.ts:158 | one increment raises the sum of the counts by one |
| `Analytics.TallyCounts` | src/utils/analytics.ts:157-160 | a category is in the tally exactly when it occurs, with its number of occurrences |
| `Analytics.TallySum` | src/utils/analytics.ts:157-160 | the category counts add up to the number of records |
| `Analytics.Mean` | src/utils/analytics.ts:149-151 | the mean times the count is the sum |
| `Analytics.Percentage` | src/utils/analytics.ts:167 | the percentage lies in [0, 100] and times the count is 100 times the part |
| `Analytics.Summarize` | src/utils/analytics.ts:131-169 | the period text is `Last <days> days`; the count is the number of windowed records; the no-interactions form is returned exactly when there are none |
| `Analytics.SummaryStatistics` | src/utils/analytics.ts:148-167 | the statistics form carries the windowed mean response time and escalation percentage, the latter in [0, 100] |
| `Analytics.SummaryCategoryCounts` | src/utils/analytics.ts:157-160 | its per-category counts are the occurrence counts of the windowed records, summing to the total |
| `Analytics.Flagged` | src/utils/analytics.ts:187 | each record that needed a human occurs as often as in the collection, every other record not at all |
| `Analytics.Insert` | src/utils/analytics.ts:188 | insertion keeps newest-first order and adds exactly one record |
| `Analytics.InsertBehind` | src/utils/analytics.ts:188 | the recursive step of insertion keeps order and contents |
| `Analytics.PrependNewest` | src/utils/analytics.ts:188 | a record no older than the rest may lead a newest-first sequence |
| `Analytics.SortNewestFirst` | src/utils/analytics.ts:188 | `sort({timestamp: -1})`: newest first, a permutation of the input |
| `Analytics.Limit` | src/utils/analytics.ts:189 | `limit(n)`: a prefix of length at most the absolute value of n, with 0 meaning no limit |
| `Analytics.NewestFlaggedShape` | src/utils/analytics.ts:186-191 | the returned records needed a human, are newest first and number at most the limit (all of them for 0) |
| `Analytics.PrefixIsNewest` | src/utils/analytics.ts:188-189 | in newest-first order nothing after a cut is newer than anything before it |
| `Analytics.SortedLimitIsNewest` | src/utils/analytics.ts:188-189 | a limit of the newest-first order keeps part of the records, and none left out is newer than one kept |
| `Analytics.NewestFlaggedAreNewest` | src/utils/analytics.ts:186-191 | the returned records are drawn from the flagged ones, and no flagged record left out is newer than a returned one |
| `Analytics.Questions` | src/utils/analytics.ts:193 | the question of each record, in order |
| `Analytics.AnalyticsStore.constructor` | src/utils/analytics.ts:7-8 | analytics starts disabled |
| `Analytics.AnalyticsStore.InitAnalytics` | src/utils/analytics.ts:31-58 | succeeds exactly when configured and connected; missing settings change nothing; a failed connection disables analytics |
| `Analytics.AnalyticsStore.CloseAnalyticsConnection` | src/utils/analytics.ts:63-74 | analytics is disabled afterwards |
| `Analytics.AnalyticsStore.LogInteraction` | src/utils/analytics.ts:79-120 | while enabled, exactly the built record is appended unless the insert fails; while disabled nothing is written |
| `Analytics.AnalyticsStore.GetAnalyticsSummary` | src/utils/analytics.ts:125-174 | unavailable exactly when disabled or the query fails; otherwise `Summarize` of the stored records over the given days, or 7 when none is given |
| `Analytics.AnalyticsStore.GetHumanAssistanceQuestions` | src/utils/analytics.ts:180-198 | no questions when disabled or failing; otherwise the questions of the newest flagged records up to the given limit, or 10 when none is given |
| `AnalyticsRoutes.Respond` | dist/routes/analytics.js:17-36 | a value is sent with 200, a null result as 503 "Analytics service is not available", and a rejection as 500 with the route's message |
| `AnalyticsRoutes.DefaultDays` | dist/routes/analytics.js:16 | 7 days for the summary and quality views, 30 for retention, topics and windows, none for follow-up patterns |
| `AnalyticsRoutes.DefaultLimit` | dist/routes/analytics.js:106 | 100 for follow-up patterns, 10 for top topics, no limit parameter elsewhere |
| `AnalyticsRoutes.QueryNumber` | dist/routes/analytics.js:16 | a given parameter is used, else the route's default |
| `AnalyticsRoutes.FailureMessage` | dist/routes/analytics.js:34 | every route's failure message starts with `Failed to ` |
| `AnalyticsRoutes.FailureMessagesDistinct` | dist/routes/analytics.js:34-210 | no two routes share a failure message |
| `AnalyticsRoutes.RouteResponse` | dist/routes/analytics.js:77-213 | every listed route answers 200, 503 or 500 with its own failure message |
| `AnalyticsRoutes.SummaryResponse` | dist/routes/analytics.js:15-37 | 503 while analytics is disabled or its query fails; otherwise 200 with the summary over the given or default 7 days |
| `AnalyticsRoutes.SessionAnalyticsResponse` | dist/routes/analytics.js:43-70 | 400 without a session id; otherwise 200, 503 or 500 from the session lookup |
| `AnalyticsRoutes.BaseWindowSize` | dist/routes/analytics.js:239-250 | 3 up to 3 interactions, 5 up to 7, 8 up to 15, 10 beyond |
| `AnalyticsRoutes.RecommendedWindowSize` | dist/routes/analytics.js:237-258 | the base size, raised by two and capped at 10 when a human was needed; always one of 3, 5, 7, 8, 10 |
| `AnalyticsRoutes.RecommendationMonotone` | dist/routes/analytics.js:238-258 | more interactions never lower the recommendation |
| `AnalyticsRoutes.RecommendationExamples` | dist/routes/analytics.js:238-258 | 4 interactions give 5; 9 with escalation give 10; 20 with escalation give 10; none with escalation give 5 |
| `AnalyticsRoutes.RecommendationText` | dist/routes/analytics.js:265 | the sentence starts with the fixed lead, ends with ` messages.`, and its middle reads back as the size |
| `AnalyticsRoutes.Recommend` | dist/routes/analytics.js:237-266 | a missing count is 0 and a missing flag false; the response echoes the session id and count, the size, and the sentence naming the size |
| `AnalyticsRoutes.RecommendWindow` | dist/routes/analytics.js:219-276 | 400 without a session id, 503 when unavailable, 500 when the lookup fails, otherwise 200 with the recommendation |
| `AnalyticsRoutes.NewSessionRecommendation` | dist/routes/analytics.js:237-258 | a session with no analytics data gets window 3, or 5 when it needed a human |
| `ChatController.ErrorMessage` | src/controller/chat.ts:97-108 | database errors first, then token or index errors, then the error's own message; a thrown non-error gets the generic text |
| `ChatController.MongoMentionIsDatabaseError` | src/controller/chat.ts:101-102 | any mention of MongoDB in the message gives the database text, whatever the error's name |
| `ChatController.TokenOrIndexMentionIsRetrievalError` | src/controller/chat.ts:103-104 | a mention of token or index, with no sign of the database, gives the retrieval text |
| `ChatController.RawMessageIsClean` | src/controller/chat.ts:99-108 | an error's own message is shown only when it names neither the database, nor a token, nor an index |
| `ChatController.Reply` | src/controller/chat.ts:48 | the final answer when it is non-empty, else the answer |
| `ChatController.SuccessResponse` | src/controller/chat.ts:79-91 | the reply, session id and response time, with the session active; escalation defaults to false, category to "General" and relevance to 0 |
| `ChatController.EscalatedReply` | src/controller/chat.ts:48 | when the graph escalates, the user is sent the handoff message |
| `ChatController.TurnHistory` | src/controller/chat.ts:28 | the graph gets the last min(n, length) messages for a positive session size n (the default size when it is 0), or the history without its first -n messages for a negative one |
| `ChatController.AfterExchange` | src/controller/chat.ts:41-49 | the question and the reply follow the earlier history, or start a new one if the session expired while the graph ran |
| `ChatController.PromptTurnExtendsHistory` | src/controller/chat.ts:22-49 | a turn answered within 24 hours extends the history by exactly two messages and keeps what was there |
| `ChatController.OpenSession` | src/controller/chat.ts:25-28 | the two lookups renew the session once and return its window |
| `ChatController.RunGraph` | src/controller/chat.ts:31-35 | the graph is invoked with the prompt, the window and the session id |
| `ChatController.RecordExchange` | src/controller/chat.ts:41-49 | both `addMessage` calls together replace the session by `AfterExchange` and leave the rest of the table alone |
| `ChatController.FinishTurn` | src/controller/chat.ts:38-91 | the exchange is recorded, exactly one analytics record is logged when enabled, and the success response is built |
| `ChatController.TurnRecord` | src/controller/chat.ts:63-72 | the logged record has the same session id, prompt, reply, escalation flag, category and relevance (0 when missing) as the response, the sources of the run's context (none when missing) and the caller's user agent and address |
| `ChatController.Conclude` | src/controller/chat.ts:31-108 | a graph failure gives the mapped error and changes nothing; a success finishes the turn |
| `ChatController.AnswerPrompt` | src/controller/chat.ts:22-108 | for a non-empty prompt: a graph failure gives the mapped error with only the session renewal kept; a success appends the exchange, logs it and returns the reply |
| `ChatController.Chat` | src/controller/chat.ts:9-115 | an empty prompt gives 400 and changes nothing; a graph failure gives the mapped error with only the session renewal kept; a success appends the exchange, logs it and returns the reply |

## Left out

- HTTP, Express, the JSON bodies and status codes. Responses are datatypes whose
  constructors stand for the status codes.
- The MongoDB and OpenAI clients, the prompt templates, the embedding vector
  store, `identifyQuestionCategory`, `reorderDocumentsByRelevance`,
  `evaluateContextRelevance`, `validateAnswerQuality`, `needsHumanHelp` and
  `generateHumanHandoffMessage`. Their code is not part of this model. They are
  fields of `Pipeline.Services`, so nothing is assumed about what they return
  (not even that relevance lies in [0, 1]).
- The analytics functions the routes call other than `getAnalyticsSummary`
  (`getSessionAnalytics`, `getConversationQualityMetrics`,
  `analyzeFollowUpPatterns`, `analyzeUserRetention`, `getTopSessionTopics`,
  `analyzeConversationWindows`). They are imported by `dist/routes/analytics.js`
  but defined in no file of this model. Their results are `Lookup` values.
- The analytics router is never mounted: `dist/app.js:31` mounts only the chat
  router. The route functions model the handlers themselves.
- The hourly `setInterval` sweep, and concurrency between requests. Each
  operation is one atomic step; the sweep is `CleanupExpiredSessions`.
- Sessions.SessionManager.CleanupExpiredSessions: it uses one `now` for every
  key, while the source reads the clock once per key. Reading the clock per key
  can only expire more sessions later in the sweep.
- `new Date()` and `Date.now()` are the `now`, `start` and `finish` parameters.
  `uuidv4()` is the `freshId` parameter. `setDate(getDate() - days)` is taken as
  exactly `days * 86400000` ms, so daylight-saving shifts are ignored.
- Sessions.SessionManager.AddMessage and
  Sessions.SessionManager.GetFormattedHistory: both require a non-empty session
  id. With an empty id the source creates a session under a fresh uuid;
  `addMessage` then crashes reading `this.sessions[""]` (line 44), and so does
  `getFormattedHistory` without an override (line 77), while with a non-zero
  override it returns the fresh session's empty history. The controller always
  passes the id it got back.
- Sessions.SessionManager.GetOrCreateSession,
  Sessions.SessionManager.IsSessionExpired,
  Sessions.SessionManager.SetConversationWindowSize,
  Sessions.SessionManager.GetConversationWindowSize and ChatController.Chat: the
  model's session table is a plain map. The source's is a plain JavaScript
  object (`dist/utils/sessionManager.js:19`), so an id that names a member of
  `Object.prototype` (`constructor`, `__proto__`, `toString`, `hasOwnProperty`,
  ...) is found there before any session is stored. `isSessionExpired` then
  reads `lastUpdated` of that member and throws a `TypeError` at line 55, and
  the controller answers 500 with that error's message where the model answers
  the turn. Likewise `isSessionExpired` (line 51), `setConversationWindowSize`
  (line 86) and `getConversationWindowSize` (line 94) see those members, so
  `setConversationWindowSize("constructor", w)` writes onto `Object` where the
  model changes nothing.
- Object identity: `addMessage` sets a missing timestamp on the caller's own
  message object, and `getOrCreateSession` returns the live history array. The
  model stores values, so this aliasing is not modelled.
- Numbers are unbounded integers and exact reals. Floating-point rounding of the
  mean and percentage, `NaN` from `parseInt`, and non-numeric
  `interactionCount` values are not modelled. A query parameter is given as the
  number it parses to.
- `logInteraction`'s default parameters: the controller always supplies every
  argument, so the defaults are not modelled as a separate entry point.
- A missing history (`state.history` undefined) is modelled as the empty
  history, which the graph treats the same way.
- Token usage in the chat response: it reads a property the graph never sets,
  so it is always the zero object and is omitted.
- The order MongoDB gives to records with equal timestamps:
  `Analytics.SortNewestFirst` fixes one order, and the lemmas do not depend on
  it.
- Authentication, seeding (`src/db/seed.ts`) and the database configuration.
- The duplicate compiled files `dist/utils/analytics.js` and
  `dist/controller/chat.js` are not modelled; the TypeScript sources are.
