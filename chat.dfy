/**
 * The chat controller: one conversational turn. It validates the prompt, renews
 * the caller's session, runs the question-answering graph over the session's
 * recent history, records both sides of the exchange, logs the interaction for
 * analytics and answers with the reply and its metadata; a failure of the graph
 * becomes an error response whose message is chosen from the error.
 *
 * The request clock is read twice and both readings are parameters: `start`
 * before the session is looked up, `finish` once the graph has answered.
 */
module ChatController {
  import opened Wrappers
  import opened Text
  import opened Sessions
  import Pipeline
  import Analytics

  const PromptRequiredMessage: string := "Prompt is required"
  const GenericErrorMessage: string := "An error occurred processing your request"
  const DatabaseErrorMessage: string := "Our knowledge database is currently experiencing issues. Please try again shortly."
  const RetrievalErrorMessage: string := "There was an issue retrieving relevant information. Please try a different question."

  /** A database failure: raised by the database server, or naming MongoDB in its message. */
  predicate IsDatabaseError(e: Pipeline.Thrown)
  {
    e.ErrorValue? && (e.name == "MongoServerError" || Contains(e.message, "MongoDB"))
  }

  /** A retrieval failure: a message that mentions a token or an index. */
  predicate IsRetrievalError(e: Pipeline.Thrown)
  {
    e.ErrorValue? && (Contains(e.message, "token") || Contains(e.message, "index"))
  }

  /**
   * The message shown for a thrown value: database failures first, then retrieval
   * failures, then the error's own message; a thrown non-error gets the generic text.
   */
  function ErrorMessage(e: Pipeline.Thrown): (r: string)
    ensures e.NonError? ==> r == GenericErrorMessage
    ensures IsDatabaseError(e) ==> r == DatabaseErrorMessage
    ensures IsRetrievalError(e) && !IsDatabaseError(e) ==> r == RetrievalErrorMessage
    ensures e.ErrorValue? && !IsDatabaseError(e) && !IsRetrievalError(e) ==> r == e.message
  {
    match e
    case NonError => GenericErrorMessage
    case ErrorValue(name, message) =>
      if name == "MongoServerError" || Contains(message, "MongoDB") then DatabaseErrorMessage
      else if Contains(message, "token") || Contains(message, "index") then RetrievalErrorMessage
      else message
  }

  /** An error whose message mentions MongoDB anywhere is reported as a database failure, whatever its name. */
  lemma MongoMentionIsDatabaseError(name: string, message: string, i: int)
    requires OccursAt(message, "MongoDB", i)
    ensures ErrorMessage(Pipeline.ErrorValue(name, message)) == DatabaseErrorMessage
  {
    ContainsIffOccurs(message, "MongoDB");
  }

  /** A mention of a token or an index, without any sign of the database, is reported as a retrieval failure. */
  lemma TokenOrIndexMentionIsRetrievalError(name: string, message: string, word: string, i: int)
    requires word == "token" || word == "index"
    requires OccursAt(message, word, i)
    requires name != "MongoServerError" && forall j :: !OccursAt(message, "MongoDB", j)
    ensures ErrorMessage(Pipeline.ErrorValue(name, message)) == RetrievalErrorMessage
  {
    ContainsIffOccurs(message, word);
    ContainsIffOccurs(message, "MongoDB");
  }

  /**
   * An error's own message reaches the caller only when it names neither the
   * database, nor a token, nor an index (or is itself one of the fixed texts).
   */
  lemma RawMessageIsClean(name: string, message: string)
    requires ErrorMessage(Pipeline.ErrorValue(name, message)) == message
    requires message != DatabaseErrorMessage && message != RetrievalErrorMessage
    ensures name != "MongoServerError"
    ensures forall j :: !OccursAt(message, "MongoDB", j) && !OccursAt(message, "token", j) && !OccursAt(message, "index", j)
  {
    ContainsIffOccurs(message, "MongoDB");
    ContainsIffOccurs(message, "token");
    ContainsIffOccurs(message, "index");
  }

  /** The response of a turn. */
  datatype ChatResponse =
    | BadRequest(message: string)
    | Success(message: string, sessionId: string, sessionActive: bool, needsHumanAssistance: bool,
              responseTime: int, category: string, contextRelevance: real)
    | Failure(message: string)

  /** The reply of a finished run: its final answer, or its answer when the final answer is missing or empty. */
  function Reply(result: Pipeline.PipelineState): (r: string)
    ensures result.finalAnswer.Some? && result.finalAnswer.value != "" ==> r == result.finalAnswer.value
    ensures (result.finalAnswer.None? || result.finalAnswer.value == "") && result.answer.Some? ==> r == result.answer.value
  {
    StringOr(result.finalAnswer, result.answer.GetOr(""))
  }

  /** The success response: the reply with the run's flags, each replaced by its default when missing. */
  function SuccessResponse(result: Pipeline.PipelineState, sessionId: string, responseTime: int): (r: ChatResponse)
    ensures r.Success? && r.message == Reply(result) && r.sessionId == sessionId && r.responseTime == responseTime
    ensures r.sessionActive
    ensures r.needsHumanAssistance <==> result.needsHumanAssistance == Some(true)
    ensures r.category == StringOr(result.category, Pipeline.GeneralCategory)
    ensures r.contextRelevance == result.contextRelevance.GetOr(0.0)
  {
    Success(Reply(result), sessionId, true, result.needsHumanAssistance.GetOr(false), responseTime,
            StringOr(result.category, Pipeline.GeneralCategory), result.contextRelevance.GetOr(0.0))
  }

  /** When a human is needed, the reply of a successful run is the handoff message. */
  lemma EscalatedReply(svc: Pipeline.Services, question: string, history: seq<Message>, sessionId: string)
    requires Pipeline.Invoke(svc, question, history, sessionId).Ok?
    requires Pipeline.Invoke(svc, question, history, sessionId).value.needsHumanAssistance == Some(true)
    requires svc.handoff(question) != ""
    ensures Reply(Pipeline.Invoke(svc, question, history, sessionId).value) == svc.handoff(question)
  {
    Pipeline.HandoffWins(svc, question, history, sessionId);
  }

  /** The history handed to the graph: the session's window, by its own or the default size. */
  function TurnHistory(s: Session, defaultSize: int): (r: seq<Message>)
    requires defaultSize > 0
    ensures s.conversationWindowSize > 0 ==>
              |r| == Min(s.conversationWindowSize, |s.history|) && r == s.history[|s.history| - |r|..]
    ensures s.conversationWindowSize < 0 ==> r == s.history[Min(-s.conversationWindowSize, |s.history|)..]
    ensures s.conversationWindowSize == 0 ==> |r| == Min(defaultSize, |s.history|) && r == s.history[|s.history| - |r|..]
  {
    WindowView(s.history, EffectiveWindow(None, s.conversationWindowSize, defaultSize))
  }

  /**
   * The session after both sides of the exchange are appended at `finish`: the two
   * messages follow the earlier history, unless the session expired while the
   * graph ran, in which case they start a new one.
   */
  function AfterExchange(s: Session, prompt: string, reply: string, finish: int, defaultSize: int): (r: Session)
    ensures r.lastUpdated == finish
    ensures !Stale(s, finish) ==>
              r.history == s.history + [Message(Human, prompt, finish), Message(Assistant, reply, finish)]
              && r.conversationWindowSize == s.conversationWindowSize
    ensures Stale(s, finish) ==>
              r == Session([Message(Human, prompt, finish), Message(Assistant, reply, finish)], finish, defaultSize)
  {
    var first := if Stale(s, finish) then Session([], finish, defaultSize) else s;
    first.(history := first.history + [Message(Human, prompt, finish), Message(Assistant, reply, finish)], lastUpdated := finish)
  }

  /** A turn that the graph answers within 24 hours extends the session's history by exactly the exchange. */
  lemma PromptTurnExtendsHistory(s: Session, prompt: string, reply: string, start: int, finish: int, defaultSize: int)
    requires s.lastUpdated == start && start <= finish && finish - start <= MaxSessionAge
    ensures AfterExchange(s, prompt, reply, finish, defaultSize).history[..|s.history|] == s.history
    ensures |AfterExchange(s, prompt, reply, finish, defaultSize).history| == |s.history| + 2
  {
  }

  /**
   * `chatController`: an empty prompt is refused and nothing changes. Otherwise the
   * session is renewed at `start` and the graph runs over its window; when the
   * graph fails, the response carries the mapped error and only the renewal
   * remains; when it answers, the question and the reply are appended at `finish`,
   * the interaction is logged, and the response carries the reply and its metadata.
   */
  method Chat(sm: SessionManager, store: Analytics.AnalyticsStore, svc: Pipeline.Services,
              prompt: string, sessionId: string, start: int, finish: int, freshId: string,
              userAgent: Option<string>, ipAddress: Option<string>, insertSucceeds: bool)
    returns (resp: ChatResponse)
    requires sm.Valid() && freshId != ""
    modifies sm, store
    ensures sm.Valid() && sm.defaultWindowSize == old(sm.defaultWindowSize)
    ensures prompt == "" ==>
              resp == BadRequest(PromptRequiredMessage)
              && sm.sessions == old(sm.sessions) && store.collection == old(store.collection)
    ensures prompt != "" ==>
              var id := if sessionId != "" then sessionId else freshId;
              var renewed := Renew(old(sm.sessions), id, start, sm.defaultWindowSize);
              var result := Pipeline.Invoke(svc, prompt, TurnHistory(renewed, sm.defaultWindowSize), id);
              result.Err? ==>
                && resp == Failure(ErrorMessage(result.error))
                && sm.sessions == old(sm.sessions)[id := renewed]
                && store.collection == old(store.collection)
    ensures prompt != "" ==>
              var id := if sessionId != "" then sessionId else freshId;
              var renewed := Renew(old(sm.sessions), id, start, sm.defaultWindowSize);
              var result := Pipeline.Invoke(svc, prompt, TurnHistory(renewed, sm.defaultWindowSize), id);
              result.Ok? ==> resp == SuccessResponse(result.value, id, finish - start)
    ensures prompt != "" ==>
              var id := if sessionId != "" then sessionId else freshId;
              var renewed := Renew(old(sm.sessions), id, start, sm.defaultWindowSize);
              var result := Pipeline.Invoke(svc, prompt, TurnHistory(renewed, sm.defaultWindowSize), id);
              result.Ok? ==>
                sm.sessions == old(sm.sessions)[id := AfterExchange(renewed, prompt, Reply(result.value), finish, sm.defaultWindowSize)]
    ensures prompt != "" ==>
              var id := if sessionId != "" then sessionId else freshId;
              var renewed := Renew(old(sm.sessions), id, start, sm.defaultWindowSize);
              var result := Pipeline.Invoke(svc, prompt, TurnHistory(renewed, sm.defaultWindowSize), id);
              result.Ok? && old(store.collection).Some? && insertSucceeds ==>
                store.collection == Some(old(store.collection).value + [TurnRecord(result.value, id, prompt, finish, finish - start, userAgent, ipAddress)])
    ensures prompt != "" ==>
              var id := if sessionId != "" then sessionId else freshId;
              var renewed := Renew(old(sm.sessions), id, start, sm.defaultWindowSize);
              var result := Pipeline.Invoke(svc, prompt, TurnHistory(renewed, sm.defaultWindowSize), id);
              result.Ok? && (old(store.collection).None? || !insertSucceeds) ==> store.collection == old(store.collection)
  {
    if prompt == "" {
      return BadRequest(PromptRequiredMessage);
    }
    resp := AnswerPrompt(sm, store, svc, prompt, sessionId, start, finish, freshId, userAgent, ipAddress, insertSucceeds);
  }

  /** A turn with a non-empty prompt. */
  method AnswerPrompt(sm: SessionManager, store: Analytics.AnalyticsStore, svc: Pipeline.Services,
                    prompt: string, sessionId: string, start: int, finish: int, freshId: string,
                    userAgent: Option<string>, ipAddress: Option<string>, insertSucceeds: bool)
    returns (resp: ChatResponse)
    requires sm.Valid() && freshId != "" && prompt != ""
    modifies sm, store
    ensures sm.Valid() && sm.defaultWindowSize == old(sm.defaultWindowSize)
    ensures var id := if sessionId != "" then sessionId else freshId;
            var renewed := Renew(old(sm.sessions), id, start, sm.defaultWindowSize);
            var result := Pipeline.Invoke(svc, prompt, TurnHistory(renewed, sm.defaultWindowSize), id);
            result.Err? ==>
              && resp == Failure(ErrorMessage(result.error))
              && sm.sessions == old(sm.sessions)[id := renewed]
              && store.collection == old(store.collection)
    ensures var id := if sessionId != "" then sessionId else freshId;
            var renewed := Renew(old(sm.sessions), id, start, sm.defaultWindowSize);
            var result := Pipeline.Invoke(svc, prompt, TurnHistory(renewed, sm.defaultWindowSize), id);
            result.Ok? ==> resp == SuccessResponse(result.value, id, finish - start)
    ensures var id := if sessionId != "" then sessionId else freshId;
            var renewed := Renew(old(sm.sessions), id, start, sm.defaultWindowSize);
            var result := Pipeline.Invoke(svc, prompt, TurnHistory(renewed, sm.defaultWindowSize), id);
            result.Ok? ==>
              sm.sessions == old(sm.sessions)[id := AfterExchange(renewed, prompt, Reply(result.value), finish, sm.defaultWindowSize)]
    ensures var id := if sessionId != "" then sessionId else freshId;
            var renewed := Renew(old(sm.sessions), id, start, sm.defaultWindowSize);
            var result := Pipeline.Invoke(svc, prompt, TurnHistory(renewed, sm.defaultWindowSize), id);
            result.Ok? && old(store.collection).Some? && insertSucceeds ==>
              store.collection == Some(old(store.collection).value + [TurnRecord(result.value, id, prompt, finish, finish - start, userAgent, ipAddress)])
    ensures var id := if sessionId != "" then sessionId else freshId;
            var renewed := Renew(old(sm.sessions), id, start, sm.defaultWindowSize);
            var result := Pipeline.Invoke(svc, prompt, TurnHistory(renewed, sm.defaultWindowSize), id);
            result.Ok? && (old(store.collection).None? || !insertSucceeds) ==> store.collection == old(store.collection)
  {
    var id, history := OpenSession(sm, sessionId, start, freshId);
    ghost var renewed := Renew(old(sm.sessions), id, start, sm.defaultWindowSize);
    var result := RunGraph(svc, prompt, history, id);
    resp := Conclude(sm, store, result, id, prompt, start, finish, userAgent, ipAddress, insertSucceeds);
    if result.Ok? {
      UpdateTwice(old(sm.sessions), id, renewed, AfterExchange(renewed, prompt, Reply(result.value), finish, sm.defaultWindowSize));
    }
  }

  /** What a turn does once the graph has run: report the failure, or finish the turn. */
  method Conclude(sm: SessionManager, store: Analytics.AnalyticsStore, result: Result<Pipeline.PipelineState, Pipeline.Thrown>,
                  id: string, prompt: string, start: int, finish: int,
                  userAgent: Option<string>, ipAddress: Option<string>, insertSucceeds: bool)
    returns (resp: ChatResponse)
    requires sm.Valid() && id != "" && id in sm.sessions
    modifies sm, store
    ensures sm.Valid() && sm.defaultWindowSize == old(sm.defaultWindowSize)
    ensures result.Err? ==>
              resp == Failure(ErrorMessage(result.error)) && sm.sessions == old(sm.sessions) && store.collection == old(store.collection)
    ensures result.Ok? ==> resp == SuccessResponse(result.value, id, finish - start)
    ensures result.Ok? ==>
              sm.sessions == old(sm.sessions)[id := AfterExchange(old(sm.sessions)[id], prompt, Reply(result.value), finish, sm.defaultWindowSize)]
    ensures result.Ok? && old(store.collection).Some? && insertSucceeds ==>
              store.collection == Some(old(store.collection).value + [TurnRecord(result.value, id, prompt, finish, finish - start, userAgent, ipAddress)])
    ensures result.Ok? && (old(store.collection).None? || !insertSucceeds) ==> store.collection == old(store.collection)
  {
    if result.Err? {
      return Failure(ErrorMessage(result.error));
    }
    resp := FinishTurn(sm, store, result.value, id, prompt, start, finish, userAgent, ipAddress, insertSucceeds);
  }

  /** Updating a key twice keeps only the second value. */
  lemma UpdateTwice(m: map<string, Session>, k: string, v: Session, w: Session)
    ensures m[k := v][k := w] == m[k := w]
  {
  }

  /**
   * The successful end of a turn: records the exchange, logs the interaction and
   * builds the response.
   */
  method FinishTurn(sm: SessionManager, store: Analytics.AnalyticsStore, turn: Pipeline.PipelineState,
                    id: string, prompt: string, start: int, finish: int,
                    userAgent: Option<string>, ipAddress: Option<string>, insertSucceeds: bool)
    returns (resp: ChatResponse)
    requires sm.Valid() && id != "" && id in sm.sessions
    modifies sm, store
    ensures sm.Valid() && sm.defaultWindowSize == old(sm.defaultWindowSize)
    ensures resp == SuccessResponse(turn, id, finish - start)
    ensures sm.sessions == old(sm.sessions)[id := AfterExchange(old(sm.sessions)[id], prompt, Reply(turn), finish, sm.defaultWindowSize)]
    ensures old(store.collection).Some? && insertSucceeds ==>
              store.collection == Some(old(store.collection).value + [TurnRecord(turn, id, prompt, finish, finish - start, userAgent, ipAddress)])
    ensures old(store.collection).None? || !insertSucceeds ==> store.collection == old(store.collection)
  {
    var responseTime := finish - start;
    var reply := Reply(turn);
    RecordExchange(sm, id, prompt, reply, finish);
    store.LogInteraction(finish, id, prompt, reply, turn.context.GetOr([]), responseTime,
                         turn.needsHumanAssistance.GetOr(false), StringOr(turn.category, Pipeline.GeneralCategory),
                         turn.contextRelevance.GetOr(0.0), userAgent, ipAddress, insertSucceeds);
    resp := SuccessResponse(turn, id, responseTime);
  }

  /**
   * The lookups before the graph runs: `getOrCreateSession` and then
   * `getFormattedHistory` at the same instant, which renew the session once and
   * return its window.
   */
  method OpenSession(sm: SessionManager, sessionId: string, start: int, freshId: string)
    returns (id: string, history: seq<Message>)
    requires sm.Valid() && freshId != ""
    modifies sm
    ensures sm.Valid() && sm.defaultWindowSize == old(sm.defaultWindowSize)
    ensures id == if sessionId != "" then sessionId else freshId
    ensures sm.sessions == old(sm.sessions)[id := Renew(old(sm.sessions), id, start, sm.defaultWindowSize)]
    ensures history == TurnHistory(Renew(old(sm.sessions), id, start, sm.defaultWindowSize), sm.defaultWindowSize)
  {
    var stored;
    id, stored := sm.GetOrCreateSession(sessionId, start, freshId);
    ghost var renewed := Renew(old(sm.sessions), id, start, sm.defaultWindowSize);
    RenewedIsUpdate(old(sm.sessions), sm.sessions, id, start, sm.defaultWindowSize);
    ghost var afterLookup := sm.sessions;
    history := sm.GetFormattedHistory(id, None, start);
    RenewedIsUpdate(afterLookup, sm.sessions, id, start, sm.defaultWindowSize);
    assert Renew(afterLookup, id, start, sm.defaultWindowSize) == renewed;
  }

  /** Runs the graph on one question. */
  method RunGraph(svc: Pipeline.Services, prompt: string, history: seq<Message>, id: string)
    returns (result: Result<Pipeline.PipelineState, Pipeline.Thrown>)
    ensures result == Pipeline.Invoke(svc, prompt, history, id)
  {
    result := Pipeline.Invoke(svc, prompt, history, id);
  }

  /** Appends the question and the reply to a stored session, as the two `addMessage` calls of a turn do. */
  method RecordExchange(sm: SessionManager, id: string, prompt: string, reply: string, finish: int)
    requires sm.Valid() && id != "" && id in sm.sessions
    modifies sm
    ensures sm.Valid() && sm.defaultWindowSize == old(sm.defaultWindowSize)
    ensures sm.sessions == old(sm.sessions)[id := AfterExchange(old(sm.sessions)[id], prompt, reply, finish, sm.defaultWindowSize)]
  {
    ghost var before := sm.sessions;
    sm.AddMessage(id, Draft(Human, prompt, None), finish);
    ghost var middle := sm.sessions;
    sm.AddMessage(id, Draft(Assistant, reply, None), finish);
    assert !Stale(middle[id], finish);
    ghost var expected := before[id := AfterExchange(before[id], prompt, reply, finish, sm.defaultWindowSize)];
    assert sm.sessions[id] == expected[id];
    assert sm.sessions - {id} == before - {id};
    MapAgreesOutside(sm.sessions, expected, id);
  }

  /** Two tables that agree on one key and outside it are equal. */
  lemma MapAgreesOutside(a: map<string, Session>, b: map<string, Session>, id: string)
    requires id in a && id in b && a[id] == b[id]
    requires a - {id} == b - {id}
    ensures a == b
  {
    forall k | k in a
      ensures k in b && a[k] == b[k]
    {
      if k != id {
        assert k in a - {id};
      }
    }
    forall k | k in b
      ensures k in a
    {
      if k != id {
        assert k in b - {id};
      }
    }
  }

  /** The analytics record of a finished turn, with the same defaults as the response. */
  function TurnRecord(result: Pipeline.PipelineState, sessionId: string, prompt: string, finish: int, responseTime: int,
                      userAgent: Option<string>, ipAddress: Option<string>): (r: Analytics.ChatAnalytics)
    ensures r.timestamp == finish && r.responseTimeMs == responseTime
    ensures r.sessionId == sessionId && r.question == prompt && r.answer == Reply(result)
    ensures r.humanAssistanceNeeded <==> result.needsHumanAssistance == Some(true)
    ensures r.category == StringOr(result.category, Pipeline.GeneralCategory)
    ensures r.relevanceScore == result.contextRelevance.GetOr(0.0)
    ensures r.contextSources == Analytics.ContextSources(result.context.GetOr([]))
    ensures r.userAgent == userAgent && r.ipAddress == ipAddress
  {
    Analytics.BuildRecord(finish, sessionId, prompt, Reply(result), result.context.GetOr([]), responseTime,
                          result.needsHumanAssistance.GetOr(false), StringOr(result.category, Pipeline.GeneralCategory),
                          result.contextRelevance.GetOr(0.0), userAgent, ipAddress)
  }
}
