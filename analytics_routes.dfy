/**
 * The analytics HTTP routes, reduced to their logic: the defaults of their query
 * parameters, the mapping of an analytics call's outcome to a response, and the
 * conversation-window recommendation for a session.
 */
module AnalyticsRoutes {
  import opened Wrappers
  import opened Text
  import Analytics

  /** How an analytics call settled: it rejected, it resolved to null, or it resolved to a value. */
  datatype Lookup<T> = Rejected | Unavailable | Found(value: T)

  /** A route's response: 400, 503, 500, or 200 with the data. */
  datatype Response<T> =
    | BadRequest(message: string)
    | ServiceUnavailable(message: string)
    | InternalError(message: string)
    | Success(data: T)

  const UnavailableMessage: string := "Analytics service is not available"
  const SessionIdRequiredMessage: string := "Session ID is required"

  /** A resolved value is sent with 200, a null result as 503, a rejection as 500 with the route's own message. */
  function Respond<T>(lookup: Lookup<T>, failureMessage: string): (r: Response<T>)
    ensures r.Success? <==> lookup.Found?
    ensures lookup.Found? ==> r == Success(lookup.value)
    ensures lookup.Unavailable? ==> r == ServiceUnavailable(UnavailableMessage)
    ensures lookup.Rejected? ==> r == InternalError(failureMessage)
  {
    match lookup
    case Found(v) => Success(v)
    case Unavailable => ServiceUnavailable(UnavailableMessage)
    case Rejected => InternalError(failureMessage)
  }

  // ---------------------------------------------------------------- query parameters

  datatype Route = SummaryRoute | QualityRoute | FollowUpRoute | RetentionRoute | TopTopicsRoute | WindowsRoute

  /** The `days` a route uses when the query does not give one: a week for the summary and quality views, a month for the rest. */
  function DefaultDays(route: Route): (d: Option<int>)
    ensures d.None? <==> route == FollowUpRoute
    ensures route == SummaryRoute || route == QualityRoute ==> d == Some(7)
    ensures route == RetentionRoute || route == TopTopicsRoute || route == WindowsRoute ==> d == Some(30)
  {
    match route
    case SummaryRoute => Some(7)
    case QualityRoute => Some(7)
    case FollowUpRoute => None
    case RetentionRoute => Some(30)
    case TopTopicsRoute => Some(30)
    case WindowsRoute => Some(30)
  }

  /** The `limit` a route uses when the query does not give one; only two routes take a limit. */
  function DefaultLimit(route: Route): (l: Option<int>)
    ensures l.Some? <==> route == FollowUpRoute || route == TopTopicsRoute
    ensures route == FollowUpRoute ==> l == Some(100)
    ensures route == TopTopicsRoute ==> l == Some(10)
  {
    match route
    case FollowUpRoute => Some(100)
    case TopTopicsRoute => Some(10)
    case _ => None
  }

  const FailurePrefix: string := "Failed to "

  /** What a route was doing when its analytics call rejected. */
  function FailedAction(route: Route): string
  {
    match route
    case SummaryRoute => "retrieve analytics summary"
    case QualityRoute => "retrieve conversation quality metrics"
    case FollowUpRoute => "retrieve follow-up patterns"
    case RetentionRoute => "retrieve user retention data"
    case TopTopicsRoute => "retrieve top topics"
    case WindowsRoute => "analyze conversation windows"
  }

  /** The message a route answers with when its analytics call rejects: `Failed to ` and what it was doing. */
  function FailureMessage(route: Route): (r: string)
    ensures |r| > |FailurePrefix| && r[..|FailurePrefix|] == FailurePrefix
  {
    FailurePrefix + FailedAction(route)
  }

  /** Each route has its own failure message. */
  lemma FailureMessagesDistinct(a: Route, b: Route)
    requires a != b
    ensures FailureMessage(a) != FailureMessage(b)
  {
    assert FailureMessage(a)[|FailurePrefix|..] == FailedAction(a);
    assert FailureMessage(b)[|FailurePrefix|..] == FailedAction(b);
  }

  /** Every listed route answers its analytics call's outcome the same way, with its own failure message. */
  function RouteResponse<T>(route: Route, lookup: Lookup<T>): (r: Response<T>)
    ensures lookup.Found? ==> r == Success(lookup.value)
    ensures lookup.Unavailable? ==> r == ServiceUnavailable(UnavailableMessage)
    ensures lookup.Rejected? ==> r == InternalError(FailureMessage(route))
  {
    Respond(lookup, FailureMessage(route))
  }

  /** The per-session analytics route: 400 without a session id, otherwise the outcome of the session lookup. */
  function SessionAnalyticsResponse<T>(sessionId: string, lookup: Lookup<T>): (r: Response<T>)
    ensures sessionId == "" ==> r == BadRequest(SessionIdRequiredMessage)
    ensures sessionId != "" && lookup.Found? ==> r == Success(lookup.value)
    ensures sessionId != "" && lookup.Unavailable? ==> r == ServiceUnavailable(UnavailableMessage)
    ensures sessionId != "" && lookup.Rejected? ==> r == InternalError("Failed to retrieve session analytics")
  {
    if sessionId == "" then BadRequest(SessionIdRequiredMessage)
    else Respond(lookup, "Failed to retrieve session analytics")
  }

  /** `req.query.x ? parseInt(req.query.x) : default`, with a present parameter given as the number it parses to. */
  function QueryNumber(given: Option<int>, default: int): (n: int)
    ensures given.Some? ==> n == given.value
    ensures given.None? ==> n == default
  {
    if given.Some? then given.value else default
  }

  /** The summary route: the summary of the last `days` days (7 unless given), or 503 while analytics is unavailable. */
  function SummaryResponse(store: Analytics.AnalyticsStore, days: Option<int>, now: int, queryFails: bool): (r: Response<Analytics.Summary>)
    reads store
    ensures store.collection.None? || queryFails ==> r == ServiceUnavailable(UnavailableMessage)
    ensures store.collection.Some? && !queryFails ==>
              r == Success(Analytics.Summarize(store.collection.value, QueryNumber(days, 7), now))
  {
    var summary := store.GetAnalyticsSummary(Some(QueryNumber(days, DefaultDays(SummaryRoute).value)), now, queryFails);
    RouteResponse(SummaryRoute, if summary.Some? then Found(summary.value) else Unavailable)
  }

  // ---------------------------------------------------------------- window recommendation

  /** What the session analytics report about a session; a property it leaves out is `None`. */
  datatype SessionAnalytics = SessionAnalytics(interactionCount: Option<int>, hasHumanAssistance: Option<bool>)

  datatype Recommendation = Recommendation(
    sessionId: string, interactionCount: int, recommendedWindowSize: int, recommendation: string)

  /** The window size by conversation length alone: 3 up to 3 interactions, 5 up to 7, 8 up to 15, else 10. */
  function BaseWindowSize(interactionCount: int): (w: int)
    ensures interactionCount <= 3 ==> w == 3
    ensures 3 < interactionCount <= 7 ==> w == 5
    ensures 7 < interactionCount <= 15 ==> w == 8
    ensures 15 < interactionCount ==> w == 10
  {
    if interactionCount <= 3 then 3
    else if interactionCount <= 7 then 5
    else if interactionCount <= 15 then 8
    else 10
  }

  /**
   * The recommended window: the base size, two more when a human was needed and the
   * base is below 10, capped at 10. The result is the base size raised by two and
   * capped at 10 when a human was needed, and lies in {3, 5, 7, 8, 10}.
   */
  function RecommendedWindowSize(interactionCount: int, hasHumanAssistance: bool): (w: int)
    ensures w == if hasHumanAssistance then Min(BaseWindowSize(interactionCount) + 2, 10) else BaseWindowSize(interactionCount)
    ensures w == 3 || w == 5 || w == 7 || w == 8 || w == 10
    ensures w <= 10
  {
    var size := BaseWindowSize(interactionCount);
    var size' := if hasHumanAssistance && size < 10 then size + 2 else size;
    Min(size', 10)
  }

  /** More interactions never lower the recommendation. */
  lemma RecommendationMonotone(a: int, b: int, hasHumanAssistance: bool)
    requires a <= b
    ensures RecommendedWindowSize(a, hasHumanAssistance) <= RecommendedWindowSize(b, hasHumanAssistance)
  {
  }

  lemma RecommendationExamples()
    ensures RecommendedWindowSize(4, false) == 5
    ensures RecommendedWindowSize(9, true) == 10
    ensures RecommendedWindowSize(20, true) == 10
    ensures RecommendedWindowSize(0, true) == 5
  {
  }

  const RecommendationLead: string := "Based on this session's complexity and history, we recommend a context window of "

  function RecommendationText(size: int): (r: string)
    ensures |r| > |RecommendationLead| + 10
    ensures r[..|RecommendationLead|] == RecommendationLead && r[|r| - 10..] == " messages."
    ensures size >= 0 ==> ParseDigits(r[|RecommendationLead|..|r| - 10]) == size
  {
    var middle := IntToString(size);
    assert (RecommendationLead + middle + " messages.")[|RecommendationLead|..|RecommendationLead| + |middle|] == middle;
    RecommendationLead + IntToString(size) + " messages."
  }

  /** The recommendation for a session from its analytics: a missing count is 0, a missing flag is false. */
  function Recommend(sessionId: string, analytics: SessionAnalytics): (r: Recommendation)
    ensures r.sessionId == sessionId
    ensures r.interactionCount == analytics.interactionCount.GetOr(0)
    ensures r.recommendedWindowSize == RecommendedWindowSize(r.interactionCount, analytics.hasHumanAssistance.GetOr(false))
    ensures r.recommendation == RecommendationText(r.recommendedWindowSize)
  {
    var count := if analytics.interactionCount.Some? then analytics.interactionCount.value else 0;
    var human := analytics.hasHumanAssistance.Some? && analytics.hasHumanAssistance.value;
    var size := RecommendedWindowSize(count, human);
    Recommendation(sessionId, count, size, RecommendationText(size))
  }

  /**
   * The recommended-window route: 400 without a session id, 503 when the session
   * analytics are unavailable, 500 when they fail, and otherwise the recommendation
   * built from them.
   */
  function RecommendWindow(sessionId: string, analytics: Lookup<SessionAnalytics>): (r: Response<Recommendation>)
    ensures sessionId == "" ==> r == BadRequest(SessionIdRequiredMessage)
    ensures sessionId != "" && analytics.Unavailable? ==> r == ServiceUnavailable(UnavailableMessage)
    ensures sessionId != "" && analytics.Rejected? ==> r == InternalError("Failed to generate window size recommendation")
    ensures sessionId != "" && analytics.Found? ==> r == Success(Recommend(sessionId, analytics.value))
  {
    if sessionId == "" then BadRequest(SessionIdRequiredMessage)
    else
      match analytics
      case Rejected => InternalError("Failed to generate window size recommendation")
      case Unavailable => ServiceUnavailable(UnavailableMessage)
      case Found(a) => Success(Recommend(sessionId, a))
  }

  /** A session without analytics data is recommended the smallest window, or 5 when it needed a human. */
  lemma NewSessionRecommendation(sessionId: string)
    requires sessionId != ""
    ensures RecommendWindow(sessionId, Found(SessionAnalytics(None, None))).data.recommendedWindowSize == 3
    ensures RecommendWindow(sessionId, Found(SessionAnalytics(Some(0), Some(true)))).data.recommendedWindowSize == 5
  {
  }
}
