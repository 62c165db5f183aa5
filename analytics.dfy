/**
 * The analytics store: one record per answered chat turn, appended to a
 * collection that is absent while analytics is disabled, and the read-side
 * aggregations over it (the summary of the last `days` days and the newest
 * questions that needed a human).
 *
 * The collection is modelled as the sequence of its records in insertion
 * order; the queries are filters, a sort and a limit over that sequence.
 */
module Analytics {
  import opened Wrappers
  import opened Text
  import opened Documents

  /** One logged interaction; `timestamp` is in milliseconds. */
  datatype ChatAnalytics = ChatAnalytics(
    timestamp: int,
    sessionId: string,
    question: string,
    answer: string,
    contextSources: seq<string>,
    responseTimeMs: int,
    humanAssistanceNeeded: bool,
    category: string,
    relevanceScore: real,
    userAgent: Option<string>,
    ipAddress: Option<string>)

  const UnknownSource: string := "Unknown Source"
  const MsPerDay: int := 1000 * 60 * 60 * 24
  const DefaultSummaryDays: int := 7
  const DefaultQuestionLimit: int := 10
  const NoInteractionsMessage: string := "No interactions recorded in this period"

  // ---------------------------------------------------------------- building a record

  /** The source of each context document, in order, with 'Unknown Source' for a missing or empty one. */
  function ContextSources(context: seq<Doc>): (r: seq<string>)
    ensures |r| == |context|
    ensures forall i :: 0 <= i < |r| ==> r[i] == StringOr(context[i].source, UnknownSource)
  {
    if |context| == 0 then []
    else [StringOr(context[0].source, UnknownSource)] + ContextSources(context[1..])
  }

  /** The record `logInteraction` inserts. */
  function BuildRecord(now: int, sessionId: string, question: string, answer: string, context: seq<Doc>,
                       responseTime: int, humanAssistanceNeeded: bool, category: string, relevanceScore: real,
                       userAgent: Option<string>, ipAddress: Option<string>): (r: ChatAnalytics)
    ensures r.timestamp == now && r.sessionId == sessionId && r.question == question && r.answer == answer
    ensures r.responseTimeMs == responseTime && r.humanAssistanceNeeded == humanAssistanceNeeded
    ensures r.category == category && r.relevanceScore == relevanceScore
    ensures r.userAgent == userAgent && r.ipAddress == ipAddress
    ensures |r.contextSources| == |context|
    ensures forall i :: 0 <= i < |context| ==> r.contextSources[i] == StringOr(context[i].source, UnknownSource)
  {
    ChatAnalytics(now, sessionId, question, answer, ContextSources(context), responseTime,
                  humanAssistanceNeeded, category, relevanceScore, userAgent, ipAddress)
  }

  // ---------------------------------------------------------------- the summary

  /** The records logged at or after `start`, in collection order. */
  function Since(records: seq<ChatAnalytics>, start: int): (r: seq<ChatAnalytics>)
    ensures |r| <= |records|
    ensures forall x :: x in r <==> x in records && x.timestamp >= start
    ensures forall x :: multiset(r)[x] == if x.timestamp >= start then multiset(records)[x] else 0
  {
    if |records| == 0 then []
    else
      assert records == [records[0]] + records[1..];
      if records[0].timestamp >= start then [records[0]] + Since(records[1..], start)
    else Since(records[1..], start)
  }

  /** The sum of the records' response times. */
  function TotalResponseTime(records: seq<ChatAnalytics>): (t: int)
    ensures |records| == 0 ==> t == 0
    ensures (forall i :: 0 <= i < |records| ==> records[i].responseTimeMs >= 0) ==> t >= 0
  {
    if |records| == 0 then 0 else records[0].responseTimeMs + TotalResponseTime(records[1..])
  }

  /** The sum grows one record at a time from the first, as the `reduce` over the records does. */
  lemma {:induction false} TotalResponseTimeSnoc(records: seq<ChatAnalytics>, x: ChatAnalytics)
    ensures TotalResponseTime(records + [x]) == TotalResponseTime(records) + x.responseTimeMs
    decreases |records|
  {
    if |records| == 0 {
      assert [x][1..] == [];
    } else {
      assert (records + [x])[1..] == records[1..] + [x];
      TotalResponseTimeSnoc(records[1..], x);
    }
  }

  /** The number of records that needed human assistance. */
  function CountFlagged(records: seq<ChatAnalytics>): (n: nat)
    ensures n <= |records|
  {
    if |records| == 0 then 0
    else (if records[0].humanAssistanceNeeded then 1 else 0) + CountFlagged(records[1..])
  }

  /** The number of records of category `c`. */
  function CountCategory(records: seq<ChatAnalytics>, c: string): nat
  {
    if |records| == 0 then 0
    else CountCategory(records[..|records| - 1], c) + (if records[|records| - 1].category == c then 1 else 0)
  }

  /** `counts[c] = (counts[c] || 0) + 1`. */
  function Bump(counts: map<string, nat>, c: string): (r: map<string, nat>)
    ensures r.Keys == counts.Keys + {c}
    ensures c in counts ==> r[c] == counts[c] + 1
    ensures c !in counts ==> r[c] == 1
    ensures forall k :: k in counts && k != c ==> r[k] == counts[k]
  {
    counts[c := (if c in counts then counts[c] else 0) + 1]
  }

  /** The `reduce` that builds `categoryCounts`, one record at a time from the first. */
  function Tally(records: seq<ChatAnalytics>): (r: map<string, nat>)
    ensures forall c :: c in r ==> r[c] > 0
    ensures forall i :: 0 <= i < |records| ==> records[i].category in r
  {
    if |records| == 0 then map[]
    else
      var front := records[..|records| - 1];
      assert forall i :: 0 <= i < |front| ==> front[i] == records[i];
      Bump(Tally(front), records[|records| - 1].category)
  }

  /** The sum of a map's values over the given keys. */
  ghost function SumOver(m: map<string, nat>, keys: set<string>): nat
    requires keys <= m.Keys
    decreases keys
  {
    if keys == {} then 0
    else
      var k :| k in keys;
      m[k] + SumOver(m, keys - {k})
  }

  /** The sum of all of a map's values. */
  ghost function MapSum(m: map<string, nat>): nat
  {
    SumOver(m, m.Keys)
  }

  /** The sum does not depend on which key is taken out first. */
  lemma {:induction false} SumOverRemove(m: map<string, nat>, keys: set<string>, k: string)
    requires keys <= m.Keys && k in keys
    ensures SumOver(m, keys) == m[k] + SumOver(m, keys - {k})
    decreases keys
  {
    var j :| j in keys && SumOver(m, keys) == m[j] + SumOver(m, keys - {j});
    if j != k {
      SumOverRemove(m, keys - {j}, k);
      SumOverRemove(m, keys - {k}, j);
      assert keys - {j} - {k} == keys - {k} - {j};
    }
  }

  /** Two maps that agree on some keys have the same sum over them. */
  lemma {:induction false} SumOverAgree(m: map<string, nat>, n: map<string, nat>, keys: set<string>)
    requires keys <= m.Keys && keys <= n.Keys
    requires forall k :: k in keys ==> m[k] == n[k]
    ensures SumOver(m, keys) == SumOver(n, keys)
    decreases keys
  {
    if keys != {} {
      var k :| k in keys;
      SumOverRemove(m, keys, k);
      SumOverRemove(n, keys, k);
      SumOverAgree(m, n, keys - {k});
    }
  }

  /** Counting one more record adds one to the sum of the counts. */
  lemma MapSumBump(m: map<string, nat>, c: string)
    ensures MapSum(Bump(m, c)) == MapSum(m) + 1
  {
    var b := Bump(m, c);
    SumOverRemove(b, b.Keys, c);
    if c in m {
      SumOverRemove(m, m.Keys, c);
      assert b.Keys - {c} == m.Keys - {c};
    } else {
      assert b.Keys - {c} == m.Keys;
    }
    SumOverAgree(b, m, b.Keys - {c});
  }

  /** `categoryCounts[c]` is the number of records of category `c`, and only categories that occur are keys. */
  lemma {:induction false} TallyCounts(records: seq<ChatAnalytics>, c: string)
    ensures c in Tally(records) <==> CountCategory(records, c) > 0
    ensures c in Tally(records) ==> Tally(records)[c] == CountCategory(records, c)
    decreases |records|
  {
    if |records| > 0 {
      TallyCounts(records[..|records| - 1], c);
    }
  }

  /** The per-category counts add up to the number of records. */
  lemma {:induction false} TallySum(records: seq<ChatAnalytics>)
    ensures MapSum(Tally(records)) == |records|
    decreases |records|
  {
    if |records| > 0 {
      TallySum(records[..|records| - 1]);
      MapSumBump(Tally(records[..|records| - 1]), records[|records| - 1].category);
    }
  }

  datatype Summary =
    | NoInteractions(period: string, totalInteractions: nat, message: string)
    | Stats(period: string, totalInteractions: nat, avgResponseTimeMs: real,
            humanAssistancePercentage: real, categoryCounts: map<string, nat>)

  /** `Last ${days} days`: the label reads back as the number of days. */
  function Period(days: int): (r: string)
    ensures |r| > 10 && r[..5] == "Last " && r[|r| - 5..] == " days"
    ensures days >= 0 ==> ParseDigits(r[5..|r| - 5]) == days
    ensures days < 0 ==> r[5] == '-' && ParseDigits(r[6..|r| - 5]) == -days
  {
    var middle := IntToString(days);
    assert ("Last " + middle + " days")[5..|middle| + 5] == middle;
    assert days < 0 ==> ("Last " + middle + " days")[6..|middle| + 5] == middle[1..];
    "Last " + IntToString(days) + " days"
  }

  /** The start of the summary window: `days` days before `now`. */
  function StartDate(days: int, now: int): (r: int)
    ensures now - r == days * 86400000
    ensures days >= 0 ==> r <= now
  {
    now - days * MsPerDay
  }

  /** The arithmetic mean of `count` values adding up to `sum`. */
  function Mean(sum: int, count: nat): (m: real)
    requires count > 0
    ensures m * (count as real) == sum as real
  {
    sum as real / count as real
  }

  /** `part` out of `count` as a percentage. */
  function Percentage(part: nat, count: nat): (p: real)
    requires 0 < count && part <= count
    ensures 0.0 <= p <= 100.0
    ensures p * (count as real) == part as real * 100.0
  {
    var q := part as real / count as real;
    assert q * (count as real) == part as real;
    assert q <= 1.0 by {
      if q > 1.0 {
        assert q * (count as real) > 1.0 * (count as real);
      }
    }
    q * 100.0
  }

  /**
   * The summary of the records logged at or after the start date: their count
   * plus, when there is at least one, the statistics below; none gives the
   * empty-period summary.
   */
  function Summarize(records: seq<ChatAnalytics>, days: int, now: int): (r: Summary)
    ensures r.period == Period(days)
    ensures r.totalInteractions == |Since(records, StartDate(days, now))|
    ensures r.NoInteractions? <==> |Since(records, StartDate(days, now))| == 0
    ensures r.NoInteractions? ==> r.message == NoInteractionsMessage
  {
    var windowed := Since(records, StartDate(days, now));
    if |windowed| == 0 then NoInteractions(Period(days), 0, NoInteractionsMessage)
    else
      var total := |windowed|;
      Stats(Period(days), total,
            Mean(TotalResponseTime(windowed), total),
            Percentage(CountFlagged(windowed), total),
            Tally(windowed))
  }

  /**
   * The statistics of a non-empty period: the mean of the windowed response times,
   * and the share of windowed records that needed a human, as a percentage in [0, 100].
   */
  lemma SummaryStatistics(records: seq<ChatAnalytics>, days: int, now: int)
    requires Summarize(records, days, now).Stats?
    ensures var windowed := Since(records, StartDate(days, now));
            var r := Summarize(records, days, now);
            && r.avgResponseTimeMs == Mean(TotalResponseTime(windowed), |windowed|)
            && r.humanAssistancePercentage == Percentage(CountFlagged(windowed), |windowed|)
            && 0.0 <= r.humanAssistancePercentage <= 100.0
  {
    var windowed := Since(records, StartDate(days, now));
    var r := Summarize(records, days, now);
    var n, tot, fl := |windowed|, TotalResponseTime(windowed), CountFlagged(windowed);
    assert r.avgResponseTimeMs == Mean(tot, n);
    assert r.humanAssistancePercentage == Percentage(fl, n);
  }

  /** Each category's count is its number of windowed records, and the counts add up to the total. */
  lemma SummaryCategoryCounts(records: seq<ChatAnalytics>, days: int, now: int, c: string)
    requires Summarize(records, days, now).Stats?
    ensures var windowed := Since(records, StartDate(days, now));
            var counts := Summarize(records, days, now).categoryCounts;
            && MapSum(counts) == |windowed|
            && (c in counts <==> CountCategory(windowed, c) > 0)
            && (c in counts ==> counts[c] == CountCategory(windowed, c))
  {
    var windowed := Since(records, StartDate(days, now));
    TallySum(windowed);
    TallyCounts(windowed, c);
  }

  // ---------------------------------------------------------------- questions that needed a human

  /** `find({humanAssistanceNeeded: true})`, in collection order. */
  function Flagged(records: seq<ChatAnalytics>): (r: seq<ChatAnalytics>)
    ensures |r| <= |records|
    ensures forall x :: x in r <==> x in records && x.humanAssistanceNeeded
    ensures forall x :: multiset(r)[x] == if x.humanAssistanceNeeded then multiset(records)[x] else 0
  {
    if |records| == 0 then []
    else
      assert records == [records[0]] + records[1..];
      if records[0].humanAssistanceNeeded then [records[0]] + Flagged(records[1..])
    else Flagged(records[1..])
  }

  /** The flagged count of the summary is the number of records `find({humanAssistanceNeeded: true})` returns. */
  lemma {:induction false} CountFlaggedIsFlaggedLength(records: seq<ChatAnalytics>)
    ensures CountFlagged(records) == |Flagged(records)|
    decreases |records|
  {
    if |records| > 0 {
      CountFlaggedIsFlaggedLength(records[1..]);
    }
  }

  ghost predicate NewestFirst(s: seq<ChatAnalytics>)
  {
    forall i, j :: 0 <= i < j < |s| ==> s[i].timestamp >= s[j].timestamp
  }

  function Insert(x: ChatAnalytics, s: seq<ChatAnalytics>): (r: seq<ChatAnalytics>)
    requires NewestFirst(s)
    ensures NewestFirst(r)
    ensures multiset(r) == multiset(s) + multiset{x}
    ensures |r| == |s| + 1
  {
    if |s| == 0 || x.timestamp >= s[0].timestamp then
      assert forall y :: y in s ==> y.timestamp <= x.timestamp by {
        forall y | y in s ensures y.timestamp <= x.timestamp {
          var k :| 0 <= k < |s| && s[k] == y;
          assert k == 0 || s[0].timestamp >= s[k].timestamp;
        }
      }
      PrependNewest(x, s);
      [x] + s
    else
      var rest := Insert(x, s[1..]);
      InsertBehind(x, s, rest);
      [s[0]] + rest
  }

  /** The recursive case of `Insert`: the head stays in front of the insertion into the tail. */
  lemma InsertBehind(x: ChatAnalytics, s: seq<ChatAnalytics>, rest: seq<ChatAnalytics>)
    requires |s| > 0 && x.timestamp < s[0].timestamp && NewestFirst(s)
    requires NewestFirst(rest) && multiset(rest) == multiset(s[1..]) + multiset{x}
    ensures NewestFirst([s[0]] + rest)
    ensures multiset([s[0]] + rest) == multiset(s) + multiset{x}
  {
    assert s == [s[0]] + s[1..];
    forall y | y in rest
      ensures y.timestamp <= s[0].timestamp
    {
      assert y in multiset(rest);
      if y != x {
        assert y in multiset(s[1..]);
        var k :| 0 <= k < |s[1..]| && s[1..][k] == y;
        assert s[k + 1] == y;
      }
    }
    PrependNewest(s[0], rest);
  }

  /** A record no older than any of a newest-first sequence may go in front of it. */
  lemma PrependNewest(a: ChatAnalytics, rest: seq<ChatAnalytics>)
    requires NewestFirst(rest)
    requires forall y :: y in rest ==> y.timestamp <= a.timestamp
    ensures NewestFirst([a] + rest)
  {
    var r := [a] + rest;
    forall i, j | 0 <= i < j < |r|
      ensures r[i].timestamp >= r[j].timestamp
    {
      assert r[j] == rest[j - 1];
      if i > 0 {
        assert r[i] == rest[i - 1];
      }
    }
  }

  /** `sort({timestamp: -1})`: newest first, the same records. */
  function SortNewestFirst(s: seq<ChatAnalytics>): (r: seq<ChatAnalytics>)
    ensures NewestFirst(r)
    ensures multiset(r) == multiset(s)
  {
    if |s| == 0 then []
    else
      assert s == [s[0]] + s[1..];
      Insert(s[0], SortNewestFirst(s[1..]))
  }

  function Abs(n: int): nat
  {
    if n < 0 then -n else n
  }

  /** The cursor's `limit(n)`: 0 means no limit, a negative limit acts as its absolute value. */
  function Limit<T>(s: seq<T>, limit: int): (r: seq<T>)
    ensures |r| <= |s| && r == s[..|r|]
    ensures limit == 0 ==> r == s
    ensures limit != 0 ==> |r| == if Abs(limit) < |s| then Abs(limit) else |s|
  {
    if limit == 0 || Abs(limit) >= |s| then s else s[..Abs(limit)]
  }

  /** The records whose questions are returned. */
  function NewestFlagged(records: seq<ChatAnalytics>, limit: int): seq<ChatAnalytics>
  {
    Limit(SortNewestFirst(Flagged(records)), limit)
  }

  /** The returned records needed a human, come newest first, and number at most `limit` (all of them for 0). */
  lemma NewestFlaggedShape(records: seq<ChatAnalytics>, limit: int)
    ensures var r := NewestFlagged(records, limit);
            && (forall x :: x in r ==> x in records && x.humanAssistanceNeeded)
            && NewestFirst(r)
            && (limit != 0 ==> |r| <= Abs(limit))
            && (limit == 0 ==> |r| == |Flagged(records)|)
  {
    var sorted := SortNewestFirst(Flagged(records));
    var r := Limit(sorted, limit);
    assert |sorted| == |Flagged(records)| by {
      assert |multiset(sorted)| == |multiset(Flagged(records))|;
    }
    forall x | x in r ensures x in records && x.humanAssistanceNeeded {
      assert x in multiset(sorted);
    }
  }

  /** In a newest-first sequence, nothing after position `k` is newer than anything before it. */
  lemma PrefixIsNewest(sorted: seq<ChatAnalytics>, k: int)
    requires NewestFirst(sorted) && 0 <= k <= |sorted|
    ensures forall y, x :: y in multiset(sorted[k..]) && x in sorted[..k] ==> y.timestamp <= x.timestamp
  {
    forall y, x | y in multiset(sorted[k..]) && x in sorted[..k]
      ensures y.timestamp <= x.timestamp
    {
      var i :| 0 <= i < k && sorted[..k][i] == x;
      var j :| 0 <= j < |sorted[k..]| && sorted[k..][j] == y;
      assert sorted[i] == x && sorted[k + j] == y;
    }
  }

  /** The returned records are the newest flagged ones: no flagged record left out is newer than one returned. */
  lemma NewestFlaggedAreNewest(records: seq<ChatAnalytics>, limit: int)
    ensures var r := NewestFlagged(records, limit);
            && multiset(r) <= multiset(Flagged(records))
            && forall y, x :: y in multiset(Flagged(records)) - multiset(r) && x in r ==> y.timestamp <= x.timestamp
  {
    SortedLimitIsNewest(Flagged(records), limit);
  }

  /** Limiting the newest-first order of any records keeps the newest of them. */
  lemma SortedLimitIsNewest(s: seq<ChatAnalytics>, limit: int)
    ensures var r := Limit(SortNewestFirst(s), limit);
            && multiset(r) <= multiset(s)
            && forall y, x :: y in multiset(s) - multiset(r) && x in r ==> y.timestamp <= x.timestamp
  {
    var sorted := SortNewestFirst(s);
    var r := Limit(sorted, limit);
    assert sorted == r + sorted[|r|..];
    assert multiset(s) - multiset(r) == multiset(sorted[|r|..]) by {
      assert multiset(sorted) == multiset(r) + multiset(sorted[|r|..]);
    }
    PrefixIsNewest(sorted, |r|);
  }

  function Questions(records: seq<ChatAnalytics>): (r: seq<string>)
    ensures |r| == |records|
    ensures forall i :: 0 <= i < |r| ==> r[i] == records[i].question
  {
    if |records| == 0 then [] else [records[0].question] + Questions(records[1..])
  }

  // ---------------------------------------------------------------- the store

  class AnalyticsStore {
    /** The analytics collection; `None` while analytics is disabled. */
    var collection: Option<seq<ChatAnalytics>>

    constructor ()
      ensures collection == None
    {
      collection := None;
    }

    /**
     * `initAnalytics`: without connection settings nothing changes; a failing
     * connection leaves analytics disabled; a working one enables it over the
     * records the durable collection already holds.
     */
    method InitAnalytics(configured: bool, connects: bool, existing: seq<ChatAnalytics>) returns (ok: bool)
      modifies this
      ensures ok == (configured && connects)
      ensures !configured ==> collection == old(collection)
      ensures configured && !connects ==> collection == None
      ensures configured && connects ==> collection == Some(existing)
    {
      if !configured {
        return false;
      }
      if !connects {
        collection := None;
        return false;
      }
      collection := Some(existing);
      ok := true;
    }

    /** `closeAnalyticsConnection`: analytics is disabled afterwards. */
    method CloseAnalyticsConnection()
      modifies this
      ensures collection == None
    {
      collection := None;
    }

    /**
     * `logInteraction`: while enabled, appends exactly one record built from the
     * arguments, unless the insert fails, which is swallowed; while disabled it
     * writes nothing. It never reports a failure to its caller.
     */
    method LogInteraction(now: int, sessionId: string, question: string, answer: string, context: seq<Doc>,
                          responseTime: int, humanAssistanceNeeded: bool, category: string, relevanceScore: real,
                          userAgent: Option<string>, ipAddress: Option<string>, insertSucceeds: bool)
      modifies this
      ensures old(collection).None? ==> collection == None
      ensures old(collection).Some? && !insertSucceeds ==> collection == old(collection)
      ensures old(collection).Some? && insertSucceeds ==>
                var record := BuildRecord(now, sessionId, question, answer, context, responseTime,
                                          humanAssistanceNeeded, category, relevanceScore, userAgent, ipAddress);
                && collection == Some(old(collection).value + [record])
                && record.timestamp == now && record.sessionId == sessionId && record.question == question
                && record.answer == answer && record.responseTimeMs == responseTime
                && record.humanAssistanceNeeded == humanAssistanceNeeded && record.category == category
                && record.relevanceScore == relevanceScore && record.contextSources == ContextSources(context)
    {
      if collection.None? {
        return;
      }
      var record := BuildRecord(now, sessionId, question, answer, context, responseTime,
                                humanAssistanceNeeded, category, relevanceScore, userAgent, ipAddress);
      if insertSucceeds {
        collection := Some(collection.value + [record]);
      }
    }

    /** `getAnalyticsSummary`: unavailable (`None`) while disabled or when the query fails. */
    function GetAnalyticsSummary(days: Option<int>, now: int, queryFails: bool): (r: Option<Summary>)
      reads this
      ensures r.None? <==> collection.None? || queryFails
      ensures r.Some? && days.Some? ==> r.value == Summarize(collection.value, days.value, now)
      ensures r.Some? && days.None? ==> r.value == Summarize(collection.value, DefaultSummaryDays, now)
    {
      if collection.None? || queryFails then None
      else Some(Summarize(collection.value, days.GetOr(DefaultSummaryDays), now))
    }

    /** `getHumanAssistanceQuestions`: the newest flagged questions, or none while disabled or when the query fails. */
    function GetHumanAssistanceQuestions(limit: Option<int>, queryFails: bool): (r: seq<string>)
      reads this
      ensures collection.None? || queryFails ==> r == []
      ensures collection.Some? && !queryFails && limit.Some? ==> r == Questions(NewestFlagged(collection.value, limit.value))
      ensures collection.Some? && !queryFails && limit.None? ==>
                r == Questions(NewestFlagged(collection.value, DefaultQuestionLimit))
    {
      if collection.None? || queryFails then []
      else Questions(NewestFlagged(collection.value, limit.GetOr(DefaultQuestionLimit)))
    }
  }
}
