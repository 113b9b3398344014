/**
 * The feedback service: an append-only log of thumbs-up/thumbs-down records,
 * the statistics and recommendations computed over it, and the trigger that
 * hands the whole log to the optimizer's learning pass every `min_samples`
 * submissions.
 */
module Feedback {
  import opened Wrappers
  import opened PyLib
  import opened StableSorting
  import opened Schemas
  import opened RlConfig
  import opened RlOptimizer

  // ---- Identifiers and messages ----

  /** `f"fb_{len(feedback_data) + 1}_{int(datetime.now().timestamp())}"`, for a log of `n` entries. */
  function FeedbackId(n: nat, seconds: nat): string
  {
    "fb_" + (NatToString(n + 1) + "_" + NatToString(seconds))
  }

  /** The text before the first `_`. */
  function UpToSeparator(x: string): string
  {
    if |x| == 0 || x[0] == '_' then [] else [x[0]] + UpToSeparator(x[1..])
  }

  /** A digit string contains no `_`, so it is all that comes before the separator. */
  lemma {:induction false} UpToSeparatorOf(a: string, b: string)
    requires forall i :: 0 <= i < |a| ==> IsDigit(a[i])
    ensures UpToSeparator(a + "_" + b) == a
    decreases |a|
  {
    if |a| == 0 {
      assert (a + "_" + b)[0] == '_';
    } else {
      assert (a + "_" + b)[1..] == a[1..] + "_" + b;
      UpToSeparatorOf(a[1..], b);
    }
  }

  lemma SplitAtUnderscore(a: string, b: string, c: string, d: string)
    requires forall i :: 0 <= i < |a| ==> IsDigit(a[i])
    requires forall i :: 0 <= i < |c| ==> IsDigit(c[i])
    requires a + "_" + b == c + "_" + d
    ensures a == c && b == d
  {
    var x := a + "_" + b;
    UpToSeparatorOf(a, b);
    UpToSeparatorOf(c, d);
    assert b == x[|a| + 1..] && d == x[|c| + 1..];
  }

  /** Two ids are equal only for the same log length and the same second. */
  lemma FeedbackIdInjective(a: nat, s: nat, b: nat, t: nat)
    requires FeedbackId(a, s) == FeedbackId(b, t)
    ensures a == b && s == t
  {
    var l, r := NatToString(a + 1), NatToString(b + 1);
    var u, v := l + "_" + NatToString(s), r + "_" + NatToString(t);
    assert ("fb_" + u)[3..] == u && ("fb_" + v)[3..] == v;
    SplitAtUnderscore(l, NatToString(s), r, NatToString(t));
    NatToStringInjective(a + 1, b + 1);
    NatToStringInjective(s, t);
  }

  function UpperAscii(c: char): char
  {
    if 'a' <= c <= 'z' then (c as int - 32) as char else c
  }

  function LowerAscii(c: char): char
  {
    if 'A' <= c <= 'Z' then (c as int + 32) as char else c
  }

  /** `str.capitalize` on ASCII text: the first letter upper case, the rest lower case. */
  function Capitalize(s: string): (r: string)
    ensures |r| == |s|
    ensures |s| > 0 ==> r[0] == UpperAscii(s[0])
    ensures forall i :: 0 < i < |s| ==> r[i] == LowerAscii(s[i])
  {
    if |s| == 0 then "" else [UpperAscii(s[0])] + seq(|s| - 1, i requires 0 <= i < |s| - 1 => LowerAscii(s[i + 1]))
  }

  /** The confirmation `submit_feedback` returns. */
  datatype SubmitResult = SubmitResult(status: string, feedbackId: string, message: string)

  function Message(t: FeedbackType): string
  {
    Capitalize(Label(t)) + " feedback recorded"
  }

  /**
   * The record `submit_feedback` appends for a log of `n` entries, at instant
   * `now` (microseconds); the id uses the whole seconds of the same instant.
   */
  function NewEntry(n: nat, now: nat, req: FeedbackRequest): (e: FeedbackEntry)
    ensures e.feedbackId == FeedbackId(n, now / 1000000) && e.timestamp == now
    ensures IsPositive(e) <==> req.feedbackType == Positive
    ensures IsNegative(e) <==> req.feedbackType == Negative
    ensures UsedWebSearch(e) <==> req.webSearchTriggered
  {
    FeedbackEntry(FeedbackId(n, now / 1000000), req.responseId, now, req.query, req.answer, req.sources,
                  Label(req.feedbackType), Some(req.confidence), JudgeScoresDict(req.judgeScores),
                  req.retrievalMethod, req.webSearchTriggered, req.comment)
  }

  /**
   * A request that passed validation stores a confidence in [0, 1] and judge
   * scores in [0, 10] under exactly the three dimension names.
   */
  lemma ValidRequestEntry(n: nat, now: nat, req: FeedbackRequest)
    requires ValidFeedbackRequest(req)
    ensures var e := NewEntry(n, now, req);
      && e.confidence.Some? && 0.0 <= e.confidence.value <= 1.0
      && e.judgeScores.Keys == {"relevance", "factuality", "completeness"}
      && (forall k :: k in e.judgeScores ==> 0 <= e.judgeScores[k] <= 10)
  {
  }

  // ---- When learning runs ----

  predicate IsWhole(x: real) { x.Floor as real == x }

  /**
   * `len(feedback_data) >= min_samples and len(feedback_data) % min_samples == 0`.
   * A zero `min_samples` makes the modulo raise, so it is excluded.
   */
  predicate ShouldLearn(n: nat, minSamples: real)
    requires minSamples != 0.0
  {
    n as real >= minSamples && IsWhole(n as real / minSamples)
  }

  lemma QuotientParts(n: nat, m: nat)
    requires m > 0
    ensures n as real / m as real == (n / m) as real + (n % m) as real / m as real
    ensures 0.0 <= (n % m) as real / m as real < 1.0
  {
    var q, r := n / m, n % m;
    var mr := m as real;
    assert n == q * m + r;
    assert n as real == q as real * mr + r as real;
    calc {
      n as real / mr;
      (q as real * mr + r as real) / mr;
      q as real * mr / mr + r as real / mr;
      { assert q as real * mr / mr == q as real; }
      q as real + r as real / mr;
    }
    FractionBelowOne(r as real, mr);
  }

  lemma FractionBelowOne(a: real, b: real)
    requires 0.0 <= a < b
    ensures 0.0 <= a / b < 1.0
  {
    assert a / b * b == a;
  }

  /** For an integer `min_samples`, learning runs at every positive multiple of it. */
  lemma ShouldLearnMultiples(n: nat, m: nat)
    requires m > 0
    ensures ShouldLearn(n, m as real) <==> n >= m && n % m == 0
  {
    QuotientParts(n, m);
    var q, f := n / m, (n % m) as real / m as real;
    assert (q as real + f).Floor == q;
    if n % m != 0 {
      assert f > 0.0;
    }
  }

  /** With the default of 5, learning runs at the 5th, 10th, 15th ... submission. */
  lemma DefaultSchedule(n: nat)
    ensures ShouldLearn(n, 5.0) <==> n > 0 && n % 5 == 0
  {
    ShouldLearnMultiples(n, 5);
  }

  // ---- Statistics ----

  /** A partition's counts and its positive rate, 0.0 when it is empty. */
  datatype PartitionStats = PartitionStats(total: nat, positive: nat, positiveRate: real)

  /** `sum(1 for f in s if p(f) and f["feedback_type"] == "positive")`. */
  function CountPositive(s: seq<FeedbackEntry>, p: FeedbackEntry -> bool): (n: nat)
    ensures n <= Count(s, p)
  {
    if |s| == 0 then 0
    else CountPositive(s[..|s| - 1], p) + (if p(s[|s| - 1]) && IsPositive(s[|s| - 1]) then 1 else 0)
  }

  function Partition(s: seq<FeedbackEntry>, p: FeedbackEntry -> bool): (r: PartitionStats)
    ensures r.total == Count(s, p) && r.positive == CountPositive(s, p)
  {
    var total := Count(s, p);
    var positive := CountPositive(s, p);
    PartitionStats(total, positive, if total > 0 then Rate(positive, total) else 0.0)
  }

  /** A partition never has more positives than entries, and its rate is a proportion. */
  lemma PartitionRate(s: seq<FeedbackEntry>, p: FeedbackEntry -> bool)
    ensures Partition(s, p).positive <= Partition(s, p).total
    ensures Partition(s, p).total == 0 ==> Partition(s, p).positiveRate == 0.0
    ensures Partition(s, p).total > 0 ==>
      Partition(s, p).positiveRate == Partition(s, p).positive as real / Partition(s, p).total as real
    ensures 0.0 <= Partition(s, p).positiveRate <= 1.0
  {
  }

  /** Positives split between two complementary partitions. */
  lemma {:induction false} CountPositiveSplit(s: seq<FeedbackEntry>, p: FeedbackEntry -> bool, q: FeedbackEntry -> bool)
    requires forall f :: f in s ==> (p(f) <==> !q(f))
    ensures CountPositive(s, p) + CountPositive(s, q) == Count(s, IsPositive)
  {
    if |s| > 0 {
      assert forall f :: f in s[..|s| - 1] ==> f in s;
      CountPositiveSplit(s[..|s| - 1], p, q);
    }
  }

  datatype WebSearchFeedback = WebSearchFeedback(webSearch: PartitionStats, internalKb: PartitionStats)

  /** `_analyze_web_search_feedback`: entries that used web search against those that did not. */
  function WebSearchFeedbackOf(s: seq<FeedbackEntry>): WebSearchFeedback
  {
    WebSearchFeedback(Partition(s, UsedWebSearch), Partition(s, UsedInternalOnly))
  }

  /** The two partitions cover the log once, in entries and in positives. */
  lemma WebSearchSplit(s: seq<FeedbackEntry>)
    ensures WebSearchFeedbackOf(s).webSearch.total + WebSearchFeedbackOf(s).internalKb.total == |s|
    ensures WebSearchFeedbackOf(s).webSearch.positive + WebSearchFeedbackOf(s).internalKb.positive == Count(s, IsPositive)
  {
    CountPartition(s, UsedWebSearch, UsedInternalOnly);
    CountPositiveSplit(s, UsedWebSearch, UsedInternalOnly);
  }

  // ---- Confidence buckets ----

  datatype Bucket = Low | Medium | High

  /** `f.get("confidence", 0.5)`. */
  function ConfidenceOf(f: FeedbackEntry): real
  {
    f.confidence.GetOr(0.5)
  }

  /** `low (0-0.3)`, `medium (0.3-0.7)` or `high (0.7-1.0)`. */
  function BucketOf(f: FeedbackEntry): (b: Bucket)
    ensures f.confidence.None? ==> b == Medium
  {
    var c := ConfidenceOf(f);
    if c < 0.3 then Low else if c < 0.7 then Medium else High
  }

  predicate InLow(f: FeedbackEntry) { BucketOf(f) == Low }

  predicate InMedium(f: FeedbackEntry) { BucketOf(f) == Medium }

  predicate InHigh(f: FeedbackEntry) { BucketOf(f) == High }

  datatype ConfidenceReport =
    | ConfidenceInsufficient
    | ConfidenceBuckets(low: PartitionStats, medium: PartitionStats, high: PartitionStats)

  /** What `_analyze_confidence_correlation` computes. */
  function ConfidenceCorrelation(s: seq<FeedbackEntry>): ConfidenceReport
  {
    if |s| == 0 then ConfidenceInsufficient
    else ConfidenceBuckets(Partition(s, InLow), Partition(s, InMedium), Partition(s, InHigh))
  }

  /** Every entry lands in exactly one bucket, so the bucket totals add up to the log length. */
  lemma {:induction false} BucketTotals(s: seq<FeedbackEntry>)
    ensures Count(s, InLow) + Count(s, InMedium) + Count(s, InHigh) == |s|
  {
    if |s| > 0 {
      BucketTotals(s[..|s| - 1]);
    }
  }

  lemma BucketReport(s: seq<FeedbackEntry>)
    ensures ConfidenceCorrelation(s).ConfidenceInsufficient? <==> |s| == 0
    ensures ConfidenceCorrelation(s).ConfidenceBuckets? ==>
      var r := ConfidenceCorrelation(s);
      r.low.total + r.medium.total + r.high.total == |s|
  {
    BucketTotals(s);
  }

  /**
   * `_analyze_confidence_correlation`: one pass over the log incrementing the
   * bucket counters, then each bucket's rate.
   */
  method AnalyzeConfidenceCorrelation(s: seq<FeedbackEntry>) returns (r: ConfidenceReport)
    ensures r == ConfidenceCorrelation(s)
  {
    if |s| == 0 {
      return ConfidenceInsufficient;
    }
    var lowTotal, lowPositive, mediumTotal, mediumPositive, highTotal, highPositive := 0, 0, 0, 0, 0, 0;
    for i := 0 to |s|
      invariant lowTotal == Count(s[..i], InLow) && lowPositive == CountPositive(s[..i], InLow)
      invariant mediumTotal == Count(s[..i], InMedium) && mediumPositive == CountPositive(s[..i], InMedium)
      invariant highTotal == Count(s[..i], InHigh) && highPositive == CountPositive(s[..i], InHigh)
    {
      assert s[..i + 1][..i] == s[..i];
      var f := s[i];
      var conf := ConfidenceOf(f);
      if conf < 0.3 {
        lowTotal := lowTotal + 1;
        if f.feedbackType == "positive" {
          lowPositive := lowPositive + 1;
        }
      } else if conf < 0.7 {
        mediumTotal := mediumTotal + 1;
        if f.feedbackType == "positive" {
          mediumPositive := mediumPositive + 1;
        }
      } else {
        highTotal := highTotal + 1;
        if f.feedbackType == "positive" {
          highPositive := highPositive + 1;
        }
      }
    }
    assert s[..|s|] == s;
    var low := PartitionStats(lowTotal, lowPositive, if lowTotal > 0 then Rate(lowPositive, lowTotal) else 0.0);
    var medium := PartitionStats(mediumTotal, mediumPositive, if mediumTotal > 0 then Rate(mediumPositive, mediumTotal) else 0.0);
    var high := PartitionStats(highTotal, highPositive, if highTotal > 0 then Rate(highPositive, highTotal) else 0.0);
    r := ConfidenceBuckets(low, medium, high);
  }

  // ---- Overall statistics ----

  datatype Breakdown = Breakdown(webSearchFeedback: WebSearchFeedback, confidenceCorrelation: ConfidenceReport)

  /** `get_feedback_stats`; an empty log carries no breakdown. */
  datatype FeedbackStats = FeedbackStats(total: nat, positive: nat, negative: nat, positiveRate: real, breakdown: Option<Breakdown>)

  function Stats(s: seq<FeedbackEntry>): FeedbackStats
  {
    if |s| == 0 then FeedbackStats(0, 0, 0, 0.0, None)
    else
      var positive := Count(s, IsPositive);
      FeedbackStats(|s|, positive, Count(s, IsNegative), Rate(positive, |s|),
                    Some(Breakdown(WebSearchFeedbackOf(s), ConfidenceCorrelation(s))))
  }

  predicate Labelled(f: FeedbackEntry) { IsPositive(f) || IsNegative(f) }

  /**
   * An empty log gives all zeros; otherwise the rate is positives over total,
   * and when every record is labelled positive or negative the two counts
   * add up to the total.
   */
  lemma StatsSpec(s: seq<FeedbackEntry>)
    ensures |s| == 0 ==> Stats(s) == FeedbackStats(0, 0, 0, 0.0, None)
    ensures |s| > 0 ==> Stats(s).total == |s| && Stats(s).positiveRate == Stats(s).positive as real / |s| as real
    ensures 0.0 <= Stats(s).positiveRate <= 1.0
    ensures (forall f :: f in s ==> Labelled(f)) ==> Stats(s).positive + Stats(s).negative == Stats(s).total
  {
    if forall f :: f in s ==> Labelled(f) {
      CountPartition(s, IsPositive, IsNegative);
    }
  }

  // ---- Failed queries ----

  datatype FailedQuery = FailedQuery(
    query: string,
    answer: string,
    timestamp: nat,
    confidence: real,
    judgeScores: map<string, int>,
    comment: Option<string>)

  /** The projection `get_failed_queries` keeps; a missing confidence reads as 0. */
  function AsFailed(f: FeedbackEntry): FailedQuery
  {
    FailedQuery(f.query, f.answer, f.timestamp, f.confidence.GetOr(0.0), f.judgeScores, f.comment)
  }

  /** The comprehension over negative entries, in log order. */
  function NegativeQueries(s: seq<FeedbackEntry>): (r: seq<FailedQuery>)
    ensures |r| == Count(s, IsNegative)
    ensures forall q :: q in r ==> exists f :: f in s && IsNegative(f) && q == AsFailed(f)
    ensures forall f :: f in s && IsNegative(f) ==> AsFailed(f) in r
    ensures var negatives := Filter(s, IsNegative);
      |r| == |negatives| && forall i :: 0 <= i < |r| ==> r[i] == AsFailed(negatives[i])
  {
    if |s| == 0 then []
    else
      var init, last := s[..|s| - 1], s[|s| - 1];
      assert forall f :: f in init ==> f in s;
      assert forall f :: f in s ==> f in init || f == last by {
        assert s == init + [last];
      }
      var r := NegativeQueries(init) + (if IsNegative(last) then [AsFailed(last)] else []);
      assert Filter(s, IsNegative) == Filter(init, IsNegative) + (if IsNegative(last) then [last] else []);
      r
  }

  function TimestampKey(q: FailedQuery): real { q.timestamp as real }

  /** `get_failed_queries(limit)`: newest first (a stable sort), then `[:limit]`. */
  function FailedQueries(s: seq<FeedbackEntry>, limit: int): seq<FailedQuery>
  {
    Take(SortDesc(NegativeQueries(s), TimestampKey), limit)
  }

  lemma FailedQueriesSpec(s: seq<FeedbackEntry>, limit: int)
    ensures forall q :: q in FailedQueries(s, limit) ==> exists f :: f in s && IsNegative(f) && q == AsFailed(f)
    ensures SortedDesc(FailedQueries(s, limit), TimestampKey)
    ensures 0 <= limit ==> |FailedQueries(s, limit)| == (if limit < Count(s, IsNegative) then limit else Count(s, IsNegative))
    ensures multiset(FailedQueries(s, limit)) <= multiset(NegativeQueries(s))
    ensures forall q, q' :: q in FailedQueries(s, limit) && q' in NegativeQueries(s) && q' !in FailedQueries(s, limit) ==>
      q.timestamp >= q'.timestamp
  {
    var all := NegativeQueries(s);
    var sorted := SortDesc(all, TimestampKey);
    SortDescSpec(all, TimestampKey);
    SortDescMembers(all, TimestampKey);
    var r := FailedQueries(s, limit);
    assert r == sorted[..|r|];
    forall q | q in r
      ensures exists f :: f in s && IsNegative(f) && q == AsFailed(f)
    {
      assert q in sorted;
    }
    PrefixOfSorted(sorted, |r|);
  }

  /** A prefix of a list sorted newest first is sorted, is part of it, and holds nothing older than what it leaves out. */
  lemma PrefixOfSorted(sorted: seq<FailedQuery>, n: nat)
    requires n <= |sorted| && SortedDesc(sorted, TimestampKey)
    ensures SortedDesc(sorted[..n], TimestampKey)
    ensures multiset(sorted[..n]) <= multiset(sorted)
    ensures forall q, q' :: q in sorted[..n] && q' in sorted && q' !in sorted[..n] ==> q.timestamp >= q'.timestamp
  {
    var r := sorted[..n];
    assert sorted == r + sorted[n..];
    forall i, j | 0 <= i < j < |r|
      ensures TimestampKey(r[i]) >= TimestampKey(r[j])
    {
      assert r[i] == sorted[i] && r[j] == sorted[j];
    }
    forall q, q' | q in r && q' in sorted && q' !in r
      ensures q.timestamp >= q'.timestamp
    {
      var i :| 0 <= i < |r| && r[i] == q;
      var j :| 0 <= j < |sorted| && sorted[j] == q';
      assert sorted[i] == q;
      assert TimestampKey(q) >= TimestampKey(q');
    }
  }

  // ---- Recommendations ----

  datatype ThresholdAction = Decrease | Increase

  datatype Recommendation =
    | WebSearchThreshold(action: ThresholdAction, webRate: real, internalRate: real, suggestedThreshold: real)
    | ConfidenceRecalibration(highRate: real)

  datatype RecommendationReport =
    | RecommendationsInsufficient(currentCount: nat)
    | RecommendationsReady(total: nat, recommendations: seq<Recommendation>)

  function AsList<T>(o: Option<T>): seq<T>
  {
    match o
    case None => []
    case Some(x) => [x]
  }

  /** A threshold move is suggested only when both partitions have more than 5 entries and their rates differ by more than 0.2. */
  function ThresholdRecommendation(w: WebSearchFeedback): (r: Option<Recommendation>)
    ensures r.Some? <==>
      w.webSearch.total > 5 && w.internalKb.total > 5 &&
      (w.webSearch.positiveRate > w.internalKb.positiveRate + 0.2 || w.internalKb.positiveRate > w.webSearch.positiveRate + 0.2)
    ensures r.Some? ==> r.value.WebSearchThreshold?
    ensures r.Some? && r.value.action == Decrease ==>
      r.value.suggestedThreshold == 0.6 && w.webSearch.positiveRate > w.internalKb.positiveRate + 0.2
    ensures r.Some? && r.value.action == Increase ==>
      r.value.suggestedThreshold == 0.9 && w.internalKb.positiveRate > w.webSearch.positiveRate + 0.2
  {
    var web, internal := w.webSearch, w.internalKb;
    if web.total > 5 && internal.total > 5 then
      if web.positiveRate > internal.positiveRate + 0.2 then
        Some(WebSearchThreshold(Decrease, web.positiveRate, internal.positiveRate, 0.6))
      else if internal.positiveRate > web.positiveRate + 0.2 then
        Some(WebSearchThreshold(Increase, web.positiveRate, internal.positiveRate, 0.9))
      else None
    else None
  }

  /** `conf_corr.get("high (0.7-1.0)", {}).get("total", 0) > 3` and a high-bucket rate below 0.6. */
  function CalibrationRecommendation(c: ConfidenceReport): (r: Option<Recommendation>)
    ensures r.Some? <==> c.ConfidenceBuckets? && c.high.total > 3 && c.high.positiveRate < 0.6
    ensures r.Some? ==> r == Some(ConfidenceRecalibration(c.high.positiveRate))
  {
    match c
    case ConfidenceInsufficient => None
    case ConfidenceBuckets(_, _, high) =>
      if high.total > 3 && high.positiveRate < 0.6 then Some(ConfidenceRecalibration(high.positiveRate)) else None
  }

  /** `get_adjustment_recommendations`. */
  function Recommend(s: seq<FeedbackEntry>): RecommendationReport
  {
    if |s| < 10 then RecommendationsInsufficient(|s|)
    else
      var stats := Stats(s);
      var breakdown := stats.breakdown.value;
      RecommendationsReady(|s|, AsList(ThresholdRecommendation(breakdown.webSearchFeedback)) +
                                AsList(CalibrationRecommendation(breakdown.confidenceCorrelation)))
  }

  predicate IsThresholdMove(x: Recommendation) { x.WebSearchThreshold? }

  predicate IsRecalibration(x: Recommendation) { x.ConfidenceRecalibration? }

  /** Fewer than 10 entries gives no recommendations, only the current count. */
  lemma RecommendInsufficient(s: seq<FeedbackEntry>)
    ensures Recommend(s).RecommendationsInsufficient? <==> |s| < 10
    ensures Recommend(s).RecommendationsInsufficient? ==> Recommend(s).currentCount == |s|
    ensures Recommend(s).RecommendationsReady? ==> Recommend(s).total == |s|
  {
  }

  lemma RecommendList(s: seq<FeedbackEntry>)
    requires |s| >= 10
    ensures Recommend(s).recommendations ==
      AsList(ThresholdRecommendation(WebSearchFeedbackOf(s))) + AsList(CalibrationRecommendation(ConfidenceCorrelation(s)))
  {
    assert Stats(s).breakdown.value == Breakdown(WebSearchFeedbackOf(s), ConfidenceCorrelation(s));
  }

  lemma ListedKinds(t: Option<Recommendation>, c: Option<Recommendation>)
    requires t.Some? ==> IsThresholdMove(t.value)
    requires c.Some? ==> IsRecalibration(c.value)
    ensures |AsList(t) + AsList(c)| <= 2
    ensures (exists x :: x in AsList(t) + AsList(c) && IsThresholdMove(x)) <==> t.Some?
    ensures (exists x :: x in AsList(t) + AsList(c) && IsRecalibration(x)) <==> c.Some?
  {
    var rs := AsList(t) + AsList(c);
    if t.Some? {
      assert rs[0] == t.value;
    }
    if c.Some? {
      assert rs[|rs| - 1] == c.value;
    }
  }

  /**
   * With at least 10 entries, a threshold move is listed exactly when both
   * partitions have more than 5 entries and their rates are more than 0.2
   * apart, and a recalibration exactly when more than 3 entries are
   * high-confidence and fewer than 60% of those are positive.
   */
  lemma RecommendSpec(s: seq<FeedbackEntry>)
    requires |s| >= 10
    ensures var rs := Recommend(s).recommendations;
      var web, internal := Partition(s, UsedWebSearch), Partition(s, UsedInternalOnly);
      && |rs| <= 2
      && ((exists x :: x in rs && IsThresholdMove(x)) <==>
          web.total > 5 && internal.total > 5 &&
          (web.positiveRate > internal.positiveRate + 0.2 || internal.positiveRate > web.positiveRate + 0.2))
      && ((exists x :: x in rs && IsRecalibration(x)) <==>
          Count(s, InHigh) > 3 && Partition(s, InHigh).positiveRate < 0.6)
  {
    RecommendList(s);
    ListedKinds(ThresholdRecommendation(WebSearchFeedbackOf(s)), CalibrationRecommendation(ConfidenceCorrelation(s)));
  }

  // ---- The service ----

  /**
   * `FeedbackService`: the feedback log (read from storage once, here the
   * `stored` parameter) and the service's own optimizer.
   */
  class FeedbackService {
    var log: seq<FeedbackEntry>
    const optimizer: RLOptimizer

    constructor (stored: seq<FeedbackEntry>, storedConfig: StoredConfig, now: nat)
      ensures log == stored
      ensures fresh(optimizer) && fresh(optimizer.config)
      ensures optimizer.config.config == InitialConfig(storedConfig, now)
    {
      log := stored;
      optimizer := new RLOptimizer(storedConfig, now);
    }

    /**
     * `submit_feedback`: append one record, then run the learning pass over
     * the whole log when its new length is a multiple of `min_samples`.
     */
    method SubmitFeedback(req: FeedbackRequest, now: nat) returns (r: SubmitResult)
      requires WellFormed(optimizer.config.config) && InBounds(optimizer.config.config)
      requires MinSamples(optimizer.config.config) != 0.0
      modifies this, optimizer.config
      ensures log == old(log) + [NewEntry(|old(log)|, now, req)]
      ensures r == SubmitResult("success", FeedbackId(|old(log)|, now / 1000000), Message(req.feedbackType))
      ensures LearnDefined(old(optimizer.config.config), log)
      ensures optimizer.config.config ==
        if ShouldLearn(|log|, MinSamples(old(optimizer.config.config)))
        then Learn(old(optimizer.config.config), log, now).1
        else old(optimizer.config.config)
      ensures WellFormed(optimizer.config.config) && InBounds(optimizer.config.config)
    {
      ghost var c0 := optimizer.config.config;
      var entry := NewEntry(|log|, now, req);
      log := log + [entry];
      InBoundsBlendDefined(c0, log);
      var minSamples := optimizer.ReadTop(MinSamplesKey, Int(5));
      var m := AsReal(minSamples);
      assert m == MinSamples(c0);
      var n := |log| as real;
      if n >= m && (n / m).Floor as real == n / m {
        assert ShouldLearn(|log|, m);
        LearnKeepsBounds(c0, log, now);
        var _ := optimizer.UpdateFromFeedback(log, now);
        assert optimizer.config.config == Learn(c0, log, now).1;
      } else {
        assert !ShouldLearn(|log|, m);
      }
      r := SubmitResult("success", entry.feedbackId, Capitalize(Label(req.feedbackType)) + " feedback recorded");
    }

    method GetFeedbackStats() returns (r: FeedbackStats)
      ensures r == Stats(log)
    {
      if |log| == 0 {
        return FeedbackStats(0, 0, 0, 0.0, None);
      }
      var positive := Count(log, IsPositive);
      var negative := Count(log, IsNegative);
      var confidence := AnalyzeConfidenceCorrelation(log);
      r := FeedbackStats(|log|, positive, negative, positive as real / |log| as real,
                         Some(Breakdown(WebSearchFeedbackOf(log), confidence)));
    }

    method GetFailedQueries(limit: int) returns (r: seq<FailedQuery>)
      ensures r == FailedQueries(log, limit)
    {
      var negatives := NegativeQueries(log);
      var sorted := SortDesc(negatives, TimestampKey);
      r := Take(sorted, limit);
    }

    method GetAdjustmentRecommendations() returns (r: RecommendationReport)
      ensures r == Recommend(log)
    {
      if |log| < 10 {
        return RecommendationsInsufficient(|log|);
      }
      var stats := GetFeedbackStats();
      var breakdown := stats.breakdown.value;
      var threshold := ThresholdRecommendation(breakdown.webSearchFeedback);
      var calibration := CalibrationRecommendation(breakdown.confidenceCorrelation);
      r := RecommendationsReady(|log|, AsList(threshold) + AsList(calibration));
    }
  }
}
