/**
 * The feedback-driven learner: the web-search gate, the two clamped
 * aggregators, the three analyses of a learning pass (each of which may
 * update the configuration), the capped performance history and the trend
 * classifier. Floats are exact reals; `numpy.mean` is the exact mean.
 */
module RlOptimizer {
  import opened Wrappers
  import opened PyLib
  import opened Schemas
  import opened RlConfig

  // ---- The keys the optimizer reads ----

  const ThresholdKey: string := "web_search" + "." + "confidence_threshold"
  const JudgeThresholdKey: string := "web_search" + "." + "judge_threshold"
  const LearningRateKey: string := "learning_rate"
  const MinSamplesKey: string := "min_samples"
  const ConfidenceWeightsKey: string := "confidence_weights"
  const JudgeWeightsKey: string := "judge_weights"
  const HistoryKey: string := "performance_history"

  /** A one-step `get` on a top-level key. */
  function Get1(c: Config, a: string, default: Value): Value
  {
    if a in c then c[a] else default
  }

  /** A two-step `get`: a nested key of a top-level dict. */
  function Get2(c: Config, a: string, b: string, default: Value): Value
  {
    var x := if a in c then c[a] else default;
    if x.Dict? then (if b in x.entries then x.entries[b] else default) else default
  }

  lemma LookupOne(c: Config, a: string, default: Value)
    ensures Lookup(Dict(c), [a], default) == Get1(c, a, default)
  {
    assert [a][1..] == [];
  }

  lemma LookupTwo(c: Config, a: string, b: string, default: Value)
    ensures Lookup(Dict(c), [a, b], default) == Get2(c, a, b, default)
  {
    var x := if a in c then c[a] else default;
    assert [a, b][1..] == [b];
    assert Lookup(Dict(c), [a, b], default) == Lookup(x, [b], default);
    if x.Dict? {
      assert [b][1..] == [];
      assert Lookup(x, [b], default) == Lookup(if b in x.entries then x.entries[b] else default, [], default);
    }
  }

  lemma TwoStepKey(key: string, a: string, b: string)
    requires '.' !in a && '.' !in b && key == a + "." + b
    ensures forall c, d :: GetValue(c, key, d) == Get2(c, a, b, d)
  {
    PathOfTwo(a, b);
    forall c, d ensures GetValue(c, key, d) == Get2(c, a, b, d) {
      LookupTwo(c, a, b, d);
    }
  }

  lemma OneStepKey(key: string)
    requires '.' !in key
    ensures forall c, d :: GetValue(c, key, d) == Get1(c, key, d)
  {
    PathOfOne(key);
    forall c, d ensures GetValue(c, key, d) == Get1(c, key, d) {
      LookupOne(c, key, d);
    }
  }

  lemma ThresholdPath()
    ensures forall c, d :: GetValue(c, ThresholdKey, d) == Get2(c, "web_search", "confidence_threshold", d)
  {
    TwoStepKey(ThresholdKey, "web_search", "confidence_threshold");
  }

  lemma JudgeThresholdPath()
    ensures forall c, d :: GetValue(c, JudgeThresholdKey, d) == Get2(c, "web_search", "judge_threshold", d)
  {
    TwoStepKey(JudgeThresholdKey, "web_search", "judge_threshold");
  }

  lemma ThresholdRead(c: Config, d: Value)
    ensures GetValue(c, ThresholdKey, d) == Get2(c, "web_search", "confidence_threshold", d)
  {
    ThresholdPath();
  }

  lemma JudgeThresholdRead(c: Config, d: Value)
    ensures GetValue(c, JudgeThresholdKey, d) == Get2(c, "web_search", "judge_threshold", d)
  {
    JudgeThresholdPath();
  }

  /** A read of a key without dots is a one-step read. */
  lemma TopLevelRead(c: Config, key: string, d: Value)
    requires key in [LearningRateKey, MinSamplesKey, ConfidenceWeightsKey, JudgeWeightsKey, HistoryKey]
    ensures GetValue(c, key, d) == Get1(c, key, d)
  {
    TopLevelPaths();
  }

  lemma TopLevelPaths()
    ensures forall c, d :: GetValue(c, LearningRateKey, d) == Get1(c, LearningRateKey, d)
    ensures forall c, d :: GetValue(c, MinSamplesKey, d) == Get1(c, MinSamplesKey, d)
    ensures forall c, d :: GetValue(c, ConfidenceWeightsKey, d) == Get1(c, ConfidenceWeightsKey, d)
    ensures forall c, d :: GetValue(c, JudgeWeightsKey, d) == Get1(c, JudgeWeightsKey, d)
    ensures forall c, d :: GetValue(c, HistoryKey, d) == Get1(c, HistoryKey, d)
  {
    OneStepKey(LearningRateKey);
    OneStepKey(MinSamplesKey);
    OneStepKey(ConfidenceWeightsKey);
    OneStepKey(JudgeWeightsKey);
    OneStepKey(HistoryKey);
  }

  /** `a` is absent from both configurations or holds the same value in both. */
  ghost predicate AgreeOn(c: Config, c': Config, a: string)
  {
    (a in c <==> a in c') && (a in c ==> c[a] == c'[a])
  }

  /** Only `key` and the two keys a save stamps can differ. */
  ghost predicate AgreeExcept(c: Config, c': Config, key: string)
  {
    forall a :: a != key && a != "version" && a != "last_updated" ==> AgreeOn(c, c', a)
  }

  lemma AgreeReads(c: Config, c': Config, a: string)
    requires AgreeOn(c, c', a)
    ensures forall d :: Get1(c, a, d) == Get1(c', a, d)
    ensures forall b, d :: Get2(c, a, b, d) == Get2(c', a, b, d)
  {
  }

  /** Saving a one-key update changes that key, stamps the time and the version, and nothing else. */
  lemma SaveOne(c: Config, key: string, v: Value, now: nat)
    requires NumericVersion(c) && key != "version" && key != "last_updated"
    ensures NumericVersion(Save(c + map[key := v], now))
    ensures Save(c + map[key := v], now)[key] == v
    ensures AgreeExcept(c, Save(c + map[key := v], now), key)
    ensures VersionOf(Save(c + map[key := v], now)) == VersionOf(c) + 1.0
  {
    SaveMerge(c, map[key := v], now);
  }

  // ---- What the optimizer needs of the configuration ----

  const ConfidenceWeightNames: seq<string> := ["retrieval_eval", "answer_quality"]

  /** The judge dimensions, in the order the source visits them. */
  const Metrics: seq<string> := ["relevance", "factuality", "completeness"]

  predicate ThresholdsReadable(c: Config)
  {
    IsNumber(Get2(c, "web_search", "confidence_threshold", Float(0.7))) && IsNumber(Get2(c, "web_search", "judge_threshold", Int(5)))
  }

  predicate LearningRateReadable(c: Config)
  {
    IsNumber(Get1(c, LearningRateKey, Float(0.1)))
  }

  predicate MinSamplesReadable(c: Config)
  {
    IsNumber(Get1(c, MinSamplesKey, Int(5)))
  }

  /** `config.get(key, {})` is a dict whose entries for `names`, where present, are numbers. */
  predicate WeightsReadable(c: Config, key: string, names: seq<string>)
  {
    NumbersAt(Get1(c, key, Dict(map[])), names)
  }

  /** A dict whose entries for `names`, where present, are numbers. */
  predicate NumbersAt(g: Value, names: seq<string>)
  {
    g.Dict? && forall n :: n in names && n in g.entries ==> IsNumber(g.entries[n])
  }

  /** `g.get(name, default)` on such a dict. */
  function WeightIn(g: Value, names: seq<string>, name: string, default: real): real
    requires NumbersAt(g, names) && name in names
  {
    AsReal(DictGet(g, name, Float(default)))
  }

  predicate HistoryReadable(c: Config)
  {
    Get1(c, HistoryKey, List([])).List?
  }

  /** `self.config.config['web_search']` exists and can be spread into a new dict. */
  predicate WebSearchIsDict(c: Config)
  {
    "web_search" in c && c["web_search"].Dict?
  }

  /** Everything a learning pass reads has the type the arithmetic on it needs. */
  predicate WellFormed(c: Config)
  {
    && NumericVersion(c)
    && WebSearchIsDict(c)
    && ThresholdsReadable(c)
    && LearningRateReadable(c)
    && MinSamplesReadable(c)
    && WeightsReadable(c, ConfidenceWeightsKey, ConfidenceWeightNames)
    && WeightsReadable(c, JudgeWeightsKey, Metrics)
    && HistoryReadable(c)
  }

  function ConfidenceThreshold(c: Config): real
    requires ThresholdsReadable(c)
  {
    AsReal(Get2(c, "web_search", "confidence_threshold", Float(0.7)))
  }

  function JudgeThreshold(c: Config): real
    requires ThresholdsReadable(c)
  {
    AsReal(Get2(c, "web_search", "judge_threshold", Int(5)))
  }

  function LearningRate(c: Config): real
    requires LearningRateReadable(c)
  {
    AsReal(Get1(c, LearningRateKey, Float(0.1)))
  }

  function MinSamples(c: Config): real
    requires MinSamplesReadable(c)
  {
    AsReal(Get1(c, MinSamplesKey, Int(5)))
  }

  /** `config.get('confidence_weights', {}).get(name, default)`. */
  function ConfidenceWeight(c: Config, name: string, default: real): real
    requires WeightsReadable(c, ConfidenceWeightsKey, ConfidenceWeightNames) && name in ConfidenceWeightNames
  {
    AsReal(DictGet(Get1(c, ConfidenceWeightsKey, Dict(map[])), name, Float(default)))
  }

  /** `config.get('judge_weights', {}).get(name, default)`. */
  function JudgeWeight(c: Config, name: string, default: real): real
    requires WeightsReadable(c, JudgeWeightsKey, Metrics) && name in Metrics
  {
    WeightIn(JudgeWeights(c), Metrics, name, default)
  }

  /** `config.get('judge_weights', {})`. */
  function JudgeWeights(c: Config): Value
  {
    Get1(c, JudgeWeightsKey, Dict(map[]))
  }

  // ---- The ranges the learned parameters are meant to stay in ----

  /** The effective confidence weights sum to 1 and each lies in [0.3, 0.7]. */
  predicate ConfidenceWeightsBounded(c: Config)
    requires WeightsReadable(c, ConfidenceWeightsKey, ConfidenceWeightNames)
  {
    var r := ConfidenceWeight(c, "retrieval_eval", 0.5);
    var a := ConfidenceWeight(c, "answer_quality", 0.5);
    r + a == 1.0 && 0.3 <= r <= 0.7 && 0.3 <= a <= 0.7
  }

  /** All three judge weights are stored, non-negative, and sum to 1. */
  predicate JudgeWeightsBounded(c: Config)
    requires WeightsReadable(c, JudgeWeightsKey, Metrics)
  {
    var g := Get1(c, JudgeWeightsKey, Dict(map[])).entries;
    && "relevance" in g && "factuality" in g && "completeness" in g
    && JudgeWeight(c, "relevance", 0.0) >= 0.0
    && JudgeWeight(c, "factuality", 0.0) >= 0.0
    && JudgeWeight(c, "completeness", 0.0) >= 0.0
    && JudgeWeight(c, "relevance", 0.0) + JudgeWeight(c, "factuality", 0.0) + JudgeWeight(c, "completeness", 0.0) == 1.0
  }

  predicate InBounds(c: Config)
    requires WellFormed(c)
  {
    && 0.5 <= ConfidenceThreshold(c) <= 0.9
    && ConfidenceWeightsBounded(c)
    && JudgeWeightsBounded(c)
    && 0.0 <= LearningRate(c) <= 1.0
  }

  // ---- What a one-key save keeps ----

  /** Reads through keys other than `key` see the same values after a change confined to `key`. */
  lemma Untouched(c: Config, c': Config, key: string)
    requires AgreeExcept(c, c', key)
    ensures key != "web_search" ==> forall d ::
      Get2(c', "web_search", "confidence_threshold", d) == Get2(c, "web_search", "confidence_threshold", d) &&
      Get2(c', "web_search", "judge_threshold", d) == Get2(c, "web_search", "judge_threshold", d)
    ensures key != "web_search" ==> AgreeOn(c, c', "web_search")
    ensures key != LearningRateKey ==> forall d :: Get1(c', LearningRateKey, d) == Get1(c, LearningRateKey, d)
    ensures key != MinSamplesKey ==> forall d :: Get1(c', MinSamplesKey, d) == Get1(c, MinSamplesKey, d)
    ensures key != ConfidenceWeightsKey ==>
      forall d :: Get1(c', ConfidenceWeightsKey, d) == Get1(c, ConfidenceWeightsKey, d)
    ensures key != JudgeWeightsKey ==> forall d :: Get1(c', JudgeWeightsKey, d) == Get1(c, JudgeWeightsKey, d)
    ensures key != HistoryKey ==> forall d :: Get1(c', HistoryKey, d) == Get1(c, HistoryKey, d)
  {
    if key != "web_search" { AgreeReads(c, c', "web_search"); }
    if key != LearningRateKey { AgreeReads(c, c', LearningRateKey); }
    if key != MinSamplesKey { AgreeReads(c, c', MinSamplesKey); }
    if key != ConfidenceWeightsKey { AgreeReads(c, c', ConfidenceWeightsKey); }
    if key != JudgeWeightsKey { AgreeReads(c, c', JudgeWeightsKey); }
    if key != HistoryKey { AgreeReads(c, c', HistoryKey); }
  }

  /** The configuration the web analysis saves, with only the threshold inside `web_search` replaced. */
  function WithThreshold(c: Config, t: real, now: nat): Config
    requires WellFormed(c)
  {
    Save(c + map["web_search" := Dict(c["web_search"].entries["confidence_threshold" := Float(t)])], now)
  }

  lemma ThresholdSaved(c: Config, t: real, now: nat)
    requires WellFormed(c)
    ensures WellFormed(WithThreshold(c, t, now))
    ensures ConfidenceThreshold(WithThreshold(c, t, now)) == t
    ensures JudgeThreshold(WithThreshold(c, t, now)) == JudgeThreshold(c)
    ensures AgreeExcept(c, WithThreshold(c, t, now), "web_search")
    ensures VersionOf(WithThreshold(c, t, now)) == VersionOf(c) + 1.0
  {
    var ws := c["web_search"].entries;
    var c' := WithThreshold(c, t, now);
    SaveOne(c, "web_search", Dict(ws["confidence_threshold" := Float(t)]), now);
    Untouched(c, c', "web_search");
    assert Get2(c', "web_search", "confidence_threshold", Float(0.7)) == Float(t);
    assert Get2(c', "web_search", "judge_threshold", Int(5)) == Get2(c, "web_search", "judge_threshold", Int(5));
  }

  /** What a value stored under a top-level key must look like for the configuration to stay well formed. */
  predicate Fits(key: string, v: Value)
  {
    && (key == ConfidenceWeightsKey ==>
          v.Dict? && forall n :: n in ConfidenceWeightNames && n in v.entries ==> IsNumber(v.entries[n]))
    && (key == JudgeWeightsKey ==> v.Dict? && forall n :: n in Metrics && n in v.entries ==> IsNumber(v.entries[n]))
    && (key == HistoryKey ==> v.List?)
  }

  lemma TopLevelSaved(c: Config, key: string, v: Value, now: nat)
    requires WellFormed(c) && key in [ConfidenceWeightsKey, JudgeWeightsKey, HistoryKey] && Fits(key, v)
    ensures WellFormed(Save(c + map[key := v], now))
    ensures forall d :: Get1(Save(c + map[key := v], now), key, d) == v
    ensures AgreeExcept(c, Save(c + map[key := v], now), key)
    ensures VersionOf(Save(c + map[key := v], now)) == VersionOf(c) + 1.0
  {
    var c' := Save(c + map[key := v], now);
    SaveOne(c, key, v, now);
    Untouched(c, c', key);
  }

  // ---- The gate and the aggregators ----

  /** `should_trigger_web_search`: either score below its threshold. */
  function ShouldTriggerWebSearch(c: Config, confidence: real, judgeScore: real): bool
    requires ThresholdsReadable(c)
  {
    confidence < ConfidenceThreshold(c) || judgeScore < JudgeThreshold(c)
  }

  /** `calculate_weighted_confidence`: the weighted mean of two 0-10 scores, rescaled, clamped to [0, 1]. */
  function WeightedConfidence(c: Config, retrievalScore: real, answerScore: real): (r: real)
    requires WeightsReadable(c, ConfidenceWeightsKey, ConfidenceWeightNames)
    ensures 0.0 <= r <= 1.0
  {
    ConfidenceBlend(ConfidenceWeight(c, "retrieval_eval", 0.5), ConfidenceWeight(c, "answer_quality", 0.5),
                    retrievalScore, answerScore)
  }

  /** Both judge scores scaled from [0, 10] to [0, 1], weighted, and clamped to [0, 1]. */
  function ConfidenceBlend(retrievalWeight: real, answerWeight: real, retrievalScore: real, answerScore: real): (r: real)
    ensures 0.0 <= r <= 1.0
  {
    Clamp(retrievalWeight * (retrievalScore / 10.0) + answerWeight * (answerScore / 10.0), 0.0, 1.0)
  }

  /** `judge_scores.get(metric, 5)`. */
  function ScoreOr(scores: map<string, real>, metric: string): real
  {
    if metric in scores then scores[metric] else 5.0
  }

  /** `calculate_weighted_judge_score`: weights default to 0.4/0.4/0.2 and scores to 5; clamped to [0, 10]. */
  function WeightedJudgeScore(c: Config, scores: map<string, real>): (r: real)
    requires WeightsReadable(c, JudgeWeightsKey, Metrics)
    ensures 0.0 <= r <= 10.0
  {
    JudgeBlend(JudgeWeight(c, "relevance", 0.4), JudgeWeight(c, "factuality", 0.4), JudgeWeight(c, "completeness", 0.2),
               ScoreOr(scores, "relevance"), ScoreOr(scores, "factuality"), ScoreOr(scores, "completeness"))
  }

  /** The three metric scores, weighted and clamped to [0, 10]. */
  function JudgeBlend(w1: real, w2: real, w3: real, s1: real, s2: real, s3: real): (r: real)
    ensures 0.0 <= r <= 10.0
  {
    Clamp(w1 * s1 + w2 * s2 + w3 * s3, 0.0, 10.0)
  }

  // ---- Analysis 1: the web-search threshold ----

  /** Why a parameter changed; the rates the source prints are kept as numbers. */
  datatype Reason =
    | WebOutperforming(webRate: real, internalRate: real)
    | InternalOutperforming(internalRate: real, webRate: real)
    | HighConfidenceUnreliable(rate: real)
    | JudgeCorrelation

  /** One entry of `changes`. */
  datatype Change = Change(parameter: string, oldValue: Value, newValue: Value, reason: Reason, impact: string)

  function PositiveRate(fs: seq<FeedbackEntry>): (r: real)
    requires |fs| > 0
    ensures 0.0 <= r <= 1.0
  {
    Rate(Count(fs, IsPositive), |fs|)
  }

  datatype ThresholdMove = ThresholdMove(newThreshold: real, reason: Reason)

  /** The threshold `_analyze_web_search_performance` would move to, if any. */
  function ThresholdProposal(c: Config, fb: seq<FeedbackEntry>): Option<ThresholdMove>
    requires ThresholdsReadable(c) && LearningRateReadable(c)
  {
    var web := Filter(fb, UsedWebSearch);
    var internal := Filter(fb, UsedInternalOnly);
    if |web| < 3 || |internal| < 3 then None
    else RateMove(ConfidenceThreshold(c), LearningRate(c), PositiveRate(web), PositiveRate(internal))
  }

  /** The move two partition rates call for, from threshold `t` at learning rate `lr`. */
  function RateMove(t: real, lr: real, wr: real, ir: real): Option<ThresholdMove>
  {
    if wr > ir + 0.15 then Some(ThresholdMove(Max(0.5, t - (wr - ir) * lr), WebOutperforming(wr, ir)))
    else if ir > wr + 0.15 then Some(ThresholdMove(Min(0.9, t + (ir - wr) * lr), InternalOutperforming(ir, wr)))
    else None
  }

  /** The three cases of a rate move, for callers that branch on the rates themselves. */
  lemma RateMoveCases(t: real, lr: real, wr: real, ir: real)
    ensures wr > ir + 0.15 ==>
      RateMove(t, lr, wr, ir) == Some(ThresholdMove(Max(0.5, t - (wr - ir) * lr), WebOutperforming(wr, ir)))
    ensures !(wr > ir + 0.15) && ir > wr + 0.15 ==>
      RateMove(t, lr, wr, ir) == Some(ThresholdMove(Min(0.9, t + (ir - wr) * lr), InternalOutperforming(ir, wr)))
    ensures !(wr > ir + 0.15) && !(ir > wr + 0.15) ==> RateMove(t, lr, wr, ir) == None
  {
  }

  /** A rate move keeps the threshold in [0.5, 0.9] and goes towards the better-rated side. */
  lemma RateMoveDirection(t: real, lr: real, wr: real, ir: real)
    requires lr >= 0.0 && 0.5 <= t <= 0.9 && RateMove(t, lr, wr, ir).Some?
    ensures 0.5 <= RateMove(t, lr, wr, ir).value.newThreshold <= 0.9
    ensures RateMove(t, lr, wr, ir).value.reason.WebOutperforming? ==> RateMove(t, lr, wr, ir).value.newThreshold <= t
    ensures RateMove(t, lr, wr, ir).value.reason.InternalOutperforming? ==> RateMove(t, lr, wr, ir).value.newThreshold >= t
    ensures RateMove(t, lr, wr, ir).value.reason.WebOutperforming? || RateMove(t, lr, wr, ir).value.reason.InternalOutperforming?
  {
    if wr > ir + 0.15 {
      var step := (wr - ir) * lr;
      MulNonNegative(wr - ir, lr);
      assert RateMove(t, lr, wr, ir) == Some(ThresholdMove(Max(0.5, t - step), WebOutperforming(wr, ir)));
    } else {
      var step := (ir - wr) * lr;
      MulNonNegative(ir - wr, lr);
      assert RateMove(t, lr, wr, ir) == Some(ThresholdMove(Min(0.9, t + step), InternalOutperforming(ir, wr)));
    }
  }

  function ThresholdImpact(previous: real, next: real): string
  {
    "Web search will be " + (if next < previous then "triggered more often" else "triggered less often")
  }

  /** `_analyze_web_search_performance`: the change it reports and the configuration after it. */
  function WebStep(c: Config, fb: seq<FeedbackEntry>, now: nat): (r: (Option<Change>, Config))
    requires WellFormed(c)
    ensures WellFormed(r.1)
    ensures r.0.None? <==> ThresholdProposal(c, fb).None?
    ensures r.0.None? ==> r.1 == c
    ensures r.0.Some? ==>
      && r.0.value.parameter == ThresholdKey
      && ConfidenceThreshold(r.1) == ThresholdProposal(c, fb).value.newThreshold
      && JudgeThreshold(r.1) == JudgeThreshold(c)
      && AgreeExcept(c, r.1, "web_search")
      && VersionOf(r.1) == VersionOf(c) + 1.0
  {
    match ThresholdProposal(c, fb)
    case None => (None, c)
    case Some(m) =>
      ThresholdSaved(c, m.newThreshold, now);
      (Some(Change(ThresholdKey, Get2(c, "web_search", "confidence_threshold", Float(0.7)), Float(m.newThreshold), m.reason,
                   ThresholdImpact(ConfidenceThreshold(c), m.newThreshold))),
       WithThreshold(c, m.newThreshold, now))
  }

  // ---- Analysis 2: confidence calibration ----

  /** `f.get('confidence', 0) >= 0.7`: the fixed high-confidence cut, whatever the current threshold. */
  predicate HighConfidence(f: FeedbackEntry)
  {
    f.confidence.GetOr(0.0) >= 0.7
  }

  datatype CalibrationMove = CalibrationMove(retrieval: real, answer: real, rate: real)

  /** The weights `_analyze_confidence_calibration` would set, if any: weight only ever moves to answer quality. */
  function CalibrationProposal(c: Config, fb: seq<FeedbackEntry>): Option<CalibrationMove>
    requires WeightsReadable(c, ConfidenceWeightsKey, ConfidenceWeightNames) && LearningRateReadable(c)
  {
    var high := Filter(fb, HighConfidence);
    if |high| >= 3 && PositiveRate(high) < 0.6 then
      var lr := LearningRate(c);
      Some(CalibrationMove(
        Max(0.3, ConfidenceWeight(c, "retrieval_eval", 0.5) - lr),
        Min(0.7, ConfidenceWeight(c, "answer_quality", 0.5) + lr),
        PositiveRate(high)))
    else None
  }

  function CalibrationWeights(m: CalibrationMove): Value
  {
    Dict(map["retrieval_eval" := Float(m.retrieval), "answer_quality" := Float(m.answer)])
  }

  /** `_analyze_confidence_calibration`: the change it reports and the configuration after it. */
  function CalibrationStep(c: Config, fb: seq<FeedbackEntry>, now: nat): (r: (Option<Change>, Config))
    requires WellFormed(c)
    ensures WellFormed(r.1)
    ensures r.0.None? <==> CalibrationProposal(c, fb).None?
    ensures r.0.None? ==> r.1 == c
    ensures r.0.Some? ==>
      && r.0.value.parameter == ConfidenceWeightsKey
      && ConfidenceWeight(r.1, "retrieval_eval", 0.5) == CalibrationProposal(c, fb).value.retrieval
      && ConfidenceWeight(r.1, "answer_quality", 0.5) == CalibrationProposal(c, fb).value.answer
      && AgreeExcept(c, r.1, ConfidenceWeightsKey)
      && VersionOf(r.1) == VersionOf(c) + 1.0
  {
    match CalibrationProposal(c, fb)
    case None => (None, c)
    case Some(m) =>
      TopLevelSaved(c, ConfidenceWeightsKey, CalibrationWeights(m), now);
      (Some(Change(ConfidenceWeightsKey, Get1(c, ConfidenceWeightsKey, Dict(map[])), CalibrationWeights(m),
                   HighConfidenceUnreliable(m.rate), "Confidence now relies more on answer quality than retrieval")),
       Save(c + map[ConfidenceWeightsKey := CalibrationWeights(m)], now))
  }

  // ---- Analysis 3: judge-weight correlation ----

  /** `(score, is positive)` for each entry whose judge scores include `metric`, in log order. */
  function MetricSamples(fb: seq<FeedbackEntry>, metric: string): seq<(real, bool)>
  {
    if |fb| == 0 then []
    else
      var f := fb[|fb| - 1];
      MetricSamples(fb[..|fb| - 1], metric) +
        (if metric in f.judgeScores then [(f.judgeScores[metric] as real, IsPositive(f))] else [])
  }

  /** The scores of the samples with feedback value `positive`. */
  function GroupScores(samples: seq<(real, bool)>, positive: bool): seq<real>
  {
    if |samples| == 0 then []
    else
      var s := samples[|samples| - 1];
      GroupScores(samples[..|samples| - 1], positive) + (if s.1 == positive then [s.0] else [])
  }

  /** A correlation is NaN when one of the two groups is empty (`numpy.mean([])`). */
  datatype Correlation = NaNCorrelation | Correlation(value: real)

  /** Mean score under positive feedback minus mean score under the rest. */
  function MetricCorrelation(samples: seq<(real, bool)>): Correlation
  {
    var pos := GroupScores(samples, true);
    var neg := GroupScores(samples, false);
    if |pos| == 0 || |neg| == 0 then NaNCorrelation else Correlation(Mean(pos) - Mean(neg))
  }

  /** `correlations`, in metric order: only metrics scored by at least 10 entries. */
  function CorrelationsOver(fb: seq<FeedbackEntry>, metrics: seq<string>): seq<(string, Correlation)>
  {
    if |metrics| == 0 then []
    else
      var m := metrics[|metrics| - 1];
      var samples := MetricSamples(fb, m);
      CorrelationsOver(fb, metrics[..|metrics| - 1]) +
        (if |samples| >= 10 then [(m, MetricCorrelation(samples))] else [])
  }

  function Correlations(fb: seq<FeedbackEntry>): seq<(string, Correlation)>
  {
    CorrelationsOver(fb, Metrics)
  }

  predicate AllDefined(cs: seq<(string, Correlation)>)
  {
    forall i :: 0 <= i < |cs| ==> cs[i].1.Correlation?
  }

  /** `sum(abs(v) for v in correlations.values())`. */
  function AbsTotal(cs: seq<(string, Correlation)>): real
    requires AllDefined(cs)
  {
    if |cs| == 0 then 0.0 else AbsTotal(cs[..|cs| - 1]) + Abs(cs[|cs| - 1].1.value)
  }

  /** `target_weights.get(metric, 1/3)`. */
  function TargetWeight(cs: seq<(string, Correlation)>, total: real, metric: string): real
    requires AllDefined(cs) && total != 0.0
  {
    if |cs| == 0 then 1.0 / 3.0
    else if cs[|cs| - 1].0 == metric then Abs(cs[|cs| - 1].1.value) / total
    else TargetWeight(cs[..|cs| - 1], total, metric)
  }

  /**
   * `current * (1 - rate) + target * rate`, with `current` (from the stored
   * judge weights `g`) defaulting to 1/3 and the rate half the learning rate `lr`.
   */
  function Blend(g: Value, lr: real, cs: seq<(string, Correlation)>, total: real, metric: string): real
    requires NumbersAt(g, Metrics) && AllDefined(cs) && total != 0.0 && metric in Metrics
  {
    WeightIn(g, Metrics, metric, 1.0 / 3.0) * (1.0 - lr * 0.5) + TargetWeight(cs, total, metric) * (lr * 0.5)
  }

  function BlendTotal(g: Value, lr: real, cs: seq<(string, Correlation)>, total: real): real
    requires NumbersAt(g, Metrics) && AllDefined(cs) && total != 0.0
  {
    Blend(g, lr, cs, total, "relevance") + Blend(g, lr, cs, total, "factuality") + Blend(g, lr, cs, total, "completeness")
  }

  /**
   * The renormalisation divides by the blended total: the source fails with a
   * division by zero when that total is 0, so a pass may only reach it with a
   * non-zero one.
   */
  predicate JudgeBlendDefined(g: Value, lr: real, fb: seq<FeedbackEntry>)
    requires NumbersAt(g, Metrics)
  {
    |fb| < 10 || BlendDefinedFor(g, lr, Correlations(fb))
  }

  predicate BlendDefinedFor(g: Value, lr: real, cs: seq<(string, Correlation)>)
    requires NumbersAt(g, Metrics)
  {
    |cs| == 0 || !AllDefined(cs) || !(AbsTotal(cs) > 0.0) || BlendTotal(g, lr, cs, AbsTotal(cs)) != 0.0
  }

  /** A learning pass on `c` never reaches the judge renormalisation with a zero total. */
  predicate LearnDefined(c: Config, fb: seq<FeedbackEntry>)
    requires WellFormed(c)
  {
    JudgeBlendDefined(JudgeWeights(c), LearningRate(c), fb)
  }

  /** The signed correlations, once none is NaN. */
  function Defined(cs: seq<(string, Correlation)>): (r: seq<(string, real)>)
    requires AllDefined(cs)
    ensures |r| == |cs|
    ensures forall i :: 0 <= i < |cs| ==> r[i] == (cs[i].0, cs[i].1.value)
  {
    seq(|cs|, i requires 0 <= i < |cs| => (cs[i].0, cs[i].1.value))
  }

  /** `max(d, key=d.get)`: the position of the first largest value. */
  function ArgMax(xs: seq<(string, real)>): (k: nat)
    requires |xs| > 0
    ensures k < |xs|
  {
    if |xs| == 1 then 0
    else
      var best := ArgMax(xs[..|xs| - 1]);
      if xs[|xs| - 1].1 > xs[best].1 then |xs| - 1 else best
  }

  datatype Weights3 = Weights3(relevance: real, factuality: real, completeness: real)

  function WeightsValue(w: Weights3): Value
  {
    Dict(map["relevance" := Float(w.relevance), "factuality" := Float(w.factuality), "completeness" := Float(w.completeness)])
  }

  datatype JudgeMove = JudgeMove(weights: Weights3, correlations: seq<(string, real)>, mostImportant: string)

  /** The judge weights `_analyze_judge_correlation` would set, if any. */
  function JudgeProposal(g: Value, lr: real, fb: seq<FeedbackEntry>): Option<JudgeMove>
    requires NumbersAt(g, Metrics) && JudgeBlendDefined(g, lr, fb)
  {
    if |fb| < 10 then None else MoveFor(g, lr, Correlations(fb))
  }

  /** The rest of the judge analysis, once the correlations are known. */
  function MoveFor(g: Value, lr: real, cs: seq<(string, Correlation)>): Option<JudgeMove>
    requires NumbersAt(g, Metrics) && BlendDefinedFor(g, lr, cs)
  {
    if |cs| == 0 || !AllDefined(cs) then None
    else
      var total := AbsTotal(cs);
      if !(total > 0.0) then None
      else
        var t := BlendTotal(g, lr, cs, total);
        var w := Weights3(Blend(g, lr, cs, total, "relevance") / t,
                          Blend(g, lr, cs, total, "factuality") / t,
                          Blend(g, lr, cs, total, "completeness") / t);
        var change := Max(Max(Abs(w.relevance - WeightIn(g, Metrics, "relevance", 0.0)),
                              Abs(w.factuality - WeightIn(g, Metrics, "factuality", 0.0))),
                          Abs(w.completeness - WeightIn(g, Metrics, "completeness", 0.0)));
        if change > 0.05 then
          var named := Defined(cs);
          Some(JudgeMove(w, named, named[ArgMax(named)].0))
        else None
  }

  /** `_analyze_judge_correlation`: the change it reports and the configuration after it. */
  function JudgeStep(c: Config, fb: seq<FeedbackEntry>, now: nat): (r: (Option<Change>, Config))
    requires WellFormed(c) && LearnDefined(c, fb)
    ensures WellFormed(r.1)
    ensures r.0.None? <==> JudgeProposal(JudgeWeights(c), LearningRate(c), fb).None?
    ensures r.0.None? ==> r.1 == c
    ensures r.0.Some? ==>
      && r.0.value.parameter == JudgeWeightsKey
      && JudgeWeights(r.1) == WeightsValue(JudgeProposal(JudgeWeights(c), LearningRate(c), fb).value.weights)
      && AgreeExcept(c, r.1, JudgeWeightsKey)
      && VersionOf(r.1) == VersionOf(c) + 1.0
  {
    match JudgeProposal(JudgeWeights(c), LearningRate(c), fb)
    case None => (None, c)
    case Some(m) =>
      TopLevelSaved(c, JudgeWeightsKey, WeightsValue(m.weights), now);
      (Some(Change(JudgeWeightsKey, JudgeWeights(c), WeightsValue(m.weights),
                   JudgeCorrelation, m.mostImportant + " is most important to users")),
       Save(c + map[JudgeWeightsKey := WeightsValue(m.weights)], now))
  }

  // ---- The performance history ----

  /** `f.get('confidence', 0)` for every entry. */
  function Confidences(fb: seq<FeedbackEntry>): (r: seq<real>)
    ensures |r| == |fb|
  {
    seq(|fb|, i requires 0 <= i < |fb| => fb[i].confidence.GetOr(0.0))
  }

  /** The record `_record_performance` appends. */
  function PerformanceEntry(fb: seq<FeedbackEntry>, now: nat): Value
    requires |fb| > 0
  {
    Dict(map[
      "timestamp" := Time(now),
      "total_feedback" := Int(|fb|),
      "positive_rate" := Float(PositiveRate(fb)),
      "avg_confidence" := Float(Mean(Confidences(fb))),
      "web_search_usage" := Float(Rate(Count(fb, UsedWebSearch), |fb|))])
  }

  const HistoryCap: nat := 50

  /** `history[-50:]` once the list is longer than 50. */
  function Capped(h: seq<Value>): seq<Value>
  {
    if |h| > HistoryCap then From(h, -(HistoryCap as int)) else h
  }

  function History(c: Config): seq<Value>
    requires HistoryReadable(c)
  {
    Get1(c, HistoryKey, List([])).items
  }

  /** `_record_performance`: nothing for an empty list, else append one entry and keep the newest 50. */
  function RecordStep(c: Config, fb: seq<FeedbackEntry>, now: nat): (r: Config)
    requires WellFormed(c)
    ensures WellFormed(r)
    ensures |fb| == 0 ==> r == c
    ensures |fb| > 0 ==>
      && History(r) == Capped(History(c) + [PerformanceEntry(fb, now)])
      && AgreeExcept(c, r, HistoryKey)
      && VersionOf(r) == VersionOf(c) + 1.0
  {
    if |fb| == 0 then c
    else
      var h := List(Capped(History(c) + [PerformanceEntry(fb, now)]));
      TopLevelSaved(c, HistoryKey, h, now);
      Save(c + map[HistoryKey := h], now)
  }

  // ---- The trend ----

  datatype Trend = Improving | Stable | Declining

  datatype TrendReport =
    | TrendInsufficientData
    | TrendReport(recentRate: real, olderRate: real, improvement: real, improvementPercent: real, trend: Trend, dataPoints: nat)

  /** `history[-5:]` from 5 entries on, else `history[-len(history)//2:]` (floor division of the negated length). */
  function RecentWindow(h: seq<Value>): seq<Value>
  {
    if |h| >= 5 then From(h, -5) else From(h, (-|h|) / 2)
  }

  /** `history[:5]` from 10 entries on, else `history[:len(history)//2]`. */
  function OlderWindow(h: seq<Value>): seq<Value>
  {
    if |h| >= 10 then Take(h, 5) else Take(h, |h| / 2)
  }

  predicate HasRate(v: Value)
  {
    v.Dict? && "positive_rate" in v.entries && IsNumber(v.entries["positive_rate"])
  }

  function Rates(w: seq<Value>): (r: seq<real>)
    requires forall i :: 0 <= i < |w| ==> HasRate(w[i])
    ensures |r| == |w|
  {
    seq(|w|, i requires 0 <= i < |w| && HasRate(w[i]) => AsReal(w[i].entries["positive_rate"]))
  }

  /** `h['positive_rate']` is readable for every entry the trend averages. */
  predicate TrendReadable(c: Config)
  {
    && HistoryReadable(c)
    && (|History(c)| >= 2 ==>
          (forall i :: 0 <= i < |RecentWindow(History(c))| ==> HasRate(RecentWindow(History(c))[i])) &&
          (forall i :: 0 <= i < |OlderWindow(History(c))| ==> HasRate(OlderWindow(History(c))[i])))
  }

  function Classify(improvement: real): Trend
  {
    if improvement > 0.02 then Improving else if improvement > -0.02 then Stable else Declining
  }

  /** `get_performance_trend`. */
  function PerformanceTrend(c: Config): TrendReport
    requires TrendReadable(c)
  {
    var h := History(c);
    if |h| < 2 then TrendInsufficientData
    else
      var recent := Mean(Rates(RecentWindow(h)));
      var older := Mean(Rates(OlderWindow(h)));
      TrendReport(recent, older, recent - older, (recent - older) * 100.0, Classify(recent - older), |h|)
  }

  // ---- A learning pass ----

  /** The two answers of `update_from_feedback`. */
  datatype LearnOutcome =
    | InsufficientData(required: Value, currentSamples: nat)
    | Adjusted(timestamp: nat, changes: seq<Change>)

  function Listed(o: Option<Change>): (r: seq<Change>)
    ensures |r| == (if o.Some? then 1 else 0)
  {
    if o.Some? then [o.value] else []
  }

  lemma ListedTwo(a: Option<Change>, b: Option<Change>, c: Option<Change>)
    requires a.Some? && b.Some? && c.None?
    ensures Listed(a) + Listed(b) + Listed(c) == [a.value, b.value]
  {
  }

  /** The web and calibration analyses leave the judge weights and the learning rate alone. */
  lemma JudgeInputsAfter(c: Config, fb: seq<FeedbackEntry>, now: nat)
    requires WellFormed(c)
    ensures JudgeWeights(CalibrationStep(WebStep(c, fb, now).1, fb, now).1) == JudgeWeights(c)
    ensures LearningRate(CalibrationStep(WebStep(c, fb, now).1, fb, now).1) == LearningRate(c)
  {
    var c1 := WebStep(c, fb, now).1;
    var c2 := CalibrationStep(c1, fb, now).1;
    if c1 != c { Untouched(c, c1, "web_search"); }
    if c2 != c1 { Untouched(c1, c2, ConfidenceWeightsKey); }
  }

  /**
   * `update_from_feedback`: too few samples changes nothing; otherwise the three
   * analyses run in order on the configuration the previous one saved, and the
   * pass is recorded in the history.
   */
  function Learn(c: Config, fb: seq<FeedbackEntry>, now: nat): (r: (LearnOutcome, Config))
    requires WellFormed(c) && LearnDefined(c, fb)
    ensures WellFormed(r.1)
    ensures r.0.InsufficientData? <==> (|fb| as real) < MinSamples(c)
    ensures r.0.InsufficientData? ==> r.1 == c && r.0.currentSamples == |fb|
    ensures r.0.Adjusted? ==> r.0.timestamp == now && |r.0.changes| <= 3
  {
    if (|fb| as real) < MinSamples(c) then (InsufficientData(Get1(c, MinSamplesKey, Int(5)), |fb|), c)
    else
      var web := WebStep(c, fb, now);
      var calibration := CalibrationStep(web.1, fb, now);
      JudgeInputsAfter(c, fb, now);
      var judge := JudgeStep(calibration.1, fb, now);
      (Adjusted(now, Listed(web.0) + Listed(calibration.0) + Listed(judge.0)), RecordStep(judge.1, fb, now))
  }

  /** Every reported change and the history record each bump the version once. */
  lemma LearnVersion(c: Config, fb: seq<FeedbackEntry>, now: nat)
    requires WellFormed(c) && LearnDefined(c, fb)
    ensures Learn(c, fb, now).0.Adjusted? ==>
      VersionOf(Learn(c, fb, now).1) ==
        VersionOf(c) + |Learn(c, fb, now).0.changes| as real + (if |fb| > 0 then 1.0 else 0.0)
  {
    if !((|fb| as real) < MinSamples(c)) {
      var web := WebStep(c, fb, now);
      var calibration := CalibrationStep(web.1, fb, now);
      JudgeInputsAfter(c, fb, now);
      var judge := JudgeStep(calibration.1, fb, now);
      assert VersionOf(web.1) == VersionOf(c) + |Listed(web.0)| as real;
      assert VersionOf(calibration.1) == VersionOf(web.1) + |Listed(calibration.0)| as real;
      assert VersionOf(judge.1) == VersionOf(calibration.1) + |Listed(judge.0)| as real;
      assert Learn(c, fb, now).0.changes == Listed(web.0) + Listed(calibration.0) + Listed(judge.0);
    }
  }

  // ---- The learned parameters stay in range ----

  lemma MulNonNegative(x: real, y: real)
    requires x >= 0.0 && y >= 0.0
    ensures x * y >= 0.0
  {
  }

  /** A change confined to one other key keeps the two weight predicates and the learning rate. */
  lemma WeightsKept(c: Config, c': Config, key: string)
    requires WellFormed(c) && WellFormed(c') && InBounds(c) && AgreeExcept(c, c', key) && key != LearningRateKey
    ensures key != ConfidenceWeightsKey ==> ConfidenceWeightsBounded(c')
    ensures key != JudgeWeightsKey ==> JudgeWeightsBounded(c')
    ensures LearningRate(c') == LearningRate(c)
    ensures key != "web_search" ==> ConfidenceThreshold(c') == ConfidenceThreshold(c)
  {
    Untouched(c, c', key);
    assert key != ConfidenceWeightsKey ==> Get1(c', ConfidenceWeightsKey, Dict(map[])) == Get1(c, ConfidenceWeightsKey, Dict(map[]));
    assert key != JudgeWeightsKey ==> JudgeWeights(c') == JudgeWeights(c);
    assert Get1(c', LearningRateKey, Float(0.1)) == Get1(c, LearningRateKey, Float(0.1));
  }

  lemma WebKeepsBounds(c: Config, fb: seq<FeedbackEntry>, now: nat)
    requires WellFormed(c) && InBounds(c)
    ensures InBounds(WebStep(c, fb, now).1)
  {
    var r := WebStep(c, fb, now);
    if r.0.Some? {
      WeightsKept(c, r.1, "web_search");
      ThresholdDirection(c, fb);
    }
  }

  /** Both clamps fire together, so the two weights still sum to 1. */
  lemma CalibrationKeepsBounds(c: Config, fb: seq<FeedbackEntry>, now: nat)
    requires WellFormed(c) && InBounds(c)
    ensures InBounds(CalibrationStep(c, fb, now).1)
  {
    var r := CalibrationStep(c, fb, now);
    if r.0.Some? {
      WeightsKept(c, r.1, ConfidenceWeightsKey);
      CalibrationProposalBounded(c, fb);
    }
  }

  /** A proposed calibration keeps both weights in [0.3, 0.7], summing to 1. */
  lemma CalibrationProposalBounded(c: Config, fb: seq<FeedbackEntry>)
    requires WellFormed(c) && InBounds(c)
    ensures CalibrationProposal(c, fb).Some? ==>
      var m := CalibrationProposal(c, fb).value;
      m.retrieval + m.answer == 1.0 && 0.3 <= m.retrieval <= 0.7 && 0.3 <= m.answer <= 0.7
  {
    if CalibrationProposal(c, fb).Some? {
      CalibrationMoveBounded(ConfidenceWeight(c, "retrieval_eval", 0.5), ConfidenceWeight(c, "answer_quality", 0.5),
                             LearningRate(c));
    }
  }

  /** Moving `lr` of weight from retrieval to answer quality, within [0.3, 0.7], keeps the sum at 1. */
  lemma CalibrationMoveBounded(w: real, a: real, lr: real)
    requires w + a == 1.0 && 0.3 <= w <= 0.7 && 0.3 <= a <= 0.7 && 0.0 <= lr
    ensures var r, s := Max(0.3, w - lr), Min(0.7, a + lr);
      r + s == 1.0 && 0.3 <= r <= 0.7 && 0.3 <= s <= 0.7
  {
  }

  lemma TargetWeightBounds(cs: seq<(string, Correlation)>, total: real, metric: string)
    requires AllDefined(cs) && total > 0.0
    ensures TargetWeight(cs, total, metric) >= 0.0
  {
    if |cs| > 0 && cs[|cs| - 1].0 != metric {
      TargetWeightBounds(cs[..|cs| - 1], total, metric);
    }
  }

  lemma AbsTotalNonNegative(cs: seq<(string, Correlation)>)
    requires AllDefined(cs)
    ensures AbsTotal(cs) >= 0.0
  {
    if |cs| > 0 {
      AbsTotalNonNegative(cs[..|cs| - 1]);
    }
  }

  /** A blended weight of a stored non-negative weight is at least `(1 - rate)` times it. */
  lemma BlendBounds(g: Value, lr: real, cs: seq<(string, Correlation)>, total: real, metric: string)
    requires NumbersAt(g, Metrics) && metric in Metrics && metric in g.entries
    requires WeightIn(g, Metrics, metric, 0.0) >= 0.0 && 0.0 <= lr <= 1.0
    requires AllDefined(cs) && total > 0.0
    ensures Blend(g, lr, cs, total, metric) >= WeightIn(g, Metrics, metric, 0.0) * (1.0 - lr * 0.5)
    ensures Blend(g, lr, cs, total, metric) >= 0.0
  {
    TargetWeightBounds(cs, total, metric);
    var w := WeightIn(g, Metrics, metric, 1.0 / 3.0);
    assert w == WeightIn(g, Metrics, metric, 0.0);
    assert w * (1.0 - lr * 0.5) >= 0.0;
    assert TargetWeight(cs, total, metric) * (lr * 0.5) >= 0.0;
  }

  /** Under the intended ranges the renormalising total is at least 1/2, so the judge analysis never divides by 0. */
  lemma InBoundsBlendDefined(c: Config, fb: seq<FeedbackEntry>)
    requires WellFormed(c) && InBounds(c)
    ensures LearnDefined(c, fb)
  {
    var cs := Correlations(fb);
    var g := JudgeWeights(c);
    var lr := LearningRate(c);
    if |fb| >= 10 && |cs| > 0 && AllDefined(cs) && AbsTotal(cs) > 0.0 {
      var total := AbsTotal(cs);
      BlendBounds(g, lr, cs, total, "relevance");
      BlendBounds(g, lr, cs, total, "factuality");
      BlendBounds(g, lr, cs, total, "completeness");
      var w1 := WeightIn(g, Metrics, "relevance", 0.0);
      var w2 := WeightIn(g, Metrics, "factuality", 0.0);
      var w3 := WeightIn(g, Metrics, "completeness", 0.0);
      var q := 1.0 - lr * 0.5;
      assert w1 * q + w2 * q + w3 * q == (w1 + w2 + w3) * q;
      assert BlendTotal(g, lr, cs, total) >= 0.5;
    }
  }

  lemma Normalised(b1: real, b2: real, b3: real)
    requires b1 >= 0.0 && b2 >= 0.0 && b3 >= 0.0 && b1 + b2 + b3 > 0.0
    ensures b1 / (b1 + b2 + b3) >= 0.0 && b2 / (b1 + b2 + b3) >= 0.0 && b3 / (b1 + b2 + b3) >= 0.0
    ensures b1 / (b1 + b2 + b3) + b2 / (b1 + b2 + b3) + b3 / (b1 + b2 + b3) == 1.0
  {
    var t := b1 + b2 + b3;
    assert b1 / t + b2 / t + b3 / t == (b1 + b2 + b3) / t;
  }

  lemma JudgeKeepsBounds(c: Config, fb: seq<FeedbackEntry>, now: nat)
    requires WellFormed(c) && InBounds(c) && LearnDefined(c, fb)
    ensures InBounds(JudgeStep(c, fb, now).1)
  {
    var r := JudgeStep(c, fb, now);
    if r.0.Some? {
      Untouched(c, r.1, JudgeWeightsKey);
      var g := JudgeWeights(c);
      var lr := LearningRate(c);
      var cs := Correlations(fb);
      var total := AbsTotal(cs);
      BlendBounds(g, lr, cs, total, "relevance");
      BlendBounds(g, lr, cs, total, "factuality");
      BlendBounds(g, lr, cs, total, "completeness");
      InBoundsBlendDefined(c, fb);
      Normalised(Blend(g, lr, cs, total, "relevance"), Blend(g, lr, cs, total, "factuality"),
                 Blend(g, lr, cs, total, "completeness"));
    }
  }

  lemma RecordKeepsBounds(c: Config, fb: seq<FeedbackEntry>, now: nat)
    requires WellFormed(c) && InBounds(c)
    ensures InBounds(RecordStep(c, fb, now))
  {
    if |fb| > 0 {
      Untouched(c, RecordStep(c, fb, now), HistoryKey);
    }
  }

  /**
   * A learning pass keeps the threshold in [0.5, 0.9], the confidence weights
   * in [0.3, 0.7] summing to 1, and the judge weights non-negative summing to 1.
   */
  lemma LearnKeepsBounds(c: Config, fb: seq<FeedbackEntry>, now: nat)
    requires WellFormed(c) && InBounds(c)
    ensures LearnDefined(c, fb)
    ensures InBounds(Learn(c, fb, now).1)
  {
    InBoundsBlendDefined(c, fb);
    if !((|fb| as real) < MinSamples(c)) {
      var c1 := WebStep(c, fb, now).1;
      WebKeepsBounds(c, fb, now);
      var c2 := CalibrationStep(c1, fb, now).1;
      CalibrationKeepsBounds(c1, fb, now);
      JudgeInputsAfter(c, fb, now);
      var c3 := JudgeStep(c2, fb, now).1;
      JudgeKeepsBounds(c2, fb, now);
      RecordKeepsBounds(c3, fb, now);
    }
  }

  // ---- Properties of the gate and the aggregators ----

  /** Lowering either score never switches the gate off. */
  lemma TriggerMonotone(c: Config, confidence: real, judgeScore: real, confidence': real, judgeScore': real)
    requires ThresholdsReadable(c)
    requires confidence' <= confidence && judgeScore' <= judgeScore
    ensures ShouldTriggerWebSearch(c, confidence, judgeScore) ==> ShouldTriggerWebSearch(c, confidence', judgeScore')
    ensures !ShouldTriggerWebSearch(c, confidence', judgeScore') ==>
      confidence' >= ConfidenceThreshold(c) && judgeScore' >= JudgeThreshold(c)
  {
  }

  /** With the shipped defaults the gate fires below 0.7 confidence or below 5 for the judge. */
  lemma DefaultGate(now: nat, confidence: real, judgeScore: real)
    ensures ThresholdsReadable(DefaultConfig(now))
    ensures ShouldTriggerWebSearch(DefaultConfig(now), confidence, judgeScore) <==> confidence < 0.7 || judgeScore < 5.0
  {
    var c := DefaultConfig(now);
    assert Get2(c, "web_search", "confidence_threshold", Float(0.7)) == Float(0.7);
    assert Get2(c, "web_search", "judge_threshold", Int(5)) == Int(5);
  }

  lemma MulAtMost(x: real, y: real, hi: real)
    requires x >= 0.0 && 0.0 <= y <= hi
    ensures 0.0 <= x * y <= x * hi
  {
    MulNonNegative(x, y);
    MulNonNegative(x, hi - y);
    assert x * hi - x * y == x * (hi - y);
  }

  /** A non-negative combination of values in [0, hi] lies in [0, hi times the weight total]. */
  lemma WeightedSum(w1: real, x1: real, w2: real, x2: real, w3: real, x3: real, hi: real)
    requires w1 >= 0.0 && w2 >= 0.0 && w3 >= 0.0
    requires 0.0 <= x1 <= hi && 0.0 <= x2 <= hi && 0.0 <= x3 <= hi
    ensures 0.0 <= w1 * x1 + w2 * x2 + w3 * x3 <= (w1 + w2 + w3) * hi
  {
    MulAtMost(w1, x1, hi);
    MulAtMost(w2, x2, hi);
    MulAtMost(w3, x3, hi);
    SumTimes(w1, w2, w3, hi);
    var a1, a2, a3 := w1 * x1, w2 * x2, w3 * x3;
    var b1, b2, b3 := w1 * hi, w2 * hi, w3 * hi;
    assert 0.0 <= a1 <= b1 && 0.0 <= a2 <= b2 && 0.0 <= a3 <= b3;
    assert 0.0 <= a1 + a2 + a3 <= b1 + b2 + b3;
  }

  lemma SumTimes(a: real, b: real, c: real, h: real)
    ensures (a + b + c) * h == a * h + b * h + c * h
  {
  }

  /** Two non-negative weights applied to values in [0, 1] give at most the weight total. */
  lemma Convex2(w1: real, x1: real, w2: real, x2: real)
    requires w1 >= 0.0 && w2 >= 0.0 && 0.0 <= x1 <= 1.0 && 0.0 <= x2 <= 1.0
    ensures 0.0 <= w1 * x1 + w2 * x2 <= w1 + w2
  {
    MulAtMost(w1, x1, 1.0);
    MulAtMost(w2, x2, 1.0);
    var a, b := w1 * x1, w2 * x2;
    assert 0.0 <= a <= w1 && 0.0 <= b <= w2;
    assert 0.0 <= a + b <= w1 + w2;
  }

  /** With weights in range and scores in [0, 10] the clamp is inactive: the result is the true weighted mean. */
  lemma WeightedConfidenceExact(c: Config, retrievalScore: real, answerScore: real)
    requires WeightsReadable(c, ConfidenceWeightsKey, ConfidenceWeightNames) && ConfidenceWeightsBounded(c)
    requires 0.0 <= retrievalScore <= 10.0 && 0.0 <= answerScore <= 10.0
    ensures WeightedConfidence(c, retrievalScore, answerScore) ==
      ConfidenceWeight(c, "retrieval_eval", 0.5) * (retrievalScore / 10.0) +
      ConfidenceWeight(c, "answer_quality", 0.5) * (answerScore / 10.0)
  {
    var wr := ConfidenceWeight(c, "retrieval_eval", 0.5);
    var wa := ConfidenceWeight(c, "answer_quality", 0.5);
    var x1, x2 := retrievalScore / 10.0, answerScore / 10.0;
    Convex2(wr, x1, wa, x2);
    assert wr + wa == 1.0;
    var raw := wr * x1 + wa * x2;
    assert WeightedConfidence(c, retrievalScore, answerScore) == ConfidenceBlend(wr, wa, retrievalScore, answerScore)
      == Clamp(raw, 0.0, 1.0);
  }

  /** The same holds for the judge score once all three weights are stored. */
  lemma WeightedJudgeScoreExact(c: Config, scores: map<string, real>)
    requires WeightsReadable(c, JudgeWeightsKey, Metrics) && JudgeWeightsBounded(c)
    requires forall m :: m in scores ==> 0.0 <= scores[m] <= 10.0
    ensures WeightedJudgeScore(c, scores) ==
      JudgeWeight(c, "relevance", 0.0) * ScoreOr(scores, "relevance") +
      JudgeWeight(c, "factuality", 0.0) * ScoreOr(scores, "factuality") +
      JudgeWeight(c, "completeness", 0.0) * ScoreOr(scores, "completeness")
  {
    var w1, w2, w3 := JudgeWeight(c, "relevance", 0.0), JudgeWeight(c, "factuality", 0.0), JudgeWeight(c, "completeness", 0.0);
    assert JudgeWeight(c, "relevance", 0.4) == w1;
    assert JudgeWeight(c, "factuality", 0.4) == w2;
    assert JudgeWeight(c, "completeness", 0.2) == w3;
    var s1, s2, s3 := ScoreOr(scores, "relevance"), ScoreOr(scores, "factuality"), ScoreOr(scores, "completeness");
    assert 0.0 <= s1 <= 10.0 && 0.0 <= s2 <= 10.0 && 0.0 <= s3 <= 10.0;
    assert WeightedJudgeScore(c, scores) == JudgeBlend(w1, w2, w3, s1, s2, s3);
    JudgeBlendExact(w1, w2, w3, s1, s2, s3);
  }

  /** Weights summing to 1 over scores in [0, 10] never reach the clamp. */
  lemma JudgeBlendExact(w1: real, w2: real, w3: real, s1: real, s2: real, s3: real)
    requires w1 >= 0.0 && w2 >= 0.0 && w3 >= 0.0 && w1 + w2 + w3 == 1.0
    requires 0.0 <= s1 <= 10.0 && 0.0 <= s2 <= 10.0 && 0.0 <= s3 <= 10.0
    ensures JudgeBlend(w1, w2, w3, s1, s2, s3) == w1 * s1 + w2 * s2 + w3 * s3
  {
    WeightedSum(w1, s1, w2, s2, w3, s3, 10.0);
    var raw := w1 * s1 + w2 * s2 + w3 * s3;
    assert (w1 + w2 + w3) * 10.0 == 10.0;
    assert 0.0 <= raw <= 10.0;
  }

  // ---- Properties of the three analyses ----

  /** The threshold moves exactly when both partitions have 3 entries and their positive rates differ by more than 0.15. */
  lemma ThresholdMovesWhen(c: Config, fb: seq<FeedbackEntry>)
    requires ThresholdsReadable(c) && LearningRateReadable(c)
    ensures ThresholdProposal(c, fb).Some? <==>
      && |Filter(fb, UsedWebSearch)| >= 3 && |Filter(fb, UsedInternalOnly)| >= 3
      && Abs(PositiveRate(Filter(fb, UsedWebSearch)) - PositiveRate(Filter(fb, UsedInternalOnly))) > 0.15
  {
  }

  /**
   * The threshold moves down (web search used more) when web search did
   * better, up otherwise, and never leaves [0.5, 0.9] once it starts there.
   */
  lemma ThresholdDirection(c: Config, fb: seq<FeedbackEntry>)
    requires ThresholdsReadable(c) && LearningRateReadable(c) && LearningRate(c) >= 0.0
    requires 0.5 <= ConfidenceThreshold(c) <= 0.9
    requires ThresholdProposal(c, fb).Some?
    ensures 0.5 <= ThresholdProposal(c, fb).value.newThreshold <= 0.9
    ensures ThresholdProposal(c, fb).value.reason.WebOutperforming? ==>
      ThresholdProposal(c, fb).value.newThreshold <= ConfidenceThreshold(c)
    ensures ThresholdProposal(c, fb).value.reason.InternalOutperforming? ==>
      ThresholdProposal(c, fb).value.newThreshold >= ConfidenceThreshold(c)
    ensures ThresholdProposal(c, fb).value.reason.WebOutperforming? || ThresholdProposal(c, fb).value.reason.InternalOutperforming?
  {
    var web, internal := Filter(fb, UsedWebSearch), Filter(fb, UsedInternalOnly);
    RateMoveDirection(ConfidenceThreshold(c), LearningRate(c), PositiveRate(web), PositiveRate(internal));
  }

  /** The impact line says "more often" exactly when the threshold went down. */
  lemma ThresholdImpactSpec(previous: real, next: real)
    ensures ThresholdImpact(previous, next) == "Web search will be triggered more often" <==> next < previous
  {
    var more := "Web search will be " + "triggered more often";
    var less := "Web search will be " + "triggered less often";
    assert more[29] != less[29];
  }

  /**
   * Calibration fires exactly when at least 3 entries had confidence of at
   * least 0.7 and under 60% of them were positive; it then only moves weight
   * from retrieval towards answer quality.
   */
  lemma CalibrationDirection(c: Config, fb: seq<FeedbackEntry>)
    requires WeightsReadable(c, ConfidenceWeightsKey, ConfidenceWeightNames) && LearningRateReadable(c)
    requires LearningRate(c) >= 0.0
    ensures CalibrationProposal(c, fb).Some? <==>
      |Filter(fb, HighConfidence)| >= 3 && PositiveRate(Filter(fb, HighConfidence)) < 0.6
    ensures CalibrationProposal(c, fb).Some? ==>
      var m := CalibrationProposal(c, fb).value;
      && 0.3 <= m.retrieval && m.answer <= 0.7
      && (ConfidenceWeight(c, "retrieval_eval", 0.5) >= 0.3 ==> m.retrieval <= ConfidenceWeight(c, "retrieval_eval", 0.5))
      && (ConfidenceWeight(c, "answer_quality", 0.5) <= 0.7 ==> m.answer >= ConfidenceWeight(c, "answer_quality", 0.5))
  {
  }

  /** `max(..., key=...)` picks the first position holding the largest value. */
  lemma {:induction false} ArgMaxFirst(xs: seq<(string, real)>)
    requires |xs| > 0
    ensures forall j :: 0 <= j < |xs| ==> xs[j].1 <= xs[ArgMax(xs)].1
    ensures forall j :: 0 <= j < ArgMax(xs) ==> xs[j].1 < xs[ArgMax(xs)].1
  {
    if |xs| > 1 {
      var init := xs[..|xs| - 1];
      ArgMaxFirst(init);
      assert forall j :: 0 <= j < |init| ==> init[j] == xs[j];
    }
  }

  /** A metric's correlation is reported exactly when at least 10 entries scored it. */
  lemma {:induction false} CorrelationsSpec(fb: seq<FeedbackEntry>, metrics: seq<string>)
    ensures forall i :: 0 <= i < |CorrelationsOver(fb, metrics)| ==>
      CorrelationsOver(fb, metrics)[i].0 in metrics &&
      |MetricSamples(fb, CorrelationsOver(fb, metrics)[i].0)| >= 10 &&
      CorrelationsOver(fb, metrics)[i].1 == MetricCorrelation(MetricSamples(fb, CorrelationsOver(fb, metrics)[i].0))
    ensures forall m :: m in metrics && |MetricSamples(fb, m)| >= 10 ==>
      exists i :: 0 <= i < |CorrelationsOver(fb, metrics)| && CorrelationsOver(fb, metrics)[i].0 == m
  {
    if |metrics| > 0 {
      var init := metrics[..|metrics| - 1];
      var m := metrics[|metrics| - 1];
      CorrelationsSpec(fb, init);
      var prev := CorrelationsOver(fb, init);
      var cs := CorrelationsOver(fb, metrics);
      assert forall i :: 0 <= i < |prev| ==> cs[i] == prev[i];
      forall x | x in metrics && |MetricSamples(fb, x)| >= 10
        ensures exists i :: 0 <= i < |cs| && cs[i].0 == x
      {
        if x == m {
          assert cs[|cs| - 1].0 == x;
        } else {
          assert x in init;
          var i :| 0 <= i < |prev| && prev[i].0 == x;
          assert cs[i].0 == x;
        }
      }
    }
  }

  /** `MetricSamples` has one sample per entry that scored the metric. */
  lemma {:induction false} MetricSamplesCount(fb: seq<FeedbackEntry>, metric: string)
    ensures |MetricSamples(fb, metric)| == Count(fb, (f: FeedbackEntry) => metric in f.judgeScores)
  {
    if |fb| > 0 {
      MetricSamplesCount(fb[..|fb| - 1], metric);
      CountOfAppend(fb[..|fb| - 1], [fb[|fb| - 1]], (f: FeedbackEntry) => metric in f.judgeScores);
      assert fb[..|fb| - 1] + [fb[|fb| - 1]] == fb;
    }
  }

  /** The two groups split the samples. */
  lemma {:induction false} GroupScoresSplit(samples: seq<(real, bool)>)
    ensures |GroupScores(samples, true)| + |GroupScores(samples, false)| == |samples|
  {
    if |samples| > 0 {
      GroupScoresSplit(samples[..|samples| - 1]);
    }
  }

  // ---- Properties of the history ----

  /** The capped history is the newest `min(n, 50)` records. */
  lemma CappedSpec(h: seq<Value>)
    ensures |Capped(h)| == (if |h| > HistoryCap then HistoryCap else |h|)
    ensures Capped(h) == h[|h| - |Capped(h)|..]
  {
  }

  /** A recorded pass leaves its own entry last, and the history never grows past 50 once within it. */
  lemma RecordSpec(c: Config, fb: seq<FeedbackEntry>, now: nat)
    requires WellFormed(c) && |fb| > 0
    ensures var h := History(RecordStep(c, fb, now));
      && |h| > 0 && h[|h| - 1] == PerformanceEntry(fb, now)
      && |h| == (if |History(c)| + 1 > HistoryCap then HistoryCap else |History(c)| + 1)
      && h[..|h| - 1] == History(c)[|History(c)| + 1 - |h|..]
  {
    var full := History(c) + [PerformanceEntry(fb, now)];
    var h := History(RecordStep(c, fb, now));
    CappedSpec(full);
    assert h == full[|full| - |h|..];
    assert h[|h| - 1] == full[|full| - 1];
  }

  // ---- Properties of the trend ----

  /**
   * With n >= 2 records both windows are non-empty: the recent one is the
   * newest `min(5, n - n/2)`, the older one the oldest `5` (n >= 10) or `n/2`.
   * They share records exactly when 5 <= n <= 8.
   */
  lemma TrendWindows(h: seq<Value>)
    requires |h| >= 2
    ensures |RecentWindow(h)| == (if |h| >= 5 then 5 else |h| - |h| / 2)
    ensures |OlderWindow(h)| == (if |h| >= 10 then 5 else |h| / 2)
    ensures |RecentWindow(h)| >= 1 && |OlderWindow(h)| >= 1
    ensures RecentWindow(h) == h[|h| - |RecentWindow(h)|..] && OlderWindow(h) == h[..|OlderWindow(h)|]
    ensures |OlderWindow(h)| + |RecentWindow(h)| > |h| <==> 5 <= |h| <= 8
  {
    var n := |h|;
    if n < 5 {
      assert (-n) / 2 == -(n - n / 2);
    }
  }

  /** The classification thresholds, both ways. */
  lemma ClassifySpec(improvement: real)
    ensures Classify(improvement) == Improving <==> improvement > 0.02
    ensures Classify(improvement) == Declining <==> improvement <= -0.02
    ensures Classify(improvement) == Stable <==> -0.02 < improvement <= 0.02
  {
  }

  /** With rates in [0, 1], both averages stay in [0, 1]. */
  lemma TrendBounds(c: Config)
    requires TrendReadable(c) && |History(c)| >= 2
    requires forall i :: 0 <= i < |History(c)| ==>
      HasRate(History(c)[i]) && 0.0 <= AsReal(History(c)[i].entries["positive_rate"]) <= 1.0
    ensures PerformanceTrend(c).TrendReport?
    ensures 0.0 <= PerformanceTrend(c).recentRate <= 1.0 && 0.0 <= PerformanceTrend(c).olderRate <= 1.0
    ensures -1.0 <= PerformanceTrend(c).improvement <= 1.0
    ensures -100.0 <= PerformanceTrend(c).improvementPercent <= 100.0
    ensures PerformanceTrend(c).dataPoints == |History(c)|
  {
    var h := History(c);
    TrendWindows(h);
    var recent := RecentWindow(h);
    var older := OlderWindow(h);
    assert forall i :: 0 <= i < |recent| ==> recent[i] == h[|h| - |recent| + i];
    MeanBounds(Rates(recent), 0.0, 1.0);
    MeanBounds(Rates(older), 0.0, 1.0);
  }

  // ---- The module's own sample run ----

  /** A hand-written feedback record: only the fields the optimizer reads are set. */
  function Sample(positive: bool, web: bool, confidence: real, relevance: int, factuality: int, completeness: int): FeedbackEntry
  {
    FeedbackEntry("", "", 0, "", "", [], if positive then "positive" else "negative", Some(confidence),
                  map["relevance" := relevance, "factuality" := factuality, "completeness" := completeness],
                  "", web, None)
  }

  /** Four well-rated web-search answers... */
  function SampleWeb(): seq<FeedbackEntry>
  {
    [Sample(true, true, 0.5, 9, 9, 8), Sample(true, true, 0.6, 8, 9, 7),
     Sample(true, true, 0.55, 9, 8, 8), Sample(true, true, 0.6, 8, 9, 9)]
  }

  /** ...and four mostly poorly rated internal ones, all with confidence of at least 0.7. */
  function SampleInternal(): seq<FeedbackEntry>
  {
    [Sample(false, false, 0.8, 5, 4, 5), Sample(false, false, 0.75, 6, 5, 4),
     Sample(true, false, 0.85, 7, 7, 6), Sample(false, false, 0.8, 5, 6, 5)]
  }

  function SampleFeedback(): seq<FeedbackEntry>
  {
    SampleWeb() + SampleInternal()
  }

  /** What the sample run relies on: the web answers all positive below 0.7 confidence, the internal ones one in four positive at or above it. */
  predicate SampleShape(web: seq<FeedbackEntry>, internal: seq<FeedbackEntry>)
  {
    && |web| == 4 && |internal| == 4
    && (forall i :: 0 <= i < 4 ==> UsedWebSearch(web[i]) && IsPositive(web[i]) && !HighConfidence(web[i]))
    && (forall i :: 0 <= i < 4 ==> UsedInternalOnly(internal[i]) && HighConfidence(internal[i]))
    && !IsPositive(internal[0]) && !IsPositive(internal[1]) && IsPositive(internal[2]) && !IsPositive(internal[3])
  }

  lemma SampleFields(positive: bool, web: bool, confidence: real, relevance: int, factuality: int, completeness: int)
    ensures var f := Sample(positive, web, confidence, relevance, factuality, completeness);
      && (IsPositive(f) <==> positive) && f.webSearchTriggered == web && f.confidence == Some(confidence)
  {
    assert "negative" != "positive" by { assert "negative"[0] != "positive"[0]; }
  }

  lemma SampleHasShape()
    ensures SampleShape(SampleWeb(), SampleInternal())
  {
    SampleFields(true, true, 0.5, 9, 9, 8);
    SampleFields(true, true, 0.6, 8, 9, 7);
    SampleFields(true, true, 0.55, 9, 8, 8);
    SampleFields(true, true, 0.6, 8, 9, 9);
    SampleFields(false, false, 0.8, 5, 4, 5);
    SampleFields(false, false, 0.75, 6, 5, 4);
    SampleFields(true, false, 0.85, 7, 7, 6);
    SampleFields(false, false, 0.8, 5, 6, 5);
  }

  lemma SampleWebFilters(web: seq<FeedbackEntry>, internal: seq<FeedbackEntry>)
    requires SampleShape(web, internal)
    ensures Filter(web + internal, UsedWebSearch) == web
    ensures Filter(web + internal, UsedInternalOnly) == internal
  {
    FilterAll(web, UsedWebSearch);
    FilterNone(internal, UsedWebSearch);
    FilterNone(web, UsedInternalOnly);
    FilterAll(internal, UsedInternalOnly);
    FilterOfAppend(web, internal, UsedWebSearch);
    FilterOfAppend(web, internal, UsedInternalOnly);
  }

  lemma SampleHighFilter(web: seq<FeedbackEntry>, internal: seq<FeedbackEntry>)
    requires SampleShape(web, internal)
    ensures Filter(web + internal, HighConfidence) == internal
  {
    FilterNone(web, HighConfidence);
    FilterAll(internal, HighConfidence);
    FilterOfAppend(web, internal, HighConfidence);
  }

  lemma SampleRates(web: seq<FeedbackEntry>, internal: seq<FeedbackEntry>)
    requires SampleShape(web, internal)
    ensures PositiveRate(web) == 1.0
    ensures PositiveRate(internal) == 0.25
  {
    FilterAll(web, IsPositive);
    assert Count(web, IsPositive) == 4;
    assert internal == [internal[0], internal[1], internal[2], internal[3]];
    FilterOfFour(internal[0], internal[1], internal[2], internal[3], IsPositive);
    assert Filter(internal, IsPositive) == [internal[2]];
    assert Count(internal, IsPositive) == 1;
    assert PositiveRate(internal) == 1.0 / 4.0;
  }

  lemma SamplePartitions(web: seq<FeedbackEntry>, internal: seq<FeedbackEntry>)
    requires SampleShape(web, internal)
    ensures Filter(web + internal, UsedWebSearch) == web
    ensures Filter(web + internal, UsedInternalOnly) == internal
    ensures Filter(web + internal, HighConfidence) == internal
    ensures PositiveRate(web) == 1.0
    ensures PositiveRate(internal) == 0.25
  {
    SampleWebFilters(web, internal);
    SampleHighFilter(web, internal);
    SampleRates(web, internal);
  }

  /** The entries of a fresh configuration that a learning pass reads. */
  predicate DefaultEntries(c: Config)
  {
    && "version" in c && c["version"] == Int(2)
    && "web_search" in c
    && c["web_search"] == Dict(map["confidence_threshold" := Float(0.7), "judge_threshold" := Int(5), "enabled" := Bool(true)])
    && ConfidenceWeightsKey in c
    && c[ConfidenceWeightsKey] == Dict(map["retrieval_eval" := Float(0.5), "answer_quality" := Float(0.5)])
    && JudgeWeightsKey in c
    && c[JudgeWeightsKey] == Dict(map["relevance" := Float(0.4), "factuality" := Float(0.4), "completeness" := Float(0.2)])
    && LearningRateKey in c && c[LearningRateKey] == Float(0.1)
    && MinSamplesKey in c && c[MinSamplesKey] == Int(5)
    && HistoryKey in c && c[HistoryKey] == List([])
  }

  lemma FreshEntries(now: nat)
    ensures DefaultEntries(InitialConfig(NoFile, now))
  {
    var c := InitialConfig(NoFile, now);
    assert c["web_search"] == DefaultConfig(now)["web_search"];
    assert c["confidence_weights"] == DefaultConfig(now)["confidence_weights"];
    assert c["judge_weights"] == DefaultConfig(now)["judge_weights"];
  }

  lemma DefaultEntriesFreshLike(c: Config)
    requires DefaultEntries(c)
    ensures FreshLike(c)
  {
  }

  /** The fresh configuration the sample run starts from. */
  lemma FreshConfig(now: nat)
    ensures WellFormed(InitialConfig(NoFile, now)) && InBounds(InitialConfig(NoFile, now))
    ensures ConfidenceThreshold(InitialConfig(NoFile, now)) == 0.7
    ensures LearningRate(InitialConfig(NoFile, now)) == 0.1
    ensures MinSamples(InitialConfig(NoFile, now)) == 5.0
    ensures ConfidenceWeight(InitialConfig(NoFile, now), "retrieval_eval", 0.5) == 0.5
    ensures ConfidenceWeight(InitialConfig(NoFile, now), "answer_quality", 0.5) == 0.5
    ensures VersionOf(InitialConfig(NoFile, now)) == 2.0
  {
    FreshEntries(now);
    DefaultEntriesFreshLike(InitialConfig(NoFile, now));
  }

  /** The parts of a fresh configuration the sample run depends on. */
  predicate FreshLike(c: Config)
  {
    && WellFormed(c) && InBounds(c)
    && ConfidenceThreshold(c) == 0.7 && LearningRate(c) == 0.1 && MinSamples(c) == 5.0
    && ConfidenceWeight(c, "retrieval_eval", 0.5) == 0.5 && ConfidenceWeight(c, "answer_quality", 0.5) == 0.5
    && VersionOf(c) == 2.0
  }

  lemma ShapedProposal(web: seq<FeedbackEntry>, internal: seq<FeedbackEntry>, c: Config)
    requires SampleShape(web, internal) && FreshLike(c)
    ensures ThresholdProposal(c, web + internal) == Some(ThresholdMove(0.625, WebOutperforming(1.0, 0.25)))
  {
    SamplePartitions(web, internal);
    var wr := PositiveRate(Filter(web + internal, UsedWebSearch));
    var ir := PositiveRate(Filter(web + internal, UsedInternalOnly));
    assert wr == 1.0 && ir == 0.25;
    assert Max(0.5, 0.7 - (wr - ir) * 0.1) == 0.625;
  }

  lemma ShapedWebStep(web: seq<FeedbackEntry>, internal: seq<FeedbackEntry>, c: Config, now: nat)
    requires SampleShape(web, internal) && FreshLike(c)
    ensures var r := WebStep(c, web + internal, now);
      && r.0.Some? && r.0.value.parameter == ThresholdKey
      && InBounds(r.1) && ConfidenceThreshold(r.1) == 0.625 && LearningRate(r.1) == 0.1
      && ConfidenceWeight(r.1, "retrieval_eval", 0.5) == 0.5 && ConfidenceWeight(r.1, "answer_quality", 0.5) == 0.5
  {
    var fb := web + internal;
    ShapedProposal(web, internal, c);
    var c1 := WebStep(c, fb, now).1;
    WebKeepsBounds(c, fb, now);
    WeightsKept(c, c1, "web_search");
    Untouched(c, c1, "web_search");
    assert Get1(c1, ConfidenceWeightsKey, Dict(map[])) == Get1(c, ConfidenceWeightsKey, Dict(map[]));
  }

  lemma ShapedCalibrationStep(web: seq<FeedbackEntry>, internal: seq<FeedbackEntry>, c1: Config, now: nat)
    requires SampleShape(web, internal)
    requires WellFormed(c1) && InBounds(c1) && ConfidenceThreshold(c1) == 0.625 && LearningRate(c1) == 0.1
    requires ConfidenceWeight(c1, "retrieval_eval", 0.5) == 0.5 && ConfidenceWeight(c1, "answer_quality", 0.5) == 0.5
    ensures var r := CalibrationStep(c1, web + internal, now);
      && r.0.Some? && r.0.value.parameter == ConfidenceWeightsKey
      && InBounds(r.1) && ConfidenceThreshold(r.1) == 0.625
      && ConfidenceWeight(r.1, "retrieval_eval", 0.5) == 0.4 && ConfidenceWeight(r.1, "answer_quality", 0.5) == 0.6
  {
    var fb := web + internal;
    SamplePartitions(web, internal);
    assert CalibrationProposal(c1, fb) == Some(CalibrationMove(0.4, 0.6, 0.25));
    CalibrationKeepsBounds(c1, fb, now);
    WeightsKept(c1, CalibrationStep(c1, fb, now).1, ConfidenceWeightsKey);
  }

  /** Once the rest keeps them, the last two steps leave the threshold and the confidence weights alone. */
  lemma LastStepsKeep(c2: Config, fb: seq<FeedbackEntry>, now: nat)
    requires WellFormed(c2) && LearnDefined(c2, fb) && |fb| < 10
    ensures JudgeStep(c2, fb, now).1 == c2
    ensures ConfidenceThreshold(RecordStep(c2, fb, now)) == ConfidenceThreshold(c2)
    ensures Get1(RecordStep(c2, fb, now), ConfidenceWeightsKey, Dict(map[])) == Get1(c2, ConfidenceWeightsKey, Dict(map[]))
  {
    var c4 := RecordStep(c2, fb, now);
    if |fb| > 0 {
      Untouched(c2, c4, HistoryKey);
    }
  }

  /**
   * On feedback of the sample's shape a fresh configuration lowers the
   * threshold from 0.7 to 0.625, moves the confidence weights to 0.4/0.6,
   * leaves the judge weights (8 entries are fewer than 10), and ends at
   * version 5.
   */
  lemma ShapedRun(web: seq<FeedbackEntry>, internal: seq<FeedbackEntry>, c: Config, now: nat)
    requires SampleShape(web, internal) && FreshLike(c)
    ensures LearnDefined(c, web + internal)
    ensures var r := Learn(c, web + internal, now);
      && r.0.Adjusted? && |r.0.changes| == 2
      && r.0.changes[0].parameter == ThresholdKey && r.0.changes[1].parameter == ConfidenceWeightsKey
      && ConfidenceThreshold(r.1) == 0.625
      && ConfidenceWeight(r.1, "retrieval_eval", 0.5) == 0.4
      && ConfidenceWeight(r.1, "answer_quality", 0.5) == 0.6
      && VersionOf(r.1) == 5.0
  {
    var fb := web + internal;
    InBoundsBlendDefined(c, fb);
    ShapedWebStep(web, internal, c, now);
    var w := WebStep(c, fb, now);
    ShapedCalibrationStep(web, internal, w.1, now);
    var k := CalibrationStep(w.1, fb, now);
    JudgeInputsAfter(c, fb, now);
    assert |fb| == 8;
    LastStepsKeep(k.1, fb, now);
    var r := Learn(c, fb, now);
    assert r == (Adjusted(now, [w.0.value, k.0.value]), RecordStep(k.1, fb, now)) by {
      var j := JudgeStep(k.1, fb, now);
      assert j.0.None? && j.1 == k.1;
      ListedTwo(w.0, k.0, j.0);
    }
    LearnVersion(c, fb, now);
  }

  /** The run the module's own test performs, from a fresh configuration. */
  lemma SampleRun(start: nat, now: nat)
    ensures WellFormed(InitialConfig(NoFile, start)) && LearnDefined(InitialConfig(NoFile, start), SampleFeedback())
    ensures var r := Learn(InitialConfig(NoFile, start), SampleFeedback(), now);
      && r.0.Adjusted? && |r.0.changes| == 2
      && ConfidenceThreshold(r.1) == 0.625
      && ConfidenceWeight(r.1, "retrieval_eval", 0.5) == 0.4
      && ConfidenceWeight(r.1, "answer_quality", 0.5) == 0.6
      && VersionOf(r.1) == 5.0
  {
    FreshConfig(start);
    SampleHasShape();
    ShapedRun(SampleWeb(), SampleInternal(), InitialConfig(NoFile, start), now);
  }

  // ---- The optimizer object ----

  /** `(score, is positive)` for every entry that scored `metric`: the inner loop of the judge analysis. */
  method CollectSamples(fb: seq<FeedbackEntry>, metric: string) returns (samples: seq<(real, bool)>)
    ensures samples == MetricSamples(fb, metric)
  {
    samples := [];
    for i := 0 to |fb|
      invariant samples == MetricSamples(fb[..i], metric)
    {
      assert fb[..i + 1][..i] == fb[..i];
      var f := fb[i];
      if metric in f.judgeScores {
        samples := samples + [(f.judgeScores[metric] as real, IsPositive(f))];
      }
    }
    assert fb[..|fb|] == fb;
  }

  /** `RLOptimizer`: the learner around one configuration object. */
  class RLOptimizer {
    const config: RLConfig

    constructor (stored: StoredConfig, now: nat)
      ensures fresh(config) && config.config == InitialConfig(stored, now)
    {
      config := new RLConfig(stored, now);
    }

    /** `self.config.get('web_search.confidence_threshold', d)`. */
    method ReadThreshold(d: Value) returns (v: Value)
      ensures v == Get2(config.config, "web_search", "confidence_threshold", d)
    {
      v := config.Get(ThresholdKey, d);
      ThresholdRead(config.config, d);
    }

    /** `self.config.get('web_search.judge_threshold', d)`. */
    method ReadJudgeThreshold(d: Value) returns (v: Value)
      ensures v == Get2(config.config, "web_search", "judge_threshold", d)
    {
      v := config.Get(JudgeThresholdKey, d);
      JudgeThresholdRead(config.config, d);
    }

    /** `self.config.get(key, d)` for a key without dots. */
    method ReadTop(key: string, d: Value) returns (v: Value)
      requires key in [LearningRateKey, MinSamplesKey, ConfidenceWeightsKey, JudgeWeightsKey, HistoryKey]
      ensures v == Get1(config.config, key, d)
    {
      v := config.Get(key, d);
      TopLevelRead(config.config, key, d);
    }

    method ShouldTriggerWebSearch(confidence: real, judgeScore: real) returns (b: bool)
      requires ThresholdsReadable(config.config)
      ensures b <==> confidence < ConfidenceThreshold(config.config) || judgeScore < JudgeThreshold(config.config)
    {
      var threshold := ReadThreshold(Float(0.7));
      var judgeThreshold := ReadJudgeThreshold(Int(5));
      b := confidence < AsReal(threshold) || judgeScore < AsReal(judgeThreshold);
    }

    method CalculateWeightedConfidence(retrievalScore: real, answerScore: real) returns (r: real)
      requires WeightsReadable(config.config, ConfidenceWeightsKey, ConfidenceWeightNames)
      ensures r == WeightedConfidence(config.config, retrievalScore, answerScore)
    {
      var weights := ReadTop(ConfidenceWeightsKey, Dict(map[]));
      var retrievalWeight := AsReal(DictGet(weights, "retrieval_eval", Float(0.5)));
      var answerWeight := AsReal(DictGet(weights, "answer_quality", Float(0.5)));
      r := ConfidenceBlend(retrievalWeight, answerWeight, retrievalScore, answerScore);
      assert retrievalWeight == ConfidenceWeight(config.config, "retrieval_eval", 0.5);
      assert answerWeight == ConfidenceWeight(config.config, "answer_quality", 0.5);
    }

    method CalculateWeightedJudgeScore(scores: map<string, real>) returns (r: real)
      requires WeightsReadable(config.config, JudgeWeightsKey, Metrics)
      ensures r == WeightedJudgeScore(config.config, scores)
    {
      var weights := ReadTop(JudgeWeightsKey, Dict(map[]));
      var w1 := AsReal(DictGet(weights, "relevance", Float(0.4)));
      var w2 := AsReal(DictGet(weights, "factuality", Float(0.4)));
      var w3 := AsReal(DictGet(weights, "completeness", Float(0.2)));
      var s1, s2, s3 := ScoreOr(scores, "relevance"), ScoreOr(scores, "factuality"), ScoreOr(scores, "completeness");
      r := JudgeBlend(w1, w2, w3, s1, s2, s3);
      assert w1 == JudgeWeight(config.config, "relevance", 0.4);
      assert w2 == JudgeWeight(config.config, "factuality", 0.4);
      assert w3 == JudgeWeight(config.config, "completeness", 0.2);
    }

    method AnalyzeWebSearchPerformance(fb: seq<FeedbackEntry>, now: nat) returns (change: Option<Change>)
      requires WellFormed(config.config)
      modifies config
      ensures (change, config.config) == WebStep(old(config.config), fb, now)
    {
      var web := Filter(fb, UsedWebSearch);
      var internal := Filter(fb, UsedInternalOnly);
      if |web| < 3 || |internal| < 3 {
        return None;
      }
      var webRate := PositiveRate(web);
      var internalRate := PositiveRate(internal);
      var current := ReadThreshold(Float(0.7));
      var rate := ReadTop(LearningRateKey, Float(0.1));
      var threshold, lr := AsReal(current), AsReal(rate);
      var newThreshold := threshold;
      var reason: Reason := WebOutperforming(webRate, internalRate);
      var adjust := false;
      ghost var move := RateMove(threshold, lr, webRate, internalRate);
      RateMoveCases(threshold, lr, webRate, internalRate);
      if webRate > internalRate + 0.15 {
        newThreshold := Max(0.5, threshold - (webRate - internalRate) * lr);
        adjust := true;
        assert move == Some(ThresholdMove(newThreshold, reason));
      } else if internalRate > webRate + 0.15 {
        newThreshold := Min(0.9, threshold + (internalRate - webRate) * lr);
        reason := InternalOutperforming(internalRate, webRate);
        adjust := true;
        assert move == Some(ThresholdMove(newThreshold, reason));
      } else {
        assert move == None;
      }
      assert threshold == ConfidenceThreshold(config.config) && lr == LearningRate(config.config);
      assert ThresholdProposal(config.config, fb) == RateMove(threshold, lr, webRate, internalRate);
      if adjust {
        var ws := config.config["web_search"].entries;
        ghost var before := config.config;
        config.Update(map["web_search" := Dict(ws["confidence_threshold" := Float(newThreshold)])], now);
        assert config.config == WithThreshold(before, newThreshold, now);
        change := Some(Change(ThresholdKey, current, Float(newThreshold), reason, ThresholdImpact(threshold, newThreshold)));
      } else {
        change := None;
      }
    }

    method AnalyzeConfidenceCalibration(fb: seq<FeedbackEntry>, now: nat) returns (change: Option<Change>)
      requires WellFormed(config.config)
      modifies config
      ensures (change, config.config) == CalibrationStep(old(config.config), fb, now)
    {
      ghost var c0 := config.config;
      var high := Filter(fb, HighConfidence);
      if |high| >= 3 {
        var positiveRate := PositiveRate(high);
        if positiveRate < 0.6 {
          var current := ReadTop(ConfidenceWeightsKey, Dict(map[]));
          var rate := ReadTop(LearningRateKey, Float(0.1));
          var lr := AsReal(rate);
          var m := CalibrationMove(Max(0.3, AsReal(DictGet(current, "retrieval_eval", Float(0.5))) - lr),
                                   Min(0.7, AsReal(DictGet(current, "answer_quality", Float(0.5))) + lr),
                                   positiveRate);
          assert CalibrationProposal(c0, fb) == Some(m);
          config.Update(map[ConfidenceWeightsKey := CalibrationWeights(m)], now);
          change := Some(Change(ConfidenceWeightsKey, current, CalibrationWeights(m), HighConfidenceUnreliable(positiveRate),
                                "Confidence now relies more on answer quality than retrieval"));
          assert config.config == Save(c0 + map[ConfidenceWeightsKey := CalibrationWeights(m)], now);
          return;
        }
      }
      assert CalibrationProposal(c0, fb) == None;
      return None;
    }

    method AnalyzeJudgeCorrelation(fb: seq<FeedbackEntry>, now: nat) returns (change: Option<Change>)
      requires WellFormed(config.config) && LearnDefined(config.config, fb)
      modifies config
      ensures (change, config.config) == JudgeStep(old(config.config), fb, now)
    {
      if |fb| < 10 {
        return None;
      }
      var current := ReadTop(JudgeWeightsKey, Dict(map[]));
      var rate := ReadTop(LearningRateKey, Float(0.1));
      assert LearningRateReadable(config.config);
      var correlations: seq<(string, Correlation)> := [];
      for k := 0 to |Metrics|
        invariant correlations == CorrelationsOver(fb, Metrics[..k])
        invariant config.config == old(config.config)
      {
        assert Metrics[..k + 1][..k] == Metrics[..k];
        var samples := CollectSamples(fb, Metrics[k]);
        if |samples| >= 10 {
          correlations := correlations + [(Metrics[k], MetricCorrelation(samples))];
        }
      }
      assert Metrics[..|Metrics|] == Metrics;
      match MoveFor(current, AsReal(rate), correlations)
      case None =>
        change := None;
      case Some(m) =>
        config.Update(map[JudgeWeightsKey := WeightsValue(m.weights)], now);
        change := Some(Change(JudgeWeightsKey, current, WeightsValue(m.weights), JudgeCorrelation,
                              m.mostImportant + " is most important to users"));
    }

    method RecordPerformance(fb: seq<FeedbackEntry>, now: nat)
      requires WellFormed(config.config)
      modifies config
      ensures config.config == RecordStep(old(config.config), fb, now)
    {
      if |fb| == 0 {
        return;
      }
      var entry := PerformanceEntry(fb, now);
      var stored := ReadTop(HistoryKey, List([]));
      var history := stored.items + [entry];
      if |history| > 50 {
        history := From(history, -50);
      }
      config.Update(map[HistoryKey := List(history)], now);
    }

    method UpdateFromFeedback(fb: seq<FeedbackEntry>, now: nat) returns (outcome: LearnOutcome)
      requires WellFormed(config.config) && LearnDefined(config.config, fb)
      modifies config
      ensures (outcome, config.config) == Learn(old(config.config), fb, now)
    {
      var minSamples := ReadTop(MinSamplesKey, Int(5));
      if (|fb| as real) < AsReal(minSamples) {
        return InsufficientData(minSamples, |fb|);
      }
      ghost var c0 := config.config;
      var web := AnalyzeWebSearchPerformance(fb, now);
      ghost var c1 := config.config;
      var calibration := AnalyzeConfidenceCalibration(fb, now);
      ghost var c2 := config.config;
      JudgeInputsAfter(c0, fb, now);
      assert LearnDefined(c2, fb);
      var judge := AnalyzeJudgeCorrelation(fb, now);
      ghost var c3 := config.config;
      assert (judge, c3) == JudgeStep(c2, fb, now);
      RecordPerformance(fb, now);
      outcome := Adjusted(now, Listed(web) + Listed(calibration) + Listed(judge));
      assert Learn(c0, fb, now) == (outcome, RecordStep(c3, fb, now));
    }

    method GetPerformanceTrend() returns (r: TrendReport)
      requires TrendReadable(config.config)
      ensures r == PerformanceTrend(config.config)
    {
      var stored := ReadTop(HistoryKey, List([]));
      var history := stored.items;
      if |history| < 2 {
        return TrendInsufficientData;
      }
      var recent := RecentWindow(history);
      var older := OlderWindow(history);
      var recentRate := Mean(Rates(recent));
      var olderRate := Mean(Rates(older));
      r := TrendReport(recentRate, olderRate, recentRate - olderRate, (recentRate - olderRate) * 100.0,
                       Classify(recentRate - olderRate), |history|);
    }
  }
}
