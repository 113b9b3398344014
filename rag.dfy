/**
 * The decision and assembly logic of the query pipeline: keeping the top
 * documents (reranked, or the first five with filled-in scores), gating the
 * web search on the judge's verdict and the learned thresholds, normalising
 * the internal relevance scores, listing the sources and computing the
 * overall confidence. The search engines, the reranker's cross-encoder, the
 * LLM judge, the web client and the answer generator are not modelled: what
 * they return is passed in.
 */
module Rag {
  import opened Wrappers
  import opened PyLib
  import opened Documents
  import opened Schemas
  import opened RlConfig
  import opened RlOptimizer
  import opened Reranker

  // ---- safe_string ----

  /** `safe_string(value, default)`: None and NaN give the default, anything else its `str()`. */
  function SafeString(value: Cell, default: string): (r: string)
    ensures (value.Null? || value.NaN?) ==> r == default
    ensures value.Text? ==> r == value.s
    ensures value.Other? ==> r == value.shown
  {
    match value
    case Null => default
    case NaN => default
    case Text(s) => s
    case Other(shown) => shown
  }

  /** `safe_string(d.get(key, missing))`. */
  function FieldText(fields: map<string, Cell>, key: string, missing: Cell): string
  {
    SafeString(FieldOr(fields, key, missing), "")
  }

  // ---- The reranker-disabled path ----

  /** `if 'rerank_score' not in doc: doc['rerank_score'] = doc.get('score', 0.5)`. */
  function Filled(d: Doc): (r: Doc)
    ensures r.rerankScore.Some?
    ensures d.rerankScore.Some? ==> r == d
    ensures d.rerankScore.None? ==> r == d.(rerankScore := Some(d.score.GetOr(0.5)))
  {
    if d.rerankScore.Some? then d else d.(rerankScore := Some(d.score.GetOr(0.5)))
  }

  function FilledAll(docs: seq<Doc>): (r: seq<Doc>)
    ensures |r| == |docs| && forall i :: 0 <= i < |docs| ==> r[i] == Filled(docs[i])
  {
    seq(|docs|, i requires 0 <= i < |docs| => Filled(docs[i]))
  }

  /** The fill loop, writing each document of the kept list in place. */
  method FillRerankScores(docs: array<Doc>)
    modifies docs
    ensures docs[..] == FilledAll(old(docs[..]))
  {
    ghost var original := docs[..];
    for i := 0 to docs.Length
      invariant forall j :: 0 <= j < i ==> docs[j] == Filled(original[j])
      invariant forall j :: i <= j < docs.Length ==> docs[j] == original[j]
    {
      if docs[i].rerankScore.None? {
        docs[i] := docs[i].(rerankScore := Some(docs[i].score.GetOr(0.5)));
      }
    }
  }

  /** How many documents either path keeps (`top_k=5`, `[:5]`). */
  const ContextSize: int := 5

  /** The documents that reach the answer step. */
  function ContextDocs(enableReranker: bool, retrieved: seq<Doc>, crossScores: seq<real>): seq<Doc>
    requires enableReranker ==> |crossScores| == |retrieved|
  {
    if enableReranker then Reranked(retrieved, crossScores, ContextSize)
    else FilledAll(Take(retrieved, ContextSize))
  }

  /**
   * Without the reranker, at most five documents are kept, in hybrid order,
   * each with its own score or the one filled in; nothing else about them
   * changes.
   */
  lemma DisabledContext(retrieved: seq<Doc>, crossScores: seq<real>)
    ensures var kept := ContextDocs(false, retrieved, crossScores);
      && |kept| == (if |retrieved| < 5 then |retrieved| else 5)
      && (forall i :: 0 <= i < |kept| ==>
            && kept[i].fields == retrieved[i].fields
            && kept[i].score == retrieved[i].score
            && kept[i].rrfScore == retrieved[i].rrfScore
            && kept[i].docId == retrieved[i].docId
            && (retrieved[i].rerankScore.Some? ==> kept[i].rerankScore == retrieved[i].rerankScore)
            && (retrieved[i].rerankScore.None? ==> kept[i].rerankScore == Some(retrieved[i].score.GetOr(0.5))))
  {
    var top := Take(retrieved, ContextSize);
    assert forall i :: 0 <= i < |top| ==> top[i] == retrieved[i];
  }

  // ---- Relevance normalisation ----

  /** `float(doc.get('rerank_score', 0))`. */
  function RawScore(d: Doc): real
  {
    d.rerankScore.GetOr(0.0)
  }

  function RawScores(docs: seq<Doc>): (r: seq<real>)
    ensures |r| == |docs| && forall i :: 0 <= i < |docs| ==> r[i] == RawScore(docs[i])
  {
    seq(|docs|, i requires 0 <= i < |docs| => RawScore(docs[i]))
  }

  /** Python's `min` of a non-empty list. */
  function MinOf(xs: seq<real>): (m: real)
    requires |xs| > 0
    ensures m in xs
    ensures forall i :: 0 <= i < |xs| ==> m <= xs[i]
  {
    if |xs| == 1 then xs[0]
    else
      var m := MinOf(xs[..|xs| - 1]);
      assert forall x :: x in xs[..|xs| - 1] ==> x in xs;
      if xs[|xs| - 1] < m then xs[|xs| - 1] else m
  }

  /** Python's `max` of a non-empty list. */
  function MaxOf(xs: seq<real>): (m: real)
    requires |xs| > 0
    ensures m in xs
    ensures forall i :: 0 <= i < |xs| ==> xs[i] <= m
  {
    if |xs| == 1 then xs[0]
    else
      var m := MaxOf(xs[..|xs| - 1]);
      assert forall x :: x in xs[..|xs| - 1] ==> x in xs;
      if m < xs[|xs| - 1] then xs[|xs| - 1] else m
  }

  /** `max_score - min_score if max_score != min_score else 1`. */
  function ScoreRange(xs: seq<real>): (r: real)
    requires |xs| > 0
    ensures r > 0.0
  {
    if MaxOf(xs) != MinOf(xs) then MaxOf(xs) - MinOf(xs) else 1.0
  }

  /** `max(0.0, min(1.0, normalized_score))` for a raw score `x`, minimum `lo` and range `range`. */
  function NormalisedScore(x: real, lo: real, range: real): real
  {
    var normalised := if range > 0.0 then (x - lo) / range else 0.5;
    Max(0.0, Min(1.0, normalised))
  }

  /** The `relevance_score` of an internal source with raw score `x` among `xs`. */
  function Relevance(x: real, xs: seq<real>): real
    requires |xs| > 0
  {
    NormalisedScore(x, MinOf(xs), ScoreRange(xs))
  }

  /**
   * Every relevance lies in [0, 1], and since the range is never zero the
   * 0.5 fallback is never taken: the score is always the shifted, rescaled
   * raw score, clamped.
   */
  lemma RelevanceBounds(x: real, xs: seq<real>)
    requires |xs| > 0
    ensures 0.0 <= Relevance(x, xs) <= 1.0
    ensures Relevance(x, xs) == Clamp((x - MinOf(xs)) / ScoreRange(xs), 0.0, 1.0)
  {
    NormalisedClamp(x, MinOf(xs), ScoreRange(xs));
  }

  lemma NormalisedClamp(x: real, lo: real, range: real)
    requires range > 0.0
    ensures NormalisedScore(x, lo, range) == Clamp((x - lo) / range, 0.0, 1.0)
  {
  }

  lemma DivideMonotone(a: real, b: real, r: real)
    requires a <= b && r > 0.0
    ensures a / r <= b / r
  {
    assert b / r - a / r == (b - a) / r;
  }

  lemma DivideUnit(a: real, r: real)
    requires 0.0 <= a <= r && r > 0.0
    ensures 0.0 <= a / r <= 1.0
  {
    DivideMonotone(a, r, r);
    DivideMonotone(0.0, a, r);
  }

  lemma NormalisedEnds(lo: real, hi: real)
    requires lo < hi
    ensures NormalisedScore(lo, lo, hi - lo) == 0.0
    ensures NormalisedScore(hi, lo, hi - lo) == 1.0
  {
    assert (hi - lo) / (hi - lo) == 1.0;
  }

  /** When the raw scores differ, the lowest maps to 0 and the highest to 1. */
  lemma RelevanceExtremes(xs: seq<real>)
    requires |xs| > 0 && MaxOf(xs) != MinOf(xs)
    ensures Relevance(MinOf(xs), xs) == 0.0
    ensures Relevance(MaxOf(xs), xs) == 1.0
  {
    var lo, hi := MinOf(xs), MaxOf(xs);
    assert lo <= xs[0] <= hi;
    assert ScoreRange(xs) == hi - lo;
    NormalisedEnds(lo, hi);
  }

  /** Normalisation keeps the order of the raw scores. */
  lemma RelevanceMonotone(x: real, y: real, xs: seq<real>)
    requires |xs| > 0 && x <= y
    ensures Relevance(x, xs) <= Relevance(y, xs)
  {
    DivideMonotone(x - MinOf(xs), y - MinOf(xs), ScoreRange(xs));
  }

  lemma NormalisedInRange(x: real, lo: real, range: real)
    requires lo <= x <= lo + range && range > 0.0
    ensures NormalisedScore(x, lo, range) == (x - lo) / range
  {
    DivideUnit(x - lo, range);
  }

  /** Every raw score that occurs maps to itself shifted and rescaled, never clamped. */
  lemma RelevanceUnclamped(x: real, xs: seq<real>)
    requires |xs| > 0 && x in xs
    ensures Relevance(x, xs) == (x - MinOf(xs)) / ScoreRange(xs)
  {
    var lo, range := MinOf(xs), ScoreRange(xs);
    assert lo <= x <= lo + range by {
      var i :| 0 <= i < |xs| && xs[i] == x;
      assert lo <= x <= MaxOf(xs);
    }
    NormalisedInRange(x, lo, range);
  }

  /** When every raw score is the same, the range is 1 and every relevance is 0. */
  lemma RelevanceAllEqual(xs: seq<real>, v: real)
    requires |xs| > 0 && forall i :: 0 <= i < |xs| ==> xs[i] == v
    ensures ScoreRange(xs) == 1.0 && Relevance(v, xs) == 0.0
  {
    assert MinOf(xs) == v && MaxOf(xs) == v;
  }

  // ---- Sources ----

  function InternalSource(d: Doc, raws: seq<real>): Source
    requires |raws| > 0
  {
    Source(Internal, FieldText(d.fields, "title", Text("")), Some(FieldText(d.fields, "author", Text(""))),
           Some(FieldText(d.fields, "url", Text(""))), Relevance(RawScore(d), raws),
           Some(FieldText(d.fields, "sentiment", Text(""))))
  }

  /** `result.get('score', 0.8)`, with None and NaN also replaced by 0.8. */
  function WebRelevance(s: WebScore): (r: real)
    ensures s.Score? ==> r == s.r
    ensures !s.Score? ==> r == 0.8
  {
    match s
    case Score(x) => x
    case _ => 0.8
  }

  function WebSource(w: WebResult): Source
  {
    Source(Web, FieldText(w.fields, "title", Text("")), Some(FieldText(w.fields, "author", Cell.Null)),
           Some(FieldText(w.fields, "url", Text(""))), WebRelevance(w.score),
           Some(FieldText(w.fields, "sentiment", Cell.Null)))
  }

  /** The `sources` list: the context documents in order, then the web results in order. */
  function Sources(docs: seq<Doc>, web: seq<WebResult>): seq<Source>
  {
    InternalSources(docs) + WebSources(web)
  }

  /**
   * Internal sources come first, one per context document in order, each with
   * a relevance in [0, 1] that follows the raw score order; the web sources
   * follow in result order.
   */
  lemma SourcesSpec(docs: seq<Doc>, web: seq<WebResult>)
    ensures var s := Sources(docs, web);
      && |s| == |docs| + |web|
      && (forall i :: 0 <= i < |docs| ==> s[i].kind == Internal && 0.0 <= s[i].relevanceScore <= 1.0)
      && (forall i, j :: 0 <= i < |docs| && 0 <= j < |docs| && RawScore(docs[i]) <= RawScore(docs[j]) ==>
            s[i].relevanceScore <= s[j].relevanceScore)
      && (forall i :: 0 <= i < |web| ==> s[|docs| + i] == WebSource(web[i]) && s[|docs| + i].kind == Web)
  {
    SourcesInternalPart(docs, web);
    SourcesWebPart(docs, web);
  }

  lemma SourcesInternalPart(docs: seq<Doc>, web: seq<WebResult>)
    ensures var s := Sources(docs, web);
      && |s| == |docs| + |web|
      && (forall i :: 0 <= i < |docs| ==> s[i].kind == Internal && 0.0 <= s[i].relevanceScore <= 1.0)
      && (forall i, j :: 0 <= i < |docs| && 0 <= j < |docs| && RawScore(docs[i]) <= RawScore(docs[j]) ==>
            s[i].relevanceScore <= s[j].relevanceScore)
  {
    var s := Sources(docs, web);
    if |docs| > 0 {
      var raws := RawScores(docs);
      assert forall i :: 0 <= i < |docs| ==> s[i] == InternalSource(docs[i], raws);
      forall i | 0 <= i < |docs|
        ensures s[i].kind == Internal && 0.0 <= s[i].relevanceScore <= 1.0
      {
        RelevanceBounds(RawScore(docs[i]), raws);
      }
      forall i, j | 0 <= i < |docs| && 0 <= j < |docs| && RawScore(docs[i]) <= RawScore(docs[j])
        ensures s[i].relevanceScore <= s[j].relevanceScore
      {
        RelevanceMonotone(RawScore(docs[i]), RawScore(docs[j]), raws);
      }
    }
  }

  lemma SourcesWebPart(docs: seq<Doc>, web: seq<WebResult>)
    ensures var s := Sources(docs, web);
      |s| == |docs| + |web| && forall i :: 0 <= i < |web| ==> s[|docs| + i] == WebSource(web[i]) && s[|docs| + i].kind == Web
  {
    var s, a, b := Sources(docs, web), InternalSources(docs), WebSources(web);
    assert s == a + b;
    forall i | 0 <= i < |web|
      ensures s[|docs| + i] == WebSource(web[i]) && s[|docs| + i].kind == Web
    {
      assert s[|a| + i] == b[i];
    }
  }

  /**
   * The sources meet the declared `relevance_score` bound of `Source`
   * exactly when every web result's relevance does: internal relevances are
   * clamped, web scores are copied as they come.
   */
  lemma SourcesValid(docs: seq<Doc>, web: seq<WebResult>)
    ensures (forall s :: s in Sources(docs, web) ==> ValidSource(s)) <==>
            (forall i :: 0 <= i < |web| ==> 0.0 <= WebRelevance(web[i].score) <= 1.0)
  {
    var s := Sources(docs, web);
    SourcesSpec(docs, web);
    if forall i :: 0 <= i < |web| ==> 0.0 <= WebRelevance(web[i].score) <= 1.0 {
      forall x | x in s
        ensures ValidSource(x)
      {
        var k :| 0 <= k < |s| && s[k] == x;
        if k >= |docs| {
          assert s[|docs| + (k - |docs|)] == WebSource(web[k - |docs|]);
        }
      }
    }
    if forall x :: x in s ==> ValidSource(x) {
      forall i | 0 <= i < |web|
        ensures 0.0 <= WebRelevance(web[i].score) <= 1.0
      {
        assert s[|docs| + i] in s;
      }
    }
  }

  /**
   * With the reranker disabled and hybrid results that carry neither score,
   * every document is given 0.5, so every internal relevance is 0.
   */
  lemma DisabledRelevanceIsZero(retrieved: seq<Doc>, web: seq<WebResult>)
    requires forall i :: 0 <= i < |retrieved| ==> retrieved[i].score.None? && retrieved[i].rerankScore.None?
    ensures var docs := ContextDocs(false, retrieved, []);
      forall i :: 0 <= i < |docs| ==> Sources(docs, web)[i].relevanceScore == 0.0
  {
    var docs := ContextDocs(false, retrieved, []);
    DisabledContext(retrieved, []);
    if |docs| > 0 {
      var raws := RawScores(docs);
      assert forall i :: 0 <= i < |raws| ==> raws[i] == 0.5;
      RelevanceAllEqual(raws, 0.5);
    }
  }

  function InternalSources(docs: seq<Doc>): (r: seq<Source>)
    ensures |r| == |docs|
  {
    seq(|docs|, i requires 0 <= i < |docs| => InternalSource(docs[i], RawScores(docs)))
  }

  function WebSources(web: seq<WebResult>): (r: seq<Source>)
    ensures |r| == |web|
  {
    seq(|web|, i requires 0 <= i < |web| => WebSource(web[i]))
  }

  /** The first loop: one internal source per context document, scores normalised. */
  method AppendInternalSources(docs: seq<Doc>) returns (sources: seq<Source>)
    ensures sources == InternalSources(docs)
  {
    sources := [];
    if |docs| == 0 {
      return;
    }
    var raws := RawScores(docs);
    var lo, hi := MinOf(raws), MaxOf(raws);
    var range := if hi != lo then hi - lo else 1.0;
    assert lo == MinOf(raws) && range == ScoreRange(raws);
    ghost var all := InternalSources(docs);
    for i := 0 to |docs|
      invariant sources == all[..i]
    {
      var d := docs[i];
      var relevance := NormalisedScore(d.rerankScore.GetOr(0.0), lo, range);
      var source := Source(Internal, FieldText(d.fields, "title", Text("")),
                           Some(FieldText(d.fields, "author", Text(""))),
                           Some(FieldText(d.fields, "url", Text(""))),
                           relevance,
                           Some(FieldText(d.fields, "sentiment", Text(""))));
      assert source == all[i];
      PrefixSnoc(all, i);
      sources := sources + [source];
    }
    assert all[..|docs|] == all;
  }

  /** The second loop: one web source per result, with the 0.8 fallback score. */
  method AppendWebSources(sources: seq<Source>, web: seq<WebResult>) returns (r: seq<Source>)
    ensures r == sources + WebSources(web)
  {
    r := sources;
    for i := 0 to |web|
      invariant r == sources + WebSources(web[..i])
    {
      assert WebSources(web[..i + 1]) == WebSources(web[..i]) + [WebSource(web[i])];
      var w := web[i];
      var score := match w.score case Score(x) => x case _ => 0.8;
      r := r + [Source(Web, SafeString(FieldOr(w.fields, "title", Text("")), ""),
                       Some(SafeString(FieldOr(w.fields, "author", Cell.Null), "")),
                       Some(SafeString(FieldOr(w.fields, "url", Text("")), "")),
                       score,
                       Some(SafeString(FieldOr(w.fields, "sentiment", Cell.Null), "")))];
    }
    assert web[..|web|] == web;
  }

  method BuildSources(docs: seq<Doc>, web: seq<WebResult>) returns (sources: seq<Source>)
    ensures sources == Sources(docs, web)
  {
    var internal := AppendInternalSources(docs);
    sources := AppendWebSources(internal, web);
  }

  // ---- The web-search gate ----

  /** What `evaluate_retrieval_adequacy` returns: a 0-10 score and, perhaps, a verdict. */
  datatype RetrievalEval = RetrievalEval(confidence: real, needsWebSearch: Option<bool>)

  /** `enable_web_search and (needs_web_search or should_trigger_web_search(j / 10, j))`. */
  predicate WebSearchAttempted(c: Config, enableWebSearch: bool, eval: RetrievalEval)
    requires ThresholdsReadable(c)
  {
    enableWebSearch && (eval.needsWebSearch.GetOr(false) || ShouldTriggerWebSearch(c, eval.confidence / 10.0, eval.confidence))
  }

  /**
   * With the shipped thresholds (0.7 and 5) the learned gate fires exactly
   * for a judge score below 7: the confidence test subsumes the judge test.
   */
  lemma GateAtDefaults(c: Config, judgeScore: real)
    requires ThresholdsReadable(c) && ConfidenceThreshold(c) == 0.7 && JudgeThreshold(c) == 5.0
    ensures ShouldTriggerWebSearch(c, judgeScore / 10.0, judgeScore) <==> judgeScore < 7.0
  {
  }

  /** `web_search_triggered`: a search was attempted and returned results. */
  predicate WebSearchTriggered(c: Config, enableWebSearch: bool, eval: RetrievalEval, results: seq<WebResult>)
    requires ThresholdsReadable(c)
  {
    WebSearchAttempted(c, enableWebSearch, eval) && |results| > 0
  }

  // ---- process_query ----

  datatype QueryResult = QueryResult(
    answer: string,
    sources: seq<Source>,
    confidence: real,
    judgeScores: map<string, real>,
    retrievalMethod: string,
    webSearchTriggered: bool)

  /** The `judge_scores` of the result: each dimension of the answer evaluation, 5 when absent. */
  function ReportedScores(answerEval: map<string, real>): (r: map<string, real>)
    ensures r.Keys == {"relevance", "factuality", "completeness"}
    ensures forall k :: k in r ==> r[k] == (if k in answerEval then answerEval[k] else 5.0)
  {
    map["relevance" := ScoreOr(answerEval, "relevance"),
        "factuality" := ScoreOr(answerEval, "factuality"),
        "completeness" := ScoreOr(answerEval, "completeness")]
  }

  /**
   * Steps 2 and 3 of `process_query`: rerank the hybrid results, or keep the
   * first five and fill in their missing rerank scores.
   */
  method SelectContext(enableReranker: bool, retrieved: seq<Doc>, crossScores: seq<real>) returns (docs: seq<Doc>)
    requires enableReranker ==> |crossScores| == |retrieved|
    ensures docs == ContextDocs(enableReranker, retrieved, crossScores)
  {
    if enableReranker {
      var a := new Doc[|retrieved|](i requires 0 <= i < |retrieved| => retrieved[i]);
      assert a[..] == retrieved;
      docs := Rerank(a, crossScores, Some(ContextSize), DefaultTopKRerank);
    } else {
      var top := Take(retrieved, ContextSize);
      var a := new Doc[|top|](i requires 0 <= i < |top| => top[i]);
      assert a[..] == top;
      FillRerankScores(a);
      docs := a[..];
    }
  }

  /**
   * How `process_query` ends: with its result, or with the exception that
   * printing the title of the web result at `index` raises.
   */
  datatype QueryOutcome =
    | Answered(result: QueryResult)
    | TitleKeyError(index: nat)
    | TitleTypeError(index: nat)

  /**
   * `result['title'][:60]` can be evaluated: the key is present and holds a
   * string. A `None` or NaN title, or any other non-string, cannot be sliced.
   */
  predicate WebTitlePrintable(w: WebResult)
  {
    "title" in w.fields && w.fields["title"].Text?
  }

  /** The exception of an unprintable title: KeyError when it is absent, TypeError otherwise. */
  function WebTitleFault(w: WebResult, index: nat): QueryOutcome
  {
    if "title" !in w.fields then TitleKeyError(index) else TitleTypeError(index)
  }

  /** The progress loop over the returned web results: the first title that cannot be printed, if any. */
  method PrintWebTitles(web: seq<WebResult>) returns (fault: Option<QueryOutcome>)
    ensures fault.None? <==> forall i :: 0 <= i < |web| ==> WebTitlePrintable(web[i])
    ensures fault.Some? ==>
      && !fault.value.Answered?
      && 0 <= fault.value.index < |web|
      && !WebTitlePrintable(web[fault.value.index])
      && fault.value == WebTitleFault(web[fault.value.index], fault.value.index)
      && (forall j :: 0 <= j < fault.value.index ==> WebTitlePrintable(web[j]))
  {
    for i := 0 to |web|
      invariant forall j :: 0 <= j < i ==> WebTitlePrintable(web[j])
    {
      if !WebTitlePrintable(web[i]) {
        return Some(WebTitleFault(web[i], i));
      }
    }
    return None;
  }

  /**
   * `RAGService`: whether the reranker is enabled (fixed at start-up) and the
   * service's own optimizer, whose configuration the query path only reads.
   */
  class RAGService {
    const enableReranker: bool
    const optimizer: RLOptimizer

    constructor (enableReranker: bool, storedConfig: StoredConfig, now: nat)
      ensures this.enableReranker == enableReranker
      ensures fresh(optimizer) && fresh(optimizer.config)
      ensures optimizer.config.config == InitialConfig(storedConfig, now)
    {
      this.enableReranker := enableReranker;
      optimizer := new RLOptimizer(storedConfig, now);
    }

    /**
     * `process_query`, from the hybrid results on. `crossScores` are the
     * cross-encoder's scores, `eval` the judge's retrieval verdict,
     * `searchResults` what the web search returns if it is attempted,
     * `answer` the generated answer and `answerEval` the judge's scores for it.
     */
    method ProcessQuery(enableWebSearch: bool, retrieved: seq<Doc>, crossScores: seq<real>, eval: RetrievalEval,
                        searchResults: seq<WebResult>, answer: string, answerEval: map<string, real>)
      returns (r: QueryOutcome)
      requires ThresholdsReadable(optimizer.config.config)
      requires WeightsReadable(optimizer.config.config, ConfidenceWeightsKey, ConfidenceWeightNames)
      requires WeightsReadable(optimizer.config.config, JudgeWeightsKey, Metrics)
      requires enableReranker ==> |crossScores| == |retrieved|
      ensures var triggered := WebSearchTriggered(optimizer.config.config, enableWebSearch, eval, searchResults);
        r.Answered? <==> !triggered || forall i :: 0 <= i < |searchResults| ==> WebTitlePrintable(searchResults[i])
      ensures !r.Answered? ==>
        && WebSearchTriggered(optimizer.config.config, enableWebSearch, eval, searchResults)
        && 0 <= r.index < |searchResults|
        && !WebTitlePrintable(searchResults[r.index])
        && r == WebTitleFault(searchResults[r.index], r.index)
        && (forall j :: 0 <= j < r.index ==> WebTitlePrintable(searchResults[j]))
      ensures r.Answered? ==>
        var c, q := optimizer.config.config, r.result;
        && (q.webSearchTriggered <==> WebSearchTriggered(c, enableWebSearch, eval, searchResults))
        && q.sources == Sources(ContextDocs(enableReranker, retrieved, crossScores),
                                if q.webSearchTriggered then searchResults else [])
        && q.confidence == WeightedConfidence(c, eval.confidence, WeightedJudgeScore(c, answerEval))
        && 0.0 <= q.confidence <= 1.0
        && q.judgeScores == ReportedScores(answerEval)
        && q.answer == answer
        && q.retrievalMethod == "hybrid_search_with_reranking"
    {
      ghost var c := optimizer.config.config;
      var docs := SelectContext(enableReranker, retrieved, crossScores);
      var judgeScore := eval.confidence;
      var shouldSearch := optimizer.ShouldTriggerWebSearch(judgeScore / 10.0, judgeScore);
      var triggered := false;
      var web: seq<WebResult> := [];
      if enableWebSearch && (eval.needsWebSearch.GetOr(false) || shouldSearch) {
        if |searchResults| > 0 {
          var fault := PrintWebTitles(searchResults);
          if fault.Some? {
            return fault.value;
          }
          web := searchResults;
          triggered := true;
        }
      }
      assert triggered <==> WebSearchTriggered(c, enableWebSearch, eval, searchResults);
      var result := Respond(docs, web, triggered, eval.confidence, answer, answerEval);
      r := Answered(result);
    }

    /** Step 6 of `process_query`: the sources, the blended confidence and the reported scores. */
    method Respond(docs: seq<Doc>, web: seq<WebResult>, triggered: bool, retrievalScore: real,
                   answer: string, answerEval: map<string, real>)
      returns (q: QueryResult)
      requires WeightsReadable(optimizer.config.config, ConfidenceWeightsKey, ConfidenceWeightNames)
      requires WeightsReadable(optimizer.config.config, JudgeWeightsKey, Metrics)
      ensures var c := optimizer.config.config;
        && q.webSearchTriggered == triggered
        && q.sources == Sources(docs, web)
        && q.confidence == WeightedConfidence(c, retrievalScore, WeightedJudgeScore(c, answerEval))
        && 0.0 <= q.confidence <= 1.0
        && q.judgeScores == ReportedScores(answerEval)
        && q.answer == answer
        && q.retrievalMethod == "hybrid_search_with_reranking"
    {
      var sources := BuildSources(docs, web);
      var overall := optimizer.CalculateWeightedJudgeScore(answerEval);
      var confidence := optimizer.CalculateWeightedConfidence(retrievalScore, overall);
      q := QueryResult(answer, sources, confidence, ReportedScores(answerEval),
                       "hybrid_search_with_reranking", triggered);
    }
  }
}
