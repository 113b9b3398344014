/**
 * The ordering part of the cross-encoder reranker: every document gets its
 * score written in place, then the documents are stably sorted by that score,
 * best first, and cut to `top_k`. The cross-encoder itself is not modelled:
 * its scores are an input, one per document.
 */
module Reranker {
  import opened Wrappers
  import opened PyLib
  import opened StableSorting
  import opened Documents

  /** `TOP_K_RERANK` when the environment does not set it. */
  const DefaultTopKRerank: int := 5

  /** `x['rerank_score']`, the sort key; every document carries one once it has been scored. */
  function RerankKey(d: Doc): real
  {
    d.rerankScore.GetOr(0.0)
  }

  /** `doc['rerank_score'] = float(score)`. */
  function WithScore(d: Doc, score: real): Doc
  {
    d.(rerankScore := Some(score))
  }

  function Scored(docs: seq<Doc>, scores: seq<real>): (r: seq<Doc>)
    requires |docs| == |scores|
    ensures |r| == |docs|
  {
    seq(|docs|, i requires 0 <= i < |docs| => WithScore(docs[i], scores[i]))
  }

  /** The `top_k` argument, or the configured default when it is None. */
  function EffectiveTopK(topK: Option<int>, configured: int): int
  {
    match topK
    case None => configured
    case Some(k) => k
  }

  /** What `rerank` returns for documents `docs` whose cross-encoder scores are `scores`. */
  function Reranked(docs: seq<Doc>, scores: seq<real>, topK: int): seq<Doc>
    requires |docs| == |scores|
  {
    if |docs| == 0 then [] else Take(SortDesc(Scored(docs, scores), RerankKey), topK)
  }

  /**
   * `rerank`: writes each score into its document in place, and returns the
   * `top_k` best documents, best first.
   */
  method Rerank(documents: array<Doc>, scores: seq<real>, topK: Option<int>, topKRerank: int) returns (r: seq<Doc>)
    requires |scores| == documents.Length
    modifies documents
    ensures documents[..] == Scored(old(documents[..]), scores)
    ensures r == Reranked(old(documents[..]), scores, EffectiveTopK(topK, topKRerank))
  {
    var k := EffectiveTopK(topK, topKRerank);
    if documents.Length == 0 {
      return [];
    }
    ghost var original := documents[..];
    for i := 0 to documents.Length
      invariant forall j :: 0 <= j < i ==> documents[j] == WithScore(original[j], scores[j])
      invariant forall j :: i <= j < documents.Length ==> documents[j] == original[j]
    {
      documents[i] := WithScore(documents[i], scores[i]);
    }
    assert documents[..] == Scored(original, scores);
    r := Take(SortDesc(documents[..], RerankKey), k);
  }

  ghost predicate IsPrefix<T>(a: seq<T>, b: seq<T>)
  {
    |a| <= |b| && a == b[..|a|]
  }

  /**
   * The result of `rerank` is the first `min(top_k, n)` documents of the
   * stable descending sort of the scored input (Python slice semantics for a
   * negative `top_k`), and is empty for an empty input.
   */
  lemma RerankedShape(docs: seq<Doc>, scores: seq<real>, topK: int)
    requires |docs| == |scores|
    ensures |docs| == 0 ==> Reranked(docs, scores, topK) == []
    ensures 0 <= topK ==> |Reranked(docs, scores, topK)| == (if topK < |docs| then topK else |docs|)
    ensures IsPrefix(Reranked(docs, scores, topK), SortDesc(Scored(docs, scores), RerankKey))
  {
    SortDescPermutes(Scored(docs, scores), RerankKey);
  }

  /** Sorted best first; every result is an input document carrying its own score. */
  lemma RerankedSortedMembers(docs: seq<Doc>, scores: seq<real>, topK: int)
    requires |docs| == |scores|
    ensures SortedDesc(Reranked(docs, scores, topK), RerankKey)
    ensures forall x :: x in Reranked(docs, scores, topK) ==>
      exists i :: 0 <= i < |docs| && x == WithScore(docs[i], scores[i])
  {
    var scored := Scored(docs, scores);
    var sorted := SortDesc(scored, RerankKey);
    var r := Reranked(docs, scores, topK);
    SortDescSorted(scored, RerankKey);
    SortDescMembers(scored, RerankKey);
    forall x | x in r ensures exists i :: 0 <= i < |docs| && x == WithScore(docs[i], scores[i]) {
      assert x in sorted;
    }
  }

  /** No document left out of the result scores higher than one kept. */
  lemma RerankedKeepsBest(docs: seq<Doc>, scores: seq<real>, topK: int)
    requires |docs| == |scores|
    ensures var r := Reranked(docs, scores, topK);
      forall x, y :: x in r && y in Scored(docs, scores) && y !in r ==> RerankKey(x) >= RerankKey(y)
  {
    var scored := Scored(docs, scores);
    var sorted := SortDesc(scored, RerankKey);
    var r := Reranked(docs, scores, topK);
    SortDescSorted(scored, RerankKey);
    SortDescMembers(scored, RerankKey);
    if |docs| > 0 {
      forall x, y | x in r && y in scored && y !in r ensures RerankKey(x) >= RerankKey(y) {
        var i :| 0 <= i < |r| && r[i] == x;
        var j :| 0 <= j < |sorted| && sorted[j] == y;
        assert sorted[i] == x;
      }
    }
  }

  /** Among equal scores the result keeps input order: it starts every tie group of the input. */
  lemma RerankedStable(docs: seq<Doc>, scores: seq<real>, topK: int, v: real)
    requires |docs| == |scores|
    ensures IsPrefix(WithKey(Reranked(docs, scores, topK), RerankKey, v), WithKey(Scored(docs, scores), RerankKey, v))
  {
    var scored := Scored(docs, scores);
    var sorted := SortDesc(scored, RerankKey);
    var r := Reranked(docs, scores, topK);
    if |docs| > 0 {
      SortDescStable(scored, RerankKey, v);
      assert sorted == r + sorted[|r|..];
      WithKeyOfAppend(r, sorted[|r|..], RerankKey, v);
    }
  }

  /** `[doc for doc in reranked if doc['rerank_score'] >= threshold]`. */
  function AboveThreshold(reranked: seq<Doc>, threshold: real): seq<Doc>
  {
    Filter(reranked, d => RerankKey(d) >= threshold)
  }

  /**
   * The thresholded result keeps exactly the reranked documents scoring at
   * least the threshold, in their reranked order.
   */
  lemma AboveThresholdSpec(reranked: seq<Doc>, threshold: real)
    ensures forall d :: d in AboveThreshold(reranked, threshold) <==> d in reranked && RerankKey(d) >= threshold
    ensures IsSubsequence(AboveThreshold(reranked, threshold), reranked)
  {
    FilterMembers(reranked, d => RerankKey(d) >= threshold);
    FilterIsSubsequence(reranked, d => RerankKey(d) >= threshold);
  }

  /** `rerank_with_threshold`: rerank, then drop what scores below `threshold`. */
  method RerankWithThreshold(documents: array<Doc>, scores: seq<real>, threshold: real, topK: Option<int>, topKRerank: int)
    returns (r: seq<Doc>)
    requires |scores| == documents.Length
    modifies documents
    ensures documents[..] == Scored(old(documents[..]), scores)
    ensures r == AboveThreshold(Reranked(old(documents[..]), scores, EffectiveTopK(topK, topKRerank)), threshold)
  {
    var reranked := Rerank(documents, scores, topK, topKRerank);
    r := AboveThreshold(reranked, threshold);
  }
}
