/**
 * Reciprocal Rank Fusion of a semantic and a keyword result list, and the
 * top-k document assembly of `hybrid_search`. The two engines (FAISS, BM25)
 * are not modelled: their ranked lists are inputs.
 */
module HybridSearch {
  import opened Wrappers
  import opened PyLib
  import opened StableSorting
  import opened Documents

  /** One engine's results, best first: `(doc_id, engine score)`; the engine score is ignored by fusion. */
  type Ranked = seq<(int, real)>

  /** The fusion constant that `hybrid_search` leaves at its default. */
  const DefaultK: nat := 60

  function Ids(l: Ranked): (ids: seq<int>)
    ensures |ids| == |l|
  {
    seq(|l|, i requires 0 <= i < |l| => l[i].0)
  }

  /** `1 / (k + rank)` for a 1-based rank. */
  function RankWeight(k: nat, rank: nat): real
    requires rank >= 1
  {
    1.0 / ((k + rank) as real)
  }

  /** What list `l` adds to `d`'s fused score: `1 / (k + rank)` at every 1-based rank where `d` occurs. */
  function Contribution(l: Ranked, d: int, k: nat): real
  {
    if |l| == 0 then 0.0
    else Contribution(l[..|l| - 1], d, k) + (if l[|l| - 1].0 == d then RankWeight(k, |l|) else 0.0)
  }

  function FusedScore(a: Ranked, b: Ranked, d: int, k: nat): real
  {
    Contribution(a, d, k) + Contribution(b, d, k)
  }

  /** The distinct items of `s` in order of first appearance: the key order of a Python dict filled from `s`. */
  function FirstOccurrences(s: seq<int>): seq<int>
  {
    if |s| == 0 then []
    else
      var p := FirstOccurrences(s[..|s| - 1]);
      if s[|s| - 1] in p then p else p + [s[|s| - 1]]
  }

  /** `rrf_scores.items()` once both lists are accumulated. */
  function FusedEntries(a: Ranked, b: Ranked, k: nat): seq<(int, real)>
  {
    var ids := FirstOccurrences(Ids(a) + Ids(b));
    seq(|ids|, j requires 0 <= j < |ids| => (ids[j], FusedScore(a, b, ids[j], k)))
  }

  function EntryScore(e: (int, real)): real { e.1 }

  /** The fused ranking: the entries sorted by score, descending, stable over dict order. */
  function Fused(a: Ranked, b: Ranked, k: nat): seq<(int, real)>
  {
    SortDesc(FusedEntries(a, b, k), EntryScore)
  }

  ghost predicate Distinct<T>(s: seq<T>)
  {
    forall i, j :: 0 <= i < j < |s| ==> s[i] != s[j]
  }

  lemma {:induction false} FirstOccurrencesSpec(s: seq<int>)
    ensures forall x :: x in FirstOccurrences(s) <==> x in s
    ensures Distinct(FirstOccurrences(s))
  {
    if |s| > 0 {
      FirstOccurrencesSpec(s[..|s| - 1]);
      assert s == s[..|s| - 1] + [s[|s| - 1]];
    }
  }

  lemma {:induction false} ContributionAbsent(l: Ranked, d: int, k: nat)
    requires d !in Ids(l)
    ensures Contribution(l, d, k) == 0.0
  {
    if |l| > 0 {
      assert Ids(l[..|l| - 1]) == Ids(l)[..|l| - 1];
      assert Ids(l)[|l| - 1] == l[|l| - 1].0;
      ContributionAbsent(l[..|l| - 1], d, k);
    }
  }

  lemma ContributionStep(l: Ranked, i: nat, d: int, k: nat)
    requires i < |l|
    ensures Contribution(l[..i + 1], d, k) ==
            Contribution(l[..i], d, k) + (if l[i].0 == d then 1.0 / ((k + i + 1) as real) else 0.0)
  {
    assert l[..i + 1][..i] == l[..i];
  }

  /** The accumulator after `l1` and then `l2` were added: dict order and score of every key. */
  ghost predicate Tracks(scores: map<int, real>, order: seq<int>, l1: Ranked, l2: Ranked, k: nat)
  {
    && order == FirstOccurrences(Ids(l1) + Ids(l2))
    && (forall d :: d in scores <==> d in order)
    && (forall d :: d in scores ==> scores[d] == Contribution(l1, d, k) + Contribution(l2, d, k))
  }

  /** `rrf_scores[d] = rrf_scores.get(d, 0) + w`. */
  function Bump(scores: map<int, real>, d: int, w: real): map<int, real>
  {
    scores[d := (if d in scores then scores[d] else 0.0) + w]
  }

  /** The dict's key order after that assignment: a new key goes last. */
  function KeyOrder(order: seq<int>, scores: map<int, real>, d: int): seq<int>
  {
    if d in scores then order else order + [d]
  }

  /** `rrf_scores.items()`, in dict order. */
  function Items(scores: map<int, real>, order: seq<int>): seq<(int, real)>
    requires forall j :: 0 <= j < |order| ==> order[j] in scores
  {
    seq(|order|, j requires 0 <= j < |order| => (order[j], scores[order[j]]))
  }

  lemma IdsAppend(l: Ranked, e: (int, real))
    ensures Ids(l + [e]) == Ids(l) + [e.0]
  {
  }

  lemma AccumulateOrder(scores: map<int, real>, order: seq<int>, s: seq<int>, x: int)
    requires order == FirstOccurrences(s)
    requires forall d :: d in scores <==> d in order
    ensures KeyOrder(order, scores, x) == FirstOccurrences(s + [x])
  {
    assert (s + [x])[..|s + [x]| - 1] == s;
  }

  lemma AccumulateScore(scores: map<int, real>, l1: Ranked, l2: Ranked, e: (int, real), k: nat, d: int)
    requires d in scores ==> scores[d] == Contribution(l1, d, k) + Contribution(l2, d, k)
    requires d !in scores ==> Contribution(l1, d, k) == 0.0 && Contribution(l2, d, k) == 0.0
    requires d in Bump(scores, e.0, RankWeight(k, |l2| + 1))
    ensures Bump(scores, e.0, RankWeight(k, |l2| + 1))[d] == Contribution(l1, d, k) + Contribution(l2 + [e], d, k)
  {
    assert (l2 + [e])[..|l2|] == l2;
  }

  /** One accumulation step, at 1-based rank `|l2| + 1`, keeps `Tracks`. */
  lemma AccumulateStep(scores: map<int, real>, order: seq<int>, l1: Ranked, l2: Ranked, e: (int, real), k: nat)
    requires Tracks(scores, order, l1, l2, k)
    ensures Tracks(Bump(scores, e.0, RankWeight(k, |l2| + 1)), KeyOrder(order, scores, e.0), l1, l2 + [e], k)
  {
    var scores' := Bump(scores, e.0, RankWeight(k, |l2| + 1));
    var order' := KeyOrder(order, scores, e.0);
    IdsAppend(l2, e);
    assert Ids(l1) + Ids(l2 + [e]) == (Ids(l1) + Ids(l2)) + [e.0];
    AccumulateOrder(scores, order, Ids(l1) + Ids(l2), e.0);
    FirstOccurrencesSpec(Ids(l1) + Ids(l2));
    forall d | d in scores'
      ensures scores'[d] == Contribution(l1, d, k) + Contribution(l2 + [e], d, k)
    {
      if d !in scores {
        assert d !in Ids(l1) + Ids(l2);
        assert d !in Ids(l1) && d !in Ids(l2);
        ContributionAbsent(l1, d, k);
        ContributionAbsent(l2, d, k);
      }
      AccumulateScore(scores, l1, l2, e, k, d);
    }
  }

  lemma TracksSwap(scores: map<int, real>, order: seq<int>, l: Ranked, k: nat)
    requires Tracks(scores, order, [], l, k)
    ensures Tracks(scores, order, l, [], k)
  {
    assert Ids([]) + Ids(l) == Ids(l) + Ids([]);
  }

  lemma TracksEntries(scores: map<int, real>, order: seq<int>, a: Ranked, b: Ranked, k: nat)
    requires Tracks(scores, order, a, b, k)
    ensures forall j :: 0 <= j < |order| ==> order[j] in scores
    ensures Items(scores, order) == FusedEntries(a, b, k)
  {
    assert forall d :: d in scores <==> d in order;
    forall j | 0 <= j < |order| ensures order[j] in scores {
      assert order[j] in order;
    }
  }

  method ReciprocalRankFusion(semantic: Ranked, keyword: Ranked, k: nat) returns (fused: seq<(int, real)>)
    ensures fused == Fused(semantic, keyword, k)
  {
    var scores: map<int, real> := map[];
    var order: seq<int> := [];
    for i := 0 to |semantic|
      invariant Tracks(scores, order, [], semantic[..i], k)
    {
      AccumulateStep(scores, order, [], semantic[..i], semantic[i], k);
      PrefixSnoc(semantic, i);
      var docId := semantic[i].0;
      order := KeyOrder(order, scores, docId);
      scores := Bump(scores, docId, RankWeight(k, i + 1));
    }
    assert semantic[..|semantic|] == semantic;
    TracksSwap(scores, order, semantic, k);
    for j := 0 to |keyword|
      invariant Tracks(scores, order, semantic, keyword[..j], k)
    {
      AccumulateStep(scores, order, semantic, keyword[..j], keyword[j], k);
      PrefixSnoc(keyword, j);
      var docId := keyword[j].0;
      order := KeyOrder(order, scores, docId);
      scores := Bump(scores, docId, RankWeight(k, j + 1));
    }
    assert keyword[..|keyword|] == keyword;
    TracksEntries(scores, order, semantic, keyword, k);
    fused := SortDesc(Items(scores, order), EntryScore);
  }

  // ---- Distinct sequences and multisets ----

  lemma {:induction false} DistinctCount<T>(s: seq<T>, x: T)
    requires Distinct(s)
    ensures multiset(s)[x] == (if x in s then 1 else 0)
  {
    if |s| > 0 {
      var init := s[..|s| - 1];
      assert s == init + [s[|s| - 1]];
      DistinctCount(init, x);
    }
  }

  lemma DuplicateCount<T>(t: seq<T>, i: nat, j: nat)
    requires i < j < |t| && t[i] == t[j]
    ensures multiset(t)[t[i]] >= 2
  {
    assert t == t[..j] + [t[j]] + t[j + 1..];
    assert t[i] in t[..j];
  }

  lemma DistinctPermutation<T>(s: seq<T>, t: seq<T>)
    requires Distinct(s) && multiset(s) == multiset(t)
    ensures Distinct(t)
  {
    forall i, j | 0 <= i < j < |t| ensures t[i] != t[j] {
      if t[i] == t[j] {
        DuplicateCount(t, i, j);
        DistinctCount(s, t[i]);
      }
    }
  }

  lemma DistinctSameMembers<T>(s: seq<T>, t: seq<T>)
    requires Distinct(s) && Distinct(t)
    requires forall x :: x in s <==> x in t
    ensures multiset(s) == multiset(t)
  {
    forall x ensures multiset(s)[x] == multiset(t)[x] {
      DistinctCount(s, x);
      DistinctCount(t, x);
    }
  }

  // ---- Properties of the fused ranking ----

  lemma FusedEntriesSpec(a: Ranked, b: Ranked, k: nat)
    ensures Distinct(FusedEntries(a, b, k))
    ensures forall e :: e in FusedEntries(a, b, k) <==> e.0 in Ids(a) + Ids(b) && e.1 == FusedScore(a, b, e.0, k)
  {
    var ids := FirstOccurrences(Ids(a) + Ids(b));
    var es := FusedEntries(a, b, k);
    FirstOccurrencesSpec(Ids(a) + Ids(b));
    forall e ensures e in es <==> e.0 in Ids(a) + Ids(b) && e.1 == FusedScore(a, b, e.0, k) {
      if e.0 in Ids(a) + Ids(b) && e.1 == FusedScore(a, b, e.0, k) {
        var j :| 0 <= j < |ids| && ids[j] == e.0;
        assert es[j] == e;
      }
    }
  }

  /**
   * The fused ranking holds every doc_id of either list exactly once, with its
   * fused score, and is sorted by that score, best first.
   */
  lemma FusedSpec(a: Ranked, b: Ranked, k: nat)
    ensures forall e :: e in Fused(a, b, k) <==> e.0 in Ids(a) + Ids(b) && e.1 == FusedScore(a, b, e.0, k)
    ensures forall i, j :: 0 <= i < j < |Fused(a, b, k)| ==> Fused(a, b, k)[i].0 != Fused(a, b, k)[j].0
    ensures SortedDesc(Fused(a, b, k), EntryScore)
    ensures |Fused(a, b, k)| == |FirstOccurrences(Ids(a) + Ids(b))|
  {
    var es := FusedEntries(a, b, k);
    var out := Fused(a, b, k);
    FusedEntriesSpec(a, b, k);
    SortDescSpec(es, EntryScore);
    SortDescMembers(es, EntryScore);
    DistinctPermutation(es, out);
    forall i, j | 0 <= i < j < |out| ensures out[i].0 != out[j].0 {
      assert out[i] in out && out[j] in out;
    }
  }

  /**
   * Swapping the two lists changes no fused score and yields the same entries;
   * only the order among equal scores may differ.
   */
  lemma FusedSymmetric(a: Ranked, b: Ranked, k: nat)
    ensures forall d :: FusedScore(a, b, d, k) == FusedScore(b, a, d, k)
    ensures multiset(Fused(a, b, k)) == multiset(Fused(b, a, k))
  {
    var ab, ba := FusedEntries(a, b, k), FusedEntries(b, a, k);
    FusedEntriesSpec(a, b, k);
    FusedEntriesSpec(b, a, k);
    forall e ensures e in ab <==> e in ba {
      assert e.0 in Ids(a) + Ids(b) <==> e.0 in Ids(b) + Ids(a);
      assert FusedScore(a, b, e.0, k) == FusedScore(b, a, e.0, k);
    }
    DistinctSameMembers(ab, ba);
    SortDescPermutes(ab, EntryScore);
    SortDescPermutes(ba, EntryScore);
  }

  lemma RankWeightBounds(k: nat, rank: nat)
    requires rank >= 1
    ensures 0.0 < RankWeight(k, rank) <= RankWeight(k, 1)
  {
    var x := (k + rank) as real;
    var y := (k + 1) as real;
    var p := RankWeight(k, rank);
    var q := RankWeight(k, 1);
    assert p * x == 1.0 && q * y == 1.0;
    assert 0.0 < p;
    assert y <= x;
    assert p * (x - y) >= 0.0;
    assert (q - p) * y == p * (x - y);
  }

  lemma {:induction false} ContributionBounds(l: Ranked, d: int, k: nat)
    ensures 0.0 <= Contribution(l, d, k)
    ensures d in Ids(l) ==> 0.0 < Contribution(l, d, k)
    ensures Distinct(Ids(l)) ==> Contribution(l, d, k) <= RankWeight(k, 1)
  {
    if |l| > 0 {
      var init := l[..|l| - 1];
      ContributionBounds(init, d, k);
      RankWeightBounds(k, |l|);
      assert Ids(l) == Ids(init) + [l[|l| - 1].0];
      if Distinct(Ids(l)) {
        assert Distinct(Ids(init)) by {
          forall i, j | 0 <= i < j < |init| ensures Ids(init)[i] != Ids(init)[j] {
            assert Ids(init)[i] == Ids(l)[i] && Ids(init)[j] == Ids(l)[j];
          }
        }
        if l[|l| - 1].0 == d {
          assert d !in Ids(init) by {
            assert Ids(l)[|l| - 1] == d;
            forall i | 0 <= i < |init| ensures Ids(init)[i] != d {
              assert Ids(init)[i] == Ids(l)[i];
            }
          }
          ContributionAbsent(init, d, k);
        }
      }
    }
  }

  /** With no id repeated inside a list, every fused score of a listed id lies in (0, 2/(k+1)]. */
  lemma FusedScoreBounds(a: Ranked, b: Ranked, d: int, k: nat)
    requires d in Ids(a) + Ids(b)
    requires Distinct(Ids(a)) && Distinct(Ids(b))
    ensures 0.0 < FusedScore(a, b, d, k) <= 2.0 / ((k + 1) as real)
  {
    ContributionBounds(a, d, k);
    ContributionBounds(b, d, k);
    assert 2.0 / ((k + 1) as real) == RankWeight(k, 1) + RankWeight(k, 1);
  }

  // ---- hybrid_search: top-k and document copies ----

  /** Python `xs[i]` on a list of length `n`: the position read, or None for IndexError. */
  function PyIndex(n: nat, i: int): (p: Option<nat>)
    ensures p.Some? <==> -(n as int) <= i < n
    ensures p.Some? ==> p.value < n
    ensures p.Some? && 0 <= i ==> p.value == i
    ensures p.Some? && i < 0 ==> p.value == n + i
  {
    if 0 <= i < n then Some(i) else if -(n as int) <= i < 0 then Some(n + i) else None
  }

  /** `doc = self.documents[doc_id].copy()` with `rrf_score` and `doc_id` added. */
  function Annotated(d: Doc, e: (int, real)): Doc
  {
    d.(rrfScore := Some(e.1), docId := Some(e.0))
  }

  datatype Retrieval = Retrieved(docs: seq<Doc>) | IndexError(docId: int) | KeyError(docId: int)

  /** `self.documents[doc_id]['title']` can be read: the id indexes the list and the dict has a title. */
  predicate TitleReadable(documents: seq<Doc>, id: int)
  {
    PyIndex(|documents|, id).Some? && "title" in documents[PyIndex(|documents|, id).value].fields
  }

  /** The exception reading the title of `id` raises: a bad index first, then a missing key. */
  function TitleFault(documents: seq<Doc>, id: int): Retrieval
  {
    if PyIndex(|documents|, id).None? then IndexError(id) else KeyError(id)
  }

  /**
   * The titles the progress lines print for the head of a ranking, read in
   * order: None when every read succeeds, else the first read's exception.
   */
  function FirstTitleFault(documents: seq<Doc>, ids: seq<int>): (r: Option<Retrieval>)
    ensures r.None? <==> forall i :: 0 <= i < |ids| ==> TitleReadable(documents, ids[i])
    ensures r.Some? ==>
      exists i ::
        && 0 <= i < |ids|
        && !TitleReadable(documents, ids[i])
        && r.value == TitleFault(documents, ids[i])
        && (forall j :: 0 <= j < i ==> TitleReadable(documents, ids[j]))
  {
    if |ids| == 0 then None
    else if !TitleReadable(documents, ids[0]) then Some(TitleFault(documents, ids[0]))
    else
      var rest := FirstTitleFault(documents, ids[1..]);
      assert rest.Some? ==>
        exists i ::
          && 0 <= i < |ids|
          && !TitleReadable(documents, ids[i])
          && rest.value == TitleFault(documents, ids[i])
          && (forall j :: 0 <= j < i ==> TitleReadable(documents, ids[j]))
      by {
        if rest.Some? {
          var i :| && 0 <= i < |ids| - 1 && !TitleReadable(documents, ids[1..][i])
            && rest.value == TitleFault(documents, ids[1..][i])
            && (forall j :: 0 <= j < i ==> TitleReadable(documents, ids[1..][j]));
          assert forall j :: 1 <= j < i + 1 ==> ids[j] == ids[1..][j - 1];
        }
      }
      rest
  }

  /** The retrieval loop: copy the stored document of each kept id, with its fusion data. */
  method FetchDocs(documents: seq<Doc>, top: Ranked) returns (r: Retrieval)
    ensures !r.KeyError?
    ensures r.Retrieved? <==> forall i :: 0 <= i < |top| ==> PyIndex(|documents|, top[i].0).Some?
    ensures r.Retrieved? ==>
      && |r.docs| == |top|
      && (forall i :: 0 <= i < |top| ==>
            r.docs[i] == Annotated(documents[PyIndex(|documents|, top[i].0).value], top[i]))
    ensures r.IndexError? ==>
      exists i ::
        && 0 <= i < |top|
        && top[i].0 == r.docId
        && PyIndex(|documents|, top[i].0).None?
        && (forall j :: 0 <= j < i ==> PyIndex(|documents|, top[j].0).Some?)
  {
    var retrieved: seq<Doc> := [];
    for i := 0 to |top|
      invariant |retrieved| == i
      invariant forall j :: 0 <= j < i ==> PyIndex(|documents|, top[j].0).Some?
      invariant forall j :: 0 <= j < i ==>
        retrieved[j] == Annotated(documents[PyIndex(|documents|, top[j].0).value], top[j])
    {
      var position := PyIndex(|documents|, top[i].0);
      if position.None? {
        return IndexError(top[i].0);
      }
      retrieved := retrieved + [Annotated(documents[position.value], top[i])];
    }
    return Retrieved(retrieved);
  }

  /**
   * `hybrid_search` after the two engine searches: print the titles of the
   * first three ids of each ranking, fuse, keep the first `topK` entries,
   * and copy each stored document with its fusion data.
   */
  method HybridSearch(documents: seq<Doc>, semantic: Ranked, keyword: Ranked, topK: int) returns (r: Retrieval)
    ensures var probe := FirstTitleFault(documents, Ids(Take(semantic, 3)) + Ids(Take(keyword, 3)));
      probe.Some? ==> r == probe.value
    ensures var probe := FirstTitleFault(documents, Ids(Take(semantic, 3)) + Ids(Take(keyword, 3)));
      var top := Take(Fused(semantic, keyword, DefaultK), topK);
      probe.None? ==>
        && !r.KeyError?
        && (r.Retrieved? <==> forall i :: 0 <= i < |top| ==> PyIndex(|documents|, top[i].0).Some?)
        && (r.Retrieved? ==>
              && |r.docs| == |top|
              && (forall i :: 0 <= i < |top| ==>
                    r.docs[i] == Annotated(documents[PyIndex(|documents|, top[i].0).value], top[i])))
        && (r.IndexError? ==>
              exists i ::
                && 0 <= i < |top|
                && top[i].0 == r.docId
                && PyIndex(|documents|, top[i].0).None?
                && (forall j :: 0 <= j < i ==> PyIndex(|documents|, top[j].0).Some?))
  {
    var probe := FirstTitleFault(documents, Ids(Take(semantic, 3)) + Ids(Take(keyword, 3)));
    if probe.Some? {
      return probe.value;
    }
    var fused := ReciprocalRankFusion(semantic, keyword, DefaultK);
    r := FetchDocs(documents, Take(fused, topK));
  }
}
