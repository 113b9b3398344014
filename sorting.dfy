/**
 * Python's `sorted(xs, key=k, reverse=True)` and `xs.sort(key=k, reverse=True)`:
 * a stable sort into non-increasing key order. The source sorts fused
 * retrieval results, reranked documents and failed queries this way.
 */
module StableSorting {

  ghost predicate SortedDesc<T>(s: seq<T>, key: T -> real)
  {
    forall i, j :: 0 <= i < j < |s| ==> key(s[i]) >= key(s[j])
  }

  /** The items of `s` whose key is exactly `v`, in their order in `s`. */
  function WithKey<T>(s: seq<T>, key: T -> real, v: real): seq<T>
  {
    if |s| == 0 then []
    else WithKey(s[..|s| - 1], key, v) + (if key(s[|s| - 1]) == v then [s[|s| - 1]] else [])
  }

  lemma {:induction false} WithKeyOfAppend<T>(s: seq<T>, t: seq<T>, key: T -> real, v: real)
    ensures WithKey(s + t, key, v) == WithKey(s, key, v) + WithKey(t, key, v)
    decreases |t|
  {
    if |t| == 0 {
      assert s + t == s;
    } else {
      assert (s + t)[..|s + t| - 1] == s + t[..|t| - 1];
      WithKeyOfAppend(s, t[..|t| - 1], key, v);
    }
  }

  /** One step of a stable insertion sort: `x` goes after every item whose key is at least its own. */
  function Insert<T>(s: seq<T>, x: T, key: T -> real): (r: seq<T>)
    ensures |r| == |s| + 1
  {
    if |s| == 0 || key(s[|s| - 1]) >= key(x) then s + [x]
    else Insert(s[..|s| - 1], x, key) + [s[|s| - 1]]
  }

  /** Stable descending sort: each item in turn is inserted into the sorted prefix before it. */
  function SortDesc<T>(s: seq<T>, key: T -> real): seq<T>
  {
    if |s| == 0 then [] else Insert(SortDesc(s[..|s| - 1], key), s[|s| - 1], key)
  }

  lemma {:induction false} InsertPermutes<T>(s: seq<T>, x: T, key: T -> real)
    ensures multiset(Insert(s, x, key)) == multiset(s) + multiset{x}
  {
    if |s| == 0 || key(s[|s| - 1]) >= key(x) {
    } else {
      var init, last := s[..|s| - 1], s[|s| - 1];
      InsertPermutes(init, x, key);
      assert s == init + [last];
    }
  }

  /** Inserting an item whose key is at least `b` keeps every key at least `b`. */
  lemma {:induction false} InsertLowerBound<T>(s: seq<T>, x: T, key: T -> real, b: real)
    requires forall i :: 0 <= i < |s| ==> key(s[i]) >= b
    requires key(x) >= b
    ensures forall i :: 0 <= i < |Insert(s, x, key)| ==> key(Insert(s, x, key)[i]) >= b
  {
    if |s| > 0 && key(s[|s| - 1]) < key(x) {
      var init := s[..|s| - 1];
      assert forall i :: 0 <= i < |init| ==> init[i] == s[i];
      InsertLowerBound(init, x, key, b);
    }
  }

  lemma {:induction false} InsertSorted<T>(s: seq<T>, x: T, key: T -> real)
    requires SortedDesc(s, key)
    ensures SortedDesc(Insert(s, x, key), key)
  {
    if |s| > 0 && key(s[|s| - 1]) < key(x) {
      var init, last := s[..|s| - 1], s[|s| - 1];
      assert SortedDesc(init, key) && forall i :: 0 <= i < |init| ==> key(init[i]) >= key(last) by {
        assert forall i :: 0 <= i < |init| ==> init[i] == s[i];
      }
      InsertSorted(init, x, key);
      InsertLowerBound(init, x, key, key(last));
      var head := Insert(init, x, key);
      var r := head + [last];
      assert r == Insert(s, x, key);
      forall i, j | 0 <= i < j < |r|
        ensures key(r[i]) >= key(r[j])
      {
        assert r[i] == head[i];
        if j < |head| {
          assert r[j] == head[j];
        }
      }
    }
  }

  lemma {:induction false} InsertKeepsTies<T>(s: seq<T>, x: T, key: T -> real, v: real)
    ensures WithKey(Insert(s, x, key), key, v) == WithKey(s, key, v) + (if key(x) == v then [x] else [])
  {
    if |s| == 0 || key(s[|s| - 1]) >= key(x) {
      assert (s + [x])[..|s|] == s;
    } else {
      var init, last := s[..|s| - 1], s[|s| - 1];
      var head := Insert(init, x, key);
      InsertKeepsTies(init, x, key, v);
      assert (head + [last])[..|head|] == head;
    }
  }

  lemma {:induction false} SortDescPermutes<T>(s: seq<T>, key: T -> real)
    ensures multiset(SortDesc(s, key)) == multiset(s)
    ensures |SortDesc(s, key)| == |s|
  {
    if |s| > 0 {
      var init, last := s[..|s| - 1], s[|s| - 1];
      var sorted := SortDesc(init, key);
      SortDescPermutes(init, key);
      assert multiset(SortDesc(s, key)) == multiset(s) by {
        InsertPermutes(sorted, last, key);
        assert s == init + [last];
        assert multiset(s) == multiset(init) + multiset{last};
      }
    }
  }

  lemma {:induction false} SortDescSorted<T>(s: seq<T>, key: T -> real)
    ensures SortedDesc(SortDesc(s, key), key)
  {
    if |s| > 0 {
      SortDescSorted(s[..|s| - 1], key);
      InsertSorted(SortDesc(s[..|s| - 1], key), s[|s| - 1], key);
    }
  }

  /** Stability: the items that share a key come out in the order they went in. */
  lemma {:induction false} SortDescStable<T>(s: seq<T>, key: T -> real, v: real)
    ensures WithKey(SortDesc(s, key), key, v) == WithKey(s, key, v)
  {
    if |s| > 0 {
      SortDescStable(s[..|s| - 1], key, v);
      InsertKeepsTies(SortDesc(s[..|s| - 1], key), s[|s| - 1], key, v);
    }
  }

  /** Everything `sorted(..., reverse=True)` promises, in one place. */
  lemma SortDescSpec<T>(s: seq<T>, key: T -> real)
    ensures |SortDesc(s, key)| == |s|
    ensures multiset(SortDesc(s, key)) == multiset(s)
    ensures SortedDesc(SortDesc(s, key), key)
    ensures forall v :: WithKey(SortDesc(s, key), key, v) == WithKey(s, key, v)
  {
    SortDescPermutes(s, key);
    SortDescSorted(s, key);
    forall v ensures WithKey(SortDesc(s, key), key, v) == WithKey(s, key, v) {
      SortDescStable(s, key, v);
    }
  }

  lemma SortDescMembers<T>(s: seq<T>, key: T -> real)
    ensures forall x :: x in SortDesc(s, key) <==> x in s
  {
    SortDescPermutes(s, key);
    forall x ensures x in SortDesc(s, key) <==> x in s {
      assert x in SortDesc(s, key) <==> x in multiset(SortDesc(s, key));
      assert x in s <==> x in multiset(s);
    }
  }
}
