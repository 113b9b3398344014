/**
 * Python semantics the models rely on: list slicing with negative bounds,
 * counting and filtering comprehensions, `min`/`max` clamping, averages, and
 * the decimal rendering that f-strings give a non-negative int.
 */
module PyLib {

  /** A prefix grows by the next item. */
  lemma PrefixSnoc<T>(s: seq<T>, i: nat)
    requires i < |s|
    ensures s[..i] + [s[i]] == s[..i + 1]
  {
  }

  /** Python's `s[:n]`; a negative `n` drops that many items from the end. */
  function Take<T>(s: seq<T>, n: int): (r: seq<T>)
    ensures |r| <= |s| && r == s[..|r|]
    ensures 0 <= n ==> |r| == (if n < |s| then n else |s|)
    ensures n < 0 ==> |r| == (if -n < |s| then |s| + n else 0)
  {
    if 0 <= n then (if n < |s| then s[..n] else s)
    else if -n < |s| then s[..|s| + n] else []
  }

  /** Python's `s[i:]`; a negative `i` keeps that many items from the end. */
  function From<T>(s: seq<T>, i: int): (r: seq<T>)
    ensures |r| <= |s| && r == s[|s| - |r|..]
    ensures 0 <= i ==> |r| == (if i < |s| then |s| - i else 0)
    ensures i < 0 ==> |r| == (if -i < |s| then -i else |s|)
  {
    if 0 <= i then (if i < |s| then s[i..] else [])
    else if -i < |s| then s[|s| + i..] else s
  }

  /** `sum(1 for x in s if p(x))`. */
  function Count<T>(s: seq<T>, p: T -> bool): (n: nat)
    ensures n <= |s|
  {
    if |s| == 0 then 0 else Count(s[..|s| - 1], p) + (if p(s[|s| - 1]) then 1 else 0)
  }

  /** `[x for x in s if p(x)]`. */
  function Filter<T>(s: seq<T>, p: T -> bool): (r: seq<T>)
    ensures |r| == Count(s, p)
  {
    if |s| == 0 then [] else Filter(s[..|s| - 1], p) + (if p(s[|s| - 1]) then [s[|s| - 1]] else [])
  }

  lemma {:induction false} FilterOfAppend<T>(s: seq<T>, t: seq<T>, p: T -> bool)
    ensures Filter(s + t, p) == Filter(s, p) + Filter(t, p)
    decreases |t|
  {
    if |t| == 0 {
      assert s + t == s;
    } else {
      assert (s + t)[..|s + t| - 1] == s + t[..|t| - 1];
      FilterOfAppend(s, t[..|t| - 1], p);
    }
  }

  lemma {:induction false} CountOfAppend<T>(s: seq<T>, t: seq<T>, p: T -> bool)
    ensures Count(s + t, p) == Count(s, p) + Count(t, p)
  {
    FilterOfAppend(s, t, p);
  }

  /** Every item satisfies exactly one of `p` and `q`, so the two counts split the list. */
  lemma {:induction false} CountPartition<T>(s: seq<T>, p: T -> bool, q: T -> bool)
    requires forall x :: x in s ==> (p(x) <==> !q(x))
    ensures Count(s, p) + Count(s, q) == |s|
  {
    if |s| > 0 {
      assert forall x :: x in s[..|s| - 1] ==> x in s;
      CountPartition(s[..|s| - 1], p, q);
    }
  }

  lemma {:induction false} FilterAll<T>(s: seq<T>, p: T -> bool)
    requires forall i :: 0 <= i < |s| ==> p(s[i])
    ensures Filter(s, p) == s
  {
    if |s| > 0 {
      var init, last := s[..|s| - 1], s[|s| - 1];
      assert forall i :: 0 <= i < |init| ==> p(init[i]) by {
        assert forall i :: 0 <= i < |init| ==> init[i] == s[i];
      }
      FilterAll(init, p);
      assert p(last);
      calc {
        Filter(s, p);
        Filter(init, p) + [last];
        init + [last];
        { assert init + [last] == s; }
        s;
      }
    }
  }

  lemma {:induction false} FilterNone<T>(s: seq<T>, p: T -> bool)
    requires forall i :: 0 <= i < |s| ==> !p(s[i])
    ensures Filter(s, p) == []
  {
    if |s| > 0 {
      FilterNone(s[..|s| - 1], p);
    }
  }

  /** A four-item list, item by item. */
  lemma FilterOfFour<T>(a: T, b: T, c: T, d: T, p: T -> bool)
    ensures Filter([a, b, c, d], p) ==
      (if p(a) then [a] else []) + (if p(b) then [b] else []) + (if p(c) then [c] else []) + (if p(d) then [d] else [])
  {
    assert [a, b, c, d][..3] == [a, b, c];
    assert [a, b, c][..2] == [a, b];
    assert [a, b][..1] == [a];
    assert [a][..0] == [];
    assert Filter([a], p) == (if p(a) then [a] else []);
    assert Filter([a, b], p) == Filter([a], p) + (if p(b) then [b] else []);
    assert Filter([a, b, c], p) == Filter([a, b], p) + (if p(c) then [c] else []);
    assert Filter([a, b, c, d], p) == Filter([a, b, c], p) + (if p(d) then [d] else []);
  }

  lemma {:induction false} FilterMembers<T>(s: seq<T>, p: T -> bool)
    ensures forall x :: x in Filter(s, p) <==> x in s && p(x)
  {
    if |s| > 0 {
      FilterMembers(s[..|s| - 1], p);
      assert s == s[..|s| - 1] + [s[|s| - 1]];
    }
  }

  /** A filter keeps the relative order of what it keeps: a selection of increasing indices. */
  /** `idx` lists strictly increasing positions of `s` at which the items of `r` occur. */
  ghost predicate Embeds<T>(idx: seq<int>, r: seq<T>, s: seq<T>)
  {
    && |idx| == |r|
    && (forall k :: 0 <= k < |idx| ==> 0 <= idx[k] < |s| && s[idx[k]] == r[k])
    && (forall k, l :: 0 <= k < l < |idx| ==> idx[k] < idx[l])
  }

  ghost predicate IsSubsequence<T>(r: seq<T>, s: seq<T>)
  {
    exists idx: seq<int> :: Embeds(idx, r, s)
  }

  /** An embedding survives appending an item to the longer sequence. */
  lemma EmbedsExtend<T>(idx: seq<int>, r: seq<T>, s: seq<T>, x: T)
    requires Embeds(idx, r, s)
    ensures Embeds(idx, r, s + [x])
  {
    assert forall k :: 0 <= k < |idx| ==> (s + [x])[idx[k]] == s[idx[k]];
  }

  /** Appending the same item to both sequences extends an embedding by the new last position. */
  lemma EmbedsSnoc<T>(idx: seq<int>, r: seq<T>, s: seq<T>, x: T)
    requires Embeds(idx, r, s)
    ensures Embeds(idx + [|s|], r + [x], s + [x])
  {
    var idx', r', s' := idx + [|s|], r + [x], s + [x];
    forall k | 0 <= k < |idx'|
      ensures 0 <= idx'[k] < |s'| && s'[idx'[k]] == r'[k]
    {
      if k < |idx| {
        assert idx'[k] == idx[k] && r'[k] == r[k];
      }
    }
  }

  lemma {:induction false} FilterIsSubsequence<T>(s: seq<T>, p: T -> bool)
    ensures IsSubsequence(Filter(s, p), s)
  {
    if |s| == 0 {
      assert Embeds([], Filter(s, p), s);
    } else {
      var init, last := s[..|s| - 1], s[|s| - 1];
      assert s == init + [last];
      FilterIsSubsequence(init, p);
      var idx: seq<int> :| Embeds(idx, Filter(init, p), init);
      if p(last) {
        EmbedsSnoc(idx, Filter(init, p), init, last);
        assert Embeds(idx + [|init|], Filter(s, p), s);
      } else {
        EmbedsExtend(idx, Filter(init, p), init, last);
        assert Embeds(idx, Filter(s, p), s);
      }
    }
  }

  /** `max(lo, min(hi, x))`, the clamp the source writes out at every bounded value. */
  function Clamp(x: real, lo: real, hi: real): (r: real)
    requires lo <= hi
    ensures lo <= r <= hi
    ensures lo <= x <= hi ==> r == x
    ensures x < lo ==> r == lo
    ensures hi < x ==> r == hi
  {
    if x < hi then (if lo < x then x else lo) else (if lo < hi then hi else lo)
  }

  function Max(a: real, b: real): real { if a < b then b else a }

  function Min(a: real, b: real): real { if b < a then b else a }

  function Abs(x: real): real { if x < 0.0 then -x else x }

  function Sum(xs: seq<real>): real
  {
    if |xs| == 0 then 0.0 else Sum(xs[..|xs| - 1]) + xs[|xs| - 1]
  }

  /** `numpy.mean` of a non-empty list, taken exactly. */
  function Mean(xs: seq<real>): real
    requires |xs| > 0
  {
    Sum(xs) / |xs| as real
  }

  lemma {:induction false} SumBounds(xs: seq<real>, lo: real, hi: real)
    requires forall i :: 0 <= i < |xs| ==> lo <= xs[i] <= hi
    ensures |xs| as real * lo <= Sum(xs) <= |xs| as real * hi
  {
    if |xs| > 0 {
      SumBounds(xs[..|xs| - 1], lo, hi);
    }
  }

  /** A mean lies between the bounds of what it averages. */
  lemma MeanBounds(xs: seq<real>, lo: real, hi: real)
    requires |xs| > 0
    requires forall i :: 0 <= i < |xs| ==> lo <= xs[i] <= hi
    ensures lo <= Mean(xs) <= hi
  {
    SumBounds(xs, lo, hi);
    var n := |xs| as real;
    assert n * lo <= Sum(xs) <= n * hi;
    assert Sum(xs) / n >= lo by {
      assert Sum(xs) >= lo * n;
    }
    assert Sum(xs) / n <= hi by {
      assert Sum(xs) <= hi * n;
    }
  }

  /** `positive / total` as a true division. */
  function Rate(positive: nat, total: nat): (r: real)
    requires 0 < total
    requires positive <= total
    ensures 0.0 <= r <= 1.0
  {
    positive as real / total as real
  }

  function DigitChar(d: nat): char
    requires d < 10
  {
    "0123456789"[d]
  }

  predicate IsDigit(c: char) { '0' <= c <= '9' }

  function DigitValue(c: char): nat
    requires IsDigit(c)
  {
    (c as int) - ('0' as int)
  }

  /** `str(n)` for a non-negative int: its decimal digits, most significant first. */
  function NatToString(n: nat): (s: string)
    ensures |s| > 0
    ensures forall i :: 0 <= i < |s| ==> IsDigit(s[i])
  {
    if n < 10 then [DigitChar(n)] else NatToString(n / 10) + [DigitChar(n % 10)]
  }

  /** `int(s)` for a string of decimal digits. */
  function ParseNat(s: string): nat
    requires forall i :: 0 <= i < |s| ==> IsDigit(s[i])
  {
    if |s| == 0 then 0 else ParseNat(s[..|s| - 1]) * 10 + DigitValue(s[|s| - 1])
  }

  lemma {:induction false} ParseNatToString(n: nat)
    ensures ParseNat(NatToString(n)) == n
  {
    var s := NatToString(n);
    if n < 10 {
      assert s[..0] == [];
      assert DigitValue("0123456789"[n]) == n;
    } else {
      ParseNatToString(n / 10);
      assert s[..|s| - 1] == NatToString(n / 10);
      assert DigitValue("0123456789"[n % 10]) == n % 10;
    }
  }

  /** Distinct numbers render as distinct strings. */
  lemma NatToStringInjective(a: nat, b: nat)
    requires NatToString(a) == NatToString(b)
    ensures a == b
  {
    ParseNatToString(a);
    ParseNatToString(b);
  }
}
