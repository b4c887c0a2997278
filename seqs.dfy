/** Small facts about sequences used by the bounded logs of the model. */
module Seqs {

  function Min(a: int, b: int): int { if a <= b then a else b }

  /** The last `n` elements of `s` (all of `s` when it is shorter): JavaScript `s.slice(-n)` for n >= 1. */
  function Last<T>(s: seq<T>, n: nat): (r: seq<T>)
    ensures |r| == Min(n, |s|)
    ensures forall i :: 0 <= i < |r| ==> r[i] == s[|s| - |r| + i]
  {
    s[|s| - Min(n, |s|)..]
  }

  /** Keeping the last n+1 of a sequence extended by x is keeping the last n, then x. */
  lemma LastAppend<T>(s: seq<T>, x: T, n: nat)
    ensures Last(s + [x], n + 1) == Last(s, n) + [x]
  {
    var k := |s| - Min(n, |s|);
    assert Last(s + [x], n + 1) == (s + [x])[k..];
    assert (s + [x])[k..] == s[k..] + [x];
  }

  /** Taking the last m of the last n (m <= n) is taking the last m. */
  lemma LastOfLast<T>(s: seq<T>, n: nat, m: nat)
    requires m <= n
    ensures Last(Last(s, n), m) == Last(s, m)
  {
  }

  /** The first `k + 1` elements are the first `k` and then element `k`. */
  lemma TakeOneMore<T>(s: seq<T>, k: nat)
    requires k < |s|
    ensures s[..k + 1] == s[..k] + [s[k]]
  {
  }

  /** A non-empty sequence is its head followed by its tail. */
  lemma HeadTail<T>(t: seq<T>)
    requires t != []
    ensures [t[0]] + t[1..] == t
  {
  }

  /** Appending the head of `t` and then its tail appends `t`. */
  lemma AppendHeadTail<T>(s: seq<T>, t: seq<T>)
    requires t != []
    ensures s + [t[0]] + t[1..] == s + t
  {
    assert [t[0]] + t[1..] == t;
    assert s + [t[0]] + t[1..] == s + ([t[0]] + t[1..]);
  }

  /** Keeping the last n of (the last n of s, then t) is keeping the last n of s then t. */
  lemma LastConcat<T>(s: seq<T>, t: seq<T>, n: nat)
    ensures Last(Last(s, n) + t, n) == Last(s + t, n)
  {
    if |s| <= n {
      assert Last(s, n) == s;
    } else {
      var k := |s| - n;
      assert Last(s, n) + t == (s + t)[k..];
      LastOfSuffix(s + t, k, n);
    }
  }

  /** The last n of a suffix at least n long are the last n of the whole. */
  lemma LastOfSuffix<T>(u: seq<T>, k: nat, n: nat)
    requires k + n <= |u|
    ensures Last(u[k..], n) == Last(u, n)
  {
    assert Last(u[k..], n) == u[k..][|u| - k - n..];
  }

  /** `sub` is an order-preserving sub-list of `s`. */
  predicate IsSubsequence<T(==)>(sub: seq<T>, s: seq<T>)
    decreases |s|
  {
    if sub == [] then true
    else if s == [] then false
    else if sub[0] == s[0] then IsSubsequence(sub[1..], s[1..])
    else IsSubsequence(sub, s[1..])
  }

  /** The elements of `s` that satisfy `p`, in order (JavaScript `Array.prototype.filter`). */
  function Filter<T>(p: T -> bool, s: seq<T>): (r: seq<T>)
    ensures |r| <= |s|
    ensures forall x :: x in r ==> x in s && p(x)
  {
    if s == [] then [] else (if p(s[0]) then [s[0]] else []) + Filter(p, s[1..])
  }

  /** Every element of `s` satisfying `p` is kept by `Filter`. */
  lemma {:induction false} FilterKeeps<T>(p: T -> bool, s: seq<T>, x: T)
    requires x in s && p(x)
    ensures x in Filter(p, s)
  {
    if s[0] != x {
      FilterKeeps(p, s[1..], x);
    }
  }

  /** `Filter` keeps every copy of an element satisfying `p` and no copy of any other. */
  lemma {:induction false} FilterCounts<T>(p: T -> bool, s: seq<T>, x: T)
    ensures multiset(Filter(p, s))[x] == if p(x) then multiset(s)[x] else 0
  {
    if s != [] {
      FilterCounts(p, s[1..], x);
      assert s == [s[0]] + s[1..];
    }
  }

  /** `FilterCounts` for every element at once. */
  lemma FilterMultiset<T>(p: T -> bool, s: seq<T>)
    ensures forall x :: multiset(Filter(p, s))[x] == if p(x) then multiset(s)[x] else 0
  {
    forall x ensures multiset(Filter(p, s))[x] == if p(x) then multiset(s)[x] else 0 {
      FilterCounts(p, s, x);
    }
  }

  /** A filtered sequence is a sub-list of the original, in the original order. */
  lemma {:induction false} FilterIsSubsequence<T>(p: T -> bool, s: seq<T>)
    ensures IsSubsequence(Filter(p, s), s)
  {
    if s != [] {
      FilterIsSubsequence(p, s[1..]);
      if p(s[0]) {
        assert Filter(p, s)[1..] == Filter(p, s[1..]);
      } else {
        assert Filter(p, s) == Filter(p, s[1..]);
        SkipHeadSubsequence(Filter(p, s[1..]), s);
      }
    }
  }

  /** A sub-list of the tail is a sub-list of the whole. */
  lemma {:induction false} SkipHeadSubsequence<T>(sub: seq<T>, s: seq<T>)
    requires s != [] && IsSubsequence(sub, s[1..])
    ensures IsSubsequence(sub, s)
    decreases |s|, 1
  {
    if sub != [] && sub[0] == s[0] {
      // a sub-list of s[1..] starting with s[0]: its tail is a sub-list of s[1..] as well
      TailSubsequence(sub, s[1..]);
    }
  }

  /** Dropping the head of a non-empty sub-list keeps it a sub-list. */
  lemma {:induction false} TailSubsequence<T>(sub: seq<T>, s: seq<T>)
    requires sub != [] && IsSubsequence(sub, s)
    ensures IsSubsequence(sub[1..], s)
    decreases |s| + 1, 0
  {
    if sub[0] == s[0] {
      if sub[1..] != [] {
        SkipHeadSubsequence(sub[1..], s);
      }
    } else {
      TailSubsequence(sub, s[1..]);
      if sub[1..] != [] {
        SkipHeadSubsequence(sub[1..], s);
      }
    }
  }

  /** Filtering with a predicate that holds everywhere returns the whole sequence. */
  lemma {:induction false} FilterAll<T>(p: T -> bool, s: seq<T>)
    requires forall x :: x in s ==> p(x)
    ensures Filter(p, s) == s
  {
    if s != [] {
      FilterAll(p, s[1..]);
    }
  }
}
