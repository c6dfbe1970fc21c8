/** The array methods the source calls on its lists: `filter`, `find`, and the
    "last assignment wins" search a `reduce` into a dictionary performs. */
module Seqs {
  import opened Wrappers

  /** The elements of `s` that satisfy `p`, in their original order (`s.filter(p)`). */
  function Filter<T>(s: seq<T>, p: T -> bool): (r: seq<T>)
    ensures |r| <= |s|
    ensures forall i :: 0 <= i < |r| ==> p(r[i])
    decreases |s|
  {
    if s == [] then [] else (if p(s[0]) then [s[0]] else []) + Filter(s[1..], p)
  }

  /** `r` is `s` with some elements deleted and the rest kept in order. */
  ghost predicate IsSubsequence<T>(r: seq<T>, s: seq<T>)
    decreases |s|
  {
    if s == [] then r == []
    else (r != [] && r[0] == s[0] && IsSubsequence(r[1..], s[1..])) || IsSubsequence(r, s[1..])
  }

  /** An element survives the filter iff it was there and satisfies the predicate. */
  lemma {:induction false} FilterMembers<T>(s: seq<T>, p: T -> bool, x: T)
    ensures x in Filter(s, p) <==> x in s && p(x)
    decreases |s|
  {
    if s != [] {
      FilterMembers(s[1..], p, x);
      assert s == [s[0]] + s[1..];
    }
  }

  /** The filter keeps each element's multiplicity, or drops it completely. */
  lemma {:induction false} FilterCount<T>(s: seq<T>, p: T -> bool, x: T)
    ensures multiset(Filter(s, p))[x] == if p(x) then multiset(s)[x] else 0
    decreases |s|
  {
    if s != [] {
      FilterCount(s[1..], p, x);
      assert s == [s[0]] + s[1..];
      assert multiset(s) == multiset([s[0]]) + multiset(s[1..]);
    }
  }

  /** The filter keeps the original order. */
  lemma {:induction false} FilterIsSubsequence<T>(s: seq<T>, p: T -> bool)
    ensures IsSubsequence(Filter(s, p), s)
    decreases |s|
  {
    if s != [] {
      FilterIsSubsequence(s[1..], p);
      if p(s[0]) {
        var r := Filter(s, p);
        assert r == [s[0]] + Filter(s[1..], p);
        assert r != [] && r[0] == s[0] && r[1..] == Filter(s[1..], p);
        assert IsSubsequence(r[1..], s[1..]);
      } else {
        assert Filter(s, p) == Filter(s[1..], p);
      }
    }
  }

  /** Filtering distributes over concatenation. */
  lemma {:induction false} FilterAppend<T>(a: seq<T>, b: seq<T>, p: T -> bool)
    ensures Filter(a + b, p) == Filter(a, p) + Filter(b, p)
    decreases |a|
  {
    if a == [] {
      assert a + b == b;
    } else {
      FilterAppend(a[1..], b, p);
      assert (a + b)[0] == a[0] && (a + b)[1..] == a[1..] + b;
    }
  }

  /** A filter that rejects nothing in `s` returns `s` itself. */
  lemma {:induction false} FilterKeepsAll<T>(s: seq<T>, p: T -> bool)
    requires forall i :: 0 <= i < |s| ==> p(s[i])
    ensures Filter(s, p) == s
    decreases |s|
  {
    if s != [] {
      FilterKeepsAll(s[1..], p);
      assert s == [s[0]] + s[1..];
    }
  }

  /** Two predicates that agree on every element of `s` filter it alike. */
  lemma {:induction false} FilterCongruent<T>(s: seq<T>, p: T -> bool, q: T -> bool)
    requires forall i :: 0 <= i < |s| ==> p(s[i]) == q(s[i])
    ensures Filter(s, p) == Filter(s, q)
    decreases |s|
  {
    if s != [] {
      FilterCongruent(s[1..], p, q);
    }
  }

  /** The first element of `s` that satisfies `p` (`s.find(p)`), or None. */
  function Find<T>(s: seq<T>, p: T -> bool): (r: Option<T>)
    ensures r.None? <==> forall i :: 0 <= i < |s| ==> !p(s[i])
    ensures r.Some? ==> exists i :: 0 <= i < |s| && s[i] == r.value && p(s[i]) && forall j :: 0 <= j < i ==> !p(s[j])
    decreases |s|
  {
    if s == [] then None
    else if p(s[0]) then Some(s[0])
    else
      var r := Find(s[1..], p);
      assert r.Some? ==> exists i :: 1 <= i < |s| && s[i] == r.value && p(s[i]) && forall j :: 0 <= j < i ==> !p(s[j]) by {
        if r.Some? {
          var k :| 0 <= k < |s[1..]| && s[1..][k] == r.value && p(s[1..][k]) && forall j :: 0 <= j < k ==> !p(s[1..][j]);
          assert s[k + 1] == r.value;
          assert forall j :: 1 <= j < k + 1 ==> s[j] == s[1..][j - 1];
        }
      }
      r
  }

  /** The last element of `s` that satisfies `p`, or None. */
  function FindLast<T>(s: seq<T>, p: T -> bool): (r: Option<T>)
    ensures r.None? <==> forall i :: 0 <= i < |s| ==> !p(s[i])
    ensures r.Some? ==> exists i :: 0 <= i < |s| && s[i] == r.value && p(s[i]) && forall j :: i < j < |s| ==> !p(s[j])
    decreases |s|
  {
    if s == [] then None
    else if p(s[|s| - 1]) then Some(s[|s| - 1])
    else
      var r := FindLast(s[..|s| - 1], p);
      assert r.Some? ==> exists i :: 0 <= i < |s| - 1 && s[i] == r.value && p(s[i]) && forall j :: i < j < |s| ==> !p(s[j]) by {
        if r.Some? {
          var init := s[..|s| - 1];
          var k :| 0 <= k < |init| && init[k] == r.value && p(init[k]) && forall j :: k < j < |init| ==> !p(init[j]);
          assert s[k] == r.value;
          assert forall j :: k < j < |s| - 1 ==> s[j] == init[j];
        }
      }
      r
  }

}
