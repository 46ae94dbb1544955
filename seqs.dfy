/** Order-preserving selections from a sequence: the shape shared by the metadata
    filter, the search post-processing and the deduplication pass. */
module Seqs {

  /** `a` is `b` with some elements left out, the rest in their original order. */
  predicate IsSubsequence<T(==)>(a: seq<T>, b: seq<T>)
    decreases |b|
  {
    if a == [] then true
    else if b == [] then false
    else
      (a[|a| - 1] == b[|b| - 1] && IsSubsequence(a[..|a| - 1], b[..|b| - 1]))
      || IsSubsequence(a, b[..|b| - 1])
  }

  lemma SubsequenceKeep<T>(a: seq<T>, b: seq<T>, x: T)
    requires IsSubsequence(a, b)
    ensures IsSubsequence(a + [x], b + [x])
  {
    assert (a + [x])[..|a|] == a;
    assert (b + [x])[..|b|] == b;
  }

  lemma SubsequenceSkip<T>(a: seq<T>, b: seq<T>, x: T)
    requires IsSubsequence(a, b)
    ensures IsSubsequence(a, b + [x])
  {
    assert (b + [x])[..|b|] == b;
  }

  lemma {:induction false} SubsequenceShape<T>(a: seq<T>, b: seq<T>)
    requires IsSubsequence(a, b)
    ensures |a| <= |b|
    ensures forall x :: x in a ==> x in b
    decreases |b|
  {
    if a != [] {
      if a[|a| - 1] == b[|b| - 1] && IsSubsequence(a[..|a| - 1], b[..|b| - 1]) {
        SubsequenceShape(a[..|a| - 1], b[..|b| - 1]);
        assert a == a[..|a| - 1] + [a[|a| - 1]];
        assert b == b[..|b| - 1] + [b[|b| - 1]];
      } else {
        SubsequenceShape(a, b[..|b| - 1]);
        assert b == b[..|b| - 1] + [b[|b| - 1]];
      }
    }
  }

  /** A subsequence of a sequence ordered by `le` is ordered by `le` too. */
  lemma {:induction false} SubsequenceOrdered<T>(a: seq<T>, b: seq<T>, le: (T, T) -> bool)
    requires IsSubsequence(a, b)
    requires forall i, j :: 0 <= i < j < |b| ==> le(b[i], b[j])
    ensures forall i, j :: 0 <= i < j < |a| ==> le(a[i], a[j])
    decreases |b|
  {
    if a != [] {
      var b' := b[..|b| - 1];
      assert forall i, j :: 0 <= i < j < |b'| ==> le(b'[i], b'[j]) by {
        forall i, j | 0 <= i < j < |b'| ensures le(b'[i], b'[j]) {
          assert b'[i] == b[i] && b'[j] == b[j];
        }
      }
      if a[|a| - 1] == b[|b| - 1] && IsSubsequence(a[..|a| - 1], b') {
        var a' := a[..|a| - 1];
        SubsequenceOrdered(a', b', le);
        SubsequenceShape(a', b');
        forall i, j | 0 <= i < j < |a| ensures le(a[i], a[j]) {
          if j < |a| - 1 {
            assert a[i] == a'[i] && a[j] == a'[j];
          } else {
            assert a[i] in b' by { assert a[i] == a'[i]; }
            var k :| 0 <= k < |b'| && b'[k] == a[i];
            assert b[k] == a[i] && b[|b| - 1] == a[j];
          }
        }
      } else {
        SubsequenceOrdered(a, b', le);
      }
    }
  }

  /** List comprehension `[x for x in s if p(x)]`. */
  function Filter<T>(s: seq<T>, p: T -> bool): (r: seq<T>)
    ensures forall x :: x in r ==> p(x)
  {
    if s == [] then []
    else Filter(s[..|s| - 1], p) + (if p(s[|s| - 1]) then [s[|s| - 1]] else [])
  }

  /** Filtering keeps the order of what it keeps, and keeps every element that passes. */
  lemma {:induction false} FilterIsSubsequence<T>(s: seq<T>, p: T -> bool)
    ensures IsSubsequence(Filter(s, p), s)
    ensures forall x :: x in s && p(x) ==> x in Filter(s, p)
    ensures |Filter(s, p)| <= |s|
    decreases |s|
  {
    if s != [] {
      var s', x := s[..|s| - 1], s[|s| - 1];
      FilterIsSubsequence(s', p);
      assert s == s' + [x];
      if p(x) {
        SubsequenceKeep(Filter(s', p), s', x);
        assert Filter(s, p) == Filter(s', p) + [x];
      } else {
        SubsequenceSkip(Filter(s', p), s', x);
        assert Filter(s, p) == Filter(s', p);
      }
      assert IsSubsequence(Filter(s, p), s);
      SubsequenceShape(Filter(s, p), s);
    }
  }

  /** A filter that lets everything through returns its input. */
  lemma {:induction false} FilterAll<T>(s: seq<T>, p: T -> bool)
    requires forall x :: x in s ==> p(x)
    ensures Filter(s, p) == s
    decreases |s|
  {
    if s != [] {
      FilterAll(s[..|s| - 1], p);
      assert s == s[..|s| - 1] + [s[|s| - 1]];
    }
  }
}
