/**
 * `Array.prototype.filter` over immutable sequences, as every page uses it to
 * derive a new list from its state, with the facts the pages rely on: the
 * result keeps exactly the passing elements, in their original order.
 */
module Lists {
  /** `a` can be obtained from `b` by deleting elements: order is kept. */
  ghost predicate IsSubsequence<T>(a: seq<T>, b: seq<T>)
    decreases |b|
  {
    || a == []
    || (b != [] && ((a[0] == b[0] && IsSubsequence(a[1..], b[1..])) || IsSubsequence(a, b[1..])))
  }

  /** `s.filter(p)`. */
  function Filter<T(==,!new)>(s: seq<T>, p: T -> bool): (r: seq<T>)
    ensures |r| <= |s|
    ensures forall i :: 0 <= i < |r| ==> p(r[i]) && r[i] in s
    ensures forall i :: 0 <= i < |s| && p(s[i]) ==> s[i] in r
    ensures IsSubsequence(r, s)
    ensures forall x :: multiset(r)[x] == if p(x) then multiset(s)[x] else 0
  {
    if s == [] then []
    else
      var tail := Filter(s[1..], p);
      assert s == [s[0]] + s[1..];
      assert multiset(s) == multiset{s[0]} + multiset(s[1..]);
      if p(s[0]) then
        assert ([s[0]] + tail)[1..] == tail;
        assert multiset([s[0]] + tail) == multiset{s[0]} + multiset(tail);
        [s[0]] + tail
      else
        tail
  }

  /** Filtering distributes over concatenation. */
  lemma {:induction false} FilterAppend<T(!new)>(a: seq<T>, b: seq<T>, p: T -> bool)
    ensures Filter(a + b, p) == Filter(a, p) + Filter(b, p)
  {
    if a == [] {
      assert a + b == b;
    } else {
      assert (a + b)[0] == a[0];
      assert (a + b)[1..] == a[1..] + b;
      FilterAppend(a[1..], b, p);
    }
  }

  /** When `b` starts with a passing element, that element comes right after
      the passing elements of `a`. */
  lemma FilterAppendFirst<T(!new)>(a: seq<T>, b: seq<T>, p: T -> bool)
    requires b != [] && p(b[0])
    ensures |Filter(a, p)| < |Filter(a + b, p)| && Filter(a + b, p)[|Filter(a, p)|] == b[0]
  {
    FilterAppend(a, b, p);
    assert Filter(b, p)[0] == b[0];
  }

  /** When every element passes, filtering changes nothing. */
  lemma {:induction false} FilterKeepsAll<T(!new)>(s: seq<T>, p: T -> bool)
    requires forall i :: 0 <= i < |s| ==> p(s[i])
    ensures Filter(s, p) == s
  {
    if s != [] {
      FilterKeepsAll(s[1..], p);
    }
  }

  /** A prefix of a subsequence of `b` is a subsequence of `b`. */
  lemma {:induction false} PrefixOfSubsequence<T>(c: seq<T>, a: seq<T>, b: seq<T>)
    requires c <= a && IsSubsequence(a, b)
    ensures IsSubsequence(c, b)
    decreases |b|
  {
    if c != [] {
      assert a != [] && b != [];
      if a[0] == b[0] && IsSubsequence(a[1..], b[1..]) {
        PrefixOfSubsequence(c[1..], a[1..], b[1..]);
      } else {
        PrefixOfSubsequence(c, a, b[1..]);
      }
    }
  }

  /** No value occurs twice. */
  ghost predicate Distinct<T>(s: seq<T>)
  {
    forall i, j :: 0 <= i < j < |s| ==> s[i] != s[j]
  }

  /** Filtering a list without repeats yields a list without repeats. */
  lemma {:induction false} FilterKeepsDistinct<T(!new)>(s: seq<T>, p: T -> bool)
    requires Distinct(s)
    ensures Distinct(Filter(s, p))
  {
    if s != [] {
      FilterKeepsDistinct(s[1..], p);
      var tail := Filter(s[1..], p);
      assert forall i :: 0 <= i < |tail| ==> tail[i] != s[0] by {
        forall i | 0 <= i < |tail| ensures tail[i] != s[0] {
          var j :| 0 <= j < |s[1..]| && s[1..][j] == tail[i];
          assert s[j + 1] == tail[i];
        }
      }
    }
  }
}
