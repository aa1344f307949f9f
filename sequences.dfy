/** `Array.prototype.filter` and the order-preservation it guarantees, stated
    once for every filter in the core (cart removal, search, category tabs,
    missing product ids, per-user orders). */
module Sequences {
  import opened Options

  /** `a` is `b` with some elements left out and the rest in their order. */
  predicate Subsequence<T(==)>(a: seq<T>, b: seq<T>)
    decreases |b|
  {
    |a| == 0 || (|b| > 0 && if a[0] == b[0] then Subsequence(a[1..], b[1..]) else Subsequence(a, b[1..]))
  }

  /** `s.filter(keep)`. */
  function Filter<T(!new)>(s: seq<T>, keep: T -> bool): (r: seq<T>)
    ensures |r| <= |s|
    ensures forall k :: 0 <= k < |r| ==> keep(r[k])
    ensures forall x :: x in r <==> x in s && keep(x)
  {
    if |s| == 0 then []
    else
      assert s == [s[0]] + s[1..];
      if keep(s[0]) then [s[0]] + Filter(s[1..], keep) else Filter(s[1..], keep)
  }

  /** Every sequence is a subsequence of itself. */
  lemma {:induction false} SubsequenceOfItself<T>(s: seq<T>)
    ensures Subsequence(s, s)
    decreases |s|
  {
    if |s| > 0 {
      SubsequenceOfItself(s[1..]);
    }
  }

  /** `filter` keeps every kept element as often as it occurs, and none of the others. */
  lemma {:induction false} FilterMultiset<T(!new)>(s: seq<T>, keep: T -> bool)
    ensures forall x :: multiset(Filter(s, keep))[x] == if keep(x) then multiset(s)[x] else 0
  {
    if |s| > 0 {
      FilterMultiset(s[1..], keep);
      assert s == [s[0]] + s[1..];
    }
  }

  /** What `filter` keeps, it keeps in order. */
  lemma {:induction false} FilterIsSubsequence<T(!new)>(s: seq<T>, keep: T -> bool)
    ensures Subsequence(Filter(s, keep), s)
  {
    if |s| > 0 {
      FilterIsSubsequence(s[1..], keep);
      if !keep(s[0]) {
        SkipHead(Filter(s[1..], keep), s);
      }
    }
  }

  /** A subsequence of the tail is a subsequence of the whole. */
  lemma {:induction false} SkipHead<T>(a: seq<T>, b: seq<T>)
    requires |b| > 0 && Subsequence(a, b[1..])
    ensures Subsequence(a, b)
    decreases |b|, 0
  {
    if |a| > 0 && a[0] == b[0] {
      // Match b[0] now; what remains of `a` is found in b[1..] after a[0]'s match.
      TailOfSubsequence(a, b[1..]);
    }
  }

  /** Dropping the first element of a subsequence keeps it a subsequence. */
  lemma {:induction false} TailOfSubsequence<T>(a: seq<T>, b: seq<T>)
    requires |a| > 0 && Subsequence(a, b)
    ensures Subsequence(a[1..], b)
    decreases |b|, 1
  {
    if a[0] == b[0] {
      if |a| > 1 {
        SkipHead(a[1..], b);
      }
    } else {
      TailOfSubsequence(a, b[1..]);
      if |a| > 1 {
        SkipHead(a[1..], b);
      }
    }
  }

  /** A filter that keeps every element is the identity. */
  lemma {:induction false} FilterAll<T(!new)>(s: seq<T>, keep: T -> bool)
    requires forall x :: x in s ==> keep(x)
    ensures Filter(s, keep) == s
  {
    if |s| > 0 {
      FilterAll(s[1..], keep);
      assert s == [s[0]] + s[1..];
    }
  }

  /** Filtering twice with the same predicate is filtering once. */
  lemma {:induction false} FilterIdempotent<T(!new)>(s: seq<T>, keep: T -> bool)
    ensures Filter(Filter(s, keep), keep) == Filter(s, keep)
  {
    FilterAll(Filter(s, keep), keep);
  }

  /** Two predicates that agree on the elements of `s` filter it alike. */
  lemma {:induction false} FilterAgree<T(!new)>(s: seq<T>, p: T -> bool, q: T -> bool)
    requires forall x :: x in s ==> p(x) == q(x)
    ensures Filter(s, p) == Filter(s, q)
  {
    if |s| > 0 {
      FilterAgree(s[1..], p, q);
    }
  }

  /** Filtering a concatenation filters each part. */
  lemma {:induction false} FilterAppend<T(!new)>(a: seq<T>, b: seq<T>, keep: T -> bool)
    ensures Filter(a + b, keep) == Filter(a, keep) + Filter(b, keep)
  {
    if |a| == 0 {
      assert a + b == b;
    } else {
      FilterAppend(a[1..], b, keep);
      var ab := a + b;
      assert ab[0] == a[0];
      assert ab[1..] == a[1..] + b;
      if keep(a[0]) {
        calc {
          Filter(ab, keep);
          [a[0]] + Filter(a[1..] + b, keep);
          [a[0]] + (Filter(a[1..], keep) + Filter(b, keep));
          ([a[0]] + Filter(a[1..], keep)) + Filter(b, keep);
        }
      } else {
        calc {
          Filter(ab, keep);
          Filter(a[1..] + b, keep);
        }
      }
    }
  }

  /** `filter` drops nothing exactly when every element passes. */
  lemma {:induction false} FilterKeepsLength<T(!new)>(s: seq<T>, keep: T -> bool)
    ensures |Filter(s, keep)| == |s| <==> forall k :: 0 <= k < |s| ==> keep(s[k])
  {
    if |s| > 0 {
      FilterKeepsLength(s[1..], keep);
      assert forall k :: 1 <= k < |s| ==> s[k] == s[1..][k - 1];
    }
  }

  /** No element occurs twice. */
  predicate NoDup<T(==)>(s: seq<T>) {
    forall i, j :: 0 <= i < j < |s| ==> s[i] != s[j]
  }

  /** Each element once, in order of first occurrence (`Array.from(new Set(s))`). */
  function Dedup<T(==,!new)>(s: seq<T>): (r: seq<T>)
    ensures |r| <= |s|
    ensures forall x :: x in r <==> x in s
    ensures NoDup(r)
  {
    if |s| == 0 then []
    else
      var d := Dedup(s[..|s| - 1]);
      assert forall x :: x in s <==> x in s[..|s| - 1] || x == s[|s| - 1] by {
        assert s == s[..|s| - 1] + [s[|s| - 1]];
      }
      if s[|s| - 1] in d then d else d + [s[|s| - 1]]
  }

  /** De-duplication loses nothing exactly when there was nothing to lose. */
  lemma {:induction false} DedupKeepsLength<T(!new)>(s: seq<T>)
    ensures |Dedup(s)| == |s| <==> NoDup(s)
  {
    if |s| > 0 {
      var p, x := s[..|s| - 1], s[|s| - 1];
      DedupKeepsLength(p);
      if x in p {
        var i :| 0 <= i < |p| && p[i] == x;
        assert s[i] == s[|s| - 1];
      } else {
        assert NoDup(s) <==> NoDup(p) by {
          if NoDup(p) {
            forall i, j | 0 <= i < j < |s| ensures s[i] != s[j] {
              if j == |s| - 1 {
                assert s[i] == p[i];
              } else {
                assert s[i] == p[i] && s[j] == p[j];
              }
            }
          }
          if NoDup(s) {
            forall i, j | 0 <= i < j < |p| ensures p[i] != p[j] {
              assert s[i] == p[i] && s[j] == p[j];
            }
          }
        }
      }
    }
  }

  /** A sequence without repeats is its own de-duplication. */
  lemma {:induction false} DedupOfNoDup<T(!new)>(s: seq<T>)
    requires NoDup(s)
    ensures Dedup(s) == s
  {
    if |s| > 0 {
      var p := s[..|s| - 1];
      assert NoDup(p) by {
        forall i, j | 0 <= i < j < |p| ensures p[i] != p[j] {
          assert s[i] == p[i] && s[j] == p[j];
        }
      }
      DedupOfNoDup(p);
      assert s[|s| - 1] !in p by {
        forall i | 0 <= i < |p| ensures p[i] != s[|s| - 1] {
          assert p[i] == s[i];
        }
      }
      assert s == p + [s[|s| - 1]];
    }
  }

  /** `x` occurs in `s` somewhere before any occurrence of `y`. */
  predicate Before<T(==)>(s: seq<T>, x: T, y: T) {
    exists a :: 0 <= a < |s| && s[a] == x && y !in s[..a + 1]
  }

  /** What comes before in a sequence still comes before once it is extended. */
  lemma BeforeExtends<T>(p: seq<T>, z: T, x: T, y: T)
    requires Before(p, x, y)
    ensures Before(p + [z], x, y)
  {
    var a :| 0 <= a < |p| && p[a] == x && y !in p[..a + 1];
    assert (p + [z])[..a + 1] == p[..a + 1];
    assert (p + [z])[a] == x;
  }

  /** De-duplication keeps the order of first occurrence: an element listed
      earlier first occurs earlier. */
  lemma {:induction false} DedupFirstOccurrence<T(!new)>(s: seq<T>)
    ensures forall i, j :: 0 <= i < j < |Dedup(s)| ==> Before(s, Dedup(s)[i], Dedup(s)[j])
  {
    if |s| > 0 {
      var p, x := s[..|s| - 1], s[|s| - 1];
      assert s == p + [x];
      var d := Dedup(p);
      DedupFirstOccurrence(p);
      forall i, j | 0 <= i < j < |d| ensures Before(s, d[i], d[j]) {
        BeforeExtends(p, x, d[i], d[j]);
      }
      if x !in d {
        forall i | 0 <= i < |d| ensures Before(s, d[i], x) {
          assert d[i] in p;
          var a :| 0 <= a < |p| && p[a] == d[i];
          assert s[..a + 1] == p[..a + 1];
          assert s[a] == d[i];
        }
        assert Dedup(s) == d + [x];
      }
    }
  }

  /** The index of the first element satisfying `p` (`findIndex`), or None. */
  function FirstIndex<T>(s: seq<T>, p: T -> bool): (r: Option<nat>)
    ensures r.None? <==> forall k :: 0 <= k < |s| ==> !p(s[k])
    ensures r.Some? ==> r.value < |s| && p(s[r.value]) && forall k :: 0 <= k < r.value ==> !p(s[k])
  {
    if |s| == 0 then None
    else if p(s[0]) then Some(0)
    else match FirstIndex(s[1..], p)
      case None => None
      case Some(i) => Some(i + 1)
  }
}
