/**
 Strict total orders, their lexicographic extension, and sorting by them.

 The source sorts references with an unstable sort. What makes its result a function of
 the references alone is that the comparison is a strict total order: an ordered
 permutation is then unique (`OrderedPermutationsAgree`).
 */
module Ordering {

  ghost predicate StrictTotalOrder<T(!new)>(less: (T, T) -> bool) {
    && (forall a :: !less(a, a))
    && (forall a, b :: a != b ==> less(a, b) || less(b, a))
    && (forall a, b, c :: less(a, b) && less(b, c) ==> less(a, c))
  }

  /* ---------- Lexicographic extension ---------- */

  predicate LexLess<T(==)>(less: (T, T) -> bool, a: seq<T>, b: seq<T>) {
    if b == [] then false
    else if a == [] then true
    else if a[0] == b[0] then LexLess(less, a[1..], b[1..])
    else less(a[0], b[0])
  }

  lemma {:induction false} LexIrreflexive<T(!new)>(less: (T, T) -> bool, a: seq<T>)
    ensures !LexLess(less, a, a)
  {
    if a != [] {
      LexIrreflexive(less, a[1..]);
    }
  }

  lemma {:induction false} LexTotal<T(!new)>(less: (T, T) -> bool, a: seq<T>, b: seq<T>)
    requires StrictTotalOrder(less)
    requires a != b
    ensures LexLess(less, a, b) || LexLess(less, b, a)
  {
    if a != [] && b != [] && a[0] == b[0] {
      assert a == [a[0]] + a[1..] && b == [b[0]] + b[1..];
      LexTotal(less, a[1..], b[1..]);
    }
  }

  lemma {:induction false} LexTransitive<T(!new)>(less: (T, T) -> bool, a: seq<T>, b: seq<T>, c: seq<T>)
    requires StrictTotalOrder(less)
    requires LexLess(less, a, b) && LexLess(less, b, c)
    ensures LexLess(less, a, c)
  {
    if a != [] && a[0] == b[0] && b[0] == c[0] {
      LexTransitive(less, a[1..], b[1..], c[1..]);
    }
  }

  predicate CharLess(a: char, b: char) {
    a < b
  }

  /** The order of the source's `<` on strings. */
  predicate StringLess(a: string, b: string) {
    LexLess(CharLess, a, b)
  }

  lemma PrefixesDiffer(a: string, b: string)
    requires a != [] && b != [] && a[0] != b[0]
    ensures forall i :: 0 < i <= |a| && i <= |b| ==> a[..i] != b[..i]
  {
    forall i | 0 < i <= |a| && i <= |b| ensures a[..i] != b[..i] {
      assert a[..i][0] == a[0] && b[..i][0] == b[0];
    }
  }

  /**
   A string is less than another if it stops where the other goes on, or has the lesser
   character where they first differ.
   */
  lemma {:induction false} StringLessExactly(a: string, b: string)
    ensures StringLess(a, b) <==>
              exists i :: 0 <= i <= |a| && i < |b| && a[..i] == b[..i] && (i == |a| || a[i] < b[i])
  {
    if a != [] && b != [] && a[0] == b[0] {
      StringLessExactly(a[1..], b[1..]);
      if i :| && 0 <= i <= |a[1..]| && i < |b[1..]| && a[1..][..i] == b[1..][..i]
              && (i == |a[1..]| || a[1..][i] < b[1..][i]) {
        assert a[..i + 1] == [a[0]] + a[1..][..i] && b[..i + 1] == [b[0]] + b[1..][..i];
      }
      if i :| 0 <= i <= |a| && i < |b| && a[..i] == b[..i] && (i == |a| || a[i] < b[i]) {
        assert a[1..][..i - 1] == a[..i][1..] && b[1..][..i - 1] == b[..i][1..];
      }
    } else if a != [] && b != [] {
      PrefixesDiffer(a, b);
      assert a[0] < b[0] ==> a[..0] == b[..0];
    } else if b != [] {
      assert a[..0] == b[..0];
    }
  }

  lemma StringOrder()
    ensures StrictTotalOrder(StringLess)
  {
    assert StrictTotalOrder(CharLess);
    forall a: string ensures !StringLess(a, a) {
      LexIrreflexive(CharLess, a);
    }
    forall a: string, b: string | a != b ensures StringLess(a, b) || StringLess(b, a) {
      LexTotal(CharLess, a, b);
    }
    forall a: string, b: string, c: string | StringLess(a, b) && StringLess(b, c) ensures StringLess(a, c) {
      LexTransitive(CharLess, a, b, c);
    }
  }

  /* ---------- Sorting ---------- */

  /** What a sort promises of its result: no later element is less than an earlier one. */
  ghost predicate Ordered<T>(less: (T, T) -> bool, s: seq<T>) {
    forall i, j :: 0 <= i < j < |s| ==> !less(s[j], s[i])
  }

  ghost predicate StrictlyOrdered<T>(less: (T, T) -> bool, s: seq<T>) {
    forall i, j :: 0 <= i < j < |s| ==> less(s[i], s[j])
  }

  function Insert<T>(less: (T, T) -> bool, x: T, s: seq<T>): seq<T> {
    if s == [] || !less(s[0], x) then [x] + s else [s[0]] + Insert(less, x, s[1..])
  }

  function Sorted<T>(less: (T, T) -> bool, s: seq<T>): seq<T> {
    if s == [] then [] else Insert(less, s[0], Sorted(less, s[1..]))
  }

  lemma {:induction false} InsertKeepsOrder<T(!new)>(less: (T, T) -> bool, x: T, s: seq<T>)
    requires StrictTotalOrder(less)
    requires Ordered(less, s)
    ensures Ordered(less, Insert(less, x, s))
    ensures multiset(Insert(less, x, s)) == multiset{x} + multiset(s)
  {
    if s == [] {
    } else if !less(s[0], x) {
      forall j | 0 <= j < |s| ensures !less(s[j], x) {
        assert s[0] == s[j] || less(s[0], s[j]);
      }
    } else {
      var rest := Insert(less, x, s[1..]);
      InsertKeepsOrder(less, x, s[1..]);
      assert s == [s[0]] + s[1..];
      forall j | 0 <= j < |rest| ensures !less(rest[j], s[0]) {
        assert rest[j] in multiset(rest);
        if rest[j] == x {
        } else {
          assert rest[j] in multiset(s[1..]);
          var i :| 0 <= i < |s[1..]| && s[1..][i] == rest[j];
          assert s[i + 1] == rest[j];
        }
      }
    }
  }

  lemma {:induction false} SortedIsOrderedPermutation<T(!new)>(less: (T, T) -> bool, s: seq<T>)
    requires StrictTotalOrder(less)
    ensures Ordered(less, Sorted(less, s))
    ensures multiset(Sorted(less, s)) == multiset(s)
  {
    if s != [] {
      SortedIsOrderedPermutation(less, s[1..]);
      InsertKeepsOrder(less, s[0], Sorted(less, s[1..]));
      assert s == [s[0]] + s[1..];
    }
  }

  /** An ordered permutation is unique, so an unstable sort has only one possible result. */
  lemma {:induction false} OrderedPermutationsAgree<T(!new)>(less: (T, T) -> bool, a: seq<T>, b: seq<T>)
    requires StrictTotalOrder(less)
    requires multiset(a) == multiset(b)
    requires Ordered(less, a) && Ordered(less, b)
    ensures a == b
    decreases |a|
  {
    assert |a| == |multiset(a)| == |multiset(b)| == |b|;
    if a != [] {
      FirstIsLeast(less, a, b);
      FirstIsLeast(less, b, a);
      assert a[0] == b[0];
      TailMultiset(a);
      TailMultiset(b);
      OrderedPermutationsAgree(less, a[1..], b[1..]);
    }
  }

  lemma FirstIsLeast<T>(less: (T, T) -> bool, a: seq<T>, b: seq<T>)
    requires a != [] && b != [] && multiset(a) == multiset(b)
    requires Ordered(less, a)
    ensures b[0] == a[0] || !less(b[0], a[0])
  {
    assert b[0] in multiset(a);
    var j :| 0 <= j < |a| && a[j] == b[0];
  }

  lemma TailMultiset<T>(a: seq<T>)
    requires a != []
    ensures multiset(a[1..]) == multiset(a) - multiset{a[0]}
  {
    assert a == [a[0]] + a[1..];
  }

  /** The library sort: any ordered permutation may come back. */
  method SortSlice<T(!new)>(less: (T, T) -> bool, s: seq<T>) returns (r: seq<T>)
    requires StrictTotalOrder(less)
    ensures multiset(r) == multiset(s)
    ensures Ordered(less, r)
  {
    r := [];
    for i := 0 to |s|
      invariant Ordered(less, r)
      invariant multiset(r) == multiset(s[..i])
    {
      InsertKeepsOrder(less, s[i], r);
      r := Insert(less, s[i], r);
      assert s[..i + 1] == s[..i] + [s[i]];
    }
    assert s[..|s|] == s;
  }
}
