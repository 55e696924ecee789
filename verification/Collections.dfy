/** Sequences that list a set without repetition, and finite sums. */
module Collections {

  function Elements<T(==)>(q: seq<T>): set<T> {
    set x | x in q
  }

  ghost predicate NoDuplicates<T>(q: seq<T>) {
    forall i, j :: 0 <= i < j < |q| ==> q[i] != q[j]
  }

  /** `q` lists every element of `s` exactly once, in some order. */
  predicate Enumerates<T(==)>(q: seq<T>, s: set<T>) {
    multiset(q) == multiset(s)
  }

  lemma EnumerationFacts<T>(q: seq<T>, s: set<T>)
    requires Enumerates(q, s)
    ensures |q| == |s|
    ensures Elements(q) == s
    ensures forall x :: x in q <==> x in s
  {
    assert |q| == |multiset(q)| == |multiset(s)| == |s|;
    forall x ensures x in q <==> x in s {
      assert x in q <==> x in multiset(q);
      assert x in s <==> x in multiset(s);
    }
  }

  lemma {:induction false} NoDuplicatesEnumerate<T>(q: seq<T>)
    requires NoDuplicates(q)
    ensures Enumerates(q, Elements(q))
  {
    if q != [] {
      var init := q[..|q| - 1];
      var last := q[|q| - 1];
      assert q == init + [last];
      NoDuplicatesEnumerate(init);
      assert Elements(q) == Elements(init) + {last};
      assert last !in Elements(init);
    } else {
      assert Elements(q) == {};
    }
  }

  lemma {:induction false} EnumerationHasNoDuplicates<T>(q: seq<T>, s: set<T>)
    requires Enumerates(q, s)
    ensures NoDuplicates(q)
  {
    forall i, j | 0 <= i < j < |q| ensures q[i] != q[j] {
      assert q == q[..i] + [q[i]] + q[i + 1..j] + [q[j]] + q[j + 1..];
      assert multiset(q)[q[i]] >= if q[i] == q[j] then 2 else 1;
      assert multiset(s)[q[i]] <= 1;
    }
  }

  lemma NoDuplicatesConcat<T>(p: seq<T>, q: seq<T>)
    requires NoDuplicates(p) && NoDuplicates(q)
    requires forall x :: x in p ==> x !in q
    ensures NoDuplicates(p + q)
  {
    forall i, j | 0 <= i < j < |p + q| ensures (p + q)[i] != (p + q)[j] {
      if i < |p| <= j {
        assert p[i] in p && q[j - |p|] in q;
      }
    }
  }

  lemma EnumeratesConcat<T>(p: seq<T>, q: seq<T>, s: set<T>, t: set<T>)
    requires Enumerates(p, s) && Enumerates(q, t)
    requires s !! t
    ensures Enumerates(p + q, s + t)
  {
  }

  /* ---------- Flattening ---------- */

  function Flatten<T>(qs: seq<seq<T>>): seq<T> {
    if qs == [] then [] else Flatten(qs[..|qs| - 1]) + qs[|qs| - 1]
  }

  function UnionOf<T>(ss: seq<set<T>>): set<T> {
    if ss == [] then {} else UnionOf(ss[..|ss| - 1]) + ss[|ss| - 1]
  }

  lemma {:induction false} InUnionOf<T>(ss: seq<set<T>>, x: T)
    ensures x in UnionOf(ss) <==> exists i :: 0 <= i < |ss| && x in ss[i]
  {
    if ss != [] {
      var init := ss[..|ss| - 1];
      InUnionOf(init, x);
      assert forall i :: 0 <= i < |init| ==> init[i] == ss[i];
    }
  }

  ghost predicate PairwiseDisjoint<T>(ss: seq<set<T>>) {
    forall i, j :: 0 <= i < j < |ss| ==> ss[i] !! ss[j]
  }

  /** Flattening lists of pairwise disjoint sets lists their union, so nothing repeats. */
  lemma {:induction false} FlattenEnumeratesUnion<T>(qs: seq<seq<T>>, ss: seq<set<T>>)
    requires |qs| == |ss|
    requires forall i :: 0 <= i < |qs| ==> Enumerates(qs[i], ss[i])
    requires PairwiseDisjoint(ss)
    ensures Enumerates(Flatten(qs), UnionOf(ss))
    decreases |qs|
  {
    if qs != [] {
      var n := |qs| - 1;
      FlattenEnumeratesUnion(qs[..n], ss[..n]);
      forall x | x in UnionOf(ss[..n]) ensures x !in ss[n] {
        InUnionOf(ss[..n], x);
      }
      EnumeratesConcat(Flatten(qs[..n]), qs[n], UnionOf(ss[..n]), ss[n]);
    }
  }
}
