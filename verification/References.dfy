/**
 References to Secrets: deduplication through a NUL-joined key, and the sorted unique
 names that serve as the field index (internal/controller/secret_refs.go).
 */
module References {
  import opened Wrappers
  import opened Text
  import opened Ordering
  import opened Collections

  datatype Reference = Reference(secretName: string, fieldPath: string, container: string, key: string,
      optional: Option<bool>)

  function AppendReference(refs: seq<Reference>, ref: Reference): seq<Reference> {
    if ref.secretName == "" then refs else refs + [ref]
  }

  function BoolText(b: Option<bool>): string {
    match b
    case None => "<nil>"
    case Some(true) => "true"
    case Some(false) => "false"
  }

  lemma BoolTextIsInjective(a: Option<bool>, b: Option<bool>)
    requires BoolText(a) == BoolText(b)
    ensures a == b
  {
  }

  const NUL: char := '\0'

  /** The text under which the source remembers a reference it has seen. */
  function KeyOf(r: Reference): string {
    r.secretName + [NUL] + r.fieldPath + [NUL] + r.container + [NUL] + r.key + [NUL] + BoolText(r.optional)
  }

  /** No NUL in the parts of the key after the Secret name. */
  predicate NulFree(r: Reference) {
    NUL !in r.fieldPath && NUL !in r.container && NUL !in r.key
  }

  /** For such references the joined key says everything, whatever the Secret name holds. */
  lemma KeyIsInjective(a: Reference, b: Reference)
    requires NulFree(a) && NulFree(b)
    requires KeyOf(a) == KeyOf(b)
    ensures a == b
  {
    assert NUL !in BoolText(a.optional) && NUL !in BoolText(b.optional);
    var a3, b3 := a.secretName + [NUL] + a.fieldPath, b.secretName + [NUL] + b.fieldPath;
    var a4, b4 := a3 + [NUL] + a.container, b3 + [NUL] + b.container;
    var a5, b5 := a4 + [NUL] + a.key, b4 + [NUL] + b.key;
    JoinIsInjective(a5, BoolText(a.optional), b5, BoolText(b.optional), NUL);
    BoolTextIsInjective(a.optional, b.optional);
    JoinIsInjective(a4, a.key, b4, b.key, NUL);
    JoinIsInjective(a3, a.container, b3, b.container, NUL);
    JoinIsInjective(a.secretName, a.fieldPath, b.secretName, b.fieldPath, NUL);
  }

  /** A NUL inside a container name always has a rival reference with the same key, and one of the two is dropped. */
  lemma NulMakesKeysClash(r: Reference, x: string, y: string)
    requires r.container == x + [NUL] + y
    ensures var rival := r.(container := x, key := y + [NUL] + r.key);
            rival != r && KeyOf(rival) == KeyOf(r) && Dedupe([r, rival]) == [r]
  {
    var rival := r.(container := x, key := y + [NUL] + r.key);
    assert |rival.container| < |r.container|;
    assert KeyOf(rival) == KeyOf(r) by {
      var head := r.secretName + [NUL] + r.fieldPath + [NUL];
      assert head + (x + [NUL] + y) + [NUL] + r.key + [NUL] == head + x + [NUL] + (y + [NUL] + r.key) + [NUL];
    }
    SecondOfPairIsDropped(r, rival);
  }

  lemma KeyInParts(r: Reference)
    ensures KeyOf(r) ==
        r.secretName + [NUL] + (r.fieldPath + [NUL] + (r.container + [NUL] + r.key + [NUL] + BoolText(r.optional)))
  {
    hide BoolText;
    var rest := r.container + [NUL] + r.key + [NUL] + BoolText(r.optional);
    RestFollows(r.secretName + [NUL] + r.fieldPath + [NUL], r.container, r.key, BoolText(r.optional));
    HeadRegroups(r.secretName, r.fieldPath, rest);
  }

  lemma RestFollows(head: string, container: string, key: string, optional: string)
    ensures head + container + [NUL] + key + [NUL] + optional == head + (container + [NUL] + key + [NUL] + optional)
  {
    assert head + container + [NUL] == head + (container + [NUL]);
    assert head + (container + [NUL]) + key + [NUL] == head + (container + [NUL] + key + [NUL]);
  }

  lemma HeadRegroups(name: string, path: string, rest: string)
    ensures name + [NUL] + path + [NUL] + rest == name + [NUL] + (path + [NUL] + rest)
  {
  }

  /** The Secret name and the field path come first in the key: free of NULs, they can be read off it. */
  lemma KeyTellsNameAndPath(a: Reference, b: Reference)
    requires NUL !in a.secretName && NUL !in b.secretName && NUL !in a.fieldPath && NUL !in b.fieldPath
    requires KeyOf(a) == KeyOf(b)
    ensures a.secretName == b.secretName && a.fieldPath == b.fieldPath
  {
    hide KeyOf, BoolText;
    var restA := a.container + [NUL] + a.key + [NUL] + BoolText(a.optional);
    var restB := b.container + [NUL] + b.key + [NUL] + BoolText(b.optional);
    KeyInParts(a);
    KeyInParts(b);
    FirstPartIsTold(a.secretName, a.fieldPath + [NUL] + restA, b.secretName, b.fieldPath + [NUL] + restB);
    FirstPartIsTold(a.fieldPath, restA, b.fieldPath, restB);
  }

  lemma FirstPartIsTold(a: string, x: string, b: string, y: string)
    requires NUL !in a && NUL !in b && a + [NUL] + x == b + [NUL] + y
    ensures a == b && x == y
  {
    var joined := a + [NUL] + x;
    assert joined[|a|] == NUL && joined[|b|] == NUL;
    assert |a| == |b|;
    assert joined[..|a|] == a && joined[..|b|] == b;
    assert joined[|a| + 1..] == x && joined[|b| + 1..] == y;
  }

  lemma SecondOfPairIsDropped(a: Reference, b: Reference)
    requires KeyOf(a) == KeyOf(b)
    ensures Dedupe([a, b]) == [a]
  {
    hide KeyOf;
    assert [a, b][..1] == [a] && [a][..0] == [];
    assert KeySeen([a], b) by {
      assert a in [a];
    }
    assert Dedupe([a]) == Dedupe([]) + [a];
  }

  /* ---------- Deduplication ---------- */

  predicate KeySeen(refs: seq<Reference>, r: Reference) {
    exists x :: x in refs && KeyOf(x) == KeyOf(r)
  }

  /** Every reference whose key has not occurred before it, in order. */
  function Dedupe(refs: seq<Reference>): seq<Reference> {
    if refs == [] then []
    else
      var init, last := refs[..|refs| - 1], refs[|refs| - 1];
      if KeySeen(init, last) then Dedupe(init) else Dedupe(init) + [last]
  }

  method DedupeReferences(refs: seq<Reference>) returns (out: seq<Reference>)
    ensures out == Dedupe(refs)
  {
    hide KeyOf;
    if |refs| < 2 {
      DistinctKeysAreKept(refs);
      return refs;
    }
    var seen: set<string> := {};
    out := [];
    for i := 0 to |refs|
      invariant out == Dedupe(refs[..i])
      invariant seen == set r | r in refs[..i] :: KeyOf(r)
    {
      assert refs[..i + 1][..i] == refs[..i];
      var key := KeyOf(refs[i]);
      if key !in seen {
        seen := seen + {key};
        out := out + [refs[i]];
      }
    }
    assert refs[..|refs|] == refs;
  }

  ghost predicate DistinctKeys(refs: seq<Reference>) {
    forall i, j :: 0 <= i < j < |refs| ==> KeyOf(refs[i]) != KeyOf(refs[j])
  }

  lemma {:induction false} DedupeKeepsKeys(refs: seq<Reference>, r: Reference)
    ensures KeySeen(Dedupe(refs), r) <==> KeySeen(refs, r)
  {
    hide KeyOf;
    if refs != [] {
      var init, last := refs[..|refs| - 1], refs[|refs| - 1];
      DedupeKeepsKeys(init, r);
      assert refs == init + [last];
      assert KeySeen(refs, r) <==> KeySeen(init, r) || KeyOf(last) == KeyOf(r);
      if !KeySeen(init, last) {
        assert KeySeen(Dedupe(init) + [last], r) <==> KeySeen(Dedupe(init), r) || KeyOf(last) == KeyOf(r) by {
          assert last in Dedupe(init) + [last];
        }
      }
    }
  }

  ghost predicate IsFirstAt(refs: seq<Reference>, i: nat, r: Reference) {
    i < |refs| && refs[i] == r && !KeySeen(refs[..i], r)
  }

  /** Deduplication keeps a reference exactly when it is the first with its key. */
  lemma {:induction false} DedupeKeepsFirsts(refs: seq<Reference>, r: Reference)
    ensures r in Dedupe(refs) <==> exists i: nat :: IsFirstAt(refs, i, r)
  {
    hide KeyOf;
    if refs != [] {
      var n := |refs| - 1;
      var init := refs[..n];
      DedupeKeepsFirsts(init, r);
      forall i: nat | i < n ensures IsFirstAt(init, i, r) <==> IsFirstAt(refs, i, r) {
        assert init[..i] == refs[..i];
      }
      if !KeySeen(init, refs[n]) {
        assert IsFirstAt(refs, n, refs[n]);
      }
    }
  }

  /** What is kept stays in the order in which each was first met. */
  lemma {:induction false} DedupeKeepsOrder(refs: seq<Reference>, i: nat, j: nat)
    requires i < j < |Dedupe(refs)|
    ensures exists p, q :: IsFirstAt(refs, p, Dedupe(refs)[i]) && IsFirstAt(refs, q, Dedupe(refs)[j]) && p < q
  {
    hide KeyOf;
    var n := |refs| - 1;
    var init, out := refs[..n], Dedupe(refs);
    forall p: nat, r | p < n ensures IsFirstAt(init, p, r) <==> IsFirstAt(refs, p, r) {
      assert init[..p] == refs[..p];
    }
    if j < |Dedupe(init)| {
      DedupeKeepsOrder(init, i, j);
      var p, q :| IsFirstAt(init, p, Dedupe(init)[i]) && IsFirstAt(init, q, Dedupe(init)[j]) && p < q;
      assert IsFirstAt(refs, p, out[i]) && IsFirstAt(refs, q, out[j]);
    } else {
      assert out[i] in Dedupe(init);
      DedupeKeepsFirsts(init, out[i]);
      var p: nat :| IsFirstAt(init, p, out[i]);
      assert IsFirstAt(refs, p, out[i]) && IsFirstAt(refs, n, out[j]);
    }
  }

  /** No key, hence no reference, occurs twice in the result: no assumption on NULs is needed. */
  lemma {:induction false} DedupeLeavesNoDuplicates(refs: seq<Reference>)
    ensures DistinctKeys(Dedupe(refs))
    ensures NoDuplicates(Dedupe(refs))
  {
    hide KeyOf;
    if refs != [] {
      var init, last := refs[..|refs| - 1], refs[|refs| - 1];
      DedupeLeavesNoDuplicates(init);
      DedupeKeepsKeys(init, last);
      forall i | 0 <= i < |Dedupe(init)| && !KeySeen(init, last) ensures KeyOf(Dedupe(init)[i]) != KeyOf(last) {
        assert Dedupe(init)[i] in Dedupe(init);
      }
    }
  }

  lemma {:induction false} DistinctKeysAreKept(refs: seq<Reference>)
    requires DistinctKeys(refs)
    ensures Dedupe(refs) == refs
  {
    hide KeyOf;
    if refs != [] {
      var init := refs[..|refs| - 1];
      DistinctKeysAreKept(init);
      assert refs == init + [refs[|refs| - 1]];
      forall x | x in init ensures KeyOf(x) != KeyOf(refs[|refs| - 1]) {
        var i :| 0 <= i < |init| && init[i] == x;
        assert refs[i] == x;
      }
    }
  }

  lemma DedupeIsIdempotent(refs: seq<Reference>)
    ensures Dedupe(Dedupe(refs)) == Dedupe(refs)
  {
    hide KeyOf;
    DedupeLeavesNoDuplicates(refs);
    DistinctKeysAreKept(Dedupe(refs));
  }

  /** No reference is lost exactly when references that share a key are the same reference. */
  lemma DedupeIsLossless(refs: seq<Reference>)
    ensures (forall r :: r in refs ==> r in Dedupe(refs)) <==>
            (forall a, b :: a in refs && b in refs && KeyOf(a) == KeyOf(b) ==> a == b)
  {
    hide KeyOf;
    DedupeLeavesNoDuplicates(refs);
    var out := Dedupe(refs);
    if forall r :: r in refs ==> r in out {
      forall a, b | a in refs && b in refs && KeyOf(a) == KeyOf(b) ensures a == b {
        var i :| 0 <= i < |out| && out[i] == a;
        var j :| 0 <= j < |out| && out[j] == b;
      }
    }
    if forall a, b :: a in refs && b in refs && KeyOf(a) == KeyOf(b) ==> a == b {
      forall r | r in refs ensures r in out {
        assert KeySeen(refs, r);
        DedupeKeepsKeys(refs, r);
        var x :| x in out && KeyOf(x) == KeyOf(r);
        DedupeKeepsFirsts(refs, x);
      }
    }
  }

  lemma NulFreeDedupeIsLossless(refs: seq<Reference>)
    requires forall r :: r in refs ==> NulFree(r)
    ensures Elements(Dedupe(refs)) == Elements(refs)
  {
    hide KeyOf;
    forall a, b | a in refs && b in refs && KeyOf(a) == KeyOf(b) ensures a == b {
      KeyIsInjective(a, b);
    }
    DedupeIsLossless(refs);
    forall r | r in Dedupe(refs) ensures r in refs {
      DedupeKeepsFirsts(refs, r);
    }
  }

  /* ---------- The field index ---------- */

  function NamesIn(refs: seq<Reference>): set<string> {
    set r | r in refs && r.secretName != "" :: r.secretName
  }

  /** The index entry: the names referenced, each once, in increasing order. */
  ghost predicate IsIndexEntry(names: seq<string>, refs: seq<Reference>) {
    StrictlyOrdered(StringLess, names) && Elements(names) == NamesIn(refs)
  }

  method UniqueSortedSecretNames(refs: seq<Reference>) returns (names: seq<string>)
    ensures IsIndexEntry(names, refs)
  {
    if |refs| == 0 {
      return [];
    }
    var seen: set<string> := {};
    names := [];
    for i := 0 to |refs|
      invariant seen == NamesIn(refs[..i])
      invariant Enumerates(names, seen)
    {
      assert refs[..i + 1] == refs[..i] + [refs[i]];
      var name := refs[i].secretName;
      if name != "" && name !in seen {
        assert multiset(seen + {name}) == multiset(seen) + multiset{name};
        seen := seen + {name};
        names := names + [name];
      }
    }
    assert refs[..|refs|] == refs;
    StringOrder();
    var sorted := SortSlice(StringLess, names);
    EnumerationFacts(sorted, seen);
    EnumerationHasNoDuplicates(sorted, seen);
    names := sorted;
  }

  /** Only one sequence is the index entry of given references. */
  lemma IndexEntryIsUnique(a: seq<string>, b: seq<string>, refs: seq<Reference>)
    requires IsIndexEntry(a, refs) && IsIndexEntry(b, refs)
    ensures a == b
  {
    StringOrder();
    StrictlyOrderedEnumerates(a);
    StrictlyOrderedEnumerates(b);
    OrderedPermutationsAgree(StringLess, a, b);
  }

  lemma StrictlyOrderedEnumerates(a: seq<string>)
    requires StrictTotalOrder(StringLess) && StrictlyOrdered(StringLess, a)
    ensures Enumerates(a, Elements(a)) && Ordered(StringLess, a)
  {
    NoDuplicatesEnumerate(a);
  }
}
