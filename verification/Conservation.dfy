/**
 Conservation: in a namespace, the usage counts of all Secrets add up to the number of
 references of all tracked objects. Every reference is attributed to exactly one Secret.
 */
module Conservation {
  import opened Collections
  import opened Objects
  import opened References
  import opened Usages
  import opened Collection
  import opened Documents
  import opened Protocol
  import opened Convergence
  import Termination

  /* ---------- Sums over finite sets ---------- */

  ghost function Sum<T>(s: set<T>, f: T -> nat): nat {
    if s == {} then 0
    else
      var x :| x in s;
      f(x) + Sum(s - {x}, f)
  }

  lemma {:induction false} SumSplits<T>(s: set<T>, f: T -> nat, x: T)
    requires x in s
    ensures Sum(s, f) == f(x) + Sum(s - {x}, f)
    decreases |s|
  {
    var picked :| picked in s && Sum(s, f) == f(picked) + Sum(s - {picked}, f);
    if picked != x {
      SumSplits(s - {picked}, f, x);
      SumSplits(s - {x}, f, picked);
      assert s - {picked} - {x} == s - {x} - {picked};
    }
  }

  lemma {:induction false} SumOfSums<T>(s: set<T>, f: T -> nat, g: T -> nat, h: T -> nat)
    requires forall x :: x in s ==> h(x) == f(x) + g(x)
    ensures Sum(s, h) == Sum(s, f) + Sum(s, g)
    decreases |s|
  {
    if s != {} {
      var x :| x in s;
      SumSplits(s, f, x);
      SumSplits(s, g, x);
      SumSplits(s, h, x);
      SumOfSums(s - {x}, f, g, h);
    }
  }

  lemma {:induction false} SumOfEquals<T>(s: set<T>, f: T -> nat, g: T -> nat)
    requires forall x :: x in s ==> f(x) == g(x)
    ensures Sum(s, f) == Sum(s, g)
    decreases |s|
  {
    if s != {} {
      var x :| x in s;
      SumSplits(s, f, x);
      SumSplits(s, g, x);
      SumOfEquals(s - {x}, f, g);
    }
  }

  lemma {:induction false} SumOfZeros<T>(s: set<T>, f: T -> nat)
    requires forall x :: x in s ==> f(x) == 0
    ensures Sum(s, f) == 0
    decreases |s|
  {
    if s != {} {
      var x :| x in s;
      SumSplits(s, f, x);
      SumOfZeros(s - {x}, f);
    }
  }

  /** Adding members that count for nothing changes no sum. */
  lemma {:induction false} SumOverMore<T>(s: set<T>, more: set<T>, f: T -> nat)
    requires s <= more && forall x :: x in more && x !in s ==> f(x) == 0
    ensures Sum(more, f) == Sum(s, f)
    decreases |s|
  {
    if s == {} {
      SumOfZeros(more, f);
    } else {
      var x :| x in s;
      SumSplits(s, f, x);
      SumSplits(more, f, x);
      SumOverMore(s - {x}, more - {x}, f);
    }
  }

  /* ---------- One object ---------- */

  lemma SumOfSingle<T>(s: set<T>, x: T, f: T -> nat)
    requires x in s && f(x) == 1 && forall y :: y in s && y != x ==> f(y) == 0
    ensures Sum(s, f) == 1
  {
    SumSplits(s, f, x);
    SumOfZeros(s - {x}, f);
  }

  /** Each reference is selected for exactly one name. */
  lemma {:induction false} SelectionsAddUp(r: Resource, refs: seq<Reference>, names: set<string>)
    requires forall ref :: ref in refs ==> ref.secretName in names
    ensures Sum(names, n => |Select(r, refs, n)|) == |refs|
  {
    var f := n => |Select(r, refs, n)|;
    if refs == [] {
      SumOfZeros(names, f);
    } else {
      var init, last := refs[..|refs| - 1], refs[|refs| - 1];
      SelectionsAddUp(r, init, names);
      var g := n => |Select(r, init, n)|;
      var h := (n: string) => if n == last.secretName then 1 else 0;
      SumOfSums(names, g, h, f);
      SumOfSingle(names, last.secretName, h);
    }
  }

  /* ---------- All objects ---------- */

  /** The entries that the objects in `ids` contribute to one key. */
  ghost function UsagesOf(config: Config, c: Cluster, ids: set<ObjectId>, key: NamespacedName): set<Usage> {
    set id, u | id in ids && id in c.objects && u in Contribution(config, c.objects[id], key) :: u
  }

  /** Two different objects of one cluster never lead to the same entry, whatever their kinds. */
  lemma EntriesNameTheirObject(config: Config, c: Cluster, key: NamespacedName, a: ObjectId, b: ObjectId, u: Usage)
    requires ValidConfig(config) && ValidCluster(c) && a in c.objects && b in c.objects
    requires u in Contribution(config, c.objects[a], key) && u in Contribution(config, c.objects[b], key)
    ensures a == b
  {
    hide ValidConfig, ValidCluster, SourceUsages, Answers, SourceKind, Sources, Contribution;
    var i := SourceOfContribution(config, c, key, a, u);
    var j := SourceOfContribution(config, c, key, b, u);
    AnswersAreDisjoint(config, c, key);
    AnswersLength(config, c, key);
    if i == j && a != b {
      SameKindEntriesDiffer(config, c, key, a, b, u);
    }
  }

  lemma SameKindEntriesDiffer(config: Config, c: Cluster, key: NamespacedName, a: ObjectId, b: ObjectId, u: Usage)
    requires ValidCluster(c) && a in c.objects && b in c.objects && a != b
    requires KindOf(c.objects[a]) == KindOf(c.objects[b])
    requires u in Contribution(config, c.objects[a], key)
    ensures u !in Contribution(config, c.objects[b], key)
  {
    hide Contribution;
    ContributionsOfDifferentObjectsDiffer(config, c, key, a, b);
    assert u in Elements(Contribution(config, c.objects[a], key));
  }

  lemma SourceOfContribution(config: Config, c: Cluster, key: NamespacedName, id: ObjectId, u: Usage) returns (i: nat)
    requires id in c.objects && u in Contribution(config, c.objects[id], key)
    ensures i < |Sources(config)| == |Answers(config, c, key)|
    ensures SourceKind(Sources(config)[i]) == KindOf(c.objects[id]) && u in Answers(config, c, key)[i]
  {
    hide UsagesIn, SkipPod, Sources;
    UsagesInComeFrom(config.rules, c.objects[id], key.name, u);
    i := SourceOf(config, c.objects[id]);
    assert u in SourceUsages(config, c, Sources(config)[i], key);
  }

  /** One more object adds exactly its own number of entries. */
  lemma OneMoreObjectCounts(config: Config, c: Cluster, ids: set<ObjectId>, id: ObjectId, key: NamespacedName)
    requires ValidConfig(config) && ValidCluster(c)
    requires id in c.objects && id !in ids
    ensures |UsagesOf(config, c, ids + {id}, key)| ==
        |UsagesOf(config, c, ids, key)| + |Contribution(config, c.objects[id], key)|
  {
    hide Contribution, ValidConfig;
    var more := Contribution(config, c.objects[id], key);
    ContributionIsDistinct(config, c.objects[id], key);
    EnumerationFacts(more, Elements(more));
    forall u | u in UsagesOf(config, c, ids, key) ensures u !in Elements(more) {
      if u in more {
        var other :| other in ids && other in c.objects && u in Contribution(config, c.objects[other], key);
        EntriesNameTheirObject(config, c, key, other, id, u);
      }
    }
    assert UsagesOf(config, c, ids + {id}, key) == UsagesOf(config, c, ids, key) + Elements(more);
  }

  /** The number of references of an object that the controller tracks in this namespace. */
  ghost function TrackedCount(config: Config, c: Cluster, namespace: string, id: ObjectId): nat {
    if id !in c.objects || c.objects[id].meta.namespace != namespace || SkipPod(config, c.objects[id]) then 0
    else |TrackedReferences(config.rules, c.objects[id])|
  }

  lemma ObjectCountsAddUp(config: Config, c: Cluster, namespace: string, id: ObjectId, names: set<string>)
    requires id in c.objects
    requires IndexNames(config.rules, c.objects[id]) <= names
    ensures Sum(names, n => |Contribution(config, c.objects[id], NamespacedName(namespace, n))|) ==
        TrackedCount(config, c, namespace, id)
  {
    hide TrackedReferences, Select, SkipPod;
    var r := c.objects[id];
    var f := n => |Contribution(config, r, NamespacedName(namespace, n))|;
    if r.meta.namespace != namespace || SkipPod(config, r) {
      SumOfZeros(names, f);
    } else {
      TrackedNamesAreNotEmpty(config.rules, r);
      var refs := TrackedReferences(config.rules, r);
      forall ref | ref in refs ensures ref.secretName in names {
        assert ref.secretName in IndexNames(config.rules, r);
      }
      SelectionsAddUp(r, refs, names);
      SumOfEquals(names, f, n => |Select(r, refs, n)|);
    }
  }

  lemma {:induction false} CountsAddUp(config: Config, c: Cluster, namespace: string, ids: set<ObjectId>,
      names: set<string>)
    requires ValidConfig(config) && ValidCluster(c) && ids <= c.objects.Keys
    requires forall id :: id in ids ==> IndexNames(config.rules, c.objects[id]) <= names
    ensures Sum(names, n => |UsagesOf(config, c, ids, NamespacedName(namespace, n))|)
            == Sum(ids, id => TrackedCount(config, c, namespace, id))
    decreases |ids|
  {
    hide Contribution, ValidConfig, ValidCluster, IndexNames, TrackedCount;
    var f := n => |UsagesOf(config, c, ids, NamespacedName(namespace, n))|;
    var count := id => TrackedCount(config, c, namespace, id);
    if ids == {} {
      SumOfZeros(names, f);
    } else {
      var id :| id in ids;
      var rest := ids - {id};
      CountsAddUp(config, c, namespace, rest, names);
      hide UsagesOf;
      var g := n => |UsagesOf(config, c, rest, NamespacedName(namespace, n))|;
      var h := n => |Contribution(config, c.objects[id], NamespacedName(namespace, n))|;
      assert rest + {id} == ids;
      forall n | n in names ensures f(n) == g(n) + h(n) {
        OneMoreObjectCounts(config, c, rest, id, NamespacedName(namespace, n));
      }
      SumOfSums(names, g, h, f);
      ObjectCountsAddUp(config, c, namespace, id, names);
      SumSplits(ids, count, id);
    }
  }

  /** Every Secret name some object in the cluster references. */
  ghost function AllNames(config: Config, c: Cluster): set<string> {
    set id, n | id in c.objects && n in IndexNames(config.rules, c.objects[id]) :: n
  }

  /**
   In any namespace, over any set of names that takes in every name referenced, the sizes
   of the collected lists add up to the number of references of the tracked objects.
   */
  lemma ReferencesAreConserved(config: Config, c: Cluster, namespace: string, names: set<string>)
    requires ValidConfig(config) && ValidCluster(c) && AllNames(config, c) <= names
    ensures Sum(names, n => |Canonical(FullScan(config, c, NamespacedName(namespace, n)))|)
            == Sum(c.objects.Keys, id => TrackedCount(config, c, namespace, id))
  {
    hide Contribution, ValidConfig, ValidCluster, IndexNames, Canonical, TrackedCount;
    var f := n => |Canonical(FullScan(config, c, NamespacedName(namespace, n)))|;
    var g := n => |UsagesOf(config, c, c.objects.Keys, NamespacedName(namespace, n))|;
    forall n | n in names ensures f(n) == g(n) {
      var key := NamespacedName(namespace, n);
      assert FullScan(config, c, key) == UsagesOf(config, c, c.objects.Keys, key);
      CanonicalFacts(FullScan(config, c, key));
    }
    SumOfEquals(names, f, g);
    forall id | id in c.objects.Keys ensures IndexNames(config.rules, c.objects[id]) <= names {
      assert IndexNames(config.rules, c.objects[id]) <= AllNames(config, c);
    }
    CountsAddUp(config, c, namespace, c.objects.Keys, names);
  }

  /* ---------- At rest ---------- */

  function StoredCount(stored: map<NamespacedName, Document>, key: NamespacedName): int {
    if key in stored then Decode(stored[key].status).usageCount else 0
  }

  /** A settled key has its true count on record, as long as the count fits 32 bits. */
  lemma SettledCountIsTrue(s: State, key: NamespacedName)
    requires Converged(s, key) && |AllUsages(s, key)| < TWO_TO_31
    ensures StoredCount(s.stored, key) == |AllUsages(s, key)|
  {
    hide AllUsages, DesiredLabels, SeriesAt;
    Int32IsExact(|AllUsages(s, key)|);
  }

  /** So once the controller is at rest, the counts on record add up to the references there are. */
  lemma RecordedCountsAreConserved(s: State, namespace: string, names: set<string>)
    requires Inv(s) && Quiescent(s) && AllNames(s.config, s.cluster) <= names
    requires forall key :: |AllUsages(s, key)| < TWO_TO_31
    ensures forall n :: StoredCount(s.stored, NamespacedName(namespace, n)) >= 0
    ensures Sum(names, n => StoredCount(s.stored, NamespacedName(namespace, n)) as nat)
            == Sum(s.cluster.objects.Keys, id => TrackedCount(s.config, s.cluster, namespace, id))
  {
    hide Converged, ValidConfig, TrackedCount, StoredCount, FullScan, Canonical, AllNames, KeyInv;
    Termination.RestIsConverged(s);
    forall n ensures StoredCount(s.stored, NamespacedName(namespace, n)) ==
        |AllUsages(s, NamespacedName(namespace, n))| {
      SettledCountIsTrue(s, NamespacedName(namespace, n));
    }
    ReferencesAreConserved(s.config, s.cluster, namespace, names);
    SumOfEquals(names, n => StoredCount(s.stored, NamespacedName(namespace, n)) as nat,
                n => |Canonical(FullScan(s.config, s.cluster, NamespacedName(namespace, n)))|);
  }
}
