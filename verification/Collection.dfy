/**
 The cluster as the informer cache shows it, the indexed lists a reconcile reads, and
 which keys an event enqueues (internal/controller/secretusage_controller.go).
 */
module Collection {
  import opened Wrappers
  import opened Ordering
  import opened Collections
  import opened Objects
  import opened References
  import opened Rules
  import opened Usages
  import Extraction

  datatype NamespacedName = NamespacedName(namespace: string, name: string)

  datatype ObjectId = ObjectId(kind: Kind, namespace: string, name: string)

  datatype Config = Config(
    maxUsages: int,
    trackOwnedPods: bool,
    trackUnusedSecrets: bool,
    perSecretMetrics: bool,
    rules: seq<CompiledRule>)

  /** Secrets and tracked objects, and whether the API server enforces the schema of SecretUsage objects. */
  datatype Cluster = Cluster(
    secrets: set<NamespacedName>,
    objects: map<ObjectId, Resource>,
    enforcesSchema: bool)

  function IdOf(r: Resource): ObjectId {
    ObjectId(KindOf(r), r.meta.namespace, r.meta.name)
  }

  ghost predicate ValidCluster(c: Cluster) {
    forall id :: id in c.objects ==> IdOf(c.objects[id]) == id
  }

  predicate ValidConfig(config: Config) {
    ValidRules(config.rules)
  }

  /* ---------- Pods covered by their controller ---------- */

  /** The controller kinds whose Pod templates are tracked, as the source spells them. */
  const POD_CONTROLLER_KINDS: set<string> :=
    {"apps/v1|ReplicaSet", "apps/v1|StatefulSet", "apps/v1|DaemonSet", "batch/v1|Job", "v1|ReplicationController"}

  predicate IsTrackedController(owner: OwnerReference) {
    owner.controller == Some(true) && owner.apiVersion + "|" + owner.kind in POD_CONTROLLER_KINDS
  }

  predicate PodIsCovered(owners: seq<OwnerReference>) {
    exists owner :: owner in owners && IsTrackedController(owner)
  }

  lemma BarSplits(a: string, b: string, c: string, d: string)
    requires '|' !in c && '|' !in d
    ensures a + "|" + b == c + "|" + d <==> a == c && b == d
  {
    if a + "|" + b == c + "|" + d {
      var joined := c + "|" + d;
      assert forall i :: 0 <= i < |joined| && joined[i] == '|' ==> i == |c|;
      assert joined[|a|] == '|';
      assert a == joined[..|a|] && c == joined[..|c|];
      assert b == joined[|a| + 1..] && d == joined[|c| + 1..];
    }
  }

  lemma ControllerKindsSplit(apiVersion: string, kind: string)
    ensures apiVersion + "|" + kind in POD_CONTROLLER_KINDS <==>
              || (apiVersion == "apps/v1" && kind in {"ReplicaSet", "StatefulSet", "DaemonSet"})
              || (apiVersion == "batch/v1" && kind == "Job")
              || (apiVersion == "v1" && kind == "ReplicationController")
  {
    BarSplits(apiVersion, kind, "apps/v1", "ReplicaSet");
    BarSplits(apiVersion, kind, "apps/v1", "StatefulSet");
    BarSplits(apiVersion, kind, "apps/v1", "DaemonSet");
    BarSplits(apiVersion, kind, "batch/v1", "Job");
    BarSplits(apiVersion, kind, "v1", "ReplicationController");
    BarTexts();
  }

  lemma BarTexts()
    ensures "apps/v1" + "|" + "ReplicaSet" == "apps/v1|ReplicaSet"
    ensures "apps/v1" + "|" + "StatefulSet" == "apps/v1|StatefulSet"
    ensures "apps/v1" + "|" + "DaemonSet" == "apps/v1|DaemonSet"
    ensures "batch/v1" + "|" + "Job" == "batch/v1|Job"
    ensures "v1" + "|" + "ReplicationController" == "v1|ReplicationController"
  {
  }

  /** An owner is tracked exactly when it is marked as the controller and is of one of five kinds. */
  lemma TrackedControllersAre(owner: OwnerReference)
    ensures IsTrackedController(owner) <==>
              exists kind ::
                && owner.controller == Some(true)
                && kind in {ReplicaSetKind, StatefulSetKind, DaemonSetKind, JobKind, ReplicationControllerKind}
                && owner.apiVersion == GroupVersionText(GvkOf(kind)) && owner.kind == GvkOf(kind).kind
  {
    KindTexts();
    ControllerKindsSplit(owner.apiVersion, owner.kind);
    hide GroupVersionText, GvkOf;
    var five := {ReplicaSetKind, StatefulSetKind, DaemonSetKind, JobKind, ReplicationControllerKind};
    assert forall kind :: kind in five ==>
             kind == ReplicaSetKind || kind == StatefulSetKind || kind == DaemonSetKind || kind == JobKind ||
                 kind == ReplicationControllerKind;
    assert ReplicaSetKind in five && StatefulSetKind in five && DaemonSetKind in five && JobKind in five &&
        ReplicationControllerKind in five;
  }

  lemma CoveredMeansControlled(owners: seq<OwnerReference>)
    ensures PodIsCovered(owners) <==>
              exists owner, kind ::
                && owner in owners && owner.controller == Some(true)
                && kind in {ReplicaSetKind, StatefulSetKind, DaemonSetKind, JobKind, ReplicationControllerKind}
                && owner.apiVersion == GroupVersionText(GvkOf(kind)) && owner.kind == GvkOf(kind).kind
  {
    hide GroupVersionText, GvkOf, IsTrackedController;
    forall owner
      ensures IsTrackedController(owner) <==>
                exists kind ::
                  && owner.controller == Some(true)
                  && kind in {ReplicaSetKind, StatefulSetKind, DaemonSetKind, JobKind, ReplicationControllerKind}
                  && owner.apiVersion == GroupVersionText(GvkOf(kind)) && owner.kind == GvkOf(kind).kind
    {
      TrackedControllersAre(owner);
    }
  }

  method PodIsCoveredByController(owners: seq<OwnerReference>) returns (covered: bool)
    ensures covered <==>
              exists owner, kind ::
                && owner in owners && owner.controller == Some(true)
                && kind in {ReplicaSetKind, StatefulSetKind, DaemonSetKind, JobKind, ReplicationControllerKind}
                && owner.apiVersion == GroupVersionText(GvkOf(kind)) && owner.kind == GvkOf(kind).kind
    ensures covered == PodIsCovered(owners)
  {
    CoveredMeansControlled(owners);
    for i := 0 to |owners|
      invariant !PodIsCovered(owners[..i])
    {
      assert owners[..i + 1] == owners[..i] + [owners[i]];
      var owner := owners[i];
      if owner.controller == None || !owner.controller.value {
        continue;
      }
      if owner.apiVersion + "|" + owner.kind in POD_CONTROLLER_KINDS {
        assert IsTrackedController(owner) && owner in owners;
        return true;
      }
    }
    assert owners[..|owners|] == owners;
    return false;
  }

  predicate SkipPod(config: Config, r: Resource) {
    r.Pod? && !config.trackOwnedPods && PodIsCovered(r.meta.ownerReferences)
  }

  /* ---------- What one object contributes to one key ---------- */

  function Contribution(config: Config, r: Resource, key: NamespacedName): seq<Usage> {
    if r.meta.namespace != key.namespace || SkipPod(config, r) then [] else UsagesIn(config.rules, r, key.name)
  }

  /**
   An object contributes to a key of its own namespace, unless it is a Pod left out, one
   entry for each of its references that names the Secret, and says in it what the
   reference says; it contributes nothing else.
   */
  lemma ContributionIs(config: Config, r: Resource, key: NamespacedName, u: Usage)
    ensures u in Contribution(config, r, key) <==>
              && r.meta.namespace == key.namespace
              && !(r.Pod? && !config.trackOwnedPods && PodIsCovered(r.meta.ownerReferences))
              && exists ref ::
                   && ref in TrackedReferences(config.rules, r) && ref.secretName == key.name
                   && u.apiVersion == GroupVersionText(GvkOf(KindOf(r))) && u.kind == GvkOf(KindOf(r)).kind
                   && u.namespace == r.meta.namespace && u.name == r.meta.name && u.uid == r.meta.uid
                   && u.fieldPath == ref.fieldPath && u.container == ref.container
                   && u.key == ref.key && u.optional == ref.optional
  {
    hide UsagesIn, TrackedReferences, PodIsCovered, GroupVersionText, GvkOf, KindOf;
    EntriesDescribeReferences(config.rules, r, key.name, u);
  }

  lemma ContributionIsDistinct(config: Config, r: Resource, key: NamespacedName)
    ensures Enumerates(Contribution(config, r, key), Elements(Contribution(config, r, key)))
  {
    UsagesInAreDistinct(config.rules, r, key.name);
    assert Elements<Usage>([]) == {};
  }

  /* ---------- The lists a reconcile reads ---------- */

  /** One list call: a built-in kind, or the kind of a configured rule. */
  datatype Source = BuiltIn(builtIn: Kind) | ByRule(rule: CompiledRule)

  function SourceKind(s: Source): Kind {
    match s
    case BuiltIn(kind) => kind
    case ByRule(rule) => CustomKind(rule.gvk)
  }

  function BuiltInSources(): seq<Source> {
    seq(|INDEXED_KINDS|, i requires 0 <= i < |INDEXED_KINDS| => BuiltIn(INDEXED_KINDS[i]))
  }

  /** The collectors in call order: the ten built-in kinds, then every rule. */
  function Sources(config: Config): seq<Source> {
    BuiltInSources() + seq(|config.rules|, i requires 0 <= i < |config.rules| => ByRule(config.rules[i]))
  }

  /** The entries one list call should lead to. */
  function SourceUsages(config: Config, c: Cluster, s: Source, key: NamespacedName): set<Usage> {
    set id, u | id in c.objects && KindOf(c.objects[id]) == SourceKind(s) &&
        u in Contribution(config, c.objects[id], key) :: u
  }

  /** The entries a scan of every object in the cluster leads to, with no index involved. */
  function FullScan(config: Config, c: Cluster, key: NamespacedName): set<Usage> {
    set id, u | id in c.objects && u in Contribution(config, c.objects[id], key) :: u
  }

  function Listable(config: Config, c: Cluster, s: Source, key: NamespacedName): set<ObjectId> {
    set id | id in c.objects && KindOf(c.objects[id]) == SourceKind(s)
             && c.objects[id].meta.namespace == key.namespace && key.name in IndexNames(config.rules, c.objects[id])
  }

  /** A set in whatever order the library returns it. */
  method ListInAnyOrder<T(==)>(all: set<T>) returns (ids: seq<T>)
    ensures Enumerates(ids, all)
  {
    ids := [];
    var todo := all;
    while todo != {}
      invariant todo <= all
      invariant Enumerates(ids, all - todo)
      decreases |todo|
    {
      var id :| id in todo;
      EnumeratesConcat(ids, [id], all - todo, {id});
      assert all - (todo - {id}) == (all - todo) + {id};
      todo := todo - {id};
      ids := ids + [id];
    }
    assert all - {} == all;
  }

  /** The library's indexed list: every matching object once, in whatever order the cache returns. */
  method ListIndexed(config: Config, c: Cluster, s: Source, key: NamespacedName) returns (ids: seq<ObjectId>)
    ensures NoDuplicates(ids)
    ensures forall id :: id in ids <==> id in Listable(config, c, s, key)
  {
    hide Listable;
    ids := ListInAnyOrder(Listable(config, c, s, key));
    EnumerationFacts(ids, Listable(config, c, s, key));
    EnumerationHasNoDuplicates(ids, Listable(config, c, s, key));
  }

  ghost predicate InCluster(c: Cluster, ids: seq<ObjectId>) {
    forall id :: id in ids ==> id in c.objects
  }

  ghost function UsagesOfIds(config: Config, c: Cluster, ids: seq<ObjectId>, key: NamespacedName): set<Usage>
    requires InCluster(c, ids)
  {
    set id, u | id in ids && u in Contribution(config, c.objects[id], key) :: u
  }

  lemma ContributionsOfDifferentObjectsDiffer(config: Config, c: Cluster, key: NamespacedName, a: ObjectId, b: ObjectId)
    requires ValidCluster(c) && a in c.objects && b in c.objects && a != b
    requires a.kind == b.kind
    ensures Elements(Contribution(config, c.objects[a], key)) !! Elements(Contribution(config, c.objects[b], key))
  {
    hide UsagesIn;
    forall u | u in Contribution(config, c.objects[a], key) &&
        u in Contribution(config, c.objects[b], key) ensures false {
      UsagesInComeFrom(config.rules, c.objects[a], key.name, u);
      UsagesInComeFrom(config.rules, c.objects[b], key.name, u);
    }
  }

  /** One more listed object adds its entries, all of them new. */
  lemma OneMoreObject(config: Config, c: Cluster, key: NamespacedName, ids: seq<ObjectId>, id: ObjectId,
      usages: seq<Usage>, more: seq<Usage>)
    requires ValidCluster(c) && InCluster(c, ids + [id])
    requires id !in ids && forall other :: other in ids ==> other.kind == id.kind
    requires InCluster(c, ids) && Enumerates(usages, UsagesOfIds(config, c, ids, key))
    requires more == Contribution(config, c.objects[id], key) && Enumerates(more, Elements(more))
    ensures Enumerates(usages + more, UsagesOfIds(config, c, ids + [id], key))
  {
    hide Contribution;
    var before := UsagesOfIds(config, c, ids, key);
    forall u | u in Elements(more) ensures u !in before {
      if u in before {
        var other :| other in ids && u in Contribution(config, c.objects[other], key);
        ContributionsOfDifferentObjectsDiffer(config, c, key, other, id);
      }
    }
    EnumeratesConcat(usages, more, before, Elements(more));
    assert UsagesOfIds(config, c, ids + [id], key) == before + Elements(more);
  }

  /**
   One collector: an indexed list, then a filter. Although it looks only at objects the
   index lists, it finds exactly the entries of every object of its kind, each once.
   */
  method CollectFrom(config: Config, c: Cluster, s: Source, key: NamespacedName) returns (usages: seq<Usage>)
    requires ValidCluster(c) && ValidConfig(config) && s in Sources(config)
    ensures Enumerates(usages, SourceUsages(config, c, s, key))
  {
    hide Contribution, IndexNames, SourceUsages, UsagesOfIds, Sources, ValidConfig;
    var ids := ListIndexed(config, c, s, key);
    assert forall id :: id in ids ==>
        id in c.objects && KindOf(c.objects[id]) == SourceKind(s) && id.kind == SourceKind(s)
                                      && c.objects[id].meta.namespace == key.namespace;
    hide Listable, SourceKind;
    usages := [];
    UsagesOfNone(config, c, key);
    for i := 0 to |ids|
      invariant InCluster(c, ids[..i]) && Enumerates(usages, UsagesOfIds(config, c, ids[..i], key))
    {
      var id := ids[i];
      assert id in ids && ids[..i + 1] == ids[..i] + [id];
      var more := ContributionOf(config, s, c.objects[id], key);
      OneMoreObject(config, c, key, ids[..i], id, usages, more);
      usages := usages + more;
    }
    assert ids[..|ids|] == ids;
    ListedObjectsSuffice(config, c, s, key, ids);
  }

  lemma UsagesOfNone(config: Config, c: Cluster, key: NamespacedName)
    ensures UsagesOfIds(config, c, [], key) == {}
  {
  }

  /** The body of a collector's loop: skip a covered Pod, otherwise take the object's entries. */
  method ContributionOf(config: Config, s: Source, r: Resource, key: NamespacedName) returns (usages: seq<Usage>)
    requires ValidConfig(config) && s in Sources(config)
    requires KindOf(r) == SourceKind(s) && r.meta.namespace == key.namespace
    ensures usages == Contribution(config, r, key)
    ensures Enumerates(usages, Elements(usages))
  {
    hide UsagesIn, RuleFor;
    ContributionIsDistinct(config, r, key);
    SourcesAreKnown(config, s);
    match s
    case BuiltIn(_) =>
      if r.Pod? && !config.trackOwnedPods {
        var covered := PodIsCoveredByController(r.meta.ownerReferences);
        if covered {
          return [];
        }
      }
      usages := UsageReferencesForObject(config.rules, r, key.name);
    case ByRule(rule) =>
      RuleForIsTheRule(config.rules, rule);
      usages := RuleUsageReferences(config.rules, rule, r, key.name);
  }

  lemma SourcesAreKnown(config: Config, s: Source)
    requires s in Sources(config)
    ensures s.BuiltIn? ==> s.builtIn in INDEXED_KINDS && !s.builtIn.CustomKind?
    ensures s.ByRule? ==> s.rule in config.rules
  {
  }

  /**
   Nothing is lost by leaving a Pod out for want of an owner that is tracked: a Pod left
   out names, as its controller, a kind that some list call covers and that is not a Pod.
   */
  lemma PodLeftOutHasTrackedOwner(config: Config, r: Resource)
    requires SkipPod(config, r)
    ensures r.Pod? && !config.trackOwnedPods
    ensures exists owner, i ::
              && owner in r.meta.ownerReferences && owner.controller == Some(true)
              && 0 <= i < |Sources(config)| && SourceKind(Sources(config)[i]) != PodKind
              && owner.apiVersion == GroupVersionText(GvkOf(SourceKind(Sources(config)[i])))
              && owner.kind == GvkOf(SourceKind(Sources(config)[i])).kind
  {
    hide GroupVersionText, GvkOf, PodIsCovered, Sources, SourceKind;
    CoveredMeansControlled(r.meta.ownerReferences);
    var owner, kind :| && owner in r.meta.ownerReferences && owner.controller == Some(true)
                       && kind in {ReplicaSetKind, StatefulSetKind, DaemonSetKind, JobKind, ReplicationControllerKind}
                       && owner.apiVersion == GroupVersionText(GvkOf(kind)) && owner.kind == GvkOf(kind).kind;
    var i := BuiltInSourceOf(config, kind);
  }

  /** Objects the index leaves out have no entry to contribute. */
  lemma ListedObjectsSuffice(config: Config, c: Cluster, s: Source, key: NamespacedName, ids: seq<ObjectId>)
    requires InCluster(c, ids)
    requires forall id :: id in ids <==> id in Listable(config, c, s, key)
    ensures UsagesOfIds(config, c, ids, key) == SourceUsages(config, c, s, key)
  {
    hide UsagesIn, IndexNames, SkipPod;
    forall u | u in SourceUsages(config, c, s, key) ensures u in UsagesOfIds(config, c, ids, key) {
      var id :| id in c.objects && KindOf(c.objects[id]) == SourceKind(s) &&
          u in Contribution(config, c.objects[id], key);
      IndexAgreesWithUsages(config.rules, c.objects[id], key.name);
      assert id in ids;
    }
  }

  /* ---------- All lists together ---------- */

  function Answers(config: Config, c: Cluster, key: NamespacedName): seq<set<Usage>> {
    seq(|Sources(config)|, i requires 0 <= i < |Sources(config)| => SourceUsages(config, c, Sources(config)[i], key))
  }

  lemma SourceGvksDiffer(config: Config, i: nat, j: nat)
    requires ValidConfig(config) && i < j < |Sources(config)|
    ensures var a, b := GvkOf(SourceKind(Sources(config)[i])), GvkOf(SourceKind(Sources(config)[j]));
            a != b && SlashFree(a) && SlashFree(b)
  {
    hide BuiltIns, SlashFree, GvkOf;
    var n := |INDEXED_KINDS|;
    if i < n {
      IndexedKindsAreTheBuiltIns(INDEXED_KINDS[i]);
      BuiltInGvksAreSlashFree(INDEXED_KINDS[i]);
    } else {
      RuleSourceGvk(config, i);
    }
    if j < n {
      IndexedKindsAreTheBuiltIns(INDEXED_KINDS[j]);
      BuiltInGvksAreSlashFree(INDEXED_KINDS[j]);
      if GvkOf(INDEXED_KINDS[i]) == GvkOf(INDEXED_KINDS[j]) {
        BuiltInKindNamesDiffer(INDEXED_KINDS[i], INDEXED_KINDS[j]);
      }
    } else {
      RuleSourceGvk(config, j);
    }
  }

  lemma RuleSourceGvk(config: Config, i: nat)
    requires ValidConfig(config) && |INDEXED_KINDS| <= i < |Sources(config)|
    ensures var rule := config.rules[i - |INDEXED_KINDS|];
            && Sources(config)[i] == ByRule(rule) && GvkOf(SourceKind(Sources(config)[i])) == rule.gvk
            && rule.gvk !in BuiltIns() && SlashFree(rule.gvk)
  {
    hide BuiltIns, SlashFree;
  }

  lemma SourceUsagesCarryTheirKind(config: Config, c: Cluster, s: Source, key: NamespacedName, u: Usage)
    requires u in SourceUsages(config, c, s, key)
    ensures u.apiVersion == GroupVersionText(GvkOf(SourceKind(s))) && u.kind == GvkOf(SourceKind(s)).kind
  {
    hide UsagesIn, SkipPod, GroupVersionText, GvkOf;
    var id :| id in c.objects && KindOf(c.objects[id]) == SourceKind(s) &&
        u in Contribution(config, c.objects[id], key);
    UsagesInComeFrom(config.rules, c.objects[id], key.name, u);
  }

  /** No entry can come from two list calls. */
  lemma AnswersAreDisjoint(config: Config, c: Cluster, key: NamespacedName)
    requires ValidConfig(config)
    ensures PairwiseDisjoint(Answers(config, c, key))
  {
    hide SourceUsages, GvkOf, GroupVersionText, Sources, SlashFree;
    forall i, j | 0 <= i < j < |Sources(config)| ensures Answers(config, c, key)[i] !! Answers(config, c, key)[j] {
      var s, t := Sources(config)[i], Sources(config)[j];
      SourceGvksDiffer(config, i, j);
      forall u | u in SourceUsages(config, c, s, key) ensures u !in SourceUsages(config, c, t, key) {
        SourceUsagesCarryTheirKind(config, c, s, key, u);
        if u in SourceUsages(config, c, t, key) {
          SourceUsagesCarryTheirKind(config, c, t, key, u);
          RecordedKindIsInjective(GvkOf(SourceKind(s)), GvkOf(SourceKind(t)));
        }
      }
    }
  }

  /** The list calls together miss nothing a full scan finds, and find nothing it misses. */
  lemma AnswersCoverFullScan(config: Config, c: Cluster, key: NamespacedName)
    ensures UnionOf(Answers(config, c, key)) == FullScan(config, c, key)
  {
    hide Sources, UsagesIn, SkipPod;
    forall u ensures u in UnionOf(Answers(config, c, key)) <==> u in FullScan(config, c, key) {
      InUnionOf(Answers(config, c, key), u);
      if u in FullScan(config, c, key) {
        var id :| id in c.objects && u in Contribution(config, c.objects[id], key);
        UsagesInComeFrom(config.rules, c.objects[id], key.name, u);
        var i := SourceOf(config, c.objects[id]);
        assert u in SourceUsages(config, c, Sources(config)[i], key);
        assert u in Answers(config, c, key)[i];
      }
    }
  }

  /** An object with tracked references is listed by one of the calls. */
  lemma SourceOf(config: Config, r: Resource) returns (i: nat)
    requires TrackedReferences(config.rules, r) != []
    ensures i < |Sources(config)| && SourceKind(Sources(config)[i]) == KindOf(r)
  {
    hide RuleReferences, Extraction.ReferencesOf;
    if r.Custom? {
      RuleForFinds(config.rules, r.gvk);
      hide RuleFor;
      var j :| 0 <= j < |config.rules| && config.rules[j].gvk == r.gvk;
      i := |INDEXED_KINDS| + j;
      assert Sources(config)[i] == ByRule(config.rules[j]);
    } else {
      i := BuiltInSourceOf(config, KindOf(r));
    }
  }

  lemma BuiltInSourceOf(config: Config, kind: Kind) returns (i: nat)
    requires !kind.CustomKind?
    ensures i < |Sources(config)| && SourceKind(Sources(config)[i]) == kind
  {
    IndexedKindsAreTheBuiltIns(kind);
    i :| 0 <= i < |INDEXED_KINDS| && INDEXED_KINDS[i] == kind;
    assert BuiltInSources()[i] == BuiltIn(INDEXED_KINDS[i]);
    assert Sources(config)[i] == BuiltInSources()[i];
  }

  /**
   No double counting, nothing lost: however the cache orders its lists, if each list
   matches its source then sorting them together gives the one strictly increasing list
   of exactly the entries a full scan finds.
   */
  lemma CollectedIsCanonical(config: Config, c: Cluster, key: NamespacedName, lists: seq<seq<Usage>>)
    requires ValidConfig(config)
    requires |lists| == |Sources(config)|
    requires forall i :: 0 <= i < |lists| ==> Enumerates(lists[i], Answers(config, c, key)[i])
    ensures SortedUsages(Flatten(lists)) == Canonical(FullScan(config, c, key))
    ensures StrictlyOrdered(UsageLess, SortedUsages(Flatten(lists)))
    ensures Elements(SortedUsages(Flatten(lists))) == FullScan(config, c, key)
    ensures |SortedUsages(Flatten(lists))| == |FullScan(config, c, key)|
  {
    hide Answers, FullScan, Sources;
    assert |Answers(config, c, key)| == |Sources(config)| by {
      AnswersLength(config, c, key);
    }
    AnswersAreDisjoint(config, c, key);
    AnswersCoverFullScan(config, c, key);
    FlattenEnumeratesUnion(lists, Answers(config, c, key));
    CanonicalOf(Flatten(lists), FullScan(config, c, key));
  }

  lemma AnswersLength(config: Config, c: Cluster, key: NamespacedName)
    ensures |Answers(config, c, key)| == |Sources(config)|
  {
  }

  /* ---------- Which keys an event enqueues ---------- */

  datatype Event =
    | ObjectEvent(before: Option<Resource>, after: Option<Resource>)   // a tracked object appeared, changed or went
    | KeyEvent(key: NamespacedName)   // a Secret changed, or a SecretUsage appeared or went

  function ObjectKeys(config: Config, r: Resource): set<NamespacedName> {
    if SkipPod(config, r) then {} else set n | n in IndexNames(config.rules, r) :: NamespacedName(r.meta.namespace, n)
  }

  function MaybeKeys(config: Config, r: Option<Resource>): set<NamespacedName> {
    match r case None => {} case Some(obj) => ObjectKeys(config, obj)
  }

  function EventKeys(config: Config, e: Event): set<NamespacedName> {
    match e
    case ObjectEvent(before, after) => MaybeKeys(config, before) + MaybeKeys(config, after)
    case KeyEvent(key) => {key}
  }

  method SecretNamesFor(table: map<GroupVersionKind, CompiledRule>, r: Resource) returns (names: seq<string>)
    ensures forall rules :: (forall gvk :: Lookup(table, gvk) == RuleFor(rules, gvk)) ==>
        Elements(names) == IndexNames(rules, r)
    ensures StrictlyOrdered(StringLess, names)
  {
    hide RuleFor, RuleReferences;
    if r.Custom? {
      if r.gvk !in table {
        assert Lookup(table, r.gvk) == None;
        assert Elements<string>([]) == NamesIn([]);
        return [];
      }
      assert Lookup(table, r.gvk) == Some(table[r.gvk]);
      var refs := ReferencesByRule(table[r.gvk], r.content);
      names := UniqueSortedSecretNames(refs);
    } else {
      var refs := Extraction.ReferencesForObject(r);
      names := UniqueSortedSecretNames(refs);
    }
  }

  /** The handler: adds a key for every name the object's index entry lists, unless the object is a covered Pod. */
  method EnqueueObjectSecretReferences(config: Config, table: map<GroupVersionKind, CompiledRule>, r: Option<Resource>,
                                       dirty: set<NamespacedName>)
    returns (queued: set<NamespacedName>)
    requires forall gvk :: Lookup(table, gvk) == RuleFor(config.rules, gvk)
    ensures queued == dirty + MaybeKeys(config, r)
  {
    hide RuleFor, IndexNames;
    queued := dirty;
    if r.None? {
      return;
    }
    var obj := r.value;
    if obj.Pod? && !config.trackOwnedPods {
      var covered := PodIsCoveredByController(obj.meta.ownerReferences);
      if covered {
        return;
      }
    }
    var names := SecretNamesFor(table, obj);
    for i := 0 to |names|
      invariant queued == dirty + set n | n in names[..i] :: NamespacedName(obj.meta.namespace, n)
    {
      assert names[..i + 1] == names[..i] + [names[i]];
      queued := queued + {NamespacedName(obj.meta.namespace, names[i])};
    }
    assert names[..|names|] == names;
    assert forall n :: n in names <==> n in Elements(names);
  }

  /** A key an object is not enqueued for is one it contributes nothing to, and conversely. */
  lemma EnqueuedWhereItContributes(config: Config, r: Resource, key: NamespacedName)
    ensures key in ObjectKeys(config, r) <==> Contribution(config, r, key) != []
  {
    hide UsagesIn, IndexNames;
    IndexAgreesWithUsages(config.rules, r, key.name);
  }

  /** Puts `after` in place of the object at `id`, or removes it. */
  function WithObject(c: Cluster, id: ObjectId, after: Option<Resource>): Cluster {
    match after
    case None => c.(objects := c.objects - {id})
    case Some(r) => c.(objects := c.objects[id := r])
  }

  /** Every key whose answers change is enqueued: by the object as it was, or as it became. */
  lemma EnqueueIsComplete(config: Config, c: Cluster, id: ObjectId, after: Option<Resource>, key: NamespacedName)
    requires key !in EventKeys(config, ObjectEvent(Lookup(c.objects, id), after))
    ensures Answers(config, WithObject(c, id, after), key) == Answers(config, c, key)
    ensures FullScan(config, WithObject(c, id, after), key) == FullScan(config, c, key)
  {
    hide ObjectKeys, Contribution, SourceKind, Sources;
    var c' := WithObject(c, id, after);
    if id in c.objects {
      EnqueuedWhereItContributes(config, c.objects[id], key);
    }
    if after.Some? {
      EnqueuedWhereItContributes(config, after.value, key);
    }
    forall i | 0 <= i < |Sources(config)| ensures Answers(config, c', key)[i] == Answers(config, c, key)[i] {
      SourceUnchanged(config, c, id, after, key, Sources(config)[i]);
    }
    forall u ensures u in FullScan(config, c', key) <==> u in FullScan(config, c, key) {
      if u in FullScan(config, c, key) {
        var x :| x in c.objects && u in Contribution(config, c.objects[x], key);
        assert x in c'.objects && c'.objects[x] == c.objects[x];
      }
      if u in FullScan(config, c', key) {
        var x :| x in c'.objects && u in Contribution(config, c'.objects[x], key);
        assert x in c.objects && c'.objects[x] == c.objects[x];
      }
    }
  }

  lemma SourceUnchanged(config: Config, c: Cluster, id: ObjectId, after: Option<Resource>, key: NamespacedName,
      s: Source)
    requires id in c.objects ==> Contribution(config, c.objects[id], key) == []
    requires after.Some? ==> Contribution(config, after.value, key) == []
    ensures SourceUsages(config, WithObject(c, id, after), s, key) == SourceUsages(config, c, s, key)
  {
    hide Contribution, SourceKind;
    var c' := WithObject(c, id, after);
    forall u ensures u in SourceUsages(config, c', s, key) <==> u in SourceUsages(config, c, s, key) {
      if u in SourceUsages(config, c, s, key) {
        var x :| x in c.objects && KindOf(c.objects[x]) == SourceKind(s) &&
            u in Contribution(config, c.objects[x], key);
        assert x in c'.objects && c'.objects[x] == c.objects[x];
      }
      if u in SourceUsages(config, c', s, key) {
        var x :| x in c'.objects && KindOf(c'.objects[x]) == SourceKind(s) &&
            u in Contribution(config, c'.objects[x], key);
        assert x in c.objects && c'.objects[x] == c.objects[x];
      }
    }
  }

  /** An enqueued key is in the object's namespace, and the object as it was or became references that name. */
  lemma EnqueueIsPrecise(config: Config, before: Option<Resource>, after: Option<Resource>, key: NamespacedName)
    requires key in EventKeys(config, ObjectEvent(before, after))
    ensures exists r :: (before == Some(r) || after == Some(r)) && r.meta.namespace == key.namespace &&
                        exists ref :: ref in TrackedReferences(config.rules, r) && ref.secretName == key.name
  {
    hide TrackedReferences;
    var r :| (before == Some(r) || after == Some(r)) && key in ObjectKeys(config, r);
    assert key.name in IndexNames(config.rules, r);
  }
}
