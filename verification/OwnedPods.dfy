/**
 Tracking owned Pods or leaving them out (PodIsCoveredByController in
 internal/controller/secret_refs.go): when the choice changes only counts, and by how much.
 */
module OwnedPods {
  import opened Objects
  import opened Rules
  import opened Usages
  import opened Collection
  import opened Documents
  import Conservation

  function Skipping(config: Config): Config {
    config.(trackOwnedPods := false)
  }

  function Tracking(config: Config): Config {
    config.(trackOwnedPods := true)
  }

  /** The Pods left out when owned Pods are not tracked. */
  ghost function CoveredPods(c: Cluster): set<ObjectId> {
    set id | id in c.objects && c.objects[id].Pod? && PodIsCovered(c.objects[id].meta.ownerReferences)
  }

  /** The entries that covered Pods contribute to a key when they are tracked. */
  ghost function CoveredUsages(config: Config, c: Cluster, key: NamespacedName): set<Usage> {
    Conservation.UsagesOf(Tracking(config), c, CoveredPods(c), key)
  }

  lemma ContributionWithAndWithout(config: Config, c: Cluster, id: ObjectId, key: NamespacedName)
    requires id in c.objects
    ensures Contribution(Skipping(config), c.objects[id], key) ==
              if id in CoveredPods(c) then [] else Contribution(Tracking(config), c.objects[id], key)
  {
    hide UsagesIn, PodIsCovered;
  }

  /** The counts differ by exactly the entries of the covered Pods, none of which is counted otherwise. */
  lemma CountsDifferByCoveredPods(config: Config, c: Cluster, key: NamespacedName)
    requires ValidConfig(config) && ValidCluster(c)
    ensures FullScan(Tracking(config), c, key) == FullScan(Skipping(config), c, key) + CoveredUsages(config, c, key)
    ensures FullScan(Skipping(config), c, key) !! CoveredUsages(config, c, key)
    ensures |FullScan(Tracking(config), c, key)| ==
        |FullScan(Skipping(config), c, key)| + |CoveredUsages(config, c, key)|
  {
    hide Contribution, CoveredPods, ValidCluster;
    var on, off, covered := FullScan(Tracking(config), c, key), FullScan(Skipping(config), c, key),
        CoveredUsages(config, c, key);
    forall u ensures u in on <==> u in off || u in covered {
      if u in on {
        var id :| id in c.objects && u in Contribution(Tracking(config), c.objects[id], key);
        ContributionWithAndWithout(config, c, id, key);
      }
      if u in off {
        var id :| id in c.objects && u in Contribution(Skipping(config), c.objects[id], key);
        ContributionWithAndWithout(config, c, id, key);
      }
    }
    forall u | u in off ensures u !in covered {
      var id :| id in c.objects && u in Contribution(Skipping(config), c.objects[id], key);
      ContributionWithAndWithout(config, c, id, key);
      if u in covered {
        var pod :| pod in CoveredPods(c) && pod in c.objects &&
            u in Contribution(Tracking(config), c.objects[pod], key);
        Conservation.EntriesNameTheirObject(Tracking(config), c, key, id, pod, u);
      }
    }
    assert on == off + covered;
  }

  /* ---------- Classification ---------- */

  /** What a user sees of a Secret beside counts and lists: whether it has an object, and its labels. */
  ghost predicate SameClassification(config: Config, c: Cluster, key: NamespacedName) {
    var present := key in c.secrets;
    var off := Desired(Skipping(config), key, present, Canonical(FullScan(Skipping(config), c, key)));
    var on := Desired(Tracking(config), key, present, Canonical(FullScan(Tracking(config), c, key)));
    && (FullScan(Skipping(config), c, key) == {} <==> FullScan(Tracking(config), c, key) == {})
    && (off.Some? <==> on.Some?)
    && (off.Some? ==> off.value.labels == on.value.labels)
  }

  /** Every Secret a covered Pod references is also referenced by something in its namespace that is not left out. */
  ghost predicate CoveredPodsAddNothing(config: Config, c: Cluster) {
    forall pod, name :: pod in CoveredPods(c) && name in IndexNames(config.rules, c.objects[pod]) ==>
      exists id :: ReferencesToo(config, c, id, c.objects[pod].meta.namespace, name)
  }

  ghost predicate ReferencesToo(config: Config, c: Cluster, id: ObjectId, namespace: string, name: string) {
    && id in c.objects && id !in CoveredPods(c)
    && c.objects[id].meta.namespace == namespace && name in IndexNames(config.rules, c.objects[id])
  }

  lemma SameLabelsFromSameEmptiness(config: Config, c: Cluster, key: NamespacedName)
    ensures SameClassification(config, c, key) <==>
        (FullScan(Skipping(config), c, key) == {} <==> FullScan(Tracking(config), c, key) == {})
  {
    hide FullScan, Canonical, IsValidLabelValue;
    CanonicalFacts(FullScan(Skipping(config), c, key));
    CanonicalFacts(FullScan(Tracking(config), c, key));
  }

  lemma ReferencedWithoutPods(config: Config, c: Cluster, key: NamespacedName)
    ensures FullScan(Skipping(config), c, key) != {} <==>
        exists id :: ReferencesToo(config, c, id, key.namespace, key.name)
  {
    hide UsagesIn, IndexNames;
    var off := FullScan(Skipping(config), c, key);
    if off != {} {
      var u :| u in off;
      var id :| id in c.objects && u in Contribution(Skipping(config), c.objects[id], key);
      IndexAgreesWithUsages(config.rules, c.objects[id], key.name);
      assert ReferencesToo(config, c, id, key.namespace, key.name);
    }
    if id :| ReferencesToo(config, c, id, key.namespace, key.name) {
      IndexAgreesWithUsages(config.rules, c.objects[id], key.name);
      var u := Contribution(Skipping(config), c.objects[id], key)[0];
      assert u in Contribution(Skipping(config), c.objects[id], key);
      assert u in off;
    }
  }

  lemma CoveredPodIsFoundWhenTracked(config: Config, c: Cluster, pod: ObjectId, name: string)
    requires pod in CoveredPods(c) && name in IndexNames(config.rules, c.objects[pod])
    ensures FullScan(Tracking(config), c, NamespacedName(c.objects[pod].meta.namespace, name)) != {}
  {
    hide UsagesIn, IndexNames, PodIsCovered;
    IndexAgreesWithUsages(config.rules, c.objects[pod], name);
    var key := NamespacedName(c.objects[pod].meta.namespace, name);
    var u := Contribution(Tracking(config), c.objects[pod], key)[0];
    assert u in Contribution(Tracking(config), c.objects[pod], key);
    assert u in FullScan(Tracking(config), c, key);
  }

  lemma FoundByPodsAlone(config: Config, c: Cluster, key: NamespacedName)
    requires FullScan(Tracking(config), c, key) != {} && FullScan(Skipping(config), c, key) == {}
    ensures exists pod ::
              && pod in CoveredPods(c) && key.namespace == c.objects[pod].meta.namespace
              && key.name in IndexNames(config.rules, c.objects[pod])
  {
    hide UsagesIn, IndexNames, PodIsCovered;
    var u :| u in FullScan(Tracking(config), c, key);
    var id :| id in c.objects && u in Contribution(Tracking(config), c.objects[id], key);
    IndexAgreesWithUsages(config.rules, c.objects[id], key.name);
    ContributionWithAndWithout(config, c, id, key);
    assert u in Contribution(Skipping(config), c.objects[id], key) ==> u in FullScan(Skipping(config), c, key);
  }

  /**
   Leaving out covered Pods classifies every Secret the same exactly when they add nothing:
   each Secret they name is named in their namespace by some object that is not left out.
   */
  lemma ClassificationIsTheSameExactlyWhen(config: Config, c: Cluster)
    ensures (forall key :: SameClassification(config, c, key)) <==> CoveredPodsAddNothing(config, c)
  {
    hide SameClassification, FullScan, ReferencesToo, PodIsCovered, IndexNames;
    if forall key :: SameClassification(config, c, key) {
      forall pod, name | pod in CoveredPods(c) && name in IndexNames(config.rules, c.objects[pod])
        ensures exists id :: ReferencesToo(config, c, id, c.objects[pod].meta.namespace, name)
      {
        var key := NamespacedName(c.objects[pod].meta.namespace, name);
        assert SameClassification(config, c, key);
        SameLabelsFromSameEmptiness(config, c, key);
        CoveredPodIsFoundWhenTracked(config, c, pod, name);
        ReferencedWithoutPods(config, c, key);
      }
    }
    if CoveredPodsAddNothing(config, c) {
      forall key ensures SameClassification(config, c, key) {
        SameLabelsFromSameEmptiness(config, c, key);
        ReferencedWithoutPods(config, c, key);
        if FullScan(Skipping(config), c, key) == {} && FullScan(Tracking(config), c, key) != {} {
          FoundByPodsAlone(config, c, key);
        }
        SkippedIsLess(config, c, key);
      }
    }
  }

  lemma SkippedIsLess(config: Config, c: Cluster, key: NamespacedName)
    ensures FullScan(Skipping(config), c, key) <= FullScan(Tracking(config), c, key)
  {
    hide Contribution, CoveredPods;
    forall u | u in FullScan(Skipping(config), c, key) ensures u in FullScan(Tracking(config), c, key) {
      var id :| id in c.objects && u in Contribution(Skipping(config), c.objects[id], key);
      ContributionWithAndWithout(config, c, id, key);
    }
  }

  /* ---------- Owners ---------- */

  /** `r` is the controller that `owner`, one of the Pod's owner references, names. */
  predicate IsControllerOf(r: Resource, owner: OwnerReference, pod: Resource) {
    && owner in pod.meta.ownerReferences && IsTrackedController(owner)
    && GroupVersionText(GvkOf(KindOf(r))) == owner.apiVersion && GvkOf(KindOf(r)).kind == owner.kind
    && r.meta.name == owner.name && r.meta.namespace == pod.meta.namespace
  }

  ghost predicate HasOwnerNaming(config: Config, c: Cluster, pod: Resource, name: string) {
    exists id, owner :: id in c.objects && IsControllerOf(c.objects[id], owner, pod) &&
        name in IndexNames(config.rules, c.objects[id])
  }

  /** No tracked controller is itself a Pod. */
  lemma ControllersAreNotPods(r: Resource, owner: OwnerReference, pod: Resource)
    requires IsControllerOf(r, owner, pod)
    ensures !r.Pod?
  {
  }

  /**
   So if every covered Pod names only Secrets that an owner it names, present in the
   cluster, also names, tracking owned Pods or not never changes the classification of any
   Secret, and changes its count by exactly the covered Pods' entries.
   */
  lemma SkippingOwnedPodsKeepsClassification(config: Config, c: Cluster, key: NamespacedName)
    requires ValidConfig(config) && ValidCluster(c)
    requires forall pod, name :: pod in CoveredPods(c) && name in IndexNames(config.rules, c.objects[pod]) ==>
               HasOwnerNaming(config, c, c.objects[pod], name)
    ensures SameClassification(config, c, key)
    ensures |FullScan(Tracking(config), c, key)| ==
        |FullScan(Skipping(config), c, key)| + |CoveredUsages(config, c, key)|
  {
    hide SameClassification, FullScan, IndexNames, CoveredUsages, IsControllerOf, ValidConfig, ValidCluster;
    forall pod, name | pod in CoveredPods(c) && name in IndexNames(config.rules, c.objects[pod])
      ensures exists id :: ReferencesToo(config, c, id, c.objects[pod].meta.namespace, name)
    {
      OwnerReferencesToo(config, c, pod, name);
    }
    ClassificationIsTheSameExactlyWhen(config, c);
    CountsDifferByCoveredPods(config, c, key);
  }

  lemma OwnerReferencesToo(config: Config, c: Cluster, pod: ObjectId, name: string)
    requires pod in c.objects && HasOwnerNaming(config, c, c.objects[pod], name)
    ensures exists id :: ReferencesToo(config, c, id, c.objects[pod].meta.namespace, name)
  {
    hide IndexNames, PodIsCovered, GvkOf, GroupVersionText, IsTrackedController;
    var id, owner :| id in c.objects && IsControllerOf(c.objects[id], owner, c.objects[pod]) &&
        name in IndexNames(config.rules, c.objects[id]);
    ControllersAreNotPods(c.objects[id], owner, c.objects[pod]);
    assert ReferencesToo(config, c, id, c.objects[pod].meta.namespace, name);
  }
}
