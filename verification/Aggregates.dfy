/**
 The cluster-wide gauges (runAggregateMetrics in
 internal/controller/secretusage_controller.go) and the per-Secret series, at rest.
 */
module Aggregates {
  import opened Wrappers
  import opened Collections
  import opened Usages
  import opened Collection
  import opened Documents
  import opened Protocol
  import opened Convergence
  import Termination

  /* ---------- The loop ---------- */

  predicate CountsAsMissing(d: Document) {
    !Decode(d.status).present && Decode(d.status).usageCount > 0
  }

  predicate CountsAsUnused(d: Document) {
    Decode(d.status).present && Decode(d.status).usageCount == 0
  }

  function Missing(stored: map<NamespacedName, Document>): set<NamespacedName> {
    set key | key in stored && CountsAsMissing(stored[key])
  }

  function Unused(stored: map<NamespacedName, Document>): set<NamespacedName> {
    set key | key in stored && CountsAsUnused(stored[key])
  }

  /** The part of `all` that a loop has met after the first `i` items. */
  ghost function Met(list: seq<NamespacedName>, i: nat, all: set<NamespacedName>): set<NamespacedName>
    requires i <= |list|
  {
    set key | key in list[..i] && key in all
  }

  lemma MeetOneMore(list: seq<NamespacedName>, i: nat, all: set<NamespacedName>)
    requires i < |list| && NoDuplicates(list)
    ensures |Met(list, i + 1, all)| == |Met(list, i, all)| + if list[i] in all then 1 else 0
  {
    assert list[..i + 1] == list[..i] + [list[i]];
    assert list[i] !in list[..i];
    if list[i] in all {
      assert Met(list, i + 1, all) == Met(list, i, all) + {list[i]};
    } else {
      assert Met(list, i + 1, all) == Met(list, i, all);
    }
  }

  lemma NoneMet(list: seq<NamespacedName>, all: set<NamespacedName>)
    ensures Met(list, 0, all) == {}
  {
  }

  lemma AllMet(list: seq<NamespacedName>, all: set<NamespacedName>)
    requires forall key :: key in all ==> key in list
    ensures Met(list, |list|, all) == all
  {
  }

  /** One pass over the stored objects: how many count as missing, and how many as unused. */
  method RunAggregateMetrics(stored: map<NamespacedName, Document>) returns (missing: nat, unused: nat)
    ensures missing == |Missing(stored)| && unused == |Unused(stored)|
  {
    hide Decode, Met;
    var list := ListInAnyOrder(stored.Keys);
    EnumerationFacts(list, stored.Keys);
    EnumerationHasNoDuplicates(list, stored.Keys);
    missing, unused := 0, 0;
    NoneMet(list, Missing(stored));
    NoneMet(list, Unused(stored));
    for i := 0 to |list|
      invariant missing == |Met(list, i, Missing(stored))|
      invariant unused == |Met(list, i, Unused(stored))|
    {
      assert list[i] in list && list[i] in stored;
      MeetOneMore(list, i, Missing(stored));
      MeetOneMore(list, i, Unused(stored));
      var status := Decode(stored[list[i]].status);
      if !status.present && status.usageCount > 0 {
        missing := missing + 1;
      } else if status.present && status.usageCount == 0 {
        unused := unused + 1;
      }
    }
    AllMet(list, Missing(stored));
    AllMet(list, Unused(stored));
  }

  /* ---------- What the numbers should be ---------- */

  /** The Secrets some tracked object references, read off the objects alone. */
  ghost function ReferencedKeys(config: Config, c: Cluster): set<NamespacedName> {
    set id, key | id in c.objects && key in ObjectKeys(config, c.objects[id]) :: key
  }

  lemma ReferencedMeansFound(config: Config, c: Cluster, key: NamespacedName)
    ensures key in ReferencedKeys(config, c) <==> |Canonical(FullScan(config, c, key))| > 0
  {
    hide ObjectKeys, Contribution, Canonical;
    CanonicalFacts(FullScan(config, c, key));
    if key in ReferencedKeys(config, c) {
      var id :| id in c.objects && key in ObjectKeys(config, c.objects[id]);
      EnqueuedWhereItContributes(config, c.objects[id], key);
      var u := Contribution(config, c.objects[id], key)[0];
      assert u in Contribution(config, c.objects[id], key);
      assert u in FullScan(config, c, key);
    }
    if FullScan(config, c, key) != {} {
      var u :| u in FullScan(config, c, key);
      var id :| id in c.objects && u in Contribution(config, c.objects[id], key);
      EnqueuedWhereItContributes(config, c.objects[id], key);
    }
  }

  /** A count is read back as zero, or as positive, exactly when this holds of it. */
  predicate SignSurvives(total: nat) {
    total == 0 || 0 < total % TWO_TO_32 < TWO_TO_31
  }

  /** Which is so of every count below 2^31, and precisely what the two gauges depend on. */
  lemma SignSurvivesExactly(total: nat)
    ensures SignSurvives(total) <==> (Int32(total) > 0 <==> total > 0) && (Int32(total) == 0 <==> total == 0)
    ensures total < TWO_TO_31 ==> SignSurvives(total)
  {
  }

  /* ---------- At rest ---------- */

  lemma SettledKeyIsCountedRight(s: State, key: NamespacedName)
    requires Converged(s, key) && SignSurvives(|AllUsages(s, key)|)
    ensures key in Missing(s.stored) <==> key !in s.cluster.secrets && |AllUsages(s, key)| > 0
    ensures key in Unused(s.stored) <==>
        key in s.cluster.secrets && |AllUsages(s, key)| == 0 && s.config.trackUnusedSecrets
    ensures key in s.stored ==>
              (key in Missing(s.stored) <==> MISSING_LABEL in s.stored[key].labels) &&
              (key in Unused(s.stored) <==> UNUSED_LABEL in s.stored[key].labels)
  {
    hide AllUsages, DesiredLabels, SeriesAt, SignSurvives, Int32;
    SignSurvivesExactly(|AllUsages(s, key)|);
    LabelsClassify(key.name, key in s.cluster.secrets, |AllUsages(s, key)|);
  }

  /**
   The cluster-wide gauges are exact once the controller is at rest: one counts the
   Secrets that are referenced and absent, and no others; the other the Secrets that exist
   unreferenced, or nothing when unused Secrets are not tracked. The labels say the same.
   */
  lemma AggregatesAreExact(s: State)
    requires Inv(s) && Quiescent(s)
    requires forall key :: SignSurvives(|AllUsages(s, key)|)
    ensures Missing(s.stored) == ReferencedKeys(s.config, s.cluster) - s.cluster.secrets
    ensures Unused(s.stored) ==
        if s.config.trackUnusedSecrets then s.cluster.secrets - ReferencedKeys(s.config, s.cluster) else {}
    ensures Missing(s.stored) == set key | key in s.stored && MISSING_LABEL in s.stored[key].labels
    ensures Unused(s.stored) == set key | key in s.stored && UNUSED_LABEL in s.stored[key].labels
  {
    hide Converged, SignSurvives, KeyInv, Missing, Unused, ReferencedKeys, FullScan, Canonical, ValidConfig;
    Termination.RestIsConverged(s);
    forall key
      ensures key in Missing(s.stored) <==> key !in s.cluster.secrets && key in ReferencedKeys(s.config, s.cluster)
      ensures key in Unused(s.stored) <==>
          key in s.cluster.secrets && key !in ReferencedKeys(s.config, s.cluster) && s.config.trackUnusedSecrets
      ensures key in s.stored ==>
                (key in Missing(s.stored) <==> MISSING_LABEL in s.stored[key].labels) &&
                (key in Unused(s.stored) <==> UNUSED_LABEL in s.stored[key].labels)
    {
      SettledKeyIsCountedRight(s, key);
      ReferencedMeansFound(s.config, s.cluster, key);
    }
    forall key ensures key in Missing(s.stored) ==> key in s.stored
               ensures key in Unused(s.stored) ==> key in s.stored
    {
      CountedIsStored(s.stored, key);
    }
  }

  /** So the two gauge values a pass sets at rest are those of the cluster. */
  method AggregatesAtRest(ghost s: State, stored: map<NamespacedName, Document>) returns (missing: nat, unused: nat)
    requires Inv(s) && Quiescent(s) && stored == s.stored
    requires forall key :: SignSurvives(|AllUsages(s, key)|)
    ensures missing == |ReferencedKeys(s.config, s.cluster) - s.cluster.secrets|
    ensures unused ==
        if s.config.trackUnusedSecrets then |s.cluster.secrets - ReferencedKeys(s.config, s.cluster)| else 0
  {
    hide Inv, Quiescent, SignSurvives, Missing, Unused, ReferencedKeys;
    missing, unused := RunAggregateMetrics(stored);
    AggregatesAreExact(s);
  }

  lemma CountedIsStored(stored: map<NamespacedName, Document>, key: NamespacedName)
    ensures key in Missing(stored) || key in Unused(stored) ==> key in stored
  {
  }

  /**
   At rest, with per-Secret metrics on, each of the three series exists for exactly the
   keys with a stored object, and shows the true count, presence and truncation, whatever
   the width of the stored count. With them off there is no series at all.
   */
  lemma SeriesAreExact(s: State, key: NamespacedName)
    requires Inv(s) && Quiescent(s)
    ensures !s.config.perSecretMetrics ==> SeriesAt(s.gauges, key) == NO_SERIES
    ensures s.config.perSecretMetrics ==>
              && (key in s.stored <==> key in s.gauges.references)
              && (key in s.stored <==> key in s.gauges.present)
              && (key in s.stored <==> key in s.gauges.truncated)
              && (key in s.stored ==>
                    && s.gauges.references[key] == |FullScan(s.config, s.cluster, key)|
                    && (s.gauges.present[key] == 1 <==> key in s.cluster.secrets)
                    && (s.gauges.truncated[key] == 1 <==>
                          |FullScan(s.config, s.cluster, key)| >
                          if s.config.maxUsages > 0 then s.config.maxUsages else 500)
                    && s.gauges.present[key] in {0, 1} && s.gauges.truncated[key] in {0, 1})
  {
    hide KeyInv, ValidConfig, FullScan, Canonical, Converged, TargetSeries;
    Termination.RestIsConverged(s);
    CanonicalFacts(FullScan(s.config, s.cluster, key));
    SeriesOfSettled(s, key);
    if s.config.perSecretMetrics {
      SeriesOfTarget(s, key);
    }
  }

  lemma SeriesOfSettled(s: State, key: NamespacedName)
    requires Converged(s, key)
    ensures SeriesAt(s.gauges, key) == TargetSeries(s, key) && (key in s.stored <==> Target(s, key).Some?)
  {
    hide Target, TargetSeries, SeriesAt;
  }

  lemma SeriesOfTarget(s: State, key: NamespacedName)
    requires s.config.perSecretMetrics
    ensures Target(s, key).None? ==> TargetSeries(s, key) == NO_SERIES
    ensures Target(s, key).Some? ==>
              TargetSeries(s, key) == Series(Some(|AllUsages(s, key)|), Some(if key in s.cluster.secrets then 1 else 0),
                                             Some(if |AllUsages(s, key)| > MaxUsages(s.config) then 1 else 0))
  {
    hide AllUsages, DesiredLabels;
  }
}
