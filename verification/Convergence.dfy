/**
 Convergence: in every reachable state each key is either settled, or marked for another
 reconcile, or being reconciled from reads that are still true. Torn reads, failed calls,
 interleavings, restarts and any initial store are all covered by one invariant.
 */
module Convergence {
  import opened Wrappers
  import opened Ordering
  import opened Collections
  import opened Objects
  import opened Usages
  import opened Collection
  import opened Documents
  import opened Protocol

  /* ---------- What is right ---------- */

  /** Every reference to a Secret, each once, in recorded order: computed with no index and no reads. */
  ghost function AllUsages(s: State, key: NamespacedName): seq<Usage> {
    Canonical(FullScan(s.config, s.cluster, key))
  }

  ghost function Target(s: State, key: NamespacedName): Option<SecretUsage> {
    Desired(s.config, key, key in s.cluster.secrets, AllUsages(s, key))
  }

  ghost function TargetSeries(s: State, key: NamespacedName): Series {
    match Target(s, key)
    case None => NO_SERIES
    case Some(want) =>
      if !s.config.perSecretMetrics then NO_SERIES
      else Series(Some(|AllUsages(s, key)|), Some(BoolToNumber(key in s.cluster.secrets)),
          Some(BoolToNumber(want.status.truncated)))
  }

  /** The stored object, its labels and status, and the gauges are those the current cluster calls for. */
  ghost predicate Converged(s: State, key: NamespacedName) {
    && SeriesAt(s.gauges, key) == TargetSeries(s, key)
    && match Target(s, key)
       case None => key !in s.stored
       case Some(want) => key in s.stored && Holds(s.stored[key], want)
  }

  predicate Holds(d: Document, want: SecretUsage) {
    d.labels == EncodeLabels(want.labels) && Decode(d.status) == Normal(want.status)
  }

  /**
   What is right, told of the objects in the cluster: one list of exactly the entries they
   contribute, in order; an object if there are any, or if the Secret exists and is tracked
   while unused; on it the labels that say which, and the least entries with their count.
   */
  lemma ConvergedMeans(s: State, key: NamespacedName)
    requires Converged(s, key)
    ensures exists full ::
              && StrictlyOrdered(UsageLess, full)
              && (forall u :: u in full <==>
                    exists id :: id in s.cluster.objects && u in Contribution(s.config, s.cluster.objects[id], key))
              && (key in s.stored <==> full != [] || (key in s.cluster.secrets && s.config.trackUnusedSecrets))
              && (key in s.stored ==>
                    var d := s.stored[key];
                    var st := Decode(d.status);
                    && (SECRET_NAME_LABEL in d.labels <==> IsValidLabelValue(key.name))
                    && (UNUSED_LABEL in d.labels <==> key in s.cluster.secrets && full == [])
                    && (MISSING_LABEL in d.labels <==> key !in s.cluster.secrets && full != [])
                    && st.secretName == key.name && st.present == (key in s.cluster.secrets)
                    && (st.usageCount == |full| <==> |full| < 0x8000_0000)
                    && var limit := if s.config.maxUsages > 0 then s.config.maxUsages else 500;
                       && (st.truncated <==> |full| > limit)
                       && (full == [] <==> st.usages == NilSlice)
                       && (full != [] ==> st.usages == SliceOf(if |full| <= limit then full else full[..limit])))
  {
    hide SeriesAt, TargetSeries, FullScan, Canonical, Contribution, Decode, DesiredLabels, DesiredStatus,
         IsValidLabelValue, AllUsages, Normal, StrictlyOrdered;
    var full := AllUsages(s, key);
    EntriesAreContributed(s, key);
    LabelsClassify(key.name, key in s.cluster.secrets, |full|);
    StatusMeans(s.config, key.name, key in s.cluster.secrets, full);
  }

  lemma StatusMeans(config: Config, name: string, present: bool, full: seq<Usage>)
    requires StrictlyOrdered(UsageLess, full)
    ensures var st := Normal(DesiredStatus(config, name, present, full));
            && st.secretName == name && st.present == present
            && (st.usageCount == |full| <==> |full| < 0x8000_0000)
            && var limit := if config.maxUsages > 0 then config.maxUsages else 500;
               && (st.truncated <==> |full| > limit)
               && (full == [] <==> st.usages == NilSlice)
               && (full != [] ==> st.usages == SliceOf(if |full| <= limit then full else full[..limit]))
  {
    hide DesiredStatus, StrictlyOrdered, UsageLess;
    RecordedStatusIsLeastEntries(config, name, present, full);
  }

  lemma EntriesAreContributed(s: State, key: NamespacedName)
    ensures StrictlyOrdered(UsageLess, AllUsages(s, key))
    ensures forall u :: u in AllUsages(s, key) <==>
              exists id :: id in s.cluster.objects && u in Contribution(s.config, s.cluster.objects[id], key)
  {
    hide Canonical, Contribution;
    var all := FullScan(s.config, s.cluster, key);
    CanonicalFacts(all);
    forall u ensures u in Canonical(all) <==> u in all {
      assert u in Canonical(all) <==> u in Elements(Canonical(all));
    }
  }

  /* ---------- What keeps a key alive ---------- */

  ghost predicate EventFor(s: State, e: Event, key: NamespacedName) {
    e in s.pending && key in EventKeys(s.config, e)
  }

  ghost predicate Marked(s: State, key: NamespacedName) {
    key in s.dirty || exists e :: EventFor(s, e, key)
  }

  /** What a reconcile knows is what it would find if it looked now. */
  ghost predicate Fresh(s: State, key: NamespacedName, phase: Phase) {
    match phase
    case Reading(present, lists) =>
      (present.Some? ==> present.value == (key in s.cluster.secrets)) &&
      |lists| <= |Answers(s.config, s.cluster, key)| &&
      forall i :: 0 <= i < |lists| ==> Enumerates(lists[i], Answers(s.config, s.cluster, key)[i])
    case Dropping => Target(s, key) == None
    case Deleting => Target(s, key) == None
    case Fetching(want) => Aims(s, key, want)
    case Creating(want) => Aims(s, key, want) && key !in s.stored
    case FillingStatus(want, uid) =>
      Aims(s, key, want) && key in s.stored && s.stored[key].uid == uid &&
          s.stored[key].labels == EncodeLabels(want.labels)
    case PatchingLabels(current, want) => Aims(s, key, want) && Lookup(s.stored, key) == Some(current)
    case PatchingStatus(current, want) =>
      Aims(s, key, want) && Lookup(s.stored, key) == Some(current) && current.labels == EncodeLabels(want.labels)
  }

  ghost predicate Aims(s: State, key: NamespacedName, want: SecretUsage) {
    Target(s, key) == Some(want) && SeriesAt(s.gauges, key) == TargetSeries(s, key)
  }

  ghost predicate KeyInv(s: State, key: NamespacedName) {
    Marked(s, key) || if key in s.inflight then Fresh(s, key, s.inflight[key]) else Converged(s, key)
  }

  predicate WellFormedPhase(config: Config, phase: Phase) {
    phase.Reading? ==> |phase.lists| <= |Sources(config)| && (phase.present.None? ==> phase.lists == [])
  }

  /** Facts that hold whatever the controller has or has not done. */
  ghost predicate Sane(s: State) {
    && ValidCluster(s.cluster)
    && ValidConfig(s.config)
    && (!s.config.perSecretMetrics ==> s.gauges == NO_GAUGES)
    && (forall key :: key in s.inflight ==> WellFormedPhase(s.config, s.inflight[key]))
  }

  ghost predicate Inv(s: State) {
    Sane(s) && forall key :: KeyInv(s, key)
  }

  /* ---------- Framing ---------- */

  /** Nothing the invariant says of `key` depends on has changed, unless it is now marked. */
  ghost predicate SameFor(s: State, s': State, key: NamespacedName) {
    && s'.config == s.config
    && (key in s'.cluster.secrets <==> key in s.cluster.secrets)
    && Answers(s.config, s'.cluster, key) == Answers(s.config, s.cluster, key)
    && FullScan(s.config, s'.cluster, key) == FullScan(s.config, s.cluster, key)
    && Lookup(s'.stored, key) == Lookup(s.stored, key)
    && SeriesAt(s'.gauges, key) == SeriesAt(s.gauges, key)
    && Lookup(s'.inflight, key) == Lookup(s.inflight, key)
  }

  lemma FrameFresh(s: State, s': State, key: NamespacedName, phase: Phase)
    requires SameFor(s, s', key)
    ensures Fresh(s', key, phase) <==> Fresh(s, key, phase)
  {
    hide Answers, FullScan, Canonical, Desired, SeriesAt;
    assert Target(s', key) == Target(s, key) && TargetSeries(s', key) == TargetSeries(s, key);
  }

  lemma FrameConverged(s: State, s': State, key: NamespacedName)
    requires SameFor(s, s', key)
    ensures Converged(s', key) <==> Converged(s, key)
  {
    hide Answers, FullScan, Canonical, Desired, SeriesAt, Holds;
    assert Target(s', key) == Target(s, key) && TargetSeries(s', key) == TargetSeries(s, key);
  }

  lemma Frame(s: State, s': State, key: NamespacedName)
    requires KeyInv(s, key)
    requires Marked(s', key) || (SameFor(s, s', key) && !Marked(s, key))
    ensures KeyInv(s', key)
  {
    hide Marked, Fresh, Converged, Answers, FullScan, SeriesAt;
    if !Marked(s', key) {
      assert key in s'.inflight <==> key in s.inflight by {
        assert Lookup(s'.inflight, key) == Lookup(s.inflight, key);
      }
      if key in s.inflight {
        assert s'.inflight[key] == s.inflight[key];
        FrameFresh(s, s', key, s.inflight[key]);
      } else {
        FrameConverged(s, s', key);
      }
    }
  }

  lemma EmittedIsMarked(s: State, e: Event, key: NamespacedName)
    ensures Marked(Emit(s, e), key) <==> Marked(s, key) || key in EventKeys(s.config, e)
  {
    hide EventKeys;
    var s' := Emit(s, e);
    if key in EventKeys(s.config, e) {
      assert EventFor(s', e, key);
    }
    if x :| EventFor(s, x, key) {
      assert EventFor(s', x, key);
    }
    if x :| EventFor(s', x, key) {
      assert x == e || EventFor(s, x, key);
    }
  }

  /* ---------- The surroundings ---------- */

  lemma ObjectChangeKeepsInv(s: State, id: ObjectId, after: Option<Resource>)
    requires Inv(s)
    requires after.Some? ==> IdOf(after.value) == id
    ensures Inv(Changed(s, id, after))
  {
    hide Marked, Fresh, Converged, EventKeys, Answers, FullScan, SeriesAt, ValidConfig;
    var s' := Changed(s, id, after);
    forall key ensures KeyInv(s', key) {
      var mid := s.(cluster := s'.cluster);
      EmittedIsMarked(mid, ObjectEvent(Lookup(s.cluster.objects, id), after), key);
      SameMarks(s, mid, key);
      if !Marked(s', key) {
        EnqueueIsComplete(s.config, s.cluster, id, after, key);
        assert SameFor(s, s', key);
      }
      Frame(s, s', key);
    }
  }

  lemma SameMarks(s: State, s': State, key: NamespacedName)
    requires s'.config == s.config && s'.pending == s.pending && s'.dirty == s.dirty
    ensures Marked(s', key) <==> Marked(s, key)
  {
    hide EventKeys;
    assert forall e :: EventFor(s', e, key) <==> EventFor(s, e, key);
  }

  /** A change to the Secrets or to the stored objects at one key, followed by that key's event. */
  lemma OwnEventKeepsInv(s: State, mid: State, own: NamespacedName)
    requires Inv(s)
    requires mid.config == s.config && mid.gauges == s.gauges && mid.inflight == s.inflight
    requires mid.pending == s.pending && mid.dirty == s.dirty
    requires mid.cluster.objects == s.cluster.objects
    requires forall key :: key != own ==> (key in mid.cluster.secrets <==> key in s.cluster.secrets)
    requires forall key :: key != own ==> Lookup(mid.stored, key) == Lookup(s.stored, key)
    ensures Inv(Emit(mid, KeyEvent(own)))
  {
    hide Marked, Fresh, Converged, SeriesAt, ValidConfig;
    var s' := Emit(mid, KeyEvent(own));
    forall key ensures KeyInv(s', key) {
      EmittedIsMarked(mid, KeyEvent(own), key);
      SameMarks(s, mid, key);
      if key != own {
        SameObjectsSameAnswers(s.config, s.cluster, s'.cluster, key);
        hide Answers, FullScan;
        assert SameFor(s, s', key);
      }
      Frame(s, s', key);
    }
  }

  lemma SameObjectsSameAnswers(config: Config, c: Cluster, c': Cluster, key: NamespacedName)
    requires c'.objects == c.objects
    ensures Answers(config, c', key) == Answers(config, c, key) && FullScan(config, c', key) == FullScan(config, c, key)
  {
    hide Contribution, Sources;
  }

  /* ---------- Starting ---------- */

  lemma NamedIsMarked(config: Config, cluster: Cluster, stored: map<NamespacedName, Document>, nextUid: nat,
      key: NamespacedName)
    requires key in cluster.secrets + stored.Keys
    ensures Marked(Start(config, cluster, stored, nextUid), key)
  {
    hide ObjectKeys;
    assert EventFor(Start(config, cluster, stored, nextUid), KeyEvent(key), key);
  }

  lemma ReferencedIsMarked(config: Config, cluster: Cluster, stored: map<NamespacedName, Document>, nextUid: nat,
      key: NamespacedName, id: ObjectId)
    requires id in cluster.objects && Contribution(config, cluster.objects[id], key) != []
    ensures Marked(Start(config, cluster, stored, nextUid), key)
  {
    hide Contribution, ObjectKeys;
    EnqueuedWhereItContributes(config, cluster.objects[id], key);
    assert EventFor(Start(config, cluster, stored, nextUid), ObjectEvent(None, Some(cluster.objects[id])), key);
  }

  /** A key no Create event names has nothing to say about it: no Secret, no object, no reference. */
  lemma UnnamedKeyIsSettled(config: Config, cluster: Cluster, stored: map<NamespacedName, Document>, nextUid: nat,
      key: NamespacedName)
    requires !Marked(Start(config, cluster, stored, nextUid), key)
    ensures Converged(Start(config, cluster, stored, nextUid), key)
  {
    hide Contribution, ObjectKeys, Answers, Marked, StartupEvents;
    var s := Start(config, cluster, stored, nextUid);
    if key in cluster.secrets + stored.Keys {
      NamedIsMarked(config, cluster, stored, nextUid, key);
    }
    forall u | u in FullScan(config, cluster, key) ensures false {
      var id :| id in cluster.objects && u in Contribution(config, cluster.objects[id], key);
      ReferencedIsMarked(config, cluster, stored, nextUid, key, id);
    }
    assert FullScan(config, cluster, key) == {};
    CanonicalFacts(FullScan(config, cluster, key));
    assert |AllUsages(s, key)| == 0;
  }

  /** Whatever is stored when the controller starts, the startup events account for all of it. */
  lemma StartEstablishesInv(config: Config, cluster: Cluster, stored: map<NamespacedName, Document>, nextUid: nat)
    requires ValidConfig(config) && ValidCluster(cluster)
    ensures Inv(Start(config, cluster, stored, nextUid))
  {
    hide Marked, Converged, ValidConfig, StartupEvents;
    forall key ensures KeyInv(Start(config, cluster, stored, nextUid), key) {
      if !Marked(Start(config, cluster, stored, nextUid), key) {
        UnnamedKeyIsSettled(config, cluster, stored, nextUid, key);
      }
    }
  }

  /* ---------- The queue ---------- */

  lemma DeliverKeepsMarks(s: State, e: Event, key: NamespacedName)
    requires e in s.pending
    ensures Marked(Next(s, Deliver(e)), key) <==> Marked(s, key)
  {
    hide EventKeys;
    var s' := Next(s, Deliver(e));
    if x :| EventFor(s, x, key) {
      assert x == e || EventFor(s', x, key);
    }
    if x :| EventFor(s', x, key) {
      assert EventFor(s, x, key);
    }
    if key in EventKeys(s.config, e) {
      assert EventFor(s, e, key);
    }
  }

  lemma DeliverKeepsInv(s: State, e: Event)
    requires Inv(s) && e in s.pending
    ensures Inv(Next(s, Deliver(e)))
  {
    hide Marked, Fresh, Converged, EventKeys, Answers, FullScan, SeriesAt, ValidConfig;
    forall key ensures KeyInv(Next(s, Deliver(e)), key) {
      DeliverKeepsMarks(s, e, key);
      Frame(s, Next(s, Deliver(e)), key);
    }
  }

  lemma DequeueKeepsInv(s: State, own: NamespacedName)
    requires Inv(s) && own in s.dirty && own !in s.inflight
    ensures Inv(Next(s, Dequeue(own)))
  {
    hide Fresh, Converged, EventKeys, Answers, FullScan, SeriesAt, ValidConfig, Sources;
    var s' := Next(s, Dequeue(own));
    forall key ensures KeyInv(s', key) {
      assert forall e :: EventFor(s', e, key) <==> EventFor(s, e, key);
      if key == own {
        NothingReadIsFresh(s', own);
      } else {
        hide Marked;
        Frame(s, s', key);
      }
    }
  }

  lemma NothingReadIsFresh(s: State, key: NamespacedName)
    ensures Fresh(s, key, Reading(None, []))
  {
  }

  /* ---------- One call of a reconcile ---------- */

  /** From `s` to `s'` nothing changed but at `own`: its object, gauges, mark and progress. */
  ghost predicate TouchesOnly(s: State, s': State, own: NamespacedName) {
    && s'.config == s.config && s'.cluster == s.cluster
    && s.dirty <= s'.dirty <= s.dirty + {own}
    && (!s.config.perSecretMetrics ==> s'.gauges == s.gauges)
    && forall key :: key != own ==> SameAt(s, s', key)
  }

  ghost predicate SameAt(s: State, s': State, key: NamespacedName) {
    && Lookup(s'.stored, key) == Lookup(s.stored, key)
    && SeriesAt(s'.gauges, key) == SeriesAt(s.gauges, key)
    && Lookup(s'.inflight, key) == Lookup(s.inflight, key)
  }

  lemma BookkeepingTouchesOnly(s: State, own: NamespacedName, phase: Phase)
    ensures TouchesOnly(s, SetPhase(s, own, phase), own) && TouchesOnly(s, Finish(s, own), own) &&
        TouchesOnly(s, Requeue(s, own), own)
  {
    hide SeriesAt;
  }

  lemma TouchesOnlyTransitive(s: State, mid: State, s': State, own: NamespacedName)
    requires TouchesOnly(s, mid, own) && TouchesOnly(mid, s', own)
    ensures TouchesOnly(s, s', own)
  {
    hide SeriesAt;
    forall key | key != own ensures SameAt(s, s', key) {
      assert SameAt(s, mid, key) && SameAt(mid, s', key);
    }
  }

  lemma ComparingTouchesOnly(s: State, own: NamespacedName, current: Document, want: SecretUsage)
    ensures TouchesOnly(s, CompareStatus(s, own, current, want), own) &&
        CompareStatus(s, own, current, want).pending == s.pending
    ensures TouchesOnly(s, CompareLabels(s, own, current, want), own) &&
        CompareLabels(s, own, current, want).pending == s.pending
  {
  }

  lemma DecidingTouchesOnly(s: State, own: NamespacedName, present: bool, usages: seq<Usage>)
    ensures TouchesOnly(s, Decide(s, own, present, usages), own) && Decide(s, own, present, usages).pending == s.pending
  {
  }

  lemma ForgettingTouchesOnly(s: State, own: NamespacedName)
    ensures TouchesOnly(s, Forget(s, own), own) && Forget(s, own).pending == s.pending
  {
  }

  /** A write changes the object of its own key, and emits at most that key's event. */
  lemma ServerStepTouchesOnly(s: State, own: NamespacedName)
    requires own in s.inflight
    ensures var s' := ServerStep(s, own);
            && TouchesOnly(s, s', own) && s'.dirty == s.dirty && s'.inflight == s.inflight && s'.gauges == s.gauges
            && (s'.pending == s.pending || s'.pending == s.pending + multiset{KeyEvent(own)})
  {
    hide DiffLabels, PatchedLabels, PatchedStatus, PatchFrom, SchemaAdmits, Encode, Decode, EncodeLabels, SeriesAt;
  }

  /** A reconcile touches nothing of another key: not its object, its gauges, its mark or its progress. */
  lemma AdvanceTouchesOnly(s: State, own: NamespacedName, items: seq<Usage>)
    requires own in s.inflight
    ensures var s' := Advanced(s, own, items);
            && TouchesOnly(s, s', own)
            && (s'.pending == s.pending || s'.pending == s.pending + multiset{KeyEvent(own)})
  {
    hide TouchesOnly, ServerStep, Accepts, CompareStatus, CompareLabels, Decide, Forget, SortedUsages, Flatten, Sources;
    var s' := Advanced(s, own, items);
    ServerStepTouchesOnly(s, own);
    var mid := ServerStep(s, own);
    BookkeepingTouchesOnly(s, own, if own in s'.inflight then s'.inflight[own] else Dropping);
    BookkeepingTouchesOnly(mid, own, if own in s'.inflight then s'.inflight[own] else Dropping);
    ForgettingTouchesOnly(s, own);
    ForgettingTouchesOnly(mid, own);
    match s.inflight[own]
    case Reading(None, _) =>
    case Reading(Some(present), lists) => DecidingTouchesOnly(s, own, present, SortedUsages(Flatten(lists)));
    case Fetching(want) =>
      if own in s.stored {
        ComparingTouchesOnly(s, own, s.stored[own], want);
      }
    case PatchingLabels(_, want) =>
      if Accepts(s, own) {
        assert own in mid.stored by {
          PatchedObjectRemains(s, own);
        }
        ComparingTouchesOnly(mid, own, AfterLabelPatch(s.inflight[own].current, mid.stored[own]), want);
        TouchesOnlyTransitive(s, mid, s', own);
      }
    case _ =>
      if TouchesOnly(mid, s', own) {
        TouchesOnlyTransitive(s, mid, s', own);
      }
  }

  lemma PatchedObjectRemains(s: State, own: NamespacedName)
    requires own in s.inflight && s.inflight[own].PatchingLabels? && Accepts(s, own)
    ensures own in ServerStep(s, own).stored
  {
    hide DiffLabels, PatchedLabels;
  }

  lemma AdvanceLeavesOthers(s: State, own: NamespacedName, items: seq<Usage>, key: NamespacedName)
    requires own in s.inflight && key != own
    ensures var s' := Advanced(s, own, items); SameAt(s, s', key) && (key in s'.dirty <==> key in s.dirty)
  {
    hide Advanced, SameAt;
    AdvanceTouchesOnly(s, own, items);
  }

  lemma AdvanceKeepsRest(s: State, own: NamespacedName, items: seq<Usage>)
    requires own in s.inflight
    ensures var s' := Advanced(s, own, items);
            && s'.config == s.config && s'.cluster == s.cluster && s.dirty <= s'.dirty
            && (s'.pending == s.pending || s'.pending == s.pending + multiset{KeyEvent(own)})
            && (!s.config.perSecretMetrics ==> s'.gauges == s.gauges)
  {
    hide Advanced, SameAt;
    AdvanceTouchesOnly(s, own, items);
  }

  lemma AdvanceKeepsMarks(s: State, own: NamespacedName, items: seq<Usage>, key: NamespacedName)
    requires own in s.inflight
    ensures Marked(s, key) ==> Marked(Advanced(s, own, items), key)
    ensures key != own ==> (Marked(Advanced(s, own, items), key) ==> Marked(s, key))
  {
    hide Advanced;
    var s' := Advanced(s, own, items);
    AdvanceKeepsRest(s, own, items);
    if key != own {
      AdvanceLeavesOthers(s, own, items, key);
    }
    if x :| EventFor(s, x, key) {
      assert EventFor(s', x, key);
    }
    if key != own {
      if x :| EventFor(s', x, key) {
        assert x == KeyEvent(own) || EventFor(s, x, key);
      }
    }
  }

  lemma FreshReadsDecideTheTarget(s: State, key: NamespacedName, lists: seq<seq<Usage>>)
    requires ValidConfig(s.config) && ValidCluster(s.cluster)
    requires |lists| == |Sources(s.config)|
    requires forall i :: 0 <= i < |lists| ==> Enumerates(lists[i], Answers(s.config, s.cluster, key)[i])
    ensures SortedUsages(Flatten(lists)) == AllUsages(s, key)
  {
    hide Answers, FullScan, Sources, ValidConfig;
    CollectedIsCanonical(s.config, s.cluster, key, lists);
  }

  ghost predicate Answered(s: State, key: NamespacedName, phase: Option<Phase>) {
    match phase
    case None => Converged(s, key)
    case Some(p) => Fresh(s, key, p)
  }

  /** Fresh reads stay fresh, and complete fresh reads decide on what is right. */
  lemma FreshReadGoesOn(s: State, own: NamespacedName, items: seq<Usage>)
    requires Sane(s) && own in s.inflight && s.inflight[own].Reading?
    requires Fresh(s, own, s.inflight[own]) && ListAnswer(s, own, items)
    ensures var s' := Advanced(s, own, items); Answered(s', own, Lookup(s'.inflight, own))
  {
    hide FullScan, Canonical, Desired, SeriesAt, Sources, ValidConfig, SourceUsages, KeyInv;
    var s' := Advanced(s, own, items);
    AnswersLength(s.config, s.cluster, own);
    match s.inflight[own]
    case Reading(None, _) =>
      assert s'.inflight[own] == Reading(Some(own in s.cluster.secrets), []);
    case Reading(Some(present), lists) =>
      if |lists| < |Sources(s.config)| {
        assert Answers(s.config, s.cluster, own)[|lists|] ==
            SourceUsages(s.config, s.cluster, Sources(s.config)[|lists|], own);
        assert s'.inflight[own] == Reading(Some(present), lists + [items]);
      } else {
        hide Answers;
        FreshReadsDecideTheTarget(s, own, lists);
        DecideIsRight(s, own);
      }
  }

  lemma DecideIsRight(s: State, own: NamespacedName)
    requires own in s.inflight
    requires !s.config.perSecretMetrics ==> s.gauges == NO_GAUGES
    ensures var s' := Decide(s, own, own in s.cluster.secrets, AllUsages(s, own));
            own in s'.inflight && Fresh(s', own, s'.inflight[own])
  {
    hide FullScan, Canonical, Desired;
    var s' := Decide(s, own, own in s.cluster.secrets, AllUsages(s, own));
    assert AllUsages(s', own) == AllUsages(s, own) && Target(s', own) == Target(s, own);
  }

  /** What is right depends on the cluster alone, and no call changes that. */
  lemma AdvanceKeepsTarget(s: State, own: NamespacedName, items: seq<Usage>)
    requires own in s.inflight
    ensures var s' := Advanced(s, own, items);
            Target(s', own) == Target(s, own) && TargetSeries(s', own) == TargetSeries(s, own)
  {
    hide Advanced, FullScan, Canonical, Desired;
    AdvanceKeepsRest(s, own, items);
  }

  lemma FreshDropGoesOn(s: State, own: NamespacedName, items: seq<Usage>)
    requires own in s.inflight && (s.inflight[own].Dropping? || s.inflight[own].Deleting?)
    requires !s.config.perSecretMetrics ==> s.gauges == NO_GAUGES
    requires Fresh(s, own, s.inflight[own])
    ensures var s' := Advanced(s, own, items); Answered(s', own, Lookup(s'.inflight, own))
  {
    hide Target;
    AdvanceKeepsTarget(s, own, items);
  }

  lemma FreshCreateGoesOn(s: State, own: NamespacedName, items: seq<Usage>)
    requires own in s.inflight && (s.inflight[own].Creating? || s.inflight[own].FillingStatus?)
    requires Fresh(s, own, s.inflight[own])
    ensures var s' := Advanced(s, own, items); Answered(s', own, Lookup(s'.inflight, own))
  {
    hide Target, TargetSeries, Encode, Decode, EncodeLabels, SeriesAt;
    AdvanceKeepsTarget(s, own, items);
    StoredStatusReadsBack(s.inflight[own].want.status);
  }

  lemma FreshFetchGoesOn(s: State, own: NamespacedName, items: seq<Usage>)
    requires own in s.inflight && s.inflight[own].Fetching?
    requires Fresh(s, own, s.inflight[own])
    ensures var s' := Advanced(s, own, items); Answered(s', own, Lookup(s'.inflight, own))
  {
    hide Target, TargetSeries, Encode, Decode, EncodeLabels, DecodeLabels, SeriesAt;
    AdvanceKeepsTarget(s, own, items);
    WantedLabelsAreMade(s, own);
    if own in s.stored {
      LabelComparison(s.stored[own].labels, s.inflight[own].want.labels);
      StatusComparison(s.stored[own].status, s.inflight[own].want.status);
    }
  }

  lemma FreshPatchGoesOn(s: State, own: NamespacedName, items: seq<Usage>)
    requires own in s.inflight && (s.inflight[own].PatchingLabels? || s.inflight[own].PatchingStatus?)
    requires Fresh(s, own, s.inflight[own]) && Accepts(s, own)
    ensures var s' := Advanced(s, own, items); Answered(s', own, Lookup(s'.inflight, own))
  {
    hide Target, TargetSeries, Encode, Decode, EncodeLabels, DecodeLabels, SeriesAt, DiffLabels, PatchedLabels,
         PatchedStatus, PatchFrom;
    AdvanceKeepsTarget(s, own, items);
    WantedLabelsAreMade(s, own);
    var current, want := s.inflight[own].current, s.inflight[own].want;
    LabelPatchArrives(current.labels, EncodeLabels(want.labels));
    StatusComparison(current.status, want.status);
    StatusPatchArrives(current.status, want.status);
  }

  /** What a reconcile wants always has a label map, never a nil one. */
  lemma WantedLabelsAreMade(s: State, own: NamespacedName)
    ensures Target(s, own).Some? ==>
        Target(s, own).value.labels.LabelsOf? && Target(s, own).value.status.usages.SliceOf?
  {
    hide FullScan, Canonical, DesiredLabels;
  }

  /** Equal as the language compares them means equal as stored; the converse fails only for empty labels. */
  lemma LabelComparison(stored: map<string, string>, want: Labels)
    requires want.LabelsOf?
    ensures DecodeLabels(stored) == want ==> stored == EncodeLabels(want)
    ensures DecodeLabels(stored) != want && stored == EncodeLabels(want) <==>
        stored == map[] && EncodeLabels(want) == map[]
  {
  }

  /** The same for status: the comparison misses equality exactly when the list is empty. */
  lemma StatusComparison(stored: StatusDoc, want: Status)
    requires want.usages.SliceOf?
    ensures Decode(stored) == want ==> Decode(stored) == Normal(want)
    ensures Decode(stored) != want && Decode(stored) == Normal(want) <==>
        Decode(stored) == Normal(want) && want.usages.items == []
  {
  }

  lemma FreshGoesOn(s: State, own: NamespacedName, items: seq<Usage>)
    requires Sane(s) && own in s.inflight && ListAnswer(s, own, items)
    requires Fresh(s, own, s.inflight[own]) && Accepts(s, own)
    ensures var s' := Advanced(s, own, items); Answered(s', own, Lookup(s'.inflight, own))
  {
    hide Fresh, Answered, KeyInv, Advanced, ValidConfig, ListAnswer, Accepts;
    if s.inflight[own].Reading? {
      FreshReadGoesOn(s, own, items);
    } else {
      match s.inflight[own]
      case Dropping => FreshDropGoesOn(s, own, items);
      case Deleting => FreshDropGoesOn(s, own, items);
      case Fetching(_) => FreshFetchGoesOn(s, own, items);
      case Creating(_) => FreshCreateGoesOn(s, own, items);
      case FillingStatus(_, _) => FreshCreateGoesOn(s, own, items);
      case PatchingLabels(_, _) => FreshPatchGoesOn(s, own, items);
      case PatchingStatus(_, _) => FreshPatchGoesOn(s, own, items);
    }
  }

  lemma AdvanceKeepsSane(s: State, own: NamespacedName, items: seq<Usage>)
    requires Sane(s) && own in s.inflight
    ensures Sane(Advanced(s, own, items))
  {
    hide ValidConfig, Advanced, WellFormedPhase;
    var s' := Advanced(s, own, items);
    AdvanceKeepsRest(s, own, items);
    forall key | key in s'.inflight ensures WellFormedPhase(s.config, s'.inflight[key]) {
      if key != own {
        AdvanceLeavesOthers(s, own, items, key);
        assert Lookup(s'.inflight, key) == Lookup(s.inflight, key);
      } else {
        AdvancedPhaseIsWellFormed(s, own, items);
      }
    }
  }

  lemma AdvancedPhaseIsWellFormed(s: State, own: NamespacedName, items: seq<Usage>)
    requires own in s.inflight && WellFormedPhase(s.config, s.inflight[own])
    ensures var s' := Advanced(s, own, items); own in s'.inflight ==> WellFormedPhase(s.config, s'.inflight[own])
  {
    hide Sources, DiffLabels, PatchedLabels, PatchedStatus, PatchFrom, Encode, Decode, SortedUsages, Flatten, Desired,
         RecordSecretMetrics,
         ClearSecretMetrics;
  }

  /** A refused write leaves its key dirty; no other call can be refused. */
  lemma RefusedIsMarked(s: State, own: NamespacedName, items: seq<Usage>)
    requires own in s.inflight && !Accepts(s, own)
    ensures Marked(Advanced(s, own, items), own)
  {
    hide PatchedStatus, PatchFrom, SchemaAdmits;
    assert own in Advanced(s, own, items).dirty;
  }

  lemma AdvanceKeepsInv(s: State, own: NamespacedName, items: seq<Usage>)
    requires Inv(s) && Enabled(s, Advance(own, items))
    ensures Inv(Advanced(s, own, items))
  {
    hide Advanced, Accepts, Marked, Fresh, Converged, Answers, FullScan, ValidConfig, ListAnswer, WellFormedPhase,
         SeriesAt;
    var s' := Advanced(s, own, items);
    AdvanceKeepsRest(s, own, items);
    AdvanceKeepsSane(s, own, items);
    forall key ensures KeyInv(s', key) {
      AdvanceKeepsMarks(s, own, items, key);
      if key != own {
        AdvanceLeavesOthers(s, own, items, key);
        Frame(s, s', key);
      } else if !Marked(s', own) {
        assert KeyInv(s, own);
        if !Accepts(s, own) {
          RefusedIsMarked(s, own, items);
        }
        FreshGoesOn(s, own, items);
      }
    }
  }

  /** A failed call, whether or not it took effect, leaves its key dirty. */
  lemma FaultKeepsInv(s: State, own: NamespacedName, applied: bool)
    requires Inv(s) && own in s.inflight
    ensures Inv(Next(s, Fault(own, applied)))
  {
    hide Fresh, Converged, Answers, FullScan, ValidConfig, WellFormedPhase, Marked;
    var s' := Next(s, Fault(own, applied));
    ServerStepTouchesOnly(s, own);
    forall key ensures KeyInv(s', key) {
      if key == own {
        DirtyIsMarked(s', own);
      } else {
        assert SameAt(s, ServerStep(s, own), key);
        ServerStepKeepsMarks(s, own, key, s');
        Frame(s, s', key);
      }
    }
  }

  lemma DirtyIsMarked(s: State, key: NamespacedName)
    requires key in s.dirty
    ensures Marked(s, key)
  {
  }

  lemma ServerStepKeepsMarks(s: State, own: NamespacedName, key: NamespacedName, s': State)
    requires own in s.inflight && key != own
    requires s'.config == s.config && s'.dirty == s.dirty + {own}
    requires s'.pending == s.pending || s'.pending == s.pending + multiset{KeyEvent(own)}
    ensures Marked(s', key) <==> Marked(s, key)
  {
    if x :| EventFor(s, x, key) {
      assert EventFor(s', x, key);
    }
    if x :| EventFor(s', x, key) {
      assert x == KeyEvent(own) || EventFor(s, x, key);
    }
  }

  /* ---------- Every step, every run ---------- */

  lemma StepKeepsInv(s: State, a: Action)
    requires Inv(s) && Enabled(s, a)
    ensures Inv(Next(s, a))
  {
    hide Inv, Advanced, ListAnswer;
    assert ValidCluster(s.cluster) by {
      InvImpliesValid(s);
    }
    match a
    case PutObject(r) => ObjectChangeKeepsInv(s, IdOf(r), Some(r));
    case RemoveObject(id) => ObjectChangeKeepsInv(s, id, None);
    case AddSecret(key) => OwnEventKeepsInv(s, s.(cluster := s.cluster.(secrets := s.cluster.secrets + {key})), key);
    case RemoveSecret(key) => OwnEventKeepsInv(s, s.(cluster := s.cluster.(secrets := s.cluster.secrets - {key})), key);
    case TouchSecret(key) => OwnEventKeepsInv(s, s, key);
    case UserCreates(key, labels) =>
      OwnEventKeepsInv(s, s.(stored := s.stored[key := Document(s.nextUid, labels, NO_STATUS)]), key);
      InvIgnoresUid(Emit(s.(stored := s.stored[key := Document(s.nextUid, labels, NO_STATUS)]), KeyEvent(key)),
          s.nextUid + 1);
    case UserDeletes(key) => OwnEventKeepsInv(s, s.(stored := s.stored - {key}), key);
    case Restart(config) => StartEstablishesInv(config, s.cluster, s.stored, s.nextUid);
    case Deliver(e) => DeliverKeepsInv(s, e);
    case Dequeue(key) => DequeueKeepsInv(s, key);
    case Advance(key, items) => AdvanceKeepsInv(s, key, items);
    case Fault(key, applied) => FaultKeepsInv(s, key, applied);
  }

  lemma InvImpliesValid(s: State)
    requires Inv(s)
    ensures ValidCluster(s.cluster) && ValidConfig(s.config)
  {
  }

  lemma InvIgnoresUid(s: State, uid: nat)
    requires Inv(s)
    ensures Inv(s.(nextUid := uid))
  {
    hide Marked, Fresh, Converged, Answers, FullScan, ValidConfig, WellFormedPhase, SeriesAt;
    forall key ensures KeyInv(s.(nextUid := uid), key) {
      SameMarks(s, s.(nextUid := uid), key);
      Frame(s, s.(nextUid := uid), key);
    }
  }

  lemma {:induction false} RunKeepsInv(s: State, run: seq<Action>)
    requires Inv(s) && IsRun(s, run)
    ensures Inv(After(s, run))
    decreases |run|
  {
    hide Inv, Enabled, Next;
    if run != [] {
      StepKeepsInv(s, run[0]);
      RunKeepsInv(Next(s, run[0]), run[1..]);
    }
  }

  ghost predicate Quiescent(s: State) {
    s.pending == multiset{} && s.dirty == {} && s.inflight == map[]
  }

  /**
   From any store, after any interleaving of changes, deliveries, reconciles, failures and
   restarts, a key that is not settled is dirty, or in an undelivered event, or being
   processed; so whenever nothing is pending the whole index is right.
   */
  lemma EveryRunConverges(config: Config, cluster: Cluster, stored: map<NamespacedName, Document>, nextUid: nat,
      run: seq<Action>)
    requires ValidConfig(config) && ValidCluster(cluster)
    requires IsRun(Start(config, cluster, stored, nextUid), run)
    ensures var s := After(Start(config, cluster, stored, nextUid), run);
            && (forall key :: Converged(s, key) || Marked(s, key) || key in s.inflight)
            && (Quiescent(s) ==> forall key :: Converged(s, key))
  {
    hide Fresh, Converged, ValidConfig, IsRun, After, Start, EventKeys;
    StartEstablishesInv(config, cluster, stored, nextUid);
    RunKeepsInv(Start(config, cluster, stored, nextUid), run);
    var s := After(Start(config, cluster, stored, nextUid), run);
    forall key ensures Converged(s, key) || Marked(s, key) || key in s.inflight {
      assert KeyInv(s, key);
    }
  }

  /**
   Torn reads heal: if a key being processed is neither dirty nor in an undelivered event,
   then everything its reconcile has read so far is what a fresh read would give now.
   */
  lemma TornReadsHeal(config: Config, cluster: Cluster, stored: map<NamespacedName, Document>, nextUid: nat,
      run: seq<Action>, key: NamespacedName)
    requires ValidConfig(config) && ValidCluster(cluster)
    requires IsRun(Start(config, cluster, stored, nextUid), run)
    ensures var s := After(Start(config, cluster, stored, nextUid), run);
            key in s.inflight && s.inflight[key].Reading? && !Marked(s, key) ==>
              var phase := s.inflight[key];
              && (phase.present.Some? ==> phase.present.value == (key in s.cluster.secrets))
              && |phase.lists| <= |Sources(s.config)|
              && forall i :: 0 <= i < |phase.lists| ==>
                   Enumerates(phase.lists[i], SourceUsages(s.config, s.cluster, Sources(s.config)[i], key))
  {
    hide ValidConfig, IsRun, After, Start, Marked, Converged, Sources, SourceUsages;
    StartEstablishesInv(config, cluster, stored, nextUid);
    RunKeepsInv(Start(config, cluster, stored, nextUid), run);
    var s := After(Start(config, cluster, stored, nextUid), run);
    assert KeyInv(s, key);
    AnswersLength(s.config, s.cluster, key);
  }
}
