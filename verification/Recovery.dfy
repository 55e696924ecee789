/**
 Recovery: over which stored objects a starting controller can come to rest, when the API
 server enforces the schema of SecretUsage objects and when it does not.
 */
module Recovery {
  import opened Wrappers
  import opened Collections
  import opened Collection
  import opened Documents
  import opened Protocol
  import opened Convergence
  import opened Termination
  import opened Usages

  /* ---------- Recovery ---------- */

  /** Every stored object that should stay has a status a reconcile can fill in. */
  ghost predicate Recoverable(config: Config, cluster: Cluster, stored: map<NamespacedName, Document>, nextUid: nat) {
    forall key :: key in stored ==> Fillable(Start(config, cluster, stored, nextUid), key)
  }

  /** The same, in terms of the stored members and what the cluster calls for. */
  lemma RecoverableExactly(config: Config, cluster: Cluster, stored: map<NamespacedName, Document>, nextUid: nat)
    ensures Recoverable(config, cluster, stored, nextUid) <==>
            (cluster.enforcesSchema ==>
               forall key, want ::
                 key in stored && Target(Start(config, cluster, stored, nextUid), key) == Some(want) ==>
                   var d := stored[key].status;
                   Decode(d) == Normal(want.status) ||
                   ((d.present.Some? || want.status.present) && (d.usageCount.Some? || want.status.usageCount != 0)))
  {
    hide Target, Admits, StartupEvents, Decode, Normal;
    var s := Start(config, cluster, stored, nextUid);
    forall key | key in stored && Target(s, key).Some?
      ensures Admits(cluster, stored[key].status, Target(s, key).value.status) <==>
                (cluster.enforcesSchema ==>
                   var d, want := stored[key].status, Target(s, key).value;
                   Decode(d) == Normal(want.status) ||
                   ((d.present.Some? || want.status.present) && (d.usageCount.Some? || want.status.usageCount != 0)))
    {
      AdmitsExactly(cluster, stored[key].status, Target(s, key).value.status);
    }
  }

  /** Run `run` is made of controller steps alone, and nothing is pending at its end. */
  ghost predicate LeadsToRest(s: State, run: seq<Action>) {
    IsRun(s, run) && AllQuiet(run) && Quiescent(After(s, run))
  }

  /** The right objects and no others: for keys referenced, or existing and tracked while unused. */
  ghost predicate IndexIsRight(s: State) {
    forall key ::
      && Converged(s, key)
      && (key in s.stored <==>
            FullScan(s.config, s.cluster, key) != {} || (key in s.cluster.secrets && s.config.trackUnusedSecrets))
  }

  /**
   Crash recovery. Started over any stored objects, stale, orphaned or half written, the
   controller left alone can come to rest exactly when every object that should stay has a
   fillable status; then every key is right. Without schema enforcement that is always so.
   */
  lemma RestIsReachedExactlyWhenRecoverable(config: Config, cluster: Cluster, stored: map<NamespacedName, Document>,
      nextUid: nat)
    requires ValidConfig(config) && ValidCluster(cluster)
    ensures var s := Start(config, cluster, stored, nextUid);
            && ((exists run :: LeadsToRest(s, run)) <==> Recoverable(config, cluster, stored, nextUid))
            && (forall run :: LeadsToRest(s, run) ==>
                  After(s, run).cluster == cluster && After(s, run).config == config && IndexIsRight(After(s, run)))
  {
    hide Inv, IsRun, After, Start, ValidConfig, ValidCluster, AllQuiet, Quiescent, Fillable, IndexIsRight;
    var s := Start(config, cluster, stored, nextUid);
    StartEstablishesInv(config, cluster, stored, nextUid);
    StartIs(config, cluster, stored, nextUid);
    if Recoverable(config, cluster, stored, nextUid) {
      StartIsFillable(config, cluster, stored, nextUid);
      var run := ComesToRest(s);
      assert LeadsToRest(s, run);
    } else {
      var key :| key in stored && !Fillable(s, key);
      StartIsRefused(config, cluster, stored, nextUid, key);
      forall run | LeadsToRest(s, run) ensures false {
        RefusedForEver(s, run, key, stored[key].status);
      }
    }
    forall run | LeadsToRest(s, run)
      ensures After(s, run).cluster == cluster && After(s, run).config == config && IndexIsRight(After(s, run))
    {
      QuietRunKeepsCluster(s, run);
      RunKeepsInv(s, run);
      RestIsRight(After(s, run));
    }
  }

  /** A start that is not: an existing, unused Secret whose object was created and never got its status. */
  lemma LostStatusOfUnusedSecret(config: Config, key: NamespacedName, nextUid: nat)
    requires config.trackUnusedSecrets
    ensures var stored := map[key := Document(0, map[], NO_STATUS)];
            !Recoverable(config, Cluster({key}, map[], true), stored, nextUid)
  {
    hide StartupEvents, DesiredLabels, IsValidLabelValue;
    var stored := map[key := Document(0, map[], NO_STATUS)];
    var s := Start(config, Cluster({key}, map[], true), stored, nextUid);
    CanonicalFacts(FullScan(config, s.cluster, key));
    assert FullScan(config, s.cluster, key) == {};
    assert |AllUsages(s, key)| == 0;
    Int32IsExact(0);
    var want := Target(s, key).value.status;
    assert want.present && want.usageCount == 0;
    AdmitsExactly(s.cluster, NO_STATUS, want);
    assert !Admits(s.cluster, NO_STATUS, want);
    hide Target, Admits;
    assert stored[key].status == NO_STATUS && !Fillable(s, key);
  }

  /** From a recoverable start every run of controller steps ends, in whatever order they are taken. */
  lemma RecoverableStartComesToRest(config: Config, cluster: Cluster, stored: map<NamespacedName, Document>,
                                    nextUid: nat, states: nat -> State, actions: nat -> Action)
    requires ValidConfig(config) && ValidCluster(cluster) && Recoverable(config, cluster, stored, nextUid)
    requires states(0) == Start(config, cluster, stored, nextUid)
    ensures exists n: nat :: !QuietStep(states(n), actions(n), states(n + 1))
  {
    hide ValidConfig, ValidCluster, Recoverable, Start, Inv, AllFillable, QuietStep;
    StartEstablishesInv(config, cluster, stored, nextUid);
    StartIsFillable(config, cluster, stored, nextUid);
    NoEndlessQuietRun(states, actions);
  }

  lemma StartIsFillable(config: Config, cluster: Cluster, stored: map<NamespacedName, Document>, nextUid: nat)
    requires Recoverable(config, cluster, stored, nextUid)
    ensures AllFillable(Start(config, cluster, stored, nextUid))
  {
    hide Target, Admits, StartupEvents;
  }

  lemma RestIsRight(s: State)
    requires Inv(s) && Quiescent(s)
    ensures IndexIsRight(s)
  {
    hide Inv, Converged, Quiescent, FullScan;
    RestIsConverged(s);
    forall key
      ensures key in s.stored <==>
              FullScan(s.config, s.cluster, key) != {} || (key in s.cluster.secrets && s.config.trackUnusedSecrets)
    {
      PresenceOfSettled(s, key);
    }
  }

  /* ---------- An object that cannot be filled ---------- */

  predicate OnTheWayToPatch(phase: Phase) {
    phase.Reading? || phase.Fetching? || phase.PatchingLabels? || phase.PatchingStatus?
  }

  /** `key` keeps a status no reconcile can fill in, and keeps being reconciled. */
  ghost predicate Refused(s: State, key: NamespacedName, d: StatusDoc) {
    && key in s.stored && s.stored[key].status == d && !Fillable(s, key)
    && (Marked(s, key) || key in s.inflight)
    && (key in s.inflight ==> Fresh(s, key, s.inflight[key]) && OnTheWayToPatch(s.inflight[key]))
  }

  lemma StartIsRefused(config: Config, cluster: Cluster, stored: map<NamespacedName, Document>, nextUid: nat,
      key: NamespacedName)
    requires key in stored && !Fillable(Start(config, cluster, stored, nextUid), key)
    ensures Refused(Start(config, cluster, stored, nextUid), key, stored[key].status)
  {
    hide Fillable, Marked, StartupEvents;
    NamedIsMarked(config, cluster, stored, nextUid, key);
  }

  /** The call that could fill the status is refused; every call before it leads there. */
  lemma RefusedGoesOn(s: State, own: NamespacedName, items: seq<Usage>, d: StatusDoc)
    requires Sane(s) && own in s.inflight && ListAnswer(s, own, items) && Refused(s, own, d)
    ensures Refused(Advanced(s, own, items), own, d)
  {
    hide Advanced, Accepts, Fillable, Fresh, ListAnswer, Marked, Sane, Converged;
    var s' := Advanced(s, own, items);
    AdvanceKeepsTarget(s, own, items);
    AdvanceKeepsRest(s, own, items);
    AdvanceKeepsMarks(s, own, items, own);
    RefusedCall(s, own, items, d);
    if Accepts(s, own) {
      FreshGoesOn(s, own, items);
      assert Lookup(s'.inflight, own) == Some(s'.inflight[own]);
    } else {
      RefusedIsMarked(s, own, items);
    }
    UnfillableStays(s, s', own);
  }

  lemma UnfillableStays(s: State, s': State, key: NamespacedName)
    requires s'.config == s.config && s'.cluster == s.cluster
    requires key in s.stored && key in s'.stored && s'.stored[key].status == s.stored[key].status
    ensures Fillable(s', key) <==> Fillable(s, key)
  {
    hide FullScan, Canonical, Desired, Admits;
    assert Target(s', key) == Target(s, key);
  }

  /** `key` keeps its object, and its status needs a patch. */
  ghost predicate NeedsPatch(s: State, key: NamespacedName, d: StatusDoc) {
    && key in s.stored && s.stored[key].status == d
    && Target(s, key).Some? && Decode(d) != Normal(Target(s, key).value.status)
  }

  /** Until the status patch itself, every call of such a reconcile succeeds and leads on to it. */
  lemma LeadsToPatch(s: State, own: NamespacedName, items: seq<Usage>, d: StatusDoc)
    requires Sane(s) && own in s.inflight && ListAnswer(s, own, items) && NeedsPatch(s, own, d)
    requires Fresh(s, own, s.inflight[own])
    requires OnTheWayToPatch(s.inflight[own]) && !s.inflight[own].PatchingStatus?
    ensures var s' := Advanced(s, own, items);
            && Accepts(s, own) && NeedsPatch(s', own, d)
            && own in s'.inflight && OnTheWayToPatch(s'.inflight[own]) && Fresh(s', own, s'.inflight[own])
  {
    hide Target, Fresh, Sane, Advanced, ListAnswer, Decode, Normal, Accepts;
    AdvanceKeepsTarget(s, own, items);
    if s.inflight[own].Reading? {
      ReadingLeadsOn(s, own, items);
    } else {
      WritingLeadsOn(s, own, items, d);
    }
    FreshGoesOn(s, own, items);
    assert Lookup(Advanced(s, own, items).inflight, own) == Some(Advanced(s, own, items).inflight[own]);
  }

  lemma ReadingLeadsOn(s: State, own: NamespacedName, items: seq<Usage>)
    requires Sane(s) && own in s.inflight && s.inflight[own].Reading? && ListAnswer(s, own, items)
    requires Fresh(s, own, s.inflight[own]) && Target(s, own).Some?
    ensures var s' := Advanced(s, own, items);
            Accepts(s, own) && s'.stored == s.stored && own in s'.inflight && OnTheWayToPatch(s'.inflight[own])
  {
    hide Sane, Answers, FullScan, Canonical, Sources, SourceUsages, SortedUsages, Flatten, RecordSecretMetrics,
         SeriesAt;
    FreshReadGoesOn(s, own, items);
    AdvanceKeepsTarget(s, own, items);
    var s' := Advanced(s, own, items);
    assert Lookup(s'.inflight, own) == Some(s'.inflight[own]);
  }

  lemma WritingLeadsOn(s: State, own: NamespacedName, items: seq<Usage>, d: StatusDoc)
    requires own in s.inflight && (s.inflight[own].Fetching? || s.inflight[own].PatchingLabels?)
    requires Fresh(s, own, s.inflight[own]) && NeedsPatch(s, own, d)
    ensures var s' := Advanced(s, own, items);
            && Accepts(s, own) && own in s'.stored && s'.stored[own].status == d
            && own in s'.inflight && OnTheWayToPatch(s'.inflight[own])
  {
    hide Target, TargetSeries, SeriesAt, PatchedLabels, DiffLabels, Decode, DecodeLabels, EncodeLabels;
    WantedLabelsAreMade(s, own);
    StatusComparison(d, s.inflight[own].want.status);
  }

  lemma RefusedCall(s: State, own: NamespacedName, items: seq<Usage>, d: StatusDoc)
    requires Sane(s) && own in s.inflight && ListAnswer(s, own, items) && Refused(s, own, d)
    ensures var s' := Advanced(s, own, items);
            && own in s'.stored && s'.stored[own].status == d
            && (Accepts(s, own) ==> own in s'.inflight && OnTheWayToPatch(s'.inflight[own]))
            && (!Accepts(s, own) ==> own !in s'.inflight)
  {
    hide Marked, Target, TargetSeries, SeriesAt, SchemaAdmits, PatchedStatus, PatchFrom, Decode, Sane, ListAnswer;
    StatusPatchArrives(d, Target(s, own).value.status);
    EmptyPatchIsAdmitted(d);
    if !s.inflight[own].PatchingStatus? {
      LeadsToPatch(s, own, items, d);
    }
  }

  lemma EmptyPatchIsAdmitted(d: StatusDoc)
    ensures SchemaAdmits(d, EMPTY_STATUS_PATCH)
  {
  }

  lemma RefusedStaysElsewhere(s: State, s': State, key: NamespacedName, d: StatusDoc)
    requires Refused(s, key, d)
    requires s'.config == s.config && s'.cluster == s.cluster
    requires Lookup(s'.stored, key) == Lookup(s.stored, key) && Lookup(s'.inflight, key) == Lookup(s.inflight, key)
    requires SeriesAt(s'.gauges, key) == SeriesAt(s.gauges, key)
    requires Marked(s, key) ==> Marked(s', key)
    ensures Refused(s', key, d)
  {
    hide Fillable, Fresh, Marked, SeriesAt, Answers, FullScan;
    assert Lookup(s.stored, key) == Some(s.stored[key]);
    UnfillableStays(s, s', key);
    if key in s'.inflight {
      assert Lookup(s.inflight, key) == Some(s'.inflight[key]);
      FrameFresh(s, s', key, s'.inflight[key]);
    }
    if key in s.inflight {
      assert Lookup(s'.inflight, key).Some?;
    }
  }

  lemma QuietStepStaysRefused(s: State, a: Action, key: NamespacedName, d: StatusDoc)
    requires Sane(s) && IsQuiet(a) && Enabled(s, a) && Refused(s, key, d)
    ensures Refused(Next(s, a), key, d)
  {
    hide Advanced, ListAnswer, EventKeys, Refused, Sane, SeriesAt, Marked;
    match a
    case Advance(own, items) =>
      if own == key {
        RefusedGoesOn(s, own, items, d);
      } else {
        AdvanceKeepsRest(s, own, items);
        AdvanceLeavesOthers(s, own, items, key);
        AdvanceKeepsMarks(s, own, items, key);
        RefusedStaysElsewhere(s, Next(s, a), key, d);
      }
    case Deliver(e) =>
      DeliverKeepsMarks(s, e, key);
      RefusedStaysElsewhere(s, Next(s, a), key, d);
    case Dequeue(own) =>
      assert Next(s, a) == TakenUp(s, own);
      if own == key {
        TakenUpAgain(s, key, d);
      } else {
        if Marked(s, key) {
          DequeueKeepsMark(s, own, key);
        }
        RefusedStaysElsewhere(s, Next(s, a), key, d);
      }
  }

  lemma DequeueKeepsMark(s: State, own: NamespacedName, key: NamespacedName)
    requires key != own && Marked(s, key)
    ensures Marked(TakenUp(s, own), key)
  {
    hide EventKeys;
    if x :| EventFor(s, x, key) {
      assert EventFor(TakenUp(s, own), x, key);
    }
  }

  function TakenUp(s: State, own: NamespacedName): State {
    SetPhase(s.(dirty := s.dirty - {own}), own, Reading(None, []))
  }

  lemma TakenUpAgain(s: State, key: NamespacedName, d: StatusDoc)
    requires Refused(s, key, d)
    ensures Refused(TakenUp(s, key), key, d)
  {
    hide Fillable, Fresh, Marked;
    UnfillableStays(s, TakenUp(s, key), key);
    NothingReadIsFresh(TakenUp(s, key), key);
  }

  /** So no run of controller steps that starts here comes to rest, and each can go on. */
  lemma {:induction false} RefusedForEver(s: State, run: seq<Action>, key: NamespacedName, d: StatusDoc)
    requires Inv(s) && Refused(s, key, d)
    requires IsRun(s, run) && AllQuiet(run)
    ensures Refused(After(s, run), key, d) && !Quiescent(After(s, run))
    ensures exists a :: IsQuiet(a) && Enabled(After(s, run), a)
    decreases |run|
  {
    hide Enabled, Next, IsQuiet, KeyInv, Sane;
    if run == [] {
      RefusedIsNotRest(s, key, d);
      var a := SomethingToDo(s);
    } else {
      hide Inv;
      InvIsSane(s);
      QuietStepStaysRefused(s, run[0], key, d);
      StepKeepsInv(s, run[0]);
      RefusedForEver(Next(s, run[0]), run[1..], key, d);
    }
  }

  lemma InvIsSane(s: State)
    requires Inv(s)
    ensures Sane(s)
  {
    hide Sane, KeyInv;
  }

  lemma RefusedIsNotRest(s: State, key: NamespacedName, d: StatusDoc)
    requires Refused(s, key, d)
    ensures !Quiescent(s)
  {
    hide Fillable, Fresh, EventKeys;
  }

  lemma StartIs(config: Config, cluster: Cluster, stored: map<NamespacedName, Document>, nextUid: nat)
    ensures Start(config, cluster, stored, nextUid).cluster == cluster &&
        Start(config, cluster, stored, nextUid).config == config
  {
    hide StartupEvents;
  }

  lemma PresenceOfSettled(s: State, key: NamespacedName)
    requires Converged(s, key)
    ensures key in s.stored <==>
        FullScan(s.config, s.cluster, key) != {} || (key in s.cluster.secrets && s.config.trackUnusedSecrets)
  {
    hide FullScan, Canonical, DesiredLabels, DesiredStatus, TargetSeries, SeriesAt, Holds;
    CanonicalFacts(FullScan(s.config, s.cluster, key));
  }

  lemma {:induction false} QuietRunKeepsCluster(s: State, run: seq<Action>)
    requires IsRun(s, run) && AllQuiet(run)
    ensures After(s, run).cluster == s.cluster && After(s, run).config == s.config
    decreases |run|
  {
    hide Enabled, Next, IsQuiet;
    if run != [] {
      QuietStepKeepsCluster(s, run[0]);
      QuietRunKeepsCluster(Next(s, run[0]), run[1..]);
    }
  }

  lemma QuietStepKeepsCluster(s: State, a: Action)
    requires IsQuiet(a) && Enabled(s, a)
    ensures Next(s, a).cluster == s.cluster && Next(s, a).config == s.config
  {
    hide Advanced, ListAnswer, EventKeys;
    if a.Advance? {
      AdvanceKeepsRest(s, a.key, a.items);
    }
  }
}
