/**
 No self-trigger loop: once the surroundings are quiet and no call fails, every controller
 step makes a well-founded measure smaller, and some step is possible until nothing is
 pending. So the controller always comes to rest, with the whole index right, as long as no
 stored status is one that the server will not let it fill in.
 */
module Termination {
  import opened Wrappers
  import opened Collections
  import opened Usages
  import opened Collection
  import opened Documents
  import opened Protocol
  import opened Convergence

  /** A controller step with no injected fault. A write can still be refused when what it was based on is stale. */
  predicate IsQuiet(a: Action) {
    a.Deliver? || a.Dequeue? || a.Advance?
  }

  /* ---------- Statuses the schema lets a reconcile fill ---------- */

  /** Starting from the stored status, the patch to the wanted one would be accepted. */
  predicate Admits(cluster: Cluster, d: StatusDoc, want: Status) {
    cluster.enforcesSchema ==> SchemaAdmits(d, PatchFrom(d, want))
  }

  /**
   In terms of the stored members: the status is right already, or each required member is
   there or wanted other than zero.
   */
  lemma AdmitsExactly(cluster: Cluster, d: StatusDoc, want: Status)
    ensures Admits(cluster, d, want) <==>
              (cluster.enforcesSchema ==>
                 Decode(d) == Normal(want) ||
                 ((d.present.Some? || want.present) && (d.usageCount.Some? || want.usageCount != 0)))
  {
    RequiredMembersAfterPatch(d, want);
    StatusPatchArrives(d, want);
    hide PatchedStatus, PatchFrom, Decode;
  }

  lemma CompleteStatusAdmitsAll(cluster: Cluster, d: StatusDoc, want: Status)
    requires HasRequiredMembers(d)
    ensures Admits(cluster, d, want)
  {
    RequiredMembersStay(d, d, want);
  }

  ghost predicate Fillable(s: State, key: NamespacedName) {
    key in s.stored && Target(s, key).Some? ==> Admits(s.cluster, s.stored[key].status, Target(s, key).value.status)
  }

  /** The reconcile that created the object is about to write its first status. */
  predicate Filling(s: State, key: NamespacedName) {
    key in s.inflight && s.inflight[key].FillingStatus? && key in s.stored && s.stored[key].uid == s.inflight[key].uid
  }

  ghost predicate AllFillable(s: State) {
    forall key :: Fillable(s, key) || Filling(s, key)
  }

  lemma FillableFrames(s: State, s': State, key: NamespacedName)
    requires s'.config == s.config && s'.cluster == s.cluster
    requires Lookup(s'.stored, key) == Lookup(s.stored, key)
    ensures Fillable(s', key) <==> Fillable(s, key)
    ensures Lookup(s'.inflight, key) == Lookup(s.inflight, key) ==> (Filling(s', key) <==> Filling(s, key))
  {
    hide FullScan, Canonical, Desired, Admits;
    assert Target(s', key) == Target(s, key);
    if key in s'.stored {
      assert Lookup(s.stored, key) == Some(s'.stored[key]);
    }
    if key in s'.inflight {
      assert Lookup(s.inflight, key).Some? <==> key in s.inflight;
    }
  }

  /**
   What a call leaves stored under its own key: the status it found, one with all required
   members, or one about to be filled.
   */
  lemma CallLeavesStatus(s: State, own: NamespacedName, items: seq<Usage>)
    requires own in s.inflight && s.cluster.enforcesSchema
    ensures var s' := Advanced(s, own, items);
            own in s'.stored ==>
              || HasRequiredMembers(s'.stored[own].status)
              || Filling(s', own)
              || (own in s.stored && s'.stored[own].status == s.stored[own].status && !Filling(s, own))
  {
    hide Decode, DecodeLabels, SortedUsages, Flatten, Sources, Desired, DiffLabels, PatchedLabels, PatchFrom,
         EncodeLabels,
         RecordSecretMetrics, ClearSecretMetrics, Overlay;
    if s.inflight[own].PatchingStatus? && own in s.stored {
      EmptyPatchKeeps(s.stored[own].status);
    }
    hide PatchedStatus;
  }

  lemma EmptyPatchKeeps(d: StatusDoc)
    ensures PatchedStatus(d, EMPTY_STATUS_PATCH) == d
  {
  }

  lemma AdvanceKeepsFillable(s: State, own: NamespacedName, items: seq<Usage>)
    requires AllFillable(s) && own in s.inflight
    ensures AllFillable(Advanced(s, own, items))
  {
    hide Advanced, Fillable, Filling, HasRequiredMembers;
    var s' := Advanced(s, own, items);
    AdvanceKeepsRest(s, own, items);
    forall key ensures Fillable(s', key) || Filling(s', key) {
      if key != own {
        AdvanceLeavesOthers(s, own, items, key);
        FillableFrames(s, s', key);
      } else {
        OwnStaysFillable(s, own, items);
      }
    }
  }

  lemma OwnStaysFillable(s: State, own: NamespacedName, items: seq<Usage>)
    requires own in s.inflight && (Fillable(s, own) || Filling(s, own))
    ensures var s' := Advanced(s, own, items); Fillable(s', own) || Filling(s', own)
  {
    hide Advanced, Target, SchemaAdmits, PatchFrom;
    var s' := Advanced(s, own, items);
    AdvanceKeepsRest(s, own, items);
    AdvanceKeepsTarget(s, own, items);
    if s.cluster.enforcesSchema && own in s'.stored && Target(s, own).Some? {
      CallLeavesStatus(s, own, items);
      if HasRequiredMembers(s'.stored[own].status) {
        CompleteStatusAdmitsAll(s.cluster, s'.stored[own].status, Target(s, own).value.status);
      }
    }
  }

  lemma QuietStepKeepsFillable(s: State, a: Action)
    requires AllFillable(s) && IsQuiet(a) && Enabled(s, a)
    ensures AllFillable(Next(s, a))
  {
    hide Fillable, Filling, Advanced, ListAnswer, EventKeys;
    match a
    case Advance(key, items) => AdvanceKeepsFillable(s, key, items);
    case Deliver(e) =>
      forall key ensures Fillable(Next(s, a), key) || Filling(Next(s, a), key) {
        FillableFrames(s, Next(s, a), key);
      }
    case Dequeue(own) =>
      forall key ensures Fillable(Next(s, a), key) || Filling(Next(s, a), key) {
        FillableFrames(s, Next(s, a), key);
        if key == own {
          NotFilling(s, own);
        }
      }
  }

  lemma NotFilling(s: State, key: NamespacedName)
    requires key !in s.inflight
    ensures !Filling(s, key)
  {
  }

  /* ---------- The measure ---------- */

  /** Keys whose object is stored and should not be, or should be and is not. */
  ghost predicate Misplaced(s: State, key: NamespacedName) {
    Target(s, key).Some? != (key in s.stored)
  }

  /** Keys that can be misplaced: those stored, and those a Secret or a reference gives a target. */
  ghost function Relevant(s: State): set<NamespacedName> {
    s.stored.Keys + s.cluster.secrets
    + set id, key | id in s.cluster.objects && key in ObjectKeys(s.config, s.cluster.objects[id]) :: key
  }

  ghost function MisplacedKeys(s: State): set<NamespacedName> {
    set key | key in Relevant(s) && Misplaced(s, key)
  }

  ghost predicate Stale(s: State, key: NamespacedName) {
    key in s.inflight && !Fresh(s, key, s.inflight[key])
  }

  predicate MayStillPlace(phase: Phase) {
    phase.Reading? || phase.Dropping? || phase.Deleting? || phase.Fetching? || phase.Creating?
  }

  /** Reconciles that may yet create or delete an object because of something no longer true. */
  ghost function LooseKeys(s: State): set<NamespacedName> {
    set key | key in s.inflight && Stale(s, key) && MayStillPlace(s.inflight[key])
  }

  ghost function StaleKeys(s: State): set<NamespacedName> {
    set key | key in s.inflight && Stale(s, key)
  }

  /** A bound on the calls a reconcile still makes. */
  function CallsLeft(config: Config, phase: Phase): nat {
    match phase
    case Reading(present, lists) =>
      5 + (if |lists| <= |Sources(config)| then |Sources(config)| - |lists| else 0) + (if present.None? then 1 else 0)
    case Dropping => 2
    case Deleting => 1
    case Fetching(_) => 4
    case Creating(_) => 2
    case FillingStatus(_, _) => 1
    case PatchingLabels(_, _) => 3
    case PatchingStatus(_, _) => 1
  }

  ghost function Work(config: Config, inflight: map<NamespacedName, Phase>): nat
    decreases |inflight|
  {
    if inflight == map[] then 0
    else
      var key :| key in inflight;
      CallsLeft(config, inflight[key]) + Work(config, inflight - {key})
  }

  lemma {:induction false} WorkSplits(config: Config, inflight: map<NamespacedName, Phase>, key: NamespacedName)
    requires key in inflight
    ensures Work(config, inflight) == CallsLeft(config, inflight[key]) + Work(config, inflight - {key})
    decreases |inflight|
  {
    hide CallsLeft;
    var picked :| picked in inflight &&
        Work(config, inflight) == CallsLeft(config, inflight[picked]) + Work(config, inflight - {picked});
    if picked != key {
      WorkSplits(config, inflight - {picked}, key);
      WorkSplits(config, inflight - {key}, picked);
      assert inflight - {picked} - {key} == inflight - {key} - {picked};
    }
  }

  /** Placement still to be done, events to deliver, reconciles to start or to redo, calls to make. */
  ghost function Placing(s: State): nat {
    |MisplacedKeys(s)| + 2 * |LooseKeys(s)|
  }

  ghost function Starting(s: State): nat {
    |s.dirty| + |StaleKeys(s)|
  }

  ghost predicate Smaller(s': State, s: State) {
    || Placing(s') < Placing(s)
    || (Placing(s') == Placing(s) && |s'.pending| < |s.pending|)
    || (Placing(s') == Placing(s) && |s'.pending| == |s.pending| && Starting(s') < Starting(s))
    || (Placing(s') == Placing(s) && |s'.pending| == |s.pending| && Starting(s') == Starting(s)
        && Work(s'.config, s'.inflight) < Work(s.config, s.inflight))
  }

  /* ---------- What one step can change ---------- */

  lemma SubsetIsNoLarger<T>(a: set<T>, b: set<T>)
    requires a <= b
    ensures |a| <= |b|
  {
    assert b == a + (b - a);
  }

  lemma OneMoreAtMost<T>(a: set<T>, b: set<T>, x: T)
    requires a <= b + {x}
    ensures |a| <= |b| + 1
  {
    SubsetIsNoLarger(a, b + {x});
  }

  lemma OneLess<T>(a: set<T>, b: set<T>, x: T)
    requires a <= b - {x} && x in b
    ensures |a| < |b|
  {
    SubsetIsNoLarger(a, b - {x});
    assert |b - {x}| == |b| - 1;
  }

  /** Only relevant keys can be misplaced. */
  lemma MisplacedIsRelevant(s: State, key: NamespacedName)
    requires Misplaced(s, key)
    ensures key in Relevant(s)
  {
    hide Contribution, ObjectKeys, Canonical;
    if key !in s.stored && key !in s.cluster.secrets {
      CanonicalFacts(FullScan(s.config, s.cluster, key));
      assert |AllUsages(s, key)| > 0;
      assert FullScan(s.config, s.cluster, key) != {};
      var u :| u in FullScan(s.config, s.cluster, key);
      var id :| id in s.cluster.objects && u in Contribution(s.config, s.cluster.objects[id], key);
      EnqueuedWhereItContributes(s.config, s.cluster.objects[id], key);
    }
  }

  lemma MisplacedKeysAre(s: State, key: NamespacedName)
    ensures key in MisplacedKeys(s) <==> Misplaced(s, key)
  {
    hide Relevant, Misplaced;
    if Misplaced(s, key) {
      MisplacedIsRelevant(s, key);
    }
  }

  /** Away from `own`, a step that touches only `own` leaves every part of the measure as it was. */
  lemma OthersKeepTheirPart(s: State, s': State, own: NamespacedName, key: NamespacedName)
    requires TouchesOnly(s, s', own) && key != own
    ensures key in MisplacedKeys(s') <==> key in MisplacedKeys(s)
    ensures key in LooseKeys(s') <==> key in LooseKeys(s)
    ensures key in StaleKeys(s') <==> key in StaleKeys(s)
  {
    hide MisplacedKeys, Fresh, Answers, FullScan, Desired, SeriesAt, Canonical, MayStillPlace;
    MisplacedKeysAre(s, key);
    MisplacedKeysAre(s', key);
    assert SameAt(s, s', key);
    assert Target(s', key) == Target(s, key);
    assert key in s'.stored <==> key in s.stored by {
      assert Lookup(s'.stored, key) == Lookup(s.stored, key);
    }
    assert key in s'.inflight <==> key in s.inflight by {
      assert Lookup(s'.inflight, key) == Lookup(s.inflight, key);
    }
    if key in s.inflight {
      assert s'.inflight[key] == s.inflight[key];
      FrameFresh(s, s', key, s.inflight[key]);
    }
  }

  /** How a step of `own` moves the counted sets, from what happens to `own` alone. */
  lemma PlacingMoves(s: State, s': State, own: NamespacedName)
    requires TouchesOnly(s, s', own)
    requires own in LooseKeys(s') ==> own in LooseKeys(s)
    ensures own !in MisplacedKeys(s') || own in MisplacedKeys(s) ==> Placing(s') <= Placing(s)
    ensures own !in MisplacedKeys(s') && own in MisplacedKeys(s) ==> Placing(s') < Placing(s)
    ensures own !in LooseKeys(s') && own in LooseKeys(s) ==> Placing(s') < Placing(s)
  {
    hide TouchesOnly, MisplacedKeys, LooseKeys;
    forall key | key != own
      ensures key in MisplacedKeys(s') <==> key in MisplacedKeys(s)
      ensures key in LooseKeys(s') <==> key in LooseKeys(s)
    {
      OthersKeepTheirPart(s, s', own, key);
    }
    OneMoreAtMost(MisplacedKeys(s'), MisplacedKeys(s), own);
    SubsetIsNoLarger(LooseKeys(s'), LooseKeys(s));
    if own !in MisplacedKeys(s') || own in MisplacedKeys(s) {
      SubsetIsNoLarger(MisplacedKeys(s'), MisplacedKeys(s));
    }
    if own !in MisplacedKeys(s') && own in MisplacedKeys(s) {
      OneLess(MisplacedKeys(s'), MisplacedKeys(s), own);
    }
    if own !in LooseKeys(s') && own in LooseKeys(s) {
      OneLess(LooseKeys(s'), LooseKeys(s), own);
    }
  }

  lemma StartingMoves(s: State, s': State, own: NamespacedName)
    requires TouchesOnly(s, s', own)
    requires own in StaleKeys(s') ==> own in StaleKeys(s)
    requires s'.dirty == s.dirty || (own in StaleKeys(s) && own !in StaleKeys(s'))
    ensures Starting(s') <= Starting(s)
  {
    hide StaleKeys;
    forall key | key != own ensures key in StaleKeys(s') <==> key in StaleKeys(s) {
      OthersKeepTheirPart(s, s', own, key);
    }
    SubsetIsNoLarger(StaleKeys(s'), StaleKeys(s));
    OneMoreAtMost(s'.dirty, s.dirty, own);
    if own in StaleKeys(s) && own !in StaleKeys(s') {
      OneLess(StaleKeys(s'), StaleKeys(s), own);
    }
  }

  /** A call made is a call fewer. */
  lemma WorkShrinks(s: State, s': State, own: NamespacedName)
    requires TouchesOnly(s, s', own) && own in s.inflight
    requires own in s'.inflight ==> CallsLeft(s.config, s'.inflight[own]) < CallsLeft(s.config, s.inflight[own])
    requires CallsLeft(s.config, s.inflight[own]) > 0
    ensures Work(s'.config, s'.inflight) < Work(s.config, s.inflight)
  {
    hide CallsLeft, SeriesAt;
    WorkSplits(s.config, s.inflight, own);
    forall key | key != own ensures Lookup(s'.inflight, key) == Lookup(s.inflight, key) {
      assert SameAt(s, s', key);
    }
    forall key ensures Lookup(s'.inflight - {own}, key) == Lookup(s.inflight - {own}, key) {
      if key != own {
        assert Lookup(s'.inflight, key) == Lookup(s.inflight, key);
      }
    }
    SameLookups(s'.inflight - {own}, s.inflight - {own});
    if own in s'.inflight {
      WorkSplits(s.config, s'.inflight, own);
    } else {
      assert s'.inflight - {own} == s'.inflight;
    }
  }

  lemma CallsShrink(s: State, own: NamespacedName, items: seq<Usage>)
    requires own in s.inflight && WellFormedPhase(s.config, s.inflight[own])
    ensures var s' := Advanced(s, own, items);
            && CallsLeft(s.config, s.inflight[own]) > 0
            && (own in s'.inflight ==> CallsLeft(s.config, s'.inflight[own]) < CallsLeft(s.config, s.inflight[own]))
  {
    hide Decode, DecodeLabels, SortedUsages, Flatten, Sources, Desired, DiffLabels, PatchedLabels, PatchedStatus,
         PatchFrom, Encode, EncodeLabels,
         RecordSecretMetrics, ClearSecretMetrics;
  }

  /* ---------- What one call does to its own key ---------- */

  /**
   The effect of a call on its own key. The object appears or disappears only when that
   puts it where it belongs, or when a reconcile acting on something no longer true has
   used up its one chance to do so. Only such a reconcile is ever refused and queued again.
   */
  ghost predicate OwnEffect(s: State, s': State, own: NamespacedName) {
    && (own in StaleKeys(s') ==> own in StaleKeys(s))
    && (s'.dirty == s.dirty || (own in StaleKeys(s) && own !in StaleKeys(s')))
    && (own in LooseKeys(s') ==> own in LooseKeys(s))
    && ((s'.pending == s.pending && (own in s'.stored <==> own in s.stored))
        || (own in LooseKeys(s) && own !in LooseKeys(s'))
        || (own in MisplacedKeys(s) && own !in MisplacedKeys(s')))
  }

  /** A call changes whether an object is stored only as the Delete or the Create of its own key. */
  lemma PlacementChangesOnlyByPlacing(s: State, own: NamespacedName, items: seq<Usage>)
    requires own in s.inflight
    ensures var s' := Advanced(s, own, items); var phase := s.inflight[own];
            || (s'.pending == s.pending && (own in s'.stored <==> own in s.stored))
            || (phase.Deleting? && own in s.stored && own !in s'.stored && own !in s'.inflight)
            || (phase.Creating? && own !in s.stored && own in s'.stored && own in s'.inflight &&
                s'.inflight[own].FillingStatus?)
  {
    hide Decode, DecodeLabels, SortedUsages, Flatten, Sources, Desired, DiffLabels, PatchedLabels, PatchedStatus,
         PatchFrom, Encode, EncodeLabels,
         RecordSecretMetrics, ClearSecretMetrics;
  }

  /** A call either leaves the queue as it was, or was refused and ends its reconcile. */
  lemma RefusedOrKeepsQueue(s: State, own: NamespacedName, items: seq<Usage>)
    requires own in s.inflight
    ensures var s' := Advanced(s, own, items); s'.dirty == s.dirty || (own !in s'.inflight && !Accepts(s, own))
    ensures var s' := Advanced(s, own, items);
            own in s'.inflight && MayStillPlace(s'.inflight[own]) ==> MayStillPlace(s.inflight[own])
  {
    hide Decode, DecodeLabels, SortedUsages, Flatten, Sources, Desired, DiffLabels, PatchedLabels, PatchedStatus,
         PatchFrom, Encode, EncodeLabels,
         RecordSecretMetrics, ClearSecretMetrics;
  }

  lemma FreshIsAccepted(s: State, own: NamespacedName)
    requires own in s.inflight && Fresh(s, own, s.inflight[own]) && (Fillable(s, own) || Filling(s, own))
    ensures Accepts(s, own)
  {
    hide EncodeLabels, Target, TargetSeries, SeriesAt, Answers, SchemaAdmits, PatchFrom;
    if s.inflight[own].PatchingLabels? || s.inflight[own].PatchingStatus? {
      assert Lookup(s.stored, own).Some?;
    }
  }

  lemma FreshEffect(s: State, own: NamespacedName, items: seq<Usage>)
    requires Inv(s) && own in s.inflight && ListAnswer(s, own, items)
    requires Fresh(s, own, s.inflight[own]) && (Fillable(s, own) || Filling(s, own))
    ensures OwnEffect(s, Advanced(s, own, items), own)
  {
    hide Advanced, Accepts, Fillable, Filling, Target, KeyInv, ValidConfig, WellFormedPhase, MayStillPlace, SeriesAt,
         EncodeLabels, Converged, Relevant, MisplacedKeys, Answers;
    var s' := Advanced(s, own, items);
    FreshIsAccepted(s, own);
    FreshGoesOn(s, own, items);
    RefusedOrKeepsQueue(s, own, items);
    AdvanceKeepsTarget(s, own, items);
    PlacementChangesOnlyByPlacing(s, own, items);
    assert own !in StaleKeys(s') by {
      if own in s'.inflight {
        assert Lookup(s'.inflight, own) == Some(s'.inflight[own]);
      }
    }
    MisplacedKeysAre(s, own);
    MisplacedKeysAre(s', own);
  }

  lemma StaleEffect(s: State, own: NamespacedName, items: seq<Usage>)
    requires own in s.inflight && !Fresh(s, own, s.inflight[own])
    ensures OwnEffect(s, Advanced(s, own, items), own)
  {
    hide Advanced, Accepts, Fresh, MisplacedKeys;
    RefusedOrKeepsQueue(s, own, items);
    PlacementChangesOnlyByPlacing(s, own, items);
  }

  /* ---------- Every quiet step ---------- */

  lemma AdvanceShrinks(s: State, own: NamespacedName, items: seq<Usage>)
    requires Inv(s) && own in s.inflight && ListAnswer(s, own, items) && (Fillable(s, own) || Filling(s, own))
    ensures Smaller(Advanced(s, own, items), s)
  {
    hide Advanced, Fillable, Filling, Fresh, ListAnswer, CallsLeft, Work, StaleKeys, LooseKeys, MisplacedKeys, KeyInv,
         ValidConfig, SameAt, Placing, Starting;
    var s' := Advanced(s, own, items);
    if Fresh(s, own, s.inflight[own]) {
      FreshEffect(s, own, items);
    } else {
      StaleEffect(s, own, items);
    }
    AdvanceTouchesOnly(s, own, items);
    PlacingMoves(s, s', own);
    if s'.pending == s.pending && (own in s'.stored <==> own in s.stored) {
      StillMisplaced(s, s', own);
      StartingMoves(s, s', own);
      CallsShrink(s, own, items);
      WorkShrinks(s, s', own);
    }
  }

  lemma StillMisplaced(s: State, s': State, own: NamespacedName)
    requires s'.config == s.config && s'.cluster == s.cluster
    requires own in s'.stored <==> own in s.stored
    ensures own in MisplacedKeys(s') <==> own in MisplacedKeys(s)
  {
    hide MisplacedKeys, FullScan, Canonical, Desired;
    MisplacedKeysAre(s, own);
    MisplacedKeysAre(s', own);
    assert Target(s', own) == Target(s, own);
  }

  lemma DeliverShrinks(s: State, e: Event)
    requires e in s.pending
    ensures Smaller(Next(s, Deliver(e)), s)
  {
    hide Answers, FullScan, Canonical, Desired, SeriesAt, EventKeys, MayStillPlace, Relevant, Work;
    var s' := Next(s, Deliver(e));
    forall key ensures key in MisplacedKeys(s') <==> key in MisplacedKeys(s)
               ensures key in LooseKeys(s') <==> key in LooseKeys(s)
    {
      StillMisplaced(s, s', key);
      if key in s.inflight {
        FrameFresh(s, s', key, s.inflight[key]);
      }
    }
    hide MisplacedKeys, LooseKeys;
    assert MisplacedKeys(s') == MisplacedKeys(s);
    assert LooseKeys(s') == LooseKeys(s);
    assert |s'.pending| == |s.pending| - 1;
  }

  lemma DequeueShrinks(s: State, own: NamespacedName)
    requires own in s.dirty && own !in s.inflight
    ensures Smaller(Next(s, Dequeue(own)), s)
  {
    hide Answers, FullScan, Canonical, Desired, SeriesAt, MayStillPlace, Relevant, Work, Fresh;
    var s' := Next(s, Dequeue(own));
    NothingReadIsFresh(s', own);
    forall key ensures key in MisplacedKeys(s') <==> key in MisplacedKeys(s)
               ensures key in LooseKeys(s') <==> key in LooseKeys(s)
               ensures key in StaleKeys(s') <==> key in StaleKeys(s)
    {
      StillMisplaced(s, s', key);
      if key in s.inflight {
        FrameFresh(s, s', key, s.inflight[key]);
      }
    }
    hide MisplacedKeys, LooseKeys, StaleKeys;
    assert MisplacedKeys(s') == MisplacedKeys(s);
    assert LooseKeys(s') == LooseKeys(s);
    assert StaleKeys(s') == StaleKeys(s);
    OneLess(s'.dirty, s.dirty, own);
  }

  ghost predicate QuietStep(s: State, a: Action, s': State) {
    IsQuiet(a) && Enabled(s, a) && s' == Next(s, a)
  }

  /** Every controller step makes the measure smaller, creating and deleting objects included. */
  lemma QuietStepShrinks(s: State, a: Action)
    requires Inv(s) && AllFillable(s) && IsQuiet(a) && Enabled(s, a)
    ensures Smaller(Next(s, a), s)
  {
    hide Smaller, Inv, Advanced, ListAnswer, EventKeys, Fillable, Filling;
    match a
    case Deliver(e) => DeliverShrinks(s, e);
    case Dequeue(key) => DequeueShrinks(s, key);
    case Advance(key, items) => AdvanceShrinks(s, key, items);
  }

  /** Some answer is always a true answer of the list call that comes next. */
  lemma SomeAnswer(s: State, key: NamespacedName) returns (items: seq<Usage>)
    requires key in s.inflight
    ensures ListAnswer(s, key, items)
  {
    hide SourceUsages, Sources;
    items := [];
    if s.inflight[key].Reading? {
      var n := |s.inflight[key].lists|;
      if n < |Sources(s.config)| {
        items := AnyEnumeration(SourceUsages(s.config, s.cluster, Sources(s.config)[n], key));
      }
    }
  }

  /** While anything is pending, some controller step is possible. */
  lemma SomethingToDo(s: State) returns (a: Action)
    requires !Quiescent(s)
    ensures IsQuiet(a) && Enabled(s, a)
  {
    hide ListAnswer;
    if s.pending != multiset{} {
      var e :| e in s.pending;
      a := Deliver(e);
    } else if s.inflight != map[] {
      var key :| key in s.inflight;
      var items := SomeAnswer(s, key);
      a := Advance(key, items);
    } else {
      var key :| key in s.dirty;
      a := Dequeue(key);
    }
  }

  /* ---------- Coming to rest ---------- */

  /** No run of controller steps goes on for ever: nothing the controller writes keeps it busy. */
  lemma NoEndlessQuietRun(states: nat -> State, actions: nat -> Action)
    requires Inv(states(0)) && AllFillable(states(0))
    ensures exists n: nat :: !QuietStep(states(n), actions(n), states(n + 1))
  {
    hide Inv, AllFillable, QuietStep;
    if forall n: nat :: QuietStep(states(n), actions(n), states(n + 1)) {
      QuietRunEnds(states, actions, 0);
    }
  }

  lemma {:induction false} QuietRunEnds(states: nat -> State, actions: nat -> Action, n: nat)
    requires Inv(states(n)) && AllFillable(states(n))
    requires forall k: nat :: QuietStep(states(k), actions(k), states(k + 1))
    ensures false
    decreases Placing(states(n)), |states(n).pending|, Starting(states(n)), Work(states(n).config, states(n).inflight)
  {
    hide Inv, AllFillable, Enabled, Next, Placing, Starting, Work;
    assert QuietStep(states(n), actions(n), states(n + 1));
    StepKeepsInv(states(n), actions(n));
    QuietStepKeepsFillable(states(n), actions(n));
    QuietStepShrinks(states(n), actions(n));
    QuietRunEnds(states, actions, n + 1);
  }

  ghost predicate AllQuiet(run: seq<Action>) {
    forall a :: a in run ==> IsQuiet(a)
  }

  /** Left alone, the controller comes to rest, and then every key is right. */
  lemma {:induction false} ComesToRest(s: State) returns (run: seq<Action>)
    requires Inv(s) && AllFillable(s)
    ensures IsRun(s, run) && AllQuiet(run) && Quiescent(After(s, run))
    ensures forall key :: Converged(After(s, run), key)
    decreases Placing(s), |s.pending|, Starting(s), Work(s.config, s.inflight)
  {
    hide Inv, AllFillable, Enabled, Next, Placing, Starting, Work, Converged, Quiescent;
    if Quiescent(s) {
      run := [];
      RestIsConverged(s);
    } else {
      var a := SomethingToDo(s);
      StepKeepsInv(s, a);
      QuietStepKeepsFillable(s, a);
      QuietStepShrinks(s, a);
      var rest := ComesToRest(Next(s, a));
      run := [a] + rest;
      assert run[1..] == rest;
    }
  }

  lemma RestIsConverged(s: State)
    requires Inv(s) && Quiescent(s)
    ensures forall key :: Converged(s, key)
  {
    hide Converged, Fresh, EventKeys, ValidConfig;
    forall key ensures Converged(s, key) {
      assert KeyInv(s, key);
    }
  }

  /** A quiet run that can go no further has come to rest with every key right. */
  lemma StuckMeansConverged(s: State, run: seq<Action>)
    requires Inv(s) && IsRun(s, run)
    requires forall a :: IsQuiet(a) ==> !Enabled(After(s, run), a)
    ensures Quiescent(After(s, run)) && forall key :: Converged(After(s, run), key)
  {
    hide Inv, Converged, Quiescent, IsRun, After, Enabled;
    RunKeepsInv(s, run);
    if !Quiescent(After(s, run)) {
      var a := SomethingToDo(After(s, run));
    }
    RestIsConverged(After(s, run));
  }
}
