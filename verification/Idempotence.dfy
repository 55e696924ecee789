/**
 One reconcile from start to end with no call failing: it settles its key from any store
 and touches no other key, and doing it again changes nothing. The requests a second
 reconcile still sends are given exactly: an empty patch, in two cases and no others.
 */
module Idempotence {
  import opened Wrappers
  import opened Collections
  import opened Usages
  import opened Collection
  import opened Documents
  import opened Protocol
  import opened Convergence
  import opened Termination
  import opened Recovery

  /* ---------- A reconcile on its own ---------- */

  predicate IsCallOf(key: NamespacedName, a: Action) {
    a.Advance? && a.key == key
  }

  /** The calls of one reconcile of `key`, one after the other, each answered without a fault. */
  ghost predicate Calls(s: State, key: NamespacedName, run: seq<Action>) {
    IsRun(s, run) && forall a :: a in run ==> IsCallOf(key, a)
  }

  /** A whole reconcile, from its start to its end. */
  ghost predicate WholeReconcile(s: State, key: NamespacedName, run: seq<Action>) {
    && key !in s.inflight
    && Calls(Begun(s, key), key, run)
    && key !in After(Begun(s, key), run).inflight
  }

  function Begun(s: State, key: NamespacedName): State {
    SetPhase(s, key, Reading(None, []))
  }

  ghost function Reconciled(s: State, key: NamespacedName, run: seq<Action>): State
    requires WholeReconcile(s, key, run)
  {
    After(Begun(s, key), run)
  }

  /**
   From any store, a reconcile no call of which fails leaves its key settled and the queue
   as it was, exactly when the stored status can be filled in; otherwise the server has
   refused its status patch, and the key is queued again. No other key is touched.
   */
  lemma OneReconcileSettles(s: State, key: NamespacedName, run: seq<Action>)
    requires Sane(s) && WholeReconcile(s, key, run)
    ensures var s' := Reconciled(s, key, run);
            && Sane(s') && TouchesOnly(s, s', key)
            && if Fillable(s, key) then Converged(s', key) && Fillable(s', key) && s'.dirty == s.dirty
               else key in s'.stored && s'.stored[key].status == s.stored[key].status && key in s'.dirty
  {
    hide Converged, ValidConfig, WellFormedPhase, SameAt, Fresh, Fillable, Filling, Target, Marked;
    BookkeepingTouchesOnly(s, key, Reading(None, []));
    var s0 := Begun(s, key);
    BegunIsSane(s, key);
    FillableFrames(s, s0, key);
    CallsTouchOnly(s0, key, run);
    TouchesOnlyTransitive(s, s0, After(s0, run), key);
    if Fillable(s, key) {
      CallsSettle(s0, key, run);
      NotFilling(After(s0, run), key);
    } else {
      UnfillableIsStored(s, key);
      CallsAreRefused(s0, key, run, s.stored[key].status);
    }
  }

  lemma UnfillableIsStored(s: State, key: NamespacedName)
    requires !Fillable(s, key)
    ensures key in s.stored
  {
  }

  lemma BegunIsSane(s: State, key: NamespacedName)
    requires Sane(s)
    ensures Sane(Begun(s, key)) && Fresh(Begun(s, key), key, Reading(None, []))
  {
    hide ValidConfig, Sources;
    NothingReadIsFresh(Begun(s, key), key);
  }

  lemma {:induction false} CallsTouchOnly(s: State, key: NamespacedName, run: seq<Action>)
    requires Sane(s) && Calls(s, key, run)
    ensures Sane(After(s, run)) && TouchesOnly(s, After(s, run), key)
    decreases |run|
  {
    hide SameAt, Advanced, ListAnswer, Sane;
    if run == [] {
      EveryKeySameAt(s, key);
    } else {
      var a := run[0];
      assert IsCallOf(key, a) && Enabled(s, a);
      AdvanceKeepsSane(s, key, a.items);
      AdvanceTouchesOnly(s, key, a.items);
      CallsTouchOnly(Next(s, a), key, run[1..]);
      TouchesOnlyTransitive(s, Next(s, a), After(s, run), key);
    }
  }

  lemma {:induction false} CallsSettle(s: State, key: NamespacedName, run: seq<Action>)
    requires Sane(s) && Calls(s, key, run)
    requires Answered(s, key, Lookup(s.inflight, key)) && (Fillable(s, key) || Filling(s, key))
    ensures var s' := After(s, run);
            Answered(s', key, Lookup(s'.inflight, key)) && (Fillable(s', key) || Filling(s', key)) &&
                s'.dirty == s.dirty
    decreases |run|
  {
    hide Converged, Fillable, Filling, Fresh, Advanced, ListAnswer, Accepts, Sane;
    if run != [] {
      var a := run[0];
      assert IsCallOf(key, a) && Enabled(s, a);
      assert Lookup(s.inflight, key) == Some(s.inflight[key]);
      FreshIsAccepted(s, key);
      AdvanceKeepsSane(s, key, a.items);
      FreshGoesOn(s, key, a.items);
      OwnStaysFillable(s, key, a.items);
      RefusedOrKeepsQueue(s, key, a.items);
      CallsSettle(Next(s, a), key, run[1..]);
    }
  }

  lemma {:induction false} CallsAreRefused(s: State, key: NamespacedName, run: seq<Action>, d: StatusDoc)
    requires Sane(s) && Calls(s, key, run)
    requires key in s.inflight && Refused(s, key, d) && key !in After(s, run).inflight
    ensures var s' := After(s, run); key in s'.dirty && key in s'.stored && s'.stored[key].status == d
    decreases |run|
  {
    hide Fillable, Fresh, Marked, Advanced, ListAnswer, Accepts, Sane;
    var a := run[0];
    assert IsCallOf(key, a) && Enabled(s, a);
    var s' := Next(s, a);
    AdvanceKeepsSane(s, key, a.items);
    RefusedCall(s, key, a.items, d);
    RefusedGoesOn(s, key, a.items, d);
    if key in s'.inflight {
      CallsAreRefused(s', key, run[1..], d);
    } else {
      RefusalQueues(s, key, a.items);
      if run[1..] != [] {
        CallsNeedAReconcile(s', key, run[1..]);
      }
    }
  }

  lemma RefusalQueues(s: State, key: NamespacedName, items: seq<Usage>)
    requires key in s.inflight && !Accepts(s, key)
    ensures key in Advanced(s, key, items).dirty
  {
    hide PatchFrom, PatchedStatus, SchemaAdmits;
  }

  lemma CallsNeedAReconcile(s: State, key: NamespacedName, run: seq<Action>)
    requires Calls(s, key, run) && run != []
    ensures key in s.inflight
  {
    hide ListAnswer;
    assert IsCallOf(key, run[0]) && Enabled(s, run[0]);
  }

  lemma EveryKeySameAt(s: State, own: NamespacedName)
    ensures TouchesOnly(s, s, own)
  {
    hide SeriesAt;
  }

  /** A reconcile that no call of which fails does end. */
  lemma {:induction false} CallsCanEnd(s: State, key: NamespacedName) returns (run: seq<Action>)
    requires Sane(s)
    ensures Calls(s, key, run) && key !in After(s, run).inflight
    decreases if key in s.inflight then CallsLeft(s.config, s.inflight[key]) else 0
  {
    hide ValidConfig, Advanced, ListAnswer, CallsLeft;
    if key !in s.inflight {
      run := [];
    } else {
      var items := SomeAnswer(s, key);
      AdvanceKeepsSane(s, key, items);
      AdvanceKeepsRest(s, key, items);
      CallsShrink(s, key, items);
      var rest := CallsCanEnd(Advanced(s, key, items), key);
      run := [Advance(key, items)] + rest;
      assert run[1..] == rest;
    }
  }

  /* ---------- Requests ---------- */

  /** What a reconcile sends to the API server, reads aside. */
  datatype Request =
    | SendDelete
    | SendCreate
    | SendStatusUpdate
    | SendLabelPatch(labels: LabelPatch)
    | SendStatusPatch(status: StatusPatch)

  function RequestOf(phase: Phase): seq<Request> {
    match phase
    case Deleting => [SendDelete]
    case Creating(_) => [SendCreate]
    case FillingStatus(_, _) => [SendStatusUpdate]
    case PatchingLabels(current, want) => [SendLabelPatch(DiffLabels(current.labels, EncodeLabels(want.labels)))]
    case PatchingStatus(current, want) => [SendStatusPatch(PatchFrom(current.status, want.status))]
    case _ => []
  }

  /** Whatever changes a stored object is a request, and of the kind that makes the change. */
  lemma ChangesAreRequests(s: State, key: NamespacedName)
    requires key in s.inflight
    ensures var s' := ServerStep(s, key); var requests := RequestOf(s.inflight[key]);
            && (s'.stored != s.stored ==> |requests| == 1)
            && (key in s.stored && key !in s'.stored ==> requests == [SendDelete])
            && (key !in s.stored && key in s'.stored ==> requests == [SendCreate])
            && (key in s.stored && key in s'.stored && s'.stored[key].labels != s.stored[key].labels ==>
                requests[0].SendLabelPatch?)
            && (key in s.stored && key in s'.stored && s'.stored[key].status != s.stored[key].status ==>
                  requests[0].SendStatusUpdate? || requests[0].SendStatusPatch?)
  {
    hide DiffLabels, PatchedLabels, PatchFrom, PatchedStatus, SchemaAdmits, EncodeLabels, Encode;
  }

  ghost function Requests(s: State, key: NamespacedName, run: seq<Action>): seq<Request>
    requires Calls(s, key, run)
    decreases |run|
  {
    if run == [] then []
    else
      assert IsCallOf(key, run[0]) && Enabled(s, run[0]);
      RequestOf(s.inflight[key]) + Requests(Next(s, run[0]), key, run[1..])
  }

  /* ---------- A reconcile of a settled key ---------- */

  function EmptyPatches(want: SecretUsage): seq<Request> {
    (if EncodeLabels(want.labels) == map[] then [SendLabelPatch(EMPTY_LABEL_PATCH)] else []) + EmptyStatusPatches(want)
  }

  function EmptyStatusPatches(want: SecretUsage): seq<Request> {
    if EncodeUsages(want) == [] then [SendStatusPatch(EMPTY_STATUS_PATCH)] else []
  }

  function EncodeUsages(want: SecretUsage): seq<Usage> {
    match want.status.usages case NilSlice => [] case SliceOf(items) => items
  }

  /** The requests a reconcile of a settled key still has to send, by how far it has got. */
  ghost function StillToSend(s: State, key: NamespacedName): seq<Request> {
    if key !in s.inflight then []
    else match s.inflight[key]
      case Reading(_, _) => (match Target(s, key) case None => [] case Some(want) => EmptyPatches(want))
      case Fetching(want) => EmptyPatches(want)
      case PatchingLabels(_, want) => [SendLabelPatch(EMPTY_LABEL_PATCH)] + EmptyStatusPatches(want)
      case PatchingStatus(_, _) => [SendStatusPatch(EMPTY_STATUS_PATCH)]
      case _ => []
  }

  predicate NeverPlaces(phase: Option<Phase>) {
    phase.Some? ==> !phase.value.Deleting? && !phase.value.Creating? && !phase.value.FillingStatus?
  }

  /** The state with the progress of `key` left out. */
  function Apart(s: State, key: NamespacedName): State {
    s.(inflight := s.inflight - {key})
  }

  /** A call made for a settled key: nothing changes but the progress, and the requests go as foretold. */
  ghost predicate IdleCall(s: State, s': State, key: NamespacedName)
    requires key in s.inflight
  {
    && Apart(s', key) == Apart(s, key)
    && NeverPlaces(Lookup(s'.inflight, key))
    && StillToSend(s, key) == RequestOf(s.inflight[key]) + StillToSend(s', key)
  }

  predicate ReadsMore(config: Config, phase: Phase)
    requires phase.Reading?
  {
    phase.present.None? || |phase.lists| < |Sources(config)|
  }

  lemma IdleRead(s: State, key: NamespacedName, items: seq<Usage>)
    requires key in s.inflight && s.inflight[key].Reading? && ReadsMore(s.config, s.inflight[key])
    ensures IdleCall(s, Advanced(s, key, items), key)
  {
    hide Target, Sources, SortedUsages, Flatten, EmptyPatches, IdleCall, SetPhase, Decide;
    var s' := Advanced(s, key, items);
    var phase := if s.inflight[key].present.None? then Reading(Some(key in s.cluster.secrets), [])
                 else Reading(s.inflight[key].present, s.inflight[key].lists + [items]);
    assert s' == SetPhase(s, key, phase);
    ReadingOn(s, key, phase);
  }

  lemma ReadingOn(s: State, key: NamespacedName, phase: Phase)
    requires key in s.inflight && s.inflight[key].Reading? && phase.Reading?
    ensures IdleCall(s, SetPhase(s, key, phase), key)
  {
    hide FullScan, Canonical, Desired, EmptyPatches;
    var s' := SetPhase(s, key, phase);
    assert Target(s', key) == Target(s, key);
    assert Apart(s', key) == Apart(s, key);
  }

  lemma IdleLastRead(s: State, key: NamespacedName, items: seq<Usage>)
    requires Sane(s) && Converged(s, key)
    requires key in s.inflight && s.inflight[key].Reading? && !ReadsMore(s.config, s.inflight[key])
    requires Fresh(s, key, s.inflight[key])
    ensures IdleCall(s, Advanced(s, key, items), key)
  {
    hide Target, AllUsages, Sources, ValidConfig, EmptyPatches, Converged, Answers;
    AnswersLength(s.config, s.cluster, key);
    FreshReadsDecideTheTarget(s, key, s.inflight[key].lists);
    IdleDecision(s, key);
    assert s.inflight[key] == Reading(Some(key in s.cluster.secrets), s.inflight[key].lists);
    var s' := Advanced(s, key, items);
    assert s' == Decide(s, key, key in s.cluster.secrets, AllUsages(s, key));
    hide Decide, Advanced, Fresh;
    assert Lookup(s'.inflight, key) == Some(s'.inflight[key]);
  }

  lemma IdleDecision(s: State, key: NamespacedName)
    requires Converged(s, key)
    ensures var s' := Decide(s, key, key in s.cluster.secrets, AllUsages(s, key));
            && Apart(s', key) == Apart(s, key)
            && Lookup(s'.inflight, key) ==
                (match Target(s, key) case None => Some(Dropping) case Some(want) => Some(Fetching(want)))
  {
    hide AllUsages, Desired, Holds;
    var s' := Decide(s, key, key in s.cluster.secrets, AllUsages(s, key));
    if Target(s, key).Some? {
      if s.config.perSecretMetrics {
        SameSeriesSetAgain(s, key);
      }
    }
    assert Apart(s', key) == Apart(s, key);
  }

  lemma SameSeriesSetAgain(s: State, key: NamespacedName)
    requires s.config.perSecretMetrics && Target(s, key).Some? && SeriesAt(s.gauges, key) == TargetSeries(s, key)
    ensures RecordSecretMetrics(s.config, s.gauges, key, key in s.cluster.secrets, |AllUsages(s, key)|,
        Target(s, key).value.status.truncated)
            == s.gauges
  {
    hide Target, AllUsages;
    var g := s.gauges;
    assert key in g.references && key in g.present && key in g.truncated;
    assert g.references[key := g.references[key]] == g.references;
    assert g.present[key := g.present[key]] == g.present;
    assert g.truncated[key := g.truncated[key]] == g.truncated;
  }

  lemma IdleDrop(s: State, key: NamespacedName, items: seq<Usage>)
    requires Converged(s, key)
    requires key in s.inflight && s.inflight[key].Dropping? && Fresh(s, key, s.inflight[key])
    ensures IdleCall(s, Advanced(s, key, items), key)
  {
    hide Target;
    var g := s.gauges;
    assert key !in g.references && key !in g.present && key !in g.truncated by {
      assert Lookup(g.references, key) == None && Lookup(g.present, key) == None && Lookup(g.truncated, key) == None;
    }
    assert g.references - {key} == g.references && g.present - {key} == g.present && g.truncated - {key} == g.truncated;
    assert Apart(Advanced(s, key, items), key) == Apart(s, key);
  }

  lemma IdleFetch(s: State, key: NamespacedName, items: seq<Usage>)
    requires Converged(s, key)
    requires key in s.inflight && s.inflight[key].Fetching? && Fresh(s, key, s.inflight[key])
    ensures IdleCall(s, Advanced(s, key, items), key)
  {
    hide Target, TargetSeries, SeriesAt, Encode, Decode;
    var want := s.inflight[key].want;
    assert key in s.stored && Holds(s.stored[key], want);
    WantedLabelsAreMade(s, key);
    LabelComparison(s.stored[key].labels, want.labels);
    StatusComparison(s.stored[key].status, want.status);
    assert Apart(Advanced(s, key, items), key) == Apart(s, key);
  }

  lemma IdleLabelPatch(s: State, key: NamespacedName, items: seq<Usage>)
    requires Converged(s, key)
    requires key in s.inflight && s.inflight[key].PatchingLabels? && Fresh(s, key, s.inflight[key])
    ensures IdleCall(s, Advanced(s, key, items), key)
  {
    hide Target, TargetSeries, SeriesAt, Encode, Decode, EncodeLabels, DiffLabels, PatchedLabels;
    var want := s.inflight[key].want;
    assert key in s.stored && s.stored[key] == s.inflight[key].current && Holds(s.stored[key], want);
    WantedLabelsAreMade(s, key);
    LabelPatchArrives(s.stored[key].labels, EncodeLabels(want.labels));
    StatusComparison(s.stored[key].status, want.status);
    assert s.stored[key := s.stored[key]] == s.stored;
    assert Apart(Advanced(s, key, items), key) == Apart(s, key);
  }

  lemma IdleStatusPatch(s: State, key: NamespacedName, items: seq<Usage>)
    requires Converged(s, key)
    requires key in s.inflight && s.inflight[key].PatchingStatus? && Fresh(s, key, s.inflight[key])
    requires Accepts(s, key)
    ensures IdleCall(s, Advanced(s, key, items), key)
  {
    hide Target, TargetSeries, SeriesAt, Encode, Decode, EncodeLabels, PatchFrom;
    var want := s.inflight[key].want;
    assert key in s.stored && s.stored[key] == s.inflight[key].current && Holds(s.stored[key], want);
    StatusPatchArrives(s.stored[key].status, want.status);
    assert s.stored[key := s.stored[key]] == s.stored;
    assert Apart(Advanced(s, key, items), key) == Apart(s, key);
  }

  lemma CallIsIdle(s: State, key: NamespacedName, items: seq<Usage>)
    requires Sane(s) && Converged(s, key)
    requires key in s.inflight && NeverPlaces(Some(s.inflight[key])) && Fresh(s, key, s.inflight[key]) &&
        Accepts(s, key)
    ensures IdleCall(s, Advanced(s, key, items), key)
  {
    hide Converged, Sane, Fresh, Advanced, Accepts, IdleCall;
    match s.inflight[key]
    case Reading(_, _) =>
      if ReadsMore(s.config, s.inflight[key]) {
        IdleRead(s, key, items);
      } else {
        IdleLastRead(s, key, items);
      }
    case Dropping => IdleDrop(s, key, items);
    case Fetching(_) => IdleFetch(s, key, items);
    case PatchingLabels(_, _) => IdleLabelPatch(s, key, items);
    case PatchingStatus(_, _) => IdleStatusPatch(s, key, items);
  }

  lemma ConvergedApart(s: State, s': State, key: NamespacedName)
    requires Converged(s, key) && Apart(s', key) == Apart(s, key)
    ensures Converged(s', key)
  {
    hide FullScan, Canonical, Desired, Holds;
    assert s'.cluster == s.cluster && s'.stored == s.stored && s'.gauges == s.gauges && s'.config == s.config;
    assert Target(s', key) == Target(s, key) && TargetSeries(s', key) == TargetSeries(s, key);
  }

  /** A settled key needs no patch, and an empty one is never refused. */
  lemma ConvergedIsFillable(s: State, key: NamespacedName)
    requires Converged(s, key)
    ensures Fillable(s, key)
  {
    hide FullScan, Canonical, Desired, SeriesAt, TargetSeries, Decode, PatchFrom;
    if key in s.stored && Target(s, key).Some? {
      StatusPatchArrives(s.stored[key].status, Target(s, key).value.status);
    }
  }

  lemma {:induction false} CallsAreIdle(s: State, key: NamespacedName, run: seq<Action>)
    requires Sane(s) && Converged(s, key)
    requires Calls(s, key, run) && key !in After(s, run).inflight
    requires key in s.inflight ==> NeverPlaces(Some(s.inflight[key])) && Fresh(s, key, s.inflight[key])
    ensures After(s, run) == Apart(s, key)
    ensures Requests(s, key, run) == StillToSend(s, key)
    decreases |run|
  {
    hide Converged, Fillable, Accepts, Fresh, Advanced, ListAnswer, Sane, RequestOf, EmptyPatches, EmptyStatusPatches;
    if run == [] {
      assert Apart(s, key) == s;
    } else {
      var a := run[0];
      assert IsCallOf(key, a) && Enabled(s, a);
      var s' := Advanced(s, key, a.items);
      ConvergedIsFillable(s, key);
      FreshIsAccepted(s, key);
      CallIsIdle(s, key, a.items);
      AdvanceKeepsSane(s, key, a.items);
      ConvergedApart(s, s', key);
      FreshGoesOn(s, key, a.items);
      assert Calls(s', key, run[1..]);
      CallsAreIdle(s', key, run[1..]);
    }
  }

  /** What a reconcile of a settled key sends: an empty patch in two cases, otherwise nothing. */
  ghost function IdleRequests(s: State, key: NamespacedName): seq<Request> {
    if Target(s, key).None? then []
    else if |AllUsages(s, key)| == 0 then [SendStatusPatch(EMPTY_STATUS_PATCH)]
    else if key in s.cluster.secrets && !IsValidLabelValue(key.name) then [SendLabelPatch(EMPTY_LABEL_PATCH)]
    else []
  }

  lemma EmptyPatchesAre(s: State, key: NamespacedName)
    ensures Target(s, key).Some? ==> EmptyPatches(Target(s, key).value) == IdleRequests(s, key)
  {
    hide AllUsages, IsValidLabelValue, DesiredLabels;
    LabelsClassify(key.name, key in s.cluster.secrets, |AllUsages(s, key)|);
  }

  /**
   Reconciling a settled key changes nothing at all, creates and deletes nothing, and sends
   exactly this: an empty status patch when the Secret is unused, an empty label patch when
   the Secret exists, is referenced and has a name no label value can hold, otherwise nothing.
   */
  lemma SettledReconcileChangesNothing(s: State, key: NamespacedName, run: seq<Action>)
    requires Sane(s) && Converged(s, key) && WholeReconcile(s, key, run)
    ensures Reconciled(s, key, run) == s
    ensures Requests(Begun(s, key), key, run) == IdleRequests(s, key)
  {
    hide Converged, Fresh, Sane, Target, AllUsages, EmptyPatches;
    var s0 := Begun(s, key);
    BegunIsSane(s, key);
    assert Apart(s0, key) == s == Apart(s, key);
    ConvergedApart(s, s0, key);
    CallsAreIdle(s0, key, run);
    TargetOfBegun(s, key);
    EmptyPatchesAre(s, key);
  }

  lemma TargetOfBegun(s: State, key: NamespacedName)
    ensures Target(Begun(s, key), key) == Target(s, key)
  {
    hide FullScan, Canonical, Desired;
  }

  /**
   Two reconciles in a row, from any store. Once the first has got through, the second
   changes nothing and creates and deletes nothing. If the server refuses the status the
   first wants to fill in, it refuses it again, and the key stays queued.
   */
  lemma ReconcileIsIdempotent(s: State, key: NamespacedName, first: seq<Action>, second: seq<Action>)
    requires Sane(s) && WholeReconcile(s, key, first)
    requires WholeReconcile(Reconciled(s, key, first), key, second)
    ensures var s' := Reconciled(s, key, first);
            var s'' := Reconciled(s', key, second);
            if Fillable(s, key) then s'' == s' && Requests(Begun(s', key), key, second) == IdleRequests(s', key)
            else key in s''.stored && s''.stored[key].status == s.stored[key].status && key in s''.dirty
  {
    hide Sane, Converged, WholeReconcile, Fillable, SameAt;
    var s' := Reconciled(s, key, first);
    OneReconcileSettles(s, key, first);
    if Fillable(s, key) {
      SettledReconcileChangesNothing(s', key, second);
    } else {
      UnfillableIsStored(s, key);
      UnfillableStays(s, s', key);
      OneReconcileSettles(s', key, second);
    }
  }
}
