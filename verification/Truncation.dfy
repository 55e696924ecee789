/**
 What every stored status promises in every reachable state: it is zero, or it records the
 least entries of one duplicate-free list, at most the limit of them, with the count of the
 whole list. This holds even for lists gathered from reads of different moments.

 The configuration is fixed, and nobody creates a SecretUsage by hand under a key whose
 reconcile has read the object it is about to patch: the one it read must have been deleted
 by then, and the patch was not computed from the new one. What such a patch leaves is
 given exactly at the end.
 */
module Truncation {
  import opened Wrappers
  import opened Ordering
  import opened Collections
  import opened Rules
  import opened Usages
  import opened Collection
  import opened Documents
  import opened Protocol
  import opened Convergence

  function RecordedItems(st: Status): seq<Usage> {
    match st.usages case NilSlice => [] case SliceOf(items) => items
  }

  /** `st` records the least entries of `full`, as many as the limit allows, and counts all of them. */
  ghost predicate IsTruncationOf(config: Config, st: Status, full: seq<Usage>) {
    var items := RecordedItems(st);
    && StrictlyOrdered(UsageLess, full)
    && |items| <= |full| && |items| <= MaxUsages(config)
    && Elements(items) <= Elements(full)
    && StrictlyOrdered(UsageLess, items)
    && (forall kept, cut :: kept in items && cut in full && cut !in items ==> UsageLess(kept, cut))
    && st.usageCount == Int32(|full|)
    && (st.truncated <==> |items| < |full|)
    && (st.truncated ==> |items| == MaxUsages(config))
  }

  /** The status is one a reconcile could have wanted. */
  ghost predicate Wanted(config: Config, key: NamespacedName, present: bool, full: seq<Usage>, st: Status) {
    StrictlyOrdered(UsageLess, full) && st == Normal(DesiredStatus(config, key.name, present, full))
  }

  ghost predicate Sound(config: Config, key: NamespacedName, d: StatusDoc) {
    Decode(d) == ZERO_STATUS || exists present, full :: Wanted(config, key, present, full, Decode(d))
  }

  lemma WantedIsTruncation(config: Config, key: NamespacedName, present: bool, full: seq<Usage>, st: Status)
    requires Wanted(config, key, present, full, st)
    ensures IsTruncationOf(config, st, full)
  {
  }

  /* ---------- The invariant ---------- */

  ghost predicate WantSound(config: Config, key: NamespacedName, want: SecretUsage) {
    exists present, full :: StrictlyOrdered(UsageLess, full) &&
        want.status == DesiredStatus(config, key.name, present, full)
  }

  /** What a list call returned, whenever that was: distinct entries, all of the kind listed. */
  ghost predicate ListSound(source: Source, list: seq<Usage>) {
    && NoDuplicates(list)
    && forall u :: u in list ==>
        u.apiVersion == GroupVersionText(GvkOf(SourceKind(source))) && u.kind == GvkOf(SourceKind(source)).kind
  }

  ghost predicate PhaseSound(config: Config, stored: Option<Document>, key: NamespacedName, phase: Phase) {
    match phase
    case Reading(_, lists) =>
      |lists| <= |Sources(config)| && forall i :: 0 <= i < |lists| ==> ListSound(Sources(config)[i], lists[i])
    case Dropping => true
    case Deleting => true
    case Fetching(want) => WantSound(config, key, want)
    case Creating(want) => WantSound(config, key, want)
    case FillingStatus(want, _) => WantSound(config, key, want)
    case PatchingLabels(current, want) =>
      WantSound(config, key, want) && (stored.Some? ==> stored.value.status == current.status)
    case PatchingStatus(current, want) =>
      WantSound(config, key, want) && (stored.Some? ==> stored.value.status == current.status)
  }

  ghost predicate KeySound(s: State, key: NamespacedName) {
    && (key in s.stored ==> Sound(s.config, key, s.stored[key].status))
    && (key in s.inflight ==> PhaseSound(s.config, Lookup(s.stored, key), key, s.inflight[key]))
  }

  ghost predicate AllSound(s: State) {
    ValidConfig(s.config) && forall key :: KeySound(s, key)
  }

  /** The reconcile of `key` is about to patch an object it has read. */
  predicate IsPatching(s: State, key: NamespacedName) {
    key in s.inflight && (s.inflight[key].PatchingLabels? || s.inflight[key].PatchingStatus?)
  }

  /** The steps the promise is made for. */
  predicate Allowed(s: State, a: Action) {
    match a
    case UserCreates(key, _) => !IsPatching(s, key)
    case Restart(config) => config == s.config
    case _ => true
  }

  /** Deletions, failures, interleavings and restarts are all allowed. */
  lemma AllowedMeans(s: State, a: Action)
    ensures Allowed(s, a) <==>
              && (a.Restart? ==> a.config == s.config)
              && (a.UserCreates? && a.key in s.inflight ==>
                    !s.inflight[a.key].PatchingLabels? && !s.inflight[a.key].PatchingStatus?)
  {
  }

  ghost predicate AllowedRun(s: State, run: seq<Action>)
    requires IsRun(s, run)
    decreases |run|
  {
    run == [] || (Allowed(s, run[0]) && AllowedRun(Next(s, run[0]), run[1..]))
  }

  /* ---------- Lists of different moments ---------- */

  lemma AnswerIsSound(s: State, key: NamespacedName, source: Source, items: seq<Usage>)
    requires Enumerates(items, SourceUsages(s.config, s.cluster, source, key))
    ensures ListSound(source, items)
  {
    hide SourceUsages, SourceKind, GvkOf, GroupVersionText;
    EnumerationFacts(items, SourceUsages(s.config, s.cluster, source, key));
    EnumerationHasNoDuplicates(items, SourceUsages(s.config, s.cluster, source, key));
    forall u | u in items ensures u.apiVersion == GroupVersionText(GvkOf(SourceKind(source))) &&
        u.kind == GvkOf(SourceKind(source)).kind {
      SourceUsagesCarryTheirKind(s.config, s.cluster, source, key, u);
    }
  }

  lemma ListsOfDifferentSourcesDiffer(config: Config, lists: seq<seq<Usage>>, i: nat, j: nat)
    requires ValidConfig(config) && i < j < |lists| <= |Sources(config)|
    requires ListSound(Sources(config)[i], lists[i]) && ListSound(Sources(config)[j], lists[j])
    ensures Elements(lists[i]) !! Elements(lists[j])
  {
    hide ValidConfig, Sources, SourceKind, GvkOf, GroupVersionText, SlashFree;
    SourceGvksDiffer(config, i, j);
    forall u | u in lists[i] && u in lists[j] ensures false {
      RecordedKindIsInjective(GvkOf(SourceKind(Sources(config)[i])), GvkOf(SourceKind(Sources(config)[j])));
    }
  }

  /** Torn or not, what the list calls returned sorts to a strictly increasing list. */
  lemma TornReadsSortStrictly(config: Config, lists: seq<seq<Usage>>)
    requires ValidConfig(config) && |lists| <= |Sources(config)|
    requires forall i :: 0 <= i < |lists| ==> ListSound(Sources(config)[i], lists[i])
    ensures StrictlyOrdered(UsageLess, SortedUsages(Flatten(lists)))
  {
    hide ValidConfig, Sources, SourceKind, GvkOf, GroupVersionText;
    var sets := seq(|lists|, i requires 0 <= i < |lists| => Elements(lists[i]));
    forall i | 0 <= i < |lists| ensures Enumerates(lists[i], sets[i]) {
      NoDuplicatesEnumerate(lists[i]);
    }
    forall i, j | 0 <= i < j < |lists| ensures sets[i] !! sets[j] {
      ListsOfDifferentSourcesDiffer(config, lists, i, j);
    }
    FlattenEnumeratesUnion(lists, sets);
    SortedSetIsStrict(Flatten(lists), UnionOf(sets));
  }

  /* ---------- Steps ---------- */

  lemma OtherKeysStaySound(s: State, s': State, key: NamespacedName)
    requires KeySound(s, key) && s'.config == s.config
    requires Lookup(s'.stored, key) == Lookup(s.stored, key) && Lookup(s'.inflight, key) == Lookup(s.inflight, key)
    ensures KeySound(s', key)
  {
  }

  lemma WantedStatusIsSound(config: Config, key: NamespacedName, want: SecretUsage, d: StatusDoc)
    requires WantSound(config, key, want) && Decode(d) == Normal(want.status)
    ensures Sound(config, key, d)
  {
    hide DesiredStatus, Decode;
    var present, full :| StrictlyOrdered(UsageLess, full) &&
        want.status == DesiredStatus(config, key.name, present, full);
    assert Wanted(config, key, present, full, Decode(d));
  }

  /** Any accepted write leaves the status sound. */
  lemma WriteStaysSound(s: State, own: NamespacedName)
    requires own in s.inflight && KeySound(s, own)
    ensures var s' := ServerStep(s, own); own in s'.stored ==> Sound(s.config, own, s'.stored[own].status)
    ensures var s' := ServerStep(s, own);
            s.inflight[own].PatchingLabels? && own in s.stored ==>
                own in s'.stored && s'.stored[own].status == s.stored[own].status
  {
    hide Sound, WantSound, Encode, Decode, EncodeLabels, DiffLabels, PatchedLabels, PatchedStatus, PatchFrom,
         SchemaAdmits;
    NewObjectIsSound(s.config, own);
    match s.inflight[own] {
      case FillingStatus(want, _) =>
        StoredStatusReadsBack(want.status);
        WantedStatusIsSound(s.config, own, want, Encode(want.status));
      case PatchingStatus(current, want) =>
        StatusPatchArrives(current.status, want.status);
        WantedStatusIsSound(s.config, own, want, PatchedStatus(current.status, PatchFrom(current.status, want.status)));
      case _ =>
    }
  }

  lemma NewObjectIsSound(config: Config, key: NamespacedName)
    ensures Sound(config, key, NO_STATUS)
  {
  }

  lemma DecisionIsSound(s: State, own: NamespacedName, present: bool, usages: seq<Usage>)
    requires StrictlyOrdered(UsageLess, usages)
    requires Lookup(s.stored, own).Some? ==> Sound(s.config, own, s.stored[own].status)
    ensures KeySound(Decide(s, own, present, usages), own)
  {
  }

  lemma ReadStaysSound(s: State, own: NamespacedName, items: seq<Usage>)
    requires AllSound(s) && own in s.inflight && s.inflight[own].Reading? && ListAnswer(s, own, items)
    ensures KeySound(Advanced(s, own, items), own)
  {
    hide Sound, ValidConfig, Sources, SourceUsages, ListSound, Decide, SortedUsages, Flatten, Enumerates;
    assert KeySound(s, own);
    var phase := s.inflight[own];
    if phase.present.Some? {
      if |phase.lists| < |Sources(s.config)| {
        AnswerIsSound(s, own, Sources(s.config)[|phase.lists|], items);
      } else {
        TornReadsSortStrictly(s.config, phase.lists);
        DecisionIsSound(s, own, phase.present.value, SortedUsages(Flatten(phase.lists)));
      }
    }
  }

  lemma CallStaysSound(s: State, own: NamespacedName, items: seq<Usage>)
    requires own in s.inflight && !s.inflight[own].Reading? && KeySound(s, own)
    ensures KeySound(Advanced(s, own, items), own)
  {
    hide Sound, WantSound, Encode, Decode, EncodeLabels, DecodeLabels, DiffLabels, PatchedLabels, PatchedStatus,
         PatchFrom,
         SchemaAdmits, ClearSecretMetrics;
    WriteStaysSound(s, own);
  }

  lemma AdvanceStaysSound(s: State, own: NamespacedName, items: seq<Usage>)
    requires AllSound(s) && own in s.inflight && ListAnswer(s, own, items)
    ensures AllSound(Advanced(s, own, items))
  {
    hide Advanced, KeySound, ValidConfig, ListAnswer;
    var s' := Advanced(s, own, items);
    AdvanceKeepsRest(s, own, items);
    forall key ensures KeySound(s', key) {
      if key != own {
        AdvanceLeavesOthers(s, own, items, key);
        OtherKeysStaySound(s, s', key);
      } else if s.inflight[own].Reading? {
        ReadStaysSound(s, own, items);
      } else {
        CallStaysSound(s, own, items);
      }
    }
  }

  lemma FaultStaysSound(s: State, own: NamespacedName, applied: bool)
    requires AllSound(s) && own in s.inflight
    ensures AllSound(Next(s, Fault(own, applied)))
  {
    hide Sound, PhaseSound, ServerStep, ValidConfig;
    var s' := Next(s, Fault(own, applied));
    WriteStaysSound(s, own);
    ServerStepTouchesOnly(s, own);
    forall key ensures KeySound(s', key) {
      assert KeySound(s, key);
      if key != own {
        assert SameAt(s, ServerStep(s, own), key);
        OtherKeysStaySound(s, s', key);
      }
    }
  }

  lemma SurroundingsStaySound(s: State, a: Action)
    requires AllSound(s) && Enabled(s, a) && Allowed(s, a)
    requires !a.Advance? && !a.Fault?
    ensures AllSound(Next(s, a))
  {
    hide Sound, PhaseSound, ValidConfig, EventKeys, StartupEvents;
    var s' := Next(s, a);
    forall key ensures KeySound(s', key) {
      assert KeySound(s, key);
      if a.UserCreates? && a.key == key {
        NewObjectIsSound(s.config, key);
        if key in s.inflight {
          PhaseSoundOfNewObject(s.config, key, s.inflight[key], s'.stored[key]);
        }
      } else if a.UserDeletes? && a.key == key {
        if key in s.inflight {
          PhaseSoundWithoutObject(s.config, key, s.inflight[key], s.stored[key]);
        }
      } else if a.Dequeue? && a.key == key {
        NothingReadIsSound(s.config, Lookup(s.stored, key), key);
      } else if !a.Restart? {
        OtherKeysStaySound(s, s', key);
      }
    }
  }

  /** With the object gone, the patch on its way will be refused. */
  lemma PhaseSoundWithoutObject(config: Config, key: NamespacedName, phase: Phase, d: Document)
    requires PhaseSound(config, Some(d), key, phase)
    ensures PhaseSound(config, None, key, phase)
  {
    hide WantSound, ListSound, Sources;
  }

  /** No other phase knows anything of the stored object. */
  lemma PhaseSoundOfNewObject(config: Config, key: NamespacedName, phase: Phase, d: Document)
    requires PhaseSound(config, None, key, phase) && !phase.PatchingLabels? && !phase.PatchingStatus?
    ensures PhaseSound(config, Some(d), key, phase)
  {
    hide WantSound, ListSound, Sources;
  }

  lemma NothingReadIsSound(config: Config, stored: Option<Document>, key: NamespacedName)
    ensures PhaseSound(config, stored, key, Reading(None, []))
  {
  }

  lemma StepStaysSound(s: State, a: Action)
    requires AllSound(s) && Enabled(s, a) && Allowed(s, a)
    ensures AllSound(Next(s, a)) && Next(s, a).config == s.config
  {
    hide AllSound, Advanced, ListAnswer, ServerStep;
    match a
    case Advance(key, items) =>
      AdvanceStaysSound(s, key, items);
      AdvanceKeepsRest(s, key, items);
    case Fault(key, applied) =>
      FaultStaysSound(s, key, applied);
      ServerStepTouchesOnly(s, key);
    case _ => SurroundingsStaySound(s, a);
  }

  lemma {:induction false} RunStaysSound(s: State, run: seq<Action>)
    requires AllSound(s) && IsRun(s, run) && AllowedRun(s, run)
    ensures AllSound(After(s, run)) && After(s, run).config == s.config
    decreases |run|
  {
    hide AllSound, Allowed, Enabled, Next;
    if run != [] {
      StepStaysSound(s, run[0]);
      RunStaysSound(Next(s, run[0]), run[1..]);
    }
  }

  /** A truncation records as many entries as the configured limit allows, or 500 where none is configured. */
  lemma TruncationLength(config: Config, st: Status, full: seq<Usage>)
    requires IsTruncationOf(config, st, full)
    ensures config.maxUsages > 0 ==>
              && |RecordedItems(st)| == (if |full| <= config.maxUsages then |full| else config.maxUsages)
              && (st.truncated <==> |full| > config.maxUsages)
    ensures config.maxUsages <= 0 ==>
              && |RecordedItems(st)| == (if |full| <= 500 then |full| else 500)
              && (st.truncated <==> |full| > 500)
  {
  }

  /**
   From an empty store and with a fixed configuration, in every reachable state every
   stored status is zero or the truncation of one strictly increasing list, to the
   configured limit or to 500. Users may delete a SecretUsage at any time, and create one
   except under a key about to be patched.
   */
  lemma EveryStatusIsATruncation(config: Config, cluster: Cluster, nextUid: nat, run: seq<Action>, key: NamespacedName)
    requires ValidConfig(config)
    requires IsRun(Start(config, cluster, map[], nextUid), run)
    requires AllowedRun(Start(config, cluster, map[], nextUid), run)
    ensures var s := After(Start(config, cluster, map[], nextUid), run);
            key in s.stored ==>
              var st := Decode(s.stored[key].status);
              || st == ZERO_STATUS
              || exists full ::
                   && IsTruncationOf(config, st, full)
                   && (config.maxUsages > 0 ==>
                         && |RecordedItems(st)| == (if |full| <= config.maxUsages then |full| else config.maxUsages)
                         && (st.truncated <==> |full| > config.maxUsages))
                   && (config.maxUsages <= 0 ==>
                         && |RecordedItems(st)| == (if |full| <= 500 then |full| else 500)
                         && (st.truncated <==> |full| > 500))
  {
    hide ValidConfig, StartupEvents, IsRun, After, AllowedRun, IsTruncationOf, Decode, Wanted, RecordedItems;
    var start := Start(config, cluster, map[], nextUid);
    assert AllSound(start);
    RunStaysSound(start, run);
    var s := After(start, run);
    if key in s.stored {
      assert KeySound(s, key);
      var st := Decode(s.stored[key].status);
      if present, full :| Wanted(config, key, present, full, st) {
        WantedIsTruncation(config, key, present, full, st);
        TruncationLength(config, st, full);
      }
    }
  }

  /**
   A truncation with fewer than 2^31 entries behind it counts them all, so the count is at
   least the recorded length.
   */
  lemma TruncationCountsAll(config: Config, st: Status, full: seq<Usage>)
    requires IsTruncationOf(config, st, full) && |full| < TWO_TO_31
    ensures st.usageCount == |full| >= |RecordedItems(st)|
    ensures st.truncated <==> st.usageCount > |RecordedItems(st)|
  {
  }

  /* ---------- An object made anew before the patch ---------- */

  /**
   The truncation of a list short enough to be counted rightly. The zero status is the
   truncation of the empty list.
   */
  ghost predicate CountsItsList(config: Config, st: Status) {
    exists full :: |full| < TWO_TO_31 && IsTruncationOf(config, st, full)
  }

  lemma ZeroCountsItsList(config: Config)
    ensures CountsItsList(config, ZERO_STATUS)
  {
    var none: seq<Usage> := [];
    assert IsTruncationOf(config, ZERO_STATUS, none);
  }

  /** A patch from `read` to `want` leaves the count out. */
  predicate KeepsCount(read: Status, want: Status) {
    read.usageCount == want.usageCount
  }

  /** A patch from `read` to `want` leaves the list of entries out. */
  predicate KeepsList(read: Status, want: Status) {
    RecordedItems(read) == RecordedItems(want)
  }

  /**
   The patch makes sense to an object that is new: it carries both the count and the list
   or, when it does not also carry a truncation mark, neither.
   */
  predicate PatchIsWhole(read: Status, want: Status) {
    if !want.truncated then want.usageCount == 0 || (KeepsCount(read, want) <==> KeepsList(read, want))
    else if read.truncated then KeepsCount(read, want) && KeepsList(read, want)
    else !KeepsCount(read, want) && !KeepsList(read, want)
  }

  /** What the patch makes of a new object, member by member. */
  lemma PatchedNewStatus(read: StatusDoc, want: Status)
    ensures var st := Decode(PatchedStatus(NO_STATUS, PatchFrom(read, want)));
            && st.usageCount == (if KeepsCount(Decode(read), want) then 0 else want.usageCount)
            && RecordedItems(st) == (if KeepsList(Decode(read), want) then [] else RecordedItems(want))
            && (st.truncated <==> want.truncated && !Decode(read).truncated)
    ensures SchemaAdmits(NO_STATUS, PatchFrom(read, want)) <==>
              PatchFrom(read, want) == EMPTY_STATUS_PATCH
              || (Decode(read).present != want.present && !KeepsCount(Decode(read), want))
  {
  }

  /** A new object patched so counts its list exactly when the patch is whole. */
  lemma NewStatusCountsItsListExactly(config: Config, read: StatusDoc, want: Status, full: seq<Usage>)
    requires |full| < TWO_TO_31 && IsTruncationOf(config, want, full)
    ensures CountsItsList(config, Decode(PatchedStatus(NO_STATUS, PatchFrom(read, want)))) <==>
        PatchIsWhole(Decode(read), want)
  {
    hide PatchFrom, PatchedStatus, Decode;
    var r, st := Decode(read), Decode(PatchedStatus(NO_STATUS, PatchFrom(read, want)));
    PatchedNewStatus(read, want);
    Int32IsExact(|full|);
    if PatchIsWhole(r, want) {
      WholePatchCounts(config, r, want, st, full);
    }
    if whole :| |whole| < TWO_TO_31 && IsTruncationOf(config, st, whole) {
      Int32IsExact(|whole|);
      CountingPatchIsWhole(config, r, want, st, full, whole);
    }
  }

  lemma WholePatchCounts(config: Config, r: Status, want: Status, st: Status, full: seq<Usage>)
    requires |full| < TWO_TO_31 && IsTruncationOf(config, want, full) && want.usageCount == |full|
    requires st.usageCount == if KeepsCount(r, want) then 0 else want.usageCount
    requires RecordedItems(st) == if KeepsList(r, want) then [] else RecordedItems(want)
    requires st.truncated <==> want.truncated && !r.truncated
    requires PatchIsWhole(r, want)
    ensures CountsItsList(config, st)
  {
    hide RecordedItems, UsageLess;
    if st.truncated {
      assert IsTruncationOf(config, st, full);
    } else {
      var items := RecordedItems(st);
      Int32IsExact(|items|);
      assert IsTruncationOf(config, st, items);
    }
  }

  lemma CountingPatchIsWhole(config: Config, r: Status, want: Status, st: Status, full: seq<Usage>, whole: seq<Usage>)
    requires IsTruncationOf(config, want, full) && want.usageCount == |full|
    requires st.usageCount == if KeepsCount(r, want) then 0 else want.usageCount
    requires RecordedItems(st) == if KeepsList(r, want) then [] else RecordedItems(want)
    requires st.truncated <==> want.truncated && !r.truncated
    requires IsTruncationOf(config, st, whole) && st.usageCount == |whole|
    ensures PatchIsWhole(r, want)
  {
    hide RecordedItems, UsageLess;
    assert MaxUsages(config) > 0;
  }

  /** The patch is refused: the schema asks for members it does not carry. */
  predicate IsRefused(s: State, read: Status, want: Status) {
    s.cluster.enforcesSchema && (read.present == want.present || KeepsCount(read, want))
  }

  /**
   If a user deletes the object and one is made anew between the read a status patch was
   computed from and the patch, the status left is a truncation still exactly when the
   patch is whole, or the server refuses it. The status wanted is a true one here.
   */
  lemma RecreationBeforePatch(s: State, key: NamespacedName, labels: map<string, string>, full: seq<Usage>)
    requires key in s.inflight && s.inflight[key].PatchingStatus? && key in s.stored
    requires |full| < TWO_TO_31 && IsTruncationOf(s.config, s.inflight[key].want.status, full)
    ensures var run := [UserDeletes(key), UserCreates(key, labels), Advance(key, [])];
            var read, want := Decode(s.inflight[key].current.status), s.inflight[key].want.status;
            && IsRun(s, run) && key in After(s, run).stored
            && (CountsItsList(s.config, Decode(After(s, run).stored[key].status)) <==>
                  PatchIsWhole(read, want) || IsRefused(s, read, want))
  {
    hide Decode, IsTruncationOf, CountsItsList, KeepsCount, KeepsList;
    var current, want := s.inflight[key].current.status, s.inflight[key].want.status;
    RecreatedAndPatched(s, key, labels);
    PatchedNewStatus(current, want);
    NewStatusCountsItsListExactly(s.config, current, want, full);
    ZeroCountsItsList(s.config);
    NoStatusIsZero();
    EmptyPatchKeepsAll(NO_STATUS);
  }

  lemma NoStatusIsZero()
    ensures Decode(NO_STATUS) == ZERO_STATUS
  {
  }

  lemma EmptyPatchKeepsAll(d: StatusDoc)
    ensures PatchedStatus(d, EMPTY_STATUS_PATCH) == d
  {
  }

  /** What the three steps leave stored. */
  lemma RecreatedAndPatched(s: State, key: NamespacedName, labels: map<string, string>)
    requires key in s.inflight && s.inflight[key].PatchingStatus? && key in s.stored
    ensures var run := [UserDeletes(key), UserCreates(key, labels), Advance(key, [])];
            var patch := PatchFrom(s.inflight[key].current.status, s.inflight[key].want.status);
            && IsRun(s, run) && key in After(s, run).stored
            && After(s, run).stored[key].status ==
                 (if s.cluster.enforcesSchema && !SchemaAdmits(NO_STATUS, patch) then NO_STATUS
                  else PatchedStatus(NO_STATUS, patch))
  {
    hide Decode, PatchFrom, PatchedStatus, SchemaAdmits, EncodeLabels, Encode;
    var run := [UserDeletes(key), UserCreates(key, labels), Advance(key, [])];
    var s1 := Next(s, run[0]);
    var s2 := Next(s1, run[1]);
    assert Enabled(s, run[0]) && Enabled(s1, run[1]) && Enabled(s2, run[2]);
    var s3 := Next(s2, run[2]);
    var patch := PatchFrom(s.inflight[key].current.status, s.inflight[key].want.status);
    assert key in s3.stored && s3.stored[key].status ==
             if s.cluster.enforcesSchema && !SchemaAdmits(NO_STATUS, patch) then NO_STATUS
             else PatchedStatus(NO_STATUS, patch);
    hide Enabled, Next;
    RunOfThree(s, run);
  }

  lemma RunOfThree(s: State, run: seq<Action>)
    requires |run| == 3
    requires Enabled(s, run[0]) && Enabled(Next(s, run[0]), run[1]) && Enabled(Next(Next(s, run[0]), run[1]), run[2])
    ensures IsRun(s, run) && After(s, run) == Next(Next(Next(s, run[0]), run[1]), run[2])
  {
    hide Enabled, Next;
    var none: seq<Action> := [];
    RunGoesOn(s, none, run[0]);
    RunGoesOn(s, none + [run[0]], run[1]);
    RunGoesOn(s, none + [run[0]] + [run[1]], run[2]);
    assert run == none + [run[0]] + [run[1]] + [run[2]];
  }
}
