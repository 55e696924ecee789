/**
 The reconciler as it is written (Reconcile and the calls it makes, in
 internal/controller/secretusage_controller.go), proved to follow the step system: between
 any two of its calls everything else may move, any call may fail before or after taking
 effect, and every method still leaves the controller in a state some run reaches.
 */
module Controller {
  import opened Wrappers
  import opened Ordering
  import opened Collections
  import opened Objects
  import opened Rules
  import opened Usages
  import opened Collection
  import opened Documents
  import opened Protocol
  import opened Convergence

  /** How one API call goes. */
  datatype Fate = Works | FailsBefore | FailsAfter

  datatype Failure = Failed

  /** What may happen while a reconcile of `own` is between two calls: anything but its own calls and a restart. */
  predicate IsForeign(a: Action, own: NamespacedName) {
    match a
    case Restart(_) => false
    case Advance(key, _) => key != own
    case Fault(key, _) => key != own
    case _ => true
  }

  lemma ForeignLeavesOwn(s: State, a: Action, own: NamespacedName)
    requires Enabled(s, a) && IsForeign(a, own) && own in s.inflight
    ensures Next(s, a).config == s.config && Lookup(Next(s, a).inflight, own) == Some(s.inflight[own])
  {
    hide Advanced, ListAnswer, ServerStep, EventKeys;
    match a
    case Advance(key, items) =>
      AdvanceKeepsRest(s, key, items);
      AdvanceLeavesOthers(s, key, items, own);
    case Fault(key, _) =>
      ServerStepTouchesOnly(s, key);
    case _ =>
  }

  /** What a call of the reconcile of `own` can lead to, once its reads are done. */
  lemma CallOutcomes(s: State, own: NamespacedName)
    requires own in s.inflight && !s.inflight[own].Reading?
    ensures Enabled(s, Advance(own, [])) && Next(s, Advance(own, [])) == Advanced(s, own, [])
    ensures Enabled(s, Fault(own, true)) && Next(s, Fault(own, true)) == Requeue(ServerStep(s, own), own)
  {
    hide Advanced, ServerStep;
  }

  lemma DecisionOutcome(s: State, own: NamespacedName, present: bool, lists: seq<seq<Usage>>)
    requires own in s.inflight && s.inflight[own] == Reading(Some(present), lists) && |lists| == |Sources(s.config)|
    ensures Enabled(s, Advance(own, [])) &&
        Next(s, Advance(own, [])) == Decide(s, own, present, SortedUsages(Flatten(lists)))
  {
    hide Decide, Sources, SourceUsages, SortedUsages, Flatten;
  }

  lemma DeliverOutcome(s: State, e: Event)
    requires e in s.pending
    ensures Enabled(s, Deliver(e))
    ensures Next(s, Deliver(e)) == s.(pending := s.pending - multiset{e}, dirty := s.dirty + EventKeys(s.config, e))
  {
    hide EventKeys;
  }

  lemma DequeueOutcome(s: State, key: NamespacedName)
    requires key in s.dirty && key !in s.inflight
    ensures Enabled(s, Dequeue(key))
    ensures Next(s, Dequeue(key)) == SetPhase(s.(dirty := s.dirty - {key}), key, Reading(None, []))
  {
    hide SetPhase;
  }

  /**
   Builds the label map entry by entry. It says of the Secret what there is to say and
   nothing else: its name where a label can hold it, and whether it is unused or missing.
   */
  method DesiredLabelsFor(secretName: string, present: bool, total: nat) returns (labels: map<string, string>)
    ensures labels.Keys <= {SECRET_NAME_LABEL, UNUSED_LABEL, MISSING_LABEL}
    ensures Lookup(labels, SECRET_NAME_LABEL) == if IsValidLabelValue(secretName) then Some(secretName) else None
    ensures Lookup(labels, UNUSED_LABEL) == if present && total == 0 then Some("true") else None
    ensures Lookup(labels, MISSING_LABEL) == if !present && total > 0 then Some("true") else None
  {
    hide IsValidLabelValue;
    LabelNamesDiffer();
    labels := map[];
    if IsValidLabelValue(secretName) {
      labels := labels[SECRET_NAME_LABEL := secretName];
    }
    if present && total == 0 {
      labels := labels[UNUSED_LABEL := "true"];
    }
    if !present && total > 0 {
      labels := labels[MISSING_LABEL := "true"];
    }
  }

  lemma LabelNamesDiffer()
    ensures SECRET_NAME_LABEL != UNUSED_LABEL && UNUSED_LABEL != MISSING_LABEL && SECRET_NAME_LABEL != MISSING_LABEL
  {
    assert |SECRET_NAME_LABEL| == 32 && |UNUSED_LABEL| == 27 && |MISSING_LABEL| == 28;
  }

  /** That fixes the labels a reconcile of the step system wants. */
  lemma LabelsAreFixed(labels: map<string, string>, secretName: string, present: bool, total: nat)
    requires labels.Keys <= {SECRET_NAME_LABEL, UNUSED_LABEL, MISSING_LABEL}
    requires Lookup(labels, SECRET_NAME_LABEL) == if IsValidLabelValue(secretName) then Some(secretName) else None
    requires Lookup(labels, UNUSED_LABEL) == if present && total == 0 then Some("true") else None
    requires Lookup(labels, MISSING_LABEL) == if !present && total > 0 then Some("true") else None
    ensures labels == DesiredLabels(secretName, present, total)
  {
    hide IsValidLabelValue;
    LabelNamesDiffer();
    var wanted := DesiredLabels(secretName, present, total);
    forall k ensures Lookup(labels, k) == Lookup(wanted, k) {
      if k !in {SECRET_NAME_LABEL, UNUSED_LABEL, MISSING_LABEL} {
        assert k !in labels && k !in wanted;
      }
    }
    SameLookups(labels, wanted);
  }

  lemma WantedIsDesired(config: Config, own: NamespacedName, present: bool, allUsages: seq<Usage>, want: SecretUsage)
    requires want.labels == LabelsOf(DesiredLabels(own.name, present, |allUsages|))
    requires var (usages, total, truncated) := Truncate(config, allUsages);
             want.status == Status(own.name, present, Int32(total), truncated, SliceOf(usages))
    requires !(|allUsages| == 0 && !(present && config.trackUnusedSecrets))
    ensures Desired(config, own, present, allUsages) == Some(want)
  {
    hide DesiredLabels, Int32;
  }

  /** Gauges that show the same for every key are the same. */
  lemma GaugesAreTheirSeries(g: Gauges, h: Gauges)
    requires forall key :: SeriesAt(g, key) == SeriesAt(h, key)
    ensures g == h
  {
    forall key
      ensures Lookup(g.references, key) == Lookup(h.references, key)
      ensures Lookup(g.present, key) == Lookup(h.present, key)
      ensures Lookup(g.truncated, key) == Lookup(h.truncated, key)
    {
      assert SeriesAt(g, key) == SeriesAt(h, key);
    }
    SameLookups(g.references, h.references);
    SameLookups(g.present, h.present);
    SameLookups(g.truncated, h.truncated);
  }

  lemma RecordedGaugesAre(config: Config, g: Gauges, g': Gauges, key: NamespacedName, present: bool, total: nat,
      truncated: bool)
    requires SeriesAt(g', key) ==
             if config.perSecretMetrics
             then Series(Some(total), Some(if present then 1 else 0), Some(if truncated then 1 else 0))
             else SeriesAt(g, key)
    requires forall other :: other != key ==> SeriesAt(g', other) == SeriesAt(g, other)
    ensures g' == Protocol.RecordSecretMetrics(config, g, key, present, total, truncated)
  {
    GaugesAreTheirSeries(g', Protocol.RecordSecretMetrics(config, g, key, present, total, truncated));
  }

  lemma ClearedGaugesAre(config: Config, g: Gauges, g': Gauges, key: NamespacedName)
    requires SeriesAt(g', key) == if config.perSecretMetrics then NO_SERIES else SeriesAt(g, key)
    requires forall other :: other != key ==> SeriesAt(g', other) == SeriesAt(g, other)
    ensures g' == Protocol.ClearSecretMetrics(config, g, key)
  {
    GaugesAreTheirSeries(g', Protocol.ClearSecretMetrics(config, g, key));
  }

  class SecretUsageReconciler {
    // Configuration, and the rule table used for events.
    var config: Config
    var rulesByGvk: map<GroupVersionKind, CompiledRule>

    // The informer cache, and the SecretUsage objects the API server stores.
    var cluster: Cluster
    var stored: map<NamespacedName, Document>
    var nextUid: nat

    // The per-Secret gauge vectors.
    var secretReferences: map<NamespacedName, int>
    var secretExists: map<NamespacedName, int>
    var secretUsagesTruncated: map<NamespacedName, int>

    // Undelivered events and the work queue.
    var pending: multiset<Event>
    var dirty: set<NamespacedName>
    var inflight: map<NamespacedName, Phase>

    // The run that led here.
    ghost var start: State
    ghost var trace: seq<Action>

    function GaugeVectors(): Gauges
      reads this
    {
      Gauges(secretReferences, secretExists, secretUsagesTruncated)
    }

    function Snapshot(): State
      reads this
    {
      State(config, cluster, stored, GaugeVectors(), pending, dirty, inflight, nextUid)
    }

    ghost predicate Valid()
      reads this
    {
      && IsRun(start, trace) && After(start, trace) == Snapshot()
      && Inv(Snapshot())
      && forall gvk :: Lookup(rulesByGvk, gvk) == RuleFor(config.rules, gvk)
    }

    /** What every method that runs while `own` is reconciled may rely on and must leave. */
    ghost predicate Busy(own: NamespacedName, phase: Phase)
      reads this
    {
      Valid() && own in inflight && inflight[own] == phase
    }

    /** The same run, further on. */
    twostate predicate Continues()
      reads this
    {
      start == old(start) && old(trace) <= trace && config == old(config) && rulesByGvk == old(rulesByGvk)
    }

    /** Starts with whatever is stored, a Create event for everything there is, and nothing else known. */
    constructor (config: Config, rulesByGvk: map<GroupVersionKind, CompiledRule>, cluster: Cluster,
                 stored: map<NamespacedName, Document>, nextUid: nat)
      requires ValidConfig(config) && ValidCluster(cluster)
      requires forall gvk :: Lookup(rulesByGvk, gvk) == RuleFor(config.rules, gvk)
      ensures Valid() && Snapshot() == Start(config, cluster, stored, nextUid) && trace == []
    {
      this.config, this.rulesByGvk := config, rulesByGvk;
      this.cluster, this.stored, this.nextUid := cluster, stored, nextUid;
      secretReferences, secretExists, secretUsagesTruncated := map[], map[], map[];
      pending := multiset(StartupEvents(cluster, stored));
      dirty, inflight := {}, map[];
      start := Start(config, cluster, stored, nextUid);
      trace := [];
      new;
      hide Inv, StartupEvents, RuleFor;
      StartEstablishesInv(config, cluster, stored, nextUid);
    }

    /** Enters an action into the trace once its effect has been made. */
    ghost method Record(a: Action, before: State)
      requires IsRun(start, trace) && After(start, trace) == before && Inv(before)
      requires Enabled(before, a) && Snapshot() == Next(before, a)
      requires forall gvk :: Lookup(rulesByGvk, gvk) == RuleFor(config.rules, gvk)
      modifies `trace
      ensures Valid() && trace == old(trace) + [a]
    {
      hide Enabled, Next, Inv, RuleFor;
      RunGoesOn(start, trace, a);
      StepKeepsInv(before, a);
      trace := trace + [a];
    }

    /** Takes over a state that a step elsewhere has led to. */
    method Adopt(s: State)
      requires s.config == config
      modifies `cluster, `stored, `nextUid, `secretReferences, `secretExists, `secretUsagesTruncated, `pending, `dirty,
          `inflight
      ensures Snapshot() == s
    {
      cluster, stored, nextUid := s.cluster, s.stored, s.nextUid;
      secretReferences, secretExists := s.gauges.references, s.gauges.present;
      secretUsagesTruncated := s.gauges.truncated;
      pending, dirty, inflight := s.pending, s.dirty, s.inflight;
    }

    /** Any number of things happen elsewhere; the reconcile of `own` stays where it is. */
    method Interfere(own: NamespacedName)
      requires Valid() && own in inflight
      modifies this
      ensures Busy(own, old(inflight[own])) && Continues()
    {
      hide Enabled, Next, Inv, RuleFor, IsRun, After;
      var more: nat := *;
      while more > 0
        invariant Busy(own, old(inflight[own])) && Continues()
        decreases more
      {
        more := more - 1;
        var a: Action := *;
        if Enabled(Snapshot(), a) && IsForeign(a, own) {
          ghost var before := Snapshot();
          ForeignLeavesOwn(before, a, own);
          Adopt(Next(Snapshot(), a));
          Record(a, before);
        }
      }
    }

    /** A failed call ends the reconcile, and the queue takes the key again. */
    ghost predicate GaveUp(own: NamespacedName)
      reads this
    {
      Valid() && own !in inflight && own in dirty
    }

    method GiveUp(own: NamespacedName)
      modifies `inflight, `dirty
      ensures inflight == old(inflight) - {own} && dirty == old(dirty) + {own}
    {
      inflight := inflight - {own};
      dirty := dirty + {own};
    }

    /* ---------- The API server ---------- */

    // Each method answers one request made for a reconcile in the matching phase. What
    // it does to the stored objects, and what their watch then reports, is the server's
    // part of that call; an answer of false is a refusal.

    method ServeDelete(own: NamespacedName)
      requires own in inflight && inflight[own] == Deleting
      modifies `stored, `pending
      ensures Snapshot() == ServerStep(old(Snapshot()), own)
    {
      if own in stored {
        stored := stored - {own};
        pending := pending + multiset{KeyEvent(own)};
      }
    }

    method ServeCreate(own: NamespacedName, labels: map<string, string>) returns (accepted: bool)
      requires own in inflight && inflight[own].Creating? && EncodeLabels(inflight[own].want.labels) == labels
      modifies `stored, `pending, `nextUid
      ensures Snapshot() == ServerStep(old(Snapshot()), own) && accepted == Accepts(old(Snapshot()), own)
      ensures !accepted ==> Snapshot() == old(Snapshot())
    {
      hide EncodeLabels;
      if own in stored {
        return false;
      }
      stored := stored[own := Document(nextUid, labels, NO_STATUS)];
      nextUid := nextUid + 1;
      pending := pending + multiset{KeyEvent(own)};
      return true;
    }

    method ServeStatusUpdate(own: NamespacedName, uid: nat, status: StatusDoc) returns (accepted: bool)
      requires own in inflight && inflight[own].FillingStatus? && inflight[own].uid == uid &&
          Encode(inflight[own].want.status) == status
      modifies `stored
      ensures Snapshot() == ServerStep(old(Snapshot()), own) && accepted == Accepts(old(Snapshot()), own)
      ensures !accepted ==> Snapshot() == old(Snapshot())
    {
      hide Encode;
      if own !in stored || stored[own].uid != uid {
        return false;
      }
      stored := stored[own := stored[own].(status := status)];
      return true;
    }

    method ServeLabelPatch(own: NamespacedName, patch: LabelPatch) returns (accepted: bool)
      requires own in inflight && inflight[own].PatchingLabels?
      requires DiffLabels(inflight[own].current.labels, EncodeLabels(inflight[own].want.labels)) == patch
      modifies `stored
      ensures Snapshot() == ServerStep(old(Snapshot()), own) && accepted == Accepts(old(Snapshot()), own)
      ensures !accepted ==> Snapshot() == old(Snapshot())
      ensures accepted ==> own in stored
    {
      hide EncodeLabels, DiffLabels, PatchedLabels;
      if own !in stored {
        return false;
      }
      stored := stored[own := stored[own].(labels := PatchedLabels(stored[own].labels, patch))];
      return true;
    }

    method ServeStatusPatch(own: NamespacedName, patch: StatusPatch) returns (accepted: bool)
      requires own in inflight && inflight[own].PatchingStatus?
      requires PatchFrom(inflight[own].current.status, inflight[own].want.status) == patch
      modifies `stored
      ensures Snapshot() == ServerStep(old(Snapshot()), own) && accepted == Accepts(old(Snapshot()), own)
      ensures !accepted ==> Snapshot() == old(Snapshot())
    {
      hide PatchFrom, PatchedStatus, HasRequiredMembers;
      if own !in stored || (cluster.enforcesSchema && !SchemaAdmits(stored[own].status, patch)) {
        return false;
      }
      stored := stored[own := stored[own].(status := PatchedStatus(stored[own].status, patch))];
      return true;
    }

    /* ---------- Reads ---------- */

    /** A call that fails before it has any effect. */
    method Fail(own: NamespacedName)
      requires Valid() && own in inflight
      modifies this
      ensures GaveUp(own) && Continues()
    {
      hide Inv, RuleFor, IsRun, After, ServerStep, Advanced;
      ghost var before := Snapshot();
      GiveUp(own);
      Record(Fault(own, false), before);
    }

    method SecretExists(own: NamespacedName) returns (r: Result<bool, Failure>)
      requires Busy(own, Reading(None, []))
      modifies this
      ensures Continues()
      ensures match r case Err(_) => GaveUp(own) case Ok(present) => Busy(own, Reading(Some(present), []))
    {
      hide Inv, RuleFor, IsRun, After;
      ghost var before := Snapshot();
      var fate: Fate := *;
      if fate != Works {
        Fail(own);
        return Err(Failed);
      }
      var present := own in cluster.secrets;
      inflight := inflight[own := Reading(Some(present), [])];
      Record(Advance(own, []), before);
      return Ok(present);
    }

    /** One collector. */
    method Collect(own: NamespacedName, present: bool, ghost lists: seq<seq<Usage>>, source: Source)
      returns (r: Result<seq<Usage>, Failure>)
      requires Busy(own, Reading(Some(present), lists))
      requires |lists| < |Sources(config)| && source == Sources(config)[|lists|]
      modifies this
      ensures Continues()
      ensures match r case Err(_) => GaveUp(own) case Ok(items) => Busy(own, Reading(Some(present), lists + [items]))
    {
      hide RuleFor, IsRun, After, SourceUsages, Sources, KeyInv, ValidConfig, WellFormedPhase;
      ghost var before := Snapshot();
      var fate: Fate := *;
      if fate != Works {
        Fail(own);
        return Err(Failed);
      }
      var items := CollectFrom(config, cluster, source, own);
      inflight := inflight[own := Reading(inflight[own].present, inflight[own].lists + [items])];
      Record(Advance(own, items), before);
      return Ok(items);
    }

    method CollectUsages(own: NamespacedName, present: bool)
      returns (r: Result<seq<Usage>, Failure>, ghost lists: seq<seq<Usage>>)
      requires Busy(own, Reading(Some(present), []))
      modifies this
      ensures Continues()
      ensures match r
              case Err(_) => GaveUp(own)
              case Ok(usages) =>
                && Busy(own, Reading(Some(present), lists)) && |lists| == |Sources(config)|
                && usages == SortedUsages(Flatten(lists))
    {
      hide Inv, RuleFor, IsRun, After, Sources, UsageLess;
      var usages: seq<Usage> := [];
      lists := [];
      var sources := Sources(config);
      for i := 0 to |sources|
        invariant Busy(own, Reading(Some(present), lists)) && Continues()
        invariant |lists| == i && usages == Flatten(lists)
      {
        Interfere(own);
        var more := Collect(own, present, lists, sources[i]);
        if more.Err? {
          return Err(Failed), lists;
        }
        assert (lists + [more.value])[..|lists|] == lists;
        lists := lists + [more.value];
        usages := usages + more.value;
      }
      UsageOrder();
      var sorted := SortSlice(UsageLess, usages);
      SortIsCanonical(usages, sorted);
      return Ok(sorted), lists;
    }

    /* ---------- Decision ---------- */

    /** Shows the state of one Secret, and changes what is shown of no other. */
    method RecordSecretMetrics(key: NamespacedName, present: bool, total: nat, truncated: bool)
      modifies `secretReferences, `secretExists, `secretUsagesTruncated
      ensures SeriesAt(GaugeVectors(), key) ==
              if config.perSecretMetrics
              then Series(Some(total), Some(if present then 1 else 0), Some(if truncated then 1 else 0))
              else old(SeriesAt(GaugeVectors(), key))
      ensures forall other :: other != key ==> SeriesAt(GaugeVectors(), other) == old(SeriesAt(GaugeVectors(), other))
    {
      if !config.perSecretMetrics {
        return;
      }
      secretReferences := secretReferences[key := total];
      secretExists := secretExists[key := BoolToNumber(present)];
      secretUsagesTruncated := secretUsagesTruncated[key := BoolToNumber(truncated)];
    }

    /** Shows nothing more of one Secret, and changes what is shown of no other. */
    method ClearSecretMetrics(key: NamespacedName)
      modifies `secretReferences, `secretExists, `secretUsagesTruncated
      ensures SeriesAt(GaugeVectors(), key) ==
          if config.perSecretMetrics then NO_SERIES else old(SeriesAt(GaugeVectors(), key))
      ensures forall other :: other != key ==> SeriesAt(GaugeVectors(), other) == old(SeriesAt(GaugeVectors(), other))
    {
      if !config.perSecretMetrics {
        return;
      }
      secretReferences := secretReferences - {key};
      secretExists := secretExists - {key};
      secretUsagesTruncated := secretUsagesTruncated - {key};
    }

    /* ---------- Nothing to track ---------- */

    method DeleteSecretUsageIfPresent(own: NamespacedName) returns (ok: bool)
      requires Busy(own, Dropping)
      modifies this
      ensures Continues()
      ensures if ok then Valid() && own !in inflight else GaveUp(own)
    {
      hide Valid;
      Interfere(own);
      var found := GetToDelete(own);
      if found.Err? {
        return false;
      }
      if !found.value {
        return true;
      }
      Interfere(own);
      ok := Delete(own);
    }

    /** The Get before a Delete. With no object to delete, the gauges go at once. */
    method GetToDelete(own: NamespacedName) returns (r: Result<bool, Failure>)
      requires Busy(own, Dropping)
      modifies this
      ensures Continues()
      ensures match r
              case Err(_) => GaveUp(own)
              case Ok(found) => if found then Busy(own, Deleting) else Valid() && own !in inflight
    {
      hide Inv, RuleFor, IsRun, After, Enabled, Next, ServerStep, Protocol.ClearSecretMetrics, SeriesAt;
      ghost var before := Snapshot();
      CallOutcomes(before, own);
      var fate: Fate := *;
      if fate != Works {
        Fail(own);
        return Err(Failed);
      }
      if own !in stored {
        ClearSecretMetrics(own);
        ClearedGaugesAre(config, before.gauges, GaugeVectors(), own);
        inflight := inflight - {own};
        Record(Advance(own, []), before);
        return Ok(false);
      }
      inflight := inflight[own := Deleting];
      Record(Advance(own, []), before);
      return Ok(true);
    }

    /** The Delete, and after it the gauges. An object already gone is no error. */
    method Delete(own: NamespacedName) returns (ok: bool)
      requires Busy(own, Deleting)
      modifies this
      ensures Continues()
      ensures if ok then Valid() && own !in inflight else GaveUp(own)
    {
      hide Inv, RuleFor, IsRun, After, Enabled, Next, ServerStep, Protocol.ClearSecretMetrics, SeriesAt;
      ghost var before := Snapshot();
      CallOutcomes(before, own);
      var fate: Fate := *;
      if fate == FailsBefore {
        Fail(own);
        return false;
      }
      ServeDelete(own);
      if fate == FailsAfter {
        GiveUp(own);
        Record(Fault(own, true), before);
        return false;
      }
      ClearSecretMetrics(own);
      ClearedGaugesAre(config, before.gauges, GaugeVectors(), own);
      inflight := inflight - {own};
      Record(Advance(own, []), before);
      return true;
    }

    /* ---------- An object to keep ---------- */

    /** What a reconcile does next, once it has the object and knows its labels are right. */
    ghost predicate ToCompareStatus(own: NamespacedName, current: Document, want: SecretUsage)
      reads this
    {
      Valid() && Lookup(inflight, own) ==
        if Decode(current.status) == want.status then None else Some(PatchingStatus(current, want))
    }

    ghost predicate ToCompareLabels(own: NamespacedName, current: Document, want: SecretUsage)
      reads this
    {
      if DecodeLabels(current.labels) != want.labels then Busy(own, PatchingLabels(current, want))
      else ToCompareStatus(own, current, want)
    }

    method Get(own: NamespacedName, want: SecretUsage) returns (r: Result<Option<Document>, Failure>)
      requires Busy(own, Fetching(want))
      modifies this
      ensures Continues()
      ensures match r
              case Err(_) => GaveUp(own)
              case Ok(None) => Busy(own, Creating(want))
              case Ok(Some(current)) => ToCompareLabels(own, current, want)
    {
      hide Inv, RuleFor, IsRun, After, Enabled, Next, ServerStep, Decode, DecodeLabels;
      ghost var before := Snapshot();
      CallOutcomes(before, own);
      var fate: Fate := *;
      if fate != Works {
        Fail(own);
        return Err(Failed);
      }
      var current := Lookup(stored, own);
      if current.None? {
        inflight := inflight[own := Creating(want)];
      } else if DecodeLabels(current.value.labels) != want.labels {
        inflight := inflight[own := PatchingLabels(current.value, want)];
      } else if Decode(current.value.status) != want.status {
        inflight := inflight[own := PatchingStatus(current.value, want)];
      } else {
        inflight := inflight - {own};
      }
      Record(Advance(own, []), before);
      return Ok(current);
    }

    method Create(own: NamespacedName, want: SecretUsage) returns (r: Result<nat, Failure>)
      requires Busy(own, Creating(want))
      modifies this
      ensures Continues()
      ensures match r case Err(_) => GaveUp(own) case Ok(uid) => Busy(own, FillingStatus(want, uid))
    {
      hide Inv, RuleFor, IsRun, After, Enabled, Next, ServerStep, EncodeLabels;
      ghost var before := Snapshot();
      CallOutcomes(before, own);
      var fate: Fate := *;
      if fate == FailsBefore {
        Fail(own);
        return Err(Failed);
      }
      var uid := nextUid;
      var accepted := ServeCreate(own, EncodeLabels(want.labels));
      if !accepted {
        GiveUp(own);
        Record(Advance(own, []), before);
        return Err(Failed);
      }
      if fate == FailsAfter {
        GiveUp(own);
        Record(Fault(own, true), before);
        return Err(Failed);
      }
      inflight := inflight[own := FillingStatus(want, uid)];
      Record(Advance(own, []), before);
      return Ok(uid);
    }

    /** The status Update after a Create: refused if the object is no longer the one created. */
    method UpdateStatus(own: NamespacedName, want: SecretUsage, uid: nat) returns (ok: bool)
      requires Busy(own, FillingStatus(want, uid))
      modifies this
      ensures Continues()
      ensures if ok then Valid() && own !in inflight else GaveUp(own)
    {
      hide Inv, RuleFor, IsRun, After, Enabled, Next, ServerStep, Encode;
      ghost var before := Snapshot();
      CallOutcomes(before, own);
      var fate: Fate := *;
      if fate == FailsBefore {
        Fail(own);
        return false;
      }
      var accepted := ServeStatusUpdate(own, uid, Encode(want.status));
      if !accepted {
        GiveUp(own);
        Record(Advance(own, []), before);
        return false;
      }
      if fate == FailsAfter {
        GiveUp(own);
        Record(Fault(own, true), before);
        return false;
      }
      inflight := inflight - {own};
      Record(Advance(own, []), before);
      return true;
    }

    /** The label Patch. The answer is decoded over the object read, which keeps what the answer omits. */
    method PatchLabels(own: NamespacedName, current: Document, want: SecretUsage) returns (r: Result<Document, Failure>)
      requires Busy(own, PatchingLabels(current, want))
      modifies this
      ensures Continues()
      ensures match r case Err(_) => GaveUp(own) case Ok(answer) => ToCompareStatus(own, answer, want)
    {
      hide Inv, RuleFor, IsRun, After, Enabled, Next, ServerStep, Decode, EncodeLabels, DiffLabels, PatchedLabels,
           Overlay;
      ghost var before := Snapshot();
      CallOutcomes(before, own);
      var fate: Fate := *;
      if fate == FailsBefore {
        Fail(own);
        return Err(Failed);
      }
      var accepted := ServeLabelPatch(own, DiffLabels(current.labels, EncodeLabels(want.labels)));
      if !accepted {
        GiveUp(own);
        Record(Advance(own, []), before);
        return Err(Failed);
      }
      if fate == FailsAfter {
        GiveUp(own);
        Record(Fault(own, true), before);
        return Err(Failed);
      }
      var answer := AfterLabelPatch(current, stored[own]);
      if Decode(answer.status) != want.status {
        inflight := inflight[own := PatchingStatus(answer, want)];
      } else {
        inflight := inflight - {own};
      }
      Record(Advance(own, []), before);
      return Ok(answer);
    }

    method PatchStatus(own: NamespacedName, current: Document, want: SecretUsage) returns (ok: bool)
      requires Busy(own, PatchingStatus(current, want))
      modifies this
      ensures Continues()
      ensures if ok then Valid() && own !in inflight else GaveUp(own)
    {
      hide Inv, RuleFor, IsRun, After, Enabled, Next, ServerStep, PatchFrom, PatchedStatus;
      ghost var before := Snapshot();
      CallOutcomes(before, own);
      var fate: Fate := *;
      if fate == FailsBefore {
        Fail(own);
        return false;
      }
      var accepted := ServeStatusPatch(own, PatchFrom(current.status, want.status));
      if !accepted {
        GiveUp(own);
        Record(Advance(own, []), before);
        return false;
      }
      if fate == FailsAfter {
        GiveUp(own);
        Record(Fault(own, true), before);
        return false;
      }
      inflight := inflight - {own};
      Record(Advance(own, []), before);
      return true;
    }

    /* ---------- Reconcile ---------- */

    /**
     One reconcile. However the rest of the system moves between its calls, and whichever of
     them fail: it ends; on an error its key is queued again; and without one its key is
     settled, or marked for another reconcile because something changed meanwhile.
     */
    method Reconcile(own: NamespacedName) returns (ok: bool)
      requires Busy(own, Reading(None, []))
      modifies this
      ensures Valid() && Continues() && own !in inflight
      ensures !ok ==> own in dirty
      ensures ok ==> Converged(Snapshot(), own) || Marked(Snapshot(), own)
    {
      hide Inv, RuleFor, IsRun, After, Converged, Marked, Sources;
      Interfere(own);
      var found := SecretExists(own);
      if found.Err? {
        return false;
      }
      var present := found.value;
      var collected, lists := CollectUsages(own, present);
      if collected.Err? {
        return false;
      }
      ok := Settle(own, present, collected.value, lists);
      SettledOrMarked(own);
    }

    /** From complete reads: what is wanted, and the writes that lead there. */
    method Settle(own: NamespacedName, present: bool, allUsages: seq<Usage>, ghost lists: seq<seq<Usage>>)
      returns (ok: bool)
      requires Busy(own, Reading(Some(present), lists)) && |lists| == |Sources(config)|
      requires allUsages == SortedUsages(Flatten(lists))
      modifies this
      ensures Continues()
      ensures if ok then Valid() && own !in inflight else GaveUp(own)
    {
      hide Valid, Sources, SortedUsages, Flatten;
      var (usages, total, truncated) := Truncate(config, allUsages);
      if total == 0 && !(present && config.trackUnusedSecrets) {
        Drop(own, present, allUsages, lists);
        ok := DeleteSecretUsageIfPresent(own);
        return;
      }
      var want := Track(own, present, allUsages, usages, total, truncated, lists);
      ok := Write(own, want);
    }

    method Drop(own: NamespacedName, present: bool, allUsages: seq<Usage>, ghost lists: seq<seq<Usage>>)
      requires Busy(own, Reading(Some(present), lists)) && |lists| == |Sources(config)|
      requires allUsages == SortedUsages(Flatten(lists)) && Desired(config, own, present, allUsages).None?
      modifies this
      ensures Busy(own, Dropping) && Continues()
    {
      hide Inv, RuleFor, IsRun, After, Enabled, Next, Sources, SortedUsages, Flatten, Desired;
      ghost var before := Snapshot();
      DecisionOutcome(before, own, present, lists);
      inflight := inflight[own := Dropping];
      Record(Advance(own, []), before);
    }

    /** Sets the gauges and works out the object to keep. */
    method Track(own: NamespacedName, present: bool, allUsages: seq<Usage>, usages: seq<Usage>, total: nat,
        truncated: bool, ghost lists: seq<seq<Usage>>)
      returns (want: SecretUsage)
      requires Busy(own, Reading(Some(present), lists)) && |lists| == |Sources(config)|
      requires allUsages == SortedUsages(Flatten(lists)) && (usages, total, truncated) == Truncate(config, allUsages)
      requires !(total == 0 && !(present && config.trackUnusedSecrets))
      modifies this
      ensures Busy(own, Fetching(want)) && Continues()
    {
      hide Inv, RuleFor, IsRun, After, Enabled, Next, Sources, SortedUsages, Flatten, DesiredLabels, Int32,
           Protocol.RecordSecretMetrics, SeriesAt;
      ghost var before := Snapshot();
      DecisionOutcome(before, own, present, lists);
      RecordSecretMetrics(own, present, total, truncated);
      RecordedGaugesAre(config, before.gauges, GaugeVectors(), own, present, total, truncated);
      want := WantedFor(own, present, usages, total, truncated);
      WantedIsDesired(config, own, present, allUsages, want);
      hide Desired, Truncate;
      inflight := inflight[own := Fetching(want)];
      Record(Advance(own, []), before);
    }

    method WantedFor(own: NamespacedName, present: bool, usages: seq<Usage>, total: nat, truncated: bool)
      returns (want: SecretUsage)
      ensures want.labels == LabelsOf(DesiredLabels(own.name, present, total))
      ensures want.status == Status(own.name, present, Int32(total), truncated, SliceOf(usages))
    {
      hide DesiredLabels, Int32;
      var desiredStatus := Status(own.name, present, Int32(total), truncated, SliceOf(usages));
      var desiredLabels := DesiredLabelsFor(own.name, present, total);
      LabelsAreFixed(desiredLabels, own.name, present, total);
      want := SecretUsage(LabelsOf(desiredLabels), desiredStatus);
    }

    /** The second half of a reconcile: bring the stored object to what is wanted. */
    method Write(own: NamespacedName, want: SecretUsage) returns (ok: bool)
      requires Busy(own, Fetching(want))
      modifies this
      ensures Continues()
      ensures if ok then Valid() && own !in inflight else GaveUp(own)
    {
      hide Valid, Decode, DecodeLabels;
      Interfere(own);
      var got := Get(own, want);
      if got.Err? {
        return false;
      }
      if got.value.None? {
        ok := WriteNew(own, want);
      } else {
        ok := WriteOver(own, got.value.value, want);
      }
    }

    method WriteNew(own: NamespacedName, want: SecretUsage) returns (ok: bool)
      requires Busy(own, Creating(want))
      modifies this
      ensures Continues()
      ensures if ok then Valid() && own !in inflight else GaveUp(own)
    {
      hide Valid;
      Interfere(own);
      var created := Create(own, want);
      if created.Err? {
        return false;
      }
      Interfere(own);
      ok := UpdateStatus(own, want, created.value);
    }

    method WriteOver(own: NamespacedName, read: Document, want: SecretUsage) returns (ok: bool)
      requires ToCompareLabels(own, read, want)
      modifies this
      ensures Continues()
      ensures if ok then Valid() && own !in inflight else GaveUp(own)
    {
      hide Inv, RuleFor, IsRun, After, Decode, DecodeLabels;
      var current := read;
      if DecodeLabels(current.labels) != want.labels {
        Interfere(own);
        var patched := PatchLabels(own, current, want);
        if patched.Err? {
          return false;
        }
        current := patched.value;
      }
      if Decode(current.status) == want.status {
        return true;
      }
      Interfere(own);
      ok := PatchStatus(own, current, want);
    }

    lemma SettledOrMarked(own: NamespacedName)
      requires Valid() && own !in inflight
      ensures Converged(Snapshot(), own) || Marked(Snapshot(), own)
    {
      hide Converged, Marked, IsRun, After, Sane;
      assert KeyInv(Snapshot(), own);
    }

    /* ---------- Queue and events ---------- */

    /** A worker takes a key off the queue and reconciles it. */
    method ProcessNext(own: NamespacedName) returns (ok: bool)
      requires Valid() && own in dirty && own !in inflight
      modifies this
      ensures Valid() && Continues() && own !in inflight
      ensures !ok ==> own in dirty
      ensures ok ==> Converged(Snapshot(), own) || Marked(Snapshot(), own)
    {
      hide Inv, RuleFor, IsRun, After, Converged, Marked, Enabled, Next;
      ghost var before := Snapshot();
      DequeueOutcome(before, own);
      dirty := dirty - {own};
      inflight := inflight[own := Reading(None, [])];
      Record(Dequeue(own), before);
      ok := Reconcile(own);
    }

    /** The event handlers: an update enqueues for the object as it was and as it has become. */
    method HandleEvent(e: Event)
      requires Valid() && e in pending
      modifies this
      ensures Valid() && Continues()
      ensures Snapshot() == Next(old(Snapshot()), Deliver(e))
    {
      hide Inv, RuleFor, IsRun, After, MaybeKeys, Enabled, Next;
      ghost var before := Snapshot();
      DeliverOutcome(before, e);
      pending := pending - multiset{e};
      dirty := Enqueue(e);
      Record(Deliver(e), before);
    }

    method Enqueue(e: Event) returns (queued: set<NamespacedName>)
      requires forall gvk :: Lookup(rulesByGvk, gvk) == RuleFor(config.rules, gvk)
      ensures queued == dirty + EventKeys(config, e)
    {
      hide RuleFor, MaybeKeys;
      match e {
        case KeyEvent(key) =>
          queued := dirty + {key};
        case ObjectEvent(was, now) =>
          queued := EnqueueObjectSecretReferences(config, rulesByGvk, was, dirty);
          queued := EnqueueObjectSecretReferences(config, rulesByGvk, now, queued);
      }
    }
  }
}
