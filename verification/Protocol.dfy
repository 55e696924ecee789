/**
 The controller and its surroundings as a step system
 (internal/controller/secretusage_controller.go).

 The state holds the informer cache, the stored SecretUsage objects, the per-Secret
 gauges, the events not yet delivered, the work queue, and for every reconcile under way
 how far it has got and what it has read. An action is one atomic thing that can happen:
 a change made by someone else, the delivery of an event, the start of a reconcile, one
 of its API calls, or the failure of one.

 The work queue keeps its published contract: a key is never processed twice at once, a
 key added while it is processed stays dirty and is taken up again, and an error adds the
 key again. A changed object is in the cache before its event is delivered.
 */
module Protocol {
  import opened Wrappers
  import opened Collections
  import opened Objects
  import opened Usages
  import opened Collection
  import opened Documents

  /* ---------- Gauges ---------- */

  /** The three per-Secret gauge vectors, by label values. */
  datatype Gauges = Gauges(
    references: map<NamespacedName, int>,
    present: map<NamespacedName, int>,
    truncated: map<NamespacedName, int>)

  const NO_GAUGES := Gauges(map[], map[], map[])

  function BoolToNumber(b: bool): int {
    if b then 1 else 0
  }

  function RecordSecretMetrics(config: Config, g: Gauges, key: NamespacedName, present: bool, total: nat,
      truncated: bool): Gauges {
    if !config.perSecretMetrics then g
    else Gauges(g.references[key := total], g.present[key := BoolToNumber(present)],
        g.truncated[key := BoolToNumber(truncated)])
  }

  function ClearSecretMetrics(config: Config, g: Gauges, key: NamespacedName): Gauges {
    if !config.perSecretMetrics then g
    else Gauges(g.references - {key}, g.present - {key}, g.truncated - {key})
  }

  /** What the gauges show for one Secret. */
  datatype Series = Series(references: Option<int>, present: Option<int>, truncated: Option<int>)

  const NO_SERIES := Series(None, None, None)

  function SeriesAt(g: Gauges, key: NamespacedName): Series {
    Series(Lookup(g.references, key), Lookup(g.present, key), Lookup(g.truncated, key))
  }

  /* ---------- State ---------- */

  /** How far a reconcile has got: which call it makes next, and what it knows. */
  datatype Phase =
    | Reading(present: Option<bool>, lists: seq<seq<Usage>>)     // the existence check, then the list calls
    | Dropping                                                   // the Get before a delete
    | Deleting                                                   // the Delete
    | Fetching(want: SecretUsage)                                // the Get before a write
    | Creating(want: SecretUsage)                                // the Create
    | FillingStatus(want: SecretUsage, uid: nat)                 // the status Update after a Create
    | PatchingLabels(current: Document, want: SecretUsage)       // the label Patch
    | PatchingStatus(current: Document, want: SecretUsage)       // the status Patch

  datatype State = State(
    config: Config,
    cluster: Cluster,
    stored: map<NamespacedName, Document>,
    gauges: Gauges,
    pending: multiset<Event>,
    dirty: set<NamespacedName>,
    inflight: map<NamespacedName, Phase>,
    nextUid: nat)

  datatype Action =
    // The surroundings.
    | PutObject(object: Resource)
    | RemoveObject(id: ObjectId)
    | AddSecret(key: NamespacedName)
    | RemoveSecret(key: NamespacedName)
    | TouchSecret(key: NamespacedName)
    | UserCreates(key: NamespacedName, labels: map<string, string>)
    | UserDeletes(key: NamespacedName)
    | Restart(config: Config)
    // The controller.
    | Deliver(event: Event)
    | Dequeue(key: NamespacedName)
    | Advance(key: NamespacedName, items: seq<Usage>)   // the next call succeeds; `items` is what a list returns
    | Fault(key: NamespacedName, applied: bool)         // the next call fails, before or after taking effect

  function StartupEvents(cluster: Cluster, stored: map<NamespacedName, Document>): set<Event> {
    (set id | id in cluster.objects :: ObjectEvent(None, Some(cluster.objects[id])))
    + (set key | key in cluster.secrets + stored.Keys :: KeyEvent(key))
  }

  /** The controller just started: nothing queued, and a Create event for everything that exists. */
  function Start(config: Config, cluster: Cluster, stored: map<NamespacedName, Document>, nextUid: nat): State {
    State(config, cluster, stored, NO_GAUGES, multiset(StartupEvents(cluster, stored)), {}, map[], nextUid)
  }

  /* ---------- Steps ---------- */

  function SetPhase(s: State, key: NamespacedName, phase: Phase): State {
    s.(inflight := s.inflight[key := phase])
  }

  function Finish(s: State, key: NamespacedName): State {
    s.(inflight := s.inflight - {key})
  }

  function Requeue(s: State, key: NamespacedName): State {
    s.(inflight := s.inflight - {key}, dirty := s.dirty + {key})
  }

  function Emit(s: State, e: Event): State {
    s.(pending := s.pending + multiset{e})
  }

  function Changed(s: State, id: ObjectId, after: Option<Resource>): State {
    Emit(s.(cluster := WithObject(s.cluster, id, after)), ObjectEvent(Lookup(s.cluster.objects, id), after))
  }

  /** Whether the API server accepts the write that comes next. */
  predicate Accepts(s: State, key: NamespacedName)
    requires key in s.inflight
  {
    match s.inflight[key]
    case Creating(_) => key !in s.stored
    case FillingStatus(_, uid) => key in s.stored && s.stored[key].uid == uid
    case PatchingLabels(_, _) => key in s.stored
    case PatchingStatus(current, want) =>
      key in s.stored &&
      (s.cluster.enforcesSchema ==>
         SchemaAdmits(s.stored[key].status, PatchFrom(current.status, want.status)))
    case _ => true
  }

  /** The effect of an accepted write on the server and on the watch of SecretUsage objects. */
  function ServerStep(s: State, key: NamespacedName): State
    requires key in s.inflight
  {
    if !Accepts(s, key) then s
    else match s.inflight[key]
      case Deleting =>
        if key in s.stored then Emit(s.(stored := s.stored - {key}), KeyEvent(key)) else s
      case Creating(want) =>
        Emit(s.(stored := s.stored[key := Document(s.nextUid, EncodeLabels(want.labels), NO_STATUS)],
            nextUid := s.nextUid + 1),
             KeyEvent(key))
      case FillingStatus(want, _) =>
        s.(stored := s.stored[key := s.stored[key].(status := Encode(want.status))])
      case PatchingLabels(current, want) =>
        var patch := DiffLabels(current.labels, EncodeLabels(want.labels));
        s.(stored := s.stored[key := s.stored[key].(labels := PatchedLabels(s.stored[key].labels, patch))])
      case PatchingStatus(current, want) =>
        var patch := PatchFrom(current.status, want.status);
        s.(stored := s.stored[key := s.stored[key].(status := PatchedStatus(s.stored[key].status, patch))])
      case _ => s
  }

  /** From complete reads to a decision; a decision to keep an object also sets its gauges. */
  function Decide(s: State, key: NamespacedName, present: bool, usages: seq<Usage>): State {
    match Desired(s.config, key, present, usages)
    case None => SetPhase(s, key, Dropping)
    case Some(want) =>
      var gauges := RecordSecretMetrics(s.config, s.gauges, key, present, |usages|, want.status.truncated);
      SetPhase(s.(gauges := gauges), key, Fetching(want))
  }

  function Forget(s: State, key: NamespacedName): State {
    Finish(s.(gauges := ClearSecretMetrics(s.config, s.gauges, key)), key)
  }

  /** The object in memory after a label patch: the answer, its status decoded over the one read. */
  function AfterLabelPatch(read: Document, answer: Document): Document {
    answer.(status := Overlay(read.status, answer.status))
  }

  function CompareStatus(s: State, key: NamespacedName, current: Document, want: SecretUsage): State {
    if Decode(current.status) == want.status then Finish(s, key) else SetPhase(s, key, PatchingStatus(current, want))
  }

  function CompareLabels(s: State, key: NamespacedName, current: Document, want: SecretUsage): State {
    if DecodeLabels(current.labels) != want.labels then SetPhase(s, key, PatchingLabels(current, want))
    else CompareStatus(s, key, current, want)
  }

  /** One more call of the reconcile of `key`, answered without a fault. */
  function Advanced(s: State, key: NamespacedName, items: seq<Usage>): State
    requires key in s.inflight
  {
    match s.inflight[key]
    case Reading(None, _) => SetPhase(s, key, Reading(Some(key in s.cluster.secrets), []))
    case Reading(Some(present), lists) =>
      if |lists| < |Sources(s.config)| then SetPhase(s, key, Reading(Some(present), lists + [items]))
      else Decide(s, key, present, SortedUsages(Flatten(lists)))
    case Dropping => if key in s.stored then SetPhase(s, key, Deleting) else Forget(s, key)
    case Deleting => Forget(ServerStep(s, key), key)
    case Fetching(want) =>
      if key in s.stored then CompareLabels(s, key, s.stored[key], want) else SetPhase(s, key, Creating(want))
    case Creating(want) =>
      if Accepts(s, key) then SetPhase(ServerStep(s, key), key, FillingStatus(want, s.nextUid)) else Requeue(s, key)
    case FillingStatus(_, _) => if Accepts(s, key) then Finish(ServerStep(s, key), key) else Requeue(s, key)
    case PatchingLabels(current, want) =>
      if Accepts(s, key) then
        var s' := ServerStep(s, key);
        CompareStatus(s', key, AfterLabelPatch(current, s'.stored[key]), want)
      else Requeue(s, key)
    case PatchingStatus(_, _) => if Accepts(s, key) then Finish(ServerStep(s, key), key) else Requeue(s, key)
  }

  /** The list calls still answer from the cache: a list call returns every entry of its source once. */
  predicate ListAnswer(s: State, key: NamespacedName, items: seq<Usage>)
    requires key in s.inflight
  {
    match s.inflight[key]
    case Reading(Some(_), lists) =>
      |lists| < |Sources(s.config)| ==>
          Enumerates(items, SourceUsages(s.config, s.cluster, Sources(s.config)[|lists|], key))
    case _ => true
  }

  predicate Enabled(s: State, a: Action) {
    match a
    case PutObject(_) => true
    case RemoveObject(id) => id in s.cluster.objects
    case AddSecret(key) => key !in s.cluster.secrets
    case RemoveSecret(key) => key in s.cluster.secrets
    case TouchSecret(key) => key in s.cluster.secrets
    case UserCreates(key, _) => key !in s.stored
    case UserDeletes(key) => key in s.stored
    case Restart(config) => ValidConfig(config)
    case Deliver(e) => e in s.pending
    case Dequeue(key) => key in s.dirty && key !in s.inflight
    case Advance(key, items) => key in s.inflight && ListAnswer(s, key, items)
    case Fault(key, _) => key in s.inflight
  }

  function Next(s: State, a: Action): State
    requires Enabled(s, a)
  {
    match a
    case PutObject(r) => Changed(s, IdOf(r), Some(r))
    case RemoveObject(id) => Changed(s, id, None)
    case AddSecret(key) => Emit(s.(cluster := s.cluster.(secrets := s.cluster.secrets + {key})), KeyEvent(key))
    case RemoveSecret(key) => Emit(s.(cluster := s.cluster.(secrets := s.cluster.secrets - {key})), KeyEvent(key))
    case TouchSecret(key) => Emit(s, KeyEvent(key))
    case UserCreates(key, labels) =>
      Emit(s.(stored := s.stored[key := Document(s.nextUid, labels, NO_STATUS)], nextUid := s.nextUid + 1),
          KeyEvent(key))
    case UserDeletes(key) => Emit(s.(stored := s.stored - {key}), KeyEvent(key))
    case Restart(config) => Start(config, s.cluster, s.stored, s.nextUid)
    case Deliver(e) => s.(pending := s.pending - multiset{e}, dirty := s.dirty + EventKeys(s.config, e))
    case Dequeue(key) => SetPhase(s.(dirty := s.dirty - {key}), key, Reading(None, []))
    case Advance(key, items) => Advanced(s, key, items)
    case Fault(key, applied) => Requeue(if applied then ServerStep(s, key) else s, key)
  }

  /**
   What others may do at any time: put or remove any tracked object, add, remove or touch
   any Secret, create or delete a SecretUsage. Each is visible in the cache or the store at
   once, leaves every reconcile under way as it is, and leaves an event to deliver.
   */
  lemma OthersAreFree(s: State, r: Resource, id: ObjectId, key: NamespacedName, labels: map<string, string>)
    ensures Enabled(s, PutObject(r))
    ensures var s' := Next(s, PutObject(r));
            && s' == s.(cluster := s.cluster.(objects := s.cluster.objects[IdOf(r) := r]), pending := s'.pending)
            && ObjectEvent(Lookup(s.cluster.objects, IdOf(r)), Some(r)) in s'.pending
    ensures id in s.cluster.objects ==>
              && Enabled(s, RemoveObject(id))
              && var s' := Next(s, RemoveObject(id));
                 && s' == s.(cluster := s.cluster.(objects := s.cluster.objects - {id}), pending := s'.pending)
                 && ObjectEvent(Some(s.cluster.objects[id]), None) in s'.pending
    ensures key !in s.cluster.secrets ==>
              && Enabled(s, AddSecret(key))
              && var s' := Next(s, AddSecret(key));
                 && s' == s.(cluster := s.cluster.(secrets := s.cluster.secrets + {key}), pending := s'.pending)
                 && KeyEvent(key) in s'.pending
    ensures key in s.cluster.secrets ==>
              && Enabled(s, RemoveSecret(key)) && Enabled(s, TouchSecret(key))
              && var s' := Next(s, RemoveSecret(key));
                 && s' == s.(cluster := s.cluster.(secrets := s.cluster.secrets - {key}), pending := s'.pending)
                 && KeyEvent(key) in s'.pending
    ensures key !in s.stored ==>
              && Enabled(s, UserCreates(key, labels))
              && var s' := Next(s, UserCreates(key, labels));
                 && s'.stored == s.stored[key := Document(s.nextUid, labels, NO_STATUS)] && s'.cluster == s.cluster
                 && s'.inflight == s.inflight && s'.dirty == s.dirty && KeyEvent(key) in s'.pending
    ensures key in s.stored ==>
              && Enabled(s, UserDeletes(key))
              && var s' := Next(s, UserDeletes(key));
                 && s' == s.(stored := s.stored - {key}, pending := s'.pending) && KeyEvent(key) in s'.pending
  {
    hide Advanced, ListAnswer, ServerStep, EventKeys, StartupEvents;
  }

  /**
   Any call of any reconcile may fail, before or after taking effect; its key is queued
   again and no other touched.
   */
  lemma AnyCallMayFail(s: State, key: NamespacedName, applied: bool)
    requires key in s.inflight
    ensures Enabled(s, Fault(key, applied))
    ensures var s' := Next(s, Fault(key, applied));
            key !in s'.inflight && key in s'.dirty && (!applied ==> s'.stored == s.stored && s'.pending == s.pending)
  {
    hide Advanced, ListAnswer, ServerStep, EventKeys, StartupEvents;
  }

  /**
   No order is imposed on the controller: any undelivered event may be the next delivered,
   any dirty key not under way may be taken up beside those that are, any reconcile may make
   its next call, a list answering in any order, and a restart may come at any time.
   */
  lemma AnyStepMayBeNext(s: State, e: Event, key: NamespacedName, items: seq<Usage>, config: Config)
    ensures Enabled(s, Deliver(e)) <==> e in s.pending
    ensures Enabled(s, Dequeue(key)) <==> key in s.dirty && key !in s.inflight
    ensures Enabled(s, Restart(config)) <==> ValidConfig(config)
    ensures Enabled(s, Advance(key, items)) <==>
              && key in s.inflight
              && (s.inflight[key].Reading? && s.inflight[key].present.Some?
                  && |s.inflight[key].lists| < |Sources(s.config)| ==>
                    Enumerates(items,
                        SourceUsages(s.config, s.cluster, Sources(s.config)[|s.inflight[key].lists|], key)))
  {
    hide ValidConfig, Sources, SourceUsages, Enumerates;
  }

  /* ---------- Runs ---------- */

  ghost predicate IsRun(s: State, run: seq<Action>)
    decreases |run|
  {
    run == [] || (Enabled(s, run[0]) && IsRun(Next(s, run[0]), run[1..]))
  }

  ghost function After(s: State, run: seq<Action>): State
    requires IsRun(s, run)
    decreases |run|
  {
    if run == [] then s else After(Next(s, run[0]), run[1..])
  }

  /** A run goes on with any action enabled where it ends. */
  lemma {:induction false} RunGoesOn(s: State, run: seq<Action>, a: Action)
    requires IsRun(s, run) && Enabled(After(s, run), a)
    ensures IsRun(s, run + [a]) && After(s, run + [a]) == Next(After(s, run), a)
    decreases |run|
  {
    hide Enabled, Next;
    if run == [] {
      assert run + [a] == [a];
      assert [a][1..] == [];
    } else {
      assert (run + [a])[1..] == run[1..] + [a];
      RunGoesOn(Next(s, run[0]), run[1..], a);
    }
  }

  /** One run after another is a run. */
  lemma {:induction false} RunsJoin(s: State, first: seq<Action>, second: seq<Action>)
    requires IsRun(s, first) && IsRun(After(s, first), second)
    ensures IsRun(s, first + second) && After(s, first + second) == After(After(s, first), second)
    decreases |first|
  {
    hide Enabled, Next;
    if first == [] {
      assert first + second == second;
    } else {
      assert (first + second)[1..] == first[1..] + second;
      RunsJoin(Next(s, first[0]), first[1..], second);
    }
  }
}
