/**
 A whole run, from an empty store, that ends in a status which is neither zero nor the
 truncation of any list. Two ServiceAccounts reference a missing Secret and one entry may
 be recorded; then the Secret appears and a third ServiceAccount references it; and just
 before the status patch a user deletes the SecretUsage and creates it again. The patch
 carries the new count but not the list, which has not changed.

 The schema makes no difference to it: the patch carries both required members.
 */
module Recreation {
  import opened Wrappers
  import opened Ordering
  import opened Collections
  import opened Trees
  import opened FieldPaths
  import opened Objects
  import opened References
  import opened Extraction
  import opened Rules
  import opened Usages
  import opened Collection
  import opened Documents
  import opened Protocol
  import opened Convergence
  import opened Termination
  import opened Recovery
  import opened Truncation

  /* ---------- The objects ---------- */

  const KEY := NamespacedName("n", "s")

  /** At most one entry is recorded. */
  const CONFIG := Config(1, false, false, false, [])

  function Account(name: string): Resource {
    ServiceAccount(Metadata("n", name, "", []), [LocalReference("s")], [])
  }

  function TheReference(): Reference {
    Reference("s", Dot(Nth(Dot("", Secrets), 0), Name), "", "", None)
  }

  function Entry(name: string): Usage {
    ToUsage(Account(name), TheReference())
  }

  lemma AccountHasOneReference(name: string)
    ensures ReferencesOf(Account(name)) == [TheReference()]
  {
    hide Scanned, ScannedItems, Dot, Nth, ResourceTree, TheReference;
    var tree := ResourceTree(Account(name));
    AccountTree(name);
    ScannedNested("", Secrets, Each(REFERENCE_SHAPE), FROM_IMAGE_PULL_SECRETS, tree, "");
    ScannedOnly("", ImagePullSecrets, Each(REFERENCE_SHAPE), tree, "");
    OneSecretIsFound();
    NoPullSecretIsFound();
    DistinctKeysAreKept([TheReference()]);
  }

  lemma AccountTree(name: string)
    ensures Get(ResourceTree(Account(name)), Secrets) == Array([ReferenceTree(LocalReference("s"))])
    ensures Get(ResourceTree(Account(name)), ImagePullSecrets) == Array([])
  {
  }

  lemma OneSecretIsFound()
    ensures Scanned(Dot("", Secrets), Each(REFERENCE_SHAPE), Array([ReferenceTree(LocalReference("s"))]), "") ==
        [TheReference()]
  {
    hide Scanned, ScannedItems, Dot, Nth;
    var path, items := Dot("", Secrets), [ReferenceTree(LocalReference("s"))];
    ScannedEach(path, REFERENCE_SHAPE, items, "");
    ScannedNext(path, REFERENCE_SHAPE, items, 0, "");
    ScannedLocalReference(Nth(path, 0), LocalReference("s"));
  }

  lemma NoPullSecretIsFound()
    ensures Scanned(Dot("", ImagePullSecrets), Each(REFERENCE_SHAPE), Array([]), "") == []
  {
    hide Scanned, ScannedItems, Dot;
    ScannedEach(Dot("", ImagePullSecrets), REFERENCE_SHAPE, [], "");
  }

  lemma ReferenceNamesTheSecret()
    ensures TheReference().secretName == "s"
  {
  }

  lemma AccountContributesOneEntry(name: string)
    ensures Contribution(CONFIG, Account(name), KEY) == [Entry(name)]
  {
    hide ReferencesOf, ToUsage, TheReference;
    AccountHasOneReference(name);
    var r, refs := Account(name), [TheReference()];
    assert TheReference().secretName == "s" by {
      ReferenceNamesTheSecret();
    }
    assert TrackedReferences(CONFIG.rules, r) == refs;
    assert refs[..0] == [] && Select(r, [], "s") == [];
    assert Select(r, refs, "s") == Select(r, refs[..0], "s") + [ToUsage(r, refs[0])];
  }

  /** Names decide the order of the entries. */
  lemma EntriesInOrder(x: string, y: string)
    requires StringLess(x, y)
    ensures UsageLess(Entry(x), Entry(y))
  {
    hide StringLess, GroupVersionText, TheReference;
    var a, b := SortFields(Entry(x)), SortFields(Entry(y));
    StringOrder();
    assert a[0] == b[0] && a[1] == b[1] && a[2] == b[2] && a[3] == x && b[3] == y;
    LexAfterPrefix(a, b, 3);
  }

  /** Sequences that agree at first are ordered by the first place where they differ. */
  lemma {:induction false} LexAfterPrefix(a: seq<string>, b: seq<string>, n: nat)
    requires n < |a| && n < |b| && a[..n] == b[..n] && a[n] != b[n] && StringLess(a[n], b[n])
    ensures LexLess(StringLess, a, b)
  {
    hide StringLess;
    if n > 0 {
      assert a[0] == a[..n][0] == b[..n][0] == b[0];
      assert a[1..][..n - 1] == a[..n][1..] && b[1..][..n - 1] == b[..n][1..];
      LexAfterPrefix(a[1..], b[1..], n - 1);
    }
  }

  /* ---------- The cluster before and after ---------- */

  function IdOfAccount(name: string): ObjectId {
    ObjectId(ServiceAccountKind, "n", name)
  }

  function Before(enforced: bool): Cluster {
    Cluster({}, map[IdOfAccount("a") := Account("a"), IdOfAccount("b") := Account("b")], enforced)
  }

  function Later(enforced: bool): Cluster {
    Before(enforced).(secrets := {KEY}, objects := Before(enforced).objects[IdOfAccount("c") := Account("c")])
  }

  lemma FoundBefore(enforced: bool)
    ensures FullScan(CONFIG, Before(enforced), KEY) == {Entry("a"), Entry("b")}
  {
    hide Contribution, Entry;
    var c := Before(enforced);
    AccountContributesOneEntry("a");
    AccountContributesOneEntry("b");
    var found := FullScan(CONFIG, c, KEY);
    forall u ensures u in found <==> u in {Entry("a"), Entry("b")} {
      if u in found {
        var id :| id in c.objects && u in Contribution(CONFIG, c.objects[id], KEY);
        assert c.objects[id] in {Account("a"), Account("b")};
      }
      assert IdOfAccount("a") in c.objects && c.objects[IdOfAccount("a")] == Account("a");
      assert Entry("a") in Contribution(CONFIG, c.objects[IdOfAccount("a")], KEY);
      assert IdOfAccount("b") in c.objects && c.objects[IdOfAccount("b")] == Account("b");
      assert Entry("b") in Contribution(CONFIG, c.objects[IdOfAccount("b")], KEY);
    }
  }

  lemma FoundLater(enforced: bool)
    ensures FullScan(CONFIG, Later(enforced), KEY) == {Entry("a"), Entry("b"), Entry("c")}
  {
    hide Contribution, Entry;
    var c := Later(enforced);
    AccountContributesOneEntry("a");
    AccountContributesOneEntry("b");
    AccountContributesOneEntry("c");
    var found := FullScan(CONFIG, c, KEY);
    forall u ensures u in found <==> u in {Entry("a"), Entry("b"), Entry("c")} {
      if u in found {
        var id :| id in c.objects && u in Contribution(CONFIG, c.objects[id], KEY);
        assert c.objects[id] in {Account("a"), Account("b"), Account("c")};
      }
      assert IdOfAccount("a") in c.objects && c.objects[IdOfAccount("a")] == Account("a");
      assert Entry("a") in Contribution(CONFIG, c.objects[IdOfAccount("a")], KEY);
      assert IdOfAccount("b") in c.objects && c.objects[IdOfAccount("b")] == Account("b");
      assert Entry("b") in Contribution(CONFIG, c.objects[IdOfAccount("b")], KEY);
      assert IdOfAccount("c") in c.objects && c.objects[IdOfAccount("c")] == Account("c");
      assert Entry("c") in Contribution(CONFIG, c.objects[IdOfAccount("c")], KEY);
    }
  }

  /** The least entry comes first. */
  lemma LeastIsFirst(s: set<Usage>, least: Usage)
    requires least in s && forall u :: u in s && u != least ==> UsageLess(least, u)
    ensures |Canonical(s)| == |s| > 0 && Canonical(s)[0] == least
  {
    hide UsageLess, Canonical;
    UsageOrder();
    CanonicalFacts(s);
    var q := Canonical(s);
    assert least in Elements(q);
    var i :| 0 <= i < |q| && q[i] == least;
    assert q[0] in Elements(q);
    assert i != 0 ==> UsageLess(q[0], q[i]);
  }

  lemma NamesDiffer()
    ensures StringLess("a", "b") && StringLess("a", "c") && StringLess("b", "c")
  {
  }

  lemma ListBefore(enforced: bool)
    ensures var usages := Canonical(FullScan(CONFIG, Before(enforced), KEY)); |usages| == 2 && usages[0] == Entry("a")
  {
    hide UsageLess, Entry, StringLess, Canonical, FullScan;
    NamesDiffer();
    EntriesInOrder("a", "b");
    UsageOrder();
    FoundBefore(enforced);
    LeastIsFirst({Entry("a"), Entry("b")}, Entry("a"));
  }

  lemma ListLater(enforced: bool)
    ensures var usages := Canonical(FullScan(CONFIG, Later(enforced), KEY)); |usages| == 3 && usages[0] == Entry("a")
  {
    hide UsageLess, Entry, StringLess, Canonical, FullScan;
    NamesDiffer();
    EntriesInOrder("a", "b");
    EntriesInOrder("a", "c");
    EntriesInOrder("b", "c");
    UsageOrder();
    FoundLater(enforced);
    LeastIsFirst({Entry("a"), Entry("b"), Entry("c")}, Entry("a"));
  }

  /** The status recorded before, and the one wanted later: one list, two counts. */
  function StatusBefore(): Status {
    Status("s", false, 2, true, SliceOf([Entry("a")]))
  }

  function StatusLater(): Status {
    Status("s", true, 3, true, SliceOf([Entry("a")]))
  }

  lemma TargetBefore(s: State, enforced: bool)
    requires s.config == CONFIG && s.cluster == Before(enforced)
    ensures Target(s, KEY).Some? && Target(s, KEY).value.status == StatusBefore()
  {
    hide Canonical, FullScan, Entry, DesiredLabels;
    ListBefore(enforced);
    assert AllUsages(s, KEY)[..1] == [Entry("a")];
    Int32IsExact(2);
  }

  lemma TargetLater(s: State, enforced: bool)
    requires s.config == CONFIG && s.cluster == Later(enforced)
    ensures Target(s, KEY).Some? && Target(s, KEY).value.status == StatusLater()
  {
    hide Canonical, FullScan, Entry, DesiredLabels;
    ListLater(enforced);
    assert AllUsages(s, KEY)[..1] == [Entry("a")];
    Int32IsExact(3);
  }

  /* ---------- The run ---------- */

  /** A reconcile of an object whose status needs a patch can get as far as that patch. */
  lemma {:induction false} ReachesPatch(s: State, key: NamespacedName, d: StatusDoc) returns (run: seq<Action>)
    requires Sane(s) && key in s.inflight && NeedsPatch(s, key, d)
    requires Fresh(s, key, s.inflight[key]) && OnTheWayToPatch(s.inflight[key])
    ensures IsRun(s, run)
    ensures var s' := After(s, run);
            && key in s'.inflight && s'.inflight[key].PatchingStatus? && Fresh(s', key, s'.inflight[key])
            && NeedsPatch(s', key, d) && s'.config == s.config && s'.cluster == s.cluster
    decreases CallsLeft(s.config, s.inflight[key])
  {
    hide Sane, NeedsPatch, Fresh, Advanced, ListAnswer, CallsLeft;
    if s.inflight[key].PatchingStatus? {
      run := [];
    } else {
      var items := SomeAnswer(s, key);
      LeadsToPatch(s, key, items, d);
      AdvanceKeepsSane(s, key, items);
      AdvanceKeepsRest(s, key, items);
      SaneIsWellFormed(s, key);
      CallsShrink(s, key, items);
      var rest := ReachesPatch(Advanced(s, key, items), key, d);
      run := [Advance(key, items)] + rest;
      assert run[1..] == rest;
    }
  }

  lemma SaneIsWellFormed(s: State, key: NamespacedName)
    requires Sane(s) && key in s.inflight
    ensures WellFormedPhase(s.config, s.inflight[key])
  {
    hide WellFormedPhase, ValidConfig;
  }

  /** The controller at rest over the first cluster, with the status of two references on record. */
  lemma RestBefore(enforced: bool, nextUid: nat) returns (run: seq<Action>)
    ensures var start := Start(CONFIG, Before(enforced), map[], nextUid);
            && IsRun(start, run)
            && var s := After(start, run);
               && Inv(s) && Quiescent(s) && s.config == CONFIG && s.cluster == Before(enforced)
               && KEY in s.stored && Decode(s.stored[KEY].status) == StatusBefore()
  {
    hide Inv, IsRun, After, Start, Converged, Quiescent, Recoverable, AllFillable, AllQuiet, Before, StatusBefore;
    var start := Start(CONFIG, Before(enforced), map[], nextUid);
    BeforeIsValid(enforced);
    StartEstablishesInv(CONFIG, Before(enforced), map[], nextUid);
    StartIs(CONFIG, Before(enforced), map[], nextUid);
    EmptyIsRecoverable(enforced, nextUid);
    StartIsFillable(CONFIG, Before(enforced), map[], nextUid);
    run := ComesToRest(start);
    RunKeepsInv(start, run);
    QuietRunKeepsCluster(start, run);
    SettledBefore(After(start, run), enforced);
  }

  lemma BeforeIsValid(enforced: bool)
    ensures ValidConfig(CONFIG) && ValidCluster(Before(enforced))
  {
  }

  lemma EmptyIsRecoverable(enforced: bool, nextUid: nat)
    ensures Recoverable(CONFIG, Before(enforced), map[], nextUid)
  {
  }

  lemma SettledBefore(s: State, enforced: bool)
    requires Converged(s, KEY) && s.config == CONFIG && s.cluster == Before(enforced)
    ensures KEY in s.stored && Decode(s.stored[KEY].status) == StatusBefore()
  {
    hide Target, TargetSeries, SeriesAt, Entry, Before, Decode;
    TargetBefore(s, enforced);
  }

  lemma RunOfTwo(s: State, a: Action, b: Action)
    requires Enabled(s, a) && Enabled(Next(s, a), b)
    ensures IsRun(s, [a, b]) && After(s, [a, b]) == Next(Next(s, a), b)
  {
    hide Enabled, Next;
    var none: seq<Action> := [];
    RunGoesOn(s, none, a);
    RunGoesOn(s, none + [a], b);
    assert none + [a] + [b] == [a, b];
  }

  /** The Secret appears, and a third ServiceAccount. */
  lemma ClusterChanges(s: State, enforced: bool)
    requires s.cluster == Before(enforced)
    ensures var run := [AddSecret(KEY), PutObject(Account("c"))];
            && IsRun(s, run)
            && var s' := After(s, run);
               && s'.config == s.config && s'.cluster == Later(enforced) && s'.stored == s.stored
               && s'.inflight == s.inflight && KeyEvent(KEY) in s'.pending
  {
    hide IsRun, After;
    var c := Account("c");
    assert IdOf(c) == IdOfAccount("c");
    hide Account;
    RunOfTwo(s, AddSecret(KEY), PutObject(c));
    var s' := Next(Next(s, AddSecret(KEY)), PutObject(c));
    assert s'.cluster == Later(enforced);
  }

  /** A key with an event pending is queued and its reconcile begins. */
  lemma EventIsHandled(s: State, key: NamespacedName)
    requires KeyEvent(key) in s.pending && key !in s.inflight
    ensures var run := [Deliver(KeyEvent(key)), Dequeue(key)];
            && IsRun(s, run)
            && var s' := After(s, run);
               && s'.config == s.config && s'.cluster == s.cluster && s'.stored == s.stored
               && key in s'.inflight && s'.inflight[key] == Reading(None, [])
  {
    hide IsRun, After;
    RunOfTwo(s, Deliver(KeyEvent(key)), Dequeue(key));
  }

  /** The cluster changes, the key is queued, and its reconcile begins. */
  lemma Reopened(s: State, enforced: bool) returns (run: seq<Action>)
    requires Inv(s) && Quiescent(s) && s.config == CONFIG && s.cluster == Before(enforced)
    ensures IsRun(s, run)
    ensures var s' := After(s, run);
            && Inv(s') && s'.config == CONFIG && s'.cluster == Later(enforced) && s'.stored == s.stored
            && KEY in s'.inflight && s'.inflight[KEY] == Reading(None, [])
  {
    hide Inv, Account, IsRun, After, Before, Later;
    var changes, handling := [AddSecret(KEY), PutObject(Account("c"))], [Deliver(KeyEvent(KEY)), Dequeue(KEY)];
    ClusterChanges(s, enforced);
    EventIsHandled(After(s, changes), KEY);
    RunsJoin(s, changes, handling);
    run := changes + handling;
    RunKeepsInv(s, run);
  }

  /** From there to the status patch, with the new status wanted and the old one read. */
  lemma PatchPending(s: State, enforced: bool) returns (run: seq<Action>)
    requires Inv(s) && s.config == CONFIG && s.cluster == Later(enforced)
    requires KEY in s.inflight && s.inflight[KEY] == Reading(None, [])
    requires KEY in s.stored && Decode(s.stored[KEY].status) == StatusBefore()
    ensures IsRun(s, run)
    ensures var s' := After(s, run);
            && s'.config == CONFIG && s'.cluster == Later(enforced) && KEY in s'.stored
            && KEY in s'.inflight && s'.inflight[KEY].PatchingStatus?
            && Decode(s'.inflight[KEY].current.status) == StatusBefore() &&
                s'.inflight[KEY].want.status == StatusLater()
  {
    hide Inv, IsRun, After, Target, Later, Decode, Sane;
    var d := s.stored[KEY].status;
    TargetLater(s, enforced);
    InvIsSane(s);
    NothingReadIsFresh(s, KEY);
    run := ReachesPatch(s, KEY, d);
    TargetLater(After(s, run), enforced);
    PatchingKnows(After(s, run), d);
  }

  lemma PatchingKnows(s: State, d: StatusDoc)
    requires KEY in s.inflight && s.inflight[KEY].PatchingStatus? && Fresh(s, KEY, s.inflight[KEY])
    requires NeedsPatch(s, KEY, d)
    ensures s.inflight[KEY].current.status == d && Target(s, KEY) == Some(s.inflight[KEY].want)
  {
    hide Target, TargetSeries, SeriesAt, Decode;
  }

  /**
   The run. It ends with a count of three beside no entry and no truncation mark: neither
   zero nor the truncation of any list, whether or not the server enforces the schema.
   */
  lemma SomeRunBreaksTruncation(enforced: bool, nextUid: nat) returns (run: seq<Action>)
    ensures ValidConfig(CONFIG) && ValidCluster(Before(enforced))
    ensures var start := Start(CONFIG, Before(enforced), map[], nextUid);
            && IsRun(start, run)
            && var s := After(start, run);
               && KEY in s.stored
               && var st := Decode(s.stored[KEY].status);
                  && st.usageCount == 3 && RecordedItems(st) == [] && !st.truncated
                  && st != ZERO_STATUS && forall full :: !IsTruncationOf(s.config, st, full)
  {
    hide Inv, IsRun, After, Start, Decode, PatchFrom, PatchedStatus, Quiescent, Before, Later;
    BeforeIsValid(enforced);
    var start := Start(CONFIG, Before(enforced), map[], nextUid);
    var rest := RestBefore(enforced, nextUid);
    var reopened := Reopened(After(start, rest), enforced);
    RunsJoin(start, rest, reopened);
    var s := After(start, rest + reopened);
    var patching := PatchPending(s, enforced);
    RunsJoin(start, rest + reopened, patching);
    var s' := After(start, rest + reopened + patching);
    var last := [UserDeletes(KEY), UserCreates(KEY, map[]), Advance(KEY, [])];
    RecreatedAndPatched(s', KEY, map[]);
    RunsJoin(start, rest + reopened + patching, last);
    run := rest + reopened + patching + last;
    var current, want := s'.inflight[KEY].current.status, s'.inflight[KEY].want.status;
    PatchedNewStatus(current, want);
    CountWithoutList(After(start, run).config, Decode(After(start, run).stored[KEY].status));
  }

  lemma CountWithoutList(config: Config, st: Status)
    requires st.usageCount == 3 && RecordedItems(st) == [] && !st.truncated
    ensures st != ZERO_STATUS && forall full :: !IsTruncationOf(config, st, full)
  {
    hide UsageLess;
    forall full ensures !IsTruncationOf(config, st, full) {
      Int32IsExact(0);
    }
  }
}
