/**
 SecretUsage objects: what a reconcile wants one to be, how it is stored, and the JSON
 merge patches (RFC 7396, section 2) that move a stored object to the wanted one.

 The language tells a nil map or slice from an empty one, and the stored form does not:
 members that are empty are omitted, and come back nil. Both forms are modelled.
 */
module Documents {
  import opened Wrappers
  import opened Ordering
  import opened Collections
  import opened Usages
  import opened Collection

  /** A slice in memory. */
  datatype Slice<T> = NilSlice | SliceOf(items: seq<T>)

  /** A label map in memory. */
  datatype Labels = NilLabels | LabelsOf(entries: map<string, string>)

  datatype Status = Status(secretName: string, present: bool, usageCount: int, truncated: bool, usages: Slice<Usage>)

  datatype SecretUsage = SecretUsage(labels: Labels, status: Status)

  /** The stored status: a member is absent when it was omitted. */
  datatype StatusDoc = StatusDoc(
    secretName: Option<string>,
    present: Option<bool>,
    usageCount: Option<int>,
    truncated: Option<bool>,
    usages: Option<seq<Usage>>)

  /** A stored SecretUsage. The uid tells an object from one created later under the same name. */
  datatype Document = Document(uid: nat, labels: map<string, string>, status: StatusDoc)

  const NO_STATUS := StatusDoc(None, None, None, None, None)
  const ZERO_STATUS := Status("", false, 0, false, NilSlice)

  function Encode(s: Status): StatusDoc {
    StatusDoc(
      if s.secretName == "" then None else Some(s.secretName),
      Some(s.present),
      Some(s.usageCount),
      if s.truncated then Some(true) else None,
      if s.usages == NilSlice || s.usages.items == [] then None else Some(s.usages.items))
  }

  function OrElse<T>(o: Option<T>, default: T): T {
    match o case None => default case Some(v) => v
  }

  function Decode(d: StatusDoc): Status {
    Status(OrElse(d.secretName, ""), OrElse(d.present, false), OrElse(d.usageCount, 0), OrElse(d.truncated, false),
           match d.usages case None => NilSlice case Some(items) => if items == [] then NilSlice else SliceOf(items))
  }

  /** The status as it reads after being stored: an empty list has become nil. */
  function Normal(s: Status): Status {
    s.(usages := if s.usages == SliceOf([]) then NilSlice else s.usages)
  }

  lemma StoredStatusReadsBack(s: Status)
    ensures Decode(Encode(s)) == Normal(s)
    ensures Normal(Normal(s)) == Normal(s)
  {
  }

  function EncodeLabels(l: Labels): map<string, string> {
    match l case NilLabels => map[] case LabelsOf(m) => m
  }

  function DecodeLabels(m: map<string, string>): Labels {
    if m == map[] then NilLabels else LabelsOf(m)
  }

  /* ---------- Merge patches ---------- */

  datatype Change<T> = Keep | Remove | Put(value: T)

  function Diff<T(==)>(was: Option<T>, target: Option<T>): Change<T> {
    if was == target then Keep else match target case None => Remove case Some(v) => Put(v)
  }

  function Patched<T>(was: Option<T>, change: Change<T>): Option<T> {
    match change
    case Keep => was
    case Remove => None
    case Put(v) => Some(v)
  }

  /** A patch of the labels: a null for the whole map when the new one is empty, otherwise entry by entry. */
  datatype LabelPatch = DropAll | Merge(changes: map<string, Change<string>>)

  function DiffLabels(was: map<string, string>, target: map<string, string>): LabelPatch {
    if target == map[] && was != map[] then DropAll
    else Merge(map k | k in was.Keys + target.Keys &&
        Lookup(was, k) != Lookup(target, k) :: Diff(Lookup(was, k), Lookup(target, k)))
  }

  function ChangeAt(changes: map<string, Change<string>>, k: string): Change<string> {
    if k in changes then changes[k] else Keep
  }

  function PatchedLabels(was: map<string, string>, patch: LabelPatch): map<string, string> {
    match patch
    case DropAll => map[]
    case Merge(changes) =>
      map k | k in was.Keys + changes.Keys && Patched(Lookup(was, k), ChangeAt(changes, k)).Some?
        :: Patched(Lookup(was, k), ChangeAt(changes, k)).value
  }

  datatype StatusPatch = StatusPatch(
    secretName: Change<string>,
    present: Change<bool>,
    usageCount: Change<int>,
    truncated: Change<bool>,
    usages: Change<seq<Usage>>)

  const EMPTY_STATUS_PATCH := StatusPatch(Keep, Keep, Keep, Keep, Keep)
  const EMPTY_LABEL_PATCH := Merge(map[])

  function DiffStatus(was: StatusDoc, target: StatusDoc): StatusPatch {
    StatusPatch(Diff(was.secretName, target.secretName), Diff(was.present, target.present),
        Diff(was.usageCount, target.usageCount),
                Diff(was.truncated, target.truncated), Diff(was.usages, target.usages))
  }

  function PatchedStatus(was: StatusDoc, p: StatusPatch): StatusDoc {
    StatusDoc(Patched(was.secretName, p.secretName), Patched(was.present, p.present),
        Patched(was.usageCount, p.usageCount),
              Patched(was.truncated, p.truncated), Patched(was.usages, p.usages))
  }

  lemma PatchedLabelAt(was: map<string, string>, patch: LabelPatch, k: string)
    requires patch.Merge?
    ensures Lookup(PatchedLabels(was, patch), k) == Patched(Lookup(was, k), ChangeAt(patch.changes, k))
  {
  }

  /** The label patch computed from an object turns that object's labels into the wanted ones. */
  lemma LabelPatchArrives(was: map<string, string>, target: map<string, string>)
    ensures PatchedLabels(was, DiffLabels(was, target)) == target
    ensures DiffLabels(was, target) == EMPTY_LABEL_PATCH <==> was == target
  {
    var patch := DiffLabels(was, target);
    if patch.Merge? {
      forall k ensures Lookup(PatchedLabels(was, patch), k) == Lookup(target, k) {
        PatchedLabelAt(was, patch, k);
      }
      SameLookups(PatchedLabels(was, patch), target);
      if patch == EMPTY_LABEL_PATCH {
        forall k ensures Lookup(was, k) == Lookup(target, k) {
          assert k !in patch.changes;
        }
        SameLookups(was, target);
      }
    }
    if was == target {
      assert patch.changes == map[];
    }
  }

  lemma SameLookups<K, V>(a: map<K, V>, b: map<K, V>)
    requires forall k :: Lookup(a, k) == Lookup(b, k)
    ensures a == b
  {
    forall k ensures k in a <==> k in b {
      assert Lookup(a, k) == Lookup(b, k);
    }
    forall k | k in a ensures a[k] == b[k] {
      assert Lookup(a, k) == Lookup(b, k);
    }
  }

  /** The patch a reconcile computes: from the object as read, through memory, to the wanted status. */
  function PatchFrom(read: StatusDoc, want: Status): StatusPatch {
    DiffStatus(Encode(Decode(read)), Encode(want))
  }

  /** Sent to the object it was computed from, the patch makes the status read as wanted. */
  lemma StatusPatchArrives(d: StatusDoc, want: Status)
    ensures Decode(PatchedStatus(d, PatchFrom(d, want))) == Normal(want)
    ensures PatchFrom(d, want) == EMPTY_STATUS_PATCH <==> Decode(d) == Normal(want)
  {
  }

  /**
   The status in memory once the answer to a label patch is decoded over it: members the
   answer omits keep the value they had.
   */
  function Overlay(read: StatusDoc, answer: StatusDoc): StatusDoc {
    StatusDoc(
      if answer.secretName.Some? then answer.secretName else read.secretName,
      if answer.present.Some? then answer.present else read.present,
      if answer.usageCount.Some? then answer.usageCount else read.usageCount,
      if answer.truncated.Some? then answer.truncated else read.truncated,
      if answer.usages.Some? then answer.usages else read.usages)
  }

  /** An answer without a status leaves the one read as it was; one with every member takes its place. */
  lemma OverlayKeepsWhatIsOmitted(read: StatusDoc, answer: StatusDoc)
    ensures Overlay(read, NO_STATUS) == read
    ensures (&& answer.secretName.Some? && answer.present.Some? && answer.usageCount.Some?
             && answer.truncated.Some? && answer.usages.Some?) ==> Overlay(read, answer) == answer
    ensures Overlay(read, read) == read
  {
  }

  /** Members the patch leaves alone because the object as read already agreed on them. */
  predicate AgreesWhereKept(d: StatusDoc, read: StatusDoc, want: Status) {
    && (OrElse(read.secretName, "") == want.secretName ==> OrElse(d.secretName, "") == want.secretName)
    && (OrElse(read.present, false) == want.present ==> OrElse(d.present, false) == want.present)
    && (OrElse(read.usageCount, 0) == want.usageCount ==> OrElse(d.usageCount, 0) == want.usageCount)
    && (OrElse(read.truncated, false) == want.truncated ==> OrElse(d.truncated, false) == want.truncated)
    && (Decode(read).usages == Normal(want).usages ==> Decode(d).usages == Normal(want).usages)
  }

  /**
   Sent to a different object, created under the name after the read, the same patch makes
   the status read as wanted exactly when that object agrees on every member left alone.
   */
  lemma StalePatchArrivesExactly(d: StatusDoc, read: StatusDoc, want: Status)
    ensures Decode(PatchedStatus(d, PatchFrom(read, want))) == Normal(want) <==> AgreesWhereKept(d, read, want)
  {
  }

  /** So a patch computed before the object was deleted and made anew can leave entries with a count of zero. */
  lemma StalePatchCanContradictItself(name: string, earlier: Usage, now: Usage) returns (read: StatusDoc, want: Status)
    requires earlier != now
    ensures Decode(read) == Status(name, true, 1, false, SliceOf([earlier])) &&
        want == Status(name, true, 1, false, SliceOf([now]))
    ensures var after := Decode(PatchedStatus(NO_STATUS, PatchFrom(read, want)));
            after.usages == SliceOf([now]) && after.usageCount == 0
  {
    want := Status(name, true, 1, false, SliceOf([now]));
    read := Encode(Status(name, true, 1, false, SliceOf([earlier])));
    assert [earlier][0] != [now][0];
  }

  /** The members the CRD schema requires of a status. */
  predicate HasRequiredMembers(d: StatusDoc) {
    d.present.Some? && d.usageCount.Some?
  }

  /**
   What a server that enforces the schema accepts: a patch that changes nothing, or one that
   leaves every required member.
   */
  predicate SchemaAdmits(d: StatusDoc, patch: StatusPatch) {
    patch == EMPTY_STATUS_PATCH || HasRequiredMembers(PatchedStatus(d, patch))
  }

  /**
   A patch omits members equal to those read, and an absent member reads as zero. So the
   patched status has the members the schema requires exactly when each was there before
   or is wanted to be other than zero.
   */
  lemma RequiredMembersAfterPatch(d: StatusDoc, want: Status)
    ensures HasRequiredMembers(PatchedStatus(d, PatchFrom(d, want))) <==>
            (d.present.Some? || want.present) && (d.usageCount.Some? || want.usageCount != 0)
    ensures HasRequiredMembers(Encode(want))
  {
  }

  /** No patch a reconcile sends removes a required member. */
  lemma RequiredMembersStay(d: StatusDoc, read: StatusDoc, want: Status)
    requires HasRequiredMembers(d)
    ensures HasRequiredMembers(PatchedStatus(d, PatchFrom(read, want)))
  {
  }

  /** A status patch sent to a server that enforces the schema: refused, it changes nothing. */
  function EnforcedPatch(d: StatusDoc, want: Status): StatusDoc {
    if SchemaAdmits(d, PatchFrom(d, want)) then PatchedStatus(d, PatchFrom(d, want)) else d
  }

  /** One status patch after another, for whatever each reconcile in turn wants. */
  function EnforcedPatches(d: StatusDoc, wants: seq<Status>): StatusDoc {
    if wants == [] then d else EnforcedPatch(EnforcedPatches(d, wants[..|wants| - 1]), wants[|wants| - 1])
  }

  /**
   The source says that after a lost status write the next reconcile fills the status in.
   Where the schema is enforced, that is so exactly from the first reconcile on that finds
   the Secret present and referenced. Until then every status patch is refused: the status
   of an object for a missing or an unused Secret stays absent.
   */
  lemma {:induction false} LostStatusIsFilledExactly(wants: seq<Status>)
    ensures EnforcedPatches(NO_STATUS, wants) == NO_STATUS <==>
        forall w :: w in wants ==> !(w.present && w.usageCount != 0)
    ensures EnforcedPatches(NO_STATUS, wants) != NO_STATUS ==>
              HasRequiredMembers(EnforcedPatches(NO_STATUS, wants)) &&
                  Decode(EnforcedPatches(NO_STATUS, wants)) == Normal(wants[|wants| - 1])
  {
    if wants != [] {
      var init, last := wants[..|wants| - 1], wants[|wants| - 1];
      LostStatusIsFilledExactly(init);
      assert wants == init + [last];
      var d := EnforcedPatches(NO_STATUS, init);
      RequiredMembersAfterPatch(d, last);
      StatusPatchArrives(d, last);
      hide PatchFrom, PatchedStatus, Decode;
    }
  }

  /* ---------- What a reconcile wants ---------- */

  const DEFAULT_MAX_USAGES := 500

  function MaxUsages(config: Config): nat {
    if config.maxUsages > 0 then config.maxUsages else DEFAULT_MAX_USAGES
  }

  /** The entries to record, the true total, and whether the list was cut. */
  function Truncate(config: Config, usages: seq<Usage>): (seq<Usage>, nat, bool) {
    if |usages| <= MaxUsages(config) then (usages, |usages|, false)
    else (usages[..MaxUsages(config)], |usages|, true)
  }

  const TWO_TO_31 := 0x8000_0000
  const TWO_TO_32 := 0x1_0000_0000

  /** Conversion to a 32-bit signed integer. */
  function Int32(n: int): int {
    (n + TWO_TO_31) % TWO_TO_32 - TWO_TO_31
  }

  /** The count kept is the number modulo 2^32 within 32 signed bits, so the number itself exactly below 2^31. */
  lemma Int32IsExact(n: nat)
    ensures -0x8000_0000 <= Int32(n) < 0x8000_0000 && (n - Int32(n)) % 0x1_0000_0000 == 0
    ensures Int32(n) == n <==> n < 0x8000_0000
  {
  }

  predicate IsAlphanumeric(c: char) {
    'a' <= c <= 'z' || 'A' <= c <= 'Z' || '0' <= c <= '9'
  }

  /** A label value: at most 63 characters, alphanumeric at both ends, with '-', '_' and '.' inside. */
  predicate IsValidLabelValue(s: string) {
    s == "" ||
    (|s| <= 63 && IsAlphanumeric(s[0]) && IsAlphanumeric(s[|s| - 1]) &&
     forall i :: 0 <= i < |s| ==> IsAlphanumeric(s[i]) || s[i] in {'-', '_', '.'})
  }

  const SECRET_NAME_LABEL := "usage.secretusage.io/secret-name"
  const UNUSED_LABEL := "usage.secretusage.io/unused"
  const MISSING_LABEL := "usage.secretusage.io/missing"

  function DesiredLabels(secretName: string, present: bool, total: nat): map<string, string> {
    var named := if IsValidLabelValue(secretName) then map[SECRET_NAME_LABEL := secretName] else map[];
    var unused := if present && total == 0 then named[UNUSED_LABEL := "true"] else named;
    if !present && total > 0 then unused[MISSING_LABEL := "true"] else unused
  }

  /** Each label is present exactly under its condition, and never both conditions at once. */
  lemma LabelsClassify(secretName: string, present: bool, total: nat)
    ensures var labels := DesiredLabels(secretName, present, total);
            && (UNUSED_LABEL in labels <==> present && total == 0)
            && (MISSING_LABEL in labels <==> !present && total > 0)
            && (SECRET_NAME_LABEL in labels <==> IsValidLabelValue(secretName))
            && (SECRET_NAME_LABEL in labels ==> labels[SECRET_NAME_LABEL] == secretName)
            && (labels == map[] <==> !IsValidLabelValue(secretName) && (present <==> total > 0))
            && forall l :: l in labels ==>
                 || (l == SECRET_NAME_LABEL && labels[l] == secretName)
                 || (l in {UNUSED_LABEL, MISSING_LABEL} && labels[l] == "true")
  {
  }

  function DesiredStatus(config: Config, name: string, present: bool, usages: seq<Usage>): Status {
    var (recorded, total, truncated) := Truncate(config, usages);
    Status(name, present, Int32(total), truncated, SliceOf(recorded))
  }

  /** What one reconcile aims at, from what it read: nothing, or an object with labels and status. */
  function Desired(config: Config, key: NamespacedName, present: bool, usages: seq<Usage>): Option<SecretUsage> {
    if |usages| == 0 && !(present && config.trackUnusedSecrets) then None
    else Some(SecretUsage(LabelsOf(DesiredLabels(key.name, present, |usages|)),
        DesiredStatus(config, key.name, present, usages)))
  }

  /**
   What a status promises of the full list behind it: the least entries, as many as the
   configured limit allows, or 500 where none is configured, and the count of all of them.
   */
  lemma RecordedStatusIsLeastEntries(config: Config, name: string, present: bool, usages: seq<Usage>)
    requires StrictlyOrdered(UsageLess, usages)
    ensures var s := DesiredStatus(config, name, present, usages);
            && s.secretName == name && s.present == present
            && (s.usageCount == |usages| <==> |usages| < 0x8000_0000)
            && s.usages.SliceOf? && s.usages.items <= usages
            && (config.maxUsages > 0 ==>
                  && |s.usages.items| == (if |usages| <= config.maxUsages then |usages| else config.maxUsages)
                  && (s.truncated <==> |usages| > config.maxUsages))
            && (config.maxUsages <= 0 ==>
                  && |s.usages.items| == (if |usages| <= 500 then |usages| else 500)
                  && (s.truncated <==> |usages| > 500))
            && (forall kept, cut :: kept in s.usages.items && cut in usages && cut !in s.usages.items ==>
                UsageLess(kept, cut))
  {
    Int32IsExact(|usages|);
    var items := DesiredStatus(config, name, present, usages).usages.items;
    forall kept, cut | kept in items && cut in usages && cut !in items ensures UsageLess(kept, cut) {
      var i :| 0 <= i < |items| && items[i] == kept;
      var j :| 0 <= j < |usages| && usages[j] == cut;
      assert usages[i] == kept && items == usages[..|items|];
      assert cut !in usages[..|items|];
    }
  }

  /** A smaller cap records a prefix of what a larger cap records, and the same count; no cap is a cap of 500. */
  lemma SmallerCapRecordsPrefix(small: Config, large: Config, name: string, present: bool, usages: seq<Usage>)
    requires (if small.maxUsages > 0 then small.maxUsages else 500) <=
             (if large.maxUsages > 0 then large.maxUsages else 500)
    ensures var s, l := DesiredStatus(small, name, present, usages), DesiredStatus(large, name, present, usages);
            s.usages.items <= l.usages.items && s.usageCount == l.usageCount && (l.truncated ==> s.truncated)
  {
  }
}
