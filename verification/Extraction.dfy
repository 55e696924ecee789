/**
 The extractors: what an object's references are, and the methods that collect them
 (internal/controller/secret_refs.go). Each method is proved to produce exactly the
 references that scanning the object's JSON document by its shape gives, in that order.
 */
module Extraction {
  import opened Wrappers
  import opened FieldPaths
  import opened Trees
  import opened Objects
  import opened References
  import opened Collections

  /* ---------- References read off a document ---------- */

  function Dot(prefix: string, m: Member): string {
    prefix + PrintStep(Field(m))
  }

  function Nth(prefix: string, i: nat): string {
    prefix + PrintStep(Index(i))
  }

  /** The reference a slot stands for: none when the Secret name is empty. */
  function FromSlot(prefix: string, s: Slot): seq<Reference> {
    AppendReference([], Reference(s.name, prefix + PrintPath(s.path), s.container, s.key, s.optional))
  }

  function Printed(prefix: string, slots: seq<Slot>): seq<Reference> {
    if slots == [] then []
    else Printed(prefix, slots[..|slots| - 1]) + FromSlot(prefix, slots[|slots| - 1])
  }

  function Scanned(prefix: string, shape: Shape, t: Tree, owner: string): seq<Reference> {
    Printed(prefix, Scan(shape, t, owner))
  }

  function ScannedItems(prefix: string, item: Shape, items: seq<Tree>, n: nat, owner: string): seq<Reference>
    requires n <= |items|
  {
    Printed(prefix, ScanItems(item, items, n, owner))
  }

  lemma {:induction false} PrintedConcat(prefix: string, a: seq<Slot>, b: seq<Slot>)
    ensures Printed(prefix, a + b) == Printed(prefix, a) + Printed(prefix, b)
  {
    if b == [] {
      assert a + b == a;
    } else {
      var n := |b| - 1;
      assert (a + b)[..|a + b| - 1] == a + b[..n];
      PrintedConcat(prefix, a, b[..n]);
    }
  }

  lemma {:induction false} PrintedUnder(prefix: string, step: Step, slots: seq<Slot>)
    ensures Printed(prefix, Under(step, slots)) == Printed(prefix + PrintStep(step), slots)
  {
    hide PrintStep;
    if slots != [] {
      var n := |slots| - 1;
      assert Under(step, slots)[..n] == Under(step, slots[..n]);
      PrintedUnder(prefix, step, slots[..n]);
      var path := slots[n].path;
      assert ([step] + path)[1..] == path;
      assert prefix + (PrintStep(step) + PrintPath(path)) == prefix + PrintStep(step) + PrintPath(path);
    }
  }

  lemma ScannedNested(prefix: string, m: Member, inner: Shape, rest: Shape, t: Tree, owner: string)
    ensures Scanned(prefix, Nested(m, inner, rest), t, owner) ==
            Scanned(Dot(prefix, m), inner, Get(t, m), owner) + Scanned(prefix, rest, t, owner)
  {
    PrintedUnder(prefix, Field(m), Scan(inner, Get(t, m), owner));
    PrintedConcat(prefix, Under(Field(m), Scan(inner, Get(t, m), owner)), Scan(rest, t, owner));
  }

  lemma ScannedNext(prefix: string, item: Shape, items: seq<Tree>, n: nat, owner: string)
    requires n < |items|
    ensures ScannedItems(prefix, item, items, n + 1, owner) ==
            ScannedItems(prefix, item, items, n, owner) + Scanned(Nth(prefix, n), item, items[n], owner)
  {
    PrintedUnder(prefix, Index(n), Scan(item, items[n], owner));
    PrintedConcat(prefix, ScanItems(item, items, n, owner), Under(Index(n), Scan(item, items[n], owner)));
  }

  lemma ScannedLeaf(prefix: string, m: Member, t: Tree, owner: string)
    requires Get(t, m).Text?
    ensures Scanned(prefix, NamesSecret(m, Nothing), t, owner) ==
            AppendReference([],
                Reference(Get(t, m).text, Dot(prefix, m), owner, TextOf(Get(t, Key)), FlagOf(Get(t, Optional))))
  {
    var leaf := Leaf(m, t, owner);
    assert Scan(NamesSecret(m, Nothing), t, owner) == leaf;
    assert leaf[..0] == [];
    assert PrintPath([Field(m)]) == PrintStep(Field(m)) + PrintPath([Field(m)][1..]);
    assert PrintPath([Field(m)]) == PrintStep(Field(m));
    assert Printed(prefix, leaf) == Printed(prefix, leaf[..0]) + FromSlot(prefix, leaf[0]);
    assert Printed(prefix, leaf) == FromSlot(prefix, leaf[0]);
  }

  lemma ScannedNothing(prefix: string, t: Tree, owner: string)
    ensures Scanned(prefix, Nothing, t, owner) == []
  {
  }

  lemma ScannedEach(prefix: string, item: Shape, items: seq<Tree>, owner: string)
    ensures Scanned(prefix, Each(item), Array(items), owner) == ScannedItems(prefix, item, items, |items|, owner)
    ensures ScannedItems(prefix, item, items, 0, owner) == []
  {
  }

  lemma ScannedContainer(prefix: string, inner: Shape, t: Tree, owner: string)
    ensures Scanned(prefix, Container(inner), t, owner) == Scanned(prefix, inner, t, TextOf(Get(t, Name)))
  {
  }

  lemma ScannedOnly(prefix: string, m: Member, inner: Shape, t: Tree, owner: string)
    ensures Scanned(prefix, Nested(m, inner, Nothing), t, owner) == Scanned(Dot(prefix, m), inner, Get(t, m), owner)
  {
    ScannedNested(prefix, m, inner, Nothing, t, owner);
    ScannedNothing(prefix, t, owner);
  }

  lemma {:induction false} NothingInAbsent(prefix: string, shape: Shape, owner: string)
    ensures Scanned(prefix, shape, Absent, owner) == []
  {
    EmptyScan(shape, owner);
  }

  lemma {:induction false} EmptyScan(shape: Shape, owner: string)
    ensures Scan(shape, Absent, owner) == []
  {
    match shape
    case Nothing =>
    case NamesSecret(m, rest) => EmptyScan(rest, owner);
    case Nested(m, inner, rest) => EmptyScan(inner, owner); EmptyScan(rest, owner);
    case Each(item) =>
    case Container(inner) => EmptyScan(inner, TextOf(Absent));
  }

  /** A document holding a local reference contributes at most the one name in it. */
  function LocalReferenceAt(path: string, r: Option<LocalReference>): seq<Reference> {
    match r
    case None => []
    case Some(ref) => AppendReference([], Reference(ref.name, Dot(path, Name), "", "", None))
  }

  lemma ScannedLocalReference(path: string, r: LocalReference)
    ensures Scanned(path, REFERENCE_SHAPE, ReferenceTree(r), "") == LocalReferenceAt(path, Some(r))
  {
    hide Scanned, ScannedItems, Dot, Nth;
    ScannedLeaf(path, Name, ReferenceTree(r), "");
  }

  /** One volume source of the form `{member: {refMember: {name: ...}}}`. */
  lemma ScannedSource(path: string, m: Member, refMember: Member, r: Option<LocalReference>, rest: Shape, t: Tree)
    requires Get(Get(t, m), refMember) == Maybe(r, ReferenceTree)
    ensures Scanned(path, Nested(m, Nested(refMember, REFERENCE_SHAPE, Nothing), rest), t, "") ==
            LocalReferenceAt(Dot(Dot(path, m), refMember), r) + Scanned(path, rest, t, "")
  {
    hide Scanned, ScannedItems, Dot, Nth;
    ScannedNested(path, m, Nested(refMember, REFERENCE_SHAPE, Nothing), rest, t, "");
    ScannedOnly(Dot(path, m), refMember, REFERENCE_SHAPE, Get(t, m), "");
    match r
    case None => NothingInAbsent(Dot(Dot(path, m), refMember), REFERENCE_SHAPE, "");
    case Some(ref) => ScannedLocalReference(Dot(Dot(path, m), refMember), ref);
  }

  /* ---------- Volumes ---------- */

  function SecretRefOf(d: Option<DriverVolumeSource>): Option<LocalReference> {
    match d case None => None case Some(source) => source.secretRef
  }

  function NodePublishRefOf(c: Option<CSIVolumeSource>): Option<LocalReference> {
    match c case None => None case Some(source) => source.nodePublishSecretRef
  }

  lemma VolumeMembers(v: Volume)
    ensures var t := VolumeTree(v);
            && Get(t, Secret) == Maybe(v.secret, SecretVolumeTree)
            && Get(t, Projected) == (if v.projected.Some? then ProjectedTree(v.projected.value) else Absent)
            && Get(t, AzureFile) == Maybe(v.azureFile, AzureFileTree)
            && Get(Get(t, Csi), NodePublishSecretRef) == Maybe(NodePublishRefOf(v.csi), ReferenceTree)
  {
  }

  lemma VolumeDrivers(v: Volume)
    ensures var t := VolumeTree(v);
            && Get(t, Cephfs) == Maybe(v.cephfs, DriverTree)
            && Get(t, Cinder) == Maybe(v.cinder, DriverTree)
            && Get(t, FlexVolume) == Maybe(v.flexVolume, DriverTree)
            && Get(t, Iscsi) == Maybe(v.iscsi, DriverTree)
            && Get(t, Rbd) == Maybe(v.rbd, DriverTree)
            && Get(t, ScaleIO) == Maybe(v.scaleIO, DriverTree)
            && Get(t, Storageos) == Maybe(v.storageos, DriverTree)
  {
  }

  lemma ScannedSecretVolume(path: string, v: Volume)
    ensures Scanned(path, VOLUME_SHAPE, VolumeTree(v), "") ==
            (match v.secret
             case None => []
             case Some(s) =>
                 AppendReference([], Reference(s.secretName, Dot(Dot(path, Secret), SecretName), "", "", s.optional)))
            + Scanned(path, FROM_PROJECTED, VolumeTree(v), "")
  {
    hide Scanned, ScannedItems, Dot, Nth;
    ScannedNested(path, Secret, NamesSecret(SecretName, Nothing), FROM_PROJECTED, VolumeTree(v), "");
    match v.secret
    case None => NothingInAbsent(Dot(path, Secret), NamesSecret(SecretName, Nothing), "");
    case Some(s) => ScannedLeaf(Dot(path, Secret), SecretName, SecretVolumeTree(s), "");
  }

  lemma ScannedAzureFile(path: string, v: Volume)
    ensures Scanned(path, FROM_AZURE_FILE, VolumeTree(v), "") ==
            (match v.azureFile
             case None => []
             case Some(a) =>
                 AppendReference([], Reference(a.secretName, Dot(Dot(path, AzureFile), SecretName), "", "", None)))
            + Scanned(path, FROM_CEPHFS, VolumeTree(v), "")
  {
    hide Scanned, ScannedItems, Dot, Nth;
    ScannedNested(path, AzureFile, NamesSecret(SecretName, Nothing), FROM_CEPHFS, VolumeTree(v), "");
    match v.azureFile
    case None => NothingInAbsent(Dot(path, AzureFile), NamesSecret(SecretName, Nothing), "");
    case Some(a) => ScannedLeaf(Dot(path, AzureFile), SecretName, AzureFileTree(a), "");
  }

  lemma ScannedProjection(path: string, p: VolumeProjection)
    ensures Scanned(path, PROJECTION_SHAPE, ProjectionTree(p), "") ==
            match p.secret
            case None => []
            case Some(s) => AppendReference([], Reference(s.name, Dot(Dot(path, Secret), Name), "", "", s.optional))
  {
    hide Scanned, ScannedItems, Dot, Nth;
    ScannedOnly(path, Secret, REFERENCE_SHAPE, ProjectionTree(p), "");
    match p.secret
    case None => NothingInAbsent(Dot(path, Secret), REFERENCE_SHAPE, "");
    case Some(s) => ScannedLeaf(Dot(path, Secret), Name, SecretProjectionTree(s), "");
  }

  method ReferencesForProjected(projected: ProjectedVolumeSource, path: string) returns (refs: seq<Reference>)
    ensures refs == Scanned(path, PROJECTED_SHAPE, ProjectedTree(projected), "")
  {
    hide Scanned, ScannedItems, Dot, Nth;
    refs := [];
    ghost var items := ListOf(projected.sources, ProjectionTree).items;
    ScannedEach(Dot(path, Sources), PROJECTION_SHAPE, items, "");
    for j := 0 to |projected.sources|
      invariant refs == ScannedItems(Dot(path, Sources), PROJECTION_SHAPE, items, j, "")
    {
      var source := projected.sources[j];
      ScannedNext(Dot(path, Sources), PROJECTION_SHAPE, items, j, "");
      ScannedProjection(Nth(Dot(path, Sources), j), source);
      if source.secret.Some? {
        refs := AppendReference(refs, Reference(
          source.secret.value.name, Dot(Dot(Nth(Dot(path, Sources), j), Secret), Name), "", "",
              source.secret.value.optional));
      }
    }
    ScannedOnly(path, Sources, Each(PROJECTION_SHAPE), ProjectedTree(projected), "");
  }

  lemma DriverReference(d: Option<DriverVolumeSource>)
    ensures Get(Maybe(d, DriverTree), SecretRef) == Maybe(SecretRefOf(d), ReferenceTree)
  {
  }

  /** The nil test and append that the source repeats for each source holding a local reference. */
  method AppendLocalReference(refs: seq<Reference>, path: string, m: Member, refMember: Member,
      r: Option<LocalReference>,
                              ghost rest: Shape, ghost t: Tree)
    returns (out: seq<Reference>)
    requires Get(Get(t, m), refMember) == Maybe(r, ReferenceTree)
    ensures out + Scanned(path, rest, t, "") ==
            refs + Scanned(path, Nested(m, Nested(refMember, REFERENCE_SHAPE, Nothing), rest), t, "")
  {
    hide Scanned, ScannedItems, Dot, Nth;
    out := refs;
    if r.Some? {
      out := AppendReference(out, Reference(r.value.name, Dot(Dot(Dot(path, m), refMember), Name), "", "", None));
    }
    ScannedSource(path, m, refMember, r, rest, t);
  }

  method ReferencesForVolume(volume: Volume, path: string) returns (refs: seq<Reference>)
    ensures refs == Scanned(path, VOLUME_SHAPE, VolumeTree(volume), "")
  {
    hide Scanned, ScannedItems, Dot, Nth, VolumeTree, Maybe, Get;
    ghost var t := VolumeTree(volume);
    VolumeMembers(volume);
    refs := [];
    if volume.secret.Some? {
      refs := AppendReference(refs, Reference(
        volume.secret.value.secretName, Dot(Dot(path, Secret), SecretName), "", "", volume.secret.value.optional));
    }
    ScannedSecretVolume(path, volume);
    assert Scanned(path, VOLUME_SHAPE, t, "") == refs + Scanned(path, FROM_PROJECTED, t, "");

    ScannedNested(path, Projected, PROJECTED_SHAPE, FROM_CSI, t, "");
    if volume.projected.Some? {
      var sources := ReferencesForProjected(volume.projected.value, Dot(path, Projected));
      refs := refs + sources;
    } else {
      NothingInAbsent(Dot(path, Projected), PROJECTED_SHAPE, "");
    }
    assert Scanned(path, VOLUME_SHAPE, t, "") == refs + Scanned(path, FROM_CSI, t, "");

    refs := AppendLocalReference(refs, path, Csi, NodePublishSecretRef, NodePublishRefOf(volume.csi), FROM_AZURE_FILE,
        t);
    assert Scanned(path, VOLUME_SHAPE, t, "") == refs + Scanned(path, FROM_AZURE_FILE, t, "");

    ScannedAzureFile(path, volume);
    if volume.azureFile.Some? {
      refs := AppendReference(refs, Reference(
        volume.azureFile.value.secretName, Dot(Dot(path, AzureFile), SecretName), "", "", None));
    }
    assert Scanned(path, VOLUME_SHAPE, t, "") == refs + Scanned(path, FROM_CEPHFS, t, "");

    refs := AppendDrivers(refs, volume, path);
  }

  /** The in-tree storage drivers, which the source handles alike. */
  method AppendDriver(refs: seq<Reference>, path: string, m: Member, driver: Option<DriverVolumeSource>,
                      ghost rest: Shape, ghost t: Tree)
    returns (out: seq<Reference>)
    requires Get(t, m) == Maybe(driver, DriverTree)
    ensures out + Scanned(path, rest, t, "") == refs + Scanned(path, Nested(m, DRIVER_SHAPE, rest), t, "")
  {
    hide Scanned, ScannedItems, Dot, Nth;
    DriverReference(driver);
    out := AppendLocalReference(refs, path, m, SecretRef, SecretRefOf(driver), rest, t);
  }

  method AppendDrivers(refs: seq<Reference>, volume: Volume, path: string) returns (out: seq<Reference>)
    ensures out == refs + Scanned(path, FROM_CEPHFS, VolumeTree(volume), "")
  {
    hide Scanned, ScannedItems, Dot, Nth, VolumeTree, Maybe, Get;
    ghost var t := VolumeTree(volume);
    VolumeDrivers(volume);
    out := AppendDriver(refs, path, Cephfs, volume.cephfs, FROM_CINDER, t);
    out := AppendDriver(out, path, Cinder, volume.cinder, FROM_FLEX_VOLUME, t);
    out := AppendDriver(out, path, FlexVolume, volume.flexVolume, FROM_ISCSI, t);
    out := AppendDriver(out, path, Iscsi, volume.iscsi, FROM_RBD, t);
    out := AppendDriver(out, path, Rbd, volume.rbd, FROM_SCALE_IO, t);
    out := AppendDriver(out, path, ScaleIO, volume.scaleIO, FROM_STORAGEOS, t);
    out := AppendDriver(out, path, Storageos, volume.storageos, Nothing, t);
    ScannedNothing(path, t, "");
  }

  /* ---------- Containers ---------- */

  lemma ScannedEnv(path: string, e: EnvVar, owner: string)
    ensures Scanned(path, ENV_VAR_SHAPE, EnvVarTree(e), owner) ==
            if e.valueFrom.None? || e.valueFrom.value.secretKeyRef.None? then []
            else var s := e.valueFrom.value.secretKeyRef.value;
                 AppendReference([],
                     Reference(s.name, Dot(Dot(Dot(path, ValueFrom), SecretKeyRef), Name), owner, s.key, s.optional))
  {
    hide Scanned, ScannedItems, Dot, Nth;
    var inner := Nested(SecretKeyRef, REFERENCE_SHAPE, Nothing);
    ScannedOnly(path, ValueFrom, inner, EnvVarTree(e), owner);
    match e.valueFrom
    case None => NothingInAbsent(Dot(path, ValueFrom), inner, owner);
    case Some(source) =>
      var at := Dot(Dot(path, ValueFrom), SecretKeyRef);
      ScannedOnly(Dot(path, ValueFrom), SecretKeyRef, REFERENCE_SHAPE, EnvVarSourceTree(source), owner);
      match source.secretKeyRef
      case None => NothingInAbsent(at, REFERENCE_SHAPE, owner);
      case Some(s) => ScannedLeaf(at, Name, SecretKeyTree(s), owner);
  }

  lemma ScannedEnvFrom(path: string, e: EnvFromSource, owner: string)
    ensures Scanned(path, ENV_FROM_SHAPE, EnvFromTree(e), owner) ==
            match e.secretRef
            case None => []
            case Some(s) =>
                AppendReference([], Reference(s.name, Dot(Dot(path, SecretRef), Name), owner, "", s.optional))
  {
    hide Scanned, ScannedItems, Dot, Nth;
    ScannedOnly(path, SecretRef, REFERENCE_SHAPE, EnvFromTree(e), owner);
    match e.secretRef
    case None => NothingInAbsent(Dot(path, SecretRef), REFERENCE_SHAPE, owner);
    case Some(s) => ScannedLeaf(Dot(path, SecretRef), Name, SecretEnvTree(s), owner);
  }

  method ReferencesForContainer(containerName: string, envVars: seq<EnvVar>, envFromSources: seq<EnvFromSource>,
      prefix: string)
    returns (refs: seq<Reference>)
    ensures refs ==
        Scanned(prefix, CONTAINER_SHAPE, ContainerTree(PodContainer(containerName, envVars, envFromSources)), "")
  {
    hide Scanned, ScannedItems, Dot, Nth;
    ghost var t := ContainerTree(PodContainer(containerName, envVars, envFromSources));
    ghost var vars := ListOf(envVars, EnvVarTree).items;
    ghost var froms := ListOf(envFromSources, EnvFromTree).items;
    ScannedContainer(prefix, CONTAINER_SHAPE.inner, t, "");
    ScannedNested(prefix, Env, Each(ENV_VAR_SHAPE), ENV_FROM_REST, t, containerName);
    ScannedEach(Dot(prefix, Env), ENV_VAR_SHAPE, vars, containerName);
    ScannedEach(Dot(prefix, EnvFrom), ENV_FROM_SHAPE, froms, containerName);
    ScannedOnly(prefix, EnvFrom, Each(ENV_FROM_SHAPE), t, containerName);

    refs := [];
    for i := 0 to |envVars|
      invariant refs == ScannedItems(Dot(prefix, Env), ENV_VAR_SHAPE, vars, i, containerName)
    {
      var env := envVars[i];
      ScannedNext(Dot(prefix, Env), ENV_VAR_SHAPE, vars, i, containerName);
      ScannedEnv(Nth(Dot(prefix, Env), i), env, containerName);
      if env.valueFrom.Some? && env.valueFrom.value.secretKeyRef.Some? {
        var s := env.valueFrom.value.secretKeyRef.value;
        refs := AppendReference(refs, Reference(
          s.name, Dot(Dot(Dot(Nth(Dot(prefix, Env), i), ValueFrom), SecretKeyRef), Name), containerName, s.key,
              s.optional));
      }
    }
    ghost var before := refs;
    for i := 0 to |envFromSources|
      invariant refs == before + ScannedItems(Dot(prefix, EnvFrom), ENV_FROM_SHAPE, froms, i, containerName)
    {
      var envFrom := envFromSources[i];
      ScannedNext(Dot(prefix, EnvFrom), ENV_FROM_SHAPE, froms, i, containerName);
      ScannedEnvFrom(Nth(Dot(prefix, EnvFrom), i), envFrom, containerName);
      if envFrom.secretRef.Some? {
        var s := envFrom.secretRef.value;
        refs := AppendReference(refs, Reference(
          s.name, Dot(Dot(Nth(Dot(prefix, EnvFrom), i), SecretRef), Name), containerName, "", s.optional));
      }
    }
  }

  /* ---------- Pod specifications ---------- */

  method ReferencesForPullSecrets(pulls: seq<LocalReference>, path: string) returns (refs: seq<Reference>)
    ensures refs == Scanned(path, Each(REFERENCE_SHAPE), ListOf(pulls, ReferenceTree), "")
  {
    hide Scanned, ScannedItems, Dot, Nth;
    ghost var items := ListOf(pulls, ReferenceTree).items;
    ScannedEach(path, REFERENCE_SHAPE, items, "");
    refs := [];
    for i := 0 to |pulls|
      invariant refs == ScannedItems(path, REFERENCE_SHAPE, items, i, "")
    {
      ScannedNext(path, REFERENCE_SHAPE, items, i, "");
      ScannedLocalReference(Nth(path, i), pulls[i]);
      refs := AppendReference(refs, Reference(pulls[i].name, Dot(Nth(path, i), Name), "", "", None));
    }
  }

  method ReferencesForContainers(containers: seq<PodContainer>, path: string) returns (refs: seq<Reference>)
    ensures refs == Scanned(path, Each(CONTAINER_SHAPE), ListOf(containers, ContainerTree), "")
  {
    hide Scanned, ScannedItems, Dot, Nth;
    ghost var items := ListOf(containers, ContainerTree).items;
    ScannedEach(path, CONTAINER_SHAPE, items, "");
    refs := [];
    for i := 0 to |containers|
      invariant refs == ScannedItems(path, CONTAINER_SHAPE, items, i, "")
    {
      var c := containers[i];
      ScannedNext(path, CONTAINER_SHAPE, items, i, "");
      var more := ReferencesForContainer(c.name, c.env, c.envFrom, Nth(path, i));
      refs := refs + more;
    }
  }

  method ReferencesForVolumes(volumes: seq<Volume>, path: string) returns (refs: seq<Reference>)
    ensures refs == Scanned(path, Each(VOLUME_SHAPE), ListOf(volumes, VolumeTree), "")
  {
    hide Scanned, ScannedItems, Dot, Nth;
    ghost var items := ListOf(volumes, VolumeTree).items;
    ScannedEach(path, VOLUME_SHAPE, items, "");
    refs := [];
    for i := 0 to |volumes|
      invariant refs == ScannedItems(path, VOLUME_SHAPE, items, i, "")
    {
      ScannedNext(path, VOLUME_SHAPE, items, i, "");
      var more := ReferencesForVolume(volumes[i], Nth(path, i));
      refs := refs + more;
    }
  }

  method ReferencesForPodSpec(spec: PodSpec, prefix: string) returns (refs: seq<Reference>)
    ensures refs == Dedupe(Scanned(prefix, POD_SPEC_SHAPE, PodSpecTree(spec), ""))
  {
    hide Scanned, ScannedItems, Dot, Nth;
    ghost var t := PodSpecTree(spec);
    ScannedNested(prefix, ImagePullSecrets, Each(REFERENCE_SHAPE), FROM_VOLUMES, t, "");
    ScannedNested(prefix, Volumes, Each(VOLUME_SHAPE), FROM_INIT_CONTAINERS, t, "");
    ScannedNested(prefix, InitContainers, Each(CONTAINER_SHAPE), FROM_CONTAINERS, t, "");
    ScannedNested(prefix, Containers, Each(CONTAINER_SHAPE), FROM_EPHEMERAL_CONTAINERS, t, "");
    ScannedOnly(prefix, EphemeralContainers, Each(CONTAINER_SHAPE), t, "");

    var pulls := ReferencesForPullSecrets(spec.imagePullSecrets, Dot(prefix, ImagePullSecrets));
    var volumes := ReferencesForVolumes(spec.volumes, Dot(prefix, Volumes));
    var inits := ReferencesForContainers(spec.initContainers, Dot(prefix, InitContainers));
    var mains := ReferencesForContainers(spec.containers, Dot(prefix, Containers));
    var debuggers := ReferencesForContainers(spec.ephemeralContainers, Dot(prefix, EphemeralContainers));
    var all := pulls + volumes + inits + mains + debuggers;
    assert all == Scanned(prefix, POD_SPEC_SHAPE, t, "");
    refs := DedupeReferences(all);
  }

  /* ---------- Whole objects ---------- */

  /** The references of a built-in object: its document scanned by the shape of its kind. */
  function ReferencesOf(r: Resource): seq<Reference> {
    Dedupe(Scanned("", ShapeOf(KindOf(r)), ResourceTree(r), ""))
  }

  method ReferencesForServiceAccount(sa: Resource) returns (refs: seq<Reference>)
    requires sa.ServiceAccount?
    ensures refs == ReferencesOf(sa)
  {
    hide Scanned, ScannedItems, Dot, Nth;
    var named := ReferencesForPullSecrets(sa.secrets, Dot("", Secrets));
    var pulls := ReferencesForPullSecrets(sa.imagePullSecrets, Dot("", ImagePullSecrets));
    refs := DedupeReferences(named + pulls);
    ScannedNested("", Secrets, Each(REFERENCE_SHAPE), FROM_IMAGE_PULL_SECRETS, ResourceTree(sa), "");
    ScannedOnly("", ImagePullSecrets, Each(REFERENCE_SHAPE), ResourceTree(sa), "");
  }

  method ReferencesForTLS(tls: seq<IngressTLS>, path: string) returns (refs: seq<Reference>)
    ensures refs == Scanned(path, Each(NamesSecret(SecretName, Nothing)), ListOf(tls, TLSTree), "")
  {
    hide Scanned, ScannedItems, Dot, Nth;
    ghost var item := NamesSecret(SecretName, Nothing);
    ghost var items := ListOf(tls, TLSTree).items;
    ScannedEach(path, item, items, "");
    refs := [];
    for i := 0 to |tls|
      invariant refs == ScannedItems(path, item, items, i, "")
    {
      ScannedNext(path, item, items, i, "");
      ScannedLeaf(Nth(path, i), SecretName, TLSTree(tls[i]), "");
      refs := AppendReference(refs, Reference(tls[i].secretName, Dot(Nth(path, i), SecretName), "", "", None));
    }
  }

  method ReferencesForIngress(ingress: Resource) returns (refs: seq<Reference>)
    requires ingress.Ingress?
    ensures refs == ReferencesOf(ingress)
  {
    hide Scanned, ScannedItems, Dot, Nth;
    var found := ReferencesForTLS(ingress.tls, Dot(Dot("", Spec), Tls));
    ghost var inner := Nested(Tls, Each(NamesSecret(SecretName, Nothing)), Nothing);
    ScannedOnly("", Spec, inner, ResourceTree(ingress), "");
    ScannedOnly(Dot("", Spec), Tls, Each(NamesSecret(SecretName, Nothing)), Get(ResourceTree(ingress), Spec), "");
    refs := DedupeReferences(found);
  }

  lemma ScannedSpec(prefix: string, spec: PodSpec)
    ensures Scanned(prefix, Nested(Spec, POD_SPEC_SHAPE, Nothing), TemplateTree(spec), "") ==
            Scanned(Dot(prefix, Spec), POD_SPEC_SHAPE, PodSpecTree(spec), "")
  {
    hide Scanned, ScannedItems, Dot, Nth;
    ScannedOnly(prefix, Spec, POD_SPEC_SHAPE, TemplateTree(spec), "");
  }

  lemma ScannedTemplate(prefix: string, template: Option<PodSpec>)
    ensures Scanned(prefix, TEMPLATED_SHAPE,
        Record(map[Spec := Record(map[Template := Maybe(template, TemplateTree)])]), "") ==
            match template
            case None => []
            case Some(spec) =>
                Scanned(Dot(Dot(Dot(prefix, Spec), Template), Spec), POD_SPEC_SHAPE, PodSpecTree(spec), "")
  {
    hide Scanned, ScannedItems, Dot, Nth;
    var inner := Record(map[Template := Maybe(template, TemplateTree)]);
    var shape := Nested(Spec, POD_SPEC_SHAPE, Nothing);
    ScannedOnly(prefix, Spec, Nested(Template, shape, Nothing), Record(map[Spec := inner]), "");
    ScannedOnly(Dot(prefix, Spec), Template, shape, inner, "");
    match template
    case None => NothingInAbsent(Dot(Dot(prefix, Spec), Template), shape, "");
    case Some(spec) => ScannedSpec(Dot(Dot(prefix, Spec), Template), spec);
  }

  method ReferencesForTemplate(spec: PodSpec) returns (refs: seq<Reference>)
    ensures refs ==
        Dedupe(Scanned("", TEMPLATED_SHAPE, Record(map[Spec := Record(map[Template := TemplateTree(spec)])]), ""))
  {
    hide Scanned, ScannedItems, Dot, Nth;
    ScannedTemplate("", Some(spec));
    assert Maybe(Some(spec), TemplateTree) == TemplateTree(spec);
    refs := ReferencesForPodSpec(spec, Dot(Dot(Dot("", Spec), Template), Spec));
  }

  method ReferencesForPod(r: Resource) returns (refs: seq<Reference>)
    requires r.Pod?
    ensures refs == ReferencesOf(r)
  {
    hide Scanned, ScannedItems, Dot, Nth;
    ScannedSpec("", r.spec);
    refs := ReferencesForPodSpec(r.spec, Dot("", Spec));
  }

  method ReferencesForCronJob(r: Resource) returns (refs: seq<Reference>)
    requires r.CronJob?
    ensures refs == ReferencesOf(r)
  {
    hide Scanned, ScannedItems, Dot, Nth;
    ghost var inner := Get(ResourceTree(r), Spec);
    ScannedOnly("", Spec, Nested(JobTemplate, TEMPLATED_SHAPE, Nothing), ResourceTree(r), "");
    ScannedOnly(Dot("", Spec), JobTemplate, TEMPLATED_SHAPE, inner, "");
    ScannedTemplate(Dot(Dot("", Spec), JobTemplate), Some(r.spec));
    refs := ReferencesForPodSpec(r.spec, Dot(Dot(Dot(Dot(Dot("", Spec), JobTemplate), Spec), Template), Spec));
  }

  method ReferencesForReplicationController(r: Resource) returns (refs: seq<Reference>)
    requires r.ReplicationController?
    ensures refs == ReferencesOf(r)
  {
    hide Scanned, ScannedItems, Dot, Nth;
    ScannedTemplate("", r.podTemplate);
    if r.podTemplate.None? {
      return [];
    }
    refs := ReferencesForPodSpec(r.podTemplate.value, Dot(Dot(Dot("", Spec), Template), Spec));
  }

  /** The type switch over the tracked kinds; a custom resource has no built-in references. */
  method ReferencesForObject(r: Resource) returns (refs: seq<Reference>)
    ensures refs == ReferencesOf(r)
  {
    hide Scanned;
    match r
    case Pod(_, _) => refs := ReferencesForPod(r);
    case Deployment(_, spec) => refs := ReferencesForTemplate(spec);
    case StatefulSet(_, spec) => refs := ReferencesForTemplate(spec);
    case DaemonSet(_, spec) => refs := ReferencesForTemplate(spec);
    case ReplicaSet(_, spec) => refs := ReferencesForTemplate(spec);
    case Job(_, spec) => refs := ReferencesForTemplate(spec);
    case CronJob(_, _) => refs := ReferencesForCronJob(r);
    case ReplicationController(_, _) => refs := ReferencesForReplicationController(r);
    case ServiceAccount(_, _, _) => refs := ReferencesForServiceAccount(r);
    case Ingress(_, _) => refs := ReferencesForIngress(r);
    case Custom(_, _, _) =>
      ScannedNothing("", Absent, "");
      refs := [];
  }

  /* ---------- Field paths lead back to the fields ---------- */

  function ScannedOf(r: Resource): seq<Reference> {
    Scanned("", ShapeOf(KindOf(r)), ResourceTree(r), "")
  }

  /** No NUL in a container name or key the object mentions beside a Secret name. */
  predicate PlainNames(r: Resource) {
    forall ref :: ref in ScannedOf(r) ==> NUL !in ref.container && NUL !in ref.key
  }

  /** The non-empty Secret name a built-in object holds at a tracked path, if any. */
  ghost predicate NamesSecretAt(r: Resource, path: Path, name: string) {
    Tracks(ShapeOf(KindOf(r)), path) && Follow(ResourceTree(r), path) == Text(name) && name != ""
  }

  /** The reference says what the document says at the path and beside it. */
  ghost predicate Describes(r: Resource, path: Path, ref: Reference) {
    && path != []
    && NamesSecretAt(r, path, ref.secretName)
    && ref.key == TextOf(Get(Follow(ResourceTree(r), path[..|path| - 1]), Key))
    && ref.optional == FlagOf(Get(Follow(ResourceTree(r), path[..|path| - 1]), Optional))
    && ref.container == ContainerAt(ShapeOf(KindOf(r)), ResourceTree(r), path, "")
  }

  ghost predicate PrintedFrom(prefix: string, slot: Slot, ref: Reference) {
    slot.name != "" &&
        ref == Reference(slot.name, prefix + PrintPath(slot.path), slot.container, slot.key, slot.optional)
  }

  lemma {:induction false} PrintedMembers(prefix: string, slots: seq<Slot>, ref: Reference)
    ensures ref in Printed(prefix, slots) <==> exists slot :: slot in slots && PrintedFrom(prefix, slot, ref)
  {
    if slots != [] {
      var init, last := slots[..|slots| - 1], slots[|slots| - 1];
      PrintedMembers(prefix, init, ref);
      assert slots == init + [last];
      assert ref in FromSlot(prefix, last) <==> PrintedFrom(prefix, last, ref);
    }
  }

  ghost predicate DistinctFieldPaths(refs: seq<Reference>) {
    forall a, b :: a in refs && b in refs && a.fieldPath == b.fieldPath ==> a == b
  }

  lemma {:induction false} ScannedDistinctly(r: Resource)
    ensures DistinctFieldPaths(ScannedOf(r)) && NoDuplicates(ScannedOf(r))
  {
    hide PrintPath, Scan, ShapeOf, ResourceTree;
    ShapesAreWellFormed(KindOf(r));
    var slots := Scan(ShapeOf(KindOf(r)), ResourceTree(r), "");
    ScanPathsAreDistinct(ShapeOf(KindOf(r)), ResourceTree(r), "");
    PrintedDistinctly(slots);
    forall a, b | a in ScannedOf(r) && b in ScannedOf(r) && a.fieldPath == b.fieldPath ensures a == b {
      PrintedMembers("", slots, a);
      PrintedMembers("", slots, b);
      var s :| s in slots && PrintedFrom("", s, a);
      var t :| t in slots && PrintedFrom("", t, b);
      SamePrintedPath(s.path, t.path);
      var i :| 0 <= i < |slots| && slots[i] == s;
      var j :| 0 <= j < |slots| && slots[j] == t;
      assert i == j;
    }
  }

  lemma SamePrintedPath(p: Path, q: Path)
    requires "" + PrintPath(p) == "" + PrintPath(q)
    ensures p == q
  {
    assert "" + PrintPath(p) == PrintPath(p) && "" + PrintPath(q) == PrintPath(q);
    PrintPathInjective(p, q);
  }

  lemma {:induction false} PrintedDistinctly(slots: seq<Slot>)
    requires DistinctPaths(slots)
    ensures NoDuplicates(Printed("", slots))
  {
    hide PrintPath;
    if slots != [] {
      var init, last := slots[..|slots| - 1], slots[|slots| - 1];
      PrintedDistinctly(init);
      forall ref | ref in Printed("", init) ensures ref !in FromSlot("", last) {
        PrintedMembers("", init, ref);
        var s :| s in init && PrintedFrom("", s, ref);
        var i :| 0 <= i < |init| && init[i] == s;
        assert slots[i].path != last.path;
        if ref.fieldPath == "" + PrintPath(last.path) {
          SamePrintedPath(slots[i].path, last.path);
        }
      }
      NoDuplicatesConcat(Printed("", init), FromSlot("", last));
    }
  }

  /** Every recorded field path parses, and leads to the field that holds the recorded name. */
  lemma FieldPathLeadsBack(r: Resource, ref: Reference)
    requires ref in ReferencesOf(r)
    ensures exists path :: ParsePath(ref.fieldPath) == Some(path) && Describes(r, path, ref)
  {
    hide Scan, ShapeOf, ResourceTree;
    var slots := Scan(ShapeOf(KindOf(r)), ResourceTree(r), "");
    DedupeKeepsFirsts(ScannedOf(r), ref);
    PrintedMembers("", slots, ref);
    var s :| s in slots && PrintedFrom("", s, ref);
    ShapesAreWellFormed(KindOf(r));
    ScanIsFaithful(ShapeOf(KindOf(r)), ResourceTree(r), "", s);
    assert "" + PrintPath(s.path) == PrintPath(s.path);
    PathRoundTrip(s.path);
    assert Describes(r, s.path, ref);
  }

  lemma ScannedAtEveryField(r: Resource, path: Path, name: string)
    requires NamesSecretAt(r, path, name)
    ensures exists ref :: ref in ScannedOf(r) && ref.fieldPath == PrintPath(path) && ref.secretName == name
  {
    hide Scan, ShapeOf, ResourceTree;
    var shape, t := ShapeOf(KindOf(r)), ResourceTree(r);
    var slots := Scan(shape, t, "");
    ShapesAreWellFormed(KindOf(r));
    ScanIsExact(shape, t, "", path);
    var s :| s in slots && s.path == path;
    assert Faithful(shape, t, "", s);
    var ref := Reference(s.name, "" + PrintPath(path), s.container, s.key, s.optional);
    assert PrintedFrom("", s, ref);
    PrintedMembers("", slots, ref);
    assert "" + PrintPath(path) == PrintPath(path);
  }

  /** No NUL in a Secret name the object holds at a tracked field. */
  predicate PlainSecretNames(r: Resource) {
    forall ref :: ref in ScannedOf(r) ==> NUL !in ref.secretName
  }

  lemma ScannedPathsHaveNoNul(r: Resource, ref: Reference)
    requires ref in ScannedOf(r)
    ensures NUL !in ref.fieldPath
  {
    hide PrintPath, Scan, ShapeOf, ResourceTree;
    var slots := Scan(ShapeOf(KindOf(r)), ResourceTree(r), "");
    PrintedMembers("", slots, ref);
    var s :| s in slots && PrintedFrom("", s, ref);
    PrintedPathHasNoNul(s.path);
    assert "" + PrintPath(s.path) == PrintPath(s.path);
  }

  /**
   The joined keys of a built-in object differ if its Secret names hold no NUL, or its
   container names and keys none.
   */
  lemma PlainNamesKeepKeysApart(r: Resource)
    requires PlainSecretNames(r) || PlainNames(r)
    ensures DistinctKeys(ScannedOf(r))
  {
    hide KeyOf, Scanned;
    var refs := ScannedOf(r);
    ScannedDistinctly(r);
    forall i, j | 0 <= i < j < |refs| ensures KeyOf(refs[i]) != KeyOf(refs[j]) {
      assert refs[i] in refs && refs[j] in refs && refs[i] != refs[j];
      ScannedPathsHaveNoNul(r, refs[i]);
      ScannedPathsHaveNoNul(r, refs[j]);
      if KeyOf(refs[i]) == KeyOf(refs[j]) {
        if PlainSecretNames(r) {
          KeyTellsNameAndPath(refs[i], refs[j]);
        } else {
          KeyIsInjective(refs[i], refs[j]);
        }
      }
    }
  }

  /** Deduplication removes nothing from a built-in object exactly when no two joined keys clash. */
  lemma DedupeKeepsBuiltIns(r: Resource)
    ensures ReferencesOf(r) == ScannedOf(r) <==> DistinctKeys(ScannedOf(r))
    ensures PlainSecretNames(r) || PlainNames(r) ==> ReferencesOf(r) == ScannedOf(r)
  {
    hide Scanned, KeyOf, PlainSecretNames, PlainNames;
    var refs := ScannedOf(r);
    DedupeLeavesNoDuplicates(refs);
    if PlainSecretNames(r) || PlainNames(r) {
      PlainNamesKeepKeysApart(r);
    }
    if DistinctKeys(refs) {
      DistinctKeysAreKept(refs);
    }
  }

  ghost predicate IsRecordedAt(r: Resource, path: Path) {
    exists ref :: ref in ReferencesOf(r) && ref.fieldPath == PrintPath(path)
  }

  ghost predicate HoldsNameAt(r: Resource, path: Path) {
    exists name :: NamesSecretAt(r, path, name)
  }

  /** A recorded path always leads to a field that names a Secret. */
  lemma RecordedFieldHoldsName(r: Resource, path: Path)
    requires IsRecordedAt(r, path)
    ensures HoldsNameAt(r, path)
  {
    hide Scan, ShapeOf, ResourceTree, Scanned;
    var ref :| ref in ReferencesOf(r) && ref.fieldPath == PrintPath(path);
    FieldPathLeadsBack(r, ref);
    PathRoundTrip(path);
    assert NamesSecretAt(r, path, ref.secretName);
  }

  /** A reference that deduplication drops leaves its field unrecorded. */
  lemma DroppedFieldIsUnrecorded(r: Resource, ref: Reference)
    requires ref in ScannedOf(r) && ref !in ReferencesOf(r)
    ensures exists path :: HoldsNameAt(r, path) && !IsRecordedAt(r, path)
  {
    hide PrintPath, Scan, ShapeOf, ResourceTree;
    var slots := Scan(ShapeOf(KindOf(r)), ResourceTree(r), "");
    PrintedMembers("", slots, ref);
    var s :| s in slots && PrintedFrom("", s, ref);
    ShapesAreWellFormed(KindOf(r));
    ScanIsFaithful(ShapeOf(KindOf(r)), ResourceTree(r), "", s);
    assert NamesSecretAt(r, s.path, s.name);
    assert ref.fieldPath == PrintPath(s.path);
    OnlyOneScannedAt(r, ref);
    assert !IsRecordedAt(r, s.path);
  }

  lemma OnlyOneScannedAt(r: Resource, ref: Reference)
    requires ref in ScannedOf(r) && ref !in ReferencesOf(r)
    ensures forall other :: other in ReferencesOf(r) ==> other.fieldPath != ref.fieldPath
  {
    hide Scanned, KeyOf;
    ScannedDistinctly(r);
    forall other | other in ReferencesOf(r) ensures other.fieldPath != ref.fieldPath {
      DedupeKeepsFirsts(ScannedOf(r), other);
    }
  }

  /**
   One reference for every tracked field that names a Secret, and none besides: this holds
   of an object exactly when its joined keys are distinct, so whenever its Secret names
   hold no NUL, and whenever its container names and keys hold none.
   */
  lemma OneReferencePerField(r: Resource)
    ensures (forall path :: IsRecordedAt(r, path) <==> HoldsNameAt(r, path)) <==> DistinctKeys(ScannedOf(r))
    ensures PlainSecretNames(r) || PlainNames(r) ==> DistinctKeys(ScannedOf(r))
    ensures DistinctFieldPaths(ReferencesOf(r)) && NoDuplicates(ReferencesOf(r))
  {
    hide Scanned, KeyOf, IsRecordedAt, HoldsNameAt, PlainSecretNames, PlainNames;
    ReferencePathsAreDistinct(r);
    DedupeKeepsBuiltIns(r);
    if PlainSecretNames(r) || PlainNames(r) {
      PlainNamesKeepKeysApart(r);
    }
    if DistinctKeys(ScannedOf(r)) {
      forall path ensures IsRecordedAt(r, path) <==> HoldsNameAt(r, path) {
        EveryFieldIsRecorded(r, path);
      }
    } else if forall ref :: ref in ScannedOf(r) ==> ref in ReferencesOf(r) {
      NothingDropped(r);
    } else {
      var ref :| ref in ScannedOf(r) && ref !in ReferencesOf(r);
      DroppedFieldIsUnrecorded(r, ref);
    }
  }

  lemma EveryFieldIsRecorded(r: Resource, path: Path)
    requires DistinctKeys(ScannedOf(r))
    ensures IsRecordedAt(r, path) <==> HoldsNameAt(r, path)
  {
    hide Scanned, NamesSecretAt, KeyOf, PrintPath;
    DedupeKeepsBuiltIns(r);
    if name :| NamesSecretAt(r, path, name) {
      ScannedAtEveryField(r, path, name);
    }
    if IsRecordedAt(r, path) {
      RecordedFieldHoldsName(r, path);
    }
  }

  /** If no reference is dropped, no two keys clash. */
  lemma NothingDropped(r: Resource)
    requires forall ref :: ref in ScannedOf(r) ==> ref in ReferencesOf(r)
    ensures DistinctKeys(ScannedOf(r))
  {
    hide Scanned, KeyOf;
    var refs := ScannedOf(r);
    ScannedDistinctly(r);
    DedupeIsLossless(refs);
    forall i, j | 0 <= i < j < |refs| ensures KeyOf(refs[i]) != KeyOf(refs[j]) {
      assert refs[i] in refs && refs[j] in refs && refs[i] != refs[j];
    }
  }

  /** Paths stay distinct whatever the names hold. */
  lemma ReferencePathsAreDistinct(r: Resource)
    ensures DistinctFieldPaths(ReferencesOf(r)) && NoDuplicates(ReferencesOf(r))
  {
    hide Scan, ShapeOf, ResourceTree, Scanned, KeyOf;
    ScannedDistinctly(r);
    DedupeLeavesNoDuplicates(ScannedOf(r));
    forall ref | ref in ReferencesOf(r) ensures ref in ScannedOf(r) {
      DedupeKeepsFirsts(ScannedOf(r), ref);
    }
  }
}
