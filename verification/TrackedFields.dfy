/**
 Which fields of which kinds name Secrets, told over the objects themselves: for every
 tracked field the reference it leads to, with its path spelled out, and nothing else.
 */
module TrackedFields {
  import opened Wrappers
  import opened Text
  import opened FieldPaths
  import opened Trees
  import opened Objects
  import opened References
  import opened Extraction

  /* ---------- Texts ---------- */

  lemma Joined(path: string, a: string, b: string)
    ensures (path + a) + b == path + (a + b)
  {
  }

  lemma DotIs(path: string, m: Member, text: string)
    requires "." + JsonName(m) == text
    ensures Dot(path, m) == path + text
  {
  }

  lemma DotDotIs(path: string, m: Member, n: Member, text: string)
    requires ("." + JsonName(m)) + ("." + JsonName(n)) == text
    ensures Dot(Dot(path, m), n) == path + text
  {
    Joined(path, "." + JsonName(m), "." + JsonName(n));
  }

  lemma DotDotDotIs(path: string, m: Member, n: Member, k: Member, text: string)
    requires (("." + JsonName(m)) + ("." + JsonName(n))) + ("." + JsonName(k)) == text
    ensures Dot(Dot(Dot(path, m), n), k) == path + text
  {
    DotDotIs(path, m, n, ("." + JsonName(m)) + ("." + JsonName(n)));
    Joined(path, ("." + JsonName(m)) + ("." + JsonName(n)), "." + JsonName(k));
  }

  lemma NthIs(path: string, i: nat)
    ensures Nth(path, i) == path + "[" + Decimal(i) + "]"
  {
  }

  /* ---------- Volumes ---------- */

  /** The reference a field leads to: none when it names nothing. */
  function One(name: string, path: string, container: string, key: string, optional: Option<bool>): seq<Reference> {
    AppendReference([], Reference(name, path, container, key, optional))
  }

  function ByName(r: Option<LocalReference>, path: string): seq<Reference> {
    match r case None => [] case Some(ref) => One(ref.name, path, "", "", None)
  }

  lemma SourceIsByName(path: string, m: Member, refMember: Member, r: Option<LocalReference>, rest: Shape, t: Tree,
      text: string)
    requires Get(Get(t, m), refMember) == Maybe(r, ReferenceTree)
    requires (("." + JsonName(m)) + ("." + JsonName(refMember))) + ("." + JsonName(Name)) == text
    ensures Scanned(path, Nested(m, Nested(refMember, REFERENCE_SHAPE, Nothing), rest), t, "") ==
            ByName(r, path + text) + Scanned(path, rest, t, "")
  {
    hide Scanned, Dot, JsonName;
    ScannedSource(path, m, refMember, r, rest, t);
    DotDotDotIs(path, m, refMember, Name, text);
  }

  function DriverFields(v: Volume, path: string): seq<Reference> {
    ByName(SecretRefOf(v.cephfs), path + ".cephfs.secretRef.name")
    + (ByName(SecretRefOf(v.cinder), path + ".cinder.secretRef.name")
    + (ByName(SecretRefOf(v.flexVolume), path + ".flexVolume.secretRef.name")
    + (ByName(SecretRefOf(v.iscsi), path + ".iscsi.secretRef.name")
    + (ByName(SecretRefOf(v.rbd), path + ".rbd.secretRef.name")
    + (ByName(SecretRefOf(v.scaleIO), path + ".scaleIO.secretRef.name")
    + ByName(SecretRefOf(v.storageos), path + ".storageos.secretRef.name"))))))
  }

  lemma DriversAre(v: Volume, path: string)
    ensures Scanned(path, FROM_CEPHFS, VolumeTree(v), "") == DriverFields(v, path)
  {
    hide Scanned, VolumeTree, Maybe, Get, ByName, SecretRefOf;
    var t := VolumeTree(v);
    VolumeDrivers(v);
    DriverReference(v.cephfs);
    DriverReference(v.cinder);
    DriverReference(v.flexVolume);
    DriverReference(v.iscsi);
    DriverReference(v.rbd);
    DriverReference(v.scaleIO);
    DriverReference(v.storageos);
    hide JsonName;
    DriverTexts();
    SourceIsByName(path, Cephfs, SecretRef, SecretRefOf(v.cephfs), FROM_CINDER, t, ".cephfs.secretRef.name");
    SourceIsByName(path, Cinder, SecretRef, SecretRefOf(v.cinder), FROM_FLEX_VOLUME, t, ".cinder.secretRef.name");
    SourceIsByName(path, FlexVolume, SecretRef, SecretRefOf(v.flexVolume), FROM_ISCSI, t, ".flexVolume.secretRef.name");
    SourceIsByName(path, Iscsi, SecretRef, SecretRefOf(v.iscsi), FROM_RBD, t, ".iscsi.secretRef.name");
    SourceIsByName(path, Rbd, SecretRef, SecretRefOf(v.rbd), FROM_SCALE_IO, t, ".rbd.secretRef.name");
    SourceIsByName(path, ScaleIO, SecretRef, SecretRefOf(v.scaleIO), FROM_STORAGEOS, t, ".scaleIO.secretRef.name");
    SourceIsByName(path, Storageos, SecretRef, SecretRefOf(v.storageos), Nothing, t, ".storageos.secretRef.name");
    ScannedNothing(path, t, "");
  }

  lemma DriverText(name: string, start: string, text: string)
    requires "." + name == start && start + ".secretRef.name" == text
    ensures (("." + name) + ("." + JsonName(SecretRef))) + ("." + JsonName(Name)) == text
  {
    assert "." + "secretRef" == ".secretRef" && "." + "name" == ".name";
    assert ".secretRef" + ".name" == ".secretRef.name";
    Joined(start, ".secretRef", ".name");
  }

  lemma DriverTexts()
    ensures (("." + JsonName(Cephfs)) + ("." + JsonName(SecretRef))) + ("." + JsonName(Name)) ==
        ".cephfs.secretRef.name"
    ensures (("." + JsonName(Cinder)) + ("." + JsonName(SecretRef))) + ("." + JsonName(Name)) ==
        ".cinder.secretRef.name"
    ensures (("." + JsonName(FlexVolume)) + ("." + JsonName(SecretRef))) + ("." + JsonName(Name)) ==
        ".flexVolume.secretRef.name"
    ensures (("." + JsonName(Iscsi)) + ("." + JsonName(SecretRef))) + ("." + JsonName(Name)) == ".iscsi.secretRef.name"
    ensures (("." + JsonName(Rbd)) + ("." + JsonName(SecretRef))) + ("." + JsonName(Name)) == ".rbd.secretRef.name"
    ensures (("." + JsonName(ScaleIO)) + ("." + JsonName(SecretRef))) + ("." + JsonName(Name)) ==
        ".scaleIO.secretRef.name"
    ensures (("." + JsonName(Storageos)) + ("." + JsonName(SecretRef))) + ("." + JsonName(Name)) ==
        ".storageos.secretRef.name"
  {
    CephfsText();
    CinderText();
    FlexVolumeText();
    IscsiText();
    RbdText();
    ScaleIOText();
    StorageosText();
  }

  lemma CephfsText()
    ensures (("." + JsonName(Cephfs)) + ("." + JsonName(SecretRef))) + ("." + JsonName(Name)) ==
        ".cephfs.secretRef.name"
  {
    DriverText(JsonName(Cephfs), ".cephfs", ".cephfs.secretRef.name");
  }

  lemma CinderText()
    ensures (("." + JsonName(Cinder)) + ("." + JsonName(SecretRef))) + ("." + JsonName(Name)) ==
        ".cinder.secretRef.name"
  {
    DriverText(JsonName(Cinder), ".cinder", ".cinder.secretRef.name");
  }

  lemma FlexVolumeText()
    ensures (("." + JsonName(FlexVolume)) + ("." + JsonName(SecretRef))) + ("." + JsonName(Name)) ==
        ".flexVolume.secretRef.name"
  {
    DriverText(JsonName(FlexVolume), ".flexVolume", ".flexVolume.secretRef.name");
  }

  lemma IscsiText()
    ensures (("." + JsonName(Iscsi)) + ("." + JsonName(SecretRef))) + ("." + JsonName(Name)) == ".iscsi.secretRef.name"
  {
    DriverText(JsonName(Iscsi), ".iscsi", ".iscsi.secretRef.name");
  }

  lemma RbdText()
    ensures (("." + JsonName(Rbd)) + ("." + JsonName(SecretRef))) + ("." + JsonName(Name)) == ".rbd.secretRef.name"
  {
    DriverText(JsonName(Rbd), ".rbd", ".rbd.secretRef.name");
  }

  lemma ScaleIOText()
    ensures (("." + JsonName(ScaleIO)) + ("." + JsonName(SecretRef))) + ("." + JsonName(Name)) ==
        ".scaleIO.secretRef.name"
  {
    DriverText(JsonName(ScaleIO), ".scaleIO", ".scaleIO.secretRef.name");
  }

  lemma StorageosText()
    ensures (("." + JsonName(Storageos)) + ("." + JsonName(SecretRef))) + ("." + JsonName(Name)) ==
        ".storageos.secretRef.name"
  {
    DriverText(JsonName(Storageos), ".storageos", ".storageos.secretRef.name");
  }

  function SourceFields(sources: seq<VolumeProjection>, n: nat, path: string): seq<Reference>
    requires n <= |sources|
  {
    if n == 0 then []
    else SourceFields(sources, n - 1, path) + SourceField(sources[n - 1], path + "[" + Decimal(n - 1) + "]")
  }

  function SourceField(source: VolumeProjection, path: string): seq<Reference> {
    match source.secret case None => [] case Some(s) => One(s.name, path + ".secret.name", "", "", s.optional)
  }

  function ProjectedFields(p: Option<ProjectedVolumeSource>, path: string): seq<Reference> {
    match p
    case None => []
    case Some(projected) => SourceFields(projected.sources, |projected.sources|, path + ".sources")
  }

  function SecretField(s: Option<SecretVolumeSource>, path: string): seq<Reference> {
    match s
    case None => []
    case Some(source) => One(source.secretName, path + ".secret.secretName", "", "", source.optional)
  }

  function AzureFileField(a: Option<AzureFileVolumeSource>, path: string): seq<Reference> {
    match a case None => [] case Some(source) => One(source.secretName, path + ".azureFile.secretName", "", "", None)
  }

  function VolumeFields(v: Volume, path: string): seq<Reference> {
    SecretField(v.secret, path)
    + (ProjectedFields(v.projected, path + ".projected")
    + (ByName(NodePublishRefOf(v.csi), path + ".csi.nodePublishSecretRef.name")
    + (AzureFileField(v.azureFile, path) + DriverFields(v, path))))
  }

  lemma SecretText()
    ensures ("." + JsonName(Secret)) + ("." + JsonName(SecretName)) == ".secret.secretName"
    ensures ("." + JsonName(Secret)) + ("." + JsonName(Name)) == ".secret.name"
  {
  }

  lemma AzureFileText()
    ensures ("." + JsonName(AzureFile)) + ("." + JsonName(SecretName)) == ".azureFile.secretName"
  {
  }

  lemma CsiText()
    ensures (("." + JsonName(Csi)) + ("." + JsonName(NodePublishSecretRef))) + ("." + JsonName(Name)) ==
        ".csi.nodePublishSecretRef.name"
  {
    assert "." + JsonName(Csi) == ".csi" && "." + JsonName(NodePublishSecretRef) == ".nodePublishSecretRef";
    assert "." + JsonName(Name) == ".name";
    Joined(".csi", ".nodePublishSecretRef", ".name");
    PublishText();
  }

  lemma PublishText()
    ensures ".csi" + (".nodePublishSecretRef" + ".name") == ".csi.nodePublishSecretRef.name"
  {
  }

  lemma {:induction false} SourcesAre(sources: seq<VolumeProjection>, n: nat, path: string)
    requires n <= |sources|
    ensures ScannedItems(path, PROJECTION_SHAPE, ListOf(sources, ProjectionTree).items, n, "") ==
        SourceFields(sources, n, path)
  {
    hide Scanned, ScannedItems, Dot, Nth, JsonName;
    var items := ListOf(sources, ProjectionTree).items;
    ScannedEach(path, PROJECTION_SHAPE, items, "");
    if n > 0 {
      SourcesAre(sources, n - 1, path);
      ScannedNext(path, PROJECTION_SHAPE, items, n - 1, "");
      ScannedProjection(Nth(path, n - 1), sources[n - 1]);
      NthIs(path, n - 1);
      SecretText();
      DotDotIs(Nth(path, n - 1), Secret, Name, ".secret.name");
    }
  }

  lemma VolumeIs(v: Volume, path: string)
    ensures Scanned(path, VOLUME_SHAPE, VolumeTree(v), "") == VolumeFields(v, path)
  {
    hide Scanned, ScannedItems, Dot, JsonName, VolumeTree, Maybe, Get, ByName, DriverFields, SourceFields;
    var t := VolumeTree(v);
    VolumeMembers(v);
    ScannedSecretVolume(path, v);
    SecretText();
    DotDotIs(path, Secret, SecretName, ".secret.secretName");
    ScannedNested(path, Projected, PROJECTED_SHAPE, FROM_CSI, t, "");
    ProjectedIs(v.projected, path);
    CsiText();
    SourceIsByName(path, Csi, NodePublishSecretRef, NodePublishRefOf(v.csi), FROM_AZURE_FILE, t,
        ".csi.nodePublishSecretRef.name");
    ScannedAzureFile(path, v);
    AzureFileText();
    DotDotIs(path, AzureFile, SecretName, ".azureFile.secretName");
    DriversAre(v, path);
  }

  lemma ProjectedIs(p: Option<ProjectedVolumeSource>, path: string)
    ensures Scanned(Dot(path, Projected), PROJECTED_SHAPE, if p.Some? then ProjectedTree(p.value) else Absent, "") ==
            ProjectedFields(p, path + ".projected")
  {
    hide Scanned, ScannedItems, JsonName;
    assert "." + JsonName(Projected) == ".projected" && "." + JsonName(Sources) == ".sources" by {
      ProjectedTexts();
    }
    DotIs(path, Projected, ".projected");
    DotIs(path + ".projected", Sources, ".sources");
    match p
    case None => NothingInAbsent(Dot(path, Projected), PROJECTED_SHAPE, "");
    case Some(projected) =>
      var items := ListOf(projected.sources, ProjectionTree).items;
      ScannedOnly(Dot(path, Projected), Sources, Each(PROJECTION_SHAPE), ProjectedTree(projected), "");
      ScannedEach(path + ".projected" + ".sources", PROJECTION_SHAPE, items, "");
      SourcesAre(projected.sources, |projected.sources|, path + ".projected" + ".sources");
  }

  lemma ProjectedTexts()
    ensures "." + JsonName(Projected) == ".projected" && "." + JsonName(Sources) == ".sources"
  {
  }

  /* ---------- Containers ---------- */

  function EnvField(e: EnvVar, path: string, container: string): seq<Reference> {
    if e.valueFrom.None? || e.valueFrom.value.secretKeyRef.None? then []
    else
      var s := e.valueFrom.value.secretKeyRef.value;
      One(s.name, path + ".valueFrom.secretKeyRef.name", container, s.key, s.optional)
  }

  function EnvFields(env: seq<EnvVar>, n: nat, path: string, container: string): seq<Reference>
    requires n <= |env|
  {
    if n == 0 then []
    else EnvFields(env, n - 1, path, container) + EnvField(env[n - 1], path + "[" + Decimal(n - 1) + "]", container)
  }

  function EnvFromField(e: EnvFromSource, path: string, container: string): seq<Reference> {
    match e.secretRef case None => [] case Some(s) => One(s.name, path + ".secretRef.name", container, "", s.optional)
  }

  function EnvFromFields(envFrom: seq<EnvFromSource>, n: nat, path: string, container: string): seq<Reference>
    requires n <= |envFrom|
  {
    if n == 0 then []
    else
      EnvFromFields(envFrom, n - 1, path, container)
      + EnvFromField(envFrom[n - 1], path + "[" + Decimal(n - 1) + "]", container)
  }

  function ContainerFields(c: PodContainer, path: string): seq<Reference> {
    EnvFields(c.env, |c.env|, path + ".env", c.name) + EnvFromFields(c.envFrom, |c.envFrom|, path + ".envFrom", c.name)
  }

  lemma ContainerTexts()
    ensures "." + JsonName(Env) == ".env" && "." + JsonName(EnvFrom) == ".envFrom"
    ensures ("." + JsonName(SecretRef)) + ("." + JsonName(Name)) == ".secretRef.name"
  {
  }

  lemma SecretKeyText()
    ensures (("." + JsonName(ValueFrom)) + ("." + JsonName(SecretKeyRef))) + ("." + JsonName(Name)) ==
        ".valueFrom.secretKeyRef.name"
  {
    var a, b, c := "." + JsonName(ValueFrom), "." + JsonName(SecretKeyRef), "." + JsonName(Name);
    assert a == ".valueFrom" && b == ".secretKeyRef" && c == ".name";
    assert a + b == ".valueFrom.secretKeyRef";
  }

  lemma {:induction false} EnvIs(env: seq<EnvVar>, n: nat, path: string, container: string)
    requires n <= |env|
    ensures ScannedItems(path, ENV_VAR_SHAPE, ListOf(env, EnvVarTree).items, n, container) ==
        EnvFields(env, n, path, container)
  {
    hide Scanned, ScannedItems, Dot, Nth, JsonName;
    var items := ListOf(env, EnvVarTree).items;
    ScannedEach(path, ENV_VAR_SHAPE, items, container);
    if n > 0 {
      EnvIs(env, n - 1, path, container);
      ScannedNext(path, ENV_VAR_SHAPE, items, n - 1, container);
      ScannedEnv(Nth(path, n - 1), env[n - 1], container);
      NthIs(path, n - 1);
      SecretKeyText();
      DotDotDotIs(Nth(path, n - 1), ValueFrom, SecretKeyRef, Name, ".valueFrom.secretKeyRef.name");
    }
  }

  lemma {:induction false} EnvFromIs(envFrom: seq<EnvFromSource>, n: nat, path: string, container: string)
    requires n <= |envFrom|
    ensures ScannedItems(path, ENV_FROM_SHAPE, ListOf(envFrom, EnvFromTree).items, n, container) ==
            EnvFromFields(envFrom, n, path, container)
  {
    hide Scanned, ScannedItems, Dot, Nth, JsonName;
    var items := ListOf(envFrom, EnvFromTree).items;
    ScannedEach(path, ENV_FROM_SHAPE, items, container);
    if n > 0 {
      EnvFromIs(envFrom, n - 1, path, container);
      ScannedNext(path, ENV_FROM_SHAPE, items, n - 1, container);
      ScannedEnvFrom(Nth(path, n - 1), envFrom[n - 1], container);
      NthIs(path, n - 1);
      ContainerTexts();
      DotDotIs(Nth(path, n - 1), SecretRef, Name, ".secretRef.name");
    }
  }

  lemma ContainerIs(c: PodContainer, path: string)
    ensures Scanned(path, CONTAINER_SHAPE, ContainerTree(c), "") == ContainerFields(c, path)
  {
    hide Scanned, ScannedItems, Dot, JsonName, EnvFields, EnvFromFields;
    var t := ContainerTree(c);
    ScannedContainer(path, CONTAINER_SHAPE.inner, t, "");
    ScannedNested(path, Env, Each(ENV_VAR_SHAPE), ENV_FROM_REST, t, c.name);
    ScannedOnly(path, EnvFrom, Each(ENV_FROM_SHAPE), t, c.name);
    ContainerTexts();
    DotIs(path, Env, ".env");
    DotIs(path, EnvFrom, ".envFrom");
    ScannedEach(path + ".env", ENV_VAR_SHAPE, ListOf(c.env, EnvVarTree).items, c.name);
    ScannedEach(path + ".envFrom", ENV_FROM_SHAPE, ListOf(c.envFrom, EnvFromTree).items, c.name);
    EnvIs(c.env, |c.env|, path + ".env", c.name);
    EnvFromIs(c.envFrom, |c.envFrom|, path + ".envFrom", c.name);
  }

  /* ---------- Lists ---------- */

  function PullFields(pulls: seq<LocalReference>, n: nat, path: string): seq<Reference>
    requires n <= |pulls|
  {
    if n == 0 then []
    else
      PullFields(pulls, n - 1, path)
      + One(pulls[n - 1].name, path + "[" + Decimal(n - 1) + "]" + ".name", "", "", None)
  }

  function VolumesFields(volumes: seq<Volume>, n: nat, path: string): seq<Reference>
    requires n <= |volumes|
  {
    if n == 0 then []
    else VolumesFields(volumes, n - 1, path) + VolumeFields(volumes[n - 1], path + "[" + Decimal(n - 1) + "]")
  }

  function ContainersFields(containers: seq<PodContainer>, n: nat, path: string): seq<Reference>
    requires n <= |containers|
  {
    if n == 0 then []
    else
      ContainersFields(containers, n - 1, path)
      + ContainerFields(containers[n - 1], path + "[" + Decimal(n - 1) + "]")
  }

  function TLSFields(tls: seq<IngressTLS>, n: nat, path: string): seq<Reference>
    requires n <= |tls|
  {
    if n == 0 then []
    else
      TLSFields(tls, n - 1, path)
      + One(tls[n - 1].secretName, path + "[" + Decimal(n - 1) + "]" + ".secretName", "", "", None)
  }

  lemma NameText()
    ensures "." + JsonName(Name) == ".name" && "." + JsonName(SecretName) == ".secretName"
  {
  }

  lemma {:induction false} PullsAre(pulls: seq<LocalReference>, n: nat, path: string)
    requires n <= |pulls|
    ensures ScannedItems(path, REFERENCE_SHAPE, ListOf(pulls, ReferenceTree).items, n, "") == PullFields(pulls, n, path)
  {
    hide Scanned, ScannedItems, Dot, Nth, JsonName;
    var items := ListOf(pulls, ReferenceTree).items;
    ScannedEach(path, REFERENCE_SHAPE, items, "");
    if n > 0 {
      PullsAre(pulls, n - 1, path);
      ScannedNext(path, REFERENCE_SHAPE, items, n - 1, "");
      ScannedLocalReference(Nth(path, n - 1), pulls[n - 1]);
      NthIs(path, n - 1);
      NameText();
      DotIs(Nth(path, n - 1), Name, ".name");
    }
  }

  lemma {:induction false} VolumesAre(volumes: seq<Volume>, n: nat, path: string)
    requires n <= |volumes|
    ensures ScannedItems(path, VOLUME_SHAPE, ListOf(volumes, VolumeTree).items, n, "") ==
        VolumesFields(volumes, n, path)
  {
    hide Scanned, ScannedItems, Nth, VolumeFields, VolumeTree;
    var items := ListOf(volumes, VolumeTree).items;
    ScannedEach(path, VOLUME_SHAPE, items, "");
    if n > 0 {
      VolumesAre(volumes, n - 1, path);
      ScannedNext(path, VOLUME_SHAPE, items, n - 1, "");
      NthIs(path, n - 1);
      VolumeIs(volumes[n - 1], Nth(path, n - 1));
    }
  }

  lemma {:induction false} ContainersAre(containers: seq<PodContainer>, n: nat, path: string)
    requires n <= |containers|
    ensures ScannedItems(path, CONTAINER_SHAPE, ListOf(containers, ContainerTree).items, n, "") ==
            ContainersFields(containers, n, path)
  {
    hide Scanned, ScannedItems, Nth, ContainerFields, ContainerTree;
    var items := ListOf(containers, ContainerTree).items;
    ScannedEach(path, CONTAINER_SHAPE, items, "");
    if n > 0 {
      ContainersAre(containers, n - 1, path);
      ScannedNext(path, CONTAINER_SHAPE, items, n - 1, "");
      NthIs(path, n - 1);
      ContainerIs(containers[n - 1], Nth(path, n - 1));
    }
  }

  lemma {:induction false} TLSAre(tls: seq<IngressTLS>, n: nat, path: string)
    requires n <= |tls|
    ensures ScannedItems(path, NamesSecret(SecretName, Nothing), ListOf(tls, TLSTree).items, n, "") ==
        TLSFields(tls, n, path)
  {
    hide Scanned, ScannedItems, Dot, Nth, JsonName;
    var item, items := NamesSecret(SecretName, Nothing), ListOf(tls, TLSTree).items;
    ScannedEach(path, item, items, "");
    if n > 0 {
      TLSAre(tls, n - 1, path);
      ScannedNext(path, item, items, n - 1, "");
      ScannedLeaf(Nth(path, n - 1), SecretName, TLSTree(tls[n - 1]), "");
      NthIs(path, n - 1);
      NameText();
      DotIs(Nth(path, n - 1), SecretName, ".secretName");
    }
  }

  /* ---------- Pod specifications and whole objects ---------- */

  function PodFields(spec: PodSpec, prefix: string): seq<Reference> {
    PullFields(spec.imagePullSecrets, |spec.imagePullSecrets|, prefix + ".imagePullSecrets")
    + (VolumesFields(spec.volumes, |spec.volumes|, prefix + ".volumes")
    + (ContainersFields(spec.initContainers, |spec.initContainers|, prefix + ".initContainers")
    + (ContainersFields(spec.containers, |spec.containers|, prefix + ".containers")
    + ContainersFields(spec.ephemeralContainers, |spec.ephemeralContainers|, prefix + ".ephemeralContainers"))))
  }

  lemma PodTexts()
    ensures "." + JsonName(ImagePullSecrets) == ".imagePullSecrets" && "." + JsonName(Volumes) == ".volumes"
    ensures "." + JsonName(InitContainers) == ".initContainers" && "." + JsonName(Containers) == ".containers"
    ensures "." + JsonName(EphemeralContainers) == ".ephemeralContainers"
  {
  }

  lemma ContainerListIs(containers: seq<PodContainer>, path: string)
    ensures Scanned(path, Each(CONTAINER_SHAPE), ListOf(containers, ContainerTree), "") ==
            ContainersFields(containers, |containers|, path)
  {
    hide Scanned, ScannedItems, ContainersFields;
    ScannedEach(path, CONTAINER_SHAPE, ListOf(containers, ContainerTree).items, "");
    ContainersAre(containers, |containers|, path);
  }

  lemma PodIs(spec: PodSpec, prefix: string)
    ensures Scanned(prefix, POD_SPEC_SHAPE, PodSpecTree(spec), "") == PodFields(spec, prefix)
  {
    hide Scanned, ScannedItems, Dot, JsonName, PullFields, VolumesFields, ContainersFields;
    var t := PodSpecTree(spec);
    ScannedNested(prefix, ImagePullSecrets, Each(REFERENCE_SHAPE), FROM_VOLUMES, t, "");
    ScannedNested(prefix, Volumes, Each(VOLUME_SHAPE), FROM_INIT_CONTAINERS, t, "");
    ScannedNested(prefix, InitContainers, Each(CONTAINER_SHAPE), FROM_CONTAINERS, t, "");
    ScannedNested(prefix, Containers, Each(CONTAINER_SHAPE), FROM_EPHEMERAL_CONTAINERS, t, "");
    ScannedOnly(prefix, EphemeralContainers, Each(CONTAINER_SHAPE), t, "");
    PodTexts();
    DotIs(prefix, ImagePullSecrets, ".imagePullSecrets");
    DotIs(prefix, Volumes, ".volumes");
    DotIs(prefix, InitContainers, ".initContainers");
    DotIs(prefix, Containers, ".containers");
    DotIs(prefix, EphemeralContainers, ".ephemeralContainers");
    ScannedEach(prefix + ".imagePullSecrets", REFERENCE_SHAPE, ListOf(spec.imagePullSecrets, ReferenceTree).items, "");
    PullsAre(spec.imagePullSecrets, |spec.imagePullSecrets|, prefix + ".imagePullSecrets");
    ScannedEach(prefix + ".volumes", VOLUME_SHAPE, ListOf(spec.volumes, VolumeTree).items, "");
    VolumesAre(spec.volumes, |spec.volumes|, prefix + ".volumes");
    ContainerListIs(spec.initContainers, prefix + ".initContainers");
    ContainerListIs(spec.containers, prefix + ".containers");
    ContainerListIs(spec.ephemeralContainers, prefix + ".ephemeralContainers");
  }

  lemma SpecTexts()
    ensures "." + JsonName(Spec) == ".spec" && "." + JsonName(Template) == ".template" &&
        "." + JsonName(JobTemplate) == ".jobTemplate"
    ensures (".spec" + ".template") + ".spec" == ".spec.template.spec"
  {
  }

  lemma JobTemplateText()
    ensures (".spec" + ".jobTemplate") + ".spec.template.spec" == ".spec.jobTemplate.spec.template.spec"
  {
    assert ".spec" + ".jobTemplate" == ".spec.jobTemplate";
  }

  lemma TemplatePrefix(prefix: string)
    ensures Dot(Dot(Dot(prefix, Spec), Template), Spec) == prefix + ".spec.template.spec"
  {
    hide Dot, JsonName;
    SpecTexts();
    DotDotDotIs(prefix, Spec, Template, Spec, ".spec.template.spec");
  }

  lemma CronJobPrefix()
    ensures Dot(Dot(Dot(Dot(Dot("", Spec), JobTemplate), Spec), Template), Spec) ==
        ".spec.jobTemplate.spec.template.spec"
  {
    hide JsonName;
    SpecTexts();
    JobTemplateText();
    DotIs("", Spec, ".spec");
    DotIs(".spec", JobTemplate, ".jobTemplate");
    assert "" + ".spec" == ".spec";
    TemplatePrefix(".spec" + ".jobTemplate");
  }

  /** The document of an object that runs Pods, scanned by the shape of its kind, is its Pod specification scanned. */
  lemma PodReferencesAre(r: Resource, prefix: string, spec: PodSpec)
    requires
      || (r.Pod? && r.spec == spec && prefix == ".spec")
      || ((r.Deployment? || r.StatefulSet? || r.DaemonSet? || r.ReplicaSet? || r.Job?) && r.spec == spec
          && prefix == ".spec.template.spec")
      || (r.CronJob? && r.spec == spec && prefix == ".spec.jobTemplate.spec.template.spec")
      || (r.ReplicationController? && r.podTemplate == Some(spec) && prefix == ".spec.template.spec")
    ensures ScannedOf(r) == PodFields(spec, prefix)
  {
    hide Scanned, Dot, JsonName, PodFields;
    SpecTexts();
    DotIs("", Spec, ".spec");
    assert "" + ".spec" == ".spec" && "" + ".spec.template.spec" == ".spec.template.spec";
    TemplatePrefix("");
    CronJobPrefix();
    PodIs(spec, prefix);
    if r.Pod? {
      ScannedSpec("", spec);
    } else if r.CronJob? {
      var inner := Get(ResourceTree(r), Spec);
      ScannedOnly("", Spec, Nested(JobTemplate, TEMPLATED_SHAPE, Nothing), ResourceTree(r), "");
      ScannedOnly(Dot("", Spec), JobTemplate, TEMPLATED_SHAPE, inner, "");
      ScannedTemplate(Dot(Dot("", Spec), JobTemplate), Some(spec));
    } else {
      ScannedTemplate("", Some(spec));
    }
  }

  /* ---------- What is in a list of fields ---------- */

  lemma {:induction false} InPullFields(pulls: seq<LocalReference>, n: nat, path: string, ref: Reference)
    requires n <= |pulls|
    ensures ref in PullFields(pulls, n, path) <==>
            exists i :: 0 <= i < n && pulls[i].name != "" &&
                ref == Reference(pulls[i].name, path + "[" + Decimal(i) + "]" + ".name", "", "", None)
  {
    hide Decimal;
    if n > 0 {
      InPullFields(pulls, n - 1, path, ref);
    }
  }

  lemma {:induction false} InTLSFields(tls: seq<IngressTLS>, n: nat, path: string, ref: Reference)
    requires n <= |tls|
    ensures ref in TLSFields(tls, n, path) <==>
            exists i :: 0 <= i < n && tls[i].secretName != "" &&
                ref == Reference(tls[i].secretName, path + "[" + Decimal(i) + "]" + ".secretName", "", "", None)
  {
    hide Decimal;
    if n > 0 {
      InTLSFields(tls, n - 1, path, ref);
    }
  }

  lemma {:induction false} InSourceFields(sources: seq<VolumeProjection>, n: nat, path: string, ref: Reference)
    requires n <= |sources|
    ensures ref in SourceFields(sources, n, path) <==>
            exists j :: 0 <= j < n && ref in SourceField(sources[j], path + "[" + Decimal(j) + "]")
  {
    hide Decimal, SourceField;
    if n > 0 {
      InSourceFields(sources, n - 1, path, ref);
    }
  }

  lemma {:induction false} InEnvFields(env: seq<EnvVar>, n: nat, path: string, container: string, ref: Reference)
    requires n <= |env|
    ensures ref in EnvFields(env, n, path, container) <==>
            exists j :: 0 <= j < n && ref in EnvField(env[j], path + "[" + Decimal(j) + "]", container)
  {
    hide Decimal, EnvField;
    if n > 0 {
      InEnvFields(env, n - 1, path, container, ref);
    }
  }

  lemma {:induction false} InEnvFromFields(envFrom: seq<EnvFromSource>, n: nat, path: string, container: string,
      ref: Reference)
    requires n <= |envFrom|
    ensures ref in EnvFromFields(envFrom, n, path, container) <==>
            exists j :: 0 <= j < n && ref in EnvFromField(envFrom[j], path + "[" + Decimal(j) + "]", container)
  {
    hide Decimal, EnvFromField;
    if n > 0 {
      InEnvFromFields(envFrom, n - 1, path, container, ref);
    }
  }

  lemma {:induction false} InVolumesFields(volumes: seq<Volume>, n: nat, path: string, ref: Reference)
    requires n <= |volumes|
    ensures ref in VolumesFields(volumes, n, path) <==>
            exists i :: 0 <= i < n && ref in VolumeFields(volumes[i], path + "[" + Decimal(i) + "]")
  {
    hide Decimal, VolumeFields;
    if n > 0 {
      InVolumesFields(volumes, n - 1, path, ref);
    }
  }

  lemma {:induction false} InContainersFields(containers: seq<PodContainer>, n: nat, path: string, ref: Reference)
    requires n <= |containers|
    ensures ref in ContainersFields(containers, n, path) <==>
            exists i :: 0 <= i < n && ref in ContainerFields(containers[i], path + "[" + Decimal(i) + "]")
  {
    hide Decimal, ContainerFields;
    if n > 0 {
      InContainersFields(containers, n - 1, path, ref);
    }
  }

  lemma InByName(r: Option<LocalReference>, path: string, ref: Reference)
    ensures ref in ByName(r, path) <==>
              r.Some? && r.value.name != "" && ref == Reference(r.value.name, path, "", "", None)
  {
  }

  /** The references of one volume are those of its eleven sources. */
  lemma InVolumeFields(v: Volume, path: string, ref: Reference)
    ensures ref in VolumeFields(v, path) <==>
              || (v.secret.Some? && v.secret.value.secretName != "" &&
                  ref == Reference(v.secret.value.secretName, path + ".secret.secretName",
                      "", "", v.secret.value.optional))
              || (v.projected.Some? && exists j :: InSource(v.projected.value.sources, j, path, ref))
              || (v.csi.Some? && v.csi.value.nodePublishSecretRef.Some? &&
                  v.csi.value.nodePublishSecretRef.value.name != "" &&
                  ref == Reference(v.csi.value.nodePublishSecretRef.value.name,
                      path + ".csi.nodePublishSecretRef.name", "", "", None))
              || (v.azureFile.Some? && v.azureFile.value.secretName != "" &&
                  ref == Reference(v.azureFile.value.secretName, path + ".azureFile.secretName", "", "", None))
              || ref in DriverFields(v, path)
  {
    hide Decimal, SourceFields, InSource, DriverFields, ByName;
    InByName(NodePublishRefOf(v.csi), path + ".csi.nodePublishSecretRef.name", ref);
    if v.projected.Some? {
      InProjectedFields(v.projected.value.sources, path, ref);
    }
  }

  ghost predicate InSource(sources: seq<VolumeProjection>, j: int, path: string, ref: Reference) {
    && 0 <= j < |sources| && sources[j].secret.Some? && sources[j].secret.value.name != ""
    && ref == Reference(sources[j].secret.value.name, path + ".projected.sources[" + Decimal(j) + "].secret.name",
                        "", "", sources[j].secret.value.optional)
  }

  /** The references of the in-tree storage drivers of one volume. */
  lemma InDriverFields(v: Volume, path: string, ref: Reference)
    ensures ref in DriverFields(v, path) <==>
              || (v.cephfs.Some? && v.cephfs.value.secretRef.Some? && v.cephfs.value.secretRef.value.name != "" &&
                  ref == Reference(v.cephfs.value.secretRef.value.name, path + ".cephfs.secretRef.name", "", "", None))
              || (v.cinder.Some? && v.cinder.value.secretRef.Some? && v.cinder.value.secretRef.value.name != "" &&
                  ref == Reference(v.cinder.value.secretRef.value.name, path + ".cinder.secretRef.name", "", "", None))
              || (v.flexVolume.Some? && v.flexVolume.value.secretRef.Some? &&
                  v.flexVolume.value.secretRef.value.name != "" &&
                  ref == Reference(v.flexVolume.value.secretRef.value.name, path + ".flexVolume.secretRef.name",
                                   "", "", None))
              || (v.iscsi.Some? && v.iscsi.value.secretRef.Some? && v.iscsi.value.secretRef.value.name != "" &&
                  ref == Reference(v.iscsi.value.secretRef.value.name, path + ".iscsi.secretRef.name", "", "", None))
              || (v.rbd.Some? && v.rbd.value.secretRef.Some? && v.rbd.value.secretRef.value.name != "" &&
                  ref == Reference(v.rbd.value.secretRef.value.name, path + ".rbd.secretRef.name", "", "", None))
              || (v.scaleIO.Some? && v.scaleIO.value.secretRef.Some? && v.scaleIO.value.secretRef.value.name != "" &&
                  ref == Reference(v.scaleIO.value.secretRef.value.name, path + ".scaleIO.secretRef.name",
                      "", "", None))
              || (v.storageos.Some? && v.storageos.value.secretRef.Some? &&
                  v.storageos.value.secretRef.value.name != "" &&
                  ref == Reference(v.storageos.value.secretRef.value.name, path + ".storageos.secretRef.name",
                      "", "", None))
  {
    hide ByName;
    InByName(SecretRefOf(v.cephfs), path + ".cephfs.secretRef.name", ref);
    InByName(SecretRefOf(v.cinder), path + ".cinder.secretRef.name", ref);
    InByName(SecretRefOf(v.flexVolume), path + ".flexVolume.secretRef.name", ref);
    InByName(SecretRefOf(v.iscsi), path + ".iscsi.secretRef.name", ref);
    InByName(SecretRefOf(v.rbd), path + ".rbd.secretRef.name", ref);
    InByName(SecretRefOf(v.scaleIO), path + ".scaleIO.secretRef.name", ref);
    InByName(SecretRefOf(v.storageos), path + ".storageos.secretRef.name", ref);
  }

  lemma InProjectedFields(sources: seq<VolumeProjection>, path: string, ref: Reference)
    ensures ref in SourceFields(sources, |sources|, path + ".projected" + ".sources") <==>
        exists j :: InSource(sources, j, path, ref)
  {
    hide Decimal, SourceFields, InSource;
    var at := path + ".projected" + ".sources";
    InSourceFields(sources, |sources|, at, ref);
    forall j | 0 <= j < |sources| ensures ref in SourceField(sources[j], at + "[" + Decimal(j) + "]") <==>
        InSource(sources, j, path, ref) {
      InOneSource(sources, j, path, ref);
    }
    assert forall j :: InSource(sources, j, path, ref) ==> 0 <= j < |sources| by {
      SourceIndexIsInRange(sources, path, ref);
    }
  }

  lemma SourceIndexIsInRange(sources: seq<VolumeProjection>, path: string, ref: Reference)
    ensures forall j :: InSource(sources, j, path, ref) ==> 0 <= j < |sources|
  {
    hide Decimal;
  }

  lemma InOneSource(sources: seq<VolumeProjection>, j: nat, path: string, ref: Reference)
    requires j < |sources|
    ensures ref in SourceField(sources[j], path + ".projected" + ".sources" + "[" + Decimal(j) + "]") <==>
        InSource(sources, j, path, ref)
  {
    hide Decimal;
    ProjectedPlace(path, Decimal(j));
  }

  lemma ProjectedPlace(path: string, index: string)
    ensures path + ".projected" + ".sources" + "[" + index + "]" + ".secret.name" ==
        path + ".projected.sources[" + index + "].secret.name"
  {
    assert ".projected" + ".sources" == ".projected.sources" && ".projected.sources" + "[" == ".projected.sources[";
    assert "]" + ".secret.name" == "].secret.name";
  }

  /** The references of one container are those of its environment variables and of its envFrom sources. */
  lemma InContainerFields(c: PodContainer, path: string, ref: Reference)
    ensures ref in ContainerFields(c, path) <==>
              || (exists j :: 0 <= j < |c.env| && ref in EnvField(c.env[j], path + ".env[" + Decimal(j) + "]", c.name))
              || (exists j ::
                    && 0 <= j < |c.envFrom|
                    && ref in EnvFromField(c.envFrom[j], path + ".envFrom[" + Decimal(j) + "]", c.name))
  {
    hide Decimal, EnvFields, EnvFromFields, EnvField, EnvFromField;
    InEnvFields(c.env, |c.env|, path + ".env", c.name, ref);
    InEnvFromFields(c.envFrom, |c.envFrom|, path + ".envFrom", c.name, ref);
    OpenBracket(path, ".env", ".env[");
    OpenBracket(path, ".envFrom", ".envFrom[");
  }

  lemma OpenBracket(path: string, member: string, text: string)
    requires member + "[" == text
    ensures (path + member) + "[" == path + text
  {
  }

  lemma InEnvField(e: EnvVar, path: string, container: string, ref: Reference)
    ensures ref in EnvField(e, path, container) <==>
              && e.valueFrom.Some? && e.valueFrom.value.secretKeyRef.Some?
              && e.valueFrom.value.secretKeyRef.value.name != ""
              && ref == Reference(e.valueFrom.value.secretKeyRef.value.name,
                                  path + ".valueFrom.secretKeyRef.name", container,
                                  e.valueFrom.value.secretKeyRef.value.key,
                                  e.valueFrom.value.secretKeyRef.value.optional)
  {
  }

  lemma InEnvFromField(e: EnvFromSource, path: string, container: string, ref: Reference)
    ensures ref in EnvFromField(e, path, container) <==>
              && e.secretRef.Some? && e.secretRef.value.name != ""
              && ref == Reference(e.secretRef.value.name, path + ".secretRef.name", container, "",
                  e.secretRef.value.optional)
  {
  }

  /**
   The references of a Pod specification are those of its pull Secrets, its volumes and its
   three lists of containers.
   */
  lemma InPodFields(spec: PodSpec, prefix: string, ref: Reference)
    ensures ref in PodFields(spec, prefix) <==>
              || (exists i :: 0 <= i < |spec.imagePullSecrets| && spec.imagePullSecrets[i].name != "" &&
                    ref == Reference(spec.imagePullSecrets[i].name,
                        prefix + ".imagePullSecrets[" + Decimal(i) + "].name", "", "", None))
              || (exists i ::
                    && 0 <= i < |spec.volumes|
                    && ref in VolumeFields(spec.volumes[i], prefix + ".volumes[" + Decimal(i) + "]"))
              || (exists i :: 0 <= i < |spec.initContainers| &&
                    ref in ContainerFields(spec.initContainers[i], prefix + ".initContainers[" + Decimal(i) + "]"))
              || (exists i :: 0 <= i < |spec.containers| &&
                    ref in ContainerFields(spec.containers[i], prefix + ".containers[" + Decimal(i) + "]"))
              || (exists i :: 0 <= i < |spec.ephemeralContainers| &&
                    ref in ContainerFields(spec.ephemeralContainers[i],
                        prefix + ".ephemeralContainers[" + Decimal(i) + "]"))
  {
    hide Decimal, PullFields, VolumesFields, VolumeFields, ContainersFields, ContainerFields;
    InPulls(spec.imagePullSecrets, prefix, ".imagePullSecrets", ".imagePullSecrets[", ref);
    InVolumesFields(spec.volumes, |spec.volumes|, prefix + ".volumes", ref);
    InContainersFields(spec.initContainers, |spec.initContainers|, prefix + ".initContainers", ref);
    InContainersFields(spec.containers, |spec.containers|, prefix + ".containers", ref);
    InContainersFields(spec.ephemeralContainers, |spec.ephemeralContainers|, prefix + ".ephemeralContainers", ref);
    OpenBracket(prefix, ".volumes", ".volumes[");
    OpenBracket(prefix, ".initContainers", ".initContainers[");
    OpenBracket(prefix, ".containers", ".containers[");
    OpenBracket(prefix, ".ephemeralContainers", ".ephemeralContainers[");
  }

  lemma InPulls(pulls: seq<LocalReference>, prefix: string, member: string, text: string, ref: Reference)
    requires member + "[" == text
    ensures ref in PullFields(pulls, |pulls|, prefix + member) <==>
              exists i :: 0 <= i < |pulls| && pulls[i].name != "" &&
                ref == Reference(pulls[i].name, prefix + text + Decimal(i) + "].name", "", "", None)
  {
    hide Decimal, PullFields;
    InPullFields(pulls, |pulls|, prefix + member, ref);
    OpenBracket(prefix, member, text);
    forall i | 0 <= i < |pulls|
      ensures prefix + member + "[" + Decimal(i) + "]" + ".name" == prefix + text + Decimal(i) + "].name"
    {
      PullPlace(prefix + text, Decimal(i));
    }
  }

  lemma PullPlace(path: string, index: string)
    ensures path + index + "]" + ".name" == path + index + "].name"
  {
    CloseBracket(path + index, ".name", "].name");
  }

  lemma CloseBracket(path: string, member: string, text: string)
    requires "]" + member == text
    ensures (path + "]") + member == path + text
  {
  }

  lemma InEnvAt(e: EnvVar, path: string, index: string, container: string, ref: Reference)
    ensures ref in EnvField(e, path + ".env[" + index + "]", container) <==>
              && e.valueFrom.Some? && e.valueFrom.value.secretKeyRef.Some?
              && e.valueFrom.value.secretKeyRef.value.name != ""
              && ref == Reference(e.valueFrom.value.secretKeyRef.value.name,
                                  path + ".env[" + index + "].valueFrom.secretKeyRef.name", container,
                                  e.valueFrom.value.secretKeyRef.value.key,
                                  e.valueFrom.value.secretKeyRef.value.optional)
  {
    hide EnvField;
    InEnvField(e, path + ".env[" + index + "]", container, ref);
    EnvTexts();
    CloseBracket(path + ".env[" + index, ".valueFrom.secretKeyRef.name", "].valueFrom.secretKeyRef.name");
  }

  lemma InEnvFromAt(e: EnvFromSource, path: string, index: string, container: string, ref: Reference)
    ensures ref in EnvFromField(e, path + ".envFrom[" + index + "]", container) <==>
              && e.secretRef.Some? && e.secretRef.value.name != ""
              && ref == Reference(e.secretRef.value.name, path + ".envFrom[" + index + "].secretRef.name",
                                  container, "", e.secretRef.value.optional)
  {
    hide EnvFromField;
    InEnvFromField(e, path + ".envFrom[" + index + "]", container, ref);
    CloseBracket(path + ".envFrom[" + index, ".secretRef.name", "].secretRef.name");
  }

  /**
   So what scanning a container finds are the names in its environment variables and envFrom
   sources, and nothing else.
   */
  lemma ScannedContainerIs(c: PodContainer, path: string, ref: Reference)
    ensures ref in Scanned(path, CONTAINER_SHAPE, ContainerTree(c), "") <==>
              || (exists j ::
                    && 0 <= j < |c.env| && c.env[j].valueFrom.Some? && c.env[j].valueFrom.value.secretKeyRef.Some?
                    && c.env[j].valueFrom.value.secretKeyRef.value.name != ""
                    && ref == Reference(c.env[j].valueFrom.value.secretKeyRef.value.name,
                                        path + ".env[" + Decimal(j) + "].valueFrom.secretKeyRef.name", c.name,
                                        c.env[j].valueFrom.value.secretKeyRef.value.key,
                                        c.env[j].valueFrom.value.secretKeyRef.value.optional))
              || (exists j ::
                    && 0 <= j < |c.envFrom| && c.envFrom[j].secretRef.Some? && c.envFrom[j].secretRef.value.name != ""
                    && ref == Reference(c.envFrom[j].secretRef.value.name,
                                        path + ".envFrom[" + Decimal(j) + "].secretRef.name",
                                        c.name, "", c.envFrom[j].secretRef.value.optional))
  {
    hide Decimal, Scanned, ContainerFields, EnvField, EnvFromField, ContainerTree;
    ContainerIs(c, path);
    InContainerFields(c, path, ref);
    forall j | 0 <= j < |c.env| {
      InEnvAt(c.env[j], path, Decimal(j), c.name, ref);
    }
    forall j | 0 <= j < |c.envFrom| {
      InEnvFromAt(c.envFrom[j], path, Decimal(j), c.name, ref);
    }
  }

  /* ---------- Every tracked field, spelled out ---------- */

  lemma PullSecretIsFound(r: Resource, prefix: string, spec: PodSpec, i: nat)
    requires
      || (r.Pod? && r.spec == spec && prefix == ".spec")
      || ((r.Deployment? || r.StatefulSet? || r.DaemonSet? || r.ReplicaSet? || r.Job?) && r.spec == spec
          && prefix == ".spec.template.spec")
      || (r.CronJob? && r.spec == spec && prefix == ".spec.jobTemplate.spec.template.spec")
      || (r.ReplicationController? && r.podTemplate == Some(spec) && prefix == ".spec.template.spec")
    requires i < |spec.imagePullSecrets| && spec.imagePullSecrets[i].name != ""
    ensures Reference(spec.imagePullSecrets[i].name, prefix + ".imagePullSecrets[" + Decimal(i) + "].name",
        "", "", None) in ScannedOf(r)
  {
    hide Decimal, PodFields, VolumeFields, ContainerFields, ScannedOf;
    PodReferencesAre(r, prefix, spec);
    InPodFields(spec, prefix,
        Reference(spec.imagePullSecrets[i].name, prefix + ".imagePullSecrets[" + Decimal(i) + "].name", "", "", None));
  }

  lemma SingleSourcesAreIn(v: Volume, at: string)
    ensures v.secret.Some? && v.secret.value.secretName != "" ==>
              Reference(v.secret.value.secretName, at + ".secret.secretName",
                  "", "", v.secret.value.optional) in VolumeFields(v, at)
    ensures (v.csi.Some? && v.csi.value.nodePublishSecretRef.Some? &&
             v.csi.value.nodePublishSecretRef.value.name != "") ==>
              Reference(v.csi.value.nodePublishSecretRef.value.name, at + ".csi.nodePublishSecretRef.name",
                  "", "", None) in VolumeFields(v, at)
    ensures v.azureFile.Some? && v.azureFile.value.secretName != "" ==>
              Reference(v.azureFile.value.secretName, at + ".azureFile.secretName", "", "", None) in VolumeFields(v, at)
  {
    hide VolumeFields, DriverFields, InSource;
    if v.secret.Some? {
      InVolumeFields(v, at,
          Reference(v.secret.value.secretName, at + ".secret.secretName", "", "", v.secret.value.optional));
    }
    if v.csi.Some? && v.csi.value.nodePublishSecretRef.Some? {
      InVolumeFields(v, at,
          Reference(v.csi.value.nodePublishSecretRef.value.name, at + ".csi.nodePublishSecretRef.name", "", "", None));
    }
    if v.azureFile.Some? {
      InVolumeFields(v, at, Reference(v.azureFile.value.secretName, at + ".azureFile.secretName", "", "", None));
    }
  }

  /** Every Secret a volume of a Pod specification names by itself is found, at its own path. */
  lemma VolumeSecretsAreFound(r: Resource, prefix: string, spec: PodSpec, i: nat)
    requires
      || (r.Pod? && r.spec == spec && prefix == ".spec")
      || ((r.Deployment? || r.StatefulSet? || r.DaemonSet? || r.ReplicaSet? || r.Job?) && r.spec == spec
          && prefix == ".spec.template.spec")
      || (r.CronJob? && r.spec == spec && prefix == ".spec.jobTemplate.spec.template.spec")
      || (r.ReplicationController? && r.podTemplate == Some(spec) && prefix == ".spec.template.spec")
    requires i < |spec.volumes|
    ensures var v, at := spec.volumes[i], prefix + ".volumes[" + Decimal(i) + "]";
            && (v.secret.Some? && v.secret.value.secretName != "" ==>
                  Reference(v.secret.value.secretName, at + ".secret.secretName",
                      "", "", v.secret.value.optional) in ScannedOf(r))
            && (v.csi.Some? && v.csi.value.nodePublishSecretRef.Some?
                && v.csi.value.nodePublishSecretRef.value.name != "" ==>
                  Reference(v.csi.value.nodePublishSecretRef.value.name, at + ".csi.nodePublishSecretRef.name",
                      "", "", None) in ScannedOf(r))
            && (v.azureFile.Some? && v.azureFile.value.secretName != "" ==>
                  Reference(v.azureFile.value.secretName, at + ".azureFile.secretName", "", "", None) in ScannedOf(r))
  {
    hide Decimal, VolumeFields, ScannedOf;
    var v, at := spec.volumes[i], prefix + ".volumes[" + Decimal(i) + "]";
    forall ref ensures ref in VolumeFields(v, at) ==> ref in ScannedOf(r) {
      VolumeFieldIsFound(r, prefix, spec, i, ref);
    }
    SingleSourcesAreIn(v, at);
  }

  /** Every Secret a source of a projected volume names is found. */
  lemma ProjectedSecretIsFound(r: Resource, prefix: string, spec: PodSpec, i: nat, j: nat)
    requires
      || (r.Pod? && r.spec == spec && prefix == ".spec")
      || ((r.Deployment? || r.StatefulSet? || r.DaemonSet? || r.ReplicaSet? || r.Job?) && r.spec == spec
          && prefix == ".spec.template.spec")
      || (r.CronJob? && r.spec == spec && prefix == ".spec.jobTemplate.spec.template.spec")
      || (r.ReplicationController? && r.podTemplate == Some(spec) && prefix == ".spec.template.spec")
    requires i < |spec.volumes| && spec.volumes[i].projected.Some? && j < |spec.volumes[i].projected.value.sources|
    requires var source := spec.volumes[i].projected.value.sources[j];
             source.secret.Some? && source.secret.value.name != ""
    ensures var s := spec.volumes[i].projected.value.sources[j].secret.value;
            Reference(s.name,
                      prefix + ".volumes[" + Decimal(i) + "].projected.sources[" + Decimal(j) + "].secret.name",
                      "", "", s.optional)
              in ScannedOf(r)
  {
    hide Decimal, VolumeFields, ScannedOf, DriverFields;
    var v, at := spec.volumes[i], prefix + ".volumes[" + Decimal(i) + "]";
    var s := v.projected.value.sources[j].secret.value;
    ClosedAndProjected(prefix + ".volumes[" + Decimal(i), Decimal(j));
    var ref := Reference(s.name, at + ".projected.sources[" + Decimal(j) + "].secret.name", "", "", s.optional);
    assert InSource(v.projected.value.sources, j, at, ref);
    hide InSource;
    InVolumeFields(v, at, ref);
    VolumeFieldIsFound(r, prefix, spec, i, ref);
  }

  lemma ClosedAndProjected(path: string, index: string)
    ensures path + "]" + ".projected.sources[" + index + "].secret.name" ==
        path + "].projected.sources[" + index + "].secret.name"
  {
    CloseBracket(path, ".projected.sources[", "].projected.sources[");
  }

  lemma VolumeFieldIsFound(r: Resource, prefix: string, spec: PodSpec, i: nat, ref: Reference)
    requires
      || (r.Pod? && r.spec == spec && prefix == ".spec")
      || ((r.Deployment? || r.StatefulSet? || r.DaemonSet? || r.ReplicaSet? || r.Job?) && r.spec == spec
          && prefix == ".spec.template.spec")
      || (r.CronJob? && r.spec == spec && prefix == ".spec.jobTemplate.spec.template.spec")
      || (r.ReplicationController? && r.podTemplate == Some(spec) && prefix == ".spec.template.spec")
    requires i < |spec.volumes|
    ensures ref in VolumeFields(spec.volumes[i], prefix + ".volumes[" + Decimal(i) + "]") ==> ref in ScannedOf(r)
  {
    hide Decimal, PodFields, VolumeFields, ContainerFields, ScannedOf;
    PodReferencesAre(r, prefix, spec);
    InPodFields(spec, prefix, ref);
  }

  /** The same for the in-tree storage drivers. */
  lemma DriverSecretsAreFound(r: Resource, prefix: string, spec: PodSpec, i: nat)
    requires
      || (r.Pod? && r.spec == spec && prefix == ".spec")
      || ((r.Deployment? || r.StatefulSet? || r.DaemonSet? || r.ReplicaSet? || r.Job?) && r.spec == spec
          && prefix == ".spec.template.spec")
      || (r.CronJob? && r.spec == spec && prefix == ".spec.jobTemplate.spec.template.spec")
      || (r.ReplicationController? && r.podTemplate == Some(spec) && prefix == ".spec.template.spec")
    requires i < |spec.volumes|
    ensures var v, at := spec.volumes[i], prefix + ".volumes[" + Decimal(i) + "]";
            && (v.cephfs.Some? && v.cephfs.value.secretRef.Some? && v.cephfs.value.secretRef.value.name != "" ==>
                  Reference(v.cephfs.value.secretRef.value.name, at + ".cephfs.secretRef.name",
                      "", "", None) in ScannedOf(r))
            && (v.cinder.Some? && v.cinder.value.secretRef.Some? && v.cinder.value.secretRef.value.name != "" ==>
                  Reference(v.cinder.value.secretRef.value.name, at + ".cinder.secretRef.name",
                      "", "", None) in ScannedOf(r))
            && (v.flexVolume.Some? && v.flexVolume.value.secretRef.Some?
                && v.flexVolume.value.secretRef.value.name != "" ==>
                  Reference(v.flexVolume.value.secretRef.value.name, at + ".flexVolume.secretRef.name",
                      "", "", None) in ScannedOf(r))
            && (v.iscsi.Some? && v.iscsi.value.secretRef.Some? && v.iscsi.value.secretRef.value.name != "" ==>
                  Reference(v.iscsi.value.secretRef.value.name, at + ".iscsi.secretRef.name",
                      "", "", None) in ScannedOf(r))
            && (v.rbd.Some? && v.rbd.value.secretRef.Some? && v.rbd.value.secretRef.value.name != "" ==>
                  Reference(v.rbd.value.secretRef.value.name, at + ".rbd.secretRef.name", "", "", None) in ScannedOf(r))
            && (v.scaleIO.Some? && v.scaleIO.value.secretRef.Some? && v.scaleIO.value.secretRef.value.name != "" ==>
                  Reference(v.scaleIO.value.secretRef.value.name, at + ".scaleIO.secretRef.name",
                      "", "", None) in ScannedOf(r))
            && (v.storageos.Some? && v.storageos.value.secretRef.Some?
                && v.storageos.value.secretRef.value.name != "" ==>
                  Reference(v.storageos.value.secretRef.value.name, at + ".storageos.secretRef.name",
                      "", "", None) in ScannedOf(r))
  {
    hide Decimal, PodFields, VolumeFields, ContainerFields, ScannedOf, DriverFields;
    var v, at := spec.volumes[i], prefix + ".volumes[" + Decimal(i) + "]";
    forall ref ensures ref in DriverFields(v, at) ==> ref in ScannedOf(r) {
      VolumeFieldIsFound(r, prefix, spec, i, ref);
      InVolumeFields(v, at, ref);
    }
    if v.cephfs.Some? && v.cephfs.value.secretRef.Some? {
      InDriverFields(v, at,
          Reference(v.cephfs.value.secretRef.value.name, at + ".cephfs.secretRef.name", "", "", None));
    }
    if v.cinder.Some? && v.cinder.value.secretRef.Some? {
      InDriverFields(v, at,
          Reference(v.cinder.value.secretRef.value.name, at + ".cinder.secretRef.name", "", "", None));
    }
    if v.flexVolume.Some? && v.flexVolume.value.secretRef.Some? {
      InDriverFields(v, at,
          Reference(v.flexVolume.value.secretRef.value.name, at + ".flexVolume.secretRef.name", "", "", None));
    }
    if v.iscsi.Some? && v.iscsi.value.secretRef.Some? {
      InDriverFields(v, at, Reference(v.iscsi.value.secretRef.value.name, at + ".iscsi.secretRef.name", "", "", None));
    }
    if v.rbd.Some? && v.rbd.value.secretRef.Some? {
      InDriverFields(v, at, Reference(v.rbd.value.secretRef.value.name, at + ".rbd.secretRef.name", "", "", None));
    }
    if v.scaleIO.Some? && v.scaleIO.value.secretRef.Some? {
      InDriverFields(v, at,
          Reference(v.scaleIO.value.secretRef.value.name, at + ".scaleIO.secretRef.name", "", "", None));
    }
    if v.storageos.Some? && v.storageos.value.secretRef.Some? {
      InDriverFields(v, at,
          Reference(v.storageos.value.secretRef.value.name, at + ".storageos.secretRef.name", "", "", None));
    }
  }

  lemma ContainerFieldIsFound(r: Resource, prefix: string, spec: PodSpec, list: string, containers: seq<PodContainer>,
      i: nat, ref: Reference)
    requires
      || (r.Pod? && r.spec == spec && prefix == ".spec")
      || ((r.Deployment? || r.StatefulSet? || r.DaemonSet? || r.ReplicaSet? || r.Job?) && r.spec == spec
          && prefix == ".spec.template.spec")
      || (r.CronJob? && r.spec == spec && prefix == ".spec.jobTemplate.spec.template.spec")
      || (r.ReplicationController? && r.podTemplate == Some(spec) && prefix == ".spec.template.spec")
    requires
      || (list == ".initContainers[" && containers == spec.initContainers)
      || (list == ".containers[" && containers == spec.containers)
      || (list == ".ephemeralContainers[" && containers == spec.ephemeralContainers)
    requires i < |containers|
    ensures ref in ContainerFields(containers[i], prefix + list + Decimal(i) + "]") ==> ref in ScannedOf(r)
  {
    hide Decimal, PodFields, VolumeFields, ContainerFields, ScannedOf;
    PodReferencesAre(r, prefix, spec);
    InPodFields(spec, prefix, ref);
  }

  lemma EnvTexts()
    ensures "]" + ".env[" == "].env[" && "]" + ".valueFrom.secretKeyRef.name" == "].valueFrom.secretKeyRef.name"
  {
  }

  lemma EnvPlace(path: string, index: string)
    ensures path + "]" + ".env[" + index + "]" + ".valueFrom.secretKeyRef.name" ==
        path + "].env[" + index + "].valueFrom.secretKeyRef.name"
  {
    EnvTexts();
    CloseBracket(path, ".env[", "].env[");
    CloseBracket(path + "].env[" + index, ".valueFrom.secretKeyRef.name", "].valueFrom.secretKeyRef.name");
  }

  lemma EnvFromPlace(path: string, index: string)
    ensures path + "]" + ".envFrom[" + index + "]" + ".secretRef.name" ==
        path + "].envFrom[" + index + "].secretRef.name"
  {
    CloseBracket(path, ".envFrom[", "].envFrom[");
    CloseBracket(path + "].envFrom[" + index, ".secretRef.name", "].secretRef.name");
  }

  /**
   Every Secret an environment variable names is found, with its container, key and optional
   mark, in all three lists of containers.
   */
  lemma EnvSecretIsFound(r: Resource, prefix: string, spec: PodSpec, list: string, containers: seq<PodContainer>,
      i: nat, j: nat)
    requires
      || (r.Pod? && r.spec == spec && prefix == ".spec")
      || ((r.Deployment? || r.StatefulSet? || r.DaemonSet? || r.ReplicaSet? || r.Job?) && r.spec == spec
          && prefix == ".spec.template.spec")
      || (r.CronJob? && r.spec == spec && prefix == ".spec.jobTemplate.spec.template.spec")
      || (r.ReplicationController? && r.podTemplate == Some(spec) && prefix == ".spec.template.spec")
    requires
      || (list == ".initContainers[" && containers == spec.initContainers)
      || (list == ".containers[" && containers == spec.containers)
      || (list == ".ephemeralContainers[" && containers == spec.ephemeralContainers)
    requires i < |containers| && j < |containers[i].env|
    requires var e := containers[i].env[j];
             && e.valueFrom.Some? && e.valueFrom.value.secretKeyRef.Some?
             && e.valueFrom.value.secretKeyRef.value.name != ""
    ensures var s := containers[i].env[j].valueFrom.value.secretKeyRef.value;
            Reference(s.name, prefix + list + Decimal(i) + "].env[" + Decimal(j) + "].valueFrom.secretKeyRef.name",
                      containers[i].name, s.key, s.optional) in ScannedOf(r)
  {
    hide Decimal, ContainerFields, ScannedOf, EnvField, EnvFromField;
    var c, at := containers[i], prefix + list + Decimal(i) + "]";
    var s := c.env[j].valueFrom.value.secretKeyRef.value;
    EnvPlace(prefix + list + Decimal(i), Decimal(j));
    var ref := Reference(s.name, at + ".env[" + Decimal(j) + "]" + ".valueFrom.secretKeyRef.name", c.name, s.key,
        s.optional);
    InEnvField(c.env[j], at + ".env[" + Decimal(j) + "]", c.name, ref);
    InContainerFields(c, at, ref);
    ContainerFieldIsFound(r, prefix, spec, list, containers, i, ref);
  }

  /** And every Secret an envFrom source names. */
  lemma EnvFromSecretIsFound(r: Resource, prefix: string, spec: PodSpec, list: string, containers: seq<PodContainer>,
      i: nat, j: nat)
    requires
      || (r.Pod? && r.spec == spec && prefix == ".spec")
      || ((r.Deployment? || r.StatefulSet? || r.DaemonSet? || r.ReplicaSet? || r.Job?) && r.spec == spec
          && prefix == ".spec.template.spec")
      || (r.CronJob? && r.spec == spec && prefix == ".spec.jobTemplate.spec.template.spec")
      || (r.ReplicationController? && r.podTemplate == Some(spec) && prefix == ".spec.template.spec")
    requires
      || (list == ".initContainers[" && containers == spec.initContainers)
      || (list == ".containers[" && containers == spec.containers)
      || (list == ".ephemeralContainers[" && containers == spec.ephemeralContainers)
    requires i < |containers| && j < |containers[i].envFrom|
    requires var e := containers[i].envFrom[j]; e.secretRef.Some? && e.secretRef.value.name != ""
    ensures var s := containers[i].envFrom[j].secretRef.value;
            Reference(s.name, prefix + list + Decimal(i) + "].envFrom[" + Decimal(j) + "].secretRef.name",
                      containers[i].name, "", s.optional) in ScannedOf(r)
  {
    hide Decimal, ContainerFields, ScannedOf, EnvField, EnvFromField;
    var c, at := containers[i], prefix + list + Decimal(i) + "]";
    var s := c.envFrom[j].secretRef.value;
    EnvFromPlace(prefix + list + Decimal(i), Decimal(j));
    var ref := Reference(s.name, at + ".envFrom[" + Decimal(j) + "]" + ".secretRef.name", c.name, "", s.optional);
    InEnvFromField(c.envFrom[j], at + ".envFrom[" + Decimal(j) + "]", c.name, ref);
    InContainerFields(c, at, ref);
    ContainerFieldIsFound(r, prefix, spec, list, containers, i, ref);
  }

  lemma AccountReferencesAre(r: Resource)
    requires r.ServiceAccount?
    ensures ScannedOf(r) ==
            PullFields(r.secrets, |r.secrets|, ".secrets")
            + PullFields(r.imagePullSecrets, |r.imagePullSecrets|, ".imagePullSecrets")
  {
    hide Scanned, ScannedItems, Dot, JsonName, PullFields;
    AccountTexts();
    DotIs("", Secrets, ".secrets");
    DotIs("", ImagePullSecrets, ".imagePullSecrets");
    assert "" + ".secrets" == ".secrets" && "" + ".imagePullSecrets" == ".imagePullSecrets";
    ScannedNested("", Secrets, Each(REFERENCE_SHAPE), FROM_IMAGE_PULL_SECRETS, ResourceTree(r), "");
    ScannedOnly("", ImagePullSecrets, Each(REFERENCE_SHAPE), ResourceTree(r), "");
    ScannedEach(".secrets", REFERENCE_SHAPE, ListOf(r.secrets, ReferenceTree).items, "");
    ScannedEach(".imagePullSecrets", REFERENCE_SHAPE, ListOf(r.imagePullSecrets, ReferenceTree).items, "");
    PullsAre(r.secrets, |r.secrets|, ".secrets");
    PullsAre(r.imagePullSecrets, |r.imagePullSecrets|, ".imagePullSecrets");
  }

  lemma AccountTexts()
    ensures "." + JsonName(Secrets) == ".secrets" && "." + JsonName(ImagePullSecrets) == ".imagePullSecrets"
    ensures "." + JsonName(Tls) == ".tls" && ".spec" + ".tls" == ".spec.tls"
  {
  }

  /** The references of a ServiceAccount are those of its two lists. */
  lemma InAccountFields(r: Resource, ref: Reference)
    requires r.ServiceAccount?
    ensures ref in ScannedOf(r) <==>
              || (exists i :: 0 <= i < |r.secrets| && r.secrets[i].name != "" &&
                    ref == Reference(r.secrets[i].name, ".secrets[" + Decimal(i) + "].name", "", "", None))
              || (exists i :: 0 <= i < |r.imagePullSecrets| && r.imagePullSecrets[i].name != "" &&
                    ref == Reference(r.imagePullSecrets[i].name, ".imagePullSecrets[" + Decimal(i) + "].name",
                        "", "", None))
  {
    hide Decimal, PullFields, ScannedOf;
    AccountReferencesAre(r);
    InPulls(r.secrets, "", ".secrets", ".secrets[", ref);
    InPulls(r.imagePullSecrets, "", ".imagePullSecrets", ".imagePullSecrets[", ref);
    assert "" + ".secrets" == ".secrets" && "" + ".imagePullSecrets" == ".imagePullSecrets";
    assert "" + ".secrets[" == ".secrets[" && "" + ".imagePullSecrets[" == ".imagePullSecrets[";
  }

  lemma IngressReferencesAre(r: Resource)
    requires r.Ingress?
    ensures ScannedOf(r) == TLSFields(r.tls, |r.tls|, ".spec.tls")
  {
    hide Scanned, ScannedItems, Dot, JsonName, TLSFields;
    AccountTexts();
    SpecTexts();
    DotIs("", Spec, ".spec");
    DotIs(".spec", Tls, ".tls");
    assert "" + ".spec" == ".spec";
    var item := NamesSecret(SecretName, Nothing);
    ScannedOnly("", Spec, Nested(Tls, Each(item), Nothing), ResourceTree(r), "");
    ScannedOnly(".spec", Tls, Each(item), Get(ResourceTree(r), Spec), "");
    ScannedEach(".spec.tls", item, ListOf(r.tls, TLSTree).items, "");
    TLSAre(r.tls, |r.tls|, ".spec.tls");
  }

  /** The references of an Ingress are those of its TLS entries. */
  lemma InIngressFields(r: Resource, ref: Reference)
    requires r.Ingress?
    ensures ref in ScannedOf(r) <==>
              exists i :: 0 <= i < |r.tls| && r.tls[i].secretName != "" &&
                ref == Reference(r.tls[i].secretName, ".spec.tls[" + Decimal(i) + "].secretName", "", "", None)
  {
    hide Decimal, TLSFields, ScannedOf;
    IngressReferencesAre(r);
    InTLSFields(r.tls, |r.tls|, ".spec.tls", ref);
    OpenBracket("", ".spec.tls", ".spec.tls[");
    assert "" + ".spec.tls" == ".spec.tls" && "" + ".spec.tls[" == ".spec.tls[";
    forall i | 0 <= i < |r.tls|
      ensures ".spec.tls" + "[" + Decimal(i) + "]" + ".secretName" == ".spec.tls[" + Decimal(i) + "].secretName"
    {
      CloseBracket(".spec.tls[" + Decimal(i), ".secretName", "].secretName");
    }
  }

  /** A ReplicationController without a template and a custom resource have no built-in references. */
  lemma OthersNameNothing(r: Resource)
    requires r.Custom? || (r.ReplicationController? && r.podTemplate.None?)
    ensures ScannedOf(r) == []
  {
    hide Scanned;
    if r.Custom? {
      ScannedNothing("", Absent, "");
    } else {
      ScannedTemplate("", None);
    }
  }

  /* ---------- How many ---------- */

  function Named(name: string): nat {
    if name == "" then 0 else 1
  }

  function NamedBy(r: Option<LocalReference>): nat {
    match r case None => 0 case Some(ref) => Named(ref.name)
  }

  function CountPulls(pulls: seq<LocalReference>): nat {
    if pulls == [] then 0 else CountPulls(pulls[..|pulls| - 1]) + Named(pulls[|pulls| - 1].name)
  }

  function CountTLS(tls: seq<IngressTLS>): nat {
    if tls == [] then 0 else CountTLS(tls[..|tls| - 1]) + Named(tls[|tls| - 1].secretName)
  }

  function CountSources(sources: seq<VolumeProjection>): nat {
    if sources == [] then 0
    else
      CountSources(sources[..|sources| - 1])
      + match sources[|sources| - 1].secret case None => 0 case Some(s) => Named(s.name)
  }

  function CountVolume(v: Volume): nat {
    (match v.secret case None => 0 case Some(s) => Named(s.secretName))
    + (match v.projected case None => 0 case Some(p) => CountSources(p.sources))
    + (match v.azureFile case None => 0 case Some(a) => Named(a.secretName))
    + NamedBy(NodePublishRefOf(v.csi))
    + NamedBy(SecretRefOf(v.cephfs)) + NamedBy(SecretRefOf(v.cinder)) + NamedBy(SecretRefOf(v.flexVolume))
    + NamedBy(SecretRefOf(v.iscsi)) + NamedBy(SecretRefOf(v.rbd))
    + NamedBy(SecretRefOf(v.scaleIO)) + NamedBy(SecretRefOf(v.storageos))
  }

  function CountVolumes(volumes: seq<Volume>): nat {
    if volumes == [] then 0 else CountVolumes(volumes[..|volumes| - 1]) + CountVolume(volumes[|volumes| - 1])
  }

  function CountEnv(env: seq<EnvVar>): nat {
    if env == [] then 0
    else
      var last := env[|env| - 1];
      CountEnv(env[..|env| - 1])
      + if last.valueFrom.None? || last.valueFrom.value.secretKeyRef.None? then 0
        else Named(last.valueFrom.value.secretKeyRef.value.name)
  }

  function CountEnvFrom(envFrom: seq<EnvFromSource>): nat {
    if envFrom == [] then 0
    else
      CountEnvFrom(envFrom[..|envFrom| - 1])
      + match envFrom[|envFrom| - 1].secretRef case None => 0 case Some(s) => Named(s.name)
  }

  function CountContainers(containers: seq<PodContainer>): nat {
    if containers == [] then 0
    else
      var last := containers[|containers| - 1];
      CountContainers(containers[..|containers| - 1]) + CountEnv(last.env) + CountEnvFrom(last.envFrom)
  }

  function CountPod(spec: PodSpec): nat {
    CountPulls(spec.imagePullSecrets) + CountVolumes(spec.volumes)
    + CountContainers(spec.initContainers) + CountContainers(spec.containers)
    + CountContainers(spec.ephemeralContainers)
  }

  /** The number of fields of an object that name a Secret. */
  function SecretFieldCount(r: Resource): nat {
    match r
    case Pod(_, spec) => CountPod(spec)
    case Deployment(_, spec) => CountPod(spec)
    case StatefulSet(_, spec) => CountPod(spec)
    case DaemonSet(_, spec) => CountPod(spec)
    case ReplicaSet(_, spec) => CountPod(spec)
    case Job(_, spec) => CountPod(spec)
    case CronJob(_, spec) => CountPod(spec)
    case ReplicationController(_, template) => (match template case None => 0 case Some(spec) => CountPod(spec))
    case ServiceAccount(_, secrets, pulls) => CountPulls(secrets) + CountPulls(pulls)
    case Ingress(_, tls) => CountTLS(tls)
    case Custom(_, _, _) => 0
  }

  lemma {:induction false} PullCount(pulls: seq<LocalReference>, n: nat, path: string)
    requires n <= |pulls|
    ensures |PullFields(pulls, n, path)| == CountPulls(pulls[..n])
  {
    hide Decimal;
    if n > 0 {
      PullCount(pulls, n - 1, path);
      assert pulls[..n][..n - 1] == pulls[..n - 1];
    }
  }

  lemma {:induction false} TLSCount(tls: seq<IngressTLS>, n: nat, path: string)
    requires n <= |tls|
    ensures |TLSFields(tls, n, path)| == CountTLS(tls[..n])
  {
    hide Decimal;
    if n > 0 {
      TLSCount(tls, n - 1, path);
      assert tls[..n][..n - 1] == tls[..n - 1];
    }
  }

  lemma {:induction false} SourceCount(sources: seq<VolumeProjection>, n: nat, path: string)
    requires n <= |sources|
    ensures |SourceFields(sources, n, path)| == CountSources(sources[..n])
  {
    hide Decimal;
    if n > 0 {
      SourceCount(sources, n - 1, path);
      assert sources[..n][..n - 1] == sources[..n - 1];
    }
  }

  lemma ByNameCount(r: Option<LocalReference>, path: string)
    ensures |ByName(r, path)| == NamedBy(r)
  {
  }

  lemma VolumeCount(v: Volume, path: string)
    ensures |VolumeFields(v, path)| == CountVolume(v)
  {
    hide ByName, NamedBy, SourceFields, CountSources, SecretRefOf;
    ByNameCount(NodePublishRefOf(v.csi), path + ".csi.nodePublishSecretRef.name");
    ByNameCount(SecretRefOf(v.cephfs), path + ".cephfs.secretRef.name");
    ByNameCount(SecretRefOf(v.cinder), path + ".cinder.secretRef.name");
    ByNameCount(SecretRefOf(v.flexVolume), path + ".flexVolume.secretRef.name");
    ByNameCount(SecretRefOf(v.iscsi), path + ".iscsi.secretRef.name");
    ByNameCount(SecretRefOf(v.rbd), path + ".rbd.secretRef.name");
    ByNameCount(SecretRefOf(v.scaleIO), path + ".scaleIO.secretRef.name");
    ByNameCount(SecretRefOf(v.storageos), path + ".storageos.secretRef.name");
    if v.projected.Some? {
      var sources := v.projected.value.sources;
      SourceCount(sources, |sources|, path + ".projected" + ".sources");
      assert sources[..|sources|] == sources;
    }
  }

  lemma {:induction false} VolumesCount(volumes: seq<Volume>, n: nat, path: string)
    requires n <= |volumes|
    ensures |VolumesFields(volumes, n, path)| == CountVolumes(volumes[..n])
  {
    hide Decimal, VolumeFields, CountVolume;
    if n > 0 {
      VolumesCount(volumes, n - 1, path);
      VolumeCount(volumes[n - 1], path + "[" + Decimal(n - 1) + "]");
      assert volumes[..n][..n - 1] == volumes[..n - 1];
    }
  }

  lemma {:induction false} EnvCount(env: seq<EnvVar>, n: nat, path: string, container: string)
    requires n <= |env|
    ensures |EnvFields(env, n, path, container)| == CountEnv(env[..n])
  {
    hide Decimal;
    if n > 0 {
      EnvCount(env, n - 1, path, container);
      assert env[..n][..n - 1] == env[..n - 1];
    }
  }

  lemma {:induction false} EnvFromCount(envFrom: seq<EnvFromSource>, n: nat, path: string, container: string)
    requires n <= |envFrom|
    ensures |EnvFromFields(envFrom, n, path, container)| == CountEnvFrom(envFrom[..n])
  {
    hide Decimal;
    if n > 0 {
      EnvFromCount(envFrom, n - 1, path, container);
      assert envFrom[..n][..n - 1] == envFrom[..n - 1];
    }
  }

  lemma ContainerCount(c: PodContainer, path: string)
    ensures |ContainerFields(c, path)| == CountEnv(c.env) + CountEnvFrom(c.envFrom)
  {
    hide EnvFields, EnvFromFields, CountEnv, CountEnvFrom;
    EnvCount(c.env, |c.env|, path + ".env", c.name);
    EnvFromCount(c.envFrom, |c.envFrom|, path + ".envFrom", c.name);
    assert c.env[..|c.env|] == c.env && c.envFrom[..|c.envFrom|] == c.envFrom;
  }

  lemma {:induction false} ContainersCount(containers: seq<PodContainer>, n: nat, path: string)
    requires n <= |containers|
    ensures |ContainersFields(containers, n, path)| == CountContainers(containers[..n])
  {
    hide Decimal, ContainerFields, CountEnv, CountEnvFrom;
    if n > 0 {
      ContainersCount(containers, n - 1, path);
      ContainerCount(containers[n - 1], path + "[" + Decimal(n - 1) + "]");
      assert containers[..n][..n - 1] == containers[..n - 1];
    }
  }

  lemma PodCount(spec: PodSpec, prefix: string)
    ensures |PodFields(spec, prefix)| == CountPod(spec)
  {
    hide PullFields, VolumesFields, ContainersFields, CountPulls, CountVolumes, CountContainers;
    PullCount(spec.imagePullSecrets, |spec.imagePullSecrets|, prefix + ".imagePullSecrets");
    VolumesCount(spec.volumes, |spec.volumes|, prefix + ".volumes");
    ContainersCount(spec.initContainers, |spec.initContainers|, prefix + ".initContainers");
    ContainersCount(spec.containers, |spec.containers|, prefix + ".containers");
    ContainersCount(spec.ephemeralContainers, |spec.ephemeralContainers|, prefix + ".ephemeralContainers");
    assert spec.imagePullSecrets[..|spec.imagePullSecrets|] == spec.imagePullSecrets;
    assert spec.volumes[..|spec.volumes|] == spec.volumes;
    assert spec.initContainers[..|spec.initContainers|] == spec.initContainers;
    assert spec.containers[..|spec.containers|] == spec.containers;
    assert spec.ephemeralContainers[..|spec.ephemeralContainers|] == spec.ephemeralContainers;
  }

  /** An object has as many references as it has fields that name a Secret. */
  lemma OneReferencePerNamingField(r: Resource)
    ensures |ScannedOf(r)| == SecretFieldCount(r)
  {
    hide ScannedOf, PodFields, PullFields, TLSFields, CountPod, CountPulls, CountTLS;
    match r
    case ServiceAccount(_, secrets, pulls) =>
      AccountReferencesAre(r);
      PullCount(secrets, |secrets|, ".secrets");
      PullCount(pulls, |pulls|, ".imagePullSecrets");
      assert secrets[..|secrets|] == secrets && pulls[..|pulls|] == pulls;
    case Ingress(_, tls) =>
      IngressReferencesAre(r);
      TLSCount(tls, |tls|, ".spec.tls");
      assert tls[..|tls|] == tls;
    case Custom(_, _, _) => OthersNameNothing(r);
    case ReplicationController(_, template) =>
      if template.None? {
        OthersNameNothing(r);
      } else {
        PodReferencesAre(r, ".spec.template.spec", template.value);
        PodCount(template.value, ".spec.template.spec");
      }
    case Pod(_, spec) =>
      PodReferencesAre(r, ".spec", spec);
      PodCount(spec, ".spec");
    case CronJob(_, spec) =>
      PodReferencesAre(r, ".spec.jobTemplate.spec.template.spec", spec);
      PodCount(spec, ".spec.jobTemplate.spec.template.spec");
    case _ =>
      PodReferencesAre(r, ".spec.template.spec", r.spec);
      PodCount(r.spec, ".spec.template.spec");
  }
}
