/**
 The objects the controller tracks, reduced to the fields that matter to it: those that
 can name a Secret, the fields around them, and the metadata that identifies the object.
 Beside each type is its JSON document, and for each built-in kind the shape that says
 where in the document Secret names are held.
 */
module Objects {
  import opened Wrappers
  import opened FieldPaths
  import opened Trees

  /* ---------- Pod specifications ---------- */

  datatype LocalReference = LocalReference(name: string)
  datatype SecretVolumeSource = SecretVolumeSource(secretName: string, optional: Option<bool>)
  datatype SecretProjection = SecretProjection(name: string, optional: Option<bool>)
  datatype VolumeProjection = VolumeProjection(secret: Option<SecretProjection>)
  datatype ProjectedVolumeSource = ProjectedVolumeSource(sources: seq<VolumeProjection>)
  datatype CSIVolumeSource = CSIVolumeSource(nodePublishSecretRef: Option<LocalReference>)
  datatype AzureFileVolumeSource = AzureFileVolumeSource(secretName: string)
  /** An in-tree storage driver (CephFS, Cinder, FlexVolume, iSCSI, RBD, ScaleIO, StorageOS). */
  datatype DriverVolumeSource = DriverVolumeSource(secretRef: Option<LocalReference>)

  datatype Volume = Volume(
    secret: Option<SecretVolumeSource>,
    projected: Option<ProjectedVolumeSource>,
    csi: Option<CSIVolumeSource>,
    azureFile: Option<AzureFileVolumeSource>,
    cephfs: Option<DriverVolumeSource>,
    cinder: Option<DriverVolumeSource>,
    flexVolume: Option<DriverVolumeSource>,
    iscsi: Option<DriverVolumeSource>,
    rbd: Option<DriverVolumeSource>,
    scaleIO: Option<DriverVolumeSource>,
    storageos: Option<DriverVolumeSource>)

  datatype SecretKeySelector = SecretKeySelector(name: string, key: string, optional: Option<bool>)
  datatype EnvVarSource = EnvVarSource(secretKeyRef: Option<SecretKeySelector>)
  datatype EnvVar = EnvVar(valueFrom: Option<EnvVarSource>)
  datatype SecretEnvSource = SecretEnvSource(name: string, optional: Option<bool>)
  datatype EnvFromSource = EnvFromSource(secretRef: Option<SecretEnvSource>)
  datatype PodContainer = PodContainer(name: string, env: seq<EnvVar>, envFrom: seq<EnvFromSource>)

  datatype PodSpec = PodSpec(
    imagePullSecrets: seq<LocalReference>,
    volumes: seq<Volume>,
    initContainers: seq<PodContainer>,
    containers: seq<PodContainer>,
    ephemeralContainers: seq<PodContainer>)

  /* ---------- Objects ---------- */

  datatype OwnerReference = OwnerReference(apiVersion: string, kind: string, name: string, controller: Option<bool>)

  datatype Metadata = Metadata(namespace: string, name: string, uid: string, ownerReferences: seq<OwnerReference>)

  datatype IngressTLS = IngressTLS(secretName: string)

  datatype GroupVersionKind = GroupVersionKind(group: string, version: string, kind: string)

  /** A value a JSONPath expression can find in a custom resource. */
  datatype Found = Str(text: string) | Other

  /**
   A custom resource, known only by what each JSONPath expression finds in it. An
   expression that has no entry is one whose evaluation fails on this object.
   */
  datatype Content = Content(results: map<string, seq<seq<Found>>>)

  datatype Resource =
    | Pod(meta: Metadata, spec: PodSpec)
    | Deployment(meta: Metadata, spec: PodSpec)
    | StatefulSet(meta: Metadata, spec: PodSpec)
    | DaemonSet(meta: Metadata, spec: PodSpec)
    | ReplicaSet(meta: Metadata, spec: PodSpec)
    | Job(meta: Metadata, spec: PodSpec)
    | CronJob(meta: Metadata, spec: PodSpec)
    | ReplicationController(meta: Metadata, podTemplate: Option<PodSpec>)
    | ServiceAccount(meta: Metadata, secrets: seq<LocalReference>, imagePullSecrets: seq<LocalReference>)
    | Ingress(meta: Metadata, tls: seq<IngressTLS>)
    | Custom(meta: Metadata, gvk: GroupVersionKind, content: Content)

  datatype Kind =
    | PodKind | DeploymentKind | StatefulSetKind | DaemonSetKind | JobKind | CronJobKind | ReplicaSetKind
    | ReplicationControllerKind | ServiceAccountKind | IngressKind
    | CustomKind(gvk: GroupVersionKind)

  function KindOf(r: Resource): Kind {
    match r
    case Pod(_, _) => PodKind
    case Deployment(_, _) => DeploymentKind
    case StatefulSet(_, _) => StatefulSetKind
    case DaemonSet(_, _) => DaemonSetKind
    case ReplicaSet(_, _) => ReplicaSetKind
    case Job(_, _) => JobKind
    case CronJob(_, _) => CronJobKind
    case ReplicationController(_, _) => ReplicationControllerKind
    case ServiceAccount(_, _, _) => ServiceAccountKind
    case Ingress(_, _) => IngressKind
    case Custom(_, gvk, _) => CustomKind(gvk)
  }

  /* ---------- JSON documents ---------- */

  function Maybe<T>(o: Option<T>, encode: T -> Tree): Tree {
    match o case None => Absent case Some(v) => encode(v)
  }

  function ListOf<T>(items: seq<T>, encode: T -> Tree): Tree {
    Array(seq(|items|, i requires 0 <= i < |items| => encode(items[i])))
  }

  function OptionalFlag(o: Option<bool>): Tree {
    match o case None => Absent case Some(b) => Flag(b)
  }

  function ReferenceTree(r: LocalReference): Tree {
    Record(map[Name := Text(r.name)])
  }

  function SecretVolumeTree(s: SecretVolumeSource): Tree {
    Record(map[SecretName := Text(s.secretName), Optional := OptionalFlag(s.optional)])
  }

  function ProjectionTree(p: VolumeProjection): Tree {
    Record(map[Secret := Maybe(p.secret, SecretProjectionTree)])
  }

  function SecretProjectionTree(s: SecretProjection): Tree {
    Record(map[Name := Text(s.name), Optional := OptionalFlag(s.optional)])
  }

  function ProjectedTree(p: ProjectedVolumeSource): Tree {
    Record(map[Sources := ListOf(p.sources, ProjectionTree)])
  }

  function CSITree(c: CSIVolumeSource): Tree {
    Record(map[NodePublishSecretRef := Maybe(c.nodePublishSecretRef, ReferenceTree)])
  }

  function AzureFileTree(a: AzureFileVolumeSource): Tree {
    Record(map[SecretName := Text(a.secretName)])
  }

  function DriverTree(d: DriverVolumeSource): Tree {
    Record(map[SecretRef := Maybe(d.secretRef, ReferenceTree)])
  }

  function VolumeTree(v: Volume): Tree {
    Record(map[
      Secret := Maybe(v.secret, SecretVolumeTree),
      Projected := Maybe(v.projected, ProjectedTree),
      Csi := Maybe(v.csi, CSITree),
      AzureFile := Maybe(v.azureFile, AzureFileTree),
      Cephfs := Maybe(v.cephfs, DriverTree),
      Cinder := Maybe(v.cinder, DriverTree),
      FlexVolume := Maybe(v.flexVolume, DriverTree),
      Iscsi := Maybe(v.iscsi, DriverTree),
      Rbd := Maybe(v.rbd, DriverTree),
      ScaleIO := Maybe(v.scaleIO, DriverTree),
      Storageos := Maybe(v.storageos, DriverTree)])
  }

  function SecretKeyTree(s: SecretKeySelector): Tree {
    Record(map[Name := Text(s.name), Key := Text(s.key), Optional := OptionalFlag(s.optional)])
  }

  function EnvVarSourceTree(s: EnvVarSource): Tree {
    Record(map[SecretKeyRef := Maybe(s.secretKeyRef, SecretKeyTree)])
  }

  function EnvVarTree(e: EnvVar): Tree {
    Record(map[ValueFrom := Maybe(e.valueFrom, EnvVarSourceTree)])
  }

  function SecretEnvTree(s: SecretEnvSource): Tree {
    Record(map[Name := Text(s.name), Optional := OptionalFlag(s.optional)])
  }

  function EnvFromTree(e: EnvFromSource): Tree {
    Record(map[SecretRef := Maybe(e.secretRef, SecretEnvTree)])
  }

  function ContainerTree(c: PodContainer): Tree {
    Record(map[Name := Text(c.name), Env := ListOf(c.env, EnvVarTree), EnvFrom := ListOf(c.envFrom, EnvFromTree)])
  }

  function PodSpecTree(s: PodSpec): Tree {
    Record(map[
      ImagePullSecrets := ListOf(s.imagePullSecrets, ReferenceTree),
      Volumes := ListOf(s.volumes, VolumeTree),
      InitContainers := ListOf(s.initContainers, ContainerTree),
      Containers := ListOf(s.containers, ContainerTree),
      EphemeralContainers := ListOf(s.ephemeralContainers, ContainerTree)])
  }

  function TemplateTree(s: PodSpec): Tree {
    Record(map[Spec := PodSpecTree(s)])
  }

  function TLSTree(t: IngressTLS): Tree {
    Record(map[SecretName := Text(t.secretName)])
  }

  /** The document of a built-in object. A custom resource has no fixed shape. */
  function ResourceTree(r: Resource): Tree {
    match r
    case Pod(_, s) => Record(map[Spec := PodSpecTree(s)])
    case Deployment(_, s) => Record(map[Spec := Record(map[Template := TemplateTree(s)])])
    case StatefulSet(_, s) => Record(map[Spec := Record(map[Template := TemplateTree(s)])])
    case DaemonSet(_, s) => Record(map[Spec := Record(map[Template := TemplateTree(s)])])
    case ReplicaSet(_, s) => Record(map[Spec := Record(map[Template := TemplateTree(s)])])
    case Job(_, s) => Record(map[Spec := Record(map[Template := TemplateTree(s)])])
    case CronJob(_, s) =>
      Record(map[Spec := Record(map[JobTemplate := Record(map[Spec := Record(map[Template := TemplateTree(s)])])])])
    case ReplicationController(_, t) => Record(map[Spec := Record(map[Template := Maybe(t, TemplateTree)])])
    case ServiceAccount(_, secrets, pulls) =>
      Record(map[Secrets := ListOf(secrets, ReferenceTree), ImagePullSecrets := ListOf(pulls, ReferenceTree)])
    case Ingress(_, tls) => Record(map[Spec := Record(map[Tls := ListOf(tls, TLSTree)])])
    case Custom(_, _, _) => Absent
  }

  /* ---------- Shapes ---------- */

  const REFERENCE_SHAPE := NamesSecret(Name, Nothing)
  const ENV_VAR_SHAPE := Nested(ValueFrom, Nested(SecretKeyRef, REFERENCE_SHAPE, Nothing), Nothing)
  const ENV_FROM_SHAPE := Nested(SecretRef, REFERENCE_SHAPE, Nothing)
  const ENV_FROM_REST := Nested(EnvFrom, Each(ENV_FROM_SHAPE), Nothing)
  const CONTAINER_SHAPE := Container(Nested(Env, Each(ENV_VAR_SHAPE), ENV_FROM_REST))
  const DRIVER_SHAPE := Nested(SecretRef, REFERENCE_SHAPE, Nothing)
  const PROJECTION_SHAPE := Nested(Secret, REFERENCE_SHAPE, Nothing)
  const PROJECTED_SHAPE := Nested(Sources, Each(PROJECTION_SHAPE), Nothing)

  // The volume sources, last to first.
  const FROM_STORAGEOS := Nested(Storageos, DRIVER_SHAPE, Nothing)
  const FROM_SCALE_IO := Nested(ScaleIO, DRIVER_SHAPE, FROM_STORAGEOS)
  const FROM_RBD := Nested(Rbd, DRIVER_SHAPE, FROM_SCALE_IO)
  const FROM_ISCSI := Nested(Iscsi, DRIVER_SHAPE, FROM_RBD)
  const FROM_FLEX_VOLUME := Nested(FlexVolume, DRIVER_SHAPE, FROM_ISCSI)
  const FROM_CINDER := Nested(Cinder, DRIVER_SHAPE, FROM_FLEX_VOLUME)
  const FROM_CEPHFS := Nested(Cephfs, DRIVER_SHAPE, FROM_CINDER)
  const FROM_AZURE_FILE := Nested(AzureFile, NamesSecret(SecretName, Nothing), FROM_CEPHFS)
  const FROM_CSI := Nested(Csi, Nested(NodePublishSecretRef, REFERENCE_SHAPE, Nothing), FROM_AZURE_FILE)
  const FROM_PROJECTED := Nested(Projected, PROJECTED_SHAPE, FROM_CSI)
  const VOLUME_SHAPE := Nested(Secret, NamesSecret(SecretName, Nothing), FROM_PROJECTED)

  const FROM_EPHEMERAL_CONTAINERS := Nested(EphemeralContainers, Each(CONTAINER_SHAPE), Nothing)
  const FROM_CONTAINERS := Nested(Containers, Each(CONTAINER_SHAPE), FROM_EPHEMERAL_CONTAINERS)
  const FROM_INIT_CONTAINERS := Nested(InitContainers, Each(CONTAINER_SHAPE), FROM_CONTAINERS)
  const FROM_VOLUMES := Nested(Volumes, Each(VOLUME_SHAPE), FROM_INIT_CONTAINERS)
  const POD_SPEC_SHAPE := Nested(ImagePullSecrets, Each(REFERENCE_SHAPE), FROM_VOLUMES)

  const TEMPLATED_SHAPE := Nested(Spec, Nested(Template, Nested(Spec, POD_SPEC_SHAPE, Nothing), Nothing), Nothing)
  const FROM_IMAGE_PULL_SECRETS := Nested(ImagePullSecrets, Each(REFERENCE_SHAPE), Nothing)

  /** Where the documentation's table of tracked references says each kind names Secrets. */
  function ShapeOf(kind: Kind): Shape {
    match kind
    case PodKind => Nested(Spec, POD_SPEC_SHAPE, Nothing)
    case CronJobKind => Nested(Spec, Nested(JobTemplate, TEMPLATED_SHAPE, Nothing), Nothing)
    case ServiceAccountKind => Nested(Secrets, Each(REFERENCE_SHAPE), FROM_IMAGE_PULL_SECRETS)
    case IngressKind => Nested(Spec, Nested(Tls, Each(NamesSecret(SecretName, Nothing)), Nothing), Nothing)
    case CustomKind(_) => Nothing
    case _ => TEMPLATED_SHAPE
  }

  lemma ContainerShapeIsWellFormed()
    ensures WellFormed(CONTAINER_SHAPE)
  {
    assert WellFormed(ENV_VAR_SHAPE);
    assert WellFormed(ENV_FROM_SHAPE);
    assert WellFormed(ENV_FROM_REST) && Heads(ENV_FROM_REST) == {EnvFrom};
  }

  lemma DriverShapesAreWellFormed()
    ensures WellFormed(FROM_CEPHFS) &&
        Heads(FROM_CEPHFS) == {Cephfs, Cinder, FlexVolume, Iscsi, Rbd, ScaleIO, Storageos}
  {
    assert WellFormed(FROM_STORAGEOS) && Heads(FROM_STORAGEOS) == {Storageos};
    assert WellFormed(FROM_SCALE_IO) && Heads(FROM_SCALE_IO) == {ScaleIO, Storageos};
    assert WellFormed(FROM_RBD) && Heads(FROM_RBD) == {Rbd, ScaleIO, Storageos};
    assert WellFormed(FROM_ISCSI) && Heads(FROM_ISCSI) == {Iscsi, Rbd, ScaleIO, Storageos};
    assert WellFormed(FROM_FLEX_VOLUME) && Heads(FROM_FLEX_VOLUME) == {FlexVolume, Iscsi, Rbd, ScaleIO, Storageos};
    assert WellFormed(FROM_CINDER) && Heads(FROM_CINDER) == {Cinder, FlexVolume, Iscsi, Rbd, ScaleIO, Storageos};
  }

  lemma VolumeShapeIsWellFormed()
    ensures WellFormed(VOLUME_SHAPE)
  {
    DriverShapesAreWellFormed();
    assert WellFormed(PROJECTED_SHAPE) && WellFormed(Nested(NodePublishSecretRef, REFERENCE_SHAPE, Nothing));
    var drivers := Heads(FROM_CEPHFS);
    assert WellFormed(FROM_AZURE_FILE) && Heads(FROM_AZURE_FILE) == {AzureFile} + drivers;
    assert WellFormed(FROM_CSI) && Heads(FROM_CSI) == {Csi, AzureFile} + drivers;
    assert WellFormed(FROM_PROJECTED) && Heads(FROM_PROJECTED) == {Projected, Csi, AzureFile} + drivers;
  }

  lemma ContainersShapeIsWellFormed()
    ensures WellFormed(FROM_INIT_CONTAINERS) &&
        Heads(FROM_INIT_CONTAINERS) == {InitContainers, Containers, EphemeralContainers}
  {
    ContainerShapeIsWellFormed();
    assert WellFormed(FROM_EPHEMERAL_CONTAINERS) && Heads(FROM_EPHEMERAL_CONTAINERS) == {EphemeralContainers};
    assert WellFormed(FROM_CONTAINERS) && Heads(FROM_CONTAINERS) == {Containers, EphemeralContainers};
  }

  lemma PodSpecShapeIsWellFormed()
    ensures WellFormed(POD_SPEC_SHAPE)
  {
    ContainersShapeIsWellFormed();
    VolumeShapeIsWellFormed();
    assert WellFormed(FROM_VOLUMES) &&
        Heads(FROM_VOLUMES) == {Volumes, InitContainers, Containers, EphemeralContainers};
  }

  lemma ShapesAreWellFormed(kind: Kind)
    ensures WellFormed(ShapeOf(kind))
  {
    PodSpecShapeIsWellFormed();
    assert WellFormed(Nested(Spec, POD_SPEC_SHAPE, Nothing));
    assert WellFormed(TEMPLATED_SHAPE);
    assert WellFormed(FROM_IMAGE_PULL_SECRETS);
  }
}
