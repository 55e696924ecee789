/**
 Field paths such as `.spec.containers[0].env[2].valueFrom.secretKeyRef.name`: the steps
 they are made of, the text the source prints, and a parser that recovers the steps.
 */
module FieldPaths {
  import opened Wrappers
  import opened Text

  /** The members of tracked objects that lie on the way to a Secret name, or beside one. */
  datatype Member =
    | Spec | Template | JobTemplate
    | ImagePullSecrets | Volumes | InitContainers | Containers | EphemeralContainers
    | Secret | Projected | Sources | Csi | NodePublishSecretRef | AzureFile | Cephfs | Cinder
    | FlexVolume | Iscsi | Rbd | ScaleIO | Storageos
    | Env | EnvFrom | ValueFrom | SecretKeyRef | SecretRef
    | Name | SecretName | Key | Optional
    | Secrets | Tls

  /** The JSON name of a member. */
  function JsonName(m: Member): string {
    match m
    case Spec => "spec"
    case Template => "template"
    case JobTemplate => "jobTemplate"
    case ImagePullSecrets => "imagePullSecrets"
    case Volumes => "volumes"
    case InitContainers => "initContainers"
    case Containers => "containers"
    case EphemeralContainers => "ephemeralContainers"
    case Secret => "secret"
    case Projected => "projected"
    case Sources => "sources"
    case Csi => "csi"
    case NodePublishSecretRef => "nodePublishSecretRef"
    case AzureFile => "azureFile"
    case Cephfs => "cephfs"
    case Cinder => "cinder"
    case FlexVolume => "flexVolume"
    case Iscsi => "iscsi"
    case Rbd => "rbd"
    case ScaleIO => "scaleIO"
    case Storageos => "storageos"
    case Env => "env"
    case EnvFrom => "envFrom"
    case ValueFrom => "valueFrom"
    case SecretKeyRef => "secretKeyRef"
    case SecretRef => "secretRef"
    case Name => "name"
    case SecretName => "secretName"
    case Key => "key"
    case Optional => "optional"
    case Secrets => "secrets"
    case Tls => "tls"
  }

  /** The member with a given JSON name, looked up by length first. */
  function MemberNamed(s: string): Option<Member> {
    if |s| <= 3 then
      if s == "csi" then Some(Csi)
      else if s == "rbd" then Some(Rbd)
      else if s == "env" then Some(Env)
      else if s == "key" then Some(Key)
      else if s == "tls" then Some(Tls)
      else None
    else if |s| <= 5 then
      if s == "spec" then Some(Spec)
      else if s == "name" then Some(Name)
      else if s == "iscsi" then Some(Iscsi)
      else None
    else if |s| == 6 then
      if s == "secret" then Some(Secret)
      else if s == "cephfs" then Some(Cephfs)
      else if s == "cinder" then Some(Cinder)
      else None
    else if |s| == 7 then
      if s == "volumes" then Some(Volumes)
      else if s == "sources" then Some(Sources)
      else if s == "scaleIO" then Some(ScaleIO)
      else if s == "envFrom" then Some(EnvFrom)
      else if s == "secrets" then Some(Secrets)
      else None
    else if |s| == 8 then
      if s == "template" then Some(Template)
      else if s == "optional" then Some(Optional)
      else None
    else if |s| == 9 then
      if s == "projected" then Some(Projected)
      else if s == "azureFile" then Some(AzureFile)
      else if s == "storageos" then Some(Storageos)
      else if s == "valueFrom" then Some(ValueFrom)
      else if s == "secretRef" then Some(SecretRef)
      else None
    else if |s| == 10 then
      if s == "containers" then Some(Containers)
      else if s == "flexVolume" then Some(FlexVolume)
      else if s == "secretName" then Some(SecretName)
      else None
    else if s == "jobTemplate" then Some(JobTemplate)
    else if s == "secretKeyRef" then Some(SecretKeyRef)
    else if s == "initContainers" then Some(InitContainers)
    else if s == "imagePullSecrets" then Some(ImagePullSecrets)
    else if s == "ephemeralContainers" then Some(EphemeralContainers)
    else if s == "nodePublishSecretRef" then Some(NodePublishSecretRef)
    else None
  }

  lemma MemberNameRoundTrip(m: Member)
    ensures MemberNamed(JsonName(m)) == Some(m)
  {
    // Naming the first two characters lets the solver tell names of one length apart.
    var s := JsonName(m);
    assert s[0] == s[0] && s[1] == s[1];
  }

  /** A character that can be part of a member name: no delimiter and no NUL. */
  predicate IsNameChar(c: char) {
    'A' <= c && c != '['
  }

  predicate AllNameChars(s: string) {
    forall i :: 0 <= i < |s| ==> IsNameChar(s[i])
  }

  lemma SpecMemberChars(m: Member)
    requires m in {Spec, Template, JobTemplate, ImagePullSecrets, Volumes}
    ensures AllNameChars(JsonName(m))
  {
  }

  lemma ContainerMemberChars(m: Member)
    requires m in {InitContainers, Containers, EphemeralContainers, Env, EnvFrom}
    ensures AllNameChars(JsonName(m))
  {
  }

  lemma SourceMemberChars(m: Member)
    requires m in {Projected, Sources, Csi, NodePublishSecretRef, AzureFile}
    ensures AllNameChars(JsonName(m))
  {
  }

  lemma DriverMemberChars(m: Member)
    requires m in {Cephfs, Cinder, FlexVolume, Iscsi, Rbd, ScaleIO, Storageos}
    ensures AllNameChars(JsonName(m))
  {
  }

  lemma LeafMemberChars(m: Member)
    requires m in {Secret, Name, SecretName, Key, Optional, Secrets, Tls, ValueFrom, SecretKeyRef, SecretRef}
    ensures AllNameChars(JsonName(m))
  {
  }

  lemma JsonNameChars(m: Member)
    ensures AllNameChars(JsonName(m))
  {
    match m
    case Spec | Template | JobTemplate | ImagePullSecrets | Volumes => SpecMemberChars(m);
    case InitContainers | Containers | EphemeralContainers | Env | EnvFrom => ContainerMemberChars(m);
    case Projected | Sources | Csi | NodePublishSecretRef | AzureFile => SourceMemberChars(m);
    case Cephfs | Cinder | FlexVolume | Iscsi | Rbd | ScaleIO | Storageos => DriverMemberChars(m);
    case _ => LeafMemberChars(m);
  }

  datatype Step = Field(member: Member) | Index(index: nat)

  type Path = seq<Step>

  function PrintStep(step: Step): string {
    match step
    case Field(m) => "." + JsonName(m)
    case Index(i) => "[" + Decimal(i) + "]"
  }

  function PrintPath(path: Path): string {
    if path == [] then "" else PrintStep(path[0]) + PrintPath(path[1..])
  }

  lemma {:induction false} PrintPathConcat(p: Path, q: Path)
    ensures PrintPath(p + q) == PrintPath(p) + PrintPath(q)
  {
    if p == [] {
      assert p + q == q;
    } else {
      assert (p + q)[1..] == p[1..] + q;
      PrintPathConcat(p[1..], q);
      assert PrintStep(p[0]) + (PrintPath(p[1..]) + PrintPath(q)) ==
          (PrintStep(p[0]) + PrintPath(p[1..])) + PrintPath(q);
    }
  }

  function Prepend(step: Step, rest: Option<Path>): Option<Path> {
    match rest case None => None case Some(p) => Some([step] + p)
  }

  function ParsePath(s: string): Option<Path>
    decreases |s|
  {
    if s == "" then Some([])
    else if s[0] == '.' then
      var n := Run(s[1..], {'.', '['});
      match MemberNamed(s[1..][..n])
      case None => None
      case Some(m) => Prepend(Field(m), ParsePath(s[1..][n..]))
    else if s[0] == '[' then
      var n := Run(s[1..], {']'});
      if n == |s[1..]| then None
      else match ParseDecimal(s[1..][..n])
        case None => None
        case Some(i) => Prepend(Index(i), ParsePath(s[1..][n..][1..]))
    else None
  }

  lemma PrintStepStart(p: Path)
    ensures PrintPath(p) == "" || PrintPath(p)[0] in {'.', '['}
  {
  }

  lemma ParseField(name: string, m: Member, rest: string)
    requires AllNameChars(name) && MemberNamed(name) == Some(m)
    requires rest == "" || rest[0] in {'.', '['}
    ensures ParsePath("." + name + rest) == Prepend(Field(m), ParsePath(rest))
  {
    hide MemberNamed, JsonName, ParseDecimal;
    var s := "." + name + rest;
    assert s[0] == '.' && s[1..] == name + rest;
    RunStopsAt(name, rest, {'.', '['});
    assert s[1..][..|name|] == name && s[1..][|name|..] == rest;
  }

  lemma ParseIndex(i: nat, rest: string)
    ensures ParsePath(PrintStep(Index(i)) + rest) == Prepend(Index(i), ParsePath(rest))
  {
    hide MemberNamed, JsonName;
    var digits := Decimal(i);
    var s := PrintStep(Index(i)) + rest;
    assert s[0] == '[' && s[1..] == digits + ("]" + rest);
    RunStopsAt(digits, "]" + rest, {']'});
    assert s[1..][..|digits|] == digits && s[1..][|digits|..] == "]" + rest;
    assert s[1..][|digits|..][1..] == rest;
    DecimalRoundTrip(i);
  }

  lemma {:induction false} PathRoundTrip(p: Path)
    ensures ParsePath(PrintPath(p)) == Some(p)
  {
    hide MemberNamed, JsonName;
    if p != [] {
      assert p == [p[0]] + p[1..];
      PathRoundTrip(p[1..]);
      PrintStepStart(p[1..]);
      match p[0]
      case Field(m) =>
        JsonNameChars(m);
        MemberNameRoundTrip(m);
        ParseField(JsonName(m), m, PrintPath(p[1..]));
      case Index(i) => ParseIndex(i, PrintPath(p[1..]));
    }
  }

  /** The printed text determines the path. */
  lemma PrintPathInjective(p: Path, q: Path)
    requires PrintPath(p) == PrintPath(q)
    ensures p == q
  {
    PathRoundTrip(p);
    PathRoundTrip(q);
  }

  lemma {:induction false} PrintedPathHasNoNul(p: Path)
    ensures '\0' !in PrintPath(p)
  {
    if p != [] {
      PrintedPathHasNoNul(p[1..]);
      match p[0]
      case Field(m) =>
        JsonNameChars(m);
        assert '\0' !in JsonName(m);
      case Index(i) =>
        assert '\0' !in Decimal(i);
    }
  }
}
