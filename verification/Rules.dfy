/**
 Rules that track Secret references in custom resources (internal/controller/rules.go),
 and the table of installed rules that event dispatch uses.
 */
module Rules {
  import opened Wrappers
  import opened Text
  import opened Objects
  import opened References
  import opened Collections

  datatype ReferenceRule = ReferenceRule(apiVersion: string, kind: string, resource: string, paths: seq<string>)

  /** A parsed JSONPath expression, identified by the normalised text it was parsed from. */
  datatype CompiledPath = CompiledPath(expression: string, normalized: string)

  datatype CompiledRule = CompiledRule(gvk: GroupVersionKind, paths: seq<CompiledPath>)

  datatype RuleError =
    | FieldsRequired(index: nat)
    | PathRequired(index: nat)
    | BadApiVersion(index: nat)
    | TrackedNatively(index: nat)
    | DuplicateKind(index: nat)
    | BadPath(index: nat, expression: string)

  /* ---------- Group versions ---------- */

  datatype GroupVersion = GroupVersion(group: string, version: string)

  /** The library's reading of "group/version", where the core group has no slash. */
  function ParseGroupVersion(s: string): Option<GroupVersion> {
    if s == "" || s == "/" then Some(GroupVersion("", ""))
    else
      var n := Run(s, {'/'});
      if n == |s| then Some(GroupVersion("", s))
      else if '/' in s[n + 1..] then None
      else Some(GroupVersion(s[..n], s[n + 1..]))
  }

  function GroupVersionText(gvk: GroupVersionKind): string {
    if gvk.group == "" then gvk.version else gvk.group + ['/'] + gvk.version
  }

  predicate SlashFree(gvk: GroupVersionKind) {
    '/' !in gvk.group && '/' !in gvk.version
  }

  lemma {:induction false} RunHasNoStop(s: string, stops: set<char>)
    ensures forall i :: 0 <= i < Run(s, stops) ==> s[i] !in stops
  {
    if s != "" && s[0] !in stops {
      RunHasNoStop(s[1..], stops);
      forall i | 0 <= i < Run(s, stops) ensures s[i] !in stops {
        assert i == 0 || s[i] == s[1..][i - 1];
      }
    }
  }

  lemma ParsedIsSlashFree(s: string)
    ensures match ParseGroupVersion(s) case None => true case Some(gv) => '/' !in gv.group && '/' !in gv.version
  {
    RunHasNoStop(s, {'/'});
    var n := Run(s, {'/'});
    assert forall c :: c in s[..n] ==> c != '/';
    assert n == |s| ==> s[..n] == s;
  }

  /** The text of a group version reads back as that group version. */
  lemma GroupVersionRoundTrip(gvk: GroupVersionKind)
    requires SlashFree(gvk)
    ensures ParseGroupVersion(GroupVersionText(gvk)) == Some(GroupVersion(gvk.group, gvk.version))
  {
    var s := GroupVersionText(gvk);
    if gvk.group == "" {
      assert s + "" == s;
      RunStopsAt(s, "", {'/'});
    } else {
      RunStopsAt(gvk.group, ['/'] + gvk.version, {'/'});
      assert s == gvk.group + (['/'] + gvk.version);
      assert s[..|gvk.group|] == gvk.group && s[|gvk.group| + 1..] == gvk.version;
    }
  }

  lemma {:induction false} RunEndsAtStop(s: string, stops: set<char>)
    ensures Run(s, stops) < |s| ==> s[Run(s, stops)] in stops
  {
    if s != "" && s[0] !in stops {
      RunEndsAtStop(s[1..], stops);
    }
  }

  /** Every text with at most one slash is read, as the parts around the slash; the core group has none. */
  lemma GroupVersionIsRead(s: string)
    ensures ParseGroupVersion(s).None? <==> exists i, j :: 0 <= i < j < |s| && s[i] == '/' && s[j] == '/'
    ensures '/' !in s ==> ParseGroupVersion(s) == Some(GroupVersion("", s))
    ensures ParseGroupVersion(s).Some? && '/' in s ==>
              var gv := ParseGroupVersion(s).value;
              s == gv.group + "/" + gv.version && '/' !in gv.group && '/' !in gv.version
  {
    RunHasNoStop(s, {'/'});
    RunEndsAtStop(s, {'/'});
    ParsedIsSlashFree(s);
    var n := Run(s, {'/'});
    if n < |s| {
      assert s == s[..n] + [s[n]] + s[n + 1..];
      assert forall j :: n + 1 <= j < |s| ==> s[j] == s[n + 1..][j - n - 1];
      if '/' in s[n + 1..] {
        var k :| 0 <= k < |s[n + 1..]| && s[n + 1..][k] == '/';
        assert s[n] == '/' && s[n + 1 + k] == '/';
      }
    } else {
      assert forall i :: 0 <= i < |s| ==> s[i] != '/';
    }
  }

  lemma SlashInText(gvk: GroupVersionKind)
    requires SlashFree(gvk)
    ensures '/' in GroupVersionText(gvk) <==> gvk.group != ""
  {
  }

  /** The recorded apiVersion and kind identify the kind. */
  lemma RecordedKindIsInjective(a: GroupVersionKind, b: GroupVersionKind)
    requires SlashFree(a) && SlashFree(b)
    requires GroupVersionText(a) == GroupVersionText(b) && a.kind == b.kind
    ensures a == b
  {
    SlashInText(a);
    SlashInText(b);
    if a.group != "" {
      JoinIsInjective(a.group, a.version, b.group, b.version, '/');
    }
  }

  /* ---------- Kinds tracked in code ---------- */

  /** The built-in kinds, in the order the source lists and collects them. */
  const INDEXED_KINDS: seq<Kind> :=
    [PodKind, DeploymentKind, StatefulSetKind, DaemonSetKind, JobKind, CronJobKind, ReplicaSetKind,
     ReplicationControllerKind, ServiceAccountKind, IngressKind]

  function GvkOf(kind: Kind): GroupVersionKind {
    match kind
    case PodKind => GroupVersionKind("", "v1", "Pod")
    case ReplicationControllerKind => GroupVersionKind("", "v1", "ReplicationController")
    case ServiceAccountKind => GroupVersionKind("", "v1", "ServiceAccount")
    case DeploymentKind => GroupVersionKind("apps", "v1", "Deployment")
    case StatefulSetKind => GroupVersionKind("apps", "v1", "StatefulSet")
    case DaemonSetKind => GroupVersionKind("apps", "v1", "DaemonSet")
    case ReplicaSetKind => GroupVersionKind("apps", "v1", "ReplicaSet")
    case JobKind => GroupVersionKind("batch", "v1", "Job")
    case CronJobKind => GroupVersionKind("batch", "v1", "CronJob")
    case IngressKind => GroupVersionKind("networking.k8s.io", "v1", "Ingress")
    case CustomKind(gvk) => gvk
  }

  /** The apiVersion and kind recorded for each built-in kind. */
  lemma KindTexts()
    ensures GroupVersionText(GvkOf(PodKind)) == "v1" && GvkOf(PodKind).kind == "Pod"
    ensures GroupVersionText(GvkOf(ReplicationControllerKind)) == "v1" &&
        GvkOf(ReplicationControllerKind).kind == "ReplicationController"
    ensures GroupVersionText(GvkOf(ServiceAccountKind)) == "v1" && GvkOf(ServiceAccountKind).kind == "ServiceAccount"
    ensures GroupVersionText(GvkOf(DeploymentKind)) == "apps/v1" && GvkOf(DeploymentKind).kind == "Deployment"
    ensures GroupVersionText(GvkOf(StatefulSetKind)) == "apps/v1" && GvkOf(StatefulSetKind).kind == "StatefulSet"
    ensures GroupVersionText(GvkOf(DaemonSetKind)) == "apps/v1" && GvkOf(DaemonSetKind).kind == "DaemonSet"
    ensures GroupVersionText(GvkOf(ReplicaSetKind)) == "apps/v1" && GvkOf(ReplicaSetKind).kind == "ReplicaSet"
    ensures GroupVersionText(GvkOf(JobKind)) == "batch/v1" && GvkOf(JobKind).kind == "Job"
    ensures GroupVersionText(GvkOf(CronJobKind)) == "batch/v1" && GvkOf(CronJobKind).kind == "CronJob"
    ensures GroupVersionText(GvkOf(IngressKind)) == "networking.k8s.io/v1" && GvkOf(IngressKind).kind == "Ingress"
  {
    assert "apps" + ['/'] + "v1" == "apps/v1" && "batch" + ['/'] + "v1" == "batch/v1";
    NetworkingText();
  }

  lemma NetworkingText()
    ensures "networking.k8s.io" + ['/'] + "v1" == "networking.k8s.io/v1"
  {
  }

  lemma BuiltInGvksAreSlashFree(kind: Kind)
    requires !kind.CustomKind?
    ensures SlashFree(GvkOf(kind)) && GvkOf(kind).version != ""
  {
    assert '/' !in "networking.k8s.io" && '/' !in "apps" && '/' !in "batch" && '/' !in "v1";
  }

  /** No two built-in kinds share a name. */
  lemma BuiltInKindNamesDiffer(a: Kind, b: Kind)
    requires !a.CustomKind? && !b.CustomKind?
    requires GvkOf(a).kind == GvkOf(b).kind
    ensures a == b
  {
  }

  function BuiltIns(): set<GroupVersionKind> {
    set k | k in INDEXED_KINDS :: GvkOf(k)
  }

  lemma IndexedKindsAreTheBuiltIns(kind: Kind)
    ensures kind in INDEXED_KINDS <==> !kind.CustomKind?
    ensures !kind.CustomKind? ==> GvkOf(kind) in BuiltIns()
  {
  }

  /** The set the source builds by printing and parsing each kind's apiVersion. */
  method BuiltInGroupVersionKinds() returns (builtIn: set<GroupVersionKind>)
    ensures builtIn == BuiltIns()
  {
    builtIn := {};
    for i := 0 to |INDEXED_KINDS|
      invariant builtIn == set k | k in INDEXED_KINDS[..i] :: GvkOf(k)
    {
      var gvk := GvkOf(INDEXED_KINDS[i]);
      IndexedKindsAreTheBuiltIns(INDEXED_KINDS[i]);
      BuiltInGvksAreSlashFree(INDEXED_KINDS[i]);
      GroupVersionRoundTrip(gvk);
      assert INDEXED_KINDS[..i + 1] == INDEXED_KINDS[..i] + [INDEXED_KINDS[i]];
      var parsed := ParseGroupVersion(GroupVersionText(gvk));
      if parsed.Some? {
        builtIn := builtIn + {GroupVersionKind(parsed.value.group, parsed.value.version, gvk.kind)};
      }
    }
    assert INDEXED_KINDS[..|INDEXED_KINDS|] == INDEXED_KINDS;
  }

  /* ---------- Compiling ---------- */

  /** The characters `strings.TrimSpace` removes. */
  predicate IsSpace(c: char) {
    var n := c as int;
    0x09 <= n <= 0x0D || n == 0x20 || n == 0x85 || n == 0xA0 || n == 0x1680 || 0x2000 <= n <= 0x200A
    || n == 0x2028 || n == 0x2029 || n == 0x202F || n == 0x205F || n == 0x3000
  }

  function TrimSpace(s: string): string {
    if s == "" then ""
    else if IsSpace(s[0]) then TrimSpace(s[1..])
    else if IsSpace(s[|s| - 1]) then TrimSpace(s[..|s| - 1])
    else s
  }

  function NormalizeJSONPath(expression: string): string {
    var trimmed := TrimSpace(expression);
    if trimmed != "" && trimmed[0] == '{' then trimmed else "{" + trimmed + "}"
  }

  lemma {:induction false} TrimSpaceIsIdempotent(s: string)
    ensures TrimSpace(TrimSpace(s)) == TrimSpace(s)
  {
    if s != "" {
      if IsSpace(s[0]) {
        TrimSpaceIsIdempotent(s[1..]);
      } else if IsSpace(s[|s| - 1]) {
        TrimSpaceIsIdempotent(s[..|s| - 1]);
      }
    }
  }

  /** Spaces around an expression do not matter. */
  lemma {:induction false} OuterSpaceIsIgnored(before: string, s: string, after: string)
    requires forall c :: c in before || c in after ==> IsSpace(c)
    ensures TrimSpace(before + s + after) == TrimSpace(s)
    decreases |before| + |after|
  {
    if before != [] {
      assert (before + s + after)[1..] == before[1..] + s + after;
      assert (before + s + after)[0] == before[0] && before[0] in before;
      OuterSpaceIsIgnored(before[1..], s, after);
    } else if after != [] {
      var init, last := after[..|after| - 1], after[|after| - 1];
      assert last in after && before + s + after == (s + init) + [last];
      LastSpaceIsIgnored(s + init, last);
      assert before + s + init == s + init;
      OuterSpaceIsIgnored(before, s, init);
    } else {
      assert before + s + after == s;
    }
  }

  lemma {:induction false} LastSpaceIsIgnored(s: string, c: char)
    requires IsSpace(c)
    ensures TrimSpace(s + [c]) == TrimSpace(s)
  {
    if s == "" {
      assert (s + [c])[1..] == "";
    } else if IsSpace(s[0]) {
      assert (s + [c])[1..] == s[1..] + [c];
      LastSpaceIsIgnored(s[1..], c);
    } else {
      assert (s + [c])[..|s|] == s;
    }
  }

  /**
   With and without braces, an expression normalises to the form with braces; in braces
   already, it is left as it is.
   */
  lemma BothFormsAgree(s: string)
    requires s != "" ==> !IsSpace(s[0]) && !IsSpace(s[|s| - 1])
    ensures s != "" && s[0] == '{' ==> NormalizeJSONPath(s) == s
    ensures s == "" || s[0] != '{' ==>
        NormalizeJSONPath(s) == "{" + s + "}" && NormalizeJSONPath("{" + s + "}") == "{" + s + "}"
  {
    var braced := "{" + s + "}";
    assert braced[0] == '{' && braced[|braced| - 1] == '}';
  }

  /** Either form of an expression may be given: normalising again changes nothing. */
  lemma NormalizeIsIdempotent(expression: string)
    ensures NormalizeJSONPath(NormalizeJSONPath(expression)) == NormalizeJSONPath(expression)
  {
    TrimSpaceIsIdempotent(expression);
    var n := NormalizeJSONPath(expression);
    assert n[0] == '{';
  }

  function KindNamedBy(rule: ReferenceRule): Option<GroupVersionKind> {
    match ParseGroupVersion(rule.apiVersion)
    case None => None
    case Some(gv) => Some(GroupVersionKind(gv.group, gv.version, rule.kind))
  }

  /** The first expression of a rule that does not parse. */
  function FirstBadPath(paths: seq<string>, parses: string -> bool): Option<string> {
    if paths == [] then None
    else if !parses(NormalizeJSONPath(paths[0])) then Some(paths[0])
    else FirstBadPath(paths[1..], parses)
  }

  /** What is wrong with rule `i`, given the rules before it. */
  function Problem(rules: seq<ReferenceRule>, i: nat, parses: string -> bool): Option<RuleError>
    requires i < |rules|
  {
    var rule := rules[i];
    if rule.apiVersion == "" || rule.kind == "" then Some(FieldsRequired(i))
    else if rule.paths == [] then Some(PathRequired(i))
    else match KindNamedBy(rule)
      case None => Some(BadApiVersion(i))
      case Some(gvk) =>
        if gvk in BuiltIns() then Some(TrackedNatively(i))
        else if exists j | 0 <= j < i :: KindNamedBy(rules[j]) == Some(gvk) then Some(DuplicateKind(i))
        else match FirstBadPath(rule.paths, parses)
          case None => None
          case Some(expression) => Some(BadPath(i, expression))
  }

  lemma {:induction false} FirstBadPathIs(paths: seq<string>, parses: string -> bool)
    ensures FirstBadPath(paths, parses) == None <==>
        forall j :: 0 <= j < |paths| ==> parses(NormalizeJSONPath(paths[j]))
    ensures FirstBadPath(paths, parses).Some? ==>
              exists j :: 0 <= j < |paths| && FirstBadPath(paths, parses) == Some(paths[j]) &&
                  !parses(NormalizeJSONPath(paths[j]))
                && forall k :: 0 <= k < j ==> parses(NormalizeJSONPath(paths[k]))
  {
    hide NormalizeJSONPath;
    if paths != [] {
      FirstBadPathIs(paths[1..], parses);
      if parses(NormalizeJSONPath(paths[0])) {
        assert forall j :: 1 <= j < |paths| ==> paths[j] == paths[1..][j - 1];
        if FirstBadPath(paths, parses).Some? {
          var j :| 0 <= j < |paths[1..]| && FirstBadPath(paths[1..], parses) == Some(paths[1..][j]) &&
              !parses(NormalizeJSONPath(paths[1..][j]))
                   && forall k :: 0 <= k < j ==> parses(NormalizeJSONPath(paths[1..][k]));
          forall k | 0 <= k < j + 1 ensures parses(NormalizeJSONPath(paths[k])) {
            if k > 0 {
              assert paths[k] == paths[1..][k - 1];
            }
          }
          assert paths[j + 1] == paths[1..][j];
        }
      }
    }
  }

  /** The kind a rule names is not one tracked in code. */
  lemma NotBuiltInMeans(gvk: GroupVersionKind)
    ensures gvk !in BuiltIns() <==> forall kind: Kind :: !kind.CustomKind? ==> GvkOf(kind) != gvk
  {
    hide GvkOf;
    forall kind: Kind ensures kind in INDEXED_KINDS <==> !kind.CustomKind? {
      IndexedKindsAreTheBuiltIns(kind);
    }
  }

  /** What each report says of the rule it names. */
  lemma ProblemMeans(rules: seq<ReferenceRule>, i: nat, parses: string -> bool)
    requires i < |rules|
    ensures var rule, gv := rules[i], ParseGroupVersion(rules[i].apiVersion);
            match Problem(rules, i, parses)
            case Some(FieldsRequired(n)) => n == i && (rule.apiVersion == "" || rule.kind == "")
            case Some(PathRequired(n)) => n == i && rule.apiVersion != "" && rule.kind != "" && rule.paths == []
            case Some(BadApiVersion(n)) =>
              n == i && rule.apiVersion != "" && rule.kind != "" && rule.paths != [] && gv.None?
            case Some(TrackedNatively(n)) =>
              && n == i && gv.Some?
              && var gvk := GroupVersionKind(gv.value.group, gv.value.version, rule.kind);
                 exists kind: Kind :: !kind.CustomKind? && GvkOf(kind) == gvk
            case Some(DuplicateKind(n)) =>
              && n == i && gv.Some?
              && exists k :: 0 <= k < i && ParseGroupVersion(rules[k].apiVersion) == gv && rules[k].kind == rule.kind
            case Some(BadPath(n, e)) =>
              n == i && exists j :: 0 <= j < |rule.paths| && rule.paths[j] == e && !parses(NormalizeJSONPath(e))
                          && forall k :: 0 <= k < j ==> parses(NormalizeJSONPath(rule.paths[k]))
            case None =>
              && rule.apiVersion != "" && rule.kind != "" && rule.paths != [] && gv.Some?
              && (forall kind: Kind :: !kind.CustomKind? ==>
                  GvkOf(kind) != GroupVersionKind(gv.value.group, gv.value.version, rule.kind))
              && (forall k :: 0 <= k < i ==>
                  !(ParseGroupVersion(rules[k].apiVersion) == gv && rules[k].kind == rule.kind))
              && (forall j :: 0 <= j < |rule.paths| ==> parses(NormalizeJSONPath(rule.paths[j])))
  {
    hide NormalizeJSONPath, ParseGroupVersion, BuiltIns, FirstBadPath, GvkOf;
    var rule := rules[i];
    FirstBadPathIs(rule.paths, parses);
    if KindNamedBy(rule).Some? {
      NotBuiltInMeans(KindNamedBy(rule).value);
    }
    assert forall k :: 0 <= k < i && KindNamedBy(rules[k]).Some? ==> ParseGroupVersion(rules[k].apiVersion).Some?;
  }

  /** A report is made only when every check before it in the order of the code was passed. */
  lemma ChecksInOrder(rules: seq<ReferenceRule>, i: nat, parses: string -> bool, e: RuleError)
    requires i < |rules| && Problem(rules, i, parses) == Some(e)
    ensures !e.FieldsRequired? ==> rules[i].apiVersion != "" && rules[i].kind != ""
    ensures !e.FieldsRequired? && !e.PathRequired? ==> rules[i].paths != []
    ensures e.TrackedNatively? || e.DuplicateKind? || e.BadPath? ==> ParseGroupVersion(rules[i].apiVersion).Some?
    ensures e.DuplicateKind? || e.BadPath? ==>
              forall kind: Kind :: !kind.CustomKind? ==>
                var gv := ParseGroupVersion(rules[i].apiVersion).value;
                GvkOf(kind) != GroupVersionKind(gv.group, gv.version, rules[i].kind)
    ensures e.BadPath? ==>
              forall k :: 0 <= k < i ==>
                !(ParseGroupVersion(rules[k].apiVersion) == ParseGroupVersion(rules[i].apiVersion) &&
                    rules[k].kind == rules[i].kind)
  {
    hide NormalizeJSONPath, ParseGroupVersion, BuiltIns, FirstBadPath, GvkOf;
    if KindNamedBy(rules[i]).Some? {
      NotBuiltInMeans(KindNamedBy(rules[i]).value);
    }
  }

  function Compiled(rule: ReferenceRule): CompiledRule
    requires KindNamedBy(rule).Some?
  {
    CompiledRule(KindNamedBy(rule).value,
                 seq(|rule.paths|, i requires 0 <= i < |rule.paths| =>
                     CompiledPath(rule.paths[i], NormalizeJSONPath(rule.paths[i]))))
  }

  method CompilePaths(index: nat, paths: seq<string>, parses: string -> bool)
    returns (r: Result<seq<CompiledPath>, RuleError>)
    ensures match FirstBadPath(paths, parses)
            case Some(expression) => r == Err(BadPath(index, expression))
            case None => r.Ok? && |r.value| == |paths| &&
                         forall i :: 0 <= i < |paths| ==>
                             r.value[i] == CompiledPath(paths[i], NormalizeJSONPath(paths[i]))
  {
    var compiled: seq<CompiledPath> := [];
    for i := 0 to |paths|
      invariant FirstBadPath(paths, parses) == FirstBadPath(paths[i..], parses)
      invariant |compiled| == i
      invariant forall j :: 0 <= j < i ==> compiled[j] == CompiledPath(paths[j], NormalizeJSONPath(paths[j]))
    {
      assert paths[i..][1..] == paths[i + 1..];
      var normalized := NormalizeJSONPath(paths[i]);
      if !parses(normalized) {
        return Err(BadPath(index, paths[i]));
      }
      compiled := compiled + [CompiledPath(paths[i], normalized)];
    }
    return Ok(compiled);
  }

  ghost predicate Fine(rules: seq<ReferenceRule>, n: nat, parses: string -> bool) {
    n <= |rules| && forall i :: 0 <= i < n ==> Problem(rules, i, parses) == None
  }

  ghost predicate FirstProblem(rules: seq<ReferenceRule>, i: nat, parses: string -> bool, e: RuleError) {
    i < |rules| && Fine(rules, i, parses) && Problem(rules, i, parses) == Some(e)
  }

  /**
   Succeeds exactly when every rule has its fields, a readable apiVersion, a kind that is
   not tracked in code and not named twice, and expressions that all parse; then every rule
   is compiled, in order, with every expression. Otherwise the report names the first rule
   at fault, and the first expression of it that does not parse.
   */
  method CompileRules(rules: seq<ReferenceRule>, parses: string -> bool)
    returns (r: Result<seq<CompiledRule>, RuleError>)
    ensures r.Ok? <==>
              && (forall i :: 0 <= i < |rules| ==>
                    && rules[i].apiVersion != "" && rules[i].kind != "" && rules[i].paths != []
                    && ParseGroupVersion(rules[i].apiVersion).Some?
                    && (forall kind: Kind :: !kind.CustomKind? ==>
                          var gv := ParseGroupVersion(rules[i].apiVersion).value;
                          GvkOf(kind) != GroupVersionKind(gv.group, gv.version, rules[i].kind))
                    && (forall j :: 0 <= j < |rules[i].paths| ==> parses(NormalizeJSONPath(rules[i].paths[j]))))
              && (forall i, k :: 0 <= k < i < |rules| ==>
                    !(ParseGroupVersion(rules[k].apiVersion) == ParseGroupVersion(rules[i].apiVersion) &&
                        rules[k].kind == rules[i].kind))
    ensures r.Ok? ==> |r.value| == |rules| && forall i :: 0 <= i < |rules| ==>
              && r.value[i].gvk.kind == rules[i].kind
              && ParseGroupVersion(rules[i].apiVersion) ==
                  Some(GroupVersion(r.value[i].gvk.group, r.value[i].gvk.version))
              && |r.value[i].paths| == |rules[i].paths|
              && forall j :: 0 <= j < |rules[i].paths| ==>
                   && r.value[i].paths[j].expression == rules[i].paths[j]
                   && r.value[i].paths[j].normalized == NormalizeJSONPath(rules[i].paths[j])
                   && parses(r.value[i].paths[j].normalized)
    ensures r.Err? ==>
              match r.error
              case FieldsRequired(i) => i < |rules| && (rules[i].apiVersion == "" || rules[i].kind == "")
              case PathRequired(i) => i < |rules| && rules[i].paths == []
              case BadApiVersion(i) => i < |rules| && ParseGroupVersion(rules[i].apiVersion).None?
              case TrackedNatively(i) =>
                && i < |rules| && ParseGroupVersion(rules[i].apiVersion).Some?
                && var gv := ParseGroupVersion(rules[i].apiVersion).value;
                   var gvk := GroupVersionKind(gv.group, gv.version, rules[i].kind);
                   exists kind: Kind :: !kind.CustomKind? && GvkOf(kind) == gvk
              case DuplicateKind(i) =>
                && i < |rules|
                && exists k ::
                     && 0 <= k < i && rules[k].kind == rules[i].kind
                     && ParseGroupVersion(rules[k].apiVersion) == ParseGroupVersion(rules[i].apiVersion)
              case BadPath(i, e) =>
                && i < |rules|
                && exists j ::
                     && 0 <= j < |rules[i].paths| && rules[i].paths[j] == e && !parses(NormalizeJSONPath(e))
                     && forall k :: 0 <= k < j ==> parses(NormalizeJSONPath(rules[i].paths[k]))
    ensures r.Ok? <==> Fine(rules, |rules|, parses)
    ensures r.Ok? ==> forall i :: 0 <= i < |rules| ==> KindNamedBy(rules[i]).Some? && r.value[i] == Compiled(rules[i])
    ensures r.Err? ==> exists i :: FirstProblem(rules, i, parses, r.error)
  {
    hide NormalizeJSONPath, ParseGroupVersion, BuiltIns, FirstBadPath, Problem, GvkOf;
    r := CompileInOrder(rules, parses);
    FineMeans(rules, parses);
    if r.Err? {
      ghost var i: nat :| FirstProblem(rules, i, parses, r.error);
      ProblemMeans(rules, i, parses);
    }
  }

  lemma FineMeans(rules: seq<ReferenceRule>, parses: string -> bool)
    ensures Fine(rules, |rules|, parses) <==>
              && (forall i :: 0 <= i < |rules| ==>
                    && rules[i].apiVersion != "" && rules[i].kind != "" && rules[i].paths != []
                    && ParseGroupVersion(rules[i].apiVersion).Some?
                    && (forall kind: Kind :: !kind.CustomKind? ==>
                          var gv := ParseGroupVersion(rules[i].apiVersion).value;
                          GvkOf(kind) != GroupVersionKind(gv.group, gv.version, rules[i].kind))
                    && (forall j :: 0 <= j < |rules[i].paths| ==> parses(NormalizeJSONPath(rules[i].paths[j]))))
              && (forall i, k :: 0 <= k < i < |rules| ==>
                    !(ParseGroupVersion(rules[k].apiVersion) == ParseGroupVersion(rules[i].apiVersion) &&
                        rules[k].kind == rules[i].kind))
  {
    hide NormalizeJSONPath, ParseGroupVersion, BuiltIns, FirstBadPath, Problem, GvkOf;
    forall i: nat | i < |rules|
      ensures Problem(rules, i, parses) == None <==>
                && rules[i].apiVersion != "" && rules[i].kind != "" && rules[i].paths != []
                && ParseGroupVersion(rules[i].apiVersion).Some?
                && (forall kind: Kind :: !kind.CustomKind? ==>
                      var gv := ParseGroupVersion(rules[i].apiVersion).value;
                      GvkOf(kind) != GroupVersionKind(gv.group, gv.version, rules[i].kind))
                && (forall k :: 0 <= k < i ==>
                      !(ParseGroupVersion(rules[k].apiVersion) == ParseGroupVersion(rules[i].apiVersion) &&
                          rules[k].kind == rules[i].kind))
                && (forall j :: 0 <= j < |rules[i].paths| ==> parses(NormalizeJSONPath(rules[i].paths[j])))
    {
      ProblemMeans(rules, i, parses);
    }
  }

  method CompileInOrder(rules: seq<ReferenceRule>, parses: string -> bool)
    returns (r: Result<seq<CompiledRule>, RuleError>)
    ensures r.Ok? <==> Fine(rules, |rules|, parses)
    ensures r.Ok? ==> |r.value| == |rules|
    ensures r.Ok? ==> forall i :: 0 <= i < |rules| ==> KindNamedBy(rules[i]).Some? && r.value[i] == Compiled(rules[i])
    ensures r.Err? ==> exists i :: FirstProblem(rules, i, parses, r.error)
  {
    hide NormalizeJSONPath, ParseGroupVersion, BuiltIns, FirstBadPath;
    var builtIn := BuiltInGroupVersionKinds();
    var compiled: seq<CompiledRule> := [];
    var seen: set<GroupVersionKind> := {};
    for i := 0 to |rules|
      invariant |compiled| == i
      invariant Fine(rules, i, parses)
      invariant forall j :: 0 <= j < i ==> KindNamedBy(rules[j]).Some? && compiled[j] == Compiled(rules[j])
      invariant forall gvk :: gvk in seen <==> exists j :: 0 <= j < i && KindNamedBy(rules[j]) == Some(gvk)
    {
      var one := CompileRule(rules, i, builtIn, seen, parses);
      if one.Err? {
        assert FirstProblem(rules, i, parses, one.error);
        return Err(one.error);
      }
      seen := seen + {one.value.gvk};
      compiled := compiled + [one.value];
    }
    return Ok(compiled);
  }

  /** The body of the loop over rules: the checks on one rule, in the source's order. */
  method CompileRule(rules: seq<ReferenceRule>, i: nat, builtIn: set<GroupVersionKind>, seen: set<GroupVersionKind>,
      parses: string -> bool)
    returns (r: Result<CompiledRule, RuleError>)
    requires i < |rules| && builtIn == BuiltIns()
    requires forall gvk :: gvk in seen <==> exists j :: 0 <= j < i && KindNamedBy(rules[j]) == Some(gvk)
    ensures match r
            case Err(e) => Problem(rules, i, parses) == Some(e)
            case Ok(c) =>
              Problem(rules, i, parses) == None && KindNamedBy(rules[i]) == Some(c.gvk) && c == Compiled(rules[i])
  {
    hide NormalizeJSONPath, ParseGroupVersion, BuiltIns, FirstBadPath;
    var rule := rules[i];
    if rule.apiVersion == "" || rule.kind == "" {
      return Err(FieldsRequired(i));
    }
    if |rule.paths| == 0 {
      return Err(PathRequired(i));
    }
    var groupVersion := ParseGroupVersion(rule.apiVersion);
    if groupVersion.None? {
      return Err(BadApiVersion(i));
    }
    var gvk := GroupVersionKind(groupVersion.value.group, groupVersion.value.version, rule.kind);
    if gvk in builtIn {
      return Err(TrackedNatively(i));
    }
    if gvk in seen {
      return Err(DuplicateKind(i));
    }
    var paths := CompilePaths(i, rule.paths, parses);
    if paths.Err? {
      return Err(paths.error);
    }
    assert paths.value == Compiled(rule).paths;
    return Ok(CompiledRule(gvk, paths.value));
  }

  /** Rules fit to run with: their kinds are distinct, none is built in, and each has a plain group version. */
  predicate ValidRules(rules: seq<CompiledRule>) {
    && (forall i, j :: 0 <= i < j < |rules| ==> rules[i].gvk != rules[j].gvk)
    && (forall i :: 0 <= i < |rules| ==> rules[i].gvk !in BuiltIns() && SlashFree(rules[i].gvk))
  }

  lemma CompiledRulesAreValid(rules: seq<ReferenceRule>, parses: string -> bool, compiled: seq<CompiledRule>)
    requires Fine(rules, |rules|, parses)
    requires |compiled| == |rules|
    requires forall i :: 0 <= i < |rules| ==> KindNamedBy(rules[i]).Some? && compiled[i] == Compiled(rules[i])
    ensures ValidRules(compiled)
    ensures forall i :: 0 <= i < |rules| ==>
              |compiled[i].paths| == |rules[i].paths| > 0 &&
              forall j :: 0 <= j < |rules[i].paths| ==> compiled[i].paths[j].expression == rules[i].paths[j]
  {
    hide NormalizeJSONPath, ParseGroupVersion, BuiltIns;
    forall i | 0 <= i < |rules| ensures compiled[i].gvk !in BuiltIns() && SlashFree(compiled[i].gvk) {
      assert Problem(rules, i, parses) == None;
      ParsedIsSlashFree(rules[i].apiVersion);
    }
    forall i, j | 0 <= i < j < |rules| ensures compiled[i].gvk != compiled[j].gvk {
      assert Problem(rules, j, parses) == None;
      assert KindNamedBy(rules[i]) == Some(compiled[i].gvk);
    }
    forall i | 0 <= i < |rules|
      ensures |compiled[i].paths| == |rules[i].paths| > 0
      ensures forall j :: 0 <= j < |rules[i].paths| ==> compiled[i].paths[j].expression == rules[i].paths[j]
    {
      assert Problem(rules, i, parses) == None;
    }
  }

  /* ---------- Installed rules ---------- */

  datatype Discovery = Installed | NotInstalled | DiscoveryFailed

  function InstalledRules(rules: seq<CompiledRule>, discover: GroupVersionKind -> Discovery): seq<CompiledRule> {
    if rules == [] then []
    else
      var init, last := rules[..|rules| - 1], rules[|rules| - 1];
      InstalledRules(init, discover) + if discover(last.gvk) == Installed then [last] else []
  }

  /** The rule collection and indexing use for a kind. */
  function RuleFor(rules: seq<CompiledRule>, gvk: GroupVersionKind): Option<CompiledRule> {
    if rules == [] then None
    else if rules[|rules| - 1].gvk == gvk then Some(rules[|rules| - 1])
    else RuleFor(rules[..|rules| - 1], gvk)
  }

  lemma {:induction false} RuleForFinds(rules: seq<CompiledRule>, gvk: GroupVersionKind)
    ensures RuleFor(rules, gvk).Some? ==> RuleFor(rules, gvk).value in rules && RuleFor(rules, gvk).value.gvk == gvk
    ensures RuleFor(rules, gvk).None? <==> forall i :: 0 <= i < |rules| ==> rules[i].gvk != gvk
  {
    if rules != [] {
      RuleForFinds(rules[..|rules| - 1], gvk);
    }
  }

  /** With valid rules, a rule is the one found for a kind exactly when it is one of the rules and names that kind. */
  lemma RuleForIsTheRule(rules: seq<CompiledRule>, rule: CompiledRule)
    requires ValidRules(rules)
    ensures RuleFor(rules, rule.gvk) == Some(rule) <==> rule in rules
  {
  }

  lemma {:induction false} InstalledRulesAreTheInstalled(rules: seq<CompiledRule>,
      discover: GroupVersionKind -> Discovery)
    ensures forall r :: r in InstalledRules(rules, discover) <==> r in rules && discover(r.gvk) == Installed
  {
    if rules != [] {
      InstalledRulesAreTheInstalled(rules[..|rules| - 1], discover);
      assert rules == rules[..|rules| - 1] + [rules[|rules| - 1]];
    }
  }

  /** Two rules kept stay in the order they were given in. */
  lemma {:induction false} InstalledRulesKeepOrder(rules: seq<CompiledRule>, discover: GroupVersionKind -> Discovery,
      i: nat, j: nat)
    requires i < j < |InstalledRules(rules, discover)|
    ensures exists p, q ::
              && 0 <= p < q < |rules|
              && rules[p] == InstalledRules(rules, discover)[i] && rules[q] == InstalledRules(rules, discover)[j]
  {
    var n := |rules| - 1;
    var init, kept := rules[..n], InstalledRules(rules, discover);
    if j < |InstalledRules(init, discover)| {
      InstalledRulesKeepOrder(init, discover, i, j);
      var p, q :| && 0 <= p < q < |init|
                  && init[p] == InstalledRules(init, discover)[i] && init[q] == InstalledRules(init, discover)[j];
      assert rules[p] == kept[i] && rules[q] == kept[j];
    } else {
      InstalledRulesAreTheInstalled(init, discover);
      assert kept[i] in InstalledRules(init, discover);
      var p :| 0 <= p < |init| && init[p] == kept[i];
      assert rules[p] == kept[i] && rules[n] == kept[j];
    }
  }

  lemma OneMoreRuleIsValid(rules: seq<CompiledRule>, last: CompiledRule)
    requires ValidRules(rules) && last.gvk !in BuiltIns() && SlashFree(last.gvk)
    requires forall rule :: rule in rules ==> rule.gvk != last.gvk
    ensures ValidRules(rules + [last])
  {
    hide BuiltIns, SlashFree;
    assert forall i :: 0 <= i < |rules| ==> rules[i] in rules;
  }

  lemma AllButLastAreValid(rules: seq<CompiledRule>)
    requires ValidRules(rules) && rules != []
    ensures ValidRules(rules[..|rules| - 1])
    ensures rules[|rules| - 1].gvk !in BuiltIns() && SlashFree(rules[|rules| - 1].gvk)
    ensures forall rule :: rule in rules[..|rules| - 1] ==> rule.gvk != rules[|rules| - 1].gvk
  {
    hide BuiltIns, SlashFree;
  }

  lemma {:induction false} InstalledRulesAreValid(rules: seq<CompiledRule>, discover: GroupVersionKind -> Discovery)
    requires ValidRules(rules)
    ensures ValidRules(InstalledRules(rules, discover))
  {
    if rules != [] {
      var init, last := rules[..|rules| - 1], rules[|rules| - 1];
      AllButLastAreValid(rules);
      hide ValidRules, BuiltIns, SlashFree;
      InstalledRulesAreValid(init, discover);
      InstalledRulesAreTheInstalled(init, discover);
      OneMoreRuleIsValid(InstalledRules(init, discover), last);
    }
  }

  /** Drops rules whose kind is not installed and builds the table used by event dispatch. */
  method SetupRules(rules: seq<CompiledRule>, discover: GroupVersionKind -> Discovery)
    returns (ok: bool, installed: seq<CompiledRule>, table: map<GroupVersionKind, CompiledRule>)
    requires ValidRules(rules)
    ensures ok <==> forall i :: 0 <= i < |rules| ==> discover(rules[i].gvk) != DiscoveryFailed
    ensures ok ==> installed == InstalledRules(rules, discover) && ValidRules(installed)
    ensures ok ==> forall rule: CompiledRule :: rule in installed <==> rule in rules && discover(rule.gvk) == Installed
    ensures ok ==> forall gvk :: Lookup(table, gvk) == RuleFor(installed, gvk)
    ensures ok ==> forall rule: CompiledRule :: Lookup(table, rule.gvk) == Some(rule) <==> rule in installed
  {
    ok, installed, table := true, [], map[];
    for i := 0 to |rules|
      invariant forall j :: 0 <= j < i ==> discover(rules[j].gvk) != DiscoveryFailed
      invariant installed == InstalledRules(rules[..i], discover)
    {
      assert rules[..i + 1][..i] == rules[..i];
      var present := discover(rules[i].gvk);
      if present == DiscoveryFailed {
        return false, [], map[];
      }
      if present == Installed {
        installed := installed + [rules[i]];
      }
    }
    assert rules[..|rules|] == rules;
    InstalledRulesAreValid(rules, discover);
    InstalledRulesAreTheInstalled(rules, discover);
    for i := 0 to |installed|
      invariant forall gvk :: Lookup(table, gvk) == RuleFor(installed[..i], gvk)
    {
      assert installed[..i + 1][..i] == installed[..i];
      table := table[installed[i].gvk := installed[i]];
    }
    assert installed[..|installed|] == installed;
    forall rule: CompiledRule ensures Lookup(table, rule.gvk) == Some(rule) <==> rule in installed {
      RuleForIsTheRule(installed, rule);
    }
  }

  /* ---------- References found by a rule ---------- */

  function FoundInGroup(expression: string, group: seq<Found>): seq<Reference> {
    if group == [] then []
    else
      var value := group[|group| - 1];
      FoundInGroup(expression, group[..|group| - 1]) +
      if value.Str? && value.text != "" then [Reference(value.text, expression, "", "", None)] else []
  }

  function FoundInGroups(expression: string, groups: seq<seq<Found>>): seq<Reference> {
    if groups == [] then []
    else FoundInGroups(expression, groups[..|groups| - 1]) + FoundInGroup(expression, groups[|groups| - 1])
  }

  function FoundByOne(path: CompiledPath, content: Content): seq<Reference> {
    if path.normalized in content.results then FoundInGroups(path.expression, content.results[path.normalized]) else []
  }

  function FoundBy(paths: seq<CompiledPath>, content: Content): seq<Reference> {
    if paths == [] then []
    else
      FoundBy(paths[..|paths| - 1], content) + FoundByOne(paths[|paths| - 1], content)
  }

  /** The references a rule finds in a custom resource. */
  function RuleReferences(rule: CompiledRule, content: Content): seq<Reference> {
    Dedupe(FoundBy(rule.paths, content))
  }

  method ReferencesInGroups(expression: string, results: seq<seq<Found>>) returns (refs: seq<Reference>)
    ensures refs == FoundInGroups(expression, results)
  {
    refs := [];
    for g := 0 to |results|
      invariant refs == FoundInGroups(expression, results[..g])
    {
      assert results[..g + 1][..g] == results[..g];
      ghost var earlier := refs;
      var group := results[g];
      for v := 0 to |group|
        invariant refs == earlier + FoundInGroup(expression, group[..v])
      {
        assert group[..v + 1][..v] == group[..v];
        if group[v].Str? && group[v].text != "" {
          refs := refs + [Reference(group[v].text, expression, "", "", None)];
        }
      }
      assert group[..|group|] == group;
    }
    assert results[..|results|] == results;
  }

  method ReferencesByRule(rule: CompiledRule, content: Content) returns (refs: seq<Reference>)
    ensures refs == RuleReferences(rule, content)
  {
    refs := [];
    for i := 0 to |rule.paths|
      invariant refs == FoundBy(rule.paths[..i], content)
    {
      var path := rule.paths[i];
      assert rule.paths[..i + 1][..i] == rule.paths[..i];
      if path.normalized in content.results {
        var found := ReferencesInGroups(path.expression, content.results[path.normalized]);
        refs := refs + found;
      }
    }
    assert rule.paths[..|rule.paths|] == rule.paths;
    refs := DedupeReferences(refs);
  }

  ghost predicate FromRule(ref: Reference) {
    ref.secretName != "" && ref.container == "" && ref.key == "" && ref.optional == None
  }

  lemma {:induction false} FoundInGroupFromRule(expression: string, group: seq<Found>)
    ensures forall ref :: ref in FoundInGroup(expression, group) ==> FromRule(ref) && ref.fieldPath == expression
  {
    if group != [] {
      FoundInGroupFromRule(expression, group[..|group| - 1]);
    }
  }

  lemma {:induction false} FoundInGroupsFromRule(expression: string, groups: seq<seq<Found>>)
    ensures forall ref :: ref in FoundInGroups(expression, groups) ==> FromRule(ref) && ref.fieldPath == expression
  {
    if groups != [] {
      FoundInGroupsFromRule(expression, groups[..|groups| - 1]);
      FoundInGroupFromRule(expression, groups[|groups| - 1]);
    }
  }

  lemma {:induction false} FoundByFromRule(paths: seq<CompiledPath>, content: Content)
    ensures forall ref :: ref in FoundBy(paths, content) ==>
              FromRule(ref) && exists i :: 0 <= i < |paths| && paths[i].expression == ref.fieldPath
  {
    if paths != [] {
      var n := |paths| - 1;
      FoundByFromRule(paths[..n], content);
      if paths[n].normalized in content.results {
        FoundInGroupsFromRule(paths[n].expression, content.results[paths[n].normalized]);
      }
      forall ref | ref in FoundBy(paths, content)
        ensures FromRule(ref) && exists i :: 0 <= i < |paths| && paths[i].expression == ref.fieldPath
      {
        if ref in FoundBy(paths[..n], content) {
          var i :| 0 <= i < n && paths[..n][i].expression == ref.fieldPath;
          assert paths[i].expression == ref.fieldPath;
        }
      }
    }
  }

  /** A rule reference carries a rule expression as its path and nothing else, and never repeats. */
  lemma RuleReferencesAreFromRule(rule: CompiledRule, content: Content)
    ensures forall ref :: ref in RuleReferences(rule, content) ==>
              FromRule(ref) && exists i :: 0 <= i < |rule.paths| && rule.paths[i].expression == ref.fieldPath
    ensures NoDuplicates(RuleReferences(rule, content))
  {
    FoundByFromRule(rule.paths, content);
    DedupeLeavesNoDuplicates(FoundBy(rule.paths, content));
    forall ref | ref in RuleReferences(rule, content) ensures ref in FoundBy(rule.paths, content) {
      DedupeKeepsFirsts(FoundBy(rule.paths, content), ref);
    }
  }

  /** The expression finds the name, as a non-empty string, somewhere in its results. */
  ghost predicate FindsIn(group: seq<Found>, name: string) {
    name != "" && Str(name) in group
  }

  ghost predicate Finds(path: CompiledPath, content: Content, name: string) {
    path.normalized in content.results && FindsInSome(content.results[path.normalized], name)
  }

  lemma {:induction false} FoundInGroupIs(expression: string, group: seq<Found>, ref: Reference)
    ensures ref in FoundInGroup(expression, group) <==>
            FindsIn(group, ref.secretName) && ref == Reference(ref.secretName, expression, "", "", None)
  {
    if group != [] {
      var init, last := group[..|group| - 1], group[|group| - 1];
      FoundInGroupIs(expression, init, ref);
      assert group == init + [last];
    }
  }

  ghost predicate FindsInSome(groups: seq<seq<Found>>, name: string) {
    exists g :: 0 <= g < |groups| && FindsIn(groups[g], name)
  }

  lemma FindsInOneMore(groups: seq<seq<Found>>, group: seq<Found>, name: string)
    ensures FindsInSome(groups + [group], name) <==> FindsInSome(groups, name) || FindsIn(group, name)
  {
    hide FindsIn;
    var all := groups + [group];
    assert all[|groups|] == group;
    assert forall g :: 0 <= g < |groups| ==> all[g] == groups[g];
  }

  lemma {:induction false} FoundInGroupsIs(expression: string, groups: seq<seq<Found>>, ref: Reference)
    ensures ref in FoundInGroups(expression, groups) <==>
            FindsInSome(groups, ref.secretName) && ref == Reference(ref.secretName, expression, "", "", None)
  {
    hide FindsIn, FoundInGroup;
    if groups != [] {
      var n := |groups| - 1;
      FoundInGroupsIs(expression, groups[..n], ref);
      FoundInGroupIs(expression, groups[n], ref);
      FindsInOneMore(groups[..n], groups[n], ref.secretName);
      assert groups == groups[..n] + [groups[n]];
    }
  }

  lemma FoundByOneIs(path: CompiledPath, content: Content, ref: Reference)
    ensures ref in FoundByOne(path, content) <==>
            Finds(path, content, ref.secretName) && ref == Reference(ref.secretName, path.expression, "", "", None)
  {
    hide FindsInSome, FoundInGroups;
    if path.normalized in content.results {
      FoundInGroupsIs(path.expression, content.results[path.normalized], ref);
    }
  }

  lemma {:induction false} FoundByIs(paths: seq<CompiledPath>, content: Content, ref: Reference)
    ensures ref in FoundBy(paths, content) <==>
            exists i :: 0 <= i < |paths| && Finds(paths[i], content, ref.secretName) &&
                ref == Reference(ref.secretName, paths[i].expression, "", "", None)
  {
    hide Finds, FoundByOne;
    if paths != [] {
      var n := |paths| - 1;
      FoundByIs(paths[..n], content, ref);
      FoundByOneIs(paths[n], content, ref);
      assert forall i :: 0 <= i < n ==> paths[..n][i] == paths[i];
    }
  }

  lemma SomeExpressionFinds(paths: seq<CompiledPath>, content: Content, name: string, expression: string)
    ensures (exists i :: 0 <= i < |paths| && paths[i].expression == expression && Finds(paths[i], content, name)) <==>
            (exists i, g ::
               && 0 <= i < |paths| && paths[i].expression == expression
               && paths[i].normalized in content.results
               && 0 <= g < |content.results[paths[i].normalized]|
               && name != "" && Str(name) in content.results[paths[i].normalized][g])
  {
    if i :| 0 <= i < |paths| && paths[i].expression == expression && Finds(paths[i], content, name) {
      var groups := content.results[paths[i].normalized];
      var g :| 0 <= g < |groups| && FindsIn(groups[g], name);
      assert Str(name) in content.results[paths[i].normalized][g];
    }
    if i, g :|
      && 0 <= i < |paths| && paths[i].expression == expression && paths[i].normalized in content.results
      && 0 <= g < |content.results[paths[i].normalized]|
      && name != "" && Str(name) in content.results[paths[i].normalized][g]
    {
      assert FindsIn(content.results[paths[i].normalized][g], name);
      assert Finds(paths[i], content, name);
    }
  }

  /**
   A rule leads to a reference only for a name that one of its expressions finds as a
   non-empty string, and to one for each, however many fields of the object hold it: to that
   very reference, unless an expression holds a NUL, when it may be another with its key.
   */
  lemma RuleReferencesExactly(rule: CompiledRule, content: Content, name: string, expression: string)
    ensures var found := exists i, g ::
                           && 0 <= i < |rule.paths| && rule.paths[i].expression == expression
                           && rule.paths[i].normalized in content.results
                           && 0 <= g < |content.results[rule.paths[i].normalized]|
                           && name != "" && Str(name) in content.results[rule.paths[i].normalized][g];
            var ref := Reference(name, expression, "", "", None);
            && (ref in RuleReferences(rule, content) ==> found)
            && (found && (forall i :: 0 <= i < |rule.paths| ==> NUL !in rule.paths[i].expression) ==>
                  ref in RuleReferences(rule, content))
            && (found ==> exists kept :: kept in RuleReferences(rule, content) && KeyOf(kept) == KeyOf(ref))
    ensures NoDuplicates(RuleReferences(rule, content))
  {
    hide Finds, KeyOf;
    var refs, ref := FoundBy(rule.paths, content), Reference(name, expression, "", "", None);
    DedupeLeavesNoDuplicates(refs);
    SomeExpressionFinds(rule.paths, content, name, expression);
    FoundByIs(rule.paths, content, ref);
    DedupeKeepsFirsts(refs, ref);
    if ref in refs {
      DedupeKeepsKeys(refs, ref);
      if forall i :: 0 <= i < |rule.paths| ==> NUL !in rule.paths[i].expression {
        PlainExpressionsKeepAll(rule, content, ref);
      }
    }
  }

  lemma PlainExpressionsKeepAll(rule: CompiledRule, content: Content, ref: Reference)
    requires forall i :: 0 <= i < |rule.paths| ==> NUL !in rule.paths[i].expression
    requires ref in FoundBy(rule.paths, content)
    ensures ref in RuleReferences(rule, content)
  {
    hide Finds, KeyOf;
    var refs := FoundBy(rule.paths, content);
    forall found | found in refs ensures NulFree(found) {
      FoundByIs(rule.paths, content, found);
    }
    NulFreeDedupeIsLossless(refs);
    assert ref in Elements(RuleReferences(rule, content)) <==> ref in Elements(refs);
  }
}
