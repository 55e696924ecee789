/**
 Entries of a SecretUsage status: how an object's references become entries, and the
 order in which entries are recorded (internal/controller/secret_refs.go).
 */
module Usages {
  import opened Wrappers
  import opened Ordering
  import opened Collections
  import opened FieldPaths
  import opened Trees
  import opened Objects
  import opened References
  import opened Extraction
  import opened Rules

  datatype Usage = Usage(
    apiVersion: string,
    kind: string,
    namespace: string,
    name: string,
    uid: string,
    fieldPath: string,
    container: string,
    key: string,
    optional: Option<bool>)

  /* ---------- Order ---------- */

  function SortFields(u: Usage): seq<string> {
    [u.apiVersion, u.kind, u.namespace, u.name, u.fieldPath, u.container, u.key, BoolText(u.optional), u.uid]
  }

  predicate UsageLess(a: Usage, b: Usage) {
    LexLess(StringLess, SortFields(a), SortFields(b))
  }

  /** Where the first fields agree, the next decides. */
  lemma NextFieldDecides(s: seq<string>, t: seq<string>, n: nat)
    requires n < |s| == |t|
    ensures LexLess(StringLess, s[n..], t[n..]) ==
              if s[n] != t[n] then StringLess(s[n], t[n]) else LexLess(StringLess, s[n + 1..], t[n + 1..])
  {
    hide StringLess;
    assert s[n..][1..] == s[n + 1..] && t[n..][1..] == t[n + 1..];
  }

  lemma BoolTextsInOrder(a: Option<bool>, b: Option<bool>)
    ensures StringLess(BoolText(a), BoolText(b)) <==> (a == None && b != None) || (a == Some(false) && b == Some(true))
    ensures BoolText(a) == BoolText(b) <==> a == b
  {
    var x, y := BoolText(a), BoolText(b);
    assert "<nil>"[0] == '<' && "false"[0] == 'f' && "true"[0] == 't';
    StringOrder();
    if x == y {
      BoolTextIsInjective(a, b);
    }
  }

  lemma NineFieldsDecide(a: Usage, b: Usage)
    ensures UsageLess(a, b) ==
              if a.apiVersion != b.apiVersion then StringLess(a.apiVersion, b.apiVersion)
              else if a.kind != b.kind then StringLess(a.kind, b.kind)
              else if a.namespace != b.namespace then StringLess(a.namespace, b.namespace)
              else if a.name != b.name then StringLess(a.name, b.name)
              else if a.fieldPath != b.fieldPath then StringLess(a.fieldPath, b.fieldPath)
              else if a.container != b.container then StringLess(a.container, b.container)
              else if a.key != b.key then StringLess(a.key, b.key)
              else if a.optional != b.optional
              then a.optional == None || (a.optional == Some(false) && b.optional == Some(true))
              else StringLess(a.uid, b.uid)
  {
    hide StringLess, BoolText, LexLess;
    var s, t := SortFields(a), SortFields(b);
    NineTextsDecide(s, t);
    BoolTextsInOrder(a.optional, b.optional);
  }

  lemma NineTextsDecide(s: seq<string>, t: seq<string>)
    requires |s| == |t| == 9
    ensures LexLess(StringLess, s, t) ==
              if s[0] != t[0] then StringLess(s[0], t[0])
              else if s[1] != t[1] then StringLess(s[1], t[1])
              else if s[2] != t[2] then StringLess(s[2], t[2])
              else if s[3] != t[3] then StringLess(s[3], t[3])
              else if s[4] != t[4] then StringLess(s[4], t[4])
              else if s[5] != t[5] then StringLess(s[5], t[5])
              else if s[6] != t[6] then StringLess(s[6], t[6])
              else if s[7] != t[7] then StringLess(s[7], t[7])
              else StringLess(s[8], t[8])
  {
    hide StringLess, LexLess;
    assert s[0..] == s && t[0..] == t;
    NextFieldDecides(s, t, 0);
    NextFieldDecides(s, t, 1);
    NextFieldDecides(s, t, 2);
    MiddleTextsDecide(s, t);
  }

  lemma MiddleTextsDecide(s: seq<string>, t: seq<string>)
    requires |s| == |t| == 9
    ensures LexLess(StringLess, s[3..], t[3..]) ==
              if s[3] != t[3] then StringLess(s[3], t[3])
              else if s[4] != t[4] then StringLess(s[4], t[4])
              else if s[5] != t[5] then StringLess(s[5], t[5])
              else if s[6] != t[6] then StringLess(s[6], t[6])
              else if s[7] != t[7] then StringLess(s[7], t[7])
              else StringLess(s[8], t[8])
  {
    hide StringLess, LexLess;
    NextFieldDecides(s, t, 3);
    NextFieldDecides(s, t, 4);
    NextFieldDecides(s, t, 5);
    LastTextsDecide(s, t);
  }

  lemma LastTextsDecide(s: seq<string>, t: seq<string>)
    requires |s| == |t| == 9
    ensures LexLess(StringLess, s[6..], t[6..]) ==
              if s[6] != t[6] then StringLess(s[6], t[6])
              else if s[7] != t[7] then StringLess(s[7], t[7])
              else StringLess(s[8], t[8])
  {
    hide StringLess, LexLess;
    NextFieldDecides(s, t, 6);
    NextFieldDecides(s, t, 7);
    NextFieldDecides(s, t, 8);
    assert s[9..] == [] && t[9..] == [];
    EmptyIsNotLess();
    NothingLessThanItself(s[8]);
  }

  lemma NothingLessThanItself(s: string)
    ensures !StringLess(s, s)
  {
    hide StringLess;
    StringOrder();
  }

  lemma EmptyIsNotLess()
    ensures !LexLess(StringLess, [], [])
  {
  }

  /** The order is by nine fields in turn: a later one decides only where all earlier ones agree. */
  method UsageReferenceLess(a: Usage, b: Usage) returns (less: bool)
    ensures less == UsageLess(a, b)
    ensures less ==
              if a.apiVersion != b.apiVersion then StringLess(a.apiVersion, b.apiVersion)
              else if a.kind != b.kind then StringLess(a.kind, b.kind)
              else if a.namespace != b.namespace then StringLess(a.namespace, b.namespace)
              else if a.name != b.name then StringLess(a.name, b.name)
              else if a.fieldPath != b.fieldPath then StringLess(a.fieldPath, b.fieldPath)
              else if a.container != b.container then StringLess(a.container, b.container)
              else if a.key != b.key then StringLess(a.key, b.key)
              else if a.optional != b.optional
              then a.optional == None || (a.optional == Some(false) && b.optional == Some(true))
              else StringLess(a.uid, b.uid)
  {
    NineFieldsDecide(a, b);
    var left, right := SortFields(a), SortFields(b);
    for i := 0 to |left|
      invariant LexLess(StringLess, left, right) == LexLess(StringLess, left[i..], right[i..])
    {
      assert left[i..][1..] == left[i + 1..] && right[i..][1..] == right[i + 1..];
      if left[i] == right[i] {
        continue;
      }
      return StringLess(left[i], right[i]);
    }
    return false;
  }

  lemma SortFieldsAreInjective(a: Usage, b: Usage)
    requires SortFields(a) == SortFields(b)
    ensures a == b
  {
  }

  /** The comparison is a strict total order on entries, so it leaves a sort no freedom. */
  lemma UsageOrder()
    ensures StrictTotalOrder(UsageLess)
  {
    hide SortFields, StringLess;
    StringOrder();
    forall a ensures !UsageLess(a, a) {
      LexIrreflexive(StringLess, SortFields(a));
    }
    forall a, b | a != b ensures UsageLess(a, b) || UsageLess(b, a) {
      if SortFields(a) == SortFields(b) {
        SortFieldsAreInjective(a, b);
      }
      LexTotal(StringLess, SortFields(a), SortFields(b));
    }
    forall a, b, c | UsageLess(a, b) && UsageLess(b, c) ensures UsageLess(a, c) {
      LexTransitive(StringLess, SortFields(a), SortFields(b), SortFields(c));
    }
  }

  function SortedUsages(usages: seq<Usage>): seq<Usage> {
    Sorted(UsageLess, usages)
  }

  /** Whatever order the entries were gathered in, sorting them gives the same list. */
  lemma SortIsCanonical(a: seq<Usage>, b: seq<Usage>)
    requires multiset(a) == multiset(b) && Ordered(UsageLess, b)
    ensures SortedUsages(a) == b
  {
    UsageOrder();
    SortedIsOrderedPermutation(UsageLess, a);
    OrderedPermutationsAgree(UsageLess, SortedUsages(a), b);
  }

  /** Sorting a list without repetition gives a strictly increasing list. */
  lemma SortedSetIsStrict(a: seq<Usage>, s: set<Usage>)
    requires Enumerates(a, s)
    ensures StrictlyOrdered(UsageLess, SortedUsages(a))
    ensures Elements(SortedUsages(a)) == s && |SortedUsages(a)| == |s|
  {
    UsageOrder();
    SortedIsOrderedPermutation(UsageLess, a);
    var sorted := SortedUsages(a);
    EnumerationHasNoDuplicates(sorted, s);
    EnumerationFacts(sorted, s);
  }

  /** The one strictly increasing list of a set of entries. */
  ghost function Canonical(s: set<Usage>): seq<Usage> {
    SortedUsages(AnyEnumeration(s))
  }

  ghost function AnyEnumeration<T>(s: set<T>): (q: seq<T>)
    ensures Enumerates(q, s)
  {
    if s == {} then []
    else
      var x :| x in s;
      assert multiset(s) == multiset(s - {x}) + multiset{x};
      AnyEnumeration(s - {x}) + [x]
  }

  lemma CanonicalOf(a: seq<Usage>, s: set<Usage>)
    requires Enumerates(a, s)
    ensures SortedUsages(a) == Canonical(s)
    ensures StrictlyOrdered(UsageLess, Canonical(s))
    ensures Elements(Canonical(s)) == s && |Canonical(s)| == |s|
  {
    UsageOrder();
    SortedIsOrderedPermutation(UsageLess, AnyEnumeration(s));
    SortIsCanonical(a, Canonical(s));
    SortedSetIsStrict(a, s);
  }

  lemma CanonicalFacts(s: set<Usage>)
    ensures StrictlyOrdered(UsageLess, Canonical(s))
    ensures Elements(Canonical(s)) == s && |Canonical(s)| == |s|
  {
    CanonicalOf(AnyEnumeration(s), s);
  }

  /* ---------- From references to entries ---------- */

  /** What the controller tracks in an object: built-in fields, or what the rule for its kind finds. */
  function TrackedReferences(rules: seq<CompiledRule>, r: Resource): seq<Reference> {
    if r.Custom? then
      match RuleFor(rules, r.gvk)
      case None => []
      case Some(rule) => RuleReferences(rule, r.content)
    else ReferencesOf(r)
  }

  function ToUsage(r: Resource, ref: Reference): Usage {
    var gvk := GvkOf(KindOf(r));
    Usage(GroupVersionText(gvk), gvk.kind, r.meta.namespace, r.meta.name, r.meta.uid,
          ref.fieldPath, ref.container, ref.key, ref.optional)
  }

  function Select(r: Resource, refs: seq<Reference>, secretName: string): seq<Usage> {
    if refs == [] then []
    else
      var last := refs[|refs| - 1];
      Select(r, refs[..|refs| - 1], secretName) + if last.secretName == secretName then [ToUsage(r, last)] else []
  }

  /** The entries an object contributes to the record of one Secret. */
  function UsagesIn(rules: seq<CompiledRule>, r: Resource, secretName: string): seq<Usage> {
    Select(r, TrackedReferences(rules, r), secretName)
  }

  method UsageReferencesForObject(rules: seq<CompiledRule>, r: Resource, secretName: string)
    returns (usages: seq<Usage>)
    requires !r.Custom?
    ensures usages == UsagesIn(rules, r, secretName)
    ensures forall u :: u in usages <==>
              exists ref ::
                && ref in ReferencesOf(r) && ref.secretName == secretName
                && u.apiVersion == GroupVersionText(GvkOf(KindOf(r))) && u.kind == GvkOf(KindOf(r)).kind
                && u.namespace == r.meta.namespace && u.name == r.meta.name && u.uid == r.meta.uid
                && u.fieldPath == ref.fieldPath && u.container == ref.container
                && u.key == ref.key && u.optional == ref.optional
  {
    hide ReferencesOf, GroupVersionText, GvkOf, KindOf, ToUsage, UsagesIn, Select;
    TrackedAreBuiltIn(rules, r);
    forall u { EntriesDescribeReferences(rules, r, secretName, u); }
    var refs := ReferencesForObject(r);
    if |refs| == 0 {
      NothingSelected(rules, r, secretName);
      return [];
    }
    SelectedAre(rules, r, secretName);
    usages := UsagesNaming(r, refs, secretName);
  }

  lemma NothingSelected(rules: seq<CompiledRule>, r: Resource, secretName: string)
    requires TrackedReferences(rules, r) == []
    ensures UsagesIn(rules, r, secretName) == []
  {
  }

  lemma SelectedAre(rules: seq<CompiledRule>, r: Resource, secretName: string)
    ensures UsagesIn(rules, r, secretName) == Select(r, TrackedReferences(rules, r), secretName)
  {
  }

  method UsagesNaming(r: Resource, refs: seq<Reference>, secretName: string) returns (usages: seq<Usage>)
    ensures usages == Select(r, refs, secretName)
  {
    hide ToUsage;
    usages := [];
    for i := 0 to |refs|
      invariant usages == Select(r, refs[..i], secretName)
    {
      assert refs[..i + 1][..i] == refs[..i];
      if refs[i].secretName != secretName {
        continue;
      }
      usages := usages + [ToUsage(r, refs[i])];
    }
    assert refs[..|refs|] == refs;
  }

  method RuleUsageReferences(rules: seq<CompiledRule>, rule: CompiledRule, r: Resource, secretName: string)
    returns (usages: seq<Usage>)
    requires r.Custom? && r.gvk == rule.gvk && RuleFor(rules, rule.gvk) == Some(rule)
    ensures usages == UsagesIn(rules, r, secretName)
  {
    hide RuleReferences, RuleFor, Select;
    var refs := ReferencesByRule(rule, r.content);
    RuleReferencesAreFromRule(rule, r.content);
    usages := RuleUsagesNaming(rule, r, refs, secretName);
  }

  /** Entries for rule references, which carry no container, key or optional mark. */
  method RuleUsagesNaming(rule: CompiledRule, r: Resource, refs: seq<Reference>, secretName: string)
    returns (usages: seq<Usage>)
    requires r.Custom? && r.gvk == rule.gvk
    requires forall ref :: ref in refs ==> FromRule(ref)
    ensures usages == Select(r, refs, secretName)
  {
    hide GroupVersionText;
    usages := [];
    for i := 0 to |refs|
      invariant usages == Select(r, refs[..i], secretName)
    {
      assert refs[..i + 1][..i] == refs[..i];
      assert refs[i] in refs && FromRule(refs[i]);
      if refs[i].secretName != secretName {
        continue;
      }
      usages := usages + [Usage(GroupVersionText(rule.gvk), rule.gvk.kind, r.meta.namespace, r.meta.name, r.meta.uid,
                                refs[i].fieldPath, "", "", None)];
    }
    assert refs[..|refs|] == refs;
  }

  lemma {:induction false} SelectMembers(r: Resource, refs: seq<Reference>, secretName: string, u: Usage)
    ensures u in Select(r, refs, secretName) <==>
            exists ref :: ref in refs && ref.secretName == secretName && u == ToUsage(r, ref)
  {
    hide ToUsage;
    if refs != [] {
      SelectMembers(r, refs[..|refs| - 1], secretName, u);
      assert refs == refs[..|refs| - 1] + [refs[|refs| - 1]];
    }
  }

  lemma {:induction false} SelectKeepsDistinct(r: Resource, refs: seq<Reference>, secretName: string)
    requires NoDuplicates(refs)
    ensures NoDuplicates(Select(r, refs, secretName))
  {
    if refs != [] {
      var init, last := refs[..|refs| - 1], refs[|refs| - 1];
      SelectKeepsDistinct(r, init, secretName);
      if last.secretName == secretName {
        forall u | u in Select(r, init, secretName) ensures u != ToUsage(r, last) {
          SelectMembers(r, init, secretName, u);
          var ref :| ref in init && ref.secretName == secretName && u == ToUsage(r, ref);
          assert ref != last;
        }
        NoDuplicatesConcat(Select(r, init, secretName), [ToUsage(r, last)]);
      }
    }
  }

  lemma TrackedReferencesAreDistinct(rules: seq<CompiledRule>, r: Resource)
    ensures NoDuplicates(TrackedReferences(rules, r))
  {
    if r.Custom? {
      match RuleFor(rules, r.gvk)
      case None =>
      case Some(rule) => RuleReferencesAreFromRule(rule, r.content);
    } else {
      ReferencePathsAreDistinct(r);
    }
  }

  /** One object never contributes an entry twice. */
  lemma UsagesInAreDistinct(rules: seq<CompiledRule>, r: Resource, secretName: string)
    ensures Enumerates(UsagesIn(rules, r, secretName), Elements(UsagesIn(rules, r, secretName)))
  {
    hide TrackedReferences;
    TrackedReferencesAreDistinct(rules, r);
    SelectKeepsDistinct(r, TrackedReferences(rules, r), secretName);
    NoDuplicatesEnumerate(UsagesIn(rules, r, secretName));
  }

  lemma UsagesInComeFrom(rules: seq<CompiledRule>, r: Resource, secretName: string, u: Usage)
    requires u in UsagesIn(rules, r, secretName)
    ensures u.apiVersion == GroupVersionText(GvkOf(KindOf(r))) && u.kind == GvkOf(KindOf(r)).kind
    ensures u.namespace == r.meta.namespace && u.name == r.meta.name
    ensures exists ref :: ref in TrackedReferences(rules, r) && ref.secretName == secretName && u == ToUsage(r, ref)
  {
    SelectMembers(r, TrackedReferences(rules, r), secretName, u);
  }

  /* ---------- What an entry says ---------- */

  /**
   An entry says of a reference in an object: the kind and identity of the object, and the
   path, container, key and optional mark of the reference, each in its own place.
   */
  lemma EntriesDescribeReferences(rules: seq<CompiledRule>, r: Resource, secretName: string, u: Usage)
    ensures u in UsagesIn(rules, r, secretName) <==>
              exists ref ::
                && ref in TrackedReferences(rules, r) && ref.secretName == secretName
                && u.apiVersion == GroupVersionText(GvkOf(KindOf(r))) && u.kind == GvkOf(KindOf(r)).kind
                && u.namespace == r.meta.namespace && u.name == r.meta.name && u.uid == r.meta.uid
                && u.fieldPath == ref.fieldPath && u.container == ref.container
                && u.key == ref.key && u.optional == ref.optional
  {
    hide TrackedReferences, GroupVersionText, GvkOf, KindOf;
    SelectMembers(r, TrackedReferences(rules, r), secretName, u);
  }

  /**
   For a built-in object: its path leads to the Secret name, and the rest is what the object
   holds around that place.
   */
  lemma BuiltInEntryDescribesItsField(rules: seq<CompiledRule>, r: Resource, secretName: string, u: Usage)
    requires !r.Custom? && u in UsagesIn(rules, r, secretName)
    ensures u.uid == r.meta.uid
    ensures exists path ::
              && ParsePath(u.fieldPath) == Some(path) && path != []
              && Follow(ResourceTree(r), path) == Text(secretName) && secretName != ""
              && u.container == ContainerAt(ShapeOf(KindOf(r)), ResourceTree(r), path, "")
              && u.key == TextOf(Get(Follow(ResourceTree(r), path[..|path| - 1]), Key))
              && u.optional == FlagOf(Get(Follow(ResourceTree(r), path[..|path| - 1]), Optional))
  {
    hide TrackedReferences, ReferencesOf, GroupVersionText, GvkOf, ResourceTree, ShapeOf, UsagesIn;
    EntriesDescribeReferences(rules, r, secretName, u);
    var ref :| ref in TrackedReferences(rules, r) && ref.secretName == secretName && u.fieldPath == ref.fieldPath
               && u.container == ref.container && u.key == ref.key && u.optional == ref.optional;
    assert ref in ReferencesOf(r) by {
      TrackedAreBuiltIn(rules, r);
    }
    FieldPathLeadsBack(r, ref);
    var path :| ParsePath(ref.fieldPath) == Some(path) && Describes(r, path, ref);
  }

  lemma TrackedAreBuiltIn(rules: seq<CompiledRule>, r: Resource)
    requires !r.Custom?
    ensures TrackedReferences(rules, r) == ReferencesOf(r)
  {
  }

  /** For a custom resource: its path is an expression of the rule for its kind, which finds the Secret name there. */
  lemma RuleEntryNamesItsExpression(rules: seq<CompiledRule>, r: Resource, secretName: string, u: Usage)
    requires r.Custom? && u in UsagesIn(rules, r, secretName)
    ensures u.uid == r.meta.uid && u.container == "" && u.key == "" && u.optional == None
    ensures exists rule, i ::
              && rule in rules && rule.gvk == r.gvk && 0 <= i < |rule.paths|
              && u.fieldPath == rule.paths[i].expression && Finds(rule.paths[i], r.content, secretName)
  {
    hide RuleReferences, RuleFor, GroupVersionText, GvkOf, Finds, UsagesIn;
    EntriesDescribeReferences(rules, r, secretName, u);
    RuleForFinds(rules, r.gvk);
    var ref :| ref in TrackedReferences(rules, r) && ref.secretName == secretName && u.fieldPath == ref.fieldPath
               && u.container == ref.container && u.key == ref.key && u.optional == ref.optional;
    var rule := RuleFor(rules, r.gvk).value;
    RuleReferenceIsFound(rule, r.content, ref);
  }

  lemma RuleReferenceIsFound(rule: CompiledRule, content: Content, ref: Reference)
    requires ref in RuleReferences(rule, content)
    ensures ref.container == "" && ref.key == "" && ref.optional == None
    ensures exists i ::
              && 0 <= i < |rule.paths| && ref.fieldPath == rule.paths[i].expression
              && Finds(rule.paths[i], content, ref.secretName)
  {
    hide Finds, FoundBy;
    DedupeKeepsFirsts(FoundBy(rule.paths, content), ref);
    FoundByIs(rule.paths, content, ref);
  }

  /* ---------- The index ---------- */

  function IndexNames(rules: seq<CompiledRule>, r: Resource): set<string> {
    NamesIn(TrackedReferences(rules, r))
  }

  lemma TrackedNamesAreNotEmpty(rules: seq<CompiledRule>, r: Resource)
    ensures forall ref :: ref in TrackedReferences(rules, r) ==> ref.secretName != ""
  {
    forall ref | ref in TrackedReferences(rules, r) ensures ref.secretName != "" {
      if r.Custom? {
        RuleReferencesAreFromRule(RuleFor(rules, r.gvk).value, r.content);
      } else {
        FieldPathLeadsBack(r, ref);
      }
    }
  }

  /** An object is listed under a name in the index exactly when it has an entry for that name. */
  lemma IndexAgreesWithUsages(rules: seq<CompiledRule>, r: Resource, secretName: string)
    ensures secretName in IndexNames(rules, r) <==> UsagesIn(rules, r, secretName) != []
  {
    hide TrackedReferences;
    var refs := TrackedReferences(rules, r);
    TrackedNamesAreNotEmpty(rules, r);
    if secretName in IndexNames(rules, r) {
      var ref :| ref in refs && ref.secretName == secretName;
      SelectMembers(r, refs, secretName, ToUsage(r, ref));
    }
    if UsagesIn(rules, r, secretName) != [] {
      SelectMembers(r, refs, secretName, UsagesIn(rules, r, secretName)[0]);
    }
  }
}
