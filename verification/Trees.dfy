/**
 Objects as JSON documents, and the places in a document that name a Secret.

 A `Shape` says which members of a document hold Secret names. `Scan` reads them off in
 document order. This is the reference the source's extractors are proved against: it
 knows nothing of Pods or volumes, and what it returns is characterised here once
 (`ScanIsExact`, `ScanPathsAreDistinct`) for every well-formed shape and every document.
 */
module Trees {
  import opened Wrappers
  import opened FieldPaths

  datatype Tree =
    | Absent
    | Text(text: string)
    | Flag(flag: bool)
    | Record(members: map<Member, Tree>)
    | Array(items: seq<Tree>)

  function Get(t: Tree, m: Member): Tree {
    if t.Record? && m in t.members then t.members[m] else Absent
  }

  function Item(t: Tree, i: nat): Tree {
    if t.Array? && i < |t.items| then t.items[i] else Absent
  }

  function Child(t: Tree, step: Step): Tree {
    match step
    case Field(m) => Get(t, m)
    case Index(i) => Item(t, i)
  }

  /** The part of a document that a path leads to. */
  function Follow(t: Tree, path: Path): Tree
    decreases |path|
  {
    if path == [] then t else Follow(Child(t, path[0]), path[1..])
  }

  lemma {:induction false} NothingBelowAbsent(path: Path)
    ensures Follow(Absent, path) == Absent
    decreases |path|
  {
    if path != [] {
      NothingBelowAbsent(path[1..]);
    }
  }

  function TextOf(t: Tree): string {
    if t.Text? then t.text else ""
  }

  function FlagOf(t: Tree): Option<bool> {
    if t.Flag? then Some(t.flag) else None
  }

  datatype Shape =
    | Nothing
    | NamesSecret(member: Member, rest: Shape)
    | Nested(member: Member, inner: Shape, rest: Shape)
    | Each(item: Shape)
    | Container(inner: Shape)

  /** No member is described twice at one level. */
  predicate WellFormed(shape: Shape) {
    match shape
    case Nothing => true
    case NamesSecret(m, rest) => m !in Heads(rest) && IsRecord(rest) && WellFormed(rest)
    case Nested(m, inner, rest) => m !in Heads(rest) && IsRecord(rest) && WellFormed(inner) && WellFormed(rest)
    case Each(item) => WellFormed(item)
    case Container(inner) => IsRecord(inner) && WellFormed(inner)
  }

  predicate IsRecord(shape: Shape) {
    shape.Nothing? || shape.NamesSecret? || shape.Nested?
  }

  function Heads(shape: Shape): set<Member> {
    match shape
    case Nothing => {}
    case NamesSecret(m, rest) => {m} + Heads(rest)
    case Nested(m, _, rest) => {m} + Heads(rest)
    case Each(_) => {}
    case Container(inner) => Heads(inner)
  }

  /** `path` is one of the places the shape says a Secret name is held. */
  predicate Tracks(shape: Shape, path: Path) {
    match shape
    case Nothing => false
    case NamesSecret(m, rest) => path == [Field(m)] || Tracks(rest, path)
    case Nested(m, inner, rest) => (path != [] && path[0] == Field(m) && Tracks(inner, path[1..])) || Tracks(rest, path)
    case Each(item) => path != [] && path[0].Index? && Tracks(item, path[1..])
    case Container(inner) => Tracks(inner, path)
  }

  /** The name of the innermost container around a tracked path, or `owner` outside any. */
  function ContainerAt(shape: Shape, t: Tree, path: Path, owner: string): string {
    match shape
    case Nothing => owner
    case NamesSecret(m, rest) => if path == [Field(m)] then owner else ContainerAt(rest, t, path, owner)
    case Nested(m, inner, rest) =>
      if path != [] && path[0] == Field(m) then ContainerAt(inner, Get(t, m), path[1..], owner)
      else ContainerAt(rest, t, path, owner)
    case Each(item) => if path != [] then ContainerAt(item, Child(t, path[0]), path[1..], owner) else owner
    case Container(inner) => ContainerAt(inner, t, path, TextOf(Get(t, Name)))
  }

  /** A place found to hold a Secret name, with what the document says beside it. */
  datatype Slot = Slot(path: Path, name: string, container: string, key: string, optional: Option<bool>)

  function Under(step: Step, slots: seq<Slot>): seq<Slot> {
    seq(|slots|, i requires 0 <= i < |slots| => slots[i].(path := [step] + slots[i].path))
  }

  function Leaf(m: Member, t: Tree, owner: string): seq<Slot> {
    if Get(t, m).Text?
    then [Slot([Field(m)], Get(t, m).text, owner, TextOf(Get(t, Key)), FlagOf(Get(t, Optional)))]
    else []
  }

  function Scan(shape: Shape, t: Tree, owner: string): seq<Slot>
    decreases shape, 0
  {
    match shape
    case Nothing => []
    case NamesSecret(m, rest) => Leaf(m, t, owner) + Scan(rest, t, owner)
    case Nested(m, inner, rest) => Under(Field(m), Scan(inner, Get(t, m), owner)) + Scan(rest, t, owner)
    case Each(item) => if t.Array? then ScanItems(item, t.items, |t.items|, owner) else []
    case Container(inner) => Scan(inner, t, TextOf(Get(t, Name)))
  }

  function ScanItems(item: Shape, items: seq<Tree>, n: nat, owner: string): seq<Slot>
    requires n <= |items|
    decreases item, n + 1
  {
    if n == 0 then []
    else ScanItems(item, items, n - 1, owner) + Under(Index(n - 1), Scan(item, items[n - 1], owner))
  }

  /** What a slot must say: its path is tracked, leads to its name, and the rest is read beside it. */
  ghost predicate Faithful(shape: Shape, t: Tree, owner: string, slot: Slot) {
    && Tracks(shape, slot.path)
    && slot.path != []
    && Follow(t, slot.path) == Text(slot.name)
    && slot.container == ContainerAt(shape, t, slot.path, owner)
    && slot.key == TextOf(Get(Follow(t, slot.path[..|slot.path| - 1]), Key))
    && slot.optional == FlagOf(Get(Follow(t, slot.path[..|slot.path| - 1]), Optional))
  }

  lemma FollowChild(t: Tree, step: Step, path: Path)
    ensures Follow(t, [step] + path) == Follow(Child(t, step), path)
    ensures path != [] ==> ([step] + path)[..|path|] == [step] + path[..|path| - 1]
  {
  }

  lemma UnderMembers(step: Step, slots: seq<Slot>, slot: Slot)
    requires slot in Under(step, slots)
    ensures exists inner :: inner in slots && slot == inner.(path := [step] + inner.path)
  {
  }

  lemma TracksStart(shape: Shape, path: Path)
    requires WellFormed(shape) && Tracks(shape, path)
    ensures path != []
    ensures IsRecord(shape) ==> path[0].Field? && path[0].member in Heads(shape)
  {
  }

  lemma FaithfulUnder(shape: Shape, inner: Shape, t: Tree, owner: string, step: Step, slot: Slot)
    requires Faithful(inner, Child(t, step), owner, slot)
    requires Tracks(shape, [step] + slot.path)
    requires ContainerAt(shape, t, [step] + slot.path, owner) == ContainerAt(inner, Child(t, step), slot.path, owner)
    ensures Faithful(shape, t, owner, slot.(path := [step] + slot.path))
  {
    FollowChild(t, step, slot.path);
    FollowChild(t, step, slot.path[..|slot.path| - 1]);
  }

  lemma {:induction false} ScanIsFaithful(shape: Shape, t: Tree, owner: string, slot: Slot)
    requires WellFormed(shape)
    requires slot in Scan(shape, t, owner)
    ensures Faithful(shape, t, owner, slot)
    decreases shape, 0
  {
    match shape
    case Nothing =>
    case NamesSecret(m, rest) =>
      if slot in Leaf(m, t, owner) {
        assert slot.path[..0] == [];
      } else {
        ScanIsFaithful(rest, t, owner, slot);
        TracksStart(rest, slot.path);
      }
    case Nested(m, inner, rest) =>
      var below := Scan(inner, Get(t, m), owner);
      if slot in Under(Field(m), below) {
        UnderMembers(Field(m), below, slot);
        var s :| s in below && slot == s.(path := [Field(m)] + s.path);
        ScanIsFaithful(inner, Get(t, m), owner, s);
        assert slot.path[1..] == s.path;
        FaithfulUnder(shape, inner, t, owner, Field(m), s);
      } else {
        ScanIsFaithful(rest, t, owner, slot);
        TracksStart(rest, slot.path);
      }
    case Each(item) =>
      ScanItemsAreFaithful(shape, t, |t.items|, owner, slot);
    case Container(inner) =>
      ScanIsFaithful(inner, t, TextOf(Get(t, Name)), slot);
  }

  lemma {:induction false} ScanItemsAreFaithful(shape: Shape, t: Tree, n: nat, owner: string, slot: Slot)
    requires shape.Each? && WellFormed(shape)
    requires t.Array? && n <= |t.items|
    requires slot in ScanItems(shape.item, t.items, n, owner)
    ensures Faithful(shape, t, owner, slot)
    decreases shape.item, n + 1
  {
    var below := Scan(shape.item, t.items[n - 1], owner);
    if slot in Under(Index(n - 1), below) {
      UnderMembers(Index(n - 1), below, slot);
      var s :| s in below && slot == s.(path := [Index(n - 1)] + s.path);
      ScanIsFaithful(shape.item, t.items[n - 1], owner, s);
      assert slot.path[1..] == s.path;
      FaithfulUnder(shape, shape.item, t, owner, Index(n - 1), s);
    } else {
      ScanItemsAreFaithful(shape, t, n - 1, owner, slot);
    }
  }

  ghost predicate HasPath(slots: seq<Slot>, path: Path) {
    exists slot :: slot in slots && slot.path == path
  }

  lemma HasPathUnder(step: Step, slots: seq<Slot>, path: Path)
    requires HasPath(slots, path)
    ensures HasPath(Under(step, slots), [step] + path)
  {
    var i :| 0 <= i < |slots| && slots[i].path == path;
    assert Under(step, slots)[i].path == [step] + path;
  }

  lemma {:induction false} ScanIsComplete(shape: Shape, t: Tree, owner: string, path: Path)
    requires Tracks(shape, path)
    requires Follow(t, path).Text?
    ensures HasPath(Scan(shape, t, owner), path)
    decreases shape, 0
  {
    match shape
    case NamesSecret(m, rest) =>
      if path == [Field(m)] {
        assert Follow(t, path) == Get(t, m);
        assert Scan(shape, t, owner)[0].path == path;
      } else {
        ScanIsComplete(rest, t, owner, path);
        HasPathConcat(Leaf(m, t, owner), Scan(rest, t, owner), path);
      }
    case Nested(m, inner, rest) =>
      var below := Scan(inner, Get(t, m), owner);
      if path != [] && path[0] == Field(m) && Tracks(inner, path[1..]) {
        assert path == [Field(m)] + path[1..];
        ScanIsComplete(inner, Get(t, m), owner, path[1..]);
        HasPathUnder(Field(m), below, path[1..]);
      } else {
        ScanIsComplete(rest, t, owner, path);
      }
      HasPathConcat(Under(Field(m), below), Scan(rest, t, owner), path);
    case Each(item) =>
      NothingBelowAbsent(path[1..]);
      assert Follow(t, path) == Follow(Child(t, path[0]), path[1..]);
      ScanItemsAreComplete(item, t.items, |t.items|, owner, path);
    case Container(inner) =>
      ScanIsComplete(inner, t, TextOf(Get(t, Name)), path);
  }

  lemma HasPathConcat(a: seq<Slot>, b: seq<Slot>, path: Path)
    ensures HasPath(a + b, path) <==> HasPath(a, path) || HasPath(b, path)
  {
  }

  lemma {:induction false} ScanItemsAreComplete(item: Shape, items: seq<Tree>, n: nat, owner: string, path: Path)
    requires n <= |items|
    requires path != [] && path[0].Index? && path[0].index < n
    requires Tracks(item, path[1..])
    requires Follow(items[path[0].index], path[1..]).Text?
    ensures HasPath(ScanItems(item, items, n, owner), path)
    decreases item, n + 1
  {
    var before := ScanItems(item, items, n - 1, owner);
    var below := Scan(item, items[n - 1], owner);
    if path[0].index == n - 1 {
      assert path == [Index(n - 1)] + path[1..];
      ScanIsComplete(item, items[n - 1], owner, path[1..]);
      HasPathUnder(Index(n - 1), below, path[1..]);
    } else {
      ScanItemsAreComplete(item, items, n - 1, owner, path);
    }
    HasPathConcat(before, Under(Index(n - 1), below), path);
  }

  ghost predicate DistinctPaths(slots: seq<Slot>) {
    forall i, j :: 0 <= i < j < |slots| ==> slots[i].path != slots[j].path
  }

  lemma DistinctUnder(step: Step, slots: seq<Slot>)
    requires DistinctPaths(slots)
    ensures DistinctPaths(Under(step, slots))
  {
    forall i, j | 0 <= i < j < |slots| ensures Under(step, slots)[i].path != Under(step, slots)[j].path {
      assert ([step] + slots[i].path)[1..] == slots[i].path;
      assert ([step] + slots[j].path)[1..] == slots[j].path;
    }
  }

  lemma DistinctConcat(a: seq<Slot>, b: seq<Slot>)
    requires DistinctPaths(a) && DistinctPaths(b)
    requires forall x, y :: x in a && y in b ==> x.path != y.path
    ensures DistinctPaths(a + b)
  {
  }

  /** No place is reported twice. */
  lemma {:induction false} ScanPathsAreDistinct(shape: Shape, t: Tree, owner: string)
    requires WellFormed(shape)
    ensures DistinctPaths(Scan(shape, t, owner))
    decreases shape, 0
  {
    match shape
    case Nothing =>
    case NamesSecret(m, rest) =>
      ScanPathsAreDistinct(rest, t, owner);
      forall x, y | x in Leaf(m, t, owner) && y in Scan(rest, t, owner) ensures x.path != y.path {
        ScanIsFaithful(rest, t, owner, y);
        TracksStart(rest, y.path);
      }
      DistinctConcat(Leaf(m, t, owner), Scan(rest, t, owner));
    case Nested(m, inner, rest) =>
      var below := Scan(inner, Get(t, m), owner);
      ScanPathsAreDistinct(inner, Get(t, m), owner);
      DistinctUnder(Field(m), below);
      ScanPathsAreDistinct(rest, t, owner);
      forall x, y | x in Under(Field(m), below) && y in Scan(rest, t, owner) ensures x.path != y.path {
        UnderMembers(Field(m), below, x);
        ScanIsFaithful(rest, t, owner, y);
        TracksStart(rest, y.path);
      }
      DistinctConcat(Under(Field(m), below), Scan(rest, t, owner));
    case Each(item) =>
      if t.Array? {
        ScanItemPathsAreDistinct(item, t.items, |t.items|, owner);
      }
    case Container(inner) =>
      ScanPathsAreDistinct(inner, t, TextOf(Get(t, Name)));
  }

  lemma {:induction false} ItemPathsAreIndexed(item: Shape, items: seq<Tree>, n: nat, owner: string, slot: Slot)
    requires n <= |items|
    requires slot in ScanItems(item, items, n, owner)
    ensures slot.path != [] && slot.path[0].Index? && slot.path[0].index < n
    decreases n
  {
    var below := Under(Index(n - 1), Scan(item, items[n - 1], owner));
    if slot !in below {
      ItemPathsAreIndexed(item, items, n - 1, owner, slot);
    } else {
      UnderMembers(Index(n - 1), Scan(item, items[n - 1], owner), slot);
    }
  }

  lemma {:induction false} ScanItemPathsAreDistinct(item: Shape, items: seq<Tree>, n: nat, owner: string)
    requires WellFormed(item) && n <= |items|
    ensures DistinctPaths(ScanItems(item, items, n, owner))
    decreases item, n + 1
  {
    if n != 0 {
      var before := ScanItems(item, items, n - 1, owner);
      var below := Scan(item, items[n - 1], owner);
      ScanItemPathsAreDistinct(item, items, n - 1, owner);
      ScanPathsAreDistinct(item, items[n - 1], owner);
      DistinctUnder(Index(n - 1), below);
      forall x, y | x in before && y in Under(Index(n - 1), below) ensures x.path != y.path {
        ItemPathsAreIndexed(item, items, n - 1, owner, x);
        UnderMembers(Index(n - 1), below, y);
      }
      DistinctConcat(before, Under(Index(n - 1), below));
    }
  }

  /** A place is reported exactly when it is tracked and holds text, and the report is faithful. */
  lemma ScanIsExact(shape: Shape, t: Tree, owner: string, path: Path)
    requires WellFormed(shape)
    ensures HasPath(Scan(shape, t, owner), path) <==> Tracks(shape, path) && Follow(t, path).Text?
    ensures forall slot :: slot in Scan(shape, t, owner) ==> Faithful(shape, t, owner, slot)
  {
    forall slot | slot in Scan(shape, t, owner) ensures Faithful(shape, t, owner, slot) {
      ScanIsFaithful(shape, t, owner, slot);
    }
    if Tracks(shape, path) && Follow(t, path).Text? {
      ScanIsComplete(shape, t, owner, path);
    }
  }
}
