/** From archive members to groups of mentions, one group per canonical entity
    (app/services/identity_resolution.py). */
module Resolution {
  import opened Wrappers
  import opened Lists
  import opened Sorting

  type Path = string
  type StorageKey = string

  datatype DocumentClass =
    | IoList | Bom | Hardware | MotorDrive | Terminals | Cables
    | Schematic | CrossReferences | Manual | Revision | OtherClass(code: string)

  datatype Value = Null | Text(text: string) | Other(code: int)

  datatype Mention = Mention(
    kind: string,        // value of the entity kind
    name: string,
    path: Path,
    locator: string,     // cell range, else page number, else "0"
    role: string,
    documentClass: DocumentClass,
    confidence: real,
    aliases: seq<string>,
    attributes: map<string, Value>)

  // ---- collecting the mentions of an archive ---------------------------------

  /** An archive member as observed, with the storage key zipped to it, if any. */
  datatype Member = Member(path: Path, key: Option<StorageKey>)

  type Extractor = (string, Path, DocumentClass) -> seq<Mention>

  /** Mentions carry the path of the member they were extracted from. */
  ghost predicate NamesItsSource(extract: Extractor) {
    forall content, path, c, m :: m in extract(content, path, c) ==> m.path == path
  }

  datatype Sources = Sources(classes: map<Path, DocumentClass>, storage: map<StorageKey, string>)

  function SortKey(m: Mention): seq<string> {
    [m.kind, m.name, m.path, m.locator]
  }

  predicate KeyOrder(a: Mention, b: Mention) {
    CompareTexts(SortKey(a), SortKey(b)) <= 0
  }

  /** `_member_key`: the key of the first member of that path that has one. */
  function MemberKey(members: seq<Member>, path: Path): Option<StorageKey> {
    if members == [] then None
    else if members[0].path == path && members[0].key.Some? then members[0].key
    else MemberKey(members[1..], path)
  }

  predicate DistinctPaths(members: seq<Member>) {
    forall i, j :: 0 <= i < j < |members| ==> members[i].path != members[j].path
  }

  /** What one member contributes, or nothing at all if its content is missing. */
  function Contribution(path: Path, key: Option<StorageKey>, src: Sources, extract: Extractor): Option<seq<Mention>> {
    if path !in src.classes then Some([])
    else if key.None? || key.value !in src.storage then None
    else Some(extract(src.storage[key.value], path, src.classes[path]))
  }

  /** Every classed member contributes, in archive order; one missing content spoils all. */
  function Collected(members: seq<Member>, all: seq<Member>, src: Sources, extract: Extractor): Option<seq<Mention>> {
    if members == [] then Some([])
    else
      var first := Contribution(members[0].path, MemberKey(all, members[0].path), src, extract);
      var rest := Collected(members[1..], all, src, extract);
      Both(first, rest)
  }

  function Both(first: Option<seq<Mention>>, rest: Option<seq<Mention>>): Option<seq<Mention>> {
    if first.None? || rest.None? then None else Some(first.value + rest.value)
  }

  lemma BothIsAssociative(a: Option<seq<Mention>>, b: Option<seq<Mention>>, c: Option<seq<Mention>>)
    ensures Both(Both(a, b), c) == Both(a, Both(b, c))
  {
    if a.Some? && b.Some? && c.Some? {
      assert (a.value + b.value) + c.value == a.value + (b.value + c.value);
    }
  }

  lemma {:induction false} CollectedConcat(a: seq<Member>, b: seq<Member>, all: seq<Member>, src: Sources,
      extract: Extractor)
    ensures Collected(a + b, all, src, extract)
            == Both(Collected(a, all, src, extract), Collected(b, all, src, extract))
  {
    if a == [] {
      assert a + b == b;
      var last := Collected(b, all, src, extract);
      if last.Some? { assert [] + last.value == last.value; }
    } else {
      assert (a + b)[1..] == a[1..] + b;
      CollectedConcat(a[1..], b, all, src, extract);
      var first := Contribution(a[0].path, MemberKey(all, a[0].path), src, extract);
      var rest, last := Collected(a[1..], all, src, extract), Collected(b, all, src, extract);
      BothIsAssociative(first, rest, last);
      assert (a + b)[0] == a[0];
    }
  }

  lemma CollectedOne(m: Member, all: seq<Member>, src: Sources, extract: Extractor)
    ensures Collected([m], all, src, extract) == Contribution(m.path, MemberKey(all, m.path), src, extract)
  {
    assert [m][1..] == [];
    var c := Contribution(m.path, MemberKey(all, m.path), src, extract);
    if c.Some? { assert c.value + [] == c.value; }
  }

  /** `_mentions_for_members`: the sorted mentions, or None when the archive is incomplete. */
  method MentionsForMembers(members: seq<Member>, src: Sources, extract: Extractor) returns (r: Option<seq<Mention>>)
    ensures var all := Collected(members, members, src, extract);
            r == if all.None? then None else Some(StableSort(all.value, KeyOrder))
  {
    var mentions: seq<Mention> := [];
    for i := 0 to |members|
      invariant Collected(members[..i], members, src, extract) == Some(mentions)
    {
      CollectedConcat(members[..i], members[i..], members, src, extract);
      assert members[..i] + members[i..] == members;
      CollectedConcat(members[..i], [members[i]], members, src, extract);
      assert members[..i + 1] == members[..i] + [members[i]];
      CollectedOne(members[i], members, src, extract);
      assert mentions + [] == mentions;
      var path := members[i].path;
      if path in src.classes {
        var key := MemberKey(members, path);
        if key.None? || key.value !in src.storage {
          return None;
        }
        mentions := mentions + extract(src.storage[key.value], path, src.classes[path]);
      }
    }
    assert members[..|members|] == members;
    return Some(StableSort(mentions, KeyOrder));
  }

  lemma KeyOrderIsPreorder()
    ensures Preorder(KeyOrder)
  {
    forall x: Mention, y: Mention ensures KeyOrder(x, y) || KeyOrder(y, x) {
      TextsOrder(SortKey(x), SortKey(y), []);
    }
    forall x: Mention, y: Mention, z: Mention | KeyOrder(x, y) && KeyOrder(y, z) ensures KeyOrder(x, z) {
      TextsOrder(SortKey(x), SortKey(y), SortKey(z));
    }
  }

  /** Mentions are in order of kind, then name, then path, then locator. */
  lemma KeyOrderMeans(a: Mention, b: Mention)
    ensures KeyOrder(a, b) <==>
            if a.kind != b.kind then CompareText(a.kind, b.kind) < 0
            else if a.name != b.name then CompareText(a.name, b.name) < 0
            else if a.path != b.path then CompareText(a.path, b.path) < 0
            else CompareText(a.locator, b.locator) <= 0
  {
    FirstDecides(a.kind, [a.name, a.path, a.locator], b.kind, [b.name, b.path, b.locator]);
    FirstDecides(a.name, [a.path, a.locator], b.name, [b.path, b.locator]);
    FirstDecides(a.path, [a.locator], b.path, [b.locator]);
    FirstDecides(a.locator, [], b.locator, []);
    TextOrder(a.locator, b.locator, []);
    assert SortKey(a) == [a.kind] + [a.name, a.path, a.locator] && SortKey(b) == [b.kind] + [b.name, b.path, b.locator];
    assert [a.name, a.path, a.locator] == [a.name] + [a.path, a.locator];
    assert [b.name, b.path, b.locator] == [b.name] + [b.path, b.locator];
    assert [a.path, a.locator] == [a.path] + [a.locator] && [b.path, b.locator] == [b.path] + [b.locator];
    assert [a.locator] == [a.locator] + [] && [b.locator] == [b.locator] + [];
  }

  lemma FirstDecides(a: string, more: seq<string>, b: string, more': seq<string>)
    ensures CompareTexts([a] + more, [b] + more') == if a != b then CompareText(a, b) else CompareTexts(more, more')
    ensures a != b ==> CompareText(a, b) != 0
  {
    TextOrder(a, b, []);
    assert ([a] + more)[1..] == more && ([b] + more')[1..] == more';
  }

  lemma TiesShareTheirPath(x: Mention, y: Mention)
    requires KeyOrder(x, y) && KeyOrder(y, x)
    ensures SortKey(x) == SortKey(y) && x.path == y.path && x.kind == y.kind && x.name == y.name
  {
    TextsOrder(SortKey(x), SortKey(y), []);
    assert SortKey(x)[2] == SortKey(y)[2] && SortKey(x)[0] == SortKey(y)[0] && SortKey(x)[1] == SortKey(y)[1];
  }

  lemma {:induction false} MemberKeyIsItsOwn(members: seq<Member>, m: Member)
    requires DistinctPaths(members) && m in members
    ensures MemberKey(members, m.path) == m.key
  {
    if members[0] == m {
      NoSuchMember(members[1..], m.path);
    } else {
      MemberKeyIsItsOwn(members[1..], m);
    }
  }

  /** The key of a path is that of its first member that has one. */
  lemma {:induction false} MemberKeyOutcome(members: seq<Member>, path: Path)
    ensures match MemberKey(members, path)
            case None => forall m :: m in members && m.path == path ==> m.key == None
            case Some(key) =>
              exists i :: 0 <= i < |members| && members[i].path == path && members[i].key == Some(key)
                          && forall k :: 0 <= k < i && members[k].path == path ==> members[k].key == None
  {
    if members != [] && !(members[0].path == path && members[0].key.Some?) {
      var rest := members[1..];
      MemberKeyOutcome(rest, path);
      assert members == [members[0]] + rest;
      if MemberKey(rest, path).Some? {
        var i :| 0 <= i < |rest| && rest[i].path == path && rest[i].key == MemberKey(rest, path)
                 && forall k :: 0 <= k < i && rest[k].path == path ==> rest[k].key == None;
        assert members[i + 1] == rest[i];
        forall k | 0 <= k < i + 1 && members[k].path == path ensures members[k].key == None {
          if k > 0 { assert members[k] == rest[k - 1]; }
        }
      }
    }
  }

  lemma {:induction false} NoSuchMember(members: seq<Member>, path: Path)
    requires forall m :: m in members ==> m.path != path
    ensures MemberKey(members, path) == None
  {
    if members != [] { NoSuchMember(members[1..], path); }
  }

  /** What the archive contributes to one sort key is what the member of that path does. */
  ghost function TiesOfMember(m: Member, x: Mention, src: Sources, extract: Extractor): seq<Mention> {
    var own := Contribution(m.path, m.key, src, extract);
    if own.None? then [] else Ties(own.value, x, KeyOrder)
  }

  lemma OnlyItsOwnPath(m: Member, x: Mention, src: Sources, extract: Extractor)
    requires NamesItsSource(extract) && m.path != x.path
    ensures TiesOfMember(m, x, src, extract) == []
  {
    var own := Contribution(m.path, m.key, src, extract);
    if own.Some? {
      TiesAreElements(own.value, x, KeyOrder);
      if Ties(own.value, x, KeyOrder) != [] { TiesShareTheirPath(x, Ties(own.value, x, KeyOrder)[0]); }
    }
  }

  lemma {:induction false} NobodyElse(members: seq<Member>, all: seq<Member>, x: Mention, src: Sources,
      extract: Extractor)
    requires NamesItsSource(extract) && DistinctPaths(all) && (forall m :: m in members ==> m in all)
    requires forall m :: m in members ==> m.path != x.path
    ensures var c := Collected(members, all, src, extract); c.Some? ==> Ties(c.value, x, KeyOrder) == []
  {
    if members != [] {
      MemberKeyIsItsOwn(all, members[0]);
      NobodyElse(members[1..], all, x, src, extract);
      OnlyItsOwnPath(members[0], x, src, extract);
      TiesOfFirst(members, all, x, src, extract);
    }
  }

  lemma TiesOfFirst(members: seq<Member>, all: seq<Member>, x: Mention, src: Sources, extract: Extractor)
    requires members != [] && DistinctPaths(all) && members[0] in all
    ensures var c := Collected(members, all, src, extract);
            var rest := Collected(members[1..], all, src, extract);
            c.Some? ==>
              rest.Some?
              && Ties(c.value, x, KeyOrder) == TiesOfMember(members[0], x, src, extract) + Ties(rest.value, x, KeyOrder)
  {
    MemberKeyIsItsOwn(all, members[0]);
    var first := Contribution(members[0].path, members[0].key, src, extract);
    var rest := Collected(members[1..], all, src, extract);
    if first.Some? && rest.Some? {
      TiesConcat(first.value, rest.value, x, KeyOrder);
    }
  }

  lemma {:induction false} TiesComeFromOneMember(
    members: seq<Member>, all: seq<Member>, m: Member, x: Mention, src: Sources, extract: Extractor)
    requires NamesItsSource(extract) && DistinctPaths(all) && DistinctPaths(members)
             && (forall m :: m in members ==> m in all)
    requires m in members && m.path == x.path
    ensures var c := Collected(members, all, src, extract);
            c.Some? ==> Ties(c.value, x, KeyOrder) == TiesOfMember(m, x, src, extract)
  {
    TiesOfFirst(members, all, x, src, extract);
    if members[0] == m {
      NobodyElse(members[1..], all, x, src, extract);
    } else {
      TiesComeFromOneMember(members[1..], all, m, x, src, extract);
      OnlyItsOwnPath(members[0], x, src, extract);
    }
  }

  lemma {:induction false} IncompleteMeansOneIsMissing(members: seq<Member>, all: seq<Member>, src: Sources,
      extract: Extractor)
    requires DistinctPaths(all) && forall m :: m in members ==> m in all
    ensures Collected(members, all, src, extract).None?
       <==> exists m :: m in members && Contribution(m.path, m.key, src, extract).None?
  {
    if members != [] {
      MemberKeyIsItsOwn(all, members[0]);
      IncompleteMeansOneIsMissing(members[1..], all, src, extract);
    }
  }

  /** A member that has a class and whose content cannot be found. */
  ghost predicate IsMissing(m: Member, src: Sources) {
    m.path in src.classes && (m.key == None || m.key.value !in src.storage)
  }

  /** The mention is extracted from the content stored for this member, under its class. */
  ghost predicate IsExtracted(x: Mention, m: Member, src: Sources, extract: Extractor) {
    && m.path in src.classes && m.key.Some? && m.key.value in src.storage
    && x in extract(src.storage[m.key.value], m.path, src.classes[m.path])
  }

  lemma {:induction false} CollectedFrom(members: seq<Member>, all: seq<Member>, src: Sources, extract: Extractor)
    requires DistinctPaths(all) && forall m :: m in members ==> m in all
    ensures var c := Collected(members, all, src, extract);
            && (c.None? <==> exists m :: m in members && IsMissing(m, src))
            && (c.Some? ==> forall x :: x in c.value <==> exists m :: m in members && IsExtracted(x, m, src, extract))
  {
    if members != [] {
      var m, rest := members[0], members[1..];
      MemberKeyIsItsOwn(all, m);
      CollectedFrom(rest, all, src, extract);
      var first := Contribution(m.path, m.key, src, extract);
      assert first.None? <==> IsMissing(m, src);
      assert first.Some? ==> forall x :: x in first.value <==> IsExtracted(x, m, src, extract);
      assert forall other :: other in members <==> other == m || other in rest;
    }
  }

  /** The mentions of an archive are those extracted from its classed members, and there are
      none at all exactly when one of these cannot be found. */
  lemma MentionsOutcome(members: seq<Member>, src: Sources, extract: Extractor)
    requires DistinctPaths(members)
    ensures var c := SortedMentions(members, src, extract);
            && (c.None? <==> exists m :: m in members && IsMissing(m, src))
            && (c.Some? ==> Sorted(c.value, KeyOrder)
                            && forall x :: x in c.value <==> exists m :: m in members && IsExtracted(x, m, src,
                                 extract))
  {
    CollectedFrom(members, members, src, extract);
    var all := Collected(members, members, src, extract);
    if all.Some? {
      KeyOrderIsPreorder();
      SortIsStable(all.value, KeyOrder);
      Rearranged(all.value, StableSort(all.value, KeyOrder), KeyOf);
    }
  }

  ghost function SortedMentions(members: seq<Member>, src: Sources, extract: Extractor): Option<seq<Mention>> {
    var all := Collected(members, members, src, extract);
    if all.None? then None else Some(StableSort(all.value, KeyOrder))
  }

  /** Resolution does not depend on archive member order: with distinct member paths,
      every permutation of the members gives the same mention sequence, so also the
      same groups, primaries, merged attributes and conflicts. */
  lemma MemberOrderDoesNotMatter(members: seq<Member>, permuted: seq<Member>, src: Sources, extract: Extractor)
    requires NamesItsSource(extract) && DistinctPaths(members) && multiset(permuted) == multiset(members)
    ensures SortedMentions(permuted, src, extract) == SortedMentions(members, src, extract)
  {
    Rearranged(members, permuted, (m: Member) => m.path);
    assert DistinctBy(members, (m: Member) => m.path);
    assert DistinctPaths(permuted);
    IncompleteMeansOneIsMissing(members, members, src, extract);
    IncompleteMeansOneIsMissing(permuted, permuted, src, extract);
    var a, b := Collected(members, members, src, extract), Collected(permuted, permuted, src, extract);
    if a.Some? {
      KeyOrderIsPreorder();
      SortIsStable(a.value, KeyOrder);
      SortIsStable(b.value, KeyOrder);
      forall x ensures Ties(a.value, x, KeyOrder) == Ties(b.value, x, KeyOrder) {
        if m :| m in members && m.path == x.path {
          TiesComeFromOneMember(members, members, m, x, src, extract);
          TiesComeFromOneMember(permuted, permuted, m, x, src, extract);
        } else {
          NobodyElse(members, members, x, src, extract);
          NobodyElse(permuted, permuted, x, src, extract);
        }
      }
      OnlyOneStableOrder(StableSort(a.value, KeyOrder), StableSort(b.value, KeyOrder), KeyOrder);
    }
  }

  // ---- groups ------------------------------------------------------------------

  const MAX_IDENTIFIER_LENGTH := 255

  datatype GroupKey = GroupKey(kind: string, name: string)

  predicate Named(m: Mention) {
    0 < |m.name| <= MAX_IDENTIFIER_LENGTH
  }

  function KeyOf(m: Mention): GroupKey {
    GroupKey(m.kind, m.name)
  }

  function Select(mentions: seq<Mention>, key: GroupKey): seq<Mention> {
    if mentions == [] then []
    else (if Named(mentions[0]) && KeyOf(mentions[0]) == key then [mentions[0]] else []) + Select(mentions[1..], key)
  }

  lemma {:induction false} SelectConcat(a: seq<Mention>, b: seq<Mention>, key: GroupKey)
    ensures Select(a + b, key) == Select(a, key) + Select(b, key)
  {
    if a == [] {
      assert a + b == b;
    } else {
      assert (a + b)[1..] == a[1..] + b;
      SelectConcat(a[1..], b, key);
    }
  }

  lemma SelectSnoc(before: seq<Mention>, m: Mention)
    ensures forall k :: Select(before + [m], k) == Select(before, k) + if Named(m) && KeyOf(m) == k then [m] else []
  {
    forall k ensures Select(before + [m], k) == Select(before, k) + if Named(m) && KeyOf(m) == k then [m] else [] {
      SelectConcat(before, [m], k);
      assert [m][1..] == [];
    }
  }

  lemma {:induction false} SelectMembers(mentions: seq<Mention>, key: GroupKey)
    ensures forall m :: m in Select(mentions, key) <==> m in mentions && Named(m) && KeyOf(m) == key
  {
    if mentions != [] {
      assert mentions == [mentions[0]] + mentions[1..];
      SelectMembers(mentions[1..], key);
    }
  }

  function NamedOnly(mentions: seq<Mention>): seq<Mention> {
    if mentions == [] then []
    else (if Named(mentions[0]) then [mentions[0]] else []) + NamedOnly(mentions[1..])
  }

  /** Group keys in order of first appearance: the insertion order of the dictionary. */
  function FirstSeen(mentions: seq<Mention>): seq<GroupKey> {
    if mentions == [] then []
    else
      var m, before := mentions[|mentions| - 1], FirstSeen(mentions[..|mentions| - 1]);
      if Named(m) && KeyOf(m) !in before then before + [KeyOf(m)] else before
  }

  function Groups(mentions: seq<Mention>): seq<seq<Mention>> {
    var keys := FirstSeen(mentions);
    seq(|keys|, i requires 0 <= i < |keys| => Select(mentions, keys[i]))
  }

  predicate Distinct(keys: seq<GroupKey>) {
    forall i, j :: 0 <= i < j < |keys| ==> keys[i] != keys[j]
  }

  lemma {:induction false} FirstSeenKeys(mentions: seq<Mention>)
    ensures Distinct(FirstSeen(mentions))
    ensures forall m :: m in mentions && Named(m) ==> KeyOf(m) in FirstSeen(mentions)
    ensures forall k :: k in FirstSeen(mentions) ==> exists m :: m in mentions && Named(m) && KeyOf(m) == k
  {
    if mentions != [] {
      var before, last := mentions[..|mentions| - 1], mentions[|mentions| - 1];
      FirstSeenKeys(before);
      assert mentions == before + [last];
    }
  }

  /** Every usable mention is in exactly one group, that of its key, and no group is empty. */
  lemma GroupsPartition(mentions: seq<Mention>, m: Mention)
    requires m in mentions && Named(m)
    ensures var groups := Groups(mentions);
            && (exists i :: 0 <= i < |groups| && m in groups[i])
            && (forall i, j :: 0 <= i < |groups| && 0 <= j < |groups| && m in groups[i] && m in groups[j] ==> i == j)
            && (forall i, x :: 0 <= i < |groups| && x in groups[i] ==>
                                 x in mentions && Named(x) && groups[i] != [] && KeyOf(x) == FirstSeen(mentions)[i])
  {
    FirstSeenKeys(mentions);
    var keys := FirstSeen(mentions);
    forall i, x | 0 <= i < |keys| && x in Groups(mentions)[i] ensures x in mentions && Named(x) && KeyOf(x) == keys[i] {
      SelectMembers(mentions, keys[i]);
    }
    var i :| 0 <= i < |keys| && keys[i] == KeyOf(m);
    SelectMembers(mentions, keys[i]);
    assert m in Groups(mentions)[i];
  }

  ghost predicate InSome(groups: seq<seq<Mention>>, m: Mention) {
    exists i :: 0 <= i < |groups| && m in groups[i]
  }

  /** Some mention of the one group comes before every mention of the other. */
  ghost predicate StartsBefore(mentions: seq<Mention>, a: seq<Mention>, b: seq<Mention>) {
    exists k :: 0 <= k < |mentions| && mentions[k] in a && forall l :: 0 <= l <= k ==> mentions[l] !in b
  }

  /** A mention is in a group exactly when its name has between 1 and 255 characters, and
      the groups stand in the order in which their keys first appear. */
  lemma GroupsOutcome(mentions: seq<Mention>)
    ensures var groups := Groups(mentions);
            && (forall m :: m in mentions && 1 <= |m.name| <= 255 <==> InSome(groups, m))
            && (forall i, j :: 0 <= i < j < |groups| ==> StartsBefore(mentions, groups[i], groups[j]))
  {
    var groups, keys := Groups(mentions), FirstSeen(mentions);
    forall i | 0 <= i < |groups|
      ensures forall m :: m in groups[i] <==> m in mentions && Named(m) && KeyOf(m) == keys[i]
    {
      SelectMembers(mentions, keys[i]);
    }
    forall m | m in mentions && Named(m) ensures InSome(groups, m) {
      GroupsPartition(mentions, m);
    }
    forall i, j | 0 <= i < j < |groups| ensures StartsBefore(mentions, groups[i], groups[j]) {
      var k := SeenBefore(mentions, i, j);
      assert mentions[k] in mentions;
    }
  }

  lemma {:induction false} SeenBefore(mentions: seq<Mention>, i: nat, j: nat) returns (k: nat)
    requires i < j < |FirstSeen(mentions)|
    ensures k < |mentions| && Named(mentions[k]) && KeyOf(mentions[k]) == FirstSeen(mentions)[i]
    ensures forall l :: 0 <= l <= k && Named(mentions[l]) ==> KeyOf(mentions[l]) != FirstSeen(mentions)[j]
  {
    var before := mentions[..|mentions| - 1];
    FirstSeenKeys(before);
    if j < |FirstSeen(before)| {
      k := SeenBefore(before, i, j);
    } else {
      assert FirstSeen(before)[i] in FirstSeen(before);
      var m :| m in before && Named(m) && KeyOf(m) == FirstSeen(before)[i];
      k :| 0 <= k < |before| && before[k] == m;
      forall l | 0 <= l <= k && Named(mentions[l]) ensures KeyOf(mentions[l]) != FirstSeen(mentions)[j] {
        assert mentions[l] == before[l] && before[l] in before;
      }
    }
  }

  /** In key order, mentions between two of one group belong to it too. */
  lemma KeysAreContiguous(a: Mention, b: Mention, c: Mention)
    requires KeyOrder(a, b) && KeyOrder(b, c) && KeyOf(a) == KeyOf(c)
    ensures KeyOf(b) == KeyOf(a)
  {
    TextOrder(a.kind, b.kind, []);
    TextOrder(b.kind, c.kind, []);
    TextOrder(a.name, b.name, []);
    TextOrder(b.name, c.name, []);
    Components(a, b);
    Components(b, c);
  }

  lemma Components(a: Mention, b: Mention)
    requires KeyOrder(a, b)
    ensures CompareText(a.kind, b.kind) <= 0
    ensures a.kind == b.kind ==> CompareText(a.name, b.name) <= 0
  {
    var x, y := SortKey(a), SortKey(b);
    assert x[1..] == [a.name, a.path, a.locator] && y[1..] == [b.name, b.path, b.locator];
    TextOrder(a.kind, b.kind, []);
    assert a.kind == b.kind ==> CompareTexts(x, y) == CompareTexts(x[1..], y[1..]);
    assert CompareText(x[1..][0], y[1..][0]) == CompareText(a.name, b.name);
  }

  lemma {:induction false} NamedOnlyMembers(mentions: seq<Mention>)
    ensures forall m :: m in NamedOnly(mentions) <==> m in mentions && Named(m)
  {
    if mentions != [] {
      assert mentions == [mentions[0]] + mentions[1..];
      NamedOnlyMembers(mentions[1..]);
    }
  }

  /** In key order, a mention whose key was seen before continues the latest group. */
  lemma SeenKeysAreLast(before: seq<Mention>, m: Mention)
    requires Sorted(before + [m], KeyOrder) && KeyOf(m) in FirstSeen(before) && NamedOnly(before) != []
    ensures KeyOf(NamedOnly(before)[|NamedOnly(before)| - 1]) == KeyOf(m)
  {
    FirstSeenKeys(before);
    var q :| q in before && Named(q) && KeyOf(q) == KeyOf(m);
    var n := NamedOnly(before)[|NamedOnly(before)| - 1];
    NamedOnlyMembers(before);
    assert n in NamedOnly(before) && n in before;
    var i :| 0 <= i < |before| && before[i] == n;
    assert (before + [m])[i] == n && (before + [m])[|before|] == m;
    assert Sorted(before, KeyOrder) by {
      forall i, j | 0 <= i < j < |before| ensures KeyOrder(before[i], before[j]) {
        assert (before + [m])[i] == before[i] && (before + [m])[j] == before[j];
      }
    }
    NamedOnlyIsOrdered(before, q);
    KeysAreContiguous(q, n, m);
  }

  ghost predicate LatestGroup(mentions: seq<Mention>) {
    var keys, named := FirstSeen(mentions), NamedOnly(mentions);
    && (named == [] <==> keys == [])
    && (named != [] ==> keys[|keys| - 1] == KeyOf(named[|named| - 1]))
  }

  lemma LatestGroupSnoc(before: seq<Mention>, m: Mention)
    requires LatestGroup(before) && Sorted(before + [m], KeyOrder)
    ensures LatestGroup(before + [m])
  {
    NamedOnlySnoc(before, m);
    assert (before + [m])[..|before|] == before;
    if Named(m) && KeyOf(m) in FirstSeen(before) { SeenKeysAreLast(before, m); }
  }

  lemma {:induction false} LastKeyIsLastMentions(mentions: seq<Mention>)
    requires Sorted(mentions, KeyOrder)
    ensures LatestGroup(mentions)
  {
    if mentions != [] {
      var before, m := mentions[..|mentions| - 1], mentions[|mentions| - 1];
      assert mentions == before + [m];
      LastKeyIsLastMentions(before);
      LatestGroupSnoc(before, m);
    }
  }

  lemma {:induction false} NamedOnlySnoc(mentions: seq<Mention>, m: Mention)
    ensures NamedOnly(mentions + [m]) == NamedOnly(mentions) + if Named(m) then [m] else []
  {
    if mentions == [] {
      assert mentions + [m] == [m] && [m][1..] == [];
    } else {
      assert (mentions + [m])[0] == mentions[0] && (mentions + [m])[1..] == mentions[1..] + [m];
      NamedOnlySnoc(mentions[1..], m);
    }
  }

  lemma {:induction false} NamedOnlyIsOrdered(mentions: seq<Mention>, q: Mention)
    requires Sorted(mentions, KeyOrder) && q in mentions && Named(q)
    ensures NamedOnly(mentions) != [] && KeyOrder(q, NamedOnly(mentions)[|NamedOnly(mentions)| - 1])
  {
    var before, m := mentions[..|mentions| - 1], mentions[|mentions| - 1];
    assert mentions == before + [m];
    NamedOnlySnoc(before, m);
    KeyOrderIsPreorder();
    if q in before && !Named(m) { NamedOnlyIsOrdered(before, q); }
  }

  /** How one more mention changes the groups. */
  ghost predicate GroupsGrow(keys: seq<GroupKey>, was: seq<seq<Mention>>, now: seq<seq<Mention>>, m: Mention) {
    && |was| == |keys| && |now| == |keys| + (if Named(m) && KeyOf(m) !in keys then 1 else 0)
    && (forall i :: 0 <= i < |keys| ==> now[i] == was[i] + if Named(m) && KeyOf(m) == keys[i] then [m] else [])
    && (Named(m) && KeyOf(m) !in keys ==> now[|keys|] == [m])
  }

  lemma GroupsSnoc(before: seq<Mention>, m: Mention)
    ensures FirstSeen(before + [m])
         == (if Named(m) && KeyOf(m) !in FirstSeen(before) then FirstSeen(before) + [KeyOf(m)] else FirstSeen(before))
    ensures GroupsGrow(FirstSeen(before), Groups(before), Groups(before + [m]), m)
  {
    assert (before + [m])[..|before|] == before;
    FirstSeenKeys(before);
    SelectSnoc(before, m);
    if Named(m) && KeyOf(m) !in FirstSeen(before) { NotSeenYet(before, KeyOf(m)); }
  }

  lemma NotSeenYet(mentions: seq<Mention>, key: GroupKey)
    requires key !in FirstSeen(mentions)
    ensures Select(mentions, key) == []
  {
    FirstSeenKeys(mentions);
    SelectNothing(mentions, key);
  }

  lemma {:induction false} SelectNothing(mentions: seq<Mention>, key: GroupKey)
    requires forall m :: m in mentions && Named(m) ==> KeyOf(m) != key
    ensures Select(mentions, key) == []
  {
    if mentions != [] { SelectNothing(mentions[1..], key); }
  }

  /** Read one after the other, the groups of sorted mentions are the usable mentions. */
  lemma {:induction false} GroupsAreRuns(mentions: seq<Mention>)
    requires Sorted(mentions, KeyOrder)
    ensures Flatten(Groups(mentions)) == NamedOnly(mentions)
  {
    if mentions != [] {
      var before, m := mentions[..|mentions| - 1], mentions[|mentions| - 1];
      assert mentions == before + [m];
      GroupsAreRuns(before);
      NamedOnlySnoc(before, m);
      LastKeyIsLastMentions(mentions);
      GroupsOfOneMore(before, m);
      FlattenSnoc(Groups(before), Groups(mentions), if Named(m) then [m] else []);
    }
  }

  lemma GroupsOfOneMore(before: seq<Mention>, m: Mention)
    requires Named(m) && KeyOf(m) in FirstSeen(before) ==> FirstSeen(before)[|FirstSeen(before)| - 1] == KeyOf(m)
    ensures LastGrows(FirstSeen(before), Groups(before), Groups(before + [m]), m)
  {
    GroupsSnoc(before, m);
    FirstSeenKeys(before);
    OnlyLastGrows(FirstSeen(before), Groups(before), Groups(before + [m]), m);
  }

  ghost predicate LastGrows(keys: seq<GroupKey>, was: seq<seq<Mention>>, now: seq<seq<Mention>>, m: Mention) {
    if !Named(m) then now == was
    else if KeyOf(m) !in keys then now == was + [[m]]
    else was != [] && now == was[..|was| - 1] + [was[|was| - 1] + [m]]
  }

  lemma OnlyLastGrows(keys: seq<GroupKey>, was: seq<seq<Mention>>, now: seq<seq<Mention>>, m: Mention)
    requires Distinct(keys) && GroupsGrow(keys, was, now, m)
    requires Named(m) && KeyOf(m) in keys ==> keys[|keys| - 1] == KeyOf(m)
    ensures LastGrows(keys, was, now, m)
  {
    if !Named(m) || KeyOf(m) !in keys {
      assert forall i :: 0 <= i < |keys| ==> now[i] == was[i];
    } else {
      forall i | 0 <= i < |keys| - 1 ensures now[i] == was[i] {
        assert keys[i] != keys[|keys| - 1];
      }
    }
  }

  /** The groups are as before, or the last one is longer, or there is one more. */
  lemma FlattenSnoc(was: seq<seq<Mention>>, now: seq<seq<Mention>>, more: seq<Mention>)
    requires
      || (now == was && more == [])
      || (now == was + [more])
      || (was != [] && now == was[..|was| - 1] + [was[|was| - 1] + more])
    ensures Flatten(now) == Flatten(was) + more
  {
    if now == was && more == [] {
    } else if now == was + [more] {
      assert now[..|now| - 1] == was;
    } else {
      assert now[..|now| - 1] == was[..|was| - 1];
    }
  }

  /** The grouping loop of `_persist_resolution`. */
  method GroupMentions(mentions: seq<Mention>) returns (keys: seq<GroupKey>, groups: seq<seq<Mention>>)
    ensures keys == FirstSeen(mentions) && groups == Groups(mentions)
  {
    var byKey: map<GroupKey, seq<Mention>> := map[];
    keys := [];
    for i := 0 to |mentions|
      invariant keys == FirstSeen(mentions[..i])
      invariant forall k :: k in byKey <==> k in keys
      invariant forall k :: k in byKey ==> byKey[k] == Select(mentions[..i], k)
    {
      var m := mentions[i];
      assert mentions[..i + 1] == mentions[..i] + [m];
      GroupsSnoc(mentions[..i], m);
      SelectSnoc(mentions[..i], m);
      if Named(m) {
        var k := KeyOf(m);
        if k !in byKey {
          NotSeenYet(mentions[..i], k);
          keys := keys + [k];
          byKey := byKey[k := []];
        }
        byKey := byKey[k := byKey[k] + [m]];
      }
    }
    assert mentions[..|mentions|] == mentions;
    groups := seq(|keys|, i requires 0 <= i < |keys| && keys[i] in byKey => byKey[keys[i]]);
  }
}
