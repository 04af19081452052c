/** What one group of mentions becomes: its primary, its merged attributes and the
    canonical entity (`_promote_group`, `_mention_rank`, `_merged_attributes`). */
module Promotion {
  import opened Wrappers
  import opened Lists
  import opened Sorting
  import opened Resolution

  function RoleRank(role: string): nat {
    match role
    case "current" => 5
    case "mention" => 1
    case _ => 0
  }

  function ClassRank(c: DocumentClass): nat {
    match c
    case IoList => 8
    case Bom => 7
    case Hardware | MotorDrive => 6
    case Terminals | Cables => 5
    case Schematic => 3
    case CrossReferences | Manual => 2
    case Revision => 1
    case OtherClass(_) => 0
  }

  /** `a` ranks at least as high as `b`: role, then document class, then confidence. */
  predicate Above(a: Mention, b: Mention) {
    || RoleRank(a.role) > RoleRank(b.role)
    || (RoleRank(a.role) == RoleRank(b.role)
        && (|| ClassRank(a.documentClass) > ClassRank(b.documentClass)
            || (ClassRank(a.documentClass) == ClassRank(b.documentClass) && a.confidence >= b.confidence)))
  }

  predicate IsSuperseded(m: Mention) { m.role == "superseded" }

  /** Mentions that are not superseded, or all of them when every one is. */
  function Pool(group: seq<Mention>): seq<Mention> {
    if NotSuperseded(group) != [] then NotSuperseded(group) else group
  }

  function NotSuperseded(group: seq<Mention>): seq<Mention> {
    if group == [] then []
    else (if IsSuperseded(group[0]) then [] else [group[0]]) + NotSuperseded(group[1..])
  }

  lemma {:induction false} NotSupersededMembers(group: seq<Mention>)
    ensures forall m :: m in NotSuperseded(group) <==> m in group && !IsSuperseded(m)
  {
    if group != [] {
      assert group == [group[0]] + group[1..];
      NotSupersededMembers(group[1..]);
    }
  }

  /** The first of the highest-ranked mentions of the pool. */
  ghost predicate IsPrimary(pool: seq<Mention>, best: nat) {
    && best < |pool|
    && (forall i :: 0 <= i < |pool| ==> Above(pool[best], pool[i]))
    && (forall i :: 0 <= i < best ==> !Above(pool[i], pool[best]))
  }

  function Best(pool: seq<Mention>): (best: nat)
    requires pool != []
    ensures best < |pool|
  {
    var last := |pool| - 1;
    if last == 0 then 0
    else
      var before := Best(pool[..last]);
      if Above(pool[before], pool[last]) then before else last
  }

  lemma {:induction false} BestIsPrimary(pool: seq<Mention>)
    requires pool != []
    ensures IsPrimary(pool, Best(pool))
  {
    if |pool| > 1 { BestIsPrimary(pool[..|pool| - 1]); }
  }

  method Primary(pool: seq<Mention>) returns (best: nat)
    requires pool != []
    ensures best == Best(pool)
  {
    best := 0;
    for i := 1 to |pool|
      invariant best < i
      invariant best == Best(pool[..i])
    {
      assert pool[..i + 1][..i] == pool[..i];
      if !Above(pool[best], pool[i]) { best := i; }
    }
    assert pool[..|pool|] == pool;
  }

  // ---- merged attributes ---------------------------------------------------------

  /** Empty values and the raw mention text are never merged. */
  predicate Offers(m: Mention, key: string) {
    key != "mention" && key in m.attributes && m.attributes[key] != Null && m.attributes[key] != Text("")
  }

  function FirstOffer(ms: seq<Mention>, key: string): Option<Value> {
    if ms == [] then None
    else if Offers(ms[0], key) then Some(ms[0].attributes[key])
    else FirstOffer(ms[1..], key)
  }

  function OfferedBy(m: Mention): set<string> {
    set k | k in m.attributes && Offers(m, k)
  }

  function Offered(ms: seq<Mention>): set<string> {
    if ms == [] then {} else OfferedBy(ms[0]) + Offered(ms[1..])
  }

  lemma {:induction false} OfferedHasAnOffer(ms: seq<Mention>, key: string)
    ensures key in Offered(ms) <==> FirstOffer(ms, key).Some?
    ensures key in Offered(ms) <==> exists m :: m in ms && Offers(m, key)
  {
    if ms != [] {
      assert ms == [ms[0]] + ms[1..];
      OfferedHasAnOffer(ms[1..], key);
    }
  }

  lemma {:induction false} FirstOfferConcat(a: seq<Mention>, b: seq<Mention>, key: string)
    ensures FirstOffer(a + b, key) == if FirstOffer(a, key).Some? then FirstOffer(a, key) else FirstOffer(b, key)
    ensures Offered(a + b) == Offered(a) + Offered(b)
  {
    if a == [] {
      assert a + b == b;
    } else {
      assert (a + b)[1..] == a[1..] + b;
      FirstOfferConcat(a[1..], b, key);
    }
  }

  /** First offer in order of rank. */
  function Merged(group: seq<Mention>): map<string, Value> {
    var ranked := StableSort(group, Above);
    map k | k in Offered(ranked) && FirstOffer(ranked, k).Some? :: FirstOffer(ranked, k).value
  }

  /** `_merged_attributes`. */
  method MergedAttributes(group: seq<Mention>) returns (merged: map<string, Value>)
    ensures merged == Merged(group)
  {
    var ranked := StableSort(group, Above);
    merged := map[];
    for i := 0 to |ranked|
      invariant forall k :: k in merged <==> FirstOffer(ranked[..i], k).Some?
      invariant forall k :: k in merged ==> merged[k] == FirstOffer(ranked[..i], k).value
    {
      var m := ranked[i];
      forall k ensures FirstOffer(ranked[..i + 1], k)
                    == if FirstOffer(ranked[..i], k).Some? then FirstOffer(ranked[..i], k) else FirstOffer([m], k)
      {
        assert ranked[..i + 1] == ranked[..i] + [m];
        FirstOfferConcat(ranked[..i], [m], k);
      }
      merged := AddMissing(merged, m);
    }
    assert ranked[..|ranked|] == ranked;
    forall k ensures k in Offered(ranked) <==> FirstOffer(ranked, k).Some? { OfferedHasAnOffer(ranked, k); }
  }

  /** The inner loop: attributes not merged yet. */
  method AddMissing(before: map<string, Value>, m: Mention) returns (merged: map<string, Value>)
    ensures forall k :: k in merged <==> k in before || FirstOffer([m], k).Some?
    ensures forall k :: k in merged ==> Some(merged[k]) == if k in before then Some(before[k]) else FirstOffer([m], k)
  {
    merged := before;
    var todo := m.attributes.Keys;
    while todo != {}
      invariant todo <= m.attributes.Keys
      invariant forall k :: k in merged <==> k in before || (k in m.attributes && k !in todo && Offers(m, k))
      invariant forall k :: k in merged ==> merged[k] == if k in before then before[k] else m.attributes[k]
    {
      var key :| key in todo;
      if key != "mention" {
        if key !in merged && m.attributes[key] != Null && m.attributes[key] != Text("") {
          merged := merged[key := m.attributes[key]];
        }
      }
      todo := todo - {key};
    }
  }

  /** Mention `i` is the highest ranked of those that have a value for the key, and the
      first of them. */
  ghost predicate Wins(group: seq<Mention>, i: int, key: string) {
    && 0 <= i < |group| && Offers(group[i], key)
    && (forall j :: 0 <= j < |group| && Offers(group[j], key) ==>
                      Above(group[i], group[j]) && (j < i ==> !Above(group[j], group[i])))
  }

  lemma {:induction false} FirstAmongTies(group: seq<Mention>, i: nat, key: string)
    requires Wins(group, i, key)
    ensures FirstOffer(Ties(group, group[i], Above), key) == Some(group[i].attributes[key])
  {
    var x := group[i];
    if i == 0 {
      assert Above(x, x);
    } else {
      assert Wins(group[1..], i - 1, key) by {
        forall j | 0 <= j < |group| - 1 && Offers(group[1..][j], key)
          ensures Above(x, group[1..][j]) && (j < i - 1 ==> !Above(group[1..][j], x))
        {
          assert group[1..][j] == group[j + 1];
        }
      }
      FirstAmongTies(group[1..], i - 1, key);
      FirstOfferOfTies(group, x, key);
    }
  }

  lemma FirstOfferOfTies(ms: seq<Mention>, x: Mention, key: string)
    requires ms != []
    ensures FirstOffer(Ties(ms, x, Above), key)
         == if Above(ms[0], x) && Above(x, ms[0]) && Offers(ms[0], key) then Some(ms[0].attributes[key])
            else FirstOffer(Ties(ms[1..], x, Above), key)
  {
    FirstOfferConcat([ms[0]], Ties(ms[1..], x, Above), key);
    assert [] + Ties(ms[1..], x, Above) == Ties(ms[1..], x, Above);
  }

  lemma {:induction false} FirstInRankIsFirstAmongTies(ranked: seq<Mention>, x: Mention, key: string)
    requires Sorted(ranked, Above)
    requires FirstOffer(Ties(ranked, x, Above), key).Some?
    requires forall m :: m in ranked && Offers(m, key) ==> Above(x, m)
    ensures FirstOffer(ranked, key) == FirstOffer(Ties(ranked, x, Above), key)
  {
    if ranked != [] {
      var m, rest := ranked[0], ranked[1..];
      assert ranked == [m] + rest;
      FirstOfferOfTies(ranked, x, key);
      if !Offers(m, key) {
        FirstInRankIsFirstAmongTies(rest, x, key);
      } else if !Above(m, x) {
        SomeTieOffers(rest, x, key, m);
      }
    }
  }

  /** In rank order, nothing after `m` ranks above it. */
  lemma SomeTieOffers(rest: seq<Mention>, x: Mention, key: string, m: Mention)
    requires FirstOffer(Ties(rest, x, Above), key).Some?
    requires forall t :: t in rest ==> Above(m, t)
    ensures Above(m, x)
  {
    OfferedHasAnOffer(Ties(rest, x, Above), key);
    var t :| t in Ties(rest, x, Above) && Offers(t, key);
    TiesAreElements(rest, x, Above);
    assert Above(m, t) && Above(t, x);
  }

  lemma {:induction false} SomebodyWins(group: seq<Mention>, key: string) returns (i: nat)
    requires exists m :: m in group && Offers(m, key)
    ensures Wins(group, i, key)
  {
    if !exists m :: m in group[1..] && Offers(m, key) {
      assert group == [group[0]] + group[1..];
      forall j | 0 < j < |group| ensures !Offers(group[j], key) {
        assert group[j] in group[1..];
      }
      i := 0;
    } else {
      var k := SomebodyWins(group[1..], key);
      assert group[1..][k] == group[k + 1];
      forall j | 0 < j < |group| ensures group[j] == group[1..][j - 1] {}
      i := if Offers(group[0], key) && Above(group[0], group[k + 1]) then 0 else k + 1;
    }
  }

  lemma AboveIsPreorder()
    ensures Preorder(Above)
  {
  }

  /** A merged attribute exists exactly when some mention of the group has a value for
      it, and its value is that of the highest-ranked such mention, the first of equals. */
  lemma MergePrefersRank(group: seq<Mention>, key: string)
    ensures key in Merged(group) <==> exists i :: Wins(group, i, key)
    ensures key in Merged(group) <==> exists m :: m in group && Offers(m, key)
    ensures forall i :: Wins(group, i, key) ==> Merged(group)[key] == group[i].attributes[key]
  {
    var ranked := StableSort(group, Above);
    AboveIsPreorder();
    SortIsStable(group, Above);
    OfferedHasAnOffer(ranked, key);
    assert forall m :: m in ranked <==> m in multiset(ranked);
    assert forall m :: m in group <==> m in multiset(group);
    if exists m :: m in group && Offers(m, key) {
      var i := SomebodyWins(group, key);
    }
    forall i | Wins(group, i, key) ensures FirstOffer(ranked, key) == Some(group[i].attributes[key]) {
      assert group[i] in group;
      FirstAmongTies(group, i, key);
      assert Ties(ranked, group[i], Above) == Ties(group, group[i], Above);
      FirstInRankIsFirstAmongTies(ranked, group[i], key);
    }
  }

  /** A superseded mention never overrides a value that a current one has. */
  lemma CurrentBeatsSuperseded(group: seq<Mention>, m: Mention, key: string)
    requires m in group && m.role == "current" && Offers(m, key)
    ensures key in Merged(group)
    ensures exists c :: c in group && c.role == "current" && Offers(c, key) && Merged(group)[key] == c.attributes[key]
  {
    var i := SomebodyWins(group, key);
    MergePrefersRank(group, key);
    assert Above(group[i], m);
    assert RoleRank(group[i].role) >= 5;
  }

  // ---- the canonical entity --------------------------------------------------------

  datatype Canonical = Canonical(
    kind: string,
    name: string,
    aliases: seq<string>,
    confidence: real,
    attributes: map<string, Value>,
    supporting: set<Path>,
    contradicting: set<Path>,
    source: Path)

  ghost predicate OneGroup(group: seq<Mention>) {
    group != [] && forall m :: m in group ==> KeyOf(m) == KeyOf(group[0])
  }

  /** Aliases other than the name, each once, in order of first appearance. */
  function NewAliases(known: seq<string>, more: seq<string>, name: string): seq<string> {
    if more == [] then known
    else
      var before, last := NewAliases(known, more[..|more| - 1], name), more[|more| - 1];
      if last != name && last !in before then before + [last] else before
  }

  function AliasesOf(group: seq<Mention>, name: string): seq<string> {
    if group == [] then []
    else NewAliases(AliasesOf(group[..|group| - 1], name), group[|group| - 1].aliases, name)
  }

  method Aliases(group: seq<Mention>, name: string) returns (aliases: seq<string>)
    ensures aliases == AliasesOf(group, name)
  {
    aliases := [];
    for i := 0 to |group|
      invariant aliases == AliasesOf(group[..i], name)
    {
      ghost var known := aliases;
      var more := group[i].aliases;
      for n := 0 to |more|
        invariant aliases == NewAliases(known, more[..n], name)
      {
        assert more[..n + 1][..n] == more[..n];
        if more[n] != name && more[n] !in aliases {
          aliases := aliases + [more[n]];
        }
      }
      assert more[..|more|] == more;
      assert group[..i + 1][..i] == group[..i];
    }
    assert group[..|group|] == group;
  }

  predicate NoRepeats(s: seq<string>) {
    forall i, j :: 0 <= i < j < |s| ==> s[i] != s[j]
  }

  lemma {:induction false} NewAliasesMembers(known: seq<string>, more: seq<string>, name: string)
    requires NoRepeats(known)
    ensures NoRepeats(NewAliases(known, more, name))
    ensures forall a :: a in NewAliases(known, more, name) <==> a in known || (a in more && a != name)
  {
    if more != [] {
      NewAliasesMembers(known, more[..|more| - 1], name);
      assert more == more[..|more| - 1] + [more[|more| - 1]];
    }
  }

  lemma {:induction false} AliasesMembers(group: seq<Mention>, name: string)
    ensures NoRepeats(AliasesOf(group, name))
    ensures forall a :: a in AliasesOf(group, name) <==> a != name && exists m :: m in group && a in m.aliases
  {
    if group != [] {
      var before, last := group[..|group| - 1], group[|group| - 1];
      AliasesMembers(before, name);
      NewAliasesMembers(AliasesOf(before, name), last.aliases, name);
      assert group == before + [last];
    }
  }

  function MaxConfidence(pool: seq<Mention>): real
    requires pool != []
  {
    var last := |pool| - 1;
    if last == 0 then pool[0].confidence
    else if pool[last].confidence > MaxConfidence(pool[..last]) then pool[last].confidence
    else MaxConfidence(pool[..last])
  }

  lemma {:induction false} MaxConfidenceIsReached(pool: seq<Mention>)
    requires pool != []
    ensures exists p :: p in pool && MaxConfidence(pool) == p.confidence
    ensures forall m :: m in pool ==> m.confidence <= MaxConfidence(pool)
  {
    var last := pool[|pool| - 1];
    assert last in pool;
    if |pool| > 1 {
      var before := pool[..|pool| - 1];
      MaxConfidenceIsReached(before);
      assert pool == before + [last];
      var p :| p in before && MaxConfidence(before) == p.confidence;
      assert p in pool;
    }
  }

  /** Everything of the new entity that the mentions decide. The reserved attribute is
      replaced by the record of the decision. */
  function CanonicalOf(group: seq<Mention>): Canonical
    requires group != []
  {
    var pool := Pool(group);
    var primary := pool[Best(pool)];
    Canonical(primary.kind, primary.name, AliasesOf(group, primary.name), MaxConfidence(pool),
              Merged(group) - {"identity_resolution"},
              set m | m in group && !IsSuperseded(m) :: m.path,
              set m | m in group && IsSuperseded(m) :: m.path,
              primary.path)
  }

  /** `_promote_group`. */
  method PromoteGroup(group: seq<Mention>) returns (e: Canonical)
    requires group != []
    ensures e == CanonicalOf(group)
  {
    var pool := Pool(group);
    var best := Primary(pool);
    var primary := pool[best];
    var aliases := Aliases(group, primary.name);
    var attributes := MergedAttributes(group);
    e := Canonical(primary.kind, primary.name, aliases, MaxConfidence(pool), attributes - {"identity_resolution"},
                   set m | m in group && !IsSuperseded(m) :: m.path,
                   set m | m in group && IsSuperseded(m) :: m.path,
                   primary.path);
  }

  /** The entity carries the group's key; source and confidence come from mentions that
      are not superseded while there are any; aliases are those of the group, without
      its name and without repetition. */
  lemma EntityRepresentsItsGroup(group: seq<Mention>)
    requires OneGroup(group)
    ensures var e, pool := CanonicalOf(group), Pool(group);
            && GroupKey(e.kind, e.name) == KeyOf(group[0])
            && pool != []
            && (forall m :: m in pool ==>
                  m in group && (IsSuperseded(m) ==> forall x :: x in group ==> IsSuperseded(x)))
            && IsPrimary(pool, Best(pool)) && e.source == pool[Best(pool)].path
            && (forall m :: m in pool ==> m.confidence <= e.confidence)
            && (exists p :: p in pool && e.confidence == p.confidence)
            && NoRepeats(e.aliases)
            && (forall a :: a in e.aliases <==> a != e.name && exists m :: m in group && a in m.aliases)
  {
    var pool := Pool(group);
    NotSupersededMembers(group);
    BestIsPrimary(pool);
    assert pool[Best(pool)] in group;
    AliasesMembers(group, pool[Best(pool)].name);
    MaxConfidenceIsReached(pool);
  }

  // ---- the precedence, told out ------------------------------------------------------

  /** Current before plain mentions before everything else; an I/O list before a bill of
      materials, that before hardware and motor drives, those before terminals and cables,
      those before schematics, those before cross references and manuals, those before
      revisions, and those before all other classes. */
  lemma PrecedenceOfSources(role: string, code: string)
    requires role != "current" && role != "mention"
    ensures RoleRank("current") > RoleRank("mention") > RoleRank(role) == RoleRank("superseded")
    ensures ClassRank(IoList) > ClassRank(Bom) > ClassRank(Hardware) == ClassRank(MotorDrive)
    ensures ClassRank(MotorDrive) > ClassRank(Terminals) == ClassRank(Cables) > ClassRank(Schematic)
    ensures ClassRank(Schematic) > ClassRank(CrossReferences) == ClassRank(Manual) > ClassRank(Revision)
    ensures ClassRank(Revision) > ClassRank(OtherClass(code))
  {
  }

  /** A value other than null and the empty text, of an attribute that is ever merged. */
  predicate HasValue(m: Mention, key: string) {
    key != "mention" && key in m.attributes && m.attributes[key] != Null && m.attributes[key] != Text("")
  }

  /** A mention with a value for the attribute that no other with one equals or outranks
      decides it: by role first, then by class, then by confidence. */
  lemma HighestDecides(group: seq<Mention>, m: Mention, key: string)
    requires m in group && HasValue(m, key)
    requires forall x :: x in group && x != m && HasValue(x, key) ==>
               || RoleRank(m.role) > RoleRank(x.role)
               || (m.role == x.role && ClassRank(m.documentClass) > ClassRank(x.documentClass))
               || (m.role == x.role && m.documentClass == x.documentClass && m.confidence > x.confidence)
    ensures key in Merged(group) && Merged(group)[key] == m.attributes[key]
  {
    MergePrefersRank(group, key);
    assert Offers(m, key);
    var i := SomebodyWins(group, key);
    assert group[i] in group && Above(group[i], m);
  }

  /** What the entity says of its group: every attribute that some mention has a value for,
      but for the reserved ones, and the files for and against it. */
  lemma EntityOutcome(group: seq<Mention>, key: string, path: Path)
    requires group != []
    ensures var e := CanonicalOf(group);
            && (key in e.attributes <==> key != "identity_resolution" && exists m :: m in group && HasValue(m, key))
            && (key in e.attributes ==> e.attributes[key] == Merged(group)[key])
            && (path in e.supporting <==> exists m :: m in group && m.role != "superseded" && m.path == path)
            && (path in e.contradicting <==> exists m :: m in group && m.role == "superseded" && m.path == path)
  {
    MergePrefersRank(group, key);
    assert forall m :: Offers(m, key) <==> HasValue(m, key);
  }

  /** The aliases are those of all mentions, one after the other, each but the name once. */
  lemma {:induction false} AliasesOutcome(group: seq<Mention>, name: string)
    ensures AliasesOf(group, name) == Once(ButName(AllAliases(group), name))
  {
    if group != [] {
      var n := |group| - 1;
      AliasesOutcome(group[..n], name);
      NewAliasesOutcome(ButName(AllAliases(group[..n]), name), group[n].aliases, name);
      ButNameConcat(AllAliases(group[..n]), group[n].aliases, name);
    }
  }

  function AllAliases(group: seq<Mention>): seq<string> {
    if group == [] then [] else AllAliases(group[..|group| - 1]) + group[|group| - 1].aliases
  }

  function ButName(aliases: seq<string>, name: string): seq<string> {
    if aliases == [] then []
    else ButName(aliases[..|aliases| - 1], name) + if aliases[|aliases| - 1] == name then []
        else [aliases[|aliases| - 1]]
  }

  lemma {:induction false} ButNameConcat(a: seq<string>, b: seq<string>, name: string)
    ensures ButName(a + b, name) == ButName(a, name) + ButName(b, name)
  {
    if b == [] {
      assert a + b == a;
    } else {
      assert (a + b)[..|a + b| - 1] == a + b[..|b| - 1];
      ButNameConcat(a, b[..|b| - 1], name);
    }
  }

  lemma {:induction false} NewAliasesOutcome(before: seq<string>, more: seq<string>, name: string)
    ensures NewAliases(Once(before), more, name) == Once(before + ButName(more, name))
  {
    if more == [] {
      assert before + [] == before;
    } else {
      var n := |more| - 1;
      var all := before + ButName(more[..n], name);
      NewAliasesOutcome(before, more[..n], name);
      OnceSnoc(all, more[n]);
      if more[n] == name {
        assert ButName(more, name) == ButName(more[..n], name);
      } else {
        assert before + ButName(more, name) == all + [more[n]];
      }
    }
  }
}
