/** Identity and revision conflicts (`_record_identity_conflicts`, `_same_domain_attrs`). */
module Conflicts {
  import opened Wrappers
  import opened Lists
  import opened Sorting
  import opened Resolution

  /** A canonical signal: its place among the entities, and the two attributes that may
      give a shared identity away, when they are texts and not empty. */
  datatype Signal = Signal(id: nat, name: string, comment: Option<string>, address: Option<string>)

  datatype Clue = Comment | Address

  type Pair = (nat, nat)

  function ValueOf(s: Signal, clue: Clue): Option<string> {
    match clue
    case Comment => s.comment
    case Address => s.address
  }

  predicate Shares(a: Signal, b: Signal, clue: Clue) {
    ValueOf(a, clue).Some? && ValueOf(a, clue) == ValueOf(b, clue)
  }

  /** Entities of one kind have distinct names, and distinct ids. */
  ghost predicate DistinctSignals(signals: seq<Signal>) {
    forall i, j :: 0 <= i < j < |signals| ==> signals[i].name != signals[j].name && signals[i].id != signals[j].id
  }

  // ---- the groups ----------------------------------------------------------------

  /** The keys of the dictionary of groups, in insertion order. */
  function Values(signals: seq<Signal>, clue: Clue): seq<string> {
    if signals == [] then []
    else
      var before, v := Values(signals[..|signals| - 1], clue), ValueOf(signals[|signals| - 1], clue);
      if v.Some? && v.value !in before then before + [v.value] else before
  }

  function Sharing(signals: seq<Signal>, clue: Clue, value: string): seq<Signal> {
    if signals == [] then []
    else
      var last := signals[|signals| - 1];
      Sharing(signals[..|signals| - 1], clue, value) + if ValueOf(last, clue) == Some(value) then [last] else []
  }

  predicate ByName(a: Signal, b: Signal) {
    CompareText(a.name, b.name) <= 0
  }

  /** Every other member of the group paired with the first by name. */
  function Star(group: seq<Signal>): seq<Pair> {
    if |group| < 2 then []
    else
      var ordered := StableSort(group, ByName);
      if ordered == [] then [] else PairUp(ordered[0], ordered[1..])
  }

  function PairUp(anchor: Signal, others: seq<Signal>): seq<Pair> {
    if others == [] then [] else [(anchor.id, others[0].id)] + PairUp(anchor, others[1..])
  }

  lemma {:induction false} PairUpMembers(anchor: Signal, others: seq<Signal>)
    ensures forall p :: p in PairUp(anchor, others) <==> exists b :: b in others && p == (anchor.id, b.id)
  {
    if others != [] {
      assert others == [others[0]] + others[1..];
      PairUpMembers(anchor, others[1..]);
    }
  }

  function Stars(signals: seq<Signal>, clue: Clue, values: seq<string>): seq<Pair> {
    if values == [] then []
    else Stars(signals, clue, values[..|values| - 1]) + Star(Sharing(signals, clue, values[|values| - 1]))
  }

  function IdentityPairs(signals: seq<Signal>): seq<Pair> {
    Once(Stars(signals, Comment, Values(signals, Comment)) + Stars(signals, Address, Values(signals, Address)))
  }

  // ---- the loops -------------------------------------------------------------------

  method GroupBy(signals: seq<Signal>, clue: Clue) returns (values: seq<string>, groups: map<string, seq<Signal>>)
    ensures values == Values(signals, clue)
    ensures groups.Keys == set v | v in values
    ensures forall v :: v in groups ==> groups[v] == Sharing(signals, clue, v)
  {
    values, groups := [], map[];
    for i := 0 to |signals|
      invariant values == Values(signals[..i], clue)
      invariant forall v :: v in groups <==> v in values
      invariant forall v :: v in groups ==> groups[v] == Sharing(signals[..i], clue, v)
    {
      var v := ValueOf(signals[i], clue);
      assert signals[..i + 1][..i] == signals[..i];
      if v.Some? {
        if v.value !in groups {
          NobodyShares(signals[..i], clue, v.value);
          values := values + [v.value];
          groups := groups[v.value := []];
        }
        groups := groups[v.value := groups[v.value] + [signals[i]]];
      }
    }
    assert signals[..|signals|] == signals;
  }

  lemma {:induction false} NobodyShares(signals: seq<Signal>, clue: Clue, value: string)
    requires value !in Values(signals, clue)
    ensures Sharing(signals, clue, value) == []
  {
    if signals != [] { NobodyShares(signals[..|signals| - 1], clue, value); }
  }

  lemma OneMorePair(earlier: seq<Pair>, star: seq<Pair>, i: nat)
    requires i < |star|
    ensures var before := Once(earlier + star[..i]);
            Once(earlier + star[..i + 1]) == if star[i] in before then before else before + [star[i]]
  {
    OnceSnoc(earlier + star[..i], star[i]);
    assert earlier + star[..i + 1] == earlier + star[..i] + [star[i]];
  }

  /** One star, without the pairs already seen. */
  method AddStar(star: seq<Pair>, ghost earlier: seq<Pair>, seen: set<Pair>, pairs: seq<Pair>)
    returns (seen': set<Pair>, pairs': seq<Pair>)
    requires pairs == Once(earlier) && forall p :: p in seen <==> p in pairs
    ensures pairs' == Once(earlier + star) && forall p :: p in seen' <==> p in pairs'
  {
    seen', pairs' := seen, pairs;
    assert earlier + [] == earlier;
    for i := 0 to |star|
      invariant pairs' == Once(earlier + star[..i])
      invariant forall p :: p in seen' <==> p in pairs'
    {
      OneMorePair(earlier, star, i);
      if star[i] !in seen' {
        seen' := seen' + {star[i]};
        pairs' := pairs' + [star[i]];
      }
    }
    assert star[..|star|] == star;
  }

  method AddStars(signals: seq<Signal>, clue: Clue, ghost earlier: seq<Pair>, seen: set<Pair>, pairs: seq<Pair>)
    returns (seen': set<Pair>, pairs': seq<Pair>)
    requires pairs == Once(earlier) && forall p :: p in seen <==> p in pairs
    ensures pairs' == Once(earlier + Stars(signals, clue, Values(signals, clue)))
            && forall p :: p in seen' <==> p in pairs'
  {
    seen', pairs' := seen, pairs;
    var values, groups := GroupBy(signals, clue);
    assert earlier + [] == earlier;
    for i := 0 to |values|
      invariant pairs' == Once(earlier + Stars(signals, clue, values[..i]))
      invariant forall p :: p in seen' <==> p in pairs'
    {
      ghost var before := Stars(signals, clue, values[..i]);
      StarsSnoc(signals, clue, values, i);
      Associative(earlier, before, Star(groups[values[i]]));
      seen', pairs' := AddStar(Star(groups[values[i]]), earlier + before, seen', pairs');
    }
    assert values[..|values|] == values;
  }

  lemma Associative(a: seq<Pair>, b: seq<Pair>, c: seq<Pair>)
    ensures (a + b) + c == a + (b + c)
  {
  }

  lemma StarsSnoc(signals: seq<Signal>, clue: Clue, values: seq<string>, i: nat)
    requires i < |values|
    ensures Stars(signals, clue, values[..i + 1])
            == Stars(signals, clue, values[..i]) + Star(Sharing(signals, clue, values[i]))
  {
    assert values[..i + 1][..i] == values[..i];
  }

  /** The pairs of entities for which an identity conflict is recorded, in order. */
  method IdentityConflicts(signals: seq<Signal>) returns (pairs: seq<Pair>)
    ensures pairs == IdentityPairs(signals)
  {
    ghost var first := Stars(signals, Comment, Values(signals, Comment));
    assert [] + first == first;
    var seen, comments := AddStars(signals, Comment, [], {}, []);
    seen, pairs := AddStars(signals, Address, first, seen, comments);
  }

  // ---- what the pairs mean -----------------------------------------------------------

  lemma {:induction false} SharingMembers(signals: seq<Signal>, clue: Clue, value: string)
    ensures forall s :: s in Sharing(signals, clue, value) <==> s in signals && ValueOf(s, clue) == Some(value)
    ensures DistinctSignals(signals) ==> DistinctSignals(Sharing(signals, clue, value))
  {
    if signals != [] {
      var before := signals[..|signals| - 1];
      assert signals == before + [signals[|signals| - 1]];
      SharingMembers(before, clue, value);
      if DistinctSignals(signals) {
        assert DistinctSignals(before);
        forall s | s in before ensures s.name != signals[|signals| - 1].name && s.id != signals[|signals| - 1].id {
          var i :| 0 <= i < |before| && before[i] == s;
          assert signals[i] == s;
        }
      }
    }
  }

  lemma {:induction false} ValuesMembers(signals: seq<Signal>, clue: Clue)
    ensures forall s :: s in signals && ValueOf(s, clue).Some? ==> ValueOf(s, clue).value in Values(signals, clue)
  {
    if signals != [] {
      ValuesMembers(signals[..|signals| - 1], clue);
      assert signals == signals[..|signals| - 1] + [signals[|signals| - 1]];
    }
  }

  lemma {:induction false} StarsHoldEveryStar(signals: seq<Signal>, clue: Clue, values: seq<string>, v: string, p: Pair)
    requires v in values && p in Star(Sharing(signals, clue, v))
    ensures p in Stars(signals, clue, values)
  {
    if v != values[|values| - 1] {
      assert values == values[..|values| - 1] + [values[|values| - 1]];
      StarsHoldEveryStar(signals, clue, values[..|values| - 1], v, p);
    }
  }

  lemma {:induction false} StarsHoldOnlyStars(signals: seq<Signal>, clue: Clue, values: seq<string>, p: Pair)
      returns (v: string)
    requires p in Stars(signals, clue, values)
    ensures v in values && p in Star(Sharing(signals, clue, v))
  {
    v := values[|values| - 1];
    if p !in Star(Sharing(signals, clue, v)) {
      v := StarsHoldOnlyStars(signals, clue, values[..|values| - 1], p);
    }
  }

  lemma ByNameIsPreorder()
    ensures Preorder(ByName)
  {
    forall x: Signal, y: Signal, z: Signal
      ensures ByName(x, y) || ByName(y, x)
      ensures ByName(x, y) && ByName(y, z) ==> ByName(x, z)
    {
      TextOrder(x.name, y.name, z.name);
    }
  }

  /** The anchor and another member of a group: same value, earlier name first. */
  ghost predicate Joined(a: Signal, b: Signal, clue: Clue) {
    Shares(a, b, clue) && CompareText(a.name, b.name) < 0
  }

  /** The anchor of a star, and what the star joins it to. */
  lemma StarShape(group: seq<Signal>) returns (anchor: Signal)
    requires DistinctSignals(group) && |group| >= 2
    ensures anchor in group
    ensures forall b :: b in group && b != anchor ==>
            CompareText(anchor.name, b.name) < 0 && (anchor.id, b.id) in Star(group)
    ensures forall p :: p in Star(group) ==> exists b :: b in group && b != anchor && p == (anchor.id, b.id)
  {
    ByNameIsPreorder();
    SortIsStable(group, ByName);
    var ordered := StableSort(group, ByName);
    SortedGroup(group, ordered);
    anchor := ordered[0];
    var others := ordered[1..];
    assert ordered == [anchor] + others;
    PairUpMembers(anchor, others);
    forall b | b in group && b != anchor
      ensures CompareText(anchor.name, b.name) < 0 && (anchor.id, b.id) in Star(group)
    {
      assert b in others;
      AnchorFirst(ordered, b);
    }
    forall b | b in others ensures b in group && b != anchor {
      var i :| 0 <= i < |others| && others[i] == b;
      assert ordered[i + 1] == b && b in ordered;
    }
  }

  lemma AnchorFirst(ordered: seq<Signal>, b: Signal)
    requires Sorted(ordered, ByName) && b in ordered && b != ordered[0] && b.name != ordered[0].name
    ensures CompareText(ordered[0].name, b.name) < 0
  {
    var i :| 0 <= i < |ordered| && ordered[i] == b;
    assert ByName(ordered[0], ordered[i]);
    TextOrder(ordered[0].name, b.name, []);
  }

  lemma SortedGroup(group: seq<Signal>, ordered: seq<Signal>)
    requires DistinctSignals(group) && multiset(ordered) == multiset(group)
    ensures |ordered| == |group|
    ensures forall s :: s in ordered <==> s in group
    ensures forall a, b :: a in group && b in group && a != b ==> a.name != b.name && a.id != b.id
    ensures forall i :: 0 < i < |ordered| ==> ordered[i] != ordered[0]
  {
    var byId := (s: Signal) => s.id;
    assert DistinctBy(group, byId);
    Rearranged(group, ordered, byId);
    forall a, b | a in group && b in group && a != b ensures a.name != b.name && a.id != b.id {
      DifferentKeys(group, a, b, byId);
      DifferentKeys(group, a, b, (s: Signal) => s.name);
    }
  }

  /** The ends of every pair are signals, whatever their names. */
  lemma PairIdsAreSignals(signals: seq<Signal>, p: Pair)
    requires p in IdentityPairs(signals)
    ensures exists a, b :: a in signals && b in signals && p == (a.id, b.id)
  {
    OnceMembers(Stars(signals, Comment, Values(signals, Comment)) + Stars(signals, Address, Values(signals, Address)));
    var clue := if p in Stars(signals, Comment, Values(signals, Comment)) then Comment else Address;
    var v := StarsHoldOnlyStars(signals, clue, Values(signals, clue), p);
    var group := Sharing(signals, clue, v);
    SharingMembers(signals, clue, v);
    ByNameIsPreorder();
    SortIsStable(group, ByName);
    var ordered := StableSort(group, ByName);
    Rearranged(group, ordered, (x: Signal) => x.id);
    PairUpMembers(ordered[0], ordered[1..]);
    var b :| b in ordered[1..] && p == (ordered[0].id, b.id);
    assert ordered[0] in ordered && b in ordered;
  }

  /** Every recorded pair shares a comment or an address, and its first has the earlier name. */
  lemma PairsShare(signals: seq<Signal>, p: Pair)
    requires DistinctSignals(signals) && p in IdentityPairs(signals)
    ensures exists a, b :: a in signals && b in signals && p == (a.id, b.id)
                           && (Joined(a, b, Comment) || Joined(a, b, Address))
  {
    OnceMembers(Stars(signals, Comment, Values(signals, Comment)) + Stars(signals, Address, Values(signals, Address)));
    var clue := if p in Stars(signals, Comment, Values(signals, Comment)) then Comment else Address;
    var v := StarsHoldOnlyStars(signals, clue, Values(signals, clue), p);
    SharingMembers(signals, clue, v);
    var anchor := StarShape(Sharing(signals, clue, v));
    var b :| b in Sharing(signals, clue, v) && b != anchor && p == (anchor.id, b.id);
    assert Joined(anchor, b, clue);
  }

  lemma NoPairWithItself(signals: seq<Signal>, p: Pair)
    requires DistinctSignals(signals) && p in IdentityPairs(signals)
    ensures p.0 != p.1
  {
    PairsShare(signals, p);
    var a, b :| a in signals && b in signals && p == (a.id, b.id) && (Joined(a, b, Comment) || Joined(a, b, Address));
    TextOrder(a.name, b.name, []);
  }

  /** No unordered pair is recorded twice, and no signal conflicts with itself. */
  lemma NoPairTwice(signals: seq<Signal>, i: nat, j: nat)
    requires DistinctSignals(signals) && i < j < |IdentityPairs(signals)|
    ensures var p, q := IdentityPairs(signals)[i], IdentityPairs(signals)[j];
            p.0 != p.1 && p != q && p != (q.1, q.0)
  {
    var p, q := IdentityPairs(signals)[i], IdentityPairs(signals)[j];
    OnceMembers(Stars(signals, Comment, Values(signals, Comment)) + Stars(signals, Address, Values(signals, Address)));
    PairsShare(signals, p);
    PairsShare(signals, q);
    var a, b :| a in signals && b in signals && p == (a.id, b.id) && (Joined(a, b, Comment) || Joined(a, b, Address));
    var c, d :| c in signals && d in signals && q == (c.id, d.id) && (Joined(c, d, Comment) || Joined(c, d, Address));
    TextOrder(a.name, b.name, []);
    TextOrder(c.name, d.name, []);
    assert a.id == d.id ==> a.name == d.name;
    assert b.id == c.id ==> b.name == c.name;
  }

  /** Any two signals that share a comment or an address are joined, directly or
      through one common anchor. */
  lemma SharersAreJoined(signals: seq<Signal>, a: Signal, b: Signal, clue: Clue)
    requires DistinctSignals(signals) && a in signals && b in signals && a != b && Shares(a, b, clue)
    ensures exists c :: c in signals && IsFirst(signals, c, a, clue)
                        && (c == a || (c.id, a.id) in IdentityPairs(signals))
                        && (c == b || (c.id, b.id) in IdentityPairs(signals))
  {
    var v := ValueOf(a, clue).value;
    var group := Sharing(signals, clue, v);
    SharingMembers(signals, clue, v);
    assert a in group && b in group;
    assert |group| >= 2 by {
      var i :| 0 <= i < |group| && group[i] == a;
      var j :| 0 <= j < |group| && group[j] == b;
    }
    var anchor := StarShape(group);
    ValuesMembers(signals, clue);
    OnceMembers(Stars(signals, Comment, Values(signals, Comment)) + Stars(signals, Address, Values(signals, Address)));
    forall p | p in Star(group) ensures p in IdentityPairs(signals) {
      StarsHoldEveryStar(signals, clue, Values(signals, clue), v, p);
    }
    assert anchor in signals && IsFirst(signals, anchor, a, clue);
  }

  /** The first by name of those that share the clue with `a`. */
  ghost predicate IsFirst(signals: seq<Signal>, c: Signal, a: Signal, clue: Clue) {
    && Shares(c, a, clue)
    && (forall d :: d in signals && d != c && Shares(d, a, clue) ==> CompareText(c.name, d.name) < 0)
  }

  // ---- revisions -------------------------------------------------------------------------

  const DOMAIN_KEYS: set<string> := {"role", "qty", "revision", "power_kw", "address", "comment"}

  function Get(m: Mention, key: string): Value {
    if key in m.attributes then m.attributes[key] else Null
  }

  predicate SameDomainAttributes(a: Mention, b: Mention) {
    forall k :: k in DOMAIN_KEYS ==> Get(a, k) == Get(b, k)
  }

  function FirstWithRole(group: seq<Mention>, role: string): Option<nat> {
    if group == [] then None
    else if group[0].role == role then Some(0)
    else
      var rest := FirstWithRole(group[1..], role);
      if rest.None? then None else Some(rest.value + 1)
  }

  /** The candidates of a group between which a revision conflict is recorded. */
  function RevisionPair(group: seq<Mention>): Option<Pair> {
    var current, superseded := FirstWithRole(group, "current"), FirstWithRole(group, "superseded");
    if current.None? || superseded.None? then None
    else if current.value < |group| && superseded.value < |group|
         && !SameDomainAttributes(group[current.value], group[superseded.value])
    then Some((current.value, superseded.value))
    else None
  }

  predicate IsFirstWithRole(group: seq<Mention>, i: nat, role: string) {
    && i < |group| && group[i].role == role
    && (forall j :: 0 <= j < i ==> group[j].role != role)
  }

  lemma {:induction false} FirstWithRoleIsFirst(group: seq<Mention>, role: string)
    ensures match FirstWithRole(group, role)
            case Some(i) => IsFirstWithRole(group, i, role)
            case None => forall m :: m in group ==> m.role != role
  {
    if group != [] {
      assert group == [group[0]] + group[1..];
      FirstWithRoleIsFirst(group[1..], role);
    }
  }

  /** A revision conflict joins the first current and the first superseded mention,
      exactly when both exist and differ in an attribute of the domain. */
  lemma RevisionConflicts(group: seq<Mention>, i: nat, j: nat)
    ensures RevisionPair(group) == Some((i, j)) <==>
            && IsFirstWithRole(group, i, "current") && IsFirstWithRole(group, j, "superseded")
            && exists k :: k in DOMAIN_KEYS && Get(group[i], k) != Get(group[j], k)
  {
    FirstWithRoleIsFirst(group, "current");
    FirstWithRoleIsFirst(group, "superseded");
  }

  /** The attributes that count: role, quantity, revision, power, address and comment. */
  lemma RevisionsDiffer(group: seq<Mention>, i: nat, j: nat)
    requires IsFirstWithRole(group, i, "current") && IsFirstWithRole(group, j, "superseded")
    ensures RevisionPair(group) == Some((i, j)) <==>
            || Get(group[i], "role") != Get(group[j], "role") || Get(group[i], "qty") != Get(group[j], "qty")
            || Get(group[i], "revision") != Get(group[j], "revision")
            || Get(group[i], "power_kw") != Get(group[j], "power_kw")
            || Get(group[i], "address") != Get(group[j], "address")
            || Get(group[i], "comment") != Get(group[j], "comment")
  {
    RevisionConflicts(group, i, j);
  }

  /** A pair is recorded for no other reason than a comment or an address that both have. */
  lemma PairsAgree(signals: seq<Signal>, p: Pair)
    requires DistinctSignals(signals) && p in IdentityPairs(signals)
    ensures exists a, b :: a in signals && b in signals && a.id == p.0 && b.id == p.1 && CompareText(a.name, b.name) < 0
                           && ((a.comment.Some? && a.comment == b.comment)
                                || (a.address.Some? && a.address == b.address))
  {
    PairsShare(signals, p);
  }

  /** Signals with the same comment, or the same address, are all joined to the one of them
      whose name comes first. */
  lemma FirstJoinsAll(signals: seq<Signal>, a: Signal, b: Signal)
    requires DistinctSignals(signals) && a in signals && b in signals && a != b
    requires (a.comment.Some? && a.comment == b.comment) || (a.address.Some? && a.address == b.address)
    requires a.comment.Some? && a.comment == b.comment ==>
               forall c :: c in signals && c.comment == a.comment ==> CompareText(a.name, c.name) <= 0
    requires !(a.comment.Some? && a.comment == b.comment) ==>
               forall c :: c in signals && c.address == a.address ==> CompareText(a.name, c.name) <= 0
    ensures (a.id, b.id) in IdentityPairs(signals)
  {
    var clue := if a.comment.Some? && a.comment == b.comment then Comment else Address;
    SharersAreJoined(signals, a, b, clue);
    var c :| c in signals && IsFirst(signals, c, a, clue)
             && (c == a || (c.id, a.id) in IdentityPairs(signals))
                  && (c == b || (c.id, b.id) in IdentityPairs(signals));
    TextOrder(a.name, c.name, []);
    assert Shares(a, a, clue);
  }
}
