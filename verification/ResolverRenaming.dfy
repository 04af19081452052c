/** What resolutions of the same mentions with different ids have in common. */
module ResolverRenaming {
  import opened Wrappers
  import opened Identifiers
  import opened Lists
  import opened EvidenceGraph
  import opened Resolution
  import opened Promotion
  import opened ResolverRun
  import opened ResolverPlan

  /** What becomes of the ids of one run in another. */
  datatype Renaming = Renaming(
    evidence: EvidenceId -> EvidenceId, candidate: RowId -> RowId, entity: RowId -> RowId, conflict: RowId -> RowId)

  function NewKey(r: Renaming, k: Key): Key {
    match k.kind
    case EntityCandidate => Key(k.kind, r.candidate(k.id))
    case Entity => Key(k.kind, r.entity(k.id))
    case Conflict => Key(k.kind, r.conflict(k.id))
    case _ => k
  }

  function NewPayload(r: Renaming, p: Payload): Payload {
    match p
    case ConflictBetween(clash, left, right) => ConflictBetween(clash, NewKey(r, left), NewKey(r, right))
    case _ => p
  }

  function NewRow(r: Renaming, row: Row<Payload>): Row<Payload> {
    row.(canonical := if row.canonical.Some? then Some(r.entity(row.canonical.value)) else None,
    payload := NewPayload(r, row.payload))
  }

  function NewBinding(r: Renaming, b: Binding): Binding {
    Binding(b.tenant, r.evidence(b.evidence), NewKey(r, b.subject))
  }

  function NewStored(r: Renaming, stored: seq<Stored>): seq<Stored> {
    seq(|stored|, i requires 0 <= i < |stored| =>
        Stored(r.candidate(stored[i].candidate), r.evidence(stored[i].evidence)))
  }

  function NewCited(r: Renaming, cited: seq<EvidenceId>): seq<EvidenceId> {
    seq<EvidenceId>(|cited|, i requires 0 <= i < |cited| => r.evidence(cited[i]))
  }

  function NewAct(r: Renaming, act: Act): Act {
    match act
    case Note(e, k, m) => Note(r.evidence(e), r.candidate(k), m)
    case Unite(entity, canonical, stored) => Unite(r.entity(entity), canonical, NewStored(r, stored))
    case Flag(x, payload, cited) => Flag(r.conflict(x), NewPayload(r, payload), NewCited(r, cited))
  }

  function NewActs(r: Renaming, acts: seq<Act>): seq<Act> {
    seq(|acts|, i requires 0 <= i < |acts| => NewAct(r, acts[i]))
  }

  // ---- plans -----------------------------------------------------------------------

  /** The renaming takes the ids of the first supply to those of the second. */
  ghost predicate Takes(r: Renaming, first: Ids, second: Ids) {
    && (forall n :: r.evidence(first.evidence(n)) == second.evidence(n))
    && (forall n :: r.candidate(first.candidate(n)) == second.candidate(n))
    && (forall n :: r.entity(first.entity(n)) == second.entity(n))
    && (forall n :: r.conflict(first.conflict(n)) == second.conflict(n))
  }

  lemma {:induction false} RevisionsRename(r: Renaming, first: Ids, second: Ids, groups: seq<seq<Mention>>)
    requires Takes(r, first, second)
    ensures var a, b := RevisionFindings(first, groups), RevisionFindings(second, groups);
            |a| == |b| && forall x :: 0 <= x < |a| ==> b[x] == a[x].(payload := NewPayload(r, a[x].payload))
  {
    if groups != [] { RevisionsRename(r, first, second, groups[..|groups| - 1]); }
  }

  function Clashing(ids: Ids, pair: Conflicts.Pair, left: nat, right: nat): Finding {
    Finding(ConflictBetween(Identity, Key(Entity, ids.entity(pair.0)), Key(Entity, ids.entity(pair.1))), left, right)
  }

  lemma IdentityAt(ids: Ids, groups: seq<seq<Mention>>, pairs: seq<Conflicts.Pair>, listing: Listing, x: nat)
    requires x < |pairs| && forall p :: p in pairs ==> p.0 < |groups| && p.1 < |groups|
    ensures pairs[x].0 < |groups| && pairs[x].1 < |groups|
    ensures IdentityFindings(ids, groups, pairs, listing)[x]
            == Clashing(ids, pairs[x], Start(groups, pairs[x].0) + listing(x).0,
                Start(groups, pairs[x].1) + listing(x).1)
  {
    assert pairs[x] in pairs;
  }

  lemma ClashRenames(r: Renaming, first: Ids, second: Ids, pair: Conflicts.Pair, left: nat, right: nat)
    requires Takes(r, first, second)
    ensures var a := Clashing(first, pair, left, right);
            Clashing(second, pair, left, right) == a.(payload := NewPayload(r, a.payload))
  {
  }

  lemma IdentitiesRename(
    r: Renaming, first: Ids, second: Ids, groups: seq<seq<Mention>>, pairs: seq<Conflicts.Pair>, listing: Listing,
    x: nat, a: Finding, b: Finding)
    requires Takes(r, first, second) && x < |pairs|
    requires forall p :: p in pairs ==> p.0 < |groups| && p.1 < |groups|
    requires a == IdentityFindings(first, groups, pairs, listing)[x]
             && b == IdentityFindings(second, groups, pairs, listing)[x]
    ensures b == a.(payload := NewPayload(r, a.payload))
  {
    IdentityAt(first, groups, pairs, listing, x);
    IdentityAt(second, groups, pairs, listing, x);
    ClashRenames(r, first, second, pairs[x], Start(groups, pairs[x].0) + listing(x).0,
        Start(groups, pairs[x].1) + listing(x).1);
  }

  lemma FindingsRename(r: Renaming, first: Ids, second: Ids, groups: seq<seq<Mention>>, listing: Listing)
    requires Takes(r, first, second)
    ensures var a, b := Findings(first, groups, listing), Findings(second, groups, listing);
            |a| == |b| && forall x :: 0 <= x < |a| ==> b[x] == a[x].(payload := NewPayload(r, a[x].payload))
  {
    RevisionsRename(r, first, second, groups);
    SignalIdsAreGroups(groups);
    var pairs := Conflicts.IdentityPairs(Signals(groups));
    var a, b := IdentityFindings(first, groups, pairs, listing), IdentityFindings(second, groups, pairs, listing);
    assert |a| == |b|;
    forall x | 0 <= x < |a| ensures b[x] == a[x].(payload := NewPayload(r, a[x].payload)) {
      IdentitiesRename(r, first, second, groups, pairs, listing, x, a[x], b[x]);
    }
    Joined(r, a, b, RevisionFindings(first, groups), RevisionFindings(second, groups));
  }

  lemma Joined(r: Renaming, a: seq<Finding>, b: seq<Finding>, c: seq<Finding>, d: seq<Finding>)
    requires |a| == |b| && forall x :: 0 <= x < |a| ==> b[x] == a[x].(payload := NewPayload(r, a[x].payload))
    requires |c| == |d| && forall x :: 0 <= x < |c| ==> d[x] == c[x].(payload := NewPayload(r, c[x].payload))
    ensures forall x :: 0 <= x < |a + c| ==> (b + d)[x] == (a + c)[x].(payload := NewPayload(r, (a + c)[x].payload))
  {
  }

  lemma UniteRenames(r: Renaming, first: Ids, second: Ids, groups: seq<seq<Mention>>, j: nat, canonical: Canonical)
    requires Takes(r, first, second) && j < |groups|
    ensures Unite(second.entity(j), canonical, StoredOf(second, groups, j))
            == NewAct(r, Unite(first.entity(j), canonical, StoredOf(first, groups, j)))
  {
    var a, b := StoredOf(first, groups, j), StoredOf(second, groups, j);
    forall t | 0 <= t < |a| ensures b[t] == NewStored(r, a)[t] {
      var n: nat := Start(groups, j) + t;
      assert a[t] == Stored(first.candidate(n), first.evidence(n))
             && b[t] == Stored(second.candidate(n), second.evidence(n));
    }
    assert b == NewStored(r, a);
  }

  lemma FlagRenames(r: Renaming, first: Ids, second: Ids, x: nat, a: Finding, b: Finding)
    requires Takes(r, first, second) && b == a.(payload := NewPayload(r, a.payload))
    ensures FlagOf(second, x, b) == NewAct(r, FlagOf(first, x, a))
  {
    assert NewCited(r, [first.evidence(a.left), first.evidence(a.right)])
           == [second.evidence(a.left), second.evidence(a.right)];
  }

  lemma EntitiesRename(r: Renaming, first: Ids, second: Ids, groups: seq<seq<Mention>>, a: seq<Act>, b: seq<Act>,
      done: nat)
    requires Takes(r, first, second)
    requires EntitiesPlanned(first, groups, a, done) && EntitiesPlanned(second, groups, b, done)
    ensures forall i :: done <= i < done + |groups| ==> b[i] == NewAct(r, a[i])
  {
    forall i | done <= i < done + |groups| ensures b[i] == NewAct(r, a[i]) {
      var j := i - done;
      assert a[done + j] == a[i] && b[done + j] == b[i];
      UniteRenames(r, first, second, groups, j, CanonicalOf(groups[j]));
    }
  }

  lemma ConflictsRename(
    r: Renaming, first: Ids, second: Ids, fs: seq<Finding>, ss: seq<Finding>, a: seq<Act>, b: seq<Act>, done: nat)
    requires Takes(r, first, second)
    requires |fs| == |ss| && forall x :: 0 <= x < |fs| ==> ss[x] == fs[x].(payload := NewPayload(r, fs[x].payload))
    requires ConflictsPlanned(first, fs, a, done) && ConflictsPlanned(second, ss, b, done)
    ensures forall i :: done <= i < done + |fs| ==> b[i] == NewAct(r, a[i])
  {
    forall i | done <= i < done + |fs| ensures b[i] == NewAct(r, a[i]) {
      var x := i - done;
      assert a[done + x] == a[i] && b[done + x] == b[i];
      FlagRenames(r, first, second, x, fs[x], ss[x]);
    }
  }

  /** With the same listing, the second plan is the first one, renamed. */
  lemma SameListingRenames(r: Renaming, first: Ids, second: Ids, mentions: seq<Mention>, listing: Listing)
    requires Takes(r, first, second)
    ensures Plan(second, mentions, listing) == NewActs(r, Plan(first, mentions, listing))
  {
    var groups := Groups(mentions);
    FindingsRename(r, first, second, groups, listing);
    PlanParts(first, mentions, listing);
    PlanParts(second, mentions, listing);
    SameActs(r, first, second, Flatten(groups), groups,
             Findings(first, groups, listing), Findings(second, groups, listing),
             Plan(first, mentions, listing), Plan(second, mentions, listing));
  }

  lemma SameActs(
    r: Renaming, first: Ids, second: Ids, flat: seq<Mention>, groups: seq<seq<Mention>>,
    fs: seq<Finding>, ss: seq<Finding>, a: seq<Act>, b: seq<Act>)
    requires Takes(r, first, second) && |a| == |b| == |flat| + |groups| + |fs| && |fs| == |ss|
    requires CandidatesPlanned(first, flat, a) && CandidatesPlanned(second, flat, b)
    requires EntitiesPlanned(first, groups, a, |flat|) && EntitiesPlanned(second, groups, b, |flat|)
    requires ConflictsPlanned(first, fs, a, |flat| + |groups|) && ConflictsPlanned(second, ss, b, |flat| + |groups|)
    requires forall x :: 0 <= x < |fs| ==> ss[x] == fs[x].(payload := NewPayload(r, fs[x].payload))
    ensures b == NewActs(r, a)
  {
    EntitiesRename(r, first, second, groups, a, b, |flat|);
    ConflictsRename(r, first, second, fs, ss, a, b, |flat| + |groups|);
    forall i | 0 <= i < |a| ensures b[i] == NewAct(r, a[i]) {
    }
  }

  // ---- graphs ----------------------------------------------------------------------

  /** The rows that `rows` and `there` have beyond `was` correspond one to one. */
  ghost predicate RowsMirror(r: Renaming, was: Rows<Payload>, rows: Rows<Payload>, there: Rows<Payload>) {
    RowsCarried(r, was, rows, there) && RowsReached(r, was, rows, there) && RowsApart(r, was, rows)
  }

  ghost predicate RowsCarried(r: Renaming, was: Rows<Payload>, rows: Rows<Payload>, there: Rows<Payload>) {
    forall k :: k in rows && k !in was ==>
      NewKey(r, k) in there && NewKey(r, k) !in was && there[NewKey(r, k)] == NewRow(r, rows[k])
  }

  ghost predicate RowsReached(r: Renaming, was: Rows<Payload>, rows: Rows<Payload>, there: Rows<Payload>) {
    forall k :: k in there && k !in was ==> exists x :: x in rows && x !in was && NewKey(r, x) == k
  }

  ghost predicate RowsApart(r: Renaming, was: Rows<Payload>, rows: Rows<Payload>) {
    forall x, y :: x in rows && x !in was && y in rows && y !in was && NewKey(r, x) == NewKey(r, y) ==> x == y
  }

  type Locators = map<EvidenceId, Evidence>

  ghost predicate LocatorsMirror(r: Renaming, was: Locators, locators: Locators, there: Locators) {
    && LocatorsCarried(r, was, locators, there) && LocatorsApart(r, was, locators)
    && (forall e :: e in there && e !in was ==> exists x :: x in locators && x !in was && r.evidence(x) == e)
  }

  ghost predicate LocatorsCarried(r: Renaming, was: Locators, locators: Locators, there: Locators) {
    forall e :: e in locators && e !in was ==>
      r.evidence(e) in there && r.evidence(e) !in was && there[r.evidence(e)] == locators[e]
  }

  ghost predicate LocatorsApart(r: Renaming, was: Locators, locators: Locators) {
    forall x, y :: x in locators && x !in was && y in locators && y !in was && r.evidence(x) == r.evidence(y) ==> x == y
  }

  ghost predicate BindingsMirror(r: Renaming, g: G, h: G, i: G) {
    && (forall b :: b in h.bindings && b !in g.bindings ==>
         NewBinding(r, b) in i.bindings && NewBinding(r, b) !in g.bindings)
    && (forall b :: b in i.bindings && b !in g.bindings ==>
         exists x :: x in h.bindings && x !in g.bindings && NewBinding(r, x) == b)
  }

  /** Beyond what both had before, `i` is `h` with other ids. */
  ghost predicate Mirrors(r: Renaming, g: G, h: G, i: G) {
    && RowsMirror(r, g.rows, h.rows, i.rows)
    && LocatorsMirror(r, g.evidence, h.evidence, i.evidence)
    && BindingsMirror(r, g, h, i)
  }

  /** A new row where there was none, on both sides. */
  lemma RowAdded(
    r: Renaming, was: Rows<Payload>, rows: Rows<Payload>, there: Rows<Payload>, k: Key, row: Row<Payload>)
    requires RowsMirror(r, was, rows, there)
    requires k !in was && NewKey(r, k) !in there && NewKey(r, k) !in was
    ensures RowsMirror(r, was, rows[k := row], there[NewKey(r, k) := NewRow(r, row)])
  {
    var j := NewKey(r, k);
    var p, q := rows[k := row], there[j := NewRow(r, row)];
    assert RowsCarried(r, was, p, q);
    AddedIsReached(r, was, rows, there, k, row);
    AddedIsApart(r, was, rows, there, k, row);
  }

  lemma AddedIsReached(
    r: Renaming, was: Rows<Payload>, rows: Rows<Payload>, there: Rows<Payload>, k: Key, row: Row<Payload>)
    requires RowsReached(r, was, rows, there) && k !in was
    ensures RowsReached(r, was, rows[k := row], there[NewKey(r, k) := NewRow(r, row)])
  {
    var p, q := rows[k := row], there[NewKey(r, k) := NewRow(r, row)];
    forall j | j in q && j !in was ensures exists x :: x in p && x !in was && NewKey(r, x) == j {
      if j == NewKey(r, k) {
        assert k in p;
      } else {
        var x :| x in rows && x !in was && NewKey(r, x) == j;
        assert x in p;
      }
    }
  }

  lemma AddedIsApart(
    r: Renaming, was: Rows<Payload>, rows: Rows<Payload>, there: Rows<Payload>, k: Key, row: Row<Payload>)
    requires RowsCarried(r, was, rows, there) && RowsApart(r, was, rows) && k !in was && NewKey(r, k) !in there
    ensures RowsApart(r, was, rows[k := row])
  {
    var p := rows[k := row];
    forall x, y | x in p && x !in was && y in p && y !in was && NewKey(r, x) == NewKey(r, y) ensures x == y {
      assert x == k || x in rows;
      assert y == k || y in rows;
    }
  }

  lemma LocatorAdded(r: Renaming, was: Locators, locators: Locators, there: Locators, e: EvidenceId, locator: Evidence)
    requires LocatorsMirror(r, was, locators, there)
    requires e !in was && r.evidence(e) !in there && r.evidence(e) !in was
    ensures LocatorsMirror(r, was, locators[e := locator], there[r.evidence(e) := locator])
  {
    var p, q := locators[e := locator], there[r.evidence(e) := locator];
    assert LocatorsCarried(r, was, p, q);
    forall j | j in q && j !in was ensures exists x :: x in p && x !in was && r.evidence(x) == j {
      if j == r.evidence(e) {
        assert e in p;
      } else {
        var x :| x in locators && x !in was && r.evidence(x) == j;
        assert x in p;
      }
    }
    LocatorIsApart(r, was, locators, there, e, locator);
  }

  lemma LocatorIsApart(r: Renaming, was: Locators, locators: Locators, there: Locators, e: EvidenceId,
      locator: Evidence)
    requires LocatorsCarried(r, was, locators, there) && LocatorsApart(r, was, locators) && e !in was
             && r.evidence(e) !in there
    ensures LocatorsApart(r, was, locators[e := locator])
  {
    var p := locators[e := locator];
    forall x, y | x in p && x !in was && y in p && y !in was && r.evidence(x) == r.evidence(y) ensures x == y {
      assert x == e || x in locators;
      assert y == e || y in locators;
    }
  }

  lemma BindingsAdded(r: Renaming, g: G, h: G, i: G, p: G, q: G, tenant: TenantId, ids: seq<EvidenceId>, k: Key)
    requires BindingsMirror(r, g, h, i) && Unseen(g, k) && Unseen(g, NewKey(r, k))
    requires p.bindings == Bind(h.bindings, tenant, ids, k)
    requires q.bindings == Bind(i.bindings, tenant, NewCited(r, ids), NewKey(r, k))
    ensures BindingsMirror(r, g, p, q)
  {
    forall b | b in p.bindings && b !in g.bindings
      ensures NewBinding(r, b) in q.bindings && NewBinding(r, b) !in g.bindings
    {
      if b !in h.bindings {
        var n :| 0 <= n < |ids| && ids[n] == b.evidence;
        assert NewCited(r, ids)[n] == r.evidence(b.evidence);
      }
    }
    forall b | b in q.bindings && b !in g.bindings
      ensures exists x :: x in p.bindings && x !in g.bindings && NewBinding(r, x) == b
    {
      if b in i.bindings {
        var x :| x in h.bindings && x !in g.bindings && NewBinding(r, x) == b;
        assert x in p.bindings;
      } else {
        var n :| 0 <= n < |ids| && NewCited(r, ids)[n] == b.evidence;
        var x := Binding(tenant, ids[n], k);
        assert x in p.bindings && x !in g.bindings && NewBinding(r, x) == b;
      }
    }
  }

  predicate InGroup(stored: seq<Stored>, k: Key) {
    k.kind == EntityCandidate && exists s :: s in stored && s.candidate == k.id
  }

  lemma GroupsMirror(r: Renaming, was: Rows<Payload>, rows: Rows<Payload>, stored: seq<Stored>, k: Key)
    requires RowsApart(r, was, rows) && k in rows && k !in was
    requires forall s :: s in stored ==>
             Key(EntityCandidate, s.candidate) in rows && Key(EntityCandidate, s.candidate) !in was
    ensures InGroup(stored, k) <==> InGroup(NewStored(r, stored), NewKey(r, k))
  {
    var there := NewStored(r, stored);
    if InGroup(stored, k) {
      var s :| s in stored && s.candidate == k.id;
      var n :| 0 <= n < |stored| && stored[n] == s;
      assert there[n] in there;
    }
    if InGroup(there, NewKey(r, k)) {
      var t :| t in there && t.candidate == r.candidate(k.id);
      var n :| 0 <= n < |there| && there[n] == t;
      assert stored[n] in stored && NewKey(r, Key(EntityCandidate, stored[n].candidate)) == NewKey(r, k);
    }
  }

  /** The candidates of the group point at the new entity, on both sides. */
  lemma LinksMirror(
    r: Renaming, was: Rows<Payload>, rows: Rows<Payload>, there: Rows<Payload>, stored: seq<Stored>, entity: RowId)
    requires RowsMirror(r, was, rows, there)
    requires forall s :: s in stored ==>
             Key(EntityCandidate, s.candidate) in rows && Key(EntityCandidate, s.candidate) !in was
    ensures RowsMirror(r, was, Linked(rows, stored, entity), Linked(there, NewStored(r, stored), r.entity(entity)))
  {
    var p, q := Linked(rows, stored, entity), Linked(there, NewStored(r, stored), r.entity(entity));
    assert p.Keys == rows.Keys && q.Keys == there.Keys;
    forall k | k in p && k !in was
      ensures NewKey(r, k) in q && NewKey(r, k) !in was && q[NewKey(r, k)] == NewRow(r, p[k])
    {
      GroupsMirror(r, was, rows, stored, k);
      assert p[k] == if InGroup(stored, k) then rows[k].(canonical := Some(entity)) else rows[k];
    }
    forall j | j in q && j !in was ensures exists x :: x in p && x !in was && NewKey(r, x) == j {
      var x :| x in rows && x !in was && NewKey(r, x) == j;
      assert x in p;
    }
    assert RowsApart(r, was, p);
  }

  /** A write and its image keep the mirror. */
  lemma WritesMirror(r: Renaming, g: G, h: G, i: G, c: Context, act: Act)
    requires Mirrors(r, g, h, i)
    requires Possible(h, c, act) && UsesOnlyNew(g, act) && Possible(i, c, NewAct(r, act))
             && UsesOnlyNew(g, NewAct(r, act))
    ensures Mirrors(r, g, Perform(h, c, act), Perform(i, c, NewAct(r, act)))
  {
    match act
    case Note(e, k, m) => NotesMirror(r, g, h, i, c, e, k, m);
    case Unite(entity, canonical, stored) => UnionsMirror(r, g, h, i, c, entity, canonical, stored);
    case Flag(x, payload, cited) =>
      RowAdded(r, g.rows, h.rows, i.rows, Key(Conflict, x), ResolverRow(c, payload));
      BindingsAdded(r, g, h, i, Perform(h, c, act), Perform(i, c, NewAct(r, act)), c.tenant, cited, Key(Conflict, x));
  }

  lemma NotesMirror(r: Renaming, g: G, h: G, i: G, c: Context, e: EvidenceId, k: RowId, m: Mention)
    requires Mirrors(r, g, h, i)
    requires NewTo(g, Note(e, k, m)) && NewTo(g, NewAct(r, Note(e, k, m))) && NewTo(i, NewAct(r, Note(e, k, m)))
    ensures Mirrors(r, g, Perform(h, c, Note(e, k, m)), Perform(i, c, NewAct(r, Note(e, k, m))))
  {
    var p, q := Perform(h, c, Note(e, k, m)), Perform(i, c, NewAct(r, Note(e, k, m)));
    var key, row := Key(EntityCandidate, k), CandidateRow(c, m);
    assert NewRow(r, row) == row && NewCited(r, [e]) == [r.evidence(e)];
    LocatorAdded(r, g.evidence, h.evidence, i.evidence, e, Evidence(c.tenant, c.document));
    RowAdded(r, g.rows, h.rows, i.rows, key, row);
    BindingsAdded(r, g, h, i, p, q, c.tenant, [e], key);
  }

  lemma UnionsMirror(r: Renaming, g: G, h: G, i: G, c: Context, entity: RowId, canonical: Canonical,
      stored: seq<Stored>)
    requires Mirrors(r, g, h, i) && Unseen(g, Key(Entity, entity)) && Unseen(g, Key(Entity, r.entity(entity)))
    requires Unseen(i, Key(Entity, r.entity(entity)))
    requires forall s :: s in stored ==>
             Key(EntityCandidate, s.candidate) in h.rows && Key(EntityCandidate, s.candidate) !in g.rows
    ensures var act := Unite(entity, canonical, stored);
            Mirrors(r, g, Perform(h, c, act), Perform(i, c, NewAct(r, act)))
  {
    var act, k, row := Unite(entity, canonical, stored), Key(Entity, entity), ResolverRow(c, EntityOf(canonical));
    var p, q, j := Perform(h, c, act), Perform(i, c, NewAct(r, act)), NewKey(r, k);
    assert NewRow(r, row) == row && EvidenceIds(NewStored(r, stored)) == NewCited(r, EvidenceIds(stored));
    RowAdded(r, g.rows, h.rows, i.rows, k, row);
    LinksMirror(r, g.rows, h.rows[k := row], i.rows[j := row], stored, entity);
    BindingsAdded(r, g, h, i, p, q, c.tenant, EvidenceIds(stored), k);
  }

  lemma {:induction false} RunsMirror(r: Renaming, g: G, c: Context, acts: seq<Act>)
    requires Inv(g) && HasPackage(g, c.tenant, c.package)
    requires WellPlanned(acts) && WellPlanned(NewActs(r, acts))
    requires (forall a :: a in acts ==> NewTo(g, a)) && forall a :: a in NewActs(r, acts) ==> NewTo(g, a)
    ensures Mirrors(r, g, PerformAll(g, c, acts), PerformAll(g, c, NewActs(r, acts)))
  {
    if acts != [] {
      var last := |acts| - 1;
      var there := NewActs(r, acts);
      assert there[..last] == NewActs(r, acts[..last]) && there[last] == NewAct(r, acts[last]);
      PrefixIsPlanned(acts, last);
      PrefixIsPlanned(there, last);
      RunsMirror(r, g, c, acts[..last]);
      LastIsPossible(g, c, acts);
      LastIsPossible(g, c, there);
      WritesMirror(r, g, PerformAll(g, c, acts[..last]), PerformAll(g, c, there[..last]), c, acts[last]);
    }
  }

  lemma LastIsPossible(g: G, c: Context, acts: seq<Act>)
    requires Inv(g) && HasPackage(g, c.tenant, c.package) && acts != []
    requires WellPlanned(acts) && forall a :: a in acts ==> NewTo(g, a)
    ensures Possible(PerformAll(g, c, acts[..|acts| - 1]), c, acts[|acts| - 1]) && UsesOnlyNew(g, acts[|acts| - 1])
  {
    var n := |acts| - 1;
    var before := acts[..n];
    PrefixIsPlanned(acts, n);
    PlannedRun(g, c, before);
    assert Fits(before, acts[n]) && acts[n] in acts;
    FittingIsPossible(g, PerformAll(g, c, before), c, before, acts[n]);
  }

  // ---- two supplies of ids ---------------------------------------------------------------

  ghost function Other(from: nat -> nat, to: nat -> nat): nat -> nat {
    (v: nat) => if n :| from(n) == v then to(n) else v
  }

  /** What becomes of one supply of ids in another. */
  ghost function Between(first: Ids, second: Ids): Renaming {
    Renaming(Other(first.evidence, second.evidence), Other(first.candidate, second.candidate),
             Other(first.entity, second.entity), Other(first.conflict, second.conflict))
  }

  lemma OtherTakes(from: nat -> nat, to: nat -> nat)
    requires Injective(from)
    ensures forall n :: Other(from, to)(from(n)) == to(n)
  {
  }

  lemma BetweenTakes(first: Ids, second: Ids)
    requires AllInjective(first)
    ensures Takes(Between(first, second), first, second)
  {
    OtherTakes(first.evidence, second.evidence);
    OtherTakes(first.candidate, second.candidate);
    OtherTakes(first.entity, second.entity);
    OtherTakes(first.conflict, second.conflict);
  }
}
