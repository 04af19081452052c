/** Resolving the same mentions twice: other ids, and perhaps other locators for the
    conflicts between identities, since `list_evidence_for` fixes no order. */
module ResolverListings {
  import opened Wrappers
  import opened Identifiers
  import opened Lists
  import opened EvidenceGraph
  import opened Resolution
  import opened Promotion
  import opened ResolverRun
  import opened ResolverPlan
  import opened ResolverRenaming

  /** The pairs of entities whose identities a resolution finds in conflict. */
  function Pairs(mentions: seq<Mention>): seq<Conflicts.Pair> {
    Conflicts.IdentityPairs(Signals(Groups(mentions)))
  }

  ghost predicate Listed(mentions: seq<Mention>, listing: Listing) {
    ListsLocators(Groups(mentions), Pairs(mentions), listing)
  }

  ghost predicate ListAlike(mentions: seq<Mention>, listing: Listing, again: Listing) {
    forall x :: 0 <= x < |Pairs(mentions)| ==> listing(x) == again(x)
  }

  /** The conflicts recorded for them. */
  function IdentityConflicts(ids: Ids, mentions: seq<Mention>): set<Key> {
    set x | 0 <= x < |Pairs(mentions)| :: Key(Conflict, ids.conflict(x))
  }

  // ---- plans -----------------------------------------------------------------------

  /** The same write, but for the locators that one of these conflicts cites. */
  ghost predicate Alike(a: Act, b: Act, apart: set<Key>) {
    || a == b
    || (a.Flag? && b.Flag? && a.conflict == b.conflict && a.payload == b.payload && Key(Conflict, a.conflict) in apart)
  }

  ghost predicate AllAlike(a: seq<Act>, b: seq<Act>, apart: set<Key>) {
    |a| == |b| && forall i :: 0 <= i < |a| ==> Alike(a[i], b[i], apart)
  }

  /** Findings with one listing and with another. */
  ghost predicate FoundAlike(a: seq<Finding>, b: seq<Finding>, pairs: seq<Conflicts.Pair>, listing: Listing,
      again: Listing)
  {
    && |a| == |b| && |pairs| <= |a|
    && (forall x :: 0 <= x < |a| ==> a[x].payload == b[x].payload)
    && (forall x :: |pairs| <= x < |a| ==> a[x] == b[x])
    && (forall x :: 0 <= x < |pairs| ==> (listing(x) == again(x) <==> a[x] == b[x]))
  }

  lemma ClashesAlike(
    ids: Ids, groups: seq<seq<Mention>>, pairs: seq<Conflicts.Pair>, listing: Listing, again: Listing, x: nat,
    a: Finding, b: Finding)
    requires x < |pairs| && forall p :: p in pairs ==> p.0 < |groups| && p.1 < |groups|
    requires a == IdentityFindings(ids, groups, pairs, listing)[x]
             && b == IdentityFindings(ids, groups, pairs, again)[x]
    ensures a.payload == b.payload && (listing(x) == again(x) <==> a == b)
  {
    IdentityAt(ids, groups, pairs, listing, x);
    IdentityAt(ids, groups, pairs, again, x);
    SamePlaces(ids, pairs[x], Start(groups, pairs[x].0), Start(groups, pairs[x].1), listing(x), again(x));
  }

  lemma SamePlaces(ids: Ids, p: Conflicts.Pair, i: nat, j: nat, l: (nat, nat), m: (nat, nat))
    ensures l == m <==> Clashing(ids, p, i + l.0, j + l.1) == Clashing(ids, p, i + m.0, j + m.1)
  {
  }

  lemma FindingsAlike(ids: Ids, groups: seq<seq<Mention>>, listing: Listing, again: Listing)
    ensures FoundAlike(Findings(ids, groups, listing), Findings(ids, groups, again),
                       Conflicts.IdentityPairs(Signals(groups)), listing, again)
  {
    SignalIdsAreGroups(groups);
    var pairs := Conflicts.IdentityPairs(Signals(groups));
    var a, b := IdentityFindings(ids, groups, pairs, listing), IdentityFindings(ids, groups, pairs, again);
    assert |a| == |pairs| && |b| == |pairs|;
    forall x | 0 <= x < |pairs| ensures a[x].payload == b[x].payload && (listing(x) == again(x) <==> a[x] == b[x]) {
      ClashesAlike(ids, groups, pairs, listing, again, x, a[x], b[x]);
    }
    WithRevisions(a, b, RevisionFindings(ids, groups), pairs, listing, again);
  }

  lemma WithRevisions(
    a: seq<Finding>, b: seq<Finding>, more: seq<Finding>, pairs: seq<Conflicts.Pair>, listing: Listing, again: Listing)
    requires |a| == |pairs| && FoundAlike(a, b, pairs, listing, again)
    ensures FoundAlike(a + more, b + more, pairs, listing, again)
  {
  }

  lemma FlagsAlike(ids: Ids, x: nat, a: Finding, b: Finding, apart: set<Key>)
    requires a.payload == b.payload && (a == b || Key(Conflict, ids.conflict(x)) in apart)
    ensures Alike(FlagOf(ids, x, a), FlagOf(ids, x, b), apart)
  {
  }

  /** The writes of a plan, part by part. */
  ghost predicate PartsPlanned(
    ids: Ids, flat: seq<Mention>, groups: seq<seq<Mention>>, findings: seq<Finding>, plan: seq<Act>)
  {
    && |plan| == |flat| + |groups| + |findings|
    && CandidatesPlanned(ids, flat, plan) && EntitiesPlanned(ids, groups, plan, |flat|)
    && ConflictsPlanned(ids, findings, plan, |flat| + |groups|)
  }

  lemma PartsAlike(
    ids: Ids, flat: seq<Mention>, groups: seq<seq<Mention>>, a: seq<Finding>, b: seq<Finding>, p: seq<Act>, q: seq<Act>,
    apart: set<Key>, i: nat)
    requires PartsPlanned(ids, flat, groups, a, p) && PartsPlanned(ids, flat, groups, b, q) && i < |p|
    requires |a| == |b| && forall x :: 0 <= x < |a| ==>
               a[x].payload == b[x].payload && (a[x] == b[x] || Key(Conflict, ids.conflict(x)) in apart)
    ensures Alike(p[i], q[i], apart)
  {
    var m := |flat| + |groups|;
    if i < m {
      SameSubjects(ids, flat, groups, p, q, i);
    } else {
      var x: nat := i - m;
      FlagAt(ids, a, p, m, x);
      FlagAt(ids, b, q, m, x);
      FlagsAlike(ids, x, a[x], b[x], apart);
    }
  }

  lemma SameSubjects(
    ids: Ids, flat: seq<Mention>, groups: seq<seq<Mention>>, p: seq<Act>, q: seq<Act>, i: nat)
    requires CandidatesPlanned(ids, flat, p) && CandidatesPlanned(ids, flat, q) && i < |flat| + |groups|
    requires EntitiesPlanned(ids, groups, p, |flat|) && EntitiesPlanned(ids, groups, q, |flat|)
    ensures p[i] == q[i] && !p[i].Flag?
  {
    if |flat| <= i { SameUnite(ids, groups, p, q, |flat|, i - |flat|); }
  }

  lemma SameUnite(ids: Ids, groups: seq<seq<Mention>>, p: seq<Act>, q: seq<Act>, done: nat, j: nat)
    requires EntitiesPlanned(ids, groups, p, done) && EntitiesPlanned(ids, groups, q, done) && j < |groups|
    ensures p[done + j] == q[done + j] && !p[done + j].Flag?
  {
    assert groups[j] != [];
  }

  lemma FlagAt(ids: Ids, findings: seq<Finding>, plan: seq<Act>, done: nat, x: nat)
    requires ConflictsPlanned(ids, findings, plan, done) && x < |findings|
    ensures plan[done + x] == FlagOf(ids, x, findings[x])
  {
  }

  /** Whatever the listings, two plans with the same ids make the same writes, but for the
      locators that identity conflicts cite. */
  lemma PlansAlike(ids: Ids, mentions: seq<Mention>, listing: Listing, again: Listing)
    ensures AllAlike(Plan(ids, mentions, listing), Plan(ids, mentions, again), IdentityConflicts(ids, mentions))
    ensures ListAlike(mentions, listing, again) ==> Plan(ids, mentions, listing) == Plan(ids, mentions, again)
  {
    var groups, apart := Groups(mentions), IdentityConflicts(ids, mentions);
    var a, b := Findings(ids, groups, listing), Findings(ids, groups, again);
    var p, q := Plan(ids, mentions, listing), Plan(ids, mentions, again);
    FindingsAlike(ids, groups, listing, again);
    PlanParts(ids, mentions, listing);
    PlanParts(ids, mentions, again);
    AllPartsAlike(ids, Flatten(groups), groups, a, b, p, q, apart, Pairs(mentions), listing, again);
    if ListAlike(mentions, listing, again) {
      assert a == b;
    }
  }

  lemma AllPartsAlike(
    ids: Ids, flat: seq<Mention>, groups: seq<seq<Mention>>, a: seq<Finding>, b: seq<Finding>, p: seq<Act>, q: seq<Act>,
    apart: set<Key>, pairs: seq<Conflicts.Pair>, listing: Listing, again: Listing)
    requires PartsPlanned(ids, flat, groups, a, p) && PartsPlanned(ids, flat, groups, b, q)
    requires FoundAlike(a, b, pairs, listing, again)
    requires apart == set x | 0 <= x < |pairs| :: Key(Conflict, ids.conflict(x))
    ensures AllAlike(p, q, apart)
  {
    forall i | 0 <= i < |p| ensures Alike(p[i], q[i], apart) {
      PartsAlike(ids, flat, groups, a, b, p, q, apart, i);
    }
  }

  // ---- graphs ----------------------------------------------------------------------

  /** The same graph, but for bindings of these conflicts. */
  ghost predicate SameBut(h: G, i: G, apart: set<Key>) {
    && h.packages == i.packages && h.plc == i.plc && h.rows == i.rows && h.evidence == i.evidence
    && (forall b: Binding :: b.subject !in apart ==> (b in h.bindings <==> b in i.bindings))
  }

  lemma WritesAlike(h: G, i: G, c: Context, a: Act, b: Act, apart: set<Key>)
    requires SameBut(h, i, apart) && Alike(a, b, apart)
    ensures SameBut(Perform(h, c, a), Perform(i, c, b), apart)
  {
  }

  lemma {:induction false} RunsAlike(g: G, c: Context, a: seq<Act>, b: seq<Act>, apart: set<Key>)
    requires AllAlike(a, b, apart)
    ensures SameBut(PerformAll(g, c, a), PerformAll(g, c, b), apart)
  {
    if a != [] {
      var last := |a| - 1;
      RunsAlike(g, c, a[..last], b[..last], apart);
      WritesAlike(PerformAll(g, c, a[..last]), PerformAll(g, c, b[..last]), c, a[last], b[last], apart);
    }
  }

  /** The bindings that `h` and `i` have beyond `g` correspond, those of the conflicts set
      apart in `h` and in `i` aside. */
  ghost predicate OtherBindingsMirror(r: Renaming, g: G, h: G, i: G, apart: set<Key>, there: set<Key>) {
    && (forall b :: b in h.bindings && b !in g.bindings && b.subject !in apart ==>
          NewBinding(r, b) in i.bindings && NewBinding(r, b) !in g.bindings)
    && (forall b :: b in i.bindings && b !in g.bindings && b.subject !in there ==>
          exists x :: x in h.bindings && x !in g.bindings && x.subject !in apart && NewBinding(r, x) == b)
  }

  lemma MirrorsOfAlike(r: Renaming, g: G, h: G, like: G, i: G, apart: set<Key>, there: set<Key>)
    requires SameBut(h, like, apart) && Mirrors(r, g, like, i)
    requires forall k :: k in apart ==> NewKey(r, k) in there
    ensures RowsMirror(r, g.rows, h.rows, i.rows) && LocatorsMirror(r, g.evidence, h.evidence, i.evidence)
    ensures OtherBindingsMirror(r, g, h, i, apart, there)
  {
    forall b | b in i.bindings && b !in g.bindings && b.subject !in there
      ensures exists x :: x in h.bindings && x !in g.bindings && x.subject !in apart && NewBinding(r, x) == b
    {
      var x :| x in like.bindings && x !in g.bindings && NewBinding(r, x) == b;
      assert x.subject !in apart && x in h.bindings;
    }
  }

  // ---- what an identity conflict cites -----------------------------------------------

  lemma {:induction false} NotBoundYet(g: G, c: Context, acts: seq<Act>, x: RowId)
    requires Unseen(g, Key(Conflict, x)) && forall a :: a in acts && a.Flag? ==> a.conflict != x
    ensures forall b :: b in PerformAll(g, c, acts).bindings ==> b.subject != Key(Conflict, x)
  {
    if acts != [] {
      var last := |acts| - 1;
      assert acts[last] in acts && forall a :: a in acts[..last] ==> a in acts;
      NotBoundYet(g, c, acts[..last], x);
    }
  }

  /** A conflict is bound to what it cites and to nothing else. */
  lemma {:induction false} ConflictIsBound(g: G, c: Context, acts: seq<Act>, i: nat, e: EvidenceId)
    requires i < |acts| && acts[i].Flag? && Unseen(g, Key(Conflict, acts[i].conflict))
    requires forall j :: 0 <= j < |acts| && j != i && acts[j].Flag? ==> acts[j].conflict != acts[i].conflict
    ensures Binding(c.tenant, e, Key(Conflict, acts[i].conflict)) in PerformAll(g, c, acts).bindings
            <==> e in acts[i].cited
  {
    var last := |acts| - 1;
    var k := Key(Conflict, acts[i].conflict);
    if i == last {
      NotBoundYet(g, c, acts[..last], acts[i].conflict);
    } else {
      ConflictIsBound(g, c, acts[..last], i, e);
      var before, next := PerformAll(g, c, acts[..last]), PerformAll(g, c, acts);
      assert forall b :: b in next.bindings && b !in before.bindings ==> b.subject != k;
    }
  }

  /** The locators that a conflict between these two entities cites. */
  function Cited(ids: Ids, groups: seq<seq<Mention>>, p: Conflicts.Pair, l: (nat, nat)): (EvidenceId, EvidenceId)
    requires p.0 < |groups| && p.1 < |groups|
  {
    (ids.evidence(Start(groups, p.0) + l.0), ids.evidence(Start(groups, p.1) + l.1))
  }

  lemma FindingAt(
    ids: Ids, groups: seq<seq<Mention>>, pairs: seq<Conflicts.Pair>, listing: Listing, more: seq<Finding>, x: nat)
    requires x < |pairs| && forall p :: p in pairs ==> p.0 < |groups| && p.1 < |groups|
    ensures pairs[x].0 < |groups| && pairs[x].1 < |groups|
    ensures var findings := IdentityFindings(ids, groups, pairs, listing) + more;
            && x < |findings|
            && findings[x].left == Start(groups, pairs[x].0) + listing(x).0
            && findings[x].right == Start(groups, pairs[x].1) + listing(x).1
  {
    var found := IdentityFindings(ids, groups, pairs, listing);
    IdentityAt(ids, groups, pairs, listing, x);
    assert |found| == |pairs| && (found + more)[x] == found[x];
  }

  lemma IdentityComesFirst(ids: Ids, groups: seq<seq<Mention>>, listing: Listing, x: nat)
    requires x < |Conflicts.IdentityPairs(Signals(groups))|
    ensures var findings, p := Findings(ids, groups, listing), Conflicts.IdentityPairs(Signals(groups))[x];
            && x < |findings| && p.0 < |groups| && p.1 < |groups|
            && findings[x].left == Start(groups, p.0) + listing(x).0
            && findings[x].right == Start(groups, p.1) + listing(x).1
  {
    SignalIdsAreGroups(groups);
    FindingAt(ids, groups, Conflicts.IdentityPairs(Signals(groups)), listing, RevisionFindings(ids, groups), x);
  }

  lemma PlanHasParts(ids: Ids, mentions: seq<Mention>, groups: seq<seq<Mention>>, listing: Listing)
    requires groups == Groups(mentions)
    ensures PartsPlanned(ids, Flatten(groups), groups, Findings(ids, groups, listing), Plan(ids, mentions, listing))
  {
    PlanParts(ids, mentions, listing);
  }

  lemma PairIsBound(
    g: G, c: Context, ids: Ids, groups: seq<seq<Mention>>, listing: Listing, plan: seq<Act>, x: nat, p: Conflicts.Pair,
    e: EvidenceId)
    requires PartsPlanned(ids, Flatten(groups), groups, Findings(ids, groups, listing), plan) && Unused(g, ids)
    requires x < |Conflicts.IdentityPairs(Signals(groups))| && p == Conflicts.IdentityPairs(Signals(groups))[x]
    requires p.0 < |groups| && p.1 < |groups|
    ensures var cited := Cited(ids, groups, p, listing(x));
            Binding(c.tenant, e, Key(Conflict, ids.conflict(x))) in PerformAll(g, c, plan).bindings
            <==> e == cited.0 || e == cited.1
  {
    IdentityComesFirst(ids, groups, listing, x);
    FindingIsBound(g, c, ids, Flatten(groups), groups, Findings(ids, groups, listing), plan, x, e);
  }

  lemma FindingIsBound(
    g: G, c: Context, ids: Ids, flat: seq<Mention>, groups: seq<seq<Mention>>, findings: seq<Finding>, plan: seq<Act>,
    x: nat, e: EvidenceId)
    requires PartsPlanned(ids, flat, groups, findings, plan) && Unused(g, ids) && x < |findings|
    ensures Binding(c.tenant, e, Key(Conflict, ids.conflict(x))) in PerformAll(g, c, plan).bindings
            <==> e == ids.evidence(findings[x].left) || e == ids.evidence(findings[x].right)
  {
    OtherConflicts(ids, flat, groups, findings, plan, x);
    ConflictIsBound(g, c, plan, |flat| + |groups| + x, e);
  }

  lemma OtherConflicts(
    ids: Ids, flat: seq<Mention>, groups: seq<seq<Mention>>, findings: seq<Finding>, plan: seq<Act>, x: nat)
    requires PartsPlanned(ids, flat, groups, findings, plan) && Injective(ids.conflict) && x < |findings|
    ensures plan[|flat| + |groups| + x] == FlagOf(ids, x, findings[x])
    ensures forall j :: 0 <= j < |plan| && j != |flat| + |groups| + x && plan[j].Flag? ==>
              plan[j].conflict != ids.conflict(x)
  {
    forall j | 0 <= j < |plan| && plan[j].Flag?
      ensures |flat| + |groups| <= j && plan[j].conflict == ids.conflict(j - |flat| - |groups|)
    {
      FlagsComeLast(ids, flat, groups, findings, plan, j);
    }
  }

  lemma FlagsComeLast(
    ids: Ids, flat: seq<Mention>, groups: seq<seq<Mention>>, findings: seq<Finding>, plan: seq<Act>, j: nat)
    requires PartsPlanned(ids, flat, groups, findings, plan) && j < |plan| && plan[j].Flag?
    ensures |flat| + |groups| <= j && plan[j].conflict == ids.conflict(j - |flat| - |groups|)
  {
    if j < |flat| + |groups| {
      SameSubjects(ids, flat, groups, plan, plan, j);
    } else {
      FlagAt(ids, findings, plan, |flat| + |groups|, j - |flat| - |groups|);
    }
  }

  lemma {:induction false} GroupsLieApart(groups: seq<seq<Mention>>, j: nat, k: nat)
    requires j < k <= |groups|
    ensures Start(groups, j) + |groups[j]| <= Start(groups, k)
  {
    assert groups[..k][..k - 1] == groups[..k - 1];
    if j < k - 1 { GroupsLieApart(groups, j, k - 1); }
  }

  /** Numbers within two groups: the same two numbers are the same ones in order. */
  lemma SameInTheirGroups(groups: seq<seq<Mention>>, p: Conflicts.Pair, l: (nat, nat), m: (nat, nat))
    requires p.0 < |groups| && p.1 < |groups| && p.0 != p.1
    requires l.0 < |groups[p.0]| && m.0 < |groups[p.0]| && l.1 < |groups[p.1]| && m.1 < |groups[p.1]|
    requires Start(groups, p.0) + l.0 in {Start(groups, p.0) + m.0, Start(groups, p.1) + m.1}
    requires Start(groups, p.1) + l.1 in {Start(groups, p.0) + m.0, Start(groups, p.1) + m.1}
    ensures l == m
  {
    if p.0 < p.1 { GroupsLieApart(groups, p.0, p.1); } else { GroupsLieApart(groups, p.1, p.0); }
  }

  /** What the pair cites in the first run it cites in the second, in the same place. */
  lemma Corresponds(
    g: G, h: G, i: G, r: Renaming, tenant: TenantId, k: Key, e: EvidenceId, there: (EvidenceId, EvidenceId))
    requires BindingsMirror(r, g, h, i) && Unseen(g, k) && Binding(tenant, e, k) in h.bindings
    requires forall d :: Binding(tenant, d, NewKey(r, k)) in i.bindings ==> d == there.0 || d == there.1
    ensures r.evidence(e) == there.0 || r.evidence(e) == there.1
  {
    assert NewBinding(r, Binding(tenant, e, k)) == Binding(tenant, r.evidence(e), NewKey(r, k));
  }

  lemma PairCorresponds(
    g: G, c: Context, r: Renaming, first: Ids, second: Ids, groups: seq<seq<Mention>>, listing: Listing, again: Listing,
    before: seq<Act>, after: seq<Act>, x: nat, p: Conflicts.Pair)
    requires Unused(g, first) && Unused(g, second) && Takes(r, first, second)
    requires PartsPlanned(first, Flatten(groups), groups, Findings(first, groups, listing), before)
    requires PartsPlanned(second, Flatten(groups), groups, Findings(second, groups, again), after)
    requires x < |Conflicts.IdentityPairs(Signals(groups))| && p == Conflicts.IdentityPairs(Signals(groups))[x]
    requires p.0 < |groups| && p.1 < |groups|
    requires BindingsMirror(r, g, PerformAll(g, c, before), PerformAll(g, c, after))
    ensures CitedAcross(r, Cited(first, groups, p, listing(x)), Cited(second, groups, p, again(x)))
  {
    var h, i := PerformAll(g, c, before), PerformAll(g, c, after);
    var k := Key(Conflict, first.conflict(x));
    var cited, there := Cited(first, groups, p, listing(x)), Cited(second, groups, p, again(x));
    assert NewKey(r, k) == Key(Conflict, second.conflict(x));
    forall d | Binding(c.tenant, d, NewKey(r, k)) in i.bindings ensures d == there.0 || d == there.1 {
      PairIsBound(g, c, second, groups, again, after, x, p, d);
    }
    PairIsBound(g, c, first, groups, listing, before, x, p, cited.0);
    PairIsBound(g, c, first, groups, listing, before, x, p, cited.1);
    Corresponds(g, h, i, r, c.tenant, k, cited.0, there);
    Corresponds(g, h, i, r, c.tenant, k, cited.1, there);
  }

  ghost predicate CitedAcross(r: Renaming, cited: (EvidenceId, EvidenceId), there: (EvidenceId, EvidenceId)) {
    && (r.evidence(cited.0) == there.0 || r.evidence(cited.0) == there.1)
    && (r.evidence(cited.1) == there.0 || r.evidence(cited.1) == there.1)
  }

  lemma GroupsListAlike(
    g: G, c: Context, r: Renaming, first: Ids, second: Ids, groups: seq<seq<Mention>>, listing: Listing, again: Listing,
    before: seq<Act>, after: seq<Act>, x: nat)
    requires Unused(g, first) && Unused(g, second) && Takes(r, first, second)
    requires PartsPlanned(first, Flatten(groups), groups, Findings(first, groups, listing), before)
    requires PartsPlanned(second, Flatten(groups), groups, Findings(second, groups, again), after)
    requires var pairs := Conflicts.IdentityPairs(Signals(groups));
             && x < |pairs| && ListsLocators(groups, pairs, listing) && ListsLocators(groups, pairs, again)
    requires Conflicts.DistinctSignals(Signals(groups))
    requires BindingsMirror(r, g, PerformAll(g, c, before), PerformAll(g, c, after))
    ensures listing(x) == again(x)
  {
    var p := Conflicts.IdentityPairs(Signals(groups))[x];
    SignalIdsAreGroups(groups);
    assert p in Conflicts.IdentityPairs(Signals(groups));
    Conflicts.NoPairWithItself(Signals(groups), p);
    PairCorresponds(g, c, r, first, second, groups, listing, again, before, after, x, p);
    CitedAlike(r, first, second, groups, p, listing(x), again(x));
  }

  /** If the graphs correspond, the listings agree on every recorded pair. */
  lemma MirrorsMeansListAlike(
    g: G, c: Context, r: Renaming, first: Ids, second: Ids, mentions: seq<Mention>, listing: Listing, again: Listing,
    x: nat)
    requires Unused(g, first) && Unused(g, second) && Takes(r, first, second)
    requires Listed(mentions, listing) && Listed(mentions, again) && x < |Pairs(mentions)|
    requires BindingsMirror(r, g, PerformAll(g, c, Plan(first, mentions, listing)),
                            PerformAll(g, c, Plan(second, mentions, again)))
    ensures listing(x) == again(x)
  {
    PlanHasParts(first, mentions, Groups(mentions), listing);
    PlanHasParts(second, mentions, Groups(mentions), again);
    SignalsAreDistinct(mentions);
    GroupsListAlike(g, c, r, first, second, Groups(mentions), listing, again, Plan(first, mentions, listing),
                    Plan(second, mentions, again), x);
  }

  /** Numbers within two groups that are renamed into one another are the same ones. */
  lemma CitedAlike(
    r: Renaming, first: Ids, second: Ids, groups: seq<seq<Mention>>, p: Conflicts.Pair, l: (nat, nat), m: (nat, nat))
    requires Takes(r, first, second) && Injective(second.evidence)
    requires p.0 < |groups| && p.1 < |groups| && p.0 != p.1
    requires l.0 < |groups[p.0]| && m.0 < |groups[p.0]| && l.1 < |groups[p.1]| && m.1 < |groups[p.1]|
    requires CitedAcross(r, Cited(first, groups, p, l), Cited(second, groups, p, m))
    ensures l == m
  {
    SameInTheirGroups(groups, p, l, m);
  }

  // ---- two resolutions -----------------------------------------------------------------

  lemma SamePlanMeansListAlike(ids: Ids, mentions: seq<Mention>, listing: Listing, again: Listing, x: nat)
    requires Injective(ids.evidence) && x < |Pairs(mentions)|
    requires Plan(ids, mentions, listing) == Plan(ids, mentions, again)
    ensures listing(x) == again(x)
  {
    var groups := Groups(mentions);
    FindingsAlike(ids, groups, listing, again);
    PlanParts(ids, mentions, listing);
    PlanParts(ids, mentions, again);
    SameFinding(ids, Findings(ids, groups, listing), Findings(ids, groups, again), Plan(ids, mentions, listing),
                |Flatten(groups)| + |groups|, x);
  }

  lemma SameFinding(ids: Ids, a: seq<Finding>, b: seq<Finding>, plan: seq<Act>, done: nat, x: nat)
    requires ConflictsPlanned(ids, a, plan, done) && ConflictsPlanned(ids, b, plan, done) && Injective(ids.evidence)
    requires x < |a| && x < |b| && a[x].payload == b[x].payload
    ensures a[x] == b[x]
  {
    FlagAt(ids, a, plan, done, x);
    FlagAt(ids, b, plan, done, x);
    SameFlags(ids, x, a[x], b[x]);
  }

  lemma SameFlags(ids: Ids, x: nat, a: Finding, b: Finding)
    requires Injective(ids.evidence) && FlagOf(ids, x, a) == FlagOf(ids, x, b)
    ensures a.left == b.left && a.right == b.right
  {
    assert FlagOf(ids, x, a).cited[0] == FlagOf(ids, x, b).cited[0];
    assert FlagOf(ids, x, a).cited[1] == FlagOf(ids, x, b).cited[1];
  }

  /** Whatever the two listings, the second plan is the first one, renamed, but for the
      locators that identity conflicts cite; and it is all of it exactly when the
      listings agree on the recorded pairs. */
  lemma PlansRename(
    r: Renaming, first: Ids, second: Ids, mentions: seq<Mention>, listing: Listing, again: Listing)
    requires Takes(r, first, second) && Injective(second.evidence)
    ensures AllAlike(NewActs(r, Plan(first, mentions, listing)), Plan(second, mentions, again),
                     IdentityConflicts(second, mentions))
    ensures Plan(second, mentions, again) == NewActs(r, Plan(first, mentions, listing))
            <==> ListAlike(mentions, listing, again)
  {
    SameListingRenames(r, first, second, mentions, listing);
    PlansAlike(second, mentions, listing, again);
    if Plan(second, mentions, listing) == Plan(second, mentions, again) {
      forall x | 0 <= x < |Pairs(mentions)| ensures listing(x) == again(x) {
        SamePlanMeansListAlike(second, mentions, listing, again, x);
      }
    }
  }

  /** Rows, locators and all bindings but those of the conflicts set apart. */
  ghost predicate MirrorsBut(r: Renaming, g: G, h: G, i: G, apart: set<Key>, there: set<Key>) {
    && RowsMirror(r, g.rows, h.rows, i.rows)
    && LocatorsMirror(r, g.evidence, h.evidence, i.evidence)
    && OtherBindingsMirror(r, g, h, i, apart, there)
  }

  /** The same listing: everything corresponds. */
  lemma SameListingMirrors(
    g: G, c: Context, first: Ids, second: Ids, mentions: seq<Mention>, listing: Listing)
    requires Inv(g) && HasPackage(g, c.tenant, c.package) && Unused(g, first) && Unused(g, second)
    requires Listed(mentions, listing)
    ensures Mirrors(Between(first, second), g, PerformAll(g, c, Plan(first, mentions, listing)),
                    PerformAll(g, c, Plan(second, mentions, listing)))
  {
    PlanIsWellPlanned(g, first, mentions, listing);
    PlanIsWellPlanned(g, second, mentions, listing);
    BetweenTakes(first, second);
    SameListingRenames(Between(first, second), first, second, mentions, listing);
    RunsMirror(Between(first, second), g, c, Plan(first, mentions, listing));
  }

  /** Two resolutions that start from the same graph. */
  lemma ResolutionsMirror(
    g: G, c: Context, first: Ids, second: Ids, mentions: seq<Mention>, listing: Listing, again: Listing)
    requires Inv(g) && HasPackage(g, c.tenant, c.package) && Unused(g, first) && Unused(g, second)
    requires Listed(mentions, listing) && Listed(mentions, again)
    ensures var r := Between(first, second);
            var h := PerformAll(g, c, Plan(first, mentions, listing));
            var i := PerformAll(g, c, Plan(second, mentions, again));
            && MirrorsBut(r, g, h, i, IdentityConflicts(first, mentions), IdentityConflicts(second, mentions))
            && (Mirrors(r, g, h, i) <==> ListAlike(mentions, listing, again))
  {
    var r := Between(first, second);
    var h, i := PerformAll(g, c, Plan(first, mentions, listing)), PerformAll(g, c, Plan(second, mentions, again));
    var like := PerformAll(g, c, Plan(first, mentions, again));
    BetweenTakes(first, second);
    SameListingMirrors(g, c, first, second, mentions, again);
    PlansAlike(first, mentions, listing, again);
    RunsAlike(g, c, Plan(first, mentions, listing), Plan(first, mentions, again), IdentityConflicts(first, mentions));
    ConflictsRenamed(r, first, second, mentions);
    MirrorsOfAlike(r, g, h, like, i, IdentityConflicts(first, mentions), IdentityConflicts(second, mentions));
    if Mirrors(r, g, h, i) { MirrorsMeansAllListed(g, c, r, first, second, mentions, listing, again); }
  }

  lemma MirrorsMeansAllListed(
    g: G, c: Context, r: Renaming, first: Ids, second: Ids, mentions: seq<Mention>, listing: Listing, again: Listing)
    requires Unused(g, first) && Unused(g, second) && Takes(r, first, second)
    requires Listed(mentions, listing) && Listed(mentions, again)
    requires BindingsMirror(r, g, PerformAll(g, c, Plan(first, mentions, listing)),
                            PerformAll(g, c, Plan(second, mentions, again)))
    ensures ListAlike(mentions, listing, again)
  {
    forall x | 0 <= x < |Pairs(mentions)| ensures listing(x) == again(x) {
      MirrorsMeansListAlike(g, c, r, first, second, mentions, listing, again, x);
    }
  }

  lemma ConflictsRenamed(r: Renaming, first: Ids, second: Ids, mentions: seq<Mention>)
    requires Takes(r, first, second)
    ensures forall k :: k in IdentityConflicts(first, mentions) ==> NewKey(r, k) in IdentityConflicts(second, mentions)
  {
  }

  /** Resolving a package again, with whatever ids and whatever listing, replaces
      everything the first resolution wrote by the same rows, locators and bindings under
      their new ids, but for the bindings of identity conflicts, and touches nothing else.
      Those bindings too are the same exactly when the database lists the same locator
      first for each end of each conflict. */
  lemma ResolvingAgainRenames(
    g: G, c: Context, first: Ids, second: Ids, mentions: seq<Mention>, listing: Listing, again: Listing)
    requires Inv(g) && HasPackage(g, c.tenant, c.package) && !ClearRefused(g, c.tenant, c.package, METHODS)
    requires Unused(g, first) && Unused(g, second)
    requires Listed(mentions, listing) && Listed(mentions, again)
    ensures var start, r := Cleared(g, c.tenant, c.package, METHODS), Between(first, second);
            var once := PerformAll(start, c, Plan(first, mentions, listing));
            && !ClearRefused(once, c.tenant, c.package, METHODS)
            && var twice := PerformAll(Cleared(once, c.tenant, c.package, METHODS), c, Plan(second, mentions, again));
            && Extends(start, once, c) && Extends(start, twice, c)
            && MirrorsBut(r, start, once, twice, IdentityConflicts(first, mentions),
                 IdentityConflicts(second, mentions))
            && (Mirrors(r, start, once, twice) <==> ListAlike(mentions, listing, again))
  {
    var start := Cleared(g, c.tenant, c.package, METHODS);
    ClearKeepsInv(g, c.tenant, c.package, METHODS);
    ClearFreesNothingNew(g, c, first);
    ClearFreesNothingNew(g, c, second);
    PlanIsWellPlanned(start, first, mentions, listing);
    PlanIsWellPlanned(start, second, mentions, again);
    ResolvingAgainReplaces(g, c, first, second, mentions, listing, again);
    PlannedRun(start, c, Plan(first, mentions, listing));
    PlannedRun(start, c, Plan(second, mentions, again));
    ResolutionsMirror(start, c, first, second, mentions, listing, again);
  }

  // ---- listings that differ ----------------------------------------------------------

  /** Everywhere the first locator, and everywhere the second. */
  function Firsts(): Listing { (x: nat) => (0, 0) }

  function Seconds(): Listing { (x: nat) => (1, 1) }

  /** A signal of this name, in one of two files, with the comment that they all have. */
  function Twin(name: string, path: string): Mention {
    Mention("signal", name, path, "0", "current", IoList, 1.0, [], map["comment" := Text("c")])
  }

  function Twins(): seq<Mention> {
    [Twin("a", "p"), Twin("a", "q"), Twin("b", "p"), Twin("b", "q")]
  }

  function TwinGroups(): seq<seq<Mention>> {
    [[Twin("a", "p"), Twin("a", "q")], [Twin("b", "p"), Twin("b", "q")]]
  }

  lemma SelectTwins(m: seq<Mention>, key: GroupKey)
    requires |m| == 4 && forall i :: 0 <= i < 4 ==> Named(m[i])
    requires KeyOf(m[0]) == KeyOf(m[1]) && KeyOf(m[2]) == KeyOf(m[3]) && KeyOf(m[0]) != KeyOf(m[2])
    ensures key == KeyOf(m[0]) ==> Select(m, key) == [m[0], m[1]]
    ensures key == KeyOf(m[2]) ==> Select(m, key) == [m[2], m[3]]
  {
    var m1 := m[1..];
    var m2 := m1[1..];
    var m3 := m2[1..];
    assert m3 == [m[3]] && m3[1..] == [] && m2[0] == m[2] && m1[0] == m[1];
    assert Select(m3, key) == if KeyOf(m[3]) == key then [m[3]] else [];
    assert Select(m2, key) == if KeyOf(m[2]) == key then [m[2], m[3]] else [];
  }

  lemma FirstSeenTwins(m: seq<Mention>)
    requires |m| == 4 && forall i :: 0 <= i < 4 ==> Named(m[i])
    requires KeyOf(m[0]) == KeyOf(m[1]) && KeyOf(m[2]) == KeyOf(m[3]) && KeyOf(m[0]) != KeyOf(m[2])
    ensures FirstSeen(m) == [KeyOf(m[0]), KeyOf(m[2])]
  {
    var m3 := m[..3];
    var m2 := m3[..2];
    var m1 := m2[..1];
    assert m3[2] == m[2] && m2[1] == m[1] && m1[0] == m[0] && m1[..0] == [];
    assert FirstSeen(m1) == [KeyOf(m[0])];
    assert FirstSeen(m2) == [KeyOf(m[0])];
    assert FirstSeen(m3) == [KeyOf(m[0]), KeyOf(m[2])];
  }

  lemma TwinsAreGrouped()
    ensures Groups(Twins()) == TwinGroups()
  {
    var m := Twins();
    assert m[0].name == "a" && m[2].name == "b";
    assert "a"[0] != "b"[0];
    FirstSeenTwins(m);
    SelectTwins(m, KeyOf(m[0]));
    SelectTwins(m, KeyOf(m[2]));
  }

  /** An attribute on which the group agrees is merged. */
  lemma AgreedIsMerged(group: seq<Mention>, key: string, value: string)
    requires group != [] && key != "mention" && value != ""
    requires forall m :: m in group ==> key in m.attributes && m.attributes[key] == Text(value)
    ensures key in Merged(group) && Merged(group)[key] == Text(value)
  {
    MergePrefersRank(group, key);
    assert group[0] in group && Offers(group[0], key);
    var i :| Wins(group, i, key);
    assert group[i] in group;
  }

  lemma TwinIsSignal(name: string)
    requires name != ""
    ensures var group := [Twin(name, "p"), Twin(name, "q")];
            var e := CanonicalOf(group);
            e.kind == "signal" && e.name == name && TextAttribute(e, "comment") == Some("c")
  {
    var group := [Twin(name, "p"), Twin(name, "q")];
    EntityRepresentsItsGroup(group);
    TwinsAgree(group, name);
  }

  lemma TwinsAgree(group: seq<Mention>, name: string)
    requires group == [Twin(name, "p"), Twin(name, "q")]
    ensures TextAttribute(CanonicalOf(group), "comment") == Some("c")
  {
    assert |"comment"| != |"identity_resolution"| && |"comment"| == |"mention"| && "comment"[0] != "mention"[0];
    AgreedIsMerged(group, "comment", "c");
  }

  function SignalOf(e: Canonical, id: nat): Conflicts.Signal {
    Conflicts.Signal(id, e.name, TextAttribute(e, "comment"), TextAttribute(e, "address"))
  }

  lemma LastIsSignal(groups: seq<seq<Mention>>, last: seq<Mention>, e: Canonical)
    requires last != [] && CanonicalOf(last) == e && e.kind == "signal"
    ensures Signals(groups + [last]) == Signals(groups) + [SignalOf(e, |groups|)]
  {
    var all := groups + [last];
    assert all[..|groups|] == groups && all[|groups|] == last;
  }

  lemma TwoSignals(a: seq<Mention>, b: seq<Mention>, e: Canonical, f: Canonical)
    requires a != [] && CanonicalOf(a) == e && e.kind == "signal"
    requires b != [] && CanonicalOf(b) == f && f.kind == "signal"
    ensures Signals([a, b]) == [SignalOf(e, 0), SignalOf(f, 1)]
  {
    LastIsSignal([], a, e);
    LastIsSignal([a], b, f);
    assert [] + [a] == [a] && [a] + [b] == [a, b] && Signals([]) == [];
  }

  lemma TwinsConflict()
    ensures Pairs(Twins()) != []
  {
    var groups := TwinGroups();
    TwinsAreGrouped();
    TwinIsSignal("a");
    TwinIsSignal("b");
    TwoSignals(groups[0], groups[1], CanonicalOf(groups[0]), CanonicalOf(groups[1]));
    SignalsAreDistinct(Twins());
    SharersConflict(Signals(groups));
  }

  lemma SharersConflict(signals: seq<Conflicts.Signal>)
    requires |signals| == 2 && Conflicts.DistinctSignals(signals)
    requires signals[0].comment.Some? && signals[0].comment == signals[1].comment
    ensures Conflicts.IdentityPairs(signals) != []
  {
    assert Conflicts.Shares(signals[0], signals[1], Conflicts.Comment);
    Conflicts.SharersAreJoined(signals, signals[0], signals[1], Conflicts.Comment);
  }

  lemma BothListed(mentions: seq<Mention>)
    requires forall j :: 0 <= j < |Groups(mentions)| ==> |Groups(mentions)[j]| == 2
    ensures Listed(mentions, Firsts()) && Listed(mentions, Seconds())
  {
    AnyListed(Groups(mentions), Pairs(mentions));
  }

  lemma AnyListed(groups: seq<seq<Mention>>, pairs: seq<Conflicts.Pair>)
    requires forall j :: 0 <= j < |groups| ==> |groups[j]| == 2
    ensures ListsLocators(groups, pairs, Firsts()) && ListsLocators(groups, pairs, Seconds())
  {
  }

  lemma TwinsAreListed()
    ensures Listed(Twins(), Firsts()) && Listed(Twins(), Seconds())
  {
    TwinsAreGrouped();
    BothListed(Twins());
  }

  /** Two entities of two mentions each share a comment. If the database lists the first
      locators at one resolution and the second ones at the next, the conflict between
      them is bound to other locators than before: the graphs do not correspond. */
  lemma ListingsMatter(g: G, c: Context, first: Ids, second: Ids)
    requires Inv(g) && HasPackage(g, c.tenant, c.package) && !ClearRefused(g, c.tenant, c.package, METHODS)
    requires Unused(g, first) && Unused(g, second)
    ensures Listed(Twins(), Firsts()) && Listed(Twins(), Seconds())
    ensures var start, r := Cleared(g, c.tenant, c.package, METHODS), Between(first, second);
            var once := PerformAll(start, c, Plan(first, Twins(), Firsts()));
            !Mirrors(r, start, once, PerformAll(Cleared(once, c.tenant, c.package, METHODS), c,
                                                Plan(second, Twins(), Seconds())))
  {
    TwinsConflict();
    TwinsAreListed();
    assert Firsts()(0) != Seconds()(0);
    ResolvingAgainRenames(g, c, first, second, Twins(), Firsts(), Seconds());
  }
}
