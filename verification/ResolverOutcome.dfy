/** What a resolution leaves in the evidence graph, row by row. */
module ResolverOutcome {
  import opened Wrappers
  import opened Lists
  import opened EvidenceGraph
  import opened Resolution
  import opened Promotion
  import opened ResolverRun
  import opened ResolverPlan
  import opened ResolverRenaming
  import opened ResolverListings

  // ---- what one write shows in the end ---------------------------------------------------

  /** The row is there, and its bindings lead to these locators and nowhere else. */
  ghost predicate Stands(h: G, k: Key, row: Row<Payload>, ids: seq<EvidenceId>) {
    && k in h.rows && h.rows[k].(canonical := None) == row
    && forall b :: b in h.bindings && b.subject == k <==> b.tenant == row.tenant && b.subject == k && b.evidence in ids
  }

  ghost predicate Shown(h: G, c: Context, act: Act) {
    match act
    case Note(e, k, m) =>
      && Stands(h, Key(EntityCandidate, k), CandidateRow(c, m), [e])
      && e in h.evidence && h.evidence[e] == Evidence(c.tenant, c.document)
    case Unite(entity, canonical, stored) =>
      && Stands(h, Key(Entity, entity), ResolverRow(c, EntityOf(canonical)), EvidenceIds(stored))
      && h.rows[Key(Entity, entity)].canonical == None
    case Flag(x, payload, cited) =>
      && Stands(h, Key(Conflict, x), ResolverRow(c, payload), cited) && h.rows[Key(Conflict, x)].canonical == None
  }

  function KeyOfAct(act: Act): Key {
    match act
    case Note(e, k, m) => Key(EntityCandidate, k)
    case Unite(entity, canonical, stored) => Key(Entity, entity)
    case Flag(x, payload, cited) => Key(Conflict, x)
  }

  lemma JustShown(h: G, c: Context, act: Act)
    requires NewTo(h, act)
    ensures Shown(Perform(h, c, act), c, act)
  {
    match act
    case Note(e, k, m) => assert [e][0] == e;
    case Unite(entity, canonical, stored) =>
    case Flag(x, payload, cited) =>
  }

  lemma StaysShown(h: G, c: Context, act: Act, later: Act)
    requires Shown(h, c, act) && NewTo(h, later) && Differ(act, later)
    ensures Shown(Perform(h, c, later), c, act)
  {
    var k := KeyOfAct(act);
    var next := Perform(h, c, later);
    assert KeyOfAct(later) != k;
    assert forall b :: b in next.bindings && b !in h.bindings ==> b.subject == KeyOfAct(later);
    assert k in next.rows && next.rows[k].(canonical := None) == h.rows[k].(canonical := None);
    assert k.kind != EntityCandidate ==> next.rows[k] == h.rows[k];
  }

  /** The candidates that a group's entity is the canonical one of. */
  ghost predicate PointsTo(h: G, k: RowId, entity: Option<RowId>) {
    Key(EntityCandidate, k) in h.rows && h.rows[Key(EntityCandidate, k)].canonical == entity
  }

  ghost predicate Links(act: Act, k: RowId) {
    act.Unite? && exists s :: s in act.stored && s.candidate == k
  }

  lemma StillPoints(h: G, c: Context, later: Act, k: RowId, entity: Option<RowId>)
    requires PointsTo(h, k, entity) && NewTo(h, later) && !Links(later, k)
    ensures PointsTo(Perform(h, c, later), k, entity)
  {
  }

  lemma NowPoints(h: G, c: Context, act: Act, k: RowId)
    requires Key(EntityCandidate, k) in h.rows && Links(act, k)
    ensures PointsTo(Perform(h, c, act), k, Some(act.entity))
  {
  }

  // ---- whole runs ------------------------------------------------------------------------

  /** Every write of a planned run shows, and there are no other new rows. */
  lemma {:induction false} AllShown(g: G, c: Context, acts: seq<Act>)
    requires Inv(g) && HasPackage(g, c.tenant, c.package) && WellPlanned(acts) && forall a :: a in acts ==> NewTo(g, a)
    ensures var h := PerformAll(g, c, acts);
            && (forall a :: a in acts ==> Shown(h, c, a))
            && (forall k :: k in h.rows ==> k in g.rows || exists a :: a in acts && KeyOfAct(a) == k)
  {
    if acts != [] {
      var n := |acts| - 1;
      var before, act := acts[..n], acts[n];
      assert acts == before + [act];
      PrefixIsPlanned(acts, n);
      AllShown(g, c, before);
      var h := PerformAll(g, c, before);
      NewAtLast(g, c, acts);
      JustShown(h, c, act);
      forall a | a in before ensures Shown(Perform(h, c, act), c, a) {
        assert Fits(before, act);
        StaysShown(h, c, a, act);
      }
      assert act in acts;
    }
  }

  lemma NewAtLast(g: G, c: Context, acts: seq<Act>)
    requires Inv(g) && HasPackage(g, c.tenant, c.package) && acts != []
    requires WellPlanned(acts) && forall a :: a in acts ==> NewTo(g, a)
    ensures NewTo(PerformAll(g, c, acts[..|acts| - 1]), acts[|acts| - 1])
  {
    var n := |acts| - 1;
    PrefixIsPlanned(acts, n);
    PlannedRun(g, c, acts[..n]);
    assert Fits(acts[..n], acts[n]) && acts[n] in acts;
  }

  /** A candidate of which only this write makes an entity points at that entity. */
  lemma {:induction false} CandidatesPoint(g: G, c: Context, acts: seq<Act>, j: nat, k: RowId)
    requires Inv(g) && HasPackage(g, c.tenant, c.package) && WellPlanned(acts) && forall a :: a in acts ==> NewTo(g, a)
    requires j < |acts| && Links(acts[j], k)
    requires forall l: nat :: l < |acts| && l != j ==> !Links(acts[l], k)
    ensures PointsTo(PerformAll(g, c, acts), k, Some(acts[j].entity))
  {
    var n := |acts| - 1;
    PrefixIsPlanned(acts, n);
    if j == n {
      LastIsPossible(g, c, acts);
      NowPoints(PerformAll(g, c, acts[..n]), c, acts[n], k);
    } else {
      NewAtLast(g, c, acts);
      CandidatesPoint(g, c, acts[..n], j, k);
      StillPoints(PerformAll(g, c, acts[..n]), c, acts[n], k, Some(acts[j].entity));
    }
  }

  // ---- a resolution ------------------------------------------------------------------------

  /** The candidate of the mention with this number: a row of the extractor's with the
      mention, bound to its own locator in the document, and pointing at its group's entity. */
  ghost predicate CandidateStands(h: G, c: Context, ids: Ids, n: nat, m: Mention, group: nat) {
    var k := Key(EntityCandidate, ids.candidate(n));
    && k in h.rows
    && h.rows[k].tenant == c.tenant && h.rows[k].package == c.package
    && h.rows[k].producer == "deterministic_identifiers" && h.rows[k].payload == CandidateOf(m)
    && h.rows[k].canonical == Some(ids.entity(group))
    && ids.evidence(n) in h.evidence && h.evidence[ids.evidence(n)] == Evidence(c.tenant, c.document)
    && forall b :: b in h.bindings && b.subject == k <==> b == Binding(c.tenant, ids.evidence(n), k)
  }

  /** A row of the resolver's that is bound to the locators with these numbers. */
  ghost predicate ResolvedStands(h: G, c: Context, k: Key, payload: Payload, ids: Ids, numbers: seq<nat>) {
    && k in h.rows
    && h.rows[k].tenant == c.tenant && h.rows[k].package == c.package
    && h.rows[k].producer == "deterministic_identity" && h.rows[k].payload == payload && h.rows[k].canonical == None
    && forall b :: b in h.bindings && b.subject == k <==>
         b.tenant == c.tenant && b.subject == k && exists n :: n in numbers && b.evidence == ids.evidence(n)
  }

  /** The numbers of the mentions of a group. */
  function Range(start: nat, size: nat): seq<nat> {
    seq<nat>(size, t requires 0 <= t => start + t)
  }

  lemma NoteStands(h: G, c: Context, ids: Ids, n: nat, m: Mention, group: nat)
    requires Shown(h, c, Note(ids.evidence(n), ids.candidate(n), m))
    requires PointsTo(h, ids.candidate(n), Some(ids.entity(group)))
    ensures CandidateStands(h, c, ids, n, m, group)
  {
    var k := Key(EntityCandidate, ids.candidate(n));
    var row := h.rows[k].(canonical := None);
    assert row == CandidateRow(c, m);
    forall b | b in h.bindings && b.subject == k ensures b == Binding(c.tenant, ids.evidence(n), k) {
      assert b.evidence in [ids.evidence(n)];
    }
  }

  lemma EntityStands(h: G, c: Context, ids: Ids, groups: seq<seq<Mention>>, j: nat)
    requires j < |groups| && groups[j] != []
    requires Shown(h, c, Unite(ids.entity(j), CanonicalOf(groups[j]), StoredOf(ids, groups, j)))
    ensures ResolvedStands(h, c, Key(Entity, ids.entity(j)), EntityOf(CanonicalOf(groups[j])), ids,
                           Range(Start(groups, j), |groups[j]|))
  {
    EntityCites(ids, groups, j);
  }

  lemma EntityCites(ids: Ids, groups: seq<seq<Mention>>, j: nat)
    requires j < |groups| && groups[j] != []
    ensures forall e: EvidenceId :: e in EvidenceIds(StoredOf(ids, groups, j)) <==>
              exists n :: n in Range(Start(groups, j), |groups[j]|) && e == ids.evidence(n)
  {
    var stored := StoredOf(ids, groups, j);
    var numbers := Range(Start(groups, j), |groups[j]|);
    forall e: EvidenceId ensures e in EvidenceIds(stored) <==> exists n :: n in numbers && e == ids.evidence(n) {
      if e in EvidenceIds(stored) {
        var t: nat :| t < |stored| && EvidenceIds(stored)[t] == e;
        assert numbers[t] == Start(groups, j) + t && numbers[t] in numbers;
      }
      if n :| n in numbers && e == ids.evidence(n) {
        var t: nat := n - Start(groups, j);
        assert EvidenceIds(stored)[t] == e;
      }
    }
  }

  lemma FlagStands(h: G, c: Context, ids: Ids, x: nat, f: Finding)
    requires Shown(h, c, FlagOf(ids, x, f))
    ensures ResolvedStands(h, c, Key(Conflict, ids.conflict(x)), f.payload, ids, [f.left, f.right])
  {
    var cited := [ids.evidence(f.left), ids.evidence(f.right)];
    forall e: EvidenceId ensures e in cited <==> exists n: nat :: n in [f.left, f.right] && e == ids.evidence(n) {
      if e == cited[0] { assert f.left in [f.left, f.right]; }
      if e == cited[1] { assert f.right in [f.left, f.right]; }
    }
  }

  /** What stands in the graph after a resolution of these groups with these findings. */
  ghost predicate GroupsStand(h: G, c: Context, ids: Ids, groups: seq<seq<Mention>>) {
    && (forall j, t :: 0 <= j < |groups| && 0 <= t < |groups[j]| ==>
          CandidateStands(h, c, ids, Start(groups, j) + t, groups[j][t], j))
    && (forall j :: 0 <= j < |groups| && groups[j] != [] ==>
          ResolvedStands(h, c, Key(Entity, ids.entity(j)), EntityOf(CanonicalOf(groups[j])), ids,
                         Range(Start(groups, j), |groups[j]|)))
  }

  ghost predicate FindingsStand(h: G, c: Context, ids: Ids, findings: seq<Finding>) {
    forall x :: 0 <= x < |findings| ==>
      ResolvedStands(h, c, Key(Conflict, ids.conflict(x)), findings[x].payload, ids,
          [findings[x].left, findings[x].right])
  }

  /** No row is new but these. */
  ghost predicate NothingElse(g: G, h: G, ids: Ids, mentions: nat, groups: nat, findings: nat) {
    forall k :: k in h.rows && k !in g.rows ==>
      || (exists n: nat :: n < mentions && k == Key(EntityCandidate, ids.candidate(n)))
      || (exists j: nat :: j < groups && k == Key(Entity, ids.entity(j)))
      || (exists x: nat :: x < findings && k == Key(Conflict, ids.conflict(x)))
  }

  lemma ActAt(plan: seq<Act>, h: G, c: Context, i: nat)
    requires i < |plan| && forall a :: a in plan ==> Shown(h, c, a)
    ensures Shown(h, c, plan[i])
  {
    assert plan[i] in plan;
  }

  lemma UniteAt(ids: Ids, groups: seq<seq<Mention>>, plan: seq<Act>, done: nat, j: nat)
    requires EntitiesPlanned(ids, groups, plan, done) && j < |groups|
    ensures groups[j] != []
    ensures plan[done + j] == Unite(ids.entity(j), CanonicalOf(groups[j]), StoredOf(ids, groups, j))
  {
    assert groups[j] != [];
  }

  /** Which write stands at a place of the plan. */
  ghost predicate ActIs(ids: Ids, flat: seq<Mention>, groups: seq<seq<Mention>>, findings: seq<Finding>, act: Act,
      l: nat)
  {
    var n, m := |flat|, |flat| + |groups|;
    if l < n then act == Note(ids.evidence(l), ids.candidate(l), flat[l])
    else if l < m then
      groups[l - n] != [] && act == Unite(ids.entity(l - n), CanonicalOf(groups[l - n]), StoredOf(ids, groups, l - n))
    else l - m < |findings| && act == FlagOf(ids, l - m, findings[l - m])
  }

  ghost predicate AllParts(ids: Ids, flat: seq<Mention>, groups: seq<seq<Mention>>, findings: seq<Finding>,
      plan: seq<Act>)
  {
    && |plan| == |flat| + |groups| + |findings|
    && forall l: nat :: l < |plan| ==> ActIs(ids, flat, groups, findings, plan[l], l)
  }

  lemma PartsAreAll(ids: Ids, flat: seq<Mention>, groups: seq<seq<Mention>>, findings: seq<Finding>, plan: seq<Act>)
    requires PartsPlanned(ids, flat, groups, findings, plan)
    ensures AllParts(ids, flat, groups, findings, plan)
  {
    forall l: nat | l < |plan| ensures ActIs(ids, flat, groups, findings, plan[l], l) {
      PartAt(ids, flat, groups, findings, plan, l);
    }
  }

  lemma PartAt(ids: Ids, flat: seq<Mention>, groups: seq<seq<Mention>>, findings: seq<Finding>, plan: seq<Act>, l: nat)
    requires PartsPlanned(ids, flat, groups, findings, plan) && l < |plan|
    ensures ActIs(ids, flat, groups, findings, plan[l], l)
  {
    var n, m := |flat|, |flat| + |groups|;
    if n <= l < m {
      UniteAt(ids, groups, plan, n, l - n);
    } else if m <= l {
      FlagAt(ids, findings, plan, m, l - m);
    }
  }

  /** The candidates that the write at this place links. */
  ghost predicate LinksAs(ids: Ids, groups: seq<seq<Mention>>, act: Act, done: nat, l: nat) {
    if done <= l < done + |groups| then act.Unite? && act.stored == StoredOf(ids, groups, l - done) else !act.Unite?
  }

  lemma PartLinks(ids: Ids, flat: seq<Mention>, groups: seq<seq<Mention>>, findings: seq<Finding>, act: Act, l: nat)
    requires ActIs(ids, flat, groups, findings, act, l)
    ensures LinksAs(ids, groups, act, |flat|, l)
  {
  }

  /** Candidates are linked by their own group's write only. */
  lemma LinkedOnce(ids: Ids, groups: seq<seq<Mention>>, act: Act, done: nat, j: nat, t: nat, l: nat)
    requires LinksAs(ids, groups, act, done, l) && AllInjective(ids)
    requires j < |groups| && t < |groups[j]|
    ensures Links(act, ids.candidate(Start(groups, j) + t)) <==> l == done + j
  {
    if done <= l < done + |groups| { StoredOnce(ids, groups, l - done, j, t); }
  }

  lemma StoredOnce(ids: Ids, groups: seq<seq<Mention>>, i: nat, j: nat, t: nat)
    requires AllInjective(ids) && i < |groups| && j < |groups| && t < |groups[j]|
    ensures (exists s :: s in StoredOf(ids, groups, i) && s.candidate == ids.candidate(Start(groups, j) + t))
            <==> i == j
  {
    var stored, k := StoredOf(ids, groups, i), ids.candidate(Start(groups, j) + t);
    if s :| s in stored && s.candidate == k {
      var u: nat :| u < |stored| && stored[u] == s;
      var n: nat := Start(groups, i) + u;
      assert s.candidate == ids.candidate(n);
      SameNumberSameGroup(groups, i, u, j, t);
    }
    if i == j { assert stored[t] in stored; }
  }

  lemma SameNumberSameGroup(groups: seq<seq<Mention>>, i: nat, u: nat, j: nat, t: nat)
    requires i < |groups| && u < |groups[i]| && j < |groups| && t < |groups[j]|
    ensures Start(groups, i) + u == Start(groups, j) + t ==> i == j
  {
    if i < j { GroupsLieApart(groups, i, j); }
    if j < i { GroupsLieApart(groups, j, i); }
  }

  lemma PartsStand(g: G, c: Context, ids: Ids, groups: seq<seq<Mention>>, findings: seq<Finding>, plan: seq<Act>)
    requires Inv(g) && HasPackage(g, c.tenant, c.package) && WellPlanned(plan) && forall a :: a in plan ==> NewTo(g, a)
    requires AllParts(ids, Flatten(groups), groups, findings, plan) && AllInjective(ids)
    ensures var h := PerformAll(g, c, plan);
            && GroupsStand(h, c, ids, groups) && FindingsStand(h, c, ids, findings)
            && NothingElse(g, h, ids, |Flatten(groups)|, |groups|, |findings|)
  {
    var h, flat := PerformAll(g, c, plan), Flatten(groups);
    AllShown(g, c, plan);
    forall j, t | 0 <= j < |groups| && 0 <= t < |groups[j]|
      ensures CandidateStands(h, c, ids, Start(groups, j) + t, groups[j][t], j)
    {
      CandidateOfGroup(g, c, ids, groups, findings, plan, j, t);
    }
    SubjectsStand(h, c, ids, flat, groups, findings, plan);
    NoOtherRows(g, h, ids, flat, groups, findings, plan);
  }

  lemma SubjectsStand(h: G, c: Context, ids: Ids, flat: seq<Mention>, groups: seq<seq<Mention>>, findings: seq<Finding>,
      plan: seq<Act>)
    requires AllParts(ids, flat, groups, findings, plan) && forall a :: a in plan ==> Shown(h, c, a)
    ensures forall j :: 0 <= j < |groups| && groups[j] != [] ==>
              ResolvedStands(h, c, Key(Entity, ids.entity(j)), EntityOf(CanonicalOf(groups[j])), ids,
                             Range(Start(groups, j), |groups[j]|))
    ensures FindingsStand(h, c, ids, findings)
  {
    forall j | 0 <= j < |groups| && groups[j] != []
      ensures ResolvedStands(h, c, Key(Entity, ids.entity(j)), EntityOf(CanonicalOf(groups[j])), ids,
                             Range(Start(groups, j), |groups[j]|))
    {
      assert ActIs(ids, flat, groups, findings, plan[|flat| + j], |flat| + j);
      ActAt(plan, h, c, |flat| + j);
      EntityStands(h, c, ids, groups, j);
    }
    forall x | 0 <= x < |findings|
      ensures ResolvedStands(h, c, Key(Conflict, ids.conflict(x)), findings[x].payload, ids,
              [findings[x].left, findings[x].right])
    {
      var l := |flat| + |groups| + x;
      assert ActIs(ids, flat, groups, findings, plan[l], l);
      ActAt(plan, h, c, l);
      FlagStands(h, c, ids, x, findings[x]);
    }
  }

  lemma CandidateOfGroup(g: G, c: Context, ids: Ids, groups: seq<seq<Mention>>, findings: seq<Finding>, plan: seq<Act>,
      j: nat, t: nat)
    requires Inv(g) && HasPackage(g, c.tenant, c.package) && WellPlanned(plan) && forall a :: a in plan ==> NewTo(g, a)
    requires AllParts(ids, Flatten(groups), groups, findings, plan) && AllInjective(ids)
    requires j < |groups| && t < |groups[j]|
    ensures CandidateStands(PerformAll(g, c, plan), c, ids, Start(groups, j) + t, groups[j][t], j)
  {
    var h, flat, n := PerformAll(g, c, plan), Flatten(groups), Start(groups, j) + t;
    StartInside(groups, j, t);
    AllShown(g, c, plan);
    ActAt(plan, h, c, n);
    assert ActIs(ids, flat, groups, findings, plan[n], n);
    GroupLinks(g, c, ids, flat, groups, findings, plan, n, j, t);
    NoteStands(h, c, ids, n, groups[j][t], j);
  }

  lemma GroupLinks(g: G, c: Context, ids: Ids, flat: seq<Mention>, groups: seq<seq<Mention>>, findings: seq<Finding>,
      plan: seq<Act>, n: nat, j: nat, t: nat)
    requires Inv(g) && HasPackage(g, c.tenant, c.package) && WellPlanned(plan) && forall a :: a in plan ==> NewTo(g, a)
    requires AllParts(ids, flat, groups, findings, plan) && AllInjective(ids)
    requires j < |groups| && t < |groups[j]| && n == Start(groups, j) + t < |flat|
    ensures PointsTo(PerformAll(g, c, plan), ids.candidate(n), Some(ids.entity(j)))
  {
    forall l: nat | l < |plan| ensures Links(plan[l], ids.candidate(n)) <==> l == |flat| + j {
      PartLinks(ids, flat, groups, findings, plan[l], l);
      LinkedOnce(ids, groups, plan[l], |flat|, j, t, l);
    }
    assert ActIs(ids, flat, groups, findings, plan[|flat| + j], |flat| + j);
    CandidatesPoint(g, c, plan, |flat| + j, ids.candidate(n));
  }

  lemma NoOtherRows(g: G, h: G, ids: Ids, flat: seq<Mention>, groups: seq<seq<Mention>>, findings: seq<Finding>,
      plan: seq<Act>)
    requires AllParts(ids, flat, groups, findings, plan)
    requires forall k :: k in h.rows ==> k in g.rows || exists a :: a in plan && KeyOfAct(a) == k
    ensures NothingElse(g, h, ids, |flat|, |groups|, |findings|)
  {
    forall k | k in h.rows && k !in g.rows
      ensures || (exists n: nat :: n < |flat| && k == Key(EntityCandidate, ids.candidate(n)))
              || (exists j: nat :: j < |groups| && k == Key(Entity, ids.entity(j)))
              || (exists x: nat :: x < |findings| && k == Key(Conflict, ids.conflict(x)))
    {
      var a :| a in plan && KeyOfAct(a) == k;
      var l: nat :| l < |plan| && plan[l] == a;
      assert ActIs(ids, flat, groups, findings, plan[l], l);
      KeyOfPart(ids, flat, groups, findings, a, l);
    }
  }

  lemma KeyOfPart(ids: Ids, flat: seq<Mention>, groups: seq<seq<Mention>>, findings: seq<Finding>, act: Act, l: nat)
    requires ActIs(ids, flat, groups, findings, act, l)
    ensures || (exists n: nat :: n < |flat| && KeyOfAct(act) == Key(EntityCandidate, ids.candidate(n)))
            || (exists j: nat :: j < |groups| && KeyOfAct(act) == Key(Entity, ids.entity(j)))
            || (exists x: nat :: x < |findings| && KeyOfAct(act) == Key(Conflict, ids.conflict(x)))
  {
    var n, m := |flat|, |flat| + |groups|;
    if l < n {
      assert KeyOfAct(act) == Key(EntityCandidate, ids.candidate(l));
    } else if l < m {
      assert KeyOfAct(act) == Key(Entity, ids.entity(l - n));
    } else {
      assert KeyOfAct(act) == Key(Conflict, ids.conflict(l - m));
    }
  }

  // ---- the findings ------------------------------------------------------------------------

  /** The conflict between the two candidates of this group that disagree about a revision. */
  ghost predicate IsRevision(f: Finding, ids: Ids, groups: seq<seq<Mention>>, j: nat) {
    && j < |groups| && Conflicts.RevisionPair(groups[j]).Some?
    && var pair := Conflicts.RevisionPair(groups[j]).value;
       && f.left == Start(groups, j) + pair.0 && f.right == Start(groups, j) + pair.1
       && f.payload == ConflictBetween(Clash.Revision, Key(EntityCandidate, ids.candidate(f.left)),
                                       Key(EntityCandidate, ids.candidate(f.right)))
  }

  /** These are the conflicts of the groups that disagree about a revision. */
  ghost predicate AreRevisions(found: seq<Finding>, ids: Ids, groups: seq<seq<Mention>>) {
    EachIsRevision(found, ids, groups) && EachIsFound(found, ids, groups)
  }

  ghost predicate EachIsRevision(found: seq<Finding>, ids: Ids, groups: seq<seq<Mention>>) {
    forall x :: 0 <= x < |found| ==> IsSomeRevision(found[x], ids, groups)
  }

  ghost predicate IsSomeRevision(f: Finding, ids: Ids, groups: seq<seq<Mention>>) {
    exists j: nat :: IsRevision(f, ids, groups, j)
  }

  ghost predicate EachIsFound(found: seq<Finding>, ids: Ids, groups: seq<seq<Mention>>) {
    forall j: nat :: j < |groups| && Disagrees(groups[j]) ==> HasRevision(found, ids, groups, j)
  }

  predicate Disagrees(group: seq<Mention>) { Conflicts.RevisionPair(group).Some? }

  ghost predicate HasRevision(found: seq<Finding>, ids: Ids, groups: seq<seq<Mention>>, j: nat) {
    exists x :: 0 <= x < |found| && IsRevision(found[x], ids, groups, j)
  }

  lemma SameRevision(f: Finding, ids: Ids, groups: seq<seq<Mention>>, j: nat)
    requires j < |groups| - 1
    ensures IsRevision(f, ids, groups[..|groups| - 1], j) <==> IsRevision(f, ids, groups, j)
  {
    assert groups[..|groups| - 1][..j] == groups[..j];
  }

  lemma {:induction false} RevisionsMean(ids: Ids, groups: seq<seq<Mention>>)
    ensures AreRevisions(RevisionFindings(ids, groups), ids, groups)
  {
    if groups != [] {
      RevisionsMean(ids, groups[..|groups| - 1]);
      LastRevision(ids, groups);
      var found, more := RevisionFindings(ids, groups[..|groups| - 1]), RevisionFindings(ids, groups);
      EachStaysRevision(found, more, ids, groups);
      EachStaysFound(found, more, ids, groups);
    }
  }

  ghost predicate Grows(found: seq<Finding>, more: seq<Finding>, ids: Ids, groups: seq<seq<Mention>>)
    requires groups != []
  {
    if Conflicts.RevisionPair(groups[|groups| - 1]).None? then more == found
    else |more| == |found| + 1 && more[..|found|] == found && IsRevision(more[|found|], ids, groups, |groups| - 1)
  }

  lemma LastRevision(ids: Ids, groups: seq<seq<Mention>>)
    requires groups != []
    ensures Grows(RevisionFindings(ids, groups[..|groups| - 1]), RevisionFindings(ids, groups), ids, groups)
  {
    var last := |groups| - 1;
    var pair := Conflicts.RevisionPair(groups[last]);
    OneMoreRevision(ids, groups);
    if pair.Some? {
      var f := RevisionOf(ids, Start(groups, last) + pair.value.0, Start(groups, last) + pair.value.1);
      assert IsRevision(f, ids, groups, last);
    }
  }

  lemma OneMoreRevision(ids: Ids, groups: seq<seq<Mention>>)
    requires groups != []
    ensures var last := |groups| - 1;
            var found, pair := RevisionFindings(ids, groups[..last]), Conflicts.RevisionPair(groups[last]);
            RevisionFindings(ids, groups) == found + if pair.None? then []
              else [RevisionOf(ids, Start(groups, last) + pair.value.0, Start(groups, last) + pair.value.1)]
  {
  }

  function RevisionOf(ids: Ids, left: nat, right: nat): Finding {
    Finding(ConflictBetween(Clash.Revision, Key(EntityCandidate, ids.candidate(left)),
        Key(EntityCandidate, ids.candidate(right))),
            left, right)
  }

  lemma EachStaysRevision(found: seq<Finding>, more: seq<Finding>, ids: Ids, groups: seq<seq<Mention>>)
    requires groups != [] && EachIsRevision(found, ids, groups[..|groups| - 1]) && Grows(found, more, ids, groups)
    ensures EachIsRevision(more, ids, groups)
  {
    forall x | 0 <= x < |more| ensures IsSomeRevision(more[x], ids, groups) {
      if x < |found| {
        var j: nat :| IsRevision(found[x], ids, groups[..|groups| - 1], j);
        SameRevision(found[x], ids, groups, j);
        assert more[x] == found[x] && IsRevision(more[x], ids, groups, j);
      } else {
        assert IsRevision(more[x], ids, groups, |groups| - 1);
      }
    }
  }

  lemma EachStaysFound(found: seq<Finding>, more: seq<Finding>, ids: Ids, groups: seq<seq<Mention>>)
    requires groups != [] && EachIsFound(found, ids, groups[..|groups| - 1]) && Grows(found, more, ids, groups)
    ensures EachIsFound(more, ids, groups)
  {
    forall j: nat | j < |groups| && Disagrees(groups[j]) ensures HasRevision(more, ids, groups, j) {
      if j < |groups| - 1 {
        assert groups[..|groups| - 1][j] == groups[j];
        var x :| 0 <= x < |found| && IsRevision(found[x], ids, groups[..|groups| - 1], j);
        SameRevision(found[x], ids, groups, j);
        assert more[x] == found[x];
      }
    }
  }

  /** A conflict for each recorded pair of entities, in order, and then those of revisions. */
  ghost predicate FindingsMean(findings: seq<Finding>, ids: Ids, groups: seq<seq<Mention>>, pairs: seq<Conflicts.Pair>,
      listing: Listing)
  {
    && |pairs| <= |findings|
    && (forall x: nat :: x < |pairs| ==> IsIdentity(findings[x], ids, groups, pairs[x], listing(x)))
    && AreRevisions(findings[|pairs|..], ids, groups)
  }

  ghost predicate IsIdentity(f: Finding, ids: Ids, groups: seq<seq<Mention>>, p: Conflicts.Pair, l: (nat, nat)) {
    && p.0 < |groups| && p.1 < |groups|
    && f.payload == ConflictBetween(Identity, Key(Entity, ids.entity(p.0)), Key(Entity, ids.entity(p.1)))
    && f.left == Start(groups, p.0) + l.0 && f.right == Start(groups, p.1) + l.1
  }

  lemma FindingsAreMeant(ids: Ids, groups: seq<seq<Mention>>, listing: Listing)
    ensures FindingsMean(Findings(ids, groups, listing), ids, groups, Conflicts.IdentityPairs(Signals(groups)), listing)
  {
    SignalIdsAreGroups(groups);
    RevisionsMean(ids, groups);
    FindingsJoin(ids, groups, Conflicts.IdentityPairs(Signals(groups)), listing, RevisionFindings(ids, groups));
  }

  lemma FindingsJoin(ids: Ids, groups: seq<seq<Mention>>, pairs: seq<Conflicts.Pair>, listing: Listing,
      more: seq<Finding>)
    requires (forall p :: p in pairs ==> p.0 < |groups| && p.1 < |groups|) && AreRevisions(more, ids, groups)
    ensures FindingsMean(IdentityFindings(ids, groups, pairs, listing) + more, ids, groups, pairs, listing)
  {
    var found := IdentityFindings(ids, groups, pairs, listing);
    var findings := found + more;
    assert |found| == |pairs| && findings[|pairs|..] == more;
    forall x: nat | x < |pairs| ensures IsIdentity(findings[x], ids, groups, pairs[x], listing(x)) {
      IdentityAt(ids, groups, pairs, listing, x);
      assert findings[x] == found[x];
    }
  }

  // ---- the signals -------------------------------------------------------------------------

  /** Every entity of kind "signal" is a signal, with its texts that are not empty. */
  lemma {:induction false} SignalsOutcome(groups: seq<seq<Mention>>)
    ensures forall s :: s in Signals(groups) <==> IsSignalOf(s, groups)
  {
    if groups != [] {
      var last := |groups| - 1;
      SignalsOutcome(groups[..last]);
      forall s: Conflicts.Signal ensures s in Signals(groups) <==> IsSignalOf(s, groups) {
        OneMoreSignal(groups, s);
      }
    }
  }

  lemma OneMoreSignal(groups: seq<seq<Mention>>, s: Conflicts.Signal)
    requires groups != [] && (s in Signals(groups[..|groups| - 1]) <==> IsSignalOf(s, groups[..|groups| - 1]))
    ensures s in Signals(groups) <==> IsSignalOf(s, groups)
  {
    var last := |groups| - 1;
    var before := groups[..last];
    assert s.id < last ==> before[s.id] == groups[s.id];
    if groups[last] == [] {
      assert Signals(groups) == Signals(before);
    } else {
      LastSignal(CanonicalOf(groups[last]), last, s);
    }
  }

  lemma LastSignal(e: Canonical, id: nat, s: Conflicts.Signal)
    ensures s.id == id && IsSignal(s, e) <==>
            e.kind == "signal" && s == Conflicts.Signal(id, e.name, TextAttribute(e, "comment"),
                TextAttribute(e, "address"))
  {
  }

  ghost predicate IsSignalOf(s: Conflicts.Signal, groups: seq<seq<Mention>>) {
    s.id < |groups| && groups[s.id] != [] && IsSignal(s, CanonicalOf(groups[s.id]))
  }

  ghost predicate IsSignal(s: Conflicts.Signal, e: Canonical) {
    && e.kind == "signal" && s.name == e.name
    && IsTextOf(e, "comment", s.comment) && IsTextOf(e, "address", s.address)
  }

  ghost predicate IsTextOf(e: Canonical, key: string, text: Option<string>) {
    && (text.Some? ==> key in e.attributes && e.attributes[key] == Text(text.value) && text.value != "")
    && (text.None? ==> key !in e.attributes || !e.attributes[key].Text? || e.attributes[key].text == "")
  }

  // ---- the whole ---------------------------------------------------------------------------

  /** A resolution leaves a candidate for every grouped mention, an entity for every group, a
      conflict for every recorded pair and for every group that disagrees about a revision,
      each bound to its own locators, and nothing else. */
  lemma ResolutionOutcome(g: G, c: Context, ids: Ids, mentions: seq<Mention>, listing: Listing)
    requires Inv(g) && HasPackage(g, c.tenant, c.package) && Unused(g, ids) && Listed(mentions, listing)
    ensures var h, groups := PerformAll(g, c, Plan(ids, mentions, listing)), Groups(mentions);
            exists findings ::
              && FindingsMean(findings, ids, groups, Pairs(mentions), listing)
              && GroupsStand(h, c, ids, groups) && FindingsStand(h, c, ids, findings)
              && NothingElse(g, h, ids, |Flatten(groups)|, |groups|, |findings|)
  {
    var groups, plan := Groups(mentions), Plan(ids, mentions, listing);
    PlanIsWellPlanned(g, ids, mentions, listing);
    PlanHasParts(ids, mentions, groups, listing);
    FindingsAreMeant(ids, groups, listing);
    PartsAreAll(ids, Flatten(groups), groups, Findings(ids, groups, listing), plan);
    PartsStand(g, c, ids, groups, Findings(ids, groups, listing), plan);
  }
}
