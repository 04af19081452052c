/** The writes of one resolution, computed from its sorted mentions, and the loops
    that make them (`resolve_package_identities`, `_persist_resolution`). */
module ResolverPlan {
  import opened Wrappers
  import opened Lists
  import opened EvidenceGraph
  import opened EvidenceStore
  import opened Resolution
  import opened Promotion
  import opened ResolverRun
  import Conflicts

  /** A supply of ids, one numbering for each table. */
  datatype Ids = Ids(evidence: nat -> EvidenceId, candidate: nat -> RowId, entity: nat -> RowId, conflict: nat -> RowId)

  ghost predicate Injective(f: nat -> nat) {
    forall i, j :: f(i) == f(j) ==> i == j
  }

  ghost predicate Unused(g: G, ids: Ids) {
    && AllInjective(ids)
    && (forall i :: ids.evidence(i) !in g.evidence)
    && (forall i :: Unseen(g, Key(EntityCandidate, ids.candidate(i))))
    && (forall i :: Unseen(g, Key(Entity, ids.entity(i))))
    && (forall i :: Unseen(g, Key(Conflict, ids.conflict(i))))
  }

  // ---- the plan ----------------------------------------------------------------------

  /** Where a group begins in the numbering of all grouped mentions. */
  function Start(groups: seq<seq<Mention>>, j: nat): nat
    requires j <= |groups|
  {
    |Flatten(groups[..j])|
  }

  function StoredOf(ids: Ids, groups: seq<seq<Mention>>, j: nat): seq<Stored>
    requires j < |groups|
  {
    seq(|groups[j]|, t requires 0 <= t =>
        Stored(ids.candidate(Start(groups, j) + t), ids.evidence(Start(groups, j) + t)))
  }

  function Notes(ids: Ids, mentions: seq<Mention>): seq<Act> {
    seq(|mentions|, n requires 0 <= n < |mentions| => Note(ids.evidence(n), ids.candidate(n), mentions[n]))
  }

  function Unites(ids: Ids, groups: seq<seq<Mention>>): seq<Act>
    requires forall j :: 0 <= j < |groups| ==> groups[j] != []
  {
    seq(|groups|, j requires 0 <= j < |groups| && groups[j] != [] =>
        Unite(ids.entity(j), CanonicalOf(groups[j]), StoredOf(ids, groups, j)))
  }

  function TextAttribute(e: Canonical, key: string): Option<string> {
    if key in e.attributes && e.attributes[key].Text? && e.attributes[key].text != ""
        then Some(e.attributes[key].text) else None
  }

  /** The canonical signals, with the place of their group as id. */
  function Signals(groups: seq<seq<Mention>>): seq<Conflicts.Signal> {
    if groups == [] then []
    else
      var j := |groups| - 1;
      var before := Signals(groups[..j]);
      if groups[j] == [] then before
      else
        var e := CanonicalOf(groups[j]);
        if e.kind == "signal"
        then before + [Conflicts.Signal(j, e.name, TextAttribute(e, "comment"), TextAttribute(e, "address"))]
        else before
  }

  /** A conflict to record: its ends, and one locator number for each. */
  datatype Finding = Finding(payload: Payload, left: nat, right: nat)

  /** Which of an entity's locators the database lists first, for each identity conflict. */
  type Listing = nat -> (nat, nat)

  function IdentityFindings(ids: Ids, groups: seq<seq<Mention>>, pairs: seq<Conflicts.Pair>, listing: Listing)
    : seq<Finding>
    requires forall p :: p in pairs ==> p.0 < |groups| && p.1 < |groups|
  {
    seq(|pairs|, x requires 0 <= x < |pairs| =>
      Finding(ConflictBetween(Identity, Key(Entity, ids.entity(pairs[x].0)), Key(Entity, ids.entity(pairs[x].1))),
              Start(groups, pairs[x].0) + listing(x).0, Start(groups, pairs[x].1) + listing(x).1))
  }

  function RevisionFindings(ids: Ids, groups: seq<seq<Mention>>): seq<Finding> {
    if groups == [] then []
    else
      var j := |groups| - 1;
      var before, pair := RevisionFindings(ids, groups[..j]), Conflicts.RevisionPair(groups[j]);
      if pair.None? then before
      else
        var left, right := Start(groups, j) + pair.value.0, Start(groups, j) + pair.value.1;
        var ends := ConflictBetween(Clash.Revision, Key(EntityCandidate, ids.candidate(left)),
                                    Key(EntityCandidate, ids.candidate(right)));
        before + [Finding(ends, left, right)]
  }

  function Flags(ids: Ids, findings: seq<Finding>): seq<Act> {
    seq(|findings|, x requires 0 <= x < |findings| => FlagOf(ids, x, findings[x]))
  }

  function FlagOf(ids: Ids, x: nat, f: Finding): Act {
    Flag(ids.conflict(x), f.payload, [ids.evidence(f.left), ids.evidence(f.right)])
  }

  ghost predicate ListsLocators(groups: seq<seq<Mention>>, pairs: seq<Conflicts.Pair>, listing: Listing) {
    forall x :: 0 <= x < |pairs| && pairs[x].0 < |groups| && pairs[x].1 < |groups| ==>
      listing(x).0 < |groups[pairs[x].0]| && listing(x).1 < |groups[pairs[x].1]|
  }

  function Findings(ids: Ids, groups: seq<seq<Mention>>, listing: Listing): seq<Finding>
  {
    SignalIdsAreGroups(groups);
    IdentityFindings(ids, groups, Conflicts.IdentityPairs(Signals(groups)), listing) + RevisionFindings(ids, groups)
  }

  function Plan(ids: Ids, mentions: seq<Mention>, listing: Listing): seq<Act> {
    var groups := Groups(mentions);
    GroupsHaveMentions(mentions);
    Notes(ids, Flatten(groups)) + Unites(ids, groups) + Flags(ids, Findings(ids, groups, listing))
  }

  // ---- the plan is sound ---------------------------------------------------------------

  lemma GroupsHaveMentions(mentions: seq<Mention>)
    ensures forall j :: 0 <= j < |Groups(mentions)| ==>
              OneGroup(Groups(mentions)[j]) && KeyOf(Groups(mentions)[j][0]) == FirstSeen(mentions)[j]
  {
    FirstSeenKeys(mentions);
    forall j | 0 <= j < |Groups(mentions)|
      ensures OneGroup(Groups(mentions)[j]) && KeyOf(Groups(mentions)[j][0]) == FirstSeen(mentions)[j]
    {
      var k, group := FirstSeen(mentions)[j], Groups(mentions)[j];
      SelectMembers(mentions, k);
      assert k in FirstSeen(mentions);
      var m :| m in mentions && Named(m) && KeyOf(m) == k;
      assert m in group && group[0] in group;
    }
  }

  lemma {:induction false} SignalMembers(groups: seq<seq<Mention>>)
    ensures forall s :: s in Signals(groups) ==>
              && s.id < |groups| && groups[s.id] != []
              && CanonicalOf(groups[s.id]).kind == "signal" && CanonicalOf(groups[s.id]).name == s.name
    ensures forall i, j :: 0 <= i < j < |Signals(groups)| ==> Signals(groups)[i].id < Signals(groups)[j].id
  {
    if groups != [] { SignalMembers(groups[..|groups| - 1]); }
  }

  /** The signals of one resolution have distinct names, so the conflict rules apply. */
  lemma SignalsAreDistinct(mentions: seq<Mention>)
    ensures Conflicts.DistinctSignals(Signals(Groups(mentions)))
  {
    var groups := Groups(mentions);
    var signals := Signals(groups);
    SignalMembers(groups);
    GroupsHaveMentions(mentions);
    FirstSeenKeys(mentions);
    forall i, j | 0 <= i < j < |signals| ensures signals[i].name != signals[j].name && signals[i].id != signals[j].id {
      assert signals[i] in signals && signals[j] in signals;
      EntityRepresentsItsGroup(groups[signals[i].id]);
      EntityRepresentsItsGroup(groups[signals[j].id]);
    }
  }

  /** Identity conflicts are between entities of the run. */
  lemma {:induction false} SignalIdsAreGroups(groups: seq<seq<Mention>>)
    ensures forall p :: p in Conflicts.IdentityPairs(Signals(groups)) ==> p.0 < |groups| && p.1 < |groups|
  {
    SignalMembers(groups);
    forall p | p in Conflicts.IdentityPairs(Signals(groups)) ensures p.0 < |groups| && p.1 < |groups| {
      Conflicts.PairIdsAreSignals(Signals(groups), p);
    }
  }

  lemma {:induction false} StartInside(groups: seq<seq<Mention>>, j: nat, t: nat)
    requires j < |groups| && t < |groups[j]|
    ensures Start(groups, j) + t < |Flatten(groups)| && Flatten(groups)[Start(groups, j) + t] == groups[j][t]
  {
    var last := |groups| - 1;
    assert groups[..last][..j] == groups[..j];
    if j < last {
      StartInside(groups[..last], j, t);
    }
  }

  ghost predicate WithinRun(findings: seq<Finding>, size: nat) {
    forall x :: 0 <= x < |findings| ==> findings[x].left < size && findings[x].right < size
  }

  lemma {:induction false} RevisionsWithinRun(ids: Ids, groups: seq<seq<Mention>>)
    ensures WithinRun(RevisionFindings(ids, groups), |Flatten(groups)|)
  {
    if groups != [] {
      var j := |groups| - 1;
      RevisionsWithinRun(ids, groups[..j]);
      var pair := Conflicts.RevisionPair(groups[j]);
      if pair.Some? {
        StartInside(groups, j, pair.value.0);
        StartInside(groups, j, pair.value.1);
      }
    }
  }

  lemma FindingsWithinRun(ids: Ids, groups: seq<seq<Mention>>, listing: Listing)
    requires ListsLocators(groups, Conflicts.IdentityPairs(Signals(groups)), listing)
    ensures WithinRun(Findings(ids, groups, listing), |Flatten(groups)|)
  {
    SignalIdsAreGroups(groups);
    var pairs := Conflicts.IdentityPairs(Signals(groups));
    var found := IdentityFindings(ids, groups, pairs, listing);
    forall x | 0 <= x < |found| ensures found[x].left < |Flatten(groups)| && found[x].right < |Flatten(groups)| {
      assert pairs[x] in pairs;
      StartInside(groups, pairs[x].0, listing(x).0);
      StartInside(groups, pairs[x].1, listing(x).1);
    }
    RevisionsWithinRun(ids, groups);
  }

  lemma NotedAt(ids: Ids, mentions: seq<Mention>, acts: seq<Act>, n: nat)
    requires n < |mentions| <= |acts| && acts[..|mentions|] == Notes(ids, mentions)
    ensures Noted(acts, ids.evidence(n), ids.candidate(n)) && Located(acts, ids.evidence(n))
  {
    assert acts[n] == acts[..|mentions|][n];
    assert acts[n] in acts;
  }

  /** Every write of a resolution fits those before it: its ids are its own, and it
      cites only locators that were recorded for it. */
  lemma PlanIsWellPlanned(g: G, ids: Ids, mentions: seq<Mention>, listing: Listing)
    requires Unused(g, ids)
    requires ListsLocators(Groups(mentions), Conflicts.IdentityPairs(Signals(Groups(mentions))), listing)
    ensures WellPlanned(Plan(ids, mentions, listing)) && forall a :: a in Plan(ids, mentions, listing) ==> NewTo(g, a)
  {
    var groups := Groups(mentions);
    GroupsHaveMentions(mentions);
    FindingsWithinRun(ids, groups, listing);
    PartsFit(ids, groups, Findings(ids, groups, listing));
    PartsAreNew(g, ids, groups, Findings(ids, groups, listing));
  }

  lemma PartsAreNew(g: G, ids: Ids, groups: seq<seq<Mention>>, findings: seq<Finding>)
    requires Unused(g, ids) && forall j :: 0 <= j < |groups| ==> groups[j] != []
    ensures forall a :: a in Notes(ids, Flatten(groups)) + Unites(ids, groups) + Flags(ids, findings) ==> NewTo(g, a)
  {
    forall a | a in Unites(ids, groups) ensures NewTo(g, a) {
      var j :| 0 <= j < |groups| && Unites(ids, groups)[j] == a;
    }
  }

  ghost predicate AllInjective(ids: Ids) {
    Injective(ids.evidence) && Injective(ids.candidate) && Injective(ids.entity) && Injective(ids.conflict)
  }

  lemma PartsFit(ids: Ids, groups: seq<seq<Mention>>, findings: seq<Finding>)
    requires AllInjective(ids) && WithinRun(findings, |Flatten(groups)|)
             && forall j :: 0 <= j < |groups| ==> groups[j] != []
    ensures WellPlanned(Notes(ids, Flatten(groups)) + Unites(ids, groups) + Flags(ids, findings))
  {
    var flat := Flatten(groups);
    var notes, unites, flags := Notes(ids, flat), Unites(ids, groups), Flags(ids, findings);
    var acts := notes + unites + flags;
    assert acts[..|flat|] == notes;
    forall i | 0 <= i < |acts| ensures Fits(acts[..i], acts[i]) {
      AllDiffer(ids, notes, unites, flags, i);
      if |notes| <= i < |notes| + |unites| {
        UniteFits(ids, groups, acts, i);
      } else if i >= |notes| + |unites| {
        FlagFits(ids, flat, findings, acts, i, i - |notes| - |unites|);
      }
    }
  }

  lemma StoredIsNoted(ids: Ids, groups: seq<seq<Mention>>, acts: seq<Act>, j: nat)
    requires j < |groups| && |Flatten(groups)| <= |acts| && acts[..|Flatten(groups)|] == Notes(ids, Flatten(groups))
    ensures forall s :: s in StoredOf(ids, groups, j) ==> Noted(acts, s.evidence, s.candidate)
  {
    var stored := StoredOf(ids, groups, j);
    forall s | s in stored ensures Noted(acts, s.evidence, s.candidate) {
      var t :| 0 <= t < |stored| && stored[t] == s;
      StartInside(groups, j, t);
      NotedAt(ids, Flatten(groups), acts, Start(groups, j) + t);
    }
  }

  lemma UniteFits(ids: Ids, groups: seq<seq<Mention>>, acts: seq<Act>, i: nat)
    requires |Flatten(groups)| <= i < |Flatten(groups)| + |groups| && i < |acts|
    requires acts[..|Flatten(groups)|] == Notes(ids, Flatten(groups))
             && forall j :: 0 <= j < |groups| ==> groups[j] != []
    requires acts[i] == Unites(ids, groups)[i - |Flatten(groups)|]
    ensures acts[i].stored != [] && forall s :: s in acts[i].stored ==> Noted(acts[..i], s.evidence, s.candidate)
  {
    var j := i - |Flatten(groups)|;
    assert acts[i].stored == StoredOf(ids, groups, j) && |StoredOf(ids, groups, j)| == |groups[j]|;
    assert acts[..i][..|Flatten(groups)|] == acts[..|Flatten(groups)|];
    StoredIsNoted(ids, groups, acts[..i], j);
  }

  lemma FlagFits(ids: Ids, flat: seq<Mention>, findings: seq<Finding>, acts: seq<Act>, i: nat, x: nat)
    requires |flat| <= i < |acts| && acts[..|flat|] == Notes(ids, flat) && WithinRun(findings, |flat|)
    requires x < |findings| && acts[i] == Flags(ids, findings)[x]
    ensures acts[i].cited != [] && forall e :: e in acts[i].cited ==> Located(acts[..i], e)
  {
    assert acts[..i][..|flat|] == acts[..|flat|];
    NotedAt(ids, flat, acts[..i], findings[x].left);
    NotedAt(ids, flat, acts[..i], findings[x].right);
  }

  lemma AllDiffer(ids: Ids, notes: seq<Act>, unites: seq<Act>, flags: seq<Act>, i: nat)
    requires Injective(ids.evidence) && Injective(ids.candidate) && Injective(ids.entity) && Injective(ids.conflict)
    requires forall n :: 0 <= n < |notes| ==>
             notes[n].Note? && notes[n].evidence == ids.evidence(n) && notes[n].candidate == ids.candidate(n)
    requires forall n :: 0 <= n < |unites| ==> unites[n].Unite? && unites[n].entity == ids.entity(n)
    requires forall n :: 0 <= n < |flags| ==> flags[n].Flag? && flags[n].conflict == ids.conflict(n)
    requires i < |notes| + |unites| + |flags|
    ensures var acts := notes + unites + flags; forall a :: a in acts[..i] ==> Differ(a, acts[i])
  {
    var acts := notes + unites + flags;
    forall a | a in acts[..i] ensures Differ(a, acts[i]) {
      var k :| 0 <= k < i && acts[k] == a;
      ActsDiffer(ids, notes, unites, flags, k, i);
    }
  }

  lemma ActsDiffer(ids: Ids, notes: seq<Act>, unites: seq<Act>, flags: seq<Act>, k: nat, i: nat)
    requires Injective(ids.evidence) && Injective(ids.candidate) && Injective(ids.entity) && Injective(ids.conflict)
    requires forall n :: 0 <= n < |notes| ==>
             notes[n].Note? && notes[n].evidence == ids.evidence(n) && notes[n].candidate == ids.candidate(n)
    requires forall n :: 0 <= n < |unites| ==> unites[n].Unite? && unites[n].entity == ids.entity(n)
    requires forall n :: 0 <= n < |flags| ==> flags[n].Flag? && flags[n].conflict == ids.conflict(n)
    requires k < i < |notes| + |unites| + |flags|
    ensures Differ((notes + unites + flags)[k], (notes + unites + flags)[i])
  {
  }

  // ---- the loops -------------------------------------------------------------------------

  /** One write through the tables. */
  method Write(store: Store<Payload>, c: Context, act: Act)
    requires HasPackage(store.State(), c.tenant, c.package) && Possible(store.State(), c, act)
    modifies store
    ensures store.State() == Perform(old(store.State()), c, act)
  {
    match act
    case Note(e, k, m) =>
      store.RecordEvidence(e, Evidence(c.tenant, c.document));
      var r := store.Create(Key(EntityCandidate, k), CandidateRow(c, m), [e]);
      assert r.Ok?;
    case Unite(entity, canonical, stored) =>
      assert EvidenceIds(stored) != [];
      var r := store.Promote(entity, ResolverRow(c, EntityOf(canonical)), stored);
      assert r.Ok?;
    case Flag(x, payload, cited) =>
      var r := store.Create(Key(Conflict, x), ResolverRow(c, payload), cited);
      assert r.Ok?;
  }

  /** From `g`, the writes of the plan go through one after the other. */
  ghost predicate Planned(g: G, c: Context, plan: seq<Act>) {
    forall n :: 0 <= n < |plan| ==> GoesThrough(g, c, plan, n)
  }

  ghost predicate GoesThrough(g: G, c: Context, plan: seq<Act>, n: nat)
    requires n < |plan|
  {
    var h := PerformAll(g, c, plan[..n]);
    && HasPackage(h, c.tenant, c.package) && Possible(h, c, plan[n])
    && PerformAll(g, c, plan[..n + 1]) == Perform(h, c, plan[n])
  }

  lemma PlansGoThrough(g: G, c: Context, plan: seq<Act>)
    requires Inv(g) && HasPackage(g, c.tenant, c.package) && WellPlanned(plan) && forall a :: a in plan ==> NewTo(g, a)
    ensures Planned(g, c, plan)
  {
    forall n | 0 <= n < |plan| ensures GoesThrough(g, c, plan, n) {
      NextWrite(g, c, plan, n);
    }
  }

  /** The next write of a plan. */
  method WriteNext(store: Store<Payload>, c: Context, act: Act, ghost g: G, ghost plan: seq<Act>, ghost n: nat)
    requires n < |plan| && plan[n] == act && GoesThrough(g, c, plan, n) && store.State() == PerformAll(g, c, plan[..n])
    modifies store
    ensures store.State() == PerformAll(g, c, plan[..n + 1])
  {
    Write(store, c, act);
  }

  ghost predicate CandidatesPlanned(ids: Ids, flat: seq<Mention>, plan: seq<Act>) {
    |flat| <= |plan| && forall n :: 0 <= n < |flat| ==> plan[n] == Note(ids.evidence(n), ids.candidate(n), flat[n])
  }

  ghost predicate EntitiesPlanned(ids: Ids, groups: seq<seq<Mention>>, plan: seq<Act>, done: nat) {
    && done + |groups| <= |plan|
    && forall j :: 0 <= j < |groups| ==>
      groups[j] != [] && plan[done + j] == Unite(ids.entity(j), CanonicalOf(groups[j]), StoredOf(ids, groups, j))
  }

  ghost predicate ConflictsPlanned(ids: Ids, findings: seq<Finding>, plan: seq<Act>, done: nat) {
    && done + |findings| <= |plan|
    && forall x :: 0 <= x < |findings| ==> plan[done + x] == FlagOf(ids, x, findings[x])
  }

  /** A candidate for every mention, each with a locator of its own. */
  method WriteCandidates(store: Store<Payload>, c: Context, ids: Ids, flat: seq<Mention>, ghost g: G,
      ghost plan: seq<Act>)
    requires Planned(g, c, plan) && store.State() == g
    requires CandidatesPlanned(ids, flat, plan)
    modifies store
    ensures store.State() == PerformAll(g, c, plan[..|flat|])
  {
    for n := 0 to |flat|
      invariant store.State() == PerformAll(g, c, plan[..n])
    {
      WriteNext(store, c, Note(ids.evidence(n), ids.candidate(n), flat[n]), g, plan, n);
    }
  }

  /** An entity for every group. */
  method WriteEntities(store: Store<Payload>, c: Context, ids: Ids, groups: seq<seq<Mention>>, ghost g: G,
      ghost plan: seq<Act>, ghost done: nat)
    requires Planned(g, c, plan) && EntitiesPlanned(ids, groups, plan, done)
             && store.State() == PerformAll(g, c, plan[..done])
    modifies store
    ensures store.State() == PerformAll(g, c, plan[..done + |groups|])
  {
    for j := 0 to |groups|
      invariant store.State() == PerformAll(g, c, plan[..done + j])
    {
      var canonical := PromoteGroup(groups[j]);
      WriteNext(store, c, Unite(ids.entity(j), canonical, StoredOf(ids, groups, j)), g, plan, done + j);
    }
  }

  method WriteConflicts(store: Store<Payload>, c: Context, ids: Ids, findings: seq<Finding>, ghost g: G,
      ghost plan: seq<Act>, ghost done: nat)
    requires Planned(g, c, plan) && ConflictsPlanned(ids, findings, plan, done)
             && store.State() == PerformAll(g, c, plan[..done])
    modifies store
    ensures store.State() == PerformAll(g, c, plan[..done + |findings|])
  {
    for x := 0 to |findings|
      invariant store.State() == PerformAll(g, c, plan[..done + x])
    {
      WriteNext(store, c, FlagOf(ids, x, findings[x]), g, plan, done + x);
    }
  }

  /** Where the three parts of a plan lie. */
  lemma PlanLayout(ids: Ids, flat: seq<Mention>, unites: seq<Act>, groups: seq<seq<Mention>>, findings: seq<Finding>)
    requires (forall j :: 0 <= j < |groups| ==> groups[j] != []) && unites == Unites(ids, groups)
    ensures var plan := Notes(ids, flat) + unites + Flags(ids, findings);
            && |plan| == |flat| + |groups| + |findings|
            && CandidatesPlanned(ids, flat, plan)
            && EntitiesPlanned(ids, groups, plan, |flat|)
            && ConflictsPlanned(ids, findings, plan, |flat| + |groups|)
  {
    var notes, flags := Notes(ids, flat), Flags(ids, findings);
    var plan := notes + unites + flags;
    forall n | 0 <= n < |flat| ensures plan[n] == Note(ids.evidence(n), ids.candidate(n), flat[n]) {
      assert plan[n] == notes[n];
    }
    EntitiesLayout(ids, groups, notes, unites, flags);
    forall x | 0 <= x < |findings| ensures plan[|flat| + |groups| + x] == flags[x] {
    }
  }

  lemma EntitiesLayout(ids: Ids, groups: seq<seq<Mention>>, notes: seq<Act>, unites: seq<Act>, flags: seq<Act>)
    requires (forall j :: 0 <= j < |groups| ==> groups[j] != []) && unites == Unites(ids, groups)
    ensures EntitiesPlanned(ids, groups, notes + unites + flags, |notes|)
  {
    forall j | 0 <= j < |groups|
      ensures (notes + unites + flags)[|notes| + j]
              == Unite(ids.entity(j), CanonicalOf(groups[j]), StoredOf(ids, groups, j))
    {
      assert (notes + unites + flags)[|notes| + j] == unites[j];
    }
  }

  lemma PlanParts(ids: Ids, mentions: seq<Mention>, listing: Listing)
    ensures var groups, plan := Groups(mentions), Plan(ids, mentions, listing);
            var flat, findings := Flatten(groups), Findings(ids, groups, listing);
            && CandidatesPlanned(ids, flat, plan)
            && EntitiesPlanned(ids, groups, plan, |flat|)
            && ConflictsPlanned(ids, findings, plan, |flat| + |groups|)
            && |plan| == |flat| + |groups| + |findings|
  {
    var groups := Groups(mentions);
    GroupsHaveMentions(mentions);
    PlanLayout(ids, Flatten(groups), Unites(ids, groups), groups, Findings(ids, groups, listing));
  }

  /** `_record_identity_conflicts`: what is recorded, identities first. */
  method CollectFindings(ids: Ids, groups: seq<seq<Mention>>, listing: Listing) returns (findings: seq<Finding>)
    ensures findings == Findings(ids, groups, listing)
  {
    var pairs := Conflicts.IdentityConflicts(Signals(groups));
    SignalIdsAreGroups(groups);
    findings := IdentityFindings(ids, groups, pairs, listing) + RevisionFindings(ids, groups);
  }

  method WriteSubjects(
    store: Store<Payload>, c: Context, ids: Ids, flat: seq<Mention>, groups: seq<seq<Mention>>, ghost g: G,
    ghost plan: seq<Act>)
    requires Planned(g, c, plan) && store.State() == g
    requires CandidatesPlanned(ids, flat, plan) && EntitiesPlanned(ids, groups, plan, |flat|)
    modifies store
    ensures store.State() == PerformAll(g, c, plan[..|flat| + |groups|])
  {
    WriteCandidates(store, c, ids, flat, g, plan);
    WriteEntities(store, c, ids, groups, g, plan, |flat|);
  }

  method WriteParts(
    store: Store<Payload>, c: Context, ids: Ids, flat: seq<Mention>, groups: seq<seq<Mention>>, findings: seq<Finding>,
    ghost g: G, ghost plan: seq<Act>)
    requires Planned(g, c, plan) && store.State() == g
    requires |plan| == |flat| + |groups| + |findings|
    requires CandidatesPlanned(ids, flat, plan) && EntitiesPlanned(ids, groups, plan, |flat|)
    requires ConflictsPlanned(ids, findings, plan, |flat| + |groups|)
    modifies store
    ensures store.State() == PerformAll(g, c, plan)
  {
    assert plan == plan[..|flat| + |groups| + |findings|];
    WriteSubjects(store, c, ids, flat, groups, g, plan);
    WriteConflicts(store, c, ids, findings, g, plan, |flat| + |groups|);
  }

  /** `_persist_resolution`: candidates with their evidence, then one entity for each
      group, then identity conflicts, then revision conflicts. */
  method PersistResolution(store: Store<Payload>, c: Context, ids: Ids, mentions: seq<Mention>, listing: Listing)
    requires Planned(store.State(), c, Plan(ids, mentions, listing))
    modifies store
    ensures store.State() == PerformAll(old(store.State()), c, Plan(ids, mentions, listing))
  {
    ghost var plan, g := Plan(ids, mentions, listing), store.State();
    PlanParts(ids, mentions, listing);
    var keys, groups := GroupMentions(mentions);
    var findings := CollectFindings(ids, groups, listing);
    WriteParts(store, c, ids, Flatten(groups), groups, findings, g, plan);
  }

  lemma ClearFreesNothingNew(g: G, c: Context, ids: Ids)
    requires Unused(g, ids)
    ensures Unused(Cleared(g, c.tenant, c.package, METHODS), ids)
  {
  }

  /** `resolve_package_identities`: an incomplete or empty archive changes nothing;
      otherwise the package's earlier identities are replaced. */
  method ResolvePackage(store: Store<Payload>, c: Context, ids: Ids, members: seq<Member>, src: Sources,
      extract: Extractor, listing: Listing)
    returns (r: Result<(), Fault>)
    requires Inv(store.State()) && HasPackage(store.State(), c.tenant, c.package) && Unused(store.State(), ids)
    requires forall mentions :: SortedMentions(members, src, extract) == Some(mentions) ==>
               ListsLocators(Groups(mentions), Conflicts.IdentityPairs(Signals(Groups(mentions))), listing)
    modifies store
    ensures match SortedMentions(members, src, extract)
            case None => r.Ok? && store.State() == old(store.State())
            case Some(mentions) =>
              if mentions == [] then r.Ok? && store.State() == old(store.State())
              else if ClearRefused(old(store.State()), c.tenant, c.package, METHODS)
                  then r.Err? && store.State() == old(store.State())
              else
                && r.Ok? && Inv(store.State())
                && store.State() == PerformAll(Cleared(old(store.State()), c.tenant, c.package, METHODS), c,
                     Plan(ids, mentions, listing))
  {
    var mentions := MentionsForMembers(members, src, extract);
    if mentions.None? || mentions.value == [] {
      return Ok(());
    }
    ghost var g := store.State();
    r := store.ClearPackageIdentities(c.tenant, c.package, METHODS);
    if r.Ok? {
      ClearKeepsInv(g, c.tenant, c.package, METHODS);
      ClearFreesNothingNew(g, c, ids);
      ghost var start := store.State();
      PlanIsWellPlanned(start, ids, mentions.value, listing);
      PlansGoThrough(start, c, Plan(ids, mentions.value, listing));
      PersistResolution(store, c, ids, mentions.value, listing);
      PlannedRun(start, c, Plan(ids, mentions.value, listing));
    }
  }

  /** Resolving the same mentions again, with other ids, leaves exactly the graph that
      resolving once with those ids would have left. */
  lemma ResolvingAgainReplaces(g: G, c: Context, first: Ids, second: Ids, mentions: seq<Mention>, listing: Listing,
      again: Listing)
    requires Inv(g) && HasPackage(g, c.tenant, c.package) && !ClearRefused(g, c.tenant, c.package, METHODS)
             && Unused(g, first)
    requires ListsLocators(Groups(mentions), Conflicts.IdentityPairs(Signals(Groups(mentions))), listing)
    ensures var start := Cleared(g, c.tenant, c.package, METHODS);
            var once := PerformAll(start, c, Plan(first, mentions, listing));
            && !ClearRefused(once, c.tenant, c.package, METHODS)
            && PerformAll(Cleared(once, c.tenant, c.package, METHODS), c, Plan(second, mentions, again))
            == PerformAll(start, c, Plan(second, mentions, again))
  {
    ClearFreesNothingNew(g, c, first);
    PlanIsWellPlanned(Cleared(g, c.tenant, c.package, METHODS), first, mentions, listing);
    RerunReplaces(g, c, Plan(first, mentions, listing), Plan(second, mentions, again));
  }
}
