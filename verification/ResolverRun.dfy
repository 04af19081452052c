/** What the resolver writes for a package, and what running it again leaves
    (`_persist_resolution` after `clear_package_identities`). */
module ResolverRun {
  import opened Wrappers
  import opened Identifiers
  import opened EvidenceGraph
  import opened Resolution
  import opened Promotion

  datatype Clash = Identity | Revision

  datatype Payload =
    | CandidateOf(mention: Mention)
    | EntityOf(entity: Canonical)
    | ConflictBetween(clash: Clash, left: Key, right: Key)
    | Elsewhere(code: int)

  type G = Graph<Payload>

  /** The package being resolved, and the archive document its evidence points at. */
  datatype Context = Context(tenant: TenantId, package: PackageId, document: DocumentId)

  const METHODS: set<string> := {RESOLVER_METHOD, EXTRACTOR_METHOD}

  function CandidateRow(c: Context, m: Mention): Row<Payload> {
    Row(c.tenant, c.package, EXTRACTOR_METHOD, None, None, None, None, "", [], CandidateOf(m))
  }

  function ResolverRow(c: Context, payload: Payload): Row<Payload> {
    Row(c.tenant, c.package, RESOLVER_METHOD, None, None, None, None, "", [], payload)
  }

  // ---- single writes --------------------------------------------------------------

  datatype Act =
    | Note(evidence: EvidenceId, candidate: RowId, mention: Mention)
    | Unite(entity: RowId, canonical: Canonical, stored: seq<Stored>)
    | Flag(conflict: RowId, payload: Payload, cited: seq<EvidenceId>)

  function Perform(g: G, c: Context, act: Act): G {
    match act
    case Note(e, k, m) =>
      Created(g.(evidence := g.evidence[e := Evidence(c.tenant, c.document)]), Key(EntityCandidate, k),
          CandidateRow(c, m), [e])
    case Unite(entity, canonical, stored) => Promoted(g, entity, ResolverRow(c, EntityOf(canonical)), stored)
    case Flag(x, payload, cited) => Created(g, Key(Conflict, x), ResolverRow(c, payload), cited)
  }

  function PerformAll(g: G, c: Context, acts: seq<Act>): G {
    if acts == [] then g else Perform(PerformAll(g, c, acts[..|acts| - 1]), c, acts[|acts| - 1])
  }

  /** What the write needs of the state it finds, besides the package. */
  predicate Possible(g: G, c: Context, act: Act) {
    match act
    case Note(e, k, m) => e !in g.evidence && Unseen(g, Key(EntityCandidate, k))
    case Unite(entity, canonical, stored) =>
      && Unseen(g, Key(Entity, entity)) && stored != []
      && EvidenceOf(g, c.tenant, EvidenceIds(stored)) && Promotable(g, ResolverRow(c, EntityOf(canonical)), stored)
    case Flag(x, payload, cited) => Unseen(g, Key(Conflict, x)) && cited != [] && EvidenceOf(g, c.tenant, cited)
  }

  lemma PerformKeepsInv(g: G, c: Context, act: Act)
    requires Inv(g) && HasPackage(g, c.tenant, c.package) && Possible(g, c, act)
    ensures Inv(Perform(g, c, act))
  {
    match act
    case Note(e, k, m) =>
      var h := g.(evidence := g.evidence[e := Evidence(c.tenant, c.document)]);
      RecordKeepsInv(g, e, Evidence(c.tenant, c.document));
      CreateKeepsInv(h, Key(EntityCandidate, k), CandidateRow(c, m), [e]);
    case Unite(entity, canonical, stored) =>
      assert EvidenceIds(stored) != [];
      PromoteKeepsInv(g, entity, ResolverRow(c, EntityOf(canonical)), stored);
    case Flag(x, payload, cited) =>
      CreateKeepsInv(g, Key(Conflict, x), ResolverRow(c, payload), cited);
  }

  // ---- a run adds to what was there -------------------------------------------------

  predicate IsOwn(c: Context, k: Key, row: Row<Payload>) {
    IsIdentity(k.kind) && row.tenant == c.tenant && row.package == c.package && row.producer in METHODS
  }

  /** `h` is `g` and, beside it, rows of the resolver, each bound to new locators only. */
  ghost predicate ExtendsRows(g: G, h: G, c: Context) {
    && h.packages == g.packages && h.plc == g.plc
    && (forall k :: k in g.rows ==> k in h.rows && h.rows[k] == g.rows[k])
    && (forall k :: k in h.rows && k !in g.rows ==> IsOwn(c, k, h.rows[k]) && Unseen(g, k))
  }

  ghost predicate ExtendsEvidence(g: G, h: G, c: Context) {
    && (forall e :: e in g.evidence ==> e in h.evidence && h.evidence[e] == g.evidence[e])
    && (forall e :: e in h.evidence && e !in g.evidence ==>
          h.evidence[e].tenant == c.tenant
          && exists b :: b in h.bindings && b !in g.bindings && b.evidence == e)
    && g.bindings <= h.bindings
    && (forall b :: b in h.bindings && b !in g.bindings ==>
          b.tenant == c.tenant && b.subject in h.rows && b.subject !in g.rows
          && b.evidence in h.evidence && b.evidence !in g.evidence)
  }

  ghost predicate Extends(g: G, h: G, c: Context) {
    ExtendsRows(g, h, c) && ExtendsEvidence(g, h, c)
  }

  /** The locators and candidates a write relies on were made in this run. */
  ghost predicate UsesOnlyNew(g: G, act: Act) {
    match act
    case Note(e, k, m) => e !in g.evidence && Unseen(g, Key(EntityCandidate, k))
    case Unite(entity, canonical, stored) =>
      && Unseen(g, Key(Entity, entity))
      && (forall s :: s in stored ==> s.evidence !in g.evidence && Key(EntityCandidate, s.candidate) !in g.rows)
    case Flag(x, payload, cited) => Unseen(g, Key(Conflict, x)) && forall e :: e in cited ==> e !in g.evidence
  }

  lemma PerformExtendsRows(g: G, h: G, c: Context, act: Act)
    requires ExtendsRows(g, h, c) && Possible(h, c, act) && UsesOnlyNew(g, act)
    ensures ExtendsRows(g, Perform(h, c, act), c)
  {
    var rows := Perform(h, c, act).rows;
    match act
    case Note(e, k, m) => assert rows == h.rows[Key(EntityCandidate, k) := CandidateRow(c, m)];
    case Unite(entity, canonical, stored) => LinkedRows(g, h, c, entity, canonical, stored);
    case Flag(x, payload, cited) => assert rows == h.rows[Key(Conflict, x) := ResolverRow(c, payload)];
  }

  /** Uniting changes candidates of the run and adds its entity. */
  lemma LinkedRows(g: G, h: G, c: Context, entity: RowId, canonical: Canonical, stored: seq<Stored>)
    requires ExtendsRows(g, h, c) && UsesOnlyNew(g, Unite(entity, canonical, stored))
    ensures ExtendsRows(g, Perform(h, c, Unite(entity, canonical, stored)), c)
  {
    var e, row := Key(Entity, entity), ResolverRow(c, EntityOf(canonical));
    var rows := Perform(h, c, Unite(entity, canonical, stored)).rows;
    assert forall k :: k in rows <==> k == e || k in h.rows;
    assert rows[e] == row;
    forall k | k in h.rows && k != e
      ensures rows[k].(canonical := None) == h.rows[k].(canonical := None) && (k in g.rows ==> rows[k] == h.rows[k])
    {
    }
  }

  lemma PerformExtendsEvidence(g: G, h: G, c: Context, act: Act)
    requires ExtendsRows(g, h, c) && ExtendsEvidence(g, h, c) && Possible(h, c, act) && UsesOnlyNew(g, act)
    ensures ExtendsEvidence(g, Perform(h, c, act), c)
  {
    var next := Perform(h, c, act);
    match act
    case Note(e, k, m) =>
      assert Binding(c.tenant, e, Key(EntityCandidate, k)) in next.bindings;
      MoreBound(g, h, next, c, [e], Key(EntityCandidate, k));
    case Unite(entity, canonical, stored) =>
      forall e | e in EvidenceIds(stored) ensures e in h.evidence && e !in g.evidence {
        var i :| 0 <= i < |stored| && e == EvidenceIds(stored)[i];
        assert stored[i] in stored;
      }
      MoreBound(g, h, next, c, EvidenceIds(stored), Key(Entity, entity));
    case Flag(x, payload, cited) =>
      MoreBound(g, h, next, c, cited, Key(Conflict, x));
  }

  /** One more subject, bound to new locators. */
  lemma MoreBound(g: G, h: G, next: G, c: Context, ids: seq<EvidenceId>, k: Key)
    requires ExtendsEvidence(g, h, c) && k !in g.rows && k in next.rows
    requires next.bindings == Bind(h.bindings, c.tenant, ids, k)
    requires forall x :: x in h.rows ==> x in next.rows
    requires forall e :: e in h.evidence ==> e in next.evidence && next.evidence[e] == h.evidence[e]
    requires forall e :: e in next.evidence && e !in h.evidence ==> e in ids && next.evidence[e].tenant == c.tenant
    requires forall e :: e in ids ==> e in next.evidence && e !in g.evidence
    requires Unseen(g, k)
    ensures ExtendsEvidence(g, next, c)
  {
    forall e | e in next.evidence && e !in g.evidence
      ensures exists b :: b in next.bindings && b !in g.bindings && b.evidence == e
    {
      if e in h.evidence {
        var b :| b in h.bindings && b !in g.bindings && b.evidence == e;
        assert b in next.bindings;
      } else {
        assert Binding(c.tenant, e, k) in next.bindings && Binding(c.tenant, e, k) !in g.bindings;
      }
    }
  }

  /** Clearing takes back exactly what a run added. */
  lemma ClearUndoes(g: G, h: G, c: Context)
    requires Inv(g) && Extends(g, h, c) && OwnRows(g, c.tenant, c.package, METHODS) == {}
    ensures !ClearRefused(h, c.tenant, c.package, METHODS)
    ensures Cleared(h, c.tenant, c.package, METHODS) == g
  {
    var own := OwnRows(h, c.tenant, c.package, METHODS);
    forall k | k in h.rows ensures k in own <==> k !in g.rows {
      if k in g.rows { assert k !in OwnRows(g, c.tenant, c.package, METHODS); }
    }
    NothingOldRefers(g, h, c, own);
    assert forall b :: b in BindingsOf(h.bindings, c.tenant, own) <==> b in h.bindings && b !in g.bindings;
    assert h.bindings - BindingsOf(h.bindings, c.tenant, own) == g.bindings;
    assert forall e :: e in Orphaned(h, c.tenant, own) <==> e in h.evidence && e !in g.evidence;
    assert h.evidence - Orphaned(h, c.tenant, own) == g.evidence;
  }

  /** Rows from before the run refer to none of its entities. */
  lemma NothingOldRefers(g: G, h: G, c: Context, own: set<Key>)
    requires Inv(g) && ExtendsRows(g, h, c)
    requires forall k :: k in own <==> k in h.rows && k !in g.rows
    ensures !Blocked(h.rows, h.plc, own) && Cascade(h.rows, own) == g.rows
  {
    forall k | k in g.rows
      ensures !PointsInto(g.rows[k], own)
      ensures k.kind == Relation || k.kind == RelationCandidate ==> !Joins(g.rows[k], own)
    {
      assert RowResolves(g, k);
    }
    forall v | v in g.plc.variables ensures !Names(g.plc.variables[v], own) {
      assert VariableResolves(g, g.plc.variables[v]);
    }
  }

  // ---- whole runs --------------------------------------------------------------------

  /** The ids that a write introduces are not in use. */
  ghost predicate NewTo(g: G, act: Act) {
    match act
    case Note(e, k, _) => e !in g.evidence && Unseen(g, Key(EntityCandidate, k))
    case Unite(entity, _, _) => Unseen(g, Key(Entity, entity))
    case Flag(x, _, _) => Unseen(g, Key(Conflict, x))
  }

  ghost predicate Differ(a: Act, b: Act) {
    && (a.Note? && b.Note? ==> a.evidence != b.evidence && a.candidate != b.candidate)
    && (a.Unite? && b.Unite? ==> a.entity != b.entity)
    && (a.Flag? && b.Flag? ==> a.conflict != b.conflict)
  }

  predicate Noted(acts: seq<Act>, e: EvidenceId, k: RowId) {
    exists a :: a in acts && a.Note? && a.evidence == e && a.candidate == k
  }

  predicate Located(acts: seq<Act>, e: EvidenceId) {
    exists a :: a in acts && a.Note? && a.evidence == e
  }

  /** A write after these ones: its ids differ from theirs, its locators are theirs. */
  ghost predicate Fits(before: seq<Act>, act: Act) {
    && (forall a :: a in before ==> Differ(a, act))
    && match act
       case Note(_, _, _) => true
       case Unite(_, _, stored) => stored != [] && forall s :: s in stored ==> Noted(before, s.evidence, s.candidate)
       case Flag(_, _, cited) => cited != [] && forall e :: e in cited ==> Located(before, e)
  }

  ghost predicate WellPlanned(acts: seq<Act>) {
    forall i :: 0 <= i < |acts| ==> Fits(acts[..i], acts[i])
  }

  ghost predicate Recorded(g: G, h: G, c: Context, e: EvidenceId, k: RowId) {
    var key := Key(EntityCandidate, k);
    && e !in g.evidence && e in h.evidence && h.evidence[e].tenant == c.tenant
    && key !in g.rows && key in h.rows
    && h.rows[key].tenant == c.tenant && h.rows[key].package == c.package && h.rows[key].producer == EXTRACTOR_METHOD
    && (forall b :: b in h.bindings && b.subject == key ==> b == Binding(c.tenant, e, key))
  }

  lemma StaysNew(h: G, c: Context, act: Act, later: Act)
    requires NewTo(h, later) && Differ(act, later)
    ensures NewTo(Perform(h, c, act), later)
  {
    match act
    case Note(e, k, m) =>
    case Unite(entity, canonical, stored) =>
      assert forall k :: k in Perform(h, c, act).rows ==> k == Key(Entity, entity) || k in h.rows;
    case Flag(x, payload, cited) =>
  }

  lemma StaysRecorded(g: G, h: G, c: Context, act: Act, e: EvidenceId, k: RowId)
    requires Recorded(g, h, c, e, k) && Possible(h, c, act)
    ensures Recorded(g, Perform(h, c, act), c, e, k)
  {
  }

  lemma JustRecorded(g: G, h: G, c: Context, e: EvidenceId, k: RowId, m: Mention)
    requires NewTo(g, Note(e, k, m)) && Possible(h, c, Note(e, k, m))
    ensures Recorded(g, Perform(h, c, Note(e, k, m)), c, e, k)
  {
  }

  lemma FittingIsPossible(g: G, h: G, c: Context, before: seq<Act>, act: Act)
    requires NewTo(g, act) && NewTo(h, act) && Fits(before, act)
    requires forall a :: a in before && a.Note? ==> Recorded(g, h, c, a.evidence, a.candidate)
    ensures Possible(h, c, act) && UsesOnlyNew(g, act)
  {
    match act
    case Note(e, k, m) =>
    case Unite(entity, canonical, stored) =>
      forall s | s in stored ensures Recorded(g, h, c, s.evidence, s.candidate) {}
      forall e | e in EvidenceIds(stored) ensures e in h.evidence && h.evidence[e].tenant == c.tenant {
        var i :| 0 <= i < |stored| && e == EvidenceIds(stored)[i];
        assert stored[i] in stored;
      }
    case Flag(x, payload, cited) =>
  }

  lemma PrefixIsPlanned(acts: seq<Act>, n: nat)
    requires WellPlanned(acts) && n <= |acts|
    ensures WellPlanned(acts[..n]) && forall a :: a in acts[..n] ==> a in acts
  {
    forall i | 0 <= i < n ensures Fits(acts[..n][..i], acts[..n][i]) {
      assert acts[..n][..i] == acts[..i];
    }
  }

  /** A planned run goes through without a refusal, keeps the invariant and only adds. */
  lemma {:induction false} PlannedRun(g: G, c: Context, acts: seq<Act>)
    requires Inv(g) && HasPackage(g, c.tenant, c.package) && WellPlanned(acts) && forall a :: a in acts ==> NewTo(g, a)
    ensures var h := PerformAll(g, c, acts);
            && Inv(h) && Extends(g, h, c)
            && (forall a :: a in acts && a.Note? ==> Recorded(g, h, c, a.evidence, a.candidate))
            && (forall later :: NewTo(g, later) && (forall a :: a in acts ==> Differ(a, later)) ==> NewTo(h, later))
  {
    if acts != [] {
      var before, act := acts[..|acts| - 1], acts[|acts| - 1];
      assert acts == before + [act];
      PrefixIsPlanned(acts, |before|);
      PlannedRun(g, c, before);
      var h := PerformAll(g, c, before);
      assert Fits(before, act);
      LastWrite(g, h, c, before, act);
    }
  }

  lemma LastWrite(g: G, h: G, c: Context, before: seq<Act>, act: Act)
    requires Inv(h) && HasPackage(g, c.tenant, c.package) && Extends(g, h, c) && NewTo(g, act) && NewTo(h, act)
             && Fits(before, act)
    requires forall a :: a in before && a.Note? ==> Recorded(g, h, c, a.evidence, a.candidate)
    requires forall later :: NewTo(g, later) && (forall a :: a in before ==> Differ(a, later)) ==> NewTo(h, later)
    ensures var next := Perform(h, c, act);
            && Possible(h, c, act) && Inv(next) && Extends(g, next, c)
            && (forall a :: a in before + [act] && a.Note? ==> Recorded(g, next, c, a.evidence, a.candidate))
            && (forall later :: NewTo(g, later) && (forall a :: a in before + [act] ==> Differ(a, later)) ==>
                 NewTo(next, later))
  {
    FittingIsPossible(g, h, c, before, act);
    PerformKeepsInv(h, c, act);
    PerformExtendsRows(g, h, c, act);
    PerformExtendsEvidence(g, h, c, act);
    var next := Perform(h, c, act);
    forall a | a in before + [act] && a.Note? ensures Recorded(g, next, c, a.evidence, a.candidate) {
      if a in before { StaysRecorded(g, h, c, act, a.evidence, a.candidate); }
      else { JustRecorded(g, h, c, a.evidence, a.candidate, a.mention); }
    }
    forall later | NewTo(g, later) && (forall a :: a in before + [act] ==> Differ(a, later))
      ensures NewTo(next, later)
    {
      assert forall a :: a in before ==> a in before + [act];
      assert act in before + [act];
      StaysNew(h, c, act, later);
    }
  }

  /** The next write of a planned run, and what it leads to. */
  lemma NextWrite(g: G, c: Context, acts: seq<Act>, n: nat)
    requires Inv(g) && HasPackage(g, c.tenant, c.package) && WellPlanned(acts) && n < |acts|
             && forall a :: a in acts ==> NewTo(g, a)
    ensures var h := PerformAll(g, c, acts[..n]);
            && h.packages == g.packages && Possible(h, c, acts[n])
            && PerformAll(g, c, acts[..n + 1]) == Perform(h, c, acts[n])
  {
    var before, act := acts[..n], acts[n];
    assert acts[..n + 1][..n] == before;
    PrefixIsPlanned(acts, n);
    PlannedRun(g, c, before);
    assert Fits(before, act) && act in acts;
    var h := PerformAll(g, c, before);
    LastWrite(g, h, c, before, act);
  }

  /** Running twice replaces: the second run finds exactly what the first one found
      after its own clearing, so it leaves what a single run with its ids would. */
  lemma RerunReplaces(g: G, c: Context, first: seq<Act>, second: seq<Act>)
    requires Inv(g) && HasPackage(g, c.tenant, c.package) && !ClearRefused(g, c.tenant, c.package, METHODS)
    requires WellPlanned(first) && forall a :: a in first ==> NewTo(Cleared(g, c.tenant, c.package, METHODS), a)
    ensures var start := Cleared(g, c.tenant, c.package, METHODS);
            var once := PerformAll(start, c, first);
            && Inv(once) && !ClearRefused(once, c.tenant, c.package, METHODS)
            && Cleared(once, c.tenant, c.package, METHODS) == start
            && PerformAll(Cleared(once, c.tenant, c.package, METHODS), c, second) == PerformAll(start, c, second)
  {
    var start := Cleared(g, c.tenant, c.package, METHODS);
    ClearKeepsInv(g, c.tenant, c.package, METHODS);
    PlannedRun(start, c, first);
    assert OwnRows(start, c.tenant, c.package, METHODS) == {};
    ClearUndoes(start, PerformAll(start, c, first), c);
  }
}
