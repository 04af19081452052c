/** Engineering subjects bound to evidence locators (app/services/engineering.py,
    foreign keys of app/engineering_models.py). */
module EvidenceGraph {
  import opened Wrappers
  import opened Identifiers

  type PackageId = nat
  type EvidenceId = nat
  type RowId = nat

  /** The eight subject kinds that must stay grounded in evidence. */
  datatype Kind =
    | Relation | RelationCandidate | BehaviorClaim | Conflict
    | UnsupportedConstruct | EntityCandidate | Assignment | Entity

  datatype Key = Key(kind: Kind, id: RowId)

  /** One subject row. Only the columns that foreign keys and clean-up look at are
      separate; everything else is its payload. */
  datatype Row<P> = Row(
    tenant: TenantId,
    package: PackageId,
    producer: string,               // the `method` column
    document: Option<DocumentId>,   // package assignments
    canonical: Option<RowId>,       // entity candidates
    source: Option<RowId>,          // relations and relation candidates
    target: Option<RowId>,
    relation: string,               // the `relation_kind` column of relations
    path: seq<string>,              // the `dependency_path` of behavior claims
    payload: P)

  datatype Evidence = Evidence(tenant: TenantId, document: DocumentId)

  datatype Binding = Binding(tenant: TenantId, evidence: EvidenceId, subject: Key)

  type Rows<P> = map<Key, Row<P>>

  /** A program of a package, and a variable of a program that may name an entity of
      its tenant, of whatever package. Neither is bound to evidence. */
  datatype Program = Program(tenant: TenantId, package: PackageId)
  datatype Variable = Variable(tenant: TenantId, program: RowId, entity: Option<RowId>)

  datatype Plc = Plc(programs: map<RowId, Program>, variables: map<RowId, Variable>)

  datatype Graph<P> = Graph(
    packages: map<PackageId, TenantId>,
    evidence: map<EvidenceId, Evidence>,
    bindings: set<Binding>,
    rows: Rows<P>,
    plc: Plc)

  const NO_PLC := Plc(map[], map[])

  function EmptyGraph<P>(): Graph<P> {
    Graph(map[], map[], {}, map[], NO_PLC)
  }

  datatype Fault =
    | NoEvidence        // EngineeringEvidenceError
    | NotFound          // EngineeringIsolationError
    | IntegrityError    // a constraint of the schema refused the statement

  // ---- foreign keys ------------------------------------------------------

  predicate Joins<P>(row: Row<P>, entities: set<Key>) {
    || (row.source.Some? && Key(Entity, row.source.value) in entities)
    || (row.target.Some? && Key(Entity, row.target.value) in entities)
  }

  predicate PointsInto<P>(row: Row<P>, entities: set<Key>) {
    row.canonical.Some? && Key(Entity, row.canonical.value) in entities
  }

  /** ON DELETE CASCADE: a relation goes with either of its entities. */
  function Cascade<P>(rows: Rows<P>, gone: set<Key>): Rows<P> {
    map k | k in rows && k !in gone && !(k.kind == Relation && Joins(rows[k], gone)) :: rows[k]
  }

  /** ON DELETE SET NULL on a composite key would also null `tenant_id`, which is
      not nullable, so a row that still refers to a deleted entity refuses the delete. */
  predicate Refuses<P>(rows: Rows<P>, k: Key, gone: set<Key>)
    requires k in rows
  {
    && k !in gone
    && ((k.kind == EntityCandidate && PointsInto(rows[k], gone))
        || (k.kind == RelationCandidate && Joins(rows[k], gone)))
  }

  /** The same key, of the same kind, from a PLC variable. */
  predicate Names(v: Variable, entities: set<Key>) {
    v.entity.Some? && Key(Entity, v.entity.value) in entities
  }

  predicate Held(plc: Plc, gone: set<Key>) {
    exists v :: v in plc.variables && Names(plc.variables[v], gone)
  }

  predicate Blocked<P>(rows: Rows<P>, plc: Plc, gone: set<Key>) {
    Held(plc, gone) || exists k :: k in rows && Refuses(rows, k, gone)
  }

  lemma CascadeTwice<P>(rows: Rows<P>, first: set<Key>, second: set<Key>)
    ensures Cascade(Cascade(rows, first), second) == Cascade(rows, first + second)
  {
  }

  // ---- the invariant -----------------------------------------------------

  predicate Bound(bindings: set<Binding>, tenant: TenantId, k: Key) {
    exists b :: b in bindings && b.tenant == tenant && b.subject == k
  }

  /** Every subject has at least one binding of its own tenant ... */
  ghost predicate Grounded<P>(g: Graph<P>) {
    forall k :: k in g.rows ==> Bound(g.bindings, g.rows[k].tenant, k)
  }

  /** ... and every binding refers to an existing locator of its tenant. */
  ghost predicate BindingsResolve<P>(g: Graph<P>) {
    forall b :: b in g.bindings ==> b.evidence in g.evidence && g.evidence[b.evidence].tenant == b.tenant
  }

  ghost predicate LinksResolve<P>(g: Graph<P>) {
    forall k :: k in g.rows ==> RowResolves(g, k)
  }

  ghost predicate RowResolves<P>(g: Graph<P>, k: Key)
    requires k in g.rows
  {
    && g.rows[k].package in g.packages && g.packages[g.rows[k].package] == g.rows[k].tenant
    && (g.rows[k].canonical.Some? ==> k.kind == EntityCandidate && EntityOf(g, k, g.rows[k].canonical))
    && (k.kind == Relation ==> g.rows[k].source.Some? && g.rows[k].target.Some?)
    && (k.kind == Relation || k.kind == RelationCandidate ==>
          EntityOf(g, k, g.rows[k].source) && EntityOf(g, k, g.rows[k].target))
  }

  /** Programs are of a package, variables of a program and perhaps of an entity, always
      of one tenant. */
  ghost predicate PlcResolves<P>(g: Graph<P>) {
    && (forall p :: p in g.plc.programs ==> HasPackage(g, g.plc.programs[p].tenant, g.plc.programs[p].package))
    && (forall v :: v in g.plc.variables ==> VariableResolves(g, g.plc.variables[v]))
  }

  predicate HasPackage<P>(g: Graph<P>, tenant: TenantId, package: PackageId) {
    package in g.packages && g.packages[package] == tenant
  }

  predicate VariableResolves<P>(g: Graph<P>, v: Variable) {
    && v.program in g.plc.programs && g.plc.programs[v.program].tenant == v.tenant
    && (v.entity.Some? ==>
          Key(Entity, v.entity.value) in g.rows && g.rows[Key(Entity, v.entity.value)].tenant == v.tenant)
  }

  /** A reference to an entity of the row's own tenant and package, or none. */
  predicate EntityOf<P>(g: Graph<P>, k: Key, reference: Option<RowId>)
    requires k in g.rows
  {
    reference.Some? ==>
      && Key(Entity, reference.value) in g.rows
      && g.rows[Key(Entity, reference.value)].tenant == g.rows[k].tenant
      && g.rows[Key(Entity, reference.value)].package == g.rows[k].package
  }

  /** The evidence of a promoted candidate is part of its entity's evidence. */
  ghost predicate Contained<P>(g: Graph<P>) {
    forall k, b :: k in g.rows && g.rows[k].canonical.Some? && b in g.bindings && b.subject == k ==>
      Binding(b.tenant, b.evidence, Key(Entity, g.rows[k].canonical.value)) in g.bindings
  }

  const RESOLVER_METHOD := "deterministic_identity"
  const EXTRACTOR_METHOD := "deterministic_identifiers"

  /** Only the resolver links candidates: its extractor's to its own entities. */
  ghost predicate LinksAreResolved<P>(g: Graph<P>) {
    forall k :: k in g.rows && g.rows[k].canonical.Some? ==>
      && g.rows[k].producer == EXTRACTOR_METHOD
      && Key(Entity, g.rows[k].canonical.value) in g.rows
      && g.rows[Key(Entity, g.rows[k].canonical.value)].producer == RESOLVER_METHOD
  }

  ghost predicate Inv<P>(g: Graph<P>) {
    Grounded(g) && BindingsResolve(g) && LinksResolve(g) && Contained(g) && LinksAreResolved(g) && PlcResolves(g)
  }

  /** `list_evidence_for`: the locators that the bindings of a subject lead to. */
  function ListedEvidence<P>(g: Graph<P>, tenant: TenantId, k: Key): set<EvidenceId> {
    set b | b in g.bindings && b.tenant == tenant && b.subject == k && b.evidence in g.evidence :: b.evidence
  }

  /** Listed are the locators that some binding of the subject itself leads to. */
  lemma ListedMeans<P>(g: Graph<P>, tenant: TenantId, k: Key, e: EvidenceId)
    ensures e in ListedEvidence(g, tenant, k) <==>
              e in g.evidence && exists b :: b in g.bindings && b.tenant == tenant && b.subject == k && b.evidence == e
  {
  }

  /** A subject always lists some evidence, so conflict recording never skips a pair and
      an override never fails for want of the original evidence. */
  lemma ListedEvidenceIsNeverEmpty<P>(g: Graph<P>, k: Key)
    requires Inv(g) && k in g.rows
    ensures ListedEvidence(g, g.rows[k].tenant, k) != {}
  {
    var b :| b in g.bindings && b.tenant == g.rows[k].tenant && b.subject == k;
    assert b.evidence in ListedEvidence(g, g.rows[k].tenant, k);
  }

  // ---- what dropping a document's evidence means --------------------------

  function LostEvidence<P>(g: Graph<P>, tenant: TenantId, document: DocumentId): set<EvidenceId> {
    set e | e in g.evidence && g.evidence[e] == Evidence(tenant, document)
  }

  function KeptBindings(bindings: set<Binding>, lost: set<EvidenceId>): set<Binding> {
    set b | b in bindings && b.evidence !in lost
  }

  /** Subjects of the tenant that were bound to lost evidence and to nothing else. */
  function Ungrounded<P>(g: Graph<P>, tenant: TenantId, document: DocumentId): set<Key> {
    var lost := LostEvidence(g, tenant, document);
    set k | k in g.rows && g.rows[k].tenant == tenant
            && Bound(g.bindings, tenant, k) && !Bound(KeptBindings(g.bindings, lost), tenant, k)
  }

  function Dropped<P>(g: Graph<P>, tenant: TenantId, document: DocumentId): Graph<P> {
    var lost := LostEvidence(g, tenant, document);
    g.(evidence := g.evidence - lost,
    bindings := KeptBindings(g.bindings, lost),
    rows := Cascade(g.rows, Ungrounded(g, tenant, document)))
  }

  predicate DropRefused<P>(g: Graph<P>, tenant: TenantId, document: DocumentId) {
    Blocked(g.rows, g.plc, Ungrounded(g, tenant, document))
  }

  lemma SharedEvidence<P>(g: Graph<P>, lost: set<EvidenceId>, tenant: TenantId, k: Key)
    requires Contained(g) && k in g.rows && g.rows[k].canonical.Some?
    requires Bound(KeptBindings(g.bindings, lost), tenant, k)
    ensures Bound(KeptBindings(g.bindings, lost), tenant, Key(Entity, g.rows[k].canonical.value))
  {
    var b :| b in KeptBindings(g.bindings, lost) && b.tenant == tenant && b.subject == k;
    assert Binding(b.tenant, b.evidence, Key(Entity, g.rows[k].canonical.value)) in KeptBindings(g.bindings, lost);
  }

  /** When an entity loses its last evidence, so has every candidate pointing at it:
      no surviving candidate ever reaches the SET NULL foreign key. */
  lemma CandidatesGoWithTheirEntity<P>(g: Graph<P>, tenant: TenantId, document: DocumentId, k: Key)
    requires Inv(g) && k in g.rows && PointsInto(g.rows[k], Ungrounded(g, tenant, document))
    ensures k in Ungrounded(g, tenant, document)
  {
    var lost := LostEvidence(g, tenant, document);
    if Bound(KeptBindings(g.bindings, lost), tenant, k) {
      SharedEvidence(g, lost, tenant, k);
    }
  }

  /** Something that would lose its tenant with these entities: a relation candidate
      that stays, or a PLC variable of the tenant. */
  predicate Obstructed<P>(g: Graph<P>, tenant: TenantId, gone: set<Key>) {
    || (exists k :: k in g.rows && k.kind == RelationCandidate && k !in gone && Joins(g.rows[k], gone))
    || (exists v :: v in g.plc.variables && g.plc.variables[v].tenant == tenant && Names(g.plc.variables[v], gone))
  }

  lemma BlockedIsObstructed<P>(g: Graph<P>, tenant: TenantId, gone: set<Key>)
    requires Inv(g) && (forall k :: k in gone ==> k in g.rows && g.rows[k].tenant == tenant)
    requires forall k :: k in g.rows && k.kind == EntityCandidate && PointsInto(g.rows[k], gone) ==> k in gone
    ensures Blocked(g.rows, g.plc, gone) <==> Obstructed(g, tenant, gone)
  {
    if v :| v in g.plc.variables && Names(g.plc.variables[v], gone) {
      assert VariableResolves(g, g.plc.variables[v]);
    } else if k :| k in g.rows && Refuses(g.rows, k, gone) {
      assert k.kind == RelationCandidate;
    }
    if k :| k in g.rows && k.kind == RelationCandidate && k !in gone && Joins(g.rows[k], gone) {
      assert Refuses(g.rows, k, gone);
    }
  }

  /** Dropping a document's evidence fails exactly when a relation candidate that keeps
      evidence, or a PLC variable of the tenant, refers to an entity that loses all of
      its own. */
  lemma DropFailsOnlyOnOutsideReferences<P>(g: Graph<P>, tenant: TenantId, document: DocumentId)
    requires Inv(g)
    ensures DropRefused(g, tenant, document) <==> Obstructed(g, tenant, Ungrounded(g, tenant, document))
  {
    var gone := Ungrounded(g, tenant, document);
    forall k | k in g.rows && k.kind == EntityCandidate && PointsInto(g.rows[k], gone) ensures k in gone {
      CandidatesGoWithTheirEntity(g, tenant, document, k);
    }
    BlockedIsObstructed(g, tenant, gone);
  }

  /** Links survive a delete that no row refuses. */
  lemma CascadeKeepsLinks<P>(g: Graph<P>, h: Graph<P>, gone: set<Key>)
    requires LinksResolve(g) && LinksAreResolved(g) && PlcResolves(g) && !Blocked(g.rows, g.plc, gone)
    requires h.packages == g.packages && h.plc == g.plc && h.rows == Cascade(g.rows, gone)
    ensures LinksResolve(h) && LinksAreResolved(h) && PlcResolves(h)
  {
    forall k | k in h.rows ensures !Refuses(g.rows, k, gone) {}
    forall v | v in h.plc.variables ensures VariableResolves(h, h.plc.variables[v]) {
      assert VariableResolves(g, g.plc.variables[v]) && !Names(g.plc.variables[v], gone);
    }
  }

  /** Every subject that survives still has evidence, and every link still resolves. */
  lemma DropKeepsInv<P>(g: Graph<P>, tenant: TenantId, document: DocumentId)
    requires Inv(g) && !DropRefused(g, tenant, document)
    ensures Inv(Dropped(g, tenant, document))
  {
    var h := Dropped(g, tenant, document);
    CascadeKeepsLinks(g, h, Ungrounded(g, tenant, document));
    forall k | k in h.rows ensures Bound(h.bindings, h.rows[k].tenant, k) {
      assert Bound(g.bindings, g.rows[k].tenant, k);
      if g.rows[k].tenant != tenant {
        var b :| b in g.bindings && b.tenant == g.rows[k].tenant && b.subject == k;
        assert b in h.bindings;
      }
    }
  }

  // ---- what clearing a package's identities means --------------------------

  predicate IsIdentity(kind: Kind) {
    kind == Conflict || kind == EntityCandidate || kind == Entity
  }

  /** Conflicts, candidates and entities of the package that these methods produced. */
  function OwnRows<P>(g: Graph<P>, tenant: TenantId, package: PackageId, producers: set<string>): set<Key> {
    set k | k in g.rows && IsIdentity(k.kind) && g.rows[k].tenant == tenant
            && g.rows[k].package == package && g.rows[k].producer in producers
  }

  function BindingsOf(bindings: set<Binding>, tenant: TenantId, subjects: set<Key>): set<Binding> {
    set b | b in bindings && b.tenant == tenant && b.subject in subjects
  }

  predicate Cites(bindings: set<Binding>, tenant: TenantId, e: EvidenceId) {
    exists b :: b in bindings && b.tenant == tenant && b.evidence == e
  }

  /** Locators that were cited by the subjects and that nothing else cites. */
  function Orphaned<P>(g: Graph<P>, tenant: TenantId, subjects: set<Key>): set<EvidenceId> {
    var dropped := BindingsOf(g.bindings, tenant, subjects);
    set e | e in g.evidence && g.evidence[e].tenant == tenant
            && Cites(dropped, tenant, e) && !Cites(g.bindings - dropped, tenant, e)
  }

  function Cleared<P>(g: Graph<P>, tenant: TenantId, package: PackageId, producers: set<string>): Graph<P> {
    var own := OwnRows(g, tenant, package, producers);
    g.(evidence := g.evidence - Orphaned(g, tenant, own),
    bindings := g.bindings - BindingsOf(g.bindings, tenant, own),
    rows := Cascade(g.rows, own))
  }

  predicate ClearRefused<P>(g: Graph<P>, tenant: TenantId, package: PackageId, producers: set<string>) {
    Blocked(g.rows, g.plc, OwnRows(g, tenant, package, producers))
  }

  lemma ClearKeepsInv<P>(g: Graph<P>, tenant: TenantId, package: PackageId, producers: set<string>)
    requires Inv(g) && !ClearRefused(g, tenant, package, producers)
    ensures Inv(Cleared(g, tenant, package, producers))
  {
    var h := Cleared(g, tenant, package, producers);
    var own := OwnRows(g, tenant, package, producers);
    CascadeKeepsLinks(g, h, own);
    forall k | k in h.rows ensures Bound(h.bindings, h.rows[k].tenant, k) {
      var b :| b in g.bindings && b.tenant == g.rows[k].tenant && b.subject == k;
      assert b in h.bindings;
    }
    forall k, b | k in h.rows && h.rows[k].canonical.Some? && b in h.bindings && b.subject == k
      ensures Binding(b.tenant, b.evidence, Key(Entity, h.rows[k].canonical.value)) in h.bindings
    {
      assert !Refuses(g.rows, k, own);
    }
    forall b | b in h.bindings ensures b.evidence in h.evidence {
      assert Cites(h.bindings, b.tenant, b.evidence);
    }
  }

  /** Clearing both of the resolver's methods fails exactly when a relation candidate, or
      a PLC variable of the tenant, refers to one of their entities. */
  lemma ClearFailsOnlyOnOutsideReferences<P>(g: Graph<P>, tenant: TenantId, package: PackageId)
    requires Inv(g)
    ensures ClearRefused(g, tenant, package, {RESOLVER_METHOD, EXTRACTOR_METHOD}) <==>
            Obstructed(g, tenant, OwnRows(g, tenant, package, {RESOLVER_METHOD, EXTRACTOR_METHOD}))
  {
    var own := OwnRows(g, tenant, package, {RESOLVER_METHOD, EXTRACTOR_METHOD});
    forall k | k in g.rows && k.kind == EntityCandidate && PointsInto(g.rows[k], own) ensures k in own {
      assert RowResolves(g, k);
    }
    BlockedIsObstructed(g, tenant, own);
  }

  /** Clearing removes every identity row of these methods and nothing another
      method produced: its entities, candidates and conflicts, their bindings and
      every locator they are bound to are as before. */
  lemma ClearLeavesOtherMethods<P>(g: Graph<P>, tenant: TenantId, package: PackageId, producers: set<string>, k: Key)
    requires Inv(g) && k in g.rows && IsIdentity(k.kind)
    ensures var h := Cleared(g, tenant, package, producers);
            if g.rows[k].tenant == tenant && g.rows[k].package == package && g.rows[k].producer in producers
            then k !in h.rows && !Bound(h.bindings, tenant, k)
            else
              && k in h.rows && h.rows[k] == g.rows[k]
              && forall b :: b in g.bindings && b.subject == k ==>
                               b in h.bindings && b.evidence in h.evidence
                               && h.evidence[b.evidence] == g.evidence[b.evidence]
  {
    var h := Cleared(g, tenant, package, producers);
    forall b | b in h.bindings ensures b.evidence !in Orphaned(g, tenant, OwnRows(g, tenant, package, producers)) {
      assert Cites(h.bindings, b.tenant, b.evidence);
    }
  }

  /** A new locator disturbs nothing. */
  lemma RecordKeepsInv<P>(g: Graph<P>, e: EvidenceId, locator: Evidence)
    requires Inv(g) && e !in g.evidence
    ensures Inv(g.(evidence := g.evidence[e := locator]))
  {
    var h := g.(evidence := g.evidence[e := locator]);
    forall k | k in h.rows ensures RowResolves(h, k) {
      assert RowResolves(g, k);
    }
    forall v | v in h.plc.variables ensures VariableResolves(h, h.plc.variables[v]) {
      assert VariableResolves(g, g.plc.variables[v]);
    }
    forall p | p in h.plc.programs ensures HasPackage(h, h.plc.programs[p].tenant, h.plc.programs[p].package) {
      assert HasPackage(g, g.plc.programs[p].tenant, g.plc.programs[p].package);
    }
  }

  // ---- creating subjects ---------------------------------------------------

  predicate Unseen<P>(g: Graph<P>, k: Key) {
    k !in g.rows && forall b :: b in g.bindings ==> b.subject != k
  }

  predicate EvidenceOf<P>(g: Graph<P>, tenant: TenantId, ids: seq<EvidenceId>) {
    forall e :: e in ids ==> e in g.evidence && g.evidence[e].tenant == tenant
  }

  /** Another relation of the package has the same ends and the same kind. */
  predicate DuplicateEdge<P>(g: Graph<P>, row: Row<P>) {
    exists k :: k in g.rows && k.kind == Relation && g.rows[k].tenant == row.tenant && g.rows[k].package == row.package
                && g.rows[k].source == row.source && g.rows[k].target == row.target
                && g.rows[k].relation == row.relation
  }

  predicate HasEntity<P>(g: Graph<P>, tenant: TenantId, package: PackageId, reference: Option<RowId>) {
    reference.Some? ==>
      && Key(Entity, reference.value) in g.rows
      && g.rows[Key(Entity, reference.value)].tenant == tenant
      && g.rows[Key(Entity, reference.value)].package == package
  }

  /** Why creating a subject is refused, if it is. A relation needs two different ends and
      no relation like it; a relation candidate may leave either end open; a behavior claim
      needs a dependency path. */
  function CreateFault<P>(g: Graph<P>, kind: Kind, row: Row<P>, ids: seq<EvidenceId>): Option<Fault> {
    if !HasPackage(g, row.tenant, row.package) then Some(NotFound)
    else if kind == BehaviorClaim && row.path == [] then Some(NoEvidence)
    else if (kind == Relation || kind == RelationCandidate)
         && (!HasEntity(g, row.tenant, row.package, row.source) || !HasEntity(g, row.tenant, row.package, row.target))
    then Some(NotFound)
    else if kind == Relation && (row.source == row.target || DuplicateEdge(g, row)) then Some(IntegrityError)
    else if ids == [] then Some(NoEvidence)
    else if !EvidenceOf(g, row.tenant, ids) then Some(NotFound)
    else None
  }

  /** Rows are created unlinked; only relations are required to name both ends. */
  predicate WellFormed<P>(kind: Kind, row: Row<P>) {
    && row.canonical == None
    && (kind == Relation ==> row.source.Some? && row.target.Some?)
  }

  function Bind(bindings: set<Binding>, tenant: TenantId, ids: seq<EvidenceId>, k: Key): set<Binding> {
    bindings + (set e | e in ids :: Binding(tenant, e, k))
  }

  function Created<P>(g: Graph<P>, k: Key, row: Row<P>, ids: seq<EvidenceId>): Graph<P> {
    g.(rows := g.rows[k := row], bindings := Bind(g.bindings, row.tenant, ids, k))
  }

  /** What `Inv` says of a new row, beside what it said of the others. */
  lemma CreateKeepsLinks<P>(g: Graph<P>, k: Key, row: Row<P>, ids: seq<EvidenceId>)
    requires LinksResolve(g) && LinksAreResolved(g) && Unseen(g, k)
    requires WellFormed(k.kind, row) && CreateFault(g, k.kind, row, ids) == None
    ensures LinksResolve(Created(g, k, row, ids)) && LinksAreResolved(Created(g, k, row, ids))
  {
    var h := Created(g, k, row, ids);
    assert forall x :: x in g.rows ==> x in h.rows && h.rows[x] == g.rows[x];
    assert h.rows[k] == row;
  }

  /** Variables keep naming entities of their tenant while those stay of that tenant. */
  lemma PlcKeepsResolving<P>(g: Graph<P>, h: Graph<P>)
    requires PlcResolves(g) && h.plc == g.plc && h.packages == g.packages
    requires forall k :: k in g.rows && k.kind == Entity ==> k in h.rows && h.rows[k].tenant == g.rows[k].tenant
    ensures PlcResolves(h)
  {
    forall v | v in h.plc.variables ensures VariableResolves(h, h.plc.variables[v]) {
      assert VariableResolves(g, g.plc.variables[v]);
    }
    forall p | p in h.plc.programs ensures HasPackage(h, h.plc.programs[p].tenant, h.plc.programs[p].package) {
      assert HasPackage(g, g.plc.programs[p].tenant, g.plc.programs[p].package);
    }
  }

  ghost predicate EvidenceHolds<P>(g: Graph<P>) {
    Grounded(g) && BindingsResolve(g) && Contained(g)
  }

  lemma CreateKeepsInv<P>(g: Graph<P>, k: Key, row: Row<P>, ids: seq<EvidenceId>)
    requires Inv(g) && Unseen(g, k) && WellFormed(k.kind, row) && CreateFault(g, k.kind, row, ids) == None
    ensures Inv(Created(g, k, row, ids))
  {
    CreateKeepsLinks(g, k, row, ids);
    CreateKeepsEvidence(g, k, row, ids);
    PlcKeepsResolving(g, Created(g, k, row, ids));
  }

  lemma CreateKeepsEvidence<P>(g: Graph<P>, k: Key, row: Row<P>, ids: seq<EvidenceId>)
    requires EvidenceHolds(g) && Unseen(g, k) && row.canonical == None && ids != [] && EvidenceOf(g, row.tenant, ids)
    ensures EvidenceHolds(Created(g, k, row, ids))
  {
    var h := Created(g, k, row, ids);
    assert Binding(row.tenant, ids[0], k) in h.bindings;
    forall x | x in h.rows ensures Bound(h.bindings, h.rows[x].tenant, x) {
      if x != k {
        var b :| b in g.bindings && b.tenant == g.rows[x].tenant && b.subject == x;
        assert b in h.bindings;
      }
    }
  }

  // ---- promoting candidates ------------------------------------------------

  /** A candidate of the group being promoted, and the one locator it was created with. */
  datatype Stored = Stored(candidate: RowId, evidence: EvidenceId)

  function EvidenceIds(stored: seq<Stored>): seq<EvidenceId> {
    seq(|stored|, i requires 0 <= i < |stored| => stored[i].evidence)
  }

  predicate Promotable<P>(g: Graph<P>, row: Row<P>, stored: seq<Stored>) {
    forall s :: s in stored ==>
      var k := Key(EntityCandidate, s.candidate);
      && k in g.rows
      && g.rows[k].tenant == row.tenant && g.rows[k].package == row.package
      && g.rows[k].producer == EXTRACTOR_METHOD
      && (forall b :: b in g.bindings && b.subject == k ==> b == Binding(row.tenant, s.evidence, k))
  }

  function Linked<P>(rows: Rows<P>, stored: seq<Stored>, entity: RowId): Rows<P> {
    map k | k in rows ::
      if k.kind == EntityCandidate && exists s :: s in stored && s.candidate == k.id
      then rows[k].(canonical := Some(entity)) else rows[k]
  }

  /** One canonical entity bound to the evidence of the whole group, which then points at it. */
  function Promoted<P>(g: Graph<P>, entity: RowId, row: Row<P>, stored: seq<Stored>): Graph<P> {
    var h := Created(g, Key(Entity, entity), row, EvidenceIds(stored));
    h.(rows := Linked(h.rows, stored, entity))
  }

  ghost predicate Linkable<P>(g: Graph<P>, entity: RowId, row: Row<P>, stored: seq<Stored>) {
    && Promotable(g, row, stored)
    && Key(Entity, entity) in g.rows && g.rows[Key(Entity, entity)] == row && row.producer == RESOLVER_METHOD
    && (forall s :: s in stored ==> Binding(row.tenant, s.evidence, Key(Entity, entity)) in g.bindings)
  }

  /** A candidate that points at the entity now, of its own tenant and package. */
  ghost predicate JustLinked<P>(g: Graph<P>, h: Graph<P>, k: Key, entity: RowId, row: Row<P>)
    requires k in g.rows && k in h.rows
  {
    && k.kind == EntityCandidate && h.rows[k].canonical == Some(entity)
    && g.rows[k].tenant == row.tenant && g.rows[k].package == row.package && g.rows[k].producer == EXTRACTOR_METHOD
  }

  /** Linking changes nothing but the link of candidates of the group. */
  lemma LinkedRowsChange<P>(g: Graph<P>, entity: RowId, row: Row<P>, stored: seq<Stored>, k: Key)
    requires Linkable(g, entity, row, stored) && k in g.rows
    ensures var h := g.(rows := Linked(g.rows, stored, entity));
            && k in h.rows && h.rows[k].(canonical := None) == g.rows[k].(canonical := None)
            && (h.rows[k] == g.rows[k] || JustLinked(g, h, k, entity, row))
  {
    var h := g.(rows := Linked(g.rows, stored, entity));
    if h.rows[k] != g.rows[k] {
      var s :| s in stored && s.candidate == k.id;
    }
  }

  lemma LinkKeepsLinks<P>(g: Graph<P>, entity: RowId, row: Row<P>, stored: seq<Stored>)
    requires LinksResolve(g) && LinksAreResolved(g) && Linkable(g, entity, row, stored)
    ensures var h := g.(rows := Linked(g.rows, stored, entity)); LinksResolve(h) && LinksAreResolved(h)
  {
    var h := g.(rows := Linked(g.rows, stored, entity));
    forall k | k in g.rows
      ensures h.rows[k].(canonical := None) == g.rows[k].(canonical := None)
      ensures h.rows[k] == g.rows[k] || JustLinked(g, h, k, entity, row)
    {
      LinkedRowsChange(g, entity, row, stored, k);
    }
    RelinkedKeepsLinks(g, h, entity, row);
  }

  lemma RelinkedKeepsLinks<P>(g: Graph<P>, h: Graph<P>, entity: RowId, row: Row<P>)
    requires LinksResolve(g) && LinksAreResolved(g) && h.packages == g.packages && h.rows.Keys == g.rows.Keys
    requires Key(Entity, entity) in g.rows && g.rows[Key(Entity, entity)] == row && row.producer == RESOLVER_METHOD
    requires forall k :: k in g.rows ==>
               && h.rows[k].(canonical := None) == g.rows[k].(canonical := None)
               && (h.rows[k] == g.rows[k] || JustLinked(g, h, k, entity, row))
    ensures LinksResolve(h) && LinksAreResolved(h)
  {
    forall k | k in h.rows ensures RowResolves(h, k) {
      RelinkedRowResolves(g, h, entity, row, k);
    }
  }

  lemma RelinkedRowResolves<P>(g: Graph<P>, h: Graph<P>, entity: RowId, row: Row<P>, k: Key)
    requires LinksResolve(g) && h.packages == g.packages && h.rows.Keys == g.rows.Keys && k in g.rows
    requires Key(Entity, entity) in g.rows && g.rows[Key(Entity, entity)] == row
    requires forall x :: x in g.rows ==> h.rows[x].(canonical := None) == g.rows[x].(canonical := None)
    requires h.rows[k] == g.rows[k] || JustLinked(g, h, k, entity, row)
    ensures RowResolves(h, k)
  {
    assert RowResolves(g, k);
  }

  lemma LinkKeepsInv<P>(g: Graph<P>, entity: RowId, row: Row<P>, stored: seq<Stored>)
    requires Inv(g) && Linkable(g, entity, row, stored)
    ensures Inv(g.(rows := Linked(g.rows, stored, entity)))
  {
    var h := g.(rows := Linked(g.rows, stored, entity));
    LinkKeepsLinks(g, entity, row, stored);
    LinkKeepsEvidence(g, entity, row, stored);
    forall k | k in g.rows && k.kind == Entity ensures h.rows[k].tenant == g.rows[k].tenant {
      LinkedRowsChange(g, entity, row, stored, k);
    }
    PlcKeepsResolving(g, h);
  }

  lemma LinkKeepsEvidence<P>(g: Graph<P>, entity: RowId, row: Row<P>, stored: seq<Stored>)
    requires EvidenceHolds(g) && Linkable(g, entity, row, stored)
    ensures EvidenceHolds(g.(rows := Linked(g.rows, stored, entity)))
  {
    var h := g.(rows := Linked(g.rows, stored, entity));
    forall k, b | k in h.rows && h.rows[k].canonical.Some? && b in h.bindings && b.subject == k
      ensures Binding(b.tenant, b.evidence, Key(Entity, h.rows[k].canonical.value)) in h.bindings
    {
      if h.rows[k] != g.rows[k] {
        var s :| s in stored && s.candidate == k.id;
        assert b == Binding(row.tenant, s.evidence, k);
      }
    }
  }

  lemma PromoteKeepsInv<P>(g: Graph<P>, entity: RowId, row: Row<P>, stored: seq<Stored>)
    requires Inv(g) && Unseen(g, Key(Entity, entity)) && WellFormed(Entity, row) && row.producer == RESOLVER_METHOD
    requires CreateFault(g, Entity, row, EvidenceIds(stored)) == None && Promotable(g, row, stored)
    ensures Inv(Promoted(g, entity, row, stored))
  {
    var e := Key(Entity, entity);
    var h := Created(g, e, row, EvidenceIds(stored));
    CreateKeepsInv(g, e, row, EvidenceIds(stored));
    forall s | s in stored ensures Binding(row.tenant, s.evidence, e) in h.bindings {
      var i :| 0 <= i < |stored| && stored[i] == s;
      assert EvidenceIds(stored)[i] == s.evidence;
    }
    LinkKeepsInv(h, entity, row, stored);
  }

  // ---- deleting a package ------------------------------------------------------

  function EntitiesOf<P>(rows: Rows<P>, package: PackageId): set<Key> {
    set k | k in rows && k.kind == Entity && rows[k].package == package
  }

  function WithoutPackage<P>(rows: Rows<P>, package: PackageId): Rows<P> {
    map k | k in rows && rows[k].package != package :: rows[k]
  }

  predicate OfPackage(plc: Plc, v: Variable, package: PackageId) {
    v.program in plc.programs && plc.programs[v.program].package == package
  }

  function PlcWithoutPackage(plc: Plc, package: PackageId): Plc {
    Plc(map p | p in plc.programs && plc.programs[p].package != package :: plc.programs[p],
        map v | v in plc.variables && !OfPackage(plc, plc.variables[v], package) :: plc.variables[v])
  }

  /** The keys into the package take its rows and programs first, then the programs'
      variables; what is left meets the keys into the deleted entities. That the variables
      go before the keys into entities set anything to null rests on the order in which
      the constraints were created, since their triggers fire in that order: the table
      `plc_programs` comes before `engineering_entities`
      (migrations/versions/0009_engineering.py:517, 567). */
  predicate PackageRefused<P>(g: Graph<P>, package: PackageId) {
    Blocked(WithoutPackage(g.rows, package), PlcWithoutPackage(g.plc, package), EntitiesOf(g.rows, package))
  }

  function PackageDropped<P>(g: Graph<P>, package: PackageId): Graph<P> {
    g.(packages := g.packages - {package},
    rows := Cascade(WithoutPackage(g.rows, package), EntitiesOf(g.rows, package)),
    plc := PlcWithoutPackage(g.plc, package))
  }

  /** Rows refer to entities of their own package only. */
  lemma RefersToItsPackage<P>(g: Graph<P>, k: Key, entities: set<Key>, package: PackageId)
    requires k in g.rows && RowResolves(g, k) && g.rows[k].package != package
    requires forall e :: e in entities ==> e in g.rows && g.rows[e].package == package
    ensures !PointsInto(g.rows[k], entities)
    ensures k.kind == Relation || k.kind == RelationCandidate ==> !Joins(g.rows[k], entities)
  {
  }

  /** Deleting a package fails exactly when a variable of another package's program
      names one of its entities; otherwise just its own rows go. */
  lemma PackageFailsOnlyOnOutsideVariables<P>(g: Graph<P>, package: PackageId)
    requires Inv(g)
    ensures PackageRefused(g, package) <==>
            exists v :: v in g.plc.variables && !OfPackage(g.plc, g.plc.variables[v], package)
                        && Names(g.plc.variables[v], EntitiesOf(g.rows, package))
    ensures PackageDropped(g, package).rows == WithoutPackage(g.rows, package)
  {
    var plc := PlcWithoutPackage(g.plc, package);
    OtherRowsStay(g, package);
    forall v | v in g.plc.variables && !OfPackage(g.plc, g.plc.variables[v], package) ensures v in plc.variables {}
  }

  /** No row of another package stands in the way, or goes along. */
  lemma OtherRowsStay<P>(g: Graph<P>, package: PackageId)
    requires LinksResolve(g)
    ensures var rows, gone := WithoutPackage(g.rows, package), EntitiesOf(g.rows, package);
            Cascade(rows, gone) == rows && forall k :: k in rows ==> !Refuses(rows, k, gone)
  {
    var rows, gone := WithoutPackage(g.rows, package), EntitiesOf(g.rows, package);
    forall k | k in rows
      ensures !Refuses(rows, k, gone)
      ensures k.kind == Relation ==> !Joins(rows[k], gone)
    {
      RefersToItsPackage(g, k, gone, package);
    }
  }

  lemma PackageDropKeepsLinks<P>(g: Graph<P>, package: PackageId)
    requires Inv(g) && !PackageRefused(g, package)
    ensures var h := PackageDropped(g, package); LinksResolve(h) && LinksAreResolved(h) && PlcResolves(h)
  {
    var h := PackageDropped(g, package);
    PackageFailsOnlyOnOutsideVariables(g, package);
    forall k | k in h.rows ensures RowResolves(h, k) {
      assert RowResolves(g, k);
    }
    forall v | v in h.plc.variables ensures VariableResolves(h, h.plc.variables[v]) {
      assert VariableResolves(g, g.plc.variables[v]) && !Names(g.plc.variables[v], EntitiesOf(g.rows, package));
    }
    forall p | p in h.plc.programs ensures HasPackage(h, h.plc.programs[p].tenant, h.plc.programs[p].package) {
      assert HasPackage(g, g.plc.programs[p].tenant, g.plc.programs[p].package);
    }
    forall k | k in h.rows && h.rows[k].canonical.Some? ensures Key(Entity, h.rows[k].canonical.value) in h.rows {
      assert RowResolves(g, k);
    }
  }

  /** The other packages' subjects stay grounded and linked. */
  lemma PackageDropKeepsInv<P>(g: Graph<P>, package: PackageId)
    requires Inv(g) && !PackageRefused(g, package)
    ensures Inv(PackageDropped(g, package))
  {
    PackageFailsOnlyOnOutsideVariables(g, package);
    PackageDropKeepsLinks(g, package);
  }
}
