/** Every run of the operations of the evidence graph (app/services/engineering.py,
    app/services/deletion.py). */
module EvidenceRuns {
  import opened Wrappers
  import opened Identifiers
  import opened EvidenceGraph

  // ---- whole runs ------------------------------------------------------------

  datatype Step<P> =
    | AddPackage(package: PackageId, tenant: TenantId)
    | RecordEvidence(evidence: EvidenceId, locator: Evidence)
    | Create(key: Key, row: Row<P>, ids: seq<EvidenceId>)
    | Promote(entity: RowId, row: Row<P>, stored: seq<Stored>)
    | RecordOverride
    | Clear(tenant: TenantId, package: PackageId, producers: set<string>)
    | DropEvidence(tenant: TenantId, document: DocumentId)
    | DropAssignments(tenant: TenantId, document: DocumentId)
    | DropPackage(tenant: TenantId, package: PackageId)
    | AddProgram(program: RowId, made: Program)
    | AddVariable(variable: RowId, named: Variable)

  /** The statement goes through. One that does not aborts its transaction and changes nothing. */
  predicate Succeeds<P>(g: Graph<P>, step: Step<P>) {
    match step
    case AddPackage(package, tenant) => package !in g.packages
    case RecordEvidence(e, locator) => e !in g.evidence
    case Create(k, row, ids) => Unseen(g, k) && WellFormed(k.kind, row) && CreateFault(g, k.kind, row, ids) == None
    case Promote(entity, row, stored) =>
      && Unseen(g, Key(Entity, entity)) && WellFormed(Entity, row) && row.producer == RESOLVER_METHOD
      && CreateFault(g, Entity, row, EvidenceIds(stored)) == None && Promotable(g, row, stored)
    case RecordOverride => true
    case Clear(tenant, package, producers) =>
      HasPackage(g, tenant, package) && !ClearRefused(g, tenant, package, producers)
    case DropEvidence(tenant, document) => !DropRefused(g, tenant, document)
    case DropAssignments(tenant, document) => true
    case DropPackage(tenant, package) => HasPackage(g, tenant, package) && !PackageRefused(g, package)
    case AddProgram(p, made) => p !in g.plc.programs && HasPackage(g, made.tenant, made.package)
    case AddVariable(v, named) => v !in g.plc.variables && VariableResolves(g, named)
  }

  function WithoutAssignments<P>(rows: Rows<P>, tenant: TenantId, document: DocumentId): Rows<P> {
    map k | k in rows && !(k.kind == Assignment && rows[k].tenant == tenant && rows[k].document == Some(document)) ::
        rows[k]
  }

  function Apply<P>(g: Graph<P>, step: Step<P>): Graph<P> {
    if !Succeeds(g, step) then g
    else
      match step
      case AddPackage(package, tenant) => g.(packages := g.packages[package := tenant])
      case RecordEvidence(e, locator) => g.(evidence := g.evidence[e := locator])
      case Create(k, row, ids) => Created(g, k, row, ids)
      case Promote(entity, row, stored) => Promoted(g, entity, row, stored)
      case RecordOverride => g
      case Clear(tenant, package, producers) => Cleared(g, tenant, package, producers)
      case DropEvidence(tenant, document) => Dropped(g, tenant, document)
      case DropAssignments(tenant, document) => g.(rows := WithoutAssignments(g.rows, tenant, document))
      case DropPackage(tenant, package) => PackageDropped(g, package)
      case AddProgram(p, made) => g.(plc := g.plc.(programs := g.plc.programs[p := made]))
      case AddVariable(v, named) => g.(plc := g.plc.(variables := g.plc.variables[v := named]))
  }

  function Run<P>(g: Graph<P>, steps: seq<Step<P>>): Graph<P>
    decreases |steps|
  {
    if steps == [] then g else Run(Apply(g, steps[0]), steps[1..])
  }

  /** Steps that touch neither rows with links nor any binding. */
  lemma TablesGrow<P>(g: Graph<P>, h: Graph<P>)
    requires Inv(g) && h.bindings == g.bindings && h.rows == g.rows && PlcResolves(h)
    requires forall p :: p in g.packages ==> p in h.packages && h.packages[p] == g.packages[p]
    requires forall e :: e in g.evidence ==> e in h.evidence && h.evidence[e] == g.evidence[e]
    ensures Inv(h)
  {
    forall k | k in h.rows ensures RowResolves(h, k) {
      assert RowResolves(g, k);
    }
  }

  lemma AddPackageKeepsPlc<P>(g: Graph<P>, package: PackageId, tenant: TenantId)
    requires PlcResolves(g) && package !in g.packages
    ensures PlcResolves(g.(packages := g.packages[package := tenant]))
  {
    var h := g.(packages := g.packages[package := tenant]);
    forall v | v in h.plc.variables ensures VariableResolves(h, h.plc.variables[v]) {
      assert VariableResolves(g, g.plc.variables[v]);
    }
    forall p | p in h.plc.programs ensures HasPackage(h, h.plc.programs[p].tenant, h.plc.programs[p].package) {
      assert HasPackage(g, g.plc.programs[p].tenant, g.plc.programs[p].package);
    }
  }

  lemma PlcGrows<P>(g: Graph<P>, h: Graph<P>)
    requires PlcResolves(g) && h.rows == g.rows && h.packages == g.packages
    requires forall p :: p in h.plc.programs ==>
               (p in g.plc.programs && h.plc.programs[p] == g.plc.programs[p])
               || HasPackage(g, h.plc.programs[p].tenant, h.plc.programs[p].package)
    requires forall p :: p in g.plc.programs ==> p in h.plc.programs && h.plc.programs[p] == g.plc.programs[p]
    requires forall v :: v in h.plc.variables ==>
               (v in g.plc.variables && h.plc.variables[v] == g.plc.variables[v])
                   || VariableResolves(g, h.plc.variables[v])
    ensures PlcResolves(h)
  {
    forall v | v in h.plc.variables ensures VariableResolves(h, h.plc.variables[v]) {
      assert VariableResolves(g, h.plc.variables[v]);
    }
    forall p | p in h.plc.programs ensures HasPackage(h, h.plc.programs[p].tenant, h.plc.programs[p].package) {
      assert HasPackage(g, h.plc.programs[p].tenant, h.plc.programs[p].package);
    }
  }

  /** Dropping a document's assignments takes these rows of the tenant and no others. */
  lemma DropAssignmentsOutcome<P>(g: Graph<P>, tenant: TenantId, document: DocumentId)
    ensures var h := Apply(g, DropAssignments(tenant, document));
            && (forall k :: k in g.rows && k !in h.rows <==>
                  k in g.rows && k.kind == Assignment && g.rows[k].tenant == tenant
                  && g.rows[k].document == Some(document))
            && (forall k :: k in h.rows ==> k in g.rows && h.rows[k] == g.rows[k])
            && h == g.(rows := h.rows)
  {
  }

  lemma DropAssignmentsKeepsInv<P>(g: Graph<P>, tenant: TenantId, document: DocumentId)
    requires Inv(g)
    ensures Inv(g.(rows := WithoutAssignments(g.rows, tenant, document)))
  {
    var h := g.(rows := WithoutAssignments(g.rows, tenant, document));
    forall k | k in h.rows ensures RowResolves(h, k) {
      assert RowResolves(g, k);
    }
    PlcKeepsResolving(g, h);
  }

  /** Steps of the PLC tables and of packages. */
  lemma PlcStepKeepsInv<P>(g: Graph<P>, step: Step<P>)
    requires Inv(g) && Succeeds(g, step) && (step.AddPackage? || step.AddProgram? || step.AddVariable?)
    ensures Inv(Apply(g, step))
  {
    var h := Apply(g, step);
    match step
    case AddPackage(package, tenant) =>
      AddPackageKeepsPlc(g, package, tenant);
      TablesGrow(g, h);
    case _ =>
      PlcGrows(g, h);
      TablesGrow(g, h);
  }

  lemma StepKeepsInv<P>(g: Graph<P>, step: Step<P>)
    requires Inv(g)
    ensures Inv(Apply(g, step))
  {
    if Succeeds(g, step) {
      match step
      case Create(k, row, ids) => CreateKeepsInv(g, k, row, ids);
      case Promote(entity, row, stored) => PromoteKeepsInv(g, entity, row, stored);
      case RecordEvidence(e, locator) => RecordKeepsInv(g, e, locator);
      case RecordOverride =>
      case Clear(tenant, package, producers) => ClearKeepsInv(g, tenant, package, producers);
      case DropEvidence(tenant, document) => DropKeepsInv(g, tenant, document);
      case DropAssignments(tenant, document) => DropAssignmentsKeepsInv(g, tenant, document);
      case DropPackage(tenant, package) => PackageDropKeepsInv(g, package);
      case _ => PlcStepKeepsInv(g, step);
    }
  }

  /** Over any run of create, record, promote, override, clear and drop steps, of PLC
      rows and of whole packages: the invariant holds. */
  lemma {:induction false} RunsKeepInv<P>(g: Graph<P>, steps: seq<Step<P>>)
    requires Inv(g)
    ensures Inv(Run(g, steps))
    decreases |steps|
  {
    if steps != [] {
      StepKeepsInv(g, steps[0]);
      RunsKeepInv(Apply(g, steps[0]), steps[1..]);
    }
  }

  /** After any run from the empty graph every surviving subject keeps at least one
      binding to an existing locator of its own tenant. */
  lemma SubjectsStayGrounded<P>(steps: seq<Step<P>>, k: Key)
    requires k in Run(EmptyGraph(), steps).rows
    ensures var g := Run(EmptyGraph(), steps);
            exists b :: b in g.bindings && b.subject == k && b.tenant == g.rows[k].tenant
                        && b.evidence in g.evidence && g.evidence[b.evidence].tenant == g.rows[k].tenant
  {
    RunsKeepInv(EmptyGraph(), steps);
  }

  // ---- refusals are reachable ---------------------------------------------------

  /** An entity of the resolver, with its only evidence in document 0. */
  function OneEntity<P>(payload: P): seq<Step<P>> {
    [AddPackage(0, 0), RecordEvidence(0, Evidence(0, 0)),
     Create(Key(Entity, 0), Row(0, 0, RESOLVER_METHOD, None, None, None, None, "", [], payload), [0])]
  }

  function EntityGraph<P>(payload: P): Graph<P> {
    Graph(map[0 := 0], map[0 := Evidence(0, 0)], {Binding(0, 0, Key(Entity, 0))},
          map[Key(Entity, 0) := Row(0, 0, RESOLVER_METHOD, None, None, None, None, "", [], payload)], NO_PLC)
  }

  lemma OneEntityIsMade<P>(payload: P)
    ensures Run(EmptyGraph(), OneEntity(payload)) == EntityGraph(payload)
  {
    var steps := OneEntity(payload);
    var g1: Graph<P> := EmptyGraph().(packages := map[0 := 0]);
    var g2 := g1.(evidence := map[0 := Evidence(0, 0)]);
    assert Apply(EmptyGraph(), steps[0]) == g1 && Apply(g1, steps[1]) == g2;
    assert CreateFault(g2, Entity, steps[2].row, [0]) == None;
    assert Apply(g2, steps[2]) == EntityGraph(payload);
    RunThree(EmptyGraph(), steps);
  }

  lemma RunThree<P>(g: Graph<P>, steps: seq<Step<P>>)
    requires |steps| == 3
    ensures Run(g, steps) == Apply(Apply(Apply(g, steps[0]), steps[1]), steps[2])
  {
    var two := steps[1..];
    var one := two[1..];
    assert two[0] == steps[1] && one[0] == steps[2] && one[1..] == [];
    assert Run(Apply(g, steps[0]), two) == Run(Apply(Apply(g, steps[0]), two[0]), one);
  }

  lemma {:induction false} RunConcat<P>(g: Graph<P>, first: seq<Step<P>>, more: seq<Step<P>>)
    ensures Run(g, first + more) == Run(Run(g, first), more)
    decreases |first|
  {
    if first == [] {
      assert first + more == more;
    } else {
      assert (first + more)[1..] == first[1..] + more;
      RunConcat(Apply(g, first[0]), first[1..], more);
    }
  }

  /** The entity's one binding leads to document 0. */
  ghost predicate OnlyInDocumentZero<P>(g: Graph<P>) {
    && Key(Entity, 0) in g.rows && g.rows[Key(Entity, 0)].tenant == 0 && g.rows[Key(Entity, 0)].package == 0
    && g.rows[Key(Entity, 0)].producer == RESOLVER_METHOD
    && 0 in g.evidence && g.evidence[0] == Evidence(0, 0)
    && (forall b :: b in g.bindings && b.subject == Key(Entity, 0) <==> b == Binding(0, 0, Key(Entity, 0)))
  }

  /** It goes with that document's evidence, and it is the resolver's own. */
  lemma LosesItsEntity<P>(g: Graph<P>)
    requires OnlyInDocumentZero(g)
    ensures Key(Entity, 0) in Ungrounded(g, 0, 0)
    ensures Key(Entity, 0) in OwnRows(g, 0, 0, {RESOLVER_METHOD, EXTRACTOR_METHOD})
  {
    assert Binding(0, 0, Key(Entity, 0)) in g.bindings;
  }

  lemma RunTwoMore<P>(payload: P, more: seq<Step<P>>)
    requires |more| == 2
    ensures Run(EmptyGraph(), OneEntity(payload) + more) == Apply(Apply(EntityGraph(payload), more[0]), more[1])
  {
    OneEntityIsMade(payload);
    RunConcat(EmptyGraph(), OneEntity(payload), more);
    var last := more[1..];
    assert last[0] == more[1] && last[1..] == [];
    assert Run(EntityGraph(payload), more) == Run(Apply(EntityGraph(payload), more[0]), last);
  }

  function NamedByVariable<P>(payload: P): Graph<P> {
    EntityGraph(payload).(plc := Plc(map[0 := Program(0, 0)], map[0 := Variable(0, 0, Some(0))]))
  }

  lemma NamedByVariableIsReached<P>(payload: P)
    ensures Run(EmptyGraph(),
                OneEntity(payload) + [AddProgram(0, Program(0, 0)), AddVariable(0, Variable(0, 0, Some(0)))])
            == NamedByVariable(payload)
  {
    var more: seq<Step<P>> := [AddProgram(0, Program(0, 0)), AddVariable(0, Variable(0, 0, Some(0)))];
    RunTwoMore(payload, more);
    var g := EntityGraph(payload).(plc := Plc(map[0 := Program(0, 0)], map[]));
    assert Apply(EntityGraph(payload), more[0]) == g;
    assert VariableResolves(g, Variable(0, 0, Some(0)));
  }

  /** A run after which deleting the document and clearing the resolver's rows both fail,
      though there is no relation candidate: a PLC variable names the entity. */
  lemma RefusedByVariable<P>(payload: P)
    ensures var g := Run(EmptyGraph(),
                         OneEntity(payload) + [AddProgram(0, Program(0, 0)), AddVariable(0, Variable(0, 0, Some(0)))]);
            && (forall k :: k in g.rows ==> k.kind != RelationCandidate)
            && DropRefused(g, 0, 0) && ClearRefused(g, 0, 0, {RESOLVER_METHOD, EXTRACTOR_METHOD})
  {
    NamedByVariableIsReached(payload);
    var g := NamedByVariable(payload);
    LosesItsEntity(g);
    assert Names(g.plc.variables[0], Ungrounded(g, 0, 0));
    assert Names(g.plc.variables[0], OwnRows(g, 0, 0, {RESOLVER_METHOD, EXTRACTOR_METHOD}));
  }

  function Candidate<P>(payload: P): Row<P> {
    Row(0, 0, "", None, None, Some(0), None, "", [], payload)
  }

  function NamedByCandidate<P>(payload: P): Graph<P> {
    var g := EntityGraph(payload);
    Created(g.(evidence := g.evidence[1 := Evidence(0, 1)]), Key(RelationCandidate, 0), Candidate(payload), [1])
  }

  lemma NamedByCandidateIsReached<P>(payload: P)
    ensures Run(EmptyGraph(), OneEntity(payload) + [RecordEvidence(1, Evidence(0, 1)),
                                                    Create(Key(RelationCandidate, 0), Candidate(payload), [1])])
         == NamedByCandidate(payload)
  {
    var more: seq<Step<P>> := [RecordEvidence(1, Evidence(0, 1)),
        Create(Key(RelationCandidate, 0), Candidate(payload), [1])];
    RunTwoMore(payload, more);
    var g1 := EntityGraph(payload);
    var g2 := g1.(evidence := g1.evidence[1 := Evidence(0, 1)]);
    assert Apply(g1, more[0]) == g2;
    assert CreateFault(g2, RelationCandidate, Candidate(payload), [1]) == None;
  }

  /** The same with a relation candidate that another document grounds, and no PLC row. */
  lemma RefusedByRelationCandidate<P>(payload: P)
    ensures var g := Run(EmptyGraph(),
                         OneEntity(payload) + [RecordEvidence(1, Evidence(0, 1)),
                                               Create(Key(RelationCandidate, 0), Candidate(payload), [1])]);
            && g.plc == NO_PLC
            && DropRefused(g, 0, 0) && ClearRefused(g, 0, 0, {RESOLVER_METHOD, EXTRACTOR_METHOD})
  {
    NamedByCandidateIsReached(payload);
    var k, g := Key(RelationCandidate, 0), NamedByCandidate(payload);
    LosesItsEntity(g);
    assert Binding(0, 1, k) in KeptBindings(g.bindings, LostEvidence(g, 0, 0));
    assert k !in Ungrounded(g, 0, 0);
    assert Refuses(g.rows, k, Ungrounded(g, 0, 0));
    assert Refuses(g.rows, k, OwnRows(g, 0, 0, {RESOLVER_METHOD, EXTRACTOR_METHOD}));
  }

  function OtherPackageNames<P>(payload: P): Graph<P> {
    EntityGraph(payload).(packages := map[0 := 0, 1 := 0],
                          plc := Plc(map[0 := Program(0, 1)], map[0 := Variable(0, 0, Some(0))]))
  }

  lemma OtherPackageNamesIsReached<P>(payload: P)
    ensures Run(EmptyGraph(), OneEntity(payload) + [AddPackage(1, 0), AddProgram(0, Program(0, 1)),
                                                    AddVariable(0, Variable(0, 0, Some(0)))])
            == OtherPackageNames(payload)
  {
    var more: seq<Step<P>> := [AddPackage(1, 0), AddProgram(0, Program(0, 1)), AddVariable(0, Variable(0, 0, Some(0)))];
    OneEntityIsMade(payload);
    RunConcat(EmptyGraph(), OneEntity(payload), more);
    RunThree(EntityGraph(payload), more);
    var g1 := EntityGraph(payload).(packages := map[0 := 0, 1 := 0]);
    var g2 := g1.(plc := Plc(map[0 := Program(0, 1)], map[]));
    assert Apply(EntityGraph(payload), more[0]) == g1 && Apply(g1, more[1]) == g2;
    assert VariableResolves(g2, Variable(0, 0, Some(0)));
  }

  /** A run after which a package cannot be deleted: a variable of another package's
      program names its entity. */
  lemma PackageRefusedByVariable<P>(payload: P)
    ensures var g := Run(EmptyGraph(),
                         OneEntity(payload) + [AddPackage(1, 0), AddProgram(0, Program(0, 1)),
                                               AddVariable(0, Variable(0, 0, Some(0)))]);
            HasPackage(g, 0, 0) && PackageRefused(g, 0)
  {
    OtherPackageNamesIsReached(payload);
    var g := OtherPackageNames(payload);
    assert !OfPackage(g.plc, g.plc.variables[0], 0);
    assert Key(Entity, 0) in EntitiesOf(g.rows, 0) && Names(g.plc.variables[0], EntitiesOf(g.rows, 0));
    assert Held(PlcWithoutPackage(g.plc, 0), EntitiesOf(g.rows, 0));
  }
}
