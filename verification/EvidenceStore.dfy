/** The evidence graph as the tables hold it: each operation runs its statements in
    the order of app/services/engineering.py and is proved to end in the state that
    the functions of `EvidenceGraph` give, or to leave everything as it was. */
module EvidenceStore {
  import opened Wrappers
  import opened Identifiers
  import opened EvidenceGraph
  import opened EvidenceOutcomes

  /** `_GROUNDED_SUBJECTS`: entities come last, after every row that may refer to them. */
  const GROUNDED: seq<Kind> :=
    [Relation, RelationCandidate, BehaviorClaim, Conflict, UnsupportedConstruct, EntityCandidate, Assignment, Entity]

  const IDENTITIES: seq<Kind> := [Conflict, EntityCandidate, Entity]

  function OfKinds(keys: set<Key>, kinds: seq<Kind>): set<Key> {
    set k | k in keys && k.kind in kinds
  }

  predicate Entityless(keys: set<Key>) {
    forall k :: k in keys ==> k.kind != Entity
  }

  lemma OneMoreKind(keys: set<Key>, kinds: seq<Kind>, i: nat)
    requires i < |kinds|
    ensures OfKinds(keys, kinds[..i]) + OfKinds(keys, [kinds[i]]) == OfKinds(keys, kinds[..i + 1])
  {
    assert kinds[..i + 1] == kinds[..i] + [kinds[i]];
  }

  /** Deleting rows that nothing refers to removes just those rows, and is never refused. */
  lemma EntitylessCascade<P>(rows: Rows<P>, plc: Plc, gone: set<Key>)
    requires Entityless(gone)
    ensures Cascade(rows, gone) == rows - gone && !Blocked(rows, plc, gone)
  {
  }

  /** Deleting the entities after everything else meets the obstacles that deleting
      all at once would, and leaves the same rows. */
  lemma EntitiesLast<P>(rows: Rows<P>, plc: Plc, others: set<Key>, entities: set<Key>)
    requires Entityless(others) && forall k :: k in entities ==> k.kind == Entity
    ensures Blocked(Cascade(rows, others), plc, entities) <==> Blocked(rows, plc, others + entities)
    ensures Cascade(Cascade(rows, others), entities) == Cascade(rows, others + entities)
  {
    CascadeTwice(rows, others, entities);
    EntitylessCascade(rows, plc, others);
    var now := Cascade(rows, others);
    forall v: Variable ensures Names(v, entities) <==> Names(v, others + entities) {}
    forall k | k in now && Refuses(now, k, entities) ensures Refuses(rows, k, others + entities) {}
    forall k | k in rows && Refuses(rows, k, others + entities) ensures k in now && Refuses(now, k, entities) {}
  }

  function Unlinked<P>(rows: Rows<P>, candidates: set<Key>): Rows<P> {
    map k | k in rows :: if k in candidates then rows[k].(canonical := None) else rows[k]
  }

  /** Clearing the links of rows that are deleted anyway changes neither obstacles nor outcome. */
  lemma UnlinkingFirst<P>(rows: Rows<P>, plc: Plc, candidates: set<Key>, gone: set<Key>)
    requires candidates <= gone
    ensures Blocked(Unlinked(rows, candidates), plc, gone) <==> Blocked(rows, plc, gone)
    ensures Cascade(Unlinked(rows, candidates), gone) == Cascade(rows, gone)
  {
    var now := Unlinked(rows, candidates);
    forall k | k in rows ensures Refuses(now, k, gone) <==> Refuses(rows, k, gone) {}
  }

  class Store<P> {
    var packages: map<PackageId, TenantId>
    var evidence: map<EvidenceId, Evidence>
    var bindings: set<Binding>
    var rows: Rows<P>
    var plc: Plc

    constructor ()
      ensures State() == EmptyGraph()
    {
      packages, evidence, bindings, rows, plc := map[], map[], {}, map[], NO_PLC;
    }

    function State(): Graph<P>
      reads this
    {
      Graph(packages, evidence, bindings, rows, plc)
    }

    /** One DELETE statement, with what the foreign keys make of it. */
    method DeleteRows(gone: set<Key>) returns (r: Result<(), Fault>)
      modifies this`rows
      ensures r.Err? <==> Blocked(old(rows), plc, gone)
      ensures rows == if r.Ok? then Cascade(old(rows), gone) else old(rows)
    {
      if Blocked(rows, plc, gone) {
        return Err(IntegrityError);
      }
      rows := Cascade(rows, gone);
      return Ok(());
    }

    method RecordEvidence(e: EvidenceId, locator: Evidence)
      requires e !in evidence
      modifies this`evidence
      ensures State() == old(State()).(evidence := old(evidence)[e := locator])
    {
      evidence := evidence[e := locator];
    }

    method BindAll(tenant: TenantId, ids: seq<EvidenceId>, k: Key) returns (r: Result<(), Fault>)
      modifies this`bindings
      ensures r == if ids == [] then Err(NoEvidence)
                   else if !EvidenceOf(State(), tenant, ids) then Err(NotFound)
                   else Ok(())
      ensures bindings == if r.Ok? then Bind(old(bindings), tenant, ids, k) else old(bindings)
    {
      if ids == [] {
        return Err(NoEvidence);
      }
      if exists e :: e in ids && (e !in evidence || evidence[e].tenant != tenant) {
        return Err(NotFound);
      }
      for i := 0 to |ids|
        invariant bindings == Bind(old(bindings), tenant, ids[..i], k)
      {
        assert ids[..i + 1] == ids[..i] + [ids[i]];
        bindings := bindings + {Binding(tenant, ids[i], k)};
      }
      assert ids[..|ids|] == ids;
      return Ok(());
    }

    /** Every `create_*` and `record_*` of a grounded subject: the row is added first and
        the failure of its binding takes it back. */
    method Create(k: Key, row: Row<P>, ids: seq<EvidenceId>) returns (r: Result<(), Fault>)
      requires Unseen(State(), k) && WellFormed(k.kind, row)
      modifies this`rows, this`bindings
      ensures r == match CreateFault(old(State()), k.kind, row, ids) case Some(f) => Err(f) case None => Ok(())
      ensures r.Ok? <==> MayBeCreated(old(State()), k.kind, row, ids)
      ensures State() == if r.Ok? then Created(old(State()), k, row, ids) else old(State())
      ensures r.Ok? ==> CreatedAs(old(State()), State(), k, row, ids)
    {
      CreateOutcome(State(), k, row, ids);
      CreationFaults(State(), k.kind, row, ids);
      if !HasPackage(State(), row.tenant, row.package) {
        return Err(NotFound);
      }
      if k.kind == BehaviorClaim && row.path == [] {
        return Err(NoEvidence);
      }
      if k.kind == Relation || k.kind == RelationCandidate {
        if !HasEntity(State(), row.tenant, row.package, row.source)
            || !HasEntity(State(), row.tenant, row.package, row.target)
        {
          return Err(NotFound);
        }
        if k.kind == Relation && (row.source == row.target || DuplicateEdge(State(), row)) {
          return Err(IntegrityError);
        }
      }
      rows := rows[k := row];
      r := BindAll(row.tenant, ids, k);
      if r.Err? {
        rows := rows - {k};
        assert rows == old(rows);
      }
    }

    /** `_promote_group`: one entity bound to the evidence of every candidate of the
        group, then each candidate pointed at it. */
    method Promote(entity: RowId, row: Row<P>, stored: seq<Stored>) returns (r: Result<(), Fault>)
      requires Unseen(State(), Key(Entity, entity)) && WellFormed(Entity, row) && Promotable(State(), row, stored)
      modifies this`rows, this`bindings
      ensures r == match CreateFault(old(State()), Entity, row, EvidenceIds(stored))
                   case Some(f) => Err(f)
                   case None => Ok(())
      ensures State() == if r.Ok? then Promoted(old(State()), entity, row, stored) else old(State())
      ensures r.Ok? ==> PromotedAs(old(State()), State(), entity, row, stored)
    {
      PromoteOutcome(State(), entity, row, stored);
      r := Create(Key(Entity, entity), row, EvidenceIds(stored));
      if r.Err? {
        return;
      }
      LinkCandidates(entity, stored);
    }

    /** Its last loop. */
    method LinkCandidates(entity: RowId, stored: seq<Stored>)
      requires forall s :: s in stored ==> Key(EntityCandidate, s.candidate) in rows
      modifies this`rows
      ensures rows == Linked(old(rows), stored, entity)
    {
      assert Linked(rows, stored[..0], entity) == rows;
      for i := 0 to |stored|
        invariant rows == Linked(old(rows), stored[..i], entity)
      {
        var k := Key(EntityCandidate, stored[i].candidate);
        LinkStep(old(rows), stored, entity, i);
        rows := rows[k := rows[k].(canonical := Some(entity))];
      }
      assert stored[..|stored|] == stored;
    }

    /** Conflicts, candidates, entities, in that order, each with its bindings. */
    method DeleteIdentities(tenant: TenantId, own: set<Key>) returns (r: Result<(), Fault>)
      requires forall k :: k in own ==> IsIdentity(k.kind)
      modifies this`rows, this`bindings
      ensures r.Err? <==> Blocked(old(rows), plc, own)
      ensures r.Ok? ==> rows == Cascade(old(rows), own)
      ensures r.Ok? ==> bindings == old(bindings) - BindingsOf(old(bindings), tenant, own)
    {
      AllIdentities(own);
      for i := 0 to |IDENTITIES|
        invariant rows == Cascade(old(rows), OfKinds(own, IDENTITIES[..i]))
        invariant i == |IDENTITIES| ==> !Blocked(old(rows), plc, own)
        invariant bindings == old(bindings) - BindingsOf(old(bindings), tenant, OfKinds(own, IDENTITIES[..i]))
      {
        var ids := OfKinds(own, [IDENTITIES[i]]);
        ClearStep(old(rows), plc, old(bindings), tenant, own, i);
        bindings := bindings - BindingsOf(bindings, tenant, ids);
        r := DeleteRows(ids);
        if r.Err? {
          return;
        }
      }
      return Ok(());
    }

    /** `clear_package_identities`. */
    method ClearPackageIdentities(tenant: TenantId, package: PackageId, producers: set<string>)
        returns (r: Result<(), Fault>)
      modifies this
      ensures r.Err? <==>
              !HasPackage(old(State()), tenant, package) || ClearRefused(old(State()), tenant, package, producers)
      ensures State() == if r.Ok? then Cleared(old(State()), tenant, package, producers) else old(State())
      ensures r.Ok? ==> ClearedAs(old(State()), State(), tenant, package, producers)
    {
      if !HasPackage(State(), tenant, package) {
        return Err(NotFound);
      }
      ClearOutcome(State(), tenant, package, producers);
      var rows0, bindings0 := rows, bindings;
      var own := OwnRows(State(), tenant, package, producers);
      var cited := set b | b in BindingsOf(bindings, tenant, own) :: b.evidence;
      UnlinkingFirst(rows, plc, OfKinds(own, [EntityCandidate]), own);
      OrphansAreUncited(State(), tenant, own);
      rows := Unlinked(rows, OfKinds(own, [EntityCandidate]));
      r := DeleteIdentities(tenant, own);
      if r.Err? {
        rows, bindings := rows0, bindings0;
        return;
      }
      evidence := evidence - (set e | e in cited && e in evidence && evidence[e].tenant == tenant
          && !Cites(bindings, tenant, e));
    }

    /** Subjects that lost their last evidence, kind by kind, entities last. */
    method DeleteUngrounded(tenant: TenantId, affected: set<Key>, ghost g: Graph<P>, ghost document: DocumentId)
      returns (r: Result<(), Fault>)
      requires rows == g.rows && plc == g.plc && bindings == KeptBindings(g.bindings, LostEvidence(g, tenant, document))
      requires affected == Affected(g, tenant, LostEvidence(g, tenant, document))
      modifies this`rows
      ensures r.Err? <==> DropRefused(g, tenant, document)
      ensures r.Ok? ==> rows == Cascade(g.rows, Ungrounded(g, tenant, document))
    {
      ghost var gone := Ungrounded(g, tenant, document);
      AllGrounded(gone);
      assert OfKinds(gone, GROUNDED[..0]) == {};
      for i := 0 to |GROUNDED|
        invariant rows == Cascade(g.rows, OfKinds(gone, GROUNDED[..i]))
        invariant plc == g.plc && bindings == KeptBindings(g.bindings, LostEvidence(g, tenant, document))
        invariant i == |GROUNDED| ==> !Blocked(g.rows, g.plc, gone)
      {
        CleanUpStep(g, rows, tenant, document, i);
        r := DeleteRows(Unbound(rows, bindings, tenant, affected, GROUNDED[i]));
        if r.Err? {
          return;
        }
      }
      return Ok(());
    }

    /** `drop_document_evidence`. */
    method DropDocumentEvidence(tenant: TenantId, document: DocumentId) returns (r: Result<(), Fault>)
      modifies this
      ensures r.Err? <==> DropRefused(old(State()), tenant, document)
      ensures State() == if r.Ok? then Dropped(old(State()), tenant, document) else old(State())
      ensures r.Ok? && Inv(old(State())) ==> DroppedAs(old(State()), State(), tenant, document)
    {
      if Inv(State()) { DropOutcome(State(), tenant, document); }
      var rows0, bindings0, evidence0 := rows, bindings, evidence;
      var lost := LostEvidence(State(), tenant, document);
      var affected := Affected(State(), tenant, lost);
      evidence := evidence - lost;
      bindings := KeptBindings(bindings, lost);
      r := DeleteUngrounded(tenant, affected, old(State()), document);
      if r.Err? {
        rows, bindings, evidence := rows0, bindings0, evidence0;
      }
    }

    /** `delete_package`: an unknown package is no error; otherwise the foreign keys decide. */
    method DeletePackage(tenant: TenantId, package: PackageId) returns (r: Result<bool, Fault>)
      modifies this
      ensures r == if !HasPackage(old(State()), tenant, package) then Ok(false)
                   else if PackageRefused(old(State()), package) then Err(IntegrityError)
                   else Ok(true)
      ensures State() == if r == Ok(true) then PackageDropped(old(State()), package) else old(State())
      ensures r == Ok(true) && Inv(old(State())) ==> PackageDroppedAs(old(State()), State(), package)
    {
      if !HasPackage(State(), tenant, package) {
        return Ok(false);
      }
      if Inv(State()) { PackageOutcome(State(), package); }
      var rows0, plc0 := rows, plc;
      var entities := EntitiesOf(rows, package);
      rows, plc := WithoutPackage(rows, package), PlcWithoutPackage(plc, package);
      var deleted := DeleteRows(entities);
      if deleted.Err? {
        rows, plc := rows0, plc0;
        return Err(IntegrityError);
      }
      packages := packages - {package};
      return Ok(true);
    }

    /** `create_plc_program`. */
    method CreateProgram(p: RowId, made: Program) returns (r: Result<(), Fault>)
      requires p !in plc.programs
      modifies this`plc
      ensures r == if HasPackage(State(), made.tenant, made.package) then Ok(()) else Err(NotFound)
      ensures plc == if r.Ok? then old(plc).(programs := old(plc).programs[p := made]) else old(plc)
    {
      if !HasPackage(State(), made.tenant, made.package) {
        return Err(NotFound);
      }
      plc := plc.(programs := plc.programs[p := made]);
      return Ok(());
    }

    /** `create_plc_variable`: the program is looked up, the entity only by its key. */
    method CreateVariable(v: RowId, named: Variable) returns (r: Result<(), Fault>)
      requires v !in plc.variables
      modifies this`plc
      ensures r.Ok? <==> VariableResolves(old(State()), named)
      ensures r == Err(NotFound) <==>
              named.program !in old(plc).programs || old(plc).programs[named.program].tenant != named.tenant
      ensures plc == if r.Ok? then old(plc).(variables := old(plc).variables[v := named]) else old(plc)
    {
      if named.program !in plc.programs || plc.programs[named.program].tenant != named.tenant {
        return Err(NotFound);
      }
      if named.entity.Some? {
        var e := Key(Entity, named.entity.value);
        if e !in rows || rows[e].tenant != named.tenant {
          return Err(IntegrityError);
        }
      }
      plc := plc.(variables := plc.variables[v := named]);
      return Ok(());
    }
  }

  /** Subjects bound to lost locators. */
  function Affected<P>(g: Graph<P>, tenant: TenantId, lost: set<EvidenceId>): set<Key> {
    set b | b in g.bindings && b.tenant == tenant && b.evidence in lost :: b.subject
  }

  lemma LinkStep<P>(rows: Rows<P>, stored: seq<Stored>, entity: RowId, i: nat)
    requires i < |stored| && Key(EntityCandidate, stored[i].candidate) in rows
    ensures var k := Key(EntityCandidate, stored[i].candidate);
            var before := Linked(rows, stored[..i], entity);
            before[k := before[k].(canonical := Some(entity))] == Linked(rows, stored[..i + 1], entity)
  {
    assert stored[..i + 1] == stored[..i] + [stored[i]];
  }

  /** One statement of a clean-up that goes kind by kind, entities last. */
  lemma DeleteStep<P>(rows: Rows<P>, plc: Plc, gone: set<Key>, kinds: seq<Kind>, i: nat)
    requires i < |kinds| && forall j :: 0 <= j < |kinds| ==> (kinds[j] == Entity <==> j == |kinds| - 1)
    requires i == |kinds| - 1 ==> OfKinds(gone, kinds) == gone
    ensures var before := Cascade(rows, OfKinds(gone, kinds[..i]));
            var ids := OfKinds(gone, [kinds[i]]);
            && before == rows - OfKinds(gone, kinds[..i])
            && Cascade(before, ids) == Cascade(rows, OfKinds(gone, kinds[..i + 1]))
            && (i < |kinds| - 1 ==> !Blocked(before, plc, ids))
            && (i == |kinds| - 1 ==> (Blocked(before, plc, ids) <==> Blocked(rows, plc, gone)))
  {
    var first, ids := OfKinds(gone, kinds[..i]), OfKinds(gone, [kinds[i]]);
    OneMoreKind(gone, kinds, i);
    EntitylessCascade(rows, plc, first);
    CascadeTwice(rows, first, ids);
    if i < |kinds| - 1 {
      EntitylessCascade(Cascade(rows, first), plc, ids);
    } else {
      assert kinds[..i + 1] == kinds;
      EntitiesLast(rows, plc, first, ids);
    }
  }

  lemma EveryKindIsGrounded(kind: Kind)
    ensures kind in GROUNDED
  {
    assert GROUNDED[0] == Relation && GROUNDED[1] == RelationCandidate && GROUNDED[2] == BehaviorClaim;
    assert GROUNDED[3] == Conflict && GROUNDED[4] == UnsupportedConstruct && GROUNDED[5] == EntityCandidate;
    assert GROUNDED[6] == Assignment && GROUNDED[7] == Entity;
  }

  /** A clean-up that goes through all kinds leaves none out. */
  lemma AllGrounded(keys: set<Key>)
    ensures OfKinds(keys, GROUNDED[..|GROUNDED|]) == keys
  {
    assert GROUNDED[..|GROUNDED|] == GROUNDED;
    forall k | k in keys ensures k.kind in GROUNDED {
      EveryKindIsGrounded(k.kind);
    }
  }

  lemma AllIdentities(keys: set<Key>)
    requires forall k :: k in keys ==> IsIdentity(k.kind)
    ensures OfKinds(keys, IDENTITIES[..|IDENTITIES|]) == keys
  {
    assert IDENTITIES[..|IDENTITIES|] == IDENTITIES;
    assert IDENTITIES[0] == Conflict && IDENTITIES[1] == EntityCandidate && IDENTITIES[2] == Entity;
  }

  lemma MoreBindingsOf(bindings: set<Binding>, tenant: TenantId, first: set<Key>, second: set<Key>)
    ensures (bindings - BindingsOf(bindings, tenant, first))
            - BindingsOf(bindings - BindingsOf(bindings, tenant, first), tenant, second)
         == bindings - BindingsOf(bindings, tenant, first + second)
  {
  }

  lemma ClearStep<P>(rows: Rows<P>, plc: Plc, bindings: set<Binding>, tenant: TenantId, own: set<Key>, i: nat)
    requires i < |IDENTITIES| && forall k :: k in own ==> IsIdentity(k.kind)
    ensures var before := Cascade(rows, OfKinds(own, IDENTITIES[..i]));
            var ids := OfKinds(own, [IDENTITIES[i]]);
            var bound := bindings - BindingsOf(bindings, tenant, OfKinds(own, IDENTITIES[..i]));
            && Cascade(before, ids) == Cascade(rows, OfKinds(own, IDENTITIES[..i + 1]))
            && (i < |IDENTITIES| - 1 ==> !Blocked(before, plc, ids))
            && (i == |IDENTITIES| - 1 ==> (Blocked(before, plc, ids) <==> Blocked(rows, plc, own)))
            && bound - BindingsOf(bound, tenant, ids)
                 == bindings - BindingsOf(bindings, tenant, OfKinds(own, IDENTITIES[..i + 1]))
  {
    OneMoreKind(own, IDENTITIES, i);
    MoreBindingsOf(bindings, tenant, OfKinds(own, IDENTITIES[..i]), OfKinds(own, [IDENTITIES[i]]));
    assert OfKinds(own, IDENTITIES) == own;
    DeleteStep(rows, plc, own, IDENTITIES, i);
  }

  lemma OrphansAreUncited<P>(g: Graph<P>, tenant: TenantId, own: set<Key>)
    ensures var bindings := g.bindings - BindingsOf(g.bindings, tenant, own);
            var cited := (set b | b in BindingsOf(g.bindings, tenant, own) :: b.evidence);
            var orphans := (set e | e in cited && e in g.evidence && g.evidence[e].tenant == tenant
                && !Cites(bindings, tenant, e));
            Orphaned(g, tenant, own) == orphans
  {
  }

  /** Of the affected subjects of a kind, those that have no binding left. */
  function Unbound<P>(rows: Rows<P>, bindings: set<Binding>, tenant: TenantId, affected: set<Key>, kind: Kind)
      : set<Key> {
    set k | k in affected && k.kind == kind && k in rows && rows[k].tenant == tenant && !Bound(bindings, tenant, k)
  }

  /** One kind of the clean-up of a document's subjects. */
  lemma CleanUpStep<P>(g: Graph<P>, now: Rows<P>, tenant: TenantId, document: DocumentId, i: nat)
    requires i < |GROUNDED| && now == Cascade(g.rows, OfKinds(Ungrounded(g, tenant, document), GROUNDED[..i]))
    ensures var lost, gone := LostEvidence(g, tenant, document), Ungrounded(g, tenant, document);
            var unbound := Unbound(now, KeptBindings(g.bindings, lost), tenant, Affected(g, tenant, lost), GROUNDED[i]);
            && Cascade(now, unbound) == Cascade(g.rows, OfKinds(gone, GROUNDED[..i + 1]))
            && (i < |GROUNDED| - 1 ==> !Blocked(now, g.plc, unbound))
            && (i == |GROUNDED| - 1 ==> (Blocked(now, g.plc, unbound) <==> Blocked(g.rows, g.plc, gone)))
  {
    var gone := Ungrounded(g, tenant, document);
    DeleteStep(g.rows, g.plc, gone, GROUNDED, i);
    EntitylessCascade(g.rows, g.plc, OfKinds(gone, GROUNDED[..i]));
    UnboundOfKind(g, tenant, document, i);
  }

  lemma UnboundOfKind<P>(g: Graph<P>, tenant: TenantId, document: DocumentId, i: nat)
    requires i < |GROUNDED|
    ensures var lost, gone := LostEvidence(g, tenant, document), Ungrounded(g, tenant, document);
            var now := g.rows - OfKinds(gone, GROUNDED[..i]);
            Unbound(now, KeptBindings(g.bindings, lost), tenant, Affected(g, tenant, lost), GROUNDED[i])
            == OfKinds(gone, [GROUNDED[i]])
  {
    var lost := LostEvidence(g, tenant, document);
    var affected := Affected(g, tenant, lost);
    var gone := Ungrounded(g, tenant, document);
    forall k | k in gone ensures k in affected {
      var b :| b in g.bindings && b.tenant == tenant && b.subject == k;
      assert b in KeptBindings(g.bindings, lost) <==> b.evidence !in lost;
    }
    assert GROUNDED[i] !in GROUNDED[..i];
  }
}
