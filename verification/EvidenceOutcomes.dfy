/** What the operations on the evidence graph leave, told row by row and binding by
    binding. */
module EvidenceOutcomes {
  import opened Wrappers
  import opened Identifiers
  import opened EvidenceGraph

  // ---- creating ------------------------------------------------------------------

  /** A row more, bound to these locators. */
  ghost predicate CreatedAs<P>(g: Graph<P>, h: Graph<P>, k: Key, row: Row<P>, ids: seq<EvidenceId>) {
    && k in h.rows && h.rows[k] == row
    && (forall x :: x != k ==> (x in h.rows <==> x in g.rows))
    && (forall x :: x in h.rows && x != k ==> h.rows[x] == g.rows[x])
    && (forall b :: b in h.bindings <==>
          b in g.bindings || (b.tenant == row.tenant && b.subject == k && b.evidence in ids))
    && h.packages == g.packages && h.evidence == g.evidence && h.plc == g.plc
  }

  lemma CreateOutcome<P>(g: Graph<P>, k: Key, row: Row<P>, ids: seq<EvidenceId>)
    ensures CreatedAs(g, Created(g, k, row, ids), k, row, ids)
  {
    var h := Created(g, k, row, ids);
    forall b: Binding | b.tenant == row.tenant && b.subject == k && b.evidence in ids ensures b in h.bindings {
      assert b == Binding(row.tenant, b.evidence, k);
    }
  }

  /** An entity of this tenant and package. */
  ghost predicate IsEntity<P>(g: Graph<P>, row: Row<P>, id: RowId) {
    exists k :: k in g.rows && k.kind == Entity && k.id == id
                && g.rows[k].tenant == row.tenant && g.rows[k].package == row.package
  }

  /** Nothing stands in the way of the row. */
  ghost predicate MayBeCreated<P>(g: Graph<P>, kind: Kind, row: Row<P>, ids: seq<EvidenceId>) {
    && row.package in g.packages && g.packages[row.package] == row.tenant
    && (kind == BehaviorClaim ==> |row.path| > 0)
    && (kind == Relation || kind == RelationCandidate ==>
          && (row.source.Some? ==> IsEntity(g, row, row.source.value))
          && (row.target.Some? ==> IsEntity(g, row, row.target.value)))
    && (kind == Relation ==>
          && row.source != row.target
          && !exists k :: k in g.rows && k.kind == Relation && LikeRelation(g.rows[k], row))
    && |ids| > 0 && forall e :: e in ids ==> e in g.evidence && g.evidence[e].tenant == row.tenant
  }

  /** Of the same tenant and package, between the same ends, of the same kind. */
  predicate LikeRelation<P>(a: Row<P>, b: Row<P>) {
    a.tenant == b.tenant && a.package == b.package && a.source == b.source && a.target == b.target
    && a.relation == b.relation
  }

  /** A row is created exactly when nothing stands in its way; the fault says what does. */
  lemma CreationFaults<P>(g: Graph<P>, kind: Kind, row: Row<P>, ids: seq<EvidenceId>)
    ensures CreateFault(g, kind, row, ids) == None <==> MayBeCreated(g, kind, row, ids)
    ensures CreateFault(g, kind, row, ids) == Some(IntegrityError) ==>
              kind == Relation && (row.source == row.target || exists k :: k in g.rows && LikeRelation(g.rows[k], row))
    ensures CreateFault(g, kind, row, ids) == Some(NoEvidence) ==>
              |ids| == 0 || (kind == BehaviorClaim && |row.path| == 0)
    ensures CreateFault(g, kind, row, ids) == Some(NotFound) ==>
              || row.package !in g.packages || g.packages[row.package] != row.tenant
              || (row.source.Some? && !IsEntity(g, row, row.source.value))
              || (row.target.Some? && !IsEntity(g, row, row.target.value))
              || exists e :: e in ids && (e !in g.evidence || g.evidence[e].tenant != row.tenant)
  {
    forall id: RowId ensures IsEntity(g, row, id) <==> HasEntity(g, row.tenant, row.package, Some(id)) {
      if HasEntity(g, row.tenant, row.package, Some(id)) { assert Key(Entity, id) in g.rows; }
    }
  }

  // ---- promoting -----------------------------------------------------------------

  ghost predicate InGroup(stored: seq<Stored>, k: Key) {
    k.kind == EntityCandidate && exists i :: 0 <= i < |stored| && stored[i].candidate == k.id
  }

  /** The entity with the group's evidence, and the group's candidates pointing at it. */
  ghost predicate PromotedAs<P>(g: Graph<P>, h: Graph<P>, entity: RowId, row: Row<P>, stored: seq<Stored>) {
    var e := Key(Entity, entity);
    && e in h.rows && h.rows[e] == row
    && (forall x :: x != e ==> (x in h.rows <==> x in g.rows))
    && (forall x :: x in h.rows && x != e ==>
          h.rows[x] == if InGroup(stored, x) then g.rows[x].(canonical := Some(entity)) else g.rows[x])
    && (forall b :: b in h.bindings <==>
          || b in g.bindings
          || (b.tenant == row.tenant && b.subject == e
               && exists i :: 0 <= i < |stored| && stored[i].evidence == b.evidence))
    && h.packages == g.packages && h.evidence == g.evidence && h.plc == g.plc
  }

  lemma PromoteOutcome<P>(g: Graph<P>, entity: RowId, row: Row<P>, stored: seq<Stored>)
    ensures PromotedAs(g, Promoted(g, entity, row, stored), entity, row, stored)
  {
    var e, ids := Key(Entity, entity), EvidenceIds(stored);
    CreateOutcome(g, e, row, ids);
    forall d: EvidenceId ensures d in ids <==> exists i :: 0 <= i < |stored| && stored[i].evidence == d {
      if i :| 0 <= i < |stored| && stored[i].evidence == d { assert ids[i] == d; }
    }
    forall k: Key
      ensures InGroup(stored, k) <==> k.kind == EntityCandidate && exists s :: s in stored && s.candidate == k.id
    {
      if i :| 0 <= i < |stored| && stored[i].candidate == k.id { assert stored[i] in stored; }
    }
  }

  // ---- clearing a package's identities -------------------------------------------------

  /** A conflict, a candidate or an entity of the package that one of the methods produced. */
  predicate IsOwn<P>(g: Graph<P>, k: Key, tenant: TenantId, package: PackageId, producers: set<string>) {
    && k in g.rows && (k.kind == Conflict || k.kind == EntityCandidate || k.kind == Entity)
    && g.rows[k].tenant == tenant && g.rows[k].package == package && g.rows[k].producer in producers
  }

  ghost predicate EndIsOwn<P>(g: Graph<P>, k: Key, tenant: TenantId, package: PackageId, producers: set<string>)
    requires k in g.rows
  {
    && k.kind == Relation
    && (|| (g.rows[k].source.Some? && IsOwn(g, Key(Entity, g.rows[k].source.value), tenant, package, producers))
        || (g.rows[k].target.Some? && IsOwn(g, Key(Entity, g.rows[k].target.value), tenant, package, producers)))
  }

  /** Gone are the methods' own rows, relations with one of their entities at an end, the
      bindings of the own rows, and the locators that only those cited. */
  ghost predicate ClearedAs<P>(g: Graph<P>, h: Graph<P>, tenant: TenantId, package: PackageId, producers: set<string>) {
    && (forall k :: k in h.rows <==>
          && k in g.rows && !IsOwn(g, k, tenant, package, producers) && !EndIsOwn(g, k, tenant, package, producers))
    && (forall k :: k in h.rows ==> h.rows[k] == g.rows[k])
    && (forall b :: b in h.bindings <==>
          b in g.bindings && !(b.tenant == tenant && IsOwn(g, b.subject, tenant, package, producers)))
    && (forall e :: e in g.evidence ==>
          (e !in h.evidence <==>
           && g.evidence[e].tenant == tenant
           && (exists b :: b in g.bindings && b !in h.bindings && b.evidence == e)
           && !exists b :: b in h.bindings && b.tenant == tenant && b.evidence == e))
    && (forall e :: e in h.evidence ==> e in g.evidence && h.evidence[e] == g.evidence[e])
    && h.packages == g.packages && h.plc == g.plc
  }

  lemma ClearOutcome<P>(g: Graph<P>, tenant: TenantId, package: PackageId, producers: set<string>)
    ensures ClearedAs(g, Cleared(g, tenant, package, producers), tenant, package, producers)
  {
    var h, own := Cleared(g, tenant, package, producers), OwnRows(g, tenant, package, producers);
    forall k: Key ensures k in own <==> IsOwn(g, k, tenant, package, producers) {}
    var dropped := BindingsOf(g.bindings, tenant, own);
    assert forall b :: b in dropped <==> b in g.bindings && b !in h.bindings;
    forall e | e in g.evidence && e !in h.evidence ensures Cites(dropped, tenant, e) {}
  }

  // ---- dropping a document's evidence --------------------------------------------------

  ghost predicate HasBinding<P>(h: Graph<P>, tenant: TenantId, k: Key) {
    exists b :: b in h.bindings && b.tenant == tenant && b.subject == k
  }

  /** The row's last binding went. */
  ghost predicate LostAll<P>(g: Graph<P>, h: Graph<P>, k: Key) {
    k in g.rows && !HasBinding(h, g.rows[k].tenant, k)
  }

  ghost predicate EndLostAll<P>(g: Graph<P>, h: Graph<P>, k: Key)
    requires k in g.rows
  {
    && k.kind == Relation
    && (|| (g.rows[k].source.Some? && LostAll(g, h, Key(Entity, g.rows[k].source.value)))
        || (g.rows[k].target.Some? && LostAll(g, h, Key(Entity, g.rows[k].target.value))))
  }

  /** Gone are the locators of the document, the bindings that cite them, the rows that
      lost their last binding, and relations with such an entity at an end. */
  ghost predicate DroppedAs<P>(g: Graph<P>, h: Graph<P>, tenant: TenantId, document: DocumentId) {
    && (forall e :: e in h.evidence <==>
          e in g.evidence && !(g.evidence[e].tenant == tenant && g.evidence[e].document == document))
    && (forall e :: e in h.evidence ==> h.evidence[e] == g.evidence[e])
    && (forall b :: b in h.bindings <==> b in g.bindings && b.evidence in h.evidence)
    && (forall k :: k in h.rows <==> k in g.rows && !LostAll(g, h, k) && !EndLostAll(g, h, k))
    && (forall k :: k in h.rows ==> h.rows[k] == g.rows[k])
    && h.packages == g.packages && h.plc == g.plc
  }

  lemma DropOutcome<P>(g: Graph<P>, tenant: TenantId, document: DocumentId)
    requires Inv(g)
    ensures DroppedAs(g, Dropped(g, tenant, document), tenant, document)
  {
    DropKeepsOtherBindings(g, tenant, document);
    forall k: Key ensures k in Ungrounded(g, tenant, document) <==> LostAll(g, Dropped(g, tenant, document), k) {
      if k in g.rows { LosesItsBindings(g, tenant, document, k); }
    }
    DropTakesRows(g, tenant, document);
  }

  lemma DropKeepsOtherBindings<P>(g: Graph<P>, tenant: TenantId, document: DocumentId)
    requires Inv(g)
    ensures var h := Dropped(g, tenant, document);
            && (forall e :: e in h.evidence <==>
                  e in g.evidence && !(g.evidence[e].tenant == tenant && g.evidence[e].document == document))
            && (forall e :: e in h.evidence ==> h.evidence[e] == g.evidence[e])
            && (forall b :: b in h.bindings <==> b in g.bindings && b.evidence in h.evidence)
  {
    var h := Dropped(g, tenant, document);
    forall b | b in g.bindings ensures b in h.bindings <==> b.evidence in h.evidence {
      assert b.evidence in g.evidence;
    }
  }

  lemma DropTakesRows<P>(g: Graph<P>, tenant: TenantId, document: DocumentId)
    requires Inv(g)
    requires forall k :: k in Ungrounded(g, tenant, document) <==> LostAll(g, Dropped(g, tenant, document), k)
    ensures var h := Dropped(g, tenant, document);
            && (forall k :: k in h.rows <==> k in g.rows && !LostAll(g, h, k) && !EndLostAll(g, h, k))
            && (forall k :: k in h.rows ==> h.rows[k] == g.rows[k])
  {
  }

  lemma LosesItsBindings<P>(g: Graph<P>, tenant: TenantId, document: DocumentId, k: Key)
    requires Inv(g) && k in g.rows
    ensures k in Ungrounded(g, tenant, document) <==> LostAll(g, Dropped(g, tenant, document), k)
  {
    var h := Dropped(g, tenant, document);
    var b :| b in g.bindings && b.tenant == g.rows[k].tenant && b.subject == k;
    if g.rows[k].tenant != tenant { assert b in h.bindings; }
  }

  // ---- deleting a package --------------------------------------------------------------

  /** Gone are the package, its rows, its programs and their variables. */
  ghost predicate PackageDroppedAs<P>(g: Graph<P>, h: Graph<P>, package: PackageId) {
    && (forall p :: p in h.packages <==> p in g.packages && p != package)
    && (forall p :: p in h.packages ==> h.packages[p] == g.packages[p])
    && (forall k :: k in h.rows <==> k in g.rows && g.rows[k].package != package)
    && (forall k :: k in h.rows ==> h.rows[k] == g.rows[k])
    && (forall p :: p in h.plc.programs <==> p in g.plc.programs && g.plc.programs[p].package != package)
    && (forall p :: p in h.plc.programs ==> h.plc.programs[p] == g.plc.programs[p])
    && (forall v :: v in h.plc.variables <==>
          v in g.plc.variables && (g.plc.variables[v].program in g.plc.programs ==>
              g.plc.variables[v].program in h.plc.programs))
    && (forall v :: v in h.plc.variables ==> h.plc.variables[v] == g.plc.variables[v])
    && h.evidence == g.evidence && h.bindings == g.bindings
  }

  lemma PackageOutcome<P>(g: Graph<P>, package: PackageId)
    requires Inv(g)
    ensures PackageDroppedAs(g, PackageDropped(g, package), package)
  {
    PackageFailsOnlyOnOutsideVariables(g, package);
  }
}
