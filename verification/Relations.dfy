/** How two documents of a tenant relate, and the table of relations
    (app/services/relations.py). */
module Relations {
  import opened Wrappers
  import opened Identifiers

  // ---- what two documents share --------------------------------------------------

  /** `str.strip` and `str.lower`. */
  datatype Folding = Folding(strip: string -> string, lower: string -> string)

  function KeyOf(f: Folding, value: string): string {
    f.lower(f.strip(value))
  }

  predicate KeepsEmpty(f: Folding) {
    f.lower("") == ""
  }

  /** The keys of a list that are not empty. */
  function Keys(f: Folding, values: seq<string>): set<string> {
    set v | v in values && KeyOf(f, v) != "" :: KeyOf(f, v)
  }

  /** Values of the left list, in order and in its spelling, whose key is in both, each key once. */
  function Overlap(f: Folding, left: seq<string>, right: seq<string>): seq<string> {
    if left == [] then []
    else
      var before, v := Overlap(f, left[..|left| - 1], right), left[|left| - 1];
      if KeyOf(f, v) in Keys(f, right) && KeyOf(f, v) !in Keys(f, left[..|left| - 1])
      then before + [f.strip(v)] else before
  }

  /** `_overlap`. */
  method ComputeOverlap(f: Folding, left: seq<string>, right: seq<string>) returns (shared: seq<string>)
    requires KeepsEmpty(f)
    ensures shared == Overlap(f, left, right)
  {
    shared := [];
    if left == [] || right == [] {
      NothingToShare(f, left);
      return;
    }
    var lowered := set v | v in right && f.strip(v) != "" :: KeyOf(f, v);
    assert forall k :: k != "" ==> (k in lowered <==> k in Keys(f, right));
    var seen: set<string> := {};
    for i := 0 to |left|
      invariant shared == Overlap(f, left[..i], right)
      invariant seen == Keys(f, left[..i]) * Keys(f, right)
    {
      assert left[..i + 1][..i] == left[..i];
      assert left[..i + 1] == left[..i] + [left[i]];
      var key := KeyOf(f, left[i]);
      if key != "" && key in lowered && key !in seen {
        seen := seen + {key};
        shared := shared + [f.strip(left[i])];
      }
    }
    assert left[..|left|] == left;
  }

  lemma {:induction false} NothingToShare(f: Folding, left: seq<string>)
    ensures Overlap(f, left, []) == []
  {
    if left != [] { NothingToShare(f, left[..|left| - 1]); }
  }

  lemma KeysSnoc(f: Folding, values: seq<string>, v: string)
    ensures Keys(f, values + [v]) == Keys(f, values) + if KeyOf(f, v) != "" then {KeyOf(f, v)} else {}
  {
  }

  /** How much is shared is the number of common keys, so it does not depend on the side. */
  lemma {:induction false} OverlapCountsCommonKeys(f: Folding, left: seq<string>, right: seq<string>)
    ensures |Overlap(f, left, right)| == |Keys(f, left) * Keys(f, right)|
  {
    if left == [] {
      assert Keys(f, left) * Keys(f, right) == {};
    } else {
      var before, v := left[..|left| - 1], left[|left| - 1];
      assert left == before + [v];
      OverlapCountsCommonKeys(f, before, right);
      KeysSnoc(f, before, v);
      OneMoreKey(Keys(f, before), Keys(f, left), Keys(f, right), KeyOf(f, v));
    }
  }

  lemma OneMoreKey(before: set<string>, after: set<string>, others: set<string>, key: string)
    requires after == before + (if key != "" then {key} else {}) && "" !in others
    ensures |after * others| == |before * others| + if key in others && key !in before then 1 else 0
  {
    if key in others && key !in before {
      assert after * others == (before * others) + {key};
    } else {
      assert after * others == before * others;
    }
  }

  lemma OverlapIsSymmetric(f: Folding, left: seq<string>, right: seq<string>)
    ensures |Overlap(f, left, right)| == |Overlap(f, right, left)|
  {
    OverlapCountsCommonKeys(f, left, right);
    OverlapCountsCommonKeys(f, right, left);
    assert Keys(f, left) * Keys(f, right) == Keys(f, right) * Keys(f, left);
  }

  // ---- the verdict -------------------------------------------------------------------

  datatype Settings = Settings(
    versionSimilarity: real,
    relatedSimilarity: real,
    minSharedEntities: nat,
    minSharedIdentifiers: nat)

  datatype Candidate = Candidate(
    similarity: Option<real>,
    sameFile: bool,
    sameContent: bool,
    identifiers: seq<string>,
    organizations: seq<string>,
    persons: seq<string>,
    dates: seq<string>)

  datatype Kind = ExactDuplicate | ContentDuplicate | PossibleVersion | SameCase | SameEntity | Related

  datatype Decision = Decision(kind: Kind, score: Option<real>, reason: Candidate)

  function SharedEntities(c: Candidate): nat {
    |c.organizations| + |c.persons| + |c.dates|
  }

  predicate AtLeast(similarity: Option<real>, threshold: real) {
    similarity.Some? && similarity.value >= threshold
  }

  /** `classify`: the first rule that matches. */
  function Classify(c: Candidate, s: Settings): Option<Decision> {
    if c.sameFile then Some(Decision(ExactDuplicate, Some(1.0), c))
    else if c.sameContent then Some(Decision(ContentDuplicate, Some(1.0), c))
    else if AtLeast(c.similarity, s.versionSimilarity) && SharedEntities(c) >= s.minSharedEntities
    then Some(Decision(PossibleVersion, c.similarity, c))
    else if |c.identifiers| >= s.minSharedIdentifiers then Some(Decision(SameCase, c.similarity, c))
    else if (c.organizations != [] || c.persons != []) && SharedEntities(c) >= s.minSharedEntities
    then Some(Decision(SameEntity, c.similarity, c))
    else if AtLeast(c.similarity, s.relatedSimilarity) then Some(Decision(Related, c.similarity, c))
    else None
  }

  function Certainty(d: Option<Decision>): nat {
    match d
    case None => 0
    case Some(v) =>
      match v.kind
      case ExactDuplicate => 6
      case ContentDuplicate => 5
      case PossibleVersion => 4
      case SameCase => 3
      case SameEntity => 2
      case Related => 1
  }

  datatype Profile = Profile(identifiers: seq<string>, organizations: seq<string>, persons: seq<string>,
      dates: seq<string>)

  const NO_PROFILE := Profile([], [], [], [])

  datatype Document = Document(tenant: TenantId, deleted: bool, fileHash: string, contentHash: Option<string>,
      profile: Profile)

  predicate SameContent(a: Document, b: Document) {
    a.contentHash.Some? && a.contentHash.value != "" && a.contentHash == b.contentHash
  }

  /** What `b` has in common with `a`. */
  function Compared(f: Folding, a: Document, b: Document, similarity: Option<real>): Candidate {
    Candidate(similarity, a.fileHash == b.fileHash, SameContent(a, b),
              Overlap(f, a.profile.identifiers, b.profile.identifiers),
              Overlap(f, a.profile.organizations, b.profile.organizations),
              Overlap(f, a.profile.persons, b.profile.persons),
              Overlap(f, a.profile.dates, b.profile.dates))
  }

  /** The same signals, whatever the spellings. */
  predicate SameSignals(c: Candidate, d: Candidate) {
    && c.similarity == d.similarity && c.sameFile == d.sameFile && c.sameContent == d.sameContent
    && |c.identifiers| == |d.identifiers| && |c.organizations| == |d.organizations|
    && |c.persons| == |d.persons| && |c.dates| == |d.dates|
  }

  lemma SameSignalsSameVerdict(c: Candidate, d: Candidate, s: Settings)
    requires SameSignals(c, d)
    ensures var there, back := Classify(c, s), Classify(d, s);
            && (there.None? <==> back.None?)
            && (there.Some? && back.Some? ==>
                 there.value.kind == back.value.kind && there.value.score == back.value.score)
  {
    assert c.organizations == [] <==> d.organizations == [];
    assert c.persons == [] <==> d.persons == [];
  }

  /** Reading the comparison the other way round gives the same verdict and score. */
  lemma VerdictIsSymmetric(f: Folding, a: Document, b: Document, similarity: Option<real>, s: Settings)
    ensures var there, back := Classify(Compared(f, a, b, similarity), s), Classify(Compared(f, b, a, similarity), s);
            && (there.None? <==> back.None?)
            && (there.Some? && back.Some? ==>
                 there.value.kind == back.value.kind && there.value.score == back.value.score)
  {
    OverlapIsSymmetric(f, a.profile.identifiers, b.profile.identifiers);
    OverlapIsSymmetric(f, a.profile.organizations, b.profile.organizations);
    OverlapIsSymmetric(f, a.profile.persons, b.profile.persons);
    OverlapIsSymmetric(f, a.profile.dates, b.profile.dates);
    SameSignalsSameVerdict(Compared(f, a, b, similarity), Compared(f, b, a, similarity), s);
  }

  predicate Stronger(more: Candidate, less: Candidate) {
    && (less.similarity.Some? ==> more.similarity.Some? && more.similarity.value >= less.similarity.value)
    && (less.sameFile ==> more.sameFile) && (less.sameContent ==> more.sameContent)
    && |less.identifiers| <= |more.identifiers| && |less.organizations| <= |more.organizations|
    && |less.persons| <= |more.persons| && |less.dates| <= |more.dates|
  }

  lemma StrongerIsMoreCertain(more: Candidate, less: Candidate, s: Settings)
    requires Stronger(more, less)
    ensures Certainty(Classify(less, s)) <= Certainty(Classify(more, s))
  {
    assert SharedEntities(less) <= SharedEntities(more);
    assert less.organizations != [] ==> more.organizations != [];
    assert less.persons != [] ==> more.persons != [];
  }

  predicate Includes(more: Profile, less: Profile) {
    && (forall v :: v in less.identifiers ==> v in more.identifiers)
    && (forall v :: v in less.organizations ==> v in more.organizations)
    && (forall v :: v in less.persons ==> v in more.persons)
    && (forall v :: v in less.dates ==> v in more.dates)
  }

  lemma MoreInCommon(f: Folding, left: seq<string>, right: seq<string>, left': seq<string>, right': seq<string>)
    requires (forall v :: v in left ==> v in left') && (forall v :: v in right ==> v in right')
    ensures |Overlap(f, left, right)| <= |Overlap(f, left', right')|
  {
    OverlapCountsCommonKeys(f, left, right);
    OverlapCountsCommonKeys(f, left', right');
    FewerKeys(Keys(f, left) * Keys(f, right), Keys(f, left') * Keys(f, right'));
  }

  lemma {:induction false} FewerKeys(a: set<string>, b: set<string>)
    requires a <= b
    ensures |a| <= |b|
  {
    if a != {} {
      var x :| x in a;
      FewerKeys(a - {x}, b - {x});
    }
  }

  /** Stronger signals, on either side, never give a less certain verdict. */
  lemma VerdictIsMonotone(
    f: Folding, a: Document, b: Document, a': Document, b': Document, similarity: Option<real>,
    similarity': Option<real>, s: Settings)
    requires Includes(a'.profile, a.profile) && Includes(b'.profile, b.profile)
    requires a.fileHash == b.fileHash ==> a'.fileHash == b'.fileHash
    requires SameContent(a, b) ==> SameContent(a', b')
    requires similarity.Some? ==> similarity'.Some? && similarity'.value >= similarity.value
    ensures Certainty(Classify(Compared(f, a, b, similarity), s))
            <= Certainty(Classify(Compared(f, a', b', similarity'), s))
  {
    MoreInCommon(f, a.profile.identifiers, b.profile.identifiers, a'.profile.identifiers, b'.profile.identifiers);
    MoreInCommon(f, a.profile.organizations, b.profile.organizations, a'.profile.organizations,
        b'.profile.organizations);
    MoreInCommon(f, a.profile.persons, b.profile.persons, a'.profile.persons, b'.profile.persons);
    MoreInCommon(f, a.profile.dates, b.profile.dates, a'.profile.dates, b'.profile.dates);
    StrongerIsMoreCertain(Compared(f, a', b', similarity'), Compared(f, a, b, similarity), s);
  }

  // ---- candidates ------------------------------------------------------------------------

  type Documents = map<DocumentId, Document>

  /** `bounded_relation_score`. */
  function Bounded(score: real): real {
    if score < 0.0 then 0.0 else if score > 1.0 then 1.0 else score
  }

  /** `similar` and the dictionary built from it: later points of a document win, the
      document itself is left out, and at most `limit` points are looked at. */
  function Kept(reply: seq<(DocumentId, real)>, self: DocumentId): seq<(DocumentId, real)> {
    if reply == [] then []
    else
      var before, last := Kept(reply[..|reply| - 1], self), reply[|reply| - 1];
      if last.0 == self then before else before + [(last.0, Bounded(last.1))]
  }

  function AsMap(points: seq<(DocumentId, real)>): map<DocumentId, real> {
    if points == [] then map[] else AsMap(points[..|points| - 1])[points[|points| - 1].0 := points[|points| - 1].1]
  }

  function Similarities(reply: seq<(DocumentId, real)>, limit: nat, self: DocumentId): map<DocumentId, real> {
    var kept := Kept(reply, self);
    AsMap(if |kept| > limit then kept[..limit] else kept)
  }

  method ReadSimilar(reply: seq<(DocumentId, real)>, limit: nat, self: DocumentId) returns (r: map<DocumentId, real>)
    ensures r == Similarities(reply, limit, self)
  {
    var results: seq<(DocumentId, real)> := [];
    for i := 0 to |reply|
      invariant results == Kept(reply[..i], self)
    {
      assert reply[..i + 1][..i] == reply[..i];
      if reply[i].0 == self {
        continue;
      }
      results := results + [(reply[i].0, Bounded(reply[i].1))];
    }
    assert reply[..|reply|] == reply;
    r := AsMap(if |results| > limit then results[..limit] else results);
  }

  lemma {:induction false} KeptPoints(reply: seq<(DocumentId, real)>, self: DocumentId)
    ensures forall p :: p in Kept(reply, self) ==> p.0 != self && 0.0 <= p.1 <= 1.0
  {
    if reply != [] { KeptPoints(reply[..|reply| - 1], self); }
  }

  lemma {:induction false} MapOfPoints(points: seq<(DocumentId, real)>)
    ensures forall d :: d in AsMap(points) ==> (d, AsMap(points)[d]) in points
  {
    if points != [] {
      MapOfPoints(points[..|points| - 1]);
      assert points == points[..|points| - 1] + [points[|points| - 1]];
    }
  }

  lemma {:induction false} LastPointCounts(points: seq<(DocumentId, real)>, p: nat)
    requires p < |points| && forall q :: p < q < |points| ==> points[q].0 != points[p].0
    ensures points[p].0 in AsMap(points) && AsMap(points)[points[p].0] == points[p].1
  {
    if p < |points| - 1 { LastPointCounts(points[..|points| - 1], p); }
  }

  lemma {:induction false} PointOf(points: seq<(DocumentId, real)>, d: DocumentId) returns (p: nat)
    requires d in AsMap(points)
    ensures p < |points| && points[p].0 == d && forall q :: p < q < |points| ==> points[q].0 != d
  {
    var last := |points| - 1;
    if points[last].0 == d {
      p := last;
    } else {
      p := PointOf(points[..last], d);
    }
  }

  lemma {:induction false} SomePointCounts(points: seq<(DocumentId, real)>, p: nat)
    requires p < |points|
    ensures points[p].0 in AsMap(points)
  {
    if p < |points| - 1 { SomePointCounts(points[..|points| - 1], p); }
  }

  /** Whatever the index replies: never the document itself, always a score in range. */
  lemma SimilaritiesAreBounded(reply: seq<(DocumentId, real)>, limit: nat, self: DocumentId)
    ensures var r := Similarities(reply, limit, self); self !in r && forall d :: d in r ==> 0.0 <= r[d] <= 1.0
  {
    KeptPoints(reply, self);
    var kept := Kept(reply, self);
    MapOfPoints(if |kept| > limit then kept[..limit] else kept);
  }

  predicate LiveOf(docs: Documents, tenant: TenantId, d: DocumentId) {
    d in docs && docs[d].tenant == tenant && !docs[d].deleted
  }

  predicate HashMatch(docs: Documents, self: DocumentId, d: DocumentId)
    requires self in docs && d in docs
  {
    d != self && (docs[d].fileHash == docs[self].fileHash
        || (docs[d].contentHash.Some? && docs[d].contentHash == docs[self].contentHash))
  }

  /** The tenant's live documents that are near or have a hash in common. */
  function CandidateIds(docs: Documents, tenant: TenantId, self: DocumentId, near: map<DocumentId, real>)
    : set<DocumentId>
  {
    if !LiveOf(docs, tenant, self) then {}
    else set d | d in docs && LiveOf(docs, tenant, d) && (d in near || HashMatch(docs, self, d))
  }

  function VerdictOn(f: Folding, docs: Documents, self: DocumentId, near: map<DocumentId, real>, s: Settings,
                     d: DocumentId): Option<Decision>
    requires self in docs && d in docs
  {
    Classify(Compared(f, docs[self], docs[d], if d in near then Some(near[d]) else None), s)
  }

  // ---- the table ----------------------------------------------------------------------------

  datatype Edge = Edge(tenant: TenantId, source: DocumentId, target: DocumentId, kind: Kind)
  datatype Mark = Mark(score: Option<real>, reason: Candidate)
  type Table = map<Edge, Mark>

  function Flip(e: Edge): Edge { e.(source := e.target, target := e.source) }

  type Verdicts = map<DocumentId, Decision>

  /** The other end of an edge that a detection draws, if it does. */
  predicate Draws(verdicts: Verdicts, tenant: TenantId, self: DocumentId, e: Edge, other: DocumentId) {
    && other in verdicts && e.tenant == tenant && e.kind == verdicts[other].kind
    && ((e.source == self && e.target == other) || (e.source == other && e.target == self))
  }

  function MarkOf(d: Decision): Mark { Mark(d.score, d.reason) }

  /** The table after a detection: both directions of every verdict, over what was there;
      edges of another kind between the same documents stay. */
  ghost predicate Redrawn(before: Table, after: Table, tenant: TenantId, self: DocumentId, verdicts: Verdicts) {
    && (forall e :: e in before ==> e in after)
    && (forall e :: e in after ==> e in before || exists other :: Draws(verdicts, tenant, self, e, other))
    && (forall e, other :: Draws(verdicts, tenant, self, e, other) ==>
         e in after && after[e] == MarkOf(verdicts[other]))
    && (forall e :: e in before && (forall other :: !Draws(verdicts, tenant, self, e, other)) ==> after[e] == before[e])
  }

  function WithoutDocument(edges: Table, tenant: TenantId, d: DocumentId): Table {
    map e | e in edges && !(e.tenant == tenant && (e.source == d || e.target == d)) :: edges[e]
  }

  function VerdictsOf(f: Folding, docs: Documents, tenant: TenantId, self: DocumentId, near: map<DocumentId, real>,
      s: Settings): Verdicts
  {
    map d | d in CandidateIds(docs, tenant, self, near) && VerdictOn(f, docs, self, near, s, d).Some? ::
      VerdictOn(f, docs, self, near, s, d).value
  }

  class RelationTable {
    var edges: Table

    constructor ()
      ensures edges == map[]
    {
      edges := map[];
    }

    method Upsert(e: Edge, mark: Mark)
      modifies this
      ensures edges == old(edges)[e := mark]
    {
      edges := edges[e := mark];
    }

    /** `detect_relations`, over any reply of the document index. */
    method Detect(f: Folding, docs: Documents, tenant: TenantId, self: DocumentId, reply: seq<(DocumentId, real)>,
        limit: nat, s: Settings)
      returns (written: nat)
      modifies this
      ensures var near := Similarities(reply, limit, self);
              && Redrawn(old(edges), edges, tenant, self, VerdictsOf(f, docs, tenant, self, near, s))
              && written == |VerdictsOf(f, docs, tenant, self, near, s)|
    {
      var near := ReadSimilar(reply, limit, self);
      SimilaritiesAreBounded(reply, limit, self);
      written := DrawAll(f, docs, tenant, self, near, s);
    }

    /** Its loop over the candidates. */
    method DrawAll(f: Folding, docs: Documents, tenant: TenantId, self: DocumentId, near: map<DocumentId, real>,
        s: Settings)
      returns (written: nat)
      requires self !in near
      modifies this
      ensures var verdicts := VerdictsOf(f, docs, tenant, self, near, s);
              Redrawn(old(edges), edges, tenant, self, verdicts) && written == |verdicts|
    {
      ghost var verdicts := VerdictsOf(f, docs, tenant, self, near, s);
      var candidates := CandidateIds(docs, tenant, self, near);
      var todo := candidates;
      written := 0;
      assert Redrawn(edges, edges, tenant, self, Among(verdicts, {}));
      while todo != {}
        invariant todo <= candidates
        invariant Progressed(old(edges), edges, tenant, self, verdicts, candidates - todo, written)
      {
        var d :| d in todo;
        var decision := VerdictOn(f, docs, self, near, s, d);
        VerdictOfCandidate(f, docs, tenant, self, near, s, d);
        ghost var before, done := edges, candidates - todo;
        written := DrawBoth(tenant, self, d, decision, written);
        todo := todo - {d};
        assert candidates - todo == done + {d};
        OneMoreDone(old(edges), before, edges, tenant, self, verdicts, done, d, written);
      }
      assert candidates - todo == candidates;
      assert Among(verdicts, candidates) == verdicts;
    }

    /** Both directions of one verdict, if there is one. */
    method DrawBoth(tenant: TenantId, self: DocumentId, d: DocumentId, decision: Option<Decision>, written: nat)
      returns (written': nat)
      modifies this
      ensures edges == match decision
                       case None => old(edges)
                       case Some(v) => old(edges)[Edge(tenant, self, d, v.kind) := MarkOf(v)]
                                                 [Edge(tenant, d, self, v.kind) := MarkOf(v)]
      ensures written' == written + if decision.Some? then 1 else 0
    {
      written' := written;
      if decision.Some? {
        Upsert(Edge(tenant, self, d, decision.value.kind), MarkOf(decision.value));
        Upsert(Edge(tenant, d, self, decision.value.kind), MarkOf(decision.value));
        written' := written + 1;
      }
    }

    /** Deleting a document takes its relations with it. */
    method DeleteDocument(tenant: TenantId, d: DocumentId)
      modifies this
      ensures edges == WithoutDocument(old(edges), tenant, d)
      ensures forall e :: e in edges <==>
                e in old(edges) && !(e.tenant == tenant && (e.source == d || e.target == d))
      ensures forall e :: e in edges ==> edges[e] == old(edges)[e]
    {
      edges := WithoutDocument(edges, tenant, d);
    }
  }

  function Among(verdicts: Verdicts, ids: set<DocumentId>): Verdicts {
    map d | d in verdicts && d in ids :: verdicts[d]
  }

  /** The verdicts on these candidates are drawn and counted. */
  ghost predicate Progressed(start: Table, now: Table, tenant: TenantId, self: DocumentId, verdicts: Verdicts,
      done: set<DocumentId>, written: nat)
  {
    Redrawn(start, now, tenant, self, Among(verdicts, done)) && written == |Among(verdicts, done)|
  }

  lemma OneMoreDone(start: Table, before: Table, after: Table, tenant: TenantId, self: DocumentId, verdicts: Verdicts,
      done: set<DocumentId>, d: DocumentId, written: nat)
    requires written >= if d in verdicts then 1 else 0
    requires Progressed(start, before, tenant, self, verdicts, done, if d in verdicts then written - 1 else written)
    requires d !in done && self !in verdicts
    requires after == if d in verdicts
                      then before[Edge(tenant, self, d, verdicts[d].kind) := MarkOf(verdicts[d])]
                                 [Edge(tenant, d, self, verdicts[d].kind) := MarkOf(verdicts[d])]
                      else before
    ensures Progressed(start, after, tenant, self, verdicts, done + {d}, written)
  {
    OneMoreVerdict(start, before, after, tenant, self, verdicts, done, d);
    OneMoreCounted(verdicts, done, d);
  }

  lemma VerdictOfCandidate(f: Folding, docs: Documents, tenant: TenantId, self: DocumentId,
      near: map<DocumentId, real>, s: Settings, d: DocumentId)
    requires d in CandidateIds(docs, tenant, self, near) && self !in near
    ensures var verdicts, v := VerdictsOf(f, docs, tenant, self, near, s), VerdictOn(f, docs, self, near, s, d);
            && self !in verdicts && (d in verdicts <==> v.Some?) && (v.Some? ==> verdicts[d] == v.value)
  {
  }

  lemma OneMoreCounted(verdicts: Verdicts, done: set<DocumentId>, d: DocumentId)
    requires d !in done
    ensures |Among(verdicts, done + {d})| == |Among(verdicts, done)| + if d in verdicts then 1 else 0
  {
    if d in verdicts {
      assert Among(verdicts, done + {d}) == Among(verdicts, done)[d := verdicts[d]];
    } else {
      assert Among(verdicts, done + {d}) == Among(verdicts, done);
    }
  }

  lemma OneMoreVerdict(start: Table, before: Table, after: Table, tenant: TenantId, self: DocumentId,
      verdicts: Verdicts, done: set<DocumentId>, d: DocumentId)
    requires Redrawn(start, before, tenant, self, Among(verdicts, done)) && d !in done && self !in verdicts
    requires after == if d in verdicts
                      then before[Edge(tenant, self, d, verdicts[d].kind) := MarkOf(verdicts[d])]
                                 [Edge(tenant, d, self, verdicts[d].kind) := MarkOf(verdicts[d])]
                      else before
    ensures Redrawn(start, after, tenant, self, Among(verdicts, done + {d}))
  {
    var was, now := Among(verdicts, done), Among(verdicts, done + {d});
    if d !in verdicts {
      assert now == was;
    } else {
      forall e, other
        ensures Draws(now, tenant, self, e, other)
                <==> Draws(was, tenant, self, e, other) || (other == d && Draws(verdicts, tenant, self, e, d))
      {}
      assert Draws(now, tenant, self, Edge(tenant, self, d, verdicts[d].kind), d);
      assert Draws(now, tenant, self, Edge(tenant, d, self, verdicts[d].kind), d);
    }
  }

  // ---- every reachable table ----------------------------------------------------------------

  /** Every edge has its mirror image with the same mark, no document is related to
      itself, and scores are between zero and one. */
  ghost predicate Sound(edges: Table) {
    forall e :: e in edges ==>
      && Flip(e) in edges && edges[Flip(e)] == edges[e]
      && e.source != e.target
      && (edges[e].score.Some? ==> 0.0 <= edges[e].score.value <= 1.0)
  }

  lemma VerdictsAreInRange(f: Folding, docs: Documents, tenant: TenantId, self: DocumentId,
      reply: seq<(DocumentId, real)>, limit: nat, s: Settings)
    ensures var verdicts := VerdictsOf(f, docs, tenant, self, Similarities(reply, limit, self), s);
            && self !in verdicts
            && forall d :: d in verdicts && verdicts[d].score.Some? ==> 0.0 <= verdicts[d].score.value <= 1.0
  {
    SimilaritiesAreBounded(reply, limit, self);
  }

  lemma RedrawingKeepsSound(before: Table, after: Table, tenant: TenantId, self: DocumentId, verdicts: Verdicts)
    requires Sound(before) && Redrawn(before, after, tenant, self, verdicts) && self !in verdicts
    requires forall d :: d in verdicts && verdicts[d].score.Some? ==> 0.0 <= verdicts[d].score.value <= 1.0
    ensures Sound(after)
  {
    forall e | e in after
      ensures Flip(e) in after && after[Flip(e)] == after[e] && e.source != e.target
              && (after[e].score.Some? ==> 0.0 <= after[e].score.value <= 1.0)
    {
      if other :| Draws(verdicts, tenant, self, e, other) {
        assert Draws(verdicts, tenant, self, Flip(e), other);
      } else {
        forall other ensures !Draws(verdicts, tenant, self, Flip(e), other) {
          assert Draws(verdicts, tenant, self, Flip(e), other) ==> Draws(verdicts, tenant, self, e, other);
        }
      }
    }
  }

  datatype Change =
    | Detection(docs: Documents, tenant: TenantId, self: DocumentId, reply: seq<(DocumentId, real)>, limit: nat,
        settings: Settings)
    | Deletion(tenant: TenantId, document: DocumentId)

  /** What one detection or deletion makes of the table. */
  ghost predicate Changed(f: Folding, before: Table, change: Change, after: Table) {
    match change
    case Detection(docs, tenant, self, reply, limit, s) =>
      Redrawn(before, after, tenant, self, VerdictsOf(f, docs, tenant, self, Similarities(reply, limit, self), s))
    case Deletion(tenant, d) => after == WithoutDocument(before, tenant, d)
  }

  lemma ChangesKeepSound(f: Folding, before: Table, change: Change, after: Table)
    requires Sound(before) && Changed(f, before, change, after)
    ensures Sound(after)
  {
    match change
    case Detection(docs, tenant, self, reply, limit, s) =>
      VerdictsAreInRange(f, docs, tenant, self, reply, limit, s);
      RedrawingKeepsSound(before, after, tenant, self,
          VerdictsOf(f, docs, tenant, self, Similarities(reply, limit, self), s));
    case Deletion(tenant, d) =>
  }

  /** After any run of detections and deletions, whatever the documents, profiles and
      index replies were at each, the table is symmetric with equal scores, without
      self-edges and with scores in range. */
  lemma {:induction false} RelationsStaySound(f: Folding, tables: seq<Table>, changes: seq<Change>)
    requires |tables| == |changes| + 1 && tables[0] == map[]
    requires forall i :: 0 <= i < |changes| ==> Changed(f, tables[i], changes[i], tables[i + 1])
    ensures Sound(tables[|changes|])
    decreases |changes|
  {
    if changes != [] {
      var n := |changes| - 1;
      RelationsStaySound(f, tables[..n + 1], changes[..n]);
      ChangesKeepSound(f, tables[n], changes[n], tables[n + 1]);
    }
  }
}
