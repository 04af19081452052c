/** Which relation two documents stand in, told by what they have in common, and which
    edges a detection therefore draws. */
module RelationVerdicts {
  import opened Wrappers
  import opened Identifiers
  import opened Relations

  // ---- the conditions ----------------------------------------------------------------

  /** The keys that a value of each list has, folded; empty ones do not count. */
  ghost predicate IsCommonKey(f: Folding, left: seq<string>, right: seq<string>, key: string) {
    && key != ""
    && (exists i :: 0 <= i < |left| && f.lower(f.strip(left[i])) == key)
    && (exists j :: 0 <= j < |right| && f.lower(f.strip(right[j])) == key)
  }

  /** Two lists have exactly this many keys in common. */
  ghost predicate HaveInCommon(f: Folding, left: seq<string>, right: seq<string>, n: nat) {
    exists keys: set<string> :: |keys| == n && AreCommonKeys(f, left, right, keys)
  }

  ghost predicate AreCommonKeys(f: Folding, left: seq<string>, right: seq<string>, keys: set<string>) {
    forall key :: key in keys <==> IsCommonKey(f, left, right, key)
  }

  lemma OverlapIsCommon(f: Folding, left: seq<string>, right: seq<string>)
    ensures HaveInCommon(f, left, right, |Overlap(f, left, right)|)
  {
    OverlapCountsCommonKeys(f, left, right);
    var keys := Keys(f, left) * Keys(f, right);
    forall key: string ensures key in keys <==> IsCommonKey(f, left, right, key) {
      if IsCommonKey(f, left, right, key) {
        var i :| 0 <= i < |left| && f.lower(f.strip(left[i])) == key;
        var j :| 0 <= j < |right| && f.lower(f.strip(right[j])) == key;
        assert left[i] in left && right[j] in right;
      }
    }
    assert AreCommonKeys(f, left, right, keys);
  }

  /** How much two profiles share. */
  datatype Common = Common(identifiers: nat, organizations: nat, persons: nat, dates: nat)

  ghost predicate Shares(f: Folding, a: Profile, b: Profile, n: Common) {
    && HaveInCommon(f, a.identifiers, b.identifiers, n.identifiers)
    && HaveInCommon(f, a.organizations, b.organizations, n.organizations)
    && HaveInCommon(f, a.persons, b.persons, n.persons)
    && HaveInCommon(f, a.dates, b.dates, n.dates)
  }

  /** There is one such count. */
  lemma CommonIsUnique(f: Folding, left: seq<string>, right: seq<string>, m: nat, n: nat)
    requires HaveInCommon(f, left, right, m) && HaveInCommon(f, left, right, n)
    ensures m == n
  {
    var a: set<string> :| |a| == m && AreCommonKeys(f, left, right, a);
    var b: set<string> :| |b| == n && AreCommonKeys(f, left, right, b);
    assert a == b;
  }

  /** When a kind of relation applies, whatever else does. */
  predicate Applies(kind: Kind, a: Document, b: Document, n: Common, similarity: Option<real>, s: Settings) {
    match kind
    case ExactDuplicate => a.fileHash == b.fileHash
    case ContentDuplicate => a.contentHash.Some? && b.contentHash == a.contentHash && a.contentHash.value != ""
    case PossibleVersion =>
      && similarity.Some? && similarity.value >= s.versionSimilarity
      && n.organizations + n.persons + n.dates >= s.minSharedEntities
    case SameCase => n.identifiers >= s.minSharedIdentifiers
    case SameEntity => n.organizations + n.persons > 0 && n.organizations + n.persons + n.dates >= s.minSharedEntities
    case Related => similarity.Some? && similarity.value >= s.relatedSimilarity
  }

  /** From the most certain to the least. */
  function Nth(k: nat): Kind
    requires k < KINDS
  {
    if k == 0 then ExactDuplicate else if k == 1 then ContentDuplicate else if k == 2 then PossibleVersion
    else if k == 3 then SameCase else if k == 4 then SameEntity else Related
  }

  const KINDS := 6

  /** The kind that applies while none before it does. */
  predicate IsVerdict(k: nat, a: Document, b: Document, n: Common, similarity: Option<real>, s: Settings) {
    && k < KINDS && Applies(Nth(k), a, b, n, similarity, s)
    && forall j :: 0 <= j < k ==> !Applies(Nth(j), a, b, n, similarity, s)
  }

  /** The verdict is the first kind in that order that applies, and there is none exactly
      when none applies; duplicates score one, the others their similarity. */
  lemma VerdictIsFirst(f: Folding, a: Document, b: Document, n: Common, similarity: Option<real>, s: Settings)
    requires Shares(f, a.profile, b.profile, n)
    ensures var v := Classify(Compared(f, a, b, similarity), s);
            && (v.None? <==> forall k :: 0 <= k < KINDS ==> !Applies(Nth(k), a, b, n, similarity, s))
            && (forall k: nat :: k < KINDS ==>
                  (v.Some? && v.value.kind == Nth(k) <==> IsVerdict(k, a, b, n, similarity, s)))
            && (v.Some? ==> v.value.score == if v.value.kind == ExactDuplicate || v.value.kind == ContentDuplicate
                                             then Some(1.0) else similarity)
  {
    var c := Compared(f, a, b, similarity);
    CommonMeans(f, a.profile.identifiers, b.profile.identifiers, n.identifiers);
    CommonMeans(f, a.profile.organizations, b.profile.organizations, n.organizations);
    CommonMeans(f, a.profile.persons, b.profile.persons, n.persons);
    CommonMeans(f, a.profile.dates, b.profile.dates, n.dates);
    RulesInOrder(c, a, b, n, similarity, s);
  }

  lemma CommonMeans(f: Folding, left: seq<string>, right: seq<string>, n: nat)
    requires HaveInCommon(f, left, right, n)
    ensures n == |Overlap(f, left, right)|
  {
    OverlapIsCommon(f, left, right);
    CommonIsUnique(f, left, right, n, |Overlap(f, left, right)|);
  }

  lemma RulesInOrder(c: Candidate, a: Document, b: Document, n: Common, similarity: Option<real>, s: Settings)
    requires |c.identifiers| == n.identifiers && |c.organizations| == n.organizations && |c.persons| == n.persons
    requires |c.dates| == n.dates && c.similarity == similarity
    requires c.sameFile == (a.fileHash == b.fileHash)
    requires c.sameContent == (a.contentHash.Some? && a.contentHash.value != "" && a.contentHash == b.contentHash)
    ensures var v := Classify(c, s);
            && (v.None? <==> forall k :: 0 <= k < KINDS ==> !Applies(Nth(k), a, b, n, similarity, s))
            && (forall k: nat :: k < KINDS ==>
                  (v.Some? && v.value.kind == Nth(k) <==> IsVerdict(k, a, b, n, similarity, s)))
            && (v.Some? ==> v.value.score == if v.value.kind == ExactDuplicate || v.value.kind == ContentDuplicate
                                             then Some(1.0) else similarity)
  {
    assert Nth(0) == ExactDuplicate && Nth(1) == ContentDuplicate && Nth(2) == PossibleVersion;
    assert Nth(3) == SameCase && Nth(4) == SameEntity && Nth(5) == Related;
  }

  /** `Certainty` ranks the kinds in this order. */
  lemma CertaintyFollowsOrder(i: nat, j: nat, c: Candidate)
    requires i < j < KINDS
    ensures Certainty(Some(Decision(Nth(i), None, c))) > Certainty(Some(Decision(Nth(j), None,
            c))) > Certainty(None)
  {
  }

  // ---- what is shared, as it is reported ---------------------------------------------

  /** The value at this place has a key that both lists have, and is the first with it. */
  ghost predicate IsReported(f: Folding, left: seq<string>, right: seq<string>, i: int) {
    && 0 <= i < |left| && IsCommonKey(f, left, right, f.lower(f.strip(left[i])))
    && forall k :: 0 <= k < i ==> f.lower(f.strip(left[k])) != f.lower(f.strip(left[i]))
  }

  /** The shared values are those at these places, in order and in the left document's
      spelling. */
  ghost predicate ReportedAt(f: Folding, left: seq<string>, right: seq<string>, shared: seq<string>, places: seq<nat>) {
    && |places| == |shared|
    && (forall k :: 0 <= k < |shared| ==> places[k] < |left| && shared[k] == f.strip(left[places[k]]))
    && (forall k, l :: 0 <= k < l < |shared| ==> places[k] < places[l])
    && (forall i: nat :: i < |left| ==> (i in places <==> IsReported(f, left, right, i)))
  }

  lemma {:induction false} OverlapIsReported(f: Folding, left: seq<string>, right: seq<string>)
    returns (places: seq<nat>)
    ensures ReportedAt(f, left, right, Overlap(f, left, right), places)
  {
    places := [];
    if left != [] {
      var n := |left| - 1;
      var before := OverlapIsReported(f, left[..n], right);
      LastIsReported(f, left, right);
      places := before + if KeyOf(f, left[n]) in Keys(f, right) && KeyOf(f, left[n]) !in Keys(f, left[..n]) then [n]
          else [];
      forall i: nat | i < |left| ensures i in places <==> IsReported(f, left, right, i) {
        if i < n {
          ReportedBefore(f, left, right, i);
        } else {
          assert forall k :: 0 <= k < |before| ==> before[k] < n;
        }
      }
    }
  }

  lemma ReportedBefore(f: Folding, left: seq<string>, right: seq<string>, i: nat)
    requires i < |left| - 1
    ensures IsReported(f, left[..|left| - 1], right, i) <==> IsReported(f, left, right, i)
  {
    var before := left[..|left| - 1];
    assert before[i] == left[i] && forall k :: 0 <= k < i ==> before[k] == left[k];
    forall key: string ensures IsReported(f, before, right, i) && key == f.lower(f.strip(left[i])) ==>
                               IsCommonKey(f, left, right, key) {
    }
    if IsReported(f, left, right, i) {
      assert f.lower(f.strip(before[i])) == f.lower(f.strip(left[i]));
    }
  }

  lemma LastIsReported(f: Folding, left: seq<string>, right: seq<string>)
    requires left != []
    ensures var n := |left| - 1;
            IsReported(f, left, right, n)
            <==> KeyOf(f, left[n]) in Keys(f, right) && KeyOf(f, left[n]) !in Keys(f, left[..n])
  {
    var n := |left| - 1;
    if IsReported(f, left, right, n) {
      var j :| 0 <= j < |right| && f.lower(f.strip(right[j])) == KeyOf(f, left[n]);
      assert right[j] in right;
    }
    if KeyOf(f, left[n]) in Keys(f, right) && KeyOf(f, left[n]) !in Keys(f, left[..n]) {
      forall k | 0 <= k < n ensures KeyOf(f, left[k]) != KeyOf(f, left[n]) {
        assert left[..n][k] in left[..n];
      }
    }
  }

  // ---- how near the index says a document is ------------------------------------------

  /** Points of other documents before this place of the reply. */
  function OthersBefore(reply: seq<(DocumentId, real)>, i: nat, self: DocumentId): nat
    requires i <= |reply|
  {
    if i == 0 then 0 else OthersBefore(reply, i - 1, self) + if reply[i - 1].0 != self then 1 else 0
  }

  /** The point is one of the first `limit` of other documents. */
  predicate LookedAt(reply: seq<(DocumentId, real)>, limit: nat, self: DocumentId, i: nat) {
    i < |reply| && reply[i].0 != self && OthersBefore(reply, i, self) < limit
  }

  /** The last score for the document among those, cut to between zero and one. */
  ghost predicate NearAt(reply: seq<(DocumentId, real)>, limit: nat, self: DocumentId, d: DocumentId, score: real) {
    exists i: nat ::
      && LookedAt(reply, limit, self, i) && reply[i].0 == d
      && (forall j: nat :: i < j && LookedAt(reply, limit, self, j) ==> reply[j].0 != d)
      && IsCut(score, reply[i].1)
  }

  predicate IsCut(cut: real, score: real) {
    && (score < 0.0 ==> cut == 0.0) && (score > 1.0 ==> cut == 1.0) && (0.0 <= score <= 1.0 ==> cut == score)
  }

  lemma {:induction false} KeptAt(reply: seq<(DocumentId, real)>, self: DocumentId, i: nat)
    requires i < |reply|
    ensures OthersBefore(reply, i, self) <= |Kept(reply, self)|
    ensures reply[i].0 != self ==>
              var p := OthersBefore(reply, i, self);
              p < |Kept(reply, self)| && Kept(reply, self)[p] == (reply[i].0, Bounded(reply[i].1))
  {
    var before := reply[..|reply| - 1];
    KeptBefore(reply, self, i);
    if i < |before| {
      KeptAt(before, self, i);
      KeptBefore(before, self, i);
      assert reply[..i] == before[..i];
    } else {
      assert reply[..i] == before;
    }
  }

  lemma {:induction false} KeptBefore(reply: seq<(DocumentId, real)>, self: DocumentId, i: nat)
    requires i <= |reply|
    ensures OthersBefore(reply, i, self) == |Kept(reply[..i], self)|
  {
    if i > 0 {
      KeptBefore(reply, self, i - 1);
      assert reply[..i][..i - 1] == reply[..i - 1];
    }
  }

  /** Every point that is kept stands somewhere in the reply. */
  lemma {:induction false} KeptFrom(reply: seq<(DocumentId, real)>, self: DocumentId, p: nat) returns (i: nat)
    requires p < |Kept(reply, self)|
    ensures i < |reply| && reply[i].0 != self && OthersBefore(reply, i, self) == p
    ensures Kept(reply, self)[p] == (reply[i].0, Bounded(reply[i].1))
  {
    var before := reply[..|reply| - 1];
    if p < |Kept(before, self)| {
      i := KeptFrom(before, self, p);
    } else {
      i := |before|;
    }
    KeptBefore(reply, self, i);
    KeptBefore(before, self, i);
    assert reply[..i] == before[..i];
    KeptAt(reply, self, i);
  }

  function Seen(reply: seq<(DocumentId, real)>, limit: nat, self: DocumentId): seq<(DocumentId, real)> {
    var kept := Kept(reply, self);
    if |kept| > limit then kept[..limit] else kept
  }

  /** A document is near exactly when the index has it among the first points of others,
      and then as near as its last such point says. */
  lemma SimilarityOutcome(reply: seq<(DocumentId, real)>, limit: nat, self: DocumentId, d: DocumentId)
    ensures var near := Similarities(reply, limit, self);
            && (d in near ==> NearAt(reply, limit, self, d, near[d]))
            && (d !in near ==> forall i: nat :: LookedAt(reply, limit, self, i) ==> reply[i].0 != d)
  {
    var near, points := Similarities(reply, limit, self), Seen(reply, limit, self);
    if d in near {
      var p := PointOf(points, d);
      var i := KeptFrom(reply, self, p);
      LastPointCounts(points, p);
      forall j: nat | i < j && LookedAt(reply, limit, self, j) ensures reply[j].0 != d {
        KeptAt(reply, self, j);
        MoreBefore(reply, self, i, j);
        var q := OthersBefore(reply, j, self);
        assert points[q].0 == reply[j].0;
      }
      assert IsCut(near[d], reply[i].1);
    } else {
      forall i: nat | LookedAt(reply, limit, self, i) ensures reply[i].0 != d {
        KeptAt(reply, self, i);
        var p := OthersBefore(reply, i, self);
        assert points[p].0 == reply[i].0;
        SomePointCounts(points, p);
      }
    }
  }

  lemma {:induction false} MoreBefore(reply: seq<(DocumentId, real)>, self: DocumentId, i: nat, j: nat)
    requires i < j <= |reply| && reply[i].0 != self
    ensures OthersBefore(reply, i, self) < OthersBefore(reply, j, self)
  {
    if i < j - 1 { MoreBefore(reply, self, i, j - 1); }
  }

  // ---- the edges of a detection --------------------------------------------------------

  /** A detection compares a live document with these: live documents of the tenant that
      are near or have a hash in common with it. */
  ghost predicate IsCandidate(docs: Documents, tenant: TenantId, self: DocumentId, near: map<DocumentId, real>,
      d: DocumentId)
  {
    && self in docs && docs[self].tenant == tenant && !docs[self].deleted
    && d in docs && docs[d].tenant == tenant && !docs[d].deleted
    && (|| d in near
        || (d != self && docs[d].fileHash == docs[self].fileHash)
        || (d != self && docs[d].contentHash.Some? && docs[d].contentHash == docs[self].contentHash))
  }

  /** How near the index says the candidate is, if it does. */
  function Nearness(near: map<DocumentId, real>, d: DocumentId): Option<real> {
    if d in near then Some(near[d]) else None
  }

  /** The verdict on two documents, by its place in the order. */
  ghost predicate Finds(f: Folding, a: Document, b: Document, similarity: Option<real>, s: Settings, k: nat) {
    exists n :: Shares(f, a.profile, b.profile, n) && IsVerdict(k, a, b, n, similarity, s)
  }

  /** The edge joins the document and a candidate, and its kind is the verdict on them. */
  ghost predicate Drawn(f: Folding, docs: Documents, tenant: TenantId, self: DocumentId, near: map<DocumentId, real>,
      s: Settings, e: Edge, d: DocumentId)
  {
    && IsCandidate(docs, tenant, self, near, d) && e.tenant == tenant
    && ((e.source == self && e.target == d) || (e.source == d && e.target == self))
    && exists k: nat :: k < KINDS && e.kind == Nth(k) && Finds(f, docs[self], docs[d], Nearness(near, d), s, k)
  }

  /** Both edges of every verdict, over what was there, and nothing else. A duplicate scores
      one, another kind as near as the candidate is. */
  ghost predicate DetectedAs(f: Folding, docs: Documents, tenant: TenantId, self: DocumentId,
      near: map<DocumentId, real>, s: Settings, before: Table, after: Table)
  {
    && (forall e :: e in before ==> e in after)
    && (forall e, d :: Drawn(f, docs, tenant, self, near, s, e, d) ==>
          && e in after && Explains(f, docs[self], docs[d], Nearness(near, d), after[e].reason)
          && after[e].score == if e.kind == ExactDuplicate || e.kind == ContentDuplicate then Some(1.0)
                               else Nearness(near, d))
    && (forall e :: e in after && (e !in before || after[e] != before[e]) ==>
          exists d :: Drawn(f, docs, tenant, self, near, s, e, d))
  }

  /** The reason says what was compared: the hashes, the nearness, and the shared values in
      the spelling of the document that the detection is for. */
  ghost predicate Explains(f: Folding, a: Document, b: Document, similarity: Option<real>, reason: Candidate) {
    && reason.similarity == similarity && (reason.sameFile <==> a.fileHash == b.fileHash)
    && (reason.sameContent <==> a.contentHash.Some? && a.contentHash.value != "" && b.contentHash == a.contentHash)
    && (exists places :: ReportedAt(f, a.profile.identifiers, b.profile.identifiers, reason.identifiers, places))
    && (exists places :: ReportedAt(f, a.profile.organizations, b.profile.organizations, reason.organizations, places))
    && (exists places :: ReportedAt(f, a.profile.persons, b.profile.persons, reason.persons, places))
    && (exists places :: ReportedAt(f, a.profile.dates, b.profile.dates, reason.dates, places))
  }

  lemma ReasonExplains(f: Folding, a: Document, b: Document, similarity: Option<real>)
    ensures Explains(f, a, b, similarity, Compared(f, a, b, similarity))
  {
    var identifiers := OverlapIsReported(f, a.profile.identifiers, b.profile.identifiers);
    var organizations := OverlapIsReported(f, a.profile.organizations, b.profile.organizations);
    var persons := OverlapIsReported(f, a.profile.persons, b.profile.persons);
    var dates := OverlapIsReported(f, a.profile.dates, b.profile.dates);
  }

  lemma VerdictFound(f: Folding, a: Document, b: Document, similarity: Option<real>, s: Settings, kind: Kind)
    ensures var v := Classify(Compared(f, a, b, similarity), s);
            && (v.Some? && v.value.kind == kind <==>
                exists k: nat :: k < KINDS && kind == Nth(k) && Finds(f, a, b, similarity, s, k))
            && (v.Some? ==> v.value.score == if v.value.kind == ExactDuplicate || v.value.kind == ContentDuplicate
                                             then Some(1.0) else similarity)
  {
    var n := CommonOf(f, a.profile, b.profile);
    VerdictIsFirst(f, a, b, n, similarity, s);
    var v := Classify(Compared(f, a, b, similarity), s);
    var k := PlaceOf(kind);
    if v.Some? && v.value.kind == kind {
      assert IsVerdict(k, a, b, n, similarity, s) && Finds(f, a, b, similarity, s, k);
    }
    if j: nat :| j < KINDS && kind == Nth(j) && Finds(f, a, b, similarity, s, j) {
      var m :| Shares(f, a.profile, b.profile, m) && IsVerdict(j, a, b, m, similarity, s);
      SharesOnce(f, a.profile, b.profile, m, n);
    }
  }

  lemma CommonOf(f: Folding, a: Profile, b: Profile) returns (n: Common)
    ensures Shares(f, a, b, n)
  {
    n := Common(|Overlap(f, a.identifiers, b.identifiers)|, |Overlap(f, a.organizations, b.organizations)|,
                |Overlap(f, a.persons, b.persons)|, |Overlap(f, a.dates, b.dates)|);
    OverlapIsCommon(f, a.identifiers, b.identifiers);
    OverlapIsCommon(f, a.organizations, b.organizations);
    OverlapIsCommon(f, a.persons, b.persons);
    OverlapIsCommon(f, a.dates, b.dates);
  }

  lemma SharesOnce(f: Folding, a: Profile, b: Profile, m: Common, n: Common)
    requires Shares(f, a, b, m) && Shares(f, a, b, n)
    ensures m == n
  {
    CommonIsUnique(f, a.identifiers, b.identifiers, m.identifiers, n.identifiers);
    CommonIsUnique(f, a.organizations, b.organizations, m.organizations, n.organizations);
    CommonIsUnique(f, a.persons, b.persons, m.persons, n.persons);
    CommonIsUnique(f, a.dates, b.dates, m.dates, n.dates);
  }

  lemma PlaceOf(kind: Kind) returns (k: nat)
    ensures k < KINDS && kind == Nth(k)
  {
    k := match kind
      case ExactDuplicate => 0
      case ContentDuplicate => 1
      case PossibleVersion => 2
      case SameCase => 3
      case SameEntity => 4
      case Related => 5;
  }

  lemma DrawnMeans(f: Folding, docs: Documents, tenant: TenantId, self: DocumentId, near: map<DocumentId, real>,
      s: Settings, e: Edge, d: DocumentId)
    requires self !in near
    ensures var verdicts := VerdictsOf(f, docs, tenant, self, near, s);
            && (Draws(verdicts, tenant, self, e, d) <==> Drawn(f, docs, tenant, self, near, s, e, d))
            && (d in verdicts ==>
                  && verdicts[d].reason == Compared(f, docs[self], docs[d], Nearness(near, d))
                  && verdicts[d].score == if verdicts[d].kind == ExactDuplicate || verdicts[d].kind == ContentDuplicate
                                       then Some(1.0) else Nearness(near, d))
  {
    if IsCandidate(docs, tenant, self, near, d) {
      assert d in CandidateIds(docs, tenant, self, near);
      VerdictFound(f, docs[self], docs[d], Nearness(near, d), s, e.kind);
    }
  }

  /** What `Detect` leaves, whatever the index replied. */
  lemma DetectOutcome(f: Folding, docs: Documents, tenant: TenantId, self: DocumentId, near: map<DocumentId, real>,
      s: Settings, before: Table, after: Table)
    requires Redrawn(before, after, tenant, self, VerdictsOf(f, docs, tenant, self, near, s)) && self !in near
    ensures DetectedAs(f, docs, tenant, self, near, s, before, after)
  {
    var verdicts := VerdictsOf(f, docs, tenant, self, near, s);
    forall e, d | Drawn(f, docs, tenant, self, near, s, e, d)
      ensures Draws(verdicts, tenant, self, e, d)
      ensures e in after && Explains(f, docs[self], docs[d], Nearness(near, d), after[e].reason)
      ensures after[e].score == if e.kind == ExactDuplicate || e.kind == ContentDuplicate then Some(1.0)
                                else Nearness(near, d)
    {
      DrawnMeans(f, docs, tenant, self, near, s, e, d);
      ReasonExplains(f, docs[self], docs[d], Nearness(near, d));
    }
    forall e | e in after && (e !in before || after[e] != before[e])
      ensures exists d :: Drawn(f, docs, tenant, self, near, s, e, d)
    {
      var d :| Draws(verdicts, tenant, self, e, d);
      DrawnMeans(f, docs, tenant, self, near, s, e, d);
    }
  }
}
