/** What every interleaving of the protocol keeps. */
module ProtocolSafety {
  import opened Wrappers
  import opened Identifiers
  import opened Protocol

  // ---- the index invariant -----------------------------------------------

  predicate Holds(agent: Agent, d: DocumentId) {
    match agent
    case Worker(batch, task) => batch != [] && batch[0].job.document == d && (task.Skipping? || task.Building?)
    case Deleter(document, stage) => document == d && stage != Waiting
    case Reindexer(_, _) => true
  }

  /** A document's lock is held by one agent that asked for it; a reindex only holds live documents. */
  ghost predicate LocksOk(s: State) {
    forall d :: d in s.locks ==>
      && d in s.documents
      && s.locks[d] in s.agents
      && Holds(s.agents[s.locks[d]], d)
      && (s.agents[s.locks[d]].Reindexer? ==> !s.documents[d].deleted)
  }

  predicate LockedBy(s: State, d: DocumentId, a: AgentId) {
    d in s.locks && s.locks[d] == a
  }

  ghost predicate Clean(rows: map<ChunkId, DocumentId>, d: DocumentId) {
    forall c :: c in rows ==> rows[c] != d
  }

  ghost predicate BuildOk(s: State, d: DocumentId, b: Build) {
    && (forall c :: c in b.ids ==> c in s.minted && s.minted[c] == d)
    && (b.phase == Fetching ==> b.ids == {})
    && (b.phase == Cleared ==> Clean(s.points, d))
    && (b.phase == Indexed || b.phase == Placed || b.phase == Marked ==>
         forall c :: c in b.ids <==> c in s.points && s.points[c] == d)
    && b.status == (if b.phase == Marked then DocReady else DocProcessing)
  }

  ghost predicate AgentOk(s: State, a: AgentId)
    requires a in s.agents
  {
    match s.agents[a]
    case Worker(batch, task) =>
      && (task.Skipping? || task.Building? ==> batch != [] && LockedBy(s, batch[0].job.document, a))
      && (task.Building? ==>
            var d := batch[0].job.document;
            d in s.documents && !s.documents[d].deleted && BuildOk(s, d, task.build))
      && (task.Skipping? ==>
            var d := batch[0].job.document;
            d in s.documents && s.documents[d].deleted)
    case Deleter(d, stage) =>
      && (stage != Waiting ==> LockedBy(s, d, a) && d in s.documents)
      && (stage == PointsGone || stage == VectorGone ==> Clean(s.points, d))
      && (stage == VectorGone ==> d !in s.vectors)
    case Reindexer(current, progress) =>
      current.Some? ==> LockedBy(s, current.value, a)
  }

  /** Nothing of the document can answer a search: no rows, no points, no vector. */
  ghost predicate NothingLeft(s: State, d: DocumentId) {
    d !in s.profiles && d !in s.vectors && Clean(s.chunks, d) && Clean(s.points, d)
  }

  ghost predicate IndexInv(s: State) {
    && LocksOk(s)
    && (forall a :: a in s.agents ==> AgentOk(s, a))
    && (forall d :: d in s.documents && s.documents[d].deleted ==> NothingLeft(s, d))
    && (forall c :: c in s.chunks ==> c in s.minted && s.minted[c] == s.chunks[c])
    && (forall c :: c in s.points ==> c in s.minted && s.minted[c] == s.points[c])
    && (forall c :: c in s.minted ==> s.minted[c] in s.documents)
    && (forall d :: d in s.profiles || d in s.vectors ==> d in s.documents)
  }


  /** The index of every other document is left alone. */
  ghost predicate SameElsewhere(before: map<ChunkId, DocumentId>, after: map<ChunkId, DocumentId>, d: DocumentId) {
    && (forall c :: c in before && before[c] != d ==> c in after && after[c] == before[c])
    && (forall c :: c in after && after[c] != d ==> c in before && before[c] == after[c])
  }

  /** What `a` may change while it holds the lock of `d`. */
  ghost predicate WritesOnly(s: State, t: State, a: AgentId, d: DocumentId) {
    && t.documents == s.documents && t.locks == s.locks && t.chunks == s.chunks && t.profiles == s.profiles
    && a in t.agents && t.agents == s.agents[a := t.agents[a]]
    && SameElsewhere(s.points, t.points, d)
    && (forall x :: x != d ==> (x in s.vectors <==> x in t.vectors))
    && (forall c :: c in s.minted ==> c in t.minted && t.minted[c] == s.minted[c])
    && (forall c :: c in t.minted && c !in s.minted ==> t.minted[c] == d)
  }

  lemma OthersUndisturbed(s: State, t: State, a: AgentId, d: DocumentId, b: AgentId)
    requires LockedBy(s, d, a) && WritesOnly(s, t, a, d)
    requires b != a && b in s.agents && AgentOk(s, b)
    ensures AgentOk(t, b)
  {
    if s.agents[b].Worker? && s.agents[b].task.Building? {
      assert s.agents[b].batch[0].job.document != d;
    }
  }

  /** An agent that holds a document's lock may rewrite that document's index entries. */
  lemma HolderWrites(s: State, t: State, a: AgentId, d: DocumentId)
    requires IndexInv(s) && LockedBy(s, d, a) && WritesOnly(s, t, a, d)
    requires forall c :: c in t.points && t.points[c] == d ==> c in t.minted && t.minted[c] == d
    requires AgentOk(t, a)
    requires forall x :: LockedBy(s, x, a) ==> Holds(t.agents[a], x)
    requires t.agents[a].Reindexer? ==> s.agents[a].Reindexer?
    requires s.documents[d].deleted ==> Clean(t.points, d) && d !in t.vectors
    ensures IndexInv(t)
  {
    forall b | b in t.agents ensures AgentOk(t, b) {
      if b != a { OthersUndisturbed(s, t, a, d, b); }
    }
    assert LocksOk(t);
    forall x | x in t.documents && t.documents[x].deleted ensures NothingLeft(t, x) {
      assert NothingLeft(s, x);
    }
  }

  lemma ReplaceRowsKept(s: State, a: AgentId, ids: set<ChunkId>)
    requires IndexInv(s) && MayReplaceRows(s, a, ids)
    ensures IndexInv(DoReplaceRows(s, a, ids))
  {
    assert AgentOk(s, a);
    HolderWrites(s, DoReplaceRows(s, a, ids), a, HeadDocument(s, a));
  }

  lemma ClearPointsKept(s: State, a: AgentId)
    requires IndexInv(s) && BuildingAt(s, a, Replaced)
    ensures IndexInv(DoClearPoints(s, a))
  {
    assert AgentOk(s, a);
    HolderWrites(s, DoClearPoints(s, a), a, HeadDocument(s, a));
  }

  lemma PutPointsKept(s: State, a: AgentId)
    requires IndexInv(s) && BuildingAt(s, a, Cleared)
    ensures IndexInv(DoPutPoints(s, a))
  {
    assert AgentOk(s, a);
    HolderWrites(s, DoPutPoints(s, a), a, HeadDocument(s, a));
  }

  lemma PutProfileKept(s: State, a: AgentId)
    requires IndexInv(s) && BuildingAt(s, a, Indexed)
    ensures IndexInv(DoPutProfile(s, a))
  {
    assert AgentOk(s, a);
    HolderWrites(s, DoPutProfile(s, a), a, HeadDocument(s, a));
  }

  lemma PlaceVectorKept(s: State, a: AgentId, present: bool)
    requires IndexInv(s) && BuildingAt(s, a, Indexed)
    ensures IndexInv(DoPlaceVector(s, a, present))
  {
    assert AgentOk(s, a);
    HolderWrites(s, DoPlaceVector(s, a, present), a, HeadDocument(s, a));
  }

  lemma MarkReadyKept(s: State, a: AgentId)
    requires IndexInv(s) && BuildingAt(s, a, Placed)
    ensures IndexInv(DoMarkReady(s, a))
  {
    assert AgentOk(s, a);
    HolderWrites(s, DoMarkReady(s, a), a, HeadDocument(s, a));
  }

  lemma DeletePointsKept(s: State, a: AgentId)
    requires IndexInv(s) && DeletingAt(s, a, Locked)
    ensures IndexInv(DoDeletePoints(s, a))
  {
    assert AgentOk(s, a);
    HolderWrites(s, DoDeletePoints(s, a), a, s.agents[a].document);
  }

  lemma DeleteVectorKept(s: State, a: AgentId)
    requires IndexInv(s) && DeletingAt(s, a, PointsGone)
    ensures IndexInv(DoDeleteVector(s, a))
  {
    assert AgentOk(s, a);
    HolderWrites(s, DoDeleteVector(s, a), a, s.agents[a].document);
  }

  lemma EmptyPointsKept(s: State, a: AgentId)
    requires IndexInv(s) && ReindexingAt(s, a, Chosen)
    ensures IndexInv(DoEmptyPoints(s, a))
  {
    assert AgentOk(s, a);
    HolderWrites(s, DoEmptyPoints(s, a), a, s.agents[a].current.value);
  }

  lemma RefillPointsKept(s: State, a: AgentId)
    requires IndexInv(s) && ReindexingAt(s, a, Emptied)
    ensures IndexInv(DoRefillPoints(s, a))
  {
    assert AgentOk(s, a);
    HolderWrites(s, DoRefillPoints(s, a), a, s.agents[a].current.value);
  }

  lemma RefreshVectorKept(s: State, a: AgentId, present: bool)
    requires IndexInv(s) && MayRefreshVector(s, a)
    ensures IndexInv(DoRefreshVector(s, a, present))
  {
    assert AgentOk(s, a);
    HolderWrites(s, DoRefreshVector(s, a, present), a, s.agents[a].current.value);
  }

  // ---- steps that move agents and locks ----------------------------------

  /** An agent is unaffected by steps that keep its lock, its document and the index. */
  lemma AgentFrame(s: State, t: State, b: AgentId)
    requires b in s.agents && b in t.agents && t.agents[b] == s.agents[b] && AgentOk(s, b)
    requires forall d :: LockedBy(s, d, b) ==> LockedBy(t, d, b)
    requires forall d :: d in s.documents ==>
               d in t.documents && (LockedBy(s, d, b) ==> t.documents[d].deleted == s.documents[d].deleted)
    requires t.points == s.points && t.vectors == s.vectors && t.minted == s.minted
    ensures AgentOk(t, b)
  {
  }

  /** Table rows may change as long as no document is deleted or revived and
      nothing is written for a deleted one. */
  lemma TablesFrame(s: State, t: State)
    requires IndexInv(s)
    requires t == s.(documents := t.documents, chunks := t.chunks, profiles := t.profiles, jobs := t.jobs,
                     jobFor := t.jobFor)
    requires forall d :: d in s.documents ==> d in t.documents && t.documents[d].deleted == s.documents[d].deleted
    requires forall d :: d in t.documents && d !in s.documents ==> !t.documents[d].deleted
    requires forall c :: c in t.chunks ==> c in s.minted && s.minted[c] == t.chunks[c]
    requires forall c :: c in t.chunks && c !in s.chunks ==> !t.documents[t.chunks[c]].deleted
    requires forall d :: d in t.profiles && d !in s.profiles ==> d in t.documents && !t.documents[d].deleted
    ensures IndexInv(t)
  {
    forall b | b in t.agents ensures AgentOk(t, b) { AgentFrame(s, t, b); }
    assert LocksOk(t);
    forall d | d in t.documents && t.documents[d].deleted ensures NothingLeft(t, d) { assert NothingLeft(s, d); }
  }

  /** An agent that gives up its locks leaves the index invariant in place. */
  lemma ReleaseKept(s: State, t: State, a: AgentId)
    requires IndexInv(s)
    requires t == s.(agents := t.agents, locks := Released(s.locks, a), jobs := t.jobs)
    requires t.agents == (if a in t.agents then s.agents[a := t.agents[a]] else s.agents - {a})
    requires a in t.agents ==> t.agents[a].Worker? && !t.agents[a].task.Skipping? && !t.agents[a].task.Building?
    ensures IndexInv(t)
  {
    forall b | b in t.agents ensures AgentOk(t, b) {
      if b != a { AgentFrame(s, t, b); }
    }
    assert LocksOk(t);
    assert forall d :: d in t.documents && t.documents[d].deleted ==> NothingLeft(s, d) && NothingLeft(t, d);
  }

  /** An agent with no locks may change what it is doing. */
  lemma UnlockedKept(s: State, t: State, a: AgentId)
    requires IndexInv(s)
    requires a in t.agents && t == s.(agents := s.agents[a := t.agents[a]], jobs := t.jobs)
    requires forall d :: d in s.locks ==> s.locks[d] != a
    requires match t.agents[a]
             case Worker(_, task) => !task.Skipping? && !task.Building?
             case Deleter(_, stage) => stage == Waiting
             case Reindexer(current, _) => current == None
    ensures IndexInv(t)
  {
    forall b | b in t.agents ensures AgentOk(t, b) {
      if b != a { AgentFrame(s, t, b); }
    }
    assert LocksOk(t);
  }

  /** A free document lock goes to the agent that asks for it. */
  lemma LockKept(s: State, t: State, a: AgentId, d: DocumentId)
    requires IndexInv(s)
    requires d in s.documents && (d in s.locks ==> s.locks[d] == a)
    requires a in t.agents && t == s.(agents := s.agents[a := t.agents[a]], locks := s.locks[d := a])
    requires Holds(t.agents[a], d) && AgentOk(t, a)
    requires forall x :: LockedBy(s, x, a) ==> Holds(t.agents[a], x)
    requires t.agents[a].Reindexer? ==> !s.documents[d].deleted && a in s.agents && s.agents[a].Reindexer?
    ensures IndexInv(t)
  {
    forall b | b in t.agents ensures AgentOk(t, b) {
      if b != a { AgentFrame(s, t, b); }
    }
    assert LocksOk(t);
  }

  /** A worker that is not inside a locked section holds no lock. */
  lemma NoLock(s: State, a: AgentId)
    requires IndexInv(s)
    requires a in s.agents ==>
               match s.agents[a]
               case Worker(_, task) => !task.Skipping? && !task.Building?
               case Deleter(_, stage) => stage == Waiting
               case Reindexer(_, _) => false
    ensures forall d :: d in s.locks ==> s.locks[d] != a
  {
  }

  lemma LockForJobKept(s: State, a: AgentId)
    requires IndexInv(s) && MayLockForJob(s, a)
    ensures IndexInv(DoLockForJob(s, a))
  {
    NoLock(s, a);
    LockKept(s, DoLockForJob(s, a), a, HeadDocument(s, a));
  }

  lemma LockForDeleteKept(s: State, a: AgentId)
    requires IndexInv(s) && MayLockForDelete(s, a)
    ensures IndexInv(DoLockForDelete(s, a))
  {
    NoLock(s, a);
    LockKept(s, DoLockForDelete(s, a), a, s.agents[a].document);
  }

  lemma LockForReindexKept(s: State, a: AgentId, d: DocumentId)
    requires IndexInv(s) && MayLockForReindex(s, a, d)
    ensures IndexInv(DoLockForReindex(s, a, d))
  {
    LockKept(s, DoLockForReindex(s, a, d), a, d);
  }

  // ---- commits -----------------------------------------------------------

  /** The rows of a processing transaction reach the tables while its lock is still held. */
  function RowsWritten(s: State, a: AgentId): State
    requires BuildingAt(s, a, Marked) && HeadDocument(s, a) in s.documents
  {
    var d := HeadDocument(s, a);
    var b := BuildOf(s, a);
    s.(chunks := Without(s.chunks, d) + Stamp(b.ids, d),
    profiles := if b.profile then s.profiles + {d} else s.profiles,
    documents := s.documents[d := s.documents[d].(status := b.status)])
  }

  lemma RowsWrittenKept(s: State, a: AgentId)
    requires IndexInv(s) && BuildingAt(s, a, Marked) && HeadDocument(s, a) in s.documents
    ensures IndexInv(RowsWritten(s, a))
  {
    assert AgentOk(s, a);
    TablesFrame(s, RowsWritten(s, a));
  }

  lemma CommitJobKept(s: State, a: AgentId)
    requires IndexInv(s) && MayCommitJob(s, a)
    ensures IndexInv(DoCommitJob(s, a))
  {
    if s.agents[a].task.Skipping? {
      ReleaseKept(s, DoCommitJob(s, a), a);
    } else {
      RowsWrittenKept(s, a);
      ReleaseKept(RowsWritten(s, a), DoCommitJob(s, a), a);
    }
  }

  function RowsDeleted(s: State, d: DocumentId): State
    requires d in s.documents
  {
    s.(chunks := Without(s.chunks, d), profiles := s.profiles - {d},
    documents := s.documents[d := s.documents[d].(deleted := true)])
  }

  lemma CommitDeleteKept(s: State, a: AgentId)
    requires IndexInv(s) && MayCommitDelete(s, a)
    ensures IndexInv(DoCommitDelete(s, a))
  {
    var d := s.agents[a].document;
    var t := RowsDeleted(s, d);
    assert AgentOk(s, a) && LockedBy(s, d, a);
    forall b | b in t.agents ensures AgentOk(t, b) {
      if b != a { AgentFrame(s, t, b); }
    }
    assert LocksOk(t);
    assert NothingLeft(t, d);
    assert forall x :: x in t.documents && t.documents[x].deleted && x != d ==> NothingLeft(s, x) && NothingLeft(t, x);
    ReleaseKept(t, DoCommitDelete(s, a), a);
  }

  lemma CommitFailureKept(s: State, a: AgentId, error: string, now: int, delay: int)
    requires IndexInv(s) && MayCommitFailure(s, a)
    ensures IndexInv(DoCommitFailure(s, a, error, now, delay))
  {
    var t := s.(documents := DoCommitFailure(s, a, error, now, delay).documents);
    TablesFrame(s, t);
    ReleaseKept(t, DoCommitFailure(s, a, error, now, delay), a);
  }

  lemma WorkKept(s: State, a: AgentId, step: WorkerStep)
    requires IndexInv(s) && MayWork(s, a, step)
    ensures IndexInv(DoWork(s, a, step))
  {
    match step
    case StartWorker => NoLock(s, a); UnlockedKept(s, DoWork(s, a, step), a);
    case Claim(limit, now, rowLocks) => NoLock(s, a); UnlockedKept(s, DoWork(s, a, step), a);
    case OpenJob => NoLock(s, a); UnlockedKept(s, DoWork(s, a, step), a);
    case LockForJob => LockForJobKept(s, a);
    case CommitJob => CommitJobKept(s, a);
    case AbortJob => ReleaseKept(s, DoWork(s, a, step), a);
    case OpenFailure => NoLock(s, a); UnlockedKept(s, DoWork(s, a, step), a);
    case CommitFailure(error, now, delay) => CommitFailureKept(s, a, error, now, delay);
  }

  lemma ProcessKept(s: State, a: AgentId, step: BuildStep)
    requires IndexInv(s) && MayProcess(s, a, step)
    ensures IndexInv(DoProcess(s, a, step))
  {
    match step
    case ReplaceRows(ids) => ReplaceRowsKept(s, a, ids);
    case ClearPoints => ClearPointsKept(s, a);
    case PutPoints => PutPointsKept(s, a);
    case PutProfile => PutProfileKept(s, a);
    case PlaceVector(present) => PlaceVectorKept(s, a, present);
    case MarkReady => MarkReadyKept(s, a);
  }

  lemma DeleteKept(s: State, a: AgentId, step: DeleteStep)
    requires IndexInv(s) && MayDelete(s, a, step)
    ensures IndexInv(DoDelete(s, a, step))
  {
    match step
    case StartDelete(d) => NoLock(s, a); UnlockedKept(s, DoDelete(s, a, step), a);
    case LockForDelete => LockForDeleteKept(s, a);
    case DeletePoints => DeletePointsKept(s, a);
    case DeleteVector => DeleteVectorKept(s, a);
    case CommitDelete => CommitDeleteKept(s, a);
  }

  lemma ReindexKept(s: State, a: AgentId, step: ReindexStep)
    requires IndexInv(s) && MayReindex(s, a, step)
    ensures IndexInv(DoReindex(s, a, step))
  {
    match step
    case StartReindex => NoLock(s, a); UnlockedKept(s, DoReindex(s, a, step), a);
    case LockForReindex(d) => LockForReindexKept(s, a, d);
    case EmptyPoints => EmptyPointsKept(s, a);
    case RefillPoints => RefillPointsKept(s, a);
    case RefreshVector(present) => RefreshVectorKept(s, a, present);
    case CommitReindex => ReleaseKept(s, DoReindex(s, a, step), a);
  }

  lemma UploadKept(s: State, tenant: TenantId, fileHash: string, document: DocumentId, job: JobId, now: int)
    requires IndexInv(s) && MayUpload(s, document, job)
    ensures IndexInv(DoUpload(s, tenant, fileHash, document, job, now))
  {
    TablesFrame(s, DoUpload(s, tenant, fileHash, document, job, now));
  }

  lemma IndexInvKept(s: State, step: Step)
    requires IndexInv(s) && Enabled(s, step)
    ensures IndexInv(Apply(s, step))
  {
    match step
    case Upload(tenant, fileHash, document, job, now) => UploadKept(s, tenant, fileHash, document, job, now);
    case Crash(a) => ReleaseKept(s, DoCrash(s, a), a);
    case Work(a, work) => WorkKept(s, a, work);
    case Process(a, build) => ProcessKept(s, a, build);
    case Delete(a, delete) => DeleteKept(s, a, delete);
    case Reindex(a, reindex) => ReindexKept(s, a, reindex);
  }

  // ---- whole runs --------------------------------------------------------

  lemma {:induction false} IndexInvOverRuns(s: State, steps: seq<Step>)
    requires Initial(s) && CanRun(s, steps)
    ensures IndexInv(Run(s, steps))
    decreases |steps|
  {
    if steps != [] {
      IndexInvOverRuns(s, steps[..|steps| - 1]);
      IndexInvKept(Run(s, steps[..|steps| - 1]), steps[|steps| - 1]);
    }
  }

  /** In every reachable state of any interleaving, a document whose deletion has
      committed has no chunk rows, no profile, no chunk points and no document vector. */
  lemma DeletedDocumentsLeaveNothing(s: State, steps: seq<Step>, d: DocumentId)
    requires Initial(s) && CanRun(s, steps)
    requires d in Run(s, steps).documents && Run(s, steps).documents[d].deleted
    ensures var end := Run(s, steps);
            && d !in end.profiles && d !in end.vectors
            && (forall c :: c in end.chunks ==> end.chunks[c] != d)
            && (forall c :: c in end.points ==> end.points[c] != d)
  {
    IndexInvOverRuns(s, steps);
    assert NothingLeft(Run(s, steps), d);
  }
}
