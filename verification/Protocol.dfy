/** Workers, deletions and reindexing over one database and one vector store
    (app/worker.py, app/services/processing.py, deletion.py, reindexing.py).

    The protocol is a labelled transition system. Row writes of a transaction
    are buffered in the agent that runs it and reach the tables only at its
    commit step; vector writes reach the index at once and survive an abort.
    Any transaction may abort between two of its steps, and any agent may crash. */
module Protocol {
  import opened Wrappers
  import opened Identifiers
  import opened Jobs

  datatype DocumentStatus = DocQueued | DocProcessing | DocReady | DocFailed

  datatype Document = Document(tenant: TenantId, fileHash: string, status: DocumentStatus, deleted: bool)

  /** Program order of one processing transaction after it has locked a live document. */
  datatype Phase = Fetching | Replaced | Cleared | Indexed | Placed | Marked

  /** The rows a processing transaction has buffered: a job row to re-create,
      the chunks that replace the old ones, a profile, and the document status. */
  datatype Build = Build(recreate: bool, phase: Phase, ids: set<ChunkId>, profile: bool, status: DocumentStatus)

  datatype Task =
    | Idle
    | Opened(recreate: bool)      // transaction begun, job merged into the session
    | Skipping(recreate: bool)    // document locked and found deleted
    | Building(build: Build)      // document locked and found live
    | MustReport                  // processing rolled back; the failure is still to be recorded
    | Reporting(recreate: bool)   // failure transaction begun, job merged into the session

  /** A claimed job as the worker process remembers it. */
  datatype Held = Held(id: JobId, job: Job)

  datatype DeleteStage = Waiting | Locked | PointsGone | VectorGone

  datatype ReindexStage = Chosen | Emptied | Refilled

  datatype Agent =
    | Worker(batch: seq<Held>, task: Task)
    | Deleter(document: DocumentId, stage: DeleteStage)
    | Reindexer(current: Option<DocumentId>, progress: ReindexStage)

  datatype State = State(
    maxAttempts: nat,                      // the default of enqueue(), which uploads rely on
    documents: map<DocumentId, Document>,
    chunks: map<ChunkId, DocumentId>,
    profiles: set<DocumentId>,
    jobs: Rows,
    points: map<ChunkId, DocumentId>,      // chunk collection of the vector store
    vectors: set<DocumentId>,              // document collection of the vector store
    agents: map<AgentId, Agent>,
    locks: map<DocumentId, AgentId>,       // document row locks
    minted: map<ChunkId, DocumentId>,      // history: which document a chunk id was generated for
    jobFor: map<DocumentId, JobId>)        // history: which job an upload queued

  datatype WorkerStep =
    | StartWorker
    | Claim(limit: nat, now: int, rowLocks: set<JobId>)
    | OpenJob
    | LockForJob
    | CommitJob
    | AbortJob
    | OpenFailure
    | CommitFailure(error: string, now: int, delay: int)

  datatype BuildStep =
    | ReplaceRows(ids: set<ChunkId>)
    | ClearPoints
    | PutPoints
    | PutProfile
    | PlaceVector(present: bool)
    | MarkReady

  datatype DeleteStep =
    | StartDelete(document: DocumentId)
    | LockForDelete
    | DeletePoints
    | DeleteVector
    | CommitDelete

  datatype ReindexStep =
    | StartReindex
    | LockForReindex(document: DocumentId)
    | EmptyPoints
    | RefillPoints
    | RefreshVector(present: bool)
    | CommitReindex

  datatype Step =
    | Upload(tenant: TenantId, fileHash: string, document: DocumentId, job: JobId, now: int)
    | Crash(agent: AgentId)
    | Work(agent: AgentId, work: WorkerStep)
    | Process(agent: AgentId, build: BuildStep)
    | Delete(agent: AgentId, delete: DeleteStep)
    | Reindex(agent: AgentId, reindex: ReindexStep)

  // ---- state helpers -----------------------------------------------------

  predicate IsWorker(s: State, a: AgentId) {
    a in s.agents && s.agents[a].Worker?
  }

  predicate Busy(s: State, a: AgentId) {
    IsWorker(s, a) && s.agents[a].batch != []
  }

  predicate BuildingAt(s: State, a: AgentId, phase: Phase) {
    Busy(s, a) && s.agents[a].task.Building? && s.agents[a].task.build.phase == phase
  }

  predicate DeletingAt(s: State, a: AgentId, stage: DeleteStage) {
    a in s.agents && s.agents[a].Deleter? && s.agents[a].stage == stage
  }

  predicate ReindexingAt(s: State, a: AgentId, stage: ReindexStage) {
    a in s.agents && s.agents[a].Reindexer? && s.agents[a].current.Some? && s.agents[a].progress == stage
  }

  function Head(s: State, a: AgentId): Held
    requires Busy(s, a)
  {
    s.agents[a].batch[0]
  }

  function HeadDocument(s: State, a: AgentId): DocumentId
    requires Busy(s, a)
  {
    Head(s, a).job.document
  }

  function BuildOf(s: State, a: AgentId): Build
    requires Busy(s, a) && s.agents[a].task.Building?
  {
    s.agents[a].task.build
  }

  function WithTask(s: State, a: AgentId, task: Task): State
    requires IsWorker(s, a)
  {
    s.(agents := s.agents[a := s.agents[a].(task := task)])
  }

  function WithBuild(s: State, a: AgentId, build: Build): State
    requires IsWorker(s, a)
  {
    WithTask(s, a, Building(build))
  }

  function Released(locks: map<DocumentId, AgentId>, a: AgentId): map<DocumentId, AgentId> {
    map d | d in locks && locks[d] != a :: locks[d]
  }

  function Without(rows: map<ChunkId, DocumentId>, d: DocumentId): map<ChunkId, DocumentId> {
    map c | c in rows && rows[c] != d :: rows[c]
  }

  function Of(rows: map<ChunkId, DocumentId>, d: DocumentId): set<ChunkId> {
    set c | c in rows && rows[c] == d
  }

  function Stamp(ids: set<ChunkId>, d: DocumentId): map<ChunkId, DocumentId> {
    map c | c in ids :: d
  }

  function Toggle(vectors: set<DocumentId>, d: DocumentId, present: bool): set<DocumentId> {
    if present then vectors + {d} else vectors - {d}
  }

  /** `session.merge(job)`: a row that is gone is inserted again from the worker's copy. */
  function Merged(rows: Rows, h: Held, recreate: bool): Rows {
    if recreate then rows[h.id := h.job] else rows
  }

  /** Whether the open transaction will insert the job row again at its commit. */
  predicate WillInsert(task: Task) {
    match task
    case Opened(recreate) => recreate
    case Skipping(recreate) => recreate
    case Building(b) => b.recreate
    case Reporting(recreate) => recreate
    case _ => false
  }

  /** The worker moves on to its next claimed job; its transaction is over. */
  function NextJob(s: State, a: AgentId): State
    requires Busy(s, a)
  {
    s.(agents := s.agents[a := Worker(s.agents[a].batch[1..], Idle)], locks := Released(s.locks, a))
  }

  function Gone(s: State, a: AgentId): State {
    s.(agents := s.agents - {a}, locks := Released(s.locks, a))
  }

  // ---- the steps ---------------------------------------------------------
  // Each step is a guard (May...) and an effect (Do...).

  predicate LiveCopy(s: State, tenant: TenantId, fileHash: string) {
    exists d :: d in s.documents && s.documents[d].tenant == tenant
                && s.documents[d].fileHash == fileHash && !s.documents[d].deleted
  }

  predicate MayUpload(s: State, document: DocumentId, job: JobId) {
    document !in s.documents && document !in s.jobFor && forall d :: d in s.jobFor ==> s.jobFor[d] != job
  }

  /** Insert the document and its job, unless a live document already holds these
      bytes. The advisory lock makes the look-up and the insert one step. */
  function DoUpload(s: State, tenant: TenantId, fileHash: string, document: DocumentId, job: JobId, now: int): State {
    if LiveCopy(s, tenant, fileHash) then s
    else
      s.(documents := s.documents[document := Document(tenant, fileHash, DocQueued, false)],
      jobs := s.jobs[job := Job(tenant, document, Queued, 0, s.maxAttempts, now, now, None, None, None)],
      jobFor := s.jobFor[document := job])
  }

  predicate MayClaim(s: State, a: AgentId, limit: nat) {
    IsWorker(s, a) && s.agents[a] == Worker([], Idle) && 1 <= limit
  }

  function DoClaim(s: State, a: AgentId, limit: nat, now: int, rowLocks: set<JobId>): State
    requires MayClaim(s, a, limit)
  {
    var ids := Selected(s.jobs, now, rowLocks, limit);
    var rows := AfterClaim(s.jobs, ids, a, now);
    assert forall i :: 0 <= i < |ids| ==> ids[i] in ids;
    var batch := seq(|ids|, i requires 0 <= i < |ids| => Held(ids[i], rows[ids[i]]));
    s.(jobs := rows, agents := s.agents[a := Worker(batch, Idle)])
  }

  predicate MayOpenJob(s: State, a: AgentId) {
    Busy(s, a) && s.agents[a].task.Idle?
  }

  function DoOpenJob(s: State, a: AgentId): State
    requires MayOpenJob(s, a)
  {
    WithTask(s, a, Opened(Head(s, a).id !in s.jobs))
  }

  predicate MayLockForJob(s: State, a: AgentId) {
    && Busy(s, a) && s.agents[a].task.Opened?
    && HeadDocument(s, a) in s.documents
    && HeadDocument(s, a) !in s.locks
  }

  /** The document is read again under its lock, so what a delete did before is seen. */
  function DoLockForJob(s: State, a: AgentId): State
    requires MayLockForJob(s, a)
  {
    var d := HeadDocument(s, a);
    var recreate := s.agents[a].task.recreate;
    var task := if s.documents[d].deleted then Skipping(recreate)
                else Building(Build(recreate, Fetching, {}, false, DocProcessing));
    WithTask(s, a, task).(locks := s.locks[d := a])
  }

  predicate MayReplaceRows(s: State, a: AgentId, ids: set<ChunkId>) {
    BuildingAt(s, a, Fetching) && forall c :: c in ids ==> c !in s.minted
  }

  function DoReplaceRows(s: State, a: AgentId, ids: set<ChunkId>): State
    requires MayReplaceRows(s, a, ids)
  {
    WithBuild(s, a, BuildOf(s, a).(phase := Replaced, ids := ids)).(minted := s.minted + Stamp(ids, HeadDocument(s, a)))
  }

  function DoClearPoints(s: State, a: AgentId): State
    requires BuildingAt(s, a, Replaced)
  {
    WithBuild(s, a, BuildOf(s, a).(phase := Cleared)).(points := Without(s.points, HeadDocument(s, a)))
  }

  function DoPutPoints(s: State, a: AgentId): State
    requires BuildingAt(s, a, Cleared)
  {
    WithBuild(s, a, BuildOf(s, a).(phase := Indexed))
    .(points := s.points + Stamp(BuildOf(s, a).ids, HeadDocument(s, a)))
  }

  function DoPutProfile(s: State, a: AgentId): State
    requires BuildingAt(s, a, Indexed)
  {
    WithBuild(s, a, BuildOf(s, a).(profile := true))
  }

  function DoPlaceVector(s: State, a: AgentId, present: bool): State
    requires BuildingAt(s, a, Indexed)
  {
    WithBuild(s, a, BuildOf(s, a).(phase := Placed)).(vectors := Toggle(s.vectors, HeadDocument(s, a), present))
  }

  function DoMarkReady(s: State, a: AgentId): State
    requires BuildingAt(s, a, Placed)
  {
    WithBuild(s, a, BuildOf(s, a).(phase := Marked, status := DocReady))
  }

  predicate MayCommitJob(s: State, a: AgentId) {
    (Busy(s, a) && s.agents[a].task.Skipping?) || (BuildingAt(s, a, Marked) && HeadDocument(s, a) in s.documents)
  }

  /** `finish` after the merge: the job part of every processing commit. */
  function Settled(s: State, a: AgentId): State
    requires Busy(s, a)
  {
    var h := Head(s, a);
    NextJob(s, a).(jobs := AfterFinish(Merged(s.jobs, h, WillInsert(s.agents[a].task)), h.job.tenant, h.id, a))
  }

  function DoCommitJob(s: State, a: AgentId): State
    requires MayCommitJob(s, a)
  {
    if s.agents[a].task.Skipping? then Settled(s, a)
    else
      var d := HeadDocument(s, a);
      var b := BuildOf(s, a);
      Settled(s, a).(
      chunks := Without(s.chunks, d) + Stamp(b.ids, d),
      profiles := if b.profile then s.profiles + {d} else s.profiles,
      documents := s.documents[d := s.documents[d].(status := b.status)])
  }

  predicate MayAbortJob(s: State, a: AgentId) {
    Busy(s, a) && (s.agents[a].task.Opened? || s.agents[a].task.Skipping? || s.agents[a].task.Building?)
  }

  /** An exception: buffered rows and locks are dropped, vector writes stay. */
  function DoAbortJob(s: State, a: AgentId): State
    requires MayAbortJob(s, a)
  {
    WithTask(s, a, MustReport).(locks := Released(s.locks, a))
  }

  predicate MayOpenFailure(s: State, a: AgentId) {
    Busy(s, a) && s.agents[a].task.MustReport?
  }

  function DoOpenFailure(s: State, a: AgentId): State
    requires MayOpenFailure(s, a)
  {
    WithTask(s, a, Reporting(Head(s, a).id !in s.jobs))
  }

  predicate MayCommitFailure(s: State, a: AgentId) {
    Busy(s, a) && s.agents[a].task.Reporting?
  }

  /** `mark_failed`: it neither locks the document nor looks at `deleted_at`. */
  function DoCommitFailure(s: State, a: AgentId, error: string, now: int, delay: int): State
    requires MayCommitFailure(s, a)
  {
    var h := Head(s, a);
    var d := h.job.document;
    var rows := Merged(s.jobs, h, s.agents[a].task.recreate);
    var failed := AfterFail(rows, h.job.tenant, h.id, a, error, now, delay);
    var documents :=
      if d in s.documents && OwnedBy(rows, h.id, h.job.tenant, a) then
        s.documents[d := s.documents[d].(status := if failed[h.id].status == Failed then DocFailed else DocQueued)]
      else s.documents;
    NextJob(s, a).(jobs := failed, documents := documents)
  }

  function DoCrash(s: State, a: AgentId): State
    requires a in s.agents
  {
    if s.agents[a].Worker? then s.(agents := s.agents[a := Worker([], Idle)], locks := Released(s.locks, a))
    else Gone(s, a)
  }

  predicate MayLockForDelete(s: State, a: AgentId) {
    DeletingAt(s, a, Waiting) && s.agents[a].document in s.documents && s.agents[a].document !in s.locks
  }

  function DoLockForDelete(s: State, a: AgentId): State
    requires MayLockForDelete(s, a)
  {
    var d := s.agents[a].document;
    s.(locks := s.locks[d := a], agents := s.agents[a := Deleter(d, Locked)])
  }

  function DoDeletePoints(s: State, a: AgentId): State
    requires DeletingAt(s, a, Locked)
  {
    var d := s.agents[a].document;
    s.(points := Without(s.points, d), agents := s.agents[a := Deleter(d, PointsGone)])
  }

  function DoDeleteVector(s: State, a: AgentId): State
    requires DeletingAt(s, a, PointsGone)
  {
    var d := s.agents[a].document;
    s.(vectors := s.vectors - {d}, agents := s.agents[a := Deleter(d, VectorGone)])
  }

  predicate MayCommitDelete(s: State, a: AgentId) {
    DeletingAt(s, a, VectorGone) && s.agents[a].document in s.documents
  }

  function DoCommitDelete(s: State, a: AgentId): State
    requires MayCommitDelete(s, a)
  {
    var d := s.agents[a].document;
    Gone(s, a).(chunks := Without(s.chunks, d),
    profiles := s.profiles - {d},
    jobs := map j | j in s.jobs && s.jobs[j].document != d :: s.jobs[j],
    documents := s.documents[d := s.documents[d].(deleted := true)])
  }

  /** `reindex_document`; `reindex_tenant` repeats it inside one transaction, keeping every lock. */
  predicate MayLockForReindex(s: State, a: AgentId, d: DocumentId) {
    && a in s.agents && s.agents[a].Reindexer?
    && d in s.documents && !s.documents[d].deleted
    && (d in s.locks ==> s.locks[d] == a)
  }

  function DoLockForReindex(s: State, a: AgentId, d: DocumentId): State
    requires MayLockForReindex(s, a, d)
  {
    s.(locks := s.locks[d := a], agents := s.agents[a := Reindexer(Some(d), Chosen)])
  }

  function DoEmptyPoints(s: State, a: AgentId): State
    requires ReindexingAt(s, a, Chosen)
  {
    var d := s.agents[a].current.value;
    s.(points := Without(s.points, d), agents := s.agents[a := Reindexer(Some(d), Emptied)])
  }

  function DoRefillPoints(s: State, a: AgentId): State
    requires ReindexingAt(s, a, Emptied)
  {
    var d := s.agents[a].current.value;
    s.(points := s.points + Stamp(Of(s.chunks, d), d), agents := s.agents[a := Reindexer(Some(d), Refilled)])
  }

  /** A document without stored chunks is refused before its vector is touched. */
  predicate MayRefreshVector(s: State, a: AgentId) {
    ReindexingAt(s, a, Refilled) && Of(s.chunks, s.agents[a].current.value) != {}
  }

  function DoRefreshVector(s: State, a: AgentId, present: bool): State
    requires MayRefreshVector(s, a)
  {
    s.(vectors := Toggle(s.vectors, s.agents[a].current.value, present))
  }

  predicate MayWork(s: State, a: AgentId, step: WorkerStep) {
    match step
    case StartWorker => a !in s.agents
    case Claim(limit, now, rowLocks) => MayClaim(s, a, limit)
    case OpenJob => MayOpenJob(s, a)
    case LockForJob => MayLockForJob(s, a)
    case CommitJob => MayCommitJob(s, a)
    case AbortJob => MayAbortJob(s, a)
    case OpenFailure => MayOpenFailure(s, a)
    case CommitFailure(error, now, delay) => MayCommitFailure(s, a)
  }

  function DoWork(s: State, a: AgentId, step: WorkerStep): (t: State)
    requires MayWork(s, a, step)
    ensures t.maxAttempts == s.maxAttempts
  {
    match step
    case StartWorker => s.(agents := s.agents[a := Worker([], Idle)])
    case Claim(limit, now, rowLocks) => DoClaim(s, a, limit, now, rowLocks)
    case OpenJob => DoOpenJob(s, a)
    case LockForJob => DoLockForJob(s, a)
    case CommitJob => DoCommitJob(s, a)
    case AbortJob => DoAbortJob(s, a)
    case OpenFailure => DoOpenFailure(s, a)
    case CommitFailure(error, now, delay) => DoCommitFailure(s, a, error, now, delay)
  }

  predicate MayProcess(s: State, a: AgentId, step: BuildStep) {
    match step
    case ReplaceRows(ids) => MayReplaceRows(s, a, ids)
    case ClearPoints => BuildingAt(s, a, Replaced)
    case PutPoints => BuildingAt(s, a, Cleared)
    case PutProfile => BuildingAt(s, a, Indexed)
    case PlaceVector(present) => BuildingAt(s, a, Indexed)
    case MarkReady => BuildingAt(s, a, Placed)
  }

  function DoProcess(s: State, a: AgentId, step: BuildStep): (t: State)
    requires MayProcess(s, a, step)
    ensures t.maxAttempts == s.maxAttempts
  {
    match step
    case ReplaceRows(ids) => DoReplaceRows(s, a, ids)
    case ClearPoints => DoClearPoints(s, a)
    case PutPoints => DoPutPoints(s, a)
    case PutProfile => DoPutProfile(s, a)
    case PlaceVector(present) => DoPlaceVector(s, a, present)
    case MarkReady => DoMarkReady(s, a)
  }

  predicate MayDelete(s: State, a: AgentId, step: DeleteStep) {
    match step
    case StartDelete(d) => a !in s.agents
    case LockForDelete => MayLockForDelete(s, a)
    case DeletePoints => DeletingAt(s, a, Locked)
    case DeleteVector => DeletingAt(s, a, PointsGone)
    case CommitDelete => MayCommitDelete(s, a)
  }

  function DoDelete(s: State, a: AgentId, step: DeleteStep): (t: State)
    requires MayDelete(s, a, step)
    ensures t.maxAttempts == s.maxAttempts
  {
    match step
    case StartDelete(d) => s.(agents := s.agents[a := Deleter(d, Waiting)])
    case LockForDelete => DoLockForDelete(s, a)
    case DeletePoints => DoDeletePoints(s, a)
    case DeleteVector => DoDeleteVector(s, a)
    case CommitDelete => DoCommitDelete(s, a)
  }

  predicate MayReindex(s: State, a: AgentId, step: ReindexStep) {
    match step
    case StartReindex => a !in s.agents
    case LockForReindex(d) => MayLockForReindex(s, a, d)
    case EmptyPoints => ReindexingAt(s, a, Chosen)
    case RefillPoints => ReindexingAt(s, a, Emptied)
    case RefreshVector(present) => MayRefreshVector(s, a)
    case CommitReindex => a in s.agents && s.agents[a].Reindexer?
  }

  function DoReindex(s: State, a: AgentId, step: ReindexStep): (t: State)
    requires MayReindex(s, a, step)
    ensures t.maxAttempts == s.maxAttempts
  {
    match step
    case StartReindex => s.(agents := s.agents[a := Reindexer(None, Chosen)])
    case LockForReindex(d) => DoLockForReindex(s, a, d)
    case EmptyPoints => DoEmptyPoints(s, a)
    case RefillPoints => DoRefillPoints(s, a)
    case RefreshVector(present) => DoRefreshVector(s, a, present)
    case CommitReindex => Gone(s, a)
  }

  predicate Enabled(s: State, step: Step) {
    match step
    case Upload(tenant, fileHash, document, job, now) => MayUpload(s, document, job)
    case Crash(a) => a in s.agents
    case Work(a, work) => MayWork(s, a, work)
    case Process(a, build) => MayProcess(s, a, build)
    case Delete(a, delete) => MayDelete(s, a, delete)
    case Reindex(a, reindex) => MayReindex(s, a, reindex)
  }

  function Apply(s: State, step: Step): (t: State)
    requires Enabled(s, step)
    ensures t.maxAttempts == s.maxAttempts
  {
    match step
    case Upload(tenant, fileHash, document, job, now) => DoUpload(s, tenant, fileHash, document, job, now)
    case Crash(a) => DoCrash(s, a)
    case Work(a, work) => DoWork(s, a, work)
    case Process(a, build) => DoProcess(s, a, build)
    case Delete(a, delete) => DoDelete(s, a, delete)
    case Reindex(a, reindex) => DoReindex(s, a, reindex)
  }

  // ---- runs --------------------------------------------------------------

  ghost predicate Initial(s: State) {
    && 1 <= s.maxAttempts
    && s.documents == map[] && s.chunks == map[] && s.profiles == {} && s.jobs == map[]
    && s.points == map[] && s.vectors == {} && s.agents == map[] && s.locks == map[]
    && s.minted == map[] && s.jobFor == map[]
  }

  /** The steps can be taken one after another from `s`. */
  ghost predicate CanRun(s: State, steps: seq<Step>)
    decreases |steps|, 0
  {
    steps == [] || (CanRun(s, steps[..|steps| - 1]) && Enabled(Run(s, steps[..|steps| - 1]), steps[|steps| - 1]))
  }

  ghost function Run(s: State, steps: seq<Step>): State
    requires CanRun(s, steps)
    decreases |steps|, 1
  {
    if steps == [] then s
    else Apply(Run(s, steps[..|steps| - 1]), steps[|steps| - 1])
  }
}
