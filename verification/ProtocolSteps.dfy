/** What the steps of the protocol change, in the words of the tables, and what they leave. */
module ProtocolSteps {
  import opened Wrappers
  import opened Identifiers
  import opened Jobs
  import opened Protocol

  // ---- uploads -----------------------------------------------------------------------

  /** An upload is taken exactly when no live document of the same tenant has these bytes:
      then there is one queued document more, with one queued job that was never tried.
      Otherwise nothing changes. */
  lemma UploadOutcome(s: State, tenant: TenantId, fileHash: string, document: DocumentId, job: JobId, now: int)
    requires Enabled(s, Upload(tenant, fileHash, document, job, now))
    ensures var t := Apply(s, Upload(tenant, fileHash, document, job, now));
            if exists d :: d in s.documents && s.documents[d].tenant == tenant && s.documents[d].fileHash == fileHash
                           && !s.documents[d].deleted
            then t == s
            else UploadedAs(s, t, tenant, fileHash, document, job, now)
  {
    DoUploadOutcome(s, tenant, fileHash, document, job, now);
  }

  ghost predicate UploadedAs(
    s: State, t: State, tenant: TenantId, fileHash: string, document: DocumentId, job: JobId, now: int)
  {
    && document !in s.documents && t.documents.Keys == s.documents.Keys + {document}
    && (forall d :: d in s.documents ==> t.documents[d] == s.documents[d])
    && t.documents[document].tenant == tenant && t.documents[document].fileHash == fileHash
    && t.documents[document].status == DocQueued && !t.documents[document].deleted
    && t.jobs.Keys == s.jobs.Keys + {job} && (forall j :: j in s.jobs && j != job ==> t.jobs[j] == s.jobs[j])
    && NewJob(t.jobs[job], tenant, document, s.maxAttempts, now)
    && t == s.(documents := t.documents, jobs := t.jobs, jobFor := s.jobFor[document := job])
  }

  lemma DoUploadOutcome(s: State, tenant: TenantId, fileHash: string, document: DocumentId, job: JobId, now: int)
    requires MayUpload(s, document, job)
    ensures var t := DoUpload(s, tenant, fileHash, document, job, now);
            if LiveCopy(s, tenant, fileHash) then t == s
            else UploadedAs(s, t, tenant, fileHash, document, job, now)
  {
  }

  predicate NewJob(job: Job, tenant: TenantId, document: DocumentId, maxAttempts: nat, now: int) {
    && job.tenant == tenant && job.document == document && job.status == Queued && job.attempts == 0
    && job.maxAttempts == maxAttempts && job.availableAt == now && job.createdAt == now
    && job.claimedAt == None && job.claimedBy == None && job.lastError == None
  }

  // ---- claims ------------------------------------------------------------------------

  /** A claim takes the first due jobs that nobody has locked and remembers them as they
      are in the table now. */
  lemma ClaimOutcome(s: State, a: AgentId, limit: nat, now: int, rowLocks: set<JobId>)
    requires MayWork(s, a, Claim(limit, now, rowLocks))
    ensures var t := DoWork(s, a, Claim(limit, now, rowLocks));
            exists ids: seq<JobId> ::
              && TakesInOrder(s.jobs, ids, now, rowLocks, limit) && ClaimedAs(t.jobs, s.jobs, ids, a, now)
              && t.agents.Keys == s.agents.Keys && t.agents[a].Worker? && t.agents[a].task == Idle
              && |t.agents[a].batch| == |ids|
              && (forall i :: 0 <= i < |ids| ==>
                    ids[i] in t.jobs && t.agents[a].batch[i] == Held(ids[i], t.jobs[ids[i]]))
              && t == s.(jobs := t.jobs, agents := s.agents[a := t.agents[a]])
  {
    var t, ids := DoClaim(s, a, limit, now, rowLocks), Selected(s.jobs, now, rowLocks, limit);
    SelectedInOrder(s.jobs, now, rowLocks, limit);
    ClaimIsStated(s.jobs, ids, a, now);
    forall i | 0 <= i < |ids| ensures ids[i] in t.jobs {
      assert ids[i] in ids;
    }
  }

  // ---- commits -----------------------------------------------------------------------

  /** The job row as the transaction of a worker finds it at its commit, once merged. */
  ghost predicate AtCommit(s: State, a: AgentId, recreate: bool, row: Option<Job>)
    requires Busy(s, a)
  {
    var id := Head(s, a).id;
    row == if recreate then Some(Head(s, a).job) else if id in s.jobs then Some(s.jobs[id]) else None
  }

  predicate Mine(row: Option<Job>, h: Held, a: AgentId) {
    row.Some? && row.value.tenant == h.job.tenant && row.value.status == JobStatus.Processing
    && row.value.claimedBy == Some(a)
  }

  /** The worker goes on to its next job, and its locks are free. */
  ghost predicate MovesOn(s: State, t: State, a: AgentId)
    requires Busy(s, a)
  {
    && t.agents == s.agents[a := Worker(s.agents[a].batch[1..], Idle)]
    && (forall d :: d in t.locks <==> d in s.locks && s.locks[d] != a)
    && (forall d :: d in t.locks ==> t.locks[d] == s.locks[d])
  }

  /** Only this row of the queue differs, and it is as given. */
  ghost predicate OneRow(before: Rows, after: Rows, id: JobId, row: Option<Job>) {
    && (forall j :: j != id ==> (j in after <==> j in before))
    && (forall j :: j in after && j != id ==> after[j] == before[j])
    && (id in after <==> row.Some?) && (row.Some? ==> after[id] == row.value)
  }

  ghost predicate FinishedRow(row: Option<Job>, was: Option<Job>, h: Held, a: AgentId) {
    if Mine(was, h, a) then
      && row.Some? && row.value.status == Finished && row.value.attempts == was.value.attempts
      && row.value.claimedBy == None && row.value.claimedAt == None && row.value.lastError == None
      && SameButClaim(row.value, was.value) && row.value.availableAt == was.value.availableAt
    else row == was
  }

  /** The commit of a document that was found deleted settles the job and nothing else. */
  lemma SkipOutcome(s: State, a: AgentId)
    requires MayCommitJob(s, a) && s.agents[a].task.Skipping?
    ensures var t, h := DoCommitJob(s, a), Head(s, a);
            && MovesOn(s, t, a)
            && t == s.(agents := t.agents, locks := t.locks, jobs := t.jobs)
            && exists was, row :: AtCommit(s, a, s.agents[a].task.recreate, was)
                                  && OneRow(s.jobs, t.jobs, h.id, row) && FinishedRow(row, was, h, a)
  {
    SettleOutcome(s, a, s.agents[a].task.recreate);
  }

  lemma SettleOutcome(s: State, a: AgentId, recreate: bool)
    requires Busy(s, a) && recreate == WillInsert(s.agents[a].task)
    ensures var t, h := Settled(s, a), Head(s, a);
            && MovesOn(s, t, a)
            && t == s.(agents := t.agents, locks := t.locks, jobs := t.jobs)
            && exists was, row :: AtCommit(s, a, recreate, was)
                                  && OneRow(s.jobs, t.jobs, h.id, row) && FinishedRow(row, was, h, a)
  {
    var t, h := Settled(s, a), Head(s, a);
    var was := if recreate then Some(h.job) else if h.id in s.jobs then Some(s.jobs[h.id]) else None;
    var row := if h.id in t.jobs then Some(t.jobs[h.id]) else None;
    assert AtCommit(s, a, recreate, was) && OneRow(s.jobs, t.jobs, h.id, row) && FinishedRow(row, was, h, a);
  }

  /** The commit of a processed document: its chunk rows are the new ones, it is ready, and
      no other document is touched. */
  lemma BuildOutcome(s: State, a: AgentId)
    requires MayCommitJob(s, a) && s.agents[a].task.Building?
    ensures var t, h, b, d := DoCommitJob(s, a), Head(s, a), BuildOf(s, a), HeadDocument(s, a);
            && MovesOn(s, t, a)
            && (exists was, row :: AtCommit(s, a, b.recreate, was)
                                   && OneRow(s.jobs, t.jobs, h.id, row) && FinishedRow(row, was, h, a))
            && BuiltAs(s, t, b, d)
  {
    SettleOutcome(s, a, BuildOf(s, a).recreate);
    BuildLeaves(s, a);
  }

  /** The chunk rows of `d` are the new ones, its status is as decided, nothing of others changes. */
  ghost predicate BuiltAs(s: State, t: State, b: Build, d: DocumentId)
    requires d in s.documents
  {
    && (forall c :: c in t.chunks && t.chunks[c] == d <==> c in b.ids)
    && (forall c :: c !in b.ids ==> (c in t.chunks <==> c in s.chunks && s.chunks[c] != d))
    && (forall c :: c in t.chunks && c !in b.ids ==> t.chunks[c] == s.chunks[c])
    && t.profiles == s.profiles + (if b.profile then {d} else {})
    && t.documents.Keys == s.documents.Keys
    && (forall x :: x in s.documents && x != d ==> t.documents[x] == s.documents[x])
    && t.documents[d].status == b.status && t.documents[d].deleted == s.documents[d].deleted
    && t.documents[d].tenant == s.documents[d].tenant && t.documents[d].fileHash == s.documents[d].fileHash
    && t.points == s.points && t.vectors == s.vectors && t.minted == s.minted && t.jobFor == s.jobFor
  }

  lemma BuildLeaves(s: State, a: AgentId)
    requires MayCommitJob(s, a) && s.agents[a].task.Building?
    ensures BuiltAs(s, DoCommitJob(s, a), BuildOf(s, a), HeadDocument(s, a))
  {
  }

  /** A reported failure: the document is queued again while its job is, and failed when the
      job is; a job that is no longer the worker's own stays, and so does its document. */
  lemma FailureOutcome(s: State, a: AgentId, error: string, now: int, delay: int)
    requires MayCommitFailure(s, a)
    ensures var t, h, d := DoCommitFailure(s, a, error, now, delay), Head(s, a), HeadDocument(s, a);
            && MovesOn(s, t, a)
            && (exists was, row ::
                  && AtCommit(s, a, s.agents[a].task.recreate, was) && OneRow(s.jobs, t.jobs, h.id, row)
                  && if Mine(was, h, a) then row.Some? && FailedAs(row.value, was.value, error, now, delay)
                                             && DocumentFollows(s, t, d, row.value)
                     else row == was && t.documents == s.documents)
            && t == s.(agents := t.agents, locks := t.locks, jobs := t.jobs, documents := t.documents)
  {
    var t, h, d := DoCommitFailure(s, a, error, now, delay), Head(s, a), HeadDocument(s, a);
    var recreate := s.agents[a].task.recreate;
    var was := if recreate then Some(h.job) else if h.id in s.jobs then Some(s.jobs[h.id]) else None;
    var row := if h.id in t.jobs then Some(t.jobs[h.id]) else None;
    assert AtCommit(s, a, recreate, was) && OneRow(s.jobs, t.jobs, h.id, row);
    if Mine(was, h, a) {
      assert FailedAs(row.value, was.value, error, now, delay);
      assert DocumentFollows(s, t, d, row.value);
    }
  }

  /** The document has the status of its job, if it is there; no other is touched. */
  ghost predicate DocumentFollows(s: State, t: State, d: DocumentId, row: Job) {
    && t.documents.Keys == s.documents.Keys
    && (forall x :: x in s.documents && x != d ==> t.documents[x] == s.documents[x])
    && (d in s.documents ==>
          && t.documents[d].status == (if row.status == Failed then DocFailed else DocQueued)
          && t.documents[d].deleted == s.documents[d].deleted
          && t.documents[d].tenant == s.documents[d].tenant && t.documents[d].fileHash == s.documents[d].fileHash)
  }

  /** The commit of a deletion removes exactly the rows of the document and marks it. */
  lemma DeleteOutcome(s: State, a: AgentId)
    requires MayCommitDelete(s, a)
    ensures var t, d := DoCommitDelete(s, a), s.agents[a].document;
            && (forall c :: c in t.chunks <==> c in s.chunks && s.chunks[c] != d)
            && (forall c :: c in t.chunks ==> t.chunks[c] == s.chunks[c])
            && (forall x :: x in t.profiles <==> x in s.profiles && x != d)
            && (forall j :: j in t.jobs <==> j in s.jobs && s.jobs[j].document != d)
            && (forall j :: j in t.jobs ==> t.jobs[j] == s.jobs[j])
            && t.documents.Keys == s.documents.Keys
            && (forall x :: x in s.documents && x != d ==> t.documents[x] == s.documents[x])
            && t.documents[d].deleted && t.documents[d].status == s.documents[d].status
            && t.documents[d].tenant == s.documents[d].tenant && t.documents[d].fileHash == s.documents[d].fileHash
            && t.agents == s.agents - {a} && (forall x :: x in t.locks <==> x in s.locks && s.locks[x] != a)
            && t.points == s.points && t.vectors == s.vectors && t.minted == s.minted && t.jobFor == s.jobFor
  {
  }

  ghost predicate SameRows(s: State, t: State) {
    t.documents == s.documents && t.chunks == s.chunks && t.profiles == s.profiles && t.jobs == s.jobs
  }

  ghost predicate SameStore(s: State, t: State) {
    t.points == s.points && t.vectors == s.vectors
  }

  lemma WorkLeaves(s: State, a: AgentId, step: WorkerStep)
    requires MayWork(s, a, step)
    ensures SameStore(s, DoWork(s, a, step))
    ensures !step.Claim? && !step.CommitJob? && !step.CommitFailure? ==> SameRows(s, DoWork(s, a, step))
  {
    match step
    case StartWorker =>
    case Claim(limit, now, rowLocks) =>
    case OpenJob =>
    case LockForJob =>
    case CommitJob => CommitLeavesStore(s, a);
    case AbortJob =>
    case OpenFailure =>
    case CommitFailure(error, now, delay) => ReportLeavesStore(s, a, error, now, delay);
  }

  lemma CommitLeavesStore(s: State, a: AgentId)
    requires MayCommitJob(s, a)
    ensures SameStore(s, DoCommitJob(s, a))
  {
  }

  lemma ReportLeavesStore(s: State, a: AgentId, error: string, now: int, delay: int)
    requires MayCommitFailure(s, a)
    ensures SameStore(s, DoCommitFailure(s, a, error, now, delay))
  {
  }

  lemma ProcessLeaves(s: State, a: AgentId, step: BuildStep)
    requires MayProcess(s, a, step)
    ensures SameRows(s, DoProcess(s, a, step))
    ensures !step.ClearPoints? && !step.PutPoints? && !step.PlaceVector? ==> SameStore(s, DoProcess(s, a, step))
  {
  }

  lemma DeleteLeaves(s: State, a: AgentId, step: DeleteStep)
    requires MayDelete(s, a, step)
    ensures !step.CommitDelete? ==> SameRows(s, DoDelete(s, a, step))
    ensures !step.DeletePoints? && !step.DeleteVector? ==> SameStore(s, DoDelete(s, a, step))
  {
  }

  lemma ReindexLeaves(s: State, a: AgentId, step: ReindexStep)
    requires MayReindex(s, a, step)
    ensures SameRows(s, DoReindex(s, a, step))
    ensures !step.EmptyPoints? && !step.RefillPoints? && !step.RefreshVector? ==> SameStore(s, DoReindex(s, a, step))
  {
  }

  /** No other step touches a row: what a transaction does is invisible until it commits. */
  lemma OnlyCommitsTouchRows(s: State, step: Step)
    requires Enabled(s, step) && !step.Upload?
    requires step.Work? ==> !step.work.Claim? && !step.work.CommitJob? && !step.work.CommitFailure?
    requires step.Delete? ==> !step.delete.CommitDelete?
    ensures SameRows(s, Apply(s, step))
  {
    match step
    case Crash(a) =>
    case Work(a, work) => WorkLeaves(s, a, work);
    case Process(a, build) => ProcessLeaves(s, a, build);
    case Delete(a, delete) => DeleteLeaves(s, a, delete);
    case Reindex(a, reindex) => ReindexLeaves(s, a, reindex);
  }

  // ---- the vector store --------------------------------------------------------------

  /** The points of all other documents are as they were. */
  ghost predicate OthersPoints(s: State, t: State, d: DocumentId) {
    && (forall c :: c in t.points && t.points[c] != d ==> c in s.points && s.points[c] == t.points[c])
    && (forall c :: c in s.points && s.points[c] != d ==> c in t.points)
  }

  /** Clearing, deleting and emptying take all points of the document and no other. */
  lemma PointsGo(s: State, a: AgentId)
    ensures BuildingAt(s, a, Replaced) ==>
              var t := DoProcess(s, a, ClearPoints);
              OthersPoints(s, t, HeadDocument(s, a)) && forall c :: c in t.points ==> t.points[c] != HeadDocument(s, a)
    ensures DeletingAt(s, a, Locked) ==>
              var t := DoDelete(s, a, DeletePoints);
              OthersPoints(s, t, s.agents[a].document)
              && forall c :: c in t.points ==> t.points[c] != s.agents[a].document
    ensures ReindexingAt(s, a, Chosen) ==>
              var t, d := DoReindex(s, a, EmptyPoints), s.agents[a].current.value;
              OthersPoints(s, t, d) && forall c :: c in t.points ==> t.points[c] != d
  {
  }

  /** A processing puts a point for each of its chunks, a reindex for each chunk row; points
      under other ids stay. */
  lemma PointsCome(s: State, a: AgentId)
    ensures BuildingAt(s, a, Cleared) ==>
              var t := DoProcess(s, a, PutPoints);
              PointsAt(s, t, BuildOf(s, a).ids, HeadDocument(s, a))
    ensures ReindexingAt(s, a, Emptied) ==>
              var t, d := DoReindex(s, a, RefillPoints), s.agents[a].current.value;
              exists ids :: PointsAt(s, t, ids, d) && forall c :: c in ids <==> c in s.chunks && s.chunks[c] == d
  {
    if ReindexingAt(s, a, Emptied) {
      var d := s.agents[a].current.value;
      assert PointsAt(s, DoReindex(s, a, RefillPoints), Of(s.chunks, d), d);
    }
  }

  ghost predicate PointsAt(s: State, t: State, ids: set<ChunkId>, d: DocumentId) {
    && (forall c :: c in ids ==> c in t.points && t.points[c] == d)
    && (forall c :: c !in ids ==> (c in t.points <==> c in s.points))
    && (forall c :: c !in ids && c in t.points ==> t.points[c] == s.points[c])
  }

  /** The document's vector is there or not, as the profile says; a deletion removes it. */
  lemma VectorsChange(s: State, a: AgentId, present: bool)
    ensures BuildingAt(s, a, Indexed) ==>
              OneVector(s, DoProcess(s, a, PlaceVector(present)), HeadDocument(s, a), present)
    ensures MayRefreshVector(s, a) ==>
              OneVector(s, DoReindex(s, a, RefreshVector(present)), s.agents[a].current.value, present)
    ensures DeletingAt(s, a, PointsGone) ==>
              OneVector(s, DoDelete(s, a, DeleteVector), s.agents[a].document, false)
  {
    if BuildingAt(s, a, Indexed) { VectorPlaced(s, a, present); }
    if MayRefreshVector(s, a) { VectorRefreshed(s, a, present); }
    if DeletingAt(s, a, PointsGone) { VectorDeleted(s, a); }
  }

  lemma VectorPlaced(s: State, a: AgentId, present: bool)
    requires BuildingAt(s, a, Indexed)
    ensures OneVector(s, DoProcess(s, a, PlaceVector(present)), HeadDocument(s, a), present)
  {
  }

  lemma VectorRefreshed(s: State, a: AgentId, present: bool)
    requires MayRefreshVector(s, a)
    ensures OneVector(s, DoReindex(s, a, RefreshVector(present)), s.agents[a].current.value, present)
  {
  }

  lemma VectorDeleted(s: State, a: AgentId)
    requires DeletingAt(s, a, PointsGone)
    ensures OneVector(s, DoDelete(s, a, DeleteVector), s.agents[a].document, false)
  {
  }

  ghost predicate OneVector(s: State, t: State, d: DocumentId, present: bool) {
    (d in t.vectors <==> present) && forall x :: x != d ==> (x in t.vectors <==> x in s.vectors)
  }

  /** All other steps leave the vector store alone, an abort or a crash in particular:
      what was written there stays. */
  lemma OthersLeaveVectors(s: State, step: Step)
    requires Enabled(s, step)
    requires step.Process? ==> !step.build.ClearPoints? && !step.build.PutPoints? && !step.build.PlaceVector?
    requires step.Delete? ==> !step.delete.DeletePoints? && !step.delete.DeleteVector?
    requires step.Reindex? ==> !step.reindex.EmptyPoints? && !step.reindex.RefillPoints? && !step.reindex.RefreshVector?
    ensures SameStore(s, Apply(s, step))
  {
    match step
    case Upload(tenant, fileHash, document, job, now) =>
    case Crash(a) =>
    case Work(a, work) => WorkLeaves(s, a, work);
    case Process(a, build) => ProcessLeaves(s, a, build);
    case Delete(a, delete) => DeleteLeaves(s, a, delete);
    case Reindex(a, reindex) => ReindexLeaves(s, a, reindex);
  }

  // ---- failures ----------------------------------------------------------------------

  /** After an exception the worker can do nothing but report the failure, or crash; the
      job it held stays at the head of its batch until then. */
  lemma FailuresAreReported(s: State, a: AgentId, step: WorkerStep, next: WorkerStep)
    requires MayAbortJob(s, a)
    ensures var t := DoAbortJob(s, a);
            && t.agents[a].batch == s.agents[a].batch && (forall d :: d in t.locks ==> t.locks[d] != a)
            && (MayWork(t, a, step) ==> step.OpenFailure?)
            && (step.OpenFailure? ==>
                  && MayWork(t, a, step)
                  && var u := DoWork(t, a, step);
                     u.agents[a].batch == s.agents[a].batch && (MayWork(u, a, next) ==> next.CommitFailure?))
            && forall build :: !MayProcess(t, a, build)
  {
  }

  // ---- beginnings, ends and the others -------------------------------------------------

  /** A crashed worker starts over without jobs; its claimed rows stay as they are. Another
      participant is gone. Either way its locks are free. */
  lemma CrashOutcome(s: State, a: AgentId)
    requires a in s.agents
    ensures var t := DoCrash(s, a);
            && t.agents == (if s.agents[a].Worker? then s.agents[a := Worker([], Idle)] else s.agents - {a})
            && (forall d :: d in t.locks <==> d in s.locks && s.locks[d] != a)
            && (forall d :: d in t.locks ==> t.locks[d] == s.locks[d])
            && t == s.(agents := t.agents, locks := t.locks)
  {
  }

  /** Participants begin with nothing in hand, and a reindex that is done lets go of all. */
  lemma BeginningsAndEnds(s: State, a: AgentId, d: DocumentId)
    ensures a !in s.agents ==> DoWork(s, a, StartWorker) == s.(agents := s.agents[a := Worker([], Idle)])
    ensures a !in s.agents ==> DoDelete(s, a, StartDelete(d)) == s.(agents := s.agents[a := Deleter(d, Waiting)])
    ensures a !in s.agents ==> DoReindex(s, a, StartReindex) == s.(agents := s.agents[a := Reindexer(None, Chosen)])
    ensures a in s.agents && s.agents[a].Reindexer? ==>
              var t := DoReindex(s, a, CommitReindex);
              && t.agents == s.agents - {a} && (forall x :: x in t.locks <==> x in s.locks && s.locks[x] != a)
              && t == s.(agents := t.agents, locks := t.locks)
  {
  }

  /** The agents and the locks of all others are as they were. */
  ghost predicate OthersStay(s: State, t: State, a: AgentId) {
    && (forall b :: b != a ==> (b in t.agents <==> b in s.agents))
    && (forall b :: b != a && b in s.agents ==> t.agents[b] == s.agents[b])
    && (forall d :: d in s.locks && s.locks[d] != a ==> d in t.locks && t.locks[d] == s.locks[d])
    && (forall d :: d in t.locks && t.locks[d] != a ==> d in s.locks && s.locks[d] == t.locks[d])
  }

  lemma WorkConcernsItself(s: State, a: AgentId, step: WorkerStep)
    requires MayWork(s, a, step)
    ensures OthersStay(s, DoWork(s, a, step), a)
  {
    match step
    case StartWorker =>
    case Claim(limit, now, rowLocks) => ClaimConcernsItself(s, a, limit, now, rowLocks);
    case OpenJob => TaskConcernsItself(s, a);
    case LockForJob => LockConcernsItself(s, a);
    case CommitJob => CommitConcernsItself(s, a);
    case AbortJob => AbortConcernsItself(s, a);
    case OpenFailure => TaskConcernsItself(s, a);
    case CommitFailure(error, now, delay) => FailureConcernsItself(s, a, error, now, delay);
  }

  lemma ClaimConcernsItself(s: State, a: AgentId, limit: nat, now: int, rowLocks: set<JobId>)
    requires MayClaim(s, a, limit)
    ensures OthersStay(s, DoClaim(s, a, limit, now, rowLocks), a)
  {
  }

  lemma TaskConcernsItself(s: State, a: AgentId)
    ensures MayOpenJob(s, a) ==> OthersStay(s, DoOpenJob(s, a), a)
    ensures MayOpenFailure(s, a) ==> OthersStay(s, DoOpenFailure(s, a), a)
  {
  }

  lemma LockConcernsItself(s: State, a: AgentId)
    requires MayLockForJob(s, a)
    ensures OthersStay(s, DoLockForJob(s, a), a)
  {
  }

  lemma AbortConcernsItself(s: State, a: AgentId)
    requires MayAbortJob(s, a)
    ensures OthersStay(s, DoAbortJob(s, a), a)
  {
  }

  lemma CommitConcernsItself(s: State, a: AgentId)
    requires MayCommitJob(s, a)
    ensures OthersStay(s, DoCommitJob(s, a), a)
  {
    SettledConcernsItself(s, a);
  }

  lemma SettledConcernsItself(s: State, a: AgentId)
    requires MayCommitJob(s, a)
    ensures OthersStay(s, Settled(s, a), a)
  {
  }

  lemma FailureConcernsItself(s: State, a: AgentId, error: string, now: int, delay: int)
    requires MayCommitFailure(s, a)
    ensures OthersStay(s, DoCommitFailure(s, a, error, now, delay), a)
  {
  }

  lemma ProcessConcernsItself(s: State, a: AgentId, step: BuildStep)
    requires MayProcess(s, a, step)
    ensures OthersStay(s, DoProcess(s, a, step), a) && DoProcess(s, a, step).locks == s.locks
  {
  }

  lemma DeleteConcernsItself(s: State, a: AgentId, step: DeleteStep)
    requires MayDelete(s, a, step)
    ensures OthersStay(s, DoDelete(s, a, step), a)
  {
  }

  lemma ReindexConcernsItself(s: State, a: AgentId, step: ReindexStep)
    requires MayReindex(s, a, step)
    ensures OthersStay(s, DoReindex(s, a, step), a)
  {
  }

  /** No step changes what another participant is doing or has locked. */
  lemma NobodyDisturbsOthers(s: State, step: Step, a: AgentId)
    requires Enabled(s, step)
    requires match step
             case Upload(_, _, _, _, _) => true
             case Crash(b) => b == a
             case Work(b, _) => b == a
             case Process(b, _) => b == a
             case Delete(b, _) => b == a
             case Reindex(b, _) => b == a
    ensures OthersStay(s, Apply(s, step), a)
  {
    match step
    case Upload(tenant, fileHash, document, job, now) =>
    case Crash(b) => CrashOutcome(s, a);
    case Work(b, work) => WorkConcernsItself(s, a, work);
    case Process(b, build) => ProcessConcernsItself(s, a, build);
    case Delete(b, delete) => DeleteConcernsItself(s, a, delete);
    case Reindex(b, reindex) => ReindexConcernsItself(s, a, reindex);
  }
}
