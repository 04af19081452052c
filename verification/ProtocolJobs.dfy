/** Jobs, documents and workers agree in every reachable state. */
module ProtocolJobs {
  import opened Wrappers
  import opened Identifiers
  import opened Jobs
  import opened Protocol
  import opened ProtocolSafety

  function StatusFor(status: JobStatus): DocumentStatus {
    match status
    case Queued => DocQueued
    case Processing => DocQueued
    case Finished => DocReady
    case Failed => DocFailed
  }

  /** The job a document was uploaded with. */
  predicate JobOf(s: State, d: DocumentId, j: JobId) {
    d in s.documents && d in s.jobFor && s.jobFor[d] == j
  }

  ghost predicate RowOk(s: State, j: JobId)
    requires j in s.jobs
  {
    && Sound(s.jobs[j])
    && s.jobs[j].maxAttempts == s.maxAttempts
    && JobOf(s, s.jobs[j].document, j)
    && s.jobs[j].tenant == s.documents[s.jobs[j].document].tenant
  }

  /** A live document carries the status of its job's row. */
  ghost predicate Agrees(s: State, d: DocumentId)
    requires d in s.documents
  {
    !s.documents[d].deleted ==>
      && d in s.jobFor
      && s.jobFor[d] in s.jobs
      && s.jobs[s.jobFor[d]].document == d
      && s.documents[d].status == StatusFor(s.jobs[s.jobFor[d]].status)
  }

  /** A worker's copy of a claimed job equals the row; the row is missing only
      because the document was deleted. */
  ghost predicate HeldOk(s: State, a: AgentId, h: Held) {
    && Sound(h.job) && h.job.status == Processing && h.job.claimedBy == Some(a)
    && h.job.maxAttempts == s.maxAttempts
    && JobOf(s, h.job.document, h.id)
    && h.job.tenant == s.documents[h.job.document].tenant
    && (h.id in s.jobs ==> s.jobs[h.id] == h.job)
    && (h.id !in s.jobs ==> s.documents[h.job.document].deleted)
  }

  ghost predicate WorkerOk(s: State, a: AgentId)
    requires IsWorker(s, a)
  {
    var batch := s.agents[a].batch;
    && (s.agents[a].task != Idle ==> batch != [])
    && (forall i :: 0 <= i < |batch| ==> HeldOk(s, a, batch[i]))
    && (forall i, k :: 0 <= i < k < |batch| ==> batch[i].id != batch[k].id)
    && (WillInsert(s.agents[a].task) ==> batch[0].id !in s.jobs)
  }

  predicate Holding(s: State, a: AgentId, j: JobId) {
    IsWorker(s, a) && exists i :: 0 <= i < |s.agents[a].batch| && s.agents[a].batch[i].id == j
  }

  /** No job is in the hands of two workers. */
  ghost predicate ClaimsDisjoint(s: State) {
    forall a, b, j :: Holding(s, a, j) && Holding(s, b, j) ==> a == b
  }

  ghost predicate JobInv(s: State) {
    && 1 <= s.maxAttempts
    && (forall d :: d in s.jobFor <==> d in s.documents)
    && (forall j :: j in s.jobs ==> RowOk(s, j))
    && (forall d :: d in s.documents ==> Agrees(s, d))
    && (forall a :: IsWorker(s, a) ==> WorkerOk(s, a))
    && ClaimsDisjoint(s)
  }

  // ---- frames ------------------------------------------------------------

  /** A worker whose batch shrank to a suffix holds nothing new. */
  lemma SuffixHolding(s: State, t: State, a: AgentId, k: nat)
    requires IsWorker(s, a) && IsWorker(t, a) && k <= |s.agents[a].batch|
    requires t.agents[a].batch == s.agents[a].batch[k..]
    ensures forall j :: Holding(t, a, j) ==> Holding(s, a, j)
  {
    forall j | Holding(t, a, j) ensures Holding(s, a, j) {
      var i :| 0 <= i < |t.agents[a].batch| && t.agents[a].batch[i].id == j;
      assert s.agents[a].batch[i + k].id == j;
    }
  }

  lemma DisjointKept(s: State, t: State, a: AgentId)
    requires ClaimsDisjoint(s)
    requires forall b :: b != a && IsWorker(t, b) ==> IsWorker(s, b) && t.agents[b] == s.agents[b]
    requires forall j :: Holding(t, a, j) ==> Holding(s, a, j)
    ensures ClaimsDisjoint(t)
  {
    forall b, j | Holding(t, b, j) ensures Holding(s, b, j) {
    }
  }

  /** A step that leaves rows and documents alone and gives no agent a new job. */
  lemma QuietKept(s: State, t: State, a: AgentId, k: nat)
    requires JobInv(s)
    requires t.maxAttempts == s.maxAttempts && t.documents == s.documents && t.jobs == s.jobs && t.jobFor == s.jobFor
    requires forall b :: b != a && IsWorker(t, b) ==> IsWorker(s, b) && t.agents[b] == s.agents[b]
    requires IsWorker(t, a) && t.agents[a].batch != [] ==>
               IsWorker(s, a) && k <= |s.agents[a].batch| && t.agents[a].batch == s.agents[a].batch[k..]
    requires IsWorker(t, a) ==> WorkerOk(t, a)
    ensures JobInv(t)
  {
    if IsWorker(t, a) && t.agents[a].batch != [] { SuffixHolding(s, t, a, k); }
    DisjointKept(s, t, a);
    forall b | IsWorker(t, b) ensures WorkerOk(t, b) {
      if b != a { assert WorkerOk(s, b); }
    }
    assert forall d :: d in t.documents ==> Agrees(s, d) && Agrees(t, d);
    assert forall j :: j in t.jobs ==> RowOk(s, j) && RowOk(t, j);
  }

  /** A worker's other claims, and every other worker, are untouched when the row
      of the job at the head of its batch changes. */
  lemma OthersKeepJobs(s: State, t: State, a: AgentId)
    requires JobInv(s) && Busy(s, a)
    requires t.maxAttempts == s.maxAttempts && t.jobFor == s.jobFor
    requires t.agents == s.agents[a := Worker(s.agents[a].batch[1..], Idle)]
    requires forall j :: j != Head(s, a).id ==> (j in t.jobs <==> j in s.jobs)
    requires forall j :: j != Head(s, a).id && j in s.jobs ==> t.jobs[j] == s.jobs[j]
    requires forall d :: d in s.documents <==> d in t.documents
    requires forall d :: d in s.documents ==>
               t.documents[d].deleted == s.documents[d].deleted && t.documents[d].tenant == s.documents[d].tenant
    ensures forall b :: IsWorker(t, b) ==> WorkerOk(t, b)
    ensures ClaimsDisjoint(t)
  {
    SuffixHolding(s, t, a, 1);
    DisjointKept(s, t, a);
    var id := Head(s, a).id;
    assert Holding(s, a, id);
    forall b | IsWorker(t, b) ensures WorkerOk(t, b) {
      assert WorkerOk(s, b) && WorkerOk(s, a);
      if b != a {
        forall i | 0 <= i < |t.agents[b].batch| ensures HeldOk(t, b, t.agents[b].batch[i]) {
          assert Holding(s, b, s.agents[b].batch[i].id);
          assert HeldOk(s, b, s.agents[b].batch[i]);
        }
        if WillInsert(t.agents[b].task) { assert Holding(s, b, s.agents[b].batch[0].id); }
      } else {
        forall i | 0 <= i < |t.agents[a].batch| ensures HeldOk(t, a, t.agents[a].batch[i]) {
          assert t.agents[a].batch[i] == s.agents[a].batch[i + 1];
          assert HeldOk(s, a, s.agents[a].batch[i + 1]);
        }
      }
    }
  }

  /** A commit that settles the job at the head of a batch, and its document's status. */
  lemma SettleKept(s: State, t: State, a: AgentId)
    requires JobInv(s) && Busy(s, a)
    requires t.maxAttempts == s.maxAttempts && t.jobFor == s.jobFor
    requires t.agents == s.agents[a := Worker(s.agents[a].batch[1..], Idle)]
    requires forall j :: j != Head(s, a).id ==> (j in t.jobs <==> j in s.jobs)
    requires forall j :: j != Head(s, a).id && j in s.jobs ==> t.jobs[j] == s.jobs[j]
    requires t.documents == s.documents ||
             (HeadDocument(s, a) in s.documents
              && exists status ::
                   t.documents == s.documents[HeadDocument(s, a) := s.documents[HeadDocument(s, a)].(status := status)])
    requires Head(s, a).id in t.jobs ==> RowOk(t, Head(s, a).id)
    requires HeadDocument(s, a) in t.documents ==> Agrees(t, HeadDocument(s, a))
    ensures JobInv(t)
  {
    OthersKeepJobs(s, t, a);
    var id, d := Head(s, a).id, HeadDocument(s, a);
    assert WorkerOk(s, a) && HeldOk(s, a, Head(s, a));
    forall j | j in t.jobs ensures RowOk(t, j) {
      if j != id { assert RowOk(s, j); }
    }
    forall x | x in t.documents ensures Agrees(t, x) {
      if x != d && !s.documents[x].deleted { assert Agrees(s, x); }
    }
  }

  /** Before the commit the worker either still has its row, or puts it back. */
  lemma MergedRow(s: State, a: AgentId)
    requires JobInv(s) && Busy(s, a)
    ensures var h := Head(s, a);
            && HeldOk(s, a, h)
            && (h.id in Merged(s.jobs, h, WillInsert(s.agents[a].task)) ==>
                  Merged(s.jobs, h, WillInsert(s.agents[a].task))[h.id] == h.job)
            && (h.job.document in s.documents && !s.documents[h.job.document].deleted ==>
                  h.id in s.jobs && !WillInsert(s.agents[a].task))
  {
    assert WorkerOk(s, a) && HeldOk(s, a, s.agents[a].batch[0]);
  }

  /** Settling finishes the worker's own row, if the row is there or put back. */
  lemma SettledRow(s: State, a: AgentId)
    requires JobInv(s) && Busy(s, a)
    ensures var t, h := Settled(s, a), Head(s, a);
            && (forall j :: j != h.id ==> (j in t.jobs <==> j in s.jobs))
            && (forall j :: j != h.id && j in s.jobs ==> t.jobs[j] == s.jobs[j])
            && (h.id in t.jobs ==> t.jobs[h.id] == Completed(h.job))
            && (h.id in s.jobs ==> h.id in t.jobs)
            && Sound(Completed(h.job)) && Rank(Completed(h.job)) < Rank(h.job)
  {
    MergedRow(s, a);
    TransitionsSpendRank(Head(s, a).job, a, "", 0, 0);
  }

  /** The job of a document that was skipped: its document is deleted. */
  lemma SkippedKeepsJobs(s: State, a: AgentId)
    requires IndexInv(s) && JobInv(s) && Busy(s, a) && s.agents[a].task.Skipping?
    ensures JobInv(Settled(s, a))
  {
    MergedRow(s, a);
    SettledRow(s, a);
    assert AgentOk(s, a);
    SettleKept(s, Settled(s, a), a);
  }

  lemma BuiltKeepsJobs(s: State, a: AgentId)
    requires IndexInv(s) && JobInv(s) && MayCommitJob(s, a) && !s.agents[a].task.Skipping?
    ensures JobInv(DoCommitJob(s, a))
  {
    MergedRow(s, a);
    SettledRow(s, a);
    assert AgentOk(s, a);
    SettleKept(s, DoCommitJob(s, a), a);
  }

  lemma CommitJobKeepsJobs(s: State, a: AgentId)
    requires IndexInv(s) && JobInv(s) && MayCommitJob(s, a)
    ensures JobInv(DoCommitJob(s, a))
  {
    if s.agents[a].task.Skipping? { SkippedKeepsJobs(s, a); } else { BuiltKeepsJobs(s, a); }
  }

  lemma CommitFailureKeepsJobs(s: State, a: AgentId, error: string, now: int, delay: int)
    requires JobInv(s) && MayCommitFailure(s, a)
    ensures JobInv(DoCommitFailure(s, a, error, now, delay))
  {
    MergedRow(s, a);
    var h := Head(s, a);
    TransitionsSpendRank(h.job, a, error, now, delay);
    SettleKept(s, DoCommitFailure(s, a, error, now, delay), a);
  }

  lemma CommitDeleteKeepsJobs(s: State, a: AgentId)
    requires JobInv(s) && MayCommitDelete(s, a)
    ensures JobInv(DoCommitDelete(s, a))
  {
    var t := DoCommitDelete(s, a);
    var d := s.agents[a].document;
    DisjointKept(s, t, a);
    forall b | IsWorker(t, b) ensures WorkerOk(t, b) {
      assert WorkerOk(s, b);
      forall i | 0 <= i < |t.agents[b].batch| ensures HeldOk(t, b, t.agents[b].batch[i]) {
        assert HeldOk(s, b, s.agents[b].batch[i]);
      }
    }
    assert forall j :: j in t.jobs ==> RowOk(s, j) && RowOk(t, j);
    assert forall x :: x in t.documents && x != d ==> Agrees(s, x) && Agrees(t, x);
  }

  /** A row for a job id nobody has seen disturbs no worker. */
  lemma NewRowKeepsWorker(s: State, t: State, job: JobId, b: AgentId)
    requires JobInv(s) && IsWorker(s, b)
    requires t.maxAttempts == s.maxAttempts && t.agents == s.agents
    requires forall d :: d in s.jobFor ==> s.jobFor[d] != job && d in t.jobFor && t.jobFor[d] == s.jobFor[d]
    requires forall d :: d in s.documents ==> d in t.documents && t.documents[d] == s.documents[d]
    requires forall j :: j != job ==> (j in t.jobs <==> j in s.jobs)
    requires forall j :: j != job && j in s.jobs ==> t.jobs[j] == s.jobs[j]
    ensures WorkerOk(t, b)
  {
    assert WorkerOk(s, b);
    forall i | 0 <= i < |t.agents[b].batch| ensures HeldOk(t, b, t.agents[b].batch[i]) {
      assert HeldOk(s, b, s.agents[b].batch[i]);
    }
    if WillInsert(t.agents[b].task) { assert HeldOk(s, b, s.agents[b].batch[0]); }
  }

  lemma UploadKeepsJobs(s: State, tenant: TenantId, fileHash: string, document: DocumentId, job: JobId, now: int)
    requires JobInv(s) && MayUpload(s, document, job)
    ensures JobInv(DoUpload(s, tenant, fileHash, document, job, now))
  {
    var t := DoUpload(s, tenant, fileHash, document, job, now);
    if t != s {
      forall b | IsWorker(t, b) ensures WorkerOk(t, b) { NewRowKeepsWorker(s, t, job, b); }
      forall j | j in s.jobs ensures j != job && RowOk(t, j) { assert RowOk(s, j); }
      forall x | x in s.documents ensures Agrees(t, x) { assert Agrees(s, x); }
      assert RowOk(t, job) && Agrees(t, document);
      assert t.agents == s.agents;
      DisjointKept(s, t, 0);
    }
  }

  lemma HeldRowsAreProcessing(s: State, b: AgentId, j: JobId)
    requires JobInv(s) && Holding(s, b, j) && j in s.jobs
    ensures s.jobs[j].status == Processing && s.jobs[j].claimedBy == Some(b)
  {
    var i :| 0 <= i < |s.agents[b].batch| && s.agents[b].batch[i].id == j;
    assert WorkerOk(s, b) && HeldOk(s, b, s.agents[b].batch[i]);
  }

  /** A claim hands out only jobs that no worker remembers. */
  lemma ClaimedJobsAreFree(s: State, a: AgentId, limit: nat, now: int, rowLocks: set<JobId>)
    requires JobInv(s) && MayClaim(s, a, limit)
    ensures forall b, j :: b != a && Holding(s, b, j) ==> j !in Selected(s.jobs, now, rowLocks, limit)
    ensures var t := DoClaim(s, a, limit, now, rowLocks);
            forall b, j :: Holding(t, b, j) ==> (b == a <==> j in Selected(s.jobs, now, rowLocks, limit))
  {
    var ids := Selected(s.jobs, now, rowLocks, limit);
    forall b, j | b != a && Holding(s, b, j) ensures j !in ids {
      if j in ids { HeldRowsAreProcessing(s, b, j); }
    }
    var t := DoClaim(s, a, limit, now, rowLocks);
    forall j | Holding(t, a, j) ensures j in ids {
      var i :| 0 <= i < |t.agents[a].batch| && t.agents[a].batch[i].id == j;
      assert ids[i] in ids;
    }
    forall b, j | b != a && Holding(t, b, j) ensures Holding(s, b, j) {}
  }

  lemma ClaimKeepsRows(s: State, a: AgentId, limit: nat, now: int, rowLocks: set<JobId>)
    requires JobInv(s) && MayClaim(s, a, limit)
    ensures var t := DoClaim(s, a, limit, now, rowLocks);
            (forall j :: j in t.jobs ==> RowOk(t, j)) && (forall d :: d in t.documents ==> Agrees(t, d))
  {
    var t := DoClaim(s, a, limit, now, rowLocks);
    forall j | j in s.jobs ensures RowOk(t, j) {
      assert RowOk(s, j);
      TransitionsSpendRank(s.jobs[j], a, "", now, 0);
    }
    forall d | d in t.documents ensures Agrees(t, d) { assert Agrees(s, d); }
  }

  lemma ClaimKeepsWorker(s: State, a: AgentId, limit: nat, now: int, rowLocks: set<JobId>, b: AgentId)
    requires JobInv(s) && MayClaim(s, a, limit) && IsWorker(s, b)
    ensures WorkerOk(DoClaim(s, a, limit, now, rowLocks), b)
  {
    if b != a {
      ClaimKeepsOtherWorker(s, a, limit, now, rowLocks, b);
    } else {
      var t := DoClaim(s, a, limit, now, rowLocks);
      var ids := Selected(s.jobs, now, rowLocks, limit);
      ClaimedJobsAreFree(s, a, limit, now, rowLocks);
      ClaimKeepsRows(s, a, limit, now, rowLocks);
      forall i | 0 <= i < |ids| ensures HeldOk(t, a, t.agents[a].batch[i]) {
        assert ids[i] in ids && RowOk(t, ids[i]);
      }
    }
  }

  lemma ClaimKeepsOtherWorker(s: State, a: AgentId, limit: nat, now: int, rowLocks: set<JobId>, b: AgentId)
    requires JobInv(s) && MayClaim(s, a, limit) && IsWorker(s, b) && b != a
    ensures WorkerOk(DoClaim(s, a, limit, now, rowLocks), b)
  {
    var t := DoClaim(s, a, limit, now, rowLocks);
    ClaimedJobsAreFree(s, a, limit, now, rowLocks);
    assert WorkerOk(s, b);
    forall i | 0 <= i < |t.agents[b].batch| ensures HeldOk(t, b, t.agents[b].batch[i]) {
      assert HeldOk(s, b, s.agents[b].batch[i]);
      assert Holding(s, b, s.agents[b].batch[i].id);
    }
  }

  lemma ClaimKeepsJobs(s: State, a: AgentId, limit: nat, now: int, rowLocks: set<JobId>)
    requires JobInv(s) && MayClaim(s, a, limit)
    ensures JobInv(DoClaim(s, a, limit, now, rowLocks))
  {
    var t := DoClaim(s, a, limit, now, rowLocks);
    ClaimedJobsAreFree(s, a, limit, now, rowLocks);
    ClaimKeepsRows(s, a, limit, now, rowLocks);
    forall b | IsWorker(t, b) ensures WorkerOk(t, b) { ClaimKeepsWorker(s, a, limit, now, rowLocks, b); }
    forall b, j | b != a && Holding(t, b, j) ensures Holding(s, b, j) {}
  }

  /** A worker that keeps its batch while it moves along, or drops it in a crash. */
  lemma BatchKept(s: State, t: State, a: AgentId)
    requires JobInv(s) && IsWorker(s, a) && IsWorker(t, a)
    requires t == s.(agents := s.agents[a := t.agents[a]], locks := t.locks, points := t.points,
                     vectors := t.vectors, minted := t.minted)
    requires t.agents[a].batch == s.agents[a].batch || t.agents[a] == Worker([], Idle)
    requires t.agents[a].task != Idle ==> t.agents[a].batch != []
    requires WillInsert(t.agents[a].task) ==>
               WillInsert(s.agents[a].task) || t.agents[a].batch[0].id !in s.jobs
    ensures JobInv(t)
  {
    assert WorkerOk(s, a);
    forall i | 0 <= i < |t.agents[a].batch| ensures HeldOk(t, a, t.agents[a].batch[i]) {
      assert HeldOk(s, a, s.agents[a].batch[i]);
    }
    QuietKept(s, t, a, 0);
  }

  /** An agent that is not a worker has no say over jobs. */
  lemma NonWorkerKept(s: State, t: State, a: AgentId)
    requires JobInv(s) && !IsWorker(t, a)
    requires t == s.(agents := t.agents, locks := t.locks, points := t.points, vectors := t.vectors, minted := t.minted)
    requires t.agents == (if a in t.agents then s.agents[a := t.agents[a]] else s.agents - {a})
    ensures JobInv(t)
  {
    QuietKept(s, t, a, 0);
  }

  lemma WorkKeepsJobs(s: State, a: AgentId, step: WorkerStep)
    requires IndexInv(s) && JobInv(s) && MayWork(s, a, step)
    ensures JobInv(DoWork(s, a, step))
  {
    match step
    case StartWorker => QuietKept(s, DoWork(s, a, step), a, 0);
    case Claim(limit, now, rowLocks) => ClaimKeepsJobs(s, a, limit, now, rowLocks);
    case CommitJob => CommitJobKeepsJobs(s, a);
    case CommitFailure(error, now, delay) => CommitFailureKeepsJobs(s, a, error, now, delay);
    case _ => BatchKept(s, DoWork(s, a, step), a);
  }

  lemma ProcessKeepsJobs(s: State, a: AgentId, step: BuildStep)
    requires JobInv(s) && MayProcess(s, a, step)
    ensures JobInv(DoProcess(s, a, step))
  {
    BatchKept(s, DoProcess(s, a, step), a);
  }

  lemma DeleteKeepsJobs(s: State, a: AgentId, step: DeleteStep)
    requires JobInv(s) && MayDelete(s, a, step)
    ensures JobInv(DoDelete(s, a, step))
  {
    if step.CommitDelete? { CommitDeleteKeepsJobs(s, a); } else { NonWorkerKept(s, DoDelete(s, a, step), a); }
  }

  lemma ReindexKeepsJobs(s: State, a: AgentId, step: ReindexStep)
    requires JobInv(s) && MayReindex(s, a, step)
    ensures JobInv(DoReindex(s, a, step))
  {
    NonWorkerKept(s, DoReindex(s, a, step), a);
  }

  lemma CrashKeepsJobs(s: State, a: AgentId)
    requires JobInv(s) && a in s.agents
    ensures JobInv(DoCrash(s, a))
  {
    if s.agents[a].Worker? { BatchKept(s, DoCrash(s, a), a); } else { NonWorkerKept(s, DoCrash(s, a), a); }
  }

  ghost predicate Inv(s: State) {
    IndexInv(s) && JobInv(s)
  }

  lemma InvKept(s: State, step: Step)
    requires Inv(s) && Enabled(s, step)
    ensures Inv(Apply(s, step))
  {
    IndexInvKept(s, step);
    match step
    case Upload(tenant, fileHash, document, job, now) => UploadKeepsJobs(s, tenant, fileHash, document, job, now);
    case Crash(a) => CrashKeepsJobs(s, a);
    case Work(a, work) => WorkKeepsJobs(s, a, work);
    case Process(a, build) => ProcessKeepsJobs(s, a, build);
    case Delete(a, delete) => DeleteKeepsJobs(s, a, delete);
    case Reindex(a, reindex) => ReindexKeepsJobs(s, a, reindex);
  }

  lemma {:induction false} InvOverRuns(s: State, steps: seq<Step>)
    requires Initial(s) && CanRun(s, steps)
    ensures Inv(Run(s, steps))
    decreases |steps|
  {
    if steps != [] {
      InvOverRuns(s, steps[..|steps| - 1]);
      InvKept(Run(s, steps[..|steps| - 1]), steps[|steps| - 1]);
    }
  }

  // ---- whole runs --------------------------------------------------------

  /** In every reachable state a live document has exactly one job row; it reads
      queued while that job is queued or processing, ready when the job finished and
      failed when the job used up its attempts; `processing` is never committed. */
  lemma LiveDocumentsAgreeWithTheirJob(s: State, steps: seq<Step>, d: DocumentId)
    requires Initial(s) && CanRun(s, steps)
    requires d in Run(s, steps).documents && !Run(s, steps).documents[d].deleted
    ensures var end := Run(s, steps);
            exists j :: j in end.jobs && end.jobs[j].document == d
                        && (forall k :: k in end.jobs && end.jobs[k].document == d ==> k == j)
                        && (end.documents[d].status == DocQueued <==> Live(end.jobs[j]))
                        && (end.documents[d].status == DocReady <==> end.jobs[j].status == Finished)
                        && (end.documents[d].status == DocFailed <==>
                              end.jobs[j].status == Failed && end.jobs[j].attempts == end.jobs[j].maxAttempts)
                        && end.documents[d].status != DocProcessing
  {
    InvOverRuns(s, steps);
    var end := Run(s, steps);
    assert Agrees(end, d);
    var j := end.jobFor[d];
    assert RowOk(end, j);
    forall k | k in end.jobs && end.jobs[k].document == d ensures k == j { assert RowOk(end, k); }
  }

  /** In every reachable state each job row is sound, no document has two live jobs,
      and no job is in the hands of two workers. */
  lemma QueueInvariant(s: State, steps: seq<Step>)
    requires Initial(s) && CanRun(s, steps)
    ensures var end := Run(s, steps);
            && (forall j :: j in end.jobs ==> Sound(end.jobs[j]))
            && OneLiveJobPerDocument(end.jobs)
            && ClaimsDisjoint(end)
  {
    InvOverRuns(s, steps);
    var end := Run(s, steps);
    forall j | j in end.jobs ensures Sound(end.jobs[j]) { assert RowOk(end, j); }
    forall a, b | a in end.jobs && b in end.jobs && Live(end.jobs[a]) && Live(end.jobs[b])
                  && end.jobs[a].document == end.jobs[b].document
      ensures a == b
    {
      assert RowOk(end, a) && RowOk(end, b);
    }
  }

  /** The merge of a worker's copy never overwrites a row with something else, and
      re-inserts a row only for a document whose deletion has committed. */
  lemma MergeOnlyRestoresDeletedRows(s: State, steps: seq<Step>, a: AgentId)
    requires Initial(s) && CanRun(s, steps)
    requires Busy(Run(s, steps), a)
    ensures var end := Run(s, steps);
            var h := Head(end, a);
            && (h.id in end.jobs ==> end.jobs[h.id] == h.job)
            && (WillInsert(end.agents[a].task) ==>
                  h.id !in end.jobs && h.job.document in end.documents && end.documents[h.job.document].deleted)
  {
    InvOverRuns(s, steps);
    assert WorkerOk(Run(s, steps), a) && HeldOk(Run(s, steps), a, Head(Run(s, steps), a));
  }
}
