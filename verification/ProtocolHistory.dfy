/** What whole runs of the protocol bound, and what a search may rely on. */
module ProtocolHistory {
  import opened Identifiers
  import opened Jobs
  import opened Protocol
  import opened ProtocolJobs

  // ---- each job makes a bounded number of transitions ---------------------

  /** The step claims, finishes or fails job `j`. */
  predicate Touches(s: State, step: Step, j: JobId)
    requires Enabled(s, step)
  {
    match step
    case Work(a, Claim(limit, now, rowLocks)) => j in Selected(s.jobs, now, rowLocks, limit)
    case Work(a, CommitJob) => Head(s, a).id == j
    case Work(a, CommitFailure(error, now, delay)) => Head(s, a).id == j
    case _ => false
  }

  ghost function Effort(s: State, steps: seq<Step>, j: JobId): nat
    requires CanRun(s, steps)
  {
    if steps == [] then 0
    else
      var init := steps[..|steps| - 1];
      Effort(s, init, j) + if Touches(Run(s, init), steps[|steps| - 1], j) then 1 else 0
  }

  predicate Affords(job: Job, n: nat, budget: nat) {
    job.attempts <= job.maxAttempts && n + Rank(job) <= budget
  }

  /** `n` transitions so far leave the row, and every remembered copy, within the budget. */
  ghost predicate WithinBudget(s: State, j: JobId, n: nat) {
    && n <= 2 * s.maxAttempts
    && (j in s.jobs ==> Affords(s.jobs[j], n, 2 * s.maxAttempts))
    && (forall a, i :: IsWorker(s, a) && 0 <= i < |s.agents[a].batch| && s.agents[a].batch[i].id == j ==>
                         Affords(s.agents[a].batch[i].job, n, 2 * s.maxAttempts))
    && ((forall d :: d in s.jobFor ==> s.jobFor[d] != j) ==> n == 0)
  }

  /** Rows stay and no batch gains a job. */
  ghost predicate Quiet(s: State, t: State) {
    && t.jobs == s.jobs && t.jobFor == s.jobFor && t.maxAttempts == s.maxAttempts
    && t.documents == s.documents && t.chunks == s.chunks
    && forall b :: IsWorker(t, b) && t.agents[b].batch != [] ==>
                     IsWorker(s, b) && t.agents[b].batch == s.agents[b].batch
  }

  lemma Remembers(s: State, b: AgentId, i: nat)
    requires IsWorker(s, b) && i < |s.agents[b].batch|
    ensures Holding(s, b, s.agents[b].batch[i].id)
  {
  }

  lemma ClaimSpends(s: State, a: AgentId, limit: nat, now: int, rowLocks: set<JobId>, j: JobId, n: nat)
    requires JobInv(s) && MayClaim(s, a, limit) && WithinBudget(s, j, n)
    ensures WithinBudget(DoClaim(s, a, limit, now, rowLocks), j,
                         n + if j in Selected(s.jobs, now, rowLocks, limit) then 1 else 0)
  {
    var ids := Selected(s.jobs, now, rowLocks, limit);
    var t := DoClaim(s, a, limit, now, rowLocks);
    ClaimedJobsAreFree(s, a, limit, now, rowLocks);
    if j in ids {
      assert RowOk(s, j);
      TransitionsSpendRank(s.jobs[j], a, "", now, 0);
    }
    forall b, i | IsWorker(t, b) && 0 <= i < |t.agents[b].batch| && t.agents[b].batch[i].id == j
      ensures if j in ids then t.agents[b].batch[i].job == t.jobs[j] else b != a
    {
      Remembers(t, b, i);
    }
  }

  /** A commit by the holder of `j` ends its claim, so no other copy is left. */
  lemma SettleSpends(s: State, t: State, a: AgentId, j: JobId, n: nat)
    requires JobInv(s) && Busy(s, a) && WithinBudget(s, j, n)
    requires t.maxAttempts == s.maxAttempts && t.jobFor == s.jobFor
    requires t.agents == s.agents[a := Worker(s.agents[a].batch[1..], Idle)]
    requires j != Head(s, a).id ==> (j in t.jobs <==> j in s.jobs) && (j in s.jobs ==> t.jobs[j] == s.jobs[j])
    requires j == Head(s, a).id && j in t.jobs ==>
               t.jobs[j].attempts <= t.jobs[j].maxAttempts && Rank(t.jobs[j]) < Rank(Head(s, a).job)
    ensures WithinBudget(t, j, n + if j == Head(s, a).id then 1 else 0)
  {
    assert WorkerOk(s, a) && HeldOk(s, a, s.agents[a].batch[0]);
    forall b, i | IsWorker(t, b) && 0 <= i < |t.agents[b].batch| && t.agents[b].batch[i].id == j
      ensures j != Head(s, a).id && Affords(t.agents[b].batch[i].job, n, 2 * s.maxAttempts)
    {
      if b == a {
        assert t.agents[b].batch[i] == s.agents[a].batch[i + 1];
      } else {
        Remembers(s, b, i);
        Remembers(s, a, 0);
      }
    }
  }

  lemma CommitJobSpends(s: State, a: AgentId, j: JobId, n: nat)
    requires JobInv(s) && MayCommitJob(s, a) && WithinBudget(s, j, n)
    ensures WithinBudget(DoCommitJob(s, a), j, n + if j == Head(s, a).id then 1 else 0)
  {
    CommitJobSettles(s, a);
    SettledSpends(s, a, j, n);
    SameBudget(Settled(s, a), DoCommitJob(s, a), j, n + if j == Head(s, a).id then 1 else 0);
  }

  lemma SettledSpends(s: State, a: AgentId, j: JobId, n: nat)
    requires JobInv(s) && Busy(s, a) && WithinBudget(s, j, n)
    ensures WithinBudget(Settled(s, a), j, n + if j == Head(s, a).id then 1 else 0)
  {
    SettledRow(s, a);
    SettleSpends(s, Settled(s, a), a, j, n);
  }

  /** The budget looks at the job rows and at what workers remember, nothing else. */
  lemma SameBudget(s: State, t: State, j: JobId, n: nat)
    requires WithinBudget(s, j, n)
    requires t.jobs == s.jobs && t.agents == s.agents && t.jobFor == s.jobFor && t.maxAttempts == s.maxAttempts
    ensures WithinBudget(t, j, n)
  {
  }

  /** Whatever else a commit publishes, it settles the job. */
  lemma CommitJobSettles(s: State, a: AgentId)
    requires MayCommitJob(s, a)
    ensures var t, u := DoCommitJob(s, a), Settled(s, a);
            t.jobs == u.jobs && t.agents == u.agents && t.jobFor == u.jobFor && t.maxAttempts == u.maxAttempts
  {
  }

  lemma CommitFailureSpends(s: State, a: AgentId, error: string, now: int, delay: int, j: JobId, n: nat)
    requires JobInv(s) && MayCommitFailure(s, a) && WithinBudget(s, j, n)
    ensures WithinBudget(DoCommitFailure(s, a, error, now, delay), j, n + if j == Head(s, a).id then 1 else 0)
  {
    MergedRow(s, a);
    TransitionsSpendRank(Head(s, a).job, a, error, now, delay);
    SettleSpends(s, DoCommitFailure(s, a, error, now, delay), a, j, n);
  }

  lemma UploadSpends(s: State, tenant: TenantId, fileHash: string, document: DocumentId, job: JobId, now: int,
      j: JobId, n: nat)
    requires JobInv(s) && MayUpload(s, document, job) && WithinBudget(s, j, n)
    ensures WithinBudget(DoUpload(s, tenant, fileHash, document, job, now), j, n)
  {
    var t := DoUpload(s, tenant, fileHash, document, job, now);
    assert t.agents == s.agents;
    assert forall d :: d in s.jobFor ==> d in t.jobFor && t.jobFor[d] == s.jobFor[d];
    if j == job { assert n == 0; }
  }

  lemma DeleteSpends(s: State, a: AgentId, j: JobId, n: nat)
    requires MayCommitDelete(s, a) && WithinBudget(s, j, n)
    ensures WithinBudget(DoCommitDelete(s, a), j, n)
  {
    assert forall b :: IsWorker(DoCommitDelete(s, a), b) ==> IsWorker(s, b) && b != a;
  }

  lemma QuietSpends(s: State, t: State, j: JobId, n: nat)
    requires Quiet(s, t) && WithinBudget(s, j, n)
    ensures WithinBudget(t, j, n)
  {
  }

  lemma WorkUntouched(s: State, a: AgentId, step: WorkerStep, j: JobId, n: nat)
    requires MayWork(s, a, step) && !step.Claim? && !step.CommitJob? && !step.CommitFailure? && WithinBudget(s, j, n)
    ensures WithinBudget(DoWork(s, a, step), j, n)
  {
    QuietSpends(s, DoWork(s, a, step), j, n);
  }

  lemma ProcessUntouched(s: State, a: AgentId, step: BuildStep, j: JobId, n: nat)
    requires MayProcess(s, a, step) && WithinBudget(s, j, n)
    ensures WithinBudget(DoProcess(s, a, step), j, n)
  {
    QuietSpends(s, DoProcess(s, a, step), j, n);
  }

  lemma DeleteUntouched(s: State, a: AgentId, step: DeleteStep, j: JobId, n: nat)
    requires MayDelete(s, a, step) && WithinBudget(s, j, n)
    ensures WithinBudget(DoDelete(s, a, step), j, n)
  {
    if step.CommitDelete? {
      DeleteSpends(s, a, j, n);
    } else {
      QuietSpends(s, DoDelete(s, a, step), j, n);
    }
  }

  lemma ReindexUntouched(s: State, a: AgentId, step: ReindexStep, j: JobId, n: nat)
    requires MayReindex(s, a, step) && WithinBudget(s, j, n)
    ensures WithinBudget(DoReindex(s, a, step), j, n)
  {
    QuietSpends(s, DoReindex(s, a, step), j, n);
  }

  lemma CrashUntouched(s: State, a: AgentId, j: JobId, n: nat)
    requires a in s.agents && WithinBudget(s, j, n)
    ensures WithinBudget(DoCrash(s, a), j, n)
  {
    QuietSpends(s, DoCrash(s, a), j, n);
  }

  /** The step counts against the budget of the job it touches. */
  ghost predicate Charged(s: State, step: Step, j: JobId, n: nat)
    requires Enabled(s, step)
  {
    WithinBudget(Apply(s, step), j, n + if Touches(s, step, j) then 1 else 0)
  }

  /** Steps that touch no job keep the budget as it is. */
  lemma UntouchedKept(s: State, step: Step, j: JobId, n: nat)
    requires Enabled(s, step) && WithinBudget(s, j, n)
    requires !step.Upload? && (step.Work? ==> !step.work.Claim? && !step.work.CommitJob? && !step.work.CommitFailure?)
    ensures WithinBudget(Apply(s, step), j, n)
  {
    match step
    case Crash(a) => CrashUntouched(s, a, j, n);
    case Work(a, work) => WorkUntouched(s, a, work, j, n);
    case Process(a, build) => ProcessUntouched(s, a, build, j, n);
    case Delete(a, delete) => DeleteUntouched(s, a, delete, j, n);
    case Reindex(a, reindex) => ReindexUntouched(s, a, reindex, j, n);
  }

  lemma ClaimCharged(s: State, step: Step, j: JobId, n: nat)
    requires JobInv(s) && Enabled(s, step) && step.Work? && step.work.Claim? && WithinBudget(s, j, n)
    ensures Charged(s, step, j, n)
  {
    ClaimSpends(s, step.agent, step.work.limit, step.work.now, step.work.rowLocks, j, n);
  }

  lemma CommitJobCharged(s: State, step: Step, j: JobId, n: nat)
    requires JobInv(s) && Enabled(s, step) && step.Work? && step.work.CommitJob? && WithinBudget(s, j, n)
    ensures Charged(s, step, j, n)
  {
    CommitJobSpends(s, step.agent, j, n);
  }

  lemma CommitFailureCharged(s: State, step: Step, j: JobId, n: nat)
    requires JobInv(s) && Enabled(s, step) && step.Work? && step.work.CommitFailure? && WithinBudget(s, j, n)
    ensures Charged(s, step, j, n)
  {
    CommitFailureSpends(s, step.agent, step.work.error, step.work.now, step.work.delay, j, n);
  }

  lemma UploadCharged(s: State, step: Step, j: JobId, n: nat)
    requires JobInv(s) && Enabled(s, step) && step.Upload? && WithinBudget(s, j, n)
    ensures Charged(s, step, j, n)
  {
    UploadSpends(s, step.tenant, step.fileHash, step.document, step.job, step.now, j, n);
  }

  lemma StepCharged(s: State, step: Step, j: JobId, n: nat)
    requires JobInv(s) && Enabled(s, step) && WithinBudget(s, j, n)
    ensures Charged(s, step, j, n)
  {
    if step.Upload? {
      UploadCharged(s, step, j, n);
    } else if step.Work? && step.work.Claim? {
      ClaimCharged(s, step, j, n);
    } else if step.Work? && step.work.CommitJob? {
      CommitJobCharged(s, step, j, n);
    } else if step.Work? && step.work.CommitFailure? {
      CommitFailureCharged(s, step, j, n);
    } else {
      UntouchedKept(s, step, j, n);
    }
  }

  lemma {:induction false} EffortWithinBudget(s: State, steps: seq<Step>, j: JobId)
    requires Initial(s) && CanRun(s, steps)
    ensures WithinBudget(Run(s, steps), j, Effort(s, steps, j))
    decreases |steps|
  {
    if steps != [] {
      var init := steps[..|steps| - 1];
      EffortWithinBudget(s, init, j);
      InvOverRuns(s, init);
      StepCharged(Run(s, init), steps[|steps| - 1], j, Effort(s, init, j));
    }
  }

  /** No run, however many crashes, deletions and re-inserted rows it has, claims,
      finishes or fails one job more than 2 * maxAttempts times. */
  lemma RetriesAreBounded(s: State, steps: seq<Step>, j: JobId)
    requires Initial(s) && CanRun(s, steps)
    ensures Effort(s, steps, j) <= 2 * s.maxAttempts
  {
    EffortWithinBudget(s, steps, j);
    ConstantBudget(s, steps);
  }

  lemma {:induction false} ConstantBudget(s: State, steps: seq<Step>)
    requires CanRun(s, steps)
    ensures Run(s, steps).maxAttempts == s.maxAttempts
    decreases |steps|
  {
    if steps != [] {
      ConstantBudget(s, steps[..|steps| - 1]);
    }
  }
}
