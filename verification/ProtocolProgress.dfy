/** What each participant can do next: nobody waits for anything but a lock. */
module ProtocolProgress {
  import opened Wrappers
  import opened Identifiers
  import opened Protocol
  import opened ProtocolSafety
  import opened ProtocolJobs

  /** Now the worker's open transaction is this, and its jobs are as before. */
  ghost predicate InTask(s: State, t: State, a: AgentId, task: Task) {
    IsWorker(s, a) && IsWorker(t, a) && t.agents[a].batch == s.agents[a].batch && t.agents[a].task == task
  }

  /** The worker can take this step, and then its open transaction is this. */
  ghost predicate Works(s: State, a: AgentId, step: WorkerStep, task: Task) {
    MayWork(s, a, step) && InTask(s, DoWork(s, a, step), a, task)
  }

  ghost predicate Builds(s: State, a: AgentId, step: BuildStep, build: Build) {
    MayProcess(s, a, step) && InTask(s, DoProcess(s, a, step), a, Building(build))
  }

  /** A job to work on: the transaction opens, and remembers whether the job's row is gone. */
  lemma JobsAreOpened(s: State, a: AgentId)
    requires Busy(s, a) && s.agents[a].task == Idle
    ensures Works(s, a, OpenJob, Opened(Head(s, a).id !in s.jobs))
  {
    assert InTask(s, DoOpenJob(s, a), a, Opened(Head(s, a).id !in s.jobs));
  }

  /** The same for the report of a failure, which can then be committed. */
  lemma FailuresAreOpened(s: State, a: AgentId, error: string, now: int, delay: int)
    requires Busy(s, a)
    ensures s.agents[a].task == MustReport ==> Works(s, a, OpenFailure, Reporting(Head(s, a).id !in s.jobs))
    ensures s.agents[a].task.Reporting? ==> MayWork(s, a, CommitFailure(error, now, delay))
  {
    if s.agents[a].task == MustReport {
      assert InTask(s, DoOpenFailure(s, a), a, Reporting(Head(s, a).id !in s.jobs));
    }
  }

  /** An opened job goes on once its document is free: to a processing if the document is
      live, and otherwise to the end of the transaction. */
  lemma DocumentsAreLocked(s: State, a: AgentId)
    requires Inv(s) && Busy(s, a) && s.agents[a].task.Opened? && HeadDocument(s, a) !in s.locks
    ensures HeadDocument(s, a) in s.documents
    ensures var recreate := s.agents[a].task.recreate;
            if s.documents[HeadDocument(s, a)].deleted then Works(s, a, LockForJob, Skipping(recreate))
            else Works(s, a, LockForJob, Building(Build(recreate, Fetching, {}, false, DocProcessing)))
    ensures DoWork(s, a, LockForJob).locks == s.locks[HeadDocument(s, a) := a]
  {
    assert WorkerOk(s, a) && HeldOk(s, a, s.agents[a].batch[0]);
    var task := DoLockForJob(s, a).agents[a].task;
    assert InTask(s, DoLockForJob(s, a), a, task);
  }

  /** From then on every step is there when its turn comes: rows with new ids, ... */
  lemma RowsAreReplaced(s: State, a: AgentId, ids: set<ChunkId>)
    requires BuildingAt(s, a, Fetching) && forall c :: c in ids ==> c !in s.minted
    ensures Builds(s, a, ReplaceRows(ids), BuildOf(s, a).(phase := Replaced, ids := ids))
  {
    assert InTask(s, DoReplaceRows(s, a, ids), a, Building(BuildOf(s, a).(phase := Replaced, ids := ids)));
  }

  /** ... points, ... */
  lemma PointsAreReplaced(s: State, a: AgentId)
    ensures BuildingAt(s, a, Replaced) ==> Builds(s, a, ClearPoints, BuildOf(s, a).(phase := Cleared))
    ensures BuildingAt(s, a, Cleared) ==> Builds(s, a, PutPoints, BuildOf(s, a).(phase := Indexed))
  {
    if BuildingAt(s, a, Replaced) {
      assert InTask(s, DoClearPoints(s, a), a, Building(BuildOf(s, a).(phase := Cleared)));
    }
    if BuildingAt(s, a, Cleared) {
      assert InTask(s, DoPutPoints(s, a), a, Building(BuildOf(s, a).(phase := Indexed)));
    }
  }

  /** ... a profile if there is one, and the vector, ... */
  lemma VectorsArePlaced(s: State, a: AgentId, present: bool)
    requires BuildingAt(s, a, Indexed)
    ensures Builds(s, a, PutProfile, BuildOf(s, a).(profile := true))
    ensures Builds(s, a, PlaceVector(present), BuildOf(s, a).(phase := Placed))
  {
    assert InTask(s, DoPutProfile(s, a), a, Building(BuildOf(s, a).(profile := true)));
    assert InTask(s, DoPlaceVector(s, a, present), a, Building(BuildOf(s, a).(phase := Placed)));
  }

  /** ... and the commit. */
  lemma ProcessingEnds(s: State, a: AgentId)
    requires BuildingAt(s, a, Placed)
    ensures Builds(s, a, MarkReady, BuildOf(s, a).(phase := Marked, status := DocReady))
  {
    assert InTask(s, DoMarkReady(s, a), a, Building(BuildOf(s, a).(phase := Marked, status := DocReady)));
  }

  lemma ProcessingCommits(s: State, a: AgentId)
    requires Inv(s) && BuildingAt(s, a, Marked)
    ensures MayWork(s, a, CommitJob)
  {
    assert AgentOk(s, a);
  }

  /** A transaction of a worker can fail at any point. */
  lemma WorkersMayFail(s: State, a: AgentId)
    requires Busy(s, a) && (s.agents[a].task.Opened? || s.agents[a].task.Skipping? || s.agents[a].task.Building?)
    ensures Works(s, a, AbortJob, MustReport)
    ensures s.agents[a].task.Skipping? ==> MayWork(s, a, CommitJob)
  {
    assert InTask(s, DoAbortJob(s, a), a, MustReport);
  }

  /** A deletion waits for its document and then goes on to its commit. */
  lemma DeletionsGoOn(s: State, a: AgentId)
    requires Inv(s) && a in s.agents && s.agents[a].Deleter?
    ensures var d := s.agents[a].document;
            match s.agents[a].stage
            case Waiting => d in s.documents && d !in s.locks ==>
                              && MayDelete(s, a, LockForDelete)
                              && DoDelete(s, a, LockForDelete).agents[a] == Deleter(d, Locked)
                              && DoDelete(s, a, LockForDelete).locks == s.locks[d := a]
            case Locked => MayDelete(s, a, DeletePoints)
                && DoDelete(s, a, DeletePoints).agents[a] == Deleter(d, PointsGone)
            case PointsGone => MayDelete(s, a, DeleteVector)
                && DoDelete(s, a, DeleteVector).agents[a] == Deleter(d, VectorGone)
            case VectorGone => MayDelete(s, a, CommitDelete)
  {
    assert AgentOk(s, a);
  }

  /** A reindex takes any live document that nobody else has locked, empties and refills it,
      and refreshes its vector exactly if it has chunk rows; it may stop after any step. */
  lemma ReindexingGoesOn(s: State, a: AgentId, d: DocumentId, present: bool)
    requires a in s.agents && s.agents[a].Reindexer?
    ensures d in s.documents && !s.documents[d].deleted && (d !in s.locks || s.locks[d] == a) <==>
            MayReindex(s, a, LockForReindex(d))
    ensures MayReindex(s, a, LockForReindex(d)) ==>
              var t := DoReindex(s, a, LockForReindex(d));
              t.agents[a] == Reindexer(Some(d), Chosen) && t.locks == s.locks[d := a]
    ensures s.agents[a].current == Some(d) ==>
              match s.agents[a].progress
              case Chosen => MayReindex(s, a, EmptyPoints)
                  && DoReindex(s, a, EmptyPoints).agents[a] == Reindexer(Some(d), Emptied)
              case Emptied => MayReindex(s, a, RefillPoints)
                  && DoReindex(s, a, RefillPoints).agents[a] == Reindexer(Some(d), Refilled)
              case Refilled =>
                MayReindex(s, a, RefreshVector(present)) <==> exists c :: c in s.chunks && s.chunks[c] == d
    ensures MayReindex(s, a, CommitReindex)
  {
    assert forall c :: c in s.chunks && s.chunks[c] == d ==> c in Of(s.chunks, d);
  }

  /** Uploads under new ids are always answered, new participants can always start, an idle
      worker can always claim, and any participant may crash. */
  lemma AnybodyMayBegin(s: State, tenant: TenantId, fileHash: string, d: DocumentId, j: JobId, now: int, a: AgentId,
      limit: nat, rowLocks: set<JobId>)
    requires Inv(s)
    ensures d !in s.documents && (forall x :: x in s.jobFor ==> s.jobFor[x] != j) ==>
              Enabled(s, Upload(tenant, fileHash, d, j, now))
    ensures a !in s.agents ==>
              Enabled(s, Work(a, StartWorker)) && Enabled(s, Delete(a, StartDelete(d)))
              && Enabled(s, Reindex(a, StartReindex))
    ensures IsWorker(s, a) && s.agents[a].batch == [] && limit > 0 ==> Enabled(s, Work(a, Claim(limit, now, rowLocks)))
    ensures a in s.agents ==> Enabled(s, Crash(a))
  {
    if IsWorker(s, a) { assert WorkerOk(s, a); }
  }
}
