/** What a reader of the index may rely on, and how documents evolve. */
module ProtocolIndex {
  import opened Identifiers
  import opened Protocol
  import opened ProtocolSafety
  import opened ProtocolJobs

  // ---- documents over time -----------------------------------------------

  /** Documents keep their identity and never come back from deletion. */
  ghost predicate Evolves(s: State, t: State) {
    forall d :: d in s.documents ==>
      && d in t.documents
      && t.documents[d].tenant == s.documents[d].tenant
      && t.documents[d].fileHash == s.documents[d].fileHash
      && (s.documents[d].deleted ==> t.documents[d].deleted)
  }

  ghost predicate UniqueBytes(s: State) {
    forall d, e | d in s.documents && e in s.documents && !s.documents[d].deleted && !s.documents[e].deleted ::
      s.documents[d].tenant == s.documents[e].tenant && s.documents[d].fileHash == s.documents[e].fileHash ==> d == e
  }

  ghost predicate NothingUploaded(s: State, t: State) {
    forall d :: d in t.documents ==> d in s.documents
  }

  lemma WorkEvolves(s: State, a: AgentId, step: WorkerStep)
    requires MayWork(s, a, step)
    ensures Evolves(s, DoWork(s, a, step)) && NothingUploaded(s, DoWork(s, a, step))
  {
  }

  lemma DeleteEvolves(s: State, a: AgentId, step: DeleteStep)
    requires MayDelete(s, a, step)
    ensures Evolves(s, DoDelete(s, a, step)) && NothingUploaded(s, DoDelete(s, a, step))
  {
  }

  lemma ProcessEvolves(s: State, a: AgentId, step: BuildStep)
    requires MayProcess(s, a, step)
    ensures DoProcess(s, a, step).documents == s.documents
  {
  }

  lemma ReindexEvolves(s: State, a: AgentId, step: ReindexStep)
    requires MayReindex(s, a, step)
    ensures DoReindex(s, a, step).documents == s.documents
  {
  }

  lemma StepEvolves(s: State, step: Step)
    requires Enabled(s, step)
    ensures Evolves(s, Apply(s, step))
    ensures !step.Upload? ==> NothingUploaded(s, Apply(s, step))
  {
    match step
    case Work(a, work) => WorkEvolves(s, a, work);
    case Delete(a, delete) => DeleteEvolves(s, a, delete);
    case Process(a, build) => ProcessEvolves(s, a, build);
    case Reindex(a, reindex) => ReindexEvolves(s, a, reindex);
    case Upload(tenant, fileHash, document, job, now) =>
    case Crash(a) =>
  }

  lemma StepKeepsUniqueBytes(s: State, step: Step)
    requires UniqueBytes(s) && Enabled(s, step)
    ensures UniqueBytes(Apply(s, step))
  {
    StepEvolves(s, step);
    if step.Upload? {
      var t := Apply(s, step);
      assert t != s ==> !LiveCopy(s, step.tenant, step.fileHash);
    }
  }

  lemma {:induction false} OneLiveDocumentPerBytes(s: State, steps: seq<Step>)
    requires Initial(s) && CanRun(s, steps)
    ensures UniqueBytes(Run(s, steps))
    decreases |steps|
  {
    if steps != [] {
      OneLiveDocumentPerBytes(s, steps[..|steps| - 1]);
      StepKeepsUniqueBytes(Run(s, steps[..|steps| - 1]), steps[|steps| - 1]);
    }
  }

  /** Once a deletion has committed, the document stays deleted whatever runs afterwards. */
  lemma {:induction false} DeletionIsFinal(s: State, steps: seq<Step>, more: seq<Step>, d: DocumentId)
    requires CanRun(s, steps + more) && CanRun(s, steps)
    requires d in Run(s, steps).documents && Run(s, steps).documents[d].deleted
    ensures d in Run(s, steps + more).documents && Run(s, steps + more).documents[d].deleted
    decreases |more|
  {
    if more == [] {
      assert steps + more == steps;
    } else {
      var fewer := more[..|more| - 1];
      assert (steps + more)[..|steps + more| - 1] == steps + fewer;
      DeletionIsFinal(s, steps, fewer, d);
      StepEvolves(Run(s, steps + fewer), more[|more| - 1]);
    }
  }

  // ---- ready documents ---------------------------------------------------

  /** Every point of a live, ready document belongs to one of its chunk rows. */
  ghost predicate ReadyInv(s: State) {
    forall c :: c in s.points && Ready(s, s.points[c]) ==> c in s.chunks && s.chunks[c] == s.points[c]
  }

  predicate Ready(s: State, d: DocumentId) {
    d in s.documents && !s.documents[d].deleted && s.documents[d].status == DocReady
  }

  /** A document that is being processed does not read ready. */
  lemma ProcessedIsNotReady(s: State, a: AgentId)
    requires Inv(s) && Busy(s, a)
    ensures !Ready(s, HeadDocument(s, a))
  {
    var h := Head(s, a);
    assert WorkerOk(s, a) && HeldOk(s, a, h);
    assert Agrees(s, h.job.document);
  }

  lemma PointsFrame(s: State, t: State)
    requires ReadyInv(s)
    requires forall d :: Ready(t, d) ==> Ready(s, d)
    requires forall c :: c in t.points && Ready(t, t.points[c]) ==>
               (c in s.points && s.points[c] == t.points[c]) || (c in s.chunks && s.chunks[c] == t.points[c])
    requires forall c :: c in s.chunks && Ready(t, s.chunks[c]) ==> c in t.chunks && t.chunks[c] == s.chunks[c]
    ensures ReadyInv(t)
  {
  }

  lemma ProcessKeepsReady(s: State, a: AgentId, step: BuildStep)
    requires Inv(s) && ReadyInv(s) && MayProcess(s, a, step)
    ensures ReadyInv(DoProcess(s, a, step))
  {
    ProcessedIsNotReady(s, a);
    PointsFrame(s, DoProcess(s, a, step));
  }

  /** A processing commit publishes the document with exactly one point per chunk row. */
  lemma CommitPublishesItsChunks(s: State, a: AgentId)
    requires IndexInv(s) && BuildingAt(s, a, Marked) && MayCommitJob(s, a)
    ensures var t, d := DoCommitJob(s, a), HeadDocument(s, a);
            && Ready(t, d)
            && (forall c :: (c in t.points && t.points[c] == d) <==> (c in t.chunks && t.chunks[c] == d))
            && (forall c :: c in s.points <==> c in t.points)
            && (forall c :: c in s.points ==> t.points[c] == s.points[c])
  {
    assert AgentOk(s, a);
  }

  lemma CommitLeavesOthers(s: State, a: AgentId)
    requires IndexInv(s) && BuildingAt(s, a, Marked) && MayCommitJob(s, a)
    ensures var t, d := DoCommitJob(s, a), HeadDocument(s, a);
            && (forall x :: x != d && Ready(t, x) ==> Ready(s, x))
            && (forall c :: c in s.chunks && s.chunks[c] != d ==> c in t.chunks && t.chunks[c] == s.chunks[c])
  {
    assert AgentOk(s, a);
  }

  lemma CommitJobKeepsReady(s: State, a: AgentId)
    requires IndexInv(s) && ReadyInv(s) && MayCommitJob(s, a)
    ensures ReadyInv(DoCommitJob(s, a))
  {
    if s.agents[a].task.Skipping? {
      PointsFrame(s, DoCommitJob(s, a));
    } else {
      CommitPublishesItsChunks(s, a);
      CommitLeavesOthers(s, a);
    }
  }

  lemma WorkKeepsReady(s: State, a: AgentId, step: WorkerStep)
    requires Inv(s) && ReadyInv(s) && MayWork(s, a, step)
    ensures ReadyInv(DoWork(s, a, step))
  {
    if step.CommitJob? { CommitJobKeepsReady(s, a); } else { PointsFrame(s, DoWork(s, a, step)); }
  }

  lemma DeleteKeepsReady(s: State, a: AgentId, step: DeleteStep)
    requires ReadyInv(s) && MayDelete(s, a, step)
    ensures ReadyInv(DoDelete(s, a, step))
  {
    PointsFrame(s, DoDelete(s, a, step));
  }

  lemma ReindexKeepsReady(s: State, a: AgentId, step: ReindexStep)
    requires ReadyInv(s) && MayReindex(s, a, step)
    ensures ReadyInv(DoReindex(s, a, step))
  {
    PointsFrame(s, DoReindex(s, a, step));
  }

  lemma UploadKeepsReady(s: State, tenant: TenantId, fileHash: string, document: DocumentId, job: JobId, now: int)
    requires ReadyInv(s) && MayUpload(s, document, job)
    ensures ReadyInv(DoUpload(s, tenant, fileHash, document, job, now))
  {
    PointsFrame(s, DoUpload(s, tenant, fileHash, document, job, now));
  }

  lemma StepKeepsReady(s: State, step: Step)
    requires Inv(s) && ReadyInv(s) && Enabled(s, step)
    ensures ReadyInv(Apply(s, step))
  {
    match step
    case Upload(tenant, fileHash, document, job, now) => UploadKeepsReady(s, tenant, fileHash, document, job, now);
    case Crash(a) => PointsFrame(s, DoCrash(s, a));
    case Work(a, work) => WorkKeepsReady(s, a, work);
    case Process(a, build) => ProcessKeepsReady(s, a, build);
    case Delete(a, delete) => DeleteKeepsReady(s, a, delete);
    case Reindex(a, reindex) => ReindexKeepsReady(s, a, reindex);
  }

  /** In every reachable state, even halfway through a reindex or after an aborted
      one, no point of a ready document refers to a chunk row that is not there. */
  lemma {:induction false} ReadyDocumentsHaveNoStalePoints(s: State, steps: seq<Step>)
    requires Initial(s) && CanRun(s, steps)
    ensures ReadyInv(Run(s, steps))
    decreases |steps|
  {
    if steps != [] {
      ReadyDocumentsHaveNoStalePoints(s, steps[..|steps| - 1]);
      InvOverRuns(s, steps[..|steps| - 1]);
      StepKeepsReady(Run(s, steps[..|steps| - 1]), steps[|steps| - 1]);
    }
  }
}
