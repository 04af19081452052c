/** Which ready documents can be found: those whose points were not removed since. */
module ProtocolCoverage {
  import opened Identifiers
  import opened Protocol
  import opened ProtocolSafety
  import opened ProtocolJobs
  import opened ProtocolIndex

  /** Documents whose points a reindex or a deletion has removed, and which neither a
      reindex nor the commit of a processing has given points again. */
  function WipedAfter(s: State, step: Step, wiped: set<DocumentId>): set<DocumentId>
    requires Enabled(s, step)
  {
    match step
    case Reindex(a, reindex) => WipedByReindex(s, a, reindex, wiped)
    case Delete(a, delete) => WipedByDelete(s, a, delete, wiped)
    case Work(a, work) => WipedByWork(s, a, work, wiped)
    case _ => wiped
  }

  function WipedByReindex(s: State, a: AgentId, step: ReindexStep, wiped: set<DocumentId>): set<DocumentId>
    requires MayReindex(s, a, step)
  {
    match step
    case EmptyPoints => wiped + {s.agents[a].current.value}
    case RefillPoints => wiped - {s.agents[a].current.value}
    case _ => wiped
  }

  function WipedByDelete(s: State, a: AgentId, step: DeleteStep, wiped: set<DocumentId>): set<DocumentId>
    requires MayDelete(s, a, step)
  {
    if step.DeletePoints? then wiped + {s.agents[a].document} else wiped
  }

  function WipedByWork(s: State, a: AgentId, step: WorkerStep, wiped: set<DocumentId>): set<DocumentId>
    requires MayWork(s, a, step)
  {
    if step.CommitJob? && !s.agents[a].task.Skipping? then wiped - {HeadDocument(s, a)} else wiped
  }

  ghost function Wiped(s: State, steps: seq<Step>): set<DocumentId>
    requires CanRun(s, steps)
  {
    if steps == [] then {}
    else
      var before := steps[..|steps| - 1];
      WipedAfter(Run(s, before), steps[|steps| - 1], Wiped(s, before))
  }

  ghost predicate AllChunksHavePoints(s: State, d: DocumentId) {
    forall c :: c in s.chunks && s.chunks[c] == d ==> c in s.points && s.points[c] == d
  }

  /** Wiped ready documents have no point, the others a point for every chunk row. */
  ghost predicate Covered(s: State, wiped: set<DocumentId>) {
    forall d :: Ready(s, d) ==> if d in wiped then Clean(s.points, d) else AllChunksHavePoints(s, d)
  }

  /** Nothing of a ready document was touched. */
  lemma CoverageFrame(s: State, t: State, wiped: set<DocumentId>)
    requires Covered(s, wiped)
    requires forall d :: Ready(t, d) ==> Ready(s, d)
    requires forall c :: c in t.points && Ready(t, t.points[c]) ==> c in s.points && s.points[c] == t.points[c]
    requires forall c :: c in s.points && Ready(t, s.points[c]) ==> c in t.points && t.points[c] == s.points[c]
    requires forall c :: c in t.chunks && Ready(t, t.chunks[c]) ==> c in s.chunks && s.chunks[c] == t.chunks[c]
    ensures Covered(t, wiped)
  {
    forall d | Ready(t, d) ensures if d in wiped then Clean(t.points, d) else AllChunksHavePoints(t, d) {
      assert Ready(s, d);
    }
  }

  /** Only the points of `d` were touched, and what they are now is as stated. */
  lemma OneDocumentChanges(s: State, t: State, d: DocumentId, wiped: set<DocumentId>, after: set<DocumentId>)
    requires Covered(s, wiped) && SameElsewhere(s.points, t.points, d)
    requires forall x :: x != d ==> (x in wiped <==> x in after)
    requires forall x :: x != d && Ready(t, x) ==> Ready(s, x)
    requires forall c :: c in t.chunks && t.chunks[c] != d ==> c in s.chunks && s.chunks[c] == t.chunks[c]
    requires if d in after then Clean(t.points, d) else AllChunksHavePoints(t, d)
    ensures Covered(t, after)
  {
    forall x | Ready(t, x) ensures if x in after then Clean(t.points, x) else AllChunksHavePoints(t, x) {
      if x != d { assert Ready(s, x); }
    }
  }

  /** A commit puts the document's points where its chunk rows are, and leaves others alone. */
  lemma CommitKeepsCovered(s: State, a: AgentId, wiped: set<DocumentId>)
    requires IndexInv(s) && Covered(s, wiped) && BuildingAt(s, a, Marked) && MayCommitJob(s, a)
    ensures Covered(DoCommitJob(s, a), wiped - {HeadDocument(s, a)})
  {
    BuiltPoints(s, a);
    BuiltChunks(s, a);
    OneDocumentChanges(s, DoCommitJob(s, a), HeadDocument(s, a), wiped, wiped - {HeadDocument(s, a)});
  }

  lemma BuiltPoints(s: State, a: AgentId)
    requires IndexInv(s) && BuildingAt(s, a, Marked) && MayCommitJob(s, a)
    ensures var t, d := DoCommitJob(s, a), HeadDocument(s, a);
            && AllChunksHavePoints(t, d) && SameElsewhere(s.points, t.points, d)
            && (forall x :: x != d && Ready(t, x) ==> Ready(s, x))
  {
    CommitPublishesItsChunks(s, a);
    CommitLeavesOthers(s, a);
  }

  lemma BuiltChunks(s: State, a: AgentId)
    requires MayCommitJob(s, a) && !s.agents[a].task.Skipping?
    ensures var t, d := DoCommitJob(s, a), HeadDocument(s, a);
            forall c :: c in t.chunks && t.chunks[c] != d ==> c in s.chunks && s.chunks[c] == t.chunks[c]
  {
  }

  lemma WorkKeepsCovered(s: State, a: AgentId, step: WorkerStep, wiped: set<DocumentId>)
    requires IndexInv(s) && Covered(s, wiped) && MayWork(s, a, step)
    ensures Covered(DoWork(s, a, step), WipedByWork(s, a, step, wiped))
  {
    if step.CommitJob? && !s.agents[a].task.Skipping? {
      CommitKeepsCovered(s, a, wiped);
    } else {
      OtherWorkKeepsCovered(s, a, step, wiped);
    }
  }

  lemma OtherWorkKeepsCovered(s: State, a: AgentId, step: WorkerStep, wiped: set<DocumentId>)
    requires Covered(s, wiped) && MayWork(s, a, step) && (step.CommitJob? ==> s.agents[a].task.Skipping?)
    ensures Covered(DoWork(s, a, step), wiped)
  {
    CoverageFrame(s, DoWork(s, a, step), wiped);
  }

  /** What is processed is not ready, so nothing ready is touched. */
  lemma ProcessKeepsCovered(s: State, a: AgentId, step: BuildStep, wiped: set<DocumentId>)
    requires Inv(s) && Covered(s, wiped) && MayProcess(s, a, step)
    ensures Covered(DoProcess(s, a, step), wiped)
  {
    ProcessedIsNotReady(s, a);
    ProcessWrites(s, a, step);
    CoverageFrame(s, DoProcess(s, a, step), wiped);
  }

  lemma ProcessWrites(s: State, a: AgentId, step: BuildStep)
    requires IndexInv(s) && MayProcess(s, a, step)
    ensures var t, d := DoProcess(s, a, step), HeadDocument(s, a);
            SameElsewhere(s.points, t.points, d) && t.chunks == s.chunks && t.documents == s.documents
  {
    assert AgentOk(s, a);
  }

  lemma DeleteKeepsCovered(s: State, a: AgentId, step: DeleteStep, wiped: set<DocumentId>)
    requires Covered(s, wiped) && MayDelete(s, a, step)
    ensures Covered(DoDelete(s, a, step), WipedByDelete(s, a, step, wiped))
  {
    if step.DeletePoints? {
      OneDocumentChanges(s, DoDeletePoints(s, a), s.agents[a].document, wiped, wiped + {s.agents[a].document});
    } else {
      CoverageFrame(s, DoDelete(s, a, step), wiped);
    }
  }

  lemma ReindexKeepsCovered(s: State, a: AgentId, step: ReindexStep, wiped: set<DocumentId>)
    requires IndexInv(s) && Covered(s, wiped) && MayReindex(s, a, step)
    ensures Covered(DoReindex(s, a, step), WipedByReindex(s, a, step, wiped))
  {
    match step
    case EmptyPoints => EmptyKeepsCovered(s, a, wiped);
    case RefillPoints => RefillKeepsCovered(s, a, wiped);
    case _ => CoverageFrame(s, DoReindex(s, a, step), wiped);
  }

  lemma EmptyKeepsCovered(s: State, a: AgentId, wiped: set<DocumentId>)
    requires Covered(s, wiped) && ReindexingAt(s, a, Chosen)
    ensures Covered(DoEmptyPoints(s, a), wiped + {s.agents[a].current.value})
  {
    OneDocumentChanges(s, DoEmptyPoints(s, a), s.agents[a].current.value, wiped, wiped + {s.agents[a].current.value});
  }

  /** Chunk ids are never shared, so putting points back touches no other document. */
  lemma RefillKeepsCovered(s: State, a: AgentId, wiped: set<DocumentId>)
    requires IndexInv(s) && Covered(s, wiped) && ReindexingAt(s, a, Emptied)
    ensures Covered(DoRefillPoints(s, a), wiped - {s.agents[a].current.value})
  {
    OneDocumentChanges(s, DoRefillPoints(s, a), s.agents[a].current.value, wiped, wiped - {s.agents[a].current.value});
  }

  lemma UploadKeepsCovered(
    s: State, tenant: TenantId, fileHash: string, document: DocumentId, job: JobId, now: int, wiped: set<DocumentId>)
    requires Covered(s, wiped) && MayUpload(s, document, job)
    ensures Covered(DoUpload(s, tenant, fileHash, document, job, now), wiped)
  {
    CoverageFrame(s, DoUpload(s, tenant, fileHash, document, job, now), wiped);
  }

  lemma CrashKeepsCovered(s: State, a: AgentId, wiped: set<DocumentId>)
    requires Covered(s, wiped) && a in s.agents
    ensures Covered(DoCrash(s, a), wiped)
  {
    CoverageFrame(s, DoCrash(s, a), wiped);
  }

  lemma StepKeepsCovered(s: State, step: Step, wiped: set<DocumentId>)
    requires Inv(s) && Covered(s, wiped) && Enabled(s, step)
    ensures Covered(Apply(s, step), WipedAfter(s, step, wiped))
  {
    match step
    case Upload(tenant, fileHash, document, job, now) =>
      UploadKeepsCovered(s, tenant, fileHash, document, job, now, wiped);
    case Crash(a) => CrashKeepsCovered(s, a, wiped);
    case Work(a, work) => WorkKeepsCovered(s, a, work, wiped);
    case Process(a, build) => ProcessKeepsCovered(s, a, build, wiped);
    case Delete(a, delete) => DeleteKeepsCovered(s, a, delete, wiped);
    case Reindex(a, reindex) => ReindexKeepsCovered(s, a, reindex, wiped);
  }

  lemma {:induction false} CoveredOverRuns(s: State, steps: seq<Step>)
    requires Initial(s) && CanRun(s, steps)
    ensures Covered(Run(s, steps), Wiped(s, steps))
    decreases |steps|
  {
    if steps != [] {
      var before := steps[..|steps| - 1];
      CoveredOverRuns(s, before);
      InvOverRuns(s, before);
      StepKeepsCovered(Run(s, before), steps[|steps| - 1], Wiped(s, before));
    }
  }

  /** In every reachable state a live ready document has a point for every chunk row
      exactly when it has no chunk rows, or nobody removed its points without putting
      them back: a reindex that went no further, or a deletion that was given up. */
  lemma ReadyDocumentsAreCovered(s: State, steps: seq<Step>, d: DocumentId)
    requires Initial(s) && CanRun(s, steps) && Ready(Run(s, steps), d)
    ensures AllChunksHavePoints(Run(s, steps), d) <==> d !in Wiped(s, steps) || Of(Run(s, steps).chunks, d) == {}
  {
    CoveredOverRuns(s, steps);
    CoveredMeans(Run(s, steps), Wiped(s, steps), d);
  }

  lemma CoveredMeans(s: State, wiped: set<DocumentId>, d: DocumentId)
    requires Covered(s, wiped) && Ready(s, d)
    ensures AllChunksHavePoints(s, d) <==> d !in wiped || Of(s.chunks, d) == {}
  {
    assert forall c :: c in s.chunks && s.chunks[c] == d ==> c in Of(s.chunks, d);
    if d in wiped && Of(s.chunks, d) != {} {
      var c :| c in Of(s.chunks, d);
      assert !(c in s.points && s.points[c] == d);
    }
  }
}
