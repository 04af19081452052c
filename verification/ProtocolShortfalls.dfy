/** Runs that leave a ready document without points for its chunk rows. */
module ProtocolShortfalls {
  import opened Wrappers
  import opened Identifiers
  import opened Jobs
  import opened Protocol
  import opened ProtocolIndex
  import opened ProtocolCoverage

  ghost predicate StepTo(t: State, step: Step, u: State) {
    Enabled(t, step) && Apply(t, step) == u
  }

  /** After these steps from `s` the state is `t`. */
  ghost predicate Reaches(s: State, steps: seq<Step>, t: State) {
    CanRun(s, steps) && Run(s, steps) == t
  }

  lemma Extend(s: State, steps: seq<Step>, t: State, step: Step, u: State)
    requires Reaches(s, steps, t) && StepTo(t, step, u)
    ensures Reaches(s, steps + [step], u)
  {
    assert (steps + [step])[..|steps + [step]| - 1] == steps;
  }

  /** The states lie along the steps. */
  ghost predicate Along(states: seq<State>, steps: seq<Step>) {
    |states| == |steps| + 1 && forall i :: 0 <= i < |steps| ==> StepTo(states[i], steps[i], states[i + 1])
  }

  lemma OneMore(steps: seq<Step>, more: seq<Step>, n: nat)
    requires n < |more|
    ensures steps + more[..n + 1] == steps + more[..n] + [more[n]]
  {
  }

  lemma {:induction false} ExtendAlong(s: State, steps: seq<Step>, states: seq<State>, more: seq<Step>, n: nat)
    requires Along(states, more) && Reaches(s, steps, states[0]) && n <= |more|
    ensures Reaches(s, steps + more[..n], states[n])
  {
    if n == 0 {
      assert steps + more[..0] == steps;
    } else {
      ExtendAlong(s, steps, states, more, n - 1);
      OneMore(steps, more, n - 1);
      Extend(s, steps + more[..n - 1], states[n - 1], more[n - 1], states[n]);
    }
  }

  // ---- losing the points of any ready document ---------------------------------------

  /** A reindex that crashes once it has emptied the document. */
  function AbortedReindex(a: AgentId, d: DocumentId): seq<Step> {
    [Reindex(a, StartReindex), Reindex(a, LockForReindex(d)), Reindex(a, EmptyPoints), Crash(a)]
  }

  /** A deletion that crashes once it has removed the points. */
  function GivenUpDeletion(a: AgentId, d: DocumentId): seq<Step> {
    [Delete(a, StartDelete(d)), Delete(a, LockForDelete), Delete(a, DeletePoints), Crash(a)]
  }

  /** Rows are as they were, and the document has no point. */
  ghost predicate LostPoints(t: State, u: State, d: DocumentId) {
    u.documents == t.documents && u.chunks == t.chunks && u.points == Without(t.points, d)
  }

  /** Between start and crash, with a lock on the document and an agent of this kind. */
  function Locking(t: State, a: AgentId, d: DocumentId, agent: Agent): State {
    t.(agents := t.agents[a := agent], locks := t.locks[d := a])
  }

  function Crashed(t: State, a: AgentId, d: DocumentId): State {
    t.(points := Without(t.points, d), agents := t.agents - {a}, locks := Released(t.locks[d := a], a))
  }

  lemma CrashingLosesPoints(t: State, a: AgentId, d: DocumentId, agent: Agent)
    requires !agent.Worker?
    ensures StepTo(Locking(t, a, d, agent).(points := Without(t.points, d)), Crash(a), Crashed(t, a, d))
  {
  }

  function ReindexStates(t: State, a: AgentId, d: DocumentId): seq<State> {
    [t, t.(agents := t.agents[a := Reindexer(None, Chosen)]), Locking(t, a, d, Reindexer(Some(d), Chosen)),
     Locking(t, a, d, Reindexer(Some(d), Emptied)).(points := Without(t.points, d)), Crashed(t, a, d)]
  }

  lemma ReindexLosesPoints(t: State, a: AgentId, d: DocumentId)
    requires Ready(t, d) && d !in t.locks && a !in t.agents
    ensures Along(ReindexStates(t, a, d), AbortedReindex(a, d))
  {
    var states := ReindexStates(t, a, d);
    Reindexes(t, a, StartReindex, states[1]);
    Reindexes(states[1], a, LockForReindex(d), states[2]);
    Empties(t, a, d);
    CrashingLosesPoints(t, a, d, Reindexer(Some(d), Emptied));
  }

  lemma Empties(t: State, a: AgentId, d: DocumentId)
    ensures StepTo(ReindexStates(t, a, d)[2], Reindex(a, EmptyPoints), ReindexStates(t, a, d)[3])
  {
    assert DoEmptyPoints(ReindexStates(t, a, d)[2], a) == ReindexStates(t, a, d)[3];
  }

  lemma Reindexes(t: State, a: AgentId, step: ReindexStep, u: State)
    requires MayReindex(t, a, step) && DoReindex(t, a, step) == u
    ensures StepTo(t, Reindex(a, step), u)
  {
  }

  function DeletionStates(t: State, a: AgentId, d: DocumentId): seq<State> {
    [t, t.(agents := t.agents[a := Deleter(d, Waiting)]), Locking(t, a, d, Deleter(d, Locked)),
     Locking(t, a, d, Deleter(d, PointsGone)).(points := Without(t.points, d)), Crashed(t, a, d)]
  }

  lemma DeletionLosesPoints(t: State, a: AgentId, d: DocumentId)
    requires Ready(t, d) && d !in t.locks && a !in t.agents
    ensures Along(DeletionStates(t, a, d), GivenUpDeletion(a, d))
  {
    var states := DeletionStates(t, a, d);
    Deletes(t, a, StartDelete(d), states[1]);
    Deletes(states[1], a, LockForDelete, states[2]);
    RemovesPoints(t, a, d);
    CrashingLosesPoints(t, a, d, Deleter(d, PointsGone));
  }

  lemma RemovesPoints(t: State, a: AgentId, d: DocumentId)
    ensures StepTo(DeletionStates(t, a, d)[2], Delete(a, DeletePoints), DeletionStates(t, a, d)[3])
  {
    assert DoDeletePoints(DeletionStates(t, a, d)[2], a) == DeletionStates(t, a, d)[3];
  }

  lemma Deletes(t: State, a: AgentId, step: DeleteStep, u: State)
    requires MayDelete(t, a, step) && DoDelete(t, a, step) == u
    ensures StepTo(t, Delete(a, step), u)
  {
  }

  lemma LosingIsFallingShort(t: State, u: State, d: DocumentId)
    requires Ready(t, d) && Of(t.chunks, d) != {} && LostPoints(t, u, d)
    ensures Ready(u, d) && !AllChunksHavePoints(u, d)
  {
    var c :| c in Of(t.chunks, d);
    assert c in u.chunks && u.chunks[c] == d && !(c in u.points && u.points[c] == d);
  }

  /** The run goes on like this, and then the document is ready but short of points. */
  ghost predicate FallsShort(s: State, steps: seq<Step>, d: DocumentId) {
    CanRun(s, steps) && Ready(Run(s, steps), d) && !AllChunksHavePoints(Run(s, steps), d)
  }

  lemma FallsShortAlong(s: State, steps: seq<Step>, states: seq<State>, more: seq<Step>, a: AgentId, d: DocumentId)
    requires Along(states, more) && |more| == 4 && Reaches(s, steps, states[0])
    requires states[4] == Crashed(states[0], a, d) && Ready(states[0], d) && Of(states[0].chunks, d) != {}
    ensures FallsShort(s, steps + more, d)
  {
    ExtendAlong(s, steps, states, more, 4);
    assert more[..4] == more;
    LosingIsFallingShort(states[0], states[4], d);
  }

  /** Whenever a ready document with chunk rows is not locked, an aborted reindex leaves it
      ready and short of points, and so does a deletion that is given up. */
  lemma EveryReadyDocumentCanFallShort(s: State, steps: seq<Step>, a: AgentId, d: DocumentId)
    requires CanRun(s, steps) && Ready(Run(s, steps), d) && Of(Run(s, steps).chunks, d) != {}
    requires d !in Run(s, steps).locks && a !in Run(s, steps).agents
    ensures FallsShort(s, steps + AbortedReindex(a, d), d) && FallsShort(s, steps + GivenUpDeletion(a, d), d)
  {
    var t := Run(s, steps);
    ReindexLosesPoints(t, a, d);
    FallsShortAlong(s, steps, ReindexStates(t, a, d), AbortedReindex(a, d), a, d);
    DeletionLosesPoints(t, a, d);
    FallsShortAlong(s, steps, DeletionStates(t, a, d), GivenUpDeletion(a, d), a, d);
  }

  // ---- a ready document ----------------------------------------------------------------

  function Nothing(): State {
    State(1, map[], map[], {}, map[], map[], {}, map[], map[], map[], map[])
  }

  function Uploaded(): State {
    Nothing().(documents := map[0 := Document(0, "", DocQueued, false)], jobFor := map[0 := 0],
               jobs := map[0 := Job(0, 0, Queued, 0, 1, 0, 0, None, None, None)])
  }

  const MINE := Job(0, 0, Processing, 1, 1, 0, 0, Some(0), Some(1), None)

  /** The worker, agent 1, has claimed the job. */
  function Holding(task: Task): State {
    Uploaded().(jobs := map[0 := MINE], agents := map[1 := Worker([Held(0, MINE)], task)])
  }

  function InHand(phase: Phase, ids: set<ChunkId>, status: DocumentStatus): State {
    Holding(Building(Build(false, phase, ids, false, status))).(locks := map[0 := 1])
  }

  function Minted(phase: Phase, status: DocumentStatus): State {
    InHand(phase, {5}, status).(minted := map[5 := 0])
  }

  function Found(phase: Phase, status: DocumentStatus): State {
    Minted(phase, status).(points := map[5 := 0])
  }

  function Finishing(phase: Phase, status: DocumentStatus): State {
    Found(phase, status).(vectors := {0})
  }

  /** One document, ready, with one chunk row and its point. */
  function OneReady(): State {
    Uploaded().(documents := map[0 := Document(0, "", DocReady, false)], chunks := map[5 := 0], points := map[5 := 0],
                jobs := map[0 := Job(0, 0, Finished, 1, 1, 0, 0, None, None, None)], vectors := {0},
                agents := map[1 := Worker([], Idle)], minted := map[5 := 0])
  }

  /** An upload, and the worker up to the lock of the document. */
  function Starting(): seq<Step> {
    [Upload(0, "", 0, 0, 0), Work(1, StartWorker), Work(1, Claim(1, 0, {})), Work(1, OpenJob), Work(1, LockForJob)]
  }

  function StartingStates(): seq<State> {
    [Nothing(), Uploaded(), Uploaded().(agents := map[1 := Worker([], Idle)]), Holding(Idle), Holding(Opened(false)),
     InHand(Fetching, {}, DocProcessing)]
  }

  /** One processing of it, into one chunk. */
  function Publishing(): seq<Step> {
    [Process(1, ReplaceRows({5})), Process(1, ClearPoints), Process(1, PutPoints), Process(1, PlaceVector(true)),
     Process(1, MarkReady), Work(1, CommitJob)]
  }

  function PublishingStates(): seq<State> {
    [InHand(Fetching, {}, DocProcessing), Minted(Replaced, DocProcessing), Minted(Cleared, DocProcessing),
     Found(Indexed, DocProcessing), Finishing(Placed, DocProcessing), Finishing(Marked, DocReady), OneReady()]
  }

  lemma Works(t: State, a: AgentId, step: WorkerStep, u: State)
    requires MayWork(t, a, step) && DoWork(t, a, step) == u
    ensures StepTo(t, Work(a, step), u)
  {
  }

  lemma ClaimsTheJob()
    ensures StepTo(StartingStates()[2], Work(1, Claim(1, 0, {})), Holding(Idle))
  {
    var t := StartingStates()[2];
    var ids := Selected(t.jobs, 0, {}, 1);
    assert 0 in Due(t.jobs, 0, {});
    assert ids == [0];
    assert AfterClaim(t.jobs, ids, 1, 0) == map[0 := MINE];
    assert DoClaim(t, 1, 1, 0, {}).agents[1].batch == [Held(0, MINE)];
    Works(t, 1, Claim(1, 0, {}), Holding(Idle));
  }

  lemma LocksTheDocument()
    ensures StepTo(Holding(Opened(false)), Work(1, LockForJob), InHand(Fetching, {}, DocProcessing))
  {
    Works(Holding(Opened(false)), 1, LockForJob, InHand(Fetching, {}, DocProcessing));
  }

  lemma StartingGoesAlong()
    ensures Along(StartingStates(), Starting())
  {
    var states := StartingStates();
    assert StepTo(Nothing(), Upload(0, "", 0, 0, 0), Uploaded());
    Works(states[1], 1, StartWorker, states[2]);
    ClaimsTheJob();
    Works(states[3], 1, OpenJob, states[4]);
    LocksTheDocument();
  }

  lemma SettlesTheJob()
    ensures var t := Finishing(Marked, DocReady);
            Settled(t, 1) == t.(jobs := OneReady().jobs, agents := OneReady().agents, locks := map[])
  {
    var t := Finishing(Marked, DocReady);
    assert Released(t.locks, 1) == map[];
    assert t.agents[1].batch[1..] == [];
    assert NextJob(t, 1) == t.(agents := OneReady().agents, locks := map[]);
    assert Merged(t.jobs, Head(t, 1), false) == t.jobs && OwnedBy(t.jobs, 0, 0, 1);
    assert AfterFinish(t.jobs, 0, 0, 1) == OneReady().jobs;
  }

  lemma CommitsTheJob()
    ensures StepTo(Finishing(Marked, DocReady), Work(1, CommitJob), OneReady())
  {
    SettlesTheJob();
    assert DoCommitJob(Finishing(Marked, DocReady), 1) == OneReady();
    Works(Finishing(Marked, DocReady), 1, CommitJob, OneReady());
  }

  lemma ReplacesRows()
    ensures StepTo(InHand(Fetching, {}, DocProcessing), Process(1, ReplaceRows({5})), Minted(Replaced, DocProcessing))
  {
    var t := InHand(Fetching, {}, DocProcessing);
    assert t.minted + Stamp({5}, 0) == map[5 := 0];
    assert MayReplaceRows(t, 1, {5});
    ReplacedAs(t, {5}, Minted(Replaced, DocProcessing));
  }

  lemma ReplacedAs(t: State, ids: set<ChunkId>, u: State)
    requires MayReplaceRows(t, 1, ids) && DoReplaceRows(t, 1, ids) == u
    ensures StepTo(t, Process(1, ReplaceRows(ids)), u)
  {
  }

  lemma ClearsPoints()
    ensures StepTo(Minted(Replaced, DocProcessing), Process(1, ClearPoints), Minted(Cleared, DocProcessing))
  {
    assert DoClearPoints(Minted(Replaced, DocProcessing), 1) == Minted(Cleared, DocProcessing);
  }

  lemma PutsPoints()
    ensures StepTo(Minted(Cleared, DocProcessing), Process(1, PutPoints), Found(Indexed, DocProcessing))
  {
    var t := Minted(Cleared, DocProcessing);
    assert t.points + Stamp({5}, 0) == map[5 := 0];
    PutAs(t, Found(Indexed, DocProcessing));
  }

  lemma PutAs(t: State, u: State)
    requires BuildingAt(t, 1, Cleared) && DoPutPoints(t, 1) == u
    ensures StepTo(t, Process(1, PutPoints), u)
  {
  }

  lemma PlacesVector()
    ensures StepTo(Found(Indexed, DocProcessing), Process(1, PlaceVector(true)), Finishing(Placed, DocProcessing))
  {
    assert DoPlaceVector(Found(Indexed, DocProcessing), 1, true) == Finishing(Placed, DocProcessing);
  }

  lemma MarksReady()
    ensures StepTo(Finishing(Placed, DocProcessing), Process(1, MarkReady), Finishing(Marked, DocReady))
  {
    assert DoMarkReady(Finishing(Placed, DocProcessing), 1) == Finishing(Marked, DocReady);
  }

  lemma PublishingGoesAlong()
    ensures Along(PublishingStates(), Publishing())
  {
    ReplacesRows();
    ClearsPoints();
    PutsPoints();
    PlacesVector();
    MarksReady();
    CommitsTheJob();
  }

  lemma ReadyIsReached()
    ensures Reaches(Nothing(), Starting() + Publishing(), OneReady())
  {
    StartingGoesAlong();
    ExtendAlong(Nothing(), [], StartingStates(), Starting(), 5);
    assert [] + Starting()[..5] == Starting();
    PublishingGoesAlong();
    ExtendAlong(Nothing(), Starting(), PublishingStates(), Publishing(), 6);
    assert Publishing()[..6] == Publishing();
  }

  /** From the empty state: upload, process, and then an aborted reindex or a deletion that
      is given up. The document is ready and its one chunk cannot be found. */
  lemma ReadyDocumentsFallShort()
    ensures Initial(Nothing())
    ensures FallsShort(Nothing(), Starting() + Publishing() + AbortedReindex(2, 0), 0)
    ensures FallsShort(Nothing(), Starting() + Publishing() + GivenUpDeletion(2, 0), 0)
  {
    ReadyIsReached();
    assert 5 in Of(OneReady().chunks, 0);
    EveryReadyDocumentCanFallShort(Nothing(), Starting() + Publishing(), 2, 0);
  }
}
