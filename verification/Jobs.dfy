/** The PostgreSQL job queue: claim, finish and fail (app/services/jobs.py). */
module Jobs {
  import opened Wrappers
  import opened Identifiers

  datatype JobStatus = Queued | Processing | Finished | Failed

  datatype Job = Job(
    tenant: TenantId,
    document: DocumentId,
    status: JobStatus,
    attempts: nat,
    maxAttempts: nat,
    availableAt: int,
    createdAt: int,
    claimedAt: Option<int>,
    claimedBy: Option<AgentId>,
    lastError: Option<string>)

  type Rows = map<JobId, Job>

  predicate Live(job: Job) {
    job.status == Queued || job.status == Processing
  }

  /** What every stored job satisfies. */
  predicate Sound(job: Job) {
    && (job.claimedBy.Some? <==> job.status == Processing)
    && (job.claimedAt.Some? <==> job.status == Processing)
    && 1 <= job.maxAttempts
    && job.attempts <= job.maxAttempts
    && (job.status == Queued ==> job.attempts < job.maxAttempts)
    && (job.status == Processing || job.status == Finished ==> 1 <= job.attempts)
    && (job.status == Failed ==> job.attempts == job.maxAttempts)
  }

  ghost predicate OneLiveJobPerDocument(rows: Rows) {
    forall a, b | a in rows && b in rows && Live(rows[a]) && Live(rows[b]) ::
      rows[a].document == rows[b].document ==> a == b
  }

  /** How many more claim, finish or fail transitions a job can still make. */
  function Rank(job: Job): nat
    requires job.attempts <= job.maxAttempts
  {
    match job.status
    case Queued => 2 * (job.maxAttempts - job.attempts)
    case Processing => 2 * (job.maxAttempts - job.attempts) + 1
    case Finished => 0
    case Failed => 0
  }

  // ---- the claim query's order -------------------------------------------

  /** ORDER BY available_at, created_at, id. */
  predicate Before(rows: Rows, a: JobId, b: JobId)
    requires a in rows && b in rows
  {
    var x, y := rows[a], rows[b];
    || x.availableAt < y.availableAt
    || (x.availableAt == y.availableAt
        && (x.createdAt < y.createdAt || (x.createdAt == y.createdAt && a < b)))
  }

  function Due(rows: Rows, now: int, locked: set<JobId>): set<JobId> {
    set id | id in rows && rows[id].status == Queued && rows[id].availableAt <= now && id !in locked
  }

  predicate IsLeast(rows: Rows, pool: set<JobId>, id: JobId)
    requires pool <= rows.Keys
  {
    id in pool && forall other :: other in pool && other != id ==> Before(rows, id, other)
  }

  lemma LeastExists(rows: Rows, pool: set<JobId>)
    requires pool <= rows.Keys && pool != {}
    ensures exists id :: IsLeast(rows, pool, id)
  {
    var some :| some in pool;
    if pool == {some} {
      assert IsLeast(rows, pool, some);
    } else {
      LeastExists(rows, pool - {some});
      var least :| IsLeast(rows, pool - {some}, least);
      if Before(rows, some, least) {
        forall other | other in pool && other != some ensures Before(rows, some, other) {
          assert other == least || Before(rows, least, other);
        }
        assert IsLeast(rows, pool, some);
      } else {
        assert IsLeast(rows, pool, least);
      }
    }
  }

  /** The pool in claim order. */
  function InOrder(rows: Rows, pool: set<JobId>): (ids: seq<JobId>)
    requires pool <= rows.Keys
    ensures |ids| == |pool|
    ensures forall id :: id in ids <==> id in pool
    ensures forall i, k :: 0 <= i < k < |ids| ==> Before(rows, ids[i], ids[k])
  {
    if pool == {} then []
    else
      LeastExists(rows, pool);
      var least :| IsLeast(rows, pool, least);
      [least] + InOrder(rows, pool - {least})
  }

  /** The ids one claim statement takes: the first `limit` due rows nobody else has locked. */
  function Selected(rows: Rows, now: int, locked: set<JobId>, limit: nat): (ids: seq<JobId>)
    ensures |ids| <= limit
    ensures forall i, k :: 0 <= i < k < |ids| ==> ids[i] != ids[k]
    ensures forall id :: id in ids ==> id in Due(rows, now, locked)
    ensures |ids| < limit ==> forall id :: id in Due(rows, now, locked) ==> id in ids
    ensures forall id, other :: id in ids && other in Due(rows, now, locked) && other !in ids
                                ==> Before(rows, id, other)
  {
    var all := InOrder(rows, Due(rows, now, locked));
    if |all| <= limit then all else all[..limit]
  }

  // ---- row transitions ---------------------------------------------------

  function Claimed(job: Job, worker: AgentId, now: int): Job {
    job.(status := Processing, claimedAt := Some(now), claimedBy := Some(worker), attempts := job.attempts + 1)
  }

  function AfterClaim(rows: Rows, ids: seq<JobId>, worker: AgentId, now: int): Rows {
    map id | id in rows :: if id in ids then Claimed(rows[id], worker, now) else rows[id]
  }

  predicate OwnedBy(rows: Rows, id: JobId, tenant: TenantId, worker: AgentId) {
    && id in rows
    && rows[id].tenant == tenant
    && rows[id].status == Processing
    && rows[id].claimedBy == Some(worker)
  }

  function Completed(job: Job): Job {
    job.(status := Finished, lastError := None, claimedAt := None, claimedBy := None)
  }

  function AfterFinish(rows: Rows, tenant: TenantId, id: JobId, worker: AgentId): Rows {
    if OwnedBy(rows, id, tenant, worker) then rows[id := Completed(rows[id])] else rows
  }

  function Clip(error: string): string {
    if |error| <= 2000 then error else error[..2000]
  }

  function FailedOnce(job: Job, error: string, now: int, delay: int): Job {
    var cleared := job.(lastError := Some(Clip(error)), claimedAt := None, claimedBy := None);
    if job.attempts >= job.maxAttempts then cleared.(status := Failed)
    else cleared.(status := Queued, availableAt := now + delay)
  }

  function AfterFail(rows: Rows, tenant: TenantId, id: JobId, worker: AgentId, error: string, now: int,
      delay: int): Rows
  {
    if OwnedBy(rows, id, tenant, worker) then rows[id := FailedOnce(rows[id], error, now, delay)] else rows
  }

  /** Every transition keeps a job sound and uses up at least one unit of its rank, of
      which there are at most two for each attempt. */
  lemma TransitionsSpendRank(job: Job, worker: AgentId, error: string, now: int, delay: int)
    requires Sound(job)
    ensures Rank(job) <= 2 * job.maxAttempts
    ensures job.status == Queued ==>
              Sound(Claimed(job, worker, now)) && Rank(Claimed(job, worker, now)) < Rank(job)
    ensures job.status == Processing ==>
              && Sound(Completed(job)) && Rank(Completed(job)) < Rank(job)
              && Sound(FailedOnce(job, error, now, delay)) && Rank(FailedOnce(job, error, now, delay)) < Rank(job)
  {
  }

  // ---- the statements, in the words of the table ----------------------------------

  predicate MayBeClaimed(rows: Rows, id: JobId, now: int, locked: set<JobId>) {
    id in rows && rows[id].status == Queued && rows[id].availableAt <= now && id !in locked
  }

  /** Due earlier, or at the same time and created earlier, or at the same time and with
      the smaller id. */
  predicate DueEarlier(rows: Rows, a: JobId, b: JobId) {
    && a in rows && b in rows && rows[a].availableAt <= rows[b].availableAt
    && (rows[a].availableAt == rows[b].availableAt ==> rows[a].createdAt <= rows[b].createdAt)
    && (rows[a].availableAt == rows[b].availableAt && rows[a].createdAt == rows[b].createdAt ==> a < b)
  }

  /** The columns that no transition touches. */
  predicate SameButClaim(a: Job, b: Job) {
    a.tenant == b.tenant && a.document == b.document && a.maxAttempts == b.maxAttempts && a.createdAt == b.createdAt
  }

  /** Different claimable jobs, at most `limit`; all of them if there is room, and
      otherwise none that a job left behind should precede. */
  ghost predicate TakesInOrder(rows: Rows, ids: seq<JobId>, now: int, locked: set<JobId>, limit: int) {
    && |ids| <= limit && (forall i, j :: 0 <= i < j < |ids| ==> ids[i] != ids[j])
    && (forall id :: id in ids ==> MayBeClaimed(rows, id, now, locked))
    && (forall other :: other !in ids && MayBeClaimed(rows, other, now, locked) ==>
          |ids| == limit && forall id :: id in ids ==> DueEarlier(rows, id, other))
  }

  lemma SelectedInOrder(rows: Rows, now: int, locked: set<JobId>, limit: nat)
    ensures TakesInOrder(rows, Selected(rows, now, locked, limit), now, locked, limit)
  {
    var ids := Selected(rows, now, locked, limit);
    forall other | other !in ids && MayBeClaimed(rows, other, now, locked)
      ensures |ids| == limit && forall id :: id in ids ==> DueEarlier(rows, id, other)
    {
      assert other in Due(rows, now, locked);
    }
  }

  /** These jobs, and no others, are the worker's now, one attempt dearer. */
  ghost predicate ClaimedAs(after: Rows, before: Rows, ids: seq<JobId>, worker: AgentId, now: int) {
    && after.Keys == before.Keys
    && (forall id :: id in before && id !in ids ==> after[id] == before[id])
    && (forall id :: id in before && id in ids ==>
          && after[id].status == Processing && after[id].attempts == before[id].attempts + 1
          && after[id].claimedBy == Some(worker) && after[id].claimedAt == Some(now)
          && SameButClaim(after[id], before[id]) && after[id].availableAt == before[id].availableAt
          && after[id].lastError == before[id].lastError)
  }

  lemma ClaimIsStated(rows: Rows, ids: seq<JobId>, worker: AgentId, now: int)
    ensures ClaimedAs(AfterClaim(rows, ids, worker, now), rows, ids, worker, now)
  {
  }

  /** After a failure: nobody's job, with the first 2000 characters of the error; due again
      after the delay while an attempt is left, and given up otherwise. */
  predicate FailedAs(a: Job, was: Job, error: string, now: int, delay: int) {
    && SameButClaim(a, was) && a.attempts == was.attempts && a.claimedBy == None && a.claimedAt == None
    && a.lastError.Some? && a.lastError.value <= error
    && |a.lastError.value| == (if |error| > 2000 then 2000 else |error|)
    && if was.attempts < was.maxAttempts then a.status == Queued && a.availableAt == now + delay
       else a.status == Failed && a.availableAt == was.availableAt
  }

  /** The queue's table and the statements that run against it. */
  class JobQueue {
    var rows: Rows

    ghost predicate Valid()
      reads this
    {
      (forall id :: id in rows ==> Sound(rows[id])) && OneLiveJobPerDocument(rows)
    }

    constructor ()
      ensures Valid() && rows == map[]
    {
      rows := map[];
    }

    /** Queue ingestion, or return the job already in flight. The table's own
        check constraint is what asks for a positive `maxAttempts`. */
    method Enqueue(tenant: TenantId, document: DocumentId, maxAttempts: nat, now: int, newId: JobId) returns (id: JobId)
      requires Valid() && newId !in rows && 1 <= maxAttempts
      requires forall other :: other in rows && rows[other].document == document ==> rows[other].tenant == tenant
      modifies this
      ensures Valid()
      ensures id in rows && Live(rows[id]) && rows[id].document == document && rows[id].tenant == tenant
      ensures (exists other :: other in old(rows) && Live(old(rows)[other]) && old(rows)[other].document == document)
              ==> rows == old(rows)
      ensures rows != old(rows) ==>
                && id == newId
                && rows == old(rows)[newId := Job(tenant, document, Queued, 0, maxAttempts, now, now, None, None, None)]
    {
      if existing :| existing in rows && Live(rows[existing]) && rows[existing].document == document {
        return existing;
      }
      rows := rows[newId := Job(tenant, document, Queued, 0, maxAttempts, now, now, None, None, None)];
      id := newId;
    }

    /** Claim up to `limit` due jobs, skipping rows other transactions have locked. */
    method Claim(worker: AgentId, limit: int, now: int, locked: set<JobId>) returns (r: Result<seq<JobId>, string>)
      requires Valid()
      modifies this
      ensures Valid()
      ensures r.Err? <==> limit < 1
      ensures r.Err? ==> rows == old(rows)
      ensures r.Ok? ==> r.value == Selected(old(rows), now, locked, limit)
                        && rows == AfterClaim(old(rows), r.value, worker, now)
      ensures r.Ok? ==> TakesInOrder(old(rows), r.value, now, locked, limit)
      ensures r.Ok? ==> ClaimedAs(rows, old(rows), r.value, worker, now)
    {
      if limit < 1 {
        return Err("limit must be at least 1");
      }
      var ids := Selected(rows, now, locked, limit);
      forall id | id in ids ensures Sound(Claimed(rows[id], worker, now)) {
        TransitionsSpendRank(rows[id], worker, "", now, 0);
      }
      SelectedInOrder(rows, now, locked, limit);
      ClaimIsStated(rows, ids, worker, now);
      rows := AfterClaim(rows, ids, worker, now);
      r := Ok(ids);
    }

    /** A job that another worker holds, or that nobody runs, stays as it is. */
    method Finish(tenant: TenantId, id: JobId, worker: AgentId) returns (done: bool)
      requires Valid()
      modifies this
      ensures Valid()
      ensures done <==> id in old(rows) && old(rows)[id].tenant == tenant && old(rows)[id].status == Processing
                        && old(rows)[id].claimedBy == Some(worker)
      ensures rows == AfterFinish(old(rows), tenant, id, worker)
      ensures !done ==> rows == old(rows)
      ensures done ==>
                && rows.Keys == old(rows).Keys
                && (forall other :: other in rows && other != id ==> rows[other] == old(rows)[other])
                && rows[id].status == Finished && rows[id].attempts == old(rows)[id].attempts
                && rows[id].claimedBy == None && rows[id].claimedAt == None && rows[id].lastError == None
                && SameButClaim(rows[id], old(rows)[id]) && rows[id].availableAt == old(rows)[id].availableAt
    {
      done := OwnedBy(rows, id, tenant, worker);
      if done {
        TransitionsSpendRank(rows[id], worker, "", 0, 0);
        rows := rows[id := rows[id].(status := Finished, lastError := None, claimedAt := None, claimedBy := None)];
      }
    }

    /** A failed attempt of one's own: try again later while attempts are left, else give up. */
    method Fail(tenant: TenantId, id: JobId, worker: AgentId, error: string, now: int, delay: int)
      returns (updated: Option<Job>)
      requires Valid()
      modifies this
      ensures Valid()
      ensures updated.Some? <==> id in old(rows) && old(rows)[id].tenant == tenant && old(rows)[id].status == Processing
                                 && old(rows)[id].claimedBy == Some(worker)
      ensures rows == AfterFail(old(rows), tenant, id, worker, error, now, delay)
      ensures updated.None? ==> rows == old(rows)
      ensures updated.Some? ==>
                && rows.Keys == old(rows).Keys
                && (forall other :: other in rows && other != id ==> rows[other] == old(rows)[other])
                && updated.value == rows[id] && FailedAs(rows[id], old(rows)[id], error, now, delay)
    {
      if !OwnedBy(rows, id, tenant, worker) {
        return None;
      }
      TransitionsSpendRank(rows[id], worker, error, now, delay);
      var job := rows[id].(lastError := Some(Clip(error)), claimedAt := None, claimedBy := None);
      if job.attempts >= job.maxAttempts {
        job := job.(status := Failed);
      } else {
        job := job.(status := Queued, availableAt := now + delay);
      }
      rows := rows[id := job];
      updated := Some(job);
    }
  }
}
