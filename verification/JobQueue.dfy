/** The leased job table of the memory store (internal/scintx/job_queue_memory.go): its operations
    as functions on a table value, and the object that performs them in place under its lock, with
    the clock reading as a parameter. The admission side of internal/workers/queue.go works on it. */
module JobQueue {
  import opened Seqs

  datatype JobStatus = Pending | Leased

  datatype Job = Job(status: JobStatus, createdAt: int, owner: string, until: int, attempts: nat)

  type Jobs = map<string, Job>

  /** Instants and durations in nanoseconds; the zero instant marks "no lease". */
  const ZERO_TIME: int := 0
  const DEFAULT_LEASE: int := 120_000_000_000

  function LeaseOr(lease: int): (d: int)
    ensures d > 0
  {
    if lease <= 0 then DEFAULT_LEASE else lease
  }

  /** An active job is kept; an empty id is refused. */
  function DoEnqueue(jobs: Jobs, id: string, now: int): (r: (Jobs, bool)) {
    if id == "" then (jobs, false)
    else if id in jobs then (jobs, true)
    else (jobs[id := Job(Pending, now, "", ZERO_TIME, 0)], true)
  }

  predicate Expired(j: Job, at: int) {
    j.status == Leased && j.until != ZERO_TIME && j.until < at
  }

  function SweptJob(j: Job, at: int): (r: Job) {
    if Expired(j, at) then j.(status := Pending, owner := "", until := ZERO_TIME) else j
  }

  function Sweep(jobs: Jobs, at: int): (r: Jobs)
    ensures r.Keys == jobs.Keys
  {
    map id | id in jobs :: SweptJob(jobs[id], at)
  }

  ghost predicate NonePending(jobs: Jobs) {
    forall id :: id in jobs ==> jobs[id].status != Pending
  }

  /** A pending job that no other pending job precedes. */
  ghost predicate Oldest(jobs: Jobs, id: string) {
    && id in jobs && jobs[id].status == Pending
    && (forall o :: o in jobs && jobs[o].status == Pending ==> jobs[id].createdAt <= jobs[o].createdAt)
  }

  function DoClaim(jobs: Jobs, id: string, owner: string, until: int): (r: Jobs)
    requires id in jobs
  {
    jobs[id := jobs[id].(status := Leased, owner := owner, until := until, attempts := jobs[id].attempts + 1)]
  }

  predicate OwnsLease(jobs: Jobs, id: string, owner: string) {
    id in jobs && jobs[id].status == Leased && jobs[id].owner == owner
  }

  function DoHeartbeat(jobs: Jobs, id: string, owner: string, until: int): (r: (Jobs, bool)) {
    if OwnsLease(jobs, id, owner) then (jobs[id := jobs[id].(until := until)], true) else (jobs, false)
  }

  /** Only a lease of somebody else protects the row. */
  function DoComplete(jobs: Jobs, id: string, owner: string): (r: (Jobs, bool)) {
    if id !in jobs then (jobs, true)
    else if jobs[id].status == Leased && jobs[id].owner != owner && owner != "" then (jobs, false)
    else (jobs - {id}, true)
  }

  /** What a claim reports. */
  datatype Claimed = Claimed(id: string, attempts: nat)

  class JobTable {
    var jobs: Jobs

    constructor ()
      ensures jobs == map[]
    {
      jobs := map[];
    }

    method EnqueueJob(id: string, now: int) returns (ok: bool)
      modifies this
      ensures (jobs, ok) == DoEnqueue(old(jobs), id, now)
    {
      if id == "" { return false; }
      if id in jobs && (jobs[id].status == Pending || jobs[id].status == Leased) { return true; }
      jobs := jobs[id := Job(Pending, now, "", ZERO_TIME, 0)];
      return true;
    }

    /** Turns every expired lease back into a pending job. */
    method SweepExpired(at: int)
      modifies this
      ensures jobs == Sweep(old(jobs), at)
    {
      var todo := jobs.Keys;
      while todo != {}
        invariant todo <= jobs.Keys == old(jobs).Keys
        invariant forall id :: id in jobs ==> jobs[id] == if id in todo then old(jobs)[id] else SweptJob(old(jobs)[id], at)
        decreases todo
      {
        var id :| id in todo;
        if jobs[id].status == Leased && jobs[id].until != ZERO_TIME && jobs[id].until < at {
          jobs := jobs[id := jobs[id].(status := Pending, owner := "", until := ZERO_TIME)];
        }
        todo := todo - {id};
      }
    }

    /** Scans for the oldest pending job. */
    method FindOldest() returns (best: Option<string>)
      ensures best.None? ==> NonePending(jobs)
      ensures best.Some? ==> Oldest(jobs, best.value)
    {
      best := None;
      var todo := jobs.Keys;
      while todo != {}
        invariant todo <= jobs.Keys
        invariant best.None? ==> forall id :: id in jobs && jobs[id].status == Pending ==> id in todo
        invariant best.Some? ==> best.value in jobs && jobs[best.value].status == Pending
        invariant best.Some? ==> forall id :: id in jobs && jobs[id].status == Pending && id !in todo ==>
                                   jobs[best.value].createdAt <= jobs[id].createdAt
        decreases todo
      {
        var id :| id in todo;
        todo := todo - {id};
        if jobs[id].status != Pending { continue; }
        if best.None? || jobs[id].createdAt < jobs[best.value].createdAt { best := Some(id); }
      }
    }

    /** `now` was read before the lock was taken. An empty owner is refused without any change;
        otherwise expired leases are swept and the oldest pending job, if there is one, is leased. */
    method ClaimJob(owner: string, lease: int, now: int) returns (r: Option<Claimed>, err: bool)
      modifies this
      ensures err <==> owner == ""
      ensures err ==> r.None? && jobs == old(jobs)
      ensures !err && r.None? ==> jobs == Sweep(old(jobs), now) && NonePending(jobs)
      ensures !err && r.Some? ==>
                var swept := Sweep(old(jobs), now);
                && Oldest(swept, r.value.id)
                && jobs == DoClaim(swept, r.value.id, owner, now + LeaseOr(lease))
                && r.value.attempts == old(jobs)[r.value.id].attempts + 1
    {
      if owner == "" { return None, true; }
      var until := now + LeaseOr(lease);
      SweepExpired(now);
      var best := FindOldest();
      if best.None? { return None, false; }
      var id := best.value;
      jobs := jobs[id := jobs[id].(status := Leased, owner := owner, until := until, attempts := jobs[id].attempts + 1)];
      return Some(Claimed(id, jobs[id].attempts)), false;
    }

    method HeartbeatJob(id: string, owner: string, lease: int, now: int) returns (ok: bool)
      modifies this
      ensures (jobs, ok) == DoHeartbeat(old(jobs), id, owner, now + LeaseOr(lease))
    {
      if id !in jobs || jobs[id].status != Leased || jobs[id].owner != owner { return false; }
      jobs := jobs[id := jobs[id].(until := now + LeaseOr(lease))];
      return true;
    }

    method CompleteJob(id: string, owner: string) returns (ok: bool)
      modifies this
      ensures (jobs, ok) == DoComplete(old(jobs), id, owner)
    {
      if id !in jobs { return true; }
      if jobs[id].status == Leased && jobs[id].owner != owner && owner != "" { return false; }
      jobs := jobs - {id};
      return true;
    }

    /** Pending and leased jobs together are all the rows there are. */
    method PendingJobCount() returns (n: nat)
      ensures n == |jobs|
    {
      n := 0;
      var todo := jobs.Keys;
      while todo != {}
        invariant todo <= jobs.Keys && n + |todo| == |jobs.Keys|
        decreases todo
      {
        var id :| id in todo;
        if jobs[id].status == Pending || jobs[id].status == Leased { n := n + 1; }
        todo := todo - {id};
      }
      assert |jobs.Keys| == |jobs|;
    }
  }

  datatype Admission = Admitted | Cancelled | Closed | Backpressure | TokenUsed | Refused

  class QueuePool {
    const table: JobTable
    const maxPending: nat
    var closed: bool

    constructor (table: JobTable, maxPending: nat)
      ensures this.table == table && this.maxPending == maxPending && !closed
    {
      this.table := table;
      this.maxPending := maxPending;
      closed := false;
    }

    /** Admission looks at the table once and reserves nothing in it. */
    method Reserve(cancelled: bool) returns (outcome: Admission, token: QueueToken?)
      ensures (token != null) <==> outcome == Admitted
      ensures outcome == Admitted <==> !cancelled && !closed && |table.jobs| < maxPending
      ensures outcome == Backpressure <==> !cancelled && !closed && |table.jobs| >= maxPending
      ensures outcome == Cancelled <==> cancelled
      ensures outcome == Closed <==> !cancelled && closed
      ensures token != null ==> fresh(token) && token.pool == this && !token.released && !token.committed
    {
      if cancelled { return Cancelled, null; }
      if closed { return Closed, null; }
      var n := table.PendingJobCount();
      if n >= maxPending { return Backpressure, null; }
      token := new QueueToken(this);
      return Admitted, token;
    }

    method Close()
      modifies this
      ensures closed
    {
      closed := true;
    }

    /** Reserve and commit in one call: the job is in the table exactly when the answer says so. */
    method Submit(cancelled: bool, id: string, now: int) returns (outcome: Admission)
      modifies table
      ensures outcome == Admitted <==> !cancelled && !closed && |old(table.jobs)| < maxPending && id != ""
      ensures table.jobs == if outcome == Admitted then DoEnqueue(old(table.jobs), id, now).0 else old(table.jobs)
    {
      var reserved, token := Reserve(cancelled);
      if token == null { return reserved; }
      outcome := token.Commit(id, now);
      if outcome != Admitted { token.Release(); }
    }
  }

  class QueueToken {
    const pool: QueuePool
    var released: bool
    var committed: bool

    constructor (pool: QueuePool)
      ensures this.pool == pool && !released && !committed
    {
      this.pool := pool;
      released, committed := false, false;
    }

    /** A token commits at most once; a refused job leaves it open, a closed pool releases it. */
    method Commit(id: string, now: int) returns (outcome: Admission)
      modifies this, pool.table
      ensures old(released || committed) ==> outcome == TokenUsed && released == old(released) && committed == old(committed)
      ensures old(!released && !committed) ==>
                && (pool.closed ==> outcome == Closed && released && !committed)
                && (!pool.closed && id == "" ==> outcome == Refused && !released && !committed)
                && (!pool.closed && id != "" ==> outcome == Admitted && committed && !released)
      ensures pool.table.jobs == if outcome == Admitted then DoEnqueue(old(pool.table.jobs), id, now).0 else old(pool.table.jobs)
    {
      if released || committed { return TokenUsed; }
      if pool.closed {
        released := true;
        return Closed;
      }
      var ok := pool.table.EnqueueJob(id, now);
      if !ok { return Refused; }
      committed := true;
      return Admitted;
    }

    method Release()
      modifies this
      ensures committed == old(committed) && released == (old(released) || !old(committed))
    {
      if released || committed { return; }
      released := true;
    }
  }
}
