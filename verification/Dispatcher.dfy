/** The local pool as the objects the server calls: `LocalPool` and `AdmitToken` change their
    fields in place, under the pool's mutex, exactly as the operations of module LocalPool say. */
module Dispatcher {
  import P = LocalPool

  class Pool {
    const maxInflight: nat
    const workers: nat
    var closed: bool
    /** Number of elements in the semaphore channel. */
    var sem: nat
    /** Contents of the jobs channel, oldest first. */
    var jobs: seq<string>

    ghost var issued: seq<AdmitToken>
    ghost var flags: seq<P.TokenState>
    ghost var commitLog: seq<string>
    ghost var started: nat
    ghost var running: map<nat, nat>
    ghost var finished: set<nat>

    ghost predicate Valid()
      reads this, issued
    {
      && |flags| == |issued|
      && (forall i :: 0 <= i < |issued| ==> issued[i].pool == this && issued[i].index == i && issued[i].Flag() == flags[i])
      && started <= |commitLog|
      && jobs == commitLog[started..]
      && P.Inv(State())
    }

    ghost function State(): (p: P.Pool)
      reads this
    {
      P.Pool(maxInflight, workers, closed, sem, flags, commitLog, started, running, finished)
    }

    constructor (maxInflight: nat, workers: nat)
      requires maxInflight > 0
      ensures Valid() && State() == P.Fresh(maxInflight, if workers < 1 then 1 else if workers > maxInflight then maxInflight else workers)
      ensures issued == []
    {
      this.maxInflight := maxInflight;
      this.workers := if workers < 1 then 1 else if workers > maxInflight then maxInflight else workers;
      closed, sem, jobs := false, 0, [];
      issued, flags, commitLog, started, running, finished := [], [], [], 0, map[], {};
      new;
      P.FreshInv(maxInflight, this.workers);
    }

    /** Fails with `ContextDone` when the caller's context is already done. */
    method Reserve(contextDone: bool) returns (outcome: P.Outcome, token: AdmitToken?)
      requires Valid()
      modifies this
      ensures Valid()
      ensures contextDone ==> outcome == P.ContextDone && State() == old(State())
      ensures !contextDone ==> (State(), outcome) == P.DoReserve(old(State()))
      ensures outcome == P.Ok <==> token != null
      ensures token != null ==> issued == old(issued) + [token] && fresh(token)
      ensures token == null ==> issued == old(issued)
    {
      hide P.Conserved, P.Accounted;
      if contextDone {
        return P.ContextDone, null;
      }
      if closed {
        return P.PoolClosed, null;
      }
      if sem < maxInflight {
        P.StepKeepsInv(State(), P.Reserve);
        sem := sem + 1;
        token := new AdmitToken(this, |issued|);
        issued, flags := issued + [token], flags + [P.Open];
        return P.Ok, token;
      }
      return P.Backpressure, null;
    }

    /** A worker receives the oldest job. */
    method Receive(ghost w: nat) returns (job: string)
      requires Valid() && P.Enabled(State(), P.Receive(w))
      modifies this
      ensures Valid() && State() == P.DoReceive(old(State()), w) && issued == old(issued)
      ensures job == old(jobs)[0] && jobs == old(jobs)[1..]
    {
      hide P.Conserved, P.Accounted;
      P.StepKeepsInv(State(), P.Receive(w));
      job := jobs[0];
      jobs := jobs[1..];
      running, started := running[w := started], started + 1;
    }

    /** The worker's process function has returned or panicked. */
    method Finish(ghost w: nat)
      requires Valid() && w in running
      modifies this
      ensures Valid() && old(P.Enabled(State(), P.Finish(w))) && State() == P.DoFinish(old(State()), w) && issued == old(issued)
    {
      hide P.Conserved, P.Accounted;
      P.FinishNeverBlocks(State(), w);
      P.StepKeepsInv(State(), P.Finish(w));
      sem := sem - 1;
      finished, running := finished + {running[w]}, running - {w};
    }

    method Close()
      requires Valid()
      modifies this
      ensures Valid() && State() == P.DoClose(old(State())) && issued == old(issued)
    {
      hide P.Conserved, P.Accounted;
      P.StepKeepsInv(State(), P.Close);
      closed := true;
    }
  }

  class AdmitToken {
    const pool: Pool
    ghost const index: nat
    var released: bool
    var committed: bool

    ghost function Flag(): (f: P.TokenState)
      reads this
    {
      if committed then P.Committed else if released then P.Released else P.Open
    }

    constructor (pool: Pool, ghost index: nat)
      ensures this.pool == pool && this.index == index && Flag() == P.Open
    {
      this.pool := pool;
      this.index := index;
      released, committed := false, false;
    }

    ghost predicate Live()
      reads this, pool, pool.issued
    {
      pool.Valid() && index < |pool.issued| && pool.issued[index] == this
    }

    method Commit(id: string) returns (outcome: P.Outcome)
      requires Live()
      modifies this, pool
      ensures Live() && pool.issued == old(pool.issued)
      ensures (pool.State(), outcome) == P.DoCommit(old(pool.State()), index, id)
    {
      hide P.Conserved, P.Accounted;
      ghost var before := pool.State();
      P.StepKeepsInv(before, P.Commit(index, id));
      if released || committed {
        return P.TokenUsed;
      }
      if pool.closed {
        ReleaseLocked();
        return P.PoolClosed;
      }
      if |pool.jobs| < pool.maxInflight {
        pool.jobs := pool.jobs + [id];
        pool.commitLog := pool.commitLog + [id];
        pool.flags := pool.flags[index := P.Committed];
        committed := true;
        return P.Ok;
      }
      ReleaseLocked();
      return P.Backpressure;
    }

    method Release()
      requires Live()
      modifies this, pool
      ensures Live() && pool.issued == old(pool.issued)
      ensures pool.State() == P.DoRelease(old(pool.State()), index)
    {
      ReleaseLocked();
    }

    method ReleaseLocked()
      requires Live()
      modifies this, pool
      ensures Live() && pool.issued == old(pool.issued)
      ensures pool.State() == P.DoRelease(old(pool.State()), index)
    {
      hide P.Conserved, P.Accounted;
      P.StepKeepsInv(pool.State(), P.Release(index));
      if released || committed {
        return;
      }
      released := true;
      pool.flags := pool.flags[index := P.Released];
      if pool.sem > 0 {
        pool.sem := pool.sem - 1;
      }
    }
  }
}
