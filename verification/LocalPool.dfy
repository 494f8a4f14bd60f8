/** The bounded local worker pool (internal/workers/dispatcher.go: localPool, admitToken): the
    state and its atomic operations as functions, and what every run keeps. The classes that perform
    these operations in place are in `Dispatcher`. */
module LocalPool {
  import opened Seqs

  datatype TokenState = Open | Released | Committed

  datatype Outcome = Ok | Backpressure | PoolClosed | TokenUsed | ContextDone

  /** Jobs are named by their position in `commitLog`: the channel holds the positions from
      `started` on, `running` maps a worker to its position, `finished` holds the positions whose
      process function has returned or panicked. */
  datatype Pool = Pool(
    max: nat, workers: nat, closed: bool, sem: nat,
    tokens: seq<TokenState>, commitLog: seq<string>, started: nat,
    running: map<nat, nat>, finished: set<nat>)

  function Jobs(p: Pool): (jobs: seq<string>)
    requires p.started <= |p.commitLog|
  {
    p.commitLog[p.started..]
  }

  function Fresh(max: nat, workers: nat): (p: Pool) {
    Pool(max, workers, false, 0, [], [], 0, map[], {})
  }

  // ---- operations ----

  /** `Reserve`: the new token, if any, is the next one in `tokens`. */
  function DoReserve(p: Pool): (r: (Pool, Outcome)) {
    if p.closed then (p, PoolClosed)
    else if p.sem < p.max then (p.(sem := p.sem + 1, tokens := p.tokens + [Open]), Ok)
    else (p, Backpressure)
  }

  /** `releaseLocked`: does nothing for a used token; never blocks on an empty semaphore. */
  function DoRelease(p: Pool, t: nat): (r: Pool)
    requires t < |p.tokens|
  {
    if p.tokens[t] != Open then p
    else p.(tokens := p.tokens[t := Released], sem := if p.sem > 0 then p.sem - 1 else 0)
  }

  function DoCommit(p: Pool, t: nat, id: string): (r: (Pool, Outcome))
    requires t < |p.tokens| && p.started <= |p.commitLog|
  {
    if p.tokens[t] != Open then (p, TokenUsed)
    else if p.closed then (DoRelease(p, t), PoolClosed)
    else if |Jobs(p)| < p.max then
      (p.(tokens := p.tokens[t := Committed], commitLog := p.commitLog + [id]), Ok)
    else (DoRelease(p, t), Backpressure)
  }

  /** An idle worker takes the oldest job off the channel. */
  function DoReceive(p: Pool, w: nat): (r: Pool) {
    p.(running := p.running[w := p.started], started := p.started + 1)
  }

  /** The process function of `w` returned or panicked; the deferred receive frees the slot. */
  function DoFinish(p: Pool, w: nat): (r: Pool)
    requires w in p.running && p.sem > 0
  {
    p.(running := p.running - {w}, finished := p.finished + {p.running[w]}, sem := p.sem - 1)
  }

  function DoClose(p: Pool): (r: Pool) {
    p.(closed := true)
  }

  // ---- runs ----

  datatype Event =
    | Reserve | Release(t: nat) | Commit(t: nat, id: string)
    | Receive(w: nat) | Finish(w: nat) | Close

  predicate Enabled(p: Pool, e: Event) {
    match e
    case Reserve => true
    case Release(t) => t < |p.tokens|
    case Commit(t, _) => t < |p.tokens| && p.started <= |p.commitLog|
    case Receive(w) => w < p.workers && w !in p.running && p.started < |p.commitLog|
    case Finish(w) => w in p.running && p.sem > 0
    case Close => true
  }

  function Apply(p: Pool, e: Event): (r: Pool)
    requires Enabled(p, e)
  {
    match e
    case Reserve => DoReserve(p).0
    case Release(t) => DoRelease(p, t)
    case Commit(t, id) => DoCommit(p, t, id).0
    case Receive(w) => DoReceive(p, w)
    case Finish(w) => DoFinish(p, w)
    case Close => DoClose(p)
  }

  /** The state after a run from `p`, or `None` when some event was not enabled. */
  function After(p: Pool, events: seq<Event>): (r: Option<Pool>) {
    if events == [] then Some(p)
    else
      var q, e := After(p, events[..|events| - 1]), events[|events| - 1];
      if q.Some? && Enabled(q.value, e) then Some(Apply(q.value, e)) else None
  }

  // ---- the invariant ----

  function CountOpen(tokens: seq<TokenState>): (n: nat) {
    if tokens == [] then 0
    else CountOpen(tokens[..|tokens| - 1]) + (if tokens[|tokens| - 1] == Open then 1 else 0)
  }

  lemma {:induction false} CountOpenUpdate(tokens: seq<TokenState>, t: nat, x: TokenState)
    requires t < |tokens| && tokens[t] == Open && x != Open
    ensures CountOpen(tokens[t := x]) == CountOpen(tokens) - 1
    decreases |tokens|
  {
    var m := |tokens| - 1;
    if t < m {
      CountOpenUpdate(tokens[..m], t, x);
      assert tokens[t := x][..m] == tokens[..m][t := x];
    } else {
      assert tokens[t := x][..m] == tokens[..m];
    }
  }

  lemma CountOpenSnoc(tokens: seq<TokenState>, x: TokenState)
    ensures CountOpen(tokens + [x]) == CountOpen(tokens) + (if x == Open then 1 else 0)
  {
    assert (tokens + [x])[..|tokens|] == tokens;
  }

  lemma {:induction false} OpenCounts(tokens: seq<TokenState>, t: nat)
    requires t < |tokens| && tokens[t] == Open
    ensures CountOpen(tokens) >= 1
    decreases |tokens|
  {
    if t < |tokens| - 1 { OpenCounts(tokens[..|tokens| - 1], t); }
  }

  lemma {:induction false} NoneOpen(tokens: seq<TokenState>)
    ensures CountOpen(tokens) == 0 <==> forall t :: 0 <= t < |tokens| ==> tokens[t] != Open
  {
    if tokens != [] {
      var m := |tokens| - 1;
      NoneOpen(tokens[..m]);
      assert forall t :: 0 <= t < m ==> tokens[..m][t] == tokens[t];
    }
  }

  /** Every slot in use belongs to exactly one open token, queued job or running job. */
  ghost predicate Conserved(p: Pool) {
    && p.started <= |p.commitLog|
    && p.sem == CountOpen(p.tokens) + |Jobs(p)| + |p.running|
    && p.sem <= p.max
  }

  /** Every started job is either running at one worker or finished, never both. */
  ghost predicate Accounted(p: Pool) {
    && p.started <= |p.commitLog|
    && (forall w :: w in p.running ==> w < p.workers && p.running[w] < p.started && p.running[w] !in p.finished)
    && (forall v, w :: v in p.running && w in p.running && p.running[v] == p.running[w] ==> v == w)
    && (forall i :: 0 <= i < p.started && i !in p.finished ==> exists w :: w in p.running && p.running[w] == i)
    && (forall i :: i in p.finished ==> i < p.started)
  }

  lemma ReleaseConserves(p: Pool, t: nat)
    requires Conserved(p) && t < |p.tokens|
    ensures Conserved(DoRelease(p, t))
  {
    if p.tokens[t] == Open {
      OpenCounts(p.tokens, t);
      CountOpenUpdate(p.tokens, t, Released);
    }
  }

  lemma CommitConserves(p: Pool, t: nat, id: string)
    requires Conserved(p) && t < |p.tokens|
    ensures Conserved(DoCommit(p, t, id).0)
  {
    hide CountOpen;
    ReleaseConserves(p, t);
    if p.tokens[t] == Open && !p.closed && |Jobs(p)| < p.max {
      CountOpenUpdate(p.tokens, t, Committed);
      assert (p.commitLog + [id])[p.started..] == p.commitLog[p.started..] + [id];
    }
  }

  lemma FinishConserves(p: Pool, w: nat)
    requires Conserved(p) && Enabled(p, Finish(w))
    ensures Conserved(DoFinish(p, w))
  {
    hide CountOpen;
    RemoveOne(p.running, w);
  }

  lemma StepConserves(p: Pool, e: Event)
    requires Conserved(p) && Enabled(p, e)
    ensures Conserved(Apply(p, e))
  {
    hide CountOpen, DoRelease, DoCommit, DoFinish;
    match e
    case Reserve => CountOpenSnoc(p.tokens, Open);
    case Release(t) => ReleaseConserves(p, t);
    case Commit(t, id) => CommitConserves(p, t, id);
    case Receive(w) => assert |p.running[w := p.started]| == |p.running| + 1;
    case Finish(w) => FinishConserves(p, w);
    case Close =>
  }

  lemma RemoveOne(m: map<nat, nat>, w: nat)
    requires w in m
    ensures |m - {w}| == |m| - 1
  {
    assert (m - {w}).Keys == m.Keys - {w};
    assert |m.Keys - {w}| == |m.Keys| - 1;
  }

  lemma ReceiveAccounts(p: Pool, w: nat)
    requires Accounted(p) && Enabled(p, Receive(w))
    ensures Accounted(DoReceive(p, w))
  {
    var q := DoReceive(p, w);
    forall i | 0 <= i < q.started && i !in q.finished ensures exists v :: v in q.running && q.running[v] == i {
      if i < p.started {
        var v :| v in p.running && p.running[v] == i;
        assert v != w && q.running[v] == i;
      } else {
        assert q.running[w] == i;
      }
    }
  }

  lemma FinishAccounts(p: Pool, w: nat)
    requires Accounted(p) && Enabled(p, Finish(w))
    ensures Accounted(DoFinish(p, w))
  {
    var q := DoFinish(p, w);
    forall i | 0 <= i < q.started && i !in q.finished ensures exists v :: v in q.running && q.running[v] == i {
      var v :| v in p.running && p.running[v] == i;
      assert v in q.running && q.running[v] == i;
    }
  }

  lemma StepAccounts(p: Pool, e: Event)
    requires Accounted(p) && Enabled(p, e)
    ensures Accounted(Apply(p, e))
  {
    hide DoReceive, DoFinish;
    match e
    case Receive(w) => ReceiveAccounts(p, w);
    case Finish(w) => FinishAccounts(p, w);
    case Reserve =>
    case Release(t) =>
    case Commit(t, id) =>
    case Close =>
  }

  ghost predicate Inv(p: Pool) {
    p.started <= |p.commitLog| && Conserved(p) && Accounted(p)
  }

  lemma StepKeepsInv(p: Pool, e: Event)
    requires Inv(p) && Enabled(p, e)
    ensures Inv(Apply(p, e))
  {
    StepConserves(p, e);
    StepAccounts(p, e);
  }

  /** In every reachable state the semaphore count is the number of open tokens, queued jobs and
      running jobs together, and never exceeds the limit. */
  lemma {:induction false} SlotConservation(max: nat, workers: nat, events: seq<Event>)
    requires After(Fresh(max, workers), events).Some?
    ensures var p := After(Fresh(max, workers), events).value;
            && Inv(p) && p.max == max && p.workers == workers
            && p.sem == CountOpen(p.tokens) + |Jobs(p)| + |p.running| <= max
    decreases |events|
  {
    hide Accounted, CountOpen;
    if events == [] {
      FreshInv(max, workers);
    } else {
      SlotConservation(max, workers, events[..|events| - 1]);
      StepKeepsInv(After(Fresh(max, workers), events[..|events| - 1]).value, events[|events| - 1]);
    }
  }

  lemma FreshInv(max: nat, workers: nat)
    ensures Inv(Fresh(max, workers))
  {
  }

  /** An open token commits successfully as long as the pool is not closed. */
  lemma OpenTokenCommits(p: Pool, t: nat, id: string)
    requires Conserved(p) && t < |p.tokens| && p.tokens[t] == Open && !p.closed
    ensures DoCommit(p, t, id).1 == Ok
  {
    OpenCounts(p.tokens, t);
  }

  /** What calls answer in any state that a run reaches. A reservation succeeds exactly when the pool is
      open and the open tokens, queued jobs and running jobs are fewer than the limit; a commit succeeds
      exactly when its token is open and the pool is. Only `Close` closes the pool. */
  lemma {:induction false} PoolAnswers(max: nat, workers: nat, events: seq<Event>, t: nat, id: string)
    requires After(Fresh(max, workers), events).Some?
    ensures var p := After(Fresh(max, workers), events).value;
            && p.started <= |p.commitLog| && (p.closed <==> Close in events)
            && DoReserve(p).1 == (if Close in events then PoolClosed
                                  else if CountOpen(p.tokens) + |Jobs(p)| + |p.running| < max then Ok else Backpressure)
            && DoReserve(p).0.tokens == p.tokens + (if DoReserve(p).1 == Ok then [Open] else [])
            && (t < |p.tokens| ==>
                  var (q, outcome) := DoCommit(p, t, id);
                  && outcome == (if p.tokens[t] != Open then TokenUsed else if Close in events then PoolClosed else Ok)
                  && q.commitLog == p.commitLog + (if outcome == Ok then [id] else [])
                  && |q.tokens| == |p.tokens| && q.tokens[t] != Open)
  {
    hide CountOpen, Accounted;
    SlotConservation(max, workers, events);
    ClosedByClose(max, workers, events);
    var p := After(Fresh(max, workers), events).value;
    if t < |p.tokens| && p.tokens[t] == Open && !p.closed { OpenTokenCommits(p, t, id); }
  }

  lemma {:induction false} ClosedByClose(max: nat, workers: nat, events: seq<Event>)
    requires After(Fresh(max, workers), events).Some?
    ensures After(Fresh(max, workers), events).value.closed <==> Close in events
    decreases |events|
  {
    if events != [] {
      var m := |events| - 1;
      ClosedByClose(max, workers, events[..m]);
      assert events == events[..m] + [events[m]];
    }
  }

  /** A worker that returns always finds a slot to give back. */
  lemma FinishNeverBlocks(p: Pool, w: nat)
    requires Conserved(p) && w in p.running
    ensures Enabled(p, Finish(w))
  {
    assert |p.running| >= 1 by { RemoveOne(p.running, w); }
  }

  /** Nothing is sent on the closed channel and closing is final. */
  lemma ClosedIsFinal(p: Pool, e: Event)
    requires Enabled(p, e) && p.closed
    ensures Apply(p, e).closed && Apply(p, e).commitLog == p.commitLog
    ensures CountOpen(Apply(p, e).tokens) <= CountOpen(p.tokens)
  {
    if e.Release? && p.tokens[e.t] == Open { CountOpenUpdate(p.tokens, e.t, Released); }
    if e.Commit? && p.tokens[e.t] == Open { CountOpenUpdate(p.tokens, e.t, Released); }
  }

  /** How often the run hands the job at position `i` to a worker. */
  function Starts(p: Pool, events: seq<Event>, i: nat): (n: nat) {
    if events == [] then 0
    else
      var q, e := After(p, events[..|events| - 1]), events[|events| - 1];
      Starts(p, events[..|events| - 1], i) + if q.Some? && e.Receive? && q.value.started == i then 1 else 0
  }

  /** How often the process function of the job at position `i` ends in the run. */
  function Ends(p: Pool, events: seq<Event>, i: nat): (n: nat) {
    if events == [] then 0
    else
      var q, e := After(p, events[..|events| - 1]), events[|events| - 1];
      Ends(p, events[..|events| - 1], i)
      + if q.Some? && e.Finish? && e.w in q.value.running && q.value.running[e.w] == i then 1 else 0
  }

  /** In every run each position up to `started` was handed out exactly once and no other; each
      finished one has ended exactly once and no other. */
  lemma {:induction false} RunExactlyOnce(max: nat, workers: nat, events: seq<Event>, i: nat)
    requires After(Fresh(max, workers), events).Some?
    ensures var p := After(Fresh(max, workers), events).value;
            && Starts(Fresh(max, workers), events, i) == (if i < p.started then 1 else 0)
            && Ends(Fresh(max, workers), events, i) == (if i in p.finished then 1 else 0)
    decreases |events|
  {
    hide CountOpen, Jobs;
    if events != [] {
      var m := |events| - 1;
      RunExactlyOnce(max, workers, events[..m], i);
      SlotConservation(max, workers, events[..m]);
      OneMore(After(Fresh(max, workers), events[..m]).value, events[m], i);
    }
  }

  lemma OneMore(p: Pool, e: Event, i: nat)
    requires Inv(p) && Enabled(p, e)
    ensures i < Apply(p, e).started <==> i < p.started || (e.Receive? && p.started == i)
    ensures i in Apply(p, e).finished <==> i in p.finished || (e.Finish? && p.running[e.w] == i)
    ensures e.Finish? ==> p.running[e.w] !in p.finished
  {
    hide Conserved;
  }

  ghost predicate Drained(p: Pool) {
    p.closed && p.started == |p.commitLog| && p.running == map[]
  }

  /** When the workers have drained a closed pool, every committed job has been started and ended
      exactly once, the only slots still taken are those of open tokens, and so the count is zero
      exactly when every token was committed or released. */
  lemma DrainedRanEverything(max: nat, workers: nat, events: seq<Event>, i: nat)
    requires After(Fresh(max, workers), events).Some? && Drained(After(Fresh(max, workers), events).value)
    ensures var p, n := After(Fresh(max, workers), events).value, if i < |After(Fresh(max, workers), events).value.commitLog| then 1 else 0;
            && Starts(Fresh(max, workers), events, i) == n && Ends(Fresh(max, workers), events, i) == n
            && p.sem == CountOpen(p.tokens)
            && (p.sem == 0 <==> forall t :: 0 <= t < |p.tokens| ==> p.tokens[t] != Open)
  {
    hide After, Starts, Ends, CountOpen;
    RunExactlyOnce(max, workers, events, i);
    SlotConservation(max, workers, events);
    NoneOpen(After(Fresh(max, workers), events).value.tokens);
  }

  /** A closed pool that has not drained can always take a worker step, and each such step brings
      it closer. */
  function Backlog(p: Pool): (n: nat)
    requires p.started <= |p.commitLog|
  {
    2 * |Jobs(p)| + |p.running|
  }

  lemma DrainProgress(p: Pool) returns (e: Event)
    requires Inv(p) && p.closed && !Drained(p) && p.workers > 0
    ensures Enabled(p, e) && (e.Receive? || e.Finish?)
    ensures Inv(Apply(p, e)) && Apply(p, e).closed && Backlog(Apply(p, e)) < Backlog(p)
    ensures Apply(p, e).tokens == p.tokens && Apply(p, e).workers == p.workers
  {
    if p.running != map[] {
      var w :| w in p.running;
      e := Finish(w);
      FinishNeverBlocks(p, w);
      RemoveOne(p.running, w);
    } else {
      e := Receive(0);
      assert |p.running[0 := p.started]| == 1;
    }
    StepKeepsInv(p, e);
  }

  predicate WorkerEvent(e: Event) {
    e.Receive? || e.Finish?
  }

  lemma {:induction false} AfterCons(p: Pool, e: Event, events: seq<Event>)
    requires Enabled(p, e)
    ensures After(p, [e] + events) == After(Apply(p, e), events)
    decreases |events|
  {
    hide Apply, Enabled;
    if events == [] {
      assert [e] + events == [e] && [e][..0] == [];
      assert After(p, []) == Some(p);
    } else {
      var m := |events| - 1;
      assert ([e] + events)[..m + 1] == [e] + events[..m];
      AfterCons(p, e, events[..m]);
    }
  }

  /** From every closed state of a run the workers alone can drain the pool. */
  lemma {:induction false} WorkersDrain(p: Pool) returns (events: seq<Event>)
    requires Inv(p) && p.closed && p.workers > 0
    ensures (forall i :: 0 <= i < |events| ==> WorkerEvent(events[i])) && After(p, events).Some?
    ensures var q := After(p, events).value; Drained(q) && q.commitLog == p.commitLog && q.tokens == p.tokens
    decreases Backlog(p)
  {
    hide Inv, Apply, Enabled, Backlog;
    if Drained(p) {
      events := [];
    } else {
      var e := DrainProgress(p);
      ClosedIsFinal(p, e);
      var rest := WorkersDrain(Apply(p, e));
      AfterCons(p, e, rest);
      events := [e] + rest;
    }
  }

  /** However the workers interleave, a closed pool cannot take more worker steps than its backlog. */
  lemma {:induction false} DrainBounded(p: Pool, events: seq<Event>)
    requires p.started <= |p.commitLog| && After(p, events).Some? && forall i :: 0 <= i < |events| ==> WorkerEvent(events[i])
    ensures var q := After(p, events).value; q.started <= |q.commitLog| && |events| + Backlog(q) == Backlog(p)
    decreases |events|
  {
    hide Backlog, Apply, Enabled;
    if events != [] {
      var m := |events| - 1;
      DrainBounded(p, events[..m]);
      WorkerStepBacklog(After(p, events[..m]).value, events[m]);
    }
  }

  lemma WorkerStepBacklog(p: Pool, e: Event)
    requires p.started <= |p.commitLog| && Enabled(p, e) && WorkerEvent(e)
    ensures Apply(p, e).started <= |Apply(p, e).commitLog| && Backlog(Apply(p, e)) == Backlog(p) - 1
  {
    if e.Finish? {
      RemoveOne(p.running, e.w);
    } else {
      var more := p.running[e.w := p.started];
      assert more.Keys == p.running.Keys + {e.w};
      assert |more| == |more.Keys| && |p.running| == |p.running.Keys|;
    }
  }
}
