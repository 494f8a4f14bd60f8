/** Queue mode (internal/workers/queue.go) as a distributed protocol over the job table: any number
    of pools and distinctly named workers, one monotone clock, any interleaving of store calls. */
module LeaseProtocol {
  import opened Seqs
  import opened JobQueue
  import MemoryStore

  type Status = MemoryStore.Status

  /** A claim loop between two of its store accesses; `gen` numbers the row's lifetime. */
  datatype Stage =
    | Idle
    | Holding(id: string, attempt: nat, gen: nat)
    | Failing(id: string, attempt: nat, gen: nat)
    | Running(id: string, attempt: nat, gen: nat)
    | Completing(id: string)

  datatype TokenState = Open | Released | Committed

  datatype Token = Token(pool: nat, state: TokenState)

  /** One start of the process function. */
  datatype Start = Start(gen: nat, attempt: nat)

  /** `gens` numbers the lifetimes of the rows, `starts` records the process calls, and `belief`
      the deadline of the last successful claim or heartbeat of a worker on a job that it has not
      tried to complete since. */
  datatype State = State(
    maxAttempts: nat, maxPending: nat, now: int, jobs: Jobs, gens: map<string, nat>, nextGen: nat,
    workers: map<string, Stage>, subs: map<string, Status>, starts: seq<Start>,
    belief: map<(string, string), int>, tokens: seq<Token>, closed: set<nat>)

  function Initial(maxAttempts: nat, maxPending: nat, now: int, subs: map<string, Status>): (s: State) {
    State(maxAttempts, maxPending, now, map[], map[], 0, map[], subs, [], map[], [], {})
  }

  /** `Claim.at` is the clock reading taken before the lock, so it may be stale; heartbeats come from
      any worker at any time, also after its run has ended; `Process` and the handlers change
      submissions as they like. */
  datatype Event =
    | Tick(to: int)
    | Reserve(pool: nat)
    | Commit(t: nat, id: string)
    | Release(t: nat)
    | ClosePool(pool: nat)
    | Claim(w: string, at: int, lease: int, pick: Option<string>)
    | Heartbeat(w: string, id: string, lease: int)
    | Fetch(w: string)
    | MarkFailed(w: string)
    | ProcessEnds(w: string)
    | Panic(w: string)
    | Complete(w: string)
    | SubmissionChanges(id: string, sub: Option<Status>)

  function StageOf(s: State, w: string): (r: Stage) {
    if w in s.workers then s.workers[w] else Idle
  }

  ghost predicate Enabled(s: State, e: Event) {
    match e
    case Tick(to) => s.now <= to
    case Commit(t, _) => t < |s.tokens|
    case Release(t) => t < |s.tokens|
    case Claim(w, at, _, pick) =>
      && w != "" && StageOf(s, w).Idle? && at <= s.now
      && (pick.None? ==> NonePending(Sweep(s.jobs, at)))
      && (pick.Some? ==> Oldest(Sweep(s.jobs, at), pick.value))
    case Heartbeat(w, _, _) => w != ""
    case Fetch(w) => StageOf(s, w).Holding?
    case MarkFailed(w) => StageOf(s, w).Failing?
    case ProcessEnds(w) => StageOf(s, w).Running?
    case Panic(w) => StageOf(s, w).Running?
    case Complete(w) => w != "" && StageOf(s, w).Completing?
    case _ => true
  }

  function SetStage(s: State, w: string, g: Stage): (r: State) {
    s.(workers := s.workers[w := g])
  }

  function StepReserve(s: State, pool: nat): (r: State)
    ensures r == s.(tokens := r.tokens)
  {
    if pool in s.closed || |s.jobs| >= s.maxPending then s
    else s.(tokens := s.tokens + [Token(pool, Open)])
  }

  function StepCommit(s: State, t: nat, id: string): (r: State)
    requires t < |s.tokens|
    ensures r == s.(tokens := r.tokens, jobs := r.jobs, gens := r.gens, nextGen := r.nextGen)
  {
    var token := s.tokens[t];
    if token.state != Open then s
    else if token.pool in s.closed then s.(tokens := s.tokens[t := token.(state := Released)])
    else if id == "" then s
    else
      var s1 := s.(tokens := s.tokens[t := token.(state := Committed)], jobs := DoEnqueue(s.jobs, id, s.now).0);
      if id in s.jobs then s1 else s1.(gens := s.gens[id := s.nextGen], nextGen := s.nextGen + 1)
  }

  function StepRelease(s: State, t: nat): (r: State)
    requires t < |s.tokens|
    ensures r == s.(tokens := r.tokens)
  {
    if s.tokens[t].state != Open then s else s.(tokens := s.tokens[t := s.tokens[t].(state := Released)])
  }

  function StepClaim(s: State, w: string, at: int, lease: int, pick: Option<string>): (r: State)
    requires pick.Some? ==> pick.value in s.jobs
    ensures r == s.(jobs := r.jobs, workers := r.workers, belief := r.belief)
    ensures forall v :: v != w ==> StageOf(r, v) == StageOf(s, v)
  {
    var swept, until := Sweep(s.jobs, at), at + LeaseOr(lease);
    if pick.None? then s.(jobs := swept)
    else
      var id := pick.value;
      var jobs := DoClaim(swept, id, w, until);
      SetStage(s, w, Holding(id, jobs[id].attempts, if id in s.gens then s.gens[id] else 0)).(
      jobs := jobs, belief := s.belief[(w, id) := until])
  }

  function StepHeartbeat(s: State, w: string, id: string, lease: int): (r: State)
    ensures r == s.(jobs := r.jobs, belief := r.belief)
  {
    var until := s.now + LeaseOr(lease);
    var (jobs, ok) := DoHeartbeat(s.jobs, id, w, until);
    if ok then s.(jobs := jobs, belief := s.belief[(w, id) := until]) else s
  }

  /** The submission is stored and neither completed nor failed. */
  predicate Unfinished(s: State, id: string) {
    id in s.subs && s.subs[id] != MemoryStore.Completed && s.subs[id] != MemoryStore.Failed
  }

  /** The row of a missing or finished submission is completed, one beyond the attempt limit leads to
      a failed submission, and only otherwise the process function starts. */
  function StepFetch(s: State, w: string): (r: State)
    requires StageOf(s, w).Holding?
  {
    var h := StageOf(s, w);
    if !Unfinished(s, h.id) then SetStage(s, w, Completing(h.id))
    else if h.attempt > s.maxAttempts then SetStage(s, w, Failing(h.id, h.attempt, h.gen))
    else SetStage(s, w, Running(h.id, h.attempt, h.gen)).(starts := s.starts + [Start(h.gen, h.attempt)])
  }

  function StepMarkFailed(s: State, w: string): (r: State)
    requires StageOf(s, w).Failing?
  {
    var id := StageOf(s, w).id;
    SetStage(s, w, Completing(id)).(subs := s.subs[id := MemoryStore.Failed])
  }

  function StepComplete(s: State, w: string): (r: State)
    requires StageOf(s, w).Completing?
    ensures r == s.(jobs := r.jobs, gens := r.gens, belief := r.belief, workers := s.workers[w := Idle])
  {
    var id := StageOf(s, w).id;
    var jobs := DoComplete(s.jobs, id, w).0;
    SetStage(s, w, Idle).(jobs := jobs, gens := if id in jobs then s.gens else s.gens - {id}, belief := s.belief - {(w, id)})
  }

  ghost function Apply(s: State, e: Event): (r: State)
    requires Enabled(s, e)
  {
    match e
    case Tick(to) => s.(now := to)
    case Reserve(pool) => StepReserve(s, pool)
    case Commit(t, id) => StepCommit(s, t, id)
    case Release(t) => StepRelease(s, t)
    case ClosePool(pool) => s.(closed := s.closed + {pool})
    case Claim(w, at, lease, pick) => StepClaim(s, w, at, lease, pick)
    case Heartbeat(w, id, lease) => StepHeartbeat(s, w, id, lease)
    case Fetch(w) => StepFetch(s, w)
    case MarkFailed(w) => StepMarkFailed(s, w)
    case ProcessEnds(w) => SetStage(s, w, Completing(StageOf(s, w).id))
    case Panic(w) => SetStage(s, w, Idle)
    case Complete(w) => StepComplete(s, w)
    case SubmissionChanges(id, sub) => s.(subs := if sub.Some? then s.subs[id := sub.value] else s.subs - {id})
  }

  /** The state after a run from `s`, or `None` when some event was not enabled. */
  ghost function After(s: State, events: seq<Event>): (r: Option<State>) {
    if events == [] then Some(s)
    else
      var h, e := After(s, events[..|events| - 1]), events[|events| - 1];
      if h.Some? && Enabled(h.value, e) then Some(Apply(h.value, e)) else None
  }

  // ---- lease belief refines lease truth ----

  /** The deadline of `w`'s last successful claim or heartbeat on `id` has not passed. */
  predicate Believes(s: State, w: string, id: string) {
    (w, id) in s.belief && s.now <= s.belief[(w, id)]
  }

  ghost predicate BeliefInv(s: State) {
    forall w, id :: (w, id) in s.belief ==>
      w != "" && (Believes(s, w, id) ==> OwnsLease(s.jobs, id, w) && s.jobs[id].until == s.belief[(w, id)])
  }

  lemma ClaimKeepsBelief(s: State, w: string, at: int, lease: int, pick: Option<string>)
    requires BeliefInv(s) && Enabled(s, Claim(w, at, lease, pick))
    ensures BeliefInv(StepClaim(s, w, at, lease, pick))
  {
    var r := StepClaim(s, w, at, lease, pick);
    forall v, id | (v, id) in r.belief
      ensures v != "" && (Believes(r, v, id) ==> OwnsLease(r.jobs, id, v) && r.jobs[id].until == r.belief[(v, id)])
    {
      assert (v, id) in s.belief && r.belief[(v, id)] == s.belief[(v, id)] && Believes(r, v, id) ==> Believes(s, v, id);
    }
  }

  /** Steps that change no leased row and give no new belief. */
  lemma BeliefFrame(s: State, r: State)
    requires BeliefInv(s) && r.belief == s.belief && s.now <= r.now
    requires forall id :: id in s.jobs && s.jobs[id].status == Leased ==> id in r.jobs && r.jobs[id] == s.jobs[id]
    ensures BeliefInv(r)
  {
    forall w, id | (w, id) in r.belief
      ensures w != "" && (Believes(r, w, id) ==> OwnsLease(r.jobs, id, w) && r.jobs[id].until == r.belief[(w, id)])
    {
      assert Believes(r, w, id) ==> Believes(s, w, id);
    }
  }

  lemma CommitKeepsRows(s: State, t: nat, id: string)
    requires t < |s.tokens|
    ensures forall x :: x in s.jobs ==> x in StepCommit(s, t, id).jobs && StepCommit(s, t, id).jobs[x] == s.jobs[x]
  {
  }

  lemma HeartbeatKeepsBelief(s: State, w: string, id: string, lease: int)
    requires BeliefInv(s) && w != ""
    ensures BeliefInv(StepHeartbeat(s, w, id, lease))
  {
    var r := StepHeartbeat(s, w, id, lease);
    forall v, x | (v, x) in r.belief
      ensures v != "" && (Believes(r, v, x) ==> OwnsLease(r.jobs, x, v) && r.jobs[x].until == r.belief[(v, x)])
    {
      if (v, x) != (w, id) { assert Believes(r, v, x) ==> Believes(s, v, x); }
    }
  }

  lemma CompleteKeepsBelief(s: State, w: string)
    requires BeliefInv(s) && w != "" && StageOf(s, w).Completing?
    ensures BeliefInv(StepComplete(s, w))
  {
    var r := StepComplete(s, w);
    forall v, x | (v, x) in r.belief
      ensures v != "" && (Believes(r, v, x) ==> OwnsLease(r.jobs, x, v) && r.jobs[x].until == r.belief[(v, x)])
    {
      assert Believes(r, v, x) ==> Believes(s, v, x);
    }
  }

  lemma StepKeepsBelief(s: State, e: Event)
    requires BeliefInv(s) && Enabled(s, e)
    ensures BeliefInv(Apply(s, e))
  {
    hide BeliefInv, StepClaim, StepHeartbeat, StepComplete, StepReserve, StepRelease, StepCommit, NonePending, Oldest;
    if e.Claim? {
      ClaimKeepsBelief(s, e.w, e.at, e.lease, e.pick);
    } else if e.Heartbeat? {
      HeartbeatKeepsBelief(s, e.w, e.id, e.lease);
    } else if e.Complete? {
      CompleteKeepsBelief(s, e.w);
    } else {
      if e.Commit? { CommitKeepsRows(s, e.t, e.id); }
      BeliefFrame(s, Apply(s, e));
    }
  }

  lemma {:induction false} RunKeepsBelief(s: State, events: seq<Event>)
    requires BeliefInv(s) && After(s, events).Some?
    ensures BeliefInv(After(s, events).value)
    decreases |events|
  {
    hide BeliefInv, Apply, Enabled;
    if events != [] {
      var m := |events| - 1;
      RunKeepsBelief(s, events[..m]);
      StepKeepsBelief(After(s, events[..m]).value, events[m]);
    }
  }

  ghost predicate Reachable(s: State) {
    exists maxAttempts, maxPending, now, subs, events ::
      After(Initial(maxAttempts, maxPending, now, subs), events) == Some(s)
  }

  /** In every reachable state a worker whose last deadline has not passed owns the row, until that
      very deadline; so at most one worker believes in a job. */
  lemma BeliefIsTruth(s: State, w: string, id: string)
    requires Reachable(s) && Believes(s, w, id)
    ensures OwnsLease(s.jobs, id, w) && s.jobs[id].until == s.belief[(w, id)]
    ensures forall v :: Believes(s, v, id) ==> v == w
  {
    hide After;
    ReachableBelief(s);
  }

  lemma ReachableBelief(s: State)
    requires Reachable(s)
    ensures BeliefInv(s)
  {
    hide After, BeliefInv;
    var maxAttempts, maxPending, now, subs, events :| After(Initial(maxAttempts, maxPending, now, subs), events) == Some(s);
    InitialBelief(maxAttempts, maxPending, now, subs);
    RunKeepsBelief(Initial(maxAttempts, maxPending, now, subs), events);
  }

  lemma InitialBelief(maxAttempts: nat, maxPending: nat, now: int, subs: map<string, Status>)
    ensures BeliefInv(Initial(maxAttempts, maxPending, now, subs))
  {
  }

  /** The event is a heartbeat of `w` on `id`, or `w` completing `id`. */
  predicate OwnAct(s: State, e: Event, w: string, id: string) {
    (e.Heartbeat? && e.w == w && e.id == id) || (e.Complete? && e.w == w && StageOf(s, w) == Completing(id))
  }

  /** Nobody else takes, extends or deletes a row while its owner's deadline has not passed. */
  lemma OthersCannotTouch(s: State, e: Event, w: string, id: string)
    requires BeliefInv(s) && Enabled(s, e) && Believes(s, w, id) && !OwnAct(s, e, w, id)
    ensures var r := Apply(s, e);
            id in s.jobs && id in r.jobs && r.jobs[id] == s.jobs[id] && (w, id) in r.belief && r.belief[(w, id)] == s.belief[(w, id)]
  {
    assert OwnsLease(s.jobs, id, w);
  }

  /** No event of the run is an act of `w` on `id`. */
  ghost predicate NoOwnAct(s: State, events: seq<Event>, w: string, id: string) {
    forall i :: 0 <= i < |events| && After(s, events[..i]).Some? ==> !OwnAct(After(s, events[..i]).value, events[i], w, id)
  }

  lemma {:induction false} LeaseLasts(s: State, events: seq<Event>, w: string, id: string)
    requires BeliefInv(s) && After(s, events).Some? && NoOwnAct(s, events, w, id)
    requires (w, id) in s.belief && After(s, events).value.now <= s.belief[(w, id)]
    ensures var r := After(s, events).value;
            id in s.jobs && id in r.jobs && r.jobs[id] == s.jobs[id] && Believes(r, w, id) && r.belief[(w, id)] == s.belief[(w, id)]
    decreases |events|
  {
    hide BeliefInv, Apply, Enabled, OwnAct;
    if events == [] {
      OwnerHolds(s, w, id);
    } else {
      var m := |events| - 1;
      var mid := After(s, events[..m]).value;
      ClockNeverBack(mid, events[m]);
      forall i | 0 <= i < m && After(s, events[..m][..i]).Some? ensures !OwnAct(After(s, events[..m][..i]).value, events[..m][i], w, id) {
        assert events[..m][..i] == events[..i];
      }
      LeaseLasts(s, events[..m], w, id);
      RunKeepsBelief(s, events[..m]);
      OthersCannotTouch(mid, events[m], w, id);
    }
  }

  lemma OwnerHolds(s: State, w: string, id: string)
    requires BeliefInv(s) && Believes(s, w, id)
    ensures OwnsLease(s.jobs, id, w)
  {
  }

  lemma ClockNeverBack(s: State, e: Event)
    requires Enabled(s, e)
    ensures s.now <= Apply(s, e).now
  {
    hide StepReserve, StepCommit, StepRelease, StepClaim, StepHeartbeat, StepComplete;
  }

  /** Over every continuation of every run: until its deadline passes, the row of a worker that
      neither extends nor completes it stays exactly as it is. */
  lemma LeaseHeldUntilDeadline(s: State, events: seq<Event>, w: string, id: string)
    requires Reachable(s) && After(s, events).Some? && NoOwnAct(s, events, w, id)
    requires (w, id) in s.belief && After(s, events).value.now <= s.belief[(w, id)]
    ensures id in s.jobs && OwnsLease(s.jobs, id, w)
    ensures var r := After(s, events).value; id in r.jobs && r.jobs[id] == s.jobs[id]
  {
    hide Reachable, After, BeliefInv, NoOwnAct;
    ReachableBelief(s);
    LeaseLasts(s, events, w, id);
    RunKeepsBelief(s, events);
    OwnerHolds(After(s, events).value, w, id);
  }

  // ---- bounded retries ----

  /** No row alive has a lifetime number with fewer attempts than `attempt`. */
  ghost predicate Counted(s: State, gen: nat, attempt: nat) {
    && gen < s.nextGen && attempt > 0
    && (forall id :: id in s.gens && s.gens[id] == gen ==> id in s.jobs && attempt <= s.jobs[id].attempts)
  }

  ghost predicate RowsNumbered(s: State) {
    && s.gens.Keys == s.jobs.Keys
    && (forall id :: id in s.gens ==> s.gens[id] < s.nextGen)
    && (forall a, b :: a in s.gens && b in s.gens && s.gens[a] == s.gens[b] ==> a == b)
  }

  ghost predicate StartsInv(s: State) {
    && (forall i :: 0 <= i < |s.starts| ==> Counted(s, s.starts[i].gen, s.starts[i].attempt) && s.starts[i].attempt <= s.maxAttempts)
    && (forall i, j :: 0 <= i < j < |s.starts| ==> s.starts[i] != s.starts[j])
  }

  function TicketOf(g: Stage): (t: Option<Start>) {
    if g.Holding? then Some(Start(g.gen, g.attempt)) else None
  }

  predicate SameTicket(a: Stage, b: Stage) {
    TicketOf(a).Some? && TicketOf(a) == TicketOf(b)
  }

  /** A claim that has not been acted on is counted, and nobody else has or used its number. */
  ghost predicate TicketsInv(s: State) {
    && (forall w :: w in s.workers && s.workers[w].Holding? ==>
          Counted(s, s.workers[w].gen, s.workers[w].attempt) && TicketOf(s.workers[w]).value !in s.starts)
    && (forall v, w :: v in s.workers && w in s.workers && SameTicket(s.workers[v], s.workers[w]) ==> v == w)
  }

  ghost predicate RetryInv(s: State) {
    RowsNumbered(s) && StartsInv(s) && TicketsInv(s)
  }

  /** Rows keep their lifetime numbers and lose no attempts; new numbers are new. */
  ghost predicate RowsGrow(s: State, r: State) {
    && s.nextGen <= r.nextGen
    && (forall id :: id in r.gens ==>
          (id in s.gens && r.gens[id] == s.gens[id] && id in s.jobs && id in r.jobs && s.jobs[id].attempts <= r.jobs[id].attempts)
          || r.gens[id] >= s.nextGen)
  }

  lemma CountedGrows(s: State, r: State, gen: nat, attempt: nat)
    requires Counted(s, gen, attempt) && RowsGrow(s, r)
    ensures Counted(r, gen, attempt)
  {
  }

  /** Steps that start nothing and claim nothing. */
  lemma RetryFrame(s: State, r: State)
    requires RetryInv(s) && RowsNumbered(r) && RowsGrow(s, r) && r.starts == s.starts && r.maxAttempts == s.maxAttempts
    requires forall w :: w in r.workers && r.workers[w].Holding? ==> w in s.workers && r.workers[w] == s.workers[w]
    ensures RetryInv(r)
  {
    hide Counted, RowsNumbered, RowsGrow;
    forall i | 0 <= i < |r.starts| ensures Counted(r, r.starts[i].gen, r.starts[i].attempt) {
      CountedGrows(s, r, s.starts[i].gen, s.starts[i].attempt);
    }
    forall w | w in r.workers && r.workers[w].Holding? ensures Counted(r, r.workers[w].gen, r.workers[w].attempt) {
      CountedGrows(s, r, s.workers[w].gen, s.workers[w].attempt);
    }
  }

  /** The process function starts on a ticket that nobody has used. */
  lemma StartAdded(s: State, r: State, w: string, h: Stage)
    requires RetryInv(s) && RowsNumbered(r) && RowsGrow(s, r) && r.maxAttempts == s.maxAttempts
    requires w in s.workers && s.workers[w] == h && h.Holding? && h.attempt <= s.maxAttempts
    requires r.starts == s.starts + [Start(h.gen, h.attempt)] && r.workers == s.workers[w := Running(h.id, h.attempt, h.gen)]
    ensures RetryInv(r)
  {
    hide Counted, RowsNumbered, RowsGrow;
    forall gen, attempt | Counted(s, gen, attempt) ensures Counted(r, gen, attempt) { CountedGrows(s, r, gen, attempt); }
    forall v | v in r.workers && r.workers[v].Holding? ensures TicketOf(r.workers[v]).value !in r.starts {
      assert !SameTicket(s.workers[v], s.workers[w]);
    }
  }

  lemma FetchKeepsRetry(s: State, w: string)
    requires RetryInv(s) && StageOf(s, w).Holding?
    ensures RetryInv(StepFetch(s, w))
  {
    hide StartsInv, TicketsInv, RowsNumbered, RowsGrow, Unfinished;
    var r := StepFetch(s, w);
    RowsSame(s, r);
    if StageOf(r, w).Running? {
      StartAdded(s, r, w, StageOf(s, w));
    } else {
      RetryFrame(s, r);
    }
  }

  lemma ClaimRows(s: State, w: string, at: int, lease: int, pick: Option<string>)
    requires RowsNumbered(s) && (pick.Some? ==> pick.value in s.jobs)
    ensures RowsNumbered(StepClaim(s, w, at, lease, pick)) && RowsGrow(s, StepClaim(s, w, at, lease, pick))
  {
    hide SweptJob;
    var r := StepClaim(s, w, at, lease, pick);
    forall id | id in s.jobs ensures id in r.jobs && s.jobs[id].attempts <= r.jobs[id].attempts {
      ClaimCounts(s, w, at, lease, pick, id);
    }
    assert r.jobs.Keys == s.jobs.Keys;
  }

  lemma ClaimKeepsRetry(s: State, w: string, at: int, lease: int, pick: Option<string>)
    requires RetryInv(s) && Enabled(s, Claim(w, at, lease, pick))
    ensures RetryInv(StepClaim(s, w, at, lease, pick))
  {
    hide StartsInv, TicketsInv, RowsGrow;
    var r := StepClaim(s, w, at, lease, pick);
    ClaimRows(s, w, at, lease, pick);
    if pick.None? {
      RetryFrame(s, r);
    } else {
      ClaimCounts(s, w, at, lease, pick, pick.value);
      NewTicket(s, r, w, pick.value);
    }
  }

  lemma NewTicket(s: State, r: State, w: string, id: string)
    requires RetryInv(s) && RowsGrow(s, r) && RowsNumbered(r) && r.starts == s.starts && r.maxAttempts == s.maxAttempts
    requires id in s.jobs && id in r.jobs && r.jobs[id].attempts == s.jobs[id].attempts + 1
    requires r.gens == s.gens && r.nextGen == s.nextGen
    requires r.workers == s.workers[w := Holding(id, r.jobs[id].attempts, s.gens[id])]
    ensures RetryInv(r)
  {
    hide RowsGrow;
    var gen, attempt := s.gens[id], r.jobs[id].attempts;
    forall g, a | Counted(s, g, a) ensures Counted(r, g, a) { CountedGrows(s, r, g, a); }
    assert !Counted(s, gen, attempt);
    assert Counted(r, gen, attempt);
  }

  lemma StepKeepsRetry(s: State, e: Event)
    requires RetryInv(s) && Enabled(s, e)
    ensures RetryInv(Apply(s, e))
  {
    hide StartsInv, TicketsInv, StepReserve, StepRelease, StepCommit, StepClaim, StepHeartbeat, StepComplete, StepFetch, RowsNumbered, RowsGrow, NonePending, Oldest;
    if e.Claim? {
      ClaimKeepsRetry(s, e.w, e.at, e.lease, e.pick);
    } else if e.Fetch? {
      FetchKeepsRetry(s, e.w);
    } else {
      RowsAfter(s, e);
      RetryFrame(s, Apply(s, e));
    }
  }

  lemma RowsAfter(s: State, e: Event)
    requires RowsNumbered(s) && Enabled(s, e) && !e.Claim? && !e.Fetch?
    ensures RowsNumbered(Apply(s, e)) && RowsGrow(s, Apply(s, e))
  {
    hide RowsNumbered, RowsGrow, StepCommit, StepHeartbeat, StepComplete;
    if e.Commit? {
      RowsAfterCommit(s, e.t, e.id);
    } else if e.Heartbeat? {
      RowsAfterHeartbeat(s, e.w, e.id, e.lease);
    } else if e.Complete? {
      RowsAfterComplete(s, e.w);
    } else {
      RowsSame(s, Apply(s, e));
    }
  }

  lemma RowsSame(s: State, r: State)
    requires RowsNumbered(s) && r.jobs == s.jobs && r.gens == s.gens && r.nextGen == s.nextGen
    ensures RowsNumbered(r) && RowsGrow(s, r)
  {
  }

  lemma RowAdded(s: State, r: State, id: string, job: Job)
    requires RowsNumbered(s) && id !in s.jobs && r.jobs == s.jobs[id := job]
    requires r.gens == s.gens[id := s.nextGen] && r.nextGen == s.nextGen + 1
    ensures RowsNumbered(r) && RowsGrow(s, r)
  {
    assert r.gens.Keys == s.gens.Keys + {id} && r.jobs.Keys == s.jobs.Keys + {id};
  }

  lemma RowsAfterCommit(s: State, t: nat, id: string)
    requires RowsNumbered(s) && t < |s.tokens|
    ensures RowsNumbered(StepCommit(s, t, id)) && RowsGrow(s, StepCommit(s, t, id))
  {
    hide RowsNumbered, RowsGrow;
    var r := StepCommit(s, t, id);
    if r.jobs == s.jobs { RowsSame(s, r); } else { RowAdded(s, r, id, r.jobs[id]); }
  }

  lemma RowsAfterHeartbeat(s: State, w: string, id: string, lease: int)
    requires RowsNumbered(s)
    ensures RowsNumbered(StepHeartbeat(s, w, id, lease)) && RowsGrow(s, StepHeartbeat(s, w, id, lease))
  {
  }

  lemma RowsAfterComplete(s: State, w: string)
    requires RowsNumbered(s) && StageOf(s, w).Completing?
    ensures RowsNumbered(StepComplete(s, w)) && RowsGrow(s, StepComplete(s, w))
  {
  }

  lemma {:induction false} RunKeepsRetry(s: State, events: seq<Event>)
    requires RetryInv(s) && After(s, events).Some?
    ensures RetryInv(After(s, events).value)
    decreases |events|
  {
    hide RetryInv, Apply, Enabled;
    if events != [] {
      var m := |events| - 1;
      RunKeepsRetry(s, events[..m]);
      StepKeepsRetry(After(s, events[..m]).value, events[m]);
    }
  }

  /** How often the process function was started for one row lifetime. */
  function StartsOf(starts: seq<Start>, gen: nat): (n: nat) {
    if starts == [] then 0
    else StartsOf(starts[..|starts| - 1], gen) + if starts[|starts| - 1].gen == gen then 1 else 0
  }

  ghost function AttemptsOf(starts: seq<Start>, gen: nat): (a: set<nat>) {
    set i | 0 <= i < |starts| && starts[i].gen == gen :: starts[i].attempt
  }

  lemma AttemptsSnoc(init: seq<Start>, last: Start, gen: nat)
    ensures AttemptsOf(init + [last], gen) == AttemptsOf(init, gen) + if last.gen == gen then {last.attempt} else {}
  {
    var starts, a, b := init + [last], AttemptsOf(init, gen), AttemptsOf(init + [last], gen);
    forall x | x in a ensures x in b {
      var i :| 0 <= i < |init| && init[i].gen == gen && init[i].attempt == x;
      assert starts[i] == init[i];
    }
    assert starts[|init|] == last;
  }

  lemma {:induction false} DistinctStarts(starts: seq<Start>, gen: nat)
    requires forall i, j :: 0 <= i < j < |starts| ==> starts[i] != starts[j]
    ensures StartsOf(starts, gen) == |AttemptsOf(starts, gen)|
  {
    if starts != [] {
      var m := |starts| - 1;
      var init, last := starts[..m], starts[m];
      DistinctStarts(init, gen);
      assert starts == init + [last];
      AttemptsSnoc(init, last, gen);
      assert last.gen == gen ==> last.attempt !in AttemptsOf(init, gen);
    }
  }

  lemma {:induction false} AtMost(a: set<nat>, max: nat)
    requires forall x :: x in a ==> 1 <= x <= max
    ensures |a| <= max
  {
    if max == 0 {
      assert a == {};
    } else {
      AtMost(a - {max}, max - 1);
      assert |a| <= |a - {max}| + 1;
    }
  }

  /** In every run, with every interleaving of workers, the process function is started at most
      `maxAttempts` times per row lifetime, each time with an attempt number of its own. */
  lemma BoundedRetries(s: State, gen: nat)
    requires Reachable(s)
    ensures StartsOf(s.starts, gen) <= s.maxAttempts
    ensures forall i :: 0 <= i < |s.starts| ==> 1 <= s.starts[i].attempt <= s.maxAttempts
    ensures forall i, j :: 0 <= i < j < |s.starts| ==> s.starts[i] != s.starts[j]
  {
    hide After;
    var maxAttempts, maxPending, now, subs, events :| After(Initial(maxAttempts, maxPending, now, subs), events) == Some(s);
    RunKeepsRetry(Initial(maxAttempts, maxPending, now, subs), events);
    DistinctStarts(s.starts, gen);
    AtMost(AttemptsOf(s.starts, gen), s.maxAttempts);
  }

  /** Only a claim that picks the row changes its attempt count, by one. */
  lemma OnlyClaimsCount(s: State, e: Event, id: string)
    requires Enabled(s, e) && id in s.jobs && id in Apply(s, e).jobs
    ensures Apply(s, e).jobs[id].attempts == s.jobs[id].attempts + if e.Claim? && e.pick == Some(id) then 1 else 0
  {
    hide StepReserve, StepCommit, StepRelease, StepClaim, StepHeartbeat, StepComplete, NonePending;
    if e.Commit? {
      CommitKeepsRows(s, e.t, e.id);
    } else if e.Claim? {
      ClaimCounts(s, e.w, e.at, e.lease, e.pick, id);
    } else if e.Heartbeat? {
      HeartbeatCounts(s, e.w, e.id, e.lease, id);
    } else if e.Complete? {
      CompleteCounts(s, e.w, id);
    }
  }

  lemma ClaimCounts(s: State, w: string, at: int, lease: int, pick: Option<string>, id: string)
    requires id in s.jobs && (pick.Some? ==> pick.value in s.jobs)
    ensures var r := StepClaim(s, w, at, lease, pick);
            id in r.jobs && r.jobs[id].attempts == s.jobs[id].attempts + if pick == Some(id) then 1 else 0
  {
  }

  lemma HeartbeatCounts(s: State, w: string, x: string, lease: int, id: string)
    requires id in s.jobs
    ensures id in StepHeartbeat(s, w, x, lease).jobs && StepHeartbeat(s, w, x, lease).jobs[id].attempts == s.jobs[id].attempts
  {
  }

  lemma CompleteCounts(s: State, w: string, id: string)
    requires StageOf(s, w).Completing? && id in s.jobs && id in StepComplete(s, w).jobs
    ensures StepComplete(s, w).jobs[id] == s.jobs[id]
  {
  }

  // ---- claims beyond the limit ----

  predicate OverLimit(s: State, g: Stage) {
    g.Holding? && g.attempt > s.maxAttempts
  }

  /** The worker's fetch is event `j` of the run and sees the submission unfinished. */
  ghost predicate SawUnfinished(s: State, events: seq<Event>, j: int, w: string, id: string) {
    0 <= j < |events| && events[j] == Fetch(w) && After(s, events[..j]).Some? && Unfinished(After(s, events[..j]).value, id)
  }

  /** The worker's fetch is event `j` of the run and sees the submission finished or missing. */
  ghost predicate SawFinished(s: State, events: seq<Event>, j: int, w: string, id: string) {
    0 <= j < |events| && events[j] == Fetch(w) && After(s, events[..j]).Some? && !Unfinished(After(s, events[..j]).value, id)
  }

  /** Event `i` is the worker's write of the failed status, and right after it the submission is failed. */
  ghost predicate MarkedFailed(s: State, events: seq<Event>, i: int, w: string, id: string) {
    && 0 <= i < |events| && events[i] == MarkFailed(w) && After(s, events[..i + 1]).Some?
    && id in After(s, events[..i + 1]).value.subs && After(s, events[..i + 1]).value.subs[id] == MemoryStore.Failed
  }

  /** Where the worker is with the over-limit claim `h`, and how it got there. */
  ghost predicate Handled(s: State, events: seq<Event>, w: string, h: Stage, g: Stage)
    requires h.Holding?
  {
    || g == h
    || (g == Failing(h.id, h.attempt, h.gen) && exists j :: SawUnfinished(s, events, j, w, h.id))
    || (&& g == Completing(h.id)
        && (|| (exists j :: SawFinished(s, events, j, w, h.id))
            || ((exists j :: SawUnfinished(s, events, j, w, h.id)) && exists i :: MarkedFailed(s, events, i, w, h.id))))
  }

  lemma HandledLonger(s: State, events: seq<Event>, e: Event, w: string, h: Stage, g: Stage)
    requires h.Holding? && Handled(s, events, w, h, g)
    ensures Handled(s, events + [e], w, h, g)
  {
    hide After, Unfinished;
    var longer := events + [e];
    assert forall j :: 0 <= j <= |events| ==> longer[..j] == events[..j];
    forall j | SawUnfinished(s, events, j, w, h.id) ensures SawUnfinished(s, longer, j, w, h.id) { }
    forall j | SawFinished(s, events, j, w, h.id) ensures SawFinished(s, longer, j, w, h.id) { }
    forall i | MarkedFailed(s, events, i, w, h.id) ensures MarkedFailed(s, longer, i, w, h.id) { }
  }

  /** A step of the worker's own claim loop. */
  predicate OwnStep(e: Event, w: string) {
    match e
    case Claim(v, _, _, _) => v == w
    case Fetch(v) => v == w
    case MarkFailed(v) => v == w
    case ProcessEnds(v) => v == w
    case Panic(v) => v == w
    case Complete(v) => v == w
    case _ => false
  }

  lemma OthersKeepStage(s: State, e: Event, w: string)
    requires Enabled(s, e) && !OwnStep(e, w)
    ensures StageOf(Apply(s, e), w) == StageOf(s, w)
  {
    hide StepReserve, StepCommit, StepRelease, StepClaim, StepHeartbeat, StepComplete, NonePending, Oldest, Unfinished;
  }

  /** One step while the worker handles the claim. */
  lemma OverLimitStep(s: State, e: Event, w: string, h: Stage)
    requires OverLimit(s, h) && Enabled(s, e) && e != Complete(w)
    requires StageOf(s, w) == h || StageOf(s, w) == Failing(h.id, h.attempt, h.gen) || StageOf(s, w) == Completing(h.id)
    ensures var r := Apply(s, e);
            || StageOf(r, w) == StageOf(s, w)
            || (e == Fetch(w) && StageOf(s, w) == h
                && StageOf(r, w) == if Unfinished(s, h.id) then Failing(h.id, h.attempt, h.gen) else Completing(h.id))
            || (e == MarkFailed(w) && StageOf(s, w).Failing? && StageOf(r, w) == Completing(h.id)
                && h.id in r.subs && r.subs[h.id] == MemoryStore.Failed)
  {
    hide StepReserve, StepCommit, StepRelease, StepClaim, StepHeartbeat, StepComplete, NonePending, Oldest, Unfinished;
    if !OwnStep(e, w) { OthersKeepStage(s, e, w); }
  }

  /** Over every continuation, whatever the others do, until the worker completes its row: it never
      runs the process function on a claim beyond the limit. It has not fetched yet, or it is about to
      mark the submission failed because its fetch saw it unfinished, or it is done: its fetch saw the
      submission finished, or it has written the failed status, right after which the submission was
      failed. */
  lemma {:induction false} OverLimitFails(s: State, events: seq<Event>, w: string)
    requires OverLimit(s, StageOf(s, w)) && After(s, events).Some? && Complete(w) !in events
    ensures Handled(s, events, w, StageOf(s, w), StageOf(After(s, events).value, w))
    ensures After(s, events).value.maxAttempts == s.maxAttempts
    decreases |events|
  {
    hide Apply, Enabled, Unfinished;
    var h := StageOf(s, w);
    if events != [] {
      var m := |events| - 1;
      var init, e := events[..m], events[m];
      assert events == init + [e] && e in events;
      assert forall x :: x in init ==> x in events;
      OverLimitFails(s, init, w);
      var mid := After(s, init).value;
      OverLimitStep(mid, e, w, h);
      LimitStep(mid, e);
      HandledLonger(s, init, e, w, h, StageOf(mid, w));
      assert events[..m + 1] == events;
      assert e == Fetch(w) && Unfinished(mid, h.id) ==> SawUnfinished(s, events, m, w, h.id);
      assert e == Fetch(w) && !Unfinished(mid, h.id) ==> SawFinished(s, events, m, w, h.id);
      assert e == MarkFailed(w) && h.id in After(s, events).value.subs && After(s, events).value.subs[h.id] == MemoryStore.Failed
        ==> MarkedFailed(s, events, m, w, h.id);
    }
  }

  /** The attempt number of a claim beyond the limit never enters the record of starts, in any run. */
  lemma OverLimitNeverStarts(s: State, events: seq<Event>, w: string)
    requires Reachable(s) && OverLimit(s, StageOf(s, w)) && After(s, events).Some?
    ensures Start(StageOf(s, w).gen, StageOf(s, w).attempt) !in After(s, events).value.starts
  {
    hide Apply, Enabled, After, Counted;
    ReachableRetry(s);
    RunKeepsRetry(s, events);
    LimitKept(s, events);
  }

  lemma ReachableRetry(s: State)
    requires Reachable(s)
    ensures RetryInv(s)
  {
    hide After, RetryInv;
    var maxAttempts, maxPending, now, subs, events :| After(Initial(maxAttempts, maxPending, now, subs), events) == Some(s);
    assert RetryInv(Initial(maxAttempts, maxPending, now, subs)) by { InitialRetry(maxAttempts, maxPending, now, subs); }
    RunKeepsRetry(Initial(maxAttempts, maxPending, now, subs), events);
  }

  lemma InitialRetry(maxAttempts: nat, maxPending: nat, now: int, subs: map<string, Status>)
    ensures RetryInv(Initial(maxAttempts, maxPending, now, subs))
  {
  }

  lemma {:induction false} LimitKept(s: State, events: seq<Event>)
    requires After(s, events).Some?
    ensures After(s, events).value.maxAttempts == s.maxAttempts
    decreases |events|
  {
    hide Apply, Enabled;
    if events != [] {
      var m := |events| - 1;
      LimitKept(s, events[..m]);
      LimitStep(After(s, events[..m]).value, events[m]);
    }
  }

  lemma LimitStep(s: State, e: Event)
    requires Enabled(s, e)
    ensures Apply(s, e).maxAttempts == s.maxAttempts
  {
    hide StepReserve, StepCommit, StepRelease, StepClaim, StepHeartbeat, StepComplete, NonePending, Oldest;
  }

  // ---- the failed status can overwrite a completed one ----

  ghost predicate IsCompleted(s: State, id: string) {
    id in s.subs && s.subs[id] == MemoryStore.Completed
  }

  /** Of the workers' own steps exactly the write of the failed status undoes a completion, whenever
      the worker about to make it holds that submission. */
  lemma OverwritesIff(s: State, e: Event, id: string)
    requires Enabled(s, e) && !e.SubmissionChanges? && IsCompleted(s, id)
    ensures !IsCompleted(Apply(s, e), id) <==> e.MarkFailed? && StageOf(s, e.w).id == id
  {
    hide StepReserve, StepCommit, StepRelease, StepClaim, StepHeartbeat, StepComplete, NonePending, Oldest;
  }

  /** What was unfinished and is now completed was completed by a change in between. */
  lemma {:induction false} CompletedBetween(s: State, events: seq<Event>, j: nat, i: nat, id: string) returns (k: nat)
    requires j <= i <= |events| && After(s, events[..j]).Some? && After(s, events[..i]).Some?
    requires Unfinished(After(s, events[..j]).value, id) && IsCompleted(After(s, events[..i]).value, id)
    ensures j <= k < i && events[k] == SubmissionChanges(id, Some(MemoryStore.Completed))
    decreases i
  {
    hide Apply, Enabled;
    var m := i - 1;
    assert j != i;
    assert events[..i] == events[..m] + [events[m]] && events[..i][..m] == events[..m];
    var mid := After(s, events[..m]).value;
    if IsCompleted(mid, id) {
      k := CompletedBetween(s, events, j, m, id);
    } else {
      CompletesOnly(mid, events[m], id);
      k := m;
    }
  }

  lemma CompletesOnly(s: State, e: Event, id: string)
    requires Enabled(s, e) && !IsCompleted(s, id) && IsCompleted(Apply(s, e), id)
    ensures e == SubmissionChanges(id, Some(MemoryStore.Completed))
  {
    hide StepReserve, StepCommit, StepRelease, StepClaim, StepHeartbeat, StepComplete, NonePending, Oldest;
  }

  /** A completion that arrives between the fetch and the write is lost: the run exists from every
      state with a claim beyond the limit on an unfinished submission. */
  lemma LateCompletionLost(s: State, w: string)
    requires OverLimit(s, StageOf(s, w)) && Unfinished(s, StageOf(s, w).id)
    ensures var id := StageOf(s, w).id;
            var events := [Fetch(w), SubmissionChanges(id, Some(MemoryStore.Completed)), MarkFailed(w)];
            && After(s, events[..2]).Some? && IsCompleted(After(s, events[..2]).value, id)
            && After(s, events).Some? && id in After(s, events).value.subs && After(s, events).value.subs[id] == MemoryStore.Failed
  {
    var id := StageOf(s, w).id;
    var change := SubmissionChanges(id, Some(MemoryStore.Completed));
    var events := [Fetch(w), change, MarkFailed(w)];
    assert events[..2] == [Fetch(w), change] && [Fetch(w), change][..1] == [Fetch(w)] && [Fetch(w)][..0] == [];
    var s1 := Apply(s, Fetch(w));
    assert After(s, []) == Some(s);
    assert After(s, [Fetch(w)]) == Some(s1);
    var s2 := Apply(s1, change);
    assert After(s, events[..2]) == Some(s2);
    assert After(s, events) == Some(Apply(s2, MarkFailed(w)));
  }

  // ---- admission ----

  function OpenTokens(tokens: seq<Token>): (n: nat) {
    if tokens == [] then 0
    else OpenTokens(tokens[..|tokens| - 1]) + if tokens[|tokens| - 1].state == Open then 1 else 0
  }

  lemma {:induction false} CloseOne(tokens: seq<Token>, t: nat, state: TokenState)
    requires t < |tokens| && tokens[t].state == Open && state != Open
    ensures OpenTokens(tokens[t := tokens[t].(state := state)]) == OpenTokens(tokens) - 1
    decreases |tokens|
  {
    var m := |tokens| - 1;
    var after := tokens[t := tokens[t].(state := state)];
    if t < m {
      CloseOne(tokens[..m], t, state);
      assert after[..m] == tokens[..m][t := tokens[t].(state := state)];
    } else {
      assert after[..m] == tokens[..m];
    }
  }

  function Load(s: State): (n: nat) {
    |s.jobs| + OpenTokens(s.tokens)
  }

  lemma SubsetSize(a: Jobs, b: Jobs)
    requires a.Keys <= b.Keys
    ensures |a| <= |b|
  {
    assert b.Keys == a.Keys + (b.Keys - a.Keys);
    assert |a| == |a.Keys| && |b| == |b.Keys|;
  }

  lemma CommitLoad(s: State, t: nat, id: string)
    requires t < |s.tokens|
    ensures Load(StepCommit(s, t, id)) <= Load(s)
  {
    var r := StepCommit(s, t, id);
    if r.tokens != s.tokens { CloseOne(s.tokens, t, r.tokens[t].state); }
    if r.jobs.Keys <= s.jobs.Keys { SubsetSize(r.jobs, s.jobs); }
  }

  /** One step raises the load only by an admission below the limit. */
  lemma LoadStep(s: State, e: Event)
    requires Enabled(s, e)
    ensures Load(Apply(s, e)) <= Load(s) || |Apply(s, e).jobs| < s.maxPending
    ensures Apply(s, e).maxPending == s.maxPending
  {
    hide StepCommit, DoClaim, Sweep;
    var r := Apply(s, e);
    if e.Commit? {
      CommitLoad(s, e.t, e.id);
      CommitKeepsLimit(s, e.t, e.id);
    } else if e.Release? {
      if s.tokens[e.t].state == Open { CloseOne(s.tokens, e.t, Released); }
    } else if e.Claim? {
      ClaimKeepsIds(s, e.w, e.at, e.lease, e.pick);
      SubsetSize(r.jobs, s.jobs);
    } else if e.Heartbeat? || e.Complete? {
      SubsetSize(r.jobs, s.jobs);
    }
  }

  lemma CommitKeepsLimit(s: State, t: nat, id: string)
    requires t < |s.tokens|
    ensures StepCommit(s, t, id).maxPending == s.maxPending
  {
  }

  lemma ClaimKeepsIds(s: State, w: string, at: int, lease: int, pick: Option<string>)
    requires pick.Some? ==> pick.value in s.jobs
    ensures StepClaim(s, w, at, lease, pick).jobs.Keys == s.jobs.Keys
  {
  }

  /** At most `k` tokens are outstanding in every state of the run. */
  ghost predicate AtMostOpen(s: State, events: seq<Event>, k: nat) {
    forall i :: 0 <= i <= |events| && After(s, events[..i]).Some? ==> OpenTokens(After(s, events[..i]).value.tokens) <= k
  }

  lemma AtMostOpenSnoc(s: State, events: seq<Event>, e: Event, k: nat)
    ensures AtMostOpen(s, events + [e], k) <==>
            AtMostOpen(s, events, k) && (After(s, events + [e]).Some? ==> OpenTokens(After(s, events + [e]).value.tokens) <= k)
  {
    hide After, OpenTokens;
    var longer := events + [e];
    assert longer[..|longer|] == longer;
    assert forall i :: 0 <= i <= |events| ==> longer[..i] == events[..i];
  }

  /** If at most `k` tokens are outstanding in every state of a run, rows and outstanding tokens
      together never exceed the limit by more than `k - 1`. */
  lemma {:induction false} OvershootBounded(s: State, events: seq<Event>, k: nat)
    requires s.jobs == map[] && s.tokens == [] && s.maxPending > 0 && k > 0 && After(s, events).Some?
    requires AtMostOpen(s, events, k)
    ensures Load(After(s, events).value) <= s.maxPending - 1 + k
    ensures After(s, events).value.maxPending == s.maxPending
    decreases |events|
  {
    hide Apply, Enabled, AtMostOpen;
    if events != [] {
      var m := |events| - 1;
      assert events == events[..m] + [events[m]];
      AtMostOpenSnoc(s, events[..m], events[m], k);
      OvershootBounded(s, events[..m], k);
      LoadStep(After(s, events[..m]).value, events[m]);
    }
  }

  /** Admissions one at a time respect the limit exactly. */
  lemma SequentialAdmission(s: State, events: seq<Event>)
    requires s.jobs == map[] && s.tokens == [] && s.maxPending > 0 && After(s, events).Some? && AtMostOpen(s, events, 1)
    ensures |After(s, events).value.jobs| <= s.maxPending
  {
    hide After, AtMostOpen;
    OvershootBounded(s, events, 1);
  }

  // ---- the bound is reached ----

  function LongId(n: nat): (id: string)
    ensures |id| == n + 1
  {
    seq(n + 1, i => 'a')
  }

  /** A state in which `n` jobs were admitted one after the other. */
  ghost predicate Filled(s: State, r: State, n: nat) {
    && |r.jobs| == n && |r.tokens| == n && OpenTokens(r.tokens) == 0 && r.closed == {} && r.maxPending == s.maxPending
    && (forall id :: id in r.jobs ==> |id| <= n)
  }

  lemma AfterSnoc(s: State, events: seq<Event>, e: Event)
    requires After(s, events).Some? && Enabled(After(s, events).value, e)
    ensures After(s, events + [e]) == Some(Apply(After(s, events).value, e))
  {
    hide Apply, Enabled;
    assert (events + [e])[..|events|] == events;
  }

  lemma OpenSnoc(tokens: seq<Token>, t: Token)
    ensures OpenTokens(tokens + [t]) == OpenTokens(tokens) + if t.state == Open then 1 else 0
  {
    assert (tokens + [t])[..|tokens|] == tokens;
  }

  lemma ReserveOne(s: State, r: State, n: nat)
    requires Filled(s, r, n) && n < s.maxPending
    ensures StepReserve(r, 0) == r.(tokens := r.tokens + [Token(0, Open)]) && OpenTokens(StepReserve(r, 0).tokens) == 1
  {
    hide OpenTokens;
    OpenSnoc(r.tokens, Token(0, Open));
  }

  lemma CommitOne(s: State, r: State, n: nat)
    requires Filled(s, r, n)
    ensures Filled(s, StepCommit(r.(tokens := r.tokens + [Token(0, Open)]), n, LongId(n)), n + 1)
  {
    hide OpenTokens, LongId;
    var r1, id := r.(tokens := r.tokens + [Token(0, Open)]), LongId(n);
    OpenSnoc(r.tokens, Token(0, Open));
    CloseOne(r1.tokens, n, Committed);
    var r2 := StepCommit(r1, n, id);
    assert r2.jobs == r.jobs[id := Job(Pending, r.now, "", ZERO_TIME, 0)];
    NewRow(r.jobs, id, r2.jobs[id]);
  }

  lemma NewRow(jobs: Jobs, id: string, job: Job)
    requires id !in jobs
    ensures |jobs[id := job]| == |jobs| + 1
  {
    var more := jobs[id := job];
    assert more.Keys == jobs.Keys + {id};
    assert |more| == |more.Keys| && |jobs| == |jobs.Keys|;
  }

  lemma AdmitOne(s: State, r: State, n: nat)
    requires Filled(s, r, n) && n < s.maxPending
    ensures var r1 := Apply(r, Reserve(0));
            && OpenTokens(r1.tokens) == 1
            && Enabled(r1, Commit(n, LongId(n))) && Filled(s, Apply(r1, Commit(n, LongId(n))), n + 1)
  {
    hide Filled, StepReserve, StepCommit, OpenTokens, LongId;
    ReserveOne(s, r, n);
    CommitOne(s, r, n);
    assert |r.tokens| == n by { FilledTokens(s, r, n); }
  }

  lemma FilledTokens(s: State, r: State, n: nat)
    requires Filled(s, r, n)
    ensures |r.tokens| == n
  {
  }

  lemma {:induction false} Fill(s: State, n: nat) returns (events: seq<Event>)
    requires s.jobs == map[] && s.tokens == [] && s.closed == {} && n <= s.maxPending
    ensures After(s, events).Some? && Filled(s, After(s, events).value, n) && AtMostOpen(s, events, 1)
  {
    hide Apply, Enabled, AtMostOpen;
    if n == 0 {
      events := [];
      assert AtMostOpen(s, [], 1) by { NothingOpen(s); }
    } else {
      var front := Fill(s, n - 1);
      var r := After(s, front).value;
      var reserve, commit := Event.Reserve(0), Event.Commit(n - 1, LongId(n - 1));
      AdmitOne(s, r, n - 1);
      assert Enabled(r, reserve) by { ReserveEnabled(r); }
      AfterSnoc(s, front, reserve);
      AtMostOpenSnoc(s, front, reserve, 1);
      AfterSnoc(s, front + [reserve], commit);
      AtMostOpenSnoc(s, front + [reserve], commit, 1);
      events := front + [reserve] + [commit];
    }
  }

  lemma ReserveEnabled(r: State)
    ensures Enabled(r, Event.Reserve(0))
  {
  }

  lemma NothingOpen(s: State)
    requires s.tokens == []
    ensures AtMostOpen(s, [], 1)
  {
  }

  lemma {:induction false} ReserveMore(s: State, front: seq<Event>, k: nat) returns (events: seq<Event>)
    requires After(s, front).Some? && AtMostOpen(s, front, 1) && s.maxPending > 0
    requires Filled(s, After(s, front).value, s.maxPending - 1)
    ensures After(s, events).Some? && AtMostOpen(s, events, if k == 0 then 1 else k)
    ensures var r, f := After(s, events).value, After(s, front).value;
            r.jobs == f.jobs && r.closed == f.closed && r.maxPending == f.maxPending && OpenTokens(r.tokens) == k
  {
    hide Enabled, AtMostOpen, After;
    if k == 0 {
      events := front;
    } else {
      var before := ReserveMore(s, front, k - 1);
      var r, reserve := After(s, before).value, Event.Reserve(0);
      ReserveEnabled(r);
      AfterSnoc(s, before, reserve);
      OpenSnoc(r.tokens, Token(0, Open));
      Widen(s, before, if k == 1 then 1 else k - 1, k);
      AtMostOpenSnoc(s, before, reserve, k);
      events := before + [reserve];
    }
  }

  lemma Widen(s: State, events: seq<Event>, k: nat, l: nat)
    requires AtMostOpen(s, events, k) && k <= l
    ensures AtMostOpen(s, events, l)
  {
  }

  /** For every limit and every `k` some run with at most `k` outstanding tokens attains the bound. */
  lemma OvershootReached(s: State, k: nat) returns (events: seq<Event>)
    requires s.jobs == map[] && s.tokens == [] && s.closed == {} && s.maxPending > 0 && k > 0
    ensures After(s, events).Some? && AtMostOpen(s, events, k)
    ensures Load(After(s, events).value) == s.maxPending - 1 + k
  {
    hide After, AtMostOpen, OpenTokens;
    var front := Fill(s, s.maxPending - 1);
    events := ReserveMore(s, front, k);
  }
}
