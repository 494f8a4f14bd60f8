/** The gateway in local mode with the memory store, as a step machine. Its steps are the atomic
    actions of the create, resume and adjudicate handlers (internal/server/server.go), of the pool
    (internal/workers/dispatcher.go) and of `Process` (internal/scintx/orchestrator.go); any
    interleaving of steps is a run. */
module Gateway {
  import opened Seqs
  import opened MemoryStore
  import Policy
  import P = LocalPool

  /** A request handler between two of its actions. */
  datatype Agent =
    | CreateArrived(key: string, hash: string, hasPolicy: bool, eligible: bool)
    | CreateReserved(key: string, hash: string, hasPolicy: bool, eligible: bool, token: nat)
    | CreateStored(key: string, token: nat, id: string)
    | CreateAbandoning(key: string, token: nat, id: string)
    | CreateReleasing(token: nat)
    | ResumeArrived(id: string)
    | ResumeClaimed(id: string)
    | ResumeReserved(id: string, token: nat)
    | ResumeUndoing(id: string)
    | AdjArrived(id: string, value: Policy.Decision)
    | AdjLoaded(sub: Submission, value: Policy.Decision)
    | AdjPrior(sub: Submission, value: Policy.Decision, prior: StoredDecision)
    | AdjStored(sub: Submission)
    | Finished

  /** A `Process` call between two of its store accesses. `Writing` holds the final version of the
      submission before the final status write. */
  datatype Stage =
    | Start
    | Marking(sub: Submission)
    | Working(sub: Submission, ids: seq<string>)
    | Saving(sub: Submission)
    | Deciding(sub: Submission)
    | Writing(sub: Submission)
    | Ended

  datatype Run = Run(id: string, stage: Stage)

  /** What happened to idempotency keys, in store order. */
  datatype KeyEvent =
    | KeyCreated(key: string, id: string, hash: string)
    | KeyReplayed(key: string, id: string, hash: string)
    | KeyConflict(key: string, hash: string)
    | KeyAbandoned(key: string, id: string)

  /** `used` holds every id handed out so far, `accepted` every submission answered with 202 by a
      create request, `log` the history of keys. */
  datatype State = State(
    pool: P.Pool, store: Store, agents: seq<Agent>, runs: map<nat, Run>,
    used: set<string>, accepted: set<string>, log: seq<KeyEvent>)

  function Initial(max: nat, workers: nat): (g: State) {
    State(P.Fresh(max, workers), EMPTY, [], map[], {}, {}, [])
  }

  datatype Event =
    | Arrive(agent: Agent)
    | CreateReserve(n: nat, contextDone: bool)
    | CreatePut(n: nat, id: string)
    | CreateCommit(n: nat)
    | CreateAbandon(n: nat)
    | CreateRelease(n: nat)
    | ResumeClaim(n: nat)
    | ResumeReserve(n: nat, contextDone: bool)
    | ResumeCommit(n: nat)
    | ResumeUndo(n: nat)
    | AdjLoad(n: nat)
    | AdjFetch(n: nat)
    | AdjPut(n: nat, id: string, extra: map<string, string>)
    | AdjWrite(n: nat)
    | Close
    | Receive(w: nat)
    | Finish(w: nat)
    | RunStart(w: nat, cancelled: bool)
    | RunMark(w: nat)
    | RunFail(w: nat)
    | RunIneligible(w: nat)
    | RunInterrupt(w: nat)
    | RunResult(w: nat, id: string)
    | RunReload(w: nat)
    | RunSave(w: nat)
    | RunDecide(w: nat, id: string, value: Policy.Decision)
    | RunWrite(w: nat)

  predicate FreshId(g: State, id: string) {
    id != "" && id !in g.used
  }

  /** A step of `Process`. */
  predicate IsRunEvent(e: Event) {
    || e.RunStart? || e.RunMark? || e.RunFail? || e.RunIneligible? || e.RunInterrupt? || e.RunResult?
    || e.RunReload? || e.RunSave? || e.RunDecide? || e.RunWrite?
  }

  predicate Enabled(g: State, e: Event) {
    if IsRunEvent(e) then RunEnabled(g, e) else HandlerEnabled(g, e)
  }

  /** Steps of handlers and of the pool. */
  predicate HandlerEnabled(g: State, e: Event)
    requires !IsRunEvent(e)
  {
    match e
    case Arrive(a) => a.CreateArrived? || a.ResumeArrived? || a.AdjArrived?
    case CreateReserve(n, _) => n < |g.agents| && g.agents[n].CreateArrived?
    case CreatePut(n, id) => n < |g.agents| && g.agents[n].CreateReserved? && FreshId(g, id)
    case CreateCommit(n) =>
      n < |g.agents| && g.agents[n].CreateStored? && P.Enabled(g.pool, P.Commit(g.agents[n].token, g.agents[n].id))
    case CreateAbandon(n) => n < |g.agents| && g.agents[n].CreateAbandoning?
    case CreateRelease(n) => n < |g.agents| && g.agents[n].CreateReleasing? && g.agents[n].token < |g.pool.tokens|
    case ResumeClaim(n) => n < |g.agents| && g.agents[n].ResumeArrived?
    case ResumeReserve(n, _) => n < |g.agents| && g.agents[n].ResumeClaimed?
    case ResumeCommit(n) =>
      n < |g.agents| && g.agents[n].ResumeReserved? && P.Enabled(g.pool, P.Commit(g.agents[n].token, g.agents[n].id))
    case ResumeUndo(n) => n < |g.agents| && g.agents[n].ResumeUndoing?
    case AdjLoad(n) => n < |g.agents| && g.agents[n].AdjArrived?
    case AdjFetch(n) => n < |g.agents| && g.agents[n].AdjLoaded?
    case AdjPut(n, id, _) => n < |g.agents| && g.agents[n].AdjPrior? && FreshId(g, id)
    case AdjWrite(n) => n < |g.agents| && g.agents[n].AdjStored?
    case Close => true
    case Receive(w) => P.Enabled(g.pool, P.Receive(w))
    case Finish(w) => w in g.runs && g.runs[w].stage.Ended? && P.Enabled(g.pool, P.Finish(w))
  }

  predicate RunEnabled(g: State, e: Event)
    requires IsRunEvent(e)
  {
    match e
    case RunStart(w, _) => w in g.runs && g.runs[w].stage.Start?
    case RunMark(w) => w in g.runs && g.runs[w].stage.Marking?
    case RunFail(w) => w in g.runs && ((g.runs[w].stage.Working? && g.runs[w].stage.ids == []) || g.runs[w].stage.Deciding?)
    case RunIneligible(w) => w in g.runs && g.runs[w].stage.Working? && g.runs[w].stage.ids == [] && !g.runs[w].stage.sub.eligible
    case RunInterrupt(w) => w in g.runs && g.runs[w].stage.Working?
    case RunResult(w, id) => w in g.runs && g.runs[w].stage.Working? && g.runs[w].stage.sub.eligible && FreshId(g, id)
    case RunReload(w) => w in g.runs && g.runs[w].stage.Working? && g.runs[w].stage.sub.eligible
    case RunSave(w) => w in g.runs && g.runs[w].stage.Saving?
    case RunDecide(w, id, _) => w in g.runs && g.runs[w].stage.Deciding? && FreshId(g, id)
    case RunWrite(w) => w in g.runs && g.runs[w].stage.Writing?
  }

  // ---- create ----

  function SetAgent(g: State, n: nat, a: Agent): (r: State)
    requires n < |g.agents|
  {
    g.(agents := g.agents[n := a])
  }

  function StepCreateReserve(g: State, n: nat, contextDone: bool): (r: State)
    requires n < |g.agents| && g.agents[n].CreateArrived?
    ensures r == g.(agents := r.agents, pool := r.pool)
  {
    var a, (pool, outcome) := g.agents[n], P.DoReserve(g.pool);
    if contextDone || outcome != P.Ok then SetAgent(g, n, Finished)
    else SetAgent(g, n, CreateReserved(a.key, a.hash, a.hasPolicy, a.eligible, |g.pool.tokens|)).(pool := pool)
  }

  function Logged(g: State, key: string, e: KeyEvent): (log: seq<KeyEvent>) {
    if key == "" then g.log else g.log + [e]
  }

  function StepCreatePut(g: State, n: nat, id: string): (r: State)
    requires n < |g.agents| && g.agents[n].CreateReserved?
    ensures r == g.(agents := r.agents, store := r.store, used := r.used, accepted := r.accepted, log := r.log)
    ensures r.store.decisions == g.store.decisions && r.store.results == g.store.results
  {
    var a := g.agents[n];
    var sub := Submission(id, a.hasPolicy, a.eligible, Accepted, None, [], None);
    var (store, answer) := DoPutIdempotent(g.store, a.key, a.hash, sub);
    var g1 := g.(store := store, used := g.used + {id});
    match answer
    case Created(_) =>
      SetAgent(g1, n, CreateStored(a.key, a.token, id)).(log := Logged(g, a.key, KeyCreated(a.key, id, a.hash)))
    case Replayed(s) =>
      SetAgent(g1, n, CreateReleasing(a.token)).(
      accepted := g.accepted + {s.id}, log := Logged(g, a.key, KeyReplayed(a.key, s.id, a.hash)))
    case Conflict =>
      SetAgent(g1, n, CreateReleasing(a.token)).(log := Logged(g, a.key, KeyConflict(a.key, a.hash)))
  }

  function StepCreateCommit(g: State, n: nat): (r: State)
    requires n < |g.agents| && g.agents[n].CreateStored? && P.Enabled(g.pool, P.Commit(g.agents[n].token, g.agents[n].id))
    ensures r == g.(agents := r.agents, pool := r.pool, accepted := r.accepted)
  {
    var a := g.agents[n];
    var (pool, outcome) := P.DoCommit(g.pool, a.token, a.id);
    if outcome == P.Ok then SetAgent(g, n, Finished).(pool := pool, accepted := g.accepted + {a.id})
    else SetAgent(g, n, CreateAbandoning(a.key, a.token, a.id)).(pool := pool)
  }

  function StepCreateAbandon(g: State, n: nat): (r: State)
    requires n < |g.agents| && g.agents[n].CreateAbandoning?
    ensures r == g.(agents := r.agents, store := r.store, log := r.log)
    ensures r.store.decisions == g.store.decisions && r.store.results == g.store.results
  {
    var a := g.agents[n];
    var (store, dropped) := DoAbandon(g.store, a.id, a.key);
    SetAgent(g, n, CreateReleasing(a.token)).(
    store := store, log := if dropped then Logged(g, a.key, KeyAbandoned(a.key, a.id)) else g.log)
  }

  function StepCreateRelease(g: State, n: nat): (r: State)
    requires n < |g.agents| && g.agents[n].CreateReleasing? && g.agents[n].token < |g.pool.tokens|
    ensures r == g.(agents := r.agents, pool := r.pool)
  {
    SetAgent(g, n, Finished).(pool := P.DoRelease(g.pool, g.agents[n].token))
  }

  // ---- resume ----

  function StepResumeClaim(g: State, n: nat): (r: State)
    requires n < |g.agents| && g.agents[n].ResumeArrived?
    ensures r == g.(agents := r.agents, store := r.store)
    ensures r.store == g.store.(submissions := r.store.submissions) && g.store.submissions.Keys <= r.store.submissions.Keys
  {
    var id := g.agents[n].id;
    var (store, claimed) := DoClaimResume(g.store, id);
    SetAgent(g, n, if claimed then ResumeClaimed(id) else Finished).(store := store)
  }

  function StepResumeReserve(g: State, n: nat, contextDone: bool): (r: State)
    requires n < |g.agents| && g.agents[n].ResumeClaimed?
    ensures r == g.(agents := r.agents, pool := r.pool)
  {
    var id, (pool, outcome) := g.agents[n].id, P.DoReserve(g.pool);
    if contextDone || outcome != P.Ok then SetAgent(g, n, ResumeUndoing(id))
    else SetAgent(g, n, ResumeReserved(id, |g.pool.tokens|)).(pool := pool)
  }

  /** A failed commit has already released the token, so `Submit`'s own release changes nothing. */
  function StepResumeCommit(g: State, n: nat): (r: State)
    requires n < |g.agents| && g.agents[n].ResumeReserved? && P.Enabled(g.pool, P.Commit(g.agents[n].token, g.agents[n].id))
    ensures r == g.(agents := r.agents, pool := r.pool)
  {
    var a := g.agents[n];
    var (pool, outcome) := P.DoCommit(g.pool, a.token, a.id);
    SetAgent(g, n, if outcome == P.Ok then Finished else ResumeUndoing(a.id)).(pool := pool)
  }

  function StepResumeUndo(g: State, n: nat): (r: State)
    requires n < |g.agents| && g.agents[n].ResumeUndoing?
    ensures r == g.(agents := r.agents, store := r.store)
    ensures r.store == g.store.(submissions := r.store.submissions) && g.store.submissions.Keys <= r.store.submissions.Keys
  {
    SetAgent(g, n, Finished).(store := DoReleaseResume(g.store, g.agents[n].id))
  }

  // ---- adjudicate ----

  function StepAdjLoad(g: State, n: nat): (r: State)
    requires n < |g.agents| && g.agents[n].AdjArrived?
    ensures r == g.(agents := r.agents)
  {
    var a := g.agents[n];
    if (a.value != Policy.Allow && a.value != Policy.Deny) || a.id !in g.store.submissions then SetAgent(g, n, Finished)
    else
      var sub := g.store.submissions[a.id];
      if sub.status != Completed || sub.decisionId.None? || sub.decisionId.value == "" then SetAgent(g, n, Finished)
      else SetAgent(g, n, AdjLoaded(sub, a.value))
  }

  function StepAdjFetch(g: State, n: nat): (r: State)
    requires n < |g.agents| && g.agents[n].AdjLoaded?
    ensures r == g.(agents := r.agents)
  {
    var a := g.agents[n];
    if a.sub.decisionId.Some? && a.sub.decisionId.value in g.store.decisions
    then SetAgent(g, n, AdjPrior(a.sub, a.value, g.store.decisions[a.sub.decisionId.value]))
    else SetAgent(g, n, Finished)
  }

  function DecisionName(d: Policy.Decision): (s: string) {
    match d
    case Allow => "allow"
    case Defer => "defer"
    case Review => "review"
    case Deny => "deny"
  }

  /** The extensions of a consumer decision: what the request supplies never replaces the links to
      the prior decision. */
  function ConsumerExt(prior: StoredDecision, extra: map<string, string>): (ext: map<string, string>) {
    extra + map["origin" := "consumer", "prior_decision_id" := prior.id, "prior_decision" := DecisionName(prior.value)]
  }

  function StepAdjPut(g: State, n: nat, id: string, extra: map<string, string>): (r: State)
    requires n < |g.agents| && g.agents[n].AdjPrior?
    ensures r == g.(agents := r.agents, store := g.store.(decisions := r.store.decisions), used := r.used)
  {
    var a := g.agents[n];
    var d := StoredDecision(id, a.sub.id, a.value, ConsumerExt(a.prior, extra));
    SetAgent(g, n, AdjStored(a.sub.(decisionId := Some(id)))).(
    store := DoPutDecision(g.store, d), used := g.used + {id})
  }

  function StepAdjWrite(g: State, n: nat): (r: State)
    requires n < |g.agents| && g.agents[n].AdjStored?
    ensures r == g.(agents := r.agents, store := r.store)
    ensures r.store == g.store.(submissions := r.store.submissions) && g.store.submissions.Keys <= r.store.submissions.Keys
  {
    SetAgent(g, n, Finished).(store := DoPut(g.store, g.agents[n].sub))
  }

  // ---- workers and Process ----

  function SetStage(g: State, w: nat, s: Stage): (r: State)
    requires w in g.runs
  {
    g.(runs := g.runs[w := g.runs[w].(stage := s)])
  }

  function StepReceive(g: State, w: nat): (r: State)
    requires P.Enabled(g.pool, P.Receive(w))
    ensures r == g.(pool := r.pool, runs := r.runs)
  {
    g.(pool := P.DoReceive(g.pool, w), runs := g.runs[w := Run(g.pool.commitLog[g.pool.started], Start)])
  }

  function StepFinish(g: State, w: nat): (r: State)
    requires P.Enabled(g.pool, P.Finish(w))
    ensures r == g.(pool := r.pool, runs := r.runs)
  {
    g.(pool := P.DoFinish(g.pool, w), runs := g.runs - {w})
  }

  /** `failInterrupted` up to its write: it re-reads the submission and leaves one alone that
      already has a final or deferred status. */
  function InterruptedStage(st: Store, id: string): (s: Stage) {
    if id !in st.submissions || st.submissions[id].status in {Completed, Failed, Deferred} then Ended
    else Writing(st.submissions[id].(status := Failed, completion := Some(Interrupted)))
  }

  function StepRunStart(g: State, w: nat, cancelled: bool): (r: State)
    requires w in g.runs
    ensures r == g.(runs := r.runs)
    ensures w in r.runs && r.runs == g.runs[w := g.runs[w].(stage := r.runs[w].stage)]
  {
    var id := g.runs[w].id;
    if cancelled then SetStage(g, w, InterruptedStage(g.store, id))
    else if id !in g.store.submissions then SetStage(g, w, Ended)
    else SetStage(g, w, Marking(g.store.submissions[id].(status := Running)))
  }

  function StepRunMark(g: State, w: nat): (r: State)
    requires w in g.runs && g.runs[w].stage.Marking?
    ensures r == g.(runs := r.runs, store := r.store)
    ensures w in r.runs && r.runs == g.runs[w := g.runs[w].(stage := r.runs[w].stage)]
    ensures r.store == g.store.(submissions := r.store.submissions) && g.store.submissions.Keys <= r.store.submissions.Keys
  {
    var sub := g.runs[w].stage.sub;
    SetStage(g, w, Working(sub, [])).(store := DoPut(g.store, sub))
  }

  /** The artifact's bytes cannot be loaded, or policy evaluation reports an error. */
  function StepRunFail(g: State, w: nat): (r: State)
    requires w in g.runs && (g.runs[w].stage.Working? || g.runs[w].stage.Deciding?)
    ensures r == g.(runs := r.runs)
    ensures w in r.runs && r.runs == g.runs[w := g.runs[w].(stage := r.runs[w].stage)]
  {
    SetStage(g, w, Writing(g.runs[w].stage.sub.(status := Failed, completion := Some(RunFailed))))
  }

  function StepRunIneligible(g: State, w: nat): (r: State)
    requires w in g.runs && g.runs[w].stage.Working?
    ensures r == g.(runs := r.runs)
    ensures w in r.runs && r.runs == g.runs[w := g.runs[w].(stage := r.runs[w].stage)]
  {
    SetStage(g, w, Writing(g.runs[w].stage.sub.(status := Completed, completion := Some(AllIneligible))))
  }

  function StepRunInterrupt(g: State, w: nat): (r: State)
    requires w in g.runs
    ensures r == g.(runs := r.runs)
    ensures w in r.runs && r.runs == g.runs[w := g.runs[w].(stage := r.runs[w].stage)]
  {
    SetStage(g, w, InterruptedStage(g.store, g.runs[w].id))
  }

  function StepRunResult(g: State, w: nat, id: string): (r: State)
    requires w in g.runs && g.runs[w].stage.Working?
    ensures r == g.(runs := r.runs, store := g.store.(results := r.store.results), used := r.used)
    ensures w in r.runs && r.runs == g.runs[w := g.runs[w].(stage := r.runs[w].stage)]
  {
    var s := g.runs[w].stage;
    SetStage(g, w, Working(s.sub, s.ids + [id])).(store := DoPutResult(g.store, id, s.sub.id), used := g.used + {id})
  }

  function StepRunReload(g: State, w: nat): (r: State)
    requires w in g.runs && g.runs[w].stage.Working?
    ensures r == g.(runs := r.runs)
    ensures w in r.runs && r.runs == g.runs[w := g.runs[w].(stage := r.runs[w].stage)]
  {
    var id := g.runs[w].id;
    if id !in g.store.submissions then SetStage(g, w, Ended)
    else SetStage(g, w, Saving(g.store.submissions[id].(resultIds := g.runs[w].stage.ids)))
  }

  function StepRunSave(g: State, w: nat): (r: State)
    requires w in g.runs && g.runs[w].stage.Saving?
    ensures r == g.(runs := r.runs, store := r.store)
    ensures w in r.runs && r.runs == g.runs[w := g.runs[w].(stage := r.runs[w].stage)]
    ensures r.store == g.store.(submissions := r.store.submissions) && g.store.submissions.Keys <= r.store.submissions.Keys
  {
    var sub := g.runs[w].stage.sub;
    SetStage(g, w, if sub.hasPolicy then Deciding(sub) else Writing(sub.(status := Completed, completion := Some(FindingsOnly)))).(
    store := DoPut(g.store, sub))
  }

  /** Evaluation succeeds with `value` and its decision is stored; the submission write follows. */
  function StepRunDecide(g: State, w: nat, id: string, value: Policy.Decision): (r: State)
    requires w in g.runs && g.runs[w].stage.Deciding?
    ensures r == g.(runs := r.runs, store := g.store.(decisions := r.store.decisions), used := r.used)
    ensures w in r.runs && r.runs == g.runs[w := g.runs[w].(stage := r.runs[w].stage)]
  {
    var sub := g.runs[w].stage.sub.(decisionId := Some(id));
    var final := if value == Policy.Defer then sub.(status := Deferred, completion := Some(Postponed))
                 else sub.(status := Completed, completion := Some(DecisionProduced));
    SetStage(g, w, Writing(final)).(
    store := DoPutDecision(g.store, StoredDecision(id, sub.id, value, map[])), used := g.used + {id})
  }

  function StepRunWrite(g: State, w: nat): (r: State)
    requires w in g.runs && g.runs[w].stage.Writing?
    ensures r == g.(runs := r.runs, store := r.store)
    ensures w in r.runs && r.runs == g.runs[w := g.runs[w].(stage := r.runs[w].stage)]
    ensures r.store == g.store.(submissions := r.store.submissions) && g.store.submissions.Keys <= r.store.submissions.Keys
  {
    SetStage(g, w, Ended).(store := DoPut(g.store, g.runs[w].stage.sub))
  }

  function Apply(g: State, e: Event): (r: State)
    requires Enabled(g, e)
  {
    if IsRunEvent(e) then ApplyRun(g, e) else ApplyHandler(g, e)
  }

  function ApplyHandler(g: State, e: Event): (r: State)
    requires !IsRunEvent(e) && HandlerEnabled(g, e)
  {
    match e
    case Arrive(a) => g.(agents := g.agents + [a])
    case CreateReserve(n, done) => StepCreateReserve(g, n, done)
    case CreatePut(n, id) => StepCreatePut(g, n, id)
    case CreateCommit(n) => StepCreateCommit(g, n)
    case CreateAbandon(n) => StepCreateAbandon(g, n)
    case CreateRelease(n) => StepCreateRelease(g, n)
    case ResumeClaim(n) => StepResumeClaim(g, n)
    case ResumeReserve(n, done) => StepResumeReserve(g, n, done)
    case ResumeCommit(n) => StepResumeCommit(g, n)
    case ResumeUndo(n) => StepResumeUndo(g, n)
    case AdjLoad(n) => StepAdjLoad(g, n)
    case AdjFetch(n) => StepAdjFetch(g, n)
    case AdjPut(n, id, extra) => StepAdjPut(g, n, id, extra)
    case AdjWrite(n) => StepAdjWrite(g, n)
    case Close => g.(pool := P.DoClose(g.pool))
    case Receive(w) => StepReceive(g, w)
    case Finish(w) => StepFinish(g, w)
  }

  function ApplyRun(g: State, e: Event): (r: State)
    requires IsRunEvent(e) && RunEnabled(g, e)
  {
    match e
    case RunStart(w, cancelled) => StepRunStart(g, w, cancelled)
    case RunMark(w) => StepRunMark(g, w)
    case RunFail(w) => StepRunFail(g, w)
    case RunIneligible(w) => StepRunIneligible(g, w)
    case RunInterrupt(w) => StepRunInterrupt(g, w)
    case RunResult(w, id) => StepRunResult(g, w, id)
    case RunReload(w) => StepRunReload(g, w)
    case RunSave(w) => StepRunSave(g, w)
    case RunDecide(w, id, value) => StepRunDecide(g, w, id, value)
    case RunWrite(w) => StepRunWrite(g, w)
  }

  /** The state after a run from `g`, or `None` when some event was not enabled. */
  function After(g: State, events: seq<Event>): (r: Option<State>) {
    if events == [] then Some(g)
    else
      var h, e := After(g, events[..|events| - 1]), events[|events| - 1];
      if h.Some? && Enabled(h.value, e) then Some(Apply(h.value, e)) else None
  }
}
