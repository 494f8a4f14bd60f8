/** Decisions over whole runs: stored decisions are never overwritten, completed submissions point
    to a decision exactly when they should, prior links lead back to a machine decision, and what
    policy sees includes every result the submission lists. */
module GatewayDecisions {
  import opened Seqs
  import opened MemoryStore
  import opened Gateway
  import opened GatewayTokens
  import opened GatewayOwners
  import Policy
  import P = LocalPool

  type Decisions = map<string, StoredDecision>

  /** The decision a consumer decision resolves; `None` for a machine decision. */
  function PriorOf(d: StoredDecision): (p: Option<string>) {
    if "prior_decision_id" in d.ext then Some(d.ext["prior_decision_id"]) else None
  }

  /** A path along prior links that ends in a machine decision. */
  ghost predicate Chain(ds: Decisions, path: seq<string>) {
    && path != []
    && (forall i :: 0 <= i < |path| ==> path[i] in ds)
    && (forall i :: 0 <= i < |path| - 1 ==> PriorOf(ds[path[i]]) == Some(path[i + 1]))
    && PriorOf(ds[path[|path| - 1]]).None?
  }

  ghost predicate Rooted(ds: Decisions, id: string) {
    exists path :: Chain(ds, path) && path[0] == id
  }

  /** A decision is attached only to a submission with policy and eligible providers, and the
      completion reason says whether one is attached. */
  ghost predicate SubOk(ds: Decisions, sub: Submission) {
    && (sub.decisionId.Some? ==> sub.decisionId.value in ds && sub.decisionId.value != "" && sub.hasPolicy && sub.eligible)
    && (sub.status == Completed ==> sub.completion.Some?)
    && (sub.status == Completed && sub.completion == Some(DecisionProduced) ==> sub.decisionId.Some?)
    && (sub.status == Completed && sub.completion == Some(FindingsOnly) ==> !sub.hasPolicy)
    && (sub.status == Completed && sub.completion == Some(AllIneligible) ==> !sub.eligible)
  }

  ghost predicate ListsStored(results: map<string, string>, id: string, ids: seq<string>) {
    forall r :: r in ids ==> r in results && results[r] == id
  }

  ghost predicate StageOk(st: Store, s: Stage) {
    match s
    case Working(sub, ids) => ListsStored(st.results, sub.id, ids)
    case Saving(sub) => sub.eligible && ListsStored(st.results, sub.id, sub.resultIds)
    case Deciding(sub) => sub.eligible
    case Writing(sub) => SubOk(st.decisions, sub)
    case _ => true
  }

  ghost predicate AgentOk(ds: Decisions, a: Agent) {
    match a
    case AdjLoaded(sub, _) => SubOk(ds, sub)
    case AdjPrior(sub, _, prior) => SubOk(ds, sub) && sub.decisionId.Some? && prior.id in ds && ds[prior.id] == prior
    case AdjStored(sub) => SubOk(ds, sub)
    case _ => true
  }

  ghost predicate SubsOk(st: Store) {
    forall id :: id in st.submissions ==>
      SubOk(st.decisions, st.submissions[id]) && ListsStored(st.results, id, st.submissions[id].resultIds)
  }

  ghost predicate DecisionInv(g: State) {
    && (forall d :: d in g.store.decisions ==> d in g.used && d != "" && g.store.decisions[d].id == d && Rooted(g.store.decisions, d))
    && (forall r :: r in g.store.results ==> r in g.used)
    && SubsOk(g.store)
    && (forall w :: w in g.runs ==> StageOk(g.store, g.runs[w].stage))
    && (forall n :: 0 <= n < |g.agents| ==> AgentOk(g.store.decisions, g.agents[n]))
  }

  // ---- growing stores ----

  /** Decisions and results only ever get added. */
  ghost predicate Grows(a: Store, b: Store) {
    && (forall d :: d in a.decisions ==> d in b.decisions && b.decisions[d] == a.decisions[d])
    && (forall r :: r in a.results ==> r in b.results && b.results[r] == a.results[r])
  }

  lemma RootedGrows(a: Store, b: Store, id: string)
    requires Grows(a, b) && Rooted(a.decisions, id)
    ensures Rooted(b.decisions, id)
  {
    var path :| Chain(a.decisions, path) && path[0] == id;
    assert Chain(b.decisions, path);
  }

  /** A consumer decision extends the path of the decision it resolves. */
  lemma RootedCons(ds: Decisions, d: StoredDecision)
    requires d.id in ds && ds[d.id] == d
    requires PriorOf(d).None? || Rooted(ds, PriorOf(d).value)
    ensures Rooted(ds, d.id)
  {
    if PriorOf(d).None? {
      assert Chain(ds, [d.id]);
    } else {
      var path :| Chain(ds, path) && path[0] == PriorOf(d).value;
      var longer := [d.id] + path;
      forall i | 0 <= i < |longer| - 1 ensures PriorOf(ds[longer[i]]) == Some(longer[i + 1]) {
        if i > 0 { assert longer[i] == path[i - 1]; }
      }
      assert longer[|longer| - 1] == path[|path| - 1];
      assert Chain(ds, longer);
    }
  }

  lemma StageGrows(a: Store, b: Store, s: Stage)
    requires Grows(a, b) && StageOk(a, s)
    ensures StageOk(b, s)
  {
  }

  lemma AgentGrows(a: Store, b: Store, x: Agent)
    requires Grows(a, b) && AgentOk(a.decisions, x)
    ensures AgentOk(b.decisions, x)
  {
  }

  lemma SubsGrow(a: Store, b: Store)
    requires Grows(a, b) && SubsOk(a) && b.submissions == a.submissions
    ensures SubsOk(b)
  {
    forall id | id in b.submissions
      ensures SubOk(b.decisions, b.submissions[id]) && ListsStored(b.results, id, b.submissions[id].resultIds)
    {
      assert SubOk(a.decisions, a.submissions[id]);
    }
  }

  /** The step touched one handler, whose new state is fine, and left every submission alone or
      replaced one by a good version. */
  lemma HandlerFrame(g: State, h: State, n: nat)
    requires DecisionInv(g) && n < |g.agents|
    requires h.store.decisions == g.store.decisions && h.store.results == g.store.results
    requires h.runs == g.runs && g.used <= h.used && SubsOk(h.store)
    requires n < |h.agents| && h.agents == g.agents[n := h.agents[n]] && AgentOk(g.store.decisions, h.agents[n])
    ensures DecisionInv(h)
  {
    hide Rooted, SubsOk, StageOk, AgentOk;
    forall w | w in h.runs ensures StageOk(h.store, h.runs[w].stage) { StageGrows(g.store, h.store, h.runs[w].stage); }
  }

  /** A step of one run. */
  lemma RunFrame(g: State, h: State, w: nat)
    requires DecisionInv(g) && w in g.runs && w in h.runs && h.runs == g.runs[w := h.runs[w]]
    requires Grows(g.store, h.store) && h.agents == g.agents && g.used <= h.used && SubsOk(h.store)
    requires StageOk(h.store, h.runs[w].stage)
    requires forall d :: d in h.store.decisions && d !in g.store.decisions ==>
               d in h.used && d != "" && h.store.decisions[d].id == d && Rooted(h.store.decisions, d)
    requires forall r :: r in h.store.results && r !in g.store.results ==> r in h.used
    ensures DecisionInv(h)
  {
    hide Rooted, SubsOk, StageOk, AgentOk;
    forall d | d in g.store.decisions ensures Rooted(h.store.decisions, d) { RootedGrows(g.store, h.store, d); }
    forall v | v in h.runs ensures StageOk(h.store, h.runs[v].stage) {
      if v != w { StageGrows(g.store, h.store, g.runs[v].stage); }
    }
    forall m | 0 <= m < |h.agents| ensures AgentOk(h.store.decisions, h.agents[m]) { AgentGrows(g.store, h.store, g.agents[m]); }
  }

  // ---- steps ----

  lemma InvHasSubs(g: State)
    requires DecisionInv(g)
    ensures SubsOk(g.store)
  {
  }

  lemma PlainAgent(ds: Decisions, a: Agent)
    requires AdjCopy(a).None?
    ensures AgentOk(ds, a)
  {
  }

  lemma PlainHandlerSteps(g: State, e: Event)
    requires DecisionInv(g) && Enabled(g, e)
    requires e.CreateReserve? || e.CreateCommit? || e.CreateRelease? || e.ResumeReserve? || e.ResumeCommit?
    ensures DecisionInv(Apply(g, e))
  {
    hide ApplyRun, RunEnabled, P.DoReserve, P.DoCommit, P.DoRelease, SubsOk, StageOk, Rooted, AgentOk, DecisionInv;
    InvHasSubs(g);
    PlainAgent(g.store.decisions, Apply(g, e).agents[e.n]);
    HandlerFrame(g, Apply(g, e), e.n);
  }

  lemma SubsPut(st: Store, st': Store, sub: Submission)
    requires SubsOk(st) && SubOk(st.decisions, sub) && ListsStored(st.results, sub.id, sub.resultIds)
    requires st'.submissions == st.submissions[sub.id := sub] && st'.decisions == st.decisions && st'.results == st.results
    ensures SubsOk(st')
  {
    hide SubOk, ListsStored;
  }

  lemma CreatePutStep(g: State, n: nat, id: string)
    requires DecisionInv(g) && n < |g.agents| && g.agents[n].CreateReserved?
    ensures DecisionInv(StepCreatePut(g, n, id))
  {
    hide DecisionInv, Rooted, StageOk, Logged, ListsStored, SubsOk;
    var h, a := StepCreatePut(g, n, id), g.agents[n];
    InvHasSubs(g);
    var sub := Submission(id, a.hasPolicy, a.eligible, Accepted, None, [], None);
    assert ListsStored(g.store.results, id, []) by { NothingListed(g.store.results, id); }
    if DoPutIdempotent(g.store, a.key, a.hash, sub).1.Created? { SubsPut(g.store, h.store, sub); }
    HandlerFrame(g, h, n);
  }

  lemma NothingListed(results: map<string, string>, id: string)
    ensures ListsStored(results, id, [])
  {
  }

  lemma CreateAbandonStep(g: State, n: nat)
    requires DecisionInv(g) && n < |g.agents| && g.agents[n].CreateAbandoning?
    ensures DecisionInv(StepCreateAbandon(g, n))
  {
    hide DecisionInv, Rooted, StageOk, Logged, ListsStored, SubOk;
    InvHasSubs(g);
    HandlerFrame(g, StepCreateAbandon(g, n), n);
  }

  lemma ResumeStoreSteps(g: State, owner: Owner, e: Event)
    requires OwnedBy(g, owner) && DecisionInv(g) && Enabled(g, e) && (e.ResumeClaim? || e.ResumeUndo?)
    ensures DecisionInv(Apply(g, e))
  {
    hide ApplyRun, RunEnabled, DecisionInv, Rooted, StageOk, ListsStored, Owned;
    var h, id := Apply(g, e), g.agents[e.n].id;
    InvHasSubs(g);
    if id in g.store.submissions && id in h.store.submissions && h.store != g.store {
      StoredId(owner, g.store.submissions, g.agents, P.Jobs(g.pool), g.runs, id);
      SubsPut(g.store, h.store, h.store.submissions[id]);
    }
    HandlerFrame(g, h, e.n);
  }

  lemma AdjReadSteps(g: State, owner: Owner, e: Event)
    requires GatewayOwners.Inv(g, owner) && DecisionInv(g) && Enabled(g, e) && (e.AdjLoad? || e.AdjFetch?)
    ensures DecisionInv(Apply(g, e))
  {
    hide ApplyRun, RunEnabled, Rooted, StageOk, PoolInv, Owned, ListsStored;
    assert AgentOk(g.store.decisions, g.agents[e.n]);
    HandlerFrame(g, Apply(g, e), e.n);
  }

  lemma AdjWriteStep(g: State, owner: Owner, e: Event)
    requires GatewayOwners.Inv(g, owner) && DecisionInv(g) && Enabled(g, e) && e.AdjWrite?
    ensures DecisionInv(Apply(g, e))
  {
    hide ApplyRun, RunEnabled, Rooted, StageOk, PoolInv, OwnRun, OwnAgent, OwnSubs;
    var h, sub := Apply(g, e), g.agents[e.n].sub;
    assert AgentOk(g.store.decisions, g.agents[e.n]);
    assert AdjOk(g.store.submissions, g.agents[e.n]);
    forall id | id in h.store.submissions
      ensures SubOk(h.store.decisions, h.store.submissions[id]) && ListsStored(h.store.results, id, h.store.submissions[id].resultIds)
    {
      assert id in g.store.submissions;
      assert ListsStored(g.store.results, id, g.store.submissions[id].resultIds);
    }
    HandlerFrame(g, h, e.n);
  }

  /** Request extensions never displace the link to the prior decision. */
  lemma PriorLinkKept(id: string, sub: string, value: Policy.Decision, prior: StoredDecision, extra: map<string, string>)
    ensures PriorOf(StoredDecision(id, sub, value, ConsumerExt(prior, extra))) == Some(prior.id)
  {
    var ext := ConsumerExt(prior, extra);
    var reserved := map["origin" := "consumer", "prior_decision_id" := prior.id, "prior_decision" := DecisionName(prior.value)];
    assert |"prior_decision"| != |"prior_decision_id"|;
    assert reserved["prior_decision_id"] == prior.id;
  }

  lemma AdjPutStep(g: State, e: Event)
    requires DecisionInv(g) && Enabled(g, e) && e.AdjPut?
    ensures DecisionInv(Apply(g, e))
  {
    hide ApplyRun, RunEnabled, SubsOk, StageOk, ConsumerExt, PriorOf, Rooted, ListsStored;
    var h, a := Apply(g, e), g.agents[e.n];
    var d := StoredDecision(e.id, a.sub.id, a.value, ConsumerExt(a.prior, e.extra));
    assert AgentOk(g.store.decisions, a);
    PriorLinkKept(e.id, a.sub.id, a.value, a.prior, e.extra);
    RootedGrows(g.store, h.store, a.prior.id);
    RootedCons(h.store.decisions, d);
    SubsGrow(g.store, h.store);
    DecisionAdded(g, h, e.n, d);
  }

  lemma DecisionAdded(g: State, h: State, n: nat, d: StoredDecision)
    requires DecisionInv(g) && n < |g.agents| && d.id !in g.store.decisions && d.id != ""
    requires h.store == DoPutDecision(g.store, d) && h.runs == g.runs && g.used <= h.used && d.id in h.used
    requires SubsOk(h.store) && Rooted(h.store.decisions, d.id)
    requires n < |h.agents| && h.agents == g.agents[n := h.agents[n]] && AgentOk(h.store.decisions, h.agents[n])
    ensures DecisionInv(h)
  {
    hide SubsOk, StageOk, Rooted, AgentOk;
    forall x | x in g.store.decisions ensures Rooted(h.store.decisions, x) { RootedGrows(g.store, h.store, x); }
    forall w | w in h.runs ensures StageOk(h.store, h.runs[w].stage) { StageGrows(g.store, h.store, h.runs[w].stage); }
    forall m | 0 <= m < |h.agents| ensures AgentOk(h.store.decisions, h.agents[m]) {
      if m != n { AgentGrows(g.store, h.store, g.agents[m]); }
    }
  }

  lemma WorkerSteps(g: State, e: Event)
    requires DecisionInv(g) && Enabled(g, e) && (e.Receive? || e.Finish? || e.Close? || e.Arrive?)
    ensures DecisionInv(Apply(g, e))
  {
    hide ApplyRun, RunEnabled, SubsOk, Rooted;
  }

  /** Run steps that leave the submissions alone. */
  lemma QuietRunSteps(g: State, owner: Owner, e: Event)
    requires GatewayOwners.Inv(g, owner) && DecisionInv(g) && Enabled(g, e)
    requires e.RunStart? || e.RunFail? || e.RunIneligible? || e.RunInterrupt? || e.RunReload?
    ensures DecisionInv(Apply(g, e))
  {
    hide ApplyHandler, HandlerEnabled, Rooted, PoolInv, Owned, Busy, ListsStored, UsedInv;
    var h, w := Apply(g, e), e.w;
    RunStored(g, owner, w);
    var stored := g.store.submissions[g.runs[w].id];
    assert StageOk(g.store, g.runs[w].stage);
    assert SubOk(g.store.decisions, stored);
    RunFrame(g, h, w);
  }

  lemma ResultStep(g: State, owner: Owner, e: Event)
    requires GatewayOwners.Inv(g, owner) && DecisionInv(g) && Enabled(g, e) && e.RunResult?
    ensures DecisionInv(Apply(g, e))
  {
    hide ApplyHandler, HandlerEnabled, Rooted, PoolInv, Owned, SubsOk;
    var h, w := Apply(g, e), e.w;
    assert StageOk(g.store, g.runs[w].stage);
    SubsGrow(g.store, h.store);
    RunFrame(g, h, w);
  }

  lemma DecideStep(g: State, owner: Owner, e: Event)
    requires GatewayOwners.Inv(g, owner) && DecisionInv(g) && Enabled(g, e) && e.RunDecide?
    ensures DecisionInv(Apply(g, e))
  {
    hide ApplyHandler, HandlerEnabled, PoolInv, Owned, SubsOk, Rooted;
    var h, w := Apply(g, e), e.w;
    RunStored(g, owner, w);
    assert StageOk(g.store, g.runs[w].stage);
    SubsGrow(g.store, h.store);
    RootedCons(h.store.decisions, h.store.decisions[e.id]);
    RunFrame(g, h, w);
  }

  /** Run steps that write the submission. */
  lemma WritingRunSteps(g: State, owner: Owner, e: Event)
    requires GatewayOwners.Inv(g, owner) && DecisionInv(g) && Enabled(g, e) && (e.RunMark? || e.RunSave? || e.RunWrite?)
    ensures DecisionInv(Apply(g, e))
  {
    hide ApplyHandler, HandlerEnabled, Rooted, PoolInv, Owned;
    var h, w := Apply(g, e), e.w;
    RunStored(g, owner, w);
    var id := g.runs[w].id;
    assert StageOk(g.store, g.runs[w].stage);
    assert SubOk(g.store.decisions, g.store.submissions[id]) && ListsStored(g.store.results, id, g.store.submissions[id].resultIds);
    SubsPut(g.store, h.store, g.runs[w].stage.sub);
    RunFrame(g, h, w);
  }

  lemma StoreHandlerSteps(g: State, owner: Owner, e: Event)
    requires GatewayOwners.Inv(g, owner) && DecisionInv(g) && Enabled(g, e)
    requires e.CreatePut? || e.CreateAbandon? || e.ResumeClaim? || e.ResumeUndo?
    ensures DecisionInv(Apply(g, e))
  {
    hide ApplyRun, RunEnabled, DecisionInv, PoolInv, OwnedBy, UsedInv, StepCreatePut, StepCreateAbandon;
    if e.CreatePut? {
      CreatePutStep(g, e.n, e.id);
    } else if e.CreateAbandon? {
      CreateAbandonStep(g, e.n);
    } else {
      ResumeStoreSteps(g, owner, e);
    }
  }

  lemma StepKeepsDecisions(g: State, owner: Owner, e: Event)
    requires GatewayOwners.Inv(g, owner) && DecisionInv(g) && Enabled(g, e)
    ensures DecisionInv(Apply(g, e))
  {
    hide DecisionInv, GatewayOwners.Inv, Apply, Enabled;
    if e.Receive? || e.Finish? || e.Close? || e.Arrive? {
      WorkerSteps(g, e);
    } else if e.RunStart? || e.RunFail? || e.RunIneligible? || e.RunInterrupt? || e.RunReload? {
      QuietRunSteps(g, owner, e);
    } else if e.RunMark? || e.RunSave? || e.RunWrite? {
      WritingRunSteps(g, owner, e);
    } else if e.RunResult? {
      ResultStep(g, owner, e);
    } else if e.RunDecide? {
      DecideStep(g, owner, e);
    } else if e.AdjLoad? || e.AdjFetch? {
      AdjReadSteps(g, owner, e);
    } else if e.AdjPut? {
      AdjPutStep(g, e);
    } else if e.AdjWrite? {
      AdjWriteStep(g, owner, e);
    } else if e.CreatePut? || e.CreateAbandon? || e.ResumeClaim? || e.ResumeUndo? {
      StoreHandlerSteps(g, owner, e);
    } else {
      PlainHandlerSteps(g, e);
    }
  }

  /** No step changes or removes a stored decision or result. */
  lemma StepGrows(g: State, e: Event)
    requires DecisionInv(g) && Enabled(g, e)
    ensures Grows(g.store, Apply(g, e).store)
  {
    hide DecisionInv;
    if IsRunEvent(e) { RunStepGrows(g, e); } else { HandlerStepGrows(g, e); }
  }

  lemma RunStepGrows(g: State, e: Event)
    requires DecisionInv(g) && Enabled(g, e) && IsRunEvent(e)
    ensures Grows(g.store, Apply(g, e).store)
  {
    hide ApplyHandler, HandlerEnabled, Rooted, SubsOk, StageOk, AgentOk, StepRunStart, StepRunMark, StepRunFail, StepRunIneligible, StepRunInterrupt, StepRunReload, StepRunSave, StepRunWrite;
  }

  lemma HandlerStepGrows(g: State, e: Event)
    requires DecisionInv(g) && Enabled(g, e) && !IsRunEvent(e)
    ensures Grows(g.store, Apply(g, e).store)
  {
    hide ApplyRun, RunEnabled, Rooted, SubsOk, StageOk, AgentOk, ConsumerExt, P.DoClose, P.Enabled, StepCreateReserve, StepCreatePut, StepCreateCommit,
      StepCreateAbandon, StepCreateRelease, StepResumeClaim, StepResumeReserve, StepResumeCommit, StepResumeUndo, StepAdjLoad,
      StepAdjFetch, StepAdjWrite, StepReceive, StepFinish;
  }
}
