/** What every gateway step keeps of the pool: slot conservation, one handler per token, and worker
    runs in step with the pool's running jobs. */
module GatewayTokens {
  import opened Seqs
  import opened MemoryStore
  import opened Gateway
  import P = LocalPool

  function TokenOf(a: Agent): (t: Option<nat>) {
    match a
    case CreateReserved(_, _, _, _, t) => Some(t)
    case CreateStored(_, t, _) => Some(t)
    case CreateAbandoning(_, t, _) => Some(t)
    case CreateReleasing(t) => Some(t)
    case ResumeReserved(_, t) => Some(t)
    case _ => None
  }

  /** The handler counts on its token being still open. */
  predicate NeedsOpen(a: Agent) {
    a.CreateReserved? || a.CreateStored? || a.ResumeReserved?
  }

  ghost predicate TokenOk(pool: P.Pool, a: Agent) {
    TokenOf(a).Some? ==>
      var t := TokenOf(a).value;
      t < |pool.tokens| && (NeedsOpen(a) ==> pool.tokens[t] == P.Open)
  }

  ghost predicate TokensHeld(pool: P.Pool, agents: seq<Agent>) {
    && (forall n :: 0 <= n < |agents| ==> TokenOk(pool, agents[n]))
    && (forall m, n :: 0 <= m < n < |agents| && TokenOf(agents[m]).Some? ==> TokenOf(agents[m]) != TokenOf(agents[n]))
  }

  ghost predicate Aligned(pool: P.Pool, runs: map<nat, Run>) {
    && runs.Keys == pool.running.Keys
    && (forall w :: w in runs ==> pool.running[w] < |pool.commitLog| && runs[w].id == pool.commitLog[pool.running[w]])
  }

  /** Some handler has the token. */
  ghost predicate HasHandler(agents: seq<Agent>, t: nat) {
    exists n :: 0 <= n < |agents| && TokenOf(agents[n]) == Some(t)
  }

  /** Every open token has a handler, so no slot leaks. */
  ghost predicate NoLeak(pool: P.Pool, agents: seq<Agent>) {
    forall t :: 0 <= t < |pool.tokens| && pool.tokens[t] == P.Open ==> HasHandler(agents, t)
  }

  ghost predicate PoolCore(g: State) {
    P.Inv(g.pool) && TokensHeld(g.pool, g.agents) && Aligned(g.pool, g.runs)
  }

  ghost predicate PoolInv(g: State) {
    PoolCore(g) && NoLeak(g.pool, g.agents)
  }

  /** The handler's next state needs no token, or the one it has. */
  lemma TokensLocal(pool: P.Pool, agents: seq<Agent>, n: nat, a: Agent)
    requires TokensHeld(pool, agents) && n < |agents|
    requires TokenOf(a).None? || (TokenOf(a) == TokenOf(agents[n]) && (NeedsOpen(a) ==> NeedsOpen(agents[n])))
    ensures TokensHeld(pool, agents[n := a])
  {
    hide TokenOf, NeedsOpen;
  }

  lemma TokensReserve(pool: P.Pool, agents: seq<Agent>, n: nat, a: Agent)
    requires TokensHeld(pool, agents) && n < |agents| && TokenOf(a) == Some(|pool.tokens|)
    requires P.DoReserve(pool).1 == P.Ok
    ensures TokensHeld(P.DoReserve(pool).0, agents[n := a])
  {
    hide TokenOf, NeedsOpen;
    assert forall m :: 0 <= m < |agents| ==> TokenOk(pool, agents[m]);
  }

  /** The holder of a token uses it up and moves on; nobody else had that token. */
  lemma TokensUse(pool: P.Pool, agents: seq<Agent>, n: nat, a: Agent, pool': P.Pool)
    requires TokensHeld(pool, agents) && n < |agents| && TokenOf(agents[n]).Some?
    requires |pool'.tokens| == |pool.tokens|
    requires forall t :: 0 <= t < |pool.tokens| && Some(t) != TokenOf(agents[n]) ==> pool'.tokens[t] == pool.tokens[t]
    requires !NeedsOpen(a) && (TokenOf(a).None? || TokenOf(a) == TokenOf(agents[n]))
    ensures TokensHeld(pool', agents[n := a])
  {
    hide TokenOf, NeedsOpen;
    var after := agents[n := a];
    forall m | 0 <= m < |after| ensures TokenOk(pool', after[m]) {
      assert TokenOk(pool, agents[m]);
    }
  }

  lemma TokensArrive(pool: P.Pool, agents: seq<Agent>, a: Agent)
    requires TokensHeld(pool, agents) && TokenOf(a).None?
    ensures TokensHeld(pool, agents + [a])
  {
    hide TokenOf, NeedsOpen;
  }

  lemma TokensSamePool(pool: P.Pool, pool': P.Pool, agents: seq<Agent>)
    requires TokensHeld(pool, agents) && pool'.tokens == pool.tokens
    ensures TokensHeld(pool', agents)
  {
    hide TokenOf, NeedsOpen;
    forall m | 0 <= m < |agents| ensures TokenOk(pool', agents[m]) {
      assert TokenOk(pool, agents[m]);
    }
  }

  lemma AlignedPool(pool: P.Pool, pool': P.Pool, runs: map<nat, Run>)
    requires Aligned(pool, runs) && pool'.running == pool.running && pool.commitLog <= pool'.commitLog
    ensures Aligned(pool', runs)
  {
  }

  lemma CreateStepTokens(g: State, e: Event)
    requires PoolCore(g) && Enabled(g, e)
    requires e.CreateReserve? || e.CreatePut? || e.CreateAbandon?
    ensures PoolCore(Apply(g, e))
  {
    hide ApplyRun, RunEnabled, P.Inv, TokensHeld, Aligned, DoPutIdempotent, DoAbandon;
    var h := Apply(g, e);
    if e.CreateReserve? && P.DoReserve(g.pool).1 == P.Ok && !e.contextDone {
      P.StepKeepsInv(g.pool, P.Reserve);
      TokensReserve(g.pool, g.agents, e.n, h.agents[e.n]);
      AlignedPool(g.pool, h.pool, g.runs);
    } else {
      TokensLocal(g.pool, g.agents, e.n, h.agents[e.n]);
    }
  }

  lemma CommitTokens(g: State, e: Event)
    requires PoolCore(g) && Enabled(g, e) && (e.CreateCommit? || e.ResumeCommit?)
    ensures PoolCore(Apply(g, e))
  {
    hide ApplyRun, RunEnabled, P.Inv, TokensHeld, Aligned;
    var h, a := Apply(g, e), g.agents[e.n];
    P.StepKeepsInv(g.pool, P.Commit(a.token, a.id));
    TokensUse(g.pool, g.agents, e.n, h.agents[e.n], h.pool);
    AlignedPool(g.pool, h.pool, g.runs);
  }

  lemma ReleaseTokens(g: State, e: Event)
    requires PoolCore(g) && Enabled(g, e) && e.CreateRelease?
    ensures PoolCore(Apply(g, e))
  {
    hide ApplyRun, RunEnabled, P.Inv, TokensHeld, Aligned;
    P.StepKeepsInv(g.pool, P.Release(g.agents[e.n].token));
    TokensUse(g.pool, g.agents, e.n, Finished, Apply(g, e).pool);
    AlignedPool(g.pool, Apply(g, e).pool, g.runs);
  }

  lemma ResumeStepTokens(g: State, e: Event)
    requires PoolCore(g) && Enabled(g, e)
    requires e.ResumeClaim? || e.ResumeReserve? || e.ResumeUndo? || e.AdjLoad? || e.AdjFetch? || e.AdjPut? || e.AdjWrite?
    ensures PoolCore(Apply(g, e))
  {
    hide ApplyRun, RunEnabled, P.Inv, TokensHeld, Aligned, DoClaimResume, DoReleaseResume;
    var h := Apply(g, e);
    if e.ResumeReserve? && P.DoReserve(g.pool).1 == P.Ok && !e.contextDone {
      P.StepKeepsInv(g.pool, P.Reserve);
      TokensReserve(g.pool, g.agents, e.n, h.agents[e.n]);
      AlignedPool(g.pool, h.pool, g.runs);
    } else {
      TokensLocal(g.pool, g.agents, e.n, h.agents[e.n]);
    }
  }

  lemma AlignedReceive(pool: P.Pool, runs: map<nat, Run>, w: nat)
    requires P.Accounted(pool) && Aligned(pool, runs) && P.Enabled(pool, P.Receive(w))
    ensures Aligned(P.DoReceive(pool, w), runs[w := Run(pool.commitLog[pool.started], Start)])
  {
  }

  lemma AlignedFinish(pool: P.Pool, runs: map<nat, Run>, w: nat)
    requires Aligned(pool, runs) && P.Enabled(pool, P.Finish(w))
    ensures Aligned(P.DoFinish(pool, w), runs - {w})
  {
  }

  lemma WorkerStepTokens(g: State, e: Event)
    requires PoolCore(g) && Enabled(g, e) && (e.Receive? || e.Finish? || e.Close? || e.Arrive?)
    ensures PoolCore(Apply(g, e))
  {
    hide ApplyRun, RunEnabled, TokensHeld, P.Conserved, P.Accounted, Aligned;
    var h := Apply(g, e);
    match e
    case Receive(w) =>
      P.StepKeepsInv(g.pool, P.Receive(w));
      AlignedReceive(g.pool, g.runs, w);
      TokensSamePool(g.pool, h.pool, g.agents);
    case Finish(w) =>
      P.StepKeepsInv(g.pool, P.Finish(w));
      AlignedFinish(g.pool, g.runs, w);
      TokensSamePool(g.pool, h.pool, g.agents);
    case Close =>
      P.StepKeepsInv(g.pool, P.Close);
      AlignedPool(g.pool, h.pool, g.runs);
      TokensSamePool(g.pool, h.pool, g.agents);
    case Arrive(a) =>
      TokensArrive(g.pool, g.agents, a);
  }

  lemma RunStepTokens(g: State, w: nat, s: Stage)
    requires Aligned(g.pool, g.runs) && w in g.runs
    ensures Aligned(g.pool, g.runs[w := g.runs[w].(stage := s)])
  {
  }

  /** A `Process` step changes one run's stage, and neither the pool nor the handlers. */
  lemma RunStepShape(g: State, e: Event)
    requires Enabled(g, e) && IsRunEvent(e)
    ensures var h := Apply(g, e);
            && h.pool == g.pool && h.agents == g.agents && h.log == g.log && h.accepted == g.accepted
            && e.w in g.runs && e.w in h.runs
            && h.runs == g.runs[e.w := g.runs[e.w].(stage := h.runs[e.w].stage)]
            && !g.runs[e.w].stage.Ended?
            && h.store.idempotency == g.store.idempotency && h.store.idemHash == g.store.idemHash
  {
    hide ApplyHandler, HandlerEnabled, StepRunStart, StepRunMark, StepRunFail, StepRunIneligible, StepRunInterrupt, StepRunReload, StepRunSave, StepRunWrite, StepRunResult, StepRunDecide;
  }

  lemma StepKeepsPoolCore(g: State, e: Event)
    requires PoolCore(g) && Enabled(g, e)
    ensures PoolCore(Apply(g, e))
  {
    hide P.Inv, TokensHeld, Aligned, Apply;
    if IsRunEvent(e) {
      RunStepShape(g, e);
      RunStepTokens(g, e.w, Apply(g, e).runs[e.w].stage);
    } else if e.Receive? || e.Finish? || e.Close? || e.Arrive? {
      WorkerStepTokens(g, e);
    } else if e.CreateRelease? {
      ReleaseTokens(g, e);
    } else if e.CreateCommit? || e.ResumeCommit? {
      CommitTokens(g, e);
    } else if e.CreateReserve? || e.CreatePut? || e.CreateAbandon? {
      CreateStepTokens(g, e);
    } else {
      ResumeStepTokens(g, e);
    }
  }

  // ---- no slot leaks ----

  /** One handler moves from `agents[n]` to `a`: its token stays with it or is no longer open, and a
      token opened by the step is its own. */
  lemma HandlerKeepsNoLeak(pool: P.Pool, pool': P.Pool, agents: seq<Agent>, n: nat, a: Agent)
    requires NoLeak(pool, agents) && n < |agents|
    requires forall t :: 0 <= t < |pool'.tokens| && pool'.tokens[t] == P.Open ==>
               (t < |pool.tokens| && pool.tokens[t] == P.Open && TokenOf(agents[n]) != Some(t)) || TokenOf(a) == Some(t)
    ensures NoLeak(pool', agents[n := a])
  {
    hide TokenOf;
    var after := agents[n := a];
    forall t | 0 <= t < |pool'.tokens| && pool'.tokens[t] == P.Open ensures HasHandler(after, t) {
      if TokenOf(a) == Some(t) {
        assert TokenOf(after[n]) == Some(t);
      } else {
        var m :| 0 <= m < |agents| && TokenOf(agents[m]) == Some(t);
        assert TokenOf(after[m]) == Some(t);
      }
    }
  }

  lemma CreateKeepsNoLeak(g: State, e: Event)
    requires PoolInv(g) && Enabled(g, e)
    requires e.CreateReserve? || e.CreatePut? || e.CreateCommit? || e.CreateAbandon? || e.CreateRelease?
    ensures NoLeak(Apply(g, e).pool, Apply(g, e).agents)
  {
    hide ApplyRun, RunEnabled, P.Inv, TokensHeld, Aligned, NoLeak, DoPutIdempotent, DoAbandon, Logged;
    HandlerKeepsNoLeak(g.pool, Apply(g, e).pool, g.agents, e.n, Apply(g, e).agents[e.n]);
  }

  lemma ResumeKeepsNoLeak(g: State, e: Event)
    requires PoolInv(g) && Enabled(g, e) && (e.ResumeClaim? || e.ResumeReserve? || e.ResumeCommit? || e.ResumeUndo?)
    ensures NoLeak(Apply(g, e).pool, Apply(g, e).agents)
  {
    hide ApplyRun, RunEnabled, P.Inv, TokensHeld, Aligned, NoLeak, DoClaimResume, DoReleaseResume;
    HandlerKeepsNoLeak(g.pool, Apply(g, e).pool, g.agents, e.n, Apply(g, e).agents[e.n]);
  }

  lemma AdjKeepsNoLeak(g: State, e: Event)
    requires PoolInv(g) && Enabled(g, e) && (e.AdjLoad? || e.AdjFetch? || e.AdjPut? || e.AdjWrite?)
    ensures NoLeak(Apply(g, e).pool, Apply(g, e).agents)
  {
    hide ApplyRun, RunEnabled, P.Inv, TokensHeld, Aligned, NoLeak, ConsumerExt;
    HandlerKeepsNoLeak(g.pool, Apply(g, e).pool, g.agents, e.n, Apply(g, e).agents[e.n]);
  }

  lemma WorkerKeepsNoLeak(g: State, e: Event)
    requires PoolInv(g) && Enabled(g, e) && (e.Receive? || e.Finish? || e.Close? || e.Arrive?)
    ensures NoLeak(Apply(g, e).pool, Apply(g, e).agents)
  {
    hide ApplyRun, RunEnabled, P.Inv, TokensHeld, Aligned, TokenOf;
    var h := Apply(g, e);
    forall t | 0 <= t < |h.pool.tokens| && h.pool.tokens[t] == P.Open ensures HasHandler(h.agents, t) {
      var n :| 0 <= n < |g.agents| && TokenOf(g.agents[n]) == Some(t);
      assert TokenOf(h.agents[n]) == Some(t);
    }
  }

  /** Every step keeps slot conservation, each handler's token to itself, an owner for every open
      token, and worker runs in step with the pool. */
  lemma StepKeepsPoolInv(g: State, e: Event)
    requires PoolInv(g) && Enabled(g, e)
    ensures PoolInv(Apply(g, e))
  {
    hide PoolCore, NoLeak, Apply, Enabled;
    StepKeepsPoolCore(g, e);
    if IsRunEvent(e) {
      RunStepShape(g, e);
    } else if e.Receive? || e.Finish? || e.Close? || e.Arrive? {
      WorkerKeepsNoLeak(g, e);
    } else if e.CreateReserve? || e.CreatePut? || e.CreateCommit? || e.CreateAbandon? || e.CreateRelease? {
      CreateKeepsNoLeak(g, e);
    } else if e.AdjLoad? || e.AdjFetch? || e.AdjPut? || e.AdjWrite? {
      AdjKeepsNoLeak(g, e);
    } else {
      ResumeKeepsNoLeak(g, e);
    }
  }

  // ---- counting handlers instead of tokens ----

  /** The handler has a token that is still open. */
  predicate HoldsSlot(tokens: seq<P.TokenState>, a: Agent) {
    TokenOf(a).Some? && TokenOf(a).value < |tokens| && tokens[TokenOf(a).value] == P.Open
  }

  function SlotHolders(tokens: seq<P.TokenState>, agents: seq<Agent>): (n: nat) {
    if agents == [] then 0
    else SlotHolders(tokens, agents[..|agents| - 1]) + if HoldsSlot(tokens, agents[|agents| - 1]) then 1 else 0
  }

  ghost function HeldTokens(tokens: seq<P.TokenState>, agents: seq<Agent>): (s: set<nat>) {
    set n | 0 <= n < |agents| && HoldsSlot(tokens, agents[n]) :: TokenOf(agents[n]).value
  }

  ghost function OpenSet(tokens: seq<P.TokenState>): (s: set<nat>) {
    set t | 0 <= t < |tokens| && tokens[t] == P.Open
  }

  lemma HeldSnoc(tokens: seq<P.TokenState>, init: seq<Agent>, last: Agent)
    ensures HeldTokens(tokens, init + [last]) ==
            HeldTokens(tokens, init) + if HoldsSlot(tokens, last) then {TokenOf(last).value} else {}
  {
    hide TokenOf;
    var agents := init + [last];
    var a, b := HeldTokens(tokens, init), HeldTokens(tokens, agents);
    forall t | t in a ensures t in b {
      var n :| 0 <= n < |init| && HoldsSlot(tokens, init[n]) && TokenOf(init[n]).value == t;
      assert agents[n] == init[n];
    }
    assert agents[|init|] == last;
  }

  lemma {:induction false} HoldersCount(tokens: seq<P.TokenState>, agents: seq<Agent>)
    requires forall m, n :: 0 <= m < n < |agents| && TokenOf(agents[m]).Some? ==> TokenOf(agents[m]) != TokenOf(agents[n])
    ensures SlotHolders(tokens, agents) == |HeldTokens(tokens, agents)|
  {
    hide TokenOf;
    if agents != [] {
      var k := |agents| - 1;
      var init, last := agents[..k], agents[k];
      HoldersCount(tokens, init);
      assert agents == init + [last];
      HeldSnoc(tokens, init, last);
      assert HoldsSlot(tokens, last) ==> TokenOf(last).value !in HeldTokens(tokens, init);
    }
  }

  lemma {:induction false} OpenSetCount(tokens: seq<P.TokenState>)
    ensures P.CountOpen(tokens) == |OpenSet(tokens)|
  {
    if tokens != [] {
      var k := |tokens| - 1;
      OpenSetCount(tokens[..k]);
      assert OpenSet(tokens) == OpenSet(tokens[..k]) + if tokens[k] == P.Open then {k} else {};
    }
  }

  /** Open tokens and handlers that hold one are equally many. */
  lemma OpenTokensAreHeld(g: State)
    requires PoolInv(g)
    ensures P.CountOpen(g.pool.tokens) == SlotHolders(g.pool.tokens, g.agents)
  {
    hide P.Inv, Aligned, P.CountOpen, SlotHolders, TokenOf;
    var tokens, agents := g.pool.tokens, g.agents;
    HoldersCount(tokens, agents);
    OpenSetCount(tokens);
    forall t | t in OpenSet(tokens) ensures t in HeldTokens(tokens, agents) {
      var n :| 0 <= n < |agents| && TokenOf(agents[n]) == Some(t);
      assert HoldsSlot(tokens, agents[n]);
    }
    assert OpenSet(tokens) == HeldTokens(tokens, agents);
  }
}
