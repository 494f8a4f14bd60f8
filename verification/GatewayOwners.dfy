/** Each submission that is accepted or running has exactly one holder: a create handler before its
    commit, a resume handler after its claim, a queue entry, or a `Process` run before its final
    write. `owner` names that holder; every step of the gateway updates it. */
module GatewayOwners {
  import opened Seqs
  import opened MemoryStore
  import opened Gateway
  import opened GatewayTokens
  import P = LocalPool

  datatype Holder = ByAgent(n: nat) | InQueue | ByWorker(w: nat)

  type Owner = map<string, Holder>
  type Subs = map<string, Submission>

  predicate Busy(s: Status) {
    s == Accepted || s == Running
  }

  function HeldBy(a: Agent): (id: Option<string>) {
    match a
    case CreateStored(_, _, id) => Some(id)
    case CreateAbandoning(_, _, id) => Some(id)
    case ResumeClaimed(id) => Some(id)
    case ResumeReserved(id, _) => Some(id)
    case ResumeUndoing(id) => Some(id)
    case _ => None
  }

  function HeldStatus(a: Agent): (s: Status) {
    if a.CreateStored? || a.CreateAbandoning? then Accepted else Running
  }

  // ---- the parts of the invariant ----

  ghost predicate OwnSubs(owner: Owner, subs: Subs) {
    && (forall id :: id in owner <==> id in subs && Busy(subs[id].status))
    && (forall id :: id in subs ==> subs[id].id == id)
  }

  ghost predicate OwnAgent(owner: Owner, subs: Subs, n: nat, a: Agent) {
    HeldBy(a).Some? ==>
      var id := HeldBy(a).value;
      id in owner && owner[id] == ByAgent(n) && id in subs && subs[id].status == HeldStatus(a)
  }

  ghost predicate OwnJob(owner: Owner, id: string) {
    id in owner && owner[id] == InQueue
  }

  /** How a run's private copy relates to the stored submission. */
  ghost predicate CopyOk(s: Stage, stored: Submission) {
    match s
    case Start => true
    case Marking(sub) => sub == stored.(status := Running)
    case Working(sub, _) => sub == stored && stored.status == Running
    case Saving(sub) => sub == stored.(resultIds := sub.resultIds) && stored.status == Running
    case Deciding(sub) => sub == stored && stored.status == Running && stored.hasPolicy
    case Writing(sub) =>
      && sub.id == stored.id && sub.hasPolicy == stored.hasPolicy && sub.eligible == stored.eligible
      && sub.resultIds == stored.resultIds && !Busy(sub.status)
    case Ended => true
  }

  ghost predicate OwnRun(owner: Owner, subs: Subs, w: nat, r: Run) {
    !r.stage.Ended? ==>
      r.id in owner && owner[r.id] == ByWorker(w) && r.id in subs && CopyOk(r.stage, subs[r.id])
  }

  function AdjCopy(a: Agent): (sub: Option<Submission>) {
    match a
    case AdjLoaded(sub, _) => Some(sub)
    case AdjPrior(sub, _, _) => Some(sub)
    case AdjStored(sub) => Some(sub)
    case _ => None
  }

  /** An adjudicator's copy differs from the stored submission at most in the decision. */
  ghost predicate AdjOk(subs: Subs, a: Agent) {
    AdjCopy(a).Some? ==>
      var sub := AdjCopy(a).value;
      sub.id in subs && subs[sub.id].status == Completed && sub == subs[sub.id].(decisionId := sub.decisionId)
  }

  /** The named holder does hold the submission. */
  ghost predicate Real(h: Holder, id: string, agents: seq<Agent>, jobs: seq<string>, runs: map<nat, Run>) {
    match h
    case ByAgent(n) => n < |agents| && HeldBy(agents[n]) == Some(id)
    case InQueue => id in jobs
    case ByWorker(w) => w in runs && !runs[w].stage.Ended? && runs[w].id == id
  }

  ghost predicate Owned(owner: Owner, subs: Subs, agents: seq<Agent>, jobs: seq<string>, runs: map<nat, Run>) {
    && OwnSubs(owner, subs)
    && (forall n :: 0 <= n < |agents| ==> OwnAgent(owner, subs, n, agents[n]) && AdjOk(subs, agents[n]))
    && (forall i :: 0 <= i < |jobs| ==> OwnJob(owner, jobs[i]))
    && Distinct(jobs)
    && (forall w :: w in runs ==> OwnRun(owner, subs, w, runs[w]))
    && (forall id :: id in owner ==> Real(owner[id], id, agents, jobs, runs))
  }

  // ---- kinds of moves ----

  /** A handler moves without touching the store and keeps holding what it held. */
  lemma AgentMoves(owner: Owner, subs: Subs, agents: seq<Agent>, jobs: seq<string>, runs: map<nat, Run>, n: nat, a: Agent)
    requires Owned(owner, subs, agents, jobs, runs) && n < |agents|
    requires HeldBy(a) == HeldBy(agents[n]) && (HeldBy(a).Some? ==> HeldStatus(a) == HeldStatus(agents[n]))
    requires AdjOk(subs, a)
    ensures Owned(owner, subs, agents[n := a], jobs, runs)
  {
    hide HeldBy, HeldStatus, CopyOk, OwnSubs;
    assert OwnAgent(owner, subs, n, agents[n]);
  }

  lemma AgentArrives(owner: Owner, subs: Subs, agents: seq<Agent>, jobs: seq<string>, runs: map<nat, Run>, a: Agent)
    requires Owned(owner, subs, agents, jobs, runs) && HeldBy(a).None? && AdjCopy(a).None?
    ensures Owned(owner, subs, agents + [a], jobs, runs)
  {
    hide HeldBy, HeldStatus, CopyOk, OwnSubs;
  }

  /** A handler that held nothing comes to hold `id`, which nobody held: a fresh submission or a
      deferred one that is claimed. */
  lemma AgentAcquires(owner: Owner, subs: Subs, agents: seq<Agent>, jobs: seq<string>, runs: map<nat, Run>, n: nat, a: Agent, sub: Submission)
    requires Owned(owner, subs, agents, jobs, runs) && n < |agents| && HeldBy(agents[n]).None?
    requires HeldBy(a) == Some(sub.id) && AdjCopy(a).None? && sub.status == HeldStatus(a)
    requires sub.id !in subs || subs[sub.id].status == Deferred
    ensures Owned(owner[sub.id := ByAgent(n)], subs[sub.id := sub], agents[n := a], jobs, runs)
  {
    hide CopyOk;
    var after := agents[n := a];
    forall m | 0 <= m < |after|
      ensures OwnAgent(owner[sub.id := ByAgent(n)], subs[sub.id := sub], m, after[m])
      ensures AdjOk(subs[sub.id := sub], after[m])
    {
      assert OwnAgent(owner, subs, m, agents[m]) && AdjOk(subs, agents[m]);
    }
  }

  /** The holder's commit puts the submission on the queue. */
  lemma AgentEnqueues(owner: Owner, subs: Subs, agents: seq<Agent>, jobs: seq<string>, runs: map<nat, Run>, n: nat, id: string)
    requires Owned(owner, subs, agents, jobs, runs) && n < |agents| && HeldBy(agents[n]) == Some(id)
    ensures Owned(owner[id := InQueue], subs, agents[n := Finished], jobs + [id], runs)
  {
    hide CopyOk;
    assert OwnAgent(owner, subs, n, agents[n]);
    assert id !in jobs by { assert forall i :: 0 <= i < |jobs| ==> OwnJob(owner, jobs[i]); }
    var after := agents[n := Finished];
    forall m | 0 <= m < |after| ensures OwnAgent(owner[id := InQueue], subs, m, after[m]) && AdjOk(subs, after[m]) {
      assert OwnAgent(owner, subs, m, agents[m]) && AdjOk(subs, agents[m]);
    }
    var jobs' := jobs + [id];
    forall i | 0 <= i < |jobs'| ensures OwnJob(owner[id := InQueue], jobs'[i]) {
      if i < |jobs| { assert OwnJob(owner, jobs[i]); }
    }
  }

  /** A holder gives its submission up: it is dropped, or goes back to deferred. */
  lemma AgentLetsGo(owner: Owner, subs: Subs, agents: seq<Agent>, jobs: seq<string>, runs: map<nat, Run>, n: nat, a: Agent, id: string, subs': Subs)
    requires Owned(owner, subs, agents, jobs, runs) && n < |agents| && HeldBy(agents[n]) == Some(id)
    requires HeldBy(a).None? && AdjCopy(a).None?
    requires subs' == subs - {id} || (id in subs' && subs' == subs[id := subs'[id]] && subs'[id].id == id && !Busy(subs'[id].status))
    ensures Owned(owner - {id}, subs', agents[n := a], jobs, runs)
  {
    hide CopyOk, HeldBy, HeldStatus, AdjCopy;
    assert OwnAgent(owner, subs, n, agents[n]);
    var after := agents[n := a];
    forall m | 0 <= m < |after| ensures OwnAgent(owner - {id}, subs', m, after[m]) && AdjOk(subs', after[m]) {
      assert OwnAgent(owner, subs, m, agents[m]) && AdjOk(subs, agents[m]);
    }
    forall i | 0 <= i < |jobs| ensures OwnJob(owner - {id}, jobs[i]) {
      assert OwnJob(owner, jobs[i]);
    }
    forall w | w in runs ensures OwnRun(owner - {id}, subs', w, runs[w]) {
      assert OwnRun(owner, subs, w, runs[w]);
    }
    forall x | x in owner - {id} ensures Real(owner[x], x, after, jobs, runs) {
      assert Real(owner[x], x, agents, jobs, runs);
    }
  }

  /** An adjudicator writes its copy over a completed submission. */
  lemma AdjudicatorWrites(owner: Owner, subs: Subs, agents: seq<Agent>, jobs: seq<string>, runs: map<nat, Run>, n: nat, sub: Submission)
    requires Owned(owner, subs, agents, jobs, runs) && n < |agents| && agents[n] == AdjStored(sub)
    ensures Owned(owner, subs[sub.id := sub], agents[n := Finished], jobs, runs)
  {
    hide CopyOk;
    assert AdjOk(subs, agents[n]);
    var after := agents[n := Finished];
    forall m | 0 <= m < |after| ensures OwnAgent(owner, subs[sub.id := sub], m, after[m]) && AdjOk(subs[sub.id := sub], after[m]) {
      assert OwnAgent(owner, subs, m, agents[m]) && AdjOk(subs, agents[m]);
    }
    forall w | w in runs ensures OwnRun(owner, subs[sub.id := sub], w, runs[w]) {
      assert OwnRun(owner, subs, w, runs[w]);
    }
  }

  lemma WorkerReceives(owner: Owner, subs: Subs, agents: seq<Agent>, jobs: seq<string>, runs: map<nat, Run>, w: nat)
    requires Owned(owner, subs, agents, jobs, runs) && jobs != [] && w !in runs
    ensures Owned(owner[jobs[0] := ByWorker(w)], subs, agents, jobs[1..], runs[w := Run(jobs[0], Start)])
  {
    hide HeldBy, HeldStatus, AdjOk;
    var id := jobs[0];
    var owner' := owner[id := ByWorker(w)];
    assert OwnJob(owner, jobs[0]);
    forall m | 0 <= m < |agents| ensures OwnAgent(owner', subs, m, agents[m]) {
      assert OwnAgent(owner, subs, m, agents[m]);
    }
    forall i | 0 <= i < |jobs[1..]| ensures OwnJob(owner', jobs[1..][i]) {
      assert OwnJob(owner, jobs[i + 1]) && jobs[0] != jobs[i + 1];
    }
    forall v | v in runs ensures OwnRun(owner', subs, v, runs[v]) {
      assert OwnRun(owner, subs, v, runs[v]);
    }
  }

  lemma WorkerFinishes(owner: Owner, subs: Subs, agents: seq<Agent>, jobs: seq<string>, runs: map<nat, Run>, w: nat)
    requires Owned(owner, subs, agents, jobs, runs) && w in runs && runs[w].stage.Ended?
    ensures Owned(owner, subs, agents, jobs, runs - {w})
  {
    hide OwnRun, OwnAgent, OwnSubs, AdjOk;
  }

  /** A run moves on, writing the submission it holds or leaving the store alone. */
  lemma RunMoves(owner: Owner, subs: Subs, agents: seq<Agent>, jobs: seq<string>, runs: map<nat, Run>, w: nat, s: Stage, sub: Submission)
    requires Owned(owner, subs, agents, jobs, runs) && w in runs && !runs[w].stage.Ended?
    requires sub.id == runs[w].id && Busy(sub.status) && CopyOk(s, sub) && !s.Ended?
    ensures Owned(owner, subs[sub.id := sub], agents, jobs, runs[w := runs[w].(stage := s)])
  {
    hide CopyOk;
    var subs' := subs[sub.id := sub];
    assert OwnRun(owner, subs, w, runs[w]);
    forall m | 0 <= m < |agents| ensures OwnAgent(owner, subs', m, agents[m]) && AdjOk(subs', agents[m]) {
      assert OwnAgent(owner, subs, m, agents[m]) && AdjOk(subs, agents[m]);
    }
    forall v | v in runs && v != w ensures OwnRun(owner, subs', v, runs[v]) {
      assert OwnRun(owner, subs, v, runs[v]);
    }
  }

  /** A run performs its final write. */
  lemma RunEnds(owner: Owner, subs: Subs, agents: seq<Agent>, jobs: seq<string>, runs: map<nat, Run>, w: nat, sub: Submission)
    requires Owned(owner, subs, agents, jobs, runs) && w in runs && !runs[w].stage.Ended?
    requires sub.id == runs[w].id && !Busy(sub.status)
    ensures Owned(owner - {sub.id}, subs[sub.id := sub], agents, jobs, runs[w := runs[w].(stage := Ended)])
  {
    hide CopyOk;
    var subs', owner' := subs[sub.id := sub], owner - {sub.id};
    assert OwnRun(owner, subs, w, runs[w]);
    forall m | 0 <= m < |agents| ensures OwnAgent(owner', subs', m, agents[m]) && AdjOk(subs', agents[m]) {
      assert OwnAgent(owner, subs, m, agents[m]) && AdjOk(subs, agents[m]);
    }
    forall i | 0 <= i < |jobs| ensures OwnJob(owner', jobs[i]) {
      assert OwnJob(owner, jobs[i]);
    }
    forall v | v in runs && v != w ensures OwnRun(owner', subs', v, runs[v]) {
      assert OwnRun(owner, subs, v, runs[v]);
    }
  }

  // ---- steps ----

  ghost predicate OwnedBy(g: State, owner: Owner) {
    g.pool.started <= |g.pool.commitLog| && Owned(owner, g.store.submissions, g.agents, P.Jobs(g.pool), g.runs)
  }

  /** Submission ids in the store have all been handed out. */
  ghost predicate UsedInv(g: State) {
    forall id :: id in g.store.submissions ==> id in g.used
  }

  ghost predicate Inv(g: State, owner: Owner) {
    PoolInv(g) && OwnedBy(g, owner) && UsedInv(g)
  }

  /** A put either stores the new submission, which its handler then holds, or changes neither the
      submissions nor what the handler holds. */
  lemma PutShape(g: State, n: nat, id: string)
    requires n < |g.agents| && g.agents[n].CreateReserved?
    ensures var h, a := StepCreatePut(g, n, id), g.agents[n];
            && h.pool == g.pool && h.runs == g.runs && h.used == g.used + {id}
            && (|| (&& h.agents == g.agents[n := CreateStored(a.key, a.token, id)]
                    && h.store.submissions == g.store.submissions[id := Submission(id, a.hasPolicy, a.eligible, Accepted, None, [], None)])
                || (h.agents == g.agents[n := CreateReleasing(a.token)] && h.store.submissions == g.store.submissions))
  {
    hide Logged, Clash, HashOf;
  }

  lemma CreatePutStep(g: State, n: nat, id: string, owner: Owner) returns (owner': Owner)
    requires Inv(g, owner) && n < |g.agents| && g.agents[n].CreateReserved? && FreshId(g, id)
    ensures OwnedBy(StepCreatePut(g, n, id), owner') && UsedInv(StepCreatePut(g, n, id))
  {
    hide Owned, PoolInv, StepCreatePut;
    var subs, agents, jobs, runs := g.store.submissions, g.agents, P.Jobs(g.pool), g.runs;
    var h, a := StepCreatePut(g, n, id), g.agents[n];
    PutShape(g, n, id);
    if h.agents == agents[n := CreateReleasing(a.token)] && h.store.submissions == subs {
      AgentMoves(owner, subs, agents, jobs, runs, n, CreateReleasing(a.token));
      owner' := owner;
    } else {
      AgentAcquires(owner, subs, agents, jobs, runs, n, CreateStored(a.key, a.token, id), h.store.submissions[id]);
      owner' := owner[id := ByAgent(n)];
    }
  }

  lemma CreateAbandonStep(g: State, n: nat, owner: Owner)
    requires Inv(g, owner) && n < |g.agents| && g.agents[n].CreateAbandoning?
    ensures OwnedBy(StepCreateAbandon(g, n), owner - {g.agents[n].id}) && UsedInv(StepCreateAbandon(g, n))
  {
    hide Owned, PoolInv, Logged;
    var subs, agents, jobs, runs, id := g.store.submissions, g.agents, P.Jobs(g.pool), g.runs, g.agents[n].id;
    AbandonDrops(owner, subs, agents, jobs, runs, n);
    AgentLetsGo(owner, subs, agents, jobs, runs, n, CreateReleasing(agents[n].token), id, subs - {id});
  }

  lemma CreateSteps(g: State, e: Event, owner: Owner) returns (owner': Owner)
    requires Inv(g, owner) && Enabled(g, e)
    requires e.CreateReserve? || e.CreatePut? || e.CreateAbandon? || e.CreateRelease?
    ensures OwnedBy(Apply(g, e), owner') && UsedInv(Apply(g, e))
  {
    hide ApplyRun, RunEnabled, Owned, PoolInv, StepCreatePut, StepCreateAbandon;
    if e.CreatePut? {
      owner' := CreatePutStep(g, e.n, e.id, owner);
    } else if e.CreateAbandon? {
      CreateAbandonStep(g, e.n, owner);
      owner' := owner - {g.agents[e.n].id};
    } else {
      AgentMoves(owner, g.store.submissions, g.agents, P.Jobs(g.pool), g.runs, e.n, Apply(g, e).agents[e.n]);
      owner' := owner;
    }
  }

  /** What a handler holds is stored with the status it expects. */
  lemma AbandonDrops(owner: Owner, subs: Subs, agents: seq<Agent>, jobs: seq<string>, runs: map<nat, Run>, n: nat)
    requires Owned(owner, subs, agents, jobs, runs) && n < |agents| && HeldBy(agents[n]).Some?
    ensures HeldBy(agents[n]).value in subs && subs[HeldBy(agents[n]).value].status == HeldStatus(agents[n])
    ensures subs[HeldBy(agents[n]).value].id == HeldBy(agents[n]).value
  {
    assert OwnAgent(owner, subs, n, agents[n]);
  }

  lemma CommitSteps(g: State, e: Event, owner: Owner) returns (owner': Owner)
    requires Inv(g, owner) && Enabled(g, e) && (e.CreateCommit? || e.ResumeCommit?)
    ensures OwnedBy(Apply(g, e), owner') && UsedInv(Apply(g, e))
  {
    hide ApplyRun, RunEnabled, Owned, PoolInv;
    var subs, agents, jobs, runs := g.store.submissions, g.agents, P.Jobs(g.pool), g.runs;
    var h, n, id := Apply(g, e), e.n, g.agents[e.n].id;
    if P.DoCommit(g.pool, agents[n].token, id).1 == P.Ok {
      AgentEnqueues(owner, subs, agents, jobs, runs, n, id);
      owner' := owner[id := InQueue];
      assert P.Jobs(h.pool) == jobs + [id];
    } else {
      AgentMoves(owner, subs, agents, jobs, runs, n, h.agents[n]);
      owner' := owner;
    }
  }

  lemma ResumeSteps(g: State, e: Event, owner: Owner) returns (owner': Owner)
    requires Inv(g, owner) && Enabled(g, e) && (e.ResumeClaim? || e.ResumeReserve? || e.ResumeUndo?)
    ensures OwnedBy(Apply(g, e), owner') && UsedInv(Apply(g, e))
  {
    hide ApplyRun, RunEnabled, Owned, PoolInv;
    var subs, agents, jobs, runs := g.store.submissions, g.agents, P.Jobs(g.pool), g.runs;
    var h, n, id := Apply(g, e), e.n, g.agents[e.n].id;
    if e.ResumeClaim? && DoClaimResume(g.store, id).1 {
      StoredId(owner, subs, agents, jobs, runs, id);
      AgentAcquires(owner, subs, agents, jobs, runs, n, h.agents[n], subs[id].(status := Running));
      owner' := owner[id := ByAgent(n)];
    } else if e.ResumeUndo? {
      AbandonDrops(owner, subs, agents, jobs, runs, n);
      AgentLetsGo(owner, subs, agents, jobs, runs, n, Finished, id, h.store.submissions);
      owner' := owner - {id};
    } else {
      AgentMoves(owner, subs, agents, jobs, runs, n, h.agents[n]);
      owner' := owner;
    }
  }

  lemma StoredId(owner: Owner, subs: Subs, agents: seq<Agent>, jobs: seq<string>, runs: map<nat, Run>, id: string)
    requires Owned(owner, subs, agents, jobs, runs) && id in subs
    ensures subs[id].id == id
  {
  }

  lemma AdjSteps(g: State, e: Event, owner: Owner)
    requires Inv(g, owner) && Enabled(g, e) && (e.AdjLoad? || e.AdjFetch? || e.AdjPut?)
    ensures OwnedBy(Apply(g, e), owner) && UsedInv(Apply(g, e))
  {
    hide ApplyRun, RunEnabled, Owned, PoolInv;
    var subs, agents, jobs, runs := g.store.submissions, g.agents, P.Jobs(g.pool), g.runs;
    var h, n := Apply(g, e), e.n;
    CopyStored(owner, subs, agents, jobs, runs, n);
    if e.AdjLoad? && agents[n].id in subs { StoredId(owner, subs, agents, jobs, runs, agents[n].id); }
    AgentMoves(owner, subs, agents, jobs, runs, n, h.agents[n]);
  }

  lemma AdjWriteStep(g: State, n: nat, owner: Owner)
    requires Inv(g, owner) && n < |g.agents| && g.agents[n].AdjStored?
    ensures OwnedBy(StepAdjWrite(g, n), owner) && UsedInv(StepAdjWrite(g, n))
  {
    hide Owned, PoolInv;
    CopyStored(owner, g.store.submissions, g.agents, P.Jobs(g.pool), g.runs, n);
    AdjudicatorWrites(owner, g.store.submissions, g.agents, P.Jobs(g.pool), g.runs, n, g.agents[n].sub);
  }

  lemma CopyStored(owner: Owner, subs: Subs, agents: seq<Agent>, jobs: seq<string>, runs: map<nat, Run>, n: nat)
    requires Owned(owner, subs, agents, jobs, runs) && n < |agents|
    ensures AdjOk(subs, agents[n])
  {
  }

  lemma WorkerSteps(g: State, e: Event, owner: Owner) returns (owner': Owner)
    requires Inv(g, owner) && Enabled(g, e) && (e.Receive? || e.Finish? || e.Close? || e.Arrive?)
    ensures OwnedBy(Apply(g, e), owner') && UsedInv(Apply(g, e))
  {
    hide ApplyRun, RunEnabled, Owned, TokensHeld, P.Accounted, P.Conserved;
    var subs, agents, jobs, runs := g.store.submissions, g.agents, P.Jobs(g.pool), g.runs;
    owner' := owner;
    match e
    case Receive(w) =>
      WorkerReceives(owner, subs, agents, jobs, runs, w);
      owner' := owner[jobs[0] := ByWorker(w)];
    case Finish(w) => WorkerFinishes(owner, subs, agents, jobs, runs, w);
    case Arrive(a) => AgentArrives(owner, subs, agents, jobs, runs, a);
    case Close =>
  }

  /** The submission of a live run is stored, busy, and matches the run's copy. */
  lemma RunStored(g: State, owner: Owner, w: nat)
    requires PoolInv(g) && OwnedBy(g, owner) && w in g.runs && !g.runs[w].stage.Ended?
    ensures var id := g.runs[w].id; var subs := g.store.submissions;
            id in subs && subs[id].id == id && Busy(subs[id].status) && CopyOk(g.runs[w].stage, subs[id])
  {
    hide CopyOk, PoolInv;
    assert OwnRun(owner, g.store.submissions, w, g.runs[w]);
  }

  lemma RunSteps(g: State, e: Event, owner: Owner)
    requires Inv(g, owner) && Enabled(g, e) && IsRunEvent(e) && !e.RunWrite?
    ensures OwnedBy(Apply(g, e), owner) && UsedInv(Apply(g, e))
  {
    hide ApplyHandler, HandlerEnabled, Owned, PoolInv;
    var subs, agents, jobs, runs := g.store.submissions, g.agents, P.Jobs(g.pool), g.runs;
    var h, w := Apply(g, e), e.w;
    RunStored(g, owner, w);
    var id := runs[w].id;
    var sub := if e.RunMark? || e.RunSave? then runs[w].stage.sub else subs[id];
    RunMoves(owner, subs, agents, jobs, runs, w, h.runs[w].stage, sub);
    assert subs[id := subs[id]] == subs;
  }

  lemma FinalStep(g: State, e: Event, owner: Owner)
    requires Inv(g, owner) && Enabled(g, e) && e.RunWrite?
    ensures OwnedBy(Apply(g, e), owner - {g.runs[e.w].id}) && UsedInv(Apply(g, e))
  {
    hide ApplyHandler, HandlerEnabled, Owned, PoolInv;
    RunStored(g, owner, e.w);
    RunEnds(owner, g.store.submissions, g.agents, P.Jobs(g.pool), g.runs, e.w, g.runs[e.w].stage.sub);
  }

  lemma AdjWriteIs(g: State, n: nat)
    requires Enabled(g, AdjWrite(n))
    ensures Apply(g, AdjWrite(n)) == StepAdjWrite(g, n)
  {
    hide StepAdjWrite;
  }

  /** Every step keeps the single-holder invariant. */
  lemma StepKeepsOwners(g: State, e: Event, owner: Owner) returns (owner': Owner)
    requires Inv(g, owner) && Enabled(g, e)
    ensures Inv(Apply(g, e), owner')
  {
    hide Owned, P.Inv, TokensHeld, Aligned, UsedInv, Apply;
    StepKeepsPoolInv(g, e);
    if IsRunEvent(e) {
      if e.RunWrite? {
        FinalStep(g, e, owner);
        owner' := owner - {g.runs[e.w].id};
      } else {
        RunSteps(g, e, owner);
        owner' := owner;
      }
    } else if e.Receive? || e.Finish? || e.Close? || e.Arrive? {
      owner' := WorkerSteps(g, e, owner);
    } else if e.CreateCommit? || e.ResumeCommit? {
      owner' := CommitSteps(g, e, owner);
    } else if e.ResumeClaim? || e.ResumeReserve? || e.ResumeUndo? {
      owner' := ResumeSteps(g, e, owner);
    } else if e.AdjLoad? || e.AdjFetch? || e.AdjPut? {
      AdjSteps(g, e, owner);
      owner' := owner;
    } else if e.AdjWrite? {
      AdjWriteStep(g, e.n, owner);
      AdjWriteIs(g, e.n);
      owner' := owner;
    } else {
      owner' := CreateSteps(g, e, owner);
    }
  }
}
