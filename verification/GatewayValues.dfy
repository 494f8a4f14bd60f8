/** What the decisions say: a deferred submission points to a machine decision to defer, a completed one
    to a decision that does not defer, and a consumer decision allows or denies what it resolves. */
module GatewayValues {
  import opened Seqs
  import opened MemoryStore
  import opened Gateway
  import opened GatewayTokens
  import opened GatewayOwners
  import opened GatewayKeys
  import opened GatewayDecisions
  import opened GatewayTheorems
  import Policy
  import P = LocalPool

  // ---- a claimed submission ----

  predicate Resuming(a: Agent) {
    a.ResumeClaimed? || a.ResumeReserved? || a.ResumeUndoing?
  }

  predicate Acts(e: Event, m: nat) {
    match e
    case CreateReserve(n, _) => n == m
    case CreatePut(n, _) => n == m
    case CreateCommit(n) => n == m
    case CreateAbandon(n) => n == m
    case CreateRelease(n) => n == m
    case ResumeClaim(n) => n == m
    case ResumeReserve(n, _) => n == m
    case ResumeCommit(n) => n == m
    case ResumeUndo(n) => n == m
    case AdjLoad(n) => n == m
    case AdjFetch(n) => n == m
    case AdjPut(n, _, _) => n == m
    case AdjWrite(n) => n == m
    case _ => false
  }

  /** No step but those of the claimant changes a claimed submission. */
  lemma ClaimedKept(g: State, owner: Owner, e: Event, m: nat)
    requires GatewayInv(g, owner) && Enabled(g, e) && m < |g.agents| && Resuming(g.agents[m]) && !Acts(e, m)
    ensures Kept(g, Apply(g, e), g.agents[m].id)
  {
    hide GatewayInv, Apply, Enabled, WrittenId;
    var id := g.agents[m].id;
    HeldStored(g, owner, m);
    PlaceOfOwner(g, owner, AtAgent(m), id);
    if WrittenId(g, e) != Some(id) {
      WritesOnlyThat(g, e, id);
    } else {
      ClaimedWrite(g, owner, e, m);
    }
  }

  lemma ClaimedWrite(g: State, owner: Owner, e: Event, m: nat)
    requires GatewayInv(g, owner) && Enabled(g, e) && m < |g.agents| && Resuming(g.agents[m]) && !Acts(e, m)
    requires WrittenId(g, e) == Some(g.agents[m].id)
    requires HasStatus(g, g.agents[m].id, Running) && g.agents[m].id in owner && owner[g.agents[m].id] == ByAgent(m)
    ensures Kept(g, Apply(g, e), g.agents[m].id)
  {
    hide GatewayInv, Logged;
    var id := g.agents[m].id;
    if e.CreateAbandon? || e.ResumeUndo? {
      PlaceOfOwner(g, owner, AtAgent(e.n), id);
    } else if e.CreatePut? {
      FreshNotStored(g, owner, id);
    } else if e.AdjWrite? {
      AdjCompleted(g, owner, e.n);
    } else if e.RunMark? || e.RunSave? || e.RunWrite? {
      RunWritesOwn(g, owner, e.w);
      PlaceOfOwner(g, owner, AtRun(e.w), id);
    }
  }

  // ---- the invariant ----

  ghost predicate DeferLink(ds: Decisions, sub: Submission) {
    && sub.decisionId.Some? && sub.decisionId.value in ds
    && ds[sub.decisionId.value].value == Policy.Defer && PriorOf(ds[sub.decisionId.value]).None?
  }

  /** A submission's decision is its own; a postponed one waits on a machine decision to defer, also while
      it is being resumed; a completed one has a decision that does not defer. */
  ghost predicate LinkOk(ds: Decisions, sub: Submission) {
    && (sub.decisionId.Some? ==> sub.decisionId.value in ds && ds[sub.decisionId.value].submissionId == sub.id)
    && (sub.status == Deferred ==> sub.completion == Some(Postponed))
    && (sub.completion == Some(Postponed) ==> (sub.status == Deferred || sub.status == Running) && DeferLink(ds, sub))
    && (sub.status == Completed && sub.decisionId.Some? ==>
          sub.decisionId.value in ds && ds[sub.decisionId.value].value != Policy.Defer && sub.completion == Some(DecisionProduced))
  }

  /** A consumer decision allows or denies, and resolves a decision on the same submission that does not
      defer. */
  ghost predicate ResolvesOk(ds: Decisions, d: StoredDecision) {
    PriorOf(d).Some? ==>
      && (d.value == Policy.Allow || d.value == Policy.Deny)
      && PriorOf(d).value in ds
      && ds[PriorOf(d).value].submissionId == d.submissionId
      && ds[PriorOf(d).value].value != Policy.Defer
  }

  ghost predicate StageLinks(ds: Decisions, s: Stage) {
    s.Writing? ==> LinkOk(ds, s.sub)
  }

  ghost predicate AgentLinks(ds: Decisions, subs: Subs, a: Agent) {
    match a
    case ResumeClaimed(id) => id in subs ==> subs[id].completion == Some(Postponed)
    case ResumeReserved(id, _) => id in subs ==> subs[id].completion == Some(Postponed)
    case ResumeUndoing(id) => id in subs ==> subs[id].completion == Some(Postponed)
    case AdjLoaded(sub, value) => (value == Policy.Allow || value == Policy.Deny) && LinkOk(ds, sub)
    case AdjPrior(sub, value, prior) =>
      && (value == Policy.Allow || value == Policy.Deny) && LinkOk(ds, sub)
      && prior.id in ds && ds[prior.id] == prior && prior.submissionId == sub.id && prior.value != Policy.Defer
    case AdjStored(sub) => LinkOk(ds, sub)
    case _ => true
  }

  ghost predicate SubsLinked(st: Store) {
    forall id :: id in st.submissions ==> LinkOk(st.decisions, st.submissions[id])
  }

  ghost predicate ValueInv(g: State) {
    && (forall d :: d in g.store.decisions ==> ResolvesOk(g.store.decisions, g.store.decisions[d]))
    && SubsLinked(g.store)
    && (forall w :: w in g.runs ==> StageLinks(g.store.decisions, g.runs[w].stage))
    && (forall n :: 0 <= n < |g.agents| ==> AgentLinks(g.store.decisions, g.store.submissions, g.agents[n]))
  }

  lemma LinkGrows(a: Store, b: Store, sub: Submission)
    requires Grows(a, b) && LinkOk(a.decisions, sub)
    ensures LinkOk(b.decisions, sub)
  {
    hide PriorOf;
  }

  lemma ResolvesGrows(a: Store, b: Store, d: StoredDecision)
    requires Grows(a, b) && ResolvesOk(a.decisions, d)
    ensures ResolvesOk(b.decisions, d)
  {
    hide PriorOf;
  }

  lemma AgentKept(a: Store, b: Store, x: Agent)
    requires Grows(a, b) && AgentLinks(a.decisions, a.submissions, x)
    requires Resuming(x) && x.id in b.submissions ==> x.id in a.submissions && b.submissions[x.id] == a.submissions[x.id]
    ensures AgentLinks(b.decisions, b.submissions, x)
  {
    hide PriorOf, LinkOk;
    if x.AdjLoaded? || x.AdjPrior? || x.AdjStored? { LinkGrows(a, b, x.sub); }
  }

  // ---- what a step writes ----

  lemma StoredLink(g: State, owner: Owner, id: string)
    requires GatewayInv(g, owner) && ValueInv(g) && id in g.store.submissions
    ensures LinkOk(g.store.decisions, g.store.submissions[id]) && g.store.submissions[id].id == id
  {
    hide GatewayInv, LinkOk, ResolvesOk, StageLinks, AgentLinks;
    OwnerIffBusy(g, owner, id);
  }

  lemma RunCopy(g: State, owner: Owner, w: nat)
    requires GatewayInv(g, owner) && w in g.runs && !g.runs[w].stage.Ended?
    ensures var id := g.runs[w].id; var subs := g.store.submissions;
            id in subs && subs[id].id == id && Busy(subs[id].status) && CopyOk(g.runs[w].stage, subs[id])
  {
    hide KeyInv, AcceptedInv, DecisionInv, PoolInv, OwnedBy, UsedInv, CopyOk;
    RunStored(g, owner, w);
  }

  lemma AgentIn(g: State, n: nat)
    requires ValueInv(g) && n < |g.agents|
    ensures AgentLinks(g.store.decisions, g.store.submissions, g.agents[n])
  {
    hide LinkOk, ResolvesOk, StageLinks, AgentLinks;
  }

  lemma AdjCopyIs(g: State, owner: Owner, n: nat)
    requires GatewayInv(g, owner) && n < |g.agents| && AdjCopy(g.agents[n]).Some?
    ensures var sub := AdjCopy(g.agents[n]).value; var subs := g.store.submissions;
            sub.id in subs && subs[sub.id].status == Completed && sub == subs[sub.id].(decisionId := sub.decisionId)
  {
    hide KeyInv, AcceptedInv, DecisionInv, PoolInv, UsedInv, Real, OwnRun, OwnAgent, OwnSubs;
    assert AdjOk(g.store.submissions, g.agents[n]);
  }

  lemma HandlerWrites(g: State, owner: Owner, e: Event)
    requires GatewayInv(g, owner) && ValueInv(g) && Enabled(g, e)
    requires e.ResumeClaim? || e.ResumeUndo? || e.AdjWrite? || e.CreateAbandon?
    ensures var h := Apply(g, e);
            forall id :: id in h.store.submissions && WrittenId(g, e) == Some(id) ==> LinkOk(h.store.decisions, h.store.submissions[id])
  {
    hide ApplyRun, RunEnabled, GatewayInv, ValueInv, PriorOf, Logged;
    AgentIn(g, e.n);
    if (e.ResumeClaim? || e.ResumeUndo?) && g.agents[e.n].id in g.store.submissions {
      StoredLink(g, owner, g.agents[e.n].id);
    }
    if e.CreateAbandon? { HeldStored(g, owner, e.n); }
  }

  lemma CreatePutWrites(g: State, owner: Owner, n: nat, id: string)
    requires GatewayInv(g, owner) && ValueInv(g) && n < |g.agents| && g.agents[n].CreateReserved? && FreshId(g, id)
    ensures var h := StepCreatePut(g, n, id);
            id in h.store.submissions ==> LinkOk(h.store.decisions, h.store.submissions[id])
  {
    hide GatewayInv, ValueInv, StepCreatePut;
    PutShape(g, n, id);
    FreshNotStored(g, owner, id);
  }

  lemma RunWrites(g: State, owner: Owner, e: Event)
    requires GatewayInv(g, owner) && ValueInv(g) && Enabled(g, e) && (e.RunMark? || e.RunSave? || e.RunWrite?)
    ensures var h := Apply(g, e);
            forall id :: id in h.store.submissions && WrittenId(g, e) == Some(id) ==> LinkOk(h.store.decisions, h.store.submissions[id])
  {
    hide ApplyHandler, HandlerEnabled, GatewayInv, PriorOf, AgentLinks, ResolvesOk, SubsLinked;
    RunCopy(g, owner, e.w);
    StoredLink(g, owner, g.runs[e.w].id);
    assert StageLinks(g.store.decisions, g.runs[e.w].stage);
  }

  /** Every submission after the step is linked. */
  lemma SubsStep(g: State, owner: Owner, e: Event)
    requires GatewayInv(g, owner) && ValueInv(g) && Enabled(g, e)
    ensures SubsLinked(Apply(g, e).store)
  {
    hide GatewayInv, ValueInv, Apply, Enabled, WrittenId, LinkOk, Grows;
    var h := Apply(g, e);
    GrowsStep(g, owner, e);
    forall id | id in h.store.submissions ensures LinkOk(h.store.decisions, h.store.submissions[id]) {
      if WrittenId(g, e) != Some(id) {
        OldStays(g, e, id);
        WritesOnlyThat(g, e, id);
        StoredLink(g, owner, id);
        LinkGrows(g.store, h.store, g.store.submissions[id]);
      } else if e.CreatePut? {
        CreatePutWritten(g, owner, e, id);
      } else if IsRunEvent(e) {
        WriterKinds(g, e);
        RunWrites(g, owner, e);
      } else {
        WriterKinds(g, e);
        HandlerWrites(g, owner, e);
      }
    }
  }

  lemma CreatePutWritten(g: State, owner: Owner, e: Event, id: string)
    requires GatewayInv(g, owner) && ValueInv(g) && Enabled(g, e) && e.CreatePut? && WrittenId(g, e) == Some(id)
    requires id in Apply(g, e).store.submissions
    ensures LinkOk(Apply(g, e).store.decisions, Apply(g, e).store.submissions[id])
  {
    hide GatewayInv, ValueInv, StepCreatePut, LinkOk;
    CreatePutWrites(g, owner, e.n, id);
  }

  lemma WriterKinds(g: State, e: Event)
    requires Enabled(g, e) && WrittenId(g, e).Some?
    ensures IsRunEvent(e) ==> e.RunMark? || e.RunSave? || e.RunWrite?
    ensures !IsRunEvent(e) ==> e.CreatePut? || e.ResumeClaim? || e.ResumeUndo? || e.AdjWrite? || e.CreateAbandon?
  {
  }

  lemma GrowsStep(g: State, owner: Owner, e: Event)
    requires GatewayInv(g, owner) && Enabled(g, e)
    ensures Grows(g.store, Apply(g, e).store)
  {
    hide GatewayOwners.Inv, KeyInv, AcceptedInv, DecisionInv, Apply, Enabled;
    StepGrows(g, e);
  }

  /** Only a create puts a submission where there was none. */
  lemma OldStays(g: State, e: Event, id: string)
    requires Enabled(g, e) && id in Apply(g, e).store.submissions && WrittenId(g, e) != Some(id)
    ensures id in g.store.submissions
  {
    hide Apply, Enabled, WrittenId;
    if IsRunEvent(e) { OldStaysRun(g, e, id); } else if e.CreatePut? { OldStaysPut(g, e, id); } else { OldStaysHandler(g, e, id); }
  }

  lemma OldStaysRun(g: State, e: Event, id: string)
    requires Enabled(g, e) && IsRunEvent(e) && id in Apply(g, e).store.submissions && WrittenId(g, e) != Some(id)
    ensures id in g.store.submissions
  {
    hide ApplyHandler, HandlerEnabled, InterruptedStage, StepRunStart, StepRunFail, StepRunIneligible, StepRunInterrupt, StepRunResult, StepRunReload, StepRunDecide;
  }

  lemma OldStaysPut(g: State, e: Event, id: string)
    requires Enabled(g, e) && e.CreatePut? && id in Apply(g, e).store.submissions && WrittenId(g, e) != Some(id)
    ensures id in g.store.submissions
  {
    hide ApplyRun, RunEnabled, StepCreatePut;
    PutShape(g, e.n, e.id);
  }

  lemma OldStaysHandler(g: State, e: Event, id: string)
    requires Enabled(g, e) && !IsRunEvent(e) && !e.CreatePut? && id in Apply(g, e).store.submissions && WrittenId(g, e) != Some(id)
    ensures id in g.store.submissions
  {
    hide ApplyRun, RunEnabled, Logged, ConsumerExt, StepCreateReserve, StepCreateCommit, StepCreateRelease, StepResumeReserve, StepResumeCommit,
      StepAdjLoad, StepAdjFetch, StepAdjPut, StepReceive, StepFinish, P.DoClose, P.Enabled;
  }

  // ---- runs, handlers and new decisions after a step ----

  lemma StoredSubOk(g: State, owner: Owner, id: string)
    requires GatewayInv(g, owner) && id in g.store.submissions
    ensures SubOk(g.store.decisions, g.store.submissions[id])
  {
    hide GatewayOwners.Inv, KeyInv, AcceptedInv, Rooted, StageOk, AgentOk, SubOk, ListsStored;
  }

  lemma StageStep(g: State, owner: Owner, e: Event)
    requires GatewayInv(g, owner) && ValueInv(g) && Enabled(g, e) && IsRunEvent(e) && !e.RunDecide?
    ensures e.w in Apply(g, e).runs && StageLinks(Apply(g, e).store.decisions, Apply(g, e).runs[e.w].stage)
  {
    hide ApplyHandler, HandlerEnabled, GatewayInv, ValueInv, PriorOf, DeferLink, Busy;
    RunCopy(g, owner, e.w);
    StoredLink(g, owner, g.runs[e.w].id);
    StoredSubOk(g, owner, g.runs[e.w].id);
  }

  lemma DecideStage(g: State, owner: Owner, e: Event)
    requires GatewayInv(g, owner) && ValueInv(g) && Enabled(g, e) && e.RunDecide?
    ensures e.w in Apply(g, e).runs && StageLinks(Apply(g, e).store.decisions, Apply(g, e).runs[e.w].stage)
    ensures ResolvesOk(Apply(g, e).store.decisions, Apply(g, e).store.decisions[e.id])
  {
    hide ApplyHandler, HandlerEnabled, GatewayInv, ValueInv, Busy;
    RunCopy(g, owner, e.w);
  }

  lemma RunEventKeeps(g: State, e: Event)
    requires Enabled(g, e) && IsRunEvent(e)
    ensures e.w in Apply(g, e).runs && Apply(g, e).agents == g.agents && Apply(g, e).runs == g.runs[e.w := Apply(g, e).runs[e.w]]
    ensures !e.RunDecide? ==> Apply(g, e).store.decisions == g.store.decisions
    ensures e.RunDecide? ==> e.id in Apply(g, e).store.decisions && Apply(g, e).store.decisions == g.store.decisions[e.id := Apply(g, e).store.decisions[e.id]]
  {
    hide ApplyHandler, HandlerEnabled, StepRunStart, StepRunMark, StepRunFail, StepRunIneligible, StepRunInterrupt, StepRunReload, StepRunSave, StepRunWrite;
  }

  lemma RunKeepsValues(g: State, owner: Owner, e: Event)
    requires GatewayInv(g, owner) && ValueInv(g) && Enabled(g, e) && IsRunEvent(e)
    ensures ValueInv(Apply(g, e))
  {
    hide GatewayInv, Apply, Enabled, SubsLinked, LinkOk, ResolvesOk, StageLinks, AgentLinks, Grows;
    var h := Apply(g, e);
    SubsStep(g, owner, e);
    GrowsStep(g, owner, e);
    RunEventKeeps(g, e);
    assert forall n :: !Acts(e, n);
    hide Acts;
    if e.RunDecide? { DecideStage(g, owner, e); } else { StageStep(g, owner, e); }
    forall d | d in h.store.decisions ensures ResolvesOk(h.store.decisions, h.store.decisions[d]) {
      if !(e.RunDecide? && e.id == d) { ResolvesGrows(g.store, h.store, g.store.decisions[d]); }
    }
    forall w | w in h.runs ensures StageLinks(h.store.decisions, h.runs[w].stage) {
      if w != e.w { StageKept(g.store, h.store, g.runs[w].stage); }
    }
    forall n | 0 <= n < |h.agents| ensures AgentLinks(h.store.decisions, h.store.submissions, h.agents[n]) {
      OtherAgent(g, owner, e, n);
    }
  }

  lemma StageKept(a: Store, b: Store, s: Stage)
    requires Grows(a, b) && StageLinks(a.decisions, s)
    ensures StageLinks(b.decisions, s)
  {
    if s.Writing? { LinkGrows(a, b, s.sub); }
  }

  lemma OtherAgent(g: State, owner: Owner, e: Event, n: nat)
    requires GatewayInv(g, owner) && Enabled(g, e) && n < |g.agents| && !Acts(e, n) && Grows(g.store, Apply(g, e).store)
    requires AgentLinks(g.store.decisions, g.store.submissions, g.agents[n])
    ensures AgentLinks(Apply(g, e).store.decisions, Apply(g, e).store.submissions, g.agents[n])
  {
    hide GatewayInv, Apply, Enabled, LinkOk, Grows, AgentLinks;
    if Resuming(g.agents[n]) { ClaimedKept(g, owner, e, n); }
    AgentKept(g.store, Apply(g, e).store, g.agents[n]);
  }

  /** The handler that acts. */
  lemma ActorStep(g: State, owner: Owner, e: Event)
    requires GatewayInv(g, owner) && ValueInv(g) && Enabled(g, e)
    requires e.CreateReserve? || e.CreateCommit? || e.CreateRelease? || e.ResumeReserve? || e.ResumeCommit?
    ensures e.n < |Apply(g, e).agents| && AgentLinks(Apply(g, e).store.decisions, Apply(g, e).store.submissions, Apply(g, e).agents[e.n])
  {
    hide ApplyRun, RunEnabled, GatewayInv, ValueInv, LinkOk, P.DoReserve, P.DoCommit, P.DoRelease;
    AgentIn(g, e.n);
  }

  lemma StoringActor(g: State, owner: Owner, e: Event)
    requires GatewayInv(g, owner) && ValueInv(g) && Enabled(g, e)
    requires e.CreatePut? || e.CreateAbandon? || e.ResumeClaim? || e.ResumeUndo? || e.AdjWrite?
    ensures e.n < |Apply(g, e).agents| && AgentLinks(Apply(g, e).store.decisions, Apply(g, e).store.submissions, Apply(g, e).agents[e.n])
  {
    hide ApplyRun, RunEnabled, GatewayInv, ValueInv, StepCreatePut, Logged;
    if e.CreatePut? { PutShape(g, e.n, e.id); }
    if e.ResumeClaim? && g.agents[e.n].id in g.store.submissions { StoredLink(g, owner, g.agents[e.n].id); }
  }

  lemma AdjActor(g: State, owner: Owner, e: Event)
    requires GatewayInv(g, owner) && ValueInv(g) && Enabled(g, e) && (e.AdjLoad? || e.AdjFetch?)
    ensures e.n < |Apply(g, e).agents| && AgentLinks(Apply(g, e).store.decisions, Apply(g, e).store.submissions, Apply(g, e).agents[e.n])
  {
    hide ApplyRun, RunEnabled, GatewayInv, ValueInv, DeferLink;
    AgentIn(g, e.n);
    if e.AdjLoad? {
      if g.agents[e.n].id in g.store.submissions { StoredLink(g, owner, g.agents[e.n].id); }
    } else {
      AdjCopyIs(g, owner, e.n);
      if g.agents[e.n].sub.decisionId.Some? && g.agents[e.n].sub.decisionId.value in g.store.decisions {
        DecisionNamed(g, owner, g.agents[e.n].sub.decisionId.value);
      }
    }
  }

  lemma DecisionNamed(g: State, owner: Owner, d: string)
    requires GatewayInv(g, owner) && d in g.store.decisions
    ensures g.store.decisions[d].id == d && d in g.used
  {
    hide GatewayOwners.Inv, KeyInv, AcceptedInv, Rooted, StageOk, AgentOk, SubsOk;
  }

  lemma PriorNamed(g: State, owner: Owner, n: nat)
    requires GatewayInv(g, owner) && n < |g.agents| && g.agents[n].AdjPrior?
    ensures g.agents[n].sub.decisionId.Some?
  {
    hide GatewayOwners.Inv, KeyInv, AcceptedInv, Rooted, StageOk, SubsOk, SubOk;
    assert AgentOk(g.store.decisions, g.agents[n]);
  }

  lemma AdjPutActor(g: State, owner: Owner, e: Event)
    requires GatewayInv(g, owner) && ValueInv(g) && Enabled(g, e) && e.AdjPut?
    ensures e.n < |Apply(g, e).agents| && AgentLinks(Apply(g, e).store.decisions, Apply(g, e).store.submissions, Apply(g, e).agents[e.n])
    ensures e.id in Apply(g, e).store.decisions && ResolvesOk(Apply(g, e).store.decisions, Apply(g, e).store.decisions[e.id])
  {
    hide ApplyRun, RunEnabled, GatewayInv, ValueInv, ConsumerExt, PriorOf;
    var a := g.agents[e.n];
    AgentIn(g, e.n);
    AdjCopyIs(g, owner, e.n);
    PriorNamed(g, owner, e.n);
    PriorLinkKept(e.id, a.sub.id, a.value, a.prior, e.extra);
    DecisionNamed(g, owner, a.prior.id);
  }

  lemma HandlerEventKeeps(g: State, e: Event)
    requires Enabled(g, e) && !IsRunEvent(e)
    ensures !e.AdjPut? ==> Apply(g, e).store.decisions == g.store.decisions
    ensures e.AdjPut? ==> e.id in Apply(g, e).store.decisions && Apply(g, e).store.decisions == g.store.decisions[e.id := Apply(g, e).store.decisions[e.id]]
    ensures |Apply(g, e).agents| == |g.agents| + if e.Arrive? then 1 else 0
    ensures forall n :: 0 <= n < |g.agents| && !Acts(e, n) ==> Apply(g, e).agents[n] == g.agents[n]
    ensures e.Arrive? ==> Apply(g, e).agents[|g.agents|] == e.agent
    ensures forall w :: w in Apply(g, e).runs ==> (w in g.runs && Apply(g, e).runs[w] == g.runs[w]) || Apply(g, e).runs[w].stage == Start
  {
    hide ApplyRun, RunEnabled, Logged, ConsumerExt, DoPutIdempotent, DoAbandon, DoClaimResume, DoReleaseResume, P.DoReserve, P.DoCommit,
      P.DoRelease, P.DoReceive, P.DoFinish, P.DoClose, P.Enabled;
  }

  lemma HandlerKeepsValues(g: State, owner: Owner, e: Event)
    requires GatewayInv(g, owner) && ValueInv(g) && Enabled(g, e) && !IsRunEvent(e)
    ensures ValueInv(Apply(g, e))
  {
    hide GatewayInv, Apply, Enabled, SubsLinked, LinkOk, ResolvesOk, StageLinks, AgentLinks, Grows;
    var h := Apply(g, e);
    SubsStep(g, owner, e);
    GrowsStep(g, owner, e);
    HandlerEventKeeps(g, e);
    forall d | d in h.store.decisions ensures ResolvesOk(h.store.decisions, h.store.decisions[d]) {
      if e.AdjPut? && e.id == d { AdjPutActor(g, owner, e); } else { ResolvesGrows(g.store, h.store, g.store.decisions[d]); }
    }
    forall w | w in h.runs ensures StageLinks(h.store.decisions, h.runs[w].stage) {
      if w in g.runs && h.runs[w] == g.runs[w] { StageKept(g.store, h.store, g.runs[w].stage); } else { StartLinks(h.store.decisions); }
    }
    forall n | 0 <= n < |h.agents| ensures AgentLinks(h.store.decisions, h.store.submissions, h.agents[n]) {
      HandlerAgent(g, owner, e, n);
    }
  }

  lemma StartLinks(ds: Decisions)
    ensures StageLinks(ds, Start)
  {
  }

  lemma HandlerAgent(g: State, owner: Owner, e: Event, n: nat)
    requires GatewayInv(g, owner) && ValueInv(g) && Enabled(g, e) && !IsRunEvent(e) && n < |Apply(g, e).agents|
    requires Grows(g.store, Apply(g, e).store)
    ensures AgentLinks(Apply(g, e).store.decisions, Apply(g, e).store.submissions, Apply(g, e).agents[n])
  {
    hide GatewayInv, Apply, Enabled, ValueInv, AgentLinks, Grows;
    HandlerEventKeeps(g, e);
    if n >= |g.agents| {
      Arrived(g, e);
    } else if !Acts(e, n) {
      AgentIn(g, n);
      OtherAgent(g, owner, e, n);
    } else if e.AdjPut? {
      AdjPutActor(g, owner, e);
    } else if e.AdjLoad? || e.AdjFetch? {
      AdjActor(g, owner, e);
    } else if e.CreatePut? || e.CreateAbandon? || e.ResumeClaim? || e.ResumeUndo? || e.AdjWrite? {
      StoringActor(g, owner, e);
    } else {
      ActorStep(g, owner, e);
    }
  }

  lemma Arrived(g: State, e: Event)
    requires Enabled(g, e) && e.Arrive?
    ensures forall ds, subs :: AgentLinks(ds, subs, e.agent)
  {
  }

  lemma StepKeepsValues(g: State, owner: Owner, e: Event)
    requires GatewayInv(g, owner) && ValueInv(g) && Enabled(g, e)
    ensures ValueInv(Apply(g, e))
  {
    hide GatewayInv, ValueInv, Apply, Enabled;
    if IsRunEvent(e) { RunKeepsValues(g, owner, e); } else { HandlerKeepsValues(g, owner, e); }
  }

  lemma {:induction false} RunsKeepValues(g: State, owner: Owner, events: seq<Event>)
    requires GatewayInv(g, owner) && ValueInv(g) && After(g, events).Some?
    ensures ValueInv(After(g, events).value)
    decreases |events|
  {
    hide GatewayInv, ValueInv, Apply, Enabled;
    if events != [] {
      var m := |events| - 1;
      RunsKeepValues(g, owner, events[..m]);
      var mid := RunKeepsInv(g, owner, events[..m]);
      StepKeepsValues(After(g, events[..m]).value, mid, events[m]);
    }
  }

  lemma ReachableValues(g: State)
    requires Reachable(g)
    ensures ValueInv(g)
  {
    hide GatewayInv, After;
    var max, workers, events :| After(Initial(max, workers), events) == Some(g);
    InitialInv(max, workers);
    RunsKeepValues(Initial(max, workers), map[], events);
  }

  /** In every reachable state the decision that a submission names is stored and is its own. A deferred
      submission names a machine decision to defer; a completed one that names a decision was completed by
      it and the decision does not defer. */
  lemma DecisionValues(g: State, id: string)
    requires Reachable(g) && id in g.store.submissions
    ensures var sub, ds := g.store.submissions[id], g.store.decisions;
            && (sub.decisionId.Some? ==> sub.decisionId.value in ds && ds[sub.decisionId.value].submissionId == id)
            && (sub.status == Deferred ==>
                  && sub.decisionId.Some? && sub.completion == Some(Postponed)
                  && ds[sub.decisionId.value].value == Policy.Defer && PriorOf(ds[sub.decisionId.value]).None?)
            && (sub.status == Completed && sub.completion == Some(DecisionProduced) ==> sub.decisionId.Some?)
            && (sub.status == Completed && sub.decisionId.Some? ==>
                  sub.completion == Some(DecisionProduced) && ds[sub.decisionId.value].value != Policy.Defer)
  {
    hide Reachable, GatewayInv, ValueInv, PriorOf;
    var owner := ReachableInv(g);
    ReachableValues(g);
    StoredLink(g, owner, id);
    if HasStatus(g, id, Completed) { DecisionLinks(g, id); }
  }

  /** In every reachable state a consumer decision allows or denies, and resolves a stored decision on the
      same submission that does not defer. */
  lemma ConsumerDecides(g: State, d: string)
    requires Reachable(g) && d in g.store.decisions && PriorOf(g.store.decisions[d]).Some?
    ensures var dec, ds := g.store.decisions[d], g.store.decisions; var prior := PriorOf(dec).value;
            && (dec.value == Policy.Allow || dec.value == Policy.Deny)
            && prior in ds && ds[prior].submissionId == dec.submissionId && ds[prior].value != Policy.Defer
  {
    hide Reachable, PriorOf, StageLinks, AgentLinks, SubsLinked;
    ReachableValues(g);
    assert ResolvesOk(g.store.decisions, g.store.decisions[d]);
  }
}
