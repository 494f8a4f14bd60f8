/** What holds in every state that any interleaving of gateway steps can reach. */
module GatewayTheorems {
  import opened Seqs
  import opened MemoryStore
  import opened Gateway
  import opened GatewayTokens
  import opened GatewayOwners
  import opened GatewayKeys
  import opened GatewayDecisions
  import P = LocalPool

  ghost predicate GatewayInv(g: State, owner: Owner) {
    GatewayOwners.Inv(g, owner) && KeyInv(g) && AcceptedInv(g) && DecisionInv(g)
  }

  lemma InitialInv(max: nat, workers: nat)
    ensures GatewayInv(Initial(max, workers), map[])
  {
    hide P.Inv;
    P.FreshInv(max, workers);
  }

  lemma StepKeepsInv(g: State, e: Event, owner: Owner) returns (owner': Owner)
    requires GatewayInv(g, owner) && Enabled(g, e)
    ensures GatewayInv(Apply(g, e), owner')
  {
    hide GatewayOwners.Inv, KeyInv, AcceptedInv, DecisionInv, Apply, Enabled;
    owner' := StepKeepsOwners(g, e, owner);
    StepKeepsKeys(g, owner, e);
    StepKeepsAccepted(g, owner, e);
    StepKeepsDecisions(g, owner, e);
  }

  /** `g` can be reached from the empty gateway by some interleaving. */
  ghost predicate Reachable(g: State) {
    exists max, workers, events :: After(Initial(max, workers), events) == Some(g)
  }

  lemma {:induction false} RunKeepsInv(g: State, owner: Owner, events: seq<Event>) returns (owner': Owner)
    requires GatewayInv(g, owner) && After(g, events).Some?
    ensures GatewayInv(After(g, events).value, owner')
    decreases |events|
  {
    hide GatewayInv, Apply, Enabled;
    if events == [] {
      owner' := owner;
    } else {
      var m := |events| - 1;
      var mid := RunKeepsInv(g, owner, events[..m]);
      owner' := StepKeepsInv(After(g, events[..m]).value, events[m], mid);
    }
  }

  lemma ReachableInv(g: State) returns (owner: Owner)
    requires Reachable(g)
    ensures GatewayInv(g, owner)
  {
    hide GatewayInv, After;
    var max, workers, events :| After(Initial(max, workers), events) == Some(g);
    InitialInv(max, workers);
    owner := RunKeepsInv(Initial(max, workers), map[], events);
  }

  // ---- one holder ----

  datatype Place = AtAgent(n: nat) | AtQueue(i: nat) | AtRun(w: nat)

  /** The place is a create handler before its commit, a resume handler after its claim, a queue
      entry or a run before its final write, and it holds the submission. */
  ghost predicate HoldsAt(g: State, p: Place, id: string) {
    match p
    case AtAgent(n) => n < |g.agents| && HeldBy(g.agents[n]) == Some(id)
    case AtQueue(i) => g.pool.started <= |g.pool.commitLog| && i < |P.Jobs(g.pool)| && P.Jobs(g.pool)[i] == id
    case AtRun(w) => w in g.runs && !g.runs[w].stage.Ended? && g.runs[w].id == id
  }

  lemma PlaceOfOwner(g: State, owner: Owner, p: Place, id: string)
    requires GatewayInv(g, owner) && HoldsAt(g, p, id)
    ensures id in owner
    ensures owner[id] == match p { case AtAgent(n) => ByAgent(n) case AtQueue(_) => InQueue case AtRun(w) => ByWorker(w) }
  {
    hide KeyInv, AcceptedInv, DecisionInv, PoolInv, CopyOk, OwnSubs, AdjOk, UsedInv, Real;
    match p
    case AtAgent(n) => assert OwnAgent(owner, g.store.submissions, n, g.agents[n]);
    case AtQueue(i) => assert OwnJob(owner, P.Jobs(g.pool)[i]);
    case AtRun(w) => assert OwnRun(owner, g.store.submissions, w, g.runs[w]);
  }

  /** In every reachable state a submission that is accepted or running has exactly one holder and
      every other submission has none. */
  lemma ExactlyOneHolder(g: State, id: string)
    requires Reachable(g)
    ensures forall p, q :: HoldsAt(g, p, id) && HoldsAt(g, q, id) ==> p == q
    ensures (exists p :: HoldsAt(g, p, id)) <==> id in g.store.submissions && Busy(g.store.submissions[id].status)
  {
    hide Reachable, GatewayInv;
    var owner := ReachableInv(g);
    forall p, q | HoldsAt(g, p, id) && HoldsAt(g, q, id) ensures p == q {
      PlaceOfOwner(g, owner, p, id);
      PlaceOfOwner(g, owner, q, id);
      if p.AtQueue? { QueueDistinct(g, owner, p.i, q.i); }
    }
    OwnerIffBusy(g, owner, id);
    if p :| HoldsAt(g, p, id) { PlaceOfOwner(g, owner, p, id); }
    if id in owner { var p := OwnerIsReal(g, owner, id); }
  }

  lemma QueueDistinct(g: State, owner: Owner, i: nat, j: nat)
    requires GatewayInv(g, owner) && i < |g.pool.commitLog| - g.pool.started && j < |g.pool.commitLog| - g.pool.started
    ensures g.pool.started <= |g.pool.commitLog|
    ensures P.Jobs(g.pool)[i] == P.Jobs(g.pool)[j] ==> i == j
  {
    hide KeyInv, AcceptedInv, DecisionInv, PoolInv, OwnSubs, AdjOk, UsedInv, Real, OwnRun, OwnAgent;
  }

  lemma OwnerIffBusy(g: State, owner: Owner, id: string)
    requires GatewayInv(g, owner)
    ensures id in owner <==> id in g.store.submissions && Busy(g.store.submissions[id].status)
    ensures id in g.store.submissions ==> g.store.submissions[id].id == id
  {
    hide KeyInv, AcceptedInv, DecisionInv, PoolInv, AdjOk, UsedInv, Real, OwnRun, OwnAgent;
  }

  lemma OwnerIsReal(g: State, owner: Owner, id: string) returns (p: Place)
    requires GatewayInv(g, owner) && id in owner
    ensures HoldsAt(g, p, id)
  {
    hide KeyInv, AcceptedInv, DecisionInv, PoolInv, AdjOk, UsedInv, OwnRun, OwnAgent;
    assert Real(owner[id], id, g.agents, P.Jobs(g.pool), g.runs);
    match owner[id]
    case ByAgent(n) => p := AtAgent(n);
    case InQueue =>
      var i :| 0 <= i < |P.Jobs(g.pool)| && P.Jobs(g.pool)[i] == id;
      p := AtQueue(i);
    case ByWorker(w) => p := AtRun(w);
  }

  // ---- final statuses ----

  predicate Terminal(s: Status) {
    s == Completed || s == Failed
  }

  ghost predicate HasStatus(g: State, id: string, s: Status) {
    id in g.store.submissions && g.store.submissions[id].status == s
  }

  /** The one submission a step may write. */
  function WrittenId(g: State, e: Event): (r: Option<string>)
    requires Enabled(g, e)
  {
    match e
    case CreatePut(_, id) => Some(id)
    case CreateAbandon(n) => Some(g.agents[n].id)
    case ResumeClaim(n) => Some(g.agents[n].id)
    case ResumeUndo(n) => Some(g.agents[n].id)
    case AdjWrite(n) => Some(g.agents[n].sub.id)
    case RunMark(w) => Some(g.runs[w].stage.sub.id)
    case RunSave(w) => Some(g.runs[w].stage.sub.id)
    case RunWrite(w) => Some(g.runs[w].stage.sub.id)
    case _ => None
  }

  ghost predicate Kept(g: State, h: State, id: string) {
    id in g.store.submissions && id in h.store.submissions && h.store.submissions[id] == g.store.submissions[id]
  }

  lemma CreateWritesThat(g: State, e: Event, id: string)
    requires Enabled(g, e) && id in g.store.submissions && WrittenId(g, e) != Some(id)
    requires e.CreateReserve? || e.CreatePut? || e.CreateCommit? || e.CreateAbandon? || e.CreateRelease?
    ensures Kept(g, Apply(g, e), id)
  {
    hide ApplyRun, RunEnabled, StepCreatePut, Logged, P.DoReserve, P.DoRelease, P.DoCommit, P.Enabled;
    if e.CreatePut? { PutShape(g, e.n, e.id); }
  }

  lemma ResumeWritesThat(g: State, e: Event, id: string)
    requires Enabled(g, e) && id in g.store.submissions && WrittenId(g, e) != Some(id)
    requires e.ResumeClaim? || e.ResumeReserve? || e.ResumeCommit? || e.ResumeUndo?
    ensures Kept(g, Apply(g, e), id)
  {
    hide ApplyRun, RunEnabled, InterruptedStage, Logged, ConsumerExt, P.DoReserve, P.DoRelease, P.DoCommit, P.DoReceive, P.DoFinish, P.DoClose, P.Enabled;
  }

  lemma AdjWritesThat(g: State, e: Event, id: string)
    requires Enabled(g, e) && id in g.store.submissions && WrittenId(g, e) != Some(id)
    requires e.AdjLoad? || e.AdjFetch? || e.AdjPut? || e.AdjWrite?
    ensures Kept(g, Apply(g, e), id)
  {
    hide ApplyRun, RunEnabled, InterruptedStage, Logged, ConsumerExt, P.DoReserve, P.DoRelease, P.DoCommit, P.DoReceive, P.DoFinish, P.DoClose, P.Enabled;
  }

  lemma RunWritesThat(g: State, e: Event, id: string)
    requires Enabled(g, e) && id in g.store.submissions && WrittenId(g, e) != Some(id)
    requires IsRunEvent(e)
    ensures Kept(g, Apply(g, e), id)
  {
    hide ApplyHandler, HandlerEnabled, InterruptedStage, Logged, ConsumerExt, P.DoReserve, P.DoRelease, P.DoCommit, P.DoReceive, P.DoFinish, P.DoClose, P.Enabled;
  }

  lemma WritesOnlyThat(g: State, e: Event, id: string)
    requires Enabled(g, e) && id in g.store.submissions && WrittenId(g, e) != Some(id)
    ensures Kept(g, Apply(g, e), id)
  {
    hide WrittenId, Enabled, StepReceive, StepFinish;
    match e
    case CreateReserve(_, _) | CreatePut(_, _) | CreateCommit(_) | CreateAbandon(_) | CreateRelease(_) => CreateWritesThat(g, e, id);
    case ResumeClaim(_) | ResumeReserve(_, _) | ResumeCommit(_) | ResumeUndo(_) => ResumeWritesThat(g, e, id);
    case AdjLoad(_) | AdjFetch(_) | AdjPut(_, _, _) | AdjWrite(_) => AdjWritesThat(g, e, id);
    case Arrive(_) | Close | Receive(_) | Finish(_) => QuietStep(g, e);
    case _ => RunWritesThat(g, e, id);
  }

  lemma QuietStep(g: State, e: Event)
    requires Enabled(g, e) && (e.Arrive? || e.Close? || e.Receive? || e.Finish?)
    ensures Apply(g, e).store == g.store
  {
    hide ApplyRun, RunEnabled, P.DoReceive, P.DoFinish, P.DoClose, P.Enabled;
  }

  lemma TerminalStep(g: State, owner: Owner, e: Event, id: string, s: Status)
    requires GatewayInv(g, owner) && Enabled(g, e) && HasStatus(g, id, s) && Terminal(s)
    ensures HasStatus(Apply(g, e), id, s)
  {
    hide GatewayInv, Apply, Enabled, WrittenId;
    OwnerIffBusy(g, owner, id);
    if WrittenId(g, e) != Some(id) {
      WritesOnlyThat(g, e, id);
    } else {
      TerminalWrite(g, owner, e, id, s);
    }
  }

  lemma TerminalWrite(g: State, owner: Owner, e: Event, id: string, s: Status)
    requires GatewayInv(g, owner) && Enabled(g, e) && HasStatus(g, id, s) && Terminal(s) && id !in owner
    requires WrittenId(g, e) == Some(id)
    ensures HasStatus(Apply(g, e), id, s)
  {
    hide GatewayInv, Logged;
    if e.CreateAbandon? || e.ResumeUndo? {
      PlaceOfOwner(g, owner, AtAgent(e.n), id);
    } else if e.CreatePut? {
      FreshNotStored(g, owner, id);
    } else if e.AdjWrite? {
      AdjCompleted(g, owner, e.n);
    } else if e.RunMark? || e.RunSave? || e.RunWrite? {
      RunWritesOwn(g, owner, e.w);
      PlaceOfOwner(g, owner, AtRun(e.w), id);
    }
  }

  lemma FreshNotStored(g: State, owner: Owner, id: string)
    requires GatewayInv(g, owner) && FreshId(g, id)
    ensures id !in g.store.submissions
  {
    hide KeyInv, AcceptedInv, DecisionInv, PoolInv, Owned;
  }

  lemma AdjCompleted(g: State, owner: Owner, n: nat)
    requires GatewayInv(g, owner) && n < |g.agents| && g.agents[n].AdjStored?
    ensures HasStatus(g, g.agents[n].sub.id, Completed) && g.agents[n].sub.status == Completed
  {
    hide KeyInv, AcceptedInv, DecisionInv, PoolInv, UsedInv, Real, OwnRun, OwnAgent, OwnSubs;
    assert AdjOk(g.store.submissions, g.agents[n]);
  }

  lemma RunWritesOwn(g: State, owner: Owner, w: nat)
    requires GatewayInv(g, owner) && w in g.runs
    requires g.runs[w].stage.Marking? || g.runs[w].stage.Saving? || g.runs[w].stage.Writing?
    ensures g.runs[w].stage.sub.id == g.runs[w].id
  {
    hide KeyInv, AcceptedInv, DecisionInv, PoolInv, Owned, UsedInv, Busy;
    RunStored(g, owner, w);
  }

  /** Completed and failed submissions keep their status for the rest of every run. */
  lemma {:induction false} TerminalIsFinal(g: State, events: seq<Event>, id: string, s: Status)
    requires Reachable(g) && After(g, events).Some? && HasStatus(g, id, s) && Terminal(s)
    ensures HasStatus(After(g, events).value, id, s)
  {
    hide Reachable, GatewayInv;
    var owner := ReachableInv(g);
    TerminalForever(g, owner, events, id, s);
  }

  lemma {:induction false} TerminalForever(g: State, owner: Owner, events: seq<Event>, id: string, s: Status)
    requires GatewayInv(g, owner) && After(g, events).Some? && HasStatus(g, id, s) && Terminal(s)
    ensures HasStatus(After(g, events).value, id, s)
    decreases |events|
  {
    hide GatewayInv, Apply, Enabled, HasStatus;
    if events != [] {
      var m := |events| - 1;
      TerminalForever(g, owner, events[..m], id, s);
      var mid := RunKeepsInv(g, owner, events[..m]);
      TerminalStep(After(g, events[..m]).value, mid, events[m], id, s);
    }
  }

  /** Undoing a resume never takes work away from a worker: when a handler is about to release its
      claim, no queue entry and no run holds the submission, and the release makes it deferred. */
  lemma UndoIsSafe(g: State, n: nat)
    requires Reachable(g) && n < |g.agents| && g.agents[n].ResumeUndoing?
    ensures var id := g.agents[n].id;
            && (forall p :: HoldsAt(g, p, id) ==> p == AtAgent(n))
            && HasStatus(g, id, Running)
            && HasStatus(Apply(g, ResumeUndo(n)), id, Deferred)
  {
    hide Reachable, GatewayInv;
    var id := g.agents[n].id;
    ExactlyOneHolder(g, id);
    assert HoldsAt(g, AtAgent(n), id);
    var owner := ReachableInv(g);
    HeldStored(g, owner, n);
  }

  lemma HeldStored(g: State, owner: Owner, n: nat)
    requires GatewayInv(g, owner) && n < |g.agents| && HeldBy(g.agents[n]).Some?
    ensures HasStatus(g, HeldBy(g.agents[n]).value, HeldStatus(g.agents[n]))
  {
    hide KeyInv, AcceptedInv, DecisionInv, GatewayOwners.Inv, HeldBy, HeldStatus;
    HeldIsStored(g, owner, n);
  }

  // ---- slots ----

  /** The pool's slots are conserved under every interleaving with handlers and workers, and a
      handler's commit on an open pool succeeds. */
  lemma GatewaySlots(g: State)
    requires Reachable(g)
    ensures g.pool.started <= |g.pool.commitLog|
    ensures g.pool.sem == P.CountOpen(g.pool.tokens) + |P.Jobs(g.pool)| + |g.runs| <= g.pool.max
    ensures forall n :: 0 <= n < |g.agents| && (g.agents[n].CreateStored? || g.agents[n].ResumeReserved?) && !g.pool.closed ==>
              g.agents[n].token < |g.pool.tokens| && P.DoCommit(g.pool, g.agents[n].token, g.agents[n].id).1 == P.Ok
  {
    hide Reachable, KeyInv, AcceptedInv, DecisionInv, P.Accounted, TokensHeld, Owned, UsedInv;
    var owner := ReachableInv(g);
    assert |g.runs.Keys| == |g.pool.running.Keys|;
    assert |g.runs| == |g.runs.Keys| && |g.pool.running| == |g.pool.running.Keys|;
    forall n | 0 <= n < |g.agents| && (g.agents[n].CreateStored? || g.agents[n].ResumeReserved?) && !g.pool.closed
      ensures g.agents[n].token < |g.pool.tokens| && P.DoCommit(g.pool, g.agents[n].token, g.agents[n].id).1 == P.Ok
    {
      CommitSucceedsWhileOpen(g, n);
    }
  }

  lemma {:induction false} NoHolders(tokens: seq<P.TokenState>, agents: seq<Agent>)
    ensures SlotHolders(tokens, agents) == 0 <==> forall n :: 0 <= n < |agents| ==> !HoldsSlot(tokens, agents[n])
  {
    if agents != [] {
      var k := |agents| - 1;
      NoHolders(tokens, agents[..k]);
      assert forall n :: 0 <= n < k ==> agents[..k][n] == agents[n];
    }
  }

  /** In every reachable state each taken slot is that of a handler with an open token, a queued job
      or a run, and the count is zero exactly when there are none of these. */
  lemma SlotsReturn(g: State)
    requires Reachable(g)
    ensures g.pool.started <= |g.pool.commitLog|
    ensures g.pool.sem == SlotHolders(g.pool.tokens, g.agents) + |P.Jobs(g.pool)| + |g.runs|
    ensures g.pool.sem == 0 <==>
            && P.Jobs(g.pool) == [] && g.runs == map[]
            && (forall n :: 0 <= n < |g.agents| ==> !HoldsSlot(g.pool.tokens, g.agents[n]))
    ensures P.Drained(g.pool) && (forall n :: 0 <= n < |g.agents| ==> TokenOf(g.agents[n]).None?) ==> g.pool.sem == 0
  {
    hide Reachable, KeyInv, AcceptedInv, DecisionInv, Owned, UsedInv, PoolInv, P.CountOpen, SlotHolders;
    var owner := ReachableInv(g);
    GatewaySlots(g);
    OpenTokensAreHeld(g);
    NoHolders(g.pool.tokens, g.agents);
    RunsAligned(g);
    assert |g.runs| == 0 <==> g.runs == map[];
  }

  lemma RunsAligned(g: State)
    requires PoolInv(g)
    ensures g.runs == map[] <==> g.pool.running == map[]
  {
    hide P.Inv, TokensHeld, NoLeak;
    assert g.runs == map[] <==> g.runs.Keys == {};
    assert g.pool.running == map[] <==> g.pool.running.Keys == {};
  }

  // ---- idempotent creation ----

  /** Key histories are legal, the store's bindings are what the history says, and none dangles. */
  lemma IdempotentCreate(g: State)
    requires Reachable(g)
    ensures Legal(g.log) && KeysMatch(g.store, g.log) && NoDangling(g.store)
  {
    hide Reachable, GatewayOwners.Inv, AcceptedInv, DecisionInv, Legal, KeysMatch;
    var owner := ReachableInv(g);
  }

  /** After a create and before the next abandon of the key, any other request with the key conflicts
      exactly when its fingerprint clashes and otherwise is answered with the created submission. */
  lemma SameKeyAnswers(g: State, i: nat, j: nat)
    requires Reachable(g) && i < j < |g.log| && g.log[i].KeyCreated? && g.log[j].key == g.log[i].key
    requires !g.log[j].KeyAbandoned?
    requires forall m :: i < m < j ==> !(g.log[m].KeyAbandoned? && g.log[m].key == g.log[i].key)
    ensures Clash(g.log[i].hash, g.log[j].hash) ==> g.log[j].KeyConflict?
    ensures !Clash(g.log[i].hash, g.log[j].hash) ==> g.log[j].KeyReplayed? && g.log[j].id == g.log[i].id
  {
    hide Reachable, Legal, KeysMatch;
    IdempotentCreate(g);
    OneCreatorBetweenAbandons(g.log, i, j);
  }

  /** While the pool has not been closed every submission answered with 202 is still stored; a
      committed one is stored whether or not the pool was closed. */
  lemma AcceptedIsKept(g: State, id: string)
    requires Reachable(g)
    ensures !g.pool.closed && id in g.accepted ==> id in g.store.submissions
    ensures id in g.pool.commitLog ==> id in g.store.submissions
  {
    hide Reachable, GatewayOwners.Inv, DecisionInv, Legal, KeysMatch, CreatorOk;
    var owner := ReachableInv(g);
  }

  // ---- when a stored submission is kept ----

  /** A create handler has stored the submission and not committed it. */
  ghost predicate HasCreator(g: State, id: string) {
    exists n :: 0 <= n < |g.agents| && CreatorOf(g.agents[n]).Some? && CreatorOf(g.agents[n]).value.1 == id
  }

  /** Only storing a fresh submission gives it a creator. */
  lemma CreatorsStep(g: State, e: Event, id: string)
    requires Enabled(g, e) && !(e.CreatePut? && e.id == id) && HasCreator(Apply(g, e), id)
    ensures HasCreator(g, id)
  {
    hide Apply, Enabled, SameKeys;
    var n :| 0 <= n < |Apply(g, e).agents| && CreatorOf(Apply(g, e).agents[n]).Some? && CreatorOf(Apply(g, e).agents[n]).value.1 == id;
    CreatorBefore(g, e, n, id);
    assert CreatorOf(g.agents[n]).value.1 == id;
  }

  lemma CreatorBefore(g: State, e: Event, n: nat, id: string)
    requires Enabled(g, e) && !(e.CreatePut? && e.id == id) && n < |Apply(g, e).agents|
    requires CreatorOf(Apply(g, e).agents[n]).Some? && CreatorOf(Apply(g, e).agents[n]).value.1 == id
    ensures n < |g.agents| && CreatorOf(g.agents[n]).Some? && CreatorOf(g.agents[n]).value.1 == id
  {
    hide Apply, CreatorOf;
    if IsRunEvent(e) {
      RunStepShape(g, e);
    } else if e.Arrive? || e.Close? || e.Receive? || e.Finish? {
      WorkerStepSame(g, e);
    } else if e.AdjLoad? || e.AdjFetch? || e.AdjPut? || e.AdjWrite? {
      AdjStepSame(g, e);
    } else if e.CreatePut? || e.CreateCommit? || e.CreateAbandon? || e.ResumeCommit? {
      CreatorStep(g, e, n);
    } else {
      HandlerStepSame(g, e);
    }
  }

  lemma CreatorStep(g: State, e: Event, n: nat)
    requires Enabled(g, e) && (e.CreatePut? || e.CreateCommit? || e.CreateAbandon? || e.ResumeCommit?) && n < |Apply(g, e).agents|
    ensures n < |g.agents|
    ensures CreatorOf(Apply(g, e).agents[n]).Some? ==>
              || CreatorOf(Apply(g, e).agents[n]) == CreatorOf(g.agents[n])
              || (e.CreatePut? && CreatorOf(Apply(g, e).agents[n]).value.1 == e.id)
  {
    hide ApplyRun, RunEnabled, Logged, P.DoCommit, P.Enabled, DoAbandon, Clash, HashOf;
  }

  lemma KeptStep(g: State, owner: Owner, e: Event, id: string)
    requires GatewayInv(g, owner) && Enabled(g, e) && id in g.store.submissions && !HasCreator(g, id)
    ensures id in Apply(g, e).store.submissions && !HasCreator(Apply(g, e), id)
  {
    hide GatewayInv, Apply, Enabled, WrittenId, HasCreator;
    if e.CreatePut? { FreshNotStored(g, owner, e.id) by { PutIsFresh(g, e); } }
    if HasCreator(Apply(g, e), id) { CreatorsStep(g, e, id); }
    if WrittenId(g, e) != Some(id) {
      WritesOnlyThat(g, e, id);
    } else {
      WriteKeeps(g, e, id);
    }
  }

  lemma PutIsFresh(g: State, e: Event)
    requires Enabled(g, e) && e.CreatePut?
    ensures FreshId(g, e.id)
  {
  }

  /** A write of a submission keeps it, unless it is the abandon of its creator. */
  lemma WriteKeeps(g: State, e: Event, id: string)
    requires Enabled(g, e) && WrittenId(g, e) == Some(id) && id in g.store.submissions && !HasCreator(g, id)
    ensures id in Apply(g, e).store.submissions
  {
    hide Logged, Clash, HashOf;
    assert forall n :: 0 <= n < |g.agents| && g.agents[n].CreateAbandoning? ==> CreatorOf(g.agents[n]).value.1 != id;
  }

  lemma {:induction false} KeptForever(g: State, owner: Owner, events: seq<Event>, id: string)
    requires GatewayInv(g, owner) && After(g, events).Some? && id in g.store.submissions && !HasCreator(g, id)
    ensures id in After(g, events).value.store.submissions && !HasCreator(After(g, events).value, id)
    decreases |events|
  {
    hide GatewayInv, Apply, Enabled, HasCreator;
    if events != [] {
      var m := |events| - 1;
      KeptForever(g, owner, events[..m], id);
      var mid := RunKeepsInv(g, owner, events[..m]);
      KeptStep(After(g, events[..m]).value, mid, events[m], id);
    }
  }

  lemma AfterSnoc(g: State, events: seq<Event>, e: Event)
    requires After(g, events).Some? && Enabled(After(g, events).value, e)
    ensures After(g, events + [e]) == Some(Apply(After(g, events).value, e))
  {
    hide Apply, Enabled;
    assert (events + [e])[..|events|] == events;
  }

  lemma AfterOne(g: State, e: Event)
    requires Enabled(g, e)
    ensures After(g, [e]) == Some(Apply(g, e))
  {
    hide Apply, Enabled;
    assert After(g, []) == Some(g);
    AfterSnoc(g, [], e);
    assert [] + [e] == [e];
  }

  /** The abandon of a creator deletes its submission. */
  lemma AbandonDeletes(g: State, owner: Owner, n: nat)
    requires GatewayInv(g, owner) && n < |g.agents| && g.agents[n].CreateAbandoning?
    ensures g.agents[n].id !in StepCreateAbandon(g, n).store.submissions
    ensures StepCreateAbandon(g, n).accepted == g.accepted
  {
    hide KeyInv, AcceptedInv, DecisionInv, GatewayOwners.Inv, Logged;
    HeldIsStored(g, owner, n);
  }

  /** After the pool has closed, the commit of a creator fails and it turns to abandoning. */
  lemma CommitFailsClosed(g: State, owner: Owner, n: nat)
    requires GatewayInv(g, owner) && n < |g.agents| && g.agents[n].CreateStored? && g.pool.closed
    ensures Enabled(g, CreateCommit(n))
    ensures var h := StepCreateCommit(g, n);
            n < |h.agents| && h.agents[n].CreateAbandoning? && h.agents[n].id == g.agents[n].id && h.accepted == g.accepted
  {
    hide KeyInv, AcceptedInv, DecisionInv, OwnedBy, UsedInv, P.Accounted, P.CountOpen, Aligned, NoLeak;
    assert TokenOk(g.pool, g.agents[n]);
  }

  /** A creator that has not committed can still delete its submission: close, commit, abandon. */
  lemma CreatorCanDelete(g: State, owner: Owner, n: nat) returns (events: seq<Event>)
    requires GatewayInv(g, owner) && n < |g.agents| && CreatorOf(g.agents[n]).Some?
    ensures After(g, events).Some? && CreatorOf(g.agents[n]).value.1 !in After(g, events).value.store.submissions
    ensures g.accepted <= After(g, events).value.accepted
  {
    hide GatewayInv, After, StepCreateCommit, StepCreateAbandon, P.DoCommit;
    if g.agents[n].CreateAbandoning? {
      AbandonDeletes(g, owner, n);
      events := [CreateAbandon(n)];
      AfterOne(g, CreateAbandon(n));
    } else {
      AfterOne(g, Close);
      var g1 := Apply(g, Close);
      var o1 := StepKeepsInv(g, Close, owner);
      assert g1.agents == g.agents && g1.pool.closed && g1.accepted == g.accepted;
      CommitFailsClosed(g1, o1, n);
      AfterSnoc(g, [Close], CreateCommit(n));
      var g2 := Apply(g1, CreateCommit(n));
      var o2 := StepKeepsInv(g1, CreateCommit(n), o1);
      AbandonDeletes(g2, o2, n);
      events := [Close] + [CreateCommit(n)] + [CreateAbandon(n)];
      AfterSnoc(g, [Close] + [CreateCommit(n)], CreateAbandon(n));
    }
  }

  /** Over every continuation, shutdown included: a stored submission is kept exactly when no create
      handler still has to commit it. */
  lemma KeptIffNoCreator(g: State, id: string)
    requires Reachable(g) && id in g.store.submissions
    ensures (forall events :: After(g, events).Some? ==> id in After(g, events).value.store.submissions) <==> !HasCreator(g, id)
  {
    hide Reachable, GatewayInv, After;
    var owner := ReachableInv(g);
    if HasCreator(g, id) {
      var n :| 0 <= n < |g.agents| && CreatorOf(g.agents[n]).Some? && CreatorOf(g.agents[n]).value.1 == id;
      var events := CreatorCanDelete(g, owner, n);
    } else {
      forall events | After(g, events).Some? ensures id in After(g, events).value.store.submissions {
        KeptForever(g, owner, events, id);
      }
    }
  }

  const REQUEST := CreateArrived("key", "hash", false, false)

  /** The state after two requests with one key have each reserved a slot. */
  lemma TwoReserved(max: nat, workers: nat)
    requires max >= 2
    ensures var events := [Arrive(REQUEST), Arrive(REQUEST), CreateReserve(0, false), CreateReserve(1, false)];
            && After(Initial(max, workers), events).Some?
            && var g := After(Initial(max, workers), events).value;
               && g.agents == [CreateReserved("key", "hash", false, false, 0), CreateReserved("key", "hash", false, false, 1)]
               && g.store == EMPTY && g.used == {} && g.accepted == {}
  {
    hide After;
    var g0 := Initial(max, workers);
    var e1 := [Arrive(REQUEST)];
    AfterOne(g0, Arrive(REQUEST));
    AfterSnoc(g0, e1, Arrive(REQUEST));
    var e2 := e1 + [Arrive(REQUEST)];
    var g2 := After(g0, e2).value;
    assert g2.agents == [REQUEST, REQUEST];
    AfterSnoc(g0, e2, CreateReserve(0, false));
    var e3 := e2 + [CreateReserve(0, false)];
    AfterSnoc(g0, e3, CreateReserve(1, false));
    assert e3 + [CreateReserve(1, false)] ==
           [Arrive(REQUEST), Arrive(REQUEST), CreateReserve(0, false), CreateReserve(1, false)];
  }

  /** The first stores; the second is answered with the first one's submission. */
  lemma ReplayBeforeCommit(g: State)
    requires g.agents == [CreateReserved("key", "hash", false, false, 0), CreateReserved("key", "hash", false, false, 1)]
    requires g.store == EMPTY && g.used == {} && g.accepted == {}
    ensures Enabled(g, CreatePut(0, "a")) && Enabled(Apply(g, CreatePut(0, "a")), CreatePut(1, "b"))
    ensures var h := Apply(Apply(g, CreatePut(0, "a")), CreatePut(1, "b"));
            "a" in h.accepted && "a" in h.store.submissions && HasCreator(h, "a")
  {
    hide Logged;
    assert "a"[0] != "b"[0];
    var g1 := Apply(g, CreatePut(0, "a"));
    assert g1.store.idempotency == map["key" := "a"] && g1.store.submissions["a"].id == "a";
    var h := Apply(g1, CreatePut(1, "b"));
    assert CreatorOf(h.agents[0]) == Some(("key", "a"));
  }

  /** Closing the pool can lose a submission that was answered with 202: a replay was answered before
      the creator committed, and the creator's commit then fails. */
  lemma AcceptedCanBeLost(max: nat, workers: nat) returns (events: seq<Event>)
    requires max >= 2
    ensures After(Initial(max, workers), events).Some?
    ensures var g := After(Initial(max, workers), events).value; "a" in g.accepted && "a" !in g.store.submissions
  {
    hide After, Apply, Enabled, GatewayInv;
    var g0 := Initial(max, workers);
    TwoReserved(max, workers);
    var first := [Arrive(REQUEST), Arrive(REQUEST), CreateReserve(0, false), CreateReserve(1, false)];
    ReplayBeforeCommit(After(g0, first).value);
    AfterSnoc(g0, first, CreatePut(0, "a"));
    AfterSnoc(g0, first + [CreatePut(0, "a")], CreatePut(1, "b"));
    var early := first + [CreatePut(0, "a")] + [CreatePut(1, "b")];
    var g := After(g0, early).value;
    InitialInv(max, workers);
    var owner := RunKeepsInv(g0, map[], early);
    var n :| 0 <= n < |g.agents| && CreatorOf(g.agents[n]).Some? && CreatorOf(g.agents[n]).value.1 == "a";
    var rest := CreatorCanDelete(g, owner, n);
    AfterConcat(g0, early, rest);
    events := early + rest;
  }

  lemma {:induction false} AfterConcat(g: State, a: seq<Event>, b: seq<Event>)
    requires After(g, a).Some? && After(After(g, a).value, b).Some?
    ensures After(g, a + b) == After(After(g, a).value, b)
    decreases |b|
  {
    hide Apply, Enabled;
    if b == [] {
      assert a + b == a;
    } else {
      var m := |b| - 1;
      AfterConcat(g, a, b[..m]);
      assert (a + b)[..|a + b| - 1] == a + b[..m];
    }
  }

  // ---- decisions ----

  /** Completed submissions and their decisions: a produced decision is stored and its prior links
      lead to a machine decision in finitely many steps; the other completions carry none. */
  lemma DecisionLinks(g: State, id: string)
    requires Reachable(g) && HasStatus(g, id, Completed)
    ensures var sub := g.store.submissions[id];
            && sub.completion.Some?
            && (sub.completion == Some(DecisionProduced) ==>
                  sub.decisionId.Some? && Rooted(g.store.decisions, sub.decisionId.value))
            && (sub.completion == Some(FindingsOnly) || sub.completion == Some(AllIneligible) ==> sub.decisionId.None?)
  {
    hide Reachable, GatewayOwners.Inv, KeyInv, AcceptedInv, Rooted, StageOk, AgentOk;
    var owner := ReachableInv(g);
    assert SubOk(g.store.decisions, g.store.submissions[id]);
  }

  /** Every stored decision leads back to a machine decision. */
  lemma EveryDecisionRooted(g: State, d: string)
    requires Reachable(g) && d in g.store.decisions
    ensures Rooted(g.store.decisions, d) && g.store.decisions[d].id == d
  {
    hide Reachable, GatewayOwners.Inv, KeyInv, AcceptedInv, Rooted, StageOk, AgentOk, SubsOk;
    var owner := ReachableInv(g);
  }

  lemma GrowsTrans(a: Store, b: Store, c: Store)
    requires Grows(a, b) && Grows(b, c)
    ensures Grows(a, c)
  {
  }

  lemma {:induction false} RunGrows(g: State, owner: Owner, events: seq<Event>)
    requires GatewayInv(g, owner) && After(g, events).Some?
    ensures Grows(g.store, After(g, events).value.store)
    decreases |events|
  {
    hide GatewayOwners.Inv, KeyInv, AcceptedInv, DecisionInv, Apply, Enabled;
    if events != [] {
      var m := |events| - 1;
      RunGrows(g, owner, events[..m]);
      var h := After(g, events[..m]).value;
      var mid := RunKeepsInv(g, owner, events[..m]);
      StepGrows(h, events[m]);
      GrowsTrans(g.store, h.store, After(g, events).value.store);
    }
  }

  /** A stored decision, and a stored result, is never overwritten in any continuation. */
  lemma NeverOverwritten(g: State, events: seq<Event>)
    requires Reachable(g) && After(g, events).Some?
    ensures Grows(g.store, After(g, events).value.store)
  {
    hide Reachable, GatewayInv, After, Grows;
    var owner := ReachableInv(g);
    RunGrows(g, owner, events);
  }

  /** What policy evaluation reads for a submission includes every result the submission lists. */
  lemma PolicySeesListedResults(g: State, id: string)
    requires Reachable(g) && id in g.store.submissions
    ensures forall r :: r in g.store.submissions[id].resultIds ==> r in g.store.results && g.store.results[r] == id
  {
    hide Reachable, GatewayOwners.Inv, KeyInv, AcceptedInv, Rooted, StageOk, AgentOk, SubOk;
    var owner := ReachableInv(g);
    assert ListsStored(g.store.results, id, g.store.submissions[id].resultIds);
  }
}
