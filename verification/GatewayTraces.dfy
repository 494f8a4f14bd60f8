/** Runs and their histories: what is stored is what the requests asked for and what the workers did. */
module GatewayTraces {
  import opened Seqs
  import opened MemoryStore
  import opened Gateway
  import opened GatewayTokens
  import opened GatewayOwners
  import opened GatewayKeys
  import opened GatewayDecisions
  import opened GatewayTheorems
  import opened GatewayValues
  import Policy
  import P = LocalPool

  // ---- what a history says ----

  /** The requests in the order of their arrival; the n-th is served by handler n. */
  function Requests(events: seq<Event>): (r: seq<Agent>) {
    if events == [] then []
    else
      var before, e := Requests(events[..|events| - 1]), events[|events| - 1];
      if e.Arrive? then before + [e.agent] else before
  }

  predicate OfWorker(e: Event, w: nat) {
    IsRunEvent(e) && e.w == w
  }

  /** The last thing that worker `w` did in its current run. */
  function Latest(events: seq<Event>, w: nat): (r: Option<Event>) {
    if events == [] then None
    else
      var e := events[|events| - 1];
      if OfWorker(e, w) then Some(e) else if e == Receive(w) then None else Latest(events[..|events| - 1], w)
  }

  /** The results that worker `w` stored in its current run, in order. */
  function Collected(events: seq<Event>, w: nat): (r: seq<string>) {
    if events == [] then []
    else
      var before, e := Collected(events[..|events| - 1], w), events[|events| - 1];
      if e.RunResult? && e.w == w then before + [e.id] else if e == Receive(w) then [] else before
  }

  /** What a handler still knows is what its request said. */
  predicate Serves(request: Agent, a: Agent) {
    match a
    case CreateReserved(key, hash, hasPolicy, eligible, _) => request == CreateArrived(key, hash, hasPolicy, eligible)
    case CreateStored(key, _, _) => request.CreateArrived? && request.key == key
    case CreateAbandoning(key, _, _) => request.CreateArrived? && request.key == key
    case CreateReleasing(_) => request.CreateArrived?
    case ResumeClaimed(id) => request == ResumeArrived(id)
    case ResumeReserved(id, _) => request == ResumeArrived(id)
    case ResumeUndoing(id) => request == ResumeArrived(id)
    case AdjLoaded(sub, value) => request == AdjArrived(sub.id, value)
    case AdjPrior(sub, value, _) => request == AdjArrived(sub.id, value)
    case AdjStored(sub) => request.AdjArrived? && request.id == sub.id
    case Finished => true
    case _ => request == a
  }

  /** What a run's last step makes of the submission. */
  predicate EndsAs(last: Event, ids: seq<string>, sub: Submission) {
    match last
    case RunStart(_, cancelled) => cancelled && sub.status == Failed && sub.completion == Some(Interrupted)
    case RunInterrupt(_) => sub.status == Failed && sub.completion == Some(Interrupted)
    case RunFail(_) => sub.status == Failed && sub.completion == Some(RunFailed)
    case RunIneligible(_) => sub.status == Completed && sub.completion == Some(AllIneligible) && !sub.eligible
    case RunSave(_) => sub.status == Completed && sub.completion == Some(FindingsOnly) && !sub.hasPolicy && sub.resultIds == ids
    case RunDecide(_, d, value) =>
      && sub.decisionId == Some(d) && sub.resultIds == ids && sub.hasPolicy
      && sub.status == (if value == Policy.Defer then Deferred else Completed)
      && sub.completion == Some(if value == Policy.Defer then Postponed else DecisionProduced)
    case _ => false
  }

  /** A run is where its last step left it, with the results it stored; it ends by its final write only. */
  ghost predicate Tracks(last: Option<Event>, ids: seq<string>, s: Stage) {
    match s
    case Start => last == None && ids == []
    case Marking(_) => last.Some? && last.value.RunStart? && !last.value.cancelled && ids == []
    case Working(_, xs) => last.Some? && (last.value.RunMark? || last.value.RunResult?) && xs == ids
    case Saving(sub) => last.Some? && last.value.RunReload? && sub.resultIds == ids
    case Deciding(sub) => last.Some? && last.value.RunSave? && sub.resultIds == ids && sub.hasPolicy
    case Writing(sub) => last.Some? && EndsAs(last.value, ids, sub)
    case Ended => last.Some? && last.value.RunWrite?
  }

  ghost predicate CreatedBy(events: seq<Event>, n: nat, sub: Submission) {
    && n < |Requests(events)| && CreatePut(n, sub.id) in events
    && Requests(events)[n].CreateArrived?
    && Requests(events)[n].hasPolicy == sub.hasPolicy && Requests(events)[n].eligible == sub.eligible
  }

  ghost predicate HasRequest(events: seq<Event>, sub: Submission) {
    exists n: nat :: CreatedBy(events, n, sub)
  }

  ghost predicate Traced(g: State, events: seq<Event>) {
    && |g.agents| == |Requests(events)|
    && (forall n :: 0 <= n < |g.agents| ==> Serves(Requests(events)[n], g.agents[n]))
    && (forall w :: w in g.runs ==> Tracks(Latest(events, w), Collected(events, w), g.runs[w].stage))
    && (forall id :: id in g.store.submissions ==> HasRequest(events, g.store.submissions[id]))
  }

  lemma HistorySnoc(events: seq<Event>, e: Event)
    ensures Requests(events + [e]) == Requests(events) + if e.Arrive? then [e.agent] else []
    ensures forall w :: Latest(events + [e], w) == if OfWorker(e, w) then Some(e) else if e == Receive(w) then None else Latest(events, w)
    ensures forall w :: Collected(events + [e], w) ==
                        if e.RunResult? && e.w == w then Collected(events, w) + [e.id] else if e == Receive(w) then [] else Collected(events, w)
  {
    assert (events + [e])[..|events|] == events;
  }

  // ---- handlers ----

  lemma ActorServes(g: State, owner: Owner, e: Event, request: Agent)
    requires GatewayInv(g, owner) && Enabled(g, e) && (e.CreateReserve? || e.CreatePut? || e.CreateCommit? || e.CreateAbandon? || e.CreateRelease?)
    requires Serves(request, g.agents[e.n])
    ensures e.n < |Apply(g, e).agents| && Serves(request, Apply(g, e).agents[e.n])
  {
    hide ApplyRun, RunEnabled, GatewayInv, StepCreatePut, Logged, DoAbandon, P.DoReserve, P.DoCommit, P.DoRelease, P.Enabled;
    if e.CreatePut? { PutShape(g, e.n, e.id); }
  }

  lemma ResumerServes(g: State, owner: Owner, e: Event, request: Agent)
    requires GatewayInv(g, owner) && Enabled(g, e) && (e.ResumeClaim? || e.ResumeReserve? || e.ResumeCommit? || e.ResumeUndo?)
    requires Serves(request, g.agents[e.n])
    ensures e.n < |Apply(g, e).agents| && Serves(request, Apply(g, e).agents[e.n])
  {
    hide ApplyRun, RunEnabled, GatewayInv, DoClaimResume, DoReleaseResume, P.DoReserve, P.DoCommit, P.DoRelease, P.Enabled;
  }

  lemma LoadServes(g: State, owner: Owner, n: nat, request: Agent)
    requires GatewayInv(g, owner) && n < |g.agents| && g.agents[n].AdjArrived? && Serves(request, g.agents[n])
    ensures n < |StepAdjLoad(g, n).agents| && Serves(request, StepAdjLoad(g, n).agents[n])
  {
    hide GatewayInv;
    if g.agents[n].id in g.store.submissions { OwnerIffBusy(g, owner, g.agents[n].id); }
  }

  lemma FetchServes(g: State, n: nat, request: Agent)
    requires n < |g.agents| && g.agents[n].AdjLoaded? && Serves(request, g.agents[n])
    ensures n < |StepAdjFetch(g, n).agents| && Serves(request, StepAdjFetch(g, n).agents[n])
  {
  }

  lemma PutServes(g: State, n: nat, id: string, extra: map<string, string>, request: Agent)
    requires n < |g.agents| && g.agents[n].AdjPrior? && Serves(request, g.agents[n])
    ensures n < |StepAdjPut(g, n, id, extra).agents| && Serves(request, StepAdjPut(g, n, id, extra).agents[n])
  {
    hide ConsumerExt;
  }

  lemma AdjudicatorServes(g: State, owner: Owner, e: Event, request: Agent)
    requires GatewayInv(g, owner) && Enabled(g, e) && (e.AdjLoad? || e.AdjFetch? || e.AdjPut? || e.AdjWrite?)
    requires Serves(request, g.agents[e.n])
    ensures e.n < |Apply(g, e).agents| && Serves(request, Apply(g, e).agents[e.n])
  {
    hide ApplyRun, RunEnabled, GatewayInv, Serves, P.Enabled, StepCreateReserve, StepCreatePut, StepCreateCommit, StepCreateAbandon,
      StepCreateRelease, StepResumeClaim, StepResumeReserve, StepResumeCommit, StepResumeUndo, StepReceive, StepFinish, P.DoClose,
      StepAdjLoad, StepAdjFetch, StepAdjPut;
    if e.AdjLoad? {
      LoadServes(g, owner, e.n, request);
    } else if e.AdjFetch? {
      FetchServes(g, e.n, request);
    } else if e.AdjPut? {
      PutServes(g, e.n, e.id, e.extra, request);
    } else {
      assert Apply(g, e).agents[e.n] == Finished;
      DoneServes(request);
    }
  }

  lemma DoneServes(request: Agent)
    ensures Serves(request, Finished)
  {
  }

  lemma AgentsTraced(g: State, owner: Owner, e: Event, events: seq<Event>, n: nat)
    requires GatewayInv(g, owner) && Traced(g, events) && Enabled(g, e) && !IsRunEvent(e) && n < |Apply(g, e).agents|
    ensures n < |Requests(events + [e])| && Serves(Requests(events + [e])[n], Apply(g, e).agents[n])
  {
    hide GatewayInv, Apply, Enabled, Serves, Tracks, Latest, Collected, HasRequest, Requests, Acts;
    HistorySnoc(events, e);
    HandlerEventKeeps(g, e);
    if n >= |g.agents| {
      ArrivedServes(g, e);
    } else if Acts(e, n) {
      ActorIn(g, e, n);
      if e.CreateReserve? || e.CreatePut? || e.CreateCommit? || e.CreateAbandon? || e.CreateRelease? {
        ActorServes(g, owner, e, Requests(events)[n]);
      } else if e.ResumeClaim? || e.ResumeReserve? || e.ResumeCommit? || e.ResumeUndo? {
        ResumerServes(g, owner, e, Requests(events)[n]);
      } else {
        AdjudicatorServes(g, owner, e, Requests(events)[n]);
      }
    }
  }

  lemma ActorIn(g: State, e: Event, n: nat)
    requires Enabled(g, e) && Acts(e, n)
    ensures !IsRunEvent(e) && !e.Arrive? && !e.Close? && !e.Receive? && !e.Finish? && e.n == n < |g.agents|
  {
  }

  lemma ArrivedServes(g: State, e: Event)
    requires Enabled(g, e) && e.Arrive?
    ensures Serves(e.agent, e.agent)
  {
  }

  // ---- workers ----

  lemma StartTracked(g: State, owner: Owner, e: Event, last: Option<Event>, ids: seq<string>)
    requires GatewayInv(g, owner) && Enabled(g, e) && IsRunEvent(e) && Tracks(last, ids, g.runs[e.w].stage)
    requires e.RunStart? || e.RunMark? || e.RunInterrupt?
    ensures e.w in Apply(g, e).runs
    ensures Tracks(Some(e), if e.RunResult? then ids + [e.id] else ids, Apply(g, e).runs[e.w].stage)
  {
    hide ApplyHandler, HandlerEnabled, GatewayInv, StepRunFail, StepRunIneligible, StepRunResult, StepRunReload, StepRunSave, StepRunDecide, StepRunWrite;
    RunCopy(g, owner, e.w);
  }

  lemma WorkTracked(g: State, owner: Owner, e: Event, last: Option<Event>, ids: seq<string>)
    requires GatewayInv(g, owner) && Enabled(g, e) && IsRunEvent(e) && Tracks(last, ids, g.runs[e.w].stage)
    requires e.RunFail? || e.RunIneligible? || e.RunResult? || e.RunReload?
    ensures e.w in Apply(g, e).runs
    ensures Tracks(Some(e), if e.RunResult? then ids + [e.id] else ids, Apply(g, e).runs[e.w].stage)
  {
    hide ApplyHandler, HandlerEnabled, GatewayInv, InterruptedStage, StepRunStart, StepRunInterrupt, StepRunMark, StepRunSave, StepRunDecide, StepRunWrite;
    RunCopy(g, owner, e.w);
  }

  lemma EndTracked(g: State, owner: Owner, e: Event, last: Option<Event>, ids: seq<string>)
    requires GatewayInv(g, owner) && Enabled(g, e) && IsRunEvent(e) && Tracks(last, ids, g.runs[e.w].stage)
    requires e.RunSave? || e.RunWrite?
    ensures e.w in Apply(g, e).runs
    ensures Tracks(Some(e), if e.RunResult? then ids + [e.id] else ids, Apply(g, e).runs[e.w].stage)
  {
    hide ApplyHandler, HandlerEnabled, GatewayInv, InterruptedStage, StepRunStart, StepRunInterrupt, StepRunMark, StepRunFail, StepRunIneligible, StepRunResult, StepRunReload, StepRunDecide;
    RunCopy(g, owner, e.w);
  }

  lemma DecideTracked(g: State, owner: Owner, e: Event, last: Option<Event>, ids: seq<string>)
    requires GatewayInv(g, owner) && Enabled(g, e) && IsRunEvent(e) && Tracks(last, ids, g.runs[e.w].stage)
    requires e.RunDecide?
    ensures e.w in Apply(g, e).runs
    ensures Tracks(Some(e), if e.RunResult? then ids + [e.id] else ids, Apply(g, e).runs[e.w].stage)
  {
    hide ApplyHandler, HandlerEnabled, GatewayInv, InterruptedStage, StepRunStart, StepRunInterrupt, StepRunMark, StepRunFail, StepRunIneligible, StepRunResult, StepRunReload, StepRunSave, StepRunWrite;
    RunCopy(g, owner, e.w);
  }

  lemma WorkerTracks(g: State, owner: Owner, e: Event, last: Option<Event>, ids: seq<string>)
    requires GatewayInv(g, owner) && Enabled(g, e) && IsRunEvent(e) && Tracks(last, ids, g.runs[e.w].stage)
    ensures e.w in Apply(g, e).runs
    ensures Tracks(Some(e), if e.RunResult? then ids + [e.id] else ids, Apply(g, e).runs[e.w].stage)
  {
    hide GatewayInv, Apply, Enabled, Tracks;
    if e.RunStart? || e.RunMark? || e.RunInterrupt? {
      StartTracked(g, owner, e, last, ids);
    } else if e.RunSave? || e.RunWrite? {
      EndTracked(g, owner, e, last, ids);
    } else if e.RunDecide? {
      DecideTracked(g, owner, e, last, ids);
    } else {
      WorkTracked(g, owner, e, last, ids);
    }
  }

  lemma HandlerRuns(g: State, e: Event)
    requires Enabled(g, e) && !IsRunEvent(e)
    ensures forall w :: w in Apply(g, e).runs ==>
              if e == Receive(w) then Apply(g, e).runs[w].stage == Start else w in g.runs && Apply(g, e).runs[w] == g.runs[w]
  {
    hide ApplyRun, RunEnabled, StepCreateReserve, StepCreatePut, StepCreateCommit, StepCreateAbandon, StepCreateRelease, StepResumeClaim,
      StepResumeReserve, StepResumeCommit, StepResumeUndo, StepAdjLoad, StepAdjFetch, StepAdjPut, StepAdjWrite, P.DoReceive, P.DoFinish,
      P.DoClose, P.Enabled;
  }

  lemma RunsTraced(g: State, owner: Owner, e: Event, events: seq<Event>, w: nat)
    requires GatewayInv(g, owner) && Traced(g, events) && Enabled(g, e) && w in Apply(g, e).runs
    ensures Tracks(Latest(events + [e], w), Collected(events + [e], w), Apply(g, e).runs[w].stage)
  {
    hide GatewayInv, Apply, Enabled, Serves, Tracks, Latest, Collected, HasRequest, Requests;
    HistorySnoc(events, e);
    if IsRunEvent(e) {
      RunEventKeeps(g, e);
      if e.w == w {
        RunnerIn(g, e);
        WorkerTracks(g, owner, e, Latest(events, w), Collected(events, w));
      }
    } else {
      HandlerRuns(g, e);
      if e == Receive(w) { StartTracks(); }
    }
  }

  lemma RunnerIn(g: State, e: Event)
    requires Enabled(g, e) && IsRunEvent(e)
    ensures e.w in g.runs
  {
  }

  lemma StartTracks()
    ensures Tracks(None, [], Start)
  {
  }

  // ---- submissions ----

  /** A submission keeps what its request fixed. */
  lemma RequestKept(g: State, owner: Owner, e: Event, id: string)
    requires GatewayInv(g, owner) && Enabled(g, e) && id in g.store.submissions && id in Apply(g, e).store.submissions
    ensures var a, b := g.store.submissions[id], Apply(g, e).store.submissions[id];
            a.id == id == b.id && b.hasPolicy == a.hasPolicy && b.eligible == a.eligible
  {
    hide GatewayInv, Apply, Enabled, WrittenId;
    OwnerIffBusy(g, owner, id);
    if WrittenId(g, e) != Some(id) {
      WritesOnlyThat(g, e, id);
    } else if IsRunEvent(e) {
      WriterKinds(g, e);
      RunKeepsRequest(g, owner, e, id);
    } else {
      WriterKinds(g, e);
      if e.CreatePut? { NotFresh(g, owner, e, id); }
      HandlerKeepsRequest(g, owner, e, id);
    }
  }

  lemma NotFresh(g: State, owner: Owner, e: Event, id: string)
    requires GatewayInv(g, owner) && Enabled(g, e) && id in g.store.submissions && e.CreatePut?
    ensures WrittenId(g, e) != Some(id)
  {
    hide GatewayInv;
    if e.id == id { FreshNotStored(g, owner, id); }
  }

  lemma RunKeepsRequest(g: State, owner: Owner, e: Event, id: string)
    requires GatewayInv(g, owner) && Enabled(g, e) && id in g.store.submissions && WrittenId(g, e) == Some(id)
    requires e.RunMark? || e.RunSave? || e.RunWrite?
    ensures id in Apply(g, e).store.submissions
    ensures var a, b := g.store.submissions[id], Apply(g, e).store.submissions[id];
            b.id == id && b.hasPolicy == a.hasPolicy && b.eligible == a.eligible
  {
    hide ApplyHandler, HandlerEnabled, GatewayInv;
    RunCopy(g, owner, e.w);
  }

  lemma HandlerKeepsRequest(g: State, owner: Owner, e: Event, id: string)
    requires GatewayInv(g, owner) && Enabled(g, e) && id in g.store.submissions && WrittenId(g, e) == Some(id)
    requires e.ResumeClaim? || e.ResumeUndo? || e.AdjWrite? || e.CreateAbandon?
    requires id in Apply(g, e).store.submissions && g.store.submissions[id].id == id
    ensures var a, b := g.store.submissions[id], Apply(g, e).store.submissions[id];
            b.id == id && b.hasPolicy == a.hasPolicy && b.eligible == a.eligible
  {
    hide ApplyRun, RunEnabled, GatewayInv, Logged, StepCreateReserve, StepCreatePut, StepCreateCommit, StepCreateRelease, StepResumeReserve,
      StepResumeCommit, StepAdjLoad, StepAdjFetch, StepAdjPut, StepReceive, StepFinish, P.DoClose, P.Enabled;
    if e.AdjWrite? { AdjCopyIs(g, owner, e.n); }
  }

  lemma RequestsGrow(events: seq<Event>, e: Event, sub: Submission)
    requires HasRequest(events, sub)
    ensures HasRequest(events + [e], sub)
  {
    hide Requests;
    HistorySnoc(events, e);
    var n: nat :| CreatedBy(events, n, sub);
    assert CreatedBy(events + [e], n, sub);
  }

  lemma SubTraced(g: State, owner: Owner, e: Event, events: seq<Event>, id: string)
    requires GatewayInv(g, owner) && Traced(g, events) && Enabled(g, e) && id in Apply(g, e).store.submissions
    ensures HasRequest(events + [e], Apply(g, e).store.submissions[id])
  {
    hide GatewayInv, Apply, Enabled, WrittenId, Serves, Tracks, Latest, Collected, HasRequest, Requests;
    if id in g.store.submissions {
      RequestKept(g, owner, e, id);
      RequestsGrow(events, e, g.store.submissions[id]);
      SameRequest(events + [e], g.store.submissions[id], Apply(g, e).store.submissions[id]);
    } else {
      if WrittenId(g, e) != Some(id) { OldStays(g, e, id); }
      NewIsCreated(g, owner, e, id);
      var n := e.n;
      assert Serves(Requests(events)[n], g.agents[n]);
      NewRequest(events, e, g.agents[n], Apply(g, e).store.submissions[id]);
    }
  }

  lemma SameRequest(events: seq<Event>, a: Submission, b: Submission)
    requires HasRequest(events, a) && a.id == b.id && a.hasPolicy == b.hasPolicy && a.eligible == b.eligible
    ensures HasRequest(events, b)
  {
    hide Requests;
    var n: nat :| CreatedBy(events, n, a);
    assert CreatedBy(events, n, b);
  }

  lemma NewIsCreated(g: State, owner: Owner, e: Event, id: string)
    requires GatewayInv(g, owner) && Enabled(g, e) && id !in g.store.submissions && id in Apply(g, e).store.submissions && WrittenId(g, e) == Some(id)
    ensures e.CreatePut? && e.n < |g.agents| && g.agents[e.n].CreateReserved?
    ensures var a := g.agents[e.n]; Apply(g, e).store.submissions[id] == Submission(e.id, a.hasPolicy, a.eligible, Accepted, None, [], None)
  {
    hide GatewayInv, StepCreatePut, Logged;
    if e.CreatePut? {
      PutShape(g, e.n, e.id);
    } else if e.AdjWrite? {
      AdjCopyIs(g, owner, e.n);
    } else if IsRunEvent(e) {
      RunCopy(g, owner, e.w);
    }
  }

  lemma NewRequest(events: seq<Event>, e: Event, a: Agent, sub: Submission)
    requires e.CreatePut? && e.n < |Requests(events)| && a.CreateReserved? && Serves(Requests(events)[e.n], a)
    requires sub.id == e.id && sub.hasPolicy == a.hasPolicy && sub.eligible == a.eligible
    ensures HasRequest(events + [e], sub)
  {
    hide Requests;
    HistorySnoc(events, e);
    assert CreatedBy(events + [e], e.n, sub);
  }

  // ---- every run ----

  lemma StepTraced(g: State, owner: Owner, e: Event, events: seq<Event>)
    requires GatewayInv(g, owner) && Traced(g, events) && Enabled(g, e)
    ensures Traced(Apply(g, e), events + [e])
  {
    hide GatewayInv, Apply, Enabled, Serves, Tracks, Latest, Collected, HasRequest, Requests, Acts;
    var h := Apply(g, e);
    HistorySnoc(events, e);
    if IsRunEvent(e) { RunEventKeeps(g, e); } else { HandlerEventKeeps(g, e); }
    forall n | 0 <= n < |h.agents| ensures Serves(Requests(events + [e])[n], h.agents[n]) {
      if !IsRunEvent(e) { AgentsTraced(g, owner, e, events, n); }
    }
    forall w | w in h.runs ensures Tracks(Latest(events + [e], w), Collected(events + [e], w), h.runs[w].stage) {
      RunsTraced(g, owner, e, events, w);
    }
    forall id | id in h.store.submissions ensures HasRequest(events + [e], h.store.submissions[id]) {
      SubTraced(g, owner, e, events, id);
    }
  }

  lemma NothingTraced(max: nat, workers: nat)
    ensures Traced(Initial(max, workers), [])
  {
  }

  lemma {:induction false} AllTraced(max: nat, workers: nat, events: seq<Event>)
    requires After(Initial(max, workers), events).Some?
    ensures Traced(After(Initial(max, workers), events).value, events)
    decreases |events|
  {
    hide GatewayInv, Traced, Apply, Enabled;
    var g0 := Initial(max, workers);
    if events == [] {
      NothingTraced(max, workers);
    } else {
      var m := |events| - 1;
      AllTraced(max, workers, events[..m]);
      InitialInv(max, workers);
      var owner := RunKeepsInv(g0, map[], events[..m]);
      StepTraced(After(g0, events[..m]).value, owner, events[m], events[..m]);
      assert events == events[..m] + [events[m]];
    }
  }

  /** In every run, every stored submission was created for a request with the same policy and providers. */
  lemma CreatedAsAsked(max: nat, workers: nat, events: seq<Event>, id: string)
    requires After(Initial(max, workers), events).Some? && id in After(Initial(max, workers), events).value.store.submissions
    ensures HasRequest(events, After(Initial(max, workers), events).value.store.submissions[id])
  {
    hide After, HasRequest;
    AllTraced(max, workers, events);
  }

  /** In every run, the final write of a worker stores what the last step of that run decided, with the
      results that the run stored, in order. */
  lemma FinalWriteSays(max: nat, workers: nat, events: seq<Event>, w: nat)
    requires After(Initial(max, workers), events).Some? && Enabled(After(Initial(max, workers), events).value, RunWrite(w))
    ensures var g := After(Initial(max, workers), events).value; var h := Apply(g, RunWrite(w));
            && Latest(events, w).Some? && g.runs[w].id in h.store.submissions
            && EndsAs(Latest(events, w).value, Collected(events, w), h.store.submissions[g.runs[w].id])
  {
    hide GatewayInv, After, EndsAs, Latest, Collected, Requests, HasRequest, Serves;
    var g := After(Initial(max, workers), events).value;
    AllTraced(max, workers, events);
    InitialInv(max, workers);
    var owner := RunKeepsInv(Initial(max, workers), map[], events);
    RunWritesOwn(g, owner, w);
    assert Tracks(Latest(events, w), Collected(events, w), g.runs[w].stage);
  }

  /** In every run, a worker is done with a job only after that job's final write. */
  lemma FinishAfterWrite(max: nat, workers: nat, events: seq<Event>, w: nat)
    requires After(Initial(max, workers), events).Some? && Enabled(After(Initial(max, workers), events).value, Finish(w))
    ensures Latest(events, w) == Some(RunWrite(w))
  {
    hide After, Latest, Collected, Requests, HasRequest, Serves;
    var g := After(Initial(max, workers), events).value;
    AllTraced(max, workers, events);
    assert Tracks(Latest(events, w), Collected(events, w), g.runs[w].stage);
    LatestIsOwn(events, w);
  }

  lemma {:induction false} LatestIsOwn(events: seq<Event>, w: nat)
    ensures Latest(events, w).Some? ==> OfWorker(Latest(events, w).value, w)
    decreases |events|
  {
    if events != [] { LatestIsOwn(events[..|events| - 1], w); }
  }

  // ---- decisions ----

  lemma Prefix(max: nat, workers: nat, events: seq<Event>, i: nat)
    requires After(Initial(max, workers), events).Some? && i < |events|
    ensures After(Initial(max, workers), events[..i]).Some? && Enabled(After(Initial(max, workers), events[..i]).value, events[i])
    ensures After(Initial(max, workers), events[..i + 1]) == Some(Apply(After(Initial(max, workers), events[..i]).value, events[i]))
    decreases |events|
  {
    hide Apply, Enabled;
    var m := |events| - 1;
    if i < m {
      Prefix(max, workers, events[..m], i);
      assert events[..m][..i] == events[..i] && events[..m][..i + 1] == events[..i + 1];
    } else {
      assert events[..i + 1] == events;
    }
  }

  lemma {:induction false} Suffix(g: State, events: seq<Event>, i: nat)
    requires After(g, events).Some? && i <= |events|
    ensures After(g, events[..i]).Some? && After(After(g, events[..i]).value, events[i..]) == After(g, events)
    decreases |events|
  {
    hide Apply, Enabled;
    if i == |events| {
      assert events[..i] == events;
    } else {
      var m := |events| - 1;
      Suffix(g, events[..m], i);
      assert events[..m][..i] == events[..i];
      var rest := events[i..];
      assert rest[..|rest| - 1] == events[..m][i..] && rest[|rest| - 1] == events[m];
    }
  }

  /** What one step stores as a decision is stored at the end of the run. */
  lemma DecisionLasts(max: nat, workers: nat, events: seq<Event>, i: nat, d: string)
    requires After(Initial(max, workers), events).Some? && i < |events|
    requires After(Initial(max, workers), events[..i + 1]).Some? && d in After(Initial(max, workers), events[..i + 1]).value.store.decisions
    ensures var ds := After(Initial(max, workers), events).value.store.decisions;
            d in ds && ds[d] == After(Initial(max, workers), events[..i + 1]).value.store.decisions[d]
  {
    hide After, Initial;
    var g0 := Initial(max, workers);
    Suffix(g0, events, i + 1);
    var g := After(g0, events[..i + 1]).value;
    assert Reachable(g);
    NeverOverwritten(g, events[i + 1..]);
  }

  /** In every run, the decision of an adjudication has the value, and is on the submission, that its request
      named. */
  lemma AdjudicatedAsAsked(max: nat, workers: nat, events: seq<Event>, i: nat)
    requires After(Initial(max, workers), events).Some? && i < |events| && events[i].AdjPut?
    ensures var g, n, d := After(Initial(max, workers), events).value, events[i].n, events[i].id;
            && n < |Requests(events[..i])| && Requests(events[..i])[n].AdjArrived?
            && d in g.store.decisions && g.store.decisions[d].value == Requests(events[..i])[n].value
            && g.store.decisions[d].submissionId == Requests(events[..i])[n].id
  {
    hide After, Initial, Requests, Latest, Collected, HasRequest, Tracks, ConsumerExt;
    var g0, n, d := Initial(max, workers), events[i].n, events[i].id;
    Prefix(max, workers, events, i);
    AllTraced(max, workers, events[..i]);
    var g := After(g0, events[..i]).value;
    AdjPutStores(g, events[i]);
    assert Serves(Requests(events[..i])[n], g.agents[n]);
    DecisionLasts(max, workers, events, i, d);
  }

  lemma AdjPutStores(g: State, e: Event)
    requires Enabled(g, e) && e.AdjPut?
    ensures e.n < |g.agents| && g.agents[e.n].AdjPrior? && e.id in Apply(g, e).store.decisions
    ensures var a, dec := g.agents[e.n], Apply(g, e).store.decisions[e.id]; dec.value == a.value && dec.submissionId == a.sub.id
  {
    hide ApplyRun, RunEnabled, ConsumerExt;
  }

  /** In every run, the decision of an evaluation has the evaluated value, is on the run's submission and is
      a machine decision. */
  lemma DecidedAsEvaluated(max: nat, workers: nat, events: seq<Event>, i: nat)
    requires After(Initial(max, workers), events).Some? && i < |events| && events[i].RunDecide?
    ensures var before, g, d := After(Initial(max, workers), events[..i]), After(Initial(max, workers), events).value, events[i].id;
            && before.Some? && events[i].w in before.value.runs && d in g.store.decisions
            && g.store.decisions[d].value == events[i].value && PriorOf(g.store.decisions[d]).None?
            && g.store.decisions[d].submissionId == before.value.runs[events[i].w].id
  {
    hide After, Initial, GatewayInv;
    var g0, d := Initial(max, workers), events[i].id;
    Prefix(max, workers, events, i);
    var g := After(g0, events[..i]).value;
    InitialInv(max, workers);
    var owner := RunKeepsInv(g0, map[], events[..i]);
    DecideStores(g, owner, events[i]);
    DecisionLasts(max, workers, events, i, d);
  }

  lemma DecideStores(g: State, owner: Owner, e: Event)
    requires GatewayInv(g, owner) && Enabled(g, e) && e.RunDecide?
    ensures e.w in g.runs && e.id in Apply(g, e).store.decisions
    ensures var dec := Apply(g, e).store.decisions[e.id];
            dec.value == e.value && dec.submissionId == g.runs[e.w].id && PriorOf(dec).None?
  {
    hide ApplyHandler, HandlerEnabled, GatewayInv;
    RunCopy(g, owner, e.w);
  }
}
