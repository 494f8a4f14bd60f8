/** What a request achieves when its handler runs undisturbed, from any reachable state. */
module GatewayServing {
  import opened Seqs
  import opened MemoryStore
  import opened Gateway
  import opened GatewayTokens
  import opened GatewayOwners
  import opened GatewayKeys
  import opened GatewayDecisions
  import opened GatewayTheorems
  import opened GatewayValues
  import Policy
  import P = LocalPool

  lemma AfterThree(g: State, a: Event, b: Event, c: Event)
    requires Enabled(g, a) && Enabled(Apply(g, a), b) && Enabled(Apply(Apply(g, a), b), c)
    ensures After(g, [a, b, c]) == Some(Apply(Apply(Apply(g, a), b), c))
  {
    hide After, Apply, Enabled;
    AfterOne(g, a);
    AfterSnoc(g, [a], b);
    assert [a] + [b] == [a, b];
    AfterSnoc(g, [a, b], c);
    assert [a, b] + [c] == [a, b, c];
  }

  predicate HasRoom(p: P.Pool) {
    !p.closed && p.sem < p.max
  }

  lemma PoolFacts(g: State, owner: Owner)
    requires GatewayInv(g, owner)
    ensures g.pool.started <= |g.pool.commitLog| && |P.Jobs(g.pool)| <= g.pool.sem
  {
    hide KeyInv, AcceptedInv, DecisionInv, OwnedBy, UsedInv, P.Accounted, P.CountOpen, TokensHeld, Aligned, NoLeak;
  }

  // ---- create ----

  /** The pool after a reservation that found room. */
  function Reserved(p: P.Pool): (r: P.Pool) {
    p.(sem := p.sem + 1, tokens := p.tokens + [P.Open])
  }

  lemma ReserveCreates(g: State, n: nat)
    requires n < |g.agents| && g.agents[n].CreateArrived? && HasRoom(g.pool)
    ensures Enabled(g, CreateReserve(n, false))
    ensures var a := g.agents[n];
            Apply(g, CreateReserve(n, false)) ==
            g.(pool := Reserved(g.pool), agents := g.agents[n := CreateReserved(a.key, a.hash, a.hasPolicy, a.eligible, |g.pool.tokens|)])
  {
  }

  lemma PutCreates(g: State, n: nat, id: string)
    requires n < |g.agents| && g.agents[n].CreateReserved? && FreshId(g, id)
    requires g.agents[n].key == "" || g.agents[n].key !in g.store.idempotency
    ensures Enabled(g, CreatePut(n, id))
    ensures var h, a := Apply(g, CreatePut(n, id)), g.agents[n];
            && h == g.(store := h.store, log := h.log, used := h.used, agents := g.agents[n := CreateStored(a.key, a.token, id)])
            && h.store == g.store.(submissions := h.store.submissions, idempotency := h.store.idempotency, idemHash := h.store.idemHash)
            && h.store.submissions == g.store.submissions[id := Submission(id, a.hasPolicy, a.eligible, Accepted, None, [], None)]
            && h.store.idempotency == (if a.key == "" then g.store.idempotency else g.store.idempotency[a.key := id])
            && h.store.idemHash == (if a.key == "" then g.store.idemHash else g.store.idemHash[a.key := a.hash])
  {
    hide Logged, Clash, HashOf, ApplyRun;
  }

  lemma CommitCreates(g: State, n: nat, id: string)
    requires n < |g.agents| && g.agents[n].CreateStored? && g.agents[n].id == id
    requires g.agents[n].token < |g.pool.tokens| && g.pool.tokens[g.agents[n].token] == P.Open && !g.pool.closed
    requires g.pool.started <= |g.pool.commitLog| && |P.Jobs(g.pool)| < g.pool.max
    ensures Enabled(g, CreateCommit(n))
    ensures var h := Apply(g, CreateCommit(n));
            && h == g.(pool := h.pool, accepted := g.accepted + {id}, agents := g.agents[n := Finished])
            && h.pool == g.pool.(tokens := h.pool.tokens, commitLog := g.pool.commitLog + [id])
  {
    hide ApplyRun;
  }

  /** With room in the pool and an unused key, or none, a create request stores a new accepted submission
      under the key, queues it and answers 202. */
  lemma CreateServed(g: State, n: nat, id: string)
    requires Reachable(g) && n < |g.agents| && g.agents[n].CreateArrived? && HasRoom(g.pool) && FreshId(g, id)
    requires g.agents[n].key == "" || g.agents[n].key !in g.store.idempotency
    ensures var done, a := After(g, [CreateReserve(n, false), CreatePut(n, id), CreateCommit(n)]), g.agents[n];
            && done.Some?
            && done.value.store.submissions == g.store.submissions[id := Submission(id, a.hasPolicy, a.eligible, Accepted, None, [], None)]
            && done.value.store.idempotency == (if a.key == "" then g.store.idempotency else g.store.idempotency[a.key := id])
            && done.value.store.idemHash == (if a.key == "" then g.store.idemHash else g.store.idemHash[a.key := a.hash])
            && done.value.store.decisions == g.store.decisions && done.value.store.results == g.store.results
            && done.value.pool.commitLog == g.pool.commitLog + [id] && done.value.pool.sem == g.pool.sem + 1
            && done.value.accepted == g.accepted + {id} && done.value.runs == g.runs
  {
    hide Reachable, GatewayInv, Apply, Enabled, After;
    var owner := ReachableInv(g);
    PoolFacts(g, owner);
    ReserveCreates(g, n);
    var g1 := Apply(g, CreateReserve(n, false));
    PutCreates(g1, n, id);
    var g2 := Apply(g1, CreatePut(n, id));
    CommitCreates(g2, n, id);
    AfterThree(g, CreateReserve(n, false), CreatePut(n, id), CreateCommit(n));
  }

  lemma PutRepeats(g: State, n: nat, id: string)
    requires n < |g.agents| && g.agents[n].CreateReserved? && FreshId(g, id) && g.agents[n].key != ""
    requires g.agents[n].key in g.store.idempotency && g.store.idempotency[g.agents[n].key] in g.store.submissions
    requires var bound := g.store.idempotency[g.agents[n].key]; g.store.submissions[bound].id == bound
    ensures Enabled(g, CreatePut(n, id))
    ensures var h, a := Apply(g, CreatePut(n, id)), g.agents[n]; var was := if a.key in g.store.idemHash then g.store.idemHash[a.key] else "";
            && h == g.(accepted := h.accepted, log := h.log, used := h.used, agents := g.agents[n := CreateReleasing(a.token)])
            && h.accepted == g.accepted + (if was != "" && a.hash != "" && was != a.hash then {} else {g.store.idempotency[a.key]})
  {
    hide Logged, ApplyRun;
  }

  lemma ReleaseReturns(g: State, n: nat)
    requires n < |g.agents| && g.agents[n].CreateReleasing? && g.agents[n].token < |g.pool.tokens|
    requires g.pool.tokens[g.agents[n].token] == P.Open && g.pool.sem > 0
    ensures Enabled(g, CreateRelease(n))
    ensures var h := Apply(g, CreateRelease(n));
            && h == g.(pool := h.pool, agents := g.agents[n := Finished])
            && h.pool == g.pool.(tokens := h.pool.tokens, sem := g.pool.sem - 1)
  {
    hide ApplyRun;
  }

  /** With a bound key a create request changes nothing in the store and gives its slot back; it answers
      202 with the bound submission unless both fingerprints are present and differ. */
  lemma RepeatServed(g: State, n: nat, id: string)
    requires Reachable(g) && n < |g.agents| && g.agents[n].CreateArrived? && HasRoom(g.pool) && FreshId(g, id)
    requires g.agents[n].key != "" && g.agents[n].key in g.store.idempotency
    ensures var done, a := After(g, [CreateReserve(n, false), CreatePut(n, id), CreateRelease(n)]), g.agents[n];
            var was := if a.key in g.store.idemHash then g.store.idemHash[a.key] else "";
            && done.Some? && done.value.store == g.store && done.value.runs == g.runs
            && done.value.pool.commitLog == g.pool.commitLog && done.value.pool.sem == g.pool.sem
            && done.value.accepted == g.accepted + (if was != "" && a.hash != "" && was != a.hash then {} else {g.store.idempotency[a.key]})
  {
    hide Reachable, GatewayInv, Apply, Enabled, After, Legal, KeysMatch;
    var owner := ReachableInv(g);
    PoolFacts(g, owner);
    IdempotentCreate(g);
    OwnerIffBusy(g, owner, g.store.idempotency[g.agents[n].key]);
    ReserveCreates(g, n);
    var g1 := Apply(g, CreateReserve(n, false));
    PutRepeats(g1, n, id);
    var g2 := Apply(g1, CreatePut(n, id));
    ReleaseReturns(g2, n);
    AfterThree(g, CreateReserve(n, false), CreatePut(n, id), CreateRelease(n));
  }

  /** Without room nothing is stored, queued or answered with 202. */
  lemma CreateRefused(g: State, n: nat, contextDone: bool)
    requires n < |g.agents| && g.agents[n].CreateArrived? && (contextDone || !HasRoom(g.pool))
    ensures Enabled(g, CreateReserve(n, contextDone)) && Apply(g, CreateReserve(n, contextDone)) == g.(agents := g.agents[n := Finished])
  {
    hide ApplyRun;
  }

  // ---- resume ----

  lemma Claims(g: State, n: nat)
    requires n < |g.agents| && g.agents[n].ResumeArrived?
    ensures Enabled(g, ResumeClaim(n))
    ensures var h, id := Apply(g, ResumeClaim(n)), g.agents[n].id;
            if id in g.store.submissions && g.store.submissions[id].status == Deferred
            then h == g.(agents := g.agents[n := ResumeClaimed(id)],
                         store := g.store.(submissions := g.store.submissions[id := g.store.submissions[id].(status := Running)]))
            else h == g.(agents := g.agents[n := Finished])
  {
    hide ApplyRun;
  }

  lemma ReserveResumes(g: State, n: nat)
    requires n < |g.agents| && g.agents[n].ResumeClaimed?
    ensures Enabled(g, ResumeReserve(n, false))
    ensures var h, id := Apply(g, ResumeReserve(n, false)), g.agents[n].id;
            if HasRoom(g.pool) then h == g.(pool := Reserved(g.pool), agents := g.agents[n := ResumeReserved(id, |g.pool.tokens|)])
            else h == g.(agents := g.agents[n := ResumeUndoing(id)])
  {
    hide ApplyRun;
  }

  lemma CommitResumes(g: State, n: nat)
    requires n < |g.agents| && g.agents[n].ResumeReserved?
    requires g.agents[n].token < |g.pool.tokens| && g.pool.tokens[g.agents[n].token] == P.Open && !g.pool.closed
    requires g.pool.started <= |g.pool.commitLog| && |P.Jobs(g.pool)| < g.pool.max
    ensures Enabled(g, ResumeCommit(n))
    ensures var h := Apply(g, ResumeCommit(n));
            && h == g.(pool := h.pool, agents := g.agents[n := Finished])
            && h.pool == g.pool.(tokens := h.pool.tokens, commitLog := g.pool.commitLog + [g.agents[n].id])
  {
    hide ApplyRun;
  }

  /** With room in the pool a resume request marks the deferred submission as running and queues it. */
  lemma ResumeServed(g: State, n: nat)
    requires Reachable(g) && n < |g.agents| && g.agents[n].ResumeArrived? && HasRoom(g.pool)
    requires HasStatus(g, g.agents[n].id, Deferred)
    ensures var done, id := After(g, [ResumeClaim(n), ResumeReserve(n, false), ResumeCommit(n)]), g.agents[n].id;
            && done.Some? && done.value.runs == g.runs
            && done.value.store == g.store.(submissions := g.store.submissions[id := g.store.submissions[id].(status := Running)])
            && done.value.pool.commitLog == g.pool.commitLog + [id] && done.value.pool.sem == g.pool.sem + 1
  {
    hide Reachable, GatewayInv, Apply, Enabled, After;
    var owner := ReachableInv(g);
    PoolFacts(g, owner);
    Claims(g, n);
    var g1 := Apply(g, ResumeClaim(n));
    ReserveResumes(g1, n);
    var g2 := Apply(g1, ResumeReserve(n, false));
    CommitResumes(g2, n);
    AfterThree(g, ResumeClaim(n), ResumeReserve(n, false), ResumeCommit(n));
  }

  lemma Undoes(g: State, n: nat)
    requires n < |g.agents| && g.agents[n].ResumeUndoing? && HasStatus(g, g.agents[n].id, Running)
    ensures Enabled(g, ResumeUndo(n))
    ensures var h, id := Apply(g, ResumeUndo(n)), g.agents[n].id;
            h == g.(agents := g.agents[n := Finished],
                    store := g.store.(submissions := g.store.submissions[id := g.store.submissions[id].(status := Deferred, completion := Some(Postponed))]))
  {
    hide ApplyRun;
  }

  /** Without room a resume request leaves the store and the pool exactly as they were. */
  lemma ResumeRefused(g: State, n: nat)
    requires Reachable(g) && n < |g.agents| && g.agents[n].ResumeArrived? && !HasRoom(g.pool)
    requires HasStatus(g, g.agents[n].id, Deferred)
    ensures var done := After(g, [ResumeClaim(n), ResumeReserve(n, false), ResumeUndo(n)]);
            done.Some? && done.value.store == g.store && done.value.pool == g.pool && done.value.runs == g.runs
  {
    hide Reachable, GatewayInv, Apply, Enabled, After;
    var id := g.agents[n].id;
    DecisionValues(g, id);
    Claims(g, n);
    var g1 := Apply(g, ResumeClaim(n));
    ReserveResumes(g1, n);
    var g2 := Apply(g1, ResumeReserve(n, false));
    Undoes(g2, n);
    var g3 := Apply(g2, ResumeUndo(n));
    assert g3.store.submissions == g.store.submissions;
    AfterThree(g, ResumeClaim(n), ResumeReserve(n, false), ResumeUndo(n));
  }

  /** A submission that is not deferred cannot be resumed. */
  lemma ResumeDenied(g: State, n: nat)
    requires n < |g.agents| && g.agents[n].ResumeArrived? && !HasStatus(g, g.agents[n].id, Deferred)
    ensures Enabled(g, ResumeClaim(n)) && Apply(g, ResumeClaim(n)) == g.(agents := g.agents[n := Finished])
  {
    Claims(g, n);
  }

  // ---- adjudicate ----

  /** Only a completed submission with a decision can be adjudicated, and only to allow or deny. */
  ghost predicate Adjudicable(g: State, id: string, value: Policy.Decision) {
    (value == Policy.Allow || value == Policy.Deny) && HasStatus(g, id, Completed) && g.store.submissions[id].decisionId.Some?
  }

  lemma Loads(g: State, n: nat)
    requires Reachable(g) && n < |g.agents| && g.agents[n].AdjArrived?
    ensures Enabled(g, AdjLoad(n))
    ensures var h, a := Apply(g, AdjLoad(n)), g.agents[n];
            if Adjudicable(g, a.id, a.value) then h == g.(agents := g.agents[n := AdjLoaded(g.store.submissions[a.id], a.value)])
            else h == g.(agents := g.agents[n := Finished])
  {
    hide ApplyRun, Reachable, GatewayInv, SubOk;
    var owner := ReachableInv(g);
    if g.agents[n].id in g.store.submissions {
      StoredSubOk(g, owner, g.agents[n].id);
      NamedDecision(g.store.decisions, g.store.submissions[g.agents[n].id]);
    }
  }

  lemma NamedDecision(ds: Decisions, sub: Submission)
    requires SubOk(ds, sub)
    ensures sub.decisionId.Some? ==> sub.decisionId.value != "" && sub.decisionId.value in ds
  {
  }

  lemma Fetches(g: State, n: nat)
    requires n < |g.agents| && g.agents[n].AdjLoaded?
    requires g.agents[n].sub.decisionId.Some? && g.agents[n].sub.decisionId.value in g.store.decisions
    ensures Enabled(g, AdjFetch(n))
    ensures var h, a := Apply(g, AdjFetch(n)), g.agents[n];
            h == g.(agents := g.agents[n := AdjPrior(a.sub, a.value, g.store.decisions[a.sub.decisionId.value])])
  {
    hide ApplyRun;
  }

  lemma Puts(g: State, n: nat, d: string, extra: map<string, string>)
    requires n < |g.agents| && g.agents[n].AdjPrior? && FreshId(g, d)
    ensures Enabled(g, AdjPut(n, d, extra))
    ensures var h, a := Apply(g, AdjPut(n, d, extra)), g.agents[n];
            && h == g.(store := h.store, used := h.used, agents := g.agents[n := AdjStored(a.sub.(decisionId := Some(d)))])
            && h.store == g.store.(decisions := g.store.decisions[d := StoredDecision(d, a.sub.id, a.value, ConsumerExt(a.prior, extra))])
  {
    hide ApplyRun, ConsumerExt;
  }

  lemma Writes(g: State, n: nat)
    requires n < |g.agents| && g.agents[n].AdjStored?
    ensures Enabled(g, AdjWrite(n))
    ensures var h, sub := Apply(g, AdjWrite(n)), g.agents[n].sub;
            h == g.(agents := g.agents[n := Finished], store := g.store.(submissions := g.store.submissions[sub.id := sub]))
  {
    hide ApplyRun;
  }

  /** The extensions of a consumer decision: its links to the prior decision stand whatever the request adds,
      and of the rest nothing is lost or invented. */
  lemma ConsumerExtLaw(prior: StoredDecision, extra: map<string, string>, k: string)
    ensures var ext := ConsumerExt(prior, extra);
            && "origin" in ext && ext["origin"] == "consumer"
            && "prior_decision_id" in ext && ext["prior_decision_id"] == prior.id
            && "prior_decision" in ext && ext["prior_decision"] == DecisionName(prior.value)
            && (k != "origin" && k != "prior_decision_id" && k != "prior_decision" ==>
                  (k in ext <==> k in extra) && (k in extra ==> ext[k] == extra[k]))
  {
    assert |"prior_decision"| != |"prior_decision_id"| && |"origin"| != |"prior_decision"| && |"origin"| != |"prior_decision_id"|;
  }

  /** An adjudication that is allowed adds one decision with the value asked for, whose prior is the
      submission's decision until then, and points the submission to it; nothing else changes. */
  lemma AdjudicateServed(g: State, n: nat, d: string, extra: map<string, string>)
    requires Reachable(g) && n < |g.agents| && g.agents[n].AdjArrived? && FreshId(g, d)
    requires Adjudicable(g, g.agents[n].id, g.agents[n].value)
    ensures var a := g.agents[n]; var sub := g.store.submissions[a.id];
            var done := After(g, [AdjLoad(n), AdjFetch(n), AdjPut(n, d, extra)] + [AdjWrite(n)]);
            && sub.decisionId.value in g.store.decisions && done.Some?
            && done.value.store.submissions == g.store.submissions[a.id := sub.(decisionId := Some(d))]
            && d in done.value.store.decisions && done.value.store.decisions == g.store.decisions[d := done.value.store.decisions[d]]
            && done.value.store.decisions[d].submissionId == a.id && done.value.store.decisions[d].value == a.value
            && PriorOf(done.value.store.decisions[d]) == sub.decisionId
            && done.value.store.results == g.store.results && done.value.pool == g.pool && done.value.runs == g.runs
  {
    hide Reachable, GatewayInv, Apply, Enabled, After, ConsumerExt, PriorOf, SubOk;
    var a := g.agents[n];
    var sub := g.store.submissions[a.id];
    var owner := ReachableInv(g);
    OwnerIffBusy(g, owner, a.id);
    StoredSubOk(g, owner, a.id);
    NamedDecision(g.store.decisions, sub);
    DecisionNamed(g, owner, sub.decisionId.value);
    Loads(g, n);
    var g1 := Apply(g, AdjLoad(n));
    Fetches(g1, n);
    var g2 := Apply(g1, AdjFetch(n));
    Puts(g2, n, d, extra);
    var g3 := Apply(g2, AdjPut(n, d, extra));
    Writes(g3, n);
    PriorLinkKept(d, a.id, a.value, g.store.decisions[sub.decisionId.value], extra);
    AfterThree(g, AdjLoad(n), AdjFetch(n), AdjPut(n, d, extra));
    AfterSnoc(g, [AdjLoad(n), AdjFetch(n), AdjPut(n, d, extra)], AdjWrite(n));
  }

  /** An adjudication that is not allowed changes nothing. */
  lemma AdjudicateRefused(g: State, n: nat)
    requires Reachable(g) && n < |g.agents| && g.agents[n].AdjArrived? && !Adjudicable(g, g.agents[n].id, g.agents[n].value)
    ensures Enabled(g, AdjLoad(n)) && Apply(g, AdjLoad(n)) == g.(agents := g.agents[n := Finished])
  {
    hide Reachable, Apply, Enabled;
    Loads(g, n);
  }

  // ---- process ----

  function Storing(w: nat, ids: seq<string>): (events: seq<Event>) {
    if ids == [] then [] else Storing(w, ids[..|ids| - 1]) + [RunResult(w, ids[|ids| - 1])]
  }

  function AllFrom(results: map<string, string>, ids: seq<string>, sub: string): (r: map<string, string>) {
    if ids == [] then results else AllFrom(results, ids[..|ids| - 1], sub)[ids[|ids| - 1] := sub]
  }

  /** `g` with the run of `w` at another stage and other contents of the store. */
  function At(g: State, w: nat, s: Stage, st: Store, used: set<string>): (h: State)
    requires w in g.runs
  {
    g.(runs := g.runs[w := g.runs[w].(stage := s)], store := st, used := used)
  }

  ghost predicate NewIds(g: State, ids: seq<string>) {
    Distinct(ids) && forall r :: r in ids ==> FreshId(g, r)
  }

  lemma ResultStored(g: State, w: nat, sub: Submission, before: seq<string>, id: string)
    requires w in g.runs && g.runs[w].stage == Working(sub, before) && sub.eligible && FreshId(g, id)
    ensures Enabled(g, RunResult(w, id))
    ensures Apply(g, RunResult(w, id)) ==
            At(g, w, Working(sub, before + [id]), g.store.(results := g.store.results[id := sub.id]), g.used + {id})
  {
    hide ApplyHandler, HandlerEnabled;
  }

  lemma AtTwice(g: State, w: nat, s: Stage, st: Store, used: set<string>, s': Stage, st': Store, used': set<string>)
    requires w in g.runs
    ensures At(At(g, w, s, st, used), w, s', st', used') == At(g, w, s', st', used')
  {
    var r := g.runs[w];
    assert g.runs[w := r.(stage := s)][w := r.(stage := s')] == g.runs[w := r.(stage := s')];
  }

  lemma AtItself(g: State, w: nat)
    requires w in g.runs
    ensures At(g, w, g.runs[w].stage, g.store, g.used) == g
  {
    assert g.runs[w := g.runs[w]] == g.runs;
  }

  lemma {:induction false} ResultsStored(g: State, w: nat, sub: Submission, ids: seq<string>)
    requires w in g.runs && g.runs[w].stage == Working(sub, []) && sub.eligible && NewIds(g, ids)
    ensures After(g, Storing(w, ids)) ==
            Some(At(g, w, Working(sub, ids), g.store.(results := AllFrom(g.store.results, ids, sub.id)), g.used + (set r | r in ids)))
    decreases |ids|
  {
    if ids == [] {
      AtItself(g, w);
      assert g.used + (set r | r in ids) == g.used;
    } else {
      hide After, Apply, Enabled;
      var m := |ids| - 1;
      var before, id := ids[..m], ids[m];
      assert ids == before + [id];
      assert id in ids && id !in before;
      ResultsStored(g, w, sub, before);
      var st, used := g.store.(results := AllFrom(g.store.results, before, sub.id)), g.used + (set r | r in before);
      var h := At(g, w, Working(sub, before), st, used);
      ResultStored(h, w, sub, before, id);
      AtTwice(g, w, Working(sub, before), st, used, Working(sub, ids), st.(results := st.results[id := sub.id]), used + {id});
      assert used + {id} == g.used + (set r | r in ids);
      AfterSnoc(g, Storing(w, before), RunResult(w, id));
    }
  }

  lemma {:induction false} AllFromIs(results: map<string, string>, ids: seq<string>, sub: string, r: string)
    ensures r in AllFrom(results, ids, sub) <==> r in results || r in ids
    ensures r in ids ==> AllFrom(results, ids, sub)[r] == sub
    ensures r in results && r !in ids ==> AllFrom(results, ids, sub)[r] == results[r]
    decreases |ids|
  {
    if ids != [] {
      assert ids == ids[..|ids| - 1] + [ids[|ids| - 1]];
      AllFromIs(results, ids[..|ids| - 1], sub, r);
    }
  }

  /** A run that starts marks its submission as running. */
  lemma RunBegins(g: State, owner: Owner, w: nat)
    requires GatewayInv(g, owner) && w in g.runs && g.runs[w].stage.Start?
    ensures g.runs[w].id in g.store.submissions && g.store.submissions[g.runs[w].id].id == g.runs[w].id
    ensures var id := g.runs[w].id; var sub := g.store.submissions[id].(status := Running);
            After(g, [RunStart(w, false), RunMark(w)]) ==
            Some(At(g, w, Working(sub, []), g.store.(submissions := g.store.submissions[id := sub]), g.used))
  {
    hide GatewayInv, After, ApplyHandler, HandlerEnabled, InterruptedStage, StepRunFail, StepRunIneligible, StepRunInterrupt, StepRunResult,
      StepRunReload, StepRunSave, StepRunDecide, StepRunWrite;
    RunCopy(g, owner, w);
    AfterOne(g, RunStart(w, false));
    AfterSnoc(g, [RunStart(w, false)], RunMark(w));
    assert [RunStart(w, false)] + [RunMark(w)] == [RunStart(w, false), RunMark(w)];
    assert Apply(Apply(g, RunStart(w, false)), RunMark(w)).runs == g.runs[w := Run(g.runs[w].id, Working(g.store.submissions[g.runs[w].id].(status := Running), []))];
  }

  /** What the run leaves in the store's copy when it has saved its results. */
  lemma RunSaves(g: State, w: nat, ids: seq<string>, id: string)
    requires w in g.runs && g.runs[w].stage.Working? && g.runs[w].stage.ids == ids && g.runs[w].id == id && g.runs[w].stage.sub.eligible
    requires id in g.store.submissions && g.store.submissions[id].id == id
    ensures var sub := g.store.submissions[id].(resultIds := ids);
            After(g, [RunReload(w), RunSave(w)]) ==
            Some(At(g, w, if sub.hasPolicy then Deciding(sub) else Writing(sub.(status := Completed, completion := Some(FindingsOnly))),
                    g.store.(submissions := g.store.submissions[id := sub]), g.used))
  {
    hide After, ApplyHandler, HandlerEnabled, InterruptedStage, StepRunStart, StepRunMark, StepRunFail, StepRunIneligible, StepRunInterrupt,
      StepRunResult, StepRunDecide, StepRunWrite;
    AfterOne(g, RunReload(w));
    AfterSnoc(g, [RunReload(w)], RunSave(w));
    assert [RunReload(w)] + [RunSave(w)] == [RunReload(w), RunSave(w)];
    var h := Apply(Apply(g, RunReload(w)), RunSave(w));
    assert h.runs == g.runs[w := Run(id, h.runs[w].stage)];
  }

  lemma RunDecides(g: State, w: nat, d: string, value: Policy.Decision)
    requires w in g.runs && g.runs[w].stage.Deciding? && FreshId(g, d)
    ensures var sub := g.runs[w].stage.sub;
            After(g, [RunDecide(w, d, value), RunWrite(w)]) ==
            Some(At(g, w, Ended,
                    g.store.(submissions := g.store.submissions[sub.id := sub.(decisionId := Some(d),
                               status := if value == Policy.Defer then Deferred else Completed,
                               completion := Some(if value == Policy.Defer then Postponed else DecisionProduced))],
                             decisions := g.store.decisions[d := StoredDecision(d, sub.id, value, map[])]), g.used + {d}))
  {
    hide After, ApplyHandler, HandlerEnabled, InterruptedStage, StepRunStart, StepRunMark, StepRunFail, StepRunIneligible, StepRunInterrupt,
      StepRunResult, StepRunReload, StepRunSave;
    AfterOne(g, RunDecide(w, d, value));
    AfterSnoc(g, [RunDecide(w, d, value)], RunWrite(w));
    assert [RunDecide(w, d, value)] + [RunWrite(w)] == [RunDecide(w, d, value), RunWrite(w)];
    assert Apply(Apply(g, RunDecide(w, d, value)), RunWrite(w)).runs == g.runs[w := Run(g.runs[w].id, Ended)];
  }

  function Begun(w: nat, ids: seq<string>): (events: seq<Event>) {
    [RunStart(w, false), RunMark(w)] + Storing(w, ids) + [RunReload(w), RunSave(w)]
  }

  lemma RunCollects(g: State, owner: Owner, w: nat, ids: seq<string>)
    requires GatewayInv(g, owner) && w in g.runs && g.runs[w].stage.Start? && NewIds(g, ids)
    requires g.runs[w].id in g.store.submissions ==> g.store.submissions[g.runs[w].id].eligible
    ensures g.runs[w].id in g.store.submissions && g.store.submissions[g.runs[w].id].id == g.runs[w].id
    ensures var id := g.runs[w].id; var sub := g.store.submissions[id].(status := Running, resultIds := ids);
            After(g, Begun(w, ids)) ==
            Some(At(g, w, if sub.hasPolicy then Deciding(sub) else Writing(sub.(status := Completed, completion := Some(FindingsOnly))),
                    g.store.(submissions := g.store.submissions[id := sub], results := AllFrom(g.store.results, ids, id)),
                    g.used + (set r | r in ids)))
  {
    hide GatewayInv, After, AllFrom, Storing;
    var id := g.runs[w].id;
    RunBegins(g, owner, w);
    var start := [RunStart(w, false), RunMark(w)];
    var g1 := After(g, start).value;
    var sub := g.store.submissions[id].(status := Running);
    ResultsStored(g1, w, sub, ids);
    AfterConcat(g, start, Storing(w, ids));
    var g2 := After(g, start + Storing(w, ids)).value;
    RunSaves(g2, w, ids, id);
    AfterConcat(g, start + Storing(w, ids), [RunReload(w), RunSave(w)]);
    var g3 := After(g, Begun(w, ids)).value;
    assert g3.runs == g.runs[w := Run(id, g3.runs[w].stage)];
    assert g3.store.submissions == g.store.submissions[id := sub.(resultIds := ids)];
  }

  /** A run with policy ends with all its results listed and stored, the decision stored, and the submission
      deferred or completed as the decision says; nothing else changes. */
  lemma ProcessServed(g: State, w: nat, ids: seq<string>, d: string, value: Policy.Decision)
    requires Reachable(g) && w in g.runs && g.runs[w].stage.Start? && NewIds(g, ids) && FreshId(g, d) && d !in ids
    requires g.runs[w].id in g.store.submissions ==>
               g.store.submissions[g.runs[w].id].eligible && g.store.submissions[g.runs[w].id].hasPolicy
    ensures var id := g.runs[w].id; var done := After(g, Begun(w, ids) + [RunDecide(w, d, value), RunWrite(w)]);
            && id in g.store.submissions && done.Some?
            && done.value.store.submissions == g.store.submissions[id := g.store.submissions[id].(resultIds := ids, decisionId := Some(d),
                 status := if value == Policy.Defer then Deferred else Completed,
                 completion := Some(if value == Policy.Defer then Postponed else DecisionProduced))]
            && done.value.store.decisions == g.store.decisions[d := StoredDecision(d, id, value, map[])]
            && (forall r :: r in done.value.store.results <==> r in g.store.results || r in ids)
            && (forall r :: r in ids ==> done.value.store.results[r] == id)
            && (forall r :: r in g.store.results && r !in ids ==> done.value.store.results[r] == g.store.results[r])
            && done.value.pool == g.pool && done.value.agents == g.agents
  {
    hide Reachable, GatewayInv, After, AllFrom, Begun;
    var owner := ReachableInv(g);
    RunCollects(g, owner, w, ids);
    var g1 := After(g, Begun(w, ids)).value;
    RunDecides(g1, w, d, value);
    AfterConcat(g, Begun(w, ids), [RunDecide(w, d, value), RunWrite(w)]);
    forall r ensures var all := AllFrom(g.store.results, ids, g.runs[w].id);
                     && (r in all <==> r in g.store.results || r in ids) && (r in ids ==> all[r] == g.runs[w].id)
                     && (r in g.store.results && r !in ids ==> all[r] == g.store.results[r]) {
      AllFromIs(g.store.results, ids, g.runs[w].id, r);
    }
  }

  /** A run without policy completes the submission with its results and no new decision. */
  lemma FindingsServed(g: State, w: nat, ids: seq<string>)
    requires Reachable(g) && w in g.runs && g.runs[w].stage.Start? && NewIds(g, ids)
    requires g.runs[w].id in g.store.submissions ==>
               g.store.submissions[g.runs[w].id].eligible && !g.store.submissions[g.runs[w].id].hasPolicy
    ensures var id := g.runs[w].id; var done := After(g, Begun(w, ids) + [RunWrite(w)]);
            && id in g.store.submissions && done.Some? && done.value.store.decisions == g.store.decisions
            && done.value.store.submissions ==
               g.store.submissions[id := g.store.submissions[id].(resultIds := ids, status := Completed, completion := Some(FindingsOnly))]
            && done.value.store.results == AllFrom(g.store.results, ids, id)
            && done.value.pool == g.pool && done.value.agents == g.agents
  {
    hide Reachable, GatewayInv, After, AllFrom, Begun, ApplyHandler, HandlerEnabled, InterruptedStage;
    var owner := ReachableInv(g);
    RunCollects(g, owner, w, ids);
    AfterSnoc(g, Begun(w, ids), RunWrite(w));
  }
}
