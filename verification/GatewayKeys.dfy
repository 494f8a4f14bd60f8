/** Idempotent creation over whole runs: the history of each key is that of a register that is set
    once between abandons, no key dangles, and what was committed is never dropped. */
module GatewayKeys {
  import opened Seqs
  import opened MemoryStore
  import opened Gateway
  import opened GatewayTokens
  import opened GatewayOwners
  import P = LocalPool

  // ---- legal key histories ----

  /** The submission and fingerprint a key is bound to after a history. */
  function Bound(log: seq<KeyEvent>, k: string): (b: Option<(string, string)>) {
    if log == [] then None
    else
      var e, before := log[|log| - 1], Bound(log[..|log| - 1], k);
      if e.key != k then before
      else match e
        case KeyCreated(_, id, hash) => Some((id, hash))
        case KeyAbandoned(_, _) => None
        case _ => before
  }

  /** What may happen next to a key with this binding. */
  ghost predicate LegalNext(b: Option<(string, string)>, e: KeyEvent) {
    match e
    case KeyCreated(_, _, _) => b.None?
    case KeyReplayed(_, id, hash) => b.Some? && b.value.0 == id && !Clash(b.value.1, hash)
    case KeyConflict(_, hash) => b.Some? && Clash(b.value.1, hash)
    case KeyAbandoned(_, id) => b.Some? && b.value.0 == id
  }

  ghost predicate Legal(log: seq<KeyEvent>) {
    forall i :: 0 <= i < |log| ==> LegalNext(Bound(log[..i], log[i].key), log[i])
  }

  lemma LegalSnoc(log: seq<KeyEvent>, e: KeyEvent)
    requires Legal(log) && LegalNext(Bound(log, e.key), e)
    ensures Legal(log + [e])
  {
    hide LegalNext, Bound;
    var l := log + [e];
    forall i | 0 <= i < |l| ensures LegalNext(Bound(l[..i], l[i].key), l[i]) {
      if i < |log| { assert l[..i] == log[..i]; } else { assert l[..i] == log; }
    }
  }

  lemma BoundSnoc(log: seq<KeyEvent>, e: KeyEvent, k: string)
    ensures Bound(log + [e], k) ==
            if e.key != k || e.KeyReplayed? || e.KeyConflict? then Bound(log, k)
            else if e.KeyCreated? then Some((e.id, e.hash)) else None
  {
    assert (log + [e])[..|log|] == log;
  }

  /** Between abandons a key keeps its binding. */
  lemma {:induction false} BindingLasts(log: seq<KeyEvent>, i: nat, j: nat, k: string)
    requires Legal(log) && i <= j <= |log| && Bound(log[..i], k).Some?
    requires forall m :: i <= m < j ==> !(log[m].KeyAbandoned? && log[m].key == k)
    ensures Bound(log[..j], k) == Bound(log[..i], k)
    decreases j
  {
    if i < j {
      BindingLasts(log, i, j - 1, k);
      assert log[..j] == log[..j - 1] + [log[j - 1]];
      BoundSnoc(log[..j - 1], log[j - 1], k);
      assert LegalNext(Bound(log[..j - 1], log[j - 1].key), log[j - 1]);
    }
  }

  /** In a legal history, after a create and before the next abandon of its key: nobody creates
      again, every replay answers with the created id, and exactly the clashing fingerprints
      conflict. */
  lemma OneCreatorBetweenAbandons(log: seq<KeyEvent>, i: nat, j: nat)
    requires Legal(log) && i < j < |log| && log[i].KeyCreated? && log[j].key == log[i].key
    requires forall m :: i < m < j ==> !(log[m].KeyAbandoned? && log[m].key == log[i].key)
    ensures !log[j].KeyCreated?
    ensures log[j].KeyReplayed? ==> log[j].id == log[i].id && !Clash(log[i].hash, log[j].hash)
    ensures log[j].KeyConflict? ==> Clash(log[i].hash, log[j].hash)
    ensures log[j].KeyAbandoned? ==> log[j].id == log[i].id
  {
    var k := log[i].key;
    assert log[..i + 1] == log[..i] + [log[i]];
    BoundSnoc(log[..i], log[i], k);
    BindingLasts(log, i + 1, j, k);
    assert LegalNext(Bound(log[..j], log[j].key), log[j]);
  }

  // ---- the invariant ----

  /** Key and id of a create handler that has stored but not committed. */
  function CreatorOf(a: Agent): (c: Option<(string, string)>) {
    match a
    case CreateStored(key, _, id) => Some((key, id))
    case CreateAbandoning(key, _, id) => Some((key, id))
    case _ => None
  }

  ghost predicate CreatorOk(idem: map<string, string>, commitLog: seq<string>, a: Agent) {
    CreatorOf(a).Some? ==>
      var (key, id) := CreatorOf(a).value;
      && id !in commitLog
      && (key != "" ==> key in idem && idem[key] == id)
      && (forall k :: k in idem && idem[k] == id ==> k == key)
  }

  ghost predicate KeysMatch(st: Store, log: seq<KeyEvent>) {
    && "" !in st.idempotency
    && (forall k :: k in st.idempotency <==> Bound(log, k).Some?)
    && (forall k :: k in st.idempotency ==> Bound(log, k).value == (st.idempotency[k], HashOf(st, k)))
  }

  ghost predicate KeyInv(g: State) {
    && Legal(g.log) && KeysMatch(g.store, g.log) && NoDangling(g.store)
    && (forall n :: 0 <= n < |g.agents| ==> CreatorOk(g.store.idempotency, g.pool.commitLog, g.agents[n]))
    && (forall i :: 0 <= i < |g.pool.commitLog| ==> g.pool.commitLog[i] in g.store.submissions)
  }

  /** Steps that leave keys, committed jobs and creators alone. */
  ghost predicate SameKeys(g: State, h: State) {
    && h.store.idempotency == g.store.idempotency && h.store.idemHash == g.store.idemHash
    && h.log == g.log && h.pool.commitLog == g.pool.commitLog
    && g.store.submissions.Keys <= h.store.submissions.Keys
    && (forall n :: 0 <= n < |h.agents| && CreatorOf(h.agents[n]).Some? ==>
          n < |g.agents| && CreatorOf(h.agents[n]) == CreatorOf(g.agents[n]))
  }

  lemma KeysFrame(g: State, h: State)
    requires KeyInv(g) && SameKeys(g, h)
    ensures KeyInv(h)
  {
    hide Legal, Bound, CreatorOf, LegalNext;
    forall n | 0 <= n < |h.agents| ensures CreatorOk(h.store.idempotency, h.pool.commitLog, h.agents[n]) {
      if CreatorOf(h.agents[n]).Some? { assert CreatorOk(g.store.idempotency, g.pool.commitLog, g.agents[n]); }
    }
  }

  lemma WorkerStepSame(g: State, e: Event)
    requires Enabled(g, e) && (e.Arrive? || e.Close? || e.Receive? || e.Finish?)
    ensures SameKeys(g, Apply(g, e))
  {
    hide ApplyRun, RunEnabled;
  }

  lemma HandlerStepSame(g: State, e: Event)
    requires Enabled(g, e) && (e.CreateReserve? || e.CreateRelease? || e.ResumeClaim? || e.ResumeReserve? || e.ResumeUndo?)
    ensures SameKeys(g, Apply(g, e))
  {
    hide ApplyRun, RunEnabled;
  }

  lemma AdjStepSame(g: State, e: Event)
    requires Enabled(g, e) && (e.AdjLoad? || e.AdjFetch? || e.AdjPut? || e.AdjWrite?)
    ensures SameKeys(g, Apply(g, e))
  {
    hide ApplyRun, RunEnabled, ConsumerExt;
  }

  lemma RunStepSame(g: State, e: Event)
    requires Enabled(g, e) && IsRunEvent(e)
    ensures SameKeys(g, Apply(g, e))
  {
    hide Apply, CreatorOf;
    RunStepShape(g, e);
    RunKeepsIds(g, e);
  }

  lemma RunKeepsIds(g: State, e: Event)
    requires Enabled(g, e) && IsRunEvent(e)
    ensures g.store.submissions.Keys <= Apply(g, e).store.submissions.Keys
  {
    hide ApplyHandler, HandlerEnabled, StepRunStart, StepRunMark, StepRunFail, StepRunIneligible, StepRunInterrupt, StepRunReload, StepRunSave, StepRunWrite, StepRunResult, StepRunDecide;
  }

  /** A submission held by a creator has not been handed to any other creator. */
  lemma CreatorsDiffer(g: State, owner: Owner, m: nat, n: nat)
    requires GatewayOwners.Inv(g, owner) && m < |g.agents| && n < |g.agents| && m != n
    requires CreatorOf(g.agents[m]).Some? && HeldBy(g.agents[n]).Some?
    ensures CreatorOf(g.agents[m]).value.1 != HeldBy(g.agents[n]).value
  {
    hide TokensHeld, Aligned, P.Accounted, P.Conserved, CopyOk, OwnRun, AdjOk;
    assert OwnAgent(owner, g.store.submissions, m, g.agents[m]);
    assert OwnAgent(owner, g.store.submissions, n, g.agents[n]);
  }

  lemma PutKeys(g: State, owner: Owner, n: nat, id: string)
    requires GatewayOwners.Inv(g, owner) && KeyInv(g) && n < |g.agents| && g.agents[n].CreateReserved? && FreshId(g, id)
    ensures KeyInv(StepCreatePut(g, n, id))
  {
    hide Bound, Legal, LegalNext, PoolInv, Owned;
    var h, a := StepCreatePut(g, n, id), g.agents[n];
    if a.key == "" || (a.key in g.store.idempotency && g.store.idempotency[a.key] in g.store.submissions) {
      PutKnownKey(g, owner, n, id);
    } else {
      PutNewKey(g, owner, n, id);
    }
  }

  lemma PutKnownKey(g: State, owner: Owner, n: nat, id: string)
    requires GatewayOwners.Inv(g, owner) && KeyInv(g) && n < |g.agents| && g.agents[n].CreateReserved? && FreshId(g, id)
    requires g.agents[n].key == "" || g.agents[n].key in g.store.idempotency
    ensures KeyInv(StepCreatePut(g, n, id))
  {
    hide Bound, Legal, PoolInv, Owned;
    var h, a := StepCreatePut(g, n, id), g.agents[n];
    FreshUnknown(g, owner, id);
    if a.key != "" {
      var b := Bound(g.log, a.key);
      LegalSnoc(g.log, h.log[|g.log|]);
      forall k ensures Bound(h.log, k) == Bound(g.log, k) { BoundSnoc(g.log, h.log[|g.log|], k); }
    }
    forall m | 0 <= m < |h.agents| ensures CreatorOk(h.store.idempotency, h.pool.commitLog, h.agents[m]) {
      assert CreatorOk(g.store.idempotency, g.pool.commitLog, g.agents[m]);
    }
  }

  /** A fresh id is neither stored nor committed nor bound. */
  lemma FreshUnknown(g: State, owner: Owner, id: string)
    requires GatewayOwners.Inv(g, owner) && KeyInv(g) && FreshId(g, id)
    ensures id !in g.store.submissions && id !in g.pool.commitLog
    ensures forall k :: k in g.store.idempotency ==> g.store.idempotency[k] != id
    ensures forall sid :: sid in g.store.submissions ==> g.store.submissions[sid].id == sid
  {
    hide Bound, Legal, PoolInv, LegalNext, OwnRun, OwnAgent, AdjOk;
  }

  lemma PutNewKey(g: State, owner: Owner, n: nat, id: string)
    requires GatewayOwners.Inv(g, owner) && KeyInv(g) && n < |g.agents| && g.agents[n].CreateReserved? && FreshId(g, id)
    requires g.agents[n].key != "" && g.agents[n].key !in g.store.idempotency
    ensures KeyInv(StepCreatePut(g, n, id))
  {
    hide Bound, Legal, PoolInv, Owned;
    var h, a := StepCreatePut(g, n, id), g.agents[n];
    FreshUnknown(g, owner, id);
    var ev := KeyCreated(a.key, id, a.hash);
    LegalSnoc(g.log, ev);
    forall k ensures Bound(h.log, k) == if k == a.key then Some((id, a.hash)) else Bound(g.log, k) { BoundSnoc(g.log, ev, k); }
    forall m | 0 <= m < |h.agents| ensures CreatorOk(h.store.idempotency, h.pool.commitLog, h.agents[m]) {
      assert CreatorOk(g.store.idempotency, g.pool.commitLog, g.agents[m]);
      if m != n && CreatorOf(g.agents[m]).Some? { HeldIsStored(g, owner, m); }
    }
  }

  lemma CommitKeys(g: State, owner: Owner, e: Event)
    requires GatewayOwners.Inv(g, owner) && KeyInv(g) && Enabled(g, e) && (e.CreateCommit? || e.ResumeCommit?)
    ensures KeyInv(Apply(g, e))
  {
    hide ApplyRun, RunEnabled, Bound, Legal, PoolInv, LegalNext, Owned;
    var h, n := Apply(g, e), e.n;
    var id := g.agents[n].id;
    HeldIsStored(g, owner, n);
    forall m | 0 <= m < |h.agents| ensures CreatorOk(h.store.idempotency, h.pool.commitLog, h.agents[m]) {
      assert CreatorOk(g.store.idempotency, g.pool.commitLog, g.agents[m]);
      if m != n && CreatorOf(g.agents[m]).Some? { CreatorsDiffer(g, owner, m, n); }
    }
    forall i | 0 <= i < |h.pool.commitLog| ensures h.pool.commitLog[i] in h.store.submissions {
      if i < |g.pool.commitLog| { assert h.pool.commitLog[i] == g.pool.commitLog[i]; }
    }
  }

  lemma HeldIsStored(g: State, owner: Owner, n: nat)
    requires GatewayOwners.Inv(g, owner) && n < |g.agents| && HeldBy(g.agents[n]).Some?
    ensures HeldBy(g.agents[n]).value in g.store.submissions
    ensures g.store.submissions[HeldBy(g.agents[n]).value].status == HeldStatus(g.agents[n])
  {
    hide TokensHeld, Aligned, P.Accounted, P.Conserved, CopyOk, OwnRun, AdjOk, HeldBy, HeldStatus;
    assert OwnAgent(owner, g.store.submissions, n, g.agents[n]);
  }

  lemma AbandonKeys(g: State, owner: Owner, n: nat)
    requires GatewayOwners.Inv(g, owner) && KeyInv(g) && n < |g.agents| && g.agents[n].CreateAbandoning?
    ensures KeyInv(StepCreateAbandon(g, n))
  {
    hide Bound, Legal, PoolInv, Owned;
    var h, a := StepCreateAbandon(g, n), g.agents[n];
    HeldIsStored(g, owner, n);
    assert CreatorOk(g.store.idempotency, g.pool.commitLog, a);
    if a.key != "" {
      var ev := KeyAbandoned(a.key, a.id);
      LegalSnoc(g.log, ev);
      forall k ensures Bound(h.log, k) == if k == a.key then None else Bound(g.log, k) { BoundSnoc(g.log, ev, k); }
    }
    forall m | 0 <= m < |h.agents| ensures CreatorOk(h.store.idempotency, h.pool.commitLog, h.agents[m]) {
      assert CreatorOk(g.store.idempotency, g.pool.commitLog, g.agents[m]);
      if m != n && CreatorOf(g.agents[m]).Some? { CreatorsDiffer(g, owner, m, n); }
    }
    forall i | 0 <= i < |h.pool.commitLog| ensures h.pool.commitLog[i] in h.store.submissions {
      assert h.pool.commitLog[i] in g.pool.commitLog;
    }
  }

  lemma AbandonStepKeys(g: State, owner: Owner, e: Event)
    requires GatewayOwners.Inv(g, owner) && KeyInv(g) && Enabled(g, e) && e.CreateAbandon?
    ensures KeyInv(Apply(g, e))
  {
    hide ApplyRun, RunEnabled, KeyInv, GatewayOwners.Inv, StepCreateAbandon;
    AbandonKeys(g, owner, e.n);
  }

  lemma PutStepKeys(g: State, owner: Owner, e: Event)
    requires GatewayOwners.Inv(g, owner) && KeyInv(g) && Enabled(g, e) && e.CreatePut?
    ensures KeyInv(Apply(g, e))
  {
    hide ApplyRun, RunEnabled, KeyInv, GatewayOwners.Inv, StepCreatePut;
    PutKeys(g, owner, e.n, e.id);
  }

  lemma StepKeepsKeys(g: State, owner: Owner, e: Event)
    requires GatewayOwners.Inv(g, owner) && KeyInv(g) && Enabled(g, e)
    ensures KeyInv(Apply(g, e))
  {
    hide KeyInv, GatewayOwners.Inv, Apply, SameKeys, Enabled;
    if e.CreatePut? {
      PutStepKeys(g, owner, e);
    } else if e.CreateCommit? || e.ResumeCommit? {
      CommitKeys(g, owner, e);
    } else if e.CreateAbandon? {
      AbandonStepKeys(g, owner, e);
    } else if IsRunEvent(e) {
      RunStepSame(g, e);
      KeysFrame(g, Apply(g, e));
    } else {
      if e.Arrive? || e.Close? || e.Receive? || e.Finish? {
        WorkerStepSame(g, e);
      } else if e.AdjLoad? || e.AdjFetch? || e.AdjPut? || e.AdjWrite? {
        AdjStepSame(g, e);
      } else {
        HandlerStepSame(g, e);
      }
      KeysFrame(g, Apply(g, e));
    }
  }

  // ---- accepted submissions ----

  /** While the pool is open nobody abandons, and everything answered with 202 is stored. */
  ghost predicate AcceptedInv(g: State) {
    !g.pool.closed ==>
      && (forall n :: 0 <= n < |g.agents| ==> !g.agents[n].CreateAbandoning?)
      && (forall id :: id in g.accepted ==> id in g.store.submissions)
  }

  /** Before the pool closes, the commit of a create handler always succeeds. */
  lemma CommitSucceedsWhileOpen(g: State, n: nat)
    requires PoolInv(g) && !g.pool.closed && n < |g.agents| && NeedsOpen(g.agents[n]) && !g.agents[n].CreateReserved?
    ensures g.agents[n].token < |g.pool.tokens| && P.DoCommit(g.pool, g.agents[n].token, g.agents[n].id).1 == P.Ok
  {
    hide P.CountOpen, P.Accounted, Aligned;
    assert TokenOk(g.pool, g.agents[n]);
    P.OpenTokenCommits(g.pool, g.agents[n].token, g.agents[n].id);
  }

  lemma StepKeepsAccepted(g: State, owner: Owner, e: Event)
    requires GatewayOwners.Inv(g, owner) && KeyInv(g) && AcceptedInv(g) && Enabled(g, e)
    ensures AcceptedInv(Apply(g, e))
  {
    hide KeyInv, PoolInv, Owned, UsedInv, Apply, Enabled;
    if IsRunEvent(e) {
      RunStepShape(g, e);
      RunKeepsIds(g, e);
    } else if e.CreateCommit? || e.CreatePut? {
      CreateKeepsAccepted(g, owner, e);
    } else {
      OtherKeepsAccepted(g, e);
    }
  }

  lemma CreateKeepsAccepted(g: State, owner: Owner, e: Event)
    requires GatewayOwners.Inv(g, owner) && KeyInv(g) && AcceptedInv(g) && Enabled(g, e) && (e.CreateCommit? || e.CreatePut?)
    ensures AcceptedInv(Apply(g, e))
  {
    hide ApplyRun, RunEnabled, KeyInv, PoolInv, Owned, UsedInv;
    if e.CreateCommit? {
      HeldIsStored(g, owner, e.n);
      if !g.pool.closed { CommitSucceedsWhileOpen(g, e.n); }
    } else {
      ReplayedIsStored(g, owner, e);
    }
  }

  lemma OtherKeepsAccepted(g: State, e: Event)
    requires AcceptedInv(g) && Enabled(g, e) && !IsRunEvent(e) && !e.CreateCommit? && !e.CreatePut?
    ensures AcceptedInv(Apply(g, e))
  {
    hide ApplyRun, RunEnabled, ConsumerExt;
  }

  lemma ReplayedIsStored(g: State, owner: Owner, e: Event)
    requires GatewayOwners.Inv(g, owner) && KeyInv(g) && Enabled(g, e) && e.CreatePut?
    ensures g.store.submissions.Keys <= Apply(g, e).store.submissions.Keys
    ensures forall id :: id in Apply(g, e).accepted ==> id in g.accepted || id in g.store.submissions
  {
    hide ApplyRun, RunEnabled, Bound, Legal, PoolInv, Owned, KeyInv, UsedInv;
    FreshUnknown(g, owner, e.id);
  }
}
