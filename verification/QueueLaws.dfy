/** The job table and the claim loop, said on rows: which job a claim takes, what it and the other calls
    leave, and what a worker achieves that runs undisturbed. */
module QueueLaws {
  import opened Seqs
  import opened JobQueue
  import opened LeaseProtocol
  import MemoryStore

  // ---- the table ----

  /** Free to be claimed at `at`: pending, or leased with a deadline that has passed. */
  predicate Claimable(jobs: Jobs, at: int, id: string) {
    id in jobs && (jobs[id].status == Pending || (jobs[id].status == Leased && jobs[id].until != ZERO_TIME && jobs[id].until < at))
  }

  /** No claimable job is older. */
  ghost predicate FirstInLine(jobs: Jobs, at: int, id: string) {
    Claimable(jobs, at, id) && forall o :: Claimable(jobs, at, o) ==> jobs[id].createdAt <= jobs[o].createdAt
  }

  /** A claim takes the job that is first in line, and none only when none is claimable. */
  lemma ClaimTakes(jobs: Jobs, at: int)
    ensures forall id :: Oldest(Sweep(jobs, at), id) <==> FirstInLine(jobs, at, id)
    ensures NonePending(Sweep(jobs, at)) <==> forall id :: !Claimable(jobs, at, id)
  {
    var swept := Sweep(jobs, at);
    assert forall id :: id in swept && swept[id].status == Pending <==> Claimable(jobs, at, id);
    assert forall id :: id in jobs ==> swept[id].createdAt == jobs[id].createdAt;
  }

  /** The claimed row has the new owner and deadline and one more attempt; every other expired lease is
      pending again with its attempts; every other row is as it was. */
  lemma ClaimLeaves(jobs: Jobs, at: int, id: string, owner: string, until: int, o: string)
    requires id in jobs && o in jobs
    ensures var r := DoClaim(Sweep(jobs, at), id, owner, until);
            && r.Keys == jobs.Keys
            && (o == id ==> r[o] == Job(Leased, jobs[o].createdAt, owner, until, jobs[o].attempts + 1))
            && (o != id && jobs[o].status == Leased && jobs[o].until != ZERO_TIME && jobs[o].until < at ==>
                  r[o] == Job(Pending, jobs[o].createdAt, "", ZERO_TIME, jobs[o].attempts))
            && (o != id && !(jobs[o].status == Leased && jobs[o].until != ZERO_TIME && jobs[o].until < at) ==> r[o] == jobs[o])
  {
  }

  /** A job is completed unless somebody else leases it; then nothing changes and the call fails. */
  lemma CompleteLeaves(jobs: Jobs, id: string, owner: string, o: string)
    ensures var (r, ok) := DoComplete(jobs, id, owner);
            && (!ok <==> id in jobs && jobs[id].status == Leased && owner != "" && jobs[id].owner != owner)
            && (o in r <==> o in jobs && (o != id || !ok))
            && (o in r ==> r[o] == jobs[o])
  {
  }

  /** A heartbeat moves the deadline of the owner's lease and nothing else. */
  lemma HeartbeatLeaves(jobs: Jobs, id: string, owner: string, until: int, o: string)
    requires o in jobs
    ensures var (r, ok) := DoHeartbeat(jobs, id, owner, until);
            && (ok <==> id in jobs && jobs[id].status == Leased && jobs[id].owner == owner)
            && r.Keys == jobs.Keys
            && (r[o] != jobs[o] ==> ok && o == id)
            && (ok && o == id ==> r[o] == Job(Leased, jobs[o].createdAt, owner, until, jobs[o].attempts))
  {
  }

  /** A new job is pending with no attempts, dated now; a job that is there stays as it is. */
  lemma EnqueueLeaves(jobs: Jobs, id: string, now: int, o: string)
    ensures var (r, ok) := DoEnqueue(jobs, id, now);
            && (ok <==> id != "")
            && (o in r <==> o in jobs || (o == id && ok))
            && (o in jobs ==> r[o] == jobs[o])
            && (o !in jobs && o in r ==> r[o] == Job(Pending, now, "", ZERO_TIME, 0))
  {
  }

  // ---- one claim ----

  lemma RunSnoc(s: State, events: seq<Event>, e: Event)
    requires After(s, events).Some? && Enabled(After(s, events).value, e)
    ensures After(s, events + [e]) == Some(Apply(After(s, events).value, e))
  {
    hide Apply, Enabled;
    assert (events + [e])[..|events|] == events;
  }

  lemma RunOne(s: State, e: Event)
    requires Enabled(s, e)
    ensures After(s, [e]) == Some(Apply(s, e))
  {
    hide Apply, Enabled;
    assert After(s, []) == Some(s);
    RunSnoc(s, [], e);
    assert [] + [e] == [e];
  }

  lemma RunTwo(s: State, a: Event, b: Event)
    requires Enabled(s, a) && Enabled(Apply(s, a), b)
    ensures After(s, [a, b]) == Some(Apply(Apply(s, a), b))
  {
    hide After, Apply, Enabled;
    RunOne(s, a);
    RunSnoc(s, [a], b);
    assert [a] + [b] == [a, b];
  }

  lemma ClaimStep(s: State, w: string, at: int, lease: int, id: string)
    requires w != "" && StageOf(s, w).Idle? && at <= s.now && FirstInLine(s.jobs, at, id)
    ensures Enabled(s, Claim(w, at, lease, Some(id)))
    ensures var r, until := Apply(s, Claim(w, at, lease, Some(id))), at + if lease <= 0 then 120_000_000_000 else lease;
            && r == s.(jobs := r.jobs, workers := r.workers, belief := s.belief[(w, id) := until])
            && id in r.jobs && r.jobs[id] == Job(Leased, s.jobs[id].createdAt, w, until, s.jobs[id].attempts + 1)
            && StageOf(r, w).Holding? && StageOf(r, w).id == id && StageOf(r, w).attempt == s.jobs[id].attempts + 1
  {
    ClaimTakes(s.jobs, at);
  }

  lemma FetchStep(s: State, w: string)
    requires StageOf(s, w).Holding?
    ensures Enabled(s, Fetch(w))
    ensures var r, h := Apply(s, Fetch(w)), StageOf(s, w);
            && r == s.(workers := r.workers, starts := r.starts)
            && StageOf(r, w) == (if !Unfinished(s, h.id) then Completing(h.id)
                                 else if h.attempt <= s.maxAttempts then Running(h.id, h.attempt, h.gen)
                                 else Failing(h.id, h.attempt, h.gen))
            && r.starts == s.starts + if StageOf(r, w).Running? then [Start(h.gen, h.attempt)] else []
  {
    hide Unfinished;
  }

  /** A claim and its fetch start the process function exactly when the submission is stored, neither
      completed nor failed, and the job was claimed fewer than `maxAttempts` times before. */
  lemma ClaimStarts(s: State, w: string, at: int, lease: int, id: string)
    requires w != "" && StageOf(s, w).Idle? && at <= s.now && FirstInLine(s.jobs, at, id)
    ensures var done := After(s, [Claim(w, at, lease, Some(id)), Fetch(w)]);
            && done.Some? && done.value.subs == s.subs
            && (StageOf(done.value, w).Running? <==> Unfinished(s, id) && s.jobs[id].attempts < s.maxAttempts)
            && (StageOf(done.value, w).Failing? <==> Unfinished(s, id) && s.jobs[id].attempts >= s.maxAttempts)
            && (StageOf(done.value, w) == Completing(id) <==> !Unfinished(s, id))
            && (StageOf(done.value, w).Running? || StageOf(done.value, w).Failing? ==> StageOf(done.value, w).id == id)
            && |done.value.starts| == |s.starts| + (if StageOf(done.value, w).Running? then 1 else 0)
            && OwnsLease(done.value.jobs, id, w)
  {
    hide After, Apply, Enabled, FirstInLine;
    ClaimStep(s, w, at, lease, id);
    var s1 := Apply(s, Claim(w, at, lease, Some(id)));
    FetchStep(s1, w);
    RunTwo(s, Claim(w, at, lease, Some(id)), Fetch(w));
  }

  lemma EndStep(s: State, w: string)
    requires StageOf(s, w).Running? || StageOf(s, w).Failing?
    ensures var e := if StageOf(s, w).Running? then ProcessEnds(w) else MarkFailed(w);
            && Enabled(s, e) && Apply(s, e).jobs == s.jobs && StageOf(Apply(s, e), w) == Completing(StageOf(s, w).id)
            && Apply(s, e).subs == if StageOf(s, w).Running? then s.subs else s.subs[StageOf(s, w).id := MemoryStore.Failed]
  {
  }

  lemma CompleteStep(s: State, w: string, id: string)
    requires w != "" && StageOf(s, w) == Completing(id)
    ensures Enabled(s, Complete(w))
    ensures var r := Apply(s, Complete(w));
            && StageOf(r, w) == Idle && r.subs == s.subs
            && r.jobs == (if id in s.jobs && s.jobs[id].status == Leased && s.jobs[id].owner != w then s.jobs else s.jobs - {id})
  {
  }

  /** A worker that has claimed a job and is not overtaken removes it: after its run, or after it has marked
      the submission failed when the attempts are used up. */
  lemma ClaimRemoves(s: State, w: string, at: int, lease: int, id: string)
    requires w != "" && StageOf(s, w).Idle? && at <= s.now && FirstInLine(s.jobs, at, id) && Unfinished(s, id)
    ensures var last := if s.jobs[id].attempts < s.maxAttempts then ProcessEnds(w) else MarkFailed(w);
            var done := After(s, [Claim(w, at, lease, Some(id)), Fetch(w)] + [last] + [Complete(w)]);
            && done.Some? && id !in done.value.jobs && StageOf(done.value, w) == Idle
            && done.value.subs == if s.jobs[id].attempts < s.maxAttempts then s.subs else s.subs[id := MemoryStore.Failed]
  {
    hide After, Apply, Enabled;
    ClaimStarts(s, w, at, lease, id);
    var first := [Claim(w, at, lease, Some(id)), Fetch(w)];
    var s2 := After(s, first).value;
    EndStep(s2, w);
    var last := if s.jobs[id].attempts < s.maxAttempts then ProcessEnds(w) else MarkFailed(w);
    RunSnoc(s, first, last);
    var s3 := Apply(s2, last);
    CompleteStep(s3, w, id);
    RunSnoc(s, first + [last], Complete(w));
  }

  // ---- no job is stuck ----

  lemma {:induction false} Latest(jobs: Jobs, ids: set<string>) returns (to: int)
    requires ids <= jobs.Keys
    ensures forall id :: id in ids ==> jobs[id].until < to
  {
    to := 0;
    if ids != {} {
      var id :| id in ids;
      to := Latest(jobs, ids - {id});
      if to <= jobs[id].until { to := jobs[id].until + 1; }
    }
  }

  lemma {:induction false} First(jobs: Jobs, ids: set<string>) returns (first: string)
    requires ids <= jobs.Keys && ids != {}
    ensures first in ids && forall id :: id in ids ==> jobs[first].createdAt <= jobs[id].createdAt
    decreases ids
  {
    first :| first in ids;
    if ids != {first} {
      var rest := First(jobs, ids - {first});
      if jobs[rest].createdAt < jobs[first].createdAt { first := rest; }
    }
  }

  /** Every deadline is a real instant. */
  ghost predicate Dated(jobs: Jobs) {
    forall id :: id in jobs && jobs[id].status == Leased ==> jobs[id].until != ZERO_TIME
  }

  /** Whatever has crashed: while there are jobs, time alone lets any idle worker claim one. */
  lemma NeverStuck(s: State, w: string, lease: int) returns (to: int, id: string)
    requires w != "" && StageOf(s, w).Idle? && s.jobs != map[] && Dated(s.jobs)
    ensures id in s.jobs && After(s, [Tick(to), Claim(w, to, lease, Some(id))]).Some?
    ensures OwnsLease(After(s, [Tick(to), Claim(w, to, lease, Some(id))]).value.jobs, id, w)
  {
    hide After, Apply, Enabled, StepClaim;
    to := Latest(s.jobs, s.jobs.Keys);
    if to < s.now { to := s.now; }
    assert s.jobs.Keys != {};
    id := First(s.jobs, s.jobs.Keys);
    TickStep(s, to);
    var s1 := Apply(s, Tick(to));
    ClaimStep(s1, w, to, lease, id);
    RunTwo(s, Tick(to), Claim(w, to, lease, Some(id)));
  }

  lemma TickStep(s: State, to: int)
    requires s.now <= to
    ensures Enabled(s, Tick(to)) && Apply(s, Tick(to)) == s.(now := to)
  {
  }
}
