/** The in-memory store (internal/scintx/memory_store.go): its atomic operations as functions on a
    store value, and the class that performs them in place under its lock. */
module MemoryStore {
  import opened Seqs
  import Policy

  datatype Status = Accepted | Running | Completed | Failed | Deferred

  datatype Completion = FindingsOnly | DecisionProduced | AllIneligible | RunFailed | Interrupted | Postponed

  /** `hasPolicy` and `eligible` (some provider matches the request) are fixed at creation. */
  datatype Submission = Submission(
    id: string, hasPolicy: bool, eligible: bool, status: Status, completion: Option<Completion>,
    resultIds: seq<string>, decisionId: Option<string>)

  /** A consumer decision names its predecessor under "prior_decision_id" in `ext`. */
  datatype StoredDecision = StoredDecision(
    id: string, submissionId: string, value: Policy.Decision, ext: map<string, string>)

  /** `results` maps a result id to its submission. */
  datatype Store = Store(
    submissions: map<string, Submission>, idempotency: map<string, string>, idemHash: map<string, string>,
    results: map<string, string>, decisions: map<string, StoredDecision>)

  const EMPTY := Store(map[], map[], map[], map[], map[])

  datatype Answer = Created(sub: Submission) | Replayed(sub: Submission) | Conflict

  function HashOf(st: Store, key: string): (h: string) {
    if key in st.idemHash then st.idemHash[key] else ""
  }

  /** Fingerprints clash only when both are present and different. */
  predicate Clash(a: string, b: string) {
    a != "" && b != "" && a != b
  }

  function DoPut(st: Store, sub: Submission): (r: Store) {
    st.(submissions := st.submissions[sub.id := sub])
  }

  function DoPutIdempotent(st: Store, key: string, hash: string, sub: Submission): (r: (Store, Answer)) {
    if key == "" then (DoPut(st, sub), Created(sub))
    else if key in st.idempotency && st.idempotency[key] in st.submissions then
      if Clash(HashOf(st, key), hash) then (st, Conflict)
      else (st, Replayed(st.submissions[st.idempotency[key]]))
    else
      (DoPut(st, sub).(idempotency := st.idempotency[key := sub.id], idemHash := st.idemHash[key := hash]), Created(sub))
  }

  /** Only a submission that never started is dropped; its key goes with it. */
  function DoAbandon(st: Store, id: string, key: string): (r: (Store, bool)) {
    if id !in st.submissions || st.submissions[id].status != Accepted then (st, false)
    else
      var dropped := st.(submissions := st.submissions - {id});
      if key != "" && key in st.idempotency && st.idempotency[key] == id
      then (dropped.(idempotency := st.idempotency - {key}, idemHash := st.idemHash - {key}), true)
      else (dropped, true)
  }

  function DoClaimResume(st: Store, id: string): (r: (Store, bool)) {
    if id !in st.submissions || st.submissions[id].status != Deferred then (st, false)
    else (st.(submissions := st.submissions[id := st.submissions[id].(status := Running)]), true)
  }

  function DoReleaseResume(st: Store, id: string): (r: Store) {
    if id !in st.submissions || st.submissions[id].status != Running then st
    else st.(submissions := st.submissions[id := st.submissions[id].(status := Deferred, completion := Some(Postponed))])
  }

  function DoPutResult(st: Store, resultId: string, submissionId: string): (r: Store) {
    st.(results := st.results[resultId := submissionId])
  }

  function DoPutDecision(st: Store, d: StoredDecision): (r: Store) {
    st.(decisions := st.decisions[d.id := d])
  }

  // ---- laws ----

  /** No key points to a missing submission. */
  ghost predicate NoDangling(st: Store) {
    forall k :: k in st.idempotency ==> st.idempotency[k] in st.submissions
  }

  ghost predicate IdsMatch(st: Store) {
    forall id :: id in st.submissions ==> st.submissions[id].id == id
  }

  /** A bound key decides the answer and the store stays as it is; an unbound key creates. */
  lemma PutIdempotentLaw(st: Store, key: string, hash: string, sub: Submission)
    requires NoDangling(st) && IdsMatch(st) && key != ""
    ensures var (st', answer) := DoPutIdempotent(st, key, hash, sub);
            && (key in st.idempotency ==> st' == st && !answer.Created?)
            && (key in st.idempotency ==> (answer.Conflict? <==> Clash(HashOf(st, key), hash)))
            && (key in st.idempotency && answer.Replayed? ==> answer.sub.id == st.idempotency[key])
            && (key !in st.idempotency ==> answer == Created(sub))
            && key in st'.idempotency && st'.idempotency[key] in st'.submissions
  {
  }

  /** Abandoning right after a create leaves no trace of it. */
  lemma AbandonUndoesCreate(st: Store, key: string, hash: string, sub: Submission)
    requires NoDangling(st) && sub.id !in st.submissions && sub.status == Accepted
    requires key !in st.idempotency && key !in st.idemHash
    ensures var created := DoPutIdempotent(st, key, hash, sub);
            created.1.Created? && DoAbandon(created.0, sub.id, key) == (st, true)
  {
    assert st.submissions[sub.id := sub] - {sub.id} == st.submissions;
    assert st.idempotency[key := sub.id] - {key} == st.idempotency;
    assert st.idemHash[key := hash] - {key} == st.idemHash;
  }

  /** An abandon drops a submission exactly when it is stored and accepted, and with it the given key
      exactly when that is bound to it; every other submission and key stays. */
  lemma AbandonLaw(st: Store, id: string, key: string, o: string)
    ensures var (st', dropped) := DoAbandon(st, id, key);
            && (dropped <==> id in st.submissions && st.submissions[id].status == Accepted)
            && (o in st'.submissions <==> o in st.submissions && !(dropped && o == id))
            && (o in st'.submissions ==> st'.submissions[o] == st.submissions[o])
            && (o in st'.idempotency <==> o in st.idempotency && !(dropped && o == key != "" && st.idempotency[o] == id))
            && (o in st'.idempotency ==> st'.idempotency[o] == st.idempotency[o])
            && st'.results == st.results && st'.decisions == st.decisions
  {
  }

  /** A resume claim that is released restores the status. */
  lemma ReleaseUndoesClaim(st: Store, id: string)
    requires IdsMatch(st)
    ensures var claimed := DoClaimResume(st, id);
            claimed.1 ==>
              var back := DoReleaseResume(claimed.0, id);
              back == st.(submissions := st.submissions[id := st.submissions[id].(completion := Some(Postponed))])
  {
  }

  // ---- the object ----

  class Memory {
    var submissions: map<string, Submission>
    var idempotency: map<string, string>
    var idemHash: map<string, string>
    var results: map<string, string>
    var decisions: map<string, StoredDecision>

    ghost function Value(): (st: Store)
      reads this
    {
      Store(submissions, idempotency, idemHash, results, decisions)
    }

    constructor ()
      ensures Value() == EMPTY
    {
      submissions, idempotency, idemHash, results, decisions := map[], map[], map[], map[], map[];
    }

    method PutSubmission(sub: Submission)
      modifies this
      ensures Value() == DoPut(old(Value()), sub)
    {
      submissions := submissions[sub.id := sub];
    }

    method GetSubmission(id: string) returns (sub: Option<Submission>)
      ensures sub.Some? <==> id in submissions
      ensures sub.Some? ==> sub.value == submissions[id]
    {
      if id !in submissions {
        return None;
      }
      return Some(submissions[id]);
    }

    method PutSubmissionIdempotent(key: string, hash: string, sub: Submission) returns (answer: Answer)
      modifies this
      ensures (Value(), answer) == DoPutIdempotent(old(Value()), key, hash, sub)
    {
      if key != "" {
        if key in idempotency {
          var id := idempotency[key];
          if id !in submissions {
            idempotency := idempotency - {key};
            idemHash := idemHash - {key};
          } else {
            if key in idemHash && idemHash[key] != "" && hash != "" && idemHash[key] != hash {
              return Conflict;
            }
            return Replayed(submissions[id]);
          }
        }
        idempotency := idempotency[key := sub.id];
        idemHash := idemHash[key := hash];
        assert idempotency == old(idempotency)[key := sub.id];
        assert idemHash == old(idemHash)[key := hash];
      }
      submissions := submissions[sub.id := sub];
      return Created(sub);
    }

    method AbandonSubmission(id: string, key: string) returns (dropped: bool)
      modifies this
      ensures (Value(), dropped) == DoAbandon(old(Value()), id, key)
    {
      if id !in submissions {
        return false;
      }
      if submissions[id].status != Accepted {
        return false;
      }
      submissions := submissions - {id};
      if key != "" && key in idempotency && idempotency[key] == id {
        idempotency := idempotency - {key};
        idemHash := idemHash - {key};
      }
      return true;
    }

    method ClaimResume(id: string) returns (claimed: bool)
      modifies this
      ensures (Value(), claimed) == DoClaimResume(old(Value()), id)
    {
      if id !in submissions || submissions[id].status != Deferred {
        return false;
      }
      submissions := submissions[id := submissions[id].(status := Running)];
      return true;
    }

    method ReleaseResume(id: string)
      modifies this
      ensures Value() == DoReleaseResume(old(Value()), id)
    {
      if id !in submissions || submissions[id].status != Running {
        return;
      }
      submissions := submissions[id := submissions[id].(status := Deferred, completion := Some(Postponed))];
    }

    method PutResult(resultId: string, submissionId: string)
      modifies this
      ensures Value() == DoPutResult(old(Value()), resultId, submissionId)
    {
      results := results[resultId := submissionId];
    }

    method PutDecision(d: StoredDecision)
      modifies this
      ensures Value() == DoPutDecision(old(Value()), d)
    {
      decisions := decisions[d.id := d];
    }

    /** The results of a submission, each once, in whatever order the map yields them. */
    method GetResultsForSubmission(submissionId: string) returns (out: seq<string>)
      ensures forall r :: r in out <==> r in results && results[r] == submissionId
      ensures Distinct(out)
    {
      out := [];
      var left := results.Keys;
      while left != {}
        invariant left <= results.Keys
        invariant forall r :: r in out <==> r in results && r !in left && results[r] == submissionId
        invariant Distinct(out)
        decreases |left|
      {
        var r :| r in left;
        left := left - {r};
        if results[r] == submissionId {
          out := out + [r];
        }
      }
    }
  }
}
