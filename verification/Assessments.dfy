/** Assessment reconciliation (internal/scintx/aggregator.go: reconcileAssessment) against a
    lattice join. */
module Assessments {
  import opened Seqs
  import opened Findings

  /** Rank in the reconciliation lattice; `fixed`, `unknown` and foreign statuses count as
      under investigation. */
  function Level(s: AssessmentStatus): (l: nat)
    ensures 1 <= l <= 3
  {
    if s == NotAffected then 1 else if s == Affected then 3 else 2
  }

  /** Zero for a source without an assessment. */
  function SourceLevel(p: Source): (l: nat)
    ensures l <= 3
  {
    if p.finding.assessment.None? then 0 else Level(p.finding.assessment.value.status)
  }

  function Max(a: nat, b: nat): (m: nat) {
    if a > b then a else b
  }

  function JoinLevel(pairs: seq<Source>): (l: nat)
    ensures l <= 3
  {
    if pairs == [] then 0 else Max(JoinLevel(pairs[..|pairs| - 1]), SourceLevel(pairs[|pairs| - 1]))
  }

  function StatusAt(level: nat): (s: AssessmentStatus) {
    if level == 1 then NotAffected else if level == 3 then Affected else UnderInvestigation
  }

  predicate Alarming(p: Source) {
    && p.finding.assessment.Some?
    && (p.finding.assessment.value.status == Affected || p.finding.assessment.value.status == UnderInvestigation)
  }

  predicate Cleared(p: Source) {
    SourceLevel(p) == 1
  }

  /** Justification and detail of the first source that satisfies `test`. */
  function FirstWording(test: Source -> bool, pairs: seq<Source>): (r: (string, string)) {
    if pairs == [] then ("", "")
    else if test(pairs[0]) && pairs[0].finding.assessment.Some? then
      (pairs[0].finding.assessment.value.justification, pairs[0].finding.assessment.value.detail)
    else FirstWording(test, pairs[1..])
  }

  function Reconciled(pairs: seq<Source>): (r: Option<Assessment>) {
    var level := JoinLevel(pairs);
    if level == 0 then None
    else
      var w := if level == 1 then FirstWording(Cleared, pairs) else FirstWording(Alarming, pairs);
      Some(Assessment(StatusAt(level), w.0, w.1))
  }

  function ClearedId(p: Source): (r: seq<string>) {
    if Cleared(p) then [p.result.id] else []
  }

  /** The results whose `not_affected` lost against an `affected`. */
  function Conflicts(pairs: seq<Source>): (r: seq<string>) {
    if JoinLevel(pairs) == 3 then FlatMap(ClearedId, pairs) else []
  }

  // ---- the join ----

  /** The join is an upper bound that some source attains. */
  lemma {:induction false} JoinIsMax(pairs: seq<Source>)
    ensures forall p :: p in pairs ==> SourceLevel(p) <= JoinLevel(pairs)
    ensures JoinLevel(pairs) > 0 ==> exists p :: p in pairs && SourceLevel(p) == JoinLevel(pairs)
    decreases |pairs|
  {
    if pairs != [] {
      var m := |pairs| - 1;
      JoinIsMax(pairs[..m]);
      assert pairs == pairs[..m] + [pairs[m]];
      if JoinLevel(pairs) > 0 && SourceLevel(pairs[m]) != JoinLevel(pairs) {
        var p :| p in pairs[..m] && SourceLevel(p) == JoinLevel(pairs[..m]);
        assert p in pairs;
      }
    }
  }

  lemma JoinLe(a: seq<Source>, b: seq<Source>)
    requires forall p :: p in a ==> p in b
    ensures JoinLevel(a) <= JoinLevel(b)
  {
    hide SourceLevel, JoinLevel;
    JoinIsMax(a);
    JoinIsMax(b);
    if JoinLevel(a) > 0 {
      var p :| p in a && SourceLevel(p) == JoinLevel(a);
      assert p in b;
    }
  }

  /** Reconciling a concatenation joins the reconciled statuses. */
  lemma {:induction false} JoinConcat(a: seq<Source>, b: seq<Source>)
    ensures JoinLevel(a + b) == Max(JoinLevel(a), JoinLevel(b))
    decreases |b|
  {
    if b == [] {
      assert a + b == a;
    } else {
      var m := |b| - 1;
      assert (a + b)[..|a + b| - 1] == a + b[..m];
      JoinConcat(a, b[..m]);
    }
  }

  function StatusLevel(a: Option<Assessment>): (l: nat) {
    if a.None? then 0 else Level(a.value.status)
  }

  /** The reconciled status carries the joined level, so reconciliation of a concatenation is the
      lattice join of the parts' outcomes. */
  lemma ReconciliationIsJoin(a: seq<Source>, b: seq<Source>)
    ensures StatusLevel(Reconciled(a + b)) == Max(StatusLevel(Reconciled(a)), StatusLevel(Reconciled(b)))
    ensures Reconciled(a).None? <==> forall p :: p in a ==> p.finding.assessment.None?
  {
    JoinConcat(a, b);
    JoinIsMax(a);
  }

  ghost predicate SaysAffected(pairs: seq<Source>) {
    exists p :: p in pairs && SourceLevel(p) == 3
  }

  /** Conflicts name exactly the `not_affected` results of a group in which some source says
      `affected`. */
  lemma ConflictsExactly(pairs: seq<Source>)
    ensures forall id :: id in Conflicts(pairs) <==>
              SaysAffected(pairs) && exists p :: p in pairs && Cleared(p) && p.result.id == id
  {
    hide SourceLevel, JoinLevel;
    JoinIsMax(pairs);
    forall id ensures id in FlatMap(ClearedId, pairs) <==>
                        exists p :: p in pairs && Cleared(p) && p.result.id == id {
      FlatMapIn(ClearedId, pairs, id);
    }
  }

  ghost predicate SaysCleared(pairs: seq<Source>) {
    exists p :: p in pairs && Cleared(p)
  }

  lemma ConflictIff(pairs: seq<Source>)
    ensures Conflicts(pairs) != [] <==> SaysAffected(pairs) && SaysCleared(pairs)
  {
    hide Cleared, SaysAffected, Conflicts;
    ConflictsExactly(pairs);
    if Conflicts(pairs) != [] { assert Conflicts(pairs)[0] in Conflicts(pairs); }
    if SaysAffected(pairs) && SaysCleared(pairs) {
      var p :| p in pairs && Cleared(p);
      assert p.result.id in Conflicts(pairs);
    }
  }

  lemma SaysMonotone(a: seq<Source>, b: seq<Source>)
    requires forall p :: p in a ==> p in b
    ensures SaysAffected(a) ==> SaysAffected(b)
    ensures SaysCleared(a) ==> SaysCleared(b)
  {
    hide SourceLevel, Cleared;
    if SaysAffected(a) {
      var p :| p in a && SourceLevel(p) == 3;
      assert p in b;
    }
    if SaysCleared(a) {
      var p :| p in a && Cleared(p);
      assert p in b;
    }
  }

  /** Neither order nor repetition of sources matters for the reconciled status. */
  lemma ReconciliationIgnoresOrder(a: seq<Source>, b: seq<Source>)
    requires forall p :: p in a <==> p in b
    ensures JoinLevel(a) == JoinLevel(b)
    ensures StatusLevel(Reconciled(a)) == StatusLevel(Reconciled(b))
    ensures Conflicts(a) == [] <==> Conflicts(b) == []
  {
    hide SourceLevel, JoinLevel, Conflicts, FirstWording, SaysAffected, SaysCleared;
    JoinLe(a, b);
    JoinLe(b, a);
    ConflictIff(a);
    ConflictIff(b);
    SaysMonotone(a, b);
    SaysMonotone(b, a);
  }

  // ---- what is reconciled ----

  predicate Says(p: Source, statuses: set<AssessmentStatus>) {
    p.finding.assessment.Some? && p.finding.assessment.value.status in statuses
  }

  ghost predicate FirstSaying(pairs: seq<Source>, statuses: set<AssessmentStatus>, i: int) {
    0 <= i < |pairs| && Says(pairs[i], statuses) && forall j :: 0 <= j < i ==> !Says(pairs[j], statuses)
  }

  /** The assessment has the words of the first source with one of the statuses, or none. */
  ghost predicate InWordsOf(pairs: seq<Source>, statuses: set<AssessmentStatus>, a: Assessment) {
    if exists i :: FirstSaying(pairs, statuses, i)
    then exists i :: FirstSaying(pairs, statuses, i) && a.justification == pairs[i].finding.assessment.value.justification
                     && a.detail == pairs[i].finding.assessment.value.detail
    else a.justification == "" && a.detail == ""
  }

  /** Nothing is reconciled without assessments. Otherwise the status is affected when some source says so,
      not affected when every assessment says so, and else under investigation. The words are those of the
      first source that says not affected, in that case, and else of the first that says affected or under
      investigation. */
  lemma ReconciledIff(pairs: seq<Source>)
    ensures var r := Reconciled(pairs);
            && (r.None? <==> forall p :: p in pairs ==> p.finding.assessment.None?)
            && (r.Some? && (exists p :: p in pairs && Says(p, {Affected})) ==>
                  r.value.status == Affected && InWordsOf(pairs, {Affected, UnderInvestigation}, r.value))
            && (r.Some? && (forall p :: p in pairs && p.finding.assessment.Some? ==> Says(p, {NotAffected})) ==>
                  r.value.status == NotAffected && InWordsOf(pairs, {NotAffected}, r.value))
            && (r.Some? && !(exists p :: p in pairs && Says(p, {Affected}))
                && !(forall p :: p in pairs && p.finding.assessment.Some? ==> Says(p, {NotAffected})) ==>
                  r.value.status == UnderInvestigation && InWordsOf(pairs, {Affected, UnderInvestigation}, r.value))
  {
    hide JoinLevel, FirstWording, InWordsOf;
    JoinIsMax(pairs);
    Wording(Cleared, pairs, {NotAffected}, StatusAt(JoinLevel(pairs)));
    Wording(Alarming, pairs, {Affected, UnderInvestigation}, StatusAt(JoinLevel(pairs)));
    if JoinLevel(pairs) > 0 {
      var top :| top in pairs && SourceLevel(top) == JoinLevel(pairs);
      assert JoinLevel(pairs) == 3 ==> Says(top, {Affected});
    }
    forall p | p in pairs ensures SourceLevel(p) <= JoinLevel(pairs) { }
  }

  lemma {:induction false} Wording(test: Source -> bool, pairs: seq<Source>, statuses: set<AssessmentStatus>, status: AssessmentStatus)
    requires forall p :: test(p) <==> Says(p, statuses)
    ensures var w := FirstWording(test, pairs); InWordsOf(pairs, statuses, Assessment(status, w.0, w.1))
  {
    if pairs != [] {
      var rest := pairs[1..];
      if test(pairs[0]) {
        assert FirstSaying(pairs, statuses, 0);
      } else {
        Wording(test, rest, statuses, status);
        forall i | FirstSaying(rest, statuses, i) ensures FirstSaying(pairs, statuses, i + 1) { }
        forall i | FirstSaying(pairs, statuses, i) ensures FirstSaying(rest, statuses, i - 1) { }
      }
    }
  }

  // ---- the method ----

  method FindWording(test: Source -> bool, pairs: seq<Source>) returns (r: (string, string))
    ensures r == FirstWording(test, pairs)
  {
    for i := 0 to |pairs|
      invariant FirstWording(test, pairs) == FirstWording(test, pairs[i..])
    {
      if pairs[i].finding.assessment.Some? && test(pairs[i]) {
        return (pairs[i].finding.assessment.value.justification, pairs[i].finding.assessment.value.detail);
      }
    }
    return ("", "");
  }

  function ObsOf(p: Source): (r: seq<(string, AssessmentStatus)>) {
    if p.finding.assessment.None? then [] else [(p.result.id, p.finding.assessment.value.status)]
  }

  method ReconcileAssessment(pairs: seq<Source>) returns (assessment: Option<Assessment>, conflicts: seq<string>)
    ensures assessment == Reconciled(pairs)
    ensures conflicts == Conflicts(pairs)
  {
    hide JoinLevel, Level, FirstWording;
    var obs := CollectObservations(pairs);
    ObsLevels(pairs);
    if |obs| == 0 {
      return None, [];
    }
    var hasAffected, hasUnderInvestigation, allNotAffected := ScanStatuses(obs);
    var wording := FindWording(Alarming, pairs);
    var status: AssessmentStatus;
    conflicts := [];
    assert obs[0] in obs;
    LevelTable(obs[0].1);
    if hasAffected && allNotAffected {
      assert false;
    } else if hasAffected {
      status := Affected;
      conflicts := CollectConflicts(obs, pairs);
    } else if hasUnderInvestigation {
      status := UnderInvestigation;
    } else if allNotAffected {
      status := NotAffected;
      wording := FindWording(Cleared, pairs);
    } else {
      status := UnderInvestigation;
    }
    assessment := Some(Assessment(status, wording.0, wording.1));
  }

  lemma LevelTable(s: AssessmentStatus)
    ensures s == NotAffected <==> Level(s) == 1
    ensures s == Affected <==> Level(s) == 3
  {
  }

  method CollectObservations(pairs: seq<Source>) returns (obs: seq<(string, AssessmentStatus)>)
    ensures obs == FlatMap(ObsOf, pairs)
  {
    obs := [];
    for i := 0 to |pairs|
      invariant obs == FlatMap(ObsOf, pairs[..i])
    {
      assert pairs[..i + 1] == pairs[..i] + [pairs[i]];
      FlatMapSnoc(ObsOf, pairs[..i], pairs[i]);
      if pairs[i].finding.assessment.Some? {
        obs := obs + [(pairs[i].result.id, pairs[i].finding.assessment.value.status)];
      }
    }
    assert pairs[..|pairs|] == pairs;
  }

  method ScanStatuses(obs: seq<(string, AssessmentStatus)>)
    returns (hasAffected: bool, hasUnderInvestigation: bool, allNotAffected: bool)
    ensures hasAffected <==> exists o :: o in obs && o.1 == Affected
    ensures hasUnderInvestigation <==> exists o :: o in obs && o.1 == UnderInvestigation
    ensures allNotAffected <==> forall o :: o in obs ==> o.1 == NotAffected
  {
    hasAffected, hasUnderInvestigation, allNotAffected := false, false, true;
    for i := 0 to |obs|
      invariant hasAffected <==> exists o :: o in obs[..i] && o.1 == Affected
      invariant hasUnderInvestigation <==> exists o :: o in obs[..i] && o.1 == UnderInvestigation
      invariant allNotAffected <==> forall o :: o in obs[..i] ==> o.1 == NotAffected
    {
      assert obs[..i + 1] == obs[..i] + [obs[i]];
      assert obs[i] in obs[..i + 1];
      if obs[i].1 == Affected {
        hasAffected, allNotAffected := true, false;
      } else if obs[i].1 == UnderInvestigation {
        hasUnderInvestigation, allNotAffected := true, false;
      } else if obs[i].1 != NotAffected {
        allNotAffected := false;
      }
    }
    assert obs[..|obs|] == obs;
  }

  method CollectConflicts(obs: seq<(string, AssessmentStatus)>, ghost pairs: seq<Source>)
    returns (conflicts: seq<string>)
    requires obs == FlatMap(ObsOf, pairs)
    ensures conflicts == FlatMap(ClearedId, pairs)
  {
    conflicts := [];
    for i := 0 to |obs|
      invariant conflicts == FlatMap(ClearedObs, obs[..i])
    {
      assert obs[..i + 1] == obs[..i] + [obs[i]];
      FlatMapSnoc(ClearedObs, obs[..i], obs[i]);
      if obs[i].1 == NotAffected {
        conflicts := conflicts + [obs[i].0];
      }
    }
    assert obs[..|obs|] == obs;
    ClearedViaObs(pairs);
  }

  function ClearedObs(o: (string, AssessmentStatus)): (r: seq<string>) {
    if o.1 == NotAffected then [o.0] else []
  }

  lemma {:induction false} ClearedViaObs(pairs: seq<Source>)
    ensures FlatMap(ClearedObs, FlatMap(ObsOf, pairs)) == FlatMap(ClearedId, pairs)
    decreases |pairs|
  {
    if pairs != [] {
      var m := |pairs| - 1;
      ClearedViaObs(pairs[..m]);
      FlatMapConcat(ClearedObs, FlatMap(ObsOf, pairs[..m]), ObsOf(pairs[m]));
      assert FlatMap(ClearedObs, ObsOf(pairs[m])) == ClearedId(pairs[m]);
    }
  }

  /** The collected observations carry exactly the levels of the assessed sources. */
  lemma ObsLevels(pairs: seq<Source>)
    ensures JoinLevel(pairs) == 0 <==> FlatMap(ObsOf, pairs) == []
    ensures forall o :: o in FlatMap(ObsOf, pairs) ==> Level(o.1) <= JoinLevel(pairs)
    ensures JoinLevel(pairs) > 0 ==>
              exists o :: o in FlatMap(ObsOf, pairs) && Level(o.1) == JoinLevel(pairs)
    ensures forall o: (string, AssessmentStatus) :: Level(o.1) == 1 <==> o.1 == NotAffected
    ensures forall o: (string, AssessmentStatus) :: Level(o.1) == 3 <==> o.1 == Affected
  {
    var obs := FlatMap(ObsOf, pairs);
    JoinIsMax(pairs);
    forall o | o in obs ensures Level(o.1) <= JoinLevel(pairs) {
      FlatMapIn(ObsOf, pairs, o);
    }
    if JoinLevel(pairs) > 0 {
      var p :| p in pairs && SourceLevel(p) == JoinLevel(pairs);
      var o := (p.result.id, p.finding.assessment.value.status);
      FlatMapHas(ObsOf, pairs, p, o);
      assert o in obs && Level(o.1) == JoinLevel(pairs);
    }
    assert obs != [] ==> obs[0] in obs;
  }
}
