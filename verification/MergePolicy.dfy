/** What merging does to decisions: when the merged evaluation agrees with the raw one, and that it
    never weakens a decision. */
module MergePolicy {
  import opened Seqs
  import opened Strings
  import opened Findings
  import opened Correlation
  import opened Policy
  import Assessments
  import Severity
  import A = Aggregator

  ghost predicate SeverestFirst(rules: seq<Rule>) {
    forall i, j :: 0 <= i < j < |rules| ==> Rank(rules[i].decision) >= Rank(rules[j].decision)
  }

  function FindingsWalked(r: ProviderResult): (s: seq<Finding>) {
    if Walked(r) then r.findings else []
  }

  /** The findings the raw evaluation looks at. */
  function RawFindings(results: seq<ProviderResult>): (s: seq<Finding>) {
    FlatMap(FindingsWalked, results)
  }

  /** The findings the merged evaluation looks at. */
  function MergedFindings(merged: seq<MergedFinding>): (s: seq<Finding>) {
    Map(Synthetic, merged)
  }

  // ---- first match on a severest-first list ----

  lemma {:induction false} FirstMatchLaw(rules: seq<Rule>, f: Finding)
    ensures FirstMatch(rules, f).Some? ==>
              FirstMatch(rules, f).value in rules && Matches(FirstMatch(rules, f).value.criteria, f)
    ensures forall rule :: rule in rules && Matches(rule.criteria, f) ==>
              FirstMatch(rules, f).Some? &&
              (SeverestFirst(rules) ==> Rank(rule.decision) <= Rank(FirstMatch(rules, f).value.decision))
  {
    hide Matches;
    if rules != [] {
      var rest := rules[1..];
      FirstMatchLaw(rest, f);
      assert rules == [rules[0]] + rest;
      if SeverestFirst(rules) {
        assert SeverestFirst(rest);
        assert forall rule :: rule in rest ==> Rank(rule.decision) <= Rank(rules[0].decision);
      }
    }
  }

  /** Whatever rule a finding of `xs` matches, some finding of `ys` matches it too. */
  ghost predicate RulesCarryOver(rules: seq<Rule>, xs: seq<Finding>, ys: seq<Finding>) {
    forall rule, x :: rule in rules && x in xs && Matches(rule.criteria, x) ==> SomeMatch(rule.criteria, ys)
  }

  ghost predicate SomeMatch(c: Criteria, ys: seq<Finding>) {
    exists y :: y in ys && Matches(c, y)
  }

  /** A rule step for a finding of `xs` is covered by the rule step of a finding of `ys`. */
  lemma StepCarriesOver(rules: seq<Rule>, xs: seq<Finding>, ys: seq<Finding>, x: Finding) returns (y: Finding)
    requires SeverestFirst(rules) && RulesCarryOver(rules, xs, ys)
    requires x in xs && FirstMatch(rules, x).Some?
    ensures y in ys && FirstMatch(rules, y).Some?
    ensures Rank(FirstMatch(rules, x).value.decision) <= Rank(FirstMatch(rules, y).value.decision)
  {
    hide Matches, FirstMatch, SeverestFirst;
    FirstMatchLaw(rules, x);
    var rule := FirstMatch(rules, x).value;
    assert SomeMatch(rule.criteria, ys);
    y :| y in ys && Matches(rule.criteria, y);
    FirstMatchLaw(rules, y);
  }

  // ---- step bookkeeping ----

  lemma RawStepIn(spec: Spec, results: seq<ProviderResult>, s: Step)
    requires s in RawSteps(spec, results)
    ensures || s in FlatMap(OutcomeSteps(spec), results)
            || s in FlatMap(VerdictSteps(spec), results)
            || exists x :: x in RawFindings(results) && FirstMatch(spec.findings, x).Some?
                           && s.decision == FirstMatch(spec.findings, x).value.decision
  {
    hide FirstMatch, FlatMap, OutcomeSteps, VerdictSteps;
    FlatMapIn(RawStepsOf(spec), results, s);
    var r :| r in results && s in RawStepsOf(spec)(r);
    if s in OutcomeSteps(spec)(r) {
      FlatMapHas(OutcomeSteps(spec), results, r, s);
    } else if s in VerdictSteps(spec)(r) {
      FlatMapHas(VerdictSteps(spec), results, r, s);
    } else {
      FlatMapIn(RuleStepFor(spec, r.id), r.findings, s);
      var x :| x in r.findings && s in RuleStepFor(spec, r.id)(x);
      FlatMapHas(FindingsWalked, results, r, x);
      assert FirstMatch(spec.findings, x).Some? && s.decision == FirstMatch(spec.findings, x).value.decision;
    }
  }

  lemma RawStepFor(spec: Spec, results: seq<ProviderResult>, x: Finding) returns (s: Step)
    requires x in RawFindings(results) && FirstMatch(spec.findings, x).Some?
    ensures s in RawSteps(spec, results) && s.decision == FirstMatch(spec.findings, x).value.decision
  {
    hide FirstMatch, FlatMap, OutcomeSteps, VerdictSteps;
    FlatMapIn(FindingsWalked, results, x);
    var r :| r in results && x in FindingsWalked(r);
    s := RuleStep(spec.findings, r.id, x)[0];
    FlatMapHas(RuleStepFor(spec, r.id), r.findings, x, s);
    assert s in FindingSteps(spec)(r);
    FlatMapHas(RawStepsOf(spec), results, r, s);
  }

  lemma RawHasBaseline(spec: Spec, results: seq<ProviderResult>, s: Step)
    requires s in FlatMap(OutcomeSteps(spec), results) || s in FlatMap(VerdictSteps(spec), results)
    ensures s in RawSteps(spec, results)
  {
    hide FlatMap, OutcomeSteps, VerdictSteps, FindingSteps;
    FlatMapIn(OutcomeSteps(spec), results, s);
    FlatMapIn(VerdictSteps(spec), results, s);
    var r :| r in results && (s in OutcomeSteps(spec)(r) || s in VerdictSteps(spec)(r));
    FlatMapHas(RawStepsOf(spec), results, r, s);
  }

  lemma MergedStepIn(spec: Spec, results: seq<ProviderResult>, merged: seq<MergedFinding>, s: Step)
    requires s in MergedSteps(spec, results, merged)
    ensures || s in FlatMap(OutcomeSteps(spec), results)
            || s in FlatMap(VerdictSteps(spec), results)
            || (exists mf :: mf in merged && s in ConflictSteps(spec, mf))
            || exists y :: y in MergedFindings(merged) && FirstMatch(spec.findings, y).Some?
                           && s.decision == FirstMatch(spec.findings, y).value.decision
  {
    hide FirstMatch, FlatMap, OutcomeSteps, VerdictSteps, Synthetic, ConflictSteps;
    if s in FlatMap(MergedStepsOf(spec), merged) {
      FlatMapIn(MergedStepsOf(spec), merged, s);
      var mf :| mf in merged && s in MergedStepsOf(spec)(mf);
      SyntheticIn(merged, mf);
    }
  }

  lemma SyntheticIn(merged: seq<MergedFinding>, mf: MergedFinding)
    requires mf in merged
    ensures Synthetic(mf) in MergedFindings(merged)
  {
    var i :| 0 <= i < |merged| && merged[i] == mf;
    assert MergedFindings(merged)[i] == Synthetic(mf);
  }

  lemma MergedStepFor(spec: Spec, results: seq<ProviderResult>, merged: seq<MergedFinding>, y: Finding) returns (s: Step)
    requires y in MergedFindings(merged) && FirstMatch(spec.findings, y).Some?
    ensures s in MergedSteps(spec, results, merged) && s.decision == FirstMatch(spec.findings, y).value.decision
  {
    hide FirstMatch, FlatMap, OutcomeSteps, VerdictSteps, ConflictSteps;
    var i :| 0 <= i < |merged| && Synthetic(merged[i]) == y;
    s := RuleStep(spec.findings, PrimarySource(merged[i]).resultId, y)[0];
    FlatMapHas(MergedStepsOf(spec), merged, merged[i], s);
  }

  ghost predicate NoConflicts(merged: seq<MergedFinding>) {
    forall mf :: mf in merged ==> mf.conflicts == []
  }

  /** Raw steps are covered when every rule carries over to the merged findings. */
  lemma RawCovered(spec: Spec, results: seq<ProviderResult>, merged: seq<MergedFinding>)
    requires SeverestFirst(spec.findings)
    requires RulesCarryOver(spec.findings, RawFindings(results), MergedFindings(merged))
    ensures Covered(RawSteps(spec, results), MergedSteps(spec, results, merged))
  {
    hide FirstMatch, FlatMap, OutcomeSteps, VerdictSteps, SeverestFirst, RulesCarryOver, RawSteps, RawFindings, MergedFindings;
    forall s | s in RawSteps(spec, results)
      ensures exists t :: t in MergedSteps(spec, results, merged) && Rank(s.decision) <= Rank(t.decision)
    {
      RawStepIn(spec, results, s);
      if x :| x in RawFindings(results) && FirstMatch(spec.findings, x).Some?
              && s.decision == FirstMatch(spec.findings, x).value.decision {
        var y := StepCarriesOver(spec.findings, RawFindings(results), MergedFindings(merged), x);
        var t := MergedStepFor(spec, results, merged, y);
      } else {
        assert s in MergedSteps(spec, results, merged);
      }
    }
  }

  lemma MergedCovered(spec: Spec, results: seq<ProviderResult>, merged: seq<MergedFinding>)
    requires SeverestFirst(spec.findings) && NoConflicts(merged)
    requires RulesCarryOver(spec.findings, MergedFindings(merged), RawFindings(results))
    ensures Covered(MergedSteps(spec, results, merged), RawSteps(spec, results))
  {
    hide FirstMatch, FlatMap, OutcomeSteps, VerdictSteps, SeverestFirst, RulesCarryOver, RawSteps, RawFindings, MergedFindings, MergedSteps;
    forall s | s in MergedSteps(spec, results, merged)
      ensures exists t :: t in RawSteps(spec, results) && Rank(s.decision) <= Rank(t.decision)
    {
      MergedStepIn(spec, results, merged, s);
      if y :| y in MergedFindings(merged) && FirstMatch(spec.findings, y).Some?
              && s.decision == FirstMatch(spec.findings, y).value.decision {
        var x := StepCarriesOver(spec.findings, MergedFindings(merged), RawFindings(results), y);
        var t := RawStepFor(spec, results, x);
      } else {
        RawHasBaseline(spec, results, s);
      }
    }
  }

  // ---- what a finding can demand of a policy ----

  function StatusOf(a: Option<Assessment>): (s: Option<AssessmentStatus>) {
    if a.None? then None else Some(a.value.status)
  }

  /** `y` has the type and the assessment of `x` and an observation that stands in for `o`. */
  ghost predicate Answers(y: Finding, x: Finding, o: Option<Observation>) {
    && (x.typ == "" || y.typ == x.typ)
    && (x.assessment.None? || StatusOf(y.assessment) == StatusOf(x.assessment))
    && (o.None? || exists p :: p in y.severity && StandsIn(p, o.value))
  }

  predicate StandsIn(p: Observation, o: Observation) {
    SchemeOk(o.scheme, p.scheme) && p.score.Some? && o.score.Some? && p.score.value >= o.score.value
  }

  /** An observation a rule can ask for: scored and not negative. */
  predicate Usable(o: Observation) {
    o.score.Some? && o.score.value >= 0.0
  }

  ghost predicate Demand(x: Finding, o: Option<Observation>) {
    o.None? || (o.value in x.severity && Usable(o.value))
  }

  ghost predicate Answered(x: Finding, o: Option<Observation>, ys: seq<Finding>) {
    exists y :: y in ys && Answers(y, x, o)
  }

  /** Each finding of `xs`, and each usable observation of it, has its answer in `ys`. */
  ghost predicate AllAnswered(xs: seq<Finding>, ys: seq<Finding>) {
    forall x, o :: x in xs && Demand(x, o) ==> Answered(x, o, ys)
  }

  /** The criteria that ask for exactly this type, assessment and observation. */
  function DemandCriteria(x: Finding, o: Option<Observation>): (c: Criteria) {
    if o.None? then Criteria(StatusOf(x.assessment), "", None, x.typ)
    else Criteria(StatusOf(x.assessment), o.value.scheme, o.value.score, x.typ)
  }

  lemma AnswersIffMatches(y: Finding, x: Finding, o: Option<Observation>)
    requires o.Some? ==> Usable(o.value)
    ensures Answers(y, x, o) <==> Matches(DemandCriteria(x, o), y)
  {
    hide Matches, SchemeOk;
    var c := DemandCriteria(x, o);
    MatchesIff(c, y);
    if o.Some? {
      assert forall p :: Enough(c, p) <==> StandsIn(p, o.value);
    }
  }

  lemma SelfAnswers(x: Finding, o: Option<Observation>)
    requires Demand(x, o)
    ensures Answers(x, x, o)
  {
    if o.Some? { assert StandsIn(o.value, o.value); }
  }

  lemma FoldTrans(a: string, b: string, c: string)
    requires c != "" && EqualFold(b, c) && SchemeOk(b, a)
    ensures SchemeOk(c, a)
  {
    assert |Lower(b)| == |b| && |Lower(c)| == |c|;
  }

  /** Matching criteria is implied by one demand of the finding, for every candidate at once. */
  lemma DemandBehind(c: Criteria, x: Finding) returns (o: Option<Observation>)
    requires Matches(c, x)
    ensures Demand(x, o)
    ensures forall y :: Answers(y, x, o) ==> Matches(c, y)
  {
    hide Matches, SchemeOk, EqualFold;
    MatchesIff(c, x);
    if c.scheme == "" && c.minScore.None? {
      o := None;
      forall y | Answers(y, x, o) ensures Matches(c, y) { MatchesIff(c, y); }
    } else {
      var e :| e in x.severity && Enough(c, e);
      o := Some(e);
      forall y | Answers(y, x, o) ensures Matches(c, y) {
        MatchesIff(c, y);
        var p :| p in y.severity && StandsIn(p, e);
        StandInSuffices(c, e, p);
      }
    }
  }

  lemma StandInSuffices(c: Criteria, e: Observation, p: Observation)
    requires Enough(c, e) && StandsIn(p, e)
    ensures Enough(c, p)
  {
    if c.scheme != "" { FoldTrans(p.scheme, e.scheme, c.scheme); }
  }

  lemma AnsweredCarriesOver(rules: seq<Rule>, xs: seq<Finding>, ys: seq<Finding>)
    requires AllAnswered(xs, ys)
    ensures RulesCarryOver(rules, xs, ys)
  {
    hide Matches, Answers, Demand;
    forall rule, x | rule in rules && x in xs && Matches(rule.criteria, x)
      ensures SomeMatch(rule.criteria, ys)
    {
      var o := DemandBehind(rule.criteria, x);
      assert Answered(x, o, ys);
      var y :| y in ys && Answers(y, x, o);
      assert Matches(rule.criteria, y);
    }
  }

  // ---- exactly when the merged view is safe ----

  /** The two evaluations agree for every policy whose rules are listed severest first. */
  ghost predicate AgreeForEveryPolicy(results: seq<ProviderResult>, merged: seq<MergedFinding>) {
    forall spec: Spec :: SeverestFirst(spec.findings) ==>
      RawDecision(spec, results) == MergedDecision(spec, results, merged)
  }

  /** No group disagrees on its assessment, and the findings walked raw and the merged findings
      answer each other's demands. */
  ghost predicate Interchangeable(results: seq<ProviderResult>, merged: seq<MergedFinding>) {
    && NoConflicts(merged)
    && AllAnswered(RawFindings(results), MergedFindings(merged))
    && AllAnswered(MergedFindings(merged), RawFindings(results))
  }

  lemma InterchangeableAgree(spec: Spec, results: seq<ProviderResult>, merged: seq<MergedFinding>)
    requires SeverestFirst(spec.findings) && Interchangeable(results, merged)
    ensures RawDecision(spec, results) == MergedDecision(spec, results, merged)
  {
    hide SeverestFirst, AllAnswered, Escalated, RawSteps, MergedSteps, RawFindings, MergedFindings, RulesCarryOver, Covered;
    AnsweredCarriesOver(spec.findings, RawFindings(results), MergedFindings(merged));
    AnsweredCarriesOver(spec.findings, MergedFindings(merged), RawFindings(results));
    RawCovered(spec, results, merged);
    MergedCovered(spec, results, merged);
    CoveredBoth(RawSteps(spec, results), MergedSteps(spec, results, merged));
  }

  /** A policy that only reacts to one rule. */
  function Probe(rules: seq<Rule>, conflict: Decision): (spec: Spec) {
    Spec(Some(Allow), Some(Allow), Some(Allow), map[], rules, Some(conflict))
  }

  lemma ProbeBaseline(rules: seq<Rule>, conflict: Decision, results: seq<ProviderResult>, s: Step)
    ensures s in FlatMap(OutcomeSteps(Probe(rules, conflict)), results) ==> s.decision == Allow
    ensures s !in FlatMap(VerdictSteps(Probe(rules, conflict)), results)
  {
    hide FlatMap;
    var spec := Probe(rules, conflict);
    FlatMapIn(OutcomeSteps(spec), results, s);
    FlatMapIn(VerdictSteps(spec), results, s);
  }

  /** With a single denying rule, raw evaluation denies exactly when a walked finding matches. */
  lemma ProbeRaw(c: Criteria, results: seq<ProviderResult>)
    ensures var rules := [Rule(c, Deny, "probe")];
            RawDecision(Probe(rules, Allow), results) == Deny <==> SomeMatch(c, RawFindings(results))
  {
    hide FlatMap, Escalated, Matches, RawSteps, RawFindings, OutcomeSteps, VerdictSteps, Probe;
    var rules := [Rule(c, Deny, "probe")];
    var spec := Probe(rules, Allow);
    ProbeFindings(rules, Allow);
    EscalatedIsMax(RawSteps(spec, results));
    if RawDecision(spec, results) == Deny {
      var s :| s in RawSteps(spec, results) && s.decision == Deny;
      RawStepIn(spec, results, s);
      ProbeBaseline(rules, Allow, results, s);
    }
    if SomeMatch(c, RawFindings(results)) {
      var x :| x in RawFindings(results) && Matches(c, x);
      var s := RawStepFor(spec, results, x);
      DenyIsTop(Escalated(RawSteps(spec, results)));
    }
  }

  lemma ProbeFindings(rules: seq<Rule>, conflict: Decision)
    ensures Probe(rules, conflict).findings == rules
    ensures DecisionOr(Probe(rules, conflict).mergeConflicts, Review) == conflict
  {
  }

  lemma DenyIsTop(d: Decision)
    requires Rank(Deny) <= Rank(d)
    ensures d == Deny
  {
  }

  lemma ProbeMerged(c: Criteria, results: seq<ProviderResult>, merged: seq<MergedFinding>)
    ensures var rules := [Rule(c, Deny, "probe")];
            MergedDecision(Probe(rules, Allow), results, merged) == Deny <==> SomeMatch(c, MergedFindings(merged))
  {
    hide FlatMap, Escalated, Matches, MergedSteps, MergedFindings, OutcomeSteps, VerdictSteps, Probe;
    var rules := [Rule(c, Deny, "probe")];
    var spec := Probe(rules, Allow);
    ProbeFindings(rules, Allow);
    EscalatedIsMax(MergedSteps(spec, results, merged));
    if MergedDecision(spec, results, merged) == Deny {
      var s :| s in MergedSteps(spec, results, merged) && s.decision == Deny;
      MergedStepIn(spec, results, merged, s);
      ProbeBaseline(rules, Allow, results, s);
    }
    if SomeMatch(c, MergedFindings(merged)) {
      var y :| y in MergedFindings(merged) && Matches(c, y);
      var s := MergedStepFor(spec, results, merged, y);
      DenyIsTop(Escalated(MergedSteps(spec, results, merged)));
    }
  }

  lemma ProbeConflict(results: seq<ProviderResult>, merged: seq<MergedFinding>, mf: MergedFinding)
    requires mf in merged && mf.conflicts != []
    ensures RawDecision(Probe([], Deny), results) != MergedDecision(Probe([], Deny), results, merged)
  {
    hide FlatMap, Escalated, RawSteps, RawFindings, OutcomeSteps, VerdictSteps, Probe, Synthetic;
    var spec := Probe([], Deny);
    ProbeFindings([], Deny);
    var s := ConflictSteps(spec, mf)[0];
    assert s in MergedStepsOf(spec)(mf);
    FlatMapHas(MergedStepsOf(spec), merged, mf, s);
    EscalatedIsMax(MergedSteps(spec, results, merged));
    EscalatedIsMax(RawSteps(spec, results));
    DenyIsTop(Escalated(MergedSteps(spec, results, merged)));
    if RawDecision(spec, results) == Deny {
      var t :| t in RawSteps(spec, results) && t.decision == Deny;
      RawStepIn(spec, results, t);
      ProbeBaseline([], Deny, results, t);
    }
  }

  lemma AgreeAnswered(results: seq<ProviderResult>, merged: seq<MergedFinding>)
    requires AgreeForEveryPolicy(results, merged)
    ensures AllAnswered(RawFindings(results), MergedFindings(merged))
    ensures AllAnswered(MergedFindings(merged), RawFindings(results))
  {
    hide RawDecision, MergedDecision, RawFindings, MergedFindings, Answers, Matches, Probe;
    forall x, o | Demand(x, o)
      ensures x in RawFindings(results) ==> Answered(x, o, MergedFindings(merged))
      ensures x in MergedFindings(merged) ==> Answered(x, o, RawFindings(results))
    {
      var c := DemandCriteria(x, o);
      var rules := [Rule(c, Deny, "probe")];
      ProbeFindings(rules, Allow);
      assert RawDecision(Probe(rules, Allow), results) == MergedDecision(Probe(rules, Allow), results, merged);
      ProbeRaw(c, results);
      ProbeMerged(c, results, merged);
      SelfAnswers(x, o);
      AnswersIffMatches(x, x, o);
      if SomeMatch(c, MergedFindings(merged)) {
        var y :| y in MergedFindings(merged) && Matches(c, y);
        AnswersIffMatches(y, x, o);
      }
      if SomeMatch(c, RawFindings(results)) {
        var y :| y in RawFindings(results) && Matches(c, y);
        AnswersIffMatches(y, x, o);
      }
    }
  }

  /** The merged evaluation gives the raw decision for every severest-first policy exactly when
      the merged view and the walked findings are interchangeable. */
  lemma AgreementIff(results: seq<ProviderResult>, merged: seq<MergedFinding>)
    ensures AgreeForEveryPolicy(results, merged) <==> Interchangeable(results, merged)
  {
    hide RawDecision, MergedDecision, AllAnswered, Probe, RawFindings, MergedFindings;
    if Interchangeable(results, merged) {
      forall spec: Spec | SeverestFirst(spec.findings)
        ensures RawDecision(spec, results) == MergedDecision(spec, results, merged)
      {
        InterchangeableAgree(spec, results, merged);
      }
    }
    if AgreeForEveryPolicy(results, merged) {
      AgreeAnswered(results, merged);
      forall mf | mf in merged ensures mf.conflicts == [] {
        if mf.conflicts != [] {
          ProbeFindings([], Deny);
          assert RawDecision(Probe([], Deny), results) == MergedDecision(Probe([], Deny), results, merged);
          ProbeConflict(results, merged, mf);
        }
      }
    }
  }

  // ---- homogeneous groups ----

  /** Same type, and the same assessment status out of the three the lattice keeps, or none. */
  predicate AlikeFindings(a: Finding, b: Finding) {
    && a.typ == b.typ
    && StatusOf(a.assessment) == StatusOf(b.assessment)
    && (a.assessment.Some? ==> a.assessment.value.status in {Affected, NotAffected, UnderInvestigation})
  }

  ghost predicate Homogeneous(pairs: seq<Source>) {
    forall p, q :: p in pairs && q in pairs ==> AlikeFindings(p.finding, q.finding)
  }

  lemma HomogeneousStatus(pairs: seq<Source>, p: Source)
    requires Homogeneous(pairs) && p in pairs
    ensures StatusOf(Assessments.Reconciled(pairs)) == StatusOf(p.finding.assessment)
    ensures Assessments.Conflicts(pairs) == []
  {
    hide Assessments.JoinLevel, Assessments.FirstWording, Assessments.Conflicts;
    Assessments.JoinIsMax(pairs);
    Assessments.ConflictIff(pairs);
    assert AlikeFindings(p.finding, p.finding);
    forall q | q in pairs ensures Assessments.SourceLevel(q) == Assessments.SourceLevel(p) {
      assert AlikeFindings(q.finding, p.finding);
    }
  }

  lemma TypeOfGroup(pairs: seq<Source>, p: Source)
    requires p in pairs && forall q :: q in pairs ==> q.finding.typ == p.finding.typ
    ensures A.TypeOf(pairs) == p.finding.typ
  {
    assert pairs[0] in pairs;
  }

  /** The synthetic finding of a group, field by field. */
  lemma SyntheticFields(key: string, pairs: seq<Source>, strategy: string, weights: map<string, real>)
    ensures var f := Synthetic(A.BuildMerged(key, pairs, strategy, weights));
            && f.typ == A.TypeOf(pairs)
            && f.assessment == Assessments.Reconciled(pairs)
            && f.severity == Severity.Consensus(pairs, strategy, weights)
    ensures A.BuildMerged(key, pairs, strategy, weights).conflicts == Assessments.Conflicts(pairs)
  {
    hide A.LongestTitle, A.MergedIdentifiers, Severity.Consensus, Assessments.Reconciled, Assessments.Conflicts, A.TypeOf;
  }

  /** Under the maximum, the merged severity satisfies severity criteria exactly when some
      source's severity does. */
  lemma MaxSeverityOk(c: Criteria, pairs: seq<Source>, strategy: string, weights: map<string, real>)
    requires Severity.TakesMax(strategy) && pairs != []
    ensures SeverityOk(c, Severity.Consensus(pairs, strategy, weights)) <==>
            exists p :: p in pairs && SeverityOk(c, p.finding.severity)
  {
    hide Severity.Consensus, SchemeOk, Severity.TakesMax;
    var merged := Severity.Consensus(pairs, strategy, weights);
    if c.scheme == "" && c.minScore.None? {
      assert pairs[0] in pairs && SeverityOk(c, pairs[0].finding.severity);
    } else {
      if SeverityOk(c, merged) {
        var o :| o in merged && Enough(c, o);
        Severity.MaxComesFromSource(pairs, strategy, weights, o);
      }
      if p :| p in pairs && SeverityOk(c, p.finding.severity) {
        var o :| o in p.finding.severity && Enough(c, o);
        Severity.MaxReachesSource(pairs, strategy, weights, p, o);
        var m :| m in merged && m.scheme == o.scheme && m.score.Some? && m.score.value >= o.score.value;
        assert Enough(c, m);
      }
    }
  }

  /** Under the maximum, a homogeneous group matches criteria exactly when some source in it does. */
  lemma GroupMatchesIff(c: Criteria, key: string, pairs: seq<Source>, strategy: string, weights: map<string, real>)
    requires Severity.TakesMax(strategy) && pairs != [] && Homogeneous(pairs)
    ensures Matches(c, Synthetic(A.BuildMerged(key, pairs, strategy, weights))) <==>
            exists p :: p in pairs && Matches(c, p.finding)
  {
    hide Severity.Consensus, SeverityOk, Matches, A.BuildMerged, Synthetic, Assessments.Reconciled, A.TypeOf, Severity.TakesMax;
    var f := Synthetic(A.BuildMerged(key, pairs, strategy, weights));
    SyntheticFields(key, pairs, strategy, weights);
    MatchesIff(c, f);
    MaxSeverityOk(c, pairs, strategy, weights);
    forall p | p in pairs
      ensures Matches(c, p.finding) <==> TypeOk(c, f.typ) && AssessmentOk(c, f.assessment) && SeverityOk(c, p.finding.severity)
    {
      MatchesIff(c, p.finding);
      assert forall q :: q in pairs ==> AlikeFindings(q.finding, p.finding);
      TypeOfGroup(pairs, p);
      HomogeneousStatus(pairs, p);
    }
  }

  ghost predicate HomogeneousGroups(hash: string -> string, results: seq<ProviderResult>) {
    forall p, q :: p in A.AllSources(results) && q in A.AllSources(results) && Key(hash, p) == Key(hash, q)
      ==> AlikeFindings(p.finding, q.finding)
  }

  /** Every completed result that carries findings has a warn or fail verdict. */
  ghost predicate FindingsAreWalked(results: seq<ProviderResult>) {
    forall r :: r in results && r.status == Completed && r.findings != [] ==> Walked(r)
  }

  lemma SourceIn(results: seq<ProviderResult>, s: Source)
    ensures s in A.AllSources(results) <==> s.result in results && s.result.status == Completed && s.finding in s.result.findings
  {
    FlatMapIn(A.SourcesOf, results, s);
    if s in A.AllSources(results) {
      var r :| r in results && s in A.SourcesOf(r);
      var i :| 0 <= i < |r.findings| && s == A.SourceFrom(r)(r.findings[i]);
    }
    if s.result in results && s.result.status == Completed && s.finding in s.result.findings {
      var i :| 0 <= i < |s.result.findings| && s.result.findings[i] == s.finding;
      assert A.SourcesOf(s.result)[i] == s;
    }
  }

  /** A walked finding is the finding of some source. */
  lemma RawFindingSource(results: seq<ProviderResult>, x: Finding) returns (s: Source)
    requires x in RawFindings(results)
    ensures s in A.AllSources(results) && s.finding == x
  {
    hide FlatMap;
    FlatMapIn(FindingsWalked, results, x);
    var r :| r in results && x in FindingsWalked(r);
    s := Source(r, x);
    SourceIn(results, s);
  }

  lemma SourceIsWalked(results: seq<ProviderResult>, s: Source)
    requires FindingsAreWalked(results) && s in A.AllSources(results)
    ensures s.finding in RawFindings(results)
  {
    SourceIn(results, s);
    FlatMapHas(FindingsWalked, results, s.result, s.finding);
  }

  lemma MergedOf(hash: string -> string, results: seq<ProviderResult>, strategy: string, weights: map<string, real>, s: Source)
    requires s in A.AllSources(results)
    ensures A.BuildMerged(Key(hash, s), A.Group(hash, Key(hash, s), A.AllSources(results)), A.EffectiveStrategy(strategy), weights)
            in A.Aggregated(hash, results, strategy, weights)
    ensures s in A.Group(hash, Key(hash, s), A.AllSources(results))
  {
    hide Key, A.BuildMerged, FlatMap, FirstSeen;
    var sources := A.AllSources(results);
    A.KeyListed(hash, Key(hash, s), sources);
    A.GroupHas(hash, Key(hash, s), sources);
    var keys := A.GroupKeys(hash, sources);
    var i :| 0 <= i < |keys| && keys[i] == Key(hash, s);
    assert A.Aggregated(hash, results, strategy, weights)[i] == A.MergeGroup(hash, sources, A.EffectiveStrategy(strategy), weights)(keys[i]);
  }

  lemma GroupOf(hash: string -> string, results: seq<ProviderResult>, strategy: string, weights: map<string, real>, mf: MergedFinding) returns (k: string)
    requires mf in A.Aggregated(hash, results, strategy, weights)
    ensures mf == A.BuildMerged(k, A.Group(hash, k, A.AllSources(results)), A.EffectiveStrategy(strategy), weights)
    ensures A.Group(hash, k, A.AllSources(results)) != []
    ensures k in A.GroupKeys(hash, A.AllSources(results))
  {
    hide Key, A.BuildMerged, FlatMap, FirstSeen, A.Group;
    var sources := A.AllSources(results);
    var keys := A.GroupKeys(hash, sources);
    var i :| 0 <= i < |keys| && mf == A.MergeGroup(hash, sources, A.EffectiveStrategy(strategy), weights)(keys[i]);
    k := keys[i];
    assert k in keys;
    A.GroupHas(hash, k, sources);
  }

  lemma GroupsHomogeneous(hash: string -> string, results: seq<ProviderResult>, k: string)
    requires HomogeneousGroups(hash, results)
    ensures Homogeneous(A.Group(hash, k, A.AllSources(results)))
  {
    hide Key, A.Group, A.AllSources, AlikeFindings;
    A.GroupHas(hash, k, A.AllSources(results));
  }

  lemma HomogeneousRawAnswered(hash: string -> string, results: seq<ProviderResult>, strategy: string, weights: map<string, real>)
    requires Severity.TakesMax(A.EffectiveStrategy(strategy)) && HomogeneousGroups(hash, results)
    ensures AllAnswered(RawFindings(results), MergedFindings(A.Aggregated(hash, results, strategy, weights)))
  {
    hide Key, A.Group, A.AllSources, A.BuildMerged, A.Aggregated, Matches, Answers, Synthetic, RawFindings, MergedFindings, HomogeneousGroups, Homogeneous, Severity.TakesMax;
    var merged := A.Aggregated(hash, results, strategy, weights);
    forall x, o | x in RawFindings(results) && Demand(x, o) ensures Answered(x, o, MergedFindings(merged)) {
      var s := RawFindingSource(results, x);
      var k := Key(hash, s);
      var pairs := A.Group(hash, k, A.AllSources(results));
      MergedOf(hash, results, strategy, weights, s);
      GroupsHomogeneous(hash, results, k);
      var mf := A.BuildMerged(k, pairs, A.EffectiveStrategy(strategy), weights);
      var c := DemandCriteria(x, o);
      SelfAnswers(x, o);
      AnswersIffMatches(x, x, o);
      GroupMatchesIff(c, k, pairs, A.EffectiveStrategy(strategy), weights);
      AnswersIffMatches(Synthetic(mf), x, o);
      SyntheticIn(merged, mf);
    }
  }

  lemma HomogeneousMergedAnswered(hash: string -> string, results: seq<ProviderResult>, strategy: string, weights: map<string, real>)
    requires Severity.TakesMax(A.EffectiveStrategy(strategy)) && HomogeneousGroups(hash, results) && FindingsAreWalked(results)
    ensures AllAnswered(MergedFindings(A.Aggregated(hash, results, strategy, weights)), RawFindings(results))
    ensures NoConflicts(A.Aggregated(hash, results, strategy, weights))
  {
    hide Key, A.Group, A.AllSources, A.BuildMerged, A.Aggregated, Matches, Answers, Synthetic, RawFindings, HomogeneousGroups, Homogeneous, FindingsAreWalked, Severity.TakesMax, Assessments.Conflicts;
    var merged := A.Aggregated(hash, results, strategy, weights);
    var effective := A.EffectiveStrategy(strategy);
    forall mf, o | mf in merged && Demand(Synthetic(mf), o) ensures Answered(Synthetic(mf), o, RawFindings(results)) {
      var y := Synthetic(mf);
      var k := GroupOf(hash, results, strategy, weights, mf);
      var pairs := A.Group(hash, k, A.AllSources(results));
      GroupsHomogeneous(hash, results, k);
      var c := DemandCriteria(y, o);
      SelfAnswers(y, o);
      AnswersIffMatches(y, y, o);
      GroupMatchesIff(c, k, pairs, effective, weights);
      var p :| p in pairs && Matches(c, p.finding);
      AnswersIffMatches(p.finding, y, o);
      A.GroupHas(hash, k, A.AllSources(results));
      SourceIsWalked(results, p);
    }
    forall mf | mf in merged ensures mf.conflicts == [] {
      var k := GroupOf(hash, results, strategy, weights, mf);
      var pairs := A.Group(hash, k, A.AllSources(results));
      GroupsHomogeneous(hash, results, k);
      HomogeneousStatus(pairs, pairs[0]);
      SyntheticFields(k, pairs, effective, weights);
    }
  }

  /** Deduplication preserves the decision: under the maximum, with groups that agree on type and
      assessment and every finding walked, evaluating the merged view gives the raw decision for
      every severest-first policy. */
  lemma DeduplicationPreservesDecision(hash: string -> string, results: seq<ProviderResult>, strategy: string,
                                       weights: map<string, real>, spec: Spec)
    requires Severity.TakesMax(A.EffectiveStrategy(strategy)) && SeverestFirst(spec.findings)
    requires HomogeneousGroups(hash, results) && FindingsAreWalked(results)
    ensures MergedDecision(spec, results, A.Aggregated(hash, results, strategy, weights)) == RawDecision(spec, results)
  {
    hide Key, A.Aggregated, AllAnswered, MergedDecision, RawDecision, HomogeneousGroups, FindingsAreWalked, SeverestFirst, NoConflicts, Severity.TakesMax;
    HomogeneousRawAnswered(hash, results, strategy, weights);
    HomogeneousMergedAnswered(hash, results, strategy, weights);
    InterchangeableAgree(spec, results, A.Aggregated(hash, results, strategy, weights));
  }

  // ---- merging never weakens ----

  ghost predicate SameTypes(hash: string -> string, results: seq<ProviderResult>) {
    forall p, q :: p in A.AllSources(results) && q in A.AllSources(results) && Key(hash, p) == Key(hash, q)
      ==> p.finding.typ == q.finding.typ
  }

  ghost predicate AsksForAffected(rules: seq<Rule>) {
    forall rule :: rule in rules ==> rule.criteria.assessment == Some(Affected)
  }

  /** An affected source that matches makes its whole group match, whatever the other sources say. */
  lemma AffectedWins(c: Criteria, key: string, pairs: seq<Source>, strategy: string, weights: map<string, real>, p: Source)
    requires Severity.TakesMax(strategy) && p in pairs && Matches(c, p.finding) && c.assessment == Some(Affected)
    requires forall q :: q in pairs ==> q.finding.typ == p.finding.typ
    ensures Matches(c, Synthetic(A.BuildMerged(key, pairs, strategy, weights)))
  {
    hide Severity.Consensus, SeverityOk, Matches, A.BuildMerged, Synthetic, A.TypeOf, Assessments.FirstWording, Assessments.JoinLevel, Severity.TakesMax;
    SyntheticFields(key, pairs, strategy, weights);
    MatchesIff(c, Synthetic(A.BuildMerged(key, pairs, strategy, weights)));
    MatchesIff(c, p.finding);
    MaxSeverityOk(c, pairs, strategy, weights);
    TypeOfGroup(pairs, p);
    Assessments.JoinIsMax(pairs);
    assert Assessments.JoinLevel(pairs) == 3;
  }

  /** Merging never weakens a decision: under the maximum, when every finding rule asks for
      `affected` and rules are listed severest first, the merged decision ranks at least as high
      as the raw one, also with mixed assessments, conflicts and unwalked results. */
  lemma MergingNeverWeakens(hash: string -> string, results: seq<ProviderResult>, strategy: string,
                            weights: map<string, real>, spec: Spec)
    requires Severity.TakesMax(A.EffectiveStrategy(strategy)) && SeverestFirst(spec.findings)
    requires AsksForAffected(spec.findings) && SameTypes(hash, results)
    ensures Rank(RawDecision(spec, results)) <= Rank(MergedDecision(spec, results, A.Aggregated(hash, results, strategy, weights)))
  {
    hide Key, A.Group, A.AllSources, A.BuildMerged, A.Aggregated, Matches, Synthetic, RawFindings, MergedFindings, RawSteps, MergedSteps, Escalated, SeverestFirst, Severity.TakesMax, Covered;
    var merged := A.Aggregated(hash, results, strategy, weights);
    forall rule, x | rule in spec.findings && x in RawFindings(results) && Matches(rule.criteria, x)
      ensures SomeMatch(rule.criteria, MergedFindings(merged))
    {
      var s := RawFindingSource(results, x);
      var k := Key(hash, s);
      var pairs := A.Group(hash, k, A.AllSources(results));
      MergedOf(hash, results, strategy, weights, s);
      A.GroupHas(hash, k, A.AllSources(results));
      AffectedWins(rule.criteria, k, pairs, A.EffectiveStrategy(strategy), weights, s);
      SyntheticIn(merged, A.BuildMerged(k, pairs, A.EffectiveStrategy(strategy), weights));
    }
    RawCovered(spec, results, merged);
    CoveredLe(RawSteps(spec, results), MergedSteps(spec, results, merged));
  }

  // ---- the two evaluations do differ in general ----

  /** A single completed result with a pass verdict and one finding: the raw evaluation never
      looks at the finding, the merged one does. */
  lemma PassVerdictDiffers(hash: string -> string, strategy: string, weights: map<string, real>)
    ensures var f := Finding("f", "vulnerability", "", [], [], [], None);
            var results := [ProviderResult("r", "p", Completed, Some(Pass), [f])];
            var spec := Probe([Rule(Criteria(None, "", None, ""), Deny, "probe")], Allow);
            RawDecision(spec, results) != Deny
            && MergedDecision(spec, results, A.Aggregated(hash, results, strategy, weights)) == Deny
  {
    hide Key, A.Aggregated, RawDecision, MergedDecision, Probe, Synthetic, Matches, A.BuildMerged;
    var f := Finding("f", "vulnerability", "", [], [], [], None);
    var r := ProviderResult("r", "p", Completed, Some(Pass), [f]);
    var results := [r];
    var c := Criteria(None, "", None, "");
    ProbeRaw(c, results);
    forall x ensures x !in RawFindings(results) { FlatMapIn(FindingsWalked, results, x); }
    var merged := A.Aggregated(hash, results, strategy, weights);
    ProbeMerged(c, results, merged);
    var s := Source(r, f);
    SourceIn(results, s);
    MergedOf(hash, results, strategy, weights, s);
    var mf := A.BuildMerged(Key(hash, s), A.Group(hash, Key(hash, s), A.AllSources(results)), A.EffectiveStrategy(strategy), weights);
    SyntheticIn(merged, mf);
    MatchesIff(c, Synthetic(mf));
  }
}
