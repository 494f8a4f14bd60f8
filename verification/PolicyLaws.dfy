/** What the two evaluations of a policy document decide and report, said on the fields of the policy,
    the results and the merged findings. */
module PolicyLaws {
  import opened Seqs
  import opened Strings
  import opened Findings
  import opened Policy

  /** The decisions from mildest to severest. */
  lemma DecisionOrder()
    ensures Rank(Allow) < Rank(Defer) < Rank(Review) < Rank(Deny)
  {
  }

  /** A rule matches the finding and no rule before it does. */
  ghost predicate FirstRule(rules: seq<Rule>, f: Finding, i: int) {
    0 <= i < |rules| && Matches(rules[i].criteria, f) && forall j :: 0 <= j < i ==> !Matches(rules[j].criteria, f)
  }

  lemma {:induction false} FirstMatchIff(rules: seq<Rule>, f: Finding)
    ensures FirstMatch(rules, f).None? <==> forall i :: 0 <= i < |rules| ==> !Matches(rules[i].criteria, f)
    ensures forall i :: FirstRule(rules, f, i) ==> FirstMatch(rules, f) == Some(rules[i])
    ensures FirstMatch(rules, f).Some? ==> exists i :: FirstRule(rules, f, i)
  {
    hide Matches;
    if rules != [] {
      var rest := rules[1..];
      FirstMatchIff(rest, f);
      assert forall i :: 0 <= i < |rest| ==> rest[i] == rules[i + 1];
      if Matches(rules[0].criteria, f) {
        assert FirstRule(rules, f, 0);
      } else {
        forall i | FirstRule(rules, f, i) ensures FirstMatch(rules, f) == Some(rules[i]) {
          assert FirstRule(rest, f, i - 1);
        }
        if FirstMatch(rest, f).Some? {
          var i :| FirstRule(rest, f, i);
          assert FirstRule(rules, f, i + 1);
        }
      }
    }
  }

  // ---- what a result calls for ----

  /** From how the provider ran and from its verdict: timeouts, errors and missing verdicts by their
      settings or else review, and the mapped decision of a verdict. */
  predicate ResultCalls(spec: Spec, r: ProviderResult, d: Decision, why: Option<Reason>) {
    match r.status
    case TimedOut =>
      d == (if spec.onTimeout.Some? then spec.onTimeout.value else Review) && why == Some(Reason("required_provider_timeout", r.id, ""))
    case Errored =>
      d == (if spec.onError.Some? then spec.onError.value else Review) && why == Some(Reason("provider_error", r.id, ""))
    case Completed =>
      if r.verdict.None? then
        && d == (if spec.onMissingVerdict.Some? then spec.onMissingVerdict.value else Review)
        && why == Some(Reason("missing_verdict", r.id, ""))
      else
        r.verdict.value in spec.verdicts && d == spec.verdicts[r.verdict.value] && why == None
  }

  /** From the first matching rule of one of its findings, when the result warns or fails. */
  ghost predicate FindingCalls(spec: Spec, r: ProviderResult, f: Finding, i: int, d: Decision, why: Option<Reason>) {
    && r.status == Completed && (r.verdict == Some(Warn) || r.verdict == Some(Fail)) && f in r.findings
    && FirstRule(spec.findings, f, i) && d == spec.findings[i].decision
    && why == Some(Reason(spec.findings[i].reasonCode, r.id, f.id))
  }

  lemma ResultCallsIff(spec: Spec, r: ProviderResult, d: Decision, why: Option<Reason>)
    ensures ResultCalls(spec, r, d, why) <==> Step(d, why) in OutcomeSteps(spec)(r) || Step(d, why) in VerdictSteps(spec)(r)
  {
  }

  lemma FindingCallsIff(spec: Spec, r: ProviderResult, d: Decision, why: Option<Reason>)
    ensures Step(d, why) in FindingSteps(spec)(r) <==> exists f, i :: FindingCalls(spec, r, f, i, d, why)
  {
    hide FirstMatch, FlatMap, Matches, FirstRule;
    var s := Step(d, why);
    if f, i :| FindingCalls(spec, r, f, i, d, why) {
      FirstMatchIff(spec.findings, f);
      FlatMapHas(RuleStepFor(spec, r.id), r.findings, f, s);
    }
    if s in FindingSteps(spec)(r) {
      FlatMapIn(RuleStepFor(spec, r.id), r.findings, s);
      var f :| f in r.findings && s in RuleStepFor(spec, r.id)(f);
      FirstMatchIff(spec.findings, f);
      var i :| FirstRule(spec.findings, f, i);
      assert FindingCalls(spec, r, f, i, d, why);
    }
  }

  ghost predicate RawCalls(spec: Spec, results: seq<ProviderResult>, d: Decision, why: Option<Reason>) {
    || (exists r :: r in results && ResultCalls(spec, r, d, why))
    || (exists r, f, i :: r in results && FindingCalls(spec, r, f, i, d, why))
  }

  lemma RawStepIff(spec: Spec, results: seq<ProviderResult>, d: Decision, why: Option<Reason>)
    ensures Step(d, why) in RawSteps(spec, results) <==> RawCalls(spec, results, d, why)
  {
    hide FlatMap, ResultCalls, FindingCalls, OutcomeSteps, VerdictSteps, FindingSteps;
    var s := Step(d, why);
    FlatMapIn(RawStepsOf(spec), results, s);
    if s in RawSteps(spec, results) {
      var r :| r in results && s in RawStepsOf(spec)(r);
      ResultCallsIff(spec, r, d, why);
      FindingCallsIff(spec, r, d, why);
    }
    if r :| r in results && ResultCalls(spec, r, d, why) {
      ResultCallsIff(spec, r, d, why);
      FlatMapHas(RawStepsOf(spec), results, r, s);
    }
    if r, f, i :| r in results && FindingCalls(spec, r, f, i, d, why) {
      FindingCallsIff(spec, r, d, why);
      FlatMapHas(RawStepsOf(spec), results, r, s);
    }
  }

  // ---- what a merged finding calls for ----

  /** The source that a merged finding is reported under: its first, or "none" without any. */
  function Reported(mf: MergedFinding): (s: FindingSource) {
    if mf.sources == [] then FindingSource("", "none", "none") else mf.sources[0]
  }

  /** A conflict calls for its setting or else review. */
  predicate ConflictCalls(spec: Spec, mf: MergedFinding, d: Decision, why: Option<Reason>) {
    && mf.conflicts != []
    && d == (if spec.mergeConflicts.Some? then spec.mergeConflicts.value else Review)
    && why == Some(Reason("assessment_conflict", Reported(mf).resultId, Reported(mf).findingId))
  }

  /** The first rule that matches the merged type, severity and assessment decides. */
  ghost predicate MergedRuleCalls(spec: Spec, mf: MergedFinding, i: int, d: Decision, why: Option<Reason>) {
    && FirstRule(spec.findings, Finding(Reported(mf).findingId, mf.typ, "", mf.identifiers, [], mf.severity, mf.assessment), i)
    && d == spec.findings[i].decision
    && why == Some(Reason(spec.findings[i].reasonCode, Reported(mf).resultId, Reported(mf).findingId))
  }

  ghost predicate MergedCalls(spec: Spec, results: seq<ProviderResult>, merged: seq<MergedFinding>, d: Decision, why: Option<Reason>) {
    || (exists r :: r in results && ResultCalls(spec, r, d, why))
    || (exists mf :: mf in merged && ConflictCalls(spec, mf, d, why))
    || (exists mf, i :: mf in merged && MergedRuleCalls(spec, mf, i, d, why))
  }

  lemma MergedFindingIff(spec: Spec, mf: MergedFinding, d: Decision, why: Option<Reason>)
    ensures Step(d, why) in MergedStepsOf(spec)(mf) <==>
            ConflictCalls(spec, mf, d, why) || exists i :: MergedRuleCalls(spec, mf, i, d, why)
  {
    hide FirstMatch, Matches, FirstRule;
    FirstMatchIff(spec.findings, Synthetic(mf));
    if FirstMatch(spec.findings, Synthetic(mf)).Some? {
      var i :| FirstRule(spec.findings, Synthetic(mf), i);
      assert Step(d, why) in RuleStep(spec.findings, PrimarySource(mf).resultId, Synthetic(mf)) ==> MergedRuleCalls(spec, mf, i, d, why);
    }
  }

  lemma MergedStepIff(spec: Spec, results: seq<ProviderResult>, merged: seq<MergedFinding>, d: Decision, why: Option<Reason>)
    ensures Step(d, why) in MergedSteps(spec, results, merged) <==> MergedCalls(spec, results, merged, d, why)
  {
    hide FlatMap, ResultCalls, ConflictCalls, MergedRuleCalls, OutcomeSteps, VerdictSteps, ConflictSteps, RuleStep;
    var s := Step(d, why);
    FlatMapIn(OutcomeSteps(spec), results, s);
    FlatMapIn(VerdictSteps(spec), results, s);
    FlatMapIn(MergedStepsOf(spec), merged, s);
    forall r ensures ResultCalls(spec, r, d, why) <==> s in OutcomeSteps(spec)(r) || s in VerdictSteps(spec)(r) {
      ResultCallsIff(spec, r, d, why);
    }
    forall mf ensures s in MergedStepsOf(spec)(mf) <==> ConflictCalls(spec, mf, d, why) || exists i :: MergedRuleCalls(spec, mf, i, d, why) {
      MergedFindingIff(spec, mf, d, why);
    }
    if r :| r in results && ResultCalls(spec, r, d, why) {
      if s in OutcomeSteps(spec)(r) { FlatMapHas(OutcomeSteps(spec), results, r, s); }
      if s in VerdictSteps(spec)(r) { FlatMapHas(VerdictSteps(spec), results, r, s); }
    }
    if mf :| mf in merged && ConflictCalls(spec, mf, d, why) { FlatMapHas(MergedStepsOf(spec), merged, mf, s); }
    if mf, i :| mf in merged && MergedRuleCalls(spec, mf, i, d, why) { FlatMapHas(MergedStepsOf(spec), merged, mf, s); }
  }

  // ---- the decision and its report ----

  lemma ReasonIff(steps: seq<Step>, why: Reason)
    ensures why in ReasonsOf(steps) <==> exists d :: Step(d, Some(why)) in steps
  {
    hide FlatMap;
    FlatMapIn(ReasonOf, steps, why);
    if why in ReasonsOf(steps) {
      var s :| s in steps && why in ReasonOf(s);
      assert s == Step(s.decision, Some(why));
    }
    if d :| Step(d, Some(why)) in steps { FlatMapHas(ReasonOf, steps, Step(d, Some(why)), why); }
  }

  /** Over every policy and result list, of the raw evaluation: the decision ranks at least as high as
      everything that is called for; it is allow or itself called for; the reasons are exactly those of
      the calls; the inputs are the results' ids in order; and a resume time comes with defer only. */
  lemma RawEvaluationLaw(spec: Spec, results: seq<ProviderResult>)
    ensures var dec := Packaged(results, RawSteps(spec, results));
            && (forall d, why :: RawCalls(spec, results, d, why) ==> Rank(d) <= Rank(dec.decision))
            && (dec.decision != Allow ==> exists why :: RawCalls(spec, results, dec.decision, why))
            && (forall why :: why in dec.reasons <==> exists d :: RawCalls(spec, results, d, Some(why)))
            && |dec.inputResultIds| == |results| && (forall i :: 0 <= i < |results| ==> dec.inputResultIds[i] == results[i].id)
            && (dec.resumes <==> dec.decision == Defer)
  {
    hide RawCalls, RawSteps, Escalated;
    var steps := RawSteps(spec, results);
    forall d, why ensures Step(d, why) in steps <==> RawCalls(spec, results, d, why) { RawStepIff(spec, results, d, why); }
    EscalatedIsMax(steps);
    if Escalated(steps) != Allow {
      var s :| s in steps && s.decision == Escalated(steps);
      assert s == Step(s.decision, s.reason);
    }
    forall d, why | RawCalls(spec, results, d, why) ensures Rank(d) <= Rank(Escalated(steps)) { assert Step(d, why) in steps; }
    forall why ensures why in ReasonsOf(steps) <==> exists d :: RawCalls(spec, results, d, Some(why)) {
      ReasonIff(steps, why);
      if d :| Step(d, Some(why)) in steps { assert RawCalls(spec, results, d, Some(why)); }
      if d :| RawCalls(spec, results, d, Some(why)) { assert Step(d, Some(why)) in steps; }
    }
  }

  /** The same of the merged evaluation, whose findings are the merged ones. */
  lemma MergedEvaluationLaw(spec: Spec, results: seq<ProviderResult>, merged: seq<MergedFinding>)
    ensures var dec := Packaged(results, MergedSteps(spec, results, merged));
            && (forall d, why :: MergedCalls(spec, results, merged, d, why) ==> Rank(d) <= Rank(dec.decision))
            && (dec.decision != Allow ==> exists why :: MergedCalls(spec, results, merged, dec.decision, why))
            && (forall why :: why in dec.reasons <==> exists d :: MergedCalls(spec, results, merged, d, Some(why)))
            && |dec.inputResultIds| == |results| && (forall i :: 0 <= i < |results| ==> dec.inputResultIds[i] == results[i].id)
            && (dec.resumes <==> dec.decision == Defer)
  {
    hide MergedCalls, MergedSteps, Escalated;
    var steps := MergedSteps(spec, results, merged);
    forall d, why ensures Step(d, why) in steps <==> MergedCalls(spec, results, merged, d, why) { MergedStepIff(spec, results, merged, d, why); }
    EscalatedIsMax(steps);
    if Escalated(steps) != Allow {
      var s :| s in steps && s.decision == Escalated(steps);
      assert s == Step(s.decision, s.reason);
    }
    forall d, why | MergedCalls(spec, results, merged, d, why) ensures Rank(d) <= Rank(Escalated(steps)) { assert Step(d, why) in steps; }
    forall why ensures why in ReasonsOf(steps) <==> exists d :: MergedCalls(spec, results, merged, d, Some(why)) {
      ReasonIff(steps, why);
      if d :| Step(d, Some(why)) in steps { assert MergedCalls(spec, results, merged, d, Some(why)); }
      if d :| MergedCalls(spec, results, merged, d, Some(why)) { assert Step(d, Some(why)) in steps; }
    }
  }
}
