/** The YAML policy engine (extensions/policies/yaml/evaluate.go): the raw and the merged
    evaluation as loops proved to escalate over a list of steps. */
module Policy {
  import opened Seqs
  import opened Strings
  import opened Findings

  datatype Decision = Allow | Defer | Review | Deny

  /** Match criteria; an empty string or `None` means the criterion is not set. */
  datatype Criteria = Criteria(
    assessment: Option<AssessmentStatus>, scheme: string, minScore: Option<real>, findingType: string)

  datatype Rule = Rule(criteria: Criteria, decision: Decision, reasonCode: string)

  datatype Spec = Spec(
    onTimeout: Option<Decision>, onError: Option<Decision>, onMissingVerdict: Option<Decision>,
    verdicts: map<Verdict, Decision>, findings: seq<Rule>, mergeConflicts: Option<Decision>)

  datatype Reason = Reason(code: string, resultId: string, findingId: string)

  /** One escalation attempt of an evaluation, with the reason it records, if any. */
  datatype Step = Step(decision: Decision, reason: Option<Reason>)

  /** `resumes` says that a resume time is attached. */
  datatype PolicyDecision = PolicyDecision(
    decision: Decision, inputResultIds: seq<string>, reasons: seq<Reason>, resumes: bool)

  // ---- escalation ----

  function Rank(d: Decision): (r: nat) {
    match d
    case Allow => 0
    case Defer => 1
    case Review => 2
    case Deny => 3
  }

  function Escalate(current: Decision, next: Decision): (r: Decision) {
    if Rank(next) > Rank(current) then next else current
  }

  function Escalated(steps: seq<Step>): (r: Decision) {
    if steps == [] then Allow else Escalate(Escalated(steps[..|steps| - 1]), steps[|steps| - 1].decision)
  }

  function ReasonOf(s: Step): (r: seq<Reason>) {
    if s.reason.None? then [] else [s.reason.value]
  }

  function ReasonsOf(steps: seq<Step>): (r: seq<Reason>) {
    FlatMap(ReasonOf, steps)
  }

  /** The decision is the severest step, or allow. */
  lemma {:induction false} EscalatedIsMax(steps: seq<Step>)
    ensures forall s :: s in steps ==> Rank(s.decision) <= Rank(Escalated(steps))
    ensures Escalated(steps) != Allow ==> exists s :: s in steps && s.decision == Escalated(steps)
    decreases |steps|
  {
    if steps != [] {
      var m := |steps| - 1;
      EscalatedIsMax(steps[..m]);
      assert steps == steps[..m] + [steps[m]];
      if Escalated(steps) != steps[m].decision && Escalated(steps) != Allow {
        var s :| s in steps[..m] && s.decision == Escalated(steps[..m]);
        assert s in steps;
      }
    }
  }

  /** Every step of `a` is matched or exceeded by a step of `b`. */
  ghost predicate Covered(a: seq<Step>, b: seq<Step>) {
    forall s :: s in a && s.decision != Allow ==> exists t :: t in b && Rank(s.decision) <= Rank(t.decision)
  }

  lemma CoveredLe(a: seq<Step>, b: seq<Step>)
    requires Covered(a, b)
    ensures Rank(Escalated(a)) <= Rank(Escalated(b))
  {
    hide Escalated;
    EscalatedIsMax(a);
    EscalatedIsMax(b);
  }

  lemma CoveredBoth(a: seq<Step>, b: seq<Step>)
    requires Covered(a, b) && Covered(b, a)
    ensures Escalated(a) == Escalated(b)
  {
    CoveredLe(a, b);
    CoveredLe(b, a);
    RankInjective(Escalated(a), Escalated(b));
  }

  lemma RankInjective(a: Decision, b: Decision)
    requires Rank(a) == Rank(b)
    ensures a == b
  {
  }

  method EscalateSteps(decision0: Decision, reasons0: seq<Reason>, more: seq<Step>, ghost done: seq<Step>)
    returns (decision: Decision, reasons: seq<Reason>)
    requires decision0 == Escalated(done) && reasons0 == ReasonsOf(done)
    ensures decision == Escalated(done + more) && reasons == ReasonsOf(done + more)
  {
    decision, reasons := decision0, reasons0;
    assert done + more[..0] == done;
    for i := 0 to |more|
      invariant decision == Escalated(done + more[..i])
      invariant reasons == ReasonsOf(done + more[..i])
    {
      assert done + more[..i + 1] == (done + more[..i]) + [more[i]];
      assert (done + more[..i + 1])[..|done| + i] == done + more[..i];
      FlatMapSnoc(ReasonOf, done + more[..i], more[i]);
      decision := Escalate(decision, more[i].decision);
      if more[i].reason.Some? {
        reasons := reasons + [more[i].reason.value];
      }
    }
    assert more[..|more|] == more;
  }

  // ---- severity ----

  predicate SchemeOk(wanted: string, scheme: string) {
    wanted == "" || EqualFold(scheme, wanted)
  }

  function ScoreOr0(best: Option<Observation>): (r: real) {
    if best.Some? && best.value.score.Some? then best.value.score.value else 0.0
  }

  /** The last observation of the highest non-negative score among the wanted scheme's. */
  function Top(sev: seq<Observation>, scheme: string): (best: Option<Observation>) {
    if sev == [] then None
    else
      var rest, s := Top(sev[..|sev| - 1], scheme), sev[|sev| - 1];
      if SchemeOk(scheme, s.scheme) && s.score.Some? && s.score.value >= ScoreOr0(rest) then Some(s) else rest
  }

  method TopSeverity(sev: seq<Observation>, scheme: string) returns (top: real, best: Option<Observation>)
    ensures best == Top(sev, scheme) && top == ScoreOr0(best)
  {
    top, best := 0.0, None;
    for i := 0 to |sev|
      invariant best == Top(sev[..i], scheme) && top == ScoreOr0(best)
    {
      var s := sev[i];
      assert sev[..i + 1][..i] == sev[..i];
      if scheme != "" && !EqualFold(s.scheme, scheme) {
        continue;
      }
      if s.score.None? {
        continue;
      }
      if s.score.value >= top {
        top, best := s.score.value, Some(s);
      }
    }
    assert sev[..|sev|] == sev;
  }

  /** The observation can be the top one for the wanted scheme. */
  predicate Counts(o: Observation, scheme: string) {
    SchemeOk(scheme, o.scheme) && o.score.Some? && o.score.value >= 0.0
  }

  lemma {:induction false} TopLaw(sev: seq<Observation>, scheme: string)
    ensures Top(sev, scheme).None? <==> forall o :: o in sev ==> !Counts(o, scheme)
    ensures Top(sev, scheme).Some? ==>
              var t := Top(sev, scheme).value;
              t in sev && Counts(t, scheme) && forall o :: o in sev && Counts(o, scheme) ==> o.score.value <= t.score.value
    decreases |sev|
  {
    hide SchemeOk;
    if sev != [] {
      var m := |sev| - 1;
      TopLaw(sev[..m], scheme);
      assert sev == sev[..m] + [sev[m]];
      assert forall o :: o in sev[..m] ==> o in sev;
      assert sev[m] in sev;
    }
  }

  // ---- rules ----

  predicate Matches(c: Criteria, f: Finding) {
    && (c.findingType != "" ==> f.typ == c.findingType)
    && (c.assessment.Some? ==> f.assessment.Some? && f.assessment.value.status == c.assessment.value)
    && var best := Top(f.severity, c.scheme);
    && (c.scheme != "" ==> best.Some?)
    && (c.minScore.Some? ==> best.Some? && best.value.score.Some? && ScoreOr0(best) >= c.minScore.value)
  }

  predicate TypeOk(c: Criteria, typ: string) {
    c.findingType == "" || typ == c.findingType
  }

  predicate AssessmentOk(c: Criteria, a: Option<Assessment>) {
    c.assessment.None? || (a.Some? && a.value.status == c.assessment.value)
  }

  predicate Enough(c: Criteria, o: Observation) {
    Counts(o, c.scheme) && (c.minScore.Some? ==> o.score.value >= c.minScore.value)
  }

  /** The severity criteria ask for one observation that counts and scores enough. */
  ghost predicate SeverityOk(c: Criteria, sev: seq<Observation>) {
    (c.scheme == "" && c.minScore.None?) || exists o :: o in sev && Enough(c, o)
  }

  lemma MatchesIff(c: Criteria, f: Finding)
    ensures Matches(c, f) <==> TypeOk(c, f.typ) && AssessmentOk(c, f.assessment) && SeverityOk(c, f.severity)
  {
    hide SchemeOk, Top;
    TopLaw(f.severity, c.scheme);
    if Top(f.severity, c.scheme).Some? {
      var t := Top(f.severity, c.scheme).value;
      if SeverityOk(c, f.severity) && !(c.scheme == "" && c.minScore.None?) {
        var o :| o in f.severity && Enough(c, o);
        assert o.score.value <= t.score.value;
      }
      assert Enough(c, t) ==> SeverityOk(c, f.severity);
    }
  }

  /** The first rule that matches. */
  function FirstMatch(rules: seq<Rule>, f: Finding): (r: Option<Rule>) {
    if rules == [] then None
    else if Matches(rules[0].criteria, f) then Some(rules[0])
    else FirstMatch(rules[1..], f)
  }

  function RuleStep(rules: seq<Rule>, resultId: string, f: Finding): (r: seq<Step>) {
    match FirstMatch(rules, f)
    case None => []
    case Some(rule) => [Step(rule.decision, Some(Reason(rule.reasonCode, resultId, f.id)))]
  }

  method MatchFinding(rules: seq<Rule>, resultId: string, f: Finding) returns (steps: seq<Step>)
    ensures steps == RuleStep(rules, resultId, f)
  {
    hide Top;
    for i := 0 to |rules|
      invariant FirstMatch(rules, f) == FirstMatch(rules[i..], f)
    {
      var c := rules[i].criteria;
      assert rules[i..][1..] == rules[i + 1..];
      var matched := WhenMatches(c, f);
      if !matched {
        continue;
      }
      return [Step(rules[i].decision, Some(Reason(rules[i].reasonCode, resultId, f.id)))];
    }
    return [];
  }

  method WhenMatches(c: Criteria, f: Finding) returns (r: bool)
    ensures r == Matches(c, f)
  {
    if c.findingType != "" && f.typ != c.findingType {
      return false;
    }
    if c.assessment.Some? {
      if f.assessment.None? || f.assessment.value.status != c.assessment.value {
        return false;
      }
    }
    var score, best := TopSeverity(f.severity, c.scheme);
    if c.scheme != "" && best.None? {
      return false;
    }
    if c.minScore.Some? {
      if best.None? || best.value.score.None? || score < c.minScore.value {
        return false;
      }
    }
    return true;
  }

  // ---- evaluating raw results ----

  function DecisionOr(raw: Option<Decision>, fallback: Decision): (r: Decision) {
    if raw.None? then fallback else raw.value
  }

  /** Steps from how a provider ran: timeout, error or missing verdict. */
  function OutcomeSteps(spec: Spec): ProviderResult -> seq<Step> {
    (r: ProviderResult) =>
      if r.status == TimedOut then
        [Step(DecisionOr(spec.onTimeout, Review), Some(Reason("required_provider_timeout", r.id, "")))]
      else if r.status != Completed then
        [Step(DecisionOr(spec.onError, Review), Some(Reason("provider_error", r.id, "")))]
      else if r.verdict.None? then
        [Step(DecisionOr(spec.onMissingVerdict, Review), Some(Reason("missing_verdict", r.id, "")))]
      else []
  }

  /** The baseline from the verdict map. */
  function VerdictSteps(spec: Spec): ProviderResult -> seq<Step> {
    (r: ProviderResult) =>
      if r.status == Completed && r.verdict.Some? && r.verdict.value in spec.verdicts
      then [Step(spec.verdicts[r.verdict.value], None)] else []
  }

  predicate Walked(r: ProviderResult) {
    r.status == Completed && r.verdict.Some? && (r.verdict.value == Warn || r.verdict.value == Fail)
  }

  function RuleStepFor(spec: Spec, resultId: string): Finding -> seq<Step> {
    (f: Finding) => RuleStep(spec.findings, resultId, f)
  }

  function FindingSteps(spec: Spec): ProviderResult -> seq<Step> {
    (r: ProviderResult) => if Walked(r) then FlatMap(RuleStepFor(spec, r.id), r.findings) else []
  }

  function RawStepsOf(spec: Spec): ProviderResult -> seq<Step> {
    (r: ProviderResult) => OutcomeSteps(spec)(r) + VerdictSteps(spec)(r) + FindingSteps(spec)(r)
  }

  function RawSteps(spec: Spec, results: seq<ProviderResult>): (r: seq<Step>) {
    FlatMap(RawStepsOf(spec), results)
  }

  function RawDecision(spec: Spec, results: seq<ProviderResult>): (d: Decision) {
    Escalated(RawSteps(spec, results))
  }

  function ResultId(r: ProviderResult): (id: string) {
    r.id
  }

  function Packaged(results: seq<ProviderResult>, steps: seq<Step>): (d: PolicyDecision) {
    PolicyDecision(Escalated(steps), Map(ResultId, results), ReasonsOf(steps), Escalated(steps) == Defer)
  }

  method CollectIds(results: seq<ProviderResult>) returns (ids: seq<string>)
    ensures ids == Map(ResultId, results)
  {
    ids := [];
    for i := 0 to |results|
      invariant ids == Map(ResultId, results[..i])
    {
      ids := ids + [results[i].id];
      assert results[..i + 1] == results[..i] + [results[i]];
    }
    assert results[..|results|] == results;
  }

  method EvaluateDoc(spec: Spec, results: seq<ProviderResult>) returns (dec: PolicyDecision)
    ensures dec == Packaged(results, RawSteps(spec, results))
  {
    hide Escalated;
    var ids := CollectIds(results);
    var decision, reasons := Allow, [];
    ghost var done: seq<Step> := [];
    assert Escalated([]) == Allow by { NothingEscalated(); }
    for i := 0 to |results|
      invariant done == RawSteps(spec, results[..i])
      invariant decision == Escalated(done) && reasons == ReasonsOf(done)
    {
      var steps := StepsOfResult(spec, results[i]);
      assert results[..i + 1] == results[..i] + [results[i]];
      FlatMapSnoc(RawStepsOf(spec), results[..i], results[i]);
      decision, reasons := EscalateSteps(decision, reasons, steps, done);
      done := done + steps;
    }
    assert results[..|results|] == results;
    dec := PolicyDecision(decision, ids, reasons, decision == Defer);
  }

  lemma NothingEscalated()
    ensures Escalated([]) == Allow
  {
  }

  /** The body of the loop over results: what one provider result contributes. */
  method StepsOfResult(spec: Spec, r: ProviderResult) returns (steps: seq<Step>)
    ensures steps == RawStepsOf(spec)(r)
  {
    ghost var o, v, f := OutcomeSteps(spec)(r), VerdictSteps(spec)(r), FindingSteps(spec)(r);
    if r.status != Completed {
      assert v == [] && f == [];
      if r.status == TimedOut {
        steps := [Step(DecisionOr(spec.onTimeout, Review), Some(Reason("required_provider_timeout", r.id, "")))];
      } else {
        steps := [Step(DecisionOr(spec.onError, Review), Some(Reason("provider_error", r.id, "")))];
      }
      assert steps == o;
      return;
    }
    if r.verdict.None? {
      steps := [Step(DecisionOr(spec.onMissingVerdict, Review), Some(Reason("missing_verdict", r.id, "")))];
      assert o == steps && v == [] && f == [];
      return;
    }
    steps := [];
    if r.verdict.value in spec.verdicts {
      steps := [Step(spec.verdicts[r.verdict.value], None)];
    }
    assert o == [] && v == steps;
    if r.verdict.value == Warn || r.verdict.value == Fail {
      var more := WalkFindings(spec, r.id, r.findings);
      steps := steps + more;
    }
  }

  method WalkFindings(spec: Spec, resultId: string, findings: seq<Finding>) returns (steps: seq<Step>)
    ensures steps == FlatMap(RuleStepFor(spec, resultId), findings)
  {
    hide RuleStep;
    steps := [];
    for i := 0 to |findings|
      invariant steps == FlatMap(RuleStepFor(spec, resultId), findings[..i])
    {
      var more := MatchFinding(spec.findings, resultId, findings[i]);
      assert findings[..i + 1] == findings[..i] + [findings[i]];
      FlatMapSnoc(RuleStepFor(spec, resultId), findings[..i], findings[i]);
      steps := steps + more;
    }
    assert findings[..|findings|] == findings;
  }

  // ---- evaluating the merged view ----

  function PrimarySource(mf: MergedFinding): (r: FindingSource) {
    if mf.sources == [] then FindingSource("", "none", "none") else mf.sources[0]
  }

  /** The merged finding as the rule matcher sees it. */
  function Synthetic(mf: MergedFinding): (f: Finding) {
    Finding(PrimarySource(mf).findingId, mf.typ, "", mf.identifiers, [], mf.severity, mf.assessment)
  }

  function ConflictSteps(spec: Spec, mf: MergedFinding): (r: seq<Step>) {
    if mf.conflicts == [] then []
    else [Step(DecisionOr(spec.mergeConflicts, Review),
               Some(Reason("assessment_conflict", PrimarySource(mf).resultId, PrimarySource(mf).findingId)))]
  }

  function MergedStepsOf(spec: Spec): MergedFinding -> seq<Step> {
    (mf: MergedFinding) =>
      ConflictSteps(spec, mf) + RuleStep(spec.findings, PrimarySource(mf).resultId, Synthetic(mf))
  }

  function MergedSteps(spec: Spec, results: seq<ProviderResult>, merged: seq<MergedFinding>): (r: seq<Step>) {
    FlatMap(OutcomeSteps(spec), results) + FlatMap(VerdictSteps(spec), results) + FlatMap(MergedStepsOf(spec), merged)
  }

  function MergedDecision(spec: Spec, results: seq<ProviderResult>, merged: seq<MergedFinding>): (d: Decision) {
    Escalated(MergedSteps(spec, results, merged))
  }

  method OutcomePhase(spec: Spec, results: seq<ProviderResult>) returns (steps: seq<Step>)
    ensures steps == FlatMap(OutcomeSteps(spec), results)
  {
    hide FlatMap;
    steps := [];
    FlatMapNil(OutcomeSteps(spec));
    for i := 0 to |results|
      invariant steps == FlatMap(OutcomeSteps(spec), results[..i])
    {
      var r := results[i];
      assert results[..i + 1] == results[..i] + [r];
      FlatMapSnoc(OutcomeSteps(spec), results[..i], r);
      var more: seq<Step> := [];
      if r.status == Completed {
        if r.verdict.None? {
          more := [Step(DecisionOr(spec.onMissingVerdict, Review), Some(Reason("missing_verdict", r.id, "")))];
        }
      } else if r.status == TimedOut {
        more := [Step(DecisionOr(spec.onTimeout, Review), Some(Reason("required_provider_timeout", r.id, "")))];
      } else {
        more := [Step(DecisionOr(spec.onError, Review), Some(Reason("provider_error", r.id, "")))];
      }
      assert more == OutcomeSteps(spec)(r);
      steps := steps + more;
    }
    assert results[..|results|] == results;
  }

  method VerdictPhase(spec: Spec, results: seq<ProviderResult>) returns (steps: seq<Step>)
    ensures steps == FlatMap(VerdictSteps(spec), results)
  {
    hide FlatMap;
    steps := [];
    FlatMapNil(VerdictSteps(spec));
    for i := 0 to |results|
      invariant steps == FlatMap(VerdictSteps(spec), results[..i])
    {
      var r := results[i];
      assert results[..i + 1] == results[..i] + [r];
      FlatMapSnoc(VerdictSteps(spec), results[..i], r);
      var more: seq<Step> := [];
      if r.status == Completed && r.verdict.Some? && r.verdict.value in spec.verdicts {
        more := [Step(spec.verdicts[r.verdict.value], None)];
      }
      assert more == VerdictSteps(spec)(r);
      steps := steps + more;
    }
    assert results[..|results|] == results;
  }

  lemma FlatMapNil(f: ProviderResult -> seq<Step>)
    ensures FlatMap(f, []) == []
  {
  }

  method FindingPhase(spec: Spec, merged: seq<MergedFinding>) returns (steps: seq<Step>)
    ensures steps == FlatMap(MergedStepsOf(spec), merged)
  {
    hide RuleStep;
    steps := [];
    for i := 0 to |merged|
      invariant steps == FlatMap(MergedStepsOf(spec), merged[..i])
    {
      var mf := merged[i];
      var primary := PrimarySource(mf);
      assert merged[..i + 1] == merged[..i] + [mf];
      FlatMapSnoc(MergedStepsOf(spec), merged[..i], mf);
      var conflict: seq<Step> := [];
      if |mf.conflicts| > 0 {
        conflict := [Step(DecisionOr(spec.mergeConflicts, Review),
                          Some(Reason("assessment_conflict", primary.resultId, primary.findingId)))];
      }
      var more := MatchFinding(spec.findings, primary.resultId, Synthetic(mf));
      steps := steps + (conflict + more);
    }
    assert merged[..|merged|] == merged;
  }

  method EvaluateMergedDoc(spec: Spec, results: seq<ProviderResult>, merged: seq<MergedFinding>)
    returns (dec: PolicyDecision)
    ensures dec == Packaged(results, MergedSteps(spec, results, merged))
  {
    hide Escalated, FlatMap;
    var ids := CollectIds(results);
    NothingEscalated();
    var outcome := OutcomePhase(spec, results);
    var decision, reasons := EscalateSteps(Allow, [], outcome, []) by { NoReasons(); }
    assert [] + outcome == outcome;
    var verdict := VerdictPhase(spec, results);
    decision, reasons := EscalateSteps(decision, reasons, verdict, outcome);
    var finding := FindingPhase(spec, merged);
    decision, reasons := EscalateSteps(decision, reasons, finding, outcome + verdict);
    dec := PolicyDecision(decision, ids, reasons, decision == Defer);
  }

  lemma NoReasons()
    ensures ReasonsOf([]) == []
  {
  }
}
