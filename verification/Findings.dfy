/** Provider results and findings, as far as aggregation and policy read them. */
module Findings {
  import opened Seqs

  /** `OtherStatus` stands for any string outside the five named statuses. */
  datatype AssessmentStatus =
    | Affected | NotAffected | Fixed | UnderInvestigation | Unknown | OtherStatus(name: string)

  datatype Assessment = Assessment(status: AssessmentStatus, justification: string, detail: string)

  /** One severity observation; a missing score is `None`. Scores are reals. */
  datatype Observation = Observation(
    scheme: string, version: string, score: Option<real>,
    level: string, vector: string, source: string, derivation: Option<string>)

  datatype Identifier = Identifier(scheme: string, value: string)

  /** `subjects` holds the optional PURL of each subject, in order. */
  datatype Finding = Finding(
    id: string, typ: string, title: string, identifiers: seq<Identifier>,
    subjects: seq<Option<string>>, severity: seq<Observation>, assessment: Option<Assessment>)

  /** Every status other than completed and timeout takes the error path. */
  datatype ExecutionStatus = Completed | TimedOut | Errored

  datatype Verdict = Pass | Warn | Fail | UnknownVerdict | OtherVerdict(name: string)

  datatype ProviderResult = ProviderResult(
    id: string, providerId: string, status: ExecutionStatus,
    verdict: Option<Verdict>, findings: seq<Finding>)

  /** One observation of a finding: the result that carries it and the finding. */
  datatype Source = Source(result: ProviderResult, finding: Finding)

  datatype FindingSource = FindingSource(providerId: string, resultId: string, findingId: string)

  datatype MergedFinding = MergedFinding(
    key: string, typ: string, title: string, identifiers: seq<Identifier>,
    sources: seq<FindingSource>, severity: seq<Observation>, assessment: Option<Assessment>,
    strategy: string, sourceCount: nat, conflicts: seq<string>)
}
