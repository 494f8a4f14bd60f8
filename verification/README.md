# scintx verification

A Dafny model of the parts of scintx that are hard to get right, with proofs of what they promise.
scintx is a gateway that sends software artifacts to several assessment providers, merges their
findings, lets a policy decide, and keeps submissions, results and decisions in a store.

`dafny verify dfyconfig.toml` checks everything. The model has four parts.

**Merge and policy** (`Findings`, `Correlation`, `CorrelationLaws`, `Assessments`, `Severity`,
`SeverityLaws`, `Aggregator`, `Policy`, `PolicyLaws`, `MergePolicy`, `ProviderOrder`). The aggregator
groups findings by correlation key and combines each group; the YAML engine decides from the raw results
or from the merged view. The central results: the merged view gives the raw decision for every
severest-first policy exactly when the two sets of findings answer each other (`AgreementIff`),
homogeneous groups under the maximum meet that condition, and merging never weakens a decision when
rules ask for `affected`. The order of provider results does not matter when, for each key, the results
agree on the type of their first finding with it; that is exactly when the types of the groups do not
depend on the order (`TypesIgnoreOrderIff`), and without it the decision can
(`MixedTypesDependOnOrder`). What each operation yields is also said on the findings and on the fields
of the policy: who shares a key (`SameKeyIff`), what a consensus score is (`ConsensusFits`), and which
decision and reasons come out (`RawEvaluationLaw`, `MergedEvaluationLaw`).

**The gateway in local mode** (`LocalPool`, `Dispatcher`, `MemoryStore`, `Gateway`, `GatewayTokens`,
`GatewayOwners`, `GatewayKeys`, `GatewayDecisions`, `GatewayTheorems`, `GatewayValues`, `GatewayTraces`,
`GatewayServing`). Create, resume and adjudicate handlers, the bounded pool and its workers, `Process`
and shutdown are one step machine whose steps are the atomic actions of the code. `GatewayTheorems` and
`GatewayValues` state what holds in every state that any interleaving reaches, `GatewayTraces` what
every run stores of what was asked and done, and `GatewayServing` what a handler or worker achieves from
any reachable state when nobody interferes.

**The leased job queue and the SQL create** (`JobQueue`, `LeaseProtocol`, `QueueLaws`, `SqlCreate`). Any
number of workers claim, heartbeat, lose and complete leases under one monotone clock; transactions of
the SQL store interleave statement by statement.

**Parsers and printers** (`Purl`, `PurlLaws`, `VscodePurl`, `Signature`). Round trips with their exact
conditions, what every spelling is read as, and exactly which signed requests are accepted.

Code that changes state is written as classes and methods with loops, each proved equal to a function on
values; concurrency is a machine over those functions. `Seqs` and `Strings` hold shared facts.

Hash, MAC, base64, query unescaping and the rare escapes of quoted strings are function parameters, with
injectivity or invertibility required only where a result needs it. Clock readings, fresh ids and the
outcomes of providers and policies are parameters of the steps. Scores and weights are reals.

## Where the code and its documentation differ

The model follows the code.

- `affected` wins over `not_affected` (internal/scintx/aggregator.go:315); docs/ARCHITECTURE.md:424 and
  api/merged.go:47 describe `under_investigation` for that conflict.
- Two findings share a key when their whole CVE sets are equal (internal/scintx/aggregator.go:159), not
  when they share one CVE as the comment at internal/scintx/aggregator.go:141 says. See
  `SharedCveMayNotCorrelate`.
- The merged evaluation walks the finding rules whatever the verdict
  (extensions/policies/yaml/evaluate.go:315), the raw one only for warn and fail. See
  `PassVerdictDiffers`.
- On a key that points to a missing submission the SQL store reports a conflict or an error
  (internal/store/sql_ops.go:61-68) while the memory store binds the key anew
  (internal/scintx/memory_store.go:81). See `AloneAgreesIff`.
- A signature value that is a lone colon passes the check for both colons, and taking off the two
  (internal/auth/sign.go:143) then panics. See `PanicsIff`.
- A signature covers a digest only of a non-empty body, and the digest is compared only with a non-empty
  body (internal/auth/sign.go:39, internal/auth/sign.go:159). See `AcceptedIffBodyFits`.
- A worker beyond the attempt limit writes the failed status from the submission it fetched before, so a
  completion that arrives in between is lost (internal/workers/queue.go:153-168). See
  `LateCompletionLost`.

## Model

| member | source | states |
|---|---|---|
| `Correlation.AnchorIdentifiers` | internal/scintx/aggregator.go:144-167 | the loop yields the sorted distinct normalized CVEs, or all normalized ids when there is none |
| `Correlation.CanonicalIdentifiers` | internal/scintx/aggregator.go:169-187 | the loop yields the canonical normalized ids |
| `Correlation.CanonicalNormsLaw` | internal/scintx/aggregator.go:169-187 | canonical ids are exactly the normalized non-empty ids, without repetition, CVEs first, both parts sorted |
| `Correlation.CorrelationKey` | internal/scintx/aggregator.go:120-136 | the computed key is the key of the specification |
| `Correlation.SameKeyIffSameCves` | internal/scintx/aggregator.go:120-167 | for findings with CVEs and the same subject: equal keys if and only if equal CVE sets |
| `Correlation.CommaInCveCollides` | internal/scintx/aggregator.go:120-136 | one id "CVE-1,CVE-2" and the two ids get the same key for different CVE sets |
| `Correlation.SharedCveMayNotCorrelate` | internal/scintx/aggregator.go:138-163 | two findings that share one CVE and have different keys |
| `CorrelationLaws.SameKeyIff` | internal/scintx/aggregator.go:120-167 | under an injective hash two findings share a key if and only if both cite ids and agree on the first non-empty subject and on the set of anchors, or both are secrets without ids and agree on the subject, or both are others without ids and agree on provider and finding id |
| `CorrelationLaws.SubjectIff` | internal/scintx/aggregator.go:190-197 | the subject is the first non-empty PURL, or empty when there is none |
| `CorrelationLaws.AnchorsIff` | internal/scintx/aggregator.go:144-167 | the anchors are exactly the normalized CVEs or, without any, all normalized ids |
| `CorrelationLaws.NormLaw` | internal/scintx/aggregator.go:148-151 | a normal form is the id without the white space around it, in capitals |
| `CorrelationLaws.BarInSubjectCollides` | internal/scintx/aggregator.go:120-136 | a bar in a subject can make two different findings share a key |
| `CorrelationLaws.ProviderNameCollides` | internal/scintx/aggregator.go:120-136 | so can a provider that is named like a key prefix |
| `Assessments.ReconcileAssessment` | internal/scintx/aggregator.go:255-344 | the loops compute the reconciled assessment and the conflict list; the branch with some affected and all not affected is unreachable |
| `Assessments.JoinConcat` | internal/scintx/aggregator.go:255-344 | the level of a concatenation is the maximum of the levels |
| `Assessments.ReconciliationIsJoin` | internal/scintx/aggregator.go:255-344 | the reconciled status of a concatenation is the lattice join of the two statuses, and no status only when no source has one |
| `Assessments.ReconciledIff` | internal/scintx/aggregator.go:255-344 | affected if and only if some source says so, not_affected if and only if every assessment does, else under investigation, none without assessments, with the words of the first source that counts |
| `Assessments.ReconciliationIgnoresOrder` | internal/scintx/aggregator.go:255-344 | order and repetition of sources change neither status nor the presence of conflicts |
| `Assessments.ConflictsExactly` | internal/scintx/aggregator.go:301-330 | the conflicts are exactly the results that say not_affected when some source says affected |
| `Assessments.ConflictIff` | internal/scintx/aggregator.go:301-330 | there is a conflict if and only if one source says affected and one says not_affected |
| `Severity.ComputeSeverity` | internal/scintx/aggregator.go:360-394 | grouping and merging by scheme computes the consensus of the specification |
| `Severity.MergeSchemeObservations` | internal/scintx/aggregator.go:396-462 | the weighted, average and maximum loops compute the merged observation of one scheme |
| `Severity.MaxComesFromSource` | internal/scintx/aggregator.go:396-462 | under the maximum every consensus observation is an observation of a source |
| `Severity.MaxReachesSource` | internal/scintx/aggregator.go:396-462 | under the maximum every scored observation is matched or exceeded in its scheme |
| `Severity.ConsensusScoreIgnoresOrder` | internal/scintx/aggregator.go:396-462 | the merged score of one scheme is the same for every permutation, for all strategies |
| `Severity.ConsensusIgnoresOrder` | internal/scintx/aggregator.go:360-462 | every permutation of the sources has the same consensus score for each scheme and version, for all strategies |
| `SeverityLaws.ConsensusFits` | internal/scintx/aggregator.go:360-462 | every consensus observation: a score if and only if its scheme and version has one; the mean times the number of scores is their sum; the trust-weighted score times the total weight is the weighted sum, or zero without a positive total |
| `SeverityLaws.MeanWithin` | internal/scintx/aggregator.go:407-412 | a mean lies within any bounds on the scores |
| `SeverityLaws.TrustedWithin` | internal/scintx/aggregator.go:414-423 | so does a trust-weighted score when no weight is negative and the total is positive |
| `SeverityLaws.EqualWeightsGiveMean` | internal/scintx/aggregator.go:406-423 | equal positive weights give the mean |
| `SeverityLaws.ConsensusSchemes` | internal/scintx/aggregator.go:360-394 | one observation for each scheme and version that a source observes, and no other |
| `SeverityLaws.MergedObservation` | internal/scintx/aggregator.go:396-462 | without scores the first observation stands, under the maximum the first highest one, otherwise a new one with level, scheme and version of the first scored and the name of the strategy |
| `Aggregator.MergeIdentifiers` | internal/scintx/aggregator.go:466-488 | the two loops compute the merged identifiers |
| `Aggregator.MergedIdentifiersLaw` | internal/scintx/aggregator.go:466-488 | merged identifiers are the duplicate-free normalized union, each taken from a source, CVEs first, both parts sorted |
| `Aggregator.BuildMergedFinding` | internal/scintx/aggregator.go:205-244 | the merged finding of a group |
| `Aggregator.LongestTitleLaw` | internal/scintx/aggregator.go:205-244 | the title is one of the group's titles and none is longer |
| `Aggregator.Aggregate` | internal/scintx/aggregator.go:47-89 | the grouping loops compute the aggregated list |
| `Aggregator.AggregateIsPartition` | internal/scintx/aggregator.go:47-89 | every finding of every completed result is in exactly one group, the one of its key; no group is empty |
| `Aggregator.GroupsInFirstAppearanceOrder` | internal/scintx/aggregator.go:47-89 | groups come in the order in which their keys first appear |
| `Aggregator.AttributionComplete` | internal/scintx/aggregator.go:205-244 | source references of all merged findings together are the references of all findings, and the counts add up |
| `Aggregator.SourcesExactly` | internal/scintx/aggregator.go:47-70 | the observations are exactly the findings of the completed results |
| `Aggregator.MergedSays` | internal/scintx/aggregator.go:205-244 | each merged finding is made of exactly the observations with its key, in order: type of the first, first longest title, one reference each, their consensus, reconciliation and conflicts |
| `Policy.EscalatedIsMax` | extensions/policies/yaml/evaluate.go:207-215 | escalation ends at the highest-ranked step and at a decision that some step names |
| `Policy.TopSeverity` | extensions/policies/yaml/evaluate.go:173-190 | the loop finds the top score of a scheme |
| `Policy.TopLaw` | extensions/policies/yaml/evaluate.go:173-190 | the top observation is one of the list and none in scope scores higher |
| `Policy.WhenMatches` | extensions/policies/yaml/evaluate.go:151-171 | the early returns decide the match of the specification |
| `Policy.MatchesIff` | extensions/policies/yaml/evaluate.go:151-171 | a finding matches if and only if type, assessment and severity each do |
| `Policy.MatchFinding` | extensions/policies/yaml/evaluate.go:128-149 | the first matching rule decides |
| `Policy.EvaluateDoc` | extensions/policies/yaml/evaluate.go:35-121 | the three phases over raw results escalate exactly the specified steps |
| `Policy.EvaluateMergedDoc` | extensions/policies/yaml/evaluate.go:225-348 | the same for results plus merged findings, conflicts included |
| `PolicyLaws.RawEvaluationLaw` | extensions/policies/yaml/evaluate.go:35-121 | for every policy and result list: the decision ranks at least as high as everything called for (timeouts, errors and missing verdicts by their settings or review, mapped verdicts, first matching rules under warn and fail), is allow or one of these, and the reasons are exactly theirs |
| `PolicyLaws.MergedEvaluationLaw` | extensions/policies/yaml/evaluate.go:225-348 | the same of the merged evaluation, with conflicts by their setting or review and the first rule that matches each merged finding |
| `PolicyLaws.RawStepIff` | extensions/policies/yaml/evaluate.go:60-121 | the raw evaluation escalates to a decision for a reason if and only if a result or one of its findings calls for it |
| `PolicyLaws.MergedStepIff` | extensions/policies/yaml/evaluate.go:255-348 | so does the merged evaluation, for results, conflicts and merged findings |
| `PolicyLaws.FirstMatchIff` | extensions/policies/yaml/evaluate.go:128-149 | the matching rule is the first one that matches, and there is none if and only if no rule matches |
| `PolicyLaws.DecisionOrder` | extensions/policies/yaml/evaluate.go:207-215 | allow, defer, review and deny rank in this order |
| `MergePolicy.AgreementIff` | extensions/policies/yaml/evaluate.go:35-348 | merged and raw decision agree for every severest-first policy if and only if there are no conflicts and the merged and walked findings answer each other |
| `MergePolicy.GroupMatchesIff` | internal/scintx/aggregator.go:205-462 | under the maximum a homogeneous group matches a rule if and only if some source does |
| `MergePolicy.DeduplicationPreservesDecision` | extensions/policies/yaml/evaluate.go:225-348 | aggregating homogeneous groups under the maximum keeps the decision, for every result list and severest-first policy |
| `MergePolicy.MergingNeverWeakens` | extensions/policies/yaml/evaluate.go:282-325 | when every finding rule asks for affected the merged decision ranks at least as high, with any mix of assessments |
| `MergePolicy.PassVerdictDiffers` | extensions/policies/yaml/evaluate.go:310-325 | a finding under a pass verdict that only the merged evaluation sees |
| `ProviderOrder.TypesIgnoreOrderIff` | internal/scintx/aggregator.go:47-89 | every group has the same type in every order of the results if and only if the results agree on the type of each key's first finding |
| `ProviderOrder.ProviderOrderIrrelevant` | internal/scintx/memory_store.go:205-216 | under that condition every permutation of the results gives the same merged decision, for all strategies and policies |
| `ProviderOrder.DecideAlikeIff` | extensions/policies/yaml/evaluate.go:225-348 | two merged views of reordered results decide alike for every severest-first policy if and only if they answer each other and agree on having conflicts |
| `ProviderOrder.MixedTypesDependOnOrder` | internal/scintx/aggregator.go:205-232 | two providers that cite one CVE under different types: swapping their results changes the decision |
| `LocalPool.SlotConservation` | internal/workers/dispatcher.go:250-421 | in every run the semaphore count is open tokens plus queued plus running jobs, at most the limit |
| `LocalPool.OpenTokenCommits` | internal/workers/dispatcher.go:332-367 | a commit on an open token of an open pool succeeds: the queue has room |
| `LocalPool.PoolAnswers` | internal/workers/dispatcher.go:310-421 | in every run a reservation succeeds if and only if the pool was not closed and open tokens, queued and running jobs are below the limit, a commit if and only if its token is open and the pool not closed, and exactly then the job is appended |
| `LocalPool.FinishNeverBlocks` | internal/workers/dispatcher.go:287-302 | a finishing worker always finds a slot to give back |
| `LocalPool.ClosedIsFinal` | internal/workers/dispatcher.go:332-421 | after close nothing is sent to the queue and no token is opened |
| `LocalPool.RunExactlyOnce` | internal/workers/dispatcher.go:287-302 | in every run a committed job is handed out at most once, in commit order, and its process function ends at most once |
| `LocalPool.DrainedRanEverything` | internal/workers/dispatcher.go:287-302 | when a run has drained the closed pool, every committed job was started and ended exactly once, and the count is zero if and only if every token was committed or released |
| `LocalPool.DrainProgress` | internal/workers/dispatcher.go:402-421 | a closed pool with work left always has a worker step that shrinks the backlog |
| `LocalPool.WorkersDrain` | internal/workers/dispatcher.go:402-421 | from every closed state worker steps alone lead to a drained pool |
| `LocalPool.DrainBounded` | internal/workers/dispatcher.go:287-302 | no interleaving of workers takes more steps than the backlog, so every drain ends |
| `Dispatcher.Pool.constructor` | internal/workers/dispatcher.go:250-285 | the worker count is clamped to between one and the slot limit |
| `Dispatcher.Pool.Reserve` | internal/workers/dispatcher.go:310-330 | takes a slot and issues a token, or reports closed, backpressure or a cancelled context |
| `Dispatcher.Pool.Receive` | internal/workers/dispatcher.go:287-302 | hands the oldest queued job to a worker |
| `Dispatcher.Pool.Finish` | internal/workers/dispatcher.go:287-302 | gives the slot back, also after a panic |
| `Dispatcher.Pool.Close` | internal/workers/dispatcher.go:410-421 | closes once; later calls change nothing |
| `Dispatcher.AdmitToken.Commit` | internal/workers/dispatcher.go:332-367 | a token is committed at most once; every failure releases it |
| `Dispatcher.AdmitToken.Release` | internal/workers/dispatcher.go:369-388 | releasing is idempotent and never undoes a commit |
| `MemoryStore.Memory.PutSubmissionIdempotent` | internal/scintx/memory_store.go:70-98 | the in-place update is the specified one, including the rebinding of a dangling key |
| `MemoryStore.Memory.AbandonSubmission` | internal/scintx/memory_store.go:113-131 | drops only an accepted submission, and its key only when it is bound to it |
| `MemoryStore.Memory.ClaimResume` | internal/scintx/memory_store.go:133-146 | claims only a deferred submission |
| `MemoryStore.Memory.ReleaseResume` | internal/scintx/memory_store.go:148-163 | reverts only a running submission |
| `MemoryStore.Memory.PutDecision` | internal/scintx/memory_store.go:241-250 | stores under the decision's id |
| `MemoryStore.Memory.GetResultsForSubmission` | internal/scintx/memory_store.go:205-216 | returns each stored result of the submission once, in some order |
| `MemoryStore.PutIdempotentLaw` | internal/scintx/memory_store.go:70-98 | a bound key never creates and changes nothing; it conflicts if and only if the fingerprints clash |
| `MemoryStore.AbandonUndoesCreate` | internal/scintx/memory_store.go:70-131 | abandoning right after a create restores the store |
| `MemoryStore.AbandonLaw` | internal/scintx/memory_store.go:113-131 | drops a submission if and only if it is stored and accepted, its key if and only if bound to it, and nothing else |
| `MemoryStore.ReleaseUndoesClaim` | internal/scintx/memory_store.go:133-163 | releasing right after a claim restores the status |
| `GatewayTheorems.ExactlyOneHolder` | internal/server/server.go:274-331 | in every reachable state an accepted or running submission has exactly one holder (create handler, resume handler, queue entry or run) and any other has none |
| `GatewayTheorems.TerminalIsFinal` | internal/scintx/orchestrator.go:97-363 | completed and failed submissions keep their status in every continuation of every run |
| `GatewayTheorems.UndoIsSafe` | internal/server/server.go:418-449 | when a resume handler is about to release its claim, nobody else holds the submission, and it becomes deferred |
| `GatewayTheorems.GatewaySlots` | internal/workers/dispatcher.go:310-421 | slots are conserved under all handlers and workers, and a handler's commit on an open pool succeeds |
| `GatewayTheorems.SlotsReturn` | internal/workers/dispatcher.go:310-421 | in every reachable state the count is the handlers with an open token plus queued plus running jobs, and zero if and only if there are none, so it returns to zero when handlers are done and workers have drained |
| `GatewayTheorems.IdempotentCreate` | internal/server/server.go:274-331 | the history of every key is legal, the store binds what the history says, and no key dangles |
| `GatewayTheorems.SameKeyAnswers` | internal/scintx/memory_store.go:70-98 | between abandons every request with the key conflicts if and only if fingerprints clash and is otherwise answered with the created submission |
| `GatewayTheorems.AcceptedIsKept` | internal/server/server.go:274-331 | while the pool is open no submission answered with 202 is missing; a committed one never is |
| `GatewayTheorems.KeptIffNoCreator` | internal/server/server.go:314-331 | a stored submission is kept in every continuation, shutdown included, if and only if no create handler still has to commit it |
| `GatewayTheorems.AcceptedCanBeLost` | internal/server/server.go:308-316 | a run in which a replay is answered with 202 and shutdown then deletes the submission |
| `GatewayTheorems.DecisionLinks` | internal/scintx/orchestrator.go:245-363 | decision_produced points to a stored decision that leads to a machine decision; findings_only and all_providers_ineligible point to none |
| `GatewayValues.DecisionValues` | internal/scintx/orchestrator.go:264-363 | in every reachable state the decision a submission names is stored and on that submission; a deferred one names a machine decision to defer, a completed one a decision that does not defer, and then it is decision_produced |
| `GatewayValues.ConsumerDecides` | internal/scintx/orchestrator.go:395-488 | in every reachable state a consumer decision allows or denies and resolves a stored decision on the same submission that does not defer |
| `GatewayValues.ClaimedKept` | internal/server/server.go:418-449 | no step but its claimant's changes a submission that is claimed for resume |
| `GatewayValues.StepKeepsValues` | internal/scintx/orchestrator.go:97-488 | every step keeps the values of decisions in agreement with statuses and handlers |
| `GatewayTraces.AdjudicatedAsAsked` | internal/scintx/orchestrator.go:395-488 | in every run the decision of an adjudication has the value and the submission that its request named, and keeps them |
| `GatewayTraces.DecidedAsEvaluated` | internal/scintx/orchestrator.go:264-300 | in every run the decision of an evaluation has the evaluated value, is on the run's submission and has no prior |
| `GatewayTraces.FinalWriteSays` | internal/scintx/orchestrator.go:97-363 | in every run the final write of a worker stores the status, completion and decision of the last step of that run, with the results the run stored, in order |
| `GatewayTraces.FinishAfterWrite` | internal/scintx/orchestrator.go:97-363 | in every run a worker is done with a job only after the final write of its submission |
| `GatewayTraces.CreatedAsAsked` | internal/server/server.go:228-331 | in every run every stored submission was created for a request with its policy and providers |
| `GatewayServing.CreateServed` | internal/server/server.go:228-331 | from every reachable state with room and an unused key a create stores an accepted submission under the key, queues it and answers 202 |
| `GatewayServing.RepeatServed` | internal/server/server.go:274-331 | with a bound key it changes nothing in the store, gives its slot back, and answers 202 with the bound submission if and only if the fingerprints do not clash |
| `GatewayServing.CreateRefused` | internal/server/server.go:228-300 | without room nothing is stored, queued or answered with 202 |
| `GatewayServing.ResumeServed` | internal/server/server.go:418-452 | a resume with room marks the deferred submission running and queues it |
| `GatewayServing.ResumeRefused` | internal/server/server.go:418-452 | a resume without room leaves store and pool exactly as they were |
| `GatewayServing.ResumeDenied` | internal/server/server.go:418-452 | a submission that is not deferred is not resumed |
| `GatewayServing.AdjudicateServed` | internal/scintx/orchestrator.go:395-488 | an adjudication to allow or deny of a completed submission with a decision adds one decision with that value whose prior is the decision until then, points the submission to it and changes nothing else |
| `GatewayServing.AdjudicateRefused` | internal/scintx/orchestrator.go:395-420 | any other adjudication changes nothing |
| `GatewayServing.ConsumerExtLaw` | internal/scintx/orchestrator.go:440-475 | the links of a consumer decision stand whatever the request adds; of the rest nothing is lost or invented |
| `GatewayServing.ProcessServed` | internal/scintx/orchestrator.go:97-321 | a run with policy lists and stores all its results, stores the decision, and defers or completes the submission as it says; nothing else changes |
| `GatewayServing.FindingsServed` | internal/scintx/orchestrator.go:97-363 | a run without policy completes the submission with its results and no decision |
| `GatewayTheorems.EveryDecisionRooted` | internal/scintx/orchestrator.go:395-488 | prior links of every stored decision reach a machine decision in finitely many steps |
| `GatewayTheorems.NeverOverwritten` | internal/scintx/orchestrator.go:245-488 | no continuation changes or removes a stored decision or result |
| `GatewayTheorems.PolicySeesListedResults` | internal/scintx/orchestrator.go:238-262 | what policy evaluation reads includes every result the submission lists |
| `GatewayTokens.StepKeepsPoolInv` | internal/server/server.go:274-331 | every step keeps slot conservation, each handler's token to itself and a handler for every open token |
| `GatewayOwners.StepKeepsOwners` | internal/scintx/orchestrator.go:97-391 | every step keeps the single-holder invariant |
| `GatewayKeys.StepKeepsKeys` | internal/scintx/memory_store.go:70-131 | every step keeps keys, history and creators in agreement |
| `GatewayKeys.OneCreatorBetweenAbandons` | internal/scintx/memory_store.go:70-131 | in a legal history nobody creates again before the next abandon of the key |
| `GatewayKeys.CommitSucceedsWhileOpen` | internal/workers/dispatcher.go:332-367 | before close a handler's commit succeeds |
| `GatewayKeys.StepKeepsAccepted` | internal/server/server.go:305-331 | nobody abandons before close |
| `GatewayDecisions.StepKeepsDecisions` | internal/scintx/orchestrator.go:97-488 | every step keeps decisions, submissions and running copies consistent |
| `GatewayDecisions.PriorLinkKept` | internal/scintx/orchestrator.go:440-475 | request extensions never displace the link to the prior decision |
| `JobQueue.JobTable.EnqueueJob` | internal/scintx/job_queue_memory.go:25-46 | an active job is kept, an empty id refused, any other id added as pending |
| `JobQueue.JobTable.SweepExpired` | internal/scintx/job_queue_memory.go:71-77 | exactly the leases that ended before the reading become pending |
| `JobQueue.JobTable.FindOldest` | internal/scintx/job_queue_memory.go:79-90 | finds a pending job that no pending job precedes, or reports that none is pending |
| `JobQueue.JobTable.ClaimJob` | internal/scintx/job_queue_memory.go:55-96 | sweep, then lease the oldest pending job with one more attempt |
| `JobQueue.JobTable.HeartbeatJob` | internal/scintx/job_queue_memory.go:98-110 | extends the lease if and only if the caller owns it |
| `JobQueue.JobTable.CompleteJob` | internal/scintx/job_queue_memory.go:112-124 | deletes the row unless another owner holds its lease |
| `JobQueue.JobTable.PendingJobCount` | internal/scintx/job_queue_memory.go:126-136 | counts all rows |
| `JobQueue.QueuePool.Reserve` | internal/workers/queue.go:221-240 | admits if and only if not cancelled, not closed and below the limit |
| `JobQueue.QueuePool.Submit` | internal/workers/queue.go:268-278 | the job is in the table if and only if the answer says so |
| `JobQueue.QueueToken.Commit` | internal/workers/queue.go:242-257 | commits at most once; a closed pool releases, a refused job leaves the token open |
| `JobQueue.QueueToken.Release` | internal/workers/queue.go:259-266 | never undoes a commit |
| `QueueLaws.ClaimTakes` | internal/scintx/job_queue_memory.go:71-90 | a claim takes a job if and only if it is pending or its deadline has passed, and none such is older; it takes none if and only if there is none |
| `QueueLaws.ClaimLeaves` | internal/scintx/job_queue_memory.go:71-95 | the claimed row gets owner, deadline and one more attempt, other expired rows become pending with their attempts, the rest stays |
| `QueueLaws.CompleteLeaves` | internal/scintx/job_queue_memory.go:112-124 | completing fails if and only if somebody else leases the job; otherwise exactly that row goes |
| `QueueLaws.HeartbeatLeaves` | internal/scintx/job_queue_memory.go:98-110 | a heartbeat moves the deadline of the owner's lease and nothing else |
| `QueueLaws.EnqueueLeaves` | internal/scintx/job_queue_memory.go:25-46 | a new job is pending, dated now, without attempts; a job that is there stays as it is |
| `QueueLaws.ClaimStarts` | internal/workers/queue.go:121-172 | a claim and its fetch start the process function if and only if the submission is stored and unfinished and the job was claimed fewer than MaxAttempts times before |
| `QueueLaws.ClaimRemoves` | internal/workers/queue.go:146-207 | a worker that is not overtaken removes the job it claimed, after its run or after marking the submission failed |
| `QueueLaws.NeverStuck` | internal/workers/queue.go:105-144 | while there are jobs with real deadlines, time alone lets any idle worker claim one, whatever has crashed |
| `LeaseProtocol.BeliefIsTruth` | internal/scintx/job_queue_memory.go:55-124 | in every reachable state a worker whose last deadline has not passed owns the row until that deadline, and no other worker believes the same |
| `LeaseProtocol.OthersCannotTouch` | internal/scintx/job_queue_memory.go:55-124 | no other claim, heartbeat, completion or enqueue changes such a row |
| `LeaseProtocol.LeaseHeldUntilDeadline` | internal/workers/queue.go:146-207 | over every continuation the row stays as it is until its owner acts or the deadline passes |
| `LeaseProtocol.BoundedRetries` | internal/workers/queue.go:121-172 | the process function starts at most MaxAttempts times per row lifetime, with distinct attempt numbers, over all workers and runs |
| `LeaseProtocol.OnlyClaimsCount` | internal/scintx/job_queue_memory.go:71-95 | an attempt count changes only by a claim of that row, by one |
| `LeaseProtocol.OverLimitFails` | internal/workers/queue.go:146-172 | over every continuation until its completion, a worker with a claim beyond the limit never runs the process function: it has not fetched, or its fetch saw the submission finished, or it saw it unfinished and then writes the failed status, right after which the submission is failed |
| `LeaseProtocol.OverLimitNeverStarts` | internal/workers/queue.go:146-172 | the attempt number of such a claim is never recorded as a start, in any continuation |
| `LeaseProtocol.OverwritesIff` | internal/workers/queue.go:153-168 | of the workers' steps exactly the failed write of a worker holding a completed submission undoes the completion |
| `LeaseProtocol.CompletedBetween` | internal/workers/queue.go:153-168 | a completion that is undone arrived after the worker's fetch |
| `LeaseProtocol.LateCompletionLost` | internal/workers/queue.go:153-168 | from every such claim on an unfinished submission a run loses a completion |
| `LeaseProtocol.OvershootBounded` | internal/workers/queue.go:221-266 | rows plus outstanding tokens never exceed MaxPending - 1 + K |
| `LeaseProtocol.SequentialAdmission` | internal/workers/queue.go:221-266 | with one outstanding token at a time the table never exceeds MaxPending |
| `LeaseProtocol.OvershootReached` | internal/workers/queue.go:221-266 | for every limit and K a run attains the bound |
| `SqlCreate.Serializable` | internal/store/sql_ops.go:46-193 | every interleaving of the statements of creates, and of abandons between them, ends in the rows and answers of a serial run of the memory store |
| `SqlCreate.AnswersLogged` | internal/store/sql_ops.go:46-140 | every answered transaction is part of that serial run |
| `SqlCreate.LoserLeavesNothing` | internal/store/sql_ops.go:107-133 | a request that did not create leaves no submission row |
| `SqlCreate.OneCreatorPerKey` | internal/store/sql_ops.go:97-133 | until the creator's submission is abandoned, every request with the key conflicts if and only if fingerprints clash and otherwise gets that submission |
| `SqlCreate.SomeoneCanMove` | internal/store/sql_ops.go:98-106 | an unfinished create, or the rival that holds its key, can always take a step |
| `SqlCreate.DropCanMove` | internal/store/sql_ops.go:176-192 | an unfinished abandon, or the rival that deleted its row, can always take a step |
| `SqlCreate.OnlyFailuresErr` | internal/store/sql_ops.go:46-140 | in every interleaving a create ends in an error only when one of its statements fails |
| `SqlCreate.CommittedDropAgrees` | internal/store/sql_ops.go:153-193 | the select, delete and commit statements of an abandon together have the effect of the memory abandon, with other abandons in flight |
| `SqlCreate.AloneAgreesIff` | internal/store/sql_ops.go:46-140 | a create run alone answers and leaves rows as the memory store does if and only if its key does not dangle; a dangling key gives a conflict or an error, by the fingerprints |
| `SqlCreate.NextStepUnique` | internal/store/sql_ops.go:46-140 | a create transaction never has a choice of statements |
| `Purl.ParseQualifiers` | api/purl.go:64-73 | the loop computes the qualifier map, later pairs winning |
| `Purl.ParsePurl` | api/purl.go:29-101 | the field by field parser computes the specified parse |
| `Purl.CanonicalPurl` | api/purl.go:119-152 | the builder computes the canonical text, whatever order the map yields its keys in |
| `Purl.ShapeParts` | api/purl.go:17 | the groups of a match make up the text and have the shapes the pattern demands |
| `Purl.ShapeBuild` | api/purl.go:17 | any three groups of those shapes are matched as they are |
| `Purl.ParsedFieldsOk` | api/purl.go:29-101 | every parsed purl has separable, case-folded, trimmed fields |
| `Purl.PathRoundTrip` | api/purl.go:40-54 | a printed path parses back if and only if an empty namespace hides no slash |
| `Purl.QualTextParses` | api/purl.go:133-144 | printed qualifiers parse back to the same map |
| `Purl.RoundTrip` | api/purl.go:29-152 | parsing the canonical form gives the same fields if and only if the purl is not ambiguous |
| `Purl.CanonicalIdempotent` | api/purl.go:119-152 | with no empty first path segment and no leading slash in the fragment, the canonical form is a fixed point with the same fields |
| `Purl.CanonicalFixedIff` | api/purl.go:119-152 | for purls whose fragment does not begin with a slash the canonical form is a fixed point if and only if the path is stable |
| `Purl.NotIdempotent` | api/purl.go:119-152 | "pkg:x#/a" is printed as "pkg:x//a" and that as "pkg:x/a" |
| `Purl.QualifierOrder` | api/purl.go:64-73 | reordering or repeating qualifiers without contradictory values changes neither fields nor canonical form |
| `PurlLaws.ReadAsSpelled` | api/purl.go:29-101 | every well-spelled purl is read as its parts: type in lower case, namespace and name too for the five types, each qualifier with its last value, subpath without slashes at its end |
| `PurlLaws.ReadIff` | api/purl.go:17 | a text is read if and only if it has the shape of the pattern |
| `VscodePurl.SplitVscodePurl` | extensions/providers/osv/vscode.go:122-179 | the step by step splitter computes the specified split |
| `VscodePurl.PathAgreement` | extensions/providers/osv/vscode.go:142-154 | version first or namespace first give the same path fields if and only if the namespace holds no "@" |
| `VscodePurl.ParsersAgree` | extensions/providers/osv/vscode.go:122-179 | both readers agree on type and qualifier keys, on values up to unescaping, and on the rest if and only if the namespace holds no "@" and folding changes nothing |
| `VscodePurl.ParsersAgreeOnCanonical` | extensions/providers/osv/vscode.go:122-179 | both accept every canonical form, and agree if and only if the namespace holds no "@" and folding changes nothing, which is so unless the purl was ambiguous |
| `Signature.HttpRequest.SignRequest` | internal/auth/sign.go:26-59 | sets exactly the specified headers, or refuses and changes nothing |
| `Signature.ParseSignatureInput` | internal/auth/sign.go:71-130 | the loops compute the specified parameters or report an error |
| `Signature.BuildSignatureBase` | internal/auth/sign.go:146-176 | the loop computes the base of section 2.5 of RFC 9421, or fails on the first missing or unsupported component |
| `Signature.VerifyHmac` | internal/auth/sign.go:178-221 | the checks, in order, give the specified verdict |
| `Signature.IntRoundTrip` | internal/auth/sign.go:109 | a printed 64-bit number parses back |
| `Signature.KeyRecoveredIff` | internal/auth/sign.go:49-123 | a printable key id is read back if and only if it holds no quote, backslash or semicolon |
| `Signature.PanicsIff` | internal/auth/sign.go:132-221 | the verifier panics if and only if all earlier checks pass and the signature value is a lone colon |
| `Signature.AcceptedIff` | internal/auth/sign.go:178-221 | for every request: accepted if and only if all earlier checks pass and the signature value is a text between colons that decodes to the HMAC of the rebuilt base under the configured key |
| `Signature.OtherSecretIff` | internal/auth/sign.go:26-221 | a request signed with any secret is accepted if and only if that secret and the configured one give the base the same HMAC; otherwise the verdict is a mismatch |
| `Signature.InputReads` | internal/auth/sign.go:71-130 | every list of supported components with parameters in any order and number is read back as written |
| `Signature.ParamsRefuse` | internal/auth/sign.go:178-205 | an expired signature, another algorithm, an unknown key or a creation time outside the skew is never accepted |
| `Signature.LoneColonPanics` | internal/auth/sign.go:132-144 | any signed message under a known key id within the skew gets there when its value is a lone colon |
| `Signature.AcceptedIffBodyFits` | internal/auth/sign.go:146-221 | a signed request is accepted with a received body if and only if no digest was signed, nothing was received or the digests are equal |
| `Signature.OtherBodyFitsIff` | internal/auth/sign.go:154-162 | with an injective digest another body passes if and only if it or the signed one is empty |
| `Signature.SignThenVerify` | internal/auth/sign.go:26-221 | a signed request with a known clean key and in-skew nonzero creation time rebuilds the identical base and is accepted, for every method, path, header and body |

## Left out

- HTTP routing, JSON, status codes and middleware: only the order of dispatcher and store calls in the create and resume handlers is modelled.
- Provider clients and result conversion: a run stores any number of results with fresh ids.
- What a policy evaluation decides inside a gateway run: any decision or error may come out there; the decision itself is the subject of the policy modules.
- Extensions that a policy engine might attach to its own decisions: a machine decision carries no prior link.
- SQL drivers, schema migration, the other SQL operations and the SQL job queue, whose text timestamps order correctly only across whole seconds.
- Caches, webhooks, event storage, artifacts, credentials, configuration and the command line.
- Local mode with an unlimited pool, where no semaphore exists.
- In queue mode nothing is said about every running submission having a job: a resume that finds the row still leased enqueues nothing (internal/scintx/job_queue_memory.go:36).
- `DeleteJob`, which no production code calls, and the row deletion inside `AbandonSubmission` (internal/scintx/memory_store.go:129): a create handler abandons only after its own commit failed, and then its fresh id has no row.
- Panics inside `Process` in the gateway machine; the pool modules cover them.
- Floating point, not-a-number scores and non-ASCII case folding.
- Human-readable reasons and messages.
- Saturation of clock differences in the signature check.
- Correlation.SameKeyIffSameCves: for CVE ids without commas, because the key text joins them with commas.
- CorrelationLaws.SameKeyIff: for subjects without a bar, anchors without a comma and fallback providers not named like a key prefix; the three collision lemmas show what happens otherwise.
- QueueLaws.NeverStuck: a lease whose deadline is the zero instant never expires, as in the code.
- MergePolicy.DeduplicationPreservesDecision: one direction for groups; AgreementIff gives the exact condition on the two lists of findings.
- LeaseProtocol.OvershootBounded: a token counts as outstanding from the moment its reservation read the row count.
- SqlCreate.Serializable: creates and abandons are not in flight together, abandons name the key of their submission as the server does, and the job rows that an abandon also deletes are not modelled.
- Purl.CanonicalFixedIff: not for fragments that begin with a slash, where the subpath is printed into the path or the last qualifier and a fixed point depends on how it is cut there; NotIdempotent shows one that fails.
