# Durable review, verification and publication: a Dafny model

The repository keeps the rows of every research run in one application database and the position of
every review in a second checkpoint store. Operators accept verification decisions about evidence,
finalise revisioned publications and decide reviews; leased workers create checkpoints, resume them
and resolve reviews; a reconciler repairs what a crash left behind; and several finalisers race to end
a run. This project models those steps and proves what holds for every interleaving of them.

* `ReviewTypes` is the data model, one `RunState` per run with the rows of every table. Names that the
  program derives by hashing (uuid5, SHA-256) are free constructors: equal names have equal inputs.
* `VerificationLedger`, `Publications`, `RunLifecycle`, `ReviewWorkflows` and `ReviewResolution` say
  what each repository function does to a run: it commits a new state or aborts with a code.
* `RunInvariant` states what every step keeps; the `...Preservation` modules and `Executions` prove it
  for whole runs over any number of runs, workers and clock readings; `Evolution` says what is never
  taken back.
* `DeliverySafety`, `ResultDelivery`, `SplitRead`, `ReviewOutcomes`, `PublicationHistory` and
  `RunFinalisers` are the theorems about whole runs. `VerificationOutcomes`, `DecisionOutcomes`,
  `AgentResults`, `AttemptLedger` and `ReviewedBriefs` say in terms of the requests and of what a reader
  sees when each step commits, what it leaves, and what of it holds ever after; `SystemRuns` carries that
  over to the system of both stores.
* `ReviewStore` (class `Database`), `RunService`, `ReviewGate` (class `Gate`) and `ReviewWorker` (class
  `Worker`) are the imperative side: transactions that update the database step by step, proved against
  those steps.
* `CrashConsistency` and `CrashRecovery` put one worker over the two stores as a transition system with
  a crash before any action; `ReconciliationGap` is a run of it in which a reconciliation ends early;
  `WorkerProgress` shows that the worker comes to an end, and `ReviewWorker` that a restarted one
  recovers what a crash left.
* `FailedPublication` is a run that fails, is published and then waits for a review without end.
* `LeaseTime`, `ReviewCursor`, `ResultSanitizer`, `PlainText`, `EvidenceIndex` and
  `VerificationQueries` treat the text comparison of leases, the cursors and paging of the review list,
  the report sanitiser, the Markdown escaper, the eligibility of findings and the bulk projection.

Five results are about behaviour that the documentation does not promise or promises otherwise:

* The documentation (`docs/operations/evidence-verification-workflow.md:119`,
  `docs/reference/data-models.md:203`) says that only a current, ready publication is deliverable. The
  projection of a run is read in several statements outside a transaction, so a verification decision
  that commits between the read of the run's row and the read of its publications leaves the original
  brief served. `SplitRead` proves when exactly such a read is safe, and gives a run that shows the gap.
* A baseline that is adopted as a publication after its review was approved lists the brief as it was
  before the review first, and that is what is served; a publication that ever waited for its review is
  served in its reviewed form only (`DeliverySafety.ServedArtifact`, `ApprovedThenAdopted`,
  `ReviewedFormOverRuns`).
* The cut of a fallback excerpt is not closed: the ellipsis can turn a bare root such as `/tmp/` into a
  host path, and the delivery check then refuses the report. `ResultSanitizer.CutIsUnsafeIffRootLast`
  says when, and `CutCanBeUnsafe` gives an agent's text that is cut so at the limit of 4000.
* A verification decision between the reconciler's look at a checkpoint and its write ends the whole
  reconciliation with an exception: `mark_resolution_pending` and `release_expired_lease` are called
  outside any `try` (`api/review_worker.py:83-103`), unlike `mark_manual_recovery`.
  `CrashRecovery.SettlingRaisesIff` says when a step raises, and `ReconciliationGap.GapIsReachable` gives
  a run for each of the two calls.
* A talent run that failed keeps its packets, and building a publication asks for the profile and the
  packets only (`api/publication_service.py:35-56`), so such a run can be published for review although
  the documented states lead to a review from a completed run (`docs/reference/state-machines.md:68-79`).
  No decision about it is ever accepted, because that asks for a completed run
  (`api/review_repository.py:322-331`): it waits without end
  (`FailedPublication.FailedRunIsPublished`, `WaitsForEver`, `DecisionOutcomes.FailedRunNeverDecided`).

`dafny verify dfyconfig.toml` checks the project.

## Model

| member | source | states |
|---|---|---|
| Executions.StepKeeps | api/publication_repository.py:941-1159 | every repository step, of operators, workers and the reconciler, keeps the whole invariant of its run: publication chain, leases and attempts, decisions and resolutions, fence, ledger and snapshots, artifacts |
| Executions.ExecutionKeeps | api/review_repository.py:255-396 | the invariant holds after any commands on any runs at any clock readings, an aborted command having no effect |
| Executions.ReachableKeeps | api/run_repository.py:193-239 | every database reached from the empty one satisfies the invariant |
| Executions.StepEvolves | api/review_repository.py:1345-1606 | no step takes back a decision, a resolution, an artifact, a bundle, a ledger row, a snapshot, a publication's identity, a stale mark or a finished workflow |
| Executions.ExecutionEvolves | api/review_repository.py:1345-1606 | nor do any commands one after another |
| VerificationPreservation.AppendWithdraws | api/publication_repository.py:754-813 | withdrawing the current publication's review leaves no review of the run active, because every active one is its own |
| VerificationPreservation.RevisionsGrow | api/evidence_verification_repository.py:451-503 | an accepted verification decision raises the projected revision of its item and lowers that of no other |
| VerificationOutcomes.AcceptedIsRead | api/evidence_verification_repository.py:541-575 | an accepted decision makes its item read verified exactly if it asked to verify and rejected exactly if it asked to reject, of human origin, under the next revision and its own id; every other item reads as before |
| VerificationOutcomes.DecisionIsRead | api/evidence_verification_repository.py:547-558 | and so through any commands without another decision on the item, in the reading and in every snapshot |
| VerificationOutcomes.UndecidedIsBaseline | api/evidence_verification_repository.py:559-575 | an item without a decision reads verified exactly if it is a declared fixture, and its origin says so |
| VerificationOutcomes.VerificationCommitsIff | api/evidence_verification_repository.py:371-539 | in every reachable database a new decision is accepted exactly for an id used in no run, the item's own fingerprint, the revision that is read of it, and an eligible item if it is to be verified; the same request replays, and a used id is refused to any other |
| VerificationOutcomes.VerificationCodes | api/evidence_verification_repository.py:412-470 | which code refuses a request with a new id, in the order of the checks |
| VerificationOutcomes.AcceptedOnce | api/evidence_verification_repository.py:393-411 | whatever commands follow, the same request is answered by replay without effect, and its id is refused to every other request, item and run |
| VerificationOutcomes.ReachableApart | api/evidence_verification_repository.py:393-411 | in every reachable database a verification id is used once, in one run, and its row is what was asked for |
| VerificationOutcomes.SnapshotIsTaken | api/evidence_verification_repository.py:811-929 | taking a snapshot stores every item of the run as it reads, moves nothing else, and replays exactly if that snapshot was there |
| VerificationOutcomes.SnapshotTakenAgain | api/evidence_verification_repository.py:866-880 | through any commands without a verification decision for the finished run, taking it again gives the same snapshot and changes nothing |
| FinalizationPreservation.RevisionRevises | api/publication_repository.py:1038-1135 | a published revision carries the next number, the effective snapshot, a required review of its own with a new workflow, its brief's hash, and supersedes the one before; what its brief says is ReviewedBriefs.RevisedSays |
| ReviewedBriefs.RevisedSays | api/publication_service.py:201-229 | the brief stored with a new revision is what was built, requires its review before delivery, carries no decision, and has the triggers of its own review, the change of the snapshot first |
| ReviewedBriefs.ReachableBriefs | api/talent_artifacts.py:92-150 | in every state that is reached when workers submit what they read, the stored brief of each revision says of its review what holds of it, and the reviewed brief of each approved one is that brief with nothing but its review changed: resolved, no longer required, stamped with the approving decision, its action and whether it gave a reason; both are stored twice under their own hash |
| ReviewedBriefs.BuiltSays | api/review_artifacts.py:32-88 | what is built of an approval keeps the brief's body, time and triggers, and records the review as resolved, not required, and decided by this decision |
| SystemRuns.SystemBriefs | api/review_worker.py:199-226 | a worker with operators, a reconciler and crashes around it does submit what it read, so in every state of both stores the stored briefs say what holds |
| SystemRuns.DeliveredBriefSays | api/run_result_service.py:163-261 | what is then served of a talent run is the newest revision's reviewed brief, or its brief as it was before, approved if that was required |
| ReviewPreservation.SubmissionTakes | api/review_repository.py:1454-1606 | a submission that commits resolves the newest review by its own decision and changes the publication, the run, the workflow and the artifacts together |
| DeliverySafety.ServedIsDeliverable | api/run_result_service.py:163-261 | a result served for a run with publications is of the current, ready publication, carries its hash, shows the projection of the ledger now, and was approved by an accepted decision if review was required |
| DeliverySafety.DeliveryIsSafe | api/run_result_service.py:163-261 | so in every reachable state |
| DeliverySafety.ServedArtifact | api/run_result_service.py:241-261 | the artifact served is the reviewed one if and only if the review was required and the publication does not list the brief as it was before; from the second revision on it always is |
| ResultDelivery.ReachableServed | api/run_result_service.py:163-261 | in every reachable state: nothing is served of a run that has not completed or is not ready, or of a third profile; of a generic run its report, of a talent run without publications its brief, approved and with the reviewed pair beside it if that was required, of one with publications the brief or reviewed brief of the newest, each exactly if it passes its check |
| ResultDelivery.WinnersReportServed | api/run_result_service.py:216-245 | through any commands after the winning finaliser of a generic run, what is served is the report that it brought |
| DeliverySafety.ApprovedThenAdopted | api/publication_repository.py:674-692 | a baseline approved before its run had publications is adopted with both pairs of artifacts, and the brief as it was before its review is served |
| DeliverySafety.ReviewedFormOverRuns | api/review_repository.py:1515-1556 | once the newest publication of a run has waited for its review, nothing but the reviewed form of the newest publication is served ever after |
| DeliverySafety.ReadyIsServed | api/run_result_service.py:216-238 | and a ready completed run with publications is served, when its artifacts pass their check; for every profile, publications or none, it is ResultDelivery.ReachableServed |
| DeliverySafety.VerificationWithdraws | api/evidence_verification_repository.py:504-513 | a new verification decision withdraws delivery in the same step: nothing current, nothing active, nothing served, every published snapshot out of date |
| DeliverySafety.OnlyReviewedAgain | api/publication_repository.py:1038-1135 | what is served after a withdrawal is a later revision, approved by a decision accepted after it |
| SplitRead.SplitReadIsSafeIffStillReady | api/run_repository.py:254-344 | what a read in two parts serves may be delivered if and only if delivery is still ready at the second part |
| SplitRead.SplitReadOverRuns | api/run_repository.py:254-344 | so for any commands before and between the two reads |
| SplitRead.WithdrawnBriefStillServed | api/run_result_service.py:241-261 | from every ready state, a verification decision between the two reads leaves the original brief served although nothing may be delivered |
| SplitRead.GapIsReachable | api/run_repository.py:254-344 | a concrete run from the empty database shows the gap |
| ReviewOutcomes.DecidedOnce | api/review_repository.py:255-396 | whatever follows an accepted decision, it stays the only one for its review, its resolution carries out its action and never changes, and reviewed artifacts exist exactly if it approves and is resolved |
| ReviewOutcomes.DecisionDecides | api/review_repository.py:1454-1498 | the outcome of a decided review in one state: one decision, at most one resolution, of the same action, with its artifacts |
| ReviewOutcomes.OneDecisionPerReview | api/review_repository.py:286-294 | two accepted decisions about one review are the same decision |
| DecisionOutcomes.DecisionCommitsIff | api/review_repository.py:255-396 | in a valid state a new decision is accepted exactly if its id is unused, the review waits, its run has completed, and the version named is the run's; the stored decision replays on whatever version it is asked again |
| DecisionOutcomes.AcceptedIsStored | api/review_repository.py:336-390 | what is stored is what was asked, under the version after the one named, and the workflow is to be resumed with it |
| DecisionOutcomes.DecisionCodes | api/review_repository.py:276-335 | which code refuses a request with a new id, in the order of the checks |
| DecisionOutcomes.StaleDecisionRefused | api/review_repository.py:330-331 | a decision made on a row that any commands have written since is refused and changes nothing |
| DecisionOutcomes.DecidedAgain | api/review_repository.py:263-285 | whatever commands follow, the same decision is answered by replay without effect, and its id is refused to every other decision and run |
| DecisionOutcomes.FailedRunNeverDecided | api/review_repository.py:322-331 | no decision about a run that failed is ever accepted, whatever is published of it |
| FailedPublication.FailedRunIsPublished | api/publication_service.py:35-56 | a failed talent run with packets is published for review, and its delivery status asks for one |
| FailedPublication.WaitsForEver | api/server.py:278-344 | a concrete run from the empty database comes to that, and through any commands every decision about it is refused |
| ReviewOutcomes.FinishedForGood | api/review_repository.py:1163-1174 | approved, rejected, superseded and manual-recovery workflows never change again |
| ReviewOutcomes.ReachableLedgerAndFence | api/review_repository.py:671-846 | a lease owner exists only in checkpoint_pending, resuming or resolution_pending and then has the open attempt numbered attempt_count; and an unresolved, unsuperseded decision's accepted version is the run's version |
| ReviewOutcomes.ClaimCommits | api/review_repository.py:671-797 | a claim succeeds exactly on a due workflow: no segment conflict, no taken attempt number |
| ReviewOutcomes.HolderSteps | api/review_repository.py:820-889 | retry, manual recovery and checkpoint completion succeed exactly for the lease holder in a fitting status: resume_attempt_not_found and review_not_retryable never occur |
| AttemptLedger.ClaimTakesUp | api/review_repository.py:671-797 | a claim commits exactly for a positive lease on a workflow that is due; it opens the next attempt and the segment of its own, moves nothing else, and until its end the lease is the worker's alone |
| AttemptLedger.CompletionLetsGo | api/review_repository.py:849-889 | the holder of a pending checkpoint, and nobody else, makes it wait: lease free, error cleared, attempt closed as created |
| AttemptLedger.WaitingLetsGo | api/review_repository.py:947-983 | the reconciler's form closes an open attempt as reconciled, and leaves every other status alone |
| AttemptLedger.HandOverMoves | api/review_repository.py:1070-1130 | a resumption with this decision goes on to its resolution, under the worker's lease, or let go as reconciled |
| AttemptLedger.ManualLetsGo | api/review_repository.py:1133-1208 | when the holder or the reconciler may give a workflow up, and that its error and its closed attempt say so |
| AttemptLedger.ExpiryLetsGo | api/review_repository.py:1211-1256 | a resumption is released exactly when its time is up, its open attempt closed as expired |
| AttemptLedger.RetryLetsGo | api/review_repository.py:1259-1318 | the holder's failure leaves the workflow due at once with its error, or gives it up when the attempts have reached the limit |
| AttemptLedger.ReachableAttemptsTell | api/review_repository.py:820-846 | in every reachable database the attempts of a review are numbered 1..attempt_count, none but the last ended it, and the last tells where it stands: open exactly while it is held, approved or rejected exactly with the workflow, and a given-up workflow has an error |
| AttemptLedger.AttemptsStayWritten | api/review_repository.py:923-944 | through any commands a closed attempt never changes, and one that another has followed is never closed |
| ReviewOutcomes.SubmissionCodes | api/review_repository.py:1380-1611 | a submission never fails for a missing decision, a missing attempt or a taken key |
| ReviewOutcomes.BuiltResultMatches | api/review_repository.py:1413-1453 | what is built from a stored brief passes every check of the resolution, the content hash being idempotent; what it records of the review is ReviewedBriefs.BuiltSays |
| ReviewOutcomes.ResolutionCommitsIff | api/review_repository.py:1380-1498 | in a valid state a result is taken exactly from the lease holder of a review awaiting it, on the version of the decision, if it is stamped with that decision and its action, has no artifacts when it rejects, and when it approves one JSON and one Markdown rendering of one brief, under its hash and free ids |
| ReviewOutcomes.OwnSubmissionCommits | api/review_repository.py:1399-1453 | a lease holder that submits what it built is never refused as stale or mismatched |
| ReviewOutcomes.LateSubmissionCommits | api/review_worker.py:199-226 | nor if it read the decision and the brief earlier and any commands committed since |
| ReviewOutcomes.ActiveBrief | api/review_repository.py:1003-1067 | the brief under review is the one stored with its revision, published or not |
| PublicationHistory.ReachableChain | api/publication_repository.py:635-813 | revisions are 1..n, each superseding the one before; at most the newest is current; stale exactly if not current; an unfinished workflow is the current publication's own |
| PublicationHistory.SnapshotIsNew | api/evidence_verification_repository.py:811-929 | once the newest publication is stale, the next snapshot differs from every one published |
| PublicationHistory.FinalizationNeverConflicts | api/publication_repository.py:1038-1135 | finalising aborts for a stale version or a failed build only: no unique constraint is ever violated |
| PublicationHistory.RevisionCommits | api/publication_repository.py:1025-1135 | a withdrawn run whose brief can be built is always published |
| PublicationHistory.FinalisedStays | api/publication_repository.py:968-1020 | after a publication is finalised, through any commands without a verification decision for the run, finalising again returns it and changes nothing |
| PublicationHistory.LedgerUnchanged | api/evidence_verification_repository.py:451-503 | only a verification decision adds to the ledger |
| RunFinalisers.AtMostOneFinisher | api/run_repository.py:413-608 | of all finalisers of a run at most one commits, and one has committed exactly when the run is terminal |
| RunFinalisers.WinnerStays | api/run_repository.py:478-510 | the stored evidence, packets and execution status are the winner's ever after |
| RunFinalisers.StepCounts | api/run_repository.py:626-674 | every step leaves the run's row alone or writes it once and counts the write in state_version |
| RunFinalisers.PerformFinishes | api/server.py:364-425 | nothing but a committed finaliser makes a run terminal, and none commits on a terminal run |
| RunFinalisers.VersionTellsRow | api/run_repository.py:626-674 | through any commands the version of a run never goes back, and while it is the one that was read, so is the whole row |
| RunFinalisers.TransitionWrites | api/run_repository.py:626-674 | a transition commits exactly under its fence, writes the statuses that are given, leaves the others, and counts the write |
| RunFinalisers.FinaliserCommitsIffFenced | api/run_repository.py:413-608 | in a valid state a finaliser of the server is refused only by its fence or by evidence that repeats one of its own fingerprints: no row of an earlier finaliser is ever in its way |
| AgentResults.NormalIsServer | api/server.py:284-344 | the arguments of the normal finaliser, for every profile and result, are of the kind that the commands of whole runs allow |
| AgentResults.ResultIsStored | api/server.py:306-344 | the database after the normal finaliser, in terms of the agent's result: the evidence and packets; of a generic run its report; of a talent run its brief, a workflow exactly if there are triggers and reviews are durable, delivery waiting for review exactly if there are triggers, and revision 1 published if publications are on; of a failure only evidence, packets and statuses |
| AgentResults.FailureIsStored | api/server.py:364-386 | a failure stores its evidence and packets, leaves every other row, and delivers nothing |
| AgentResults.FailureIsServer | api/server.py:364-386 | and so are those of a failure, a cancellation or a timeout |
| RunService.RunExecution.Begin | api/server.py:264-277 | the start commits exactly on the pending run at version 0, makes it running at version 1, and moves the fence of later failures |
| RunService.RunExecution.Complete | api/server.py:278-344 | the completion ends the run exactly if it is still as its start left it and no two entries share a fingerprint; then the run holds the result as AgentResults.ResultIsStored says and no other run moves, else nothing is written |
| RunService.RunExecution.Fail | api/server.py:364-386 | a failure ends the run exactly if its row is as this execution last wrote it and the entries differ, and then its evidence is stored and nothing is delivered |
| RunService.MarkRunTimeout | api/server.py:389-425 | the timeout reads the row, others commit what they will, and its failure ends the run if and only if the run was not terminal, its row is still the one that was read, and no two entries share a fingerprint; then its result is stored and no other run moves, else it writes nothing |
| RunService.LosersWriteNothing | api/server.py:253-425 | after one finaliser has committed, every other leaves the database as it is, however late |
| ReviewStore.Database.TransitionRun | api/run_repository.py:626-674 | the transaction writes the given statuses under the fence and counts the write, or nothing |
| ReviewStore.Database.FinalizeRunTransaction | api/run_repository.py:413-608 | the transaction stores the whole result or nothing |
| ReviewStore.Database.AdoptBaselinePublication | api/publication_repository.py:635-751 | adoption of the baseline brief as revision 1, once |
| ReviewStore.Database.StaleCurrentPublication | api/publication_repository.py:754-813 | withdrawal of the current publication, its review and the run's delivery |
| ReviewStore.Database.AcceptVerificationDecision | api/evidence_verification_repository.py:371-539 | replay, refusal in the program's order, or acceptance with withdrawal, in one transaction |
| ReviewStore.Database.FinalizeVerificationPublication | api/publication_repository.py:941-1159 | replay, repair, conflict or the next revision, in one transaction |
| ReviewStore.Database.AcceptReviewDecision | api/review_repository.py:255-396 | the transaction is the accepting step, whose conditions and codes are DecisionOutcomes.DecisionCommitsIff and DecisionCodes |
| ReviewStore.Database.ClaimReviewWorkflow | api/review_repository.py:671-797 | takes the lease of the first due workflow of all runs by creation time and workflow id, and nothing exactly when none is due; a lease time that is not positive is refused |
| ReviewStore.Database.CompleteCheckpointCreation | api/review_repository.py:849-889 | the holder's workflow waits, its lease is free, its attempt closed |
| ReviewStore.Database.MarkWaitingDecision | api/review_repository.py:947-983 | the reconciler's form, without effect on any other status |
| ReviewStore.Database.MarkResolutionPending | api/review_repository.py:1070-1130 | with a worker its lease goes on, without one any lease is dropped |
| ReviewStore.Database.MarkManualRecovery | api/review_repository.py:1133-1208 | the holder, or the reconciler on an unfinished workflow, gives the workflow up |
| ReviewStore.Database.ReleaseExpiredLease | api/review_repository.py:1211-1256 | a resuming workflow without an active lease is to be resumed again |
| ReviewStore.Database.ReleaseWorkflowForRetry | api/review_repository.py:1259-1318 | the holder frees the lease for another attempt, or gives up at the limit |
| ReviewStore.Database.ResolveReview | api/review_repository.py:1345-1611 | refusal in the program's order, or the resolution of every row it touches |
| CrashConsistency.OperatorStepMoves | api/publication_repository.py:780-797 | an operator's step leaves a workflow alone, supersedes it, or accepts a decision for it, and adds only fresh ones |
| CrashRecovery.ActKeeps | api/review_worker.py:139-226 | each read and each write of the worker and the reconciler, each command of an operator, and a crash before any of them, keep the two stores in agreement |
| CrashRecovery.ReachableConsistent | api/review_worker.py:51-116 | after any actions: a waiting workflow's checkpoint is interrupted, a resuming one's interrupted or completed with its own decision, a resolving or resolved one's completed with exactly its own; no readable checkpoint is distrusted, and resuming gives the workflow's own decision |
| CrashRecovery.NeverDistrusted | api/review_worker.py:88-114 | so reconciliation sends a workflow to manual recovery for an unreadable checkpoint only |
| CrashRecovery.GateAnswersOwnDecision | api/review_gate.py:55-82 | resuming a claimed workflow never mismatches and never finds the thread absent |
| CrashRecovery.SubmissionCommitsIffHeld | api/review_worker.py:199-226 | after the separate reads of the decision and the brief, with operators at work in between, the submission is refused only if the review was superseded or the lease has run out |
| CrashRecovery.SettlingRaisesIff | api/review_worker.py:75-115 | in a consistent system a step of the reconciler raises exactly when it hands over a review superseded since it was listed, or releases the lease of one that was superseded or whose lease is active again; else it goes on with the list |
| CrashRecovery.UnreadableNeverRaises | api/review_worker.py:61-73 | a listed workflow whose checkpoint cannot be read is sent to manual recovery or skipped as superseded, and the list goes on |
| CrashRecovery.WithdrawalEndsReconciliation | api/review_worker.py:83-103 | from every consistent state in which a resuming workflow was inspected, a verification decision for its run before the next write makes that write raise |
| ReconciliationGap.GapIsReachable | api/review_worker.py:83-103 | a concrete list of actions from the empty stores does so, for the handover and for the release |
| ReviewGate.Gate.EnsureWaiting | api/review_gate.py:89-116 | the thread waits at its interrupt |
| ReviewGate.Gate.Resume | api/review_gate.py:118-127 | an interrupted thread completes with a decision of its own review, a completed one answers with what it holds |
| ReviewGate.Gate.Inspect | api/review_gate.py:129-154 | absent, interrupted or completed |
| WorkerProgress.PassProgresses | api/review_worker.py:155-256 | a call that claims ends at rest, changes one workflow, brings it to waiting or to its decision's outcome if the checkpoint store works, else uses up one of three attempts, and strictly lowers the sum over claimable workflows of max(1, 3 - attempt_count) |
| WorkerProgress.PotentialBounded | api/review_worker.py:236-256 | that sum is at most three for each workflow that can be claimed |
| ReviewWorker.Worker.TakeUp | api/review_worker.py:155-256 | run_once after its reconciliation is exactly a pass of the transition system over the first due workflow |
| ReviewWorker.Worker.Reconcile | api/review_worker.py:51-116 | with nobody else at work it never raises, leaves every listed workflow where its checkpoint says and touches no other |
| ReviewWorker.Worker.Retry | api/review_worker.py:236-256 | the handler of a failure hands the workflow back for another attempt, and asks for a new reconciliation exactly if the lease was lost |
| ReviewWorker.Worker.RunOnce | api/review_worker.py:139-162 | a call, with its own clock reading at each check, keeps the stores in agreement, and with its lease running leaves less to do; it reports no work exactly when nothing is due |
| ReviewWorker.Worker.Drain | api/review_worker.py:258-276 | calls without interference on a clock that goes on end after at most three for each claimable workflow, with every workflow that was due at the start out of the worker's hands (waiting or resolved, if the checkpoint store works) and what no worker may take up untouched |
| ReviewWorker.Worker.Restart | api/review_worker.py:51-256 | from whatever state a crash left, once the leases have run out, a restarted worker with a working checkpoint store brings every workflow that it can take up to waiting or to its resolution |
| LeaseTime.TextOrderIsTimeOrder | api/review_repository.py:678-709 | comparing UTC isoformat texts, with the fraction left out when zero, is comparing instants |
| LeaseTime.ClaimableOrActive | api/review_repository.py:1333-1342 | at every instant a stored lease is claimable by its text or active by its instant, never both |
| LeaseTime.NeverTwoOwners | api/review_repository.py:800-817 | after a claim takes a lease over, its former owner is refused from then on |
| LeaseTime.EarlierIsLess | api/review_repository.py:1333-1342 | the order of datetime fields is the order of the microseconds they stand for in the Gregorian calendar |
| LeaseTime.TickIsNext | api/review_repository.py:682-686 | the instant of the next microsecond of the Gregorian calendar is the next number, so adding a lease is adding its microseconds |
| LeaseTime.LeaseTextsAreInstants | api/review_repository.py:678-709 | a workflow's lease is free or active at an instant exactly when the stored texts say so |
| ReviewCursor.DecodesEncoded | api/review_models.py:99-116 | base64url decoding inverts encoding on every byte string |
| ReviewCursor.RepadsEncoded | api/review_models.py:104-109 | stripping the padding and recomputing it from the length gives the padded text back |
| ReviewCursor.StringReads | api/review_models.py:99-109 | reading a JSON string inverts writing it, with every escape and surrogate pair |
| ReviewCursor.CursorRoundTrip | api/review_models.py:99-116 | a cursor decodes to the row position it was made from, whatever its characters, if that passes the two checks |
| ReviewCursor.ListReviews | api/review_repository.py:463-525 | a page is the first rows behind the cursor in order, with a next cursor exactly if more remain |
| ReviewCursor.FollowCursors | api/review_repository.py:463-525 | following the cursors yields every row exactly once, in descending (created_at, workflow_id) order, when the rows pass the two checks of a cursor |
| ReviewCursor.CursorIsUrlSafe | api/review_models.py:104-104 | a cursor has letters of the base64url alphabet only, and no padding |
| ReviewCursor.ChangingListIsRead | api/review_repository.py:463-525 | if the list changes between the pages, still no row is shown twice, the order is kept throughout, and once the last page is reached every row that was there all the time was shown |
| ReviewCursor.FollowThrough | api/review_repository.py:463-525 | following each page's cursor over the list as it then is reads those pages |
| ReviewCursor.BehindIsBelow | api/review_repository.py:474-486 | the rows behind any cursor, on the list or not, are exactly those created earlier, or at the same time with a smaller id |
| ResultSanitizer.SanitizedIsSafe | api/run_result_service.py:132-149 | a sanitised report has no host path and no checkpoint or traceback line |
| ResultSanitizer.RedactedHasNoPath | api/run_result_service.py:132-144 | leftmost-greedy redaction leaves no match anywhere, also none that it could have formed |
| ResultSanitizer.RedactShowsRest | api/run_result_service.py:132-144 | the redacted line is the line with each of its paths, read from the left, shown as the mark, and every other character as it is |
| ResultSanitizer.PathIsRedacted | api/run_result_service.py:132-134 | each root with everything up to space, a closing parenthesis or a quote becomes the mark |
| ResultSanitizer.SanitizedIsFixed | api/run_result_service.py:138-149 | sanitising again changes nothing |
| ResultSanitizer.KeptReportIsDeliverable | api/run_result_service.py:62-83 | a candidate that is kept passes the delivery check |
| ResultSanitizer.CutIsUnsafeIffRootLast | api/run_result_service.py:147-148 | the excerpt cut at the limit is unsafe if and only if the kept part ends with a bare root |
| ResultSanitizer.CutCanBeUnsafe | api/run_result_service.py:147-153 | and an agent's text exists that the sanitiser leaves as it is and whose cut at 4000 is unsafe, so that a report with it fails the delivery check |
| ResultSanitizer.SanitizeResultContent | api/run_result_service.py:138-149 | the loop over the lines computes the sanitised text, cut only past the limit |
| PlainText.EscapedIsEncoded | api/decision_brief.py:64-66 | the chain of replacements is one code per character |
| PlainText.DecodesBack | api/decision_brief.py:64-66 | the printable text can be read back from the output |
| PlainText.StructureIsEscaped | api/decision_brief.py:18-18 | an output character other than a backslash has an odd run of backslashes before it if and only if it is structural and not the number sign in the code of a single quote; at the end all backslashes pair off |
| PlainText.PlainIsOneCell | api/decision_brief.py:49-66 | the whole of it gives one non-empty line with exactly those characters escaped |
| PlainText.PlainDecodesBack | api/decision_brief.py:49-66 | the output gives back the value with its line ends and tabs unified and its control characters left out; only if nothing is left does it say "Not declared" |
| EvidenceIndex.BuildIndex | api/decision_brief.py:89-110 | an id is indexed if and only if it occurs exactly once among well-formed records with a known status, and then with that status |
| EvidenceIndex.EligibleIffNoReason | api/decision_brief.py:125-226 | with that index the eligible findings are exactly those that no specific reason excludes, and every other is listed with a reason of its own, each as often as in the brief: the fallback reason is never rendered |
| EvidenceIndex.EligibleMeansVerified | api/decision_brief.py:125-138 | a finding is eligible exactly if nothing contradicts it or the brief, it has some reference, and for each reference there is exactly one well-formed record, which says verified |
| EvidenceIndex.ReasonsSay | api/decision_brief.py:139-161 | every reason that is given holds of the finding and the records, every one that holds is given, and they stand in the program's order |
| EvidenceIndex.ExclusionReasons | api/decision_brief.py:139-161 | the reasons in the program's order, the fallback only when there is none |
| VerificationQueries.ListEffective | api/evidence_verification_repository.py:623-694 | the ranked, dictionary-joined bulk reading equals the one-row reading of every item, whose verdict is VerificationOutcomes.AcceptedIsRead |
| VerificationQueries.ReachableQueriesAgree | api/evidence_verification_repository.py:580-620 | every reachable ledger meets its precondition, and the snapshot shows the same projections |
| VerificationQueries.RowsAreNumbered | api/evidence_verification_repository.py:451-470 | the rows of an item are numbered 1..n with its own fingerprint, the latest last |

## Left out

- Two-store agreement with several workers: a late `ensure_waiting` of a worker whose lease has expired could reopen a checkpoint, so `CrashRecovery` has one worker; what holds of the application database holds for any number.
- The checkpoint store is an abstract thread that is absent, interrupted or completed; that resuming a completed thread answers with the stored decision or fails is an assumption about LangGraph.
- ReviewStore.Database.CreateRun: the caller names the run, where the program draws a random id that is assumed fresh.
- ReviewWorker.Worker.RunOnce: nobody else acts while it runs; what others may do between its reads and writes is in `CrashRecovery`.
- ReviewWorker.Worker.Drain: it ends when nothing is due, where `run_forever` waits and polls again.
- ReviewedBriefs.ReachableBriefs: a submission carries the stored brief and the stored decision; that the worker does so is `SystemRuns.SystemBriefs`.
- The rows start after the migration, with the publication table present; schema creation, migration, backup and the backfill of old runs are left out.
- Timestamps other than creation times and lease expiries, snapshot revision numbers, segment statuses, stored preflights, actor fingerprints and their length check are not in the rows.
- Hashing, JSON and pydantic validation are injective constructors and a parser that accepts what was stored; a request hash is the request itself. Only the JSON of a cursor is spelled out, and half of a surrogate pair is no character in it.
- ReviewCursor.CursorRoundTrip: what the decoder makes of a text that no encoder wrote, where it skips characters outside the alphabet and JSON allows spaces, is not modelled.
- A brief is its review summary and an opaque body; the layout of its Markdown, the talent rules that build it and the deterministic preflight are inputs.
- The legacy status `completed_with_fallback` and review actions on profiles other than talent appear only as far as the checks mention them.
- `resolve_review`'s return of an existing resolution for a published review: the publication check before it already rejects a resolved one, so at-most-once is stated and not replay.
- That every run is finalised at last: an agent result that repeats a fingerprint makes each of its finalisers roll back, which `RunFinalisers.FinaliserCommitsIffFenced` shows to be the only way besides the fence.
- HTTP routes, authentication, streaming, telemetry, the command-line client and the agent itself.
