/** When a review decision is accepted, and what every other request is answered
    (api/review_repository.py), from what a caller can read before. */
module DecisionOutcomes {
  import opened ReviewTypes
  import opened VerificationLedger
  import opened Publications
  import opened RunLifecycle
  import opened ReviewWorkflows
  import opened RunInvariant
  import opened LeasePreservation
  import opened ReviewPreservation
  import opened Evolution
  import opened Executions
  import opened RunFinalisers
  import opened ReviewOutcomes

  // The review of this revision exists.
  predicate Known(s: RunState, review: ReviewId, k: nat) {
    k in s.workflows && s.workflows[k].review == review
  }

  // It waits for a decision, and the run that it belongs to has completed.
  predicate Waits(s: RunState, review: ReviewId, k: nat) {
    Known(s, review, k) && s.workflows[k].status == WaitingDecision && s.row.execution == Completed
  }

  // The decision stored under this id is the one that is asked for; the version it was made on is
  // no part of it.
  predicate DecidedBefore(s: RunState, review: ReviewId, request: DecisionRequest) {
    && request.id in s.decisions
    && s.decisions[request.id].review == review && s.decisions[request.id].revision == request.revision
    && s.decisions[request.id].action == request.action && s.decisions[request.id].reason == request.reason
  }

  lemma WaitingIsOpen(s: RunState, k: nat)
    requires Inv(s) && k in s.workflows && s.workflows[k].status == WaitingDecision
    ensures ReviewClosed(s, s.workflows[k].review) == None && s.row.profile == Talent
    ensures s.row.review == Required && s.row.delivery == ReviewRequired && s.workflows[k].decision.None?
  {
    hide Started, Leases, Verification, Artifacts, Chain;
    ActiveAlone(s, k);
    assert DecisionKept(s, k);
    assert Chain(s) by { ChainOf(s); }
    ActiveIsOpen(s, k);
  }

  lemma ChainOf(s: RunState)
    requires Inv(s)
    ensures Chain(s)
  {
  }

  // A review has a decision exactly if its workflow carries one.
  lemma DecidedByWorkflow(s: RunState, review: ReviewId, k: nat)
    requires Inv(s)
    ensures (exists d | d in s.decisions :: s.decisions[d].review == review && s.decisions[d].revision == k) <==>
      Known(s, review, k) && s.workflows[k].decision.Some?
  {
    hide Started, Leases, Verification, Artifacts, Chain, Published;
    if exists d | d in s.decisions :: s.decisions[d].review == review && s.decisions[d].revision == k {
      var d :| d in s.decisions && s.decisions[d].review == review && s.decisions[d].revision == k;
      assert DecisionOwned(s, d);
    }
    if Known(s, review, k) && s.workflows[k].decision.Some? {
      assert DecisionKept(s, k) && DecisionOwned(s, s.workflows[k].decision.value);
    }
  }

  // In a valid state a new decision is accepted exactly if its id is unused, the review waits for
  // one, and it was made on the run as it is now.
  lemma DecisionCommitsIff(s: RunState, elsewhere: bool, review: ReviewId, request: DecisionRequest)
    requires Inv(s)
    ensures var step := AcceptReviewDecision(s, elsewhere, review, request);
      && (step.Commit? && !step.replay <==>
            !elsewhere && request.id !in s.decisions && Waits(s, review, request.revision) && request.expectedVersion == s.row.version)
      && (step.Commit? && step.replay <==> !elsewhere && DecidedBefore(s, review, request))
  {
    hide Inv, ReviewClosed;
    var k := request.revision;
    DecidedByWorkflow(s, review, k);
    if Known(s, review, k) && s.workflows[k].status == WaitingDecision { WaitingIsOpen(s, k); }
    if request.id in s.decisions { DecisionIsKnown(s, request.id); }
  }

  lemma DecisionIsKnown(s: RunState, id: DecisionId)
    requires Inv(s) && id in s.decisions
    ensures Known(s, s.decisions[id].review, s.decisions[id].revision)
  {
    assert DecisionOwned(s, id);
  }

  // What is stored is what was asked, under the version that follows.
  lemma AcceptedIsStored(s: RunState, elsewhere: bool, review: ReviewId, request: DecisionRequest)
    ensures var step := AcceptReviewDecision(s, elsewhere, review, request);
      step.Commit? && !step.replay ==>
        && request.id in step.state.decisions && DecidedBefore(step.state, review, request)
        && step.state.decisions[request.id].acceptedVersion == request.expectedVersion + 1
        && step.state.row == s.row.(version := request.expectedVersion + 1)
        && request.revision in step.state.workflows
        && step.state.workflows[request.revision].status == ResumePending
        && step.state.workflows[request.revision].decision == Some(request.id)
  {
    hide ReviewClosed;
  }

  // The publication of this revision is not the current one any more.
  predicate Withdrawn(s: RunState, k: nat) {
    0 < k <= |s.publications| && !s.publications[k - 1].current
  }

  lemma ClosedIffWithdrawn(s: RunState, k: nat)
    requires Inv(s) && k in s.workflows
    ensures ReviewClosed(s, s.workflows[k].review) == Some(ReviewSuperseded) <==> Withdrawn(s, k)
    ensures ReviewClosed(s, s.workflows[k].review).Some? ==>
      ReviewClosed(s, s.workflows[k].review).value in {ReviewSuperseded, ReviewNotWaiting}
  {
    hide Started, Leases, Decided, Published, Verification, Artifacts;
    var review := s.workflows[k].review;
    assert k in s.bundles && review == s.bundles[k].review && review.revision == k;
    if s.publications != [] { assert ChainLink(s, k - 1); }
    var index := PublicationOf(s.publications, review);
    if index.Some? { assert ChainLink(s, index.value); }
  }

  // Where the review stands, as far as the answer to a new decision depends on it.
  function Refusal(s: RunState, review: ReviewId, request: DecisionRequest): Option<Code> {
    var k := request.revision;
    if !Known(s, review, k) then Some(ReviewNotFound)
    else if s.workflows[k].decision.Some? then Some(ReviewAlreadyDecided)
    else if s.workflows[k].status == Superseded || Withdrawn(s, k) then Some(ReviewSuperseded)
    else if !Waits(s, review, k) then Some(ReviewNotWaiting)
    else if request.expectedVersion != s.row.version then Some(StaleStateVersion)
    else None
  }

  // Every answer to a request with a new id.
  lemma DecisionCodes(s: RunState, review: ReviewId, request: DecisionRequest)
    requires Inv(s) && request.id !in s.decisions
    ensures var step := AcceptReviewDecision(s, false, review, request);
      match Refusal(s, review, request)
      case Some(code) => step == Abort(code)
      case None => step.Commit? && !step.replay
  {
    hide Inv, ReviewClosed, Withdrawn;
    var k := request.revision;
    DecidedByWorkflow(s, review, k);
    if Known(s, review, k) {
      KnownIsTalent(s, k);
      ClosedIffWithdrawn(s, k);
      if s.workflows[k].status == WaitingDecision { WaitingIsOpen(s, k); }
    }
  }

  lemma KnownIsTalent(s: RunState, k: nat)
    requires Inv(s) && k in s.workflows
    ensures s.row.profile == Talent
  {
    assert k in s.bundles;
  }

  // The fence: a decision made on a row that has been written since is refused and changes nothing,
  // whatever commands wrote it.
  lemma StaleDecisionRefused(db: Db, run: RunId, commands: seq<DbCommand>, review: ReviewId, request: DecisionRequest)
    requires DbInv(db) && run in db && request.expectedVersion <= db[run].row.version
    ensures var later := Execute(db, commands);
      && run in later
      && (later[run].row != db[run].row && !DecidedBefore(later[run], review, request) ==>
            Perform(later, On(run, Decide(review, request))) == later)
  {
    hide Inv, Execute, Perform, DecidedBefore;
    var later := Execute(db, commands);
    ExecutionKeeps(db, commands);
    VersionTellsRow(db, commands, run);
    var elsewhere := UsedByAnother(later, run, Decide(review, request));
    DecisionCommitsIff(later[run], elsewhere, review, request);
    RefusedDecisionChangesNothing(later, run, review, request);
  }

  lemma RefusedDecisionChangesNothing(db: Db, run: RunId, review: ReviewId, request: DecisionRequest)
    requires run in db
    ensures var step := AcceptReviewDecision(db[run], UsedByAnother(db, run, Decide(review, request)), review, request);
      !(step.Commit? && !step.replay) ==> Perform(db, On(run, Decide(review, request))) == db
  {
    AcceptanceTakes(db[run], UsedByAnother(db, run, Decide(review, request)), review, request);
    hide AcceptReviewDecision, UsedByAnother;
    assert db[run := db[run]] == db;
  }

  // The decisions' ids ---------------------------------------------------------------------

  lemma WorkerKeepsDecisions(s: RunState, c: Command)
    requires Leases(s) && Worker(c)
    ensures var step := Apply(s, c, false); step.Commit? ==> step.state.decisions == s.decisions
  {
    WorkerStepMoves(s, c);
    hide Leases, Apply;
  }

  lemma SubmitKeepsDecisions(s: RunState, k: nat, worker: WorkerId, now: Instant, version: nat,
                             original: Content, id: DecisionId, d: ReviewDecision)
    ensures var step := Submit(s, k, worker, now, version, original, id, d); step.Commit? ==> step.state.decisions == s.decisions
  {
    SubmissionAccepted(s, k, worker, now, version, original, id, d);
    hide Submit;
  }

  lemma PreparationKeepsDecisions(s: RunState)
    ensures AdoptBaseline(s).decisions == s.decisions && StaleCurrent(s).decisions == s.decisions
  {
  }

  lemma PublishKeepsDecisions(s: RunState, version: nat, build: Build, now: Instant)
    ensures var step := FinalizePublication(s, version, build, now); step.Commit? ==> step.state.decisions == s.decisions
  {
    hide AdoptBaseline, EffectiveSnapshot, PublicationInsertable, BuiltReview, BuiltBrief, NewestIndex, CurrentIndex, InsertAll, WorkflowOf;
    PreparationKeepsDecisions(s);
  }

  lemma FinishKeepsDecisions(s: RunState, a: FinalArguments, now: Instant)
    ensures var step := FinalizeRun(s, a, now); step.Commit? ==> step.state.decisions == s.decisions
  {
  }

  lemma VerifyKeepsDecisions(s: RunState, elsewhere: bool, item: EvidenceId, request: VerificationRequest)
    ensures var step := AcceptVerification(s, elsewhere, item, request); step.Commit? ==> step.state.decisions == s.decisions
  {
    hide AdoptBaseline, StaleCurrent, FindVerification, MaxRevision;
    var adopted := AdoptBaseline(s);
    PreparationKeepsDecisions(s);
    PreparationKeepsDecisions(adopted.(ledger := adopted.ledger + [NewVerification(item, request, MaxRevision(s.ledger, item, request.fingerprint) + 1)]));
  }

  lemma PlainKeepsDecisions(s: RunState, c: Command, elsewhere: bool)
    requires c.Start? || c.TakeSnapshot?
    ensures After(s, c, elsewhere).decisions == s.decisions
  {
  }

  // Only an accepted review decision adds to the decisions.
  lemma DecisionsUnchanged(s: RunState, c: Command, elsewhere: bool)
    requires Leases(s) && !c.Decide?
    ensures After(s, c, elsewhere).decisions == s.decisions
  {
    hide Leases, Submit, FinalizePublication, FinalizeRun, AcceptVerification, TransitionToRunning, FinalizeSnapshot;
    match c {
      case Finish(a, now) => FinishKeepsDecisions(s, a, now);
      case Verify(item, request) => VerifyKeepsDecisions(s, elsewhere, item, request);
      case Publish(version, build, now) => PublishKeepsDecisions(s, version, build, now);
      case SubmitReview(k, worker, now, version, original, id, d) => SubmitKeepsDecisions(s, k, worker, now, version, original, id, d);
      case Start(_) => PlainKeepsDecisions(s, c, elsewhere);
      case TakeSnapshot => PlainKeepsDecisions(s, c, elsewhere);
      case _ => WorkerKeepsDecisions(s, c);
    }
    hide AcceptReviewDecision, ClaimWorkflow, CompleteCheckpointCreation, MarkWaitingDecision, MarkResolutionPending,
      MarkManualRecovery, ReleaseExpiredLease, ReleaseForRetry;
  }

  // A decision id belongs to one run.
  ghost predicate DecisionsApart(db: Db) {
    forall run, other, id | run in db && other in db && id in db[run].decisions && id in db[other].decisions :: run == other
  }

  predicate DecidedAnywhere(db: Db, id: DecisionId) {
    exists run | run in db :: id in db[run].decisions
  }

  lemma DecisionsAfter(db: Db, c: DbCommand, run: RunId)
    requires DbInv(db) && run in db
    ensures run in Perform(db, c)
    ensures forall id | id in Perform(db, c)[run].decisions && id !in db[run].decisions ::
      c.On? && c.run == run && !DecidedAnywhere(db, id)
  {
    hide Inv, After, AcceptReviewDecision, CreateRun;
    if c.On? && c.run == run {
      LeasesHold(db[run]);
      if c.command.Decide? {
        DecideAfter(db, run, c.command.review, c.command.decision);
      } else {
        DecisionsUnchanged(db[run], c.command, UsedByAnother(db, run, c.command));
      }
    }
  }

  lemma DecideAfter(db: Db, run: RunId, review: ReviewId, request: DecisionRequest)
    requires DbInv(db) && run in db
    ensures var elsewhere := UsedByAnother(db, run, Decide(review, request));
      forall id | id in After(db[run], Decide(review, request), elsewhere).decisions && id !in db[run].decisions :: !DecidedAnywhere(db, id)
  {
    hide Inv;
    var elsewhere := UsedByAnother(db, run, Decide(review, request));
    AcceptanceTakes(db[run], elsewhere, review, request);
    DecisionCommitsIff(db[run], elsewhere, review, request);
    hide AcceptReviewDecision;
  }

  lemma PerformKeepsApart(db: Db, c: DbCommand)
    requires DbInv(db) && DecisionsApart(db)
    ensures DecisionsApart(Perform(db, c))
  {
    hide Inv, Perform, UsedByAnother;
    var after := Perform(db, c);
    PerformedRuns(db, c);
    forall run | run in db
      ensures forall id | id in after[run].decisions && id !in db[run].decisions :: c.On? && c.run == run && !DecidedAnywhere(db, id)
    {
      DecisionsAfter(db, c, run);
    }
  }

  lemma PerformedRuns(db: Db, c: DbCommand)
    ensures db.Keys <= Perform(db, c).Keys
    ensures forall run | run in Perform(db, c) && run !in db :: Perform(db, c)[run].decisions == map[]
  {
    hide After, UsedByAnother;
  }

  lemma {:induction false} ExecutionKeepsApart(db: Db, commands: seq<DbCommand>)
    requires DbInv(db) && DecisionsApart(db)
    ensures DecisionsApart(Execute(db, commands))
    decreases |commands|
  {
    hide Inv, Perform, DecisionsApart;
    if commands != [] {
      PerformKeeps(db, commands[0]);
      PerformKeepsApart(db, commands[0]);
      ExecutionKeepsApart(Perform(db, commands[0]), commands[1..]);
    }
  }

  lemma ReachableApart(commands: seq<DbCommand>)
    ensures DecisionsApart(Execute(map[], commands))
  {
    ExecutionKeepsApart(map[], commands);
  }

  // Once accepted, the same decision is answered with its row for ever and changes nothing, on
  // whatever version it is asked again; its id is refused to every other decision and every other run.
  lemma DecidedAgain(db: Db, run: RunId, review: ReviewId, request: DecisionRequest, commands: seq<DbCommand>,
                     other: RunId, otherReview: ReviewId, otherRequest: DecisionRequest)
    requires DbInv(db) && DecisionsApart(db) && run in db && DecidedBefore(db[run], review, request)
    requires otherRequest.id == request.id
    ensures var later := Execute(db, commands);
      && run in later
      && (other in later ==>
            AcceptReviewDecision(later[other], UsedByAnother(later, other, Decide(otherReview, otherRequest)), otherReview, otherRequest) ==
              if other == run && SameDecision(review, request, otherReview, otherRequest) then Commit(later[run], true)
              else Abort(DecisionIdConflict))
  {
    hide Inv, Execute, DecisionsApart, AcceptReviewDecision, Evolves;
    ExecutionKeeps(db, commands);
    ExecutionEvolves(db, commands);
    ExecutionKeepsApart(db, commands);
    var later := Execute(db, commands);
    StillDecided(db[run], later[run], review, request);
    if other in later { UsedIdAnswers(later, run, review, request, other, otherReview, otherRequest); }
  }

  predicate SameDecision(review: ReviewId, request: DecisionRequest, otherReview: ReviewId, otherRequest: DecisionRequest) {
    otherReview == review && otherRequest == request.(expectedVersion := otherRequest.expectedVersion)
  }

  lemma StillDecided(s: RunState, t: RunState, review: ReviewId, request: DecisionRequest)
    requires Evolves(s, t) && DecidedBefore(s, review, request)
    ensures DecidedBefore(t, review, request)
  {
    assert ReviewsEvolve(s, t);
  }

  lemma UsedIdAnswers(db: Db, run: RunId, review: ReviewId, request: DecisionRequest,
                      other: RunId, otherReview: ReviewId, otherRequest: DecisionRequest)
    requires DbInv(db) && DecisionsApart(db) && run in db && other in db && DecidedBefore(db[run], review, request)
    requires otherRequest.id == request.id
    ensures AcceptReviewDecision(db[other], UsedByAnother(db, other, Decide(otherReview, otherRequest)), otherReview, otherRequest) ==
      if other == run && SameDecision(review, request, otherReview, otherRequest) then Commit(db[run], true) else Abort(DecisionIdConflict)
  {
    hide Inv, ReviewClosed;
    if other == run { DecisionIsKnown(db[run], request.id); }
  }

  // Failed runs ----------------------------------------------------------------------------

  // A run that failed is never decided, whatever is published of it.
  lemma FailedRunNeverDecided(db: Db, run: RunId, commands: seq<DbCommand>, review: ReviewId, request: DecisionRequest)
    requires DbInv(db) && run in db && db[run].row.execution == Failed
    ensures var later := Execute(db, commands);
      && run in later
      && Perform(later, On(run, Decide(review, request))) == later
  {
    hide Inv, Execute, Perform, Evolves, AcceptReviewDecision;
    var later := Execute(db, commands);
    ExecutionKeeps(db, commands);
    ExecutionEvolves(db, commands);
    StaysFailed(db[run], later[run]);
    var elsewhere := UsedByAnother(later, run, Decide(review, request));
    DecisionCommitsIff(later[run], elsewhere, review, request);
    RefusedDecisionChangesNothing(later, run, review, request);
  }

  lemma StaysFailed(s: RunState, t: RunState)
    requires Evolves(s, t) && s.row.execution == Failed
    ensures t.row.execution == Failed
  {
  }
}
