/** What a step of a worker or of the reconciler does to its workflow, and what the numbered attempts
    of a review tell of it in every state that is reached (api/review_repository.py). */
module AttemptLedger {
  import opened ReviewTypes
  import opened VerificationLedger
  import opened Publications
  import opened RunLifecycle
  import opened ReviewWorkflows
  import opened ReviewResolution
  import opened RunInvariant
  import opened LeasePreservation
  import opened ReviewPreservation
  import opened RunPreservation
  import opened Executions
  import opened ReviewOutcomes
  import opened CrashConsistency

  // One step --------------------------------------------------------------------------------

  // The workflow waits for a worker: nobody has it, or the time of the one who had it is up.
  predicate Due(w: Workflow, now: Instant) {
    && (w.status == CheckpointPending || w.status == ResumePending || w.status == Resuming || w.status == ResolutionPending)
    && (w.owner == None || w.expires == None || w.expires.value <= now)
  }

  predicate Holds(w: Workflow, worker: WorkerId, now: Instant) {
    w.owner == Some(worker) && w.expires.Some? && now < w.expires.value
  }

  // Nothing of the run moves but this workflow's status, lease, count and error, and its attempts.
  ghost predicate Moved(s: RunState, t: RunState, k: nat) {
    && k in s.workflows && k in t.workflows
    && t == s.(workflows := s.workflows[k := t.workflows[k]], attempts := t.attempts, segments := t.segments)
    && var w := t.workflows[k];
    && w == s.workflows[k].(status := w.status, owner := w.owner, expires := w.expires, attemptCount := w.attemptCount, lastError := w.lastError)
  }

  // The workflow is taken up until an instant, under the next attempt, in its own segment.
  ghost predicate TakenUp(s: RunState, t: RunState, k: nat, worker: WorkerId, until: Instant) {
    && Moved(s, t, k)
    && var before, w := s.workflows[k], t.workflows[k];
    && w.status == (if before.status == ResumePending then Resuming else before.status)
    && w.owner == Some(worker) && w.expires == Some(until) && w.lastError == before.lastError
    && w.attemptCount == before.attemptCount + 1
    && (k, w.attemptCount) !in s.attempts && t.attempts == s.attempts[(k, w.attemptCount) := Attempt(worker, None)]
    && t.segments.Keys == s.segments.Keys + {k} && t.segments[k] == PostReviewSegment(w.review)
    && (forall q | q in s.segments :: t.segments[q] == s.segments[q])
  }

  // The workflow is let go: its lease is free, and its last attempt, if still open, has the outcome.
  ghost predicate LetGo(s: RunState, t: RunState, k: nat, status: WorkflowStatus, lastError: Option<Code>, outcome: AttemptOutcome) {
    Moved(s, t, k) && t.segments == s.segments && Freed(s, t, k, status, lastError) && Closed(s, t, k, outcome)
  }

  predicate Freed(s: RunState, t: RunState, k: nat, status: WorkflowStatus, lastError: Option<Code>)
    requires k in s.workflows
  {
    t.workflows == s.workflows[k := s.workflows[k].(status := status, owner := None, expires := None, lastError := lastError)]
  }

  ghost predicate Closed(s: RunState, t: RunState, k: nat, outcome: AttemptOutcome)
    requires k in s.workflows
  {
    && t.attempts.Keys == s.attempts.Keys
    && (forall key | key in s.attempts :: t.attempts[key].worker == s.attempts[key].worker &&
          t.attempts[key].outcome ==
            if key == (k, s.workflows[k].attemptCount) && s.attempts[key].outcome == None then Some(outcome) else s.attempts[key].outcome)
  }

  // A claim takes what is due and nothing else; until its end the lease is the worker's alone.
  lemma ClaimTakesUp(s: RunState, k: nat, worker: WorkerId, now: Instant, lease: Instant)
    requires Bundled(s) && Started(s) && Leases(s)
    ensures var step := ClaimWorkflow(s, k, worker, now, lease);
      && (step.Commit? <==> lease > 0 && k in s.workflows && Due(s.workflows[k], now))
      && (step.Abort? ==> step.code == if lease <= 0 then InvalidArgument else NothingToClaim)
      && (step.Commit? ==>
            && !step.replay && TakenUp(s, step.state, k, worker, now + lease)
            && (forall at: Instant, other :: Holds(step.state.workflows[k], other, at) <==> other == worker && at < now + lease)
            && (forall at: Instant :: Due(step.state.workflows[k], at) <==> at >= now + lease))
  {
    ClaimCommits(s, k, worker, now, lease);
    hide TakenUp, Holds, Due, ClaimWorkflow, Claimable;
    ClaimIsDue(s, k, now);
    if lease > 0 && Claimable(s, k, now) {
      ClaimedRows(s, k, worker, now, lease);
      hide Bundled, Started, Leases;
      LeaseIsAlone(s, ClaimWorkflow(s, k, worker, now, lease).state, k, worker, now + lease);
    } else {
      ClaimRefused(s, k, worker, now, lease);
    }
  }

  lemma ClaimIsDue(s: RunState, k: nat, now: Instant)
    ensures Claimable(s, k, now) <==> k in s.workflows && Due(s.workflows[k], now)
  {
  }

  lemma ClaimRefused(s: RunState, k: nat, worker: WorkerId, now: Instant, lease: Instant)
    requires lease <= 0 || !Claimable(s, k, now)
    ensures ClaimWorkflow(s, k, worker, now, lease) == Abort(if lease <= 0 then InvalidArgument else NothingToClaim)
  {
  }

  lemma ClaimedRows(s: RunState, k: nat, worker: WorkerId, now: Instant, lease: Instant)
    requires Bundled(s) && Started(s) && Leases(s) && lease > 0 && Claimable(s, k, now)
    ensures var step := ClaimWorkflow(s, k, worker, now, lease);
      step.Commit? && !step.replay && TakenUp(s, step.state, k, worker, now + lease) && s.workflows[k].status.Claimable()
  {
    assert LeaseKept(s, k);
    SegmentIsFree(s, k);
    hide Bundled, Started, Leases;
  }

  // Until its end a lease is its worker's alone, and nobody can claim.
  lemma LeaseIsAlone(s: RunState, t: RunState, k: nat, worker: WorkerId, until: Instant)
    requires TakenUp(s, t, k, worker, until) && s.workflows[k].status.Claimable()
    ensures forall at: Instant, other :: Holds(t.workflows[k], other, at) <==> other == worker && at < until
    ensures forall at: Instant :: Due(t.workflows[k], at) <==> at >= until
  {
  }

  // The holder of a lease has the open attempt.
  lemma HolderAttempts(s: RunState, k: nat, worker: WorkerId, now: Instant)
    requires Leases(s) && k in s.workflows && Holds(s.workflows[k], worker, now)
    ensures var key := (k, s.workflows[k].attemptCount); key in s.attempts && s.attempts[key] == Attempt(worker, None)
    ensures s.workflows[k].status == CheckpointPending || s.workflows[k].status == Resuming || s.workflows[k].status == ResolutionPending
  {
    assert LeaseKept(s, k);
  }

  lemma ReleaseLetsGo(s: RunState, k: nat, status: WorkflowStatus, lastError: Option<Code>, outcome: AttemptOutcome)
    requires k in s.workflows
    ensures LetGo(s, ReleaseTo(s, k, Released(s.workflows[k], status).(lastError := lastError), outcome), k, status, lastError, outcome)
  {
  }

  lemma CompletionLetsGo(s: RunState, k: nat, worker: WorkerId, now: Instant)
    requires Leases(s)
    ensures var step := CompleteCheckpointCreation(s, k, worker, now);
      && (step.Commit? <==> k in s.workflows && Holds(s.workflows[k], worker, now) && s.workflows[k].status == CheckpointPending)
      && (step.Commit? ==> !step.replay && LetGo(s, step.state, k, WaitingDecision, None, CheckpointCreated))
  {
    if k in s.workflows && Holds(s.workflows[k], worker, now) { HolderAttempts(s, k, worker, now); }
    hide Leases;
  }

  lemma WaitingLetsGo(s: RunState, k: nat)
    ensures var step := MarkWaitingDecision(s, k);
      && (step.Commit? <==> k in s.workflows)
      && (step.Commit? && s.workflows[k].status == CheckpointPending ==> !step.replay && LetGo(s, step.state, k, WaitingDecision, None, CheckpointReconciled))
      && (step.Commit? && s.workflows[k].status != CheckpointPending ==> step.replay && step.state == s)
  {
  }

  // A worker's handover goes on under its lease; the reconciler's lets the workflow go.
  lemma HandOverMoves(s: RunState, k: nat, holder: Option<WorkerId>, now: Instant, decision: DecisionId)
    ensures var step := MarkResolutionPending(s, k, holder, now, decision);
      && (step.Commit? <==> k in s.workflows && s.workflows[k].status == Resuming && s.workflows[k].decision == Some(decision)
                            && (holder.Some? ==> Holds(s.workflows[k], holder.value, now)))
      && (step.Commit? && holder.Some? ==>
            && !step.replay && k in step.state.workflows
            && step.state == s.(workflows := s.workflows[k := step.state.workflows[k]])
            && step.state.workflows[k].status == ResolutionPending
            && step.state.workflows[k] == s.workflows[k].(status := step.state.workflows[k].status))
      && (step.Commit? && holder.None? ==> !step.replay && LetGo(s, step.state, k, ResolutionPending, s.workflows[k].lastError, CheckpointReconciled))
  {
  }

  // Only its holder, or the reconciler while it is unfinished, gives a workflow up to an operator.
  lemma ManualLetsGo(s: RunState, k: nat, holder: Option<WorkerId>, now: Instant, error: Code)
    requires Leases(s)
    ensures var step := MarkManualRecovery(s, k, holder, now, error);
      && (step.Commit? <==> k in s.workflows && if holder.Some? then Holds(s.workflows[k], holder.value, now) else
            s.workflows[k].status !in {Approved, Rejected, Superseded, ManualRecovery})
      && (step.Commit? ==> !step.replay && LetGo(s, step.state, k, ManualRecovery, Some(error), SentToManualRecovery))
      && (step.Abort? <==> step == Abort(if k !in s.workflows then ReviewNotFound else if s.workflows[k].status == Superseded then ReviewSuperseded else LeaseNotOwned))
  {
    if k in s.workflows {
      if holder.Some? && Holds(s.workflows[k], holder.value, now) { HolderAttempts(s, k, holder.value, now); }
      ReleaseLetsGo(s, k, ManualRecovery, Some(error), SentToManualRecovery);
    }
    hide Leases, LetGo, ReleaseTo;
  }

  // A resumption whose time is up goes back to those that are due.
  lemma ExpiryLetsGo(s: RunState, k: nat, now: Instant)
    ensures var step := ReleaseExpiredLease(s, k, now);
      && (step.Commit? <==> k in s.workflows && s.workflows[k].status == Resuming && (s.workflows[k].expires == None || s.workflows[k].expires.value <= now))
      && (step.Commit? ==> !step.replay && LetGo(s, step.state, k, ResumePending, s.workflows[k].lastError, LeaseExpired))
      && (step.Abort? ==> step.code == if k in s.workflows then LeaseNotExpired else ReviewNotFound)
  {
  }

  // After a failure the workflow is due again, until it has been tried as often as allowed.
  lemma RetryLetsGo(s: RunState, k: nat, worker: WorkerId, now: Instant, error: Code, maxAttempts: nat)
    requires Leases(s)
    ensures var step := ReleaseForRetry(s, k, worker, now, error, maxAttempts);
      && (step.Commit? <==> k in s.workflows && Holds(s.workflows[k], worker, now))
      && (step.Commit? && s.workflows[k].attemptCount >= maxAttempts ==>
            !step.replay && LetGo(s, step.state, k, ManualRecovery, Some(error), SentToManualRecovery))
      && (step.Commit? && s.workflows[k].attemptCount < maxAttempts ==>
            && !step.replay
            && LetGo(s, step.state, k, if s.workflows[k].status == Resuming then ResumePending else s.workflows[k].status, Some(error), Retry)
            && forall at: Instant :: Due(step.state.workflows[k], at))
      && (step.Abort? ==> step.code == if k in s.workflows then LeaseNotOwned else ReviewNotFound)
  {
    if k in s.workflows {
      if Holds(s.workflows[k], worker, now) { HolderAttempts(s, k, worker, now); }
      var status := s.workflows[k].status;
      ReleaseLetsGo(s, k, ManualRecovery, Some(error), SentToManualRecovery);
      ReleaseLetsGo(s, k, if status == Resuming then ResumePending else status, Some(error), Retry);
      RetriedIsDue(s, k, worker, now, error, maxAttempts);
    }
    hide Leases, LetGo, ReleaseTo, Due;
  }

  lemma RetriedIsDue(s: RunState, k: nat, worker: WorkerId, now: Instant, error: Code, maxAttempts: nat)
    requires k in s.workflows
    ensures var step := ReleaseForRetry(s, k, worker, now, error, maxAttempts);
      step.Commit? && s.workflows[k].attemptCount < maxAttempts ==>
        k in step.state.workflows && forall at: Instant :: Due(step.state.workflows[k], at)
  {
  }

  // What the attempts tell ------------------------------------------------------------------

  // An attempt that ends the review.
  predicate Final(outcome: Option<AttemptOutcome>) {
    outcome == Some(OutcomeApproved) || outcome == Some(OutcomeRejected) || outcome == Some(SentToManualRecovery)
  }

  // What the last attempt's outcome says of the workflow; none while it is still open.
  predicate LastTells(w: Workflow, outcome: Option<AttemptOutcome>) {
    match w.status
    case CheckpointPending => outcome == if w.owner.Some? then None else Some(Retry)
    case WaitingDecision => outcome == Some(CheckpointCreated) || outcome == Some(CheckpointReconciled) || outcome == Some(Retry)
    case ResumePending => outcome.Some? && !Final(outcome)
    case Resuming => outcome == None
    case ResolutionPending => if w.owner.Some? then outcome == None else outcome == Some(CheckpointReconciled) || outcome == Some(Retry)
    case Approved => outcome == Some(OutcomeApproved)
    case Rejected => outcome == Some(OutcomeRejected)
    case Superseded => !Final(outcome)
    case ManualRecovery => outcome.Some? && outcome != Some(OutcomeApproved) && outcome != Some(OutcomeRejected)
  }

  // The attempts are numbered 1..attempt_count. All but the last are past and did not end the review; one
  // of them is open only if its lease ran out. The last tells where the workflow stands.
  ghost predicate AttemptsTell(s: RunState, k: nat)
    requires k in s.workflows
  {
    var w := s.workflows[k];
    && (forall a: nat :: (k, a) in s.attempts <==> 1 <= a <= w.attemptCount)
    && (forall a: nat | 1 <= a < w.attemptCount :: !Final(s.attempts[(k, a)].outcome))
    && (w.attemptCount > 0 ==> LastTells(w, s.attempts[(k, w.attemptCount)].outcome))
    && (w.attemptCount == 0 ==> w.status !in {Resuming, ResolutionPending, Approved, Rejected} && w.owner.None?)
    && (w.status == WaitingDecision ==> w.lastError.None?)
    && (w.status == ManualRecovery || (w.status == CheckpointPending && w.owner.None? && w.attemptCount > 0) ==> w.lastError.Some?)
  }

  ghost predicate AllTell(s: RunState) {
    forall k | k in s.workflows :: AttemptsTell(s, k)
  }

  // A closed attempt, or one that another has followed, stays as it is.
  ghost predicate AttemptsStay(s: RunState, t: RunState) {
    && (forall k | k in s.workflows :: k in t.workflows && s.workflows[k].attemptCount <= t.workflows[k].attemptCount
          && t.workflows[k].createdAt == s.workflows[k].createdAt)
    && (forall key: (nat, nat) | key in s.attempts :: key in t.attempts && t.attempts[key].worker == s.attempts[key].worker
          && (s.attempts[key].outcome.Some? || (key.0 in s.workflows && key.1 < s.workflows[key.0].attemptCount) ==>
                t.attempts[key] == s.attempts[key]))
  }

  lemma StayIsTransitive(s: RunState, t: RunState, u: RunState)
    requires AttemptsStay(s, t) && AttemptsStay(t, u)
    ensures AttemptsStay(s, u)
  {
  }

  lemma TakenUpTells(s: RunState, t: RunState, k: nat, worker: WorkerId, now: Instant, until: Instant)
    requires AllTell(s) && TakenUp(s, t, k, worker, until) && Due(s.workflows[k], now)
    ensures AllTell(t) && AttemptsStay(s, t)
  {
    hide TakenUp, Due;
    assert AttemptsTell(s, k) by { TakenUpIs(s, t, k, worker, until); }
    TakenTells(s, t, k, worker, now, until);
    TakenStays(s, t, k, worker, until);
    TakenUpIs(s, t, k, worker, until);
    hide AttemptsTell, AttemptsStay;
    forall j | j in t.workflows ensures AttemptsTell(t, j) {
      assert AttemptsTell(s, j);
      if j != k { NotTakenTells(s, t, k, worker, until, j); }
    }
  }

  lemma TakenUpIs(s: RunState, t: RunState, k: nat, worker: WorkerId, until: Instant)
    requires TakenUp(s, t, k, worker, until)
    ensures k in s.workflows && t.workflows.Keys == s.workflows.Keys
  {
  }

  lemma TakenStays(s: RunState, t: RunState, k: nat, worker: WorkerId, until: Instant)
    requires TakenUp(s, t, k, worker, until)
    ensures AttemptsStay(s, t)
  {
  }

  lemma TakenTells(s: RunState, t: RunState, k: nat, worker: WorkerId, now: Instant, until: Instant)
    requires TakenUp(s, t, k, worker, until) && Due(s.workflows[k], now) && AttemptsTell(s, k)
    ensures AttemptsTell(t, k)
  {
  }

  lemma NotTakenTells(s: RunState, t: RunState, k: nat, worker: WorkerId, until: Instant, j: nat)
    requires TakenUp(s, t, k, worker, until) && j != k && j in s.workflows && AttemptsTell(s, j)
    ensures AttemptsTell(t, j)
  {
  }

  // Where letting go with an outcome may lead.
  predicate MayLetGo(before: Workflow, status: WorkflowStatus, lastError: Option<Code>, outcome: AttemptOutcome) {
    match status
    case CheckpointPending => before.status == CheckpointPending && before.owner.Some? && outcome == Retry && lastError.Some?
    case WaitingDecision => before.status == CheckpointPending && (outcome == CheckpointCreated || outcome == CheckpointReconciled) && lastError.None?
    case ResumePending => before.status == Resuming && !Final(Some(outcome))
    case ResolutionPending =>
      (before.status == Resuming && outcome == CheckpointReconciled) || (before.status == ResolutionPending && before.owner.Some? && outcome == Retry)
    case Approved => before.status == ResolutionPending && before.owner.Some? && outcome == OutcomeApproved
    case Rejected => before.status == ResolutionPending && before.owner.Some? && outcome == OutcomeRejected
    case ManualRecovery => before.status.Active() && outcome == SentToManualRecovery && lastError.Some?
    case _ => false
  }

  lemma LetGoTells(s: RunState, t: RunState, k: nat, status: WorkflowStatus, lastError: Option<Code>, outcome: AttemptOutcome)
    requires AllTell(s) && k in s.workflows && Freed(s, t, k, status, lastError) && Closed(s, t, k, outcome)
    requires MayLetGo(s.workflows[k], status, lastError, outcome)
    ensures AllTell(t) && AttemptsStay(s, t)
  {
    assert AttemptsTell(s, k);
    ClosedTells(s, t, k, status, lastError, outcome);
    ClosedStays(s, t, k, status, lastError, outcome);
    forall j | j in t.workflows ensures AttemptsTell(t, j) {
      assert AttemptsTell(s, j);
      if j != k { OtherTells(s, t, k, status, lastError, outcome, j); }
    }
  }

  lemma ClosedTells(s: RunState, t: RunState, k: nat, status: WorkflowStatus, lastError: Option<Code>, outcome: AttemptOutcome)
    requires k in s.workflows && AttemptsTell(s, k) && Freed(s, t, k, status, lastError) && Closed(s, t, k, outcome)
    requires MayLetGo(s.workflows[k], status, lastError, outcome)
    ensures AttemptsTell(t, k)
  {
  }

  lemma OtherTells(s: RunState, t: RunState, k: nat, status: WorkflowStatus, lastError: Option<Code>, outcome: AttemptOutcome, j: nat)
    requires k in s.workflows && Freed(s, t, k, status, lastError) && Closed(s, t, k, outcome)
    requires j != k && j in s.workflows && AttemptsTell(s, j)
    ensures AttemptsTell(t, j)
  {
  }

  lemma ClosedStays(s: RunState, t: RunState, k: nat, status: WorkflowStatus, lastError: Option<Code>, outcome: AttemptOutcome)
    requires k in s.workflows && Freed(s, t, k, status, lastError) && Closed(s, t, k, outcome)
    ensures AttemptsStay(s, t)
  {
  }

  lemma HandedOverTells(s: RunState, t: RunState, k: nat)
    requires AllTell(s) && k in s.workflows && s.workflows[k].status == Resuming && s.workflows[k].owner.Some?
    requires t == s.(workflows := s.workflows[k := s.workflows[k].(status := ResolutionPending)])
    ensures AllTell(t) && AttemptsStay(s, t)
  {
    forall j | j in t.workflows ensures AttemptsTell(t, j) { assert AttemptsTell(s, j); }
  }

  lemma StaysSame(s: RunState)
    ensures AttemptsStay(s, s)
  {
  }

  lemma WorkerTells(s: RunState, c: Command)
    requires Inv(s) && AllTell(s) && Worker(c)
    ensures AllTell(After(s, c, false)) && AttemptsStay(s, After(s, c, false))
  {
    StaysSame(s);
    hide Chain, Decided, Published, Verification, Artifacts, AllTell, AttemptsStay, LetGo, TakenUp, Holds, Due;
    match c
    case Claim(k, worker, now, lease) => ClaimTells(s, k, worker, now, lease);
    case CompleteCheckpoint(k, worker, now) => CompletionTells(s, k, worker, now);
    case MarkWaiting(k) => WaitingTells(s, k);
    case HandOver(k, holder, now, id) => HandOverTells(s, k, holder, now, id);
    case SendToManual(k, holder, now, error) => ManualTells(s, k, holder, now, error);
    case ReleaseExpired(k, now) => ExpiryTells(s, k, now);
    case ReleaseRetry(k, worker, now, error, max) => RetryTells(s, k, worker, now, error, max);
  }

  lemma ClaimTells(s: RunState, k: nat, worker: WorkerId, now: Instant, lease: Instant)
    requires Bundled(s) && Started(s) && Leases(s) && AllTell(s)
    ensures var step := ClaimWorkflow(s, k, worker, now, lease); step.Commit? ==> AllTell(step.state) && AttemptsStay(s, step.state)
  {
    hide Bundled, Started, Leases, AllTell, AttemptsStay, ClaimWorkflow, TakenUp, Due, Holds;
    ClaimTakesUp(s, k, worker, now, lease);
    var step := ClaimWorkflow(s, k, worker, now, lease);
    if step.Commit? { TakenUpTells(s, step.state, k, worker, now, now + lease); }
  }

  lemma CompletionTells(s: RunState, k: nat, worker: WorkerId, now: Instant)
    requires Leases(s) && AllTell(s)
    ensures var step := CompleteCheckpointCreation(s, k, worker, now); step.Commit? ==> AllTell(step.state) && AttemptsStay(s, step.state)
  {
    CompletionLetsGo(s, k, worker, now);
    hide Leases, AllTell, AttemptsStay, CompleteCheckpointCreation, LetGo;
    var step := CompleteCheckpointCreation(s, k, worker, now);
    if step.Commit? { LetGoTells(s, step.state, k, WaitingDecision, None, CheckpointCreated); }
  }

  lemma WaitingTells(s: RunState, k: nat)
    requires AllTell(s)
    ensures var step := MarkWaitingDecision(s, k); step.Commit? ==> AllTell(step.state) && AttemptsStay(s, step.state)
  {
    WaitingLetsGo(s, k);
    StaysSame(s);
    hide AllTell, AttemptsStay, MarkWaitingDecision, LetGo;
    var step := MarkWaitingDecision(s, k);
    if step.Commit? && !step.replay { LetGoTells(s, step.state, k, WaitingDecision, None, CheckpointReconciled); }
  }

  lemma HandOverTells(s: RunState, k: nat, holder: Option<WorkerId>, now: Instant, id: DecisionId)
    requires AllTell(s)
    ensures var step := MarkResolutionPending(s, k, holder, now, id); step.Commit? ==> AllTell(step.state) && AttemptsStay(s, step.state)
  {
    HandOverMoves(s, k, holder, now, id);
    hide AllTell, AttemptsStay, MarkResolutionPending, LetGo;
    var step := MarkResolutionPending(s, k, holder, now, id);
    if step.Commit? {
      if holder.Some? { HandedOverTells(s, step.state, k); }
      else { LetGoTells(s, step.state, k, ResolutionPending, s.workflows[k].lastError, CheckpointReconciled); }
    }
  }

  lemma ManualTells(s: RunState, k: nat, holder: Option<WorkerId>, now: Instant, error: Code)
    requires Leases(s) && AllTell(s)
    ensures var step := MarkManualRecovery(s, k, holder, now, error); step.Commit? ==> AllTell(step.state) && AttemptsStay(s, step.state)
  {
    ManualLetsGo(s, k, holder, now, error);
    if k in s.workflows && holder.Some? && Holds(s.workflows[k], holder.value, now) { HolderAttempts(s, k, holder.value, now); }
    hide Leases, AllTell, AttemptsStay, MarkManualRecovery, LetGo, Holds;
    var step := MarkManualRecovery(s, k, holder, now, error);
    if step.Commit? { LetGoTells(s, step.state, k, ManualRecovery, Some(error), SentToManualRecovery); }
  }

  lemma ExpiryTells(s: RunState, k: nat, now: Instant)
    requires AllTell(s)
    ensures var step := ReleaseExpiredLease(s, k, now); step.Commit? ==> AllTell(step.state) && AttemptsStay(s, step.state)
  {
    ExpiryLetsGo(s, k, now);
    hide AllTell, AttemptsStay, ReleaseExpiredLease, LetGo;
    var step := ReleaseExpiredLease(s, k, now);
    if step.Commit? { LetGoTells(s, step.state, k, ResumePending, s.workflows[k].lastError, LeaseExpired); }
  }

  lemma RetryTells(s: RunState, k: nat, worker: WorkerId, now: Instant, error: Code, maxAttempts: nat)
    requires Leases(s) && AllTell(s)
    ensures var step := ReleaseForRetry(s, k, worker, now, error, maxAttempts); step.Commit? ==> AllTell(step.state) && AttemptsStay(s, step.state)
  {
    hide Leases, AllTell, AttemptsStay, ReleaseForRetry, Moved, Freed, Closed, Due;
    RetryLetsGo(s, k, worker, now, error, maxAttempts);
    if k in s.workflows && Holds(s.workflows[k], worker, now) { HolderAttempts(s, k, worker, now); }
    var step := ReleaseForRetry(s, k, worker, now, error, maxAttempts);
    if step.Commit? {
      var w := s.workflows[k];
      if w.attemptCount >= maxAttempts { LetGoTells(s, step.state, k, ManualRecovery, Some(error), SentToManualRecovery); }
      else { LetGoTells(s, step.state, k, if w.status == Resuming then ResumePending else w.status, Some(error), Retry); }
    }
  }

  // Operators -------------------------------------------------------------------------------

  lemma PreparationKeepsAttempts(s: RunState)
    ensures AdoptBaseline(s).attempts == s.attempts && StaleCurrent(s).attempts == s.attempts
  {
  }

  lemma OperatorKeepsAttempts(s: RunState, c: Command, elsewhere: bool)
    requires Operator(c)
    ensures After(s, c, elsewhere).attempts == s.attempts
  {
    hide AdoptBaseline, ServerArguments, FinalizeRun, FinalizePublication, AcceptVerification, ReviewWorkflows.AcceptReviewDecision,
      Transition, EffectiveSnapshot, Submit, ClaimWorkflow, CompleteCheckpointCreation, MarkWaitingDecision, MarkResolutionPending,
      MarkManualRecovery, ReleaseExpiredLease, ReleaseForRetry;
    TransitionKeepsAttempts(s, c);
    match c
    case Finish(a, now) => FinishKeepsAttempts(s, a, now);
    case Verify(item, request) => VerifyKeepsAttempts(s, elsewhere, item, request);
    case Publish(version, build, now) => PublishKeepsAttempts(s, version, build, now);
    case Decide(review, request) => DecideKeepsAttempts(s, elsewhere, review, request);
    case _ =>
  }

  lemma TransitionKeepsAttempts(s: RunState, c: Command)
    requires Operator(c)
    ensures c.Start? ==> var step := TransitionToRunning(s, c.expectedVersion, {Pending}); step.Commit? ==> step.state.attempts == s.attempts
  {
  }

  lemma FinishKeepsAttempts(s: RunState, a: FinalArguments, now: Instant)
    ensures var step := FinalizeRun(s, a, now); step.Commit? ==> step.state.attempts == s.attempts
  {
    hide AdoptBaseline, Fenced, CanInsert, InsertAll, CanInsertEvidence, InsertEvidence;
    if FinalizeRun(s, a, now).Commit? { PreparationKeepsAttempts(Stored(s, a, now)); }
    FinalizationStores(s, a, now);
  }

  lemma VerifyKeepsAttempts(s: RunState, elsewhere: bool, item: EvidenceId, request: VerificationRequest)
    ensures var step := AcceptVerification(s, elsewhere, item, request); step.Commit? ==> step.state.attempts == s.attempts
  {
    hide AdoptBaseline, StaleCurrent, FindVerification, MaxRevision;
    var adopted := AdoptBaseline(s);
    PreparationKeepsAttempts(s);
    PreparationKeepsAttempts(adopted.(ledger := adopted.ledger + [NewVerification(item, request, MaxRevision(s.ledger, item, request.fingerprint) + 1)]));
  }

  lemma PublishKeepsAttempts(s: RunState, version: nat, build: Build, now: Instant)
    ensures var step := FinalizePublication(s, version, build, now); step.Commit? ==> step.state.attempts == s.attempts
  {
    hide AdoptBaseline, EffectiveSnapshot, PublicationInsertable, BuiltReview, BuiltBrief, NewestIndex, CurrentIndex, InsertAll, WorkflowOf;
    PreparationKeepsAttempts(s);
  }

  lemma DecideKeepsAttempts(s: RunState, elsewhere: bool, review: ReviewId, request: DecisionRequest)
    ensures var step := ReviewWorkflows.AcceptReviewDecision(s, elsewhere, review, request); step.Commit? ==> step.state.attempts == s.attempts
  {
    hide WaitingForDecision, ReviewClosed;
  }

  lemma OperatorTells(s: RunState, c: Command, elsewhere: bool)
    requires Inv(s) && AllTell(s) && Operator(c)
    ensures AllTell(After(s, c, elsewhere)) && AttemptsStay(s, After(s, c, elsewhere))
  {
    OperatorStepMoves(s, c, elsewhere);
    OperatorKeepsAttempts(s, c, elsewhere);
    LeasesHold(s);
    hide Inv, After;
    MovesTell(s, After(s, c, elsewhere));
  }

  lemma MovesTell(s: RunState, t: RunState)
    requires Leases(s) && AllTell(s) && OperatorMoves(s.workflows, t.workflows) && t.attempts == s.attempts
    ensures AllTell(t) && AttemptsStay(s, t)
  {
    forall k | k in t.workflows ensures AttemptsTell(t, k) {
      if k in s.workflows {
        assert AttemptsTell(s, k) && OperatorMove(s.workflows[k], t.workflows[k]);
        MoveTells(s, t, k);
      } else {
        OpenedTells(s, t, k);
      }
    }
    forall k | k in s.workflows ensures k in t.workflows && s.workflows[k].attemptCount <= t.workflows[k].attemptCount
      && t.workflows[k].createdAt == s.workflows[k].createdAt {
      assert OperatorMove(s.workflows[k], t.workflows[k]);
    }
  }

  lemma MoveTells(s: RunState, t: RunState, k: nat)
    requires k in s.workflows && k in t.workflows && AttemptsTell(s, k) && OperatorMove(s.workflows[k], t.workflows[k]) && t.attempts == s.attempts
    ensures AttemptsTell(t, k)
  {
  }

  lemma OpenedTells(s: RunState, t: RunState, k: nat)
    requires Leases(s) && k !in s.workflows && k in t.workflows && JustOpened(t.workflows[k]) && t.attempts == s.attempts
    ensures AttemptsTell(t, k)
  {
    assert forall a: nat :: (k, a) in s.attempts ==> (k, a).0 in s.workflows;
  }

  lemma SubmissionTells(s: RunState, k: nat, worker: WorkerId, now: Instant, version: nat, original: Content, id: DecisionId, d: ReviewDecision)
    requires Inv(s) && AllTell(s)
    ensures var step := Submit(s, k, worker, now, version, original, id, d); step.Commit? ==> AllTell(step.state) && AttemptsStay(s, step.state)
  {
    SubmissionAccepted(s, k, worker, now, version, original, id, d);
    StaysSame(s);
    hide Inv, AllTell, AttemptsStay, Submit, Resolve, OpenAttempt, BuildReviewedArtifacts, Freed, Closed;
    var step := Submit(s, k, worker, now, version, original, id, d);
    if step.Commit? && !step.replay {
      var action := s.decisions[id].action;
      var outcome := if action.Approve? then OutcomeApproved else OutcomeRejected;
      ResolutionCloses(s, k, id, BuildReviewedArtifacts(original, id, d, k).value);
      SubmitterOwns(s, k, worker);
      LetGoTells(s, step.state, k, TerminalStatus(action), s.workflows[k].lastError, outcome);
    }
  }

  lemma ResolutionCloses(s: RunState, k: nat, id: DecisionId, result: ReviewedResult)
    requires k in s.workflows && id in s.decisions
    ensures var d := s.decisions[id];
      var t := Resolve(s, k, id, d, result);
      && Freed(s, t, k, TerminalStatus(d.action), s.workflows[k].lastError)
      && Closed(s, t, k, if d.action.Approve? then OutcomeApproved else OutcomeRejected)
  {
    hide PublicationOf, InsertAll, Ids;
  }

  lemma SubmitterOwns(s: RunState, k: nat, worker: WorkerId)
    requires AllTell(s) && k in s.workflows && s.workflows[k].status == ResolutionPending && OpenAttempt(s, k, worker)
    ensures s.workflows[k].owner.Some?
  {
    assert AttemptsTell(s, k);
  }

  // Every state that is reached ---------------------------------------------------------------

  lemma StepTells(s: RunState, c: Command, elsewhere: bool)
    requires Inv(s) && AllTell(s)
    ensures AllTell(After(s, c, elsewhere)) && AttemptsStay(s, After(s, c, elsewhere))
  {
    hide Inv, AllTell, AttemptsStay;
    if Worker(c) {
      WorkerTells(s, c);
      assert Apply(s, c, elsewhere) == Apply(s, c, false);
    } else if Operator(c) {
      OperatorTells(s, c, elsewhere);
    } else {
      SubmissionTells(s, c.k, c.worker, c.now, c.expectedVersion, c.original, c.decisionId, c.decided);
      StaysSame(s);
      hide Submit;
    }
  }

  ghost predicate DbTells(db: Db) {
    forall run | run in db :: AllTell(db[run])
  }

  ghost predicate DbStays(before: Db, after: Db) {
    forall run | run in before :: run in after && AttemptsStay(before[run], after[run])
  }

  lemma PerformTells(db: Db, c: DbCommand)
    requires DbInv(db) && DbTells(db)
    ensures DbTells(Perform(db, c)) && DbStays(db, Perform(db, c))
  {
    hide Inv, AllTell, AttemptsStay, After, UsedByAnother, CreateRun;
    forall run | run in db ensures AttemptsStay(db[run], db[run]) { StaysSame(db[run]); }
    match c
    case Create(run, profile) => CreatedTells(run, profile);
    case On(run, command) => if run in db { StepTells(db[run], command, UsedByAnother(db, run, command)); }
  }

  lemma CreatedTells(run: RunId, profile: Profile)
    ensures AllTell(CreateRun(run, profile))
  {
  }

  lemma {:induction false} ExecutionTells(db: Db, commands: seq<DbCommand>)
    requires DbInv(db) && DbTells(db)
    ensures DbTells(Execute(db, commands)) && DbStays(db, Execute(db, commands))
    decreases |commands|
  {
    hide Inv, Perform, AllTell;
    if commands == [] {
      forall run | run in db ensures AttemptsStay(db[run], db[run]) { StaysSame(db[run]); }
    } else {
      var next := Perform(db, commands[0]);
      PerformKeeps(db, commands[0]);
      PerformTells(db, commands[0]);
      ExecutionTells(next, commands[1..]);
      var later := Execute(next, commands[1..]);
      forall run | run in db ensures run in later && AttemptsStay(db[run], later[run]) { StayIsTransitive(db[run], next[run], later[run]); }
    }
  }

  // In every reachable state the attempts of every review tell where it stands.
  lemma ReachableAttemptsTell(commands: seq<DbCommand>, run: RunId, k: nat)
    ensures var db := Execute(map[], commands); run in db && k in db[run].workflows ==> AttemptsTell(db[run], k)
  {
    hide Execute, AttemptsTell;
    ExecutionTells(map[], commands);
    assert DbTells(Execute(map[], commands));
  }

  // And whatever follows, what is written of an attempt stays, and an attempt that lost its lease to
  // another is never closed.
  lemma AttemptsStayWritten(commands: seq<DbCommand>, later: seq<DbCommand>, run: RunId)
    requires run in Execute(map[], commands)
    ensures var db := Execute(map[], commands);
      run in Execute(db, later) && AttemptsStay(db[run], Execute(db, later)[run])
  {
    hide Execute, AttemptsStay;
    ReachableKeeps(commands);
    ExecutionTells(map[], commands);
    ExecutionTells(Execute(map[], commands), later);
  }
}
