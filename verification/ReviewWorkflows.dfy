/** The review workflow: accepted decisions, leases and numbered attempts
    (api/review_repository.py). Each step names its workflow by the review revision. */
module ReviewWorkflows {
  import opened ReviewTypes
  import opened Publications

  // Decisions --------------------------------------------------------------------------

  // A publication that is not current, or not waiting for review, closes its review.
  function ReviewClosed(s: RunState, review: ReviewId): Option<Code> {
    match PublicationOf(s.publications, review)
    case None => None
    case Some(i) =>
      var p := s.publications[i];
      if !p.current || p.status == Stale then Some(ReviewSuperseded)
      else if p.status != PublishedForReview then Some(ReviewNotWaiting)
      else None
  }

  // The request hash covers everything but the expected version.
  predicate SameRequest(d: ReviewDecision, review: ReviewId, request: DecisionRequest) {
    && d.review == review && d.revision == request.revision
    && d.action == request.action && d.reason == request.reason
  }

  predicate WaitingForDecision(s: RunState, k: nat) {
    && s.row.execution == Completed && s.row.review == Required && s.row.delivery == ReviewRequired
    && k in s.workflows && s.workflows[k].status == WaitingDecision
  }

  // `takenElsewhere`: the decision id is already used by another run.
  function AcceptReviewDecision(s: RunState, takenElsewhere: bool, review: ReviewId, request: DecisionRequest): Step {
    var k := request.revision;
    var found := k in s.workflows && s.workflows[k].review == review;
    if takenElsewhere then Abort(DecisionIdConflict)
    else if request.id in s.decisions then
      if !SameRequest(s.decisions[request.id], review, request) then Abort(DecisionIdConflict)
      else if !found then Abort(ReviewNotFound)
      else Commit(s, true)
    else if exists d | d in s.decisions :: s.decisions[d].review == review && s.decisions[d].revision == k then
      Abort(ReviewAlreadyDecided)
    else if !found then Abort(ReviewNotFound)
    else if s.workflows[k].status == Superseded then Abort(ReviewSuperseded)
    else if ReviewClosed(s, review).Some? then Abort(ReviewClosed(s, review).value)
    else if s.row.profile != Talent then Abort(UnsupportedReviewProfile)
    else if !WaitingForDecision(s, k) then Abort(ReviewNotWaiting)
    else if s.row.version != request.expectedVersion then Abort(StaleStateVersion)
    else Commit(s.(
        decisions := s.decisions[request.id :=
          ReviewDecision(review, k, request.action, request.reason, s.row.version + 1)],
        workflows := s.workflows[k := s.workflows[k].(decision := Some(request.id), status := ResumePending)],
        row := s.row.(version := s.row.version + 1)), false)
  }

  // Leases -----------------------------------------------------------------------------

  predicate LeaseActive(expires: Option<Instant>, now: Instant) {
    expires.Some? && expires.value > now
  }

  // The lease is free: nobody owns it, or its time is up.
  predicate LeaseFree(w: Workflow, now: Instant) {
    w.owner.None? || w.expires.None? || w.expires.value <= now
  }

  predicate Claimable(s: RunState, k: nat, now: Instant) {
    k in s.workflows && s.workflows[k].status.Claimable() && LeaseFree(s.workflows[k], now)
  }

  predicate Owned(s: RunState, k: nat, worker: WorkerId, now: Instant)
    requires k in s.workflows
  {
    s.workflows[k].owner == Some(worker) && LeaseActive(s.workflows[k].expires, now)
  }

  // INSERT OR IGNORE on the segment id and on (run_id, sequence).
  function EnsureSegment(segments: map<nat, SegmentId>, k: nat, segment: SegmentId): map<nat, SegmentId> {
    if k in segments || segment in segments.Values then segments else segments[k := segment]
  }

  function ClaimWorkflow(s: RunState, k: nat, worker: WorkerId, now: Instant, lease: Instant): Step {
    if lease <= 0 then Abort(InvalidArgument)
    else if !Claimable(s, k, now) then Abort(NothingToClaim)
    else
      var w := s.workflows[k];
      var segments := EnsureSegment(s.segments, k, PostReviewSegment(w.review));
      if k !in segments || segments[k] != PostReviewSegment(w.review) then Abort(PostReviewSegmentConflict)
      else if (k, w.attemptCount + 1) in s.attempts then Abort(IntegrityError)
      else Commit(s.(
          workflows := s.workflows[k := w.(
            status := if w.status.ResumePending? then Resuming else w.status,
            owner := Some(worker), expires := Some(now + lease), attemptCount := w.attemptCount + 1)],
          segments := segments,
          attempts := s.attempts[(k, w.attemptCount + 1) := Attempt(worker, None)]), false)
  }

  // _complete_attempt: the open attempt of this worker under the current number.
  predicate OpenAttempt(s: RunState, k: nat, worker: WorkerId)
    requires k in s.workflows
  {
    var key := (k, s.workflows[k].attemptCount);
    key in s.attempts && s.attempts[key] == Attempt(worker, None)
  }

  function CloseAttempt(s: RunState, k: nat, outcome: AttemptOutcome): map<(nat, nat), Attempt>
    requires k in s.workflows
  {
    var key := (k, s.workflows[k].attemptCount);
    if key in s.attempts && s.attempts[key].outcome.None?
    then s.attempts[key := s.attempts[key].(outcome := Some(outcome))] else s.attempts
  }

  // The workflow leaves its worker's hands with a new status.
  function Released(w: Workflow, status: WorkflowStatus): Workflow {
    w.(status := status, owner := None, expires := None)
  }

  function ReleaseTo(s: RunState, k: nat, w: Workflow, outcome: AttemptOutcome): RunState
    requires k in s.workflows
  {
    s.(workflows := s.workflows[k := w], attempts := CloseAttempt(s, k, outcome))
  }

  function CompleteCheckpointCreation(s: RunState, k: nat, worker: WorkerId, now: Instant): Step {
    if k !in s.workflows then Abort(ReviewNotFound)
    else if !Owned(s, k, worker, now) then Abort(LeaseNotOwned)
    else if s.workflows[k].status != CheckpointPending then Abort(CheckpointNotPending)
    else if !OpenAttempt(s, k, worker) then Abort(ResumeAttemptNotFound)
    else Commit(ReleaseTo(s, k, Released(s.workflows[k], WaitingDecision).(lastError := None), CheckpointCreated), false)
  }

  function MarkWaitingDecision(s: RunState, k: nat): Step {
    if k !in s.workflows then Abort(ReviewNotFound)
    else if s.workflows[k].status != CheckpointPending then Commit(s, true)
    else Commit(ReleaseTo(s, k, Released(s.workflows[k], WaitingDecision).(lastError := None), CheckpointReconciled), false)
  }

  // With a worker, its lease goes on; without one (the reconciler), any lease is dropped.
  function MarkResolutionPending(s: RunState, k: nat, worker: Option<WorkerId>, now: Instant, decision: DecisionId): Step {
    if k !in s.workflows then Abort(ReviewNotFound)
    else if worker.Some? && !Owned(s, k, worker.value, now) then Abort(LeaseNotOwned)
    else if s.workflows[k].status != Resuming || s.workflows[k].decision != Some(decision) then
      Abort(CheckpointDecisionMismatch)
    else if worker.None? then
      Commit(ReleaseTo(s, k, Released(s.workflows[k], ResolutionPending), CheckpointReconciled), false)
    else
      Commit(s.(workflows := s.workflows[k := s.workflows[k].(status := ResolutionPending)]), false)
  }

  function MarkManualRecovery(s: RunState, k: nat, worker: Option<WorkerId>, now: Instant, error: Code): Step {
    if k !in s.workflows then Abort(ReviewNotFound)
    else if s.workflows[k].status == Superseded then Abort(ReviewSuperseded)
    else if worker.Some? && !Owned(s, k, worker.value, now) then Abort(LeaseNotOwned)
    else if worker.None? && !s.workflows[k].status.Active() then Abort(LeaseNotOwned)
    else if worker.Some? && !OpenAttempt(s, k, worker.value) then Abort(ResumeAttemptNotFound)
    else Commit(ReleaseTo(s, k, Released(s.workflows[k], ManualRecovery).(lastError := Some(error)), SentToManualRecovery), false)
  }

  function ReleaseExpiredLease(s: RunState, k: nat, now: Instant): Step {
    if k !in s.workflows then Abort(ReviewNotFound)
    else if s.workflows[k].status != Resuming || LeaseActive(s.workflows[k].expires, now) then Abort(LeaseNotExpired)
    else Commit(ReleaseTo(s, k, Released(s.workflows[k], ResumePending), LeaseExpired), false)
  }

  function ReleaseForRetry(s: RunState, k: nat, worker: WorkerId, now: Instant, error: Code, maxAttempts: nat): Step {
    if k !in s.workflows then Abort(ReviewNotFound)
    else if !Owned(s, k, worker, now) then Abort(LeaseNotOwned)
    else
      var w := s.workflows[k];
      var exhausted := w.attemptCount >= maxAttempts;
      if !exhausted && !w.status.Leasable() then Abort(ReviewNotRetryable)
      else if !OpenAttempt(s, k, worker) then Abort(ResumeAttemptNotFound)
      else
        var status := if exhausted then ManualRecovery else if w.status.Resuming? then ResumePending else w.status;
        Commit(ReleaseTo(s, k, Released(w, status).(lastError := Some(error)),
                         if exhausted then SentToManualRecovery else Retry), false)
  }
}
