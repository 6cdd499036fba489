/** The lease steps keep the invariant of a run. */
module LeasePreservation {
  import opened ReviewTypes
  import opened ReviewWorkflows
  import opened RunInvariant

  lemma LeasesHold(s: RunState)
    requires Inv(s)
    ensures Leases(s)
  {
  }

  // A step that moves one workflow along, and touches nothing but its row, its attempts and
  // its segment.
  ghost predicate LeaseMove(s: RunState, t: RunState, k: nat) {
    && k in s.workflows && k in t.workflows
    && t == s.(workflows := s.workflows[k := t.workflows[k]], attempts := t.attempts, segments := t.segments)
    && t.workflows[k].review == s.workflows[k].review
    && t.workflows[k].decision == s.workflows[k].decision
    && s.workflows[k].status.Active()
    && MoveAllowed(s.workflows[k].status, t.workflows[k].status)
  }

  predicate MoveAllowed(from: WorkflowStatus, to: WorkflowStatus) {
    || to == from
    || to == ManualRecovery
    || (from == CheckpointPending && to == WaitingDecision)
    || (from == ResumePending && to == Resuming)
    || (from == Resuming && (to == ResumePending || to == ResolutionPending))
  }

  lemma MoveKeepsBundled(s: RunState, t: RunState, k: nat)
    requires Bundled(s) && LeaseMove(s, t, k)
    ensures Bundled(t)
  {
  }

  lemma MoveKeepsDecided(s: RunState, t: RunState, k: nat)
    requires Decided(s) && LeaseMove(s, t, k)
    ensures Decided(t)
  {
    forall j | j in t.workflows ensures DecisionKept(t, j) { assert DecisionKept(s, j); }
    forall id | id in t.decisions ensures DecisionOwned(t, id) { assert DecisionOwned(s, id); }
    forall r | r in t.resolutions ensures ResolutionOwned(t, r) { assert ResolutionOwned(s, r); }
  }

  lemma MoveKeepsPublished(s: RunState, t: RunState, k: nat)
    requires Published(s) && LeaseMove(s, t, k)
    ensures Published(t)
  {
  }

  lemma MoveKeepsChain(s: RunState, t: RunState, k: nat)
    requires Chain(s) && LeaseMove(s, t, k)
    ensures Chain(t)
  {
    forall i | 0 <= i < |t.publications| ensures ChainLink(t, i) { assert ChainLink(s, i); }
  }

  lemma MoveKeepsVerification(s: RunState, t: RunState, k: nat)
    requires Verification(s) && LeaseMove(s, t, k)
    ensures Verification(t)
  {
    forall i | 0 <= i < |t.ledger| ensures LedgerRow(t, i) { assert LedgerRow(s, i); }
    forall i | 0 <= i < |t.publications| ensures SnapshotKept(t, i) { assert SnapshotKept(s, i); }
  }

  lemma MoveKeepsArtifacts(s: RunState, t: RunState, k: nat)
    requires Artifacts(s) && LeaseMove(s, t, k)
    ensures Artifacts(t)
  {
    forall j | j in t.bundles ensures BriefStored(t, j) { assert BriefStored(s, j); }
    forall j: nat ensures ReviewedStored(t, j) {
      assert ReviewedStored(s, j);
    }
  }

  lemma LeaseMoveKeeps(s: RunState, t: RunState, k: nat)
    requires Inv(s) && LeaseMove(s, t, k)
    requires Leases(t) && Started(t)
    ensures Inv(t)
  {
    MoveKeepsBundled(s, t, k);
    MoveKeepsDecided(s, t, k);
    MoveKeepsPublished(s, t, k);
    MoveKeepsChain(s, t, k);
    MoveKeepsVerification(s, t, k);
    MoveKeepsArtifacts(s, t, k);
  }

  // Releasing a workflow closes its attempt and frees its lease.
  lemma ReleaseKeepsLeases(s: RunState, k: nat, w: Workflow, outcome: AttemptOutcome)
    requires Leases(s) && k in s.workflows
    requires w.owner.None? && w.expires.None? && w.status != Resuming
    requires w.attemptCount == s.workflows[k].attemptCount
    ensures Leases(ReleaseTo(s, k, w, outcome))
  {
    var t := ReleaseTo(s, k, w, outcome);
    forall j | j in t.workflows ensures LeaseKept(t, j) { assert LeaseKept(s, j); }
  }

  lemma MoveKeepsStarted(s: RunState, t: RunState, k: nat)
    requires Started(s) && LeaseMove(s, t, k) && t.segments == s.segments
    ensures Started(t)
  {
  }

  lemma ReleaseKeeps(s: RunState, k: nat, w: Workflow, outcome: AttemptOutcome)
    requires Inv(s) && k in s.workflows && s.workflows[k].status.Active()
    requires w.review == s.workflows[k].review && w.decision == s.workflows[k].decision
    requires w.owner.None? && w.expires.None? && w.status != Resuming
    requires w.attemptCount == s.workflows[k].attemptCount
    requires MoveAllowed(s.workflows[k].status, w.status)
    ensures Inv(ReleaseTo(s, k, w, outcome))
  {
    ReleaseKeepsLeases(s, k, w, outcome);
    MoveKeepsStarted(s, ReleaseTo(s, k, w, outcome), k);
    LeaseMoveKeeps(s, ReleaseTo(s, k, w, outcome), k);
  }

  lemma ClaimKeepsLeases(s: RunState, k: nat, worker: WorkerId, now: Instant, lease: Instant)
    requires Leases(s)
    ensures var step := ClaimWorkflow(s, k, worker, now, lease); step.Commit? ==> Leases(step.state)
  {
    var step := ClaimWorkflow(s, k, worker, now, lease);
    if step.Commit? {
      assert LeaseKept(s, k);
      forall j | j in step.state.workflows ensures LeaseKept(step.state, j) { assert LeaseKept(s, j); }
    }
  }

  lemma ClaimKeepsStarted(s: RunState, k: nat, worker: WorkerId, now: Instant, lease: Instant)
    requires Started(s) && Bundled(s)
    ensures var step := ClaimWorkflow(s, k, worker, now, lease); step.Commit? ==> Started(step.state)
  {
  }

  lemma ClaimKeeps(s: RunState, k: nat, worker: WorkerId, now: Instant, lease: Instant)
    requires Inv(s)
    ensures var step := ClaimWorkflow(s, k, worker, now, lease); step.Commit? ==> Inv(step.state)
  {
    var step := ClaimWorkflow(s, k, worker, now, lease);
    if step.Commit? {
      ClaimKeepsLeases(s, k, worker, now, lease);
      ClaimKeepsStarted(s, k, worker, now, lease);
      LeaseMoveKeeps(s, step.state, k);
    }
  }

  // The worker's own lease goes on into resolution_pending.
  lemma HandOverKeepsLeases(s: RunState, k: nat)
    requires Leases(s) && k in s.workflows && s.workflows[k].status == Resuming
    ensures Leases(s.(workflows := s.workflows[k := s.workflows[k].(status := ResolutionPending)]))
  {
    var t := s.(workflows := s.workflows[k := s.workflows[k].(status := ResolutionPending)]);
    forall j | j in t.workflows ensures LeaseKept(t, j) { assert LeaseKept(s, j); }
  }

  lemma HandOverKeeps(s: RunState, k: nat, worker: Option<WorkerId>, now: Instant, decision: DecisionId)
    requires Inv(s)
    ensures var step := MarkResolutionPending(s, k, worker, now, decision); step.Commit? ==> Inv(step.state)
  {
    var step := MarkResolutionPending(s, k, worker, now, decision);
    if step.Commit? {
      if worker.None? {
        ReleaseKeeps(s, k, step.state.workflows[k], CheckpointReconciled);
      } else {
        HandOverKeepsLeases(s, k);
        MoveKeepsStarted(s, step.state, k);
        LeaseMoveKeeps(s, step.state, k);
      }
    }
  }

  // The owner of a lease finds its workflow being worked on and its own attempt open.
  lemma OwnerHasOpenAttempt(s: RunState, k: nat, worker: WorkerId, now: Instant)
    requires Leases(s) && k in s.workflows && Owned(s, k, worker, now)
    ensures s.workflows[k].status.Leasable() && OpenAttempt(s, k, worker)
  {
    assert LeaseKept(s, k);
  }

  lemma CompleteCheckpointKeeps(s: RunState, k: nat, worker: WorkerId, now: Instant)
    requires Inv(s)
    ensures var step := CompleteCheckpointCreation(s, k, worker, now); step.Commit? ==> Inv(step.state)
  {
    var step := CompleteCheckpointCreation(s, k, worker, now);
    if step.Commit? { ReleaseKeeps(s, k, step.state.workflows[k], CheckpointCreated); }
  }

  lemma MarkWaitingKeeps(s: RunState, k: nat)
    requires Inv(s)
    ensures var step := MarkWaitingDecision(s, k); step.Commit? ==> Inv(step.state)
  {
    var step := MarkWaitingDecision(s, k);
    if step.Commit? && !step.replay { ReleaseKeeps(s, k, step.state.workflows[k], CheckpointReconciled); }
  }

  lemma MarkManualKeeps(s: RunState, k: nat, worker: Option<WorkerId>, now: Instant, error: Code)
    requires Inv(s)
    ensures var step := MarkManualRecovery(s, k, worker, now, error); step.Commit? ==> Inv(step.state)
  {
    var step := MarkManualRecovery(s, k, worker, now, error);
    if step.Commit? {
      if worker.Some? { OwnerHasOpenAttempt(s, k, worker.value, now); }
      ReleaseKeeps(s, k, step.state.workflows[k], SentToManualRecovery);
    }
  }

  lemma ReleaseExpiredKeeps(s: RunState, k: nat, now: Instant)
    requires Inv(s)
    ensures var step := ReleaseExpiredLease(s, k, now); step.Commit? ==> Inv(step.state)
  {
    var step := ReleaseExpiredLease(s, k, now);
    if step.Commit? { ReleaseKeeps(s, k, step.state.workflows[k], LeaseExpired); }
  }

  lemma ReleaseForRetryKeeps(s: RunState, k: nat, worker: WorkerId, now: Instant, error: Code, maxAttempts: nat)
    requires Inv(s)
    ensures var step := ReleaseForRetry(s, k, worker, now, error, maxAttempts); step.Commit? ==> Inv(step.state)
  {
    var step := ReleaseForRetry(s, k, worker, now, error, maxAttempts);
    if step.Commit? {
      OwnerHasOpenAttempt(s, k, worker, now);
      ReleaseKeeps(s, k, step.state.workflows[k],
        if s.workflows[k].attemptCount >= maxAttempts then SentToManualRecovery else Retry);
    }
  }
}
