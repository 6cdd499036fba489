/** The application database and the checkpoint store are written separately. One worker runs
    over both, operators act at any moment, and the worker may crash between any two writes and
    start again (api/review_worker.py). */
module CrashConsistency {
  import opened ReviewTypes
  import opened Publications
  import opened RunLifecycle
  import opened RunInvariant
  import opened PublicationPreservation
  import opened VerificationPreservation
  import opened FinalizationPreservation
  import opened ReviewPreservation
  import opened RunPreservation
  import opened Executions
  import opened ReviewGate

  // Agreement ------------------------------------------------------------------------------

  // What the checkpoint of a workflow can be.
  predicate CheckpointAgrees(w: Workflow, c: Checkpoint) {
    && (c.CompletedWith? ==> w.decision == Some(c.decision))
    && (w.decision.Some? || w.status == WaitingDecision ==> !c.Absent?)
    && (w.status == ResolutionPending || w.status == Approved || w.status == Rejected ==> c.CompletedWith?)
  }

  ghost predicate CheckpointsAgree(workflows: map<nat, Workflow>, threads: Threads) {
    forall k | k in workflows :: CheckpointAgrees(workflows[k], At(threads, workflows[k].review))
  }

  // Every thread belongs to a workflow.
  ghost predicate Known(db: Db, review: ReviewId) {
    && review.run in db && review.revision in db[review.run].workflows
    && db[review.run].workflows[review.revision].review == review
  }

  ghost predicate StoresAgree(db: Db, threads: Threads) {
    && (forall run | run in db :: CheckpointsAgree(db[run].workflows, threads))
    && (forall review | review in threads :: Known(db, review))
  }

  // Workflows are named by their run and revision.
  ghost predicate Named(db: Db) {
    forall run, k | run in db && k in db[run].workflows ::
      db[run].workflows[k].review.run == run && db[run].workflows[k].review.revision == k
  }

  lemma InvNames(db: Db)
    requires DbInv(db)
    ensures Named(db)
  {
    forall run, k | run in db && k in db[run].workflows
      ensures db[run].workflows[k].review.run == run && db[run].workflows[k].review.revision == k
    {
      assert Inv(db[run]) && Bundled(db[run]);
      hide Inv;
    }
  }

  // The steps of operators -----------------------------------------------------------------

  predicate Operator(c: Command) {
    c.Start? || c.Finish? || c.Verify? || c.TakeSnapshot? || c.Publish? || c.Decide?
  }

  // Operators leave a workflow alone, supersede it, or accept a decision for it.
  predicate OperatorMove(before: Workflow, after: Workflow) {
    || after == before
    || (before.status.Active() && after == before.(status := Superseded, owner := None, expires := None))
    || (before.status == WaitingDecision && after.decision.Some? && after == before.(decision := after.decision, status := ResumePending))
  }

  ghost predicate OperatorMoves(before: map<nat, Workflow>, after: map<nat, Workflow>) {
    && (forall k | k in before :: k in after && OperatorMove(before[k], after[k]))
    && (forall k | k in after && k !in before :: JustOpened(after[k]))
  }

  // Opened just now: nothing decided, nobody at work, no attempt made.
  predicate JustOpened(w: Workflow) {
    w == NewWorkflow(w.review, w.createdAt)
  }

  lemma WithdrawnMoves(s: RunState, t: RunState, d: VerificationDecision)
    requires Withdrawn(s, t, d)
    ensures OperatorMoves(s.workflows, t.workflows)
  {
  }

  lemma OpenedMoves(s: RunState, t: RunState, m: nat, now: Instant)
    requires Opened(s, t, m, now)
    ensures OperatorMoves(s.workflows, t.workflows)
  {
  }

  lemma PreparationKeepsWorkflows(s: RunState)
    ensures AdoptBaseline(s).workflows == s.workflows && Prepared(s).workflows == s.workflows
  {
  }

  lemma VerifyMoves(s: RunState, elsewhere: bool, item: EvidenceId, request: VerificationRequest)
    requires Inv(s)
    ensures var step := AcceptVerification(s, elsewhere, item, request); step.Commit? ==> OperatorMoves(s.workflows, step.state.workflows)
  {
    AdoptKeeps(s);
    AdoptionReaches(s);
    hide AcceptVerification, AdoptBaseline, AdoptedIfBundled, Appended, NextRow, Withdrawn, OperatorMoves,
      Started, Leases, Decided, Verification, Artifacts;
    AcceptanceAppends(s, elsewhere, item, request);
    ReplayChangesNothing(s, elsewhere, item, request);
    PreparationKeepsWorkflows(s);
    SameMoves(s.workflows);
    var step := AcceptVerification(s, elsewhere, item, request);
    if step.Commit? && !step.replay {
      AppendWithdraws(AdoptBaseline(s), AcceptedRow(s, item, request));
      WithdrawnMoves(AdoptBaseline(s), step.state, AcceptedRow(s, item, request));
    }
  }

  lemma AgainMoves(t: RunState, i: nat, now: Instant)
    requires Bundled(t) && Chain(t) && Published(t) && i < |t.publications| && t.publications[i].current
    ensures var step := FinalizeAgain(t, i, now); step.Commit? ==> OperatorMoves(t.workflows, step.state.workflows)
  {
    RepairOpens(t, i, now);
    SameMoves(t.workflows);
    hide Bundled, Chain, Published, OperatorMoves, Opened;
    var step := FinalizeAgain(t, i, now);
    if step.Commit? && !step.replay { OpenedMoves(t, step.state, |t.publications|, now); }
  }

  lemma RevisionMoves(t: RunState, build: Build, now: Instant)
    requires Chain(t) && Published(t) && AdoptedIfBundled(t) && EffectiveSnapshot(t) in t.snapshots
    requires CurrentIndex(t.publications).None?
    ensures var step := PublishRevision(t, EffectiveSnapshot(t), build, now); step.Commit? ==> OperatorMoves(t.workflows, step.state.workflows)
  {
    PublishRevises(t, build, now);
    hide Chain, Published, PublishRevision, EffectiveSnapshot, OperatorMoves, Opened;
    var step := PublishRevision(t, EffectiveSnapshot(t), build, now);
    if step.Commit? { OpenedMoves(t, step.state, |t.publications| + 1, now); }
  }

  lemma PublishMoves(s: RunState, version: nat, build: Build, now: Instant)
    requires Inv(s)
    ensures var step := FinalizePublication(s, version, build, now); step.Commit? ==> OperatorMoves(s.workflows, step.state.workflows)
  {
    var t := Prepared(s);
    PreparedKeeps(s);
    FinalizationCases(s, version, build, now);
    hide FinalizePublication, Prepared, FinalizeAgain, PublishRevision, AdoptBaseline, OperatorMoves, EffectiveSnapshot, AdoptedIfBundled,
      Bundled, Started, Chain, Leases, Decided, Published, Verification, Artifacts;
    PreparationKeepsWorkflows(s);
    match CurrentIndex(t.publications) {
      case Some(i) => AgainMoves(t, i, now);
      case None => RevisionMoves(t, build, now);
    }
  }

  lemma FinalisedMoves(s: RunState, t: RunState, a: FinalArguments, now: Instant)
    requires s.workflows == map[] && Finalised(s, t, a, now)
    ensures OperatorMoves(s.workflows, t.workflows)
  {
  }

  lemma FinishMoves(s: RunState, a: FinalArguments, now: Instant)
    requires Inv(s) && ServerArguments(s.id, s.row.profile, a)
    ensures var step := FinalizeRun(s, a, now); step.Commit? ==> OperatorMoves(s.workflows, step.state.workflows)
  {
    FinalizationStores(s, a, now);
    if FinalizeRun(s, a, now).Commit? {
      NothingYet(s);
      hide Inv, ServerArguments, FinalizeRun, Stored, AdoptBaseline, OperatorMoves, Finalised;
      StoredIsFinalised(s, a, now);
      PreparationKeepsWorkflows(Stored(s, a, now));
      FinalisedMoves(s, Stored(s, a, now), a, now);
    }
  }

  lemma DecideMoves(s: RunState, elsewhere: bool, review: ReviewId, request: DecisionRequest)
    requires Decided(s)
    ensures var step := ReviewWorkflows.AcceptReviewDecision(s, elsewhere, review, request);
      step.Commit? ==> OperatorMoves(s.workflows, step.state.workflows)
  {
    AcceptanceTakes(s, elsewhere, review, request);
    hide ReviewWorkflows.AcceptReviewDecision;
  }

  lemma OperatorStepMoves(s: RunState, c: Command, elsewhere: bool)
    requires Inv(s) && Operator(c)
    ensures OperatorMoves(s.workflows, After(s, c, elsewhere).workflows)
  {
    hide Inv, FinalizePublication, FinalizeRun, AcceptVerification, ReviewWorkflows.AcceptReviewDecision, OperatorMoves, ServerArguments;
    DecidedInInv(s);
    hide Decided;
    SameMoves(s.workflows);
    match c {
      case Finish(a, now) => if ServerArguments(s.id, s.row.profile, a) { FinishMoves(s, a, now); }
      case Verify(item, request) => VerifyMoves(s, elsewhere, item, request);
      case Publish(version, build, now) => PublishMoves(s, version, build, now);
      case Decide(review, request) => DecideMoves(s, elsewhere, review, request);
      case _ =>
    }
  }

  lemma DecidedInInv(s: RunState)
    requires Inv(s)
    ensures Decided(s)
  {
  }

  lemma SameMoves(workflows: map<nat, Workflow>)
    ensures OperatorMoves(workflows, workflows)
  {
  }

  // An operator's move never breaks the agreement with the checkpoint.
  lemma MoveAgrees(before: Workflow, after: Workflow, c: Checkpoint)
    requires CheckpointAgrees(before, c) && OperatorMove(before, after)
    requires before.status == WaitingDecision ==> before.decision.None?
    ensures CheckpointAgrees(after, c)
  {
  }

  ghost predicate WaitingUndecided(workflows: map<nat, Workflow>) {
    forall k | k in workflows && workflows[k].status == WaitingDecision :: workflows[k].decision.None?
  }

  lemma OperatorKeepsCheckpoints(before: map<nat, Workflow>, after: map<nat, Workflow>, threads: Threads)
    requires CheckpointsAgree(before, threads) && OperatorMoves(before, after) && WaitingUndecided(before)
    requires forall k | k in after && k !in before :: after[k].review !in threads
    ensures CheckpointsAgree(after, threads)
  {
    forall k | k in after ensures CheckpointAgrees(after[k], At(threads, after[k].review)) {
      if k in before { MoveAgrees(before[k], after[k], At(threads, before[k].review)); }
    }
  }

  // Any change of the database that moves workflows as operators do.
  ghost predicate DbMoves(before: Db, after: Db) {
    && (forall run | run in before :: run in after && OperatorMoves(before[run].workflows, after[run].workflows))
    && (forall run | run in after && run !in before :: after[run].workflows == map[])
  }

  lemma DbMovesAgree(before: Db, after: Db, threads: Threads)
    requires StoresAgree(before, threads) && DbMoves(before, after) && Named(after)
    requires forall run | run in before :: WaitingUndecided(before[run].workflows)
    ensures StoresAgree(after, threads)
  {
    forall run | run in after ensures CheckpointsAgree(after[run].workflows, threads) {
      if run in before {
        forall k | k in after[run].workflows && k !in before[run].workflows
          ensures after[run].workflows[k].review !in threads
        {
          assert !Known(before, after[run].workflows[k].review);
        }
        OperatorKeepsCheckpoints(before[run].workflows, after[run].workflows, threads);
      }
    }
    forall review | review in threads ensures Known(after, review) {
      assert Known(before, review);
      assert OperatorMove(before[review.run].workflows[review.revision], after[review.run].workflows[review.revision]);
    }
  }

  predicate OperatorDbCommand(c: DbCommand) {
    c.Create? || Operator(c.command)
  }

  lemma OperatorPerforms(db: Db, c: DbCommand)
    requires DbInv(db) && OperatorDbCommand(c)
    ensures DbMoves(db, Perform(db, c))
  {
    hide Inv, After, UsedByAnother, OperatorMoves;
    forall run | run in db ensures OperatorMoves(db[run].workflows, db[run].workflows) { SameMoves(db[run].workflows); }
    if c.On? && c.run in db { OperatorStepMoves(db[c.run], c.command, UsedByAnother(db, c.run, c.command)); }
  }

  lemma InvUndecided(db: Db)
    requires DbInv(db)
    ensures forall run | run in db :: WaitingUndecided(db[run].workflows)
  {
    forall run | run in db ensures WaitingUndecided(db[run].workflows) {
      UndecidedUntilAccepted(db[run]);
      hide Inv;
    }
  }

  lemma UndecidedUntilAccepted(s: RunState)
    requires Inv(s)
    ensures WaitingUndecided(s.workflows)
  {
    forall k | k in s.workflows && s.workflows[k].status == WaitingDecision ensures s.workflows[k].decision.None? {
      assert DecisionKept(s, k);
    }
  }

  lemma OperatorKeepsAgreement(db: Db, threads: Threads, c: DbCommand)
    requires DbInv(db) && StoresAgree(db, threads) && OperatorDbCommand(c)
    ensures StoresAgree(Perform(db, c), threads)
  {
    hide Inv, Perform, DbMoves, CheckpointsAgree, Known, WaitingUndecided, OperatorDbCommand;
    OperatorPerforms(db, c);
    PerformKeeps(db, c);
    InvNames(Perform(db, c));
    InvUndecided(db);
    DbMovesAgree(db, Perform(db, c), threads);
  }
}
