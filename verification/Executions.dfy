/** Whole runs of the application: any number of operators, workers and reconcilers issue
    commands in any order, at any clock reading. A command that aborts has no effect. */
module Executions {
  import opened ReviewTypes
  import opened VerificationLedger
  import opened Publications
  import opened RunLifecycle
  import opened ReviewWorkflows
  import opened RunInvariant
  import opened LeasePreservation
  import opened PublicationPreservation
  import opened VerificationPreservation
  import opened FinalizationPreservation
  import opened ReviewPreservation
  import opened RunPreservation
  import opened Evolution

  datatype Command =
    | Start(expectedVersion: nat)
    | Finish(arguments: FinalArguments, now: Instant)
    | Verify(item: EvidenceId, verification: VerificationRequest)
    | TakeSnapshot
    | Publish(expectedVersion: nat, build: Build, now: Instant)
    | Decide(review: ReviewId, decision: DecisionRequest)
    | Claim(k: nat, worker: WorkerId, now: Instant, lease: Instant)
    | CompleteCheckpoint(k: nat, worker: WorkerId, now: Instant)
    | MarkWaiting(k: nat)
    | HandOver(k: nat, holder: Option<WorkerId>, now: Instant, decisionId: DecisionId)
    | SendToManual(k: nat, holder: Option<WorkerId>, now: Instant, error: Code)
    | ReleaseExpired(k: nat, now: Instant)
    | ReleaseRetry(k: nat, worker: WorkerId, now: Instant, error: Code, maxAttempts: nat)
    | SubmitReview(k: nat, worker: WorkerId, now: Instant, expectedVersion: nat, original: Content, decisionId: DecisionId, decided: ReviewDecision)

  // One command on one run. `elsewhere` says whether a fresh id is already used by another run.
  function Apply(s: RunState, c: Command, elsewhere: bool): Step {
    match c
    case Start(version) => TransitionToRunning(s, version, {Pending})
    case Finish(a, now) =>
      if ServerArguments(s.id, s.row.profile, a) then FinalizeRun(s, a, now) else Abort(InvalidArgument)
    case Verify(item, request) => AcceptVerification(s, elsewhere, item, request)
    case TakeSnapshot => FinalizeSnapshot(s)
    case Publish(version, build, now) => FinalizePublication(s, version, build, now)
    case Decide(review, request) => AcceptReviewDecision(s, elsewhere, review, request)
    case Claim(k, worker, now, lease) => ClaimWorkflow(s, k, worker, now, lease)
    case CompleteCheckpoint(k, worker, now) => CompleteCheckpointCreation(s, k, worker, now)
    case MarkWaiting(k) => MarkWaitingDecision(s, k)
    case HandOver(k, holder, now, id) => MarkResolutionPending(s, k, holder, now, id)
    case SendToManual(k, holder, now, error) => MarkManualRecovery(s, k, holder, now, error)
    case ReleaseExpired(k, now) => ReleaseExpiredLease(s, k, now)
    case ReleaseRetry(k, worker, now, error, max) => ReleaseForRetry(s, k, worker, now, error, max)
    case SubmitReview(k, worker, now, version, original, id, d) => Submit(s, k, worker, now, version, original, id, d)
  }

  predicate Worker(c: Command) {
    c.Claim? || c.CompleteCheckpoint? || c.MarkWaiting? || c.HandOver? || c.SendToManual? || c.ReleaseExpired? || c.ReleaseRetry?
  }

  lemma WorkerStepKeeps(s: RunState, c: Command)
    requires Inv(s) && Worker(c)
    ensures var step := Apply(s, c, false); step.Commit? ==> Inv(step.state)
  {
    hide Inv, ClaimWorkflow, CompleteCheckpointCreation, MarkWaitingDecision, MarkResolutionPending, MarkManualRecovery,
      ReleaseExpiredLease, ReleaseForRetry;
    match c
    case Claim(k, worker, now, lease) => ClaimKeeps(s, k, worker, now, lease);
    case CompleteCheckpoint(k, worker, now) => CompleteCheckpointKeeps(s, k, worker, now);
    case MarkWaiting(k) => MarkWaitingKeeps(s, k);
    case HandOver(k, holder, now, id) => HandOverKeeps(s, k, holder, now, id);
    case SendToManual(k, holder, now, error) => MarkManualKeeps(s, k, holder, now, error);
    case ReleaseExpired(k, now) => ReleaseExpiredKeeps(s, k, now);
    case ReleaseRetry(k, worker, now, error, max) => ReleaseForRetryKeeps(s, k, worker, now, error, max);
  }

  // Every step keeps the invariant of its run.
  lemma StepKeeps(s: RunState, c: Command, elsewhere: bool)
    requires Inv(s)
    ensures var step := Apply(s, c, elsewhere); step.Commit? ==> Inv(step.state)
  {
    hide Inv, TransitionToRunning, FinalizeRun, AcceptVerification, FinalizeSnapshot, FinalizePublication,
      AcceptReviewDecision, Submit;
    match c
    case Start(version) => TransitionKeeps(s, version, {Pending});
    case Finish(a, now) => if ServerArguments(s.id, s.row.profile, a) { FinalizeRunKeeps(s, a, now); }
    case Verify(item, request) => AcceptVerificationKeeps(s, elsewhere, item, request);
    case TakeSnapshot => FinalizeSnapshotKeeps(s);
    case Publish(version, build, now) => FinalizePublicationKeeps(s, version, build, now);
    case Decide(review, request) => AcceptReviewDecisionKeeps(s, elsewhere, review, request);
    case SubmitReview(k, worker, now, version, original, id, d) => SubmitKeeps(s, k, worker, now, version, original, id, d);
    case _ => WorkerStepKeeps(s, c);
  }

  // What a step leaves alone, takes back, or counts.

  // A worker's or the reconciler's step moves one workflow along, and never the run's row.
  lemma WorkerStepMoves(s: RunState, c: Command)
    requires Leases(s) && Worker(c)
    ensures var step := Apply(s, c, false);
      step.Commit? ==> step.state == s || LeaseMove(s, step.state, c.k)
  {
    if c.SendToManual? || c.ReleaseRetry? { GiveUpMoves(s, c); }
    else if c.Claim? || c.HandOver? { TakeUpMoves(s, c); }
  }

  lemma GiveUpMoves(s: RunState, c: Command)
    requires Leases(s) && (c.SendToManual? || c.ReleaseRetry?)
    ensures var step := Apply(s, c, false); step.Commit? ==> LeaseMove(s, step.state, c.k)
  {
    var step := Apply(s, c, false);
    if step.Commit? {
      if c.SendToManual? && c.holder.Some? { OwnerHasOpenAttempt(s, c.k, c.holder.value, c.now); }
      if c.ReleaseRetry? { OwnerHasOpenAttempt(s, c.k, c.worker, c.now); }
    }
  }

  lemma TakeUpMoves(s: RunState, c: Command)
    requires c.Claim? || c.HandOver?
    ensures var step := Apply(s, c, false); step.Commit? ==> LeaseMove(s, step.state, c.k)
  {
  }

  lemma VerifyEvolves(s: RunState, elsewhere: bool, item: EvidenceId, request: VerificationRequest)
    requires Inv(s)
    ensures var step := AcceptVerification(s, elsewhere, item, request); step.Commit? ==> Evolves(s, step.state)
  {
    var step := AcceptVerification(s, elsewhere, item, request);
    AcceptanceAppends(s, elsewhere, item, request);
    ReplayChangesNothing(s, elsewhere, item, request);
    if step.Commit? && !step.replay {
      var adopted, d := AdoptBaseline(s), AcceptedRow(s, item, request);
      AdoptKeeps(s);
      AdoptionReaches(s);
      AppendWithdraws(adopted, d);
      AdoptEvolves(s);
      WithdrawnEvolves(adopted, step.state, d);
      EvolvesIsTransitive(s, adopted, step.state);
    }
  }

  lemma PreparedEvolves(s: RunState)
    ensures Evolves(s, Prepared(s))
  {
    AdoptEvolves(s);
  }

  lemma AgainEvolves(t: RunState, i: nat, now: Instant)
    requires Bundled(t) && Chain(t) && Published(t) && i < |t.publications| && t.publications[i].current
    ensures var step := FinalizeAgain(t, i, now); step.Commit? ==> Evolves(t, step.state)
  {
    RepairOpens(t, i, now);
    var step := FinalizeAgain(t, i, now);
    if step.Commit? && !step.replay { RepairedEvolves(t, step.state, now); }
  }

  lemma PublishRevisionEvolves(t: RunState, build: Build, now: Instant)
    requires Chain(t) && Published(t) && Artifacts(t) && AdoptedIfBundled(t)
    requires EffectiveSnapshot(t) in t.snapshots && CurrentIndex(t.publications).None?
    ensures var step := PublishRevision(t, EffectiveSnapshot(t), build, now); step.Commit? ==> Evolves(t, step.state)
  {
    PublishRevises(t, build, now);
    var step := PublishRevision(t, EffectiveSnapshot(t), build, now);
    if step.Commit? {
      var review := BuiltReview(t, |t.publications| + 1, build);
      RevisedEvolves(t, step.state, review, BuiltBrief(review, build), now);
    }
  }

  lemma PublishEvolves(s: RunState, version: nat, build: Build, now: Instant)
    requires Inv(s)
    ensures var step := FinalizePublication(s, version, build, now); step.Commit? ==> Evolves(s, step.state)
  {
    var t := Prepared(s);
    FinalizationCases(s, version, build, now);
    PreparedKeeps(s);
    PreparedEvolves(s);
    var step := FinalizePublication(s, version, build, now);
    if step.Commit? {
      match CurrentIndex(t.publications) {
        case Some(i) => AgainEvolves(t, i, now);
        case None => PublishRevisionEvolves(t, build, now);
      }
      EvolvesIsTransitive(s, t, step.state);
    }
  }

  lemma DecideEvolves(s: RunState, elsewhere: bool, review: ReviewId, request: DecisionRequest)
    requires Decided(s)
    ensures var step := AcceptReviewDecision(s, elsewhere, review, request); step.Commit? ==> Evolves(s, step.state)
  {
    AcceptanceTakes(s, elsewhere, review, request);
    var step := AcceptReviewDecision(s, elsewhere, review, request);
    if step.Commit? && !step.replay {
      DecisionTakenEvolves(s, step.state, request.revision, request.id, step.state.decisions[request.id]);
    }
  }

  lemma SubmitEvolves(s: RunState, k: nat, worker: WorkerId, now: Instant, version: nat,
                      original: Content, id: DecisionId, d: ReviewDecision)
    requires Bundled(s) && Chain(s) && Published(s) && Artifacts(s)
    ensures var step := Submit(s, k, worker, now, version, original, id, d); step.Commit? ==> Evolves(s, step.state)
  {
    SubmissionTakes(s, k, worker, now, version, original, id, d);
    var step := Submit(s, k, worker, now, version, original, id, d);
    if step.Commit? && !step.replay {
      ResolvedUnderReview(s, step.state, k, id, s.decisions[id], SubmittedBrief(original, id, d, k));
      ReviewedIdsAreNew(s, k);
      ResolutionTakenEvolves(s, step.state, k, id, s.decisions[id], SubmittedBrief(original, id, d, k));
    }
  }

  lemma FinishEvolves(s: RunState, a: FinalArguments, now: Instant)
    requires Inv(s) && ServerArguments(s.id, s.row.profile, a)
    ensures var step := FinalizeRun(s, a, now); step.Commit? ==> Evolves(s, step.state)
  {
    FinalizationStores(s, a, now);
    var step := FinalizeRun(s, a, now);
    if step.Commit? {
      var t := Stored(s, a, now);
      NothingYet(s);
      StoredIsFinalised(s, a, now);
      FinalisedEvolves(s, t, a, now);
      AdoptEvolves(t);
      EvolvesIsTransitive(s, t, AdoptBaseline(t));
    }
  }

  lemma WorkerStepEvolves(s: RunState, c: Command)
    requires Leases(s) && Worker(c)
    ensures var step := Apply(s, c, false); step.Commit? ==> Evolves(s, step.state)
  {
    hide Leases, Evolves, LeaseMove, Apply;
    EvolvesIsReflexive(s);
    WorkerStepMoves(s, c);
    var step := Apply(s, c, false);
    if step.Commit? && step.state != s {
      LeaseMoveEvolves(s, step.state, c.k);
    }
  }

  lemma StartEvolves(s: RunState, c: Command, elsewhere: bool)
    requires c.Start? || c.TakeSnapshot?
    ensures var step := Apply(s, c, elsewhere); step.Commit? ==> Evolves(s, step.state)
  {
  }

  // No step takes anything back.
  lemma StepEvolves(s: RunState, c: Command, elsewhere: bool)
    requires Inv(s)
    ensures var step := Apply(s, c, elsewhere); step.Commit? ==> Evolves(s, step.state)
  {
    hide Evolves, TransitionToRunning, FinalizeRun, AcceptVerification, FinalizeSnapshot, FinalizePublication,
      AcceptReviewDecision, Submit;
    match c
    case Start(_) => StartEvolves(s, c, elsewhere);
    case TakeSnapshot => StartEvolves(s, c, elsewhere);
    case Finish(a, now) => if ServerArguments(s.id, s.row.profile, a) { FinishEvolves(s, a, now); }
    case Verify(item, request) => VerifyEvolves(s, elsewhere, item, request);
    case Publish(version, build, now) => PublishEvolves(s, version, build, now);
    case Decide(review, request) => DecideEvolves(s, elsewhere, review, request);
    case SubmitReview(k, worker, now, version, original, id, d) => SubmitEvolves(s, k, worker, now, version, original, id, d);
    case _ => WorkerStepEvolves(s, c);
  }

  // The application database --------------------------------------------------------------

  type Db = map<RunId, RunState>

  datatype DbCommand = Create(run: RunId, profile: Profile) | On(run: RunId, command: Command)

  predicate UsedByAnother(db: Db, run: RunId, c: Command) {
    match c
    case Verify(_, request) =>
      exists other | other in db :: other != run && FindVerification(db[other].ledger, request.id).Some?
    case Decide(_, request) => exists other | other in db :: other != run && request.id in db[other].decisions
    case _ => false
  }

  function Perform(db: Db, c: DbCommand): Db {
    match c
    case Create(run, profile) => if run in db then db else db[run := CreateRun(run, profile)]
    case On(run, command) =>
      if run !in db then db else db[run := After(db[run], command, UsedByAnother(db, run, command))]
  }

  // The rows of a run after a command, committed or not.
  function After(s: RunState, c: Command, elsewhere: bool): RunState {
    match Apply(s, c, elsewhere)
    case Commit(state, _) => state
    case Abort(_) => s
  }

  lemma AfterKeeps(s: RunState, c: Command, elsewhere: bool)
    requires Inv(s)
    ensures Inv(After(s, c, elsewhere))
  {
    StepKeeps(s, c, elsewhere);
  }

  lemma AfterEvolves(s: RunState, c: Command, elsewhere: bool)
    requires Inv(s)
    ensures Evolves(s, After(s, c, elsewhere)) && After(s, c, elsewhere).id == s.id
  {
    StepEvolves(s, c, elsewhere);
    EvolvesIsReflexive(s);
  }

  function Execute(db: Db, commands: seq<DbCommand>): Db
    decreases commands
  {
    if commands == [] then db
    else Execute(Perform(db, commands[0]), commands[1..])
  }

  ghost predicate DbInv(db: Db) {
    forall run | run in db :: db[run].id == run && Inv(db[run])
  }

  ghost predicate DbEvolves(before: Db, after: Db) {
    forall run | run in before :: run in after && Evolves(before[run], after[run])
  }

  lemma PerformKeeps(db: Db, c: DbCommand)
    requires DbInv(db)
    ensures DbInv(Perform(db, c))
  {
    hide Inv, Evolves, After, UsedByAnother, CreateRun;
    match c
    case Create(run, profile) => CreateEstablishes(run, profile);
    case On(run, command) =>
      if run in db {
        AfterKeeps(db[run], command, UsedByAnother(db, run, command));
        AfterEvolves(db[run], command, UsedByAnother(db, run, command));
      }
  }

  lemma PerformEvolves(db: Db, c: DbCommand)
    requires DbInv(db)
    ensures DbEvolves(db, Perform(db, c))
  {
    hide Inv, Evolves, After, UsedByAnother, CreateRun;
    forall run | run in db ensures Evolves(db[run], db[run]) { EvolvesIsReflexive(db[run]); }
    if c.On? && c.run in db { AfterEvolves(db[c.run], c.command, UsedByAnother(db, c.run, c.command)); }
  }

  // Safety over whole runs: the invariant holds after any commands.
  lemma {:induction false} ExecutionKeeps(db: Db, commands: seq<DbCommand>)
    requires DbInv(db)
    ensures DbInv(Execute(db, commands))
    decreases |commands|
  {
    if commands != [] {
      PerformKeeps(db, commands[0]);
      ExecutionKeeps(Perform(db, commands[0]), commands[1..]);
    }
  }

  lemma DbEvolvesIsTransitive(a: Db, b: Db, c: Db)
    requires DbEvolves(a, b) && DbEvolves(b, c)
    ensures DbEvolves(a, c)
  {
    forall run | run in a ensures run in c && Evolves(a[run], c[run]) { EvolvesIsTransitive(a[run], b[run], c[run]); }
  }

  // No commands take anything back.
  lemma {:induction false} ExecutionEvolves(db: Db, commands: seq<DbCommand>)
    requires DbInv(db)
    ensures DbEvolves(db, Execute(db, commands))
    decreases |commands|
  {
    if commands == [] {
      forall run | run in db ensures Evolves(db[run], db[run]) { EvolvesIsReflexive(db[run]); }
    } else {
      var next := Perform(db, commands[0]);
      PerformKeeps(db, commands[0]);
      PerformEvolves(db, commands[0]);
      ExecutionEvolves(next, commands[1..]);
      DbEvolvesIsTransitive(db, next, Execute(next, commands[1..]));
    }
  }

  // Every state reachable from the empty database satisfies the invariant.
  lemma ReachableKeeps(commands: seq<DbCommand>)
    ensures DbInv(Execute(map[], commands))
  {
    ExecutionKeeps(map[], commands);
  }
}
