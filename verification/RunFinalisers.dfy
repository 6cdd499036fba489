/** The normal, failure, cancellation and timeout finalisers of a run race (api/server.py): each
    writes through the same fence (api/run_repository.py). */
module RunFinalisers {
  import opened ReviewTypes
  import opened Publications
  import opened RunLifecycle
  import opened ReviewWorkflows
  import opened RunInvariant
  import opened LeasePreservation
  import opened FinalizationPreservation
  import opened ReviewPreservation
  import opened RunPreservation
  import opened Evolution
  import opened Executions

  // The version counts the writes of the row: it grows by one with each, and stands still
  // while the row stays the same.
  predicate CountsWrites(before: RunRow, after: RunRow) {
    after == before || after.version == before.version + 1
  }

  lemma WorkerCounts(s: RunState, c: Command)
    requires Leases(s) && Worker(c)
    ensures var step := Apply(s, c, false); step.Commit? ==> step.state.row == s.row
  {
    WorkerStepMoves(s, c);
    hide Leases, Apply;
  }

  lemma PlainCounts(s: RunState, c: Command, elsewhere: bool)
    requires c.Start? || c.TakeSnapshot? || c.Decide?
    ensures var step := Apply(s, c, elsewhere); step.Commit? ==> CountsWrites(s.row, step.state.row)
  {
  }

  lemma VerifyCounts(s: RunState, elsewhere: bool, item: EvidenceId, request: VerificationRequest)
    ensures var step := AcceptVerification(s, elsewhere, item, request); step.Commit? ==> CountsWrites(s.row, step.state.row)
  {
  }

  lemma PublishCounts(s: RunState, version: nat, build: Build, now: Instant)
    ensures var step := FinalizePublication(s, version, build, now); step.Commit? ==> CountsWrites(s.row, step.state.row)
  {
    hide FinalizePublication;
    FinalizePublicationFrame(s, version, build, now);
  }

  lemma SubmitCounts(s: RunState, k: nat, worker: WorkerId, now: Instant, version: nat,
                     original: Content, id: DecisionId, d: ReviewDecision)
    ensures var step := Submit(s, k, worker, now, version, original, id, d); step.Commit? ==> CountsWrites(s.row, step.state.row)
  {
    SubmissionAccepted(s, k, worker, now, version, original, id, d);
    hide Submit;
  }

  lemma FinishCounts(s: RunState, a: FinalArguments, now: Instant)
    ensures var step := FinalizeRun(s, a, now);
      step.Commit? ==> step.state.row == FinalRow(s, a) && s.row.execution in a.allowed && s.row.version == a.expectedVersion
  {
  }

  // Every step writes the run's row at most once.
  lemma StepCounts(s: RunState, c: Command, elsewhere: bool)
    requires Leases(s)
    ensures CountsWrites(s.row, After(s, c, elsewhere).row)
  {
    hide Leases, Submit, FinalizePublication, FinalizeRun, AcceptVerification;
    match c {
      case Finish(a, now) => FinishCounts(s, a, now);
      case Verify(item, request) => VerifyCounts(s, elsewhere, item, request);
      case Publish(version, build, now) => PublishCounts(s, version, build, now);
      case SubmitReview(k, worker, now, version, original, id, d) => SubmitCounts(s, k, worker, now, version, original, id, d);
      case Start(_) => PlainCounts(s, c, elsewhere);
      case TakeSnapshot => PlainCounts(s, c, elsewhere);
      case Decide(_, _) => PlainCounts(s, c, elsewhere);
      case _ => WorkerCounts(s, c);
    }
    hide TransitionToRunning, FinalizeSnapshot, AcceptReviewDecision, ClaimWorkflow, CompleteCheckpointCreation,
      MarkWaitingDecision, MarkResolutionPending, MarkManualRecovery, ReleaseExpiredLease, ReleaseForRetry;
  }

  lemma PerformCounts(db: Db, c: DbCommand, run: RunId)
    requires DbInv(db) && run in db
    ensures run in Perform(db, c) && CountsWrites(db[run].row, Perform(db, c)[run].row)
  {
    hide Inv, After, UsedByAnother, CreateRun, CountsWrites;
    if c.On? && c.run == run {
      LeasesHold(db[run]);
      StepCounts(db[run], c.command, UsedByAnother(db, run, c.command));
    } else {
      assert CountsWrites(db[run].row, db[run].row) by { SameCounts(db[run].row); }
    }
  }

  lemma SameCounts(row: RunRow)
    ensures CountsWrites(row, row)
  {
  }

  // Through any commands: the version never goes back, and while it is the one that was read,
  // so is the whole row.
  lemma {:induction false} VersionTellsRow(db: Db, commands: seq<DbCommand>, run: RunId)
    requires DbInv(db) && run in db
    ensures var later := Execute(db, commands);
      && run in later
      && later[run].row.version >= db[run].row.version
      && (later[run].row.version == db[run].row.version <==> later[run].row == db[run].row)
    decreases |commands|
  {
    hide Inv, Perform;
    if commands != [] {
      PerformKeeps(db, commands[0]);
      PerformCounts(db, commands[0], run);
      VersionTellsRow(Perform(db, commands[0]), commands[1..], run);
    }
  }

  // When a finaliser commits ---------------------------------------------------------------

  predicate DistinctEntries(entries: seq<EvidenceEntry>) {
    forall i, j | 0 <= i < j < |entries| :: entries[i].fingerprint != entries[j].fingerprint
  }

  // On a run that is not terminal nothing is stored yet, so that a finaliser of the server is
  // refused only by its fence or by evidence that repeats a fingerprint of its own.
  lemma FinaliserCommitsIffFenced(s: RunState, a: FinalArguments, now: Instant)
    requires Inv(s) && ServerArguments(s.id, s.row.profile, a)
    ensures FinalizeRun(s, a, now).Commit? <==> Fenced(s, a.expectedVersion, a.allowed) && DistinctEntries(a.entries)
  {
    if Fenced(s, a.expectedVersion, a.allowed) {
      NothingYet(s);
      assert s.segments[0] == a.segment;
      ServerRowsInsert(s, a);
      hide Inv, TalentArguments, PlainArguments, AdoptBaseline, CanInsert, InsertAll, InsertEvidence;
    }
  }

  lemma ServerRowsInsert(s: RunState, a: FinalArguments)
    requires ServerArguments(s.id, s.row.profile, a) && Bare(s) && s.workflows == map[]
    ensures CanInsert(s.artifacts, a.artifacts) && (a.workflow ==> a.bundle.Some? && a.bundle.value.required)
    ensures CanInsertEvidence(s, a.entries) <==> DistinctEntries(a.entries)
  {
  }

  // The winner ---------------------------------------------------------------------------

  // One finaliser commits on this run with the command.
  predicate Finishes(db: Db, c: DbCommand, run: RunId) {
    && c.On? && c.run == run && c.command.Finish? && run in db
    && ServerArguments(db[run].id, db[run].row.profile, c.command.arguments)
    && FinalizeRun(db[run], c.command.arguments, c.command.now).Commit?
  }

  // How many finalisers commit on the run.
  function Finishers(db: Db, commands: seq<DbCommand>, run: RunId): nat
    decreases commands
  {
    if commands == [] then 0
    else (if Finishes(db, commands[0], run) then 1 else 0) + Finishers(Perform(db, commands[0]), commands[1..], run)
  }

  predicate Finished(db: Db, run: RunId) {
    run in db && Terminal(db[run].row.execution)
  }

  // On a terminal run every finaliser is refused as stale.
  lemma LateFinaliserIsStale(s: RunState, a: FinalArguments, now: Instant)
    requires Terminal(s.row.execution) && ServerArguments(s.id, s.row.profile, a)
    ensures FinalizeRun(s, a, now) == Abort(StaleRunWrite)
  {
  }

  // Nothing but a committed finaliser makes a run terminal.
  lemma OnlyFinishEnds(s: RunState, c: Command, elsewhere: bool)
    requires Leases(s) && !Terminal(s.row.execution)
    ensures Terminal(After(s, c, elsewhere).row.execution) ==>
      c.Finish? && ServerArguments(s.id, s.row.profile, c.arguments) && FinalizeRun(s, c.arguments, c.now).Commit?
  {
    hide Leases, Submit, FinalizePublication, FinalizeRun, AcceptVerification;
    match c {
      case Finish(_, _) =>
      case Verify(item, request) => VerifyKeepsExecution(s, elsewhere, item, request);
      case Publish(version, build, now) => PublishKeepsExecution(s, version, build, now);
      case SubmitReview(k, worker, now, version, original, id, d) => SubmitKeepsExecution(s, k, worker, now, version, original, id, d);
      case Start(_) => PlainKeepsExecution(s, c, elsewhere);
      case TakeSnapshot => PlainKeepsExecution(s, c, elsewhere);
      case Decide(_, _) => PlainKeepsExecution(s, c, elsewhere);
      case _ => WorkerCounts(s, c);
    }
    hide TransitionToRunning, FinalizeSnapshot, AcceptReviewDecision, ClaimWorkflow, CompleteCheckpointCreation,
      MarkWaitingDecision, MarkResolutionPending, MarkManualRecovery, ReleaseExpiredLease, ReleaseForRetry;
  }

  lemma PlainKeepsExecution(s: RunState, c: Command, elsewhere: bool)
    requires c.Start? || c.TakeSnapshot? || c.Decide?
    ensures var step := Apply(s, c, elsewhere);
      step.Commit? && Terminal(step.state.row.execution) ==> Terminal(s.row.execution)
  {
  }

  lemma VerifyKeepsExecution(s: RunState, elsewhere: bool, item: EvidenceId, request: VerificationRequest)
    ensures var step := AcceptVerification(s, elsewhere, item, request);
      step.Commit? ==> step.state.row.execution == s.row.execution
  {
  }

  lemma PublishKeepsExecution(s: RunState, version: nat, build: Build, now: Instant)
    ensures var step := FinalizePublication(s, version, build, now);
      step.Commit? ==> step.state.row.execution == s.row.execution
  {
    hide FinalizePublication;
    FinalizePublicationFrame(s, version, build, now);
  }

  lemma SubmitKeepsExecution(s: RunState, k: nat, worker: WorkerId, now: Instant, version: nat,
                             original: Content, id: DecisionId, d: ReviewDecision)
    ensures var step := Submit(s, k, worker, now, version, original, id, d);
      step.Commit? ==> step.state.row.execution == s.row.execution
  {
    SubmissionAccepted(s, k, worker, now, version, original, id, d);
    hide Submit;
  }

  lemma FinishEnds(s: RunState, a: FinalArguments, now: Instant)
    requires ServerArguments(s.id, s.row.profile, a) && FinalizeRun(s, a, now).Commit?
    ensures !Terminal(s.row.execution) && Terminal(FinalizeRun(s, a, now).state.row.execution)
  {
    FinishCounts(s, a, now);
    hide FinalizeRun, TalentArguments, PlainArguments;
  }

  // A run becomes terminal exactly by a committed finaliser.
  lemma PerformFinishes(db: Db, c: DbCommand, run: RunId)
    requires DbInv(db)
    ensures Finishes(db, c, run) ==> !Finished(db, run)
    ensures Finished(Perform(db, c), run) <==> Finished(db, run) || Finishes(db, c, run)
  {
    hide Inv, After, UsedByAnother, FinalizeRun, ServerArguments, Evolves, Terminal;
    if c.On? && c.run == run && run in db {
      var s, elsewhere := db[run], UsedByAnother(db, run, c.command);
      LeasesHold(s);
      AfterEvolves(s, c.command, elsewhere);
      StaysTerminal(s, After(s, c.command, elsewhere));
      if !Terminal(s.row.execution) { OnlyFinishEnds(s, c.command, elsewhere); }
      if Finishes(db, c, run) { FinishEnds(s, c.command.arguments, c.command.now); FinishAfter(s, c.command, elsewhere); }
    } else if c.Create? && c.run == run {
      CreatedPending(run, c.profile);
      hide CreateRun;
    }
  }

  lemma StaysTerminal(s: RunState, t: RunState)
    requires Evolves(s, t)
    ensures Terminal(s.row.execution) ==> Terminal(t.row.execution)
  {
  }

  lemma FinishAfter(s: RunState, c: Command, elsewhere: bool)
    requires c.Finish? && ServerArguments(s.id, s.row.profile, c.arguments) && FinalizeRun(s, c.arguments, c.now).Commit?
    ensures After(s, c, elsewhere) == FinalizeRun(s, c.arguments, c.now).state
  {
    hide FinalizeRun, ServerArguments;
  }

  lemma CreatedPending(run: RunId, profile: Profile)
    ensures !Terminal(CreateRun(run, profile).row.execution)
  {
  }

  // At most one finaliser of a run ever commits, and one has committed exactly when the run is
  // terminal.
  lemma {:induction false} AtMostOneFinisher(db: Db, commands: seq<DbCommand>, run: RunId)
    requires DbInv(db)
    ensures Finishers(db, commands, run) + (if Finished(db, run) then 1 else 0) ==
      if Finished(Execute(db, commands), run) then 1 else 0
    decreases |commands|
  {
    hide Inv, Perform, Finishes, Finished;
    if commands != [] {
      PerformKeeps(db, commands[0]);
      PerformFinishes(db, commands[0], run);
      AtMostOneFinisher(Perform(db, commands[0]), commands[1..], run);
    }
  }

  // What the winner stored is what stays, whatever the others try afterwards.
  ghost predicate Won(s: RunState, u: RunState, a: FinalArguments) {
    && u.row.execution == a.execution
    && u.evidence == InsertEvidence(s.id, map[], a.entries)
    && u.packets == a.packets
    && u.row.version > s.row.version
  }

  lemma FinishStores(s: RunState, a: FinalArguments, now: Instant)
    requires Bare(s) && FinalizeRun(s, a, now).Commit?
    ensures Won(s, FinalizeRun(s, a, now).state, a)
  {
  }

  lemma WonStays(s: RunState, t: RunState, u: RunState, a: FinalArguments)
    requires Won(s, t, a) && Terminal(t.row.execution) && RowEvolves(t, u)
    ensures Won(s, u, a)
  {
  }

  lemma WinnerStays(db: Db, run: RunId, a: FinalArguments, now: Instant, commands: seq<DbCommand>)
    requires DbInv(db) && Finishes(db, On(run, Finish(a, now)), run)
    ensures var later := Execute(Perform(db, On(run, Finish(a, now))), commands);
      run in later && Won(db[run], later[run], a) && Finishers(Perform(db, On(run, Finish(a, now))), commands, run) == 0
  {
    var first := Perform(db, On(run, Finish(a, now)));
    PerformKeeps(db, On(run, Finish(a, now)));
    PerformFinishes(db, On(run, Finish(a, now)), run);
    AtMostOneFinisher(first, commands, run);
    ExecutionEvolves(first, commands);
    FinishWins(db, run, a, now);
    var later := Execute(first, commands);
    hide Inv, Perform, Execute, Won, Finishes, Finishers, Terminal, RowEvolves, ReviewsEvolve, PublicationsEvolve;
    WonStays(db[run], first[run], later[run], a);
  }

  lemma FinishWins(db: Db, run: RunId, a: FinalArguments, now: Instant)
    requires DbInv(db) && Finishes(db, On(run, Finish(a, now)), run)
    ensures var first := Perform(db, On(run, Finish(a, now))); run in first && Won(db[run], first[run], a)
  {
    hide FinalizeRun, ServerArguments, Inv, Won, Bare, After, Terminal;
    var s := db[run];
    FinishEnds(s, a, now);
    BareUntilFinished(s);
    FinishStores(s, a, now);
    FinishAfter(s, Finish(a, now), false);
  }

  lemma BareUntilFinished(s: RunState)
    requires Inv(s) && !Terminal(s.row.execution)
    ensures Bare(s)
  {
  }

  // A transition commits exactly under its fence; the statuses that are given are written, the others
  // stay, and the write is counted.
  lemma TransitionWrites(s: RunState, version: nat, allowed: set<Execution>,
                         execution: Option<Execution>, review: Option<ReviewFlag>, delivery: Option<Delivery>)
    ensures var step := Transition(s, version, allowed, execution, review, delivery);
      && (step.Commit? <==> s.row.version == version && s.row.execution in allowed)
      && (step.Abort? ==> step.code == if allowed == {} then InvalidArgument else StaleRunWrite)
      && (step.Commit? ==>
            && !step.replay && step.state == s.(row := step.state.row)
            && step.state.row.profile == s.row.profile && step.state.row.version == version + 1
            && (execution == None || execution == Some(step.state.row.execution)) && (execution == None ==> step.state.row.execution == s.row.execution)
            && (review == None || review == Some(step.state.row.review)) && (review == None ==> step.state.row.review == s.row.review)
            && (delivery == None || delivery == Some(step.state.row.delivery)) && (delivery == None ==> step.state.row.delivery == s.row.delivery))
  {
  }
}
