/** The server's side of one run (api/server.py): how it starts, completes, fails or times a run
    out, each through the same fenced writes. */
module RunService {
  import opened ReviewTypes
  import opened RunLifecycle
  import opened RunInvariant
  import opened Executions
  import opened Evolution
  import opened ReviewStore
  import opened RunFinalisers
  import opened AgentResults

  class RunExecution {
    const store: Database
    const run: RunId
    const settings: Settings
    var stateVersion: nat
    var allowed: set<Execution>

    constructor (store: Database, run: RunId, settings: Settings)
      ensures this.store == store && this.run == run && this.settings == settings
      ensures stateVersion == 0 && allowed == {Pending}
    {
      this.store, this.run, this.settings, stateVersion, allowed := store, run, settings, 0, {Pending};
    }

    // The fence that a failure of this execution writes through: it moves on with the start.
    ghost predicate Valid()
      reads this
    {
      (stateVersion == 0 && allowed == {Pending}) || (stateVersion == 1 && allowed == {Running})
    }

    method Begin() returns (started: bool)
      requires Valid() && run in store.runs
      modifies this, store
      ensures Valid() && store.runs == Perform(old(store.runs), On(run, Start(0)))
      ensures started <==> old(store.runs)[run].row.version == 0 && old(store.runs)[run].row.execution == Pending
      ensures started ==>
        && stateVersion == 1 && allowed == {Running}
        && store.runs == old(store.runs)[run := old(store.runs)[run].(row := old(store.runs)[run].row.(execution := Running, version := 1))]
      ensures !started ==> store.runs == old(store.runs) && stateVersion == old(stateVersion) && allowed == old(allowed)
    {
      hide FinalizeRun;
      var outcome := store.TransitionRun(run, 0, {Pending}, Some(Running), None, None);
      started := outcome.Done?;
      if started { stateVersion, allowed := 1, {Running}; }
      PerformedIsPerform(old(store.runs), store.runs, run, Start(0), outcome);
    }

    // The normal finaliser: it ends the run if and only if the run is still as its start left it and
    // no two entries share a fingerprint, and then the run holds this result.
    method Complete(result: AgentResult, now: Instant) returns (finalized: bool)
      requires store.Valid() && run in store.runs
      modifies store
      ensures store.Valid()
      ensures var before := old(store.runs)[run];
        && (finalized <==> before.row.version == 1 && before.row.execution == Running && DistinctEntries(result.entries))
        && (finalized ==>
              && run in store.runs && store.runs == old(store.runs)[run := store.runs[run]]
              && if result.failed then FailureStored(before, store.runs[run], result.entries, result.packets)
                 else ResultStored(before, store.runs[run], result, settings, now))
        && (!finalized ==> store.runs == old(store.runs))
      ensures store.runs == Perform(old(store.runs), On(run, Finish(Normal(run, old(store.runs)[run].row.profile, result, settings), now)))
    {
      hide Normal, FinalizeRun, ServerArguments, Inv, Finishes, Perform, DistinctEntries, FailureStored, ResultStored;
      var profile := store.runs[run].row.profile;
      var a := Normal(run, profile, result, settings);
      NormalIsServer(run, profile, result, settings);
      NormalFence(run, profile, result, settings);
      FinaliserWrites(store.runs, run, a, now);
      CompletionWrites(store.runs, run, result, settings, now);
      PerformKeeps(store.runs, On(run, Finish(a, now)));
      var outcome := store.FinalizeRunTransaction(run, a, now);
      FinishPerformed(old(store.runs), store.runs, run, a, now, outcome);
      finalized := outcome.Done?;
    }

    // _finalize_failed_run_v2 with the versions of this execution, after an error or a cancellation.
    method Fail(entries: seq<EvidenceEntry>, now: Instant) returns (finalized: bool)
      requires Valid() && store.Valid() && run in store.runs
      modifies store
      ensures store.Valid()
      ensures var before := old(store.runs)[run];
        && (finalized <==> before.row.version == stateVersion && before.row.execution in allowed && DistinctEntries(entries))
        && (if finalized then FailedBy(old(store.runs), store.runs, run, entries) else store.runs == old(store.runs))
      ensures store.runs == Perform(old(store.runs), On(run, Finish(Failure(run, stateVersion, allowed, entries, 0, settings), now)))
    {
      hide Failure, Perform, Inv, DistinctEntries, FailedBy;
      finalized := WriteFailure(store, run, settings, stateVersion, allowed, entries, now);
    }
  }

  // The finalising transaction is the finalising command.
  lemma FinishPerformed(before: Db, after: Db, run: RunId, a: FinalArguments, now: Instant, outcome: Outcome)
    requires run in before && ServerArguments(before[run].id, before[run].row.profile, a)
    requires Performed(before, after, run, FinalizeRun(before[run], a, now), outcome)
    ensures after == Perform(before, On(run, Finish(a, now)))
    ensures outcome.Done? <==> Finishes(before, On(run, Finish(a, now)), run)
  {
    hide FinalizeRun, ServerArguments;
    PerformedIsPerform(before, after, run, Finish(a, now), outcome);
  }

  // The failure with these entries ended the run: it is stored, and no other run moved.
  ghost predicate FailedBy(before: Db, after: Db, run: RunId, entries: seq<EvidenceEntry>) {
    && run in before && run in after
    && after == before[run := after[run]]
    && FailureStored(before[run], after[run], entries, 0)
  }

  lemma NormalFence(run: RunId, profile: Profile, r: AgentResult, settings: Settings)
    ensures var a := Normal(run, profile, r, settings);
      a.expectedVersion == 1 && a.allowed == {Running} && a.entries == r.entries
  {
  }

  lemma CompletionWrites(db: Db, run: RunId, r: AgentResult, settings: Settings, now: Instant)
    requires DbInv(db) && run in db
    ensures var c := On(run, Finish(Normal(run, db[run].row.profile, r, settings), now));
      Finishes(db, c, run) ==>
        && run in Perform(db, c) && Perform(db, c) == db[run := Perform(db, c)[run]]
        && if r.failed then FailureStored(db[run], Perform(db, c)[run], r.entries, r.packets)
           else ResultStored(db[run], Perform(db, c)[run], r, settings, now)
  {
    hide Inv, FinalizeRun, ServerArguments, Normal, FailureStored, ResultStored, After;
    var a := Normal(run, db[run].row.profile, r, settings);
    if Finishes(db, On(run, Finish(a, now)), run) {
      ResultIsStored(db[run], r, settings, now);
      FinishAfter(db[run], Finish(a, now), false);
    }
  }

  lemma FailureWrites(db: Db, run: RunId, settings: Settings, version: nat, allowed: set<Execution>, entries: seq<EvidenceEntry>, now: Instant)
    requires DbInv(db) && run in db && (allowed == {Pending} || allowed == {Running})
    ensures var c := On(run, Finish(Failure(run, version, allowed, entries, 0, settings), now));
      Finishes(db, c, run) ==> FailedBy(db, Perform(db, c), run, entries)
  {
    hide Inv, FinalizeRun, ServerArguments, Failure, FailureStored, After;
    var a := Failure(run, version, allowed, entries, 0, settings);
    if Finishes(db, On(run, Finish(a, now)), run) {
      FailureIsStored(db[run], version, allowed, entries, 0, settings, now);
      FinishAfter(db[run], Finish(a, now), false);
    }
  }

  // A finaliser at work on a database: it commits under its fence, or changes nothing.
  lemma FinaliserWrites(db: Db, run: RunId, a: FinalArguments, now: Instant)
    requires DbInv(db) && run in db && ServerArguments(db[run].id, db[run].row.profile, a)
    ensures var c := On(run, Finish(a, now));
      && (Finishes(db, c, run) <==>
            db[run].row.version == a.expectedVersion && db[run].row.execution in a.allowed && DistinctEntries(a.entries))
      && (!Finishes(db, c, run) ==> Perform(db, c) == db)
  {
    hide Inv, FinalizeRun, ServerArguments, DistinctEntries, Apply;
    FinaliserCommitsIffFenced(db[run], a, now);
    var c := On(run, Finish(a, now));
    if !Finishes(db, c, run) {
      RefusedChangesNothing(db[run], c.command, false);
      hide After;
      assert db[run := db[run]] == db;
    }
  }

  lemma RefusedChangesNothing(s: RunState, c: Command, elsewhere: bool)
    requires c.Finish? && !(ServerArguments(s.id, s.row.profile, c.arguments) && FinalizeRun(s, c.arguments, c.now).Commit?)
    ensures After(s, c, elsewhere) == s
  {
    hide FinalizeRun, ServerArguments;
  }

  method WriteFailure(store: Database, run: RunId, settings: Settings, version: nat, allowed: set<Execution>,
                      entries: seq<EvidenceEntry>, now: Instant) returns (finalized: bool)
    requires store.Valid() && run in store.runs && (allowed == {Pending} || allowed == {Running})
    modifies store
    ensures store.Valid()
    ensures finalized <==>
      old(store.runs)[run].row.version == version && old(store.runs)[run].row.execution in allowed && DistinctEntries(entries)
    ensures if finalized then FailedBy(old(store.runs), store.runs, run, entries) else store.runs == old(store.runs)
    ensures store.runs == Perform(old(store.runs), On(run, Finish(Failure(run, version, allowed, entries, 0, settings), now)))
  {
    hide FinalizeRun, ServerArguments, Inv, Finishes, Perform, DistinctEntries, FailedBy;
    var a := Failure(run, version, allowed, entries, 0, settings);
    FailureIsServer(run, store.runs[run].row.profile, version, allowed, entries, 0, settings);
    FinaliserWrites(store.runs, run, a, now);
    FailureWrites(store.runs, run, settings, version, allowed, entries, now);
    PerformKeeps(store.runs, On(run, Finish(a, now)));
    ghost var before := store.runs;
    var outcome := store.FinalizeRunTransaction(run, a, now);
    FinishPerformed(before, store.runs, run, a, now, outcome);
    finalized := outcome.Done?;
  }

  // The run can still be ended by a timeout that read this row before.
  predicate StillAsRead(db: Db, run: RunId, seen: RunRow) {
    run in db && !Terminal(seen.execution) && db[run].row == seen
  }

  // _mark_run_timeout: the row is read, others may commit meanwhile, and the failure is written
  // through the version and the status that were read. It ends the run if and only if the run
  // was not terminal, nobody has written its row since, and the evidence can be stored.
  method MarkRunTimeout(execution: RunExecution, between: seq<DbCommand>, entries: seq<EvidenceEntry>, now: Instant)
    returns (finalized: bool)
    requires execution.store.Valid()
    modifies execution.store
    ensures execution.store.Valid()
    ensures var run, read, met := execution.run, old(execution.store.runs), Execute(old(execution.store.runs), between);
      && (finalized <==> run in read && StillAsRead(met, run, read[run].row) && DistinctEntries(entries))
      && (if finalized then FailedBy(met, execution.store.runs, run, entries) else execution.store.runs == met)
  {
    hide Execute, Inv, Terminal, DistinctEntries, FailedBy;
    var store, run := execution.store, execution.run;
    ExecutionKeeps(store.runs, between);
    if run !in store.runs {
      store.runs := Execute(store.runs, between);
      return false;
    }
    VersionTellsRow(store.runs, between, run);
    var seen := store.runs[run].row;
    store.runs := Execute(store.runs, between);
    finalized := WriteTimeout(execution, seen, entries, now);
  }

  method WriteTimeout(execution: RunExecution, seen: RunRow, entries: seq<EvidenceEntry>, now: Instant) returns (finalized: bool)
    requires execution.store.Valid() && execution.run in execution.store.runs
    requires execution.store.runs[execution.run].row.version == seen.version ==> execution.store.runs[execution.run].row == seen
    modifies execution.store
    ensures execution.store.Valid()
    ensures finalized <==> StillAsRead(old(execution.store.runs), execution.run, seen) && DistinctEntries(entries)
    ensures if finalized then FailedBy(old(execution.store.runs), execution.store.runs, execution.run, entries)
      else execution.store.runs == old(execution.store.runs)
  {
    hide Inv, DistinctEntries, FailedBy;
    if seen.execution != Pending && seen.execution != Running { return false; }
    finalized := WriteFailure(execution.store, execution.run, execution.settings, seen.version, {seen.execution}, entries, now);
  }

  // Whoever wins, the others are refused: after one finaliser has committed, a timeout or a
  // failure that read the row before writes nothing.
  lemma LosersWriteNothing(db: Db, run: RunId, winner: FinalArguments, loser: FinalArguments, now: Instant, later: Instant,
                           between: seq<DbCommand>)
    requires DbInv(db) && Finishes(db, On(run, Finish(winner, now)), run)
    ensures var after := Execute(Perform(db, On(run, Finish(winner, now))), between);
      run in after && Perform(after, On(run, Finish(loser, later))) == after
  {
    hide Inv, FinalizeRun, ServerArguments, Execute, Perform, Finishes;
    var after := Execute(Perform(db, On(run, Finish(winner, now))), between);
    FinishedRemains(db, run, winner, now, between);
    RefusedWritesNothing(after, run, loser, later);
  }

  lemma FinishedRemains(db: Db, run: RunId, winner: FinalArguments, now: Instant, between: seq<DbCommand>)
    requires DbInv(db) && Finishes(db, On(run, Finish(winner, now)), run)
    ensures Finished(Execute(Perform(db, On(run, Finish(winner, now))), between), run)
  {
    hide Inv, FinalizeRun, ServerArguments, Execute, Perform, Finishes, Finished;
    var first := Perform(db, On(run, Finish(winner, now)));
    PerformKeeps(db, On(run, Finish(winner, now)));
    PerformFinishes(db, On(run, Finish(winner, now)), run);
    AtMostOneFinisher(first, between, run);
  }

  lemma RefusedWritesNothing(after: Db, run: RunId, a: FinalArguments, now: Instant)
    requires Finished(after, run)
    ensures Perform(after, On(run, Finish(a, now))) == after
  {
    if ServerArguments(after[run].id, after[run].row.profile, a) { LateFinaliserIsStale(after[run], a, now); }
    hide FinalizeRun, ServerArguments;
    assert after[run := after[run]] == after;
  }
}
