/** The publications of a run over time: their numbering, the novelty of every snapshot, and how
    long finalising a publication is idempotent. */
module PublicationHistory {
  import opened ReviewTypes
  import opened Publications
  import opened RunLifecycle
  import opened ReviewWorkflows
  import opened RunInvariant
  import opened LeasePreservation
  import opened VerificationPreservation
  import opened FinalizationPreservation
  import opened ReviewPreservation
  import opened Evolution
  import opened Executions
  import opened DeliverySafety

  // The chain in the run's own terms.
  ghost predicate ChainOfRevisions(s: RunState) {
    var n := |s.publications|;
    && (forall i | 0 <= i < n :: s.publications[i].revision == i + 1)
    && (forall i | 0 < i < n :: s.publications[i].supersedes == Some(s.publications[i - 1].id))
    && (n > 0 ==> s.publications[0].supersedes == None)
    && (forall i | 0 <= i < n :: s.publications[i].current ==> i == n - 1)
    && (forall i | 0 <= i < n :: s.publications[i].current <==> s.publications[i].status != Stale)
  }

  // A workflow that is not finished is the current publication's own.
  ghost predicate UnfinishedIsCurrent(s: RunState) {
    forall k | k in s.workflows && s.workflows[k].status.Active() && s.publications != [] ::
      && CurrentIndex(s.publications).Some?
      && s.publications[CurrentIndex(s.publications).value].review == s.workflows[k].review
      && s.publications[CurrentIndex(s.publications).value].revision == k
  }

  lemma ChainHolds(s: RunState)
    requires Chain(s)
    ensures ChainOfRevisions(s)
  {
    forall i | 0 <= i < |s.publications|
      ensures s.publications[i].revision == i + 1
      ensures i > 0 ==> s.publications[i].supersedes == Some(s.publications[i - 1].id)
      ensures i == 0 ==> s.publications[i].supersedes == None
      ensures s.publications[i].current ==> i == |s.publications| - 1
      ensures s.publications[i].current <==> s.publications[i].status != Stale
    {
      assert ChainLink(s, i);
    }
  }

  lemma UnfinishedHolds(s: RunState)
    requires Bundled(s) && Chain(s) && Published(s)
    ensures UnfinishedIsCurrent(s)
  {
    forall k | k in s.workflows && s.workflows[k].status.Active() && s.publications != []
      ensures CurrentIndex(s.publications) == Some(|s.publications| - 1)
      ensures s.publications[|s.publications| - 1].review == s.workflows[k].review
      ensures s.publications[|s.publications| - 1].revision == k
    {
      ActiveAlone(s, k);
      CurrentIsNewest(s);
      assert ChainLink(s, |s.publications| - 1);
    }
  }

  lemma ReachableChain(commands: seq<DbCommand>, run: RunId)
    ensures var db := Execute(map[], commands);
      run in db ==> ChainOfRevisions(db[run]) && UnfinishedIsCurrent(db[run])
  {
    ReachableKeeps(commands);
    var db := Execute(map[], commands);
    hide Execute;
    if run in db {
      assert Inv(db[run]);
      ChainHolds(db[run]);
      UnfinishedHolds(db[run]);
    }
  }

  // Novelty ------------------------------------------------------------------------------

  // Once the newest publication is stale, the next snapshot is none of those published.
  lemma SnapshotIsNew(s: RunState, i: nat)
    requires Chain(s) && Verification(s) && i < |s.publications| && !Live(s)
    ensures s.publications[i].snapshot != EffectiveSnapshot(s)
  {
    assert ChainLink(s, i) && SnapshotKept(s, i);
    StaleShowsLess(s, i);
  }

  lemma NextRevisionIsFree(t: RunState, review: ReviewId, brief: Brief)
    requires Bundled(t) && Chain(t) && Verification(t) && Artifacts(t) && AdoptedIfBundled(t) && !Live(t)
    ensures var m := |t.publications| + 1;
      PublicationInsertable(t, m, EffectiveSnapshot(t), BriefArtifacts(m, brief))
  {
    var m := |t.publications| + 1;
    if t.publications == [] { assert m !in t.bundles by { assert t.bundles.Keys <= {1}; } }
    forall i | 0 <= i < |t.publications|
      ensures t.publications[i].revision != m && t.publications[i].snapshot != EffectiveSnapshot(t)
    {
      assert ChainLink(t, i);
      SnapshotIsNew(t, i);
    }
    hide EffectiveSnapshot;
  }

  lemma RevisionCommits(t: RunState, build: Build, now: Instant)
    requires Bundled(t) && Chain(t) && Published(t) && Verification(t) && Artifacts(t) && AdoptedIfBundled(t)
    requires CurrentIndex(t.publications).None?
    ensures PublishRevision(t, EffectiveSnapshot(t), build, now).Abort? <==>
      t.row.profile != Talent || t.packets == 0 || build.BuildInvalid?
    ensures var step := PublishRevision(t, EffectiveSnapshot(t), build, now); step.Abort? ==> step.code == PublicationBuildFailed
  {
    NothingLive(t);
    if build.Built? {
      var review := BuiltReview(t, |t.publications| + 1, build);
      NextRevisionIsFree(t, review, BuiltBrief(review, build));
    }
    hide Bundled, Chain, Published, Verification, Artifacts, Live, NoneActive, EffectiveSnapshot, NewestIndex, PublicationInsertable;
  }

  lemma AgainCommits(t: RunState, i: nat, now: Instant)
    requires Bundled(t) && Chain(t) && i < |t.publications|
    ensures FinalizeAgain(t, i, now).Commit?
  {
    assert ChainLink(t, i);
  }

  // Finalising aborts for a stale version or a failed build only: never for a taken snapshot,
  // revision, workflow or artifact id, and never because the current publication shows another
  // snapshot.
  lemma FinalizationNeverConflicts(s: RunState, version: nat, build: Build, now: Instant)
    requires Inv(s)
    ensures var step := FinalizePublication(s, version, build, now);
      step.Abort? ==> step.code == if s.row.version != version then StaleStateVersion else PublicationBuildFailed
  {
    if s.row.version == version {
      var t := Prepared(s);
      PreparedKeeps(s);
      PreparedStep(s, build, now);
      hide FinalizePublication, Prepared, FinalizeAgain, PublishRevision, AdoptedIfBundled;
      match CurrentIndex(t.publications) {
        case Some(i) =>
          assert SnapshotKept(t, i);
          AgainCommits(t, i, now);
        case None => RevisionCommits(t, build, now);
      }
    }
  }

  lemma PreparedStep(s: RunState, build: Build, now: Instant)
    ensures var t := Prepared(s);
      var step := FinalizePublication(s, s.row.version, build, now);
      match CurrentIndex(t.publications)
      case Some(i) => t.publications[i].snapshot == EffectiveSnapshot(t) ==> step == FinalizeAgain(t, i, now)
      case None => step == PublishRevision(t, EffectiveSnapshot(t), build, now)
  {
  }

  // Idempotence --------------------------------------------------------------------------

  // The newest publication is current, and if it waits for review its workflow exists.
  ghost predicate Settled(s: RunState) {
    && s.publications != [] && Live(s)
    && var p := s.publications[|s.publications| - 1];
    (p.status == PublishedForReview ==> WorkflowOf(s, p.review).Some?)
  }

  lemma SettledReplays(u: RunState, build: Build, now: Instant)
    requires Inv(u) && Settled(u)
    ensures FinalizePublication(u, u.row.version, build, now) == Commit(u, true)
  {
    CurrentIsNewest(u);
    assert SnapshotKept(u, |u.publications| - 1);
    assert u.(snapshots := u.snapshots + {EffectiveSnapshot(u)}) == u by { assert u.snapshots + {EffectiveSnapshot(u)} == u.snapshots; }
    hide Inv, EffectiveSnapshot, SnapshotKept;
  }

  lemma AgainSettles(t: RunState, i: nat, now: Instant)
    requires Bundled(t) && Chain(t) && Published(t) && i < |t.publications| && t.publications[i].current
    ensures var step := FinalizeAgain(t, i, now); step.Commit? ==> Settled(step.state)
  {
    assert ChainLink(t, i);
    RepairOpens(t, i, now);
    var step := FinalizeAgain(t, i, now);
    if step.Commit? && !step.replay { assert WorkflowOf(step.state, t.publications[i].review) == Some(i + 1); }
  }

  lemma RevisionSettles(t: RunState, build: Build, now: Instant)
    requires Chain(t) && Published(t) && AdoptedIfBundled(t) && EffectiveSnapshot(t) in t.snapshots
    requires CurrentIndex(t.publications).None?
    ensures var step := PublishRevision(t, EffectiveSnapshot(t), build, now); step.Commit? ==> Settled(step.state)
  {
    PublishRevises(t, build, now);
    hide Chain, Published, PublishRevision, EffectiveSnapshot;
  }

  lemma FinalizationSettles(s: RunState, version: nat, build: Build, now: Instant)
    requires Inv(s)
    ensures var step := FinalizePublication(s, version, build, now); step.Commit? ==> Settled(step.state)
  {
    var t := Prepared(s);
    PreparedKeeps(s);
    FinalizationCases(s, version, build, now);
    hide FinalizePublication, Prepared, FinalizeAgain, PublishRevision, Settled;
    match CurrentIndex(t.publications) {
      case Some(i) => AgainSettles(t, i, now);
      case None => RevisionSettles(t, build, now);
    }
  }

  // With no new row in the ledger the current publication stays the current one.
  lemma CurrentStays(s: RunState, u: RunState)
    requires Bundled(s) && Chain(s) && Verification(s) && s.publications != [] && Live(s)
    requires Chain(u) && Verification(u) && Evolves(s, u) && u.ledger == s.ledger
    ensures |u.publications| == |s.publications| && Live(u)
    ensures u.publications[|u.publications| - 1].id == s.publications[|s.publications| - 1].id
  {
    var n := |s.publications|;
    assert 1 in s.bundles && Terminal(s.row.execution);
    assert EffectiveSnapshot(u) == EffectiveSnapshot(s);
    assert SnapshotKept(s, n - 1) && SnapshotKept(u, n - 1) && ChainLink(u, n - 1);
    assert PublicationEvolves(s.publications[n - 1], u.publications[n - 1]);
    StaleShowsLess(u, n - 1);
  }

  lemma SettledStays(s: RunState, u: RunState)
    requires Inv(s) && Settled(s) && Inv(u) && Evolves(s, u) && u.ledger == s.ledger
    ensures Settled(u) && |u.publications| == |s.publications|
    ensures u.publications[|u.publications| - 1].id == s.publications[|s.publications| - 1].id
  {
    hide Bundled, Started, Chain, Leases, Decided, Published, Verification, Artifacts, RowEvolves, EffectiveSnapshot, SnapshotKept;
    CurrentStays(s, u);
    var n := |s.publications|;
    assert PublicationEvolves(s.publications[n - 1], u.publications[n - 1]);
    WorkflowStays(s, u, s.publications[n - 1].review);
  }

  lemma WorkflowStays(s: RunState, u: RunState, review: ReviewId)
    requires ReviewsEvolve(s, u)
    ensures WorkflowOf(s, review).Some? ==> WorkflowOf(u, review).Some?
  {
    hide Extends;
    if WorkflowOf(s, review).Some? { assert WorkflowEvolves(s.workflows[review.revision], u.workflows[review.revision]); }
  }

  lemma WorkerKeepsLedger(s: RunState, c: Command)
    requires Leases(s) && Worker(c)
    ensures var step := Apply(s, c, false); step.Commit? ==> step.state.ledger == s.ledger
  {
    WorkerStepMoves(s, c);
    hide Leases, Apply;
  }

  lemma SubmitKeepsLedger(s: RunState, k: nat, worker: WorkerId, now: Instant, version: nat,
                          original: Content, id: DecisionId, d: ReviewDecision)
    ensures var step := Submit(s, k, worker, now, version, original, id, d); step.Commit? ==> step.state.ledger == s.ledger
  {
    SubmissionAccepted(s, k, worker, now, version, original, id, d);
    hide Submit;
  }

  lemma PublishKeepsLedger(s: RunState, version: nat, build: Build, now: Instant)
    ensures var step := FinalizePublication(s, version, build, now); step.Commit? ==> step.state.ledger == s.ledger
  {
    hide FinalizePublication;
    FinalizePublicationFrame(s, version, build, now);
  }

  lemma FinishKeepsLedger(s: RunState, a: FinalArguments, now: Instant)
    ensures var step := FinalizeRun(s, a, now); step.Commit? ==> step.state.ledger == s.ledger
  {
  }

  // Only a verification decision adds to the ledger.
  lemma LedgerUnchanged(s: RunState, c: Command, elsewhere: bool)
    requires Leases(s) && !c.Verify?
    ensures After(s, c, elsewhere).ledger == s.ledger
  {
    hide Leases, Submit, FinalizePublication, FinalizeRun;
    match c {
      case Finish(a, now) => FinishKeepsLedger(s, a, now);
      case Publish(version, build, now) => PublishKeepsLedger(s, version, build, now);
      case SubmitReview(k, worker, now, version, original, id, d) => SubmitKeepsLedger(s, k, worker, now, version, original, id, d);
      case Start(_) => PlainKeepsLedger(s, c, elsewhere);
      case TakeSnapshot => PlainKeepsLedger(s, c, elsewhere);
      case Decide(_, _) => PlainKeepsLedger(s, c, elsewhere);
      case _ => WorkerKeepsLedger(s, c);
    }
    hide TransitionToRunning, FinalizeSnapshot, AcceptReviewDecision, ClaimWorkflow, CompleteCheckpointCreation,
      MarkWaitingDecision, MarkResolutionPending, MarkManualRecovery, ReleaseExpiredLease, ReleaseForRetry, AcceptVerification;
  }

  lemma PlainKeepsLedger(s: RunState, c: Command, elsewhere: bool)
    requires c.Start? || c.TakeSnapshot? || c.Decide?
    ensures var step := Apply(s, c, elsewhere); step.Commit? ==> step.state.ledger == s.ledger
  {
  }

  predicate Verifies(c: DbCommand, run: RunId) {
    c.On? && c.run == run && c.command.Verify?
  }

  predicate NoVerification(commands: seq<DbCommand>, run: RunId) {
    forall c | c in commands :: !Verifies(c, run)
  }

  lemma PerformKeepsLedger(db: Db, c: DbCommand, run: RunId)
    requires DbInv(db) && run in db && !Verifies(c, run)
    ensures run in Perform(db, c) && Perform(db, c)[run].ledger == db[run].ledger
  {
    hide Leases, Inv, After, UsedByAnother, CreateRun;
    if c.On? && c.run == run {
      LeasesHold(db[run]);
      LedgerUnchanged(db[run], c.command, UsedByAnother(db, run, c.command));
    }
  }

  lemma {:induction false} ExecutionKeepsLedger(db: Db, commands: seq<DbCommand>, run: RunId)
    requires DbInv(db) && run in db && NoVerification(commands, run)
    ensures run in Execute(db, commands) && Execute(db, commands)[run].ledger == db[run].ledger
    decreases |commands|
  {
    hide Perform, Inv;
    if commands != [] {
      PerformKeeps(db, commands[0]);
      PerformKeepsLedger(db, commands[0], run);
      ExecutionKeepsLedger(Perform(db, commands[0]), commands[1..], run);
    }
  }

  ghost predicate Replayed(s: RunState, u: RunState, build: Build, now: Instant) {
    && s.publications != [] && |u.publications| == |s.publications|
    && u.publications[|u.publications| - 1].id == s.publications[|s.publications| - 1].id
    && FinalizePublication(u, u.row.version, build, now) == Commit(u, true)
  }

  lemma SettledThroughout(first: Db, run: RunId, commands: seq<DbCommand>, again: Build, later: Instant)
    requires DbInv(first) && run in first && Settled(first[run]) && NoVerification(commands, run)
    ensures run in Execute(first, commands) && Replayed(first[run], Execute(first, commands)[run], again, later)
  {
    hide Execute, Inv, Evolves, Live, WorkflowOf, FinalizePublication;
    ExecutionKeeps(first, commands);
    ExecutionEvolves(first, commands);
    ExecutionKeepsLedger(first, commands, run);
    var last := Execute(first, commands);
    SettledStays(first[run], last[run]);
    SettledReplays(last[run], again, later);
  }

  lemma PublishPerforms(db: Db, run: RunId, version: nat, build: Build, now: Instant)
    requires run in db && FinalizePublication(db[run], version, build, now).Commit?
    ensures var first := Perform(db, On(run, Publish(version, build, now)));
      run in first && first[run] == FinalizePublication(db[run], version, build, now).state
  {
    hide FinalizePublication;
  }

  // Finalising is idempotent until the next verification decision of the run: after any other
  // commands, finalising with the version of the moment gives the same publication back and
  // changes nothing.
  lemma FinalisedStays(db: Db, run: RunId, version: nat, build: Build, now: Instant,
                       commands: seq<DbCommand>, again: Build, later: Instant)
    requires DbInv(db) && run in db && FinalizePublication(db[run], version, build, now).Commit?
    requires NoVerification(commands, run)
    ensures var first := Perform(db, On(run, Publish(version, build, now)));
      var last := Execute(first, commands);
      run in first && run in last && Replayed(first[run], last[run], again, later)
  {
    var first := Perform(db, On(run, Publish(version, build, now)));
    PublishPerforms(db, run, version, build, now);
    PerformKeeps(db, On(run, Publish(version, build, now)));
    hide Perform, Execute, Inv, FinalizePublication, Settled, Replayed;
    FinalizationSettles(db[run], version, build, now);
    SettledThroughout(first, run, commands, again, later);
  }

  // Evidence that was decided on before its run had publications: the baseline, which shows none of
  // that, is adopted as stale.
  lemma DecidedBaselineIsStale(s: RunState, item: EvidenceId)
    requires Adoptable(s) && s.ledger != []
    ensures var t := AdoptBaseline(s);
      && |t.publications| == 1 && t.publications[0].status == Stale && !t.publications[0].current
      && t.publications[0].revision == 1 && t.publications[0].review == s.bundles[1].review
    ensures item in s.evidence ==>
      var shown := AdoptBaseline(s).publications[0].snapshot.projections;
      item in shown && (shown[item].state == Verified <==> s.evidence[item].declaredFixture)
  {
    hide AdoptedArtifactIds;
  }
}
