/** What is served of a run of each profile, publications or none (api/run_result_service.py). */
module ResultDelivery {
  import opened ReviewTypes
  import opened VerificationLedger
  import opened Publications
  import opened RunLifecycle
  import opened ReviewWorkflows
  import opened ReviewResolution
  import opened RunInvariant
  import opened LeasePreservation
  import opened ReviewPreservation
  import opened RunPreservation
  import opened Evolution
  import opened Executions
  import opened RunFinalisers
  import opened AgentResults
  import opened DeliverySafety

  // What a completed run has, by its profile.
  ghost predicate Fits(s: RunState) {
    s.row.execution == Completed ==>
      match s.row.profile
      case Generic => s.artifacts.Keys == {ReportId} && s.row.delivery == Ready
      case Talent => 1 in s.bundles
      case OtherProfile => s.artifacts == map[] && s.row.delivery == Ready
  }

  lemma FirstIsBundled(s: RunState)
    requires Chain(s)
    ensures s.publications != [] ==> 1 in s.bundles
  {
  }

  lemma DecisionsNeedWorkflows(s: RunState)
    requires Decided(s)
    ensures forall id | id in s.decisions :: s.decisions[id].revision in s.workflows
  {
    forall id | id in s.decisions ensures s.decisions[id].revision in s.workflows { assert DecisionOwned(s, id); }
  }

  lemma NoReviews(s: RunState)
    requires Inv(s) && s.row.profile != Talent
    ensures s.bundles == map[] && s.publications == [] && s.workflows == map[] && s.decisions == map[]
  {
    hide Started, Leases, Published, Verification, Artifacts, Chain, Decided;
    FirstIsBundled(s);
    DecisionsNeedWorkflows(s);
    assert s.workflows.Keys <= s.bundles.Keys;
    assert s.decisions.Keys == {};
  }

  // Outside the talent profile a finished run changes in its ledger and its snapshots only.
  ghost predicate OnlyLedger(s: RunState, t: RunState) {
    t == s.(ledger := t.ledger, snapshots := t.snapshots)
  }

  lemma VerifyOnlyLedger(s: RunState, elsewhere: bool, item: EvidenceId, request: VerificationRequest)
    requires s.row.profile != Talent && s.publications == []
    ensures var step := AcceptVerification(s, elsewhere, item, request); step.Commit? ==> OnlyLedger(s, step.state)
  {
    hide FindVerification, MaxRevision;
  }

  lemma PublishRefused(s: RunState, version: nat, build: Build, now: Instant)
    requires s.row.profile != Talent && s.publications == []
    ensures FinalizePublication(s, version, build, now).Abort?
  {
  }

  lemma WorkflowCommandRefused(s: RunState, c: Command, elsewhere: bool)
    requires Inv(s) && s.workflows == map[] && s.decisions == map[] && (Worker(c) || c.Decide? || c.SubmitReview?)
    ensures After(s, c, elsewhere) == s
  {
    hide Inv;
    if c.SubmitReview? { SubmissionAccepted(s, c.k, c.worker, c.now, c.expectedVersion, c.original, c.decisionId, c.decided); }
    hide Submit;
  }

  lemma PlainIsFinal(s: RunState, c: Command, elsewhere: bool)
    requires Inv(s) && s.row.profile != Talent && Terminal(s.row.execution)
    ensures OnlyLedger(s, After(s, c, elsewhere))
  {
    hide Inv, Submit, FinalizePublication, FinalizeRun, ServerArguments, AcceptVerification, ReviewWorkflows.AcceptReviewDecision,
      ClaimWorkflow, CompleteCheckpointCreation, MarkWaitingDecision, MarkResolutionPending, MarkManualRecovery, ReleaseExpiredLease,
      ReleaseForRetry;
    NoReviews(s);
    match c
    case Finish(a, now) => if ServerArguments(s.id, s.row.profile, a) { LateFinaliserIsStale(s, a, now); }
    case Verify(item, request) => VerifyOnlyLedger(s, elsewhere, item, request);
    case Publish(version, build, now) => PublishRefused(s, version, build, now);
    case Start(_) =>
    case TakeSnapshot =>
    case _ => WorkflowCommandRefused(s, c, elsewhere);
  }

  lemma FinishFits(s: RunState, a: FinalArguments, now: Instant)
    requires Inv(s) && ServerArguments(s.id, s.row.profile, a) && FinalizeRun(s, a, now).Commit?
    ensures Fits(FinalizeRun(s, a, now).state)
    ensures s.row.profile == Generic && a.execution == Completed ==>
      FinalizeRun(s, a, now).state.artifacts == map[ReportId := a.artifacts[0].1]
  {
    hide Inv, FinalizeRun, TalentArguments, InsertEvidence, InsertAll, AdoptBaseline;
    FinaliserStarts(s, a, now);
    AdoptionKeepsRest(Rows(s, a, now));
    if s.row.profile != Talent && a.execution == Completed {
      NothingToAdopt(Rows(s, a, now));
      if s.row.profile == Generic { InsertOne(map[], a.artifacts); } else { NoArtifacts(); }
    } else if a.execution == Completed {
      TalentIsBundled(s.id, a);
    }
  }

  lemma TalentIsBundled(id: RunId, a: FinalArguments)
    requires TalentArguments(id, a)
    ensures a.bundle.Some? && a.bundle.value.review.revision == 1
  {
  }

  lemma AdoptionKeepsRest(s: RunState)
    ensures AdoptBaseline(s) == s.(publications := AdoptBaseline(s).publications, snapshots := AdoptBaseline(s).snapshots)
  {
  }

  lemma StepKeepsFits(s: RunState, c: Command, elsewhere: bool)
    requires Inv(s) && Fits(s)
    ensures Fits(After(s, c, elsewhere))
  {
    hide Inv, ReviewsEvolve, PublicationsEvolve, Terminal, Apply;
    var t := After(s, c, elsewhere);
    AfterEvolves(s, c, elsewhere);
    LeasesHold(s);
    TerminalMeans(s.row.execution);
    TerminalMeans(t.row.execution);
    if Terminal(s.row.execution) {
      if s.row.profile != Talent { PlainIsFinal(s, c, elsewhere); } else { BundlesStay(s, t); }
    } else if Terminal(t.row.execution) {
      OnlyFinishEnds(s, c, elsewhere);
      FinishFits(s, c.arguments, c.now);
      FinishAfter(s, c, elsewhere);
    }
  }

  lemma TerminalMeans(execution: Execution)
    ensures execution == Completed ==> Terminal(execution)
  {
  }

  lemma BundlesStay(s: RunState, t: RunState)
    requires ReviewsEvolve(s, t)
    ensures 1 in s.bundles ==> 1 in t.bundles
  {
  }

  ghost predicate DbFits(db: Db) {
    forall run | run in db :: Fits(db[run])
  }

  lemma PerformKeepsFits(db: Db, c: DbCommand)
    requires DbInv(db) && DbFits(db)
    ensures DbFits(Perform(db, c))
  {
    hide Inv, After, UsedByAnother;
    if c.On? && c.run in db { StepKeepsFits(db[c.run], c.command, UsedByAnother(db, c.run, c.command)); }
  }

  lemma {:induction false} ExecutionKeepsFits(db: Db, commands: seq<DbCommand>)
    requires DbInv(db) && DbFits(db)
    ensures DbFits(Execute(db, commands))
    decreases |commands|
  {
    hide Inv, Perform, DbFits;
    if commands != [] {
      PerformKeeps(db, commands[0]);
      PerformKeepsFits(db, commands[0]);
      ExecutionKeepsFits(Perform(db, commands[0]), commands[1..]);
    }
  }

  // What is served --------------------------------------------------------------------------

  // The one artifact that may be served of a run, by its profile and its publications.
  ghost predicate ServedAs(s: RunState, valid: Artifact -> bool, id: ArtifactId) {
    id in s.artifacts && ServeResult(s.row, s, valid) == if valid(s.artifacts[id]) then Some(id) else None
  }

  // A completed generic run is served its report, exactly if that passes its check.
  lemma GenericServed(s: RunState, valid: Artifact -> bool)
    requires Fits(s) && s.row.profile == Generic && s.row.execution == Completed
    ensures ServedAs(s, valid, ReportId)
  {
  }

  // A run of a profile that is neither is served nothing.
  lemma OtherServedNothing(s: RunState, valid: Artifact -> bool)
    requires Inv(s) && Fits(s) && s.row.profile == OtherProfile
    ensures ServeResult(s.row, s, valid) == None
  {
    NoReviews(s);
    hide Bundled, Chain, Leases, Decided, Published, Verification, Artifacts;
  }

  // A ready talent run without publications is served its brief, and if that needed a review it was
  // approved and the reviewed pair is stored beside it.
  lemma UnpublishedServed(s: RunState, valid: Artifact -> bool)
    requires Inv(s) && Fits(s) && s.row.profile == Talent && s.publications == []
    requires s.row.execution == Completed && s.row.delivery == Ready
    ensures ServedAs(s, valid, BriefMarkdownId(1))
    ensures NeedsReview(s, 1) ==> ApprovedByDecision(s, 1) && ReviewedJsonId(1) in s.artifacts && ReviewedMarkdownId(1) in s.artifacts
  {
    hide Inv;
    ReadyBaseline(s);
    if NeedsReview(s, 1) { ApprovedInInv(s, 1); }
  }

  lemma ReadyBaseline(s: RunState)
    requires Inv(s) && s.publications == [] && 1 in s.bundles && s.row.delivery == Ready
    ensures BriefMarkdownId(1) in s.artifacts
    ensures NeedsReview(s, 1) ==> 1 in s.workflows && s.workflows[1].status == Approved && ReviewedJsonId(1) in s.artifacts
  {
    hide Started, Chain, Leases, Decided, Verification, BriefIdsBundled, Shown;
    assert BriefStored(s, 1) && ReviewedStored(s, 1) && Live(s) && Standing(s);
  }

  // Anything that has not completed, or is not ready, is served nothing.
  lemma OnlyReadyServed(s: RunState, valid: Artifact -> bool)
    requires Inv(s) && (s.row.execution != Completed || s.row.delivery != Ready)
    ensures ServeResult(s.row, s, valid) == None
  {
    hide Bundled, Chain, Leases, Decided, Published, Verification, Artifacts;
  }

  // All of it in every state that any commands reach.
  lemma ReachableServed(commands: seq<DbCommand>, run: RunId, valid: Artifact -> bool)
    requires run in Execute(map[], commands)
    ensures var s := Execute(map[], commands)[run];
      if s.row.execution != Completed || s.row.delivery != Ready || s.row.profile == OtherProfile then
        ServeResult(s.row, s, valid) == None
      else if s.row.profile == Generic then
        ServedAs(s, valid, ReportId)
      else if s.publications == [] then
        && ServedAs(s, valid, BriefMarkdownId(1))
        && (NeedsReview(s, 1) ==> ApprovedByDecision(s, 1) && ReviewedMarkdownId(1) in s.artifacts)
      else
        var n := |s.publications|;
        ServedAs(s, valid, if NeedsReview(s, n) && BriefMarkdownId(n) !in s.publications[n - 1].artifactIds
                           then ReviewedMarkdownId(n) else BriefMarkdownId(n))
  {
    hide Execute, Inv, Fits, ServeResult, ServedAs, ApprovedByDecision;
    ReachableKeeps(commands);
    ExecutionKeepsFits(map[], commands);
    var s := Execute(map[], commands)[run];
    if s.row.execution != Completed || s.row.delivery != Ready { OnlyReadyServed(s, valid); }
    else if s.row.profile == OtherProfile { OtherServedNothing(s, valid); }
    else if s.row.profile == Generic { GenericServed(s, valid); }
    else if s.publications == [] { UnpublishedServed(s, valid); }
    else { PublishedServed(s, valid); }
  }

  lemma PublishedServed(s: RunState, valid: Artifact -> bool)
    requires Inv(s) && s.publications != [] && s.row.delivery == Ready && s.row.execution == Completed
    ensures var n := |s.publications|;
      ServedAs(s, valid, if NeedsReview(s, n) && BriefMarkdownId(n) !in s.publications[n - 1].artifactIds
                         then ReviewedMarkdownId(n) else BriefMarkdownId(n))
  {
    hide Inv, FirstMarkdown, ServeResult, ReviewPassed;
    ReadyIsShown(s);
    ReadySelects(s, valid);
  }

  lemma ReadyIsShown(s: RunState)
    requires Inv(s) && s.publications != [] && s.row.delivery == Ready
    ensures var n := |s.publications|;
      && CurrentIndex(s.publications) == Some(n - 1) && s.row.profile == Talent
      && s.publications[n - 1].status == PublishedReady && s.publications[n - 1].revision == n && Shown(s, s.publications[n - 1])
  {
    hide Started, Leases, Verification, BriefIdsBundled, BriefStored, ReviewedStored, Shown, ReviewPassed;
    ReadyHasPassed(s);
  }

  lemma ReadySelects(s: RunState, valid: Artifact -> bool)
    requires s.publications != [] && CurrentIndex(s.publications) == Some(|s.publications| - 1) && s.row.profile == Talent
    requires s.row.delivery == Ready && s.row.execution == Completed
    requires FirstMarkdown(s.artifacts, s.publications[|s.publications| - 1].artifactIds).Some?
    ensures var id := FirstMarkdown(s.artifacts, s.publications[|s.publications| - 1].artifactIds).value;
      id in s.artifacts && ServeResult(s.row, s, valid) == if valid(s.artifacts[id]) then Some(id) else None
  {
  }

  // And the report that is served is the one that the winning finaliser brought, whatever followed.
  lemma WinnersReportServed(db: Db, run: RunId, a: FinalArguments, now: Instant, commands: seq<DbCommand>, valid: Artifact -> bool)
    requires DbInv(db) && Finishes(db, On(run, Finish(a, now)), run)
    requires db[run].row.profile == Generic && a.execution == Completed
    ensures |a.artifacts| == 1
    ensures var later := Execute(Perform(db, On(run, Finish(a, now))), commands);
      && run in later && later[run].artifacts == map[ReportId := a.artifacts[0].1]
      && ServeResult(later[run].row, later[run], valid) == if valid(a.artifacts[0].1) then Some(ReportId) else None
  {
    hide Inv, Execute, Perform, Finishes, ServeResult, Evolves;
    var first := Perform(db, On(run, Finish(a, now)));
    PerformKeeps(db, On(run, Finish(a, now)));
    WinnerStores(db, run, a, now);
    PlainStays(first, commands, run);
    var later := Execute(first, commands);
    GenericServed(later[run], valid);
  }

  lemma WinnerStores(db: Db, run: RunId, a: FinalArguments, now: Instant)
    requires DbInv(db) && Finishes(db, On(run, Finish(a, now)), run)
    requires db[run].row.profile == Generic && a.execution == Completed
    ensures |a.artifacts| == 1
    ensures var first := Perform(db, On(run, Finish(a, now)));
      && run in first && first[run].row.profile == Generic && first[run].row.execution == Completed
      && first[run].artifacts == map[ReportId := a.artifacts[0].1] && first[run].row.delivery == Ready
  {
    hide Inv, FinalizeRun, TalentArguments, After;
    FinishFits(db[run], a, now);
    FinishCounts(db[run], a, now);
    FinishAfter(db[run], Finish(a, now), false);
  }

  lemma {:induction false} PlainStays(db: Db, commands: seq<DbCommand>, run: RunId)
    requires DbInv(db) && run in db && db[run].row.profile != Talent && Terminal(db[run].row.execution)
    ensures run in Execute(db, commands) && OnlyLedger(db[run], Execute(db, commands)[run])
    decreases |commands|
  {
    hide Inv, Perform, Terminal;
    if commands != [] {
      PerformKeeps(db, commands[0]);
      PerformOnlyLedger(db, commands[0], run);
      PlainStays(Perform(db, commands[0]), commands[1..], run);
    }
  }

  lemma PerformOnlyLedger(db: Db, c: DbCommand, run: RunId)
    requires DbInv(db) && run in db && db[run].row.profile != Talent && Terminal(db[run].row.execution)
    ensures run in Perform(db, c) && OnlyLedger(db[run], Perform(db, c)[run])
  {
    hide Inv, After, UsedByAnother, CreateRun;
    if c.On? && c.run == run { PlainIsFinal(db[run], c.command, UsedByAnother(db, run, c.command)); }
  }
}
