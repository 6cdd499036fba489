/** What the stored briefs say of their reviews (api/talent_artifacts.py, api/publication_service.py,
    api/review_artifacts.py), in every state that is reached. */
module ReviewedBriefs {
  import opened ReviewTypes
  import opened VerificationLedger
  import opened Publications
  import opened RunLifecycle
  import opened ReviewWorkflows
  import opened RunInvariant
  import opened LeasePreservation
  import opened VerificationPreservation
  import opened FinalizationPreservation
  import opened ReviewPreservation
  import opened RunPreservation
  import opened Evolution
  import opened Executions
  import opened CrashConsistency

  // The brief of revision k as it was before its review: it carries the triggers of its own review
  // and says whether that is required; a published revision always has the mandatory trigger.
  ghost predicate BriefSays(s: RunState, k: nat) {
    && k in s.bundles
    && BriefJsonId(k) in s.artifacts && s.artifacts[BriefJsonId(k)].content.JsonContent?
    && var brief, bundle := s.artifacts[BriefJsonId(k)].content.brief, s.bundles[k];
    && brief.summary.triggers == bundle.review.triggers
    && (brief.summary.requiredBeforeDelivery <==> bundle.required)
    && (brief.summary.status == Required <==> bundle.required)
    && (brief.summary.status == NotRequired <==> !bundle.required)
    && brief.summary.decision == None
    && (k > 1 ==> bundle.required && SNAPSHOT_CHANGED in brief.summary.triggers)
    && StoredTwice(s, BriefJsonId(k), BriefMarkdownId(k), brief)
    && s.artifacts[BriefJsonId(k)].kind == DecisionBriefJson && s.artifacts[BriefMarkdownId(k)].kind == DecisionBriefMarkdown
  }

  // The JSON and its Markdown rendering, both with the hash of the brief.
  predicate StoredTwice(s: RunState, json: ArtifactId, markdown: ArtifactId, brief: Brief) {
    && brief.contentHash == BriefHash(brief.body, brief.summary)
    && json in s.artifacts && s.artifacts[json].content == JsonContent(brief) && s.artifacts[json].contentHash == brief.contentHash
    && markdown in s.artifacts && s.artifacts[markdown].content == MarkdownContent(brief)
    && s.artifacts[markdown].contentHash == brief.contentHash
    && s.artifacts[json].media == ApplicationJson && s.artifacts[markdown].media == TextMarkdown
  }

  // The reviewed brief of an approved revision is the brief of that revision with nothing but its
  // review changed: resolved, not required any more, and stamped with the approving decision.
  ghost predicate ReviewedSays(s: RunState, k: nat) {
    && k in s.workflows && s.workflows[k].decision.Some?
    && var id := s.workflows[k].decision.value;
    && id in s.decisions && s.decisions[id].action == Approve
    && BriefJsonId(k) in s.artifacts && s.artifacts[BriefJsonId(k)].content.JsonContent?
    && ReviewedJsonId(k) in s.artifacts && s.artifacts[ReviewedJsonId(k)].content.JsonContent?
    && var brief, reviewed := s.artifacts[BriefJsonId(k)].content.brief, s.artifacts[ReviewedJsonId(k)].content.brief;
    && reviewed.body == brief.body && reviewed.generatedAt == brief.generatedAt
    && reviewed.summary.triggers == brief.summary.triggers
    && reviewed.summary.status == Resolved && !reviewed.summary.requiredBeforeDelivery
    && reviewed.summary.decision == Some(DecisionStamp(id, Approve, s.decisions[id].reason.Some?))
    && StoredTwice(s, ReviewedJsonId(k), ReviewedMarkdownId(k), reviewed)
    && s.artifacts[ReviewedJsonId(k)].kind == ReviewedBriefJson && s.artifacts[ReviewedMarkdownId(k)].kind == ReviewedBriefMarkdown
  }

  ghost predicate Briefs(s: RunState) {
    && (forall k | k in s.bundles :: BriefSays(s, k))
    && (forall k | k in s.workflows && s.workflows[k].status == Approved :: ReviewedSays(s, k))
  }

  // A worker submits what it has read: the stored brief and the stored decision. What it read of a
  // review that was superseded in the meantime does not matter.
  predicate Honest(s: RunState, c: Command) {
    c.SubmitReview? && c.k in s.workflows && s.workflows[c.k].status != Superseded ==>
      && c.decisionId in s.decisions && s.decisions[c.decisionId] == c.decided
      && BriefJsonId(c.k) in s.artifacts && s.artifacts[BriefJsonId(c.k)].content == c.original
  }

  predicate HonestCommand(db: Db, c: DbCommand) {
    c.On? && c.run in db ==> Honest(db[c.run], c.command)
  }

  predicate HonestRun(db: Db, commands: seq<DbCommand>)
    decreases commands
  {
    commands == [] || (HonestCommand(db, commands[0]) && HonestRun(Perform(db, commands[0]), commands[1..]))
  }

  // What was said stays --------------------------------------------------------------------

  lemma SaysStays(s: RunState, t: RunState, k: nat)
    requires ReviewsEvolve(s, t)
    ensures BriefSays(s, k) ==> BriefSays(t, k)
    ensures ReviewedSays(s, k) && s.workflows[k].status == Approved ==> ReviewedSays(t, k)
  {
    if k in s.workflows { assert k in t.workflows && WorkflowEvolves(s.workflows[k], t.workflows[k]); }
  }

  // No revision is new and none was approved just now.
  ghost predicate NothingNew(s: RunState, t: RunState) {
    t.bundles.Keys <= s.bundles.Keys && NoneApproved(s, t)
  }

  ghost predicate NoneApproved(s: RunState, t: RunState) {
    forall k | k in t.workflows && t.workflows[k].status == Approved :: k in s.workflows && s.workflows[k].status == Approved
  }

  lemma NothingNewKeeps(s: RunState, t: RunState)
    requires Briefs(s) && ReviewsEvolve(s, t) && NothingNew(s, t)
    ensures Briefs(t)
  {
    hide BriefSays, ReviewedSays, ReviewsEvolve;
    forall k | k in t.bundles ensures BriefSays(t, k) { SaysStays(s, t, k); }
    forall k | k in t.workflows && t.workflows[k].status == Approved ensures ReviewedSays(t, k) { SaysStays(s, t, k); }
  }

  lemma MovesApproveNone(s: RunState, t: RunState)
    requires OperatorMoves(s.workflows, t.workflows)
    ensures NoneApproved(s, t)
  {
    forall k | k in t.workflows && t.workflows[k].status == Approved ensures k in s.workflows && s.workflows[k].status == Approved {
      if k in s.workflows { assert OperatorMove(s.workflows[k], t.workflows[k]); }
    }
  }

  lemma VerifyKeepsBundles(s: RunState, elsewhere: bool, item: EvidenceId, request: VerificationRequest)
    ensures var step := AcceptVerification(s, elsewhere, item, request); step.Commit? ==> step.state.bundles == s.bundles
  {
    hide FindVerification, MaxRevision, AdoptBaseline, StaleCurrent;
    var adopted := AdoptBaseline(s);
    RowsKeepBundles(s, adopted.(ledger := adopted.ledger + [NewVerification(item, request, MaxRevision(s.ledger, item, request.fingerprint) + 1)]));
  }

  lemma RowsKeepBundles(s: RunState, adopted: RunState)
    ensures AdoptBaseline(s).bundles == s.bundles && StaleCurrent(adopted).bundles == adopted.bundles
  {
  }

  lemma PlainKeepsBundles(s: RunState, c: Command, elsewhere: bool)
    requires c.Start? || c.TakeSnapshot? || c.Decide?
    ensures After(s, c, elsewhere).bundles == s.bundles
  {
  }

  lemma WorkerNothingNew(s: RunState, c: Command)
    requires Leases(s) && Worker(c)
    ensures NothingNew(s, After(s, c, false))
  {
    WorkerStepMoves(s, c);
    hide Leases, Apply;
  }

  // Finalisation -----------------------------------------------------------------------------

  lemma FinalisedSays(s: RunState, t: RunState, a: FinalArguments, now: Instant)
    requires Finalised(s, t, a, now)
    ensures Briefs(t)
  {
  }

  lemma AdoptionKeepsBriefs(t: RunState)
    requires Briefs(t)
    ensures Briefs(AdoptBaseline(t))
  {
    hide Briefs;
    assert AdoptBaseline(t) == t.(publications := AdoptBaseline(t).publications, snapshots := AdoptBaseline(t).snapshots);
    hide AdoptBaseline;
    SameRowsSameBriefs(t, AdoptBaseline(t));
  }

  lemma SameRowsSameBriefs(s: RunState, t: RunState)
    requires Briefs(s) && t == s.(publications := t.publications, snapshots := t.snapshots)
    ensures Briefs(t)
  {
    forall k | k in t.bundles ensures BriefSays(t, k) { assert BriefSays(s, k); }
    forall k | k in t.workflows && t.workflows[k].status == Approved ensures ReviewedSays(t, k) { assert ReviewedSays(s, k); }
  }

  lemma FinishBriefs(s: RunState, a: FinalArguments, now: Instant)
    requires Inv(s) && ServerArguments(s.id, s.row.profile, a) && FinalizeRun(s, a, now).Commit?
    ensures Briefs(FinalizeRun(s, a, now).state)
  {
    FinalizationStores(s, a, now);
    NothingYet(s);
    hide Inv, ServerArguments, FinalizeRun, Stored, AdoptBaseline, Finalised, Briefs;
    StoredIsFinalised(s, a, now);
    FinalisedSays(s, Stored(s, a, now), a, now);
    AdoptionKeepsBriefs(Stored(s, a, now));
  }

  // A published revision ---------------------------------------------------------------------

  lemma RevisedSays(s: RunState, t: RunState, build: Build, now: Instant)
    requires Bundled(s) && build.Built?
    requires var review := BuiltReview(s, |s.publications| + 1, build); Revised(s, t, review, BuiltBrief(review, build), now)
    ensures BriefSays(t, |s.publications| + 1) && t.bundles.Keys == s.bundles.Keys + {|s.publications| + 1}
    ensures var stored := t.artifacts[BriefJsonId(|s.publications| + 1)].content.brief;
      stored.body == build.body && stored.generatedAt == build.generatedAt && stored.summary.triggers == [SNAPSHOT_CHANGED] + build.moreTriggers
  {
    assert ([SNAPSHOT_CHANGED] + build.moreTriggers)[0] == SNAPSHOT_CHANGED;
  }

  lemma RevisionBriefs(t: RunState, build: Build, now: Instant)
    requires Inv(t) && Briefs(t) && AdoptedIfBundled(t) && EffectiveSnapshot(t) in t.snapshots && CurrentIndex(t.publications).None?
    ensures var step := PublishRevision(t, EffectiveSnapshot(t), build, now); step.Commit? ==> Briefs(step.state)
  {
    hide Bundled, Started, Chain, Leases, Decided, Published, Verification, Artifacts, EffectiveSnapshot, PublishRevision, BriefSays,
      ReviewedSays, ReviewsEvolve, OperatorMoves, PublicationsEvolve, RowEvolves;
    var step := PublishRevision(t, EffectiveSnapshot(t), build, now);
    PublishRevises(t, build, now);
    RevisionMoves(t, build, now);
    PublishRevisionEvolves(t, build, now);
    if step.Commit? {
      MovesApproveNone(t, step.state);
      RevisedSays(t, step.state, build, now);
      forall k | k in step.state.bundles ensures BriefSays(step.state, k) { SaysStays(t, step.state, k); }
      forall k | k in step.state.workflows && step.state.workflows[k].status == Approved ensures ReviewedSays(step.state, k) {
        SaysStays(t, step.state, k);
      }
    }
  }

  lemma AgainBriefs(t: RunState, i: nat, now: Instant)
    requires Bundled(t) && Chain(t) && Published(t) && Briefs(t) && i < |t.publications| && t.publications[i].current
    ensures var step := FinalizeAgain(t, i, now); step.Commit? ==> Briefs(step.state)
  {
    hide BriefSays, ReviewedSays, PublicationsEvolve, RowEvolves;
    AgainMoves(t, i, now);
    AgainEvolves(t, i, now);
    hide Bundled, Chain, Published, OperatorMoves, ReviewsEvolve;
    var step := FinalizeAgain(t, i, now);
    if step.Commit? {
      MovesApproveNone(t, step.state);
      NothingNewKeeps(t, step.state);
    }
  }

  lemma PublishBriefs(s: RunState, version: nat, build: Build, now: Instant)
    requires Inv(s) && Briefs(s)
    ensures var step := FinalizePublication(s, version, build, now); step.Commit? ==> Briefs(step.state)
  {
    var t := Prepared(s);
    PreparedKeeps(s);
    FinalizationCases(s, version, build, now);
    PreparedKeepsBriefs(s);
    hide FinalizePublication, Prepared, FinalizeAgain, PublishRevision, EffectiveSnapshot, AdoptedIfBundled, Briefs,
      Bundled, Started, Chain, Leases, Decided, Published, Verification, Artifacts;
    match CurrentIndex(t.publications) {
      case Some(i) => AgainBriefs(t, i, now);
      case None => RevisionBriefs(t, build, now);
    }
  }

  lemma PreparedKeepsBriefs(s: RunState)
    requires Briefs(s)
    ensures Briefs(Prepared(s))
  {
    AdoptionKeepsBriefs(s);
    hide AdoptBaseline;
  }

  // A resolution -----------------------------------------------------------------------------

  // What the builder makes of the stored brief and the stored decision.
  lemma BuiltSays(brief: Brief, id: DecisionId, d: ReviewDecision, k: nat)
    requires d.action == Approve && k >= 1
    ensures var built := SubmittedBrief(JsonContent(brief), id, d, k);
      && built.body == brief.body && built.generatedAt == brief.generatedAt
      && built.summary.triggers == brief.summary.triggers && built.summary.status == Resolved && !built.summary.requiredBeforeDelivery
      && built.summary.decision == Some(DecisionStamp(id, Approve, d.reason.Some?))
      && built.contentHash == BriefHash(built.body, built.summary)
  {
  }

  lemma ResolvedSays(s: RunState, t: RunState, k: nat, id: DecisionId, brief: Brief)
    requires BriefSays(s, k) && k >= 1 && id in s.decisions && s.decisions[id].action == Approve
    requires s.artifacts[BriefJsonId(k)].content == JsonContent(brief)
    requires ResolutionTaken(s, t, k, id, s.decisions[id], SubmittedBrief(JsonContent(brief), id, s.decisions[id], k))
    ensures ReviewedSays(t, k)
  {
    hide SubmittedBrief;
    BuiltSays(brief, id, s.decisions[id], k);
  }

  // Only the resolved revision can have been approved.
  lemma ResolutionNothingElse(s: RunState, t: RunState, k: nat, id: DecisionId, d: ReviewDecision, brief: Brief)
    requires ResolutionTaken(s, t, k, id, d, brief)
    ensures t.bundles == s.bundles
    ensures forall j | j in t.workflows && j != k :: j in s.workflows && t.workflows[j] == s.workflows[j]
    ensures k in t.workflows && (t.workflows[k].status == Approved <==> d.action == Approve)
  {
  }

  lemma ResolvedBriefs(s: RunState, t: RunState, k: nat, id: DecisionId, original: Content)
    requires Briefs(s) && ReviewsEvolve(s, t) && k in s.bundles && k >= 1 && id in s.decisions
    requires BriefJsonId(k) in s.artifacts && s.artifacts[BriefJsonId(k)].content == original
    requires ResolutionTaken(s, t, k, id, s.decisions[id], SubmittedBrief(original, id, s.decisions[id], k))
    ensures Briefs(t)
  {
    hide BriefSays, ReviewedSays, ReviewsEvolve, ResolutionTaken, SubmittedBrief;
    ResolutionNothingElse(s, t, k, id, s.decisions[id], SubmittedBrief(original, id, s.decisions[id], k));
    BriefIsJson(s, k);
    forall j | j in t.bundles ensures BriefSays(t, j) { SaysStays(s, t, j); }
    forall j | j in t.workflows && t.workflows[j].status == Approved ensures ReviewedSays(t, j) {
      if j == k { ResolvedSays(s, t, k, id, original.brief); } else { SaysStays(s, t, j); }
    }
  }

  lemma SubmitBriefs(s: RunState, c: Command)
    requires Inv(s) && Briefs(s) && c.SubmitReview? && Honest(s, c)
    ensures var step := Submit(s, c.k, c.worker, c.now, c.expectedVersion, c.original, c.decisionId, c.decided);
      step.Commit? ==> Briefs(step.state)
  {
    hide Inv, Bundled, Chain, Published, Artifacts, Submit, Briefs, ReviewsEvolve, ResolutionTaken, SubmittedBrief,
      PublicationsEvolve, RowEvolves;
    PartsHold(s);
    var step := Submit(s, c.k, c.worker, c.now, c.expectedVersion, c.original, c.decisionId, c.decided);
    SubmissionTakes(s, c.k, c.worker, c.now, c.expectedVersion, c.original, c.decisionId, c.decided);
    SubmitEvolves(s, c.k, c.worker, c.now, c.expectedVersion, c.original, c.decisionId, c.decided);
    if step.Commit? && !step.replay {
      ResolutionPendingHere(s, step.state, c.k, c.decisionId, s.decisions[c.decisionId], SubmittedBrief(c.original, c.decisionId, c.decided, c.k));
      ResolvedBriefs(s, step.state, c.k, c.decisionId, c.original);
    }
  }

  lemma PartsHold(s: RunState)
    requires Inv(s)
    ensures Bundled(s) && Chain(s) && Published(s) && Artifacts(s)
    ensures forall k | k in s.workflows :: k in s.bundles && k >= 1
  {
  }

  lemma ResolutionPendingHere(s: RunState, t: RunState, k: nat, id: DecisionId, d: ReviewDecision, brief: Brief)
    requires ResolutionTaken(s, t, k, id, d, brief)
    ensures k in s.workflows && s.workflows[k].status == ResolutionPending && id in s.decisions && s.decisions[id] == d
  {
  }

  lemma BriefIsJson(s: RunState, k: nat)
    requires BriefSays(s, k)
    ensures BriefJsonId(k) in s.artifacts && s.artifacts[BriefJsonId(k)].content.JsonContent?
  {
  }

  // Every step ------------------------------------------------------------------------------

  lemma OperatorKeepsBriefs(s: RunState, c: Command, elsewhere: bool)
    requires Inv(s) && Briefs(s) && Operator(c) && !c.Finish? && !c.Publish?
    ensures Briefs(After(s, c, elsewhere))
  {
    hide Inv, Briefs, OperatorMoves, ReviewsEvolve, PublicationsEvolve, RowEvolves, AcceptVerification, TransitionToRunning, FinalizeSnapshot,
      ReviewWorkflows.AcceptReviewDecision, NoneApproved;
    OperatorStepMoves(s, c, elsewhere);
    AfterEvolves(s, c, elsewhere);
    MovesApproveNone(s, After(s, c, elsewhere));
    if c.Verify? { VerifyKeepsBundles(s, elsewhere, c.item, c.verification); } else { PlainKeepsBundles(s, c, elsewhere); }
    NothingNewKeeps(s, After(s, c, elsewhere));
  }

  lemma WorkerKeepsBriefs(s: RunState, c: Command, elsewhere: bool)
    requires Inv(s) && Briefs(s) && Worker(c)
    ensures Briefs(After(s, c, elsewhere))
  {
    hide Inv, Briefs, ReviewsEvolve, PublicationsEvolve, RowEvolves, Apply, NothingNew;
    LeasesHold(s);
    assert Apply(s, c, elsewhere) == Apply(s, c, false) by { WorkerIgnoresOthers(s, c, elsewhere); }
    WorkerNothingNew(s, c);
    AfterEvolves(s, c, false);
    NothingNewKeeps(s, After(s, c, false));
  }

  lemma WorkerIgnoresOthers(s: RunState, c: Command, elsewhere: bool)
    requires Worker(c)
    ensures Apply(s, c, elsewhere) == Apply(s, c, false)
  {
  }

  lemma StepKeepsBriefs(s: RunState, c: Command, elsewhere: bool)
    requires Inv(s) && Briefs(s) && Honest(s, c)
    ensures Briefs(After(s, c, elsewhere))
  {
    hide Inv, Briefs, Submit, FinalizePublication, FinalizeRun, ServerArguments, Honest, AcceptVerification, TransitionToRunning, FinalizeSnapshot,
      ReviewWorkflows.AcceptReviewDecision, ClaimWorkflow, CompleteCheckpointCreation, MarkWaitingDecision, MarkResolutionPending,
      MarkManualRecovery, ReleaseExpiredLease, ReleaseForRetry;
    match c
    case Finish(a, now) => if ServerArguments(s.id, s.row.profile, a) && FinalizeRun(s, a, now).Commit? { FinishBriefs(s, a, now); }
    case Publish(version, build, now) => PublishBriefs(s, version, build, now);
    case SubmitReview(_, _, _, _, _, _, _) => SubmitBriefs(s, c);
    case _ => if Worker(c) { WorkerKeepsBriefs(s, c, elsewhere); } else { OperatorKeepsBriefs(s, c, elsewhere); }
  }

  // Whole runs ------------------------------------------------------------------------------

  ghost predicate DbBriefs(db: Db) {
    forall run | run in db :: Briefs(db[run])
  }

  lemma CreatedBriefs(run: RunId, profile: Profile)
    ensures Briefs(CreateRun(run, profile))
  {
  }

  lemma PerformKeepsBriefs(db: Db, c: DbCommand)
    requires DbInv(db) && DbBriefs(db) && HonestCommand(db, c)
    ensures DbBriefs(Perform(db, c))
  {
    hide Inv, Briefs, After, UsedByAnother, CreateRun, Honest;
    match c
    case Create(run, profile) => CreatedBriefs(run, profile);
    case On(run, command) => if run in db { StepKeepsBriefs(db[run], command, UsedByAnother(db, run, command)); }
  }

  lemma {:induction false} ExecutionKeepsBriefs(db: Db, commands: seq<DbCommand>)
    requires DbInv(db) && DbBriefs(db) && HonestRun(db, commands)
    ensures DbBriefs(Execute(db, commands))
    decreases |commands|
  {
    hide Inv, Perform, DbBriefs, HonestCommand;
    if commands != [] {
      PerformKeeps(db, commands[0]);
      PerformKeepsBriefs(db, commands[0]);
      ExecutionKeepsBriefs(Perform(db, commands[0]), commands[1..]);
    }
  }

  // In every state that commands of operators, workers that submit what they read, and the reconciler
  // reach, each stored brief says of its review what holds of it.
  lemma ReachableBriefs(commands: seq<DbCommand>, run: RunId)
    requires HonestRun(map[], commands)
    ensures var db := Execute(map[], commands); run in db ==> Briefs(db[run])
  {
    ExecutionKeepsBriefs(map[], commands);
  }
}
