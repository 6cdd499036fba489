/** What becomes of a review: it is decided at most once and resolved at most once, a worker that
    holds the lease can always hand its result in, and several error codes never occur. */
module ReviewOutcomes {
  import opened ReviewTypes
  import opened ReviewWorkflows
  import opened ReviewResolution
  import opened RunInvariant
  import opened LeasePreservation
  import opened ReviewPreservation
  import opened Evolution
  import opened Executions

  // Fence agreement ----------------------------------------------------------------------

  // Hashing a brief that carries its hash gives the same hash, so the built result matches.
  lemma BuiltResultMatches(original: Content, id: DecisionId, d: ReviewDecision, k: nat)
    ensures BuildReviewedArtifacts(original, id, d, k).None? <==> !original.JsonContent? || (d.action.Approve? && k < 1)
    ensures var built := BuildReviewedArtifacts(original, id, d, k); built.Some? ==> ResultMatches(id, d, built.value)
  {
    var built := BuildReviewedArtifacts(original, id, d, k);
    if built.Some? && d.action.Approve? {
      var rows := ReviewedArtifacts(k, built.value.brief.value);
      assert rows[1..] == [rows[1]] && [rows[1]][1..] == [];
      OfMediaPair(rows);
    }
  }

  lemma OfMediaPair(rows: seq<(ArtifactId, Artifact)>)
    requires |rows| == 2 && rows[0].1.media == ApplicationJson && rows[1].1.media == TextMarkdown
    ensures OfMedia(rows, ApplicationJson) == [rows[0]] && OfMedia(rows, TextMarkdown) == [rows[1]]
  {
    assert rows[1..] == [rows[1]] && [rows[1]][1..] == [];
    assert OfMedia([rows[1]], TextMarkdown) == [rows[1]] + OfMedia([], TextMarkdown);
    assert OfMedia([rows[1]], ApplicationJson) == [] + OfMedia([], ApplicationJson);
  }

  // The brief under review is the one stored with its revision, however often it is asked for.
  lemma ActiveBrief(s: RunState, k: nat)
    requires Bundled(s) && Chain(s) && Published(s) && Artifacts(s)
    requires k in s.workflows && s.workflows[k].status.Active()
    ensures k >= 1 && BriefJsonId(k) in s.artifacts && s.artifacts[BriefJsonId(k)].content.JsonContent?
    ensures OriginalBrief(s, s.workflows[k].review) == Some(s.artifacts[BriefJsonId(k)].content)
  {
    ActiveAlone(s, k);
    CurrentReviewIsNewest(s, k);
    assert k in s.bundles && k >= 1 && BriefStored(s, k);
    if s.publications != [] {
      assert ChainLink(s, |s.publications| - 1) && Shown(s, s.publications[|s.publications| - 1]);
      hide Bundled, Chain, Published, Artifacts;
      assert FirstOfKind(s.artifacts, s.publications[|s.publications| - 1].artifactIds, DecisionBriefJson) == Some(BriefJsonId(k));
    }
  }

  lemma ActiveIsOpen(s: RunState, k: nat)
    requires Bundled(s) && Chain(s) && Published(s) && k in s.workflows && s.workflows[k].status.Active()
    ensures ReviewClosed(s, s.workflows[k].review) == None
  {
    ActiveAlone(s, k);
    CurrentReviewIsNewest(s, k);
    if s.publications != [] { assert ChainLink(s, |s.publications| - 1); }
  }

  lemma ActiveIsUnresolved(s: RunState, k: nat)
    requires Decided(s) && k in s.workflows && s.workflows[k].status.Active()
    requires s.workflows[k].review.revision == k
    ensures s.workflows[k].review !in s.resolutions
    ensures s.workflows[k].decision.Some? ==> !Resolves(s, s.workflows[k].decision.value)
  {
    if s.workflows[k].decision.Some? && Resolves(s, s.workflows[k].decision.value) {
      var review :| review in s.resolutions && s.resolutions[review].decision == s.workflows[k].decision.value;
      ResolutionIsOf(s, review, k);
      assert false;
    }
  }

  lemma ResolutionIsOf(s: RunState, review: ReviewId, k: nat)
    requires Decided(s) && review in s.resolutions && k in s.workflows
    requires s.workflows[k].decision == Some(s.resolutions[review].decision) && s.workflows[k].review.revision == k
    ensures s.workflows[k].review == review && !s.workflows[k].status.Active()
  {
    assert ResolutionOwned(s, review);
    assert DecisionKept(s, k) && DecisionKept(s, review.revision);
  }

  // Everything the resolution of revision k asks for.
  ghost predicate Resolvable(s: RunState, k: nat, worker: WorkerId, now: Instant, id: DecisionId) {
    && k in s.workflows && k >= 1
    && s.workflows[k].status == ResolutionPending && s.workflows[k].decision == Some(id)
    && id in s.decisions && s.decisions[id].acceptedVersion == s.row.version
    && ReviewClosed(s, s.workflows[k].review) == None
    && s.workflows[k].review !in s.resolutions && !Resolves(s, id)
    && Owned(s, k, worker, now) && OpenAttempt(s, k, worker)
    && ReviewedJsonId(k) !in s.artifacts && ReviewedMarkdownId(k) !in s.artifacts
  }

  lemma HolderCanResolve(s: RunState, k: nat, worker: WorkerId, now: Instant)
    requires Inv(s) && k in s.workflows && s.workflows[k].status == ResolutionPending && Owned(s, k, worker, now)
    ensures s.workflows[k].decision.Some? && Resolvable(s, k, worker, now, s.workflows[k].decision.value)
  {
    assert s.workflows[k].review.revision == k && k >= 1;
    assert DecisionKept(s, k);
    ActiveIsOpen(s, k);
    ActiveIsUnresolved(s, k);
    OwnerHasOpenAttempt(s, k, worker, now);
    ReviewedIdsAreNew(s, k);
    hide Inv, Bundled, Chain, Published, Decided, Leases, Artifacts, Started, Verification, ReviewClosed, Owned, OpenAttempt, Resolves;
  }

  lemma ResolvableCommits(s: RunState, k: nat, worker: WorkerId, now: Instant, id: DecisionId, brief: Brief)
    requires Resolvable(s, k, worker, now, id)
    ensures var d := s.decisions[id];
      var step := Submit(s, k, worker, now, d.acceptedVersion, JsonContent(brief), id, d);
      step.Commit? && !step.replay
  {
    var d := s.decisions[id];
    BuiltResultMatches(JsonContent(brief), id, d, k);
    hide ReviewClosed, Owned, OpenAttempt, Resolves, ResultMatches, Resolve;
  }

  // A lease holder that submits what it built from the brief under review and its workflow's
  // decision succeeds: never stale_state_version, resolution_result_mismatch or a conflict.
  lemma OwnSubmissionCommits(s: RunState, k: nat, worker: WorkerId, now: Instant, id: DecisionId)
    requires Inv(s) && k in s.workflows && s.workflows[k].status == ResolutionPending && Owned(s, k, worker, now)
    requires s.workflows[k].decision == Some(id)
    ensures id in s.decisions && OriginalBrief(s, s.workflows[k].review).Some?
    ensures var original := OriginalBrief(s, s.workflows[k].review).value;
      var step := Submit(s, k, worker, now, s.decisions[id].acceptedVersion, original, id, s.decisions[id]);
      step.Commit? && !step.replay
  {
    HolderCanResolve(s, k, worker, now);
    ActiveBrief(s, k);
    hide Inv, Owned, OriginalBrief, Submit;
    ResolvableCommits(s, k, worker, now, id, s.artifacts[BriefJsonId(k)].content.brief);
  }

  // The worker reads the decision and the brief in reads of their own, before it submits. Its
  // earlier reads serve as well, whatever commands commit in between.
  lemma LateSubmissionCommits(s: RunState, u: RunState, k: nat, worker: WorkerId, now: Instant, id: DecisionId)
    requires Inv(s) && k in s.workflows && s.workflows[k].status.Deciding() && s.workflows[k].decision == Some(id)
    requires Inv(u) && Evolves(s, u)
    requires k in u.workflows && u.workflows[k].status == ResolutionPending && Owned(u, k, worker, now)
    ensures id in s.decisions && OriginalBrief(s, s.workflows[k].review).Some?
    ensures var original := OriginalBrief(s, s.workflows[k].review).value;
      var step := Submit(u, k, worker, now, s.decisions[id].acceptedVersion, original, id, s.decisions[id]);
      step.Commit? && !step.replay
  {
    HolderCanResolve(u, k, worker, now);
    ActiveBrief(s, k);
    assert DecisionKept(s, k);
    assert u.decisions[id] == s.decisions[id] && u.workflows[k].decision == Some(id) by { assert WorkflowEvolves(s.workflows[k], u.workflows[k]); }
    assert u.artifacts[BriefJsonId(k)] == s.artifacts[BriefJsonId(k)];
    hide Inv, Evolves, Owned, OriginalBrief, Submit;
    ResolvableCommits(u, k, worker, now, id, s.artifacts[BriefJsonId(k)].content.brief);
  }

  // Exactly once -------------------------------------------------------------------------

  // Any two accepted decisions about one review are the same decision.
  lemma OneDecisionPerReview(s: RunState, a: DecisionId, b: DecisionId)
    requires Decided(s) && a in s.decisions && b in s.decisions && s.decisions[a].review == s.decisions[b].review
    ensures a == b
  {
    assert DecisionOwned(s, a) && DecisionOwned(s, b);
  }

  // The outcome of a review that was decided by `id`: nothing else decides or resolves it, the
  // resolution carries out that decision, and the reviewed artifacts exist exactly if it approves.
  ghost predicate DecidedBy(u: RunState, id: DecisionId, d: ReviewDecision) {
    && id in u.decisions && u.decisions[id] == d
    && (forall other | other in u.decisions && u.decisions[other].review == d.review :: other == id)
    && (forall review | review in u.resolutions && u.resolutions[review].decision == id :: review == d.review)
    && (d.review in u.resolutions ==>
          u.resolutions[d.review] == Resolution(id, d.action, ResolvedArtifactIds(d.action, d.revision)))
    && (ReviewedMarkdownId(d.revision) in u.artifacts <==> d.review in u.resolutions && d.action == Approve)
    && (ReviewedJsonId(d.revision) in u.artifacts <==> d.review in u.resolutions && d.action == Approve)
  }

  lemma DecisionDecides(s: RunState, id: DecisionId)
    requires Bundled(s) && Decided(s) && Artifacts(s) && id in s.decisions
    ensures DecidedBy(s, id, s.decisions[id])
  {
    var d := s.decisions[id];
    assert DecisionOwned(s, id) && DecisionKept(s, d.revision);
    assert ReviewedStored(s, d.revision);
    forall other | other in s.decisions && s.decisions[other].review == d.review ensures other == id {
      OneDecisionPerReview(s, id, other);
    }
    forall review | review in s.resolutions && s.resolutions[review].decision == id ensures review == d.review {
      ResolutionIsOf(s, review, d.revision);
    }
    if d.review in s.resolutions { assert ResolutionOwned(s, d.review); }
    if s.workflows[d.revision].status == Approved { assert ResolutionOwned(s, s.workflows[d.revision].review); }
  }

  // From `s` to `u` the decision stays the only one, a resolution once made stays the same, and
  // so does every artifact.
  ghost predicate OutcomeKept(s: RunState, u: RunState, id: DecisionId)
    requires id in s.decisions
  {
    var d := s.decisions[id];
    && DecidedBy(u, id, d)
    && (d.review in s.resolutions ==> d.review in u.resolutions && u.resolutions[d.review] == s.resolutions[d.review])
    && (forall a | a in s.artifacts :: a in u.artifacts && u.artifacts[a] == s.artifacts[a])
  }

  // Whatever commands follow an accepted decision, from any number of operators and workers
  // and with any answers of the checkpoint store, its outcome is kept.
  lemma DecidedOnce(db: Db, commands: seq<DbCommand>, run: RunId, id: DecisionId)
    requires DbInv(db) && run in db && id in db[run].decisions
    ensures run in Execute(db, commands) && OutcomeKept(db[run], Execute(db, commands)[run], id)
  {
    ExecutionKeeps(db, commands);
    ExecutionEvolves(db, commands);
    var later := Execute(db, commands);
    hide Execute, DecidedBy;
    assert Inv(later[run]) && ReviewsEvolve(db[run], later[run]);
    DecisionDecides(later[run], id);
    hide Inv, ReviewsEvolve;
    StillExtends(db[run], later[run]);
  }

  lemma StillExtends(s: RunState, u: RunState)
    requires ReviewsEvolve(s, u)
    ensures forall id | id in s.decisions :: id in u.decisions && u.decisions[id] == s.decisions[id]
    ensures forall review | review in s.resolutions :: review in u.resolutions && u.resolutions[review] == s.resolutions[review]
    ensures forall a | a in s.artifacts :: a in u.artifacts && u.artifacts[a] == s.artifacts[a]
  {
  }

  // Approved, rejected, superseded and manual-recovery workflows never change again.
  lemma FinishedForGood(db: Db, commands: seq<DbCommand>, run: RunId, k: nat)
    requires DbInv(db) && run in db && k in db[run].workflows && !db[run].workflows[k].status.Active()
    ensures var later := Execute(db, commands);
      run in later && k in later[run].workflows && later[run].workflows[k] == db[run].workflows[k]
  {
    ExecutionEvolves(db, commands);
    var later := Execute(db, commands);
    hide Execute, Inv;
    assert ReviewsEvolve(db[run], later[run]) && WorkflowEvolves(db[run].workflows[k], later[run].workflows[k]);
  }

  // Leases and the fence, in every reachable state: an owner exists only while the workflow is
  // being worked on, the attempt under the current number is open and the owner's, attempts are
  // numbered without a gap, and an accepted decision not yet resolved still holds the fence.
  ghost predicate LedgerAndFence(s: RunState, k: nat)
    requires k in s.workflows
  {
    var w := s.workflows[k];
    && (w.owner.Some? ==> w.status == CheckpointPending || w.status == Resuming || w.status == ResolutionPending)
    && (w.owner.Some? ==> (k, w.attemptCount) in s.attempts && s.attempts[(k, w.attemptCount)] == Attempt(w.owner.value, None))
    && (forall a: nat :: (k, a) in s.attempts <==> 1 <= a <= w.attemptCount)
    && (w.status.Deciding() ==>
          w.decision.Some? && w.decision.value in s.decisions && s.decisions[w.decision.value].acceptedVersion == s.row.version)
  }

  lemma ReachableLedgerAndFence(commands: seq<DbCommand>, run: RunId, k: nat)
    ensures var db := Execute(map[], commands);
      run in db && k in db[run].workflows ==> LedgerAndFence(db[run], k)
  {
    hide Execute, Bundled, Started, Chain, Published, Verification, Artifacts;
    ReachableKeeps(commands);
    var db := Execute(map[], commands);
    if run in db && k in db[run].workflows {
      assert Inv(db[run]);
      assert LeaseKept(db[run], k) && DecisionKept(db[run], k);
    }
  }

  // Codes that never occur ---------------------------------------------------------------

  // A claim succeeds exactly on a claimable workflow: never post_review_segment_conflict, and
  // the attempt number is always free.
  lemma ClaimCommits(s: RunState, k: nat, worker: WorkerId, now: Instant, lease: Instant)
    requires Bundled(s) && Started(s) && Leases(s)
    ensures ClaimWorkflow(s, k, worker, now, lease).Commit? <==> lease > 0 && Claimable(s, k, now)
  {
    if Claimable(s, k, now) {
      assert LeaseKept(s, k);
      SegmentIsFree(s, k);
    }
  }

  lemma SegmentIsFree(s: RunState, k: nat)
    requires Bundled(s) && Started(s) && k in s.workflows
    ensures var segment := PostReviewSegment(s.workflows[k].review);
      var segments := EnsureSegment(s.segments, k, segment);
      k in segments && segments[k] == segment
  {
  }

  // With the lease in hand every step of a worker succeeds that fits the status: never
  // resume_attempt_not_found or review_not_retryable.
  lemma HolderSteps(s: RunState, k: nat, worker: WorkerId, now: Instant, error: Code, maxAttempts: nat)
    requires Leases(s) && k in s.workflows
    ensures ReleaseForRetry(s, k, worker, now, error, maxAttempts).Commit? <==> Owned(s, k, worker, now)
    ensures MarkManualRecovery(s, k, Some(worker), now, error).Commit? <==> Owned(s, k, worker, now)
    ensures CompleteCheckpointCreation(s, k, worker, now).Commit? <==>
      Owned(s, k, worker, now) && s.workflows[k].status == CheckpointPending
  {
    if Owned(s, k, worker, now) { OwnerHasOpenAttempt(s, k, worker, now); }
  }

  // A submission never fails for a missing decision, a missing attempt or a taken key.
  lemma SubmissionCodes(s: RunState, k: nat, worker: WorkerId, now: Instant, version: nat,
                        original: Content, id: DecisionId, d: ReviewDecision)
    requires Inv(s)
    ensures var step := Submit(s, k, worker, now, version, original, id, d);
      step.Abort? ==> step.code !in {ReviewDecisionMissing, ResumeAttemptNotFound, ReviewResolutionConflict}
  {
    if k in s.workflows && s.workflows[k].status == ResolutionPending && Owned(s, k, worker, now) {
      HolderCanResolve(s, k, worker, now);
      hide Inv;
      ResolvableCodes(s, k, worker, now, version, original, id, d);
    } else {
      hide Inv;
      NotHeldCodes(s, k, worker, now, version, original, id, d);
    }
  }

  lemma ResolvableCodes(s: RunState, k: nat, worker: WorkerId, now: Instant, version: nat,
                        original: Content, id: DecisionId, d: ReviewDecision)
    requires k in s.workflows && s.workflows[k].decision.Some?
    requires Resolvable(s, k, worker, now, s.workflows[k].decision.value)
    ensures var step := Submit(s, k, worker, now, version, original, id, d);
      step.Abort? ==> step.code in {ReviewPayloadInvalid, StaleStateVersion, ResolutionResultMismatch}
  {
    hide ReviewClosed, Owned, OpenAttempt, Resolves, ResultMatches, Resolve;
  }

  lemma NotHeldCodes(s: RunState, k: nat, worker: WorkerId, now: Instant, version: nat,
                     original: Content, id: DecisionId, d: ReviewDecision)
    requires !(k in s.workflows && s.workflows[k].status == ResolutionPending && Owned(s, k, worker, now))
    ensures var step := Submit(s, k, worker, now, version, original, id, d);
      step.Abort? ==> step.code in {ReviewPayloadInvalid, ReviewNotFound, ReviewSuperseded, ReviewNotWaiting, LeaseNotOwned}
  {
    hide Owned, ResultMatches, Resolve;
  }

  // What a result must be -------------------------------------------------------------------

  // Exactly one of the artifacts is of this type.
  ghost predicate OnlyOne(artifacts: seq<(ArtifactId, Artifact)>, media: MediaType) {
    exists i | 0 <= i < |artifacts| :: IsOnly(artifacts, media, i)
  }

  ghost predicate IsOnly(artifacts: seq<(ArtifactId, Artifact)>, media: MediaType, i: nat)
    requires i < |artifacts|
  {
    artifacts[i].1.media == media && forall j | 0 <= j < |artifacts| && artifacts[j].1.media == media :: j == i
  }

  // One JSON and one Markdown rendering, all with the hash of this brief, and the JSON has its text and
  // its review; the time when it was generated is not compared.
  ghost predicate RendersBrief(brief: Brief, artifacts: seq<(ArtifactId, Artifact)>) {
    && brief.contentHash == BriefHash(brief.body, brief.summary)
    && OnlyOne(artifacts, ApplicationJson) && OnlyOne(artifacts, TextMarkdown)
    && (forall a | a in artifacts :: a.1.contentHash == brief.contentHash)
    && (forall a | a in artifacts && a.1.media == ApplicationJson ::
          a.1.content.JsonContent? && a.1.content.brief == brief.(generatedAt := a.1.content.brief.generatedAt))
  }

  // The result carries out this decision: stamped with it, without artifacts if it rejects, and if it
  // approves with one brief in both renderings.
  ghost predicate CarriesOut(id: DecisionId, action: ReviewAction, result: ReviewedResult) {
    && result.resolvedReview.decision.Some?
    && result.resolvedReview.decision.value.decisionId == id && result.resolvedReview.decision.value.action == action
    && (action == Reject ==> result.artifacts == [])
    && (action == Approve ==> result.brief.Some? && RendersBrief(result.brief.value, result.artifacts))
  }

  lemma {:induction false} OfMediaPicks(artifacts: seq<(ArtifactId, Artifact)>, media: MediaType)
    ensures forall a :: a in OfMedia(artifacts, media) <==> a in artifacts && a.1.media == media
    ensures OfMedia(artifacts, media) == [] <==> forall j | 0 <= j < |artifacts| :: artifacts[j].1.media != media
  {
    if artifacts != [] {
      OfMediaPicks(artifacts[1..], media);
      assert artifacts == [artifacts[0]] + artifacts[1..];
      assert forall j | 0 < j < |artifacts| :: artifacts[j] == artifacts[1..][j - 1];
    }
  }

  lemma {:induction false} OfMediaOnce(artifacts: seq<(ArtifactId, Artifact)>, media: MediaType)
    ensures |OfMedia(artifacts, media)| == 1 <==> OnlyOne(artifacts, media)
  {
    if artifacts != [] {
      var rest := artifacts[1..];
      assert forall j | 0 < j < |artifacts| :: artifacts[j] == rest[j - 1];
      OfMediaOnce(rest, media);
      OfMediaPicks(rest, media);
      if artifacts[0].1.media == media {
        assert IsOnly(artifacts, media, 0) <==> OfMedia(rest, media) == [];
      } else {
        assert forall i | 0 <= i < |rest| :: IsOnly(rest, media, i) <==> IsOnly(artifacts, media, i + 1);
        OnlyLater(artifacts, media);
      }
    }
  }

  lemma OnlyLater(artifacts: seq<(ArtifactId, Artifact)>, media: MediaType)
    requires artifacts != [] && artifacts[0].1.media != media
    requires forall i | 0 <= i < |artifacts[1..]| :: IsOnly(artifacts[1..], media, i) <==> IsOnly(artifacts, media, i + 1)
    ensures OnlyOne(artifacts, media) <==> OnlyOne(artifacts[1..], media)
  {
    if OnlyOne(artifacts, media) {
      var i :| 0 <= i < |artifacts| && IsOnly(artifacts, media, i);
      assert IsOnly(artifacts[1..], media, i - 1);
    }
    if OnlyOne(artifacts[1..], media) {
      var i :| 0 <= i < |artifacts[1..]| && IsOnly(artifacts[1..], media, i);
      assert IsOnly(artifacts, media, i + 1);
    }
  }

  lemma ApprovedMeansRenders(result: ReviewedResult)
    ensures ApprovedResultMatches(result) <==> result.brief.Some? && RendersBrief(result.brief.value, result.artifacts)
  {
    hide OnlyOne;
    OfMediaPicks(result.artifacts, ApplicationJson);
    OfMediaOnce(result.artifacts, ApplicationJson);
    OfMediaOnce(result.artifacts, TextMarkdown);
    if |OfMedia(result.artifacts, ApplicationJson)| == 1 {
      var a := OfMedia(result.artifacts, ApplicationJson)[0];
      assert a in OfMedia(result.artifacts, ApplicationJson);
      assert forall b | b in OfMedia(result.artifacts, ApplicationJson) :: b == a;
    }
  }

  lemma MatchMeansCarriesOut(id: DecisionId, d: ReviewDecision, result: ReviewedResult)
    ensures ResultMatches(id, d, result) <==> CarriesOut(id, d.action, result)
  {
    hide ApprovedResultMatches, RendersBrief;
    ApprovedMeansRenders(result);
  }

  // The workflow is held for its resolution, by this worker and on this version of the run.
  predicate AwaitsResult(s: RunState, k: nat, worker: WorkerId, now: Instant, version: nat) {
    && k in s.workflows && s.workflows[k].status == ResolutionPending
    && s.workflows[k].owner == Some(worker) && s.workflows[k].expires.Some? && now < s.workflows[k].expires.value
    && s.workflows[k].decision.Some? && s.workflows[k].decision.value in s.decisions
    && s.row.version == version
  }

  // In a valid state a result is taken exactly from the holder of the lease, on the version of the
  // decision, and if it carries that decision out under ids of artifacts that are free.
  lemma ResolutionCommitsIff(s: RunState, k: nat, worker: WorkerId, now: Instant, version: nat, result: ReviewedResult)
    requires Inv(s)
    ensures var step := ResolveReview(s, k, worker, now, version, result);
      step.Commit? && !step.replay <==>
        && AwaitsResult(s, k, worker, now, version)
        && CarriesOut(s.workflows[k].decision.value, s.decisions[s.workflows[k].decision.value].action, result)
        && CanInsert(s.artifacts, result.artifacts)
  {
    hide Inv, CarriesOut, Resolvable, ResolveReview, CanInsert;
    if k in s.workflows && s.workflows[k].status == ResolutionPending && Owned(s, k, worker, now) {
      HolderCanResolve(s, k, worker, now);
      HeldCommitsIff(s, k, worker, now, version, result);
    } else {
      NotHeldNeverCommits(s, k, worker, now, version, result);
    }
  }

  lemma HeldCommitsIff(s: RunState, k: nat, worker: WorkerId, now: Instant, version: nat, result: ReviewedResult)
    requires k in s.workflows && s.workflows[k].decision.Some? && Resolvable(s, k, worker, now, s.workflows[k].decision.value)
    ensures var step, id := ResolveReview(s, k, worker, now, version, result), s.workflows[k].decision.value;
      && id in s.decisions
      && (step.Commit? && !step.replay <==>
            s.row.version == version && CarriesOut(id, s.decisions[id].action, result) && CanInsert(s.artifacts, result.artifacts))
  {
    var id := s.workflows[k].decision.value;
    MatchMeansCarriesOut(id, s.decisions[id], result);
    hide ReviewClosed, Owned, OpenAttempt, Resolves, ResultMatches, CarriesOut, CanInsert, Resolve;
  }

  lemma NotHeldNeverCommits(s: RunState, k: nat, worker: WorkerId, now: Instant, version: nat, result: ReviewedResult)
    requires !(k in s.workflows && s.workflows[k].status == ResolutionPending && Owned(s, k, worker, now))
    ensures var step := ResolveReview(s, k, worker, now, version, result); step.Abort? || step.replay
  {
    hide ReviewClosed, Owned, OpenAttempt, Resolves, ResultMatches, CanInsert, Resolve;
  }
}
