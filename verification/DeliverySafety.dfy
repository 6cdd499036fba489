/** What a run delivers, and when (api/run_result_service.py over the rows that every step keeps). */
module DeliverySafety {
  import opened ReviewTypes
  import opened Publications
  import opened ReviewResolution
  import opened RunInvariant
  import opened PublicationPreservation
  import opened VerificationPreservation
  import opened Evolution
  import opened Executions

  // The review of revision k was approved by an accepted decision.
  ghost predicate ApprovedByDecision(s: RunState, k: nat) {
    && k in s.bundles
    && var review := s.bundles[k].review;
    && review in s.resolutions
    && var r := s.resolutions[review];
    && r.action == Approve
    && r.decision in s.decisions
    && s.decisions[r.decision].review == review
    && s.decisions[r.decision].action == Approve
  }

  ghost predicate ReviewPassed(s: RunState, k: nat) {
    k in s.bundles && (s.bundles[k].required ==> ApprovedByDecision(s, k))
  }

  // What may be delivered: a Markdown artifact of the current publication, with its content
  // hash, over what the ledger says now, and reviewed if a review was required.
  ghost predicate Deliverable(s: RunState, id: ArtifactId) {
    && CurrentIndex(s.publications).Some?
    && var p := s.publications[CurrentIndex(s.publications).value];
    && p.status == PublishedReady
    && id in p.artifactIds
    && id in s.artifacts
    && s.artifacts[id].contentHash == p.contentHash
    && s.artifacts[id].media == TextMarkdown
    && p.snapshot == EffectiveSnapshot(s)
    && p.revision in s.bundles && p.review == s.bundles[p.revision].review
    && ReviewPassed(s, p.revision)
  }

  lemma ApprovedWorkflow(s: RunState, k: nat)
    requires Bundled(s) && Decided(s) && k in s.workflows && s.workflows[k].status == Approved
    ensures ApprovedByDecision(s, k)
  {
    assert DecisionKept(s, k);
    assert ResolutionOwned(s, s.workflows[k].review);
    assert DecisionOwned(s, s.resolutions[s.workflows[k].review].decision);
  }

  // A live, ready publication has passed its review.
  lemma ReadyHasPassed(s: RunState)
    requires Bundled(s) && Chain(s) && Decided(s) && Published(s)
    requires s.publications != [] && s.row.delivery == Ready
    ensures var n := |s.publications|;
      && CurrentIndex(s.publications) == Some(n - 1)
      && s.publications[n - 1].status == PublishedReady
      && s.publications[n - 1].revision == n && n in s.bundles
      && s.publications[n - 1].review == s.bundles[n].review
      && ReviewPassed(s, n)
  {
    CurrentIsNewest(s);
    var n := |s.publications|;
    assert ChainLink(s, n - 1);
    assert Live(s) && Standing(s);
    if s.bundles[n].required { ApprovedWorkflow(s, n); }
  }

  // What is known of a served publication.
  lemma ServedIsShown(s: RunState, valid: Artifact -> bool)
    requires Inv(s) && s.publications != [] && ServeResult(s.row, s, valid).Some?
    ensures var n := |s.publications|;
      var p := s.publications[n - 1];
      && s.row.delivery == Ready && p.status == PublishedReady && p.revision == n && Shown(s, p)
      && (n > 1 ==> NeedsReview(s, n))
      && ServeResult(s.row, s, valid) == FirstMarkdown(s.artifacts, p.artifactIds)
  {
    hide Started, Leases, Verification, BriefIdsBundled, BriefStored, ReviewedStored, Shown, ReviewPassed, FirstMarkdown;
    ReadyHasPassed(s);
    ServedIsFirstMarkdown(s, valid);
  }

  // Delivery safety: whatever is served for a run with publications may be delivered.
  lemma ServedIsDeliverable(s: RunState, valid: Artifact -> bool, id: ArtifactId)
    requires Inv(s) && s.publications != []
    requires ServeResult(s.row, s, valid) == Some(id)
    ensures Deliverable(s, id)
  {
    hide Inv, ReviewPassed, EffectiveSnapshot, ServeResult, SnapshotKept;
    ServedIsShown(s, valid);
    ReadyIsCurrent(s);
  }

  lemma ReadyIsCurrent(s: RunState)
    requires Inv(s) && s.publications != [] && s.row.delivery == Ready
    ensures var n := |s.publications|;
      var p := s.publications[n - 1];
      && CurrentIndex(s.publications) == Some(n - 1)
      && n in s.bundles && p.review == s.bundles[n].review && ReviewPassed(s, n)
      && p.snapshot == EffectiveSnapshot(s)
  {
    hide Started, Leases, Artifacts, ReviewPassed, EffectiveSnapshot, LedgerRow, Raised;
    ReadyHasPassed(s);
    assert SnapshotKept(s, |s.publications| - 1);
  }

  lemma ServedIsFirstMarkdown(s: RunState, valid: Artifact -> bool)
    requires Bundled(s) && Chain(s) && s.publications != [] && CurrentIndex(s.publications) == Some(|s.publications| - 1)
    requires Shown(s, s.publications[|s.publications| - 1])
    ensures var served := ServeResult(s.row, s, valid);
      served.Some? ==> served == FirstMarkdown(s.artifacts, s.publications[|s.publications| - 1].artifactIds)
  {
    assert 1 in s.bundles;
  }

  // Which artifact that is: the reviewed one, unless no review was required, or the publication
  // lists the brief as it was before, as a baseline does that was adopted after its approval.
  lemma ServedArtifact(s: RunState, valid: Artifact -> bool, id: ArtifactId)
    requires Inv(s) && s.publications != []
    requires ServeResult(s.row, s, valid) == Some(id)
    ensures var n := |s.publications|;
      && (id == ReviewedMarkdownId(n) <==> NeedsReview(s, n) && BriefMarkdownId(n) !in s.publications[n - 1].artifactIds)
      && (id == BriefMarkdownId(n) <==> id != ReviewedMarkdownId(n))
      && (n > 1 ==> id == ReviewedMarkdownId(n))
  {
    hide Inv, ServeResult, FirstMarkdown;
    ServedIsShown(s, valid);
  }

  // A baseline approved while the run had no publications is adopted with both lists, and then the
  // brief as it was before its review is served.
  lemma ApprovedThenAdopted(s: RunState, valid: Artifact -> bool)
    requires Inv(s) && s.publications == [] && 1 in s.workflows && s.workflows[1].status == Approved
    requires forall id | id in s.artifacts :: valid(s.artifacts[id])
    ensures var t := AdoptBaseline(s);
      && Inv(t) && ApprovedByDecision(t, 1) && ReviewedMarkdownId(1) in t.artifacts
      && ServeResult(t.row, t, valid) == Some(BriefMarkdownId(1))
  {
    hide Inv, AdoptBaseline, ServeResult, ApprovedByDecision, Adoptable;
    var t := AdoptBaseline(s);
    AdoptKeeps(s);
    ApprovedIsReady(s);
    AdoptedLists(s);
    ApprovedInInv(t, 1);
    ReadyIsServed(t, valid);
    ServedArtifact(t, valid, ServeResult(t.row, t, valid).value);
  }

  lemma ApprovedInInv(s: RunState, k: nat)
    requires Inv(s) && k in s.workflows && s.workflows[k].status == Approved
    ensures ApprovedByDecision(s, k) && ReviewedMarkdownId(k) in s.artifacts
  {
    assert ReviewedStored(s, k);
    hide Started, Chain, Leases, Published, Verification, BriefIdsBundled, BriefStored, Shown;
    ApprovedWorkflow(s, k);
  }

  lemma ApprovedIsReady(s: RunState)
    requires Inv(s) && s.publications == [] && 1 in s.workflows && s.workflows[1].status == Approved
    ensures Adoptable(s) && s.row.delivery == Ready && s.row.execution == Completed
  {
    hide Leases, Verification, Chain, BriefIdsBundled, BriefStored, ReviewedStored, Shown, DecisionOwned, ResolutionOwned;
    assert 1 in s.bundles;
    FirstBriefIsStored(s);
    assert Standing(s) && DecisionKept(s, 1);
  }

  lemma FirstBriefIsStored(s: RunState)
    requires Artifacts(s) && 1 in s.bundles
    ensures BriefJsonId(1) in s.artifacts
  {
    assert BriefStored(s, 1);
  }

  lemma AdoptedLists(s: RunState)
    requires Inv(s) && Adoptable(s)
    ensures var t := AdoptBaseline(s);
      && |t.publications| == 1 && BriefMarkdownId(1) in t.publications[0].artifactIds
      && t.row == s.row && t.artifacts == s.artifacts && t.workflows == s.workflows
  {
    assert BriefStored(s, 1);
    AdoptedArtifactsShown(s.artifacts);
    hide Inv;
  }

  // But a publication that ever waited for its review is served in its reviewed form only.
  lemma ReviewedFormOnly(s: RunState, u: RunState, valid: Artifact -> bool, id: ArtifactId)
    requires Inv(s) && s.publications != [] && s.publications[|s.publications| - 1].status == PublishedForReview
    requires Inv(u) && Evolves(s, u)
    requires ServeResult(u.row, u, valid) == Some(id)
    ensures u.publications != [] && id == ReviewedMarkdownId(|u.publications|)
  {
    hide Inv, ReviewsEvolve, RowEvolves, ServeResult, FirstMarkdown;
    var n := |s.publications|;
    assert PublicationEvolves(s.publications[n - 1], u.publications[n - 1]);
    ServedIsShown(u, valid);
    WaitingIsListed(s);
    ServedArtifact(u, valid, id);
  }

  lemma WaitingIsListed(s: RunState)
    requires Inv(s) && s.publications != [] && s.publications[|s.publications| - 1].status == PublishedForReview
    ensures s.publications[|s.publications| - 1].revision == |s.publications|
  {
    assert ChainLink(s, |s.publications| - 1);
  }

  lemma ReviewedFormOverRuns(before: seq<DbCommand>, between: seq<DbCommand>, run: RunId, valid: Artifact -> bool, id: ArtifactId)
    requires var s := Execute(map[], before);
      run in s && s[run].publications != [] && s[run].publications[|s[run].publications| - 1].status == PublishedForReview
    ensures var later := Execute(Execute(map[], before), between);
      run in later && (ServeResult(later[run].row, later[run], valid) == Some(id) ==> id == ReviewedMarkdownId(|later[run].publications|))
  {
    hide Execute, Inv, Evolves, ServeResult;
    var db := Execute(map[], before);
    var later := Execute(db, between);
    ReachableKeeps(before);
    ExecutionKeeps(db, between);
    ExecutionEvolves(db, between);
    if ServeResult(later[run].row, later[run], valid) == Some(id) { ReviewedFormOnly(db[run], later[run], valid, id); }
  }

  // ... in every state that any commands reach.
  lemma DeliveryIsSafe(commands: seq<DbCommand>, run: RunId, valid: Artifact -> bool, id: ArtifactId)
    ensures var db := Execute(map[], commands);
      run in db && db[run].publications != [] && ServeResult(db[run].row, db[run], valid) == Some(id)
      ==> Deliverable(db[run], id)
  {
    ReachableKeeps(commands);
    hide Execute, Inv, ServeResult, Deliverable;
    var db := Execute(map[], commands);
    if run in db && db[run].publications != [] && ServeResult(db[run].row, db[run], valid) == Some(id) {
      ServedIsDeliverable(db[run], valid, id);
    }
  }

  // And what is ready is indeed served, when the stored artifact passes its check.
  lemma ReadyIsServed(s: RunState, valid: Artifact -> bool)
    requires Inv(s) && s.publications != [] && s.row.delivery == Ready && s.row.execution == Completed
    requires forall id | id in s.artifacts :: valid(s.artifacts[id])
    ensures ServeResult(s.row, s, valid).Some?
  {
    hide Started, Leases, Verification, BriefIdsBundled, BriefStored, ReviewedStored;
    ReadyHasPassed(s);
    assert 1 in s.bundles && Shown(s, s.publications[|s.publications| - 1]);
    ReadyServesFirst(s, valid);
  }

  lemma ReadyServesFirst(s: RunState, valid: Artifact -> bool)
    requires CurrentIndex(s.publications) == Some(|s.publications| - 1) && s.row.profile == Talent
    requires s.row.delivery == Ready && s.row.execution == Completed
    requires FirstMarkdown(s.artifacts, s.publications[|s.publications| - 1].artifactIds).Some?
    requires forall id | id in s.artifacts :: valid(s.artifacts[id])
    ensures ServeResult(s.row, s, valid) == FirstMarkdown(s.artifacts, s.publications[|s.publications| - 1].artifactIds)
  {
  }

  // Withdrawal ---------------------------------------------------------------------------

  // The state after an accepted verification decision delivers nothing and has no review under way.
  ghost predicate WithdrawnNow(t: RunState) {
    && t.row.delivery == ReviewRequired
    && CurrentIndex(t.publications).None?
    && (forall k | k in t.workflows :: !t.workflows[k].status.Active())
    && forall i | 0 <= i < |t.publications| :: t.publications[i].status == Stale && t.publications[i].snapshot != EffectiveSnapshot(t)
  }

  lemma StaleShowsLess(s: RunState, i: nat)
    requires i < |s.publications| && SnapshotKept(s, i)
    ensures !s.publications[i].current ==> s.publications[i].snapshot != EffectiveSnapshot(s)
  {
  }

  lemma NotLiveIsWithdrawn(t: RunState)
    requires Chain(t) && Published(t) && Verification(t) && t.publications != [] && !Live(t)
    ensures WithdrawnNow(t)
  {
    CurrentIsNewest(t);
    forall i | 0 <= i < |t.publications|
      ensures t.publications[i].status == Stale && t.publications[i].snapshot != EffectiveSnapshot(t)
    {
      assert ChainLink(t, i);
      StaleShowsLess(t, i);
    }
  }

  lemma AppendedIsWithdrawn(s: RunState, d: VerificationDecision)
    requires Bundled(s) && Chain(s) && Published(s) && AdoptedIfBundled(s) && 1 in s.bundles
    ensures Appended(s, d).publications != [] && !Live(Appended(s, d))
  {
    AppendWithdraws(s, d);
  }

  // Accepting a verification decision withdraws delivery in the same step.
  lemma VerificationWithdraws(s: RunState, elsewhere: bool, item: EvidenceId, request: VerificationRequest, valid: Artifact -> bool)
    requires Inv(s) && 1 in s.bundles
    ensures var step := AcceptVerification(s, elsewhere, item, request);
      step.Commit? && !step.replay ==>
        && step.state.publications != [] && WithdrawnNow(step.state)
        && ServeResult(step.state.row, step.state, valid) == None
  {
    var step := AcceptVerification(s, elsewhere, item, request);
    AcceptanceAppends(s, elsewhere, item, request);
    AcceptVerificationKeeps(s, elsewhere, item, request);
    AdoptKeeps(s);
    AdoptionReaches(s);
    AdoptionKeepsBundles(s);
    hide AcceptVerification, AdoptBaseline, AdoptedIfBundled, AcceptedRow, NextRow, Appended, WithdrawnNow;
    if step.Commit? && !step.replay {
      AppendedIsWithdrawn(AdoptBaseline(s), AcceptedRow(s, item, request));
      NotLiveIsWithdrawn(step.state);
      WithdrawnServesNothing(step.state, valid);
    }
  }

  lemma WithdrawnServesNothing(t: RunState, valid: Artifact -> bool)
    requires WithdrawnNow(t)
    ensures ServeResult(t.row, t, valid) == None
  {
  }

  lemma AdoptionKeepsBundles(s: RunState)
    ensures AdoptBaseline(s).bundles == s.bundles
  {
  }

  // A ready publication of a run that was withdrawn is a later one.
  lemma ReadyIsLater(s: RunState, u: RunState)
    requires Chain(s) && s.publications != [] && !Live(s)
    requires Chain(u) && PublicationsEvolve(s, u) && CurrentIndex(u.publications) == Some(|u.publications| - 1)
    ensures |u.publications| > |s.publications|
  {
    var n := |s.publications|;
    assert ChainLink(s, n - 1) && PublicationEvolves(s.publications[n - 1], u.publications[n - 1]);
  }

  // Whatever is served after a withdrawal was reviewed again: a decision accepted afterwards
  // approved a revision published afterwards.
  lemma OnlyReviewedAgain(s: RunState, u: RunState, valid: Artifact -> bool, id: ArtifactId)
    requires Inv(s) && s.publications != [] && !Live(s)
    requires Inv(u) && Evolves(s, u)
    requires ServeResult(u.row, u, valid) == Some(id)
    ensures Deliverable(u, id)
    ensures |u.publications| > |s.publications| && ApprovedByDecision(u, |u.publications|)
    ensures u.resolutions[u.bundles[|u.publications|].review].decision !in s.decisions
  {
    ServedIsDeliverable(u, valid, id);
    assert u.row.delivery == Ready by { hide Deliverable; }
    assert |u.publications| >= |s.publications|;
    ReadyHasPassed(u);
    ReadyIsLater(s, u);
    assert u.bundles[|u.publications|].required && u.bundles[|u.publications|].review.revision == |u.publications| by {
      hide Chain, Decided, Published, Artifacts, Verification, Leases, Started, Evolves;
    }
    hide Deliverable, Artifacts, Verification, Leases, Started, Published;
    DecisionIsNew(s, u, |u.publications|);
  }

  lemma DecisionIsNew(s: RunState, u: RunState, k: nat)
    requires Bundled(s) && Chain(s) && Decided(s) && s.publications != [] && k > |s.publications|
    requires Extends(s.decisions, u.decisions) && ApprovedByDecision(u, k) && u.bundles[k].review.revision == k
    ensures u.resolutions[u.bundles[k].review].decision !in s.decisions
  {
  }
}
