/** What every step keeps of one run's rows. */
module RunInvariant {
  import opened ReviewTypes
  import opened VerificationLedger
  import opened Publications
  import opened ReviewResolution

  // The newest revision under review: the newest publication's, or the unpublished baseline.
  function Newest(s: RunState): nat {
    if s.publications == [] then 1 else |s.publications|
  }

  // The newest revision has not been withdrawn by a verification decision.
  predicate Live(s: RunState) {
    if s.publications == [] then 1 in s.bundles else s.publications[|s.publications| - 1].current
  }

  ghost predicate Bundled(s: RunState) {
    && (forall k | k in s.bundles :: k >= 1 && s.bundles[k].review.run == s.id && s.bundles[k].review.revision == k)
    && (forall k | k in s.bundles && k > 1 :: s.bundles[k].required)
    && (forall k | k in s.workflows :: k in s.bundles && s.workflows[k].review == s.bundles[k].review && s.bundles[k].required)
    && (s.bundles != map[] ==> s.row.profile == Talent && (s.row.execution == Completed || s.row.execution == Failed))
  }

  // Before finalisation a run has nothing but its first segment.
  ghost predicate Bare(s: RunState) {
    && s.evidence == map[] && s.bundles == map[] && s.artifacts == map[] && s.ledger == [] && s.publications == []
    && s.packets == 0 && s.row.delivery == DeliveryPending
  }

  ghost predicate Started(s: RunState) {
    && (s.row.execution != CompletedWithFallback)
    && (s.row.execution == Pending || s.row.execution == Running ==> Bare(s))
    && 0 in s.segments && s.segments[0] == InitialSegment(s.id)
    && (forall q | q in s.segments && q != 0 :: q in s.bundles && s.segments[q] == PostReviewSegment(s.bundles[q].review))
    && (forall item | item in s.evidence :: item.run == s.id)
  }

  // Revisions 1..n without a gap, each superseding the one before; only the newest can be
  // current, and a publication is stale exactly when it is not current.
  ghost predicate Chain(s: RunState) {
    && (s.publications == [] ==> s.bundles.Keys <= {1})
    && (forall k :: s.publications != [] ==> (k in s.bundles <==> 1 <= k <= |s.publications|))
    && (forall i | 0 <= i < |s.publications| :: ChainLink(s, i))
  }

  ghost predicate ChainLink(s: RunState, i: nat)
    requires i < |s.publications|
  {
    var p := s.publications[i];
    && p.revision == i + 1
    && p.id == PublicationId(s.id, i + 1, p.snapshot)
    && p.snapshot.run == s.id
    && i + 1 in s.bundles && p.review == s.bundles[i + 1].review
    && p.supersedes == (if i == 0 then None else Some(s.publications[i - 1].id))
    && (p.current ==> i == |s.publications| - 1)
    && (p.current <==> p.status != Stale)
  }

  // A lease has an owner only while the workflow is being worked on, and then the attempt
  // numbered `attemptCount` is open and is that owner's. Attempts are numbered 1..attemptCount.
  ghost predicate LeaseKept(s: RunState, k: nat)
    requires k in s.workflows
  {
    var w := s.workflows[k];
    && (w.owner.Some? <==> w.expires.Some?)
    && (w.owner.Some? ==> w.status.Leasable() && (k, w.attemptCount) in s.attempts &&
                          s.attempts[(k, w.attemptCount)] == Attempt(w.owner.value, None))
    && (w.status == Resuming ==> w.owner.Some?)
    && (forall a :: (k, a) in s.attempts <==> 1 <= a <= w.attemptCount)
  }

  ghost predicate Leases(s: RunState) {
    && (forall k | k in s.workflows :: LeaseKept(s, k))
    && (forall key | key in s.attempts :: key.0 in s.workflows)
  }

  // A workflow's decision is about its own review, and every decision is its workflow's.
  ghost predicate DecisionKept(s: RunState, k: nat)
    requires k in s.workflows
  {
    var w := s.workflows[k];
    && (w.decision.Some? ==> w.decision.value in s.decisions && s.decisions[w.decision.value].review == w.review)
    && (w.status == CheckpointPending || w.status == WaitingDecision ==> w.decision.None?)
    && (w.status.Deciding() || w.status == Approved || w.status == Rejected ==> w.decision.Some?)
    && (w.status.Deciding() ==> s.decisions[w.decision.value].acceptedVersion == s.row.version)
    && (w.status == Approved || w.status == Rejected ==> w.review in s.resolutions)
  }

  ghost predicate Decided(s: RunState) {
    && (forall k | k in s.workflows :: DecisionKept(s, k))
    && (forall id | id in s.decisions :: DecisionOwned(s, id))
    && (forall review | review in s.resolutions :: ResolutionOwned(s, review))
    && (s.decisions != map[] ==> s.row.execution == Completed)
  }

  ghost predicate DecisionOwned(s: RunState, id: DecisionId)
    requires id in s.decisions
  {
    var d := s.decisions[id];
    && d.revision == d.review.revision
    && d.revision in s.workflows
    && s.workflows[d.revision].review == d.review
    && s.workflows[d.revision].decision == Some(id)
  }

  // A resolution carries out the decision of its workflow, which is terminal.
  ghost predicate ResolutionOwned(s: RunState, review: ReviewId)
    requires review in s.resolutions
  {
    var r := s.resolutions[review];
    && review.revision in s.workflows
    && var w := s.workflows[review.revision];
    && w.review == review
    && w.decision == Some(r.decision)
    && r.decision in s.decisions
    && r.action == s.decisions[r.decision].action
    && r.artifactIds == ResolvedArtifactIds(r.action, review.revision)
    && w.status == TerminalStatus(r.action)
  }

  // The run's delivery status tells where the live review stands.
  ghost predicate Standing(s: RunState) {
    var m := Newest(s);
    && m in s.bundles
    && (s.row.delivery == ReviewRequired ==>
          s.row.review == Required && s.bundles[m].required &&
          (m in s.workflows ==> s.workflows[m].status.Active() || s.workflows[m].status == ManualRecovery))
    && (s.row.delivery == Ready ==> !s.bundles[m].required || (m in s.workflows && s.workflows[m].status == Approved))
    && (s.row.delivery == Blocked ==> m in s.workflows && s.workflows[m].status == Rejected)
    && (s.row.delivery == ReviewRequired || s.row.delivery == Ready || s.row.delivery == Blocked)
  }

  function StatusFor(delivery: Delivery): PublicationStatus {
    match delivery
    case Ready => PublishedReady
    case Blocked => PublishedBlocked
    case _ => PublishedForReview
  }

  ghost predicate Published(s: RunState) {
    && (forall k | k in s.workflows && s.workflows[k].status.Active() :: Live(s) && k == Newest(s))
    && (forall k | k in s.workflows && s.workflows[k].status == Superseded ::
          1 <= k <= |s.publications| && s.publications[k - 1].status == Stale)
    && (Live(s) ==> Standing(s))
    && (Live(s) && s.publications != [] ==>
          s.publications[|s.publications| - 1].status == StatusFor(s.row.delivery))
    && (!Live(s) && s.publications != [] ==> s.row.delivery == ReviewRequired && s.row.review == Required)
  }

  // Rows of one item carry its fingerprint and are numbered 1, 2, ... in ledger order.
  ghost predicate LedgerRow(s: RunState, i: nat)
    requires i < |s.ledger|
  {
    var d := s.ledger[i];
    && d.evidence in s.evidence
    && d.fingerprint == d.evidence.fingerprint
    && d.revision == MaxRevision(s.ledger[..i], d.evidence, d.fingerprint) + 1
  }

  ghost predicate Raised(before: map<EvidenceId, Projection>, now: map<EvidenceId, Projection>) {
    exists item :: item in before && item in now && before[item].revision < now[item].revision
  }

  // The current publication shows what the ledger says now; a stale one shows less.
  ghost predicate SnapshotKept(s: RunState, i: nat)
    requires i < |s.publications|
  {
    var p := s.publications[i];
    && p.snapshot.projections.Keys == s.evidence.Keys
    && p.snapshot in s.snapshots
    && (p.current ==> p.snapshot == EffectiveSnapshot(s))
    && (!p.current ==> Raised(p.snapshot.projections, Effective(s.evidence, s.ledger)))
  }

  ghost predicate Verification(s: RunState) {
    && (forall i | 0 <= i < |s.ledger| :: LedgerRow(s, i))
    && (s.publications == [] && 1 in s.bundles ==> s.ledger == [])
    && (forall i | 0 <= i < |s.publications| :: SnapshotKept(s, i))
  }

  ghost predicate BriefStored(s: RunState, k: nat) {
    && BriefJsonId(k) in s.artifacts && BriefMarkdownId(k) in s.artifacts
    && s.artifacts[BriefJsonId(k)].kind == DecisionBriefJson
    && s.artifacts[BriefJsonId(k)].content.JsonContent?
    && s.artifacts[BriefJsonId(k)].media == ApplicationJson
    && s.artifacts[BriefMarkdownId(k)].media == TextMarkdown
    && s.artifacts[BriefMarkdownId(k)].contentHash == s.artifacts[BriefJsonId(k)].contentHash
  }

  // The reviewed artifacts of a revision exist exactly when its review was approved.
  ghost predicate ReviewedStored(s: RunState, k: nat) {
    && (ReviewedJsonId(k) in s.artifacts <==> k in s.workflows && s.workflows[k].status == Approved)
    && (ReviewedMarkdownId(k) in s.artifacts <==> k in s.workflows && s.workflows[k].status == Approved)
  }

  ghost predicate BriefIdsBundled(s: RunState) {
    forall k | BriefJsonId(k) in s.artifacts || BriefMarkdownId(k) in s.artifacts :: k in s.bundles
  }

  ghost predicate Artifacts(s: RunState) {
    && (forall k | k in s.bundles :: BriefStored(s, k))
    && BriefIdsBundled(s)
    && (forall k :: ReviewedStored(s, k))
    && (Live(s) && s.publications != [] ==> Shown(s, s.publications[|s.publications| - 1]))
  }

  // The three lists of artifacts that a publication can have: the brief, its reviewed form, or, for
  // a baseline adopted after its approval, both.
  predicate ListsBrief(p: Publication) {
    p.artifactIds == [BriefJsonId(p.revision), BriefMarkdownId(p.revision)]
  }

  predicate ListsReviewed(p: Publication) {
    p.artifactIds == [ReviewedJsonId(p.revision), ReviewedMarkdownId(p.revision)]
  }

  predicate ListsBoth(p: Publication) {
    p.artifactIds == [BriefJsonId(p.revision), BriefMarkdownId(p.revision), ReviewedJsonId(p.revision), ReviewedMarkdownId(p.revision)]
  }

  predicate NeedsReview(s: RunState, k: nat) {
    k in s.bundles && s.bundles[k].required
  }

  // The artifacts of a current publication: what is delivered carries the content hash, and
  // an unresolved one lists the brief to review.
  ghost predicate Shown(s: RunState, p: Publication) {
    var first := FirstMarkdown(s.artifacts, p.artifactIds);
    && first == Some(if ListsReviewed(p) then ReviewedMarkdownId(p.revision) else BriefMarkdownId(p.revision))
    && s.artifacts[first.value].contentHash == p.contentHash
    && (p.status != PublishedReady || !NeedsReview(s, p.revision) ==> ListsBrief(p))
    && (p.status == PublishedReady && NeedsReview(s, p.revision) ==> ListsReviewed(p) || (p.revision == 1 && ListsBoth(p)))
  }

  ghost predicate Inv(s: RunState) {
    && Bundled(s)
    && Started(s)
    && Chain(s)
    && Leases(s)
    && Decided(s)
    && Published(s)
    && Verification(s)
    && Artifacts(s)
  }
}
