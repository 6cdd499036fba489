/** Reviewed artifacts (api/review_artifacts.py), the exactly-once resolution of a review
    (api/review_repository.py) and the delivery of a result (api/run_result_service.py). */
module ReviewResolution {
  import opened ReviewTypes
  import opened Publications
  import opened ReviewWorkflows

  datatype ReviewedResult = ReviewedResult(
    brief: Option<Brief>,
    resolvedReview: ReviewSummary,
    artifacts: seq<(ArtifactId, Artifact)>)

  function ResolvedSummary(original: ReviewSummary, id: DecisionId, d: ReviewDecision): ReviewSummary {
    ReviewSummary(original.triggers, Resolved, false, Some(DecisionStamp(id, d.action, d.reason.Some?)))
  }

  function ReviewedArtifacts(revision: nat, brief: Brief): seq<(ArtifactId, Artifact)> {
    [ (ReviewedJsonId(revision), Artifact(ReviewedBriefJson, ApplicationJson, JsonContent(brief), brief.contentHash)),
      (ReviewedMarkdownId(revision), Artifact(ReviewedBriefMarkdown, TextMarkdown, MarkdownContent(brief), brief.contentHash)) ]
  }

  function BuildReviewedArtifacts(original: Content, id: DecisionId, d: ReviewDecision, revision: nat): Option<ReviewedResult> {
    match ParseBrief(original)
    case None => None
    case Some(brief) =>
      var summary := ResolvedSummary(brief.summary, id, d);
      if d.action.Reject? then Some(ReviewedResult(None, summary, []))
      else if revision < 1 then None
      else
        var reviewed := WithContentHash(brief.(summary := summary));
        Some(ReviewedResult(Some(reviewed), summary, ReviewedArtifacts(revision, reviewed)))
  }

  function OfMedia(artifacts: seq<(ArtifactId, Artifact)>, media: MediaType): seq<(ArtifactId, Artifact)> {
    if artifacts == [] then [] else
    (if artifacts[0].1.media == media then [artifacts[0]] else []) + OfMedia(artifacts[1..], media)
  }

  function Ids(artifacts: seq<(ArtifactId, Artifact)>): seq<ArtifactId> {
    seq(|artifacts|, i requires 0 <= i < |artifacts| => artifacts[i].0)
  }

  // The submitted result is the reviewed form of what was decided.
  predicate ResultMatches(id: DecisionId, d: ReviewDecision, result: ReviewedResult) {
    && result.resolvedReview.decision.Some?
    && result.resolvedReview.decision.value.decisionId == id
    && result.resolvedReview.decision.value.action == d.action
    && (d.action.Reject? ==> result.artifacts == [])
    && (d.action.Approve? ==> ApprovedResultMatches(result))
  }

  predicate ApprovedResultMatches(result: ReviewedResult) {
    && result.brief.Some?
    && var hash := WithContentHash(result.brief.value).contentHash;
    && result.brief.value.contentHash == hash
    && |OfMedia(result.artifacts, ApplicationJson)| == 1
    && |OfMedia(result.artifacts, TextMarkdown)| == 1
    && (forall i | 0 <= i < |result.artifacts| :: result.artifacts[i].1.contentHash == hash)
    && var stored := ParseBrief(OfMedia(result.artifacts, ApplicationJson)[0].1.content);
    && stored.Some?
    && stored.value.contentHash == hash
    && WithContentHash(stored.value).contentHash == hash
  }

  // UNIQUE(decision_id) on the resolutions.
  predicate Resolves(s: RunState, id: DecisionId) {
    exists review | review in s.resolutions :: s.resolutions[review].decision == id
  }

  function TerminalStatus(action: ReviewAction): WorkflowStatus {
    if action.Approve? then Approved else Rejected
  }

  // The ids of the reviewed artifacts that a resolution records.
  function ResolvedArtifactIds(action: ReviewAction, k: nat): seq<ArtifactId> {
    if action.Reject? then [] else [ReviewedJsonId(k), ReviewedMarkdownId(k)]
  }

  function Resolve(s: RunState, k: nat, id: DecisionId, d: ReviewDecision, result: ReviewedResult): RunState
    requires k in s.workflows
  {
    var w := s.workflows[k];
    var ids := Ids(result.artifacts);
    var outcome := if d.action.Approve? then OutcomeApproved else OutcomeRejected;
    var publications := match PublicationOf(s.publications, w.review)
      case None => s.publications
      case Some(i) =>
        var p := s.publications[i];
        s.publications[i := p.(
          status := if d.action.Approve? then PublishedReady else PublishedBlocked,
          artifactIds := if d.action.Approve? then ids else p.artifactIds,
          contentHash := if d.action.Approve? && result.brief.Some?
                         then WithContentHash(result.brief.value).contentHash else p.contentHash)];
    s.(artifacts := InsertAll(s.artifacts, result.artifacts),
       resolutions := s.resolutions[w.review := Resolution(id, d.action, ids)],
       publications := publications,
       row := s.row.(review := Resolved, delivery := if d.action.Approve? then Ready else Blocked,
                     version := s.row.version + 1),
       workflows := s.workflows[k := Released(w, TerminalStatus(d.action))],
       attempts := CloseAttempt(s, k, outcome))
  }

  function ResolveReview(s: RunState, k: nat, worker: WorkerId, now: Instant, expectedVersion: nat, result: ReviewedResult): Step {
    if k !in s.workflows then Abort(ReviewNotFound)
    else if s.workflows[k].status == Superseded then Abort(ReviewSuperseded)
    else
      var w := s.workflows[k];
      if ReviewClosed(s, w.review).Some? then Abort(ReviewClosed(s, w.review).value)
      else if w.review in s.resolutions then Commit(s, true)
      else if w.status != ResolutionPending || !Owned(s, k, worker, now) then Abort(LeaseNotOwned)
      else if w.decision.None? then Abort(ReviewDecisionMissing)
      else if w.decision.value !in s.decisions then Abort(ReviewNotFound)
      else
        var d := s.decisions[w.decision.value];
        if d.acceptedVersion != expectedVersion || s.row.version != expectedVersion then Abort(StaleStateVersion)
        else if !ResultMatches(w.decision.value, d, result) then Abort(ResolutionResultMismatch)
        else if !CanInsert(s.artifacts, result.artifacts) || Resolves(s, w.decision.value) then Abort(ReviewResolutionConflict)
        else if !OpenAttempt(s, k, worker) then Abort(ResumeAttemptNotFound)
        else Commit(Resolve(s, k, w.decision.value, d, result), false)
  }

  // The brief a worker reviews: the publication's own, else the baseline brief.
  function OriginalBrief(s: RunState, review: ReviewId): Option<Content> {
    var published := match PublicationOf(s.publications, review)
      case Some(i) => FirstOfKind(s.artifacts, s.publications[i].artifactIds, DecisionBriefJson)
      case None => None;
    if published.Some? then Some(s.artifacts[published.value].content)
    else if s.publications == [] && BriefJsonId(1) in s.artifacts then Some(s.artifacts[BriefJsonId(1)].content)
    else None
  }

  function FirstOfKind(artifacts: map<ArtifactId, Artifact>, ids: seq<ArtifactId>, kind: ArtifactKind): (id: Option<ArtifactId>)
    ensures id.Some? ==> id.value in ids && id.value in artifacts && artifacts[id.value].kind == kind
  {
    if ids == [] then None
    else if ids[0] in artifacts && artifacts[ids[0]].kind == kind then Some(ids[0])
    else FirstOfKind(artifacts, ids[1..], kind)
  }

  // Delivery ---------------------------------------------------------------------------

  function FirstMarkdown(artifacts: map<ArtifactId, Artifact>, ids: seq<ArtifactId>): (id: Option<ArtifactId>)
    ensures id.Some? ==> id.value in ids && id.value in artifacts && artifacts[id.value].media == TextMarkdown
  {
    if ids == [] then None
    else if ids[0] in artifacts && artifacts[ids[0]].media == TextMarkdown then Some(ids[0])
    else FirstMarkdown(artifacts, ids[1..])
  }

  // _select_artifact_id over the artifacts of the current publication, then the fallbacks.
  function SelectArtifact(profile: Profile, s: RunState): Option<ArtifactId> {
    if profile == Generic then Some(ReportId) else
    var current := CurrentIndex(s.publications);
    var published := if current.None? then None else FirstMarkdown(s.artifacts, s.publications[current.value].artifactIds);
    if published.Some? then published
    else if BriefMarkdownId(1) in s.artifacts then Some(BriefMarkdownId(1))
    else if ReportId in s.artifacts then Some(ReportId)
    else None
  }

  // resolve_run_result. The row is read first and everything else afterwards, in reads of
  // their own: `row` is the earlier read, `later` the state that the later reads see.
  // `valid` is the check of the stored artifact.
  function ServeResult(row: RunRow, later: RunState, valid: Artifact -> bool): Option<ArtifactId> {
    if row.execution in {Pending, Running, Failed} || row.delivery != Ready then None else
    match SelectArtifact(row.profile, later)
    case Some(id) => if id in later.artifacts && valid(later.artifacts[id]) then Some(id) else None
    case None => None
  }
}
