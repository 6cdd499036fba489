/** Revisioned publications (api/publication_repository.py) and the two operator steps that
    change them: accepting a verification decision and finalising a publication. */
module Publications {
  import opened ReviewTypes
  import opened VerificationLedger

  // SELECT ... WHERE is_current = 1
  function CurrentIndex(publications: seq<Publication>): (index: Option<nat>)
    ensures index.Some? ==> index.value < |publications| && publications[index.value].current
    ensures index.None? ==> forall i | 0 <= i < |publications| :: !publications[i].current
  {
    if publications == [] then None
    else if publications[|publications| - 1].current then Some(|publications| - 1)
    else CurrentIndex(publications[..|publications| - 1])
  }

  // SELECT ... WHERE review_id = ?
  function PublicationOf(publications: seq<Publication>, review: ReviewId): (index: Option<nat>)
    ensures index.Some? ==> index.value < |publications| && publications[index.value].review == review
    ensures index.None? ==> forall i | 0 <= i < |publications| :: publications[i].review != review
  {
    if publications == [] then None
    else if publications[|publications| - 1].review == review then Some(|publications| - 1)
    else PublicationOf(publications[..|publications| - 1], review)
  }

  // SELECT ... ORDER BY revision DESC LIMIT 1
  function NewestIndex(publications: seq<Publication>): (index: Option<nat>)
    ensures index.Some? <==> publications != []
    ensures index.Some? ==> index.value < |publications|
    ensures index.Some? ==> forall i | 0 <= i < |publications| :: publications[i].revision <= publications[index.value].revision
  {
    if publications == [] then None else
    var last := |publications| - 1;
    match NewestIndex(publications[..last])
    case Some(earlier) =>
      if publications[earlier].revision < publications[last].revision then Some(last) else Some(earlier)
    case None => Some(last)
  }

  function WorkflowOf(s: RunState, review: ReviewId): Option<nat> {
    if review.revision in s.workflows && s.workflows[review.revision].review == review
    then Some(review.revision) else None
  }

  // Adoption ---------------------------------------------------------------------------

  function AdoptedStatus(required: bool, delivery: Delivery, resolved: Option<ReviewAction>, human: bool): PublicationStatus {
    if human then Stale
    else if !required && delivery == Ready then PublishedReady
    else if resolved == Some(Approve) && delivery == Ready then PublishedReady
    else if resolved == Some(Reject) || delivery == Blocked then PublishedBlocked
    else PublishedForReview
  }

  // The four baseline artifacts that exist, in the order of their ids.
  function AdoptedArtifactIds(artifacts: map<ArtifactId, Artifact>): seq<ArtifactId> {
    Present(artifacts, [BriefJsonId(1), BriefMarkdownId(1), ReviewedJsonId(1), ReviewedMarkdownId(1)])
  }

  function Present(artifacts: map<ArtifactId, Artifact>, ids: seq<ArtifactId>): seq<ArtifactId> {
    if ids == [] then [] else
    (if ids[0] in artifacts then [ids[0]] else []) + Present(artifacts, ids[1..])
  }

  predicate Adoptable(s: RunState) {
    && s.publications == []
    && s.row.profile == Talent
    && 1 in s.bundles
    && BriefJsonId(1) in s.artifacts
  }

  function AdoptBaseline(s: RunState): RunState {
    if !Adoptable(s) then s else
    var review := s.bundles[1].review;
    var snapshot := SnapshotId(s.id, BaselineProjections(s.evidence));
    var resolved := if review in s.resolutions then Some(s.resolutions[review].action) else None;
    var status := AdoptedStatus(s.bundles[1].required, s.row.delivery, resolved, s.ledger != []);
    s.(publications := [Publication(
        PublicationId(s.id, 1, snapshot), 1, snapshot, review, status, status != Stale,
        AdoptedArtifactIds(s.artifacts), s.artifacts[BriefJsonId(1)].contentHash, None)],
      snapshots := s.snapshots + {snapshot})
  }

  // Withdrawal -------------------------------------------------------------------------

  function SupersedeReview(workflows: map<nat, Workflow>, review: ReviewId): map<nat, Workflow> {
    map k | k in workflows ::
      if workflows[k].review == review && workflows[k].status.Active()
      then workflows[k].(status := Superseded, owner := None, expires := None)
      else workflows[k]
  }

  function StaleCurrent(s: RunState): RunState {
    match CurrentIndex(s.publications)
    case None => s
    case Some(i) =>
      s.(publications := s.publications[i := s.publications[i].(status := Stale, current := false)],
         workflows := SupersedeReview(s.workflows, s.publications[i].review),
         row := s.row.(review := Required, delivery := ReviewRequired, version := s.row.version + 1))
  }

  // Accepting a verification decision --------------------------------------------------

  // `takenElsewhere`: the verification id is already used by another run.
  function AcceptVerification(s: RunState, takenElsewhere: bool, item: EvidenceId, request: VerificationRequest): Step {
    var existing := FindVerification(s.ledger, request.id);
    if takenElsewhere then Abort(VerificationIdConflict)
    else if existing.Some? then
      if existing.value.evidence == item && existing.value.request == request
      then Commit(s, true) else Abort(VerificationIdConflict)
    else if item !in s.evidence then Abort(EvidenceNotFound)
    else
      var adopted := AdoptBaseline(s);
      if item.fingerprint != request.fingerprint then Abort(EvidenceFingerprintMismatch)
      else if request.action.VerifyEvidence? && !s.evidence[item].eligible then Abort(EvidencePreflightBlocked)
      else
        var revision := MaxRevision(s.ledger, item, request.fingerprint);
        if revision != request.expectedRevision then Abort(VerificationRevisionConflict)
        else
          Commit(StaleCurrent(adopted.(ledger := adopted.ledger + [NewVerification(item, request, revision + 1)])), false)
  }

  function NewVerification(item: EvidenceId, request: VerificationRequest, revision: nat): VerificationDecision {
    VerificationDecision(request.id, item, request.fingerprint, revision, request.action, request)
  }

  // Snapshots and finalisation ---------------------------------------------------------

  function EffectiveSnapshot(s: RunState): SnapshotId {
    SnapshotId(s.id, Effective(s.evidence, s.ledger))
  }

  function FinalizeSnapshot(s: RunState): Step {
    Commit(s.(snapshots := s.snapshots + {EffectiveSnapshot(s)}), EffectiveSnapshot(s) in s.snapshots)
  }

  function NewWorkflow(review: ReviewId, now: Instant): Workflow {
    Workflow(review, CheckpointPending, None, None, None, 0, None, now)
  }

  // The outcome of building the artifacts of a new revision: `body` is the rest of the brief,
  // `moreTriggers` what the review rules add to the mandatory trigger.
  datatype Build = BuildInvalid | Built(body: string, moreTriggers: seq<string>, generatedAt: Instant)

  const SNAPSHOT_CHANGED := "verification_snapshot_changed"

  function BuiltReview(s: RunState, revision: nat, build: Build): ReviewId
    requires build.Built?
  {
    ReviewId(s.id, revision, [SNAPSHOT_CHANGED] + build.moreTriggers)
  }

  function BuiltBrief(review: ReviewId, build: Build): Brief
    requires build.Built?
  {
    WithContentHash(Brief(build.body, ReviewSummary(review.triggers, Required, true, None), build.generatedAt, NoHash))
  }

  function RequireReview(row: RunRow): RunRow {
    row.(review := Required, delivery := ReviewRequired, version := row.version + 1)
  }

  // The current publication already carries this snapshot: repair a missing workflow, or replay.
  function FinalizeAgain(s: RunState, i: nat, now: Instant): Step
    requires i < |s.publications|
  {
    var current := s.publications[i];
    if current.status != PublishedForReview || WorkflowOf(s, current.review).Some? then Commit(s, true)
    else if current.revision in s.workflows then Abort(VerificationPublicationConflict)
    else Commit(s.(workflows := s.workflows[current.revision := NewWorkflow(current.review, now)],
                   row := RequireReview(s.row)), false)
  }

  predicate PublicationInsertable(s: RunState, revision: nat, snapshot: SnapshotId, artifacts: seq<(ArtifactId, Artifact)>) {
    && CanInsert(s.artifacts, artifacts)
    && revision !in s.bundles
    && revision !in s.workflows
    && forall i | 0 <= i < |s.publications| ::
         s.publications[i].revision != revision && s.publications[i].snapshot != snapshot
  }

  function PublishRevision(s: RunState, snapshot: SnapshotId, build: Build, now: Instant): Step {
    var previous := NewestIndex(s.publications);
    var revision := if previous.None? then 1 else s.publications[previous.value].revision + 1;
    if s.row.profile != Talent || s.packets == 0 || build.BuildInvalid? then Abort(PublicationBuildFailed)
    else
      var review := BuiltReview(s, revision, build);
      var brief := BuiltBrief(review, build);
      var artifacts := BriefArtifacts(revision, brief);
      if !PublicationInsertable(s, revision, snapshot, artifacts) then Abort(VerificationPublicationConflict)
      else Commit(s.(
          artifacts := InsertAll(s.artifacts, artifacts),
          bundles := s.bundles[revision := Bundle(review, true)],
          publications := s.publications + [Publication(
            PublicationId(s.id, revision, snapshot), revision, snapshot, review, PublishedForReview, true,
            [BriefJsonId(revision), BriefMarkdownId(revision)], brief.contentHash,
            if previous.None? then None else Some(s.publications[previous.value].id))],
          workflows := s.workflows[revision := NewWorkflow(review, now)],
          row := RequireReview(s.row)), false)
  }

  function FinalizePublication(s: RunState, expectedVersion: nat, build: Build, now: Instant): Step {
    if s.row.version != expectedVersion then Abort(StaleStateVersion)
    else
      var adopted := AdoptBaseline(s);
      var snapshot := EffectiveSnapshot(adopted);
      var snapped := adopted.(snapshots := adopted.snapshots + {snapshot});
      match CurrentIndex(snapped.publications)
      case Some(i) =>
        if snapped.publications[i].snapshot == snapshot then FinalizeAgain(snapped, i, now)
        else Abort(VerificationPublicationConflict)
      case None => PublishRevision(snapped, snapshot, build, now)
  }
}
