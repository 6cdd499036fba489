/** The rows of the application database, grouped by the run they belong to.
    Every table carries a run_id, so a `RunState` holds one run's rows of every table;
    a primary key or unique constraint is the key of a map, or is checked at the insert.
    Names the source derives by hashing (uuid5, SHA-256) are free constructors: equal
    names have equal inputs, and nothing else is known about them. */
module ReviewTypes {

  datatype Option<+T> = None | Some(value: T)

  type RunId = string
  type WorkerId = string
  type DecisionId = string
  type VerificationId = string
  type Fingerprint = string

  // Microseconds; the stored text form is the subject of module LeaseTime.
  type Instant = int

  // Derived names ----------------------------------------------------------------------

  datatype ReviewId = ReviewId(run: RunId, revision: nat, triggers: seq<string>)

  datatype SegmentId = InitialSegment(run: RunId) | PostReviewSegment(review: ReviewId)

  datatype EvidenceId = EvidenceId(run: RunId, fingerprint: Fingerprint)

  datatype SnapshotId = SnapshotId(run: RunId, projections: map<EvidenceId, Projection>)

  datatype PublicationId = PublicationId(run: RunId, revision: nat, snapshot: SnapshotId)

  datatype ArtifactId =
    | ReportId
    | BriefJsonId(revision: nat)
    | BriefMarkdownId(revision: nat)
    | ReviewedJsonId(revision: nat)
    | ReviewedMarkdownId(revision: nat)

  // Runs -------------------------------------------------------------------------------

  datatype Profile = Generic | Talent | OtherProfile

  datatype Execution = Pending | Running | Completed | CompletedWithFallback | Failed

  datatype ReviewFlag = NotRequired | Required | Resolved

  datatype Delivery = DeliveryPending | Ready | ReviewRequired | Blocked | DeliveryFailed

  datatype RunRow = RunRow(
    profile: Profile,
    execution: Execution,
    review: ReviewFlag,
    delivery: Delivery,
    version: nat)

  // Briefs and artifacts ---------------------------------------------------------------

  datatype ReviewAction = Approve | Reject

  datatype DecisionStamp = DecisionStamp(decisionId: DecisionId, action: ReviewAction, reasonRecorded: bool)

  datatype ReviewSummary = ReviewSummary(
    triggers: seq<string>,
    status: ReviewFlag,
    requiredBeforeDelivery: bool,
    decision: Option<DecisionStamp>)

  // SHA-256 of a canonical payload: a brief without its own hash and generation time, or a text.
  datatype Hash = NoHash | BriefHash(body: string, summary: ReviewSummary) | TextHash(text: string)

  // `body` stands for every other field of the brief.
  datatype Brief = Brief(body: string, summary: ReviewSummary, generatedAt: Instant, contentHash: Hash)

  datatype Content = JsonContent(brief: Brief) | MarkdownContent(brief: Brief) | TextContent(text: string)

  datatype MediaType = ApplicationJson | TextMarkdown

  datatype ArtifactKind =
    | DecisionBriefJson
    | DecisionBriefMarkdown
    | ReviewedBriefJson
    | ReviewedBriefMarkdown
    | ResearchReport

  datatype Artifact = Artifact(kind: ArtifactKind, media: MediaType, content: Content, contentHash: Hash)

  function WithContentHash(brief: Brief): Brief {
    brief.(contentHash := BriefHash(brief.body, brief.summary))
  }

  // Validating the stored JSON of a brief gives the brief back; anything else is refused.
  function ParseBrief(content: Content): Option<Brief> {
    if content.JsonContent? then Some(content.brief) else None
  }

  // The pair of artifacts that a brief is stored as, in the order of their ids.
  function BriefArtifacts(revision: nat, brief: Brief): seq<(ArtifactId, Artifact)> {
    [ (BriefJsonId(revision), Artifact(DecisionBriefJson, ApplicationJson, JsonContent(brief), brief.contentHash)),
      (BriefMarkdownId(revision), Artifact(DecisionBriefMarkdown, TextMarkdown, MarkdownContent(brief), brief.contentHash)) ]
  }

  // Inserting rows by primary key: refused (an integrity error) when any key is taken or repeated.
  predicate CanInsert(table: map<ArtifactId, Artifact>, rows: seq<(ArtifactId, Artifact)>) {
    && (forall i | 0 <= i < |rows| :: rows[i].0 !in table)
    && (forall i, j | 0 <= i < j < |rows| :: rows[i].0 != rows[j].0)
  }

  function InsertAll(table: map<ArtifactId, Artifact>, rows: seq<(ArtifactId, Artifact)>): map<ArtifactId, Artifact>
    decreases rows
  {
    if rows == [] then table else InsertAll(table[rows[0].0 := rows[0].1], rows[1..])
  }

  // Evidence verification --------------------------------------------------------------

  datatype Origin = NoOrigin | DeclaredFixture | Human

  datatype VerificationState = Unverified | Verified | RejectedEvidence

  // `eligible` is the verdict of the deterministic preflight over the immutable row.
  datatype Evidence = Evidence(declaredFixture: bool, eligible: bool)

  datatype VerificationAction = VerifyEvidence | RejectEvidence

  datatype VerificationRequest = VerificationRequest(
    id: VerificationId,
    fingerprint: Fingerprint,
    expectedRevision: nat,
    action: VerificationAction,
    reason: Option<string>)

  datatype VerificationDecision = VerificationDecision(
    id: VerificationId,
    evidence: EvidenceId,
    fingerprint: Fingerprint,
    revision: nat,
    action: VerificationAction,
    request: VerificationRequest)

  datatype Projection = Projection(
    state: VerificationState,
    origin: Origin,
    revision: nat,
    decision: Option<VerificationId>)

  // Reviews ----------------------------------------------------------------------------

  datatype Bundle = Bundle(review: ReviewId, required: bool)

  datatype WorkflowStatus =
    | CheckpointPending
    | WaitingDecision
    | ResumePending
    | Resuming
    | ResolutionPending
    | Approved
    | Rejected
    | Superseded
    | ManualRecovery
  {
    predicate Active() {
      CheckpointPending? || WaitingDecision? || ResumePending? || Resuming? || ResolutionPending?
    }

    // A worker may take the workflow up when its lease is free.
    predicate Claimable() {
      CheckpointPending? || ResumePending? || Resuming? || ResolutionPending?
    }

    // An accepted decision is on its way to a resolution.
    predicate Deciding() {
      ResumePending? || Resuming? || ResolutionPending?
    }

    // The statuses in which a worker may hold the lease.
    predicate Leasable() {
      CheckpointPending? || Resuming? || ResolutionPending?
    }
  }

  datatype Workflow = Workflow(
    review: ReviewId,
    status: WorkflowStatus,
    decision: Option<DecisionId>,
    owner: Option<WorkerId>,
    expires: Option<Instant>,
    attemptCount: nat,
    lastError: Option<Code>,
    createdAt: Instant)

  datatype AttemptOutcome =
    | CheckpointCreated
    | CheckpointReconciled
    | LeaseExpired
    | Retry
    | SentToManualRecovery
    | OutcomeApproved
    | OutcomeRejected

  // An attempt without an outcome is open (completed_at IS NULL).
  datatype Attempt = Attempt(worker: WorkerId, outcome: Option<AttemptOutcome>)

  datatype DecisionRequest = DecisionRequest(
    id: DecisionId,
    revision: nat,
    action: ReviewAction,
    reason: Option<string>,
    expectedVersion: nat)

  datatype ReviewDecision = ReviewDecision(
    review: ReviewId,
    revision: nat,
    action: ReviewAction,
    reason: Option<string>,
    acceptedVersion: nat)

  datatype Resolution = Resolution(decision: DecisionId, action: ReviewAction, artifactIds: seq<ArtifactId>)

  // Publications -----------------------------------------------------------------------

  datatype PublicationStatus = PublishedForReview | PublishedReady | PublishedBlocked | Stale

  datatype Publication = Publication(
    id: PublicationId,
    revision: nat,
    snapshot: SnapshotId,
    review: ReviewId,
    status: PublicationStatus,
    current: bool,
    artifactIds: seq<ArtifactId>,
    contentHash: Hash,
    supersedes: Option<PublicationId>)

  // One run's rows ---------------------------------------------------------------------

  datatype RunState = RunState(
    id: RunId,
    row: RunRow,
    segments: map<nat, SegmentId>,           // UNIQUE(run_id, sequence)
    evidence: map<EvidenceId, Evidence>,
    packets: nat,
    bundles: map<nat, Bundle>,               // UNIQUE(run_id, revision)
    artifacts: map<ArtifactId, Artifact>,    // PRIMARY KEY(run_id, artifact_id)
    workflows: map<nat, Workflow>,           // UNIQUE(run_id, review_revision)
    attempts: map<(nat, nat), Attempt>,      // PRIMARY KEY(workflow_id, attempt)
    decisions: map<DecisionId, ReviewDecision>,
    resolutions: map<ReviewId, Resolution>,  // UNIQUE(run_id, review_id)
    publications: seq<Publication>,          // in insertion order
    ledger: seq<VerificationDecision>,       // in insertion order
    snapshots: set<SnapshotId>)

  // Outcomes of a step -----------------------------------------------------------------

  datatype Code =
    | InvalidArgument
    | StaleRunWrite
    | IntegrityError
    | RunNotFound
    | ReviewNotFound
    | ReviewSuperseded
    | ReviewNotWaiting
    | ReviewAlreadyDecided
    | DecisionIdConflict
    | UnsupportedReviewProfile
    | StaleStateVersion
    | NothingToClaim
    | PostReviewSegmentConflict
    | LeaseNotOwned
    | LeaseNotExpired
    | CheckpointNotPending
    | CheckpointDecisionMismatch
    | CheckpointCorrupt
    | CheckpointUnavailable
    | ResumeAttemptNotFound
    | ReviewNotRetryable
    | ReviewDecisionMissing
    | DecisionBriefNotFound
    | ResolutionResultMismatch
    | ReviewResolutionConflict
    | ReviewPayloadInvalid
    | ReviewWorkerFailed
    | EvidenceNotFound
    | EvidenceFingerprintMismatch
    | EvidencePreflightBlocked
    | VerificationIdConflict
    | VerificationRevisionConflict
    | VerificationPublicationConflict
    | PublicationBuildFailed

  // A step commits a new state (a replay commits without a new effect of its own) or aborts
  // with a code and no effect at all.
  datatype Step = Commit(state: RunState, replay: bool) | Abort(code: Code)
}
