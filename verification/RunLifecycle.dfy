/** Creation, fenced transition and finalisation of a run (api/run_repository.py), with the
    arguments the server passes (api/server.py). */
module RunLifecycle {
  import opened ReviewTypes
  import opened Publications

  function CreateRun(id: RunId, profile: Profile): RunState {
    RunState(id, RunRow(profile, Pending, NotRequired, DeliveryPending, 0),
      map[0 := InitialSegment(id)], map[], 0, map[], map[], map[], map[], map[], map[], [], [], {})
  }

  predicate Fenced(s: RunState, expectedVersion: nat, allowed: set<Execution>) {
    s.row.version == expectedVersion && s.row.execution in allowed
  }

  function Given<T>(value: Option<T>, otherwise: T): T {
    if value.Some? then value.value else otherwise
  }

  // transition_run: the statuses that are given are written.
  function Transition(s: RunState, expectedVersion: nat, allowed: set<Execution>,
                      execution: Option<Execution>, review: Option<ReviewFlag>, delivery: Option<Delivery>): Step {
    if allowed == {} then Abort(InvalidArgument)
    else if !Fenced(s, expectedVersion, allowed) then Abort(StaleRunWrite)
    else Commit(s.(row := RunRow(s.row.profile, Given(execution, s.row.execution), Given(review, s.row.review),
                                 Given(delivery, s.row.delivery), s.row.version + 1)), false)
  }

  // The one transition the server makes before it finalises a run.
  function TransitionToRunning(s: RunState, expectedVersion: nat, allowed: set<Execution>): Step {
    Transition(s, expectedVersion, allowed, Some(Running), None, None)
  }

  datatype EvidenceEntry = EvidenceEntry(fingerprint: Fingerprint, evidence: Evidence)

  datatype FinalArguments = FinalArguments(
    segment: SegmentId,
    expectedVersion: nat,
    allowed: set<Execution>,
    execution: Execution,
    delivery: Delivery,
    review: ReviewFlag,
    entries: seq<EvidenceEntry>,
    packets: nat,
    bundle: Option<Bundle>,
    artifacts: seq<(ArtifactId, Artifact)>,
    workflow: bool,
    publishing: bool)

  predicate CanInsertEvidence(s: RunState, entries: seq<EvidenceEntry>) {
    && (forall i | 0 <= i < |entries| :: EvidenceId(s.id, entries[i].fingerprint) !in s.evidence)
    && (forall i, j | 0 <= i < j < |entries| :: entries[i].fingerprint != entries[j].fingerprint)
  }

  function InsertEvidence(run: RunId, table: map<EvidenceId, Evidence>, entries: seq<EvidenceEntry>): map<EvidenceId, Evidence>
    decreases entries
  {
    if entries == [] then table
    else InsertEvidence(run, table[EvidenceId(run, entries[0].fingerprint) := entries[0].evidence], entries[1..])
  }

  function FinalRow(s: RunState, a: FinalArguments): RunRow {
    s.row.(execution := a.execution, review := a.review, delivery := a.delivery, version := s.row.version + 1)
  }

  function FinalizeRun(s: RunState, a: FinalArguments, now: Instant): Step {
    if a.allowed == {} then Abort(InvalidArgument)
    else if !Fenced(s, a.expectedVersion, a.allowed) then Abort(StaleRunWrite)
    else if a.segment !in s.segments.Values then Abort(InvalidArgument)
    else if !CanInsertEvidence(s, a.entries) then Abort(IntegrityError)
    else if a.bundle.Some? && a.bundle.value.review.revision in s.bundles then Abort(IntegrityError)
    else if a.workflow && (a.bundle.None? || !a.bundle.value.required) then Abort(InvalidArgument)
    else if a.workflow && a.bundle.value.review.revision in s.workflows then Abort(IntegrityError)
    else if !CanInsert(s.artifacts, a.artifacts) then Abort(IntegrityError)
    else
      var stored := s.(
        row := FinalRow(s, a),
        evidence := InsertEvidence(s.id, s.evidence, a.entries),
        packets := s.packets + a.packets,
        bundles := if a.bundle.None? then s.bundles else s.bundles[a.bundle.value.review.revision := a.bundle.value],
        workflows := if a.workflow then s.workflows[a.bundle.value.review.revision := NewWorkflow(a.bundle.value.review, now)]
                     else s.workflows,
        artifacts := InsertAll(s.artifacts, a.artifacts));
      Commit(if a.publishing then AdoptBaseline(stored) else stored, false)
  }

  // What a brief says of a review that nobody has decided.
  function OpenSummary(review: ReviewId, required: bool): ReviewSummary {
    ReviewSummary(review.triggers, if required then Required else NotRequired, required, None)
  }

  // What the server passes: a failure, or the completed result of the run's own profile.
  predicate FailureArguments(a: FinalArguments) {
    && a.execution == Failed && a.delivery == DeliveryFailed && a.review == NotRequired
    && a.bundle == None && a.artifacts == [] && !a.workflow
  }

  predicate TalentArguments(id: RunId, a: FinalArguments) {
    && a.bundle.Some?
    && var review := a.bundle.value.review;
    && review.run == id && review.revision == 1
    && a.bundle.value.required == (review.triggers != [])
    && a.review == (if a.bundle.value.required then Required else NotRequired)
    && a.delivery == (if a.bundle.value.required then ReviewRequired else Ready)
    && (a.workflow ==> a.bundle.value.required)
    && |a.artifacts| == 2
    && a.artifacts[0].1.content.JsonContent?
    && var brief := a.artifacts[0].1.content.brief;
    && brief.summary == OpenSummary(review, a.bundle.value.required)
    && brief.contentHash == BriefHash(brief.body, brief.summary)
    && a.artifacts == BriefArtifacts(1, brief)
  }

  predicate PlainArguments(profile: Profile, a: FinalArguments) {
    && a.delivery == Ready && a.review == NotRequired && a.bundle == None && !a.workflow
    && (profile == Generic ==> |a.artifacts| == 1 && a.artifacts[0].0 == ReportId && a.artifacts[0].1.media == TextMarkdown)
    && (profile != Generic ==> a.artifacts == [])
  }

  predicate ServerArguments(id: RunId, profile: Profile, a: FinalArguments) {
    && a.segment == InitialSegment(id)
    && (a.allowed == {Pending} || a.allowed == {Running})
    && (FailureArguments(a) ||
        (a.execution == Completed &&
         (if profile == Talent then TalentArguments(id, a) else PlainArguments(profile, a))))
  }
}
