/** Accepting and resolving a review decision keep the invariant of a run. */
module ReviewPreservation {
  import opened ReviewTypes
  import opened Publications
  import opened ReviewWorkflows
  import opened ReviewResolution
  import opened RunInvariant
  import opened FinalizationPreservation

  // Rows that neither step touches, or only adds to.
  lemma SameVerification(s: RunState, t: RunState)
    requires Verification(s) && |t.publications| == |s.publications|
    requires t.id == s.id && t.evidence == s.evidence && t.ledger == s.ledger && t.snapshots == s.snapshots && t.bundles == s.bundles
    requires forall i | 0 <= i < |s.publications| ::
      t.publications[i].snapshot == s.publications[i].snapshot && t.publications[i].current == s.publications[i].current
    ensures Verification(t)
  {
    forall i | 0 <= i < |t.ledger| ensures LedgerRow(t, i) { assert LedgerRow(s, i); }
    forall i | 0 <= i < |t.publications| ensures SnapshotKept(t, i) { assert SnapshotKept(s, i); }
  }

  predicate UnderReview(s: RunState) {
    Live(s) && (s.publications != [] ==> s.publications[|s.publications| - 1].status == PublishedForReview)
  }

  // Only the newest, live revision can be active.
  lemma ActiveAlone(s: RunState, k: nat)
    requires Bundled(s) && Published(s) && k in s.workflows && s.workflows[k].status.Active()
    ensures Live(s) && k == Newest(s) && Standing(s) && UnderReview(s)
    ensures forall j | j in s.workflows && j != k :: !s.workflows[j].status.Active()
    ensures s.row.delivery == ReviewRequired
  {
  }

  // Accepting a decision -----------------------------------------------------------------

  ghost predicate DecisionTaken(s: RunState, t: RunState, k: nat, id: DecisionId, d: ReviewDecision) {
    && k in s.workflows && s.workflows[k].status == WaitingDecision && s.row.execution == Completed
    && id !in s.decisions && d.review == s.workflows[k].review && d.revision == k && d.acceptedVersion == s.row.version + 1
    && t == s.(decisions := s.decisions[id := d],
               workflows := s.workflows[k := s.workflows[k].(decision := Some(id), status := ResumePending)],
               row := s.row.(version := s.row.version + 1))
  }

  lemma TakenKeepsDecided(s: RunState, t: RunState, k: nat, id: DecisionId, d: ReviewDecision)
    requires Bundled(s) && Decided(s) && DecisionTaken(s, t, k, id, d)
    requires forall j | j in s.workflows && j != k :: !s.workflows[j].status.Active()
    ensures Decided(t)
  {
    assert DecisionKept(s, k);
    forall j | j in t.workflows ensures DecisionKept(t, j) { assert DecisionKept(s, j); }
    forall i | i in t.decisions ensures DecisionOwned(t, i) { if i != id { assert DecisionOwned(s, i); } }
    forall r | r in t.resolutions ensures ResolutionOwned(t, r) { assert ResolutionOwned(s, r); }
  }

  lemma TakenKeepsLeases(s: RunState, t: RunState, k: nat, id: DecisionId, d: ReviewDecision)
    requires Leases(s) && DecisionTaken(s, t, k, id, d)
    ensures Leases(t)
  {
    forall j | j in t.workflows ensures LeaseKept(t, j) { assert LeaseKept(s, j); }
  }

  lemma TakenKeepsRows(s: RunState, t: RunState, k: nat, id: DecisionId, d: ReviewDecision)
    requires Bundled(s) && Started(s) && Chain(s) && DecisionTaken(s, t, k, id, d)
    ensures Bundled(t) && Started(t) && Chain(t)
  {
    forall i | 0 <= i < |t.publications| ensures ChainLink(t, i) { assert ChainLink(s, i); }
  }

  lemma TakenKeepsPublished(s: RunState, t: RunState, k: nat, id: DecisionId, d: ReviewDecision)
    requires Bundled(s) && Published(s) && DecisionTaken(s, t, k, id, d)
    ensures Published(t)
  {
    ActiveAlone(s, k);
    assert Standing(t);
  }

  lemma TakenKeepsArtifacts(s: RunState, t: RunState, k: nat, id: DecisionId, d: ReviewDecision)
    requires Artifacts(s) && DecisionTaken(s, t, k, id, d)
    ensures Artifacts(t)
  {
    forall j | j in t.bundles ensures BriefStored(t, j) { assert BriefStored(s, j); }
    forall j: nat ensures ReviewedStored(t, j) {
      assert ReviewedStored(s, j);
    }
  }

  lemma AcceptanceTakes(s: RunState, takenElsewhere: bool, review: ReviewId, request: DecisionRequest)
    ensures var step := AcceptReviewDecision(s, takenElsewhere, review, request);
      step.Commit? ==> if step.replay then step.state == s else
        DecisionTaken(s, step.state, request.revision, request.id,
          ReviewDecision(review, request.revision, request.action, request.reason, s.row.version + 1))
  {
  }

  lemma AcceptReviewDecisionKeeps(s: RunState, takenElsewhere: bool, review: ReviewId, request: DecisionRequest)
    requires Inv(s)
    ensures var step := AcceptReviewDecision(s, takenElsewhere, review, request); step.Commit? ==> Inv(step.state)
  {
    AcceptanceTakes(s, takenElsewhere, review, request);
    var step := AcceptReviewDecision(s, takenElsewhere, review, request);
    if step.Commit? && !step.replay {
      var t, k, id := step.state, request.revision, request.id;
      ActiveAlone(s, k);
      TakenKeepsDecided(s, t, k, id, t.decisions[id]);
      TakenKeepsLeases(s, t, k, id, t.decisions[id]);
      TakenKeepsRows(s, t, k, id, t.decisions[id]);
      TakenKeepsPublished(s, t, k, id, t.decisions[id]);
      TakenKeepsArtifacts(s, t, k, id, t.decisions[id]);
      SameVerification(s, t);
    }
  }

  // Resolving ------------------------------------------------------------------------------

  // What a worker submits: the reviewed form of some brief, for some decision, under the
  // revision of the workflow it claimed.
  function Submit(s: RunState, k: nat, worker: WorkerId, now: Instant, expectedVersion: nat,
                  original: Content, id: DecisionId, d: ReviewDecision): Step {
    match BuildReviewedArtifacts(original, id, d, k)
    case None => Abort(ReviewPayloadInvalid)
    case Some(result) => ResolveReview(s, k, worker, now, expectedVersion, result)
  }

  function ResolvedPublication(p: Publication, d: ReviewDecision, k: nat, hash: Hash): Publication {
    if d.action.Reject? then p.(status := PublishedBlocked)
    else p.(status := PublishedReady, artifactIds := [ReviewedJsonId(k), ReviewedMarkdownId(k)], contentHash := hash)
  }

  ghost predicate ResolutionTaken(s: RunState, t: RunState, k: nat, id: DecisionId, d: ReviewDecision, brief: Brief) {
    && k in s.workflows && s.workflows[k].status == ResolutionPending && s.workflows[k].decision == Some(id)
    && id in s.decisions && s.decisions[id] == d && d.acceptedVersion == s.row.version
    && var w := s.workflows[k];
    && w.review !in s.resolutions
    && t == s.(artifacts := t.artifacts, publications := t.publications, attempts := t.attempts,
               resolutions := s.resolutions[w.review := Resolution(id, d.action, ResolvedArtifactIds(d.action, k))],
               workflows := s.workflows[k := Released(w, TerminalStatus(d.action))],
               row := s.row.(review := Resolved, delivery := if d.action.Approve? then Ready else Blocked,
                             version := s.row.version + 1))
    && t.attempts == CloseAttempt(s, k, if d.action.Approve? then OutcomeApproved else OutcomeRejected)
    && t.artifacts == (if d.action.Reject? then s.artifacts else
         s.artifacts[ReviewedJsonId(k) := ReviewedArtifacts(k, brief)[0].1]
                    [ReviewedMarkdownId(k) := ReviewedArtifacts(k, brief)[1].1])
    && t.publications == (if s.publications == [] then [] else
         s.publications[|s.publications| - 1 :=
           ResolvedPublication(s.publications[|s.publications| - 1], d, k, brief.contentHash)])
  }

  lemma CurrentReviewIsNewest(s: RunState, k: nat)
    requires Bundled(s) && Chain(s) && Published(s)
    requires k in s.workflows && s.workflows[k].status.Active()
    ensures PublicationOf(s.publications, s.workflows[k].review) ==
      if s.publications == [] then None else Some(|s.publications| - 1)
  {
    ActiveAlone(s, k);
    var index := PublicationOf(s.publications, s.workflows[k].review);
    if s.publications != [] { assert ChainLink(s, |s.publications| - 1); }
    if index.Some? { assert ChainLink(s, index.value); }
  }

  // The brief behind a submission; for a rejection, any brief.
  function SubmittedBrief(original: Content, id: DecisionId, d: ReviewDecision, k: nat): Brief {
    match BuildReviewedArtifacts(original, id, d, k)
    case Some(ReviewedResult(Some(brief), _, _)) => brief
    case _ => Brief("", ReviewSummary([], Resolved, false, None), 0, NoHash)
  }

  lemma PairOfIds(k: nat, brief: Brief)
    ensures Ids(ReviewedArtifacts(k, brief)) == [ReviewedJsonId(k), ReviewedMarkdownId(k)]
  {
  }

  // The fields of a submission that resolves the review.
  lemma SubmissionAccepted(s: RunState, k: nat, worker: WorkerId, now: Instant, expectedVersion: nat,
                           original: Content, id: DecisionId, d: ReviewDecision)
    ensures var step := Submit(s, k, worker, now, expectedVersion, original, id, d);
      step.Commit? ==>
        && k in s.workflows
        && BuildReviewedArtifacts(original, id, d, k).Some?
        && (if step.replay then step.state == s else
           && s.workflows[k].status == ResolutionPending
           && s.workflows[k].decision == Some(id)
           && s.workflows[k].review !in s.resolutions
           && id in s.decisions
           && s.decisions[id].action == d.action
           && s.decisions[id].acceptedVersion == s.row.version
           && OpenAttempt(s, k, worker)
           && step.state == Resolve(s, k, id, s.decisions[id], BuildReviewedArtifacts(original, id, d, k).value))
  {
  }

  lemma SubmissionTakes(s: RunState, k: nat, worker: WorkerId, now: Instant, expectedVersion: nat,
                        original: Content, id: DecisionId, d: ReviewDecision)
    requires Bundled(s) && Chain(s) && Published(s)
    ensures var step := Submit(s, k, worker, now, expectedVersion, original, id, d);
      step.Commit? ==> if step.replay then step.state == s else
        && id in s.decisions
        && ResolutionTaken(s, step.state, k, id, s.decisions[id], SubmittedBrief(original, id, d, k))
  {
    SubmissionAccepted(s, k, worker, now, expectedVersion, original, id, d);
    hide Submit, OpenAttempt;
    var step := Submit(s, k, worker, now, expectedVersion, original, id, d);
    if step.Commit? && !step.replay {
      CurrentReviewIsNewest(s, k);
      var brief := SubmittedBrief(original, id, d, k);
      PairOfIds(k, brief);
      InsertPair(s.artifacts, ReviewedArtifacts(k, brief));
      assert Ids([]) == [];
    }
  }

  lemma ResolvedKeepsWorkflows(s: RunState, t: RunState, k: nat, id: DecisionId, d: ReviewDecision, brief: Brief)
    requires Decided(s) && ResolutionTaken(s, t, k, id, d, brief)
    requires forall j | j in s.workflows && j != k :: !s.workflows[j].status.Active()
    ensures forall j | j in t.workflows :: DecisionKept(t, j)
  {
    forall j | j in t.workflows ensures DecisionKept(t, j) { assert DecisionKept(s, j); }
  }

  lemma ResolvedKeepsDecisions(s: RunState, t: RunState, k: nat, id: DecisionId, d: ReviewDecision, brief: Brief)
    requires Decided(s) && ResolutionTaken(s, t, k, id, d, brief)
    ensures forall i | i in t.decisions :: DecisionOwned(t, i)
  {
    forall i | i in t.decisions ensures DecisionOwned(t, i) { assert DecisionOwned(s, i); }
  }

  lemma ResolvedKeepsResolutions(s: RunState, t: RunState, k: nat, id: DecisionId, d: ReviewDecision, brief: Brief)
    requires Bundled(s) && Decided(s) && ResolutionTaken(s, t, k, id, d, brief)
    ensures forall r | r in t.resolutions :: ResolutionOwned(t, r)
  {
    hide DecisionKept, DecisionOwned;
    forall r | r in t.resolutions ensures ResolutionOwned(t, r) {
      if r != s.workflows[k].review { assert ResolutionOwned(s, r); }
    }
  }

  lemma ResolvedKeepsDecided(s: RunState, t: RunState, k: nat, id: DecisionId, d: ReviewDecision, brief: Brief)
    requires Bundled(s) && Published(s) && Decided(s) && ResolutionTaken(s, t, k, id, d, brief)
    ensures Decided(t)
  {
    ActiveAlone(s, k);
    ResolvedKeepsWorkflows(s, t, k, id, d, brief);
    ResolvedKeepsDecisions(s, t, k, id, d, brief);
    ResolvedKeepsResolutions(s, t, k, id, d, brief);
    ResolvedExecution(s, t, k, id, d, brief);
    hide Bundled, Published, ResolutionTaken, DecisionKept, DecisionOwned, ResolutionOwned;
  }

  lemma ResolvedExecution(s: RunState, t: RunState, k: nat, id: DecisionId, d: ReviewDecision, brief: Brief)
    requires ResolutionTaken(s, t, k, id, d, brief)
    ensures t.decisions == s.decisions && t.row.execution == s.row.execution
  {
  }

  lemma ResolvedKeepsVerification(s: RunState, t: RunState, k: nat, id: DecisionId, d: ReviewDecision, brief: Brief)
    requires Verification(s) && Live(s) && ResolutionTaken(s, t, k, id, d, brief)
    ensures Verification(t)
  {
    SameVerification(s, t);
  }

  lemma ResolvedKeepsLeases(s: RunState, t: RunState, k: nat, id: DecisionId, d: ReviewDecision, brief: Brief)
    requires Leases(s) && ResolutionTaken(s, t, k, id, d, brief)
    ensures Leases(t)
  {
    forall j | j in t.workflows ensures LeaseKept(t, j) { assert LeaseKept(s, j); }
  }

  lemma ResolvedKeepsRows(s: RunState, t: RunState, k: nat, id: DecisionId, d: ReviewDecision, brief: Brief)
    requires Bundled(s) && Started(s) && Chain(s) && Live(s) && ResolutionTaken(s, t, k, id, d, brief)
    ensures Bundled(t) && Started(t) && Chain(t)
  {
    forall i | 0 <= i < |t.publications| ensures ChainLink(t, i) {
      assert ChainLink(s, i);
      if i > 0 { assert ChainLink(s, i - 1); }
    }
  }

  lemma ResolvedKeepsPublished(s: RunState, t: RunState, k: nat, id: DecisionId, d: ReviewDecision, brief: Brief)
    requires Bundled(s) && Chain(s) && Published(s) && ResolutionTaken(s, t, k, id, d, brief)
    ensures Published(t)
  {
    ActiveAlone(s, k);
    assert Standing(t);
  }

  lemma ResolvedKeepsShown(s: RunState, t: RunState, k: nat, id: DecisionId, d: ReviewDecision, brief: Brief)
    requires s.publications != [] && Shown(s, s.publications[|s.publications| - 1]) && UnderReview(s) && NeedsReview(s, k)
    requires s.publications[|s.publications| - 1].revision == k
    requires ResolutionTaken(s, t, k, id, d, brief)
    ensures Shown(t, t.publications[|t.publications| - 1])
  {
    ReviewedPairShown(t.artifacts, k);
  }

  lemma ResolvedKeepsStored(s: RunState, t: RunState, k: nat, id: DecisionId, d: ReviewDecision, brief: Brief)
    requires Artifacts(s) && ResolutionTaken(s, t, k, id, d, brief)
    ensures forall j | j in t.bundles :: BriefStored(t, j)
    ensures forall j: nat :: ReviewedStored(t, j)
  {
    hide Shown;
    forall j | j in t.bundles ensures BriefStored(t, j) { assert BriefStored(s, j); }
    forall j: nat ensures ReviewedStored(t, j) {
      if j != k || d.action.Reject? { assert ReviewedStored(s, j); }
    }
  }

  lemma ResolvedKeepsArtifacts(s: RunState, t: RunState, k: nat, id: DecisionId, d: ReviewDecision, brief: Brief)
    requires Artifacts(s) && UnderReview(s) && NeedsReview(s, k) && ResolutionTaken(s, t, k, id, d, brief)
    requires s.publications != [] ==> s.publications[|s.publications| - 1].revision == k
    ensures Artifacts(t)
  {
    ResolvedKeepsStored(s, t, k, id, d, brief);
    if s.publications != [] { ResolvedKeepsShown(s, t, k, id, d, brief); }
    assert t.bundles == s.bundles;
    assert BriefIdsBundled(t) by { hide Shown; }
    hide Shown, ResolutionTaken, ReviewedStored, BriefStored;
  }

  lemma ReviewedPairShown(artifacts: map<ArtifactId, Artifact>, m: nat)
    ensures
      && ReviewedJsonId(m) in artifacts && artifacts[ReviewedJsonId(m)].media == ApplicationJson
      && ReviewedMarkdownId(m) in artifacts && artifacts[ReviewedMarkdownId(m)].media == TextMarkdown
      ==> FirstMarkdown(artifacts, [ReviewedJsonId(m), ReviewedMarkdownId(m)]) == Some(ReviewedMarkdownId(m))
  {
    assert [ReviewedJsonId(m), ReviewedMarkdownId(m)][1..] == [ReviewedMarkdownId(m)];
  }

  lemma ResolvedUnderReview(s: RunState, t: RunState, k: nat, id: DecisionId, d: ReviewDecision, brief: Brief)
    requires Bundled(s) && Chain(s) && Published(s) && ResolutionTaken(s, t, k, id, d, brief)
    ensures Live(s) && UnderReview(s) && NeedsReview(s, k)
    ensures s.publications != [] ==> s.publications[|s.publications| - 1].revision == k
  {
    ActiveAlone(s, k);
    if s.publications != [] { assert ChainLink(s, |s.publications| - 1); }
  }

  lemma ResolvedKeeps(s: RunState, t: RunState, k: nat, id: DecisionId, d: ReviewDecision, brief: Brief)
    requires Inv(s) && ResolutionTaken(s, t, k, id, d, brief)
    ensures Inv(t)
  {
    hide Bundled, Started, Chain, Leases, Decided, Published, Verification, Artifacts, ResolutionTaken, UnderReview, NeedsReview;
    ResolvedUnderReview(s, t, k, id, d, brief);
    ResolvedKeepsDecided(s, t, k, id, d, brief);
    ResolvedKeepsLeases(s, t, k, id, d, brief);
    ResolvedKeepsRows(s, t, k, id, d, brief);
    ResolvedKeepsPublished(s, t, k, id, d, brief);
    ResolvedKeepsArtifacts(s, t, k, id, d, brief);
    ResolvedKeepsVerification(s, t, k, id, d, brief);
  }

  lemma SubmitKeeps(s: RunState, k: nat, worker: WorkerId, now: Instant, expectedVersion: nat,
                    original: Content, id: DecisionId, d: ReviewDecision)
    requires Inv(s)
    ensures var step := Submit(s, k, worker, now, expectedVersion, original, id, d); step.Commit? ==> Inv(step.state)
  {
    SubmissionTakes(s, k, worker, now, expectedVersion, original, id, d);
    var step := Submit(s, k, worker, now, expectedVersion, original, id, d);
    if step.Commit? && !step.replay {
      ResolvedKeeps(s, step.state, k, id, s.decisions[id], SubmittedBrief(original, id, d, k));
    }
  }
}
