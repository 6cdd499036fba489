/** Finalising a publication keeps the invariant of a run: it repairs a missing workflow,
    replays, or publishes the next revision. */
module FinalizationPreservation {
  import opened ReviewTypes
  import opened Publications
  import opened ReviewResolution
  import opened RunInvariant
  import opened PublicationPreservation
  import opened VerificationPreservation

  lemma SnapshotKeepsVerification(s: RunState, t: RunState)
    requires Verification(s) && t == s.(snapshots := t.snapshots) && s.snapshots <= t.snapshots
    ensures Verification(t)
  {
    forall i | 0 <= i < |t.ledger| ensures LedgerRow(t, i) { assert LedgerRow(s, i); }
    forall i | 0 <= i < |t.publications| ensures SnapshotKept(t, i) { assert SnapshotKept(s, i); }
  }

  lemma SnapshotKeepsChain(s: RunState, t: RunState)
    requires Chain(s) && t == s.(snapshots := t.snapshots)
    ensures Chain(t)
  {
    forall i | 0 <= i < |t.publications| ensures ChainLink(t, i) { assert ChainLink(s, i); }
  }

  lemma SnapshotKeepsPublished(s: RunState, t: RunState)
    requires Started(s) && Published(s) && Artifacts(s) && t == s.(snapshots := t.snapshots)
    ensures Started(t) && Published(t) && Artifacts(t)
  {
    forall k | k in t.bundles ensures BriefStored(t, k) { assert BriefStored(s, k); }
    forall k: nat ensures ReviewedStored(t, k) {
      assert ReviewedStored(s, k);
    }
  }

  lemma SnapshotKeeps(s: RunState, t: RunState)
    requires Inv(s) && t == s.(snapshots := t.snapshots) && s.snapshots <= t.snapshots
    ensures Inv(t)
  {
    SameBundles(s, t);
    SameLeases(s, t);
    SameDecisions(s, t);
    SnapshotKeepsChain(s, t);
    SnapshotKeepsPublished(s, t);
    SnapshotKeepsVerification(s, t);
  }

  lemma FinalizeSnapshotKeeps(s: RunState)
    requires Inv(s)
    ensures Inv(FinalizeSnapshot(s).state)
  {
    SnapshotKeeps(s, FinalizeSnapshot(s).state);
  }

  // A new workflow for the revision under review -----------------------------------------

  predicate NoneActive(s: RunState) {
    forall k | k in s.workflows :: !s.workflows[k].status.Active()
  }

  // `t` has one more workflow, at m, and the run waits for its review.
  ghost predicate Opened(s: RunState, t: RunState, m: nat, now: Instant) {
    && NoneActive(s) && m !in s.workflows
    && m in t.bundles && t.bundles[m].required
    && t.workflows == s.workflows[m := NewWorkflow(t.bundles[m].review, now)]
    && t.row == RequireReview(s.row)
    && t.attempts == s.attempts && t.decisions == s.decisions && t.resolutions == s.resolutions
  }

  lemma OpenedKeepsLeases(s: RunState, t: RunState, m: nat, now: Instant)
    requires Leases(s) && Opened(s, t, m, now)
    ensures Leases(t)
  {
    forall k | k in t.workflows ensures LeaseKept(t, k) {
      if k != m { assert LeaseKept(s, k); }
    }
  }

  lemma OpenedKeepsDecided(s: RunState, t: RunState, m: nat, now: Instant)
    requires Decided(s) && Opened(s, t, m, now)
    ensures Decided(t)
  {
    forall k | k in t.workflows ensures DecisionKept(t, k) {
      if k != m { assert DecisionKept(s, k); }
    }
    forall id | id in t.decisions ensures DecisionOwned(t, id) { assert DecisionOwned(s, id); }
    forall r | r in t.resolutions ensures ResolutionOwned(t, r) { assert ResolutionOwned(s, r); }
  }

  // Repair -------------------------------------------------------------------------------

  ghost predicate Repaired(s: RunState, t: RunState, now: Instant) {
    && s.publications != [] && Live(s) && s.row.delivery == ReviewRequired
    && Opened(s, t, |s.publications|, now)
    && t == s.(workflows := t.workflows, row := t.row)
  }

  lemma RepairOpens(s: RunState, i: nat, now: Instant)
    requires Bundled(s) && Chain(s) && Published(s)
    requires i < |s.publications| && s.publications[i].current
    ensures var step := FinalizeAgain(s, i, now);
      step.Commit? && !step.replay ==> Repaired(s, step.state, now)
  {
    assert ChainLink(s, i);
    assert Standing(s);
  }

  lemma RepairedKeepsPublished(s: RunState, t: RunState, now: Instant)
    requires Bundled(s) && Published(s) && Repaired(s, t, now)
    ensures Published(t)
  {
    assert Standing(s) && Standing(t);
  }

  lemma RepairedKeepsRows(s: RunState, t: RunState, now: Instant)
    requires Bundled(s) && Started(s) && Repaired(s, t, now)
    ensures Bundled(t) && Started(t)
  {
  }

  lemma RepairedKeepsArtifacts(s: RunState, t: RunState, now: Instant)
    requires Artifacts(s) && Repaired(s, t, now)
    ensures Artifacts(t)
  {
    forall k | k in t.bundles ensures BriefStored(t, k) { assert BriefStored(s, k); }
    forall k: nat ensures ReviewedStored(t, k) {
      assert ReviewedStored(s, k);
    }
  }

  lemma RepairedKeepsChain(s: RunState, t: RunState, now: Instant)
    requires Chain(s) && Verification(s) && Repaired(s, t, now)
    ensures Chain(t) && Verification(t)
  {
    forall i | 0 <= i < |t.publications| ensures ChainLink(t, i) { assert ChainLink(s, i); }
    forall i | 0 <= i < |t.ledger| ensures LedgerRow(t, i) { assert LedgerRow(s, i); }
    forall i | 0 <= i < |t.publications| ensures SnapshotKept(t, i) { assert SnapshotKept(s, i); }
  }

  lemma RepairedKeeps(s: RunState, t: RunState, now: Instant)
    requires Inv(s) && Repaired(s, t, now)
    ensures Inv(t)
  {
    OpenedKeepsLeases(s, t, |s.publications|, now);
    OpenedKeepsDecided(s, t, |s.publications|, now);
    RepairedKeepsPublished(s, t, now);
    RepairedKeepsRows(s, t, now);
    RepairedKeepsArtifacts(s, t, now);
    RepairedKeepsChain(s, t, now);
  }

  // The next revision --------------------------------------------------------------------

  function NewPublication(s: RunState, review: ReviewId, brief: Brief): Publication {
    var m := |s.publications| + 1;
    var snapshot := EffectiveSnapshot(s);
    Publication(PublicationId(s.id, m, snapshot), m, snapshot, review, PublishedForReview, true,
      [BriefJsonId(m), BriefMarkdownId(m)], brief.contentHash,
      if m == 1 then None else Some(s.publications[m - 2].id))
  }

  ghost predicate Revised(s: RunState, t: RunState, review: ReviewId, brief: Brief, now: Instant) {
    var m := |s.publications| + 1;
    && !Live(s) && AdoptedIfBundled(s) && s.row.profile == Talent && s.packets > 0
    && review.run == s.id && review.revision == m
    && m !in s.bundles && EffectiveSnapshot(s) in s.snapshots
    && Opened(s, t, m, now)
    && t == s.(workflows := t.workflows, row := t.row, artifacts := t.artifacts,
               bundles := s.bundles[m := Bundle(review, true)],
               publications := s.publications + [NewPublication(s, review, brief)])
    && t.artifacts == s.artifacts[BriefJsonId(m) := BriefArtifacts(m, brief)[0].1]
                                 [BriefMarkdownId(m) := BriefArtifacts(m, brief)[1].1]
  }

  lemma InsertPair(table: map<ArtifactId, Artifact>, rows: seq<(ArtifactId, Artifact)>)
    requires |rows| == 2
    ensures InsertAll(table, rows) == table[rows[0].0 := rows[0].1][rows[1].0 := rows[1].1]
  {
    var rest := rows[1..];
    var once := table[rows[0].0 := rows[0].1];
    assert rest[0] == rows[1] && rest[1..] == [];
    assert InsertAll(once, rest) == InsertAll(once[rest[0].0 := rest[0].1], []);
  }

  lemma NewestIsLast(s: RunState)
    requires Chain(s) && s.publications != []
    ensures NewestIndex(s.publications) == Some(|s.publications| - 1)
  {
    var index := NewestIndex(s.publications).value;
    assert ChainLink(s, index) && ChainLink(s, |s.publications| - 1);
  }

  // With no current publication, nothing is active and the next revision is unused.
  lemma NothingLive(s: RunState)
    requires Chain(s) && Published(s) && AdoptedIfBundled(s) && CurrentIndex(s.publications).None?
    ensures !Live(s) && NoneActive(s)
    ensures NewestIndex(s.publications) == (if s.publications == [] then None else Some(|s.publications| - 1))
    ensures s.publications != [] ==> s.publications[|s.publications| - 1].revision == |s.publications|
  {
    CurrentIsNewest(s);
    if s.publications != [] { NewestIsLast(s); assert ChainLink(s, |s.publications| - 1); }
  }

  lemma PublishRevises(s: RunState, build: Build, now: Instant)
    requires Chain(s) && Published(s) && AdoptedIfBundled(s) && EffectiveSnapshot(s) in s.snapshots
    requires CurrentIndex(s.publications).None?
    ensures var step := PublishRevision(s, EffectiveSnapshot(s), build, now);
      step.Commit? ==>
        && !step.replay
        && build.Built?
        && var review := BuiltReview(s, |s.publications| + 1, build);
           Revised(s, step.state, review, BuiltBrief(review, build), now)
  {
    NothingLive(s);
    hide Chain, Published, EffectiveSnapshot;
    if build.Built? { RevisionRevises(s, build, now); }
  }

  lemma RevisionRevises(s: RunState, build: Build, now: Instant)
    requires build.Built? && AdoptedIfBundled(s) && EffectiveSnapshot(s) in s.snapshots && !Live(s) && NoneActive(s)
    requires NewestIndex(s.publications) == (if s.publications == [] then None else Some(|s.publications| - 1))
    requires s.publications != [] ==> s.publications[|s.publications| - 1].revision == |s.publications|
    ensures var step := PublishRevision(s, EffectiveSnapshot(s), build, now);
      step.Commit? ==>
        && !step.replay
        && var review := BuiltReview(s, |s.publications| + 1, build);
           Revised(s, step.state, review, BuiltBrief(review, build), now)
  {
    hide EffectiveSnapshot, NewestIndex, InsertAll, CanInsert;
    var m := |s.publications| + 1;
    InsertPair(s.artifacts, BriefArtifacts(m, BuiltBrief(BuiltReview(s, m, build), build)));
  }

  lemma RevisedKeepsBundled(s: RunState, t: RunState, review: ReviewId, brief: Brief, now: Instant)
    requires Bundled(s) && Started(s) && Revised(s, t, review, brief, now)
    ensures Bundled(t) && Started(t)
  {
  }

  lemma RevisedKeepsChain(s: RunState, t: RunState, review: ReviewId, brief: Brief, now: Instant)
    requires Chain(s) && Revised(s, t, review, brief, now)
    ensures Chain(t)
  {
    var n := |s.publications|;
    if n == 0 { assert s.bundles.Keys <= {1} && 1 !in s.bundles; }
    forall i | 0 <= i < |t.publications| ensures ChainLink(t, i) {
      if i < n { assert ChainLink(s, i); }
      if i > 0 { assert ChainLink(s, i - 1); }
    }
  }

  lemma RevisedKeepsPublished(s: RunState, t: RunState, review: ReviewId, brief: Brief, now: Instant)
    requires Published(s) && Revised(s, t, review, brief, now)
    ensures Published(t)
  {
    assert Standing(t);
  }

  lemma RevisedKeepsVerification(s: RunState, t: RunState, review: ReviewId, brief: Brief, now: Instant)
    requires Verification(s) && Revised(s, t, review, brief, now)
    ensures Verification(t)
  {
    forall i | 0 <= i < |t.ledger| ensures LedgerRow(t, i) { assert LedgerRow(s, i); }
    forall i | 0 <= i < |t.publications| ensures SnapshotKept(t, i) {
      if i < |s.publications| { assert SnapshotKept(s, i); }
    }
  }

  lemma RevisedKeepsArtifacts(s: RunState, t: RunState, review: ReviewId, brief: Brief, now: Instant)
    requires Artifacts(s) && Revised(s, t, review, brief, now)
    ensures Artifacts(t)
  {
    var m := |s.publications| + 1;
    forall k | k in t.bundles ensures BriefStored(t, k) {
      if k != m { assert BriefStored(s, k); }
    }
    forall k: nat ensures ReviewedStored(t, k) {
      assert ReviewedStored(s, k);
    }
    BriefPairShown(t.artifacts, m);
    assert Shown(t, t.publications[|s.publications|]);
  }

  lemma BriefPairShown(artifacts: map<ArtifactId, Artifact>, m: nat)
    requires BriefJsonId(m) in artifacts && artifacts[BriefJsonId(m)].media == ApplicationJson
    requires BriefMarkdownId(m) in artifacts && artifacts[BriefMarkdownId(m)].media == TextMarkdown
    ensures FirstMarkdown(artifacts, [BriefJsonId(m), BriefMarkdownId(m)]) == Some(BriefMarkdownId(m))
  {
    assert [BriefJsonId(m), BriefMarkdownId(m)][1..] == [BriefMarkdownId(m)];
  }

  lemma RevisedKeeps(s: RunState, t: RunState, review: ReviewId, brief: Brief, now: Instant)
    requires Inv(s) && Revised(s, t, review, brief, now)
    ensures Inv(t)
  {
    OpenedKeepsLeases(s, t, |s.publications| + 1, now);
    OpenedKeepsDecided(s, t, |s.publications| + 1, now);
    RevisedKeepsBundled(s, t, review, brief, now);
    RevisedKeepsChain(s, t, review, brief, now);
    RevisedKeepsPublished(s, t, review, brief, now);
    RevisedKeepsVerification(s, t, review, brief, now);
    RevisedKeepsArtifacts(s, t, review, brief, now);
  }

  // The whole step -----------------------------------------------------------------------

  // The state in which the step looks for a current publication.
  function Prepared(s: RunState): RunState {
    var adopted := AdoptBaseline(s);
    adopted.(snapshots := adopted.snapshots + {EffectiveSnapshot(adopted)})
  }

  lemma PreparedKeeps(s: RunState)
    requires Inv(s)
    ensures Inv(Prepared(s)) && AdoptedIfBundled(Prepared(s))
  {
    AdoptKeeps(s);
    AdoptionReaches(s);
    SnapshotKeeps(AdoptBaseline(s), Prepared(s));
  }

  predicate PreparedFinalization(t: RunState, build: Build, now: Instant, step: Step) {
    match CurrentIndex(t.publications)
    case Some(i) => t.publications[i].snapshot == EffectiveSnapshot(t) && step == FinalizeAgain(t, i, now)
    case None => step == PublishRevision(t, EffectiveSnapshot(t), build, now)
  }

  lemma FinalizationCases(s: RunState, expectedVersion: nat, build: Build, now: Instant)
    ensures EffectiveSnapshot(Prepared(s)) in Prepared(s).snapshots
    ensures var step := FinalizePublication(s, expectedVersion, build, now);
      step.Commit? ==> PreparedFinalization(Prepared(s), build, now, step)
  {
  }

  lemma AgainKeeps(s: RunState, i: nat, now: Instant)
    requires Inv(s) && i < |s.publications| && s.publications[i].current
    ensures var step := FinalizeAgain(s, i, now); step.Commit? ==> Inv(step.state)
  {
    var step := FinalizeAgain(s, i, now);
    if step.Commit? && !step.replay {
      RepairOpens(s, i, now);
      RepairedKeeps(s, step.state, now);
    }
  }

  lemma FinalizePublicationKeeps(s: RunState, expectedVersion: nat, build: Build, now: Instant)
    requires Inv(s)
    ensures var step := FinalizePublication(s, expectedVersion, build, now); step.Commit? ==> Inv(step.state)
  {
    var t := Prepared(s);
    FinalizationCases(s, expectedVersion, build, now);
    PreparedKeeps(s);
    var step := FinalizePublication(s, expectedVersion, build, now);
    if step.Commit? {
      match CurrentIndex(t.publications)
      case Some(i) => AgainKeeps(t, i, now);
      case None =>
        PublishRevises(t, build, now);
        var review := BuiltReview(t, |t.publications| + 1, build);
        RevisedKeeps(t, step.state, review, BuiltBrief(review, build), now);
    }
  }

  // What finalising leaves alone: the ledger and the execution status; and it writes the run's row
  // at most once.
  predicate FinalizationFrame(s: RunState, t: RunState) {
    && t.ledger == s.ledger
    && t.row.execution == s.row.execution
    && (t.row == s.row || t.row == RequireReview(s.row))
  }

  lemma PreparedFrame(s: RunState)
    ensures Prepared(s).ledger == s.ledger && Prepared(s).row == s.row
  {
  }

  lemma AgainFrame(t: RunState, i: nat, now: Instant)
    requires i < |t.publications|
    ensures var step := FinalizeAgain(t, i, now); step.Commit? ==> FinalizationFrame(t, step.state)
  {
  }

  lemma RevisionFrame(t: RunState, snapshot: SnapshotId, build: Build, now: Instant)
    ensures var step := PublishRevision(t, snapshot, build, now); step.Commit? ==> FinalizationFrame(t, step.state)
  {
    hide NewestIndex, InsertAll, PublicationInsertable, BriefArtifacts, BuiltBrief, BuiltReview;
  }

  lemma FinalizePublicationFrame(s: RunState, version: nat, build: Build, now: Instant)
    ensures var step := FinalizePublication(s, version, build, now); step.Commit? ==> FinalizationFrame(s, step.state)
  {
    hide FinalizePublication, Prepared, FinalizeAgain, PublishRevision, EffectiveSnapshot;
    var t := Prepared(s);
    FinalizationCases(s, version, build, now);
    PreparedFrame(s);
    match CurrentIndex(t.publications) {
      case Some(i) => AgainFrame(t, i, now);
      case None => RevisionFrame(t, EffectiveSnapshot(t), build, now);
    }
  }
}
