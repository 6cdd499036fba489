/** Adoption, withdrawal and finalisation of publications keep the invariant of a run. */
module PublicationPreservation {
  import opened ReviewTypes
  import opened VerificationLedger
  import opened Publications
  import opened ReviewResolution
  import opened RunInvariant

  // Frames: a part of the invariant is kept when the rows it speaks of are.

  lemma SameBundles(s: RunState, t: RunState)
    requires Bundled(s) && t.id == s.id && t.bundles == s.bundles && t.workflows == s.workflows
    requires t.row.profile == s.row.profile && t.row.execution == s.row.execution
    ensures Bundled(t)
  {
  }

  lemma SameLeases(s: RunState, t: RunState)
    requires Leases(s) && t.workflows == s.workflows && t.attempts == s.attempts
    ensures Leases(t)
  {
    forall k | k in t.workflows ensures LeaseKept(t, k) { assert LeaseKept(s, k); }
  }

  lemma SameDecisions(s: RunState, t: RunState)
    requires Decided(s) && t.workflows == s.workflows && t.decisions == s.decisions && t.resolutions == s.resolutions
    requires t.row.execution == s.row.execution && t.row.version == s.row.version
    ensures Decided(t)
  {
    forall k | k in t.workflows ensures DecisionKept(t, k) { assert DecisionKept(s, k); }
    forall id | id in t.decisions ensures DecisionOwned(t, id) { assert DecisionOwned(s, id); }
    forall r | r in t.resolutions ensures ResolutionOwned(t, r) { assert ResolutionOwned(s, r); }
  }

  // Adoption ---------------------------------------------------------------------------

  lemma AdoptKeepsChain(s: RunState)
    requires Bundled(s) && Chain(s) && Adoptable(s)
    requires Live(AdoptBaseline(s)) <==> s.ledger == []
    ensures Chain(AdoptBaseline(s))
  {
    var t := AdoptBaseline(s);
    assert ChainLink(t, 0);
  }

  // What the baseline review came to agrees with the delivery status.
  lemma BaselineResolution(s: RunState)
    requires s.publications == [] && Standing(s)
    requires s.bundles[1].review.revision == 1
    requires 1 in s.workflows ==> s.workflows[1].review == s.bundles[1].review && DecisionKept(s, 1)
    requires s.bundles[1].review in s.resolutions ==> ResolutionOwned(s, s.bundles[1].review)
    ensures var review := s.bundles[1].review;
      AdoptedStatus(s.bundles[1].required, s.row.delivery,
        if review in s.resolutions then Some(s.resolutions[review].action) else None, false) == StatusFor(s.row.delivery)
  {
  }

  lemma AdoptedStatusStands(s: RunState)
    requires Bundled(s) && Decided(s) && Published(s) && Adoptable(s) && s.ledger == []
    ensures AdoptBaseline(s).publications[0].status == StatusFor(s.row.delivery)
  {
    assert Live(s);
    BaselineResolution(s);
  }

  lemma AdoptKeepsPublished(s: RunState)
    requires Bundled(s) && Chain(s) && Decided(s) && Published(s) && Adoptable(s) && s.ledger == []
    ensures Published(AdoptBaseline(s))
  {
    AdoptedStatusStands(s);
    var t := AdoptBaseline(s);
    assert Live(s) && Live(t) && Newest(t) == Newest(s) == 1;
    assert Standing(s);
    assert Standing(t);
  }

  lemma AdoptKeepsVerification(s: RunState)
    requires Bundled(s) && Verification(s) && Adoptable(s)
    ensures Verification(AdoptBaseline(s))
  {
    var t := AdoptBaseline(s);
    assert BaselineProjections(s.evidence) == Effective(s.evidence, s.ledger);
    assert SnapshotKept(t, 0);
  }

  // A baseline has its reviewed artifacts exactly if it needed a review and is ready.
  lemma BaselineReviewed(s: RunState)
    requires Bundled(s) && Published(s) && Artifacts(s) && Adoptable(s)
    ensures ReviewedJsonId(1) in s.artifacts <==> s.row.delivery == Ready && NeedsReview(s, 1)
    ensures ReviewedMarkdownId(1) in s.artifacts <==> s.row.delivery == Ready && NeedsReview(s, 1)
  {
    assert Live(s) && Standing(s);
    assert ReviewedStored(s, 1);
  }

  lemma AdoptedShown(s: RunState)
    requires Bundled(s) && Decided(s) && Published(s) && Artifacts(s) && Adoptable(s) && s.ledger == []
    ensures Shown(AdoptBaseline(s), AdoptBaseline(s).publications[0])
  {
    hide Bundled, Decided, Published, BriefIdsBundled, ReviewedStored, FirstMarkdown, AdoptedArtifactIds;
    AdoptedStatusStands(s);
    assert BriefStored(s, 1);
    BaselineReviewed(s);
    AdoptedArtifactsShown(s.artifacts);
  }

  lemma AdoptKeepsArtifacts(s: RunState)
    requires Bundled(s) && Decided(s) && Published(s) && Artifacts(s) && Adoptable(s) && s.ledger == []
    ensures Artifacts(AdoptBaseline(s))
  {
    var t := AdoptBaseline(s);
    AdoptedShown(s);
    hide Bundled, Decided, Published, Shown;
    forall k | k in t.bundles ensures BriefStored(t, k) { assert BriefStored(s, k); }
    forall k: nat ensures ReviewedStored(t, k) {
      assert ReviewedStored(s, k);
    }
  }

  lemma AdoptedArtifactsShown(artifacts: map<ArtifactId, Artifact>)
    requires BriefJsonId(1) in artifacts && BriefMarkdownId(1) in artifacts
    requires artifacts[BriefJsonId(1)].media == ApplicationJson && artifacts[BriefMarkdownId(1)].media == TextMarkdown
    ensures FirstMarkdown(artifacts, AdoptedArtifactIds(artifacts)) == Some(BriefMarkdownId(1))
    ensures ReviewedJsonId(1) !in artifacts && ReviewedMarkdownId(1) !in artifacts ==>
      AdoptedArtifactIds(artifacts) == [BriefJsonId(1), BriefMarkdownId(1)]
    ensures ReviewedJsonId(1) in artifacts && ReviewedMarkdownId(1) in artifacts ==>
      AdoptedArtifactIds(artifacts) == [BriefJsonId(1), BriefMarkdownId(1), ReviewedJsonId(1), ReviewedMarkdownId(1)]
  {
    var reviewed := Present(artifacts, [ReviewedJsonId(1), ReviewedMarkdownId(1)]);
    PresentCons(artifacts, BriefMarkdownId(1), [ReviewedJsonId(1), ReviewedMarkdownId(1)]);
    PresentCons(artifacts, BriefJsonId(1), [BriefMarkdownId(1), ReviewedJsonId(1), ReviewedMarkdownId(1)]);
    assert AdoptedArtifactIds(artifacts) == [BriefJsonId(1)] + ([BriefMarkdownId(1)] + reviewed);
    assert ([BriefJsonId(1)] + ([BriefMarkdownId(1)] + reviewed))[1..] == [BriefMarkdownId(1)] + reviewed;
    PresentCons(artifacts, ReviewedJsonId(1), [ReviewedMarkdownId(1)]);
    PresentCons(artifacts, ReviewedMarkdownId(1), []);
  }

  lemma PresentCons(artifacts: map<ArtifactId, Artifact>, id: ArtifactId, rest: seq<ArtifactId>)
    ensures Present(artifacts, [id] + rest) == (if id in artifacts then [id] else []) + Present(artifacts, rest)
  {
    assert ([id] + rest)[1..] == rest;
  }

  lemma AdoptKeeps(s: RunState)
    requires Inv(s)
    ensures Inv(AdoptBaseline(s))
  {
    if Adoptable(s) {
      var t := AdoptBaseline(s);
      assert s.ledger == [];
      SameBundles(s, t);
      SameLeases(s, t);
      SameDecisions(s, t);
      AdoptKeepsChain(s);
      AdoptKeepsPublished(s);
      AdoptKeepsVerification(s);
      AdoptKeepsArtifacts(s);
      AdoptKeepsStarted(s);
    }
  }

  lemma AdoptKeepsStarted(s: RunState)
    requires Started(s) && Bundled(s)
    ensures Started(AdoptBaseline(s))
  {
  }
}
