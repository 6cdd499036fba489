/** What no step ever takes back. */
module Evolution {
  import opened ReviewTypes
  import opened Publications
  import opened RunLifecycle
  import opened RunInvariant
  import opened LeasePreservation
  import opened VerificationPreservation
  import opened FinalizationPreservation
  import opened ReviewPreservation
  import opened RunPreservation

  ghost predicate Extends<K(!new), V(!new)>(before: map<K, V>, after: map<K, V>) {
    forall key | key in before :: key in after && after[key] == before[key]
  }

  // A workflow keeps its review and its decision; once it is not active its row never changes.
  predicate WorkflowEvolves(before: Workflow, after: Workflow) {
    && after.review == before.review
    && (before.decision.Some? ==> after.decision == before.decision)
    && (!before.status.Active() ==> after == before)
  }

  // A publication keeps its identity; once stale its row never changes. It becomes ready only out
  // of its review, and then lists the reviewed artifacts.
  predicate PublicationEvolves(before: Publication, after: Publication) {
    && after.id == before.id && after.revision == before.revision
    && after.snapshot == before.snapshot && after.review == before.review
    && (before.status == Stale ==> after == before)
    && (after.status == PublishedForReview ==> before.status == PublishedForReview)
    && (after.status == PublishedReady ==>
          || (before.status == PublishedReady && after.artifactIds == before.artifactIds)
          || (before.status == PublishedForReview && ListsReviewed(after)))
  }

  predicate Terminal(execution: Execution) {
    execution != Pending && execution != Running
  }

  ghost predicate ReviewsEvolve(s: RunState, t: RunState) {
    && Extends(s.decisions, t.decisions)
    && Extends(s.resolutions, t.resolutions)
    && Extends(s.artifacts, t.artifacts)
    && Extends(s.bundles, t.bundles)
    && (forall k | k in s.workflows :: k in t.workflows && WorkflowEvolves(s.workflows[k], t.workflows[k]))
  }

  ghost predicate PublicationsEvolve(s: RunState, t: RunState) {
    && s.ledger <= t.ledger
    && s.snapshots <= t.snapshots
    && |s.publications| <= |t.publications|
    && (forall i | 0 <= i < |s.publications| :: PublicationEvolves(s.publications[i], t.publications[i]))
  }

  ghost predicate RowEvolves(s: RunState, t: RunState) {
    && t.id == s.id
    && t.row.profile == s.row.profile
    && s.row.version <= t.row.version
    && (Terminal(s.row.execution) ==> t.row.execution == s.row.execution && t.evidence == s.evidence && t.packets == s.packets)
  }

  ghost predicate Evolves(s: RunState, t: RunState) {
    ReviewsEvolve(s, t) && PublicationsEvolve(s, t) && RowEvolves(s, t)
  }

  lemma EvolvesIsReflexive(s: RunState)
    ensures Evolves(s, s)
  {
  }

  lemma EvolvesIsTransitive(s: RunState, t: RunState, u: RunState)
    requires Evolves(s, t) && Evolves(t, u)
    ensures Evolves(s, u)
  {
    forall k | k in s.workflows ensures k in u.workflows && WorkflowEvolves(s.workflows[k], u.workflows[k]) {
      assert k in t.workflows && WorkflowEvolves(s.workflows[k], t.workflows[k]);
    }
    forall i | 0 <= i < |s.publications| ensures PublicationEvolves(s.publications[i], u.publications[i]) {
      assert PublicationEvolves(s.publications[i], t.publications[i]);
    }
  }

  lemma LeaseMoveEvolves(s: RunState, t: RunState, k: nat)
    requires LeaseMove(s, t, k)
    ensures Evolves(s, t)
  {
  }

  lemma AdoptEvolves(s: RunState)
    ensures Evolves(s, AdoptBaseline(s))
  {
  }

  lemma WithdrawnEvolves(s: RunState, t: RunState, d: VerificationDecision)
    requires Chain(s) && Withdrawn(s, t, d)
    ensures Evolves(s, t)
  {
    if s.publications != [] { assert ChainLink(s, |s.publications| - 1); }
  }

  lemma RepairedEvolves(s: RunState, t: RunState, now: Instant)
    requires Repaired(s, t, now)
    ensures Evolves(s, t)
  {
  }

  lemma RevisedEvolves(s: RunState, t: RunState, review: ReviewId, brief: Brief, now: Instant)
    requires Artifacts(s) && Revised(s, t, review, brief, now)
    ensures Evolves(s, t)
  {
  }

  lemma DecisionTakenEvolves(s: RunState, t: RunState, k: nat, id: DecisionId, d: ReviewDecision)
    requires Decided(s) && DecisionTaken(s, t, k, id, d)
    ensures Evolves(s, t)
  {
    assert DecisionKept(s, k);
  }

  lemma ReviewedIdsAreNew(s: RunState, k: nat)
    requires Artifacts(s) && k in s.workflows && s.workflows[k].status.Active()
    ensures ReviewedJsonId(k) !in s.artifacts && ReviewedMarkdownId(k) !in s.artifacts
  {
    assert ReviewedStored(s, k);
  }

  lemma ResolutionTakenEvolves(s: RunState, t: RunState, k: nat, id: DecisionId, d: ReviewDecision, brief: Brief)
    requires UnderReview(s) && ResolutionTaken(s, t, k, id, d, brief)
    requires s.publications != [] ==> s.publications[|s.publications| - 1].revision == k
    requires ReviewedJsonId(k) !in s.artifacts && ReviewedMarkdownId(k) !in s.artifacts
    ensures Evolves(s, t)
  {
  }

  lemma FinalisedEvolves(s: RunState, t: RunState, a: FinalArguments, now: Instant)
    requires Bare(s) && s.workflows == map[] && s.decisions == map[] && s.resolutions == map[]
    requires !Terminal(s.row.execution) && Finalised(s, t, a, now)
    ensures Evolves(s, t)
  {
  }
}
