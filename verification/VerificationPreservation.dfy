/** Accepting a verification decision keeps the invariant of a run: it appends a ledger row and,
    in the same step, withdraws the current publication and its review. */
module VerificationPreservation {
  import opened ReviewTypes
  import opened VerificationLedger
  import opened Publications
  import opened RunInvariant
  import opened PublicationPreservation

  // No projected revision falls, and that of the decided item rises.
  lemma RevisionsGrow(evidence: map<EvidenceId, Evidence>, ledger: seq<VerificationDecision>, d: VerificationDecision)
    requires d.fingerprint == d.evidence.fingerprint
    requires d.revision == MaxRevision(ledger, d.evidence, d.fingerprint) + 1
    ensures forall item | item in evidence ::
      Effective(evidence, ledger)[item].revision <= Effective(evidence, ledger + [d])[item].revision
    ensures d.evidence in evidence ==>
      Effective(evidence, ledger)[d.evidence].revision < Effective(evidence, ledger + [d])[d.evidence].revision
  {
    forall item | item in evidence
      ensures Effective(evidence, ledger)[item].revision <= Effective(evidence, ledger + [d])[item].revision
      ensures item == d.evidence ==>
        Effective(evidence, ledger)[item].revision < Effective(evidence, ledger + [d])[item].revision
    {
      LatestAfterAppend(ledger, d, item, item.fingerprint);
    }
  }

  lemma RaisedStays(before: map<EvidenceId, Projection>, evidence: map<EvidenceId, Evidence>,
                    ledger: seq<VerificationDecision>, d: VerificationDecision)
    requires d.fingerprint == d.evidence.fingerprint
    requires d.revision == MaxRevision(ledger, d.evidence, d.fingerprint) + 1
    requires Raised(before, Effective(evidence, ledger))
    ensures Raised(before, Effective(evidence, ledger + [d]))
  {
    RevisionsGrow(evidence, ledger, d);
    var now, later := Effective(evidence, ledger), Effective(evidence, ledger + [d]);
    var item :| item in before && item in now && before[item].revision < now[item].revision;
    assert item in later && before[item].revision < later[item].revision;
  }

  // The new ledger row is of an item of the run, and carries the next number.
  ghost predicate NextRow(s: RunState, d: VerificationDecision) {
    && d.evidence in s.evidence
    && d.fingerprint == d.evidence.fingerprint
    && d.revision == MaxRevision(s.ledger, d.evidence, d.fingerprint) + 1
  }

  function Appended(s: RunState, d: VerificationDecision): RunState {
    StaleCurrent(s.(ledger := s.ledger + [d]))
  }

  // Everything bundled has been adopted.
  predicate AdoptedIfBundled(s: RunState) {
    s.publications == [] ==> 1 !in s.bundles
  }

  lemma AdoptionReaches(s: RunState)
    requires Bundled(s) && Chain(s) && Artifacts(s)
    ensures AdoptedIfBundled(AdoptBaseline(s))
  {
    if s.publications == [] && 1 in s.bundles { assert BriefStored(s, 1); }
  }

  lemma CurrentIsNewest(s: RunState)
    requires Chain(s)
    ensures CurrentIndex(s.publications) ==
      if s.publications != [] && Live(s) then Some(|s.publications| - 1) else None
  {
    var index := CurrentIndex(s.publications);
    if index.Some? { assert ChainLink(s, index.value); }
  }

  function WithdrawnWorkflow(w: Workflow): Workflow {
    if w.status.Active() then w.(status := Superseded, owner := None, expires := None) else w
  }

  function WithdrawnPublications(s: RunState): seq<Publication> {
    var n := |s.publications|;
    if n > 0 && s.publications[n - 1].current
    then s.publications[n - 1 := s.publications[n - 1].(status := Stale, current := false)]
    else s.publications
  }

  // The effect of the step in one piece: no review stays active, no publication stays current.
  ghost predicate Withdrawn(s: RunState, t: RunState, d: VerificationDecision) {
    && t == s.(ledger := s.ledger + [d], publications := WithdrawnPublications(s), workflows := t.workflows, row := t.row)
    && t.row == (if s.publications != [] && Live(s) then RequireReview(s.row) else s.row)
    && t.workflows.Keys == s.workflows.Keys
    && forall k | k in s.workflows :: t.workflows[k] == WithdrawnWorkflow(s.workflows[k])
  }

  // Every active workflow is the current publication's own.
  lemma OnlyCurrentActive(s: RunState, k: nat)
    requires Bundled(s) && Chain(s) && Published(s) && AdoptedIfBundled(s)
    requires k in s.workflows && s.workflows[k].status.Active()
    ensures s.publications != [] && Live(s)
    ensures s.workflows[k].review == s.publications[|s.publications| - 1].review
  {
    if s.publications != [] { assert ChainLink(s, |s.publications| - 1); }
  }

  // So withdrawing the current publication's review leaves none active.
  lemma AppendWithdraws(s: RunState, d: VerificationDecision)
    requires Bundled(s) && Chain(s) && Published(s) && AdoptedIfBundled(s)
    ensures Withdrawn(s, Appended(s, d), d)
  {
    hide Bundled, Chain, Published;
    CurrentIsNewest(s);
    forall k | k in s.workflows && s.workflows[k].status.Active()
      ensures s.publications != [] && Live(s)
      ensures s.workflows[k].review == s.publications[|s.publications| - 1].review
    {
      OnlyCurrentActive(s, k);
    }
    assert s.(ledger := s.ledger + [d]).publications == s.publications;
  }

  lemma WithdrawnKeepsRows(s: RunState, t: RunState, d: VerificationDecision)
    requires Bundled(s) && Started(s) && NextRow(s, d) && Withdrawn(s, t, d)
    ensures Bundled(t) && Started(t)
  {
  }

  lemma WithdrawnKeepsChain(s: RunState, t: RunState, d: VerificationDecision)
    requires Chain(s) && Withdrawn(s, t, d)
    ensures Chain(t)
  {
    forall i | 0 <= i < |t.publications| ensures ChainLink(t, i) {
      assert ChainLink(s, i);
      if i > 0 { assert ChainLink(s, i - 1); }
    }
  }

  lemma WithdrawnKeepsLeases(s: RunState, t: RunState, d: VerificationDecision)
    requires Leases(s) && Withdrawn(s, t, d)
    ensures Leases(t)
  {
    forall k | k in t.workflows ensures LeaseKept(t, k) { assert LeaseKept(s, k); }
  }

  lemma WithdrawnKeepsWorkflows(s: RunState, t: RunState, d: VerificationDecision)
    requires Decided(s) && Withdrawn(s, t, d)
    ensures forall k | k in t.workflows :: DecisionKept(t, k)
  {
    hide DecisionOwned, ResolutionOwned, ChainLink, EffectiveSnapshot;
    forall k | k in t.workflows ensures DecisionKept(t, k) { assert DecisionKept(s, k); }
  }

  lemma WithdrawnKeepsDecisions(s: RunState, t: RunState, d: VerificationDecision)
    requires Decided(s) && Withdrawn(s, t, d)
    ensures forall id | id in t.decisions :: DecisionOwned(t, id)
    ensures forall r | r in t.resolutions :: ResolutionOwned(t, r)
  {
    forall id | id in t.decisions ensures DecisionOwned(t, id) { assert DecisionOwned(s, id); }
    forall r | r in t.resolutions ensures ResolutionOwned(t, r) { assert ResolutionOwned(s, r); }
  }

  lemma WithdrawnKeepsDecided(s: RunState, t: RunState, d: VerificationDecision)
    requires Decided(s) && Withdrawn(s, t, d)
    ensures Decided(t)
  {
    WithdrawnKeepsWorkflows(s, t, d);
    WithdrawnKeepsDecisions(s, t, d);
    hide DecisionKept, DecisionOwned, ResolutionOwned;
  }

  lemma WithdrawnKeepsPublished(s: RunState, t: RunState, d: VerificationDecision)
    requires Bundled(s) && Chain(s) && Published(s) && AdoptedIfBundled(s) && Withdrawn(s, t, d)
    ensures Published(t)
  {
    hide EffectiveSnapshot, Started;
  }

  lemma WithdrawnKeepsLedger(s: RunState, t: RunState, d: VerificationDecision, i: nat)
    requires i <= |s.ledger| && (i < |s.ledger| ==> LedgerRow(s, i)) && NextRow(s, d) && Withdrawn(s, t, d)
    ensures LedgerRow(t, i)
  {
    assert t.ledger[..i] == s.ledger[..i];
    if i == |s.ledger| { assert s.ledger[..i] == s.ledger; }
  }

  lemma WithdrawnKeepsSnapshot(s: RunState, t: RunState, d: VerificationDecision, i: nat)
    requires i < |s.publications| && ChainLink(s, i) && SnapshotKept(s, i) && NextRow(s, d) && Withdrawn(s, t, d)
    ensures SnapshotKept(t, i)
  {
    var before := s.publications[i].snapshot.projections;
    if s.publications[i].current {
      RevisionsGrow(s.evidence, s.ledger, d);
      assert d.evidence in before && before[d.evidence].revision < Effective(t.evidence, t.ledger)[d.evidence].revision;
    } else {
      RaisedStays(before, s.evidence, s.ledger, d);
    }
  }

  lemma WithdrawnKeepsVerification(s: RunState, t: RunState, d: VerificationDecision)
    requires Chain(s) && Verification(s) && AdoptedIfBundled(s) && NextRow(s, d) && Withdrawn(s, t, d)
    ensures Verification(t)
  {
    forall i | 0 <= i < |t.ledger| ensures LedgerRow(t, i) { WithdrawnKeepsLedger(s, t, d, i); }
    forall i | 0 <= i < |t.publications| ensures SnapshotKept(t, i) { WithdrawnKeepsSnapshot(s, t, d, i); }
  }

  lemma WithdrawnKeepsArtifacts(s: RunState, t: RunState, d: VerificationDecision)
    requires Artifacts(s) && Withdrawn(s, t, d)
    ensures Artifacts(t)
  {
    forall k | k in t.bundles ensures BriefStored(t, k) { assert BriefStored(s, k); }
    forall k: nat ensures ReviewedStored(t, k) {
      assert ReviewedStored(s, k);
    }
  }

  lemma AppendKeeps(s: RunState, d: VerificationDecision)
    requires Inv(s) && AdoptedIfBundled(s) && NextRow(s, d)
    ensures Inv(Appended(s, d))
  {
    var t := Appended(s, d);
    AppendWithdraws(s, d);
    WithdrawnKeepsRows(s, t, d);
    WithdrawnKeepsChain(s, t, d);
    WithdrawnKeepsLeases(s, t, d);
    WithdrawnKeepsDecided(s, t, d);
    WithdrawnKeepsPublished(s, t, d);
    WithdrawnKeepsVerification(s, t, d);
    WithdrawnKeepsArtifacts(s, t, d);
  }

  function AcceptedRow(s: RunState, item: EvidenceId, request: VerificationRequest): VerificationDecision {
    NewVerification(item, request, MaxRevision(s.ledger, item, request.fingerprint) + 1)
  }

  // What an accepted decision does, whatever the checks before it were.
  lemma AcceptanceAppends(s: RunState, takenElsewhere: bool, item: EvidenceId, request: VerificationRequest)
    ensures var step := AcceptVerification(s, takenElsewhere, item, request);
      step.Commit? && !step.replay ==>
        step.state == Appended(AdoptBaseline(s), AcceptedRow(s, item, request)) &&
        NextRow(AdoptBaseline(s), AcceptedRow(s, item, request))
  {
  }

  lemma AcceptVerificationKeeps(s: RunState, takenElsewhere: bool, item: EvidenceId, request: VerificationRequest)
    requires Inv(s)
    ensures var step := AcceptVerification(s, takenElsewhere, item, request); step.Commit? ==> Inv(step.state)
  {
    AcceptanceAppends(s, takenElsewhere, item, request);
    var step := AcceptVerification(s, takenElsewhere, item, request);
    if step.Commit? && !step.replay {
      AdoptKeeps(s);
      AdoptionReaches(s);
      AppendKeeps(AdoptBaseline(s), AcceptedRow(s, item, request));
    } else {
      ReplayChangesNothing(s, takenElsewhere, item, request);
    }
  }

  lemma ReplayChangesNothing(s: RunState, takenElsewhere: bool, item: EvidenceId, request: VerificationRequest)
    ensures var step := AcceptVerification(s, takenElsewhere, item, request); step.Commit? && step.replay ==> step.state == s
  {
  }
}
