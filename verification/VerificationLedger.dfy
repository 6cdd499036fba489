/** The append-only ledger of human verification decisions and its projections
    (api/evidence_verification_repository.py). */
module VerificationLedger {
  import opened ReviewTypes

  // SELECT COALESCE(MAX(revision), 0) over the rows of one item and fingerprint.
  function MaxRevision(ledger: seq<VerificationDecision>, item: EvidenceId, fingerprint: Fingerprint): nat {
    match Latest(ledger, item, fingerprint)
    case Some(d) => d.revision
    case None => 0
  }

  predicate About(d: VerificationDecision, item: EvidenceId, fingerprint: Fingerprint) {
    d.evidence == item && d.fingerprint == fingerprint
  }

  // The row with the highest revision among those of one item and fingerprint.
  function Latest(ledger: seq<VerificationDecision>, item: EvidenceId, fingerprint: Fingerprint): Option<VerificationDecision> {
    if ledger == [] then None else
    var earlier := Latest(ledger[..|ledger| - 1], item, fingerprint);
    var last := ledger[|ledger| - 1];
    if About(last, item, fingerprint) && (earlier.None? || earlier.value.revision < last.revision)
    then Some(last) else earlier
  }

  function FindVerification(ledger: seq<VerificationDecision>, id: VerificationId): Option<VerificationDecision> {
    if ledger == [] then None
    else if ledger[|ledger| - 1].id == id then Some(ledger[|ledger| - 1])
    else FindVerification(ledger[..|ledger| - 1], id)
  }

  function BaselineProjection(evidence: Evidence): Projection {
    if evidence.declaredFixture then Projection(Verified, DeclaredFixture, 0, None)
    else Projection(Unverified, NoOrigin, 0, None)
  }

  function EffectiveProjection(evidence: Evidence, decision: Option<VerificationDecision>): Projection {
    match decision
    case Some(d) =>
      Projection(if d.action.VerifyEvidence? then Verified else RejectedEvidence, Human, d.revision, Some(d.id))
    case None => BaselineProjection(evidence)
  }

  function BaselineProjections(evidence: map<EvidenceId, Evidence>): map<EvidenceId, Projection> {
    map item | item in evidence :: BaselineProjection(evidence[item])
  }

  // What the ledger says now about every evidence item of the run.
  function Effective(evidence: map<EvidenceId, Evidence>, ledger: seq<VerificationDecision>): map<EvidenceId, Projection> {
    map item | item in evidence ::
      EffectiveProjection(evidence[item], Latest(ledger, item, item.fingerprint))
  }

  // Appending one row changes the latest row of its own item at most.
  lemma LatestAfterAppend(ledger: seq<VerificationDecision>, d: VerificationDecision, item: EvidenceId, fingerprint: Fingerprint)
    ensures Latest(ledger + [d], item, fingerprint) ==
      if About(d, item, fingerprint) && MaxRevisionBelow(ledger, item, fingerprint, d.revision) then Some(d)
      else Latest(ledger, item, fingerprint)
  {
    assert (ledger + [d])[..|ledger|] == ledger;
  }

  predicate MaxRevisionBelow(ledger: seq<VerificationDecision>, item: EvidenceId, fingerprint: Fingerprint, revision: nat) {
    var latest := Latest(ledger, item, fingerprint);
    latest.None? || latest.value.revision < revision
  }
}
