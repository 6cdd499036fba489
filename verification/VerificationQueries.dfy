/** The bulk reading of effective verifications (api/evidence_verification_repository.py): one
    ranked query over the ledger, a dictionary and a loop, against the reading of one item. */
module VerificationQueries {
  import opened ReviewTypes
  import opened VerificationLedger
  import opened Publications
  import opened RunInvariant
  import opened Executions

  // get_effective_verification
  function SingleProjection(s: RunState, item: EvidenceId): Option<Projection> {
    if item !in s.evidence then None
    else Some(EffectiveProjection(s.evidence[item], Latest(s.ledger, item, item.fingerprint)))
  }

  // ROW_NUMBER() OVER (PARTITION BY evidence_id, evidence_fingerprint ORDER BY revision DESC) = 1
  method RankedRows(ledger: seq<VerificationDecision>) returns (ranked: map<(EvidenceId, Fingerprint), VerificationDecision>)
    ensures forall item, fingerprint ::
      (if (item, fingerprint) in ranked then Some(ranked[(item, fingerprint)]) else None) == Latest(ledger, item, fingerprint)
  {
    ranked := map[];
    for i := 0 to |ledger|
      invariant forall item, fingerprint ::
        (if (item, fingerprint) in ranked then Some(ranked[(item, fingerprint)]) else None) == Latest(ledger[..i], item, fingerprint)
    {
      var d := ledger[i];
      var key := (d.evidence, d.fingerprint);
      assert ledger[..i + 1] == ledger[..i] + [d];
      forall item, fingerprint
        ensures Latest(ledger[..i + 1], item, fingerprint) ==
          if About(d, item, fingerprint) && MaxRevisionBelow(ledger[..i], item, fingerprint, d.revision) then Some(d)
          else Latest(ledger[..i], item, fingerprint)
      {
        LatestAfterAppend(ledger[..i], d, item, fingerprint);
      }
      if key !in ranked || ranked[key].revision < d.revision { ranked := ranked[key := d]; }
    }
    assert ledger[..|ledger|] == ledger;
  }

  // The rows of an item carry no fingerprint but its own.
  ghost predicate OwnFingerprints(ledger: seq<VerificationDecision>) {
    forall i | 0 <= i < |ledger| :: ledger[i].fingerprint == ledger[i].evidence.fingerprint
  }

  lemma {:induction false} LatestIsOwn(ledger: seq<VerificationDecision>, item: EvidenceId, fingerprint: Fingerprint)
    requires OwnFingerprints(ledger) && Latest(ledger, item, fingerprint).Some?
    ensures fingerprint == item.fingerprint
  {
    var last := |ledger| - 1;
    if Latest(ledger, item, fingerprint) == Some(ledger[last]) {
      assert About(ledger[last], item, fingerprint) || Latest(ledger[..last], item, fingerprint).Some?;
    }
    if !About(ledger[last], item, fingerprint) { LatestIsOwn(ledger[..last], item, fingerprint); }
  }

  // decision_by_evidence: the ranked rows of the listed items by item alone, the last one kept.
  method ByEvidence(ranked: map<(EvidenceId, Fingerprint), VerificationDecision>, items: seq<EvidenceId>)
    returns (byItem: map<EvidenceId, VerificationDecision>)
    ensures forall item :: item in byItem ==> exists f :: (item, f) in ranked && byItem[item] == ranked[(item, f)]
    ensures forall item, f | (item, f) in ranked && item in items :: item in byItem
  {
    byItem := map[];
    var rest := ranked.Keys;
    while rest != {}
      invariant rest <= ranked.Keys
      invariant forall item :: item in byItem ==> exists f :: (item, f) in ranked && byItem[item] == ranked[(item, f)]
      invariant forall item, f | (item, f) in ranked.Keys - rest && item in items :: item in byItem
      decreases |rest|
    {
      var key :| key in rest;
      if key.0 in items {
        assert (key.0, key.1) in ranked;
        byItem := byItem[key.0 := ranked[key]];
      }
      rest := rest - {key};
    }
  }

  // list_effective_verifications: for any page of the items, in their order, the bulk reading is
  // the reading of each item on its own.
  method ListEffective(s: RunState, items: seq<EvidenceId>) returns (result: seq<Projection>)
    requires forall item | item in items :: item in s.evidence
    requires OwnFingerprints(s.ledger)
    ensures |result| == |items|
    ensures forall i | 0 <= i < |items| :: Some(result[i]) == SingleProjection(s, items[i])
  {
    result := [];
    if items == [] { return; }
    var ranked := RankedRows(s.ledger);
    var byItem := ByEvidence(ranked, items);
    for i := 0 to |items|
      invariant |result| == i
      invariant forall j | 0 <= j < i :: Some(result[j]) == SingleProjection(s, items[j])
    {
      var item := items[i];
      var decision := if item in byItem then Some(byItem[item]) else None;
      if decision.Some? && decision.value.fingerprint != item.fingerprint { decision := None; }
      if item in byItem {
        var f :| (item, f) in ranked && byItem[item] == ranked[(item, f)];
        assert Latest(s.ledger, item, f) == Some(byItem[item]);
        LatestIsOwn(s.ledger, item, f);
        LatestIsAbout(s.ledger, item, f);
      }
      assert decision == Latest(s.ledger, item, item.fingerprint);
      result := result + [EffectiveProjection(s.evidence[item], decision)];
    }
  }

  lemma {:induction false} LatestIsAbout(ledger: seq<VerificationDecision>, item: EvidenceId, fingerprint: Fingerprint)
    ensures var latest := Latest(ledger, item, fingerprint); latest.Some? ==> About(latest.value, item, fingerprint) && latest.value in ledger
  {
    if ledger != [] { LatestIsAbout(ledger[..|ledger| - 1], item, fingerprint); }
  }

  // Every reachable ledger meets the precondition, and its snapshot shows the same projections.
  lemma ReachableQueriesAgree(commands: seq<DbCommand>, run: RunId)
    ensures var db := Execute(map[], commands);
      run in db ==>
        && OwnFingerprints(db[run].ledger)
        && EffectiveSnapshot(db[run]).projections.Keys == db[run].evidence.Keys
        && forall item | item in db[run].evidence :: Some(EffectiveSnapshot(db[run]).projections[item]) == SingleProjection(db[run], item)
  {
    ReachableKeeps(commands);
    var db := Execute(map[], commands);
    hide Execute, Latest;
    if run in db {
      assert Inv(db[run]) && Verification(db[run]);
      hide Inv;
      forall i | 0 <= i < |db[run].ledger| ensures db[run].ledger[i].fingerprint == db[run].ledger[i].evidence.fingerprint {
        assert LedgerRow(db[run], i);
      }
    }
  }

  // The rows of one item, in ledger order.
  function RowsOf(ledger: seq<VerificationDecision>, item: EvidenceId): seq<VerificationDecision> {
    if ledger == [] then [] else
    var last := ledger[|ledger| - 1];
    RowsOf(ledger[..|ledger| - 1], item) + (if last.evidence == item then [last] else [])
  }

  // They are numbered 1, 2, ..., n, and the latest is the last.
  lemma {:induction false} RowsAreNumbered(s: RunState, n: nat, item: EvidenceId)
    requires n <= |s.ledger| && forall i | 0 <= i < n :: LedgerRow(s, i)
    ensures var rows := RowsOf(s.ledger[..n], item);
      && (forall j | 0 <= j < |rows| :: rows[j].revision == j + 1 && rows[j].fingerprint == item.fingerprint)
      && Latest(s.ledger[..n], item, item.fingerprint) == if rows == [] then None else Some(rows[|rows| - 1])
    decreases n
  {
    if n > 0 {
      RowsAreNumbered(s, n - 1, item);
      assert s.ledger[..n][..n - 1] == s.ledger[..n - 1];
      assert LedgerRow(s, n - 1);
      assert s.ledger[..n] == s.ledger[..n - 1] + [s.ledger[n - 1]];
      LatestAfterAppend(s.ledger[..n - 1], s.ledger[n - 1], item, item.fingerprint);
    }
  }
}
