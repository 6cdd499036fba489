/** Which findings a decision brief may show as evidence-backed (api/decision_brief.py). */
module EvidenceIndex {
  import opened ReviewTypes

  // A record of the evidence summary as the brief carries it: anything, or a dictionary whose
  // id and status may be missing or of the wrong type.
  datatype Record = NotADictionary | Fields(id: Option<string>, status: Option<string>)

  const VERIFIED := "verified"
  const UNVERIFIED := "unverified"

  predicate KnownStatus(status: Option<string>) {
    status == Some(VERIFIED) || status == Some(UNVERIFIED)
  }

  predicate WellFormed(record: Record) {
    record.Fields? && record.id.Some? && record.id.value != ""
  }

  // The well-formed records with this id, in order.
  function RecordsOf(records: seq<Record>, id: string): seq<Record> {
    if records == [] then [] else
    var last := records[|records| - 1];
    RecordsOf(records[..|records| - 1], id) + (if WellFormed(last) && last.id == Some(id) then [last] else [])
  }

  // The id occurs exactly once, with a known status.
  predicate Unambiguous(records: seq<Record>, id: string) {
    var found := RecordsOf(records, id);
    |found| == 1 && found[0].Fields? && KnownStatus(found[0].status)
  }

  predicate IndexedRight(records: seq<Record>, index: map<string, string>, id: string) {
    && (id in index <==> Unambiguous(records, id))
    && (id in index ==> RecordsOf(records, id) != [] && RecordsOf(records, id)[0].Fields? &&
                        RecordsOf(records, id)[0].status == Some(index[id]))
  }

  // The index holds an id exactly when it is unambiguous, and then with the status of its record.
  ghost predicate IndexOf(records: seq<Record>, index: map<string, string>) {
    forall id :: IndexedRight(records, index, id)
  }

  predicate IdScanned(records: seq<Record>, index: map<string, string>, seen: set<string>, duplicates: set<string>, id: string) {
    && (id in seen <==> RecordsOf(records, id) != [])
    && (id in duplicates <==> |RecordsOf(records, id)| > 1)
    && IndexedRight(records, index, id)
  }

  // What the loop knows after the records read so far.
  ghost predicate Scanned(records: seq<Record>, index: map<string, string>, seen: set<string>, duplicates: set<string>) {
    forall id :: IdScanned(records, index, seen, duplicates, id)
  }

  lemma RecordsSnoc(records: seq<Record>, record: Record, id: string)
    ensures RecordsOf(records + [record], id) ==
      RecordsOf(records, id) + (if WellFormed(record) && record.id == Some(id) then [record] else [])
  {
    assert (records + [record])[..|records|] == records;
  }

  lemma ScanIgnores(records: seq<Record>, record: Record, index: map<string, string>, seen: set<string>, duplicates: set<string>)
    requires Scanned(records, index, seen, duplicates) && !WellFormed(record)
    ensures Scanned(records + [record], index, seen, duplicates)
  {
    forall id ensures IdScanned(records + [record], index, seen, duplicates, id) {
      assert IdScanned(records, index, seen, duplicates, id);
      RecordsSnoc(records, record, id);
    }
  }

  lemma ScanRepeats(records: seq<Record>, record: Record, index: map<string, string>, seen: set<string>, duplicates: set<string>)
    requires Scanned(records, index, seen, duplicates) && WellFormed(record) && record.id.value in seen
    ensures Scanned(records + [record], index - {record.id.value}, seen, duplicates + {record.id.value})
  {
    forall id ensures IdScanned(records + [record], index - {record.id.value}, seen, duplicates + {record.id.value}, id) {
      assert IdScanned(records, index, seen, duplicates, id);
      RecordsSnoc(records, record, id);
    }
  }

  lemma ScanAdds(records: seq<Record>, record: Record, index: map<string, string>, seen: set<string>, duplicates: set<string>)
    requires Scanned(records, index, seen, duplicates) && WellFormed(record) && record.id.value !in seen
    ensures Scanned(records + [record],
      if KnownStatus(record.status) then index[record.id.value := record.status.value] else index,
      seen + {record.id.value}, duplicates)
  {
    var later := if KnownStatus(record.status) then index[record.id.value := record.status.value] else index;
    forall id ensures IdScanned(records + [record], later, seen + {record.id.value}, duplicates, id) {
      assert IdScanned(records, index, seen, duplicates, id);
      RecordsSnoc(records, record, id);
    }
  }

  lemma ScanStarts()
    ensures Scanned([], map[], {}, {})
  {
  }

  // _evidence_index: one loop over the records with a dictionary and two sets, and a last one
  // over the duplicates, which takes nothing more away.
  method BuildIndex(records: seq<Record>) returns (index: map<string, string>)
    ensures IndexOf(records, index)
  {
    hide IdScanned, Scanned, IndexOf;
    index := map[];
    var seen: set<string>, duplicates: set<string> := {}, {};
    ScanStarts();
    for i := 0 to |records|
      invariant Scanned(records[..i], index, seen, duplicates)
    {
      var record := records[i];
      assert records[..i + 1] == records[..i] + [record];
      if !WellFormed(record) {
        ScanIgnores(records[..i], record, index, seen, duplicates);
      } else if record.id.value in seen {
        ScanRepeats(records[..i], record, index, seen, duplicates);
        duplicates := duplicates + {record.id.value};
        index := index - {record.id.value};
      } else {
        ScanAdds(records[..i], record, index, seen, duplicates);
        seen := seen + {record.id.value};
        if KnownStatus(record.status) { index := index[record.id.value := record.status.value]; }
      }
    }
    assert records[..|records|] == records;
    var rest := duplicates;
    while rest != {}
      invariant rest <= duplicates
      invariant Scanned(records, index, seen, duplicates)
      decreases |rest|
    {
      var id :| id in rest;
      DuplicatesAreOut(records, index, seen, duplicates, id);
      index := index - {id};
      rest := rest - {id};
    }
    ScanEnds(records, index, seen, duplicates);
  }

  lemma DuplicatesAreOut(records: seq<Record>, index: map<string, string>, seen: set<string>, duplicates: set<string>, id: string)
    requires Scanned(records, index, seen, duplicates) && id in duplicates
    ensures index - {id} == index
  {
    assert IdScanned(records, index, seen, duplicates, id);
  }

  lemma ScanEnds(records: seq<Record>, index: map<string, string>, seen: set<string>, duplicates: set<string>)
    requires Scanned(records, index, seen, duplicates)
    ensures IndexOf(records, index)
  {
    forall id ensures IndexedRight(records, index, id) { assert IdScanned(records, index, seen, duplicates, id); }
  }

  ghost predicate KnownIndex(index: map<string, string>) {
    forall id | id in index :: KnownStatus(Some(index[id]))
  }

  lemma IndexIsKnown(records: seq<Record>, index: map<string, string>)
    requires IndexOf(records, index)
    ensures KnownIndex(index)
  {
    forall id | id in index ensures KnownStatus(Some(index[id])) { assert IndexedRight(records, index, id); }
  }

  // Eligibility ------------------------------------------------------------------------------

  // Evidence refs as the finding carries them; what is not a non-empty string is dropped.
  datatype Finding = Finding(id: string, refs: seq<Option<string>>, contradictions: bool)

  function StringItems(values: seq<Option<string>>): (items: seq<string>)
    ensures forall item :: item in items <==> item != "" && Some(item) in values
  {
    if values == [] then [] else
    var rest := StringItems(values[1..]);
    assert values == [values[0]] + values[1..];
    if values[0].Some? && values[0].value != "" then [values[0].value] + rest else rest
  }

  function Get(index: map<string, string>, id: string): Option<string> {
    if id in index then Some(index[id]) else None
  }

  predicate Eligible(finding: Finding, index: map<string, string>, globalConflicts: bool) {
    var refs := StringItems(finding.refs);
    && refs != [] && !globalConflicts && !finding.contradictions
    && forall ref | ref in refs :: Get(index, ref) == Some(VERIFIED)
  }

  datatype Reason =
    | NoEvidenceRefs
    | UnresolvedRefs(refs: seq<string>)
    | UnverifiedRefs(refs: seq<string>)
    | FindingContradictions
    | BriefConflicts
    | NotEstablished

  function Missing(refs: seq<string>, index: map<string, string>): (missing: seq<string>)
    ensures forall ref :: ref in missing <==> ref in refs && ref !in index
  {
    if refs == [] then [] else
    var last := refs[|refs| - 1];
    assert refs == refs[..|refs| - 1] + [last];
    Missing(refs[..|refs| - 1], index) + (if last !in index then [last] else [])
  }

  function NotYetVerified(refs: seq<string>, index: map<string, string>): (unverified: seq<string>)
    ensures forall ref :: ref in unverified <==> ref in refs && Get(index, ref) == Some(UNVERIFIED)
  {
    if refs == [] then [] else
    var last := refs[|refs| - 1];
    assert refs == refs[..|refs| - 1] + [last];
    NotYetVerified(refs[..|refs| - 1], index) + (if Get(index, last) == Some(UNVERIFIED) then [last] else [])
  }

  // The reasons that speak of the finding, in the order they are given.
  function SpecificReasons(finding: Finding, index: map<string, string>, globalConflicts: bool): seq<Reason> {
    var refs := StringItems(finding.refs);
    (if refs == [] then [NoEvidenceRefs] else [])
      + (if Missing(refs, index) != [] then [UnresolvedRefs(Missing(refs, index))] else [])
      + (if NotYetVerified(refs, index) != [] then [UnverifiedRefs(NotYetVerified(refs, index))] else [])
      + (if finding.contradictions then [FindingContradictions] else [])
      + (if globalConflicts then [BriefConflicts] else [])
  }

  lemma ReasonsDecide(finding: Finding, records: seq<Record>, index: map<string, string>, globalConflicts: bool)
    requires IndexOf(records, index)
    ensures Eligible(finding, index, globalConflicts) <==> SpecificReasons(finding, index, globalConflicts) == []
  {
    IndexIsKnown(records, index);
    hide IndexOf;
    var refs := StringItems(finding.refs);
    assert Missing(refs, index) == [] <==> forall ref | ref in refs :: ref in index by {
      if Missing(refs, index) != [] { assert Missing(refs, index)[0] in refs; }
    }
    assert NotYetVerified(refs, index) == [] <==> forall ref | ref in refs :: Get(index, ref) != Some(UNVERIFIED) by {
      if NotYetVerified(refs, index) != [] { assert NotYetVerified(refs, index)[0] in refs; }
    }
  }

  // The two comprehensions over the refs.
  method SortRefs(refs: seq<string>, index: map<string, string>) returns (unresolved: seq<string>, unverified: seq<string>)
    ensures unresolved == Missing(refs, index) && unverified == NotYetVerified(refs, index)
  {
    unresolved, unverified := [], [];
    for i := 0 to |refs|
      invariant unresolved == Missing(refs[..i], index)
      invariant unverified == NotYetVerified(refs[..i], index)
    {
      assert refs[..i + 1][..i] == refs[..i];
      if refs[i] !in index { unresolved := unresolved + [refs[i]]; }
      if Get(index, refs[i]) == Some(UNVERIFIED) { unverified := unverified + [refs[i]]; }
    }
    assert refs[..|refs|] == refs;
  }

  lemma NothingAppended(reasons: seq<Reason>)
    ensures reasons + [] == reasons
  {
  }

  // _snapshot_exclusion_reasons
  method ExclusionReasons(finding: Finding, index: map<string, string>, globalConflicts: bool) returns (reasons: seq<Reason>)
    ensures var specific := SpecificReasons(finding, index, globalConflicts);
      reasons == if specific == [] then [NotEstablished] else specific
  {
    hide Missing, NotYetVerified, StringItems;
    var refs := StringItems(finding.refs);
    var unresolved, unverified := SortRefs(refs, index);
    reasons := [];
    if refs == [] { reasons := [NoEvidenceRefs]; }
    NothingAppended(reasons);
    if unresolved != [] { reasons := reasons + [UnresolvedRefs(unresolved)]; }
    NothingAppended(reasons);
    if unverified != [] { reasons := reasons + [UnverifiedRefs(unverified)]; }
    NothingAppended(reasons);
    if finding.contradictions { reasons := reasons + [FindingContradictions]; }
    NothingAppended(reasons);
    if globalConflicts { reasons := reasons + [BriefConflicts]; }
    assert reasons == SpecificReasons(finding, index, globalConflicts);
    if reasons == [] { reasons := [NotEstablished]; }
  }

  // The snapshot and the section of findings to verify -----------------------------------------

  function Chosen(findings: seq<Finding>, index: map<string, string>, globalConflicts: bool, eligible: bool): seq<Finding> {
    if findings == [] then [] else
    (if Eligible(findings[0], index, globalConflicts) == eligible then [findings[0]] else [])
      + Chosen(findings[1..], index, globalConflicts, eligible)
  }

  // With an index that _evidence_index built, the eligible findings are exactly those that no reason
  // speaks against, and each of the others is excluded with a reason of its own: the fallback reason
  // is never rendered.
  lemma {:induction false} EligibleIffNoReason(findings: seq<Finding>, records: seq<Record>, index: map<string, string>, globalConflicts: bool)
    requires IndexOf(records, index)
    ensures var (chosen, excluded) := (Chosen(findings, index, globalConflicts, true), Chosen(findings, index, globalConflicts, false));
      && multiset(chosen) + multiset(excluded) == multiset(findings)
      && (forall f | f in chosen :: SpecificReasons(f, index, globalConflicts) == [])
      && (forall f | f in excluded :: SpecificReasons(f, index, globalConflicts) != [])
  {
    hide IndexOf, Eligible, SpecificReasons;
    if findings != [] {
      ReasonsDecide(findings[0], records, index, globalConflicts);
      EligibleIffNoReason(findings[1..], records, index, globalConflicts);
      assert findings == [findings[0]] + findings[1..];
    }
  }

  // There is exactly one well-formed record with this id, and it has this status.
  predicate RecordSays(records: seq<Record>, ref: string, status: string) {
    RecordsOf(records, ref) == [Fields(Some(ref), Some(status))]
  }

  // Eligible in the records' own terms: some evidence, no contradiction anywhere, and for every
  // reference exactly one well-formed record, which says "verified".
  lemma EligibleMeansVerified(finding: Finding, records: seq<Record>, index: map<string, string>, globalConflicts: bool)
    requires IndexOf(records, index)
    ensures Eligible(finding, index, globalConflicts) <==>
      && !globalConflicts && !finding.contradictions
      && (exists ref :: ref != "" && Some(ref) in finding.refs)
      && (forall ref | Some(ref) in finding.refs && ref != "" :: RecordSays(records, ref, "verified"))
  {
    var refs := StringItems(finding.refs);
    forall ref | ref in refs ensures Get(index, ref) == Some(VERIFIED) <==> RecordSays(records, ref, "verified") {
      IndexSays(records, index, ref);
    }
    if refs != [] { assert refs[0] in refs; }
    hide IndexOf, RecordSays, StringItems;
  }

  lemma {:induction false} FoundHaveId(records: seq<Record>, id: string)
    ensures forall record | record in RecordsOf(records, id) :: WellFormed(record) && record.id == Some(id)
  {
    if records != [] { FoundHaveId(records[..|records| - 1], id); }
  }

  lemma IndexSays(records: seq<Record>, index: map<string, string>, ref: string)
    requires IndexOf(records, index)
    ensures Get(index, ref) == Some(VERIFIED) <==> RecordSays(records, ref, "verified")
    ensures Get(index, ref) == Some(UNVERIFIED) <==> RecordSays(records, ref, "unverified")
    ensures ref !in index <==> !RecordSays(records, ref, "verified") && !RecordSays(records, ref, "unverified")
  {
    assert IndexedRight(records, index, ref);
    FoundHaveId(records, ref);
  }

  // An empty id names no record.
  lemma EmptyIdIsNotIndexed(records: seq<Record>, index: map<string, string>)
    requires IndexOf(records, index)
    ensures "" !in index && RecordsOf(records, "") == []
  {
    assert IndexedRight(records, index, "");
    var found := RecordsOf(records, "");
    assert found != [] ==> found[0] in found;
    FoundHaveId(records, "");
  }

  // What each reason says, and that there is no other.
  ghost predicate ReasonHolds(reason: Reason, finding: Finding, records: seq<Record>, globalConflicts: bool) {
    match reason
    case NoEvidenceRefs => forall ref | Some(ref) in finding.refs :: ref == ""
    case UnresolvedRefs(refs) => refs != [] && forall ref :: ref in refs <==> Unresolved(finding, records, ref)
    case UnverifiedRefs(refs) => refs != [] && forall ref :: ref in refs <==> Doubtful(finding, records, ref)
    case FindingContradictions => finding.contradictions
    case BriefConflicts => globalConflicts
    case NotEstablished => false
  }

  predicate Unresolved(finding: Finding, records: seq<Record>, ref: string) {
    Some(ref) in finding.refs && ref != "" && !RecordSays(records, ref, "verified") && !RecordSays(records, ref, "unverified")
  }

  predicate Doubtful(finding: Finding, records: seq<Record>, ref: string) {
    Some(ref) in finding.refs && ref != "" && RecordSays(records, ref, "unverified")
  }

  lemma RefsSay(finding: Finding, records: seq<Record>, index: map<string, string>)
    requires IndexOf(records, index)
    ensures var refs := StringItems(finding.refs);
      && (refs == [] <==> forall ref | Some(ref) in finding.refs :: ref == "")
      && (forall ref :: ref in Missing(refs, index) <==> Unresolved(finding, records, ref))
      && (forall ref :: ref in NotYetVerified(refs, index) <==> Doubtful(finding, records, ref))
  {
    var refs := StringItems(finding.refs);
    forall ref
      ensures ref in Missing(refs, index) <==> Unresolved(finding, records, ref)
      ensures ref in NotYetVerified(refs, index) <==> Doubtful(finding, records, ref)
    {
      IndexSays(records, index, ref);
      hide IndexOf, RecordSays, StringItems, Missing, NotYetVerified;
    }
    if refs != [] { assert refs[0] in refs; }
  }

  // Every reason given holds, every reason that holds is given, and they come in their order.
  lemma ReasonsSay(finding: Finding, records: seq<Record>, index: map<string, string>, globalConflicts: bool)
    requires IndexOf(records, index)
    ensures var reasons := SpecificReasons(finding, index, globalConflicts);
      && (forall reason | reason in reasons :: ReasonHolds(reason, finding, records, globalConflicts))
      && (NoEvidenceRefs in reasons <==> ReasonHolds(NoEvidenceRefs, finding, records, globalConflicts))
      && ((exists refs :: UnresolvedRefs(refs) in reasons) <==> exists ref :: Unresolved(finding, records, ref))
      && ((exists refs :: UnverifiedRefs(refs) in reasons) <==> exists ref :: Doubtful(finding, records, ref))
      && (FindingContradictions in reasons <==> finding.contradictions)
      && (BriefConflicts in reasons <==> globalConflicts)
      && (forall i, j | 0 <= i < j < |reasons| :: Order(reasons[i]) < Order(reasons[j]))
  {
    hide IndexOf, Unresolved, Doubtful, StringItems, Missing, NotYetVerified;
    RefsSay(finding, records, index);
    var refs := StringItems(finding.refs);
    ReasonsListed(finding, index, globalConflicts);
    if Missing(refs, index) != [] { assert Missing(refs, index)[0] in Missing(refs, index); }
    if NotYetVerified(refs, index) != [] { assert NotYetVerified(refs, index)[0] in NotYetVerified(refs, index); }
    hide SpecificReasons;
  }

  lemma ReasonsListed(finding: Finding, index: map<string, string>, globalConflicts: bool)
    ensures var reasons, refs := SpecificReasons(finding, index, globalConflicts), StringItems(finding.refs);
      && (forall reason :: reason in reasons <==>
            || (reason == NoEvidenceRefs && refs == [])
            || (reason == UnresolvedRefs(Missing(refs, index)) && Missing(refs, index) != [])
            || (reason == UnverifiedRefs(NotYetVerified(refs, index)) && NotYetVerified(refs, index) != [])
            || (reason == FindingContradictions && finding.contradictions)
            || (reason == BriefConflicts && globalConflicts))
      && (forall i, j | 0 <= i < j < |reasons| :: Order(reasons[i]) < Order(reasons[j]))
  {
    hide StringItems, Missing, NotYetVerified;
  }

  // The order in which the reasons are rendered.
  function Order(reason: Reason): nat {
    match reason
    case NoEvidenceRefs => 0
    case UnresolvedRefs(_) => 1
    case UnverifiedRefs(_) => 2
    case FindingContradictions => 3
    case BriefConflicts => 4
    case NotEstablished => 5
  }
}
