/** What the agent comes back with, the arguments that the server makes of it for the finaliser
    (api/server.py), and what the finaliser then leaves in the database (api/run_repository.py). */
module AgentResults {
  import opened ReviewTypes
  import opened VerificationLedger
  import opened Publications
  import opened RunLifecycle
  import opened RunInvariant
  import opened PublicationPreservation
  import opened FinalizationPreservation
  import opened RunPreservation
  import opened RunFinalisers

  // What the agent comes back with; the report, or the triggers and the brief, as the profile asks.
  datatype AgentResult = AgentResult(
    failed: bool,
    entries: seq<EvidenceEntry>,
    packets: nat,
    report: string,
    triggers: seq<string>,
    brief: string,
    generatedAt: Instant)

  datatype Settings = Settings(durableReviews: bool, publications: bool)

  function Failure(id: RunId, version: nat, allowed: set<Execution>, entries: seq<EvidenceEntry>, packets: nat, settings: Settings): FinalArguments {
    FinalArguments(InitialSegment(id), version, allowed, Failed, DeliveryFailed, NotRequired, entries, packets, None, [], false,
                   settings.publications)
  }

  function BaselineBrief(r: AgentResult): Brief {
    var required := r.triggers != [];
    WithContentHash(Brief(r.brief, ReviewSummary(r.triggers, if required then Required else NotRequired, required, None), r.generatedAt, NoHash))
  }

  // The arguments of the normal finaliser.
  function Normal(id: RunId, profile: Profile, r: AgentResult, settings: Settings): FinalArguments {
    if r.failed then Failure(id, 1, {Running}, r.entries, r.packets, settings)
    else
      var done := FinalArguments(InitialSegment(id), 1, {Running}, Completed, Ready, NotRequired, r.entries, r.packets, None, [], false,
                                 settings.publications);
      match profile
      case Generic => done.(artifacts := [(ReportId, Artifact(ResearchReport, TextMarkdown, TextContent(r.report), TextHash(r.report)))])
      case Talent =>
        var required := r.triggers != [];
        done.(bundle := Some(Bundle(ReviewId(id, 1, r.triggers), required)),
              artifacts := BriefArtifacts(1, BaselineBrief(r)),
              review := if required then Required else NotRequired,
              delivery := if required then ReviewRequired else Ready,
              workflow := required && settings.durableReviews)
      case OtherProfile => done
  }

  // Every finaliser passes what the commands of module Executions allow, so what holds after any
  // commands holds after any interleaving of finalisers.
  lemma NormalIsServer(id: RunId, profile: Profile, r: AgentResult, settings: Settings)
    ensures ServerArguments(id, profile, Normal(id, profile, r, settings))
  {
    if !r.failed && profile == Talent { assert |BriefArtifacts(1, BaselineBrief(r))| == 2; }
  }

  lemma FailureIsServer(id: RunId, profile: Profile, version: nat, allowed: set<Execution>, entries: seq<EvidenceEntry>, packets: nat, settings: Settings)
    requires allowed == {Pending} || allowed == {Running}
    ensures ServerArguments(id, profile, Failure(id, version, allowed, entries, packets, settings))
  {
  }

  // What a finaliser leaves, in terms of what it was given --------------------------------------

  // The evidence rows are those of the entries.
  ghost predicate EvidenceStored(s: RunState, entries: seq<EvidenceEntry>) {
    && (forall e | e in entries :: EvidenceId(s.id, e.fingerprint) in s.evidence && s.evidence[EvidenceId(s.id, e.fingerprint)] == e.evidence)
    && (forall item | item in s.evidence :: exists e | e in entries :: item == EvidenceId(s.id, e.fingerprint))
  }

  // A failed run keeps its evidence and its packets and delivers nothing.
  ghost predicate FailureStored(before: RunState, after: RunState, entries: seq<EvidenceEntry>, packets: nat) {
    && after == before.(row := after.row, evidence := after.evidence, packets := packets)
    && after.row == RunRow(before.row.profile, Failed, NotRequired, DeliveryFailed, before.row.version + 1)
    && EvidenceStored(after, entries)
  }

  // A completed run is ready at once, but for a talent result with triggers, which waits for its review.
  ghost predicate ResultStored(before: RunState, after: RunState, r: AgentResult, settings: Settings, now: Instant) {
    && after.row.execution == Completed && after.row.profile == before.row.profile && after.row.version == before.row.version + 1
    && EvidenceStored(after, r.entries) && after.packets == r.packets
    && after.ledger == [] && after.decisions == map[] && after.resolutions == map[] && after.attempts == map[]
    && after.segments == before.segments
    && match before.row.profile
       case Generic => ReportStored(after, r)
       case Talent => ReviewStored(after, r, settings, now) && BriefStoredAs(after, r) && PublishedAs(after, r, settings)
       case OtherProfile => NothingReviewed(after) && after.artifacts == map[]
  }

  predicate NothingReviewed(after: RunState) {
    && after.row.delivery == Ready && after.row.review == NotRequired
    && after.bundles == map[] && after.workflows == map[] && after.publications == []
  }

  predicate ReportStored(after: RunState, r: AgentResult) {
    && NothingReviewed(after)
    && after.artifacts.Keys == {ReportId}
    && after.artifacts[ReportId].kind == ResearchReport && after.artifacts[ReportId].media == TextMarkdown
    && after.artifacts[ReportId].content == TextContent(r.report) && after.artifacts[ReportId].contentHash == TextHash(r.report)
  }

  ghost predicate ReviewStored(after: RunState, r: AgentResult, settings: Settings, now: Instant) {
    var review := ReviewId(after.id, 1, r.triggers);
    && (after.row.delivery == ReviewRequired <==> r.triggers != [])
    && (after.row.delivery == Ready <==> r.triggers == [])
    && (after.row.review == Required <==> r.triggers != [])
    && (after.row.review == NotRequired <==> r.triggers == [])
    && after.bundles.Keys == {1} && after.bundles[1].review == review && (after.bundles[1].required <==> r.triggers != [])
    && (1 in after.workflows <==> r.triggers != [] && settings.durableReviews)
    && (forall k | k in after.workflows ::
          && k == 1 && after.workflows[k].review == review && after.workflows[k].status == CheckpointPending
          && after.workflows[k].decision == None && after.workflows[k].owner == None && after.workflows[k].attemptCount == 0
          && after.workflows[k].createdAt == now)
  }

  // The brief is stored twice, with the review it stands under.
  predicate BriefStoredAs(after: RunState, r: AgentResult) {
    && after.artifacts.Keys == {BriefJsonId(1), BriefMarkdownId(1)}
    && after.artifacts[BriefJsonId(1)].content.JsonContent?
    && var brief := after.artifacts[BriefJsonId(1)].content.brief;
    && brief.body == r.brief && brief.generatedAt == r.generatedAt
    && brief.summary.triggers == r.triggers && brief.summary.decision == None
    && (brief.summary.status == Required <==> r.triggers != []) && (brief.summary.status == NotRequired <==> r.triggers == [])
    && (brief.summary.requiredBeforeDelivery <==> r.triggers != [])
    && brief.contentHash == BriefHash(brief.body, brief.summary)
    && after.artifacts[BriefMarkdownId(1)].content == MarkdownContent(brief)
    && (forall id | id in after.artifacts :: after.artifacts[id].contentHash == brief.contentHash)
  }

  // With publications the brief is revision 1 at once, over what nobody has verified yet.
  ghost predicate PublishedAs(after: RunState, r: AgentResult, settings: Settings) {
    if !settings.publications then after.publications == [] else
    && |after.publications| == 1
    && var p := after.publications[0];
    && p.revision == 1 && p.current && p.supersedes == None && p.review == ReviewId(after.id, 1, r.triggers)
    && p.status == (if r.triggers == [] then PublishedReady else PublishedForReview)
    && p.artifactIds == [BriefJsonId(1), BriefMarkdownId(1)]
    && BriefJsonId(1) in after.artifacts && p.contentHash == after.artifacts[BriefJsonId(1)].contentHash
    && p.snapshot == EffectiveSnapshot(after)
  }

  lemma {:induction false} InsertedAsGiven(run: RunId, table: map<EvidenceId, Evidence>, entries: seq<EvidenceEntry>)
    requires DistinctEntries(entries)
    requires forall e | e in entries :: EvidenceId(run, e.fingerprint) !in table
    ensures var result := InsertEvidence(run, table, entries);
      && (forall e | e in entries :: EvidenceId(run, e.fingerprint) in result && result[EvidenceId(run, e.fingerprint)] == e.evidence)
      && (forall item | item in result :: item in table || exists e | e in entries :: item == EvidenceId(run, e.fingerprint))
      && (forall item | item in table :: item in result && result[item] == table[item])
    decreases |entries|
  {
    if entries != [] {
      var rest := entries[1..];
      var next := table[EvidenceId(run, entries[0].fingerprint) := entries[0].evidence];
      assert entries == [entries[0]] + rest;
      forall e | e in rest ensures EvidenceId(run, e.fingerprint) !in next {
        var j :| 0 <= j < |rest| && rest[j] == e;
        assert entries[j + 1] == e;
      }
      forall i, j | 0 <= i < j < |rest| ensures rest[i].fingerprint != rest[j].fingerprint {
        assert entries[i + 1] == rest[i] && entries[j + 1] == rest[j];
      }
      InsertedAsGiven(run, next, rest);
    }
  }

  // ... and the finaliser leaves just that ------------------------------------------------------

  lemma EvidenceIsStored(s: RunState, entries: seq<EvidenceEntry>)
    requires s.evidence == map[] && DistinctEntries(entries)
    ensures EvidenceStored(s.(evidence := InsertEvidence(s.id, s.evidence, entries)), entries)
  {
    InsertedAsGiven(s.id, s.evidence, entries);
  }

  lemma CommittedEntriesDiffer(s: RunState, a: FinalArguments, now: Instant)
    requires FinalizeRun(s, a, now).Commit?
    ensures DistinctEntries(a.entries) && s.row.version == a.expectedVersion && s.row.execution in a.allowed
  {
    hide AdoptBaseline;
  }

  // The rows of a finaliser on a run that has none yet, before any adoption.
  function Rows(s: RunState, a: FinalArguments, now: Instant): RunState {
    s.(row := FinalRow(s, a), evidence := InsertEvidence(s.id, map[], a.entries), packets := a.packets,
       bundles := if a.bundle.None? then map[] else map[a.bundle.value.review.revision := a.bundle.value],
       workflows := if a.workflow && a.bundle.Some?
                    then map[a.bundle.value.review.revision := NewWorkflow(a.bundle.value.review, now)] else map[],
       artifacts := InsertAll(map[], a.artifacts))
  }

  lemma FinaliserRows(s: RunState, a: FinalArguments, now: Instant)
    requires Bare(s) && s.workflows == map[] && FinalizeRun(s, a, now).Commit?
    ensures FinalizeRun(s, a, now).state == if a.publishing then AdoptBaseline(Rows(s, a, now)) else Rows(s, a, now)
  {
    hide AdoptBaseline, InsertEvidence, InsertAll, CanInsert, CanInsertEvidence, NewWorkflow;
  }

  // What every committed finaliser of the server starts from and stores.
  lemma FinaliserStarts(s: RunState, a: FinalArguments, now: Instant)
    requires Inv(s) && (a.allowed == {Pending} || a.allowed == {Running}) && FinalizeRun(s, a, now).Commit?
    ensures FinalizeRun(s, a, now).state == if a.publishing then AdoptBaseline(Rows(s, a, now)) else Rows(s, a, now)
    ensures EvidenceStored(Rows(s, a, now), a.entries)
    ensures s.row.version == a.expectedVersion && s.row.execution in a.allowed
    ensures s.publications == [] && s.ledger == [] && s.decisions == map[] && s.resolutions == map[] && s.attempts == map[]
    ensures s.workflows == map[] && s.bundles == map[] && s.artifacts == map[]
  {
    CommittedEntriesDiffer(s, a, now);
    NothingYet(s);
    hide Inv;
    FinaliserRows(s, a, now);
    hide FinalizeRun;
    InsertedAsGiven(s.id, map[], a.entries);
  }

  lemma FailureIsStored(s: RunState, version: nat, allowed: set<Execution>, entries: seq<EvidenceEntry>, packets: nat,
                        settings: Settings, now: Instant)
    requires Inv(s) && (allowed == {Pending} || allowed == {Running})
    requires FinalizeRun(s, Failure(s.id, version, allowed, entries, packets, settings), now).Commit?
    ensures FailureStored(s, FinalizeRun(s, Failure(s.id, version, allowed, entries, packets, settings), now).state, entries, packets)
  {
    hide Inv, FinalizeRun, EvidenceStored, InsertEvidence;
    var a := Failure(s.id, version, allowed, entries, packets, settings);
    FinaliserStarts(s, a, now);
    NothingToAdopt(Rows(s, a, now));
    SameEvidence(Rows(s, a, now), FinalizeRun(s, a, now).state, entries);
  }

  lemma NothingToAdopt(s: RunState)
    requires 1 !in s.bundles
    ensures AdoptBaseline(s) == s
  {
  }

  lemma SameEvidence(s: RunState, t: RunState, entries: seq<EvidenceEntry>)
    requires t.id == s.id && t.evidence == s.evidence && EvidenceStored(s, entries)
    ensures EvidenceStored(t, entries)
  {
  }

  lemma ReportIsStored(s: RunState, r: AgentResult, settings: Settings, now: Instant)
    requires s.row.profile == Generic && !r.failed && s.publications == []
    ensures ReportStored(Rows(s, Normal(s.id, Generic, r, settings), now), r)
  {
    var a := Normal(s.id, Generic, r, settings);
    InsertOne(map[], a.artifacts);
  }

  lemma ReviewIsStored(s: RunState, r: AgentResult, settings: Settings, now: Instant)
    requires s.row.profile == Talent && !r.failed && s.publications == [] && s.ledger == []
    ensures var t := Rows(s, Normal(s.id, Talent, r, settings), now);
      ReviewStored(t, r, settings, now) && BriefStoredAs(t, r) && Adoptable(t)
  {
    var a := Normal(s.id, Talent, r, settings);
    InsertPair(map[], a.artifacts);
  }

  // The baseline becomes revision 1 with the brief as its artifacts.
  lemma BaselineIsPublished(t: RunState, r: AgentResult, settings: Settings, now: Instant)
    requires ReviewStored(t, r, settings, now) && BriefStoredAs(t, r) && Adoptable(t)
    requires t.ledger == [] && t.resolutions == map[] && settings.publications
    ensures var u := AdoptBaseline(t);
      u == t.(publications := u.publications, snapshots := u.snapshots) && PublishedAs(u, r, settings)
  {
    var u := AdoptBaseline(t);
    assert AdoptedArtifactIds(t.artifacts) == [BriefJsonId(1), BriefMarkdownId(1)] by { ListsThePair(t.artifacts); }
    assert BaselineProjections(t.evidence) == Effective(t.evidence, t.ledger);
  }

  lemma ListsThePair(artifacts: map<ArtifactId, Artifact>)
    requires artifacts.Keys == {BriefJsonId(1), BriefMarkdownId(1)}
    ensures AdoptedArtifactIds(artifacts) == [BriefJsonId(1), BriefMarkdownId(1)]
  {
    PresentCons(artifacts, ReviewedMarkdownId(1), []);
    PresentCons(artifacts, ReviewedJsonId(1), [ReviewedMarkdownId(1)]);
    PresentCons(artifacts, BriefMarkdownId(1), [ReviewedJsonId(1), ReviewedMarkdownId(1)]);
    PresentCons(artifacts, BriefJsonId(1), [BriefMarkdownId(1), ReviewedJsonId(1), ReviewedMarkdownId(1)]);
    hide Present;
  }

  lemma ResultIsStored(s: RunState, r: AgentResult, settings: Settings, now: Instant)
    requires Inv(s) && FinalizeRun(s, Normal(s.id, s.row.profile, r, settings), now).Commit?
    ensures var t := FinalizeRun(s, Normal(s.id, s.row.profile, r, settings), now).state;
      if r.failed then FailureStored(s, t, r.entries, r.packets) else ResultStored(s, t, r, settings, now)
  {
    hide Inv, FinalizeRun, EvidenceStored, InsertEvidence, InsertAll, AdoptBaseline, ReportStored, ReviewStored, BriefStoredAs, PublishedAs, Adoptable;
    if r.failed {
      FailureIsStored(s, 1, {Running}, r.entries, r.packets, settings, now);
    } else {
      var a := Normal(s.id, s.row.profile, r, settings);
      var rows := Rows(s, a, now);
      FinaliserStarts(s, a, now);
      match s.row.profile {
        case Generic => ReportIsStored(s, r, settings, now); NothingToAdopt(rows);
        case Talent =>
          ReviewIsStored(s, r, settings, now);
          TalentIsStored(rows, r, settings, now);
        case OtherProfile => NothingToAdopt(rows); NoArtifacts();
      }
      SameEvidence(rows, FinalizeRun(s, a, now).state, r.entries);
    }
  }

  lemma NoArtifacts()
    ensures InsertAll(map[], []) == map[]
  {
  }

  lemma TalentIsStored(t: RunState, r: AgentResult, settings: Settings, now: Instant)
    requires ReviewStored(t, r, settings, now) && BriefStoredAs(t, r) && Adoptable(t) && t.ledger == [] && t.resolutions == map[]
    ensures var u := if settings.publications then AdoptBaseline(t) else t;
      && ReviewStored(u, r, settings, now) && BriefStoredAs(u, r) && PublishedAs(u, r, settings)
      && u == t.(publications := u.publications, snapshots := u.snapshots)
  {
    if settings.publications { BaselineIsPublished(t, r, settings, now); }
    hide AdoptBaseline, EffectiveSnapshot;
  }
}
