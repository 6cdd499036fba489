/** Creating, starting and finalising a run establish and keep its invariant. */
module RunPreservation {
  import opened ReviewTypes
  import opened Publications
  import opened RunLifecycle
  import opened RunInvariant
  import opened PublicationPreservation
  import opened FinalizationPreservation

  lemma CreateEstablishes(id: RunId, profile: Profile)
    ensures Inv(CreateRun(id, profile)) && CreateRun(id, profile).id == id
  {
  }

  // Before finalisation nothing has been decided, published or stored.
  lemma NothingYet(s: RunState)
    requires Bundled(s) && Leases(s) && Decided(s) && Started(s)
    requires s.row.execution == Pending || s.row.execution == Running
    ensures Bare(s) && s.workflows == map[] && s.attempts == map[] && s.decisions == map[] && s.resolutions == map[]
    ensures s.segments == map[0 := InitialSegment(s.id)]
  {
    assert s.workflows.Keys <= s.bundles.Keys;
  }

  lemma TransitionKeeps(s: RunState, expectedVersion: nat, allowed: set<Execution>)
    requires Inv(s) && allowed == {Pending}
    ensures var step := TransitionToRunning(s, expectedVersion, allowed); step.Commit? ==> Inv(step.state)
  {
    var step := TransitionToRunning(s, expectedVersion, allowed);
    if step.Commit? {
      NothingYet(s);
    }
  }

  lemma InsertedEvidence(run: RunId, table: map<EvidenceId, Evidence>, entries: seq<EvidenceEntry>)
    requires forall item | item in table :: item.run == run
    ensures forall item | item in InsertEvidence(run, table, entries) :: item.run == run
    decreases entries
  {
  }

  // What a finaliser writes, before any adoption.
  ghost predicate Finalised(s: RunState, t: RunState, a: FinalArguments, now: Instant) {
    && t == s.(row := FinalRow(s, a), evidence := t.evidence, packets := t.packets,
               bundles := t.bundles, workflows := t.workflows, artifacts := t.artifacts)
    && (forall item | item in t.evidence :: item.run == t.id)
    && (if a.bundle.None? then t.bundles == map[] && t.workflows == map[] && (t.artifacts == map[] || t.artifacts.Keys == {ReportId})
        else TalentArguments(s.id, a) && FinalisedTalent(t, a, now))
  }

  ghost predicate FinalisedTalent(t: RunState, a: FinalArguments, now: Instant)
    requires a.bundle.Some? && |a.artifacts| == 2
  {
    && t.row.profile == Talent && t.row.execution == Completed
    && t.bundles == map[1 := a.bundle.value]
    && t.workflows == (if a.workflow then map[1 := NewWorkflow(a.bundle.value.review, now)] else map[])
    && t.artifacts == map[BriefJsonId(1) := a.artifacts[0].1][BriefMarkdownId(1) := a.artifacts[1].1]
  }

  function Stored(s: RunState, a: FinalArguments, now: Instant): RunState {
    var step := FinalizeRun(s, a.(publishing := false), now);
    if step.Commit? then step.state else s
  }

  lemma FinalizationStores(s: RunState, a: FinalArguments, now: Instant)
    ensures var step := FinalizeRun(s, a, now);
      step.Commit? ==>
        && Fenced(s, a.expectedVersion, a.allowed)
        && !step.replay
        && step.state == (if a.publishing then AdoptBaseline(Stored(s, a, now)) else Stored(s, a, now))
        && FinalizeRun(s, a.(publishing := false), now).Commit?
  {
    hide AdoptBaseline, CanInsert, InsertAll, CanInsertEvidence, InsertEvidence, NewWorkflow, Fenced;
  }

  lemma InsertOne(table: map<ArtifactId, Artifact>, rows: seq<(ArtifactId, Artifact)>)
    requires |rows| == 1
    ensures InsertAll(table, rows) == table[rows[0].0 := rows[0].1]
  {
    assert InsertAll(table, rows) == InsertAll(table[rows[0].0 := rows[0].1], rows[1..]);
  }

  lemma StoredIsFinalised(s: RunState, a: FinalArguments, now: Instant)
    requires Bare(s) && s.workflows == map[] && ServerArguments(s.id, s.row.profile, a)
    requires FinalizeRun(s, a.(publishing := false), now).Commit?
    ensures Finalised(s, Stored(s, a, now), a, now)
  {
    InsertedEvidence(s.id, s.evidence, a.entries);
    if a.bundle.Some? { InsertPair(s.artifacts, a.artifacts); }
    else if a.artifacts != [] { InsertOne(s.artifacts, a.artifacts); }
  }

  lemma FinalisedKeepsReviews(s: RunState, t: RunState, a: FinalArguments, now: Instant)
    requires Finalised(s, t, a, now) && s.attempts == map[] && s.decisions == map[] && s.resolutions == map[]
    ensures Leases(t) && Decided(t)
  {
    forall k | k in t.workflows ensures LeaseKept(t, k) && DecisionKept(t, k) {}
  }

  lemma FinalisedKeepsBundled(s: RunState, t: RunState, a: FinalArguments, now: Instant)
    requires Finalised(s, t, a, now) && ServerArguments(s.id, s.row.profile, a)
    ensures Bundled(t)
  {
  }

  lemma FinalisedKeepsRows(s: RunState, t: RunState, a: FinalArguments, now: Instant)
    requires s.publications == [] && s.segments == map[0 := InitialSegment(s.id)]
    requires Finalised(s, t, a, now) && ServerArguments(s.id, s.row.profile, a)
    ensures Started(t) && Chain(t)
  {
  }

  lemma FinalisedKeepsPublished(s: RunState, t: RunState, a: FinalArguments, now: Instant)
    requires s.publications == [] && s.ledger == []
    requires Finalised(s, t, a, now) && ServerArguments(s.id, s.row.profile, a)
    ensures Published(t) && Verification(t)
  {
    if a.bundle.Some? { assert Standing(t); }
  }

  lemma FinalisedKeepsArtifacts(s: RunState, t: RunState, a: FinalArguments, now: Instant)
    requires s.publications == []
    requires Finalised(s, t, a, now)
    ensures Artifacts(t)
  {
    if a.bundle.Some? {
      FinalisedTalentStores(t, a, now);
      hide FinalisedTalent, TalentArguments, BriefIdsBundled, ReviewedStored, BriefStored;
    }
  }

  lemma FinalisedTalentStores(t: RunState, a: FinalArguments, now: Instant)
    requires TalentArguments(t.id, a) && FinalisedTalent(t, a, now)
    ensures BriefStored(t, 1) && BriefIdsBundled(t) && forall k: nat :: ReviewedStored(t, k)
  {
  }

  lemma FinalizeRunKeeps(s: RunState, a: FinalArguments, now: Instant)
    requires Inv(s) && ServerArguments(s.id, s.row.profile, a)
    ensures var step := FinalizeRun(s, a, now); step.Commit? ==> Inv(step.state)
  {
    FinalizationStores(s, a, now);
    if FinalizeRun(s, a, now).Commit? {
      var t := Stored(s, a, now);
      NothingYet(s);
      StoredIsFinalised(s, a, now);
      FinalisedKeepsReviews(s, t, a, now);
      FinalisedKeepsBundled(s, t, a, now);
      FinalisedKeepsRows(s, t, a, now);
      FinalisedKeepsPublished(s, t, a, now);
      FinalisedKeepsArtifacts(s, t, a, now);
      AdoptKeeps(t);
    }
  }
}
