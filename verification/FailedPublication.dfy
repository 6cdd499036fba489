/** A talent run that failed with research packets can be published for review, and no decision
    about that review is ever accepted (api/publication_service.py, api/review_repository.py). */
module FailedPublication {
  import opened ReviewTypes
  import opened Publications
  import opened RunLifecycle
  import opened RunInvariant
  import opened FinalizationPreservation
  import opened Executions
  import opened PublicationHistory
  import opened AgentResults
  import opened DecisionOutcomes

  // Building a publication asks for the talent profile and for packets, not for a completed run.
  ghost predicate AwaitsReview(t: RunState) {
    && t.row.execution == Failed && t.row.delivery == ReviewRequired && t.row.review == Required
    && |t.publications| == 1 && t.publications[0].current && t.publications[0].status == PublishedForReview
    && 1 in t.workflows && t.workflows[1].status == CheckpointPending && t.workflows[1].review == t.publications[0].review
  }

  lemma FailedRunIsPublished(s: RunState, build: Build, now: Instant)
    requires Inv(s) && s.row.profile == Talent && s.row.execution == Failed && s.packets > 0
    requires s.publications == [] && s.bundles == map[] && build.Built?
    ensures var step := FinalizePublication(s, s.row.version, build, now);
      step.Commit? && !step.replay && AwaitsReview(step.state)
  {
    hide Bundled, Started, Chain, Leases, Decided, Published, Verification, Artifacts, FinalizePublication, PublishRevision,
      EffectiveSnapshot, NewestIndex, AdoptBaseline, InsertAll;
    var t := Prepared(s);
    NothingToAdopt(s);
    PreparedKeeps(s);
    PreparedStep(s, build, now);
    FinalizationCases(s, s.row.version, build, now);
    RevisionCommits(t, build, now);
    PublishRevises(t, build, now);
  }

  // A run that comes to that --------------------------------------------------------------

  const RUN: RunId := "r"
  const FAILURE := FinalArguments(InitialSegment(RUN), 1, {Running}, Failed, DeliveryFailed, NotRequired, [], 1, None, [], false, true)
  const BUILD := Built("b", [], 0)
  const SETUP := [Create(RUN, Talent), On(RUN, Start(0)), On(RUN, Finish(FAILURE, 0)), On(RUN, Publish(2, BUILD, 0))]

  const RUNNING := CreateRun(RUN, Talent).(row := RunRow(Talent, Running, NotRequired, DeliveryPending, 1))
  const FAILED := RUNNING.(row := RunRow(Talent, Failed, NotRequired, DeliveryFailed, 2), packets := 1)

  lemma RunFails()
    ensures Perform(map[], SETUP[0]) == map[RUN := CreateRun(RUN, Talent)]
    ensures Perform(map[RUN := CreateRun(RUN, Talent)], SETUP[1]) == map[RUN := RUNNING]
    ensures Perform(map[RUN := RUNNING], SETUP[2]) == map[RUN := FAILED]
  {
    assert 0 in RUNNING.segments && RUNNING.segments[0] == FAILURE.segment;
    assert InsertAll(RUNNING.artifacts, []) == RUNNING.artifacts && InsertEvidence(RUN, RUNNING.evidence, []) == RUNNING.evidence;
  }

  lemma SetupExecutes()
    ensures Execute(map[], SETUP[..3]) == map[RUN := FAILED]
    ensures Execute(map[], SETUP) == Perform(map[RUN := FAILED], SETUP[3])
  {
    hide Perform, CreateRun;
    RunFails();
    var short := SETUP[..3];
    assert short[1..][0] == SETUP[1] && short[1..][1..] == short[2..] && short[2..][0] == SETUP[2] && short[2..][1..] == [];
    assert Execute(map[RUN := RUNNING], short[2..]) == Execute(map[RUN := FAILED], []);
    assert Execute(map[RUN := CreateRun(RUN, Talent)], short[1..]) == Execute(map[RUN := RUNNING], short[2..]);
    assert SETUP[1..][0] == SETUP[1] && SETUP[1..][1..] == SETUP[2..] && SETUP[2..][0] == SETUP[2] && SETUP[2..][1..] == SETUP[3..];
    assert SETUP[3..][0] == SETUP[3] && SETUP[3..][1..] == [];
    assert Execute(map[RUN := FAILED], SETUP[3..]) == Execute(Perform(map[RUN := FAILED], SETUP[3]), []);
    assert Execute(map[RUN := RUNNING], SETUP[2..]) == Execute(map[RUN := FAILED], SETUP[3..]);
    assert Execute(map[RUN := CreateRun(RUN, Talent)], SETUP[1..]) == Execute(map[RUN := RUNNING], SETUP[2..]);
  }

  // After these commands the run waits for a review; and whatever commands follow, every decision
  // about it is refused and changes nothing.
  lemma WaitsForEver(commands: seq<DbCommand>, review: ReviewId, request: DecisionRequest)
    ensures var db := Execute(map[], SETUP);
      && RUN in db && AwaitsReview(db[RUN])
      && Perform(Execute(db, commands), On(RUN, Decide(review, request))) == Execute(db, commands)
  {
    hide Execute, Inv, FinalizePublication;
    SetupExecutes();
    ReachableKeeps(SETUP[..3]);
    ReachableKeeps(SETUP);
    FailedRunIsPublished(FAILED, BUILD, 0);
    FailedRunNeverDecided(Execute(map[], SETUP), RUN, commands, review, request);
  }
}
