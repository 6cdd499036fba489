/** The projection of a run is read in several statements without a transaction
    (api/run_repository.py, get_run): first the run's row, later its publications and artifacts.
    Steps of others may commit in between. */
module SplitRead {
  import opened ReviewTypes
  import opened Publications
  import opened RunLifecycle
  import opened ReviewResolution
  import opened RunInvariant
  import opened VerificationPreservation
  import opened Evolution
  import opened Executions
  import opened DeliverySafety

  // A current publication is ready exactly when the run's delivery status says so.
  lemma DeliverableIsReady(u: RunState, id: ArtifactId)
    requires Chain(u) && Published(u) && Deliverable(u, id)
    ensures u.row.delivery == Ready
  {
    CurrentIsNewest(u);
  }

  lemma SameServed(s: RunState, u: RunState, valid: Artifact -> bool)
    requires RowEvolves(s, u) && u.row.delivery == Ready && ServeResult(s.row, u, valid).Some?
    ensures ServeResult(u.row, u, valid) == ServeResult(s.row, u, valid)
  {
  }

  // What a split read serves may be delivered exactly when delivery is still ready at the
  // later read: reading the delivery status once more afterwards would close the gap.
  lemma SplitReadIsSafeIffStillReady(s: RunState, u: RunState, valid: Artifact -> bool, id: ArtifactId)
    requires Inv(u) && Evolves(s, u) && u.publications != []
    requires ServeResult(s.row, u, valid) == Some(id)
    ensures Deliverable(u, id) <==> u.row.delivery == Ready
  {
    hide Deliverable, ServeResult;
    if Deliverable(u, id) { DeliverableIsReady(u, id); }
    if u.row.delivery == Ready {
      SameServed(s, u, valid);
      ServedIsDeliverable(u, valid, id);
    }
  }

  // ... over any commands between the two reads.
  lemma SplitReadOverRuns(before: seq<DbCommand>, between: seq<DbCommand>, run: RunId, valid: Artifact -> bool, id: ArtifactId)
    ensures var db := Execute(map[], before);
      run in db ==>
        var later := Execute(db, between);
        run in later &&
        (later[run].publications != [] && ServeResult(db[run].row, later[run], valid) == Some(id) ==>
           (Deliverable(later[run], id) <==> later[run].row.delivery == Ready))
  {
    var db := Execute(map[], before);
    if run in db {
      ReachableKeeps(before);
      ExecutionKeeps(db, between);
      ExecutionEvolves(db, between);
      var later := Execute(db, between);
      hide Execute, Inv, Evolves, Deliverable, ServeResult;
      if later[run].publications != [] && ServeResult(db[run].row, later[run], valid) == Some(id) {
        SplitReadIsSafeIffStillReady(db[run], later[run], valid, id);
      }
    }
  }

  // The gap is real: from every ready talent state, a verification decision that commits
  // between the two reads leaves the original brief served although nothing may be delivered.
  lemma WithdrawnBriefStillServed(s: RunState, item: EvidenceId, request: VerificationRequest, valid: Artifact -> bool)
    requires Inv(s) && s.publications != [] && s.row.delivery == Ready && s.row.execution == Completed
    requires valid(s.artifacts[BriefMarkdownId(1)])
    ensures var step := AcceptVerification(s, false, item, request);
      step.Commit? && !step.replay ==>
        && ServeResult(s.row, step.state, valid) == Some(BriefMarkdownId(1))
        && !Deliverable(step.state, BriefMarkdownId(1))
  {
    assert 1 in s.bundles && BriefStored(s, 1);
    assert s.row.profile == Talent;
    var step := AcceptVerification(s, false, item, request);
    VerificationWithdraws(s, false, item, request, valid);
    VerifyEvolves(s, false, item, request);
    hide Inv, AcceptVerification;
    if step.Commit? && !step.replay {
      assert step.state.artifacts[BriefMarkdownId(1)] == s.artifacts[BriefMarkdownId(1)];
      NoneCurrentServes(s.row, step.state, valid);
    }
  }

  lemma NoneCurrentServes(row: RunRow, t: RunState, valid: Artifact -> bool)
    requires row.profile == Talent && row.execution == Completed && row.delivery == Ready
    requires CurrentIndex(t.publications).None? && BriefMarkdownId(1) in t.artifacts && valid(t.artifacts[BriefMarkdownId(1)])
    ensures ServeResult(row, t, valid) == Some(BriefMarkdownId(1))
  {
  }

  // A run that reaches such a state ---------------------------------------------------------

  const RUN: RunId := "r"
  const ITEM := EvidenceId(RUN, "f")
  const BASELINE := WithContentHash(Brief("brief", ReviewSummary([], NotRequired, false, None), 0, NoHash))
  const RESULT := FinalArguments(InitialSegment(RUN), 1, {Running}, Completed, Ready, NotRequired,
    [EvidenceEntry("f", Evidence(false, true))], 1, Some(Bundle(ReviewId(RUN, 1, []), false)), BriefArtifacts(1, BASELINE), false, true)
  const SETUP := [Create(RUN, Talent), On(RUN, Start(0)), On(RUN, Finish(RESULT, 0))]
  const DOUBT := VerificationRequest("v", "f", 0, RejectEvidence, None)

  const PASSES: Artifact -> bool := _ => true

  function FinishedRun(): RunState {
    After(After(CreateRun(RUN, Talent), Start(0), false), Finish(RESULT, 0), false)
  }

  lemma SetupFinishes()
    ensures Execute(map[], SETUP) == map[RUN := FinishedRun()]
  {
    hide CreateRun, After;
    var db0: Db := map[];
    var db1: Db := map[RUN := CreateRun(RUN, Talent)];
    var db2: Db := map[RUN := After(CreateRun(RUN, Talent), Start(0), false)];
    assert Perform(db0, SETUP[0]) == db1;
    assert Perform(db1, SETUP[1]) == db2;
    assert Perform(db2, SETUP[2]) == map[RUN := FinishedRun()];
    assert SETUP[1..][0] == SETUP[1] && SETUP[1..][1..] == SETUP[2..] && SETUP[2..][0] == SETUP[2] && SETUP[2..][1..] == [];
    assert Execute(db2, SETUP[2..]) == Execute(map[RUN := FinishedRun()], []);
    assert Execute(db1, SETUP[1..]) == Execute(db2, SETUP[2..]);
  }

  lemma FinishedIsReady()
    ensures FinishedRun().publications != [] && FinishedRun().row == RunRow(Talent, Completed, NotRequired, Ready, 2)
    ensures FinishedRun().evidence == map[ITEM := Evidence(false, true)] && FinishedRun().ledger == []
  {
    var s := After(CreateRun(RUN, Talent), Start(0), false);
    assert s == CreateRun(RUN, Talent).(row := RunRow(Talent, Running, NotRequired, DeliveryPending, 1));
    InsertResult(s);
  }

  lemma InsertResult(s: RunState)
    requires s == CreateRun(RUN, Talent).(row := RunRow(Talent, Running, NotRequired, DeliveryPending, 1))
    ensures var step := FinalizeRun(s, RESULT, 0);
      step.Commit? && step.state.publications != [] && step.state.row == RunRow(Talent, Completed, NotRequired, Ready, 2) &&
      step.state.evidence == map[ITEM := Evidence(false, true)] && step.state.ledger == []
  {
    var rows := RESULT.artifacts;
    assert 0 in s.segments && s.segments[0] == RESULT.segment;
    assert rows[1..] == [rows[1]] && [rows[1]][1..] == [];
    assert InsertAll(s.artifacts, rows) == map[BriefJsonId(1) := rows[0].1][BriefMarkdownId(1) := rows[1].1];
    assert InsertEvidence(RUN, s.evidence, RESULT.entries) == map[ITEM := Evidence(false, true)];
  }

  lemma DoubtCommits(s: RunState)
    requires s.evidence == map[ITEM := Evidence(false, true)] && s.ledger == []
    ensures var step := AcceptVerification(s, false, ITEM, DOUBT); step.Commit? && !step.replay
  {
    hide AdoptBaseline, StaleCurrent;
  }

  lemma DoubtPerforms(db: Db)
    requires RUN in db && db.Keys == {RUN} && AcceptVerification(db[RUN], false, ITEM, DOUBT).Commit?
    ensures Perform(db, On(RUN, Verify(ITEM, DOUBT))) == map[RUN := AcceptVerification(db[RUN], false, ITEM, DOUBT).state]
  {
    hide AcceptVerification;
    assert !UsedByAnother(db, RUN, Verify(ITEM, DOUBT));
  }

  lemma GapIsReachable()
    ensures var db := Execute(map[], SETUP);
      RUN in db &&
      var later := Perform(db, On(RUN, Verify(ITEM, DOUBT)));
      RUN in later && ServeResult(db[RUN].row, later[RUN], PASSES) == Some(BriefMarkdownId(1)) &&
      !Deliverable(later[RUN], BriefMarkdownId(1))
  {
    SetupFinishes();
    FinishedIsReady();
    ReachableKeeps(SETUP);
    hide FinishedRun, AcceptVerification, Deliverable, ServeResult, Execute, Perform, Inv;
    DoubtCommits(FinishedRun());
    DoubtPerforms(map[RUN := FinishedRun()]);
    WithdrawnBriefStillServed(FinishedRun(), ITEM, DOUBT, PASSES);
  }
}
