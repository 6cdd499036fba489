/** A run, from the empty stores, in which a verification decision between the reconciler's look at
    a checkpoint and its write ends the reconciliation with an exception (api/review_worker.py). */
module ReconciliationGap {
  import opened ReviewTypes
  import opened Publications
  import opened RunLifecycle
  import opened ReviewWorkflows
  import opened Executions
  import opened ReviewGate
  import opened CrashConsistency
  import opened CrashRecovery

  const RUN: RunId := "r"
  const ITEM := EvidenceId(RUN, "f")
  const REVIEW := ReviewId(RUN, 1, ["t"])
  const JOB := Job(RUN, 1, REVIEW, "w")

  // The actions ------------------------------------------------------------------------------

  const BRIEF := WithContentHash(Brief("b", ReviewSummary(["t"], Required, true, None), 0, NoHash))
  const RESULT := FinalArguments(InitialSegment(RUN), 1, {Running}, Completed, ReviewRequired, Required,
    [EvidenceEntry("f", Evidence(false, true))], 1, Some(Bundle(REVIEW, true)), BriefArtifacts(1, BRIEF), true, false)
  const APPROVAL := DecisionRequest("d", 1, Approve, None, 2)
  const DOUBT := VerificationRequest("v", "f", 0, RejectEvidence, None)

  // The run ends with a review; a worker makes its checkpoint, and it is approved.
  const REVIEWED := [Operate(Create(RUN, Talent)), Operate(On(RUN, Start(0))), Operate(On(RUN, Finish(RESULT, 0))),
    Take(RUN, 1, "w", 10, 30), CallGate, Record(11), Operate(On(RUN, Decide(REVIEW, APPROVAL)))]

  // The worker crashes while it resumes, before or after the checkpoint store has done its part;
  // once the lease has run out the reconciler looks at the checkpoint.
  function Crashed(resumed: bool): seq<Action> {
    [Take(RUN, 1, "w", 20, 30)] + (if resumed then [FetchDecision, CallGate] else []) + [Crash, List([LISTED], 60), Inspect(true, 60)]
  }

  const LISTED := Item(RUN, 1, REVIEW, Resuming, Some("d"))
  const WITHDRAWN := [Operate(On(RUN, Verify(ITEM, DOUBT))), Settle(61)]

  // The states -------------------------------------------------------------------------------

  const WAITING_FOR_CHECKPOINT := Workflow(REVIEW, CheckpointPending, None, None, None, 0, None, 0)
  const CLAIMED_ONCE := WAITING_FOR_CHECKPOINT.(owner := Some("w"), expires := Some(40), attemptCount := 1)
  const WAITING := CLAIMED_ONCE.(status := WaitingDecision, owner := None, expires := None)
  const DECIDED := WAITING.(status := ResumePending, decision := Some("d"))
  const CLAIMED_TWICE := DECIDED.(status := Resuming, owner := Some("w"), expires := Some(50), attemptCount := 2)
  const DECISION := ReviewDecision(REVIEW, 1, Approve, None, 3)

  const FINISHED := RunState(RUN, RunRow(Talent, Completed, Required, ReviewRequired, 2), map[0 := InitialSegment(RUN)],
    map[ITEM := Evidence(false, true)], 1, map[1 := Bundle(REVIEW, true)],
    map[BriefJsonId(1) := BriefArtifacts(1, BRIEF)[0].1, BriefMarkdownId(1) := BriefArtifacts(1, BRIEF)[1].1],
    map[1 := WAITING_FOR_CHECKPOINT], map[], map[], map[], [], [], {})
  const SEGMENTS: map<nat, SegmentId> := map[0 := InitialSegment(RUN), 1 := PostReviewSegment(REVIEW)]
  const FIRST_CLAIM := FINISHED.(workflows := map[1 := CLAIMED_ONCE], segments := SEGMENTS, attempts := map[(1, 1) := Attempt("w", None)])
  const CHECKPOINTED := FIRST_CLAIM.(workflows := map[1 := WAITING], attempts := map[(1, 1) := Attempt("w", Some(CheckpointCreated))])
  const APPROVED := CHECKPOINTED.(workflows := map[1 := DECIDED], decisions := map["d" := DECISION],
    row := CHECKPOINTED.row.(version := 3))
  const SECOND_CLAIM := APPROVED.(workflows := map[1 := CLAIMED_TWICE],
    attempts := APPROVED.attempts[(1, 2) := Attempt("w", None)])

  function Of(s: RunState, threads: Threads, at: Position): System {
    System(map[RUN := s], threads, at)
  }

  // Each action leads to the next state.
  lemma {:induction false} ActsThrough(states: seq<System>, actions: seq<Action>)
    requires |states| == |actions| + 1
    requires forall i | 0 <= i < |actions| :: Act(states[i], actions[i]) == states[i + 1]
    ensures Acts(states[0], actions) == states[|actions|]
    decreases |actions|
  {
    hide Act;
    if actions != [] {
      forall i | 0 <= i < |actions| - 1 ensures Act(states[1..][i], actions[1..][i]) == states[1..][i + 1] {
        assert Act(states[i + 1], actions[i + 1]) == states[i + 2];
      }
      ActsThrough(states[1..], actions[1..]);
    }
  }

  lemma {:induction false} ActsAppend(sys: System, first: seq<Action>, next: seq<Action>)
    ensures Acts(sys, first + next) == Acts(Acts(sys, first), next)
    decreases |first|
  {
    hide Act;
    if first == [] {
      assert first + next == next;
    } else {
      assert (first + next)[1..] == first[1..] + next;
      ActsAppend(Act(sys, first[0]), first[1..], next);
    }
  }

  // The rows --------------------------------------------------------------------------------

  const RUNNING := CreateRun(RUN, Talent).(row := RunRow(Talent, Running, NotRequired, DeliveryPending, 1))

  lemma RunFinishes()
    ensures Apply(CreateRun(RUN, Talent), Start(0), false) == Commit(RUNNING, false)
    ensures Apply(RUNNING, Finish(RESULT, 0), false) == Commit(FINISHED, false)
  {
    var rows := RESULT.artifacts;
    assert 0 in RUNNING.segments && RUNNING.segments[0] == RESULT.segment;
    assert rows[1..] == [rows[1]] && [rows[1]][1..] == [];
    assert InsertAll(RUNNING.artifacts, rows) == FINISHED.artifacts;
    assert InsertEvidence(RUN, RUNNING.evidence, RESULT.entries) == FINISHED.evidence;
  }

  lemma FirstClaim()
    ensures Apply(FINISHED, Claim(1, "w", 10, 30), false) == Commit(FIRST_CLAIM, false)
  {
    hide CompleteCheckpointCreation, ReviewWorkflows.AcceptReviewDecision;
  }

  lemma CheckpointIsMade()
    ensures Apply(FIRST_CLAIM, CompleteCheckpoint(1, "w", 11), false) == Commit(CHECKPOINTED, false)
  {
    hide ClaimWorkflow, ReviewWorkflows.AcceptReviewDecision;
  }

  lemma ReviewIsApproved()
    ensures Apply(CHECKPOINTED, Decide(REVIEW, APPROVAL), false) == Commit(APPROVED, false)
  {
    hide ClaimWorkflow, CompleteCheckpointCreation;
  }

  lemma SecondClaim()
    ensures Apply(APPROVED, Claim(1, "w", 20, 30), false) == Commit(SECOND_CLAIM, false)
  {
    hide CompleteCheckpointCreation, ReviewWorkflows.AcceptReviewDecision;
  }

  lemma DoubtCommits(s: RunState)
    requires s.id == RUN && s.evidence == FINISHED.evidence && s.ledger == []
    ensures var step := AcceptVerification(s, false, ITEM, DOUBT); step.Commit? && !step.replay
  {
    hide AdoptBaseline, StaleCurrent;
  }

  // The systems -----------------------------------------------------------------------------

  lemma RunPerforms(s: RunState, c: Command, t: RunState)
    requires Apply(s, c, false) == Commit(t, false)
    ensures Perform(map[RUN := s], On(RUN, c)) == map[RUN := t] && Committed(map[RUN := s], RUN, c)
    ensures !UsedByAnother(map[RUN := s], RUN, c)
  {
    hide Apply;
    assert !UsedByAnother(map[RUN := s], RUN, c);
  }

  const INTERRUPTED: Threads := map[REVIEW := Interrupted]

  // An operator's command, and one of the worker, as actions.
  lemma OperateIs(s: RunState, c: Command, t: RunState, threads: Threads)
    requires Operator(c) && Apply(s, c, false) == Commit(t, false)
    ensures Act(Of(s, threads, Idle), Operate(On(RUN, c))) == Of(t, threads, Idle)
  {
    hide Apply, Perform;
    RunPerforms(s, c, t);
  }

  lemma TakeIs(s: RunState, now: Instant, t: RunState, threads: Threads, at: Position)
    requires Apply(s, Claim(1, "w", now, 30), false) == Commit(t, false) && 1 in s.workflows && s.workflows[1].review == REVIEW
    requires at == if s.workflows[1].status == CheckpointPending then CreatingCheckpoint(JOB)
      else if s.workflows[1].decision == Some("d") && s.workflows[1].status == ResumePending then ResumingGate(JOB, "d")
      else Failing(JOB)
    requires !at.Failing?
    ensures Act(Of(s, threads, Idle), Take(RUN, 1, "w", now, 30)) == Of(t, threads, at)
  {
    hide Apply, Perform;
    RunPerforms(s, Claim(1, "w", now, 30), t);
  }

  lemma RecordIs(s: RunState, t: RunState, threads: Threads)
    requires Apply(s, CompleteCheckpoint(1, "w", 11), false) == Commit(t, false)
    ensures Act(Of(s, threads, CheckpointMade(JOB)), Record(11)) == Of(t, threads, Idle)
  {
    hide Apply, Perform;
    RunPerforms(s, CompleteCheckpoint(1, "w", 11), t);
  }

  lemma CreateIs()
    ensures Act(START, Operate(Create(RUN, Talent))) == Of(CreateRun(RUN, Talent), map[], Idle)
  {
    CreatePerforms();
  }

  lemma CallIs()
    ensures Act(Of(FIRST_CLAIM, map[], CreatingCheckpoint(JOB)), CallGate) == Of(FIRST_CLAIM, INTERRUPTED, CheckpointMade(JOB))
  {
  }

  lemma ReviewedActs()
    ensures Acts(START, REVIEWED) == Of(APPROVED, INTERRUPTED, Idle)
  {
    hide Apply, Acts, Act, Of;
    var created := CreateRun(RUN, Talent);
    CreateIs();
    RunFinishes();
    OperateIs(created, Start(0), RUNNING, map[]);
    OperateIs(RUNNING, Finish(RESULT, 0), FINISHED, map[]);
    FirstClaim();
    TakeIs(FINISHED, 10, FIRST_CLAIM, map[], CreatingCheckpoint(JOB));
    CallIs();
    CheckpointIsMade();
    RecordIs(FIRST_CLAIM, CHECKPOINTED, INTERRUPTED);
    ReviewIsApproved();
    OperateIs(CHECKPOINTED, Decide(REVIEW, APPROVAL), APPROVED, INTERRUPTED);
    ActsThrough([START, Of(created, map[], Idle), Of(RUNNING, map[], Idle), Of(FINISHED, map[], Idle),
      Of(FIRST_CLAIM, map[], CreatingCheckpoint(JOB)), Of(FIRST_CLAIM, INTERRUPTED, CheckpointMade(JOB)),
      Of(CHECKPOINTED, INTERRUPTED, Idle), Of(APPROVED, INTERRUPTED, Idle)], REVIEWED);
  }

  lemma CreatePerforms()
    ensures Perform(map[], Create(RUN, Talent)) == map[RUN := CreateRun(RUN, Talent)]
  {
  }

  function ThreadsAfter(resumed: bool): Threads {
    if resumed then map[REVIEW := CompletedWith("d")] else INTERRUPTED
  }

  lemma DecisionIsFetched()
    ensures Act(Of(SECOND_CLAIM, INTERRUPTED, ResumingGate(JOB, "d")), FetchDecision) ==
      Of(SECOND_CLAIM, INTERRUPTED, DecisionFetched(JOB, "d", Some(DECISION)))
  {
    hide Perform, CallTheGate, RecordGate, GiveUpJob, Listing;
  }

  lemma GateIsCalled()
    ensures Act(Of(SECOND_CLAIM, INTERRUPTED, DecisionFetched(JOB, "d", Some(DECISION))), CallGate) ==
      Of(SECOND_CLAIM, ThreadsAfter(true), GateResumed(JOB, "d", "d"))
  {
    hide Perform, Load, RecordGate, GiveUpJob, Listing;
  }

  lemma ReconcilerActs(threads: Threads, at: Position)
    ensures Act(Of(SECOND_CLAIM, threads, at), Crash) == Of(SECOND_CLAIM, threads, Idle)
    ensures Act(Of(SECOND_CLAIM, threads, Idle), List([LISTED], 60)) == Of(SECOND_CLAIM, threads, Reconciling([LISTED]))
    ensures Act(Of(SECOND_CLAIM, threads, Reconciling([LISTED])), Inspect(true, 60)) ==
      Of(SECOND_CLAIM, threads, Inspected(LISTED, At(threads, REVIEW), []))
  {
    assert Listing(map[RUN := SECOND_CLAIM], 60, [LISTED]);
    assert [LISTED][1..] == [];
  }

  lemma CrashedActs(resumed: bool)
    ensures Acts(Of(APPROVED, INTERRUPTED, Idle), Crashed(resumed)) ==
      Of(SECOND_CLAIM, ThreadsAfter(resumed), Inspected(LISTED, At(ThreadsAfter(resumed), REVIEW), []))
  {
    hide Apply, Acts, Act, Of, ThreadsAfter;
    SecondClaim();
    TakeIs(APPROVED, 20, SECOND_CLAIM, INTERRUPTED, ResumingGate(JOB, "d"));
    var threads := ThreadsAfter(resumed);
    var end := [Of(SECOND_CLAIM, threads, Idle), Of(SECOND_CLAIM, threads, Reconciling([LISTED])),
      Of(SECOND_CLAIM, threads, Inspected(LISTED, At(threads, REVIEW), []))];
    if resumed {
      DecisionIsFetched();
      GateIsCalled();
      ReconcilerActs(threads, GateResumed(JOB, "d", "d"));
      ActsThrough([Of(APPROVED, INTERRUPTED, Idle), Of(SECOND_CLAIM, INTERRUPTED, ResumingGate(JOB, "d")),
        Of(SECOND_CLAIM, INTERRUPTED, DecisionFetched(JOB, "d", Some(DECISION))), Of(SECOND_CLAIM, threads, GateResumed(JOB, "d", "d"))] + end,
        Crashed(true));
    } else {
      UnresumedThreads();
      ReconcilerActs(threads, ResumingGate(JOB, "d"));
      ActsThrough([Of(APPROVED, INTERRUPTED, Idle), Of(SECOND_CLAIM, INTERRUPTED, ResumingGate(JOB, "d"))] + end, Crashed(false));
    }
  }

  lemma UnresumedThreads()
    ensures ThreadsAfter(false) == INTERRUPTED
  {
  }

  // Whether the crash left the handover or the release to the reconciler, the verification
  // decision makes it raise.
  lemma GapIsReachable(resumed: bool)
    ensures var sys := Acts(START, REVIEWED + Crashed(resumed));
      && sys.at.Inspected? && Judge(sys.at.item, sys.at.found) == (if resumed then HandItOver("d") else ReleaseIt)
    ensures Acts(START, REVIEWED + Crashed(resumed) + WITHDRAWN).at == Idle
  {
    hide Acts, Consistent, Perform, Act, Crashed, AcceptVerification;
    ReviewedActs();
    CrashedActs(resumed);
    ActsAppend(START, REVIEWED, Crashed(resumed));
    StartConsistent();
    ActsKeep(START, REVIEWED + Crashed(resumed));
    ActsAppend(START, REVIEWED + Crashed(resumed), WITHDRAWN);
    WithdrawnRaises(Acts(START, REVIEWED + Crashed(resumed)), ThreadsAfter(resumed), resumed);
  }

  lemma WithdrawnRaises(sys: System, threads: Threads, resumed: bool)
    requires Consistent(sys) && threads == ThreadsAfter(resumed)
    requires sys == Of(SECOND_CLAIM, threads, Inspected(LISTED, At(threads, REVIEW), []))
    ensures Acts(sys, WITHDRAWN).at == Idle
  {
    hide Acts, Consistent, Perform, Act, AcceptVerification, UsedByAnother;
    DoubtCommits(SECOND_CLAIM);
    NotElsewhere(SECOND_CLAIM);
    WithdrawalEndsReconciliation(sys, ITEM, DOUBT, 61);
    ActsThrough([sys, Act(sys, WITHDRAWN[0]), Act(Act(sys, WITHDRAWN[0]), WITHDRAWN[1])], WITHDRAWN);
  }

  lemma NotElsewhere(s: RunState)
    ensures !UsedByAnother(map[RUN := s], RUN, Verify(ITEM, DOUBT))
  {
  }
}
