/** One call of the worker's run_once without interference: it takes a workflow up and brings it
    to an end, or uses up one of its attempts (api/review_worker.py). */
module WorkerProgress {
  import opened ReviewTypes
  import opened ReviewWorkflows
  import opened ReviewResolution
  import opened RunInvariant
  import opened ReviewPreservation
  import opened Executions
  import opened ReviewGate
  import opened ReviewOutcomes
  import opened CrashConsistency
  import opened CrashRecovery

  // The measure ----------------------------------------------------------------------------

  const MAX_ATTEMPTS := 3

  // How many more calls a workflow can take up.
  function Weight(w: Workflow): nat {
    if !w.status.Claimable() then 0
    else if w.attemptCount < MAX_ATTEMPTS then MAX_ATTEMPTS - w.attemptCount
    else 1
  }

  function Weights(db: Db): map<(RunId, nat), nat> {
    map run, k | run in db && k in db[run].workflows :: (run, k) := Weight(db[run].workflows[k])
  }

  ghost function Sum<K(!new)>(m: map<K, nat>): nat
    decreases |m|
  {
    if m == map[] then 0 else
    var key :| key in m;
    m[key] + Sum(m - {key})
  }

  // The sum does not depend on the order of summation.
  lemma {:induction false} SumPicks<K(!new)>(m: map<K, nat>, key: K)
    requires key in m
    ensures Sum(m) == m[key] + Sum(m - {key})
    decreases |m|
  {
    var first :| first in m && Sum(m) == m[first] + Sum(m - {first});
    if first != key {
      SumPicks(m - {first}, key);
      SumPicks(m - {key}, first);
      assert m - {first} - {key} == m - {key} - {first};
    }
  }

  lemma SumUpdates<K(!new)>(m: map<K, nat>, key: K, v: nat)
    requires key in m
    ensures Sum(m[key := v]) == Sum(m) - m[key] + v
  {
    SumPicks(m, key);
    SumPicks(m[key := v], key);
    assert m[key := v] - {key} == m - {key};
  }

  ghost function Potential(db: Db): nat {
    Sum(Weights(db))
  }

  lemma OneLess<K(!new)>(m: map<K, nat>, key: K)
    requires key in m
    ensures |m - {key}| == |m| - 1
  {
    assert (m - {key}).Keys == m.Keys - {key};
    assert |m.Keys| == |m| && |(m - {key}).Keys| == |m - {key}|;
  }

  function Positive<K(!new)>(m: map<K, nat>): map<K, nat> {
    map key | key in m && m[key] > 0 :: m[key]
  }

  lemma PositiveWithout<K(!new)>(m: map<K, nat>, key: K)
    requires key in m
    ensures Positive(m - {key}) == Positive(m) - {key}
    ensures m[key] == 0 ==> Positive(m - {key}) == Positive(m)
    ensures |Positive(m - {key})| == |Positive(m)| - (if m[key] > 0 then 1 else 0)
  {
    if m[key] > 0 { OneLess(Positive(m), key); }
  }

  // Entries of weight zero do not count.
  lemma {:induction false} SumBounded<K(!new)>(m: map<K, nat>)
    requires forall key | key in m :: m[key] <= MAX_ATTEMPTS
    ensures Sum(m) <= MAX_ATTEMPTS * |Positive(m)|
    decreases |m|
  {
    hide Positive;
    if m != map[] {
      var key :| key in m;
      SumPicks(m, key);
      OneLess(m, key);
      SumBounded(m - {key});
      PositiveWithout(m, key);
      hide Sum;
    }
  }

  // Three calls for each workflow that can be taken up are enough.
  lemma PotentialBounded(db: Db)
    ensures Potential(db) <= MAX_ATTEMPTS * |Positive(Weights(db))|
    ensures forall run, k: nat :: (run, k) in Positive(Weights(db)) <==>
      run in db && k in db[run].workflows && db[run].workflows[k].status.Claimable()
  {
    SumBounded(Weights(db));
  }

  lemma OneMovesRow(before: Db, after: Db, run: RunId, k: nat, r: RunId, j: nat)
    requires OneMoves(before, after, run, k)
    ensures r in after && j in after[r].workflows <==> r in before && j in before[r].workflows
    ensures r in after && j in after[r].workflows && (r, j) != (run, k) ==> after[r].workflows[j] == before[r].workflows[j]
  {
  }

  lemma OneMovesWeight(before: Db, after: Db, run: RunId, k: nat, r: RunId, j: nat)
    requires OneMoves(before, after, run, k)
    ensures (r, j) in Weights(after) <==> (r, j) in Weights(before)
    ensures (run, k) in Weights(before) && Weights(after)[(run, k)] == Weight(after[run].workflows[k])
    ensures (r, j) in Weights(after) && (r, j) != (run, k) ==> Weights(after)[(r, j)] == Weights(before)[(r, j)]
  {
    OneMovesRow(before, after, run, k, r, j);
    WeightsKeys(before, r, j);
    WeightsKeys(after, r, j);
    WeightsKeys(before, run, k);
    WeightsKeys(after, run, k);
    hide Weight, Weights;
  }

  lemma OneMovesWeights(before: Db, after: Db, run: RunId, k: nat)
    requires OneMoves(before, after, run, k)
    ensures Weights(after) == Weights(before)[(run, k) := Weight(after[run].workflows[k])]
  {
    hide Weight, Weights;
    var earlier, later := Weights(before), Weights(after);
    OneMovesWeight(before, after, run, k, run, k);
    forall key | key in later || key in earlier
      ensures key in later && key in earlier && later[key] == earlier[(run, k) := Weight(after[run].workflows[k])][key]
    {
      OneMovesWeight(before, after, run, k, key.0, key.1);
      assert key == (key.0, key.1);
      hide OneMoves;
    }
  }

  lemma WeightsKeys(db: Db, r: RunId, j: nat)
    ensures (r, j) in Weights(db) <==> r in db && j in db[r].workflows
    ensures (r, j) in Weights(db) ==> Weights(db)[(r, j)] == Weight(db[r].workflows[j])
  {
    hide Weight;
  }

  lemma OneMovesPotential(before: Db, after: Db, run: RunId, k: nat)
    requires OneMoves(before, after, run, k)
    ensures Potential(after) == Potential(before) - Weight(before[run].workflows[k]) + Weight(after[run].workflows[k])
  {
    hide Weight;
    OneMovesWeights(before, after, run, k);
    SumUpdates(Weights(before), (run, k), Weight(after[run].workflows[k]));
  }

  // One pass -------------------------------------------------------------------------------

  // The readings of the clock after the claim: for recording what the checkpoint store did, for
  // the submission, and for giving up.
  datatype Readings = Readings(record: Instant, submit: Instant, giveUp: Instant)
  {
    // The lease that ends at `until` is still running at each of them.
    predicate Before(until: Instant) {
      record < until && submit < until && giveUp < until
    }
  }

  // The call of the checkpoint store, with the read of the decision that it makes.
  function Consult(sys: System): System {
    Act(Act(sys, FetchDecision), CallGate)
  }

  // The two reads and the submission.
  function Deliver(sys: System, now: Instant): System {
    Act(Act(Act(sys, LoadDecision), ReadBrief), Send(now))
  }

  // What follows the claim; `works` says whether the checkpoint store answers.
  function Rest(taken: System, r: Readings, works: bool, error: Code): System {
    var called := if works then Consult(taken) else taken;
    Act(Deliver(Act(called, Record(r.record)), r.submit), GiveUp(r.giveUp, error))
  }

  // run_once after the reconciliation.
  function Pass(sys: System, run: RunId, k: nat, worker: WorkerId, now: Instant, lease: Instant,
                r: Readings, works: bool, error: Code): System {
    Rest(Act(sys, Take(run, k, worker, now, lease)), r, works, error)
  }

  // The worker holds the lease of its workflow until the given instant, under the given attempt.
  predicate Holding(db: Db, job: Job, status: WorkflowStatus, decision: Option<DecisionId>, attempt: nat, until: Instant) {
    && job.run in db && job.k in db[job.run].workflows
    && var w := db[job.run].workflows[job.k];
    && w.owner == Some(job.worker) && w.expires == Some(until)
    && w.review == job.review && w.status == status && w.decision == decision && w.attemptCount == attempt
  }

  lemma HoldingOwns(db: Db, job: Job, status: WorkflowStatus, decision: Option<DecisionId>, attempt: nat, until: Instant, now: Instant)
    requires Holding(db, job, status, decision, attempt, until) && now < until
    ensures Owned(db[job.run], job.k, job.worker, now)
  {
  }

  // Where the worker stands after a claim.
  function AfterClaim(job: Job, w: Workflow): Position {
    if w.status.CheckpointPending? then CreatingCheckpoint(job)
    else if w.decision.None? then Failing(job)
    else if w.status.ResolutionPending? then Submitting(job, w.decision.value)
    else ResumingGate(job, w.decision.value)
  }

  function ClaimedStatus(status: WorkflowStatus): WorkflowStatus {
    if status == ResumePending then Resuming else status
  }

  lemma InvParts(db: Db, run: RunId)
    requires DbInv(db) && run in db
    ensures Bundled(db[run]) && Started(db[run]) && Leases(db[run])
  {
    assert Inv(db[run]);
  }

  // A committed step of the worker on its workflow, as a change of the database.
  lemma WorkerCommits(db: Db, run: RunId, c: Command)
    requires DbInv(db) && Worker(c) && Committed(db, run, c) && Apply(db[run], c, false).state != db[run]
    ensures var t := Apply(db[run], c, false).state;
      Perform(db, On(run, c)) == db[run := t] && OneMoves(db, db[run := t], run, c.k)
  {
    hide Inv, Leases, Decided, Apply, OneMoves, Perform;
    LeasesOf(db, run);
    WorkerPerforms(db, run, c);
  }

  lemma ClaimedRow(s: RunState, k: nat, worker: WorkerId, now: Instant, lease: Instant)
    requires Bundled(s) && Started(s) && Leases(s) && Claimable(s, k, now) && lease > 0
    ensures var step := ClaimWorkflow(s, k, worker, now, lease);
      && step.Commit? && step.state != s && k in step.state.workflows
      && var w := s.workflows[k];
         step.state.workflows[k] ==
           w.(status := ClaimedStatus(w.status), owner := Some(worker), expires := Some(now + lease), attemptCount := w.attemptCount + 1)
  {
    ClaimCommits(s, k, worker, now, lease);
    hide Bundled, Started, Leases;
  }

  lemma TakeStep(sys: System, run: RunId, k: nat, worker: WorkerId, now: Instant, lease: Instant)
    requires DbInv(sys.db) && sys.at.Idle? && run in sys.db && Claimable(sys.db[run], k, now) && lease > 0
    ensures var w := sys.db[run].workflows[k];
      var job := Job(run, k, w.review, worker);
      var taken := Act(sys, Take(run, k, worker, now, lease));
      && OneMoves(sys.db, taken.db, run, k)
      && Holding(taken.db, job, ClaimedStatus(w.status), w.decision, w.attemptCount + 1, now + lease)
      && taken.threads == sys.threads
      && taken.at == AfterClaim(job, w)
  {
    hide DbInv, Bundled, Started, Leases, Perform, OneMoves, ClaimWorkflow, ClaimedStatus,
      InspectNext, SettleItem, CallTheGate, RecordGate, LoadForSubmission, ReadForSubmission, SendResult, GiveUpJob, Listing, OperatorDbCommand;
    InvParts(sys.db, run);
    ClaimedRow(sys.db[run], k, worker, now, lease);
    WorkerCommits(sys.db, run, Claim(k, worker, now, lease));
  }

  lemma CompletedRow(s: RunState, k: nat, worker: WorkerId, now: Instant)
    requires Leases(s) && k in s.workflows && Owned(s, k, worker, now) && s.workflows[k].status == CheckpointPending
    ensures var step := ReviewWorkflows.CompleteCheckpointCreation(s, k, worker, now);
      && step.Commit? && step.state != s && k in step.state.workflows && step.state.workflows[k].status == WaitingDecision
  {
    HolderSteps(s, k, worker, now, ReviewWorkerFailed, 3);
    hide Leases, Owned;
  }

  lemma RecordStep(sys: System, job: Job, attempt: nat, until: Instant, later: Instant)
    requires DbInv(sys.db) && sys.at == CheckpointMade(job) && Holding(sys.db, job, CheckpointPending, None, attempt, until) && later < until
    ensures var after := Act(sys, Record(later));
      && after.at == Idle && after.threads == sys.threads && OneMoves(sys.db, after.db, job.run, job.k)
      && after.db[job.run].workflows[job.k].status == WaitingDecision
  {
    hide DbInv, Bundled, Started, Leases, Perform, OneMoves, Owned, CompleteCheckpointCreation,
      InspectNext, SettleItem, CallTheGate, TakeClaim, LoadForSubmission, ReadForSubmission, SendResult, GiveUpJob, Listing, OperatorDbCommand;
    InvParts(sys.db, job.run);
    HoldingOwns(sys.db, job, CheckpointPending, None, attempt, until, later);
    CompletedRow(sys.db[job.run], job.k, job.worker, later);
    WorkerCommits(sys.db, job.run, CompleteCheckpoint(job.k, job.worker, later));
  }

  lemma HandOverStep(sys: System, job: Job, id: DecisionId, attempt: nat, until: Instant, later: Instant)
    requires DbInv(sys.db) && sys.at == GateResumed(job, id, id) && Holding(sys.db, job, Resuming, Some(id), attempt, until) && later < until
    ensures var after := Act(sys, Record(later));
      && after.at == Submitting(job, id) && after.threads == sys.threads && OneMoves(sys.db, after.db, job.run, job.k)
      && Holding(after.db, job, ResolutionPending, Some(id), attempt, until)
  {
    hide DbInv, Perform, OneMoves,
      InspectNext, SettleItem, CallTheGate, TakeClaim, LoadForSubmission, ReadForSubmission, SendResult, GiveUpJob, Listing, OperatorDbCommand;
    WorkerCommits(sys.db, job.run, HandOver(job.k, Some(job.worker), later, id));
  }

  lemma RetriedRow(s: RunState, k: nat, worker: WorkerId, now: Instant, error: Code)
    requires Leases(s) && k in s.workflows && Owned(s, k, worker, now)
    ensures var step := ReleaseForRetry(s, k, worker, now, error, 3);
      && step.Commit? && step.state != s && k in step.state.workflows
      && var before, w := s.workflows[k], step.state.workflows[k];
      && w.attemptCount == before.attemptCount && w.owner.None? && w.lastError == Some(error)
      && w.status == if w.attemptCount >= 3 then ManualRecovery else if before.status == Resuming then ResumePending else before.status
  {
    HolderSteps(s, k, worker, now, error, 3);
    hide Leases, OpenAttempt;
  }

  lemma GiveUpStep(sys: System, job: Job, status: WorkflowStatus, decision: Option<DecisionId>, attempt: nat,
                   until: Instant, later: Instant, error: Code)
    requires DbInv(sys.db) && Holding(sys.db, job, status, decision, attempt, until) && later < until
    requires !sys.at.Idle? && !sys.at.Reconciling? && !sys.at.Inspected? && sys.at.job == job
    ensures var after := Act(sys, GiveUp(later, error));
      && after.at == Idle && OneMoves(sys.db, after.db, job.run, job.k)
      && var w := after.db[job.run].workflows[job.k];
      && w.attemptCount == attempt && w.owner.None? && w.lastError == Some(error)
      && w.status == (if attempt >= 3 then ManualRecovery else if status == Resuming then ResumePending else status)
  {
    hide DbInv, Bundled, Started, Leases, Perform, OneMoves, Owned, ReleaseForRetry,
      InspectNext, SettleItem, CallTheGate, TakeClaim, SendResult, RecordGate, Listing, OperatorDbCommand;
    InvParts(sys.db, job.run);
    HoldingOwns(sys.db, job, status, decision, attempt, until, later);
    RetriedRow(sys.db[job.run], job.k, job.worker, later, error);
    WorkerCommits(sys.db, job.run, ReleaseRetry(job.k, job.worker, later, error, 3));
  }

  // The decision of a workflow, as the worker loads it.
  lemma SubmittedRow(s: RunState, k: nat, worker: WorkerId, later: Instant, id: DecisionId)
    requires Inv(s) && k in s.workflows && s.workflows[k].status == ResolutionPending && Owned(s, k, worker, later)
    requires s.workflows[k].decision == Some(id)
    ensures id in s.decisions && OriginalBrief(s, s.workflows[k].review).Some?
    ensures var original := OriginalBrief(s, s.workflows[k].review).value;
      var step := Submit(s, k, worker, later, s.decisions[id].acceptedVersion, original, id, s.decisions[id]);
      && step.Commit? && step.state != s && k in step.state.workflows
      && step.state.workflows[k].status == TerminalStatus(s.decisions[id].action)
  {
    PartsOf(s);
    hide Inv, Owned, OriginalBrief, Submit, Bundled, Chain, Published;
    OwnSubmissionCommits(s, k, worker, later, id);
    var original := OriginalBrief(s, s.workflows[k].review).value;
    SubmissionTakes(s, k, worker, later, s.decisions[id].acceptedVersion, original, id, s.decisions[id]);
  }

  lemma SubmissionApplies(s: RunState, job: Job, id: DecisionId, d: ReviewDecision, original: Content, later: Instant)
    ensures Apply(s, SubmissionOf(job, id, d, original, later), false) ==
      Submit(s, job.k, job.worker, later, d.acceptedVersion, original, id, d)
  {
    hide Submit;
  }

  lemma SubmissionCommits(db: Db, job: Job, id: DecisionId, attempt: nat, until: Instant, later: Instant)
    requires DbInv(db) && Holding(db, job, ResolutionPending, Some(id), attempt, until) && later < until
    ensures Load(db, job.run, id).Some? && BriefOf(db, job.run, job.review).Some?
    ensures var c := SubmissionOf(job, id, Load(db, job.run, id).value, BriefOf(db, job.run, job.review).value, later);
      var after := Perform(db, On(job.run, c));
      && Committed(db, job.run, c) && OneMoves(db, after, job.run, job.k)
      && after[job.run].workflows[job.k].status == TerminalStatus(Load(db, job.run, id).value.action)
  {
    hide Inv, Perform, OneMoves, Owned, Submit, OriginalBrief, Apply;
    var s := db[job.run];
    HoldingOwns(db, job, ResolutionPending, Some(id), attempt, until, later);
    SubmittedRow(s, job.k, job.worker, later, id);
    var d, original := Load(db, job.run, id).value, BriefOf(db, job.run, job.review).value;
    var c := SubmissionOf(job, id, d, original, later);
    SubmissionApplies(s, job, id, d, original, later);
    SubmissionPerforms(db, job.run, c);
    PerformsCommit(db, job.run, c);
  }

  // The two reads of a submission, when both find what they look for.
  lemma ReadsStep(sys: System, job: Job, id: DecisionId)
    requires sys.at == Submitting(job, id) && Load(sys.db, job.run, id).Some? && BriefOf(sys.db, job.run, job.review).Some?
    ensures Act(Act(sys, LoadDecision), ReadBrief) ==
      sys.(at := BriefRead(job, id, Load(sys.db, job.run, id).value, BriefOf(sys.db, job.run, job.review).value))
  {
    hide Load, BriefOf, InspectNext, SettleItem, CallTheGate, TakeClaim, RecordGate, SendResult, GiveUpJob, Listing, OperatorDbCommand;
  }

  lemma DeliverStep(sys: System, job: Job, id: DecisionId, attempt: nat, until: Instant, later: Instant)
    requires DbInv(sys.db) && sys.at == Submitting(job, id)
    requires Holding(sys.db, job, ResolutionPending, Some(id), attempt, until) && later < until
    ensures var after := Deliver(sys, later);
      && after.at == Idle && after.threads == sys.threads && OneMoves(sys.db, after.db, job.run, job.k)
      && Load(sys.db, job.run, id).Some?
      && after.db[job.run].workflows[job.k].status == TerminalStatus(Load(sys.db, job.run, id).value.action)
  {
    hide DbInv, Holding, Perform, OneMoves, Committed, Load, BriefOf, SubmissionOf, LoadForSubmission, ReadForSubmission,
      InspectNext, SettleItem, CallTheGate, TakeClaim, RecordGate, GiveUpJob, Listing, OperatorDbCommand;
    SubmissionCommits(sys.db, job, id, attempt, until, later);
    ReadsStep(sys, job, id);
  }

  lemma PerformsCommit(db: Db, run: RunId, c: Command)
    requires Committed(db, run, c) && !c.Verify? && !c.Decide?
    ensures Perform(db, On(run, c)) == db[run := Apply(db[run], c, false).state]
  {
    hide Apply;
    assert !UsedByAnother(db, run, c);
  }

  // The checkpoint store answers: a missing checkpoint is made, a waiting one is resumed.
  lemma ConsultStep(sys: System)
    requires Consistent(sys) && (sys.at.CreatingCheckpoint? || sys.at.ResumingGate?)
    ensures var after := Consult(sys);
      && after.db == sys.db
      && after.at == match sys.at
           case CreatingCheckpoint(job) => CheckpointMade(job)
           case ResumingGate(job, id) => GateResumed(job, id, id)
           case _ => sys.at
  {
    hide Consistent, Perform, ResumeAnswer, Load,
      InspectNext, SettleItem, SendResult, TakeClaim, RecordGate, LoadForSubmission, ReadForSubmission, GiveUpJob, Listing, OperatorDbCommand;
    if sys.at.ResumingGate? {
      ActKeeps(sys, FetchDecision);
      GateAnswersOwnDecision(Act(sys, FetchDecision));
    }
  }

  // Actions of another position do nothing.
  lemma IdleSkips(sys: System, now: Instant, error: Code)
    ensures !sys.at.CreatingCheckpoint? && !sys.at.ResumingGate? && !sys.at.DecisionFetched? ==> Consult(sys) == sys
    ensures !sys.at.CheckpointMade? && !sys.at.GateResumed? && !sys.at.GateMismatched? ==> Act(sys, Record(now)) == sys
    ensures !sys.at.Submitting? && !sys.at.DecisionLoaded? && !sys.at.BriefRead? ==> Deliver(sys, now) == sys
    ensures sys.at.Idle? ==> Act(sys, GiveUp(now, error)) == sys
  {
    hide Perform, Committed, ResumeAnswer, BriefOf, Load, Listing, OperatorDbCommand, InspectNext, SettleItem, TakeClaim;
  }

  // The whole change of one workflow's row.
  lemma OneMovesCompose(a: Db, b: Db, c: Db, run: RunId, k: nat)
    requires OneMoves(a, b, run, k) && OneMoves(b, c, run, k)
    ensures OneMoves(a, c, run, k)
  {
  }

  // With a working checkpoint store the pass brings its workflow to an end: it waits for a
  // decision, or it is resolved as its decision says.
  lemma CreatingPass(taken: System, job: Job, attempt: nat, until: Instant, r: Readings, error: Code)
    requires Consistent(taken) && taken.at == CreatingCheckpoint(job) && r.Before(until)
    requires Holding(taken.db, job, CheckpointPending, None, attempt, until)
    ensures var end := Rest(taken, r, true, error);
      && end.at == Idle && OneMoves(taken.db, end.db, job.run, job.k)
      && end.db[job.run].workflows[job.k].status == WaitingDecision
  {
    hide Act, Consult, Deliver, OneMoves, DbInv, StoresAgree, Holding;
    ConsultStep(taken);
    var called := Consult(taken);
    RecordStep(called, job, attempt, until, r.record);
    var recorded := Act(called, Record(r.record));
    IdleSkips(recorded, r.submit, error);
    IdleSkips(recorded, r.giveUp, error);
  }

  lemma SubmittingPass(at: System, job: Job, id: DecisionId, attempt: nat, until: Instant, r: Readings, error: Code)
    requires DbInv(at.db) && at.at == Submitting(job, id) && r.Before(until)
    requires Holding(at.db, job, ResolutionPending, Some(id), attempt, until)
    ensures var end := Act(Deliver(at, r.submit), GiveUp(r.giveUp, error));
      && end.at == Idle && OneMoves(at.db, end.db, job.run, job.k)
      && Load(at.db, job.run, id).Some?
      && end.db[job.run].workflows[job.k].status == TerminalStatus(Load(at.db, job.run, id).value.action)
  {
    hide Act, Deliver, OneMoves, DbInv, Holding, Load;
    DeliverStep(at, job, id, attempt, until, r.submit);
    IdleSkips(Deliver(at, r.submit), r.giveUp, error);
  }

  lemma ResumingPass(taken: System, job: Job, id: DecisionId, attempt: nat, until: Instant, r: Readings, error: Code)
    requires Consistent(taken) && taken.at == ResumingGate(job, id) && r.Before(until)
    requires Holding(taken.db, job, Resuming, Some(id), attempt, until)
    ensures var end := Rest(taken, r, true, error);
      && end.at == Idle && OneMoves(taken.db, end.db, job.run, job.k)
      && Load(taken.db, job.run, id).Some?
      && end.db[job.run].workflows[job.k].status == TerminalStatus(Load(taken.db, job.run, id).value.action)
  {
    hide Act, Consult, Deliver, OneMoves, DbInv, StoresAgree, Holding, Load;
    ConsultStep(taken);
    var called := Consult(taken);
    ConsultKeeps(taken);
    HandOverStep(called, job, id, attempt, until, r.record);
    var recorded := Act(called, Record(r.record));
    ActKeeps(called, Record(r.record));
    SubmittingPass(recorded, job, id, attempt, until, r, error);
    HandOverKeepsDecision(called, job, id, attempt, until, r.record);
    OneMovesCompose(taken.db, recorded.db, Act(Deliver(recorded, r.submit), GiveUp(r.giveUp, error)).db, job.run, job.k);
  }

  lemma ConsultKeeps(sys: System)
    requires Consistent(sys)
    ensures Consistent(Consult(sys))
  {
    hide Act, Consistent;
    ActKeeps(sys, FetchDecision);
    ActKeeps(Act(sys, FetchDecision), CallGate);
  }

  lemma DeliverKeeps(sys: System, now: Instant)
    requires Consistent(sys)
    ensures Consistent(Deliver(sys, now))
  {
    hide Act, Consistent;
    ActKeeps(sys, LoadDecision);
    ActKeeps(Act(sys, LoadDecision), ReadBrief);
    ActKeeps(Act(Act(sys, LoadDecision), ReadBrief), Send(now));
  }

  lemma HandOverKeepsDecision(sys: System, job: Job, id: DecisionId, attempt: nat, until: Instant, later: Instant)
    requires DbInv(sys.db) && sys.at == GateResumed(job, id, id) && Holding(sys.db, job, Resuming, Some(id), attempt, until) && later < until
    ensures Load(Act(sys, Record(later)).db, job.run, id) == Load(sys.db, job.run, id)
  {
    hide DbInv, Perform, OneMoves, LoadForSubmission, ReadForSubmission,
      InspectNext, SettleItem, CallTheGate, TakeClaim, LoadForSubmission, ReadForSubmission, SendResult, GiveUpJob, Listing, OperatorDbCommand;
    WorkerCommits(sys.db, job.run, HandOver(job.k, Some(job.worker), later, id));
  }

  // The state after the claim, with what the worker knows of it.
  ghost predicate Taken(sys: System, taken: System, job: Job, w: Workflow, until: Instant) {
    && Consistent(taken) && taken.at == AfterClaim(job, w) && !taken.at.Failing?
    && OneMoves(sys.db, taken.db, job.run, job.k)
    && Holding(taken.db, job, ClaimedStatus(w.status), w.decision, w.attemptCount + 1, until)
    && w.status.Claimable() && (w.status == CheckpointPending ==> w.decision.None?)
  }

  lemma TakenHolds(sys: System, run: RunId, k: nat, worker: WorkerId, now: Instant, lease: Instant)
    requires Consistent(sys) && sys.at.Idle? && run in sys.db && Claimable(sys.db[run], k, now) && lease > 0
    ensures var w := sys.db[run].workflows[k];
      Taken(sys, Act(sys, Take(run, k, worker, now, lease)), Job(run, k, w.review, worker), w, now + lease)
  {
    hide DbInv, StoresAgree, Act, OneMoves, Holding;
    TakeStep(sys, run, k, worker, now, lease);
    ActKeeps(sys, Take(run, k, worker, now, lease));
    ResumingIsDecided(sys.db, run, k);
  }

  // What a pass makes of the row it took: with a working checkpoint store it waits for its
  // decision or carries it out; otherwise an attempt is used up, and the third is the last.
  predicate Passed(w: Workflow, after: Workflow, action: Option<ReviewAction>, works: bool, error: Code) {
    if w.status == CheckpointPending && works then after.status == WaitingDecision
    else if w.status == ResolutionPending || (w.status != CheckpointPending && works) then
      action.Some? && after.status == TerminalStatus(action.value)
    else
      && after.attemptCount == w.attemptCount + 1 && after.owner.None? && after.lastError == Some(error)
      && after.status == (if after.attemptCount >= 3 then ManualRecovery else if w.status == CheckpointPending then w.status else ResumePending)
  }

  // The action of the decision that the workflow carries.
  function DecidedAction(db: Db, run: RunId, w: Workflow): Option<ReviewAction> {
    if w.decision.None? then None else
    match Load(db, run, w.decision.value)
    case Some(d) => Some(d.action)
    case None => None
  }

  lemma RestPasses(sys: System, taken: System, job: Job, w: Workflow, until: Instant, r: Readings, works: bool, error: Code)
    requires Taken(sys, taken, job, w, until) && r.Before(until)
    ensures var end := Rest(taken, r, works, error);
      && end.at == Idle && OneMoves(taken.db, end.db, job.run, job.k)
      && Passed(w, end.db[job.run].workflows[job.k], DecidedAction(taken.db, job.run, w), works, error)
  {
    hide Act, Rest, Consult, Deliver, OneMoves, Consistent, DbInv, StoresAgree, Holding, Load, TerminalStatus;
    if works && taken.at.CreatingCheckpoint? {
      CreatingPass(taken, job, w.attemptCount + 1, until, r, error);
    } else if works && taken.at.ResumingGate? {
      ResumingPass(taken, job, w.decision.value, w.attemptCount + 1, until, r, error);
    } else {
      ConsistentDb(taken);
      NothingConsulted(taken, r, works, error);
      if taken.at.Submitting? {
        SubmittingPass(taken, job, w.decision.value, w.attemptCount + 1, until, r, error);
      } else {
        GivenUpPass(taken, job, ClaimedStatus(w.status), w.decision, w.attemptCount + 1, until, r, error);
      }
    }
  }

  lemma GivenUpPass(at: System, job: Job, status: WorkflowStatus, decision: Option<DecisionId>, attempt: nat, until: Instant,
                    r: Readings, error: Code)
    requires DbInv(at.db) && Holding(at.db, job, status, decision, attempt, until) && r.Before(until)
    requires (at.at.CreatingCheckpoint? || at.at.ResumingGate?) && at.at.job == job
    ensures var end := Act(Deliver(at, r.submit), GiveUp(r.giveUp, error));
      && end.at == Idle && OneMoves(at.db, end.db, job.run, job.k)
      && var after := end.db[job.run].workflows[job.k];
      && after.attemptCount == attempt && after.owner.None? && after.lastError == Some(error)
      && after.status == (if attempt >= 3 then ManualRecovery else if status == Resuming then ResumePending else status)
  {
    hide Act, Deliver, OneMoves, DbInv, Holding;
    IdleSkips(at, r.submit, error);
    GiveUpStep(at, job, status, decision, attempt, until, r.giveUp, error);
  }

  lemma NothingConsulted(taken: System, r: Readings, works: bool, error: Code)
    requires !works || (!taken.at.CreatingCheckpoint? && !taken.at.ResumingGate? && !taken.at.DecisionFetched?)
    requires !taken.at.CheckpointMade? && !taken.at.GateResumed? && !taken.at.GateMismatched?
    ensures Rest(taken, r, works, error) == Act(Deliver(taken, r.submit), GiveUp(r.giveUp, error))
  {
    hide Act, Consult, Deliver;
    IdleSkips(taken, r.record, error);
  }

  lemma PassedIsLighter(w: Workflow, after: Workflow, action: Option<ReviewAction>, works: bool, error: Code)
    requires w.status.Claimable() && Passed(w, after, action, works, error)
    ensures Weight(after) < Weight(w)
  {
  }

  lemma RestConsistent(taken: System, r: Readings, works: bool, error: Code)
    requires Consistent(taken)
    ensures Consistent(Rest(taken, r, works, error))
  {
    hide Act, Consult, Deliver, Consistent;
    ConsultKeeps(taken);
    var called := if works then Consult(taken) else taken;
    ActKeeps(called, Record(r.record));
    DeliverKeeps(Act(called, Record(r.record)), r.submit);
    ActKeeps(Deliver(Act(called, Record(r.record)), r.submit), GiveUp(r.giveUp, error));
  }

  lemma TakeKeepsDecisions(sys: System, run: RunId, k: nat, worker: WorkerId, now: Instant, lease: Instant, id: DecisionId)
    requires DbInv(sys.db) && sys.at.Idle? && run in sys.db && Claimable(sys.db[run], k, now) && lease > 0
    ensures Load(Act(sys, Take(run, k, worker, now, lease)).db, run, id) == Load(sys.db, run, id)
  {
    hide DbInv, Bundled, Started, Leases, Perform, OneMoves,
      InspectNext, SettleItem, CallTheGate, RecordGate, LoadForSubmission, ReadForSubmission, SendResult, GiveUpJob, Listing, OperatorDbCommand;
    InvParts(sys.db, run);
    ClaimedRow(sys.db[run], k, worker, now, lease);
    WorkerCommits(sys.db, run, Claim(k, worker, now, lease));
  }

  // A pass ends where it began, changes one workflow, and leaves less to do.
  lemma PassProgresses(sys: System, run: RunId, k: nat, worker: WorkerId, now: Instant, lease: Instant,
                       r: Readings, works: bool, error: Code)
    requires Consistent(sys) && sys.at.Idle? && run in sys.db && Claimable(sys.db[run], k, now) && lease > 0 && r.Before(now + lease)
    ensures var end := Pass(sys, run, k, worker, now, lease, r, works, error);
      && Consistent(end) && end.at == Idle && OneMoves(sys.db, end.db, run, k)
      && Passed(sys.db[run].workflows[k], end.db[run].workflows[k], DecidedAction(sys.db, run, sys.db[run].workflows[k]), works, error)
      && Potential(end.db) < Potential(sys.db)
  {
    hide Act, Rest, OneMoves, DbInv, StoresAgree, Holding, Load, PositionHeld, Passed, Weight, Potential;
    var w := sys.db[run].workflows[k];
    var taken, job := Act(sys, Take(run, k, worker, now, lease)), Job(run, k, w.review, worker);
    TakenHolds(sys, run, k, worker, now, lease);
    if w.decision.Some? { TakeKeepsDecisions(sys, run, k, worker, now, lease, w.decision.value); }
    RestPasses(sys, taken, job, w, now + lease, r, works, error);
    RestConsistent(taken, r, works, error);
    var end := Rest(taken, r, works, error);
    OneMovesCompose(sys.db, taken.db, end.db, run, k);
    PassedIsLighter(w, end.db[run].workflows[k], DecidedAction(sys.db, run, w), works, error);
    OneMovesPotential(sys.db, end.db, run, k);
  }

  lemma PassConsistent(sys: System, run: RunId, k: nat, worker: WorkerId, now: Instant, lease: Instant,
                       r: Readings, works: bool, error: Code)
    requires Consistent(sys)
    ensures Consistent(Pass(sys, run, k, worker, now, lease, r, works, error))
  {
    hide Act, Consistent, Rest;
    ActKeeps(sys, Take(run, k, worker, now, lease));
    RestConsistent(Act(sys, Take(run, k, worker, now, lease)), r, works, error);
  }
}
