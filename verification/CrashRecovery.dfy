/** One worker over the two stores as a transition system: every read and every write is an
    action of its own, operators act in between, and the worker may crash before any action. */
module CrashRecovery {
  import opened ReviewTypes
  import opened Publications
  import opened ReviewWorkflows
  import opened ReviewResolution
  import opened RunInvariant
  import opened LeasePreservation
  import opened ReviewPreservation
  import opened Evolution
  import opened Executions
  import opened ReviewGate
  import opened ReviewOutcomes
  import opened CrashConsistency
  import opened DeliverySafety

  // A row of the reconciler's list.
  datatype Item = Item(run: RunId, k: nat, review: ReviewId, status: WorkflowStatus, decision: Option<DecisionId>)

  datatype Job = Job(run: RunId, k: nat, review: ReviewId, worker: WorkerId)

  // Where the worker is. A crash forgets it.
  datatype Position =
    | Idle
    | Reconciling(todo: seq<Item>)
    | Inspected(item: Item, found: Checkpoint, rest: seq<Item>)
    | CreatingCheckpoint(job: Job)
    | CheckpointMade(job: Job)
    | ResumingGate(job: Job, decision: DecisionId)
    | DecisionFetched(job: Job, decision: DecisionId, fetched: Option<ReviewDecision>)
    | GateMismatched(job: Job)
    | GateResumed(job: Job, decision: DecisionId, result: DecisionId)
    | Submitting(job: Job, decision: DecisionId)
    | DecisionLoaded(job: Job, decision: DecisionId, loaded: ReviewDecision)
    | BriefRead(job: Job, decision: DecisionId, loaded: ReviewDecision, original: Content)
    | Failing(job: Job)

  datatype System = System(db: Db, threads: Threads, at: Position)

  datatype Action =
    | Operate(command: DbCommand)
    | Crash
    | List(todo: seq<Item>, now: Instant)
    | Inspect(readable: bool, now: Instant)
    | Settle(now: Instant)
    | Take(run: RunId, k: nat, worker: WorkerId, now: Instant, lease: Instant)
    | FetchDecision
    | CallGate
    | Record(now: Instant)
    | LoadDecision
    | ReadBrief
    | Send(now: Instant)
    | GiveUp(now: Instant, error: Code)

  predicate Committed(db: Db, run: RunId, c: Command) {
    run in db && Apply(db[run], c, false).Commit?
  }

  // Any list of workflows that wait for a checkpoint or whose resumption has lost its lease,
  // each named once.
  predicate Listing(db: Db, now: Instant, todo: seq<Item>) {
    && (forall i | 0 <= i < |todo| :: Listed(db, now, todo[i]))
    && Distinct(todo)
  }

  predicate Listed(db: Db, now: Instant, item: Item) {
    && item.run in db && item.k in db[item.run].workflows
    && var w := db[item.run].workflows[item.k];
    && w.review == item.review && w.status == item.status && w.decision == item.decision
    && (w.status == CheckpointPending || (w.status == Resuming && !LeaseActive(w.expires, now)))
  }

  predicate Distinct(todo: seq<Item>) {
    forall i, j | 0 <= i < j < |todo| :: (todo[i].run, todo[i].k) != (todo[j].run, todo[j].k)
  }

  function Act(sys: System, a: Action): System {
    match a
    case Operate(c) => if OperatorDbCommand(c) then sys.(db := Perform(sys.db, c)) else sys
    case Crash => sys.(at := Idle)
    case List(todo, now) => if sys.at.Idle? && Listing(sys.db, now, todo) then sys.(at := Reconciling(todo)) else sys
    case Inspect(readable, now) => if sys.at.Reconciling? then InspectNext(sys, readable, now) else sys
    case Settle(now) => if sys.at.Inspected? then SettleItem(sys, now) else sys
    case Take(run, k, worker, now, lease) => if sys.at.Idle? then TakeClaim(sys, run, k, worker, now, lease) else sys
    case FetchDecision =>
      if sys.at.ResumingGate?
      then sys.(at := DecisionFetched(sys.at.job, sys.at.decision, Load(sys.db, sys.at.job.run, sys.at.decision))) else sys
    case CallGate => CallTheGate(sys)
    case Record(now) => RecordGate(sys, now)
    case LoadDecision => if sys.at.Submitting? then LoadForSubmission(sys) else sys
    case ReadBrief => if sys.at.DecisionLoaded? then ReadForSubmission(sys) else sys
    case Send(now) => if sys.at.BriefRead? then SendResult(sys, now) else sys
    case GiveUp(now, error) => GiveUpJob(sys, now, error)
  }

  // The reconciler -------------------------------------------------------------------------

  // An unreadable checkpoint sends the workflow to manual recovery.
  function InspectNext(sys: System, readable: bool, now: Instant): System
    requires sys.at.Reconciling?
  {
    var todo := sys.at.todo;
    if todo == [] then sys.(at := Idle)
    else if readable then sys.(at := Inspected(todo[0], At(sys.threads, todo[0].review), todo[1..]))
    else Distrusting(sys, todo[0], now, CheckpointCorrupt, todo[1..])
  }

  // To manual recovery; only a superseded review is skipped when that raises.
  function Distrusting(sys: System, item: Item, now: Instant, error: Code, rest: seq<Item>): System {
    var c := SendToManual(item.k, None, now, error);
    System(Perform(sys.db, On(item.run, c)), sys.threads,
      if Committed(sys.db, item.run, c) || IsSuperseded(sys.db, item) then Reconciling(rest) else Idle)
  }

  datatype Verdict = MarkItWaiting | LeaveIt | HandItOver(decision: DecisionId) | ReleaseIt | Distrust

  // What the reconciler does about a listed workflow, given its checkpoint.
  function Judge(item: Item, found: Checkpoint): Verdict {
    if item.status == CheckpointPending then (if found.Interrupted? then MarkItWaiting else LeaveIt)
    else if found.CompletedWith? && item.decision == Some(found.decision) then HandItOver(found.decision)
    else if found.Interrupted? then ReleaseIt
    else Distrust
  }

  // A step that raises ends the reconciliation.
  function SettleItem(sys: System, now: Instant): System
    requires sys.at.Inspected?
  {
    var item, rest := sys.at.item, sys.at.rest;
    match Judge(item, sys.at.found)
    case MarkItWaiting => System(Perform(sys.db, On(item.run, MarkWaiting(item.k))), sys.threads, Reconciling(rest))
    case LeaveIt => sys.(at := Reconciling(rest))
    case HandItOver(decision) => Try(sys, item.run, HandOver(item.k, None, now, decision), Reconciling(rest), Idle)
    case ReleaseIt => Try(sys, item.run, ReleaseExpired(item.k, now), Reconciling(rest), Idle)
    case Distrust => Distrusting(sys, item, now, CheckpointDecisionMismatch, rest)
  }

  // A command of the worker, and where it goes on: after a commit, or when the command raises.
  function Try(sys: System, run: RunId, c: Command, done: Position, raised: Position): System {
    System(Perform(sys.db, On(run, c)), sys.threads, if Committed(sys.db, run, c) then done else raised)
  }

  // One claimed workflow -------------------------------------------------------------------

  function TakeClaim(sys: System, run: RunId, k: nat, worker: WorkerId, now: Instant, lease: Instant): System {
    var c := Claim(k, worker, now, lease);
    if !Committed(sys.db, run, c) then sys else
    var w := sys.db[run].workflows[k];
    var job := Job(run, k, w.review, worker);
    System(Perform(sys.db, On(run, c)), sys.threads,
      if w.status.CheckpointPending? then CreatingCheckpoint(job)
      else if w.decision.None? then Failing(job)
      else if w.status.ResolutionPending? then Submitting(job, w.decision.value)
      else ResumingGate(job, w.decision.value))
  }

  // get_decision
  function Load(db: Db, run: RunId, id: DecisionId): Option<ReviewDecision> {
    if run in db && id in db[run].decisions then Some(db[run].decisions[id]) else None
  }

  // The checkpoint store runs the thread, or resumes it with the decision that its node fetched.
  function CallTheGate(sys: System): System {
    match sys.at
    case CreatingCheckpoint(job) =>
      System(sys.db, sys.threads[job.review := Interrupted], CheckpointMade(job))
    case DecisionFetched(job, id, fetched) =>
      (match ResumeAnswer(At(sys.threads, job.review), job.review, id, fetched)
       case Resumed(result) => System(sys.db, sys.threads[job.review := CompletedWith(result)], GateResumed(job, id, result))
       case Mismatched => sys.(at := GateMismatched(job))
       case Unavailable => sys.(at := Failing(job)))
    case _ => sys
  }

  function RecordGate(sys: System, now: Instant): System {
    match sys.at
    case CheckpointMade(job) => Try(sys, job.run, CompleteCheckpoint(job.k, job.worker, now), Idle, Failing(job))
    case GateResumed(job, id, result) =>
      Try(sys, job.run, HandOver(job.k, Some(job.worker), now, result), Submitting(job, id), Failing(job))
    case GateMismatched(job) =>
      Try(sys, job.run, SendToManual(job.k, Some(job.worker), now, CheckpointDecisionMismatch), Idle, Idle)
    case _ => sys
  }

  function LoadForSubmission(sys: System): System
    requires sys.at.Submitting?
  {
    var job, id := sys.at.job, sys.at.decision;
    match Load(sys.db, job.run, id)
    case Some(d) => sys.(at := DecisionLoaded(job, id, d))
    case None => sys.(at := Failing(job))
  }

  function ReadForSubmission(sys: System): System
    requires sys.at.DecisionLoaded?
  {
    var job := sys.at.job;
    match BriefOf(sys.db, job.run, job.review)
    case Some(original) => sys.(at := BriefRead(job, sys.at.decision, sys.at.loaded, original))
    case None => sys.(at := Failing(job))
  }

  // get_original_decision_brief
  function BriefOf(db: Db, run: RunId, review: ReviewId): Option<Content> {
    if run in db then OriginalBrief(db[run], review) else None
  }

  // The command of the submission, from what was read before.
  function SubmissionOf(job: Job, id: DecisionId, loaded: ReviewDecision, original: Content, now: Instant): Command {
    SubmitReview(job.k, job.worker, now, loaded.acceptedVersion, original, id, loaded)
  }

  function SendResult(sys: System, now: Instant): System
    requires sys.at.BriefRead?
  {
    var job := sys.at.job;
    Try(sys, job.run, SubmissionOf(job, sys.at.decision, sys.at.loaded, sys.at.original, now), Idle, Failing(job))
  }

  function GiveUpJob(sys: System, now: Instant, error: Code): System {
    if sys.at.Idle? || sys.at.Reconciling? || sys.at.Inspected? then sys else
    var job := sys.at.job;
    System(Perform(sys.db, On(job.run, ReleaseRetry(job.k, job.worker, now, error, 3))), sys.threads, Idle)
  }

  // What the worker knows -------------------------------------------------------------------

  // The workflow is as the worker last saw it, unless it was superseded in the meantime.
  predicate Held(db: Db, run: RunId, k: nat, review: ReviewId, status: WorkflowStatus, decision: Option<DecisionId>) {
    && run in db && k in db[run].workflows
    && var w := db[run].workflows[k];
    && w.review == review && w.decision == decision
    && (w.status == status || w.status == Superseded)
    && (status == CheckpointPending || status == Resuming || status == ResolutionPending)
  }

  predicate ItemHeld(db: Db, item: Item) {
    && Held(db, item.run, item.k, item.review, item.status, item.decision)
    && (item.status == CheckpointPending || (item.status == Resuming && item.decision.Some?))
  }

  predicate ItemsHeld(db: Db, todo: seq<Item>) {
    (forall i | 0 <= i < |todo| :: ItemHeld(db, todo[i])) && Distinct(todo)
  }

  predicate JobHeld(db: Db, job: Job, status: WorkflowStatus, decision: Option<DecisionId>) {
    Held(db, job.run, job.k, job.review, status, decision)
  }

  // What the worker read for its submission is still what is stored.
  predicate DecisionHeld(db: Db, job: Job, id: DecisionId, d: ReviewDecision) {
    JobHeld(db, job, ResolutionPending, Some(id)) && Load(db, job.run, id) == Some(d)
  }

  predicate BriefHeld(db: Db, job: Job, original: Content) {
    && job.run in db && job.k in db[job.run].workflows
    && (db[job.run].workflows[job.k].status == Superseded || StoredBrief(db[job.run], job.k, original))
  }

  predicate StoredBrief(s: RunState, k: nat, original: Content) {
    BriefJsonId(k) in s.artifacts && s.artifacts[BriefJsonId(k)].content == original
  }

  predicate PositionHeld(db: Db, threads: Threads, at: Position) {
    match at
    case Idle => true
    case Reconciling(todo) => ItemsHeld(db, todo)
    case Inspected(item, found, rest) => ItemsHeld(db, [item] + rest) && found == At(threads, item.review)
    case CreatingCheckpoint(job) => JobHeld(db, job, CheckpointPending, None)
    case CheckpointMade(job) => JobHeld(db, job, CheckpointPending, None) && At(threads, job.review) == Interrupted
    case ResumingGate(job, id) => JobHeld(db, job, Resuming, Some(id))
    case DecisionFetched(job, id, fetched) =>
      JobHeld(db, job, Resuming, Some(id)) && fetched.Some? && fetched.value.review == job.review
    case GateMismatched(_) => false
    case GateResumed(job, id, result) => JobHeld(db, job, Resuming, Some(id)) && At(threads, job.review) == CompletedWith(result)
    case Submitting(job, id) => JobHeld(db, job, ResolutionPending, Some(id))
    case DecisionLoaded(job, id, d) => DecisionHeld(db, job, id, d)
    case BriefRead(job, id, d, original) => DecisionHeld(db, job, id, d) && BriefHeld(db, job, original)
    case Failing(_) => true
  }

  ghost predicate Consistent(sys: System) {
    && DbInv(sys.db)
    && StoresAgree(sys.db, sys.threads)
    && PositionHeld(sys.db, sys.threads, sys.at)
  }

  // Operators ------------------------------------------------------------------------------

  lemma OperatorKeepsHeld(before: Db, after: Db, run: RunId, k: nat, review: ReviewId, status: WorkflowStatus, decision: Option<DecisionId>)
    requires Held(before, run, k, review, status, decision) && DbMoves(before, after)
    ensures Held(after, run, k, review, status, decision)
  {
    assert OperatorMoves(before[run].workflows, after[run].workflows);
    assert OperatorMove(before[run].workflows[k], after[run].workflows[k]);
  }

  lemma OperatorKeepsItems(before: Db, after: Db, todo: seq<Item>)
    requires ItemsHeld(before, todo) && DbMoves(before, after)
    ensures ItemsHeld(after, todo)
  {
    forall i | 0 <= i < |todo| ensures ItemHeld(after, todo[i]) {
      var item := todo[i];
      assert ItemHeld(before, item);
      OperatorKeepsHeld(before, after, item.run, item.k, item.review, item.status, item.decision);
    }
  }

  lemma OperatorKeepsReads(before: Db, after: Db, job: Job, id: DecisionId, d: ReviewDecision, original: Content)
    requires DbMoves(before, after) && DbEvolves(before, after)
    ensures DecisionHeld(before, job, id, d) ==> DecisionHeld(after, job, id, d)
    ensures DecisionHeld(before, job, id, d) && BriefHeld(before, job, original) ==> BriefHeld(after, job, original)
  {
    if DecisionHeld(before, job, id, d) {
      OperatorKeepsHeld(before, after, job.run, job.k, job.review, ResolutionPending, Some(id));
      assert ReviewsEvolve(before[job.run], after[job.run]);
      assert OperatorMove(before[job.run].workflows[job.k], after[job.run].workflows[job.k]);
    }
  }

  lemma OperatorKeepsPosition(before: Db, after: Db, threads: Threads, at: Position)
    requires PositionHeld(before, threads, at) && DbMoves(before, after) && DbEvolves(before, after)
    ensures PositionHeld(after, threads, at)
  {
    hide DbMoves, DbEvolves, Held, ItemsHeld, DecisionHeld, BriefHeld;
    match at
    case Reconciling(todo) => OperatorKeepsItems(before, after, todo);
    case Inspected(item, _, rest) => OperatorKeepsItems(before, after, [item] + rest);
    case CreatingCheckpoint(job) => OperatorKeepsHeld(before, after, job.run, job.k, job.review, CheckpointPending, None);
    case CheckpointMade(job) => OperatorKeepsHeld(before, after, job.run, job.k, job.review, CheckpointPending, None);
    case ResumingGate(job, id) => OperatorKeepsHeld(before, after, job.run, job.k, job.review, Resuming, Some(id));
    case DecisionFetched(job, id, _) => OperatorKeepsHeld(before, after, job.run, job.k, job.review, Resuming, Some(id));
    case GateResumed(job, id, _) => OperatorKeepsHeld(before, after, job.run, job.k, job.review, Resuming, Some(id));
    case Submitting(job, id) => OperatorKeepsHeld(before, after, job.run, job.k, job.review, ResolutionPending, Some(id));
    case DecisionLoaded(job, id, d) => OperatorKeepsReads(before, after, job, id, d, TextContent(""));
    case BriefRead(job, id, d, original) => OperatorKeepsReads(before, after, job, id, d, original);
    case _ =>
  }

  lemma OperateKeeps(sys: System, c: DbCommand)
    requires Consistent(sys) && OperatorDbCommand(c)
    ensures Consistent(Act(sys, Operate(c)))
  {
    hide DbInv, StoresAgree, PositionHeld, DbMoves, DbEvolves, Perform, OperatorDbCommand;
    PerformKeeps(sys.db, c);
    PerformEvolves(sys.db, c);
    OperatorPerforms(sys.db, c);
    OperatorKeepsAgreement(sys.db, sys.threads, c);
    OperatorKeepsPosition(sys.db, Perform(sys.db, c), sys.threads, sys.at);
  }

  // The worker's database writes -----------------------------------------------------------

  // At most one workflow row changes.
  predicate OneMoves(before: Db, after: Db, run: RunId, k: nat) {
    && after.Keys == before.Keys
    && (forall r | r in before && r != run :: after[r] == before[r])
    && run in before && k in before[run].workflows && k in after[run].workflows
    && after[run].workflows == before[run].workflows[k := after[run].workflows[k]]
    && after[run].workflows[k].review == before[run].workflows[k].review
    && after[run].workflows[k].decision == before[run].workflows[k].decision
  }

  lemma OneMovesKeepsKnown(before: Db, after: Db, run: RunId, k: nat, review: ReviewId)
    requires Known(before, review) && OneMoves(before, after, run, k)
    ensures Known(after, review)
  {
  }

  lemma OneMovesKeepsCheckpoints(before: Db, after: Db, threads: Threads, run: RunId, k: nat, r: RunId)
    requires r in before && CheckpointsAgree(before[r].workflows, threads) && OneMoves(before, after, run, k)
    requires CheckpointAgrees(after[run].workflows[k], At(threads, after[run].workflows[k].review))
    ensures r in after && CheckpointsAgree(after[r].workflows, threads)
  {
    hide CheckpointAgrees;
  }

  lemma OneMovesAgree(before: Db, after: Db, threads: Threads, run: RunId, k: nat)
    requires StoresAgree(before, threads) && OneMoves(before, after, run, k)
    requires CheckpointAgrees(after[run].workflows[k], At(threads, after[run].workflows[k].review))
    ensures StoresAgree(after, threads)
  {
    assert after.Keys == before.Keys;
    hide CheckpointAgrees, CheckpointsAgree, Known, OneMoves;
    forall r | r in after ensures CheckpointsAgree(after[r].workflows, threads) {
      OneMovesKeepsCheckpoints(before, after, threads, run, k, r);
    }
    forall review | review in threads ensures Known(after, review) { OneMovesKeepsKnown(before, after, run, k, review); }
  }

  lemma OneMovesKeepsHeld(before: Db, after: Db, run: RunId, k: nat,
                          r: RunId, j: nat, review: ReviewId, status: WorkflowStatus, decision: Option<DecisionId>)
    requires Held(before, r, j, review, status, decision) && OneMoves(before, after, run, k) && (r, j) != (run, k)
    ensures Held(after, r, j, review, status, decision)
  {
  }

  // The status a worker's step leads to: waiting only by recording a made checkpoint, and
  // resolution only by a handover.
  predicate StatusStep(c: Command, from: WorkflowStatus, to: WorkflowStatus) {
    match c
    case Claim(_, _, _, _) => to == if from == ResumePending then Resuming else from
    case CompleteCheckpoint(_, _, _) => from == CheckpointPending && to == WaitingDecision
    case MarkWaiting(_) => from == CheckpointPending && to == WaitingDecision
    case HandOver(_, _, _, _) => from == Resuming && to == ResolutionPending
    case ReleaseExpired(_, _) => from == Resuming && to == ResumePending
    case _ => to == ManualRecovery || to == from || to == ResumePending
  }

  lemma StatusReached(s: RunState, c: Command)
    requires Worker(c)
    ensures var step := Apply(s, c, false);
      step.Commit? && step.state != s ==>
        c.k in s.workflows && c.k in step.state.workflows && StatusStep(c, s.workflows[c.k].status, step.state.workflows[c.k].status)
  {
    if c.SendToManual? || c.ReleaseRetry? || c.ReleaseExpired? { GivenUpStatus(s, c); }
    else if c.Claim? || c.HandOver? { TakenUpStatus(s, c); }
  }

  lemma GivenUpStatus(s: RunState, c: Command)
    requires c.SendToManual? || c.ReleaseRetry? || c.ReleaseExpired?
    ensures var step := Apply(s, c, false);
      step.Commit? ==>
        c.k in s.workflows && c.k in step.state.workflows && StatusStep(c, s.workflows[c.k].status, step.state.workflows[c.k].status)
  {
  }

  lemma TakenUpStatus(s: RunState, c: Command)
    requires c.Claim? || c.HandOver?
    ensures var step := Apply(s, c, false);
      step.Commit? ==>
        c.k in s.workflows && c.k in step.state.workflows && StatusStep(c, s.workflows[c.k].status, step.state.workflows[c.k].status)
  {
    hide ClaimWorkflow, ReviewWorkflows.MarkResolutionPending;
    if c.Claim? { ClaimedStatusStep(s, c.k, c.worker, c.now, c.lease); } else { HandedOverStep(s, c.k, c.holder, c.now, c.decisionId); }
  }

  lemma ClaimedStatusStep(s: RunState, k: nat, worker: WorkerId, now: Instant, lease: Instant)
    ensures var step := ClaimWorkflow(s, k, worker, now, lease);
      step.Commit? ==>
        && k in s.workflows && k in step.state.workflows
        && step.state.workflows[k].status == if s.workflows[k].status == ResumePending then Resuming else s.workflows[k].status
  {
  }

  lemma HandedOverStep(s: RunState, k: nat, holder: Option<WorkerId>, now: Instant, decision: DecisionId)
    ensures var step := ReviewWorkflows.MarkResolutionPending(s, k, holder, now, decision);
      step.Commit? ==>
        && k in s.workflows && k in step.state.workflows
        && s.workflows[k].status == Resuming && step.state.workflows[k].status == ResolutionPending
  {
  }

  lemma MoveIsOne(db: Db, run: RunId, k: nat, t: RunState)
    requires run in db && LeaseMove(db[run], t, k)
    ensures OneMoves(db, db[run := t], run, k)
  {
  }

  lemma WorkerPerforms(db: Db, run: RunId, c: Command)
    requires run in db && Leases(db[run]) && Worker(c)
    ensures var after := Perform(db, On(run, c));
      if Committed(db, run, c) && Apply(db[run], c, false).state != db[run]
      then after == db[run := Apply(db[run], c, false).state] && OneMoves(db, after, run, c.k)
      else after == db
  {
    hide Leases, Apply, LeaseMove, OneMoves;
    WorkerStepMoves(db[run], c);
    assert !UsedByAnother(db, run, c);
    assert db[run := db[run]] == db;
    if Committed(db, run, c) && Apply(db[run], c, false).state != db[run] { MoveIsOne(db, run, c.k, Apply(db[run], c, false).state); }
  }

  lemma WorkerMovesOne(db: Db, run: RunId, c: Command)
    requires DbInv(db) && Worker(c)
    ensures var after := Perform(db, On(run, c)); after == db || OneMoves(db, after, run, c.k)
  {
    hide Inv, Leases, Decided, After, OneMoves;
    if run in db {
      LeasesOf(db, run);
      hide Perform;
      WorkerPerforms(db, run, c);
    }
  }

  // What the worker must have seen of the checkpoint before it records it.
  predicate Seen(db: Db, threads: Threads, run: RunId, c: Command) {
    run in db && Worker(c) && c.k in db[run].workflows ==>
      var w := db[run].workflows[c.k];
      && (c.CompleteCheckpoint? || c.MarkWaiting? ==> w.status == CheckpointPending ==> !At(threads, w.review).Absent?)
      && (c.HandOver? ==> w.status == Resuming ==> At(threads, w.review).CompletedWith?)
  }

  lemma MovedAgrees(from: Workflow, to: Workflow, c: Checkpoint, command: Command)
    requires CheckpointAgrees(from, c) && from.decision == to.decision && StatusStep(command, from.status, to.status)
    requires command.CompleteCheckpoint? || command.MarkWaiting? ==> !c.Absent?
    requires command.HandOver? ==> c.CompletedWith?
    requires from.status.Active()
    ensures CheckpointAgrees(to, c)
  {
  }

  lemma LeasesOf(db: Db, run: RunId)
    requires DbInv(db) && run in db
    ensures Leases(db[run]) && Decided(db[run])
  {
    assert Inv(db[run]);
  }

  lemma CommittedMove(db: Db, run: RunId, c: Command)
    requires run in db && Leases(db[run]) && Worker(c) && Committed(db, run, c) && Apply(db[run], c, false).state != db[run]
    ensures var after := Perform(db, On(run, c));
      && OneMoves(db, after, run, c.k)
      && db[run].workflows[c.k].status.Active()
      && StatusStep(c, db[run].workflows[c.k].status, after[run].workflows[c.k].status)
  {
    hide Leases, Apply, Perform, StatusStep;
    WorkerPerforms(db, run, c);
    StatusReached(db[run], c);
    WorkerStepMoves(db[run], c);
  }

  lemma MoveKeepsAgreement(db: Db, after: Db, threads: Threads, run: RunId, c: Command)
    requires StoresAgree(db, threads) && Worker(c) && Seen(db, threads, run, c) && OneMoves(db, after, run, c.k)
    requires db[run].workflows[c.k].status.Active()
    requires StatusStep(c, db[run].workflows[c.k].status, after[run].workflows[c.k].status)
    ensures StoresAgree(after, threads)
  {
    assert CheckpointsAgree(db[run].workflows, threads);
    MovedAgrees(db[run].workflows[c.k], after[run].workflows[c.k], At(threads, db[run].workflows[c.k].review), c);
    OneMovesAgree(db, after, threads, run, c.k);
  }

  lemma WorkerKeepsAgreement(db: Db, threads: Threads, run: RunId, c: Command)
    requires DbInv(db) && StoresAgree(db, threads) && Worker(c) && Seen(db, threads, run, c)
    ensures DbInv(Perform(db, On(run, c))) && StoresAgree(Perform(db, On(run, c)), threads)
  {
    hide Inv, Leases, Decided, Apply, After, CheckpointsAgree, Known, OneMoves, StatusStep;
    PerformKeeps(db, On(run, c));
    if run in db {
      LeasesOf(db, run);
      hide Perform, Seen;
      WorkerPerforms(db, run, c);
      if Committed(db, run, c) && Apply(db[run], c, false).state != db[run] {
        CommittedMove(db, run, c);
        MoveKeepsAgreement(db, Perform(db, On(run, c)), threads, run, c);
      }
    }
  }

  lemma WorkerKeepsItem(db: Db, run: RunId, c: Command, item: Item)
    requires DbInv(db) && Worker(c) && ItemHeld(db, item) && (item.run, item.k) != (run, c.k)
    ensures ItemHeld(Perform(db, On(run, c)), item)
  {
    hide DbInv, Perform, OneMoves, Held;
    WorkerMovesOne(db, run, c);
    var after := Perform(db, On(run, c));
    if after != db {
      OneMovesKeepsHeld(db, after, run, c.k, item.run, item.k, item.review, item.status, item.decision);
    }
  }

  lemma WorkerKeepsItems(db: Db, run: RunId, c: Command, rest: seq<Item>)
    requires DbInv(db) && Worker(c) && ItemsHeld(db, rest)
    requires forall i | 0 <= i < |rest| :: (rest[i].run, rest[i].k) != (run, c.k)
    ensures ItemsHeld(Perform(db, On(run, c)), rest)
  {
    hide DbInv, ItemHeld, Perform;
    forall i | 0 <= i < |rest| ensures ItemHeld(Perform(db, On(run, c)), rest[i]) { WorkerKeepsItem(db, run, c, rest[i]); }
  }

  // The actions of the reconciler -----------------------------------------------------------

  lemma TailHeld(db: Db, todo: seq<Item>)
    requires ItemsHeld(db, todo) && todo != []
    ensures ItemsHeld(db, todo[1..]) && ItemHeld(db, todo[0])
    ensures forall i | 0 <= i < |todo| - 1 :: (todo[1..][i].run, todo[1..][i].k) != (todo[0].run, todo[0].k)
  {
    hide ItemHeld;
  }

  lemma ListedIsHeld(db: Db, now: Instant, item: Item)
    requires DbInv(db) && Listed(db, now, item)
    ensures ItemHeld(db, item)
  {
    hide Inv;
    ResumingIsDecided(db, item.run, item.k);
  }

  lemma ListKeeps(sys: System, todo: seq<Item>, now: Instant)
    requires Consistent(sys)
    ensures Consistent(Act(sys, List(todo, now)))
  {
    hide StoresAgree, DbInv, ItemHeld, Listed, Perform, InspectNext, SettleItem, TakeClaim, CallTheGate, RecordGate, SendResult, GiveUpJob;
    if sys.at.Idle? && Listing(sys.db, now, todo) {
      forall i | 0 <= i < |todo| ensures ItemHeld(sys.db, todo[i]) { ListedIsHeld(sys.db, now, todo[i]); }
    }
  }

  // A workflow on its way to a resolution has a decision, which is stored and is about its review.
  lemma ResumingIsDecided(db: Db, run: RunId, k: nat)
    requires DbInv(db) && run in db && k in db[run].workflows
    ensures var w := db[run].workflows[k];
      && (w.status.Deciding() ==> w.decision.Some?)
      && (w.status == CheckpointPending ==> w.decision.None?)
      && (w.decision.Some? ==> w.decision.value in db[run].decisions && db[run].decisions[w.decision.value].review == w.review)
  {
    LeasesOf(db, run);
    assert DecisionKept(db[run], k);
    hide DbInv, Leases;
  }

  lemma InspectKeeps(sys: System, readable: bool, now: Instant)
    requires Consistent(sys)
    ensures Consistent(Act(sys, Inspect(readable, now)))
  {
    hide DbInv, StoresAgree, ItemsHeld, Perform;
    if sys.at.Reconciling? && sys.at.todo != [] {
      var todo := sys.at.todo;
      assert [todo[0]] + todo[1..] == todo;
      if !readable {
        var c := SendToManual(todo[0].k, None, now, CheckpointCorrupt);
        TailHeld(sys.db, todo);
        WorkerKeepsAgreement(sys.db, sys.threads, todo[0].run, c);
        WorkerKeepsItems(sys.db, todo[0].run, c, todo[1..]);
      }
    }
  }

  lemma AgreedCheckpointIsTrusted(item: Item, w: Workflow, found: Checkpoint)
    requires CheckpointAgrees(w, found) && item.decision == w.decision
    requires item.status == CheckpointPending || (item.status == Resuming && item.decision.Some?)
    ensures !Judge(item, found).Distrust?
  {
  }

  lemma HeldAgrees(db: Db, threads: Threads, run: RunId, k: nat, review: ReviewId, status: WorkflowStatus, decision: Option<DecisionId>)
    requires StoresAgree(db, threads) && Held(db, run, k, review, status, decision)
    ensures run in db && k in db[run].workflows && db[run].workflows[k].decision == decision
    ensures CheckpointAgrees(db[run].workflows[k], At(threads, review))
  {
    hide CheckpointAgrees, Known;
    assert CheckpointsAgree(db[run].workflows, threads);
  }

  // A listed workflow's checkpoint is interrupted, or completed with the workflow's own
  // decision: the reconciler never distrusts a readable checkpoint.
  lemma NeverDistrusted(sys: System)
    requires Consistent(sys) && sys.at.Inspected?
    ensures !Judge(sys.at.item, sys.at.found).Distrust?
  {
    hide DbInv, StoresAgree, Judge, Distinct, Held, CheckpointAgrees;
    var item := sys.at.item;
    assert ([item] + sys.at.rest)[0] == item;
    assert ItemHeld(sys.db, item);
    HeldAgrees(sys.db, sys.threads, item.run, item.k, item.review, item.status, item.decision);
    AgreedCheckpointIsTrusted(item, sys.db[item.run].workflows[item.k], sys.at.found);
  }

  // The command by which the reconciler settles a listed workflow.
  function SettlingCommand(item: Item, verdict: Verdict, now: Instant): Command
    requires !verdict.LeaveIt?
  {
    match verdict
    case MarkItWaiting => MarkWaiting(item.k)
    case HandItOver(decision) => HandOver(item.k, None, now, decision)
    case ReleaseIt => ReleaseExpired(item.k, now)
    case Distrust => SendToManual(item.k, None, now, CheckpointDecisionMismatch)
  }

  lemma SettlesAsSeen(db: Db, threads: Threads, item: Item, found: Checkpoint, now: Instant)
    requires ItemHeld(db, item) && found == At(threads, item.review) && !Judge(item, found).LeaveIt?
    ensures Seen(db, threads, item.run, SettlingCommand(item, Judge(item, found), now))
    ensures Worker(SettlingCommand(item, Judge(item, found), now))
    ensures SettlingCommand(item, Judge(item, found), now).k == item.k
  {
  }

  lemma SettlingActs(sys: System, now: Instant)
    requires sys.at.Inspected?
    ensures var after := Act(sys, Settle(now));
      var item, verdict := sys.at.item, Judge(sys.at.item, sys.at.found);
      && after.threads == sys.threads
      && (after.at.Idle? || after.at == Reconciling(sys.at.rest))
      && after.db == (if verdict.LeaveIt? then sys.db else Perform(sys.db, On(item.run, SettlingCommand(item, verdict, now))))
  {
    hide Perform, Judge, Committed;
  }

  lemma SettleKeeps(sys: System, now: Instant)
    requires Consistent(sys)
    ensures Consistent(Act(sys, Settle(now)))
  {
    hide DbInv, StoresAgree, ItemsHeld, ItemHeld, Perform, Judge, Committed, Seen, Worker, SettlingCommand, SettleItem;
    if sys.at.Inspected? {
      var item, rest := sys.at.item, sys.at.rest;
      assert ([item] + rest)[1..] == rest;
      TailHeld(sys.db, [item] + rest);
      SettlingActs(sys, now);
      if !Judge(item, sys.at.found).LeaveIt? {
        SettlesAsSeen(sys.db, sys.threads, item, sys.at.found, now);
        var c := SettlingCommand(item, Judge(item, sys.at.found), now);
        WorkerKeepsAgreement(sys.db, sys.threads, item.run, c);
        WorkerKeepsItems(sys.db, item.run, c, rest);
      }
    }
  }

  // The actions on a claimed workflow ---------------------------------------------------------

  lemma TakeKeeps(sys: System, run: RunId, k: nat, worker: WorkerId, now: Instant, lease: Instant)
    requires Consistent(sys)
    ensures Consistent(Act(sys, Take(run, k, worker, now, lease)))
  {
    var c := Claim(k, worker, now, lease);
    hide DbInv, StoresAgree, Perform;
    if sys.at.Idle? && Committed(sys.db, run, c) {
      WorkerKeepsAgreement(sys.db, sys.threads, run, c);
      ClaimHolds(sys.db, run, k, worker, now, lease);
      ResumingIsDecided(sys.db, run, k);
      hide Committed;
    }
  }

  lemma ClaimHolds(db: Db, run: RunId, k: nat, worker: WorkerId, now: Instant, lease: Instant)
    requires DbInv(db) && Committed(db, run, Claim(k, worker, now, lease))
    ensures run in db && k in db[run].workflows && db[run].workflows[k].status.Claimable()
    ensures var w := db[run].workflows[k];
      Held(Perform(db, On(run, Claim(k, worker, now, lease))), run, k, w.review,
        if w.status == ResumePending then Resuming else w.status, w.decision)
  {
    hide DbInv, Perform;
    LeasesOf(db, run);
    WorkerPerforms(db, run, Claim(k, worker, now, lease));
    hide Leases, Decided, OneMoves;
  }

  // Setting one thread.
  lemma ThreadAgrees(db: Db, threads: Threads, run: RunId, k: nat, c: Checkpoint)
    requires Named(db) && StoresAgree(db, threads) && run in db && k in db[run].workflows
    requires CheckpointAgrees(db[run].workflows[k], c)
    ensures StoresAgree(db, threads[db[run].workflows[k].review := c])
  {
    hide CheckpointAgrees;
    var review := db[run].workflows[k].review;
    forall r | r in db ensures CheckpointsAgree(db[r].workflows, threads[review := c]) {
      assert CheckpointsAgree(db[r].workflows, threads);
      forall j | j in db[r].workflows ensures CheckpointAgrees(db[r].workflows[j], At(threads[review := c], db[r].workflows[j].review)) {
        if db[r].workflows[j].review == review { assert r == run && j == k; }
      }
    }
    forall other | other in threads[review := c] ensures Known(db, other) {
      if other != review { assert Known(db, other); }
    }
  }

  lemma FetchKeeps(sys: System)
    requires Consistent(sys)
    ensures Consistent(Act(sys, FetchDecision))
  {
    hide DbInv, StoresAgree, Perform, Listing, OperatorDbCommand, InspectNext, SettleItem, TakeClaim, CallTheGate, RecordGate,
      LoadForSubmission, ReadForSubmission, SendResult, GiveUpJob;
    if sys.at.ResumingGate? { ResumingIsDecided(sys.db, sys.at.job.run, sys.at.job.k); }
  }

  // Resuming the checkpoint of a resuming workflow gives its own decision: never a mismatch,
  // and never an absent thread.
  lemma GateAnswersOwnDecision(sys: System)
    requires Consistent(sys) && sys.at.DecisionFetched?
    ensures var job, id := sys.at.job, sys.at.decision;
      ResumeAnswer(At(sys.threads, job.review), job.review, id, sys.at.fetched) == Resumed(id)
  {
    var job, id := sys.at.job, sys.at.decision;
    hide DbInv, StoresAgree;
    HeldAgrees(sys.db, sys.threads, job.run, job.k, job.review, Resuming, Some(id));
  }

  lemma CallGateKeeps(sys: System)
    requires Consistent(sys)
    ensures Consistent(Act(sys, CallGate))
  {
    hide DbInv, StoresAgree, Perform, Named;
    InvNames(sys.db);
    if sys.at.CreatingCheckpoint? {
      var job := sys.at.job;
      ThreadAgrees(sys.db, sys.threads, job.run, job.k, Interrupted);
    } else if sys.at.DecisionFetched? {
      var job, id := sys.at.job, sys.at.decision;
      GateAnswersOwnDecision(sys);
      hide ResumeAnswer;
      ThreadAgrees(sys.db, sys.threads, job.run, job.k, CompletedWith(id));
    }
  }

  lemma HandOverHolds(db: Db, job: Job, id: DecisionId, now: Instant)
    requires DbInv(db) && JobHeld(db, job, Resuming, Some(id))
    requires Committed(db, job.run, HandOver(job.k, Some(job.worker), now, id))
    ensures JobHeld(Perform(db, On(job.run, HandOver(job.k, Some(job.worker), now, id))), job, ResolutionPending, Some(id))
  {
    hide Inv, Perform, Leases, Decided, OneMoves;
    LeasesOf(db, job.run);
    WorkerPerforms(db, job.run, HandOver(job.k, Some(job.worker), now, id));
  }

  lemma RecordKeeps(sys: System, now: Instant)
    requires Consistent(sys)
    ensures Consistent(Act(sys, Record(now)))
  {
    hide DbInv, StoresAgree, Perform, Committed;
    if sys.at.CheckpointMade? {
      var job := sys.at.job;
      WorkerKeepsAgreement(sys.db, sys.threads, job.run, CompleteCheckpoint(job.k, job.worker, now));
    } else if sys.at.GateResumed? {
      var job, id := sys.at.job, sys.at.decision;
      HeldAgrees(sys.db, sys.threads, job.run, job.k, job.review, Resuming, Some(id));
      assert sys.at.result == id;
      var c := HandOver(job.k, Some(job.worker), now, id);
      WorkerKeepsAgreement(sys.db, sys.threads, job.run, c);
      if Committed(sys.db, job.run, c) { HandOverHolds(sys.db, job, id, now); }
      hide JobHeld;
    }
  }

  lemma GiveUpKeeps(sys: System, now: Instant, error: Code)
    requires Consistent(sys)
    ensures Consistent(Act(sys, GiveUp(now, error)))
  {
    hide DbInv, StoresAgree, Perform, PositionHeld, Listing, OperatorDbCommand, InspectNext, SettleItem, TakeClaim, CallTheGate,
      RecordGate, SendResult;
    if !(sys.at.Idle? || sys.at.Reconciling? || sys.at.Inspected?) {
      var job := sys.at.job;
      var c := ReleaseRetry(job.k, job.worker, now, error, 3);
      WorkerKeepsAgreement(sys.db, sys.threads, job.run, c);
      IdleHolds(Perform(sys.db, On(job.run, c)), sys.threads);
    }
  }

  lemma IdleHolds(db: Db, threads: Threads)
    ensures PositionHeld(db, threads, Idle)
  {
  }

  // A submission resolves the workflow or changes nothing.
  lemma SubmissionMoves(s: RunState, k: nat, worker: WorkerId, now: Instant, version: nat,
                        original: Content, id: DecisionId, d: ReviewDecision)
    requires Bundled(s) && Chain(s) && Published(s)
    ensures var step := Submit(s, k, worker, now, version, original, id, d);
      step.Commit? && step.state != s ==>
        && k in s.workflows && s.workflows[k].status == ResolutionPending
        && exists action :: step.state.workflows == s.workflows[k := Released(s.workflows[k], TerminalStatus(action))]
  {
    SubmissionTakes(s, k, worker, now, version, original, id, d);
    hide Submit, Bundled, Chain, Published;
    var step := Submit(s, k, worker, now, version, original, id, d);
    if step.Commit? && step.state != s {
      assert step.state.workflows == s.workflows[k := Released(s.workflows[k], TerminalStatus(s.decisions[id].action))];
    }
  }

  lemma PartsOf(s: RunState)
    requires Inv(s)
    ensures Bundled(s) && Chain(s) && Published(s)
  {
  }

  lemma SubmissionPerforms(db: Db, run: RunId, c: Command)
    requires DbInv(db) && run in db && c.SubmitReview?
    ensures var after := Perform(db, On(run, c));
      after == db || (OneMoves(db, after, run, c.k) && db[run].workflows[c.k].status == ResolutionPending
                      && (after[run].workflows[c.k].status == Approved || after[run].workflows[c.k].status == Rejected))
  {
    hide Inv, Submit, Bundled, Chain, Published, UsedByAnother;
    PartsOf(db[run]);
    SubmissionMoves(db[run], c.k, c.worker, c.now, c.expectedVersion, c.original, c.decisionId, c.decided);
    assert db[run := db[run]] == db;
  }

  lemma ResolvedAgrees(db: Db, after: Db, threads: Threads, run: RunId, k: nat)
    requires StoresAgree(db, threads) && OneMoves(db, after, run, k) && db[run].workflows[k].status == ResolutionPending
    ensures StoresAgree(after, threads)
  {
    assert CheckpointsAgree(db[run].workflows, threads);
    assert CheckpointAgrees(after[run].workflows[k], At(threads, after[run].workflows[k].review));
    OneMovesAgree(db, after, threads, run, k);
  }

  lemma LoadKeeps(sys: System)
    requires Consistent(sys)
    ensures Consistent(Act(sys, LoadDecision))
  {
    hide DbInv, StoresAgree, Held;
  }

  // The brief that a worker reads for an unfinished review is the one stored with its revision.
  lemma BriefIsStored(db: Db, job: Job, id: DecisionId, d: ReviewDecision)
    requires DbInv(db) && DecisionHeld(db, job, id, d)
    ensures db[job.run].workflows[job.k].status != Superseded ==>
      var original := BriefOf(db, job.run, job.review);
      original.Some? && original.value.JsonContent? && StoredBrief(db[job.run], job.k, original.value)
  {
    if db[job.run].workflows[job.k].status != Superseded {
      assert Inv(db[job.run]);
      ActiveBrief(db[job.run], job.k);
      hide Inv, OriginalBrief, Bundled, Started, Chain, Leases, Decided, Published, Verification, Artifacts;
    }
  }

  lemma ReadKeeps(sys: System)
    requires Consistent(sys)
    ensures Consistent(Act(sys, ReadBrief))
  {
    hide DbInv, StoresAgree, DecisionHeld, BriefOf, StoredBrief;
    if sys.at.DecisionLoaded? {
      BriefIsStored(sys.db, sys.at.job, sys.at.decision, sys.at.loaded);
      HeldRow(sys.db, sys.at.job, sys.at.decision, sys.at.loaded);
    }
  }

  lemma HeldRow(db: Db, job: Job, id: DecisionId, d: ReviewDecision)
    requires DecisionHeld(db, job, id, d)
    ensures job.run in db && job.k in db[job.run].workflows
  {
  }

  lemma SendKeeps(sys: System, now: Instant)
    requires Consistent(sys)
    ensures Consistent(Act(sys, Send(now)))
  {
    hide DbInv, StoresAgree, Perform, Committed, OneMoves, DecisionHeld, BriefHeld, Listing, OperatorDbCommand;
    if sys.at.BriefRead? {
      var job := sys.at.job;
      var c := SubmissionOf(job, sys.at.decision, sys.at.loaded, sys.at.original, now);
      HeldRow(sys.db, job, sys.at.decision, sys.at.loaded);
      PerformKeeps(sys.db, On(job.run, c));
      SubmissionPerforms(sys.db, job.run, c);
      var after := Perform(sys.db, On(job.run, c));
      if after != sys.db { ResolvedAgrees(sys.db, after, sys.threads, job.run, job.k); }
    }
  }

  // The decision and the brief were read before, and operators may have acted since: the
  // submission is refused only if the review was superseded or the lease has run out.
  lemma SubmissionCommitsIffHeld(sys: System, now: Instant)
    requires Consistent(sys) && sys.at.BriefRead?
    ensures var job := sys.at.job;
      && job.run in sys.db && job.k in sys.db[job.run].workflows
      && (Committed(sys.db, job.run, SubmissionOf(job, sys.at.decision, sys.at.loaded, sys.at.original, now)) <==>
            sys.db[job.run].workflows[job.k].status != Superseded && Owned(sys.db[job.run], job.k, job.worker, now))
  {
    hide Consistent, Committed, Inv, Owned, Submit, StoredBrief, SubmissionOf;
    var job, id, original := sys.at.job, sys.at.decision, sys.at.original;
    ReadsHold(sys);
    SubmitCommitsIffHeld(sys.db[job.run], job.k, job.worker, now, id, original);
    SubmissionIsSubmit(sys.db, job, id, sys.at.loaded, original, now);
  }

  lemma SubmissionIsSubmit(db: Db, job: Job, id: DecisionId, d: ReviewDecision, original: Content, now: Instant)
    requires job.run in db
    ensures Committed(db, job.run, SubmissionOf(job, id, d, original, now)) <==>
      Submit(db[job.run], job.k, job.worker, now, d.acceptedVersion, original, id, d).Commit?
  {
    hide Submit;
  }

  lemma ReadsHold(sys: System)
    requires Consistent(sys) && sys.at.BriefRead?
    ensures var job, id := sys.at.job, sys.at.decision;
      && job.run in sys.db && Inv(sys.db[job.run]) && job.k in sys.db[job.run].workflows
      && var s := sys.db[job.run];
      && s.workflows[job.k].decision == Some(id) && id in s.decisions && s.decisions[id] == sys.at.loaded
      && (s.workflows[job.k].status == Superseded ||
          (s.workflows[job.k].status == ResolutionPending && StoredBrief(s, job.k, sys.at.original)))
  {
    hide StoresAgree, Inv, StoredBrief;
  }

  lemma SubmitCommitsIffHeld(s: RunState, k: nat, worker: WorkerId, now: Instant, id: DecisionId, original: Content)
    requires Inv(s) && k in s.workflows && s.workflows[k].decision == Some(id) && id in s.decisions
    requires s.workflows[k].status == Superseded || (s.workflows[k].status == ResolutionPending && StoredBrief(s, k, original))
    ensures Submit(s, k, worker, now, s.decisions[id].acceptedVersion, original, id, s.decisions[id]).Commit? <==>
      s.workflows[k].status != Superseded && Owned(s, k, worker, now)
  {
    hide Inv, Owned, Submit;
    var d := s.decisions[id];
    if s.workflows[k].status != Superseded && Owned(s, k, worker, now) {
      UnresolvedWhileHeld(s, k);
      HolderCanResolve(s, k, worker, now);
      ResolvableCommits(s, k, worker, now, id, original.brief);
    } else {
      if s.workflows[k].status != Superseded { UnresolvedWhileHeld(s, k); }
      RefusedSubmission(s, k, worker, now, d.acceptedVersion, original, id, d);
    }
  }

  lemma UnresolvedWhileHeld(s: RunState, k: nat)
    requires Inv(s) && k in s.workflows && s.workflows[k].status.Active()
    ensures s.workflows[k].review !in s.resolutions && s.workflows[k].review.revision == k
    ensures BriefStored(s, k)
  {
    ActiveIsUnresolved(s, k);
  }

  lemma RefusedSubmission(s: RunState, k: nat, worker: WorkerId, now: Instant, version: nat,
                          original: Content, id: DecisionId, d: ReviewDecision)
    requires k in s.workflows
    requires s.workflows[k].status == Superseded || (s.workflows[k].review !in s.resolutions && !Owned(s, k, worker, now))
    ensures Submit(s, k, worker, now, version, original, id, d).Abort?
  {
    hide ReviewClosed, BuildReviewedArtifacts;
  }

  // Crash consistency: operators, the reconciler, the worker and crashes in any order keep the
  // two stores in agreement.
  lemma ActKeeps(sys: System, a: Action)
    requires Consistent(sys)
    ensures Consistent(Act(sys, a))
  {
    hide Consistent, Perform, Listing, InspectNext, SettleItem, TakeClaim, CallTheGate, RecordGate, LoadForSubmission,
      ReadForSubmission, SendResult, GiveUpJob;
    match a
    case Operate(c) => if OperatorDbCommand(c) { OperateKeeps(sys, c); }
    case Crash => CrashKeeps(sys);
    case List(todo, now) => ListKeeps(sys, todo, now);
    case Inspect(readable, now) => InspectKeeps(sys, readable, now);
    case Settle(now) => SettleKeeps(sys, now);
    case Take(run, k, worker, now, lease) => TakeKeeps(sys, run, k, worker, now, lease);
    case FetchDecision => FetchKeeps(sys);
    case CallGate => CallGateKeeps(sys);
    case Record(now) => RecordKeeps(sys, now);
    case LoadDecision => LoadKeeps(sys);
    case ReadBrief => ReadKeeps(sys);
    case Send(now) => SendKeeps(sys, now);
    case GiveUp(now, error) => GiveUpKeeps(sys, now, error);
  }

  lemma CrashKeeps(sys: System)
    requires Consistent(sys)
    ensures Consistent(Act(sys, Crash))
  {
    hide DbInv, StoresAgree;
  }

  function Acts(sys: System, actions: seq<Action>): System
    decreases actions
  {
    if actions == [] then sys else Acts(Act(sys, actions[0]), actions[1..])
  }

  lemma {:induction false} ActsKeep(sys: System, actions: seq<Action>)
    requires Consistent(sys)
    ensures Consistent(Acts(sys, actions))
    decreases |actions|
  {
    hide Consistent, Act;
    if actions != [] {
      ActKeeps(sys, actions[0]);
      ActsKeep(Act(sys, actions[0]), actions[1..]);
    }
  }

  const START := System(map[], map[], Idle)

  // What the two stores say about one workflow after any actions.
  ghost predicate WorkflowConsistent(w: Workflow, c: Checkpoint) {
    && (w.status == WaitingDecision ==> c == Interrupted)
    && (w.status == ResumePending || w.status == Resuming ==>
          c == Interrupted || (c.CompletedWith? && w.decision == Some(c.decision)))
    && (w.status == ResolutionPending || w.status == Approved || w.status == Rejected ==>
          c.CompletedWith? && w.decision == Some(c.decision))
    && (w.status == CheckpointPending ==> c == Absent || c == Interrupted)
  }

  lemma ReachableConsistent(actions: seq<Action>, run: RunId, k: nat)
    ensures var sys := Acts(START, actions);
      && (run in sys.db && k in sys.db[run].workflows ==>
            WorkflowConsistent(sys.db[run].workflows[k], At(sys.threads, sys.db[run].workflows[k].review)))
      && (sys.at.Inspected? ==> !Judge(sys.at.item, sys.at.found).Distrust?)
      && (sys.at.DecisionFetched? ==>
            ResumeAnswer(At(sys.threads, sys.at.job.review), sys.at.job.review, sys.at.decision, sys.at.fetched)
              == Resumed(sys.at.decision))
      && !sys.at.GateMismatched?
  {
    hide Acts, Consistent, WorkflowConsistent, Judge, ResumeAnswer, At;
    StartConsistent();
    ActsKeep(START, actions);
    var sys := Acts(START, actions);
    NeverMismatched(sys);
    if sys.at.Inspected? { NeverDistrusted(sys); }
    if sys.at.DecisionFetched? { GateAnswersOwnDecision(sys); }
    if run in sys.db && k in sys.db[run].workflows { AgreementMeans(sys, run, k); }
  }

  lemma StartConsistent()
    ensures Consistent(START)
  {
  }

  lemma NeverMismatched(sys: System)
    requires Consistent(sys)
    ensures !sys.at.GateMismatched?
  {
    hide DbInv, StoresAgree;
  }

  lemma AgreementMeans(sys: System, run: RunId, k: nat)
    requires Consistent(sys) && run in sys.db && k in sys.db[run].workflows
    ensures WorkflowConsistent(sys.db[run].workflows[k], At(sys.threads, sys.db[run].workflows[k].review))
  {
    hide DbInv, Known, CheckpointAgrees, WorkflowConsistent, PositionHeld;
    var db, threads := sys.db, sys.threads;
    ResumingIsDecided(db, run, k);
    InvUndecided(db);
    assert CheckpointsAgree(db[run].workflows, threads) && WaitingUndecided(db[run].workflows);
    RowMeans(db[run].workflows[k], At(threads, db[run].workflows[k].review));
  }

  lemma RowMeans(w: Workflow, c: Checkpoint)
    requires CheckpointAgrees(w, c)
    requires w.status.Deciding() ==> w.decision.Some?
    requires w.status == CheckpointPending || w.status == WaitingDecision ==> w.decision.None?
    ensures WorkflowConsistent(w, c)
  {
  }

  predicate IsSuperseded(db: Db, item: Item) {
    item.run in db && item.k in db[item.run].workflows && db[item.run].workflows[item.k].status == Superseded
  }

  // When settling a listed workflow raises: for a resumption whose review was superseded in the
  // meantime, or that is to be released and has an active lease again.
  predicate SettlingRaises(db: Db, item: Item, found: Checkpoint, now: Instant) {
    item.status == Resuming && (IsSuperseded(db, item) || (found == Interrupted && HasActiveLease(db, item, now)))
  }

  predicate HasActiveLease(db: Db, item: Item, now: Instant) {
    item.run in db && item.k in db[item.run].workflows && LeaseActive(db[item.run].workflows[item.k].expires, now)
  }

  // The reconciler calls mark_resolution_pending and release_expired_lease outside any `try`, so
  // the exception ends the reconciliation, and the rest of its list is not looked at.
  lemma SettlingRaisesIff(sys: System, now: Instant)
    requires Consistent(sys) && sys.at.Inspected?
    ensures Act(sys, Settle(now)).at ==
      if SettlingRaises(sys.db, sys.at.item, sys.at.found, now) then Idle else Reconciling(sys.at.rest)
  {
    hide DbInv, StoresAgree, Distinct, Perform, At;
    var item := sys.at.item;
    assert ([item] + sys.at.rest)[0] == item;
    assert ItemHeld(sys.db, item);
    NeverDistrusted(sys);
  }

  // A checkpoint that cannot be read never ends the reconciliation.
  lemma UnreadableNeverRaises(sys: System, now: Instant)
    requires Consistent(sys) && sys.at.Reconciling? && sys.at.todo != []
    ensures var item := sys.at.todo[0];
      var after := Act(sys, Inspect(false, now));
      && after.at == Reconciling(sys.at.todo[1..])
      && (if IsSuperseded(sys.db, item) then after.db == sys.db else Committed(sys.db, item.run, SendToManual(item.k, None, now, CheckpointCorrupt)))
  {
    hide DbInv, StoresAgree, Distinct;
    var item := sys.at.todo[0];
    assert ItemHeld(sys.db, item);
    GivenUpIffHeld(sys.db[item.run], item.k, now, CheckpointCorrupt);
    hide Apply;
    if IsSuperseded(sys.db, item) { assert sys.db[item.run := sys.db[item.run]] == sys.db; }
  }

  lemma GivenUpIffHeld(s: RunState, k: nat, now: Instant, error: Code)
    requires k in s.workflows
    ensures Apply(s, SendToManual(k, None, now, error), false).Commit? <==> s.workflows[k].status.Active()
  {
  }

  // From every consistent state in which the reconciler has inspected a resuming workflow: a
  // verification decision for its run that commits before the next write ends the reconciliation.
  lemma WithdrawalEndsReconciliation(sys: System, evidence: EvidenceId, request: VerificationRequest, now: Instant)
    requires Consistent(sys) && sys.at.Inspected? && sys.at.item.run in sys.db
    requires sys.at.item.status == Resuming
    requires var run := sys.at.item.run;
      var step := AcceptVerification(sys.db[run], UsedByAnother(sys.db, run, Verify(evidence, request)), evidence, request);
      step.Commit? && !step.replay
    ensures var withdrawn := Act(sys, Operate(On(sys.at.item.run, Verify(evidence, request))));
      && Consistent(withdrawn) && IsSuperseded(withdrawn.db, sys.at.item)
      && withdrawn.at == sys.at && Act(withdrawn, Settle(now)).at == Idle
  {
    hide Consistent, AcceptVerification, UsedByAnother, IsSuperseded, SettleItem, Perform, Judge, At;
    var c := On(sys.at.item.run, Verify(evidence, request));
    var withdrawn := Act(sys, Operate(c));
    OperateKeeps(sys, c);
    WithdrawalSupersedes(sys, evidence, request);
    assert SettlingRaises(withdrawn.db, sys.at.item, sys.at.found, now);
    SettlingRaisesIff(withdrawn, now);
  }

  lemma WithdrawalSupersedes(sys: System, evidence: EvidenceId, request: VerificationRequest)
    requires Consistent(sys) && sys.at.Inspected? && sys.at.item.run in sys.db
    requires sys.at.item.status == Resuming
    requires var run := sys.at.item.run;
      var step := AcceptVerification(sys.db[run], UsedByAnother(sys.db, run, Verify(evidence, request)), evidence, request);
      step.Commit? && !step.replay
    ensures IsSuperseded(Perform(sys.db, On(sys.at.item.run, Verify(evidence, request))), sys.at.item)
  {
    hide Consistent, AcceptVerification, UsedByAnother, DbInv, StoresAgree, Inv, ServeResult, WithdrawnNow, Perform, InspectNext,
      SettleItem, TakeClaim, CallTheGate, RecordGate, LoadForSubmission, ReadForSubmission, SendResult, GiveUpJob, Listing;
    var item := sys.at.item;
    var c := On(item.run, Verify(evidence, request));
    OperateKeeps(sys, c);
    InspectedHeld(sys);
    InspectedHeld(Act(sys, Operate(c)));
    var s, elsewhere := sys.db[item.run], UsedByAnother(sys.db, item.run, c.command);
    assert DbInv(sys.db) by { ConsistentDb(sys); }
    BundledFirst(sys.db, item.run, item.k);
    VerificationWithdraws(s, elsewhere, evidence, request, _ => true);
    VerifyPerforms(sys.db, item.run, evidence, request);
    NoneActive(AcceptVerification(s, elsewhere, evidence, request).state, item.k);
  }

  lemma ConsistentDb(sys: System)
    requires Consistent(sys)
    ensures DbInv(sys.db)
  {
  }

  lemma VerifyPerforms(db: Db, run: RunId, evidence: EvidenceId, request: VerificationRequest)
    requires run in db
    ensures var step := AcceptVerification(db[run], UsedByAnother(db, run, Verify(evidence, request)), evidence, request);
      step.Commit? ==> Perform(db, On(run, Verify(evidence, request))) == db[run := step.state]
  {
    hide AcceptVerification, UsedByAnother;
  }

  lemma NoneActive(t: RunState, k: nat)
    requires WithdrawnNow(t)
    ensures k in t.workflows ==> !t.workflows[k].status.Active()
  {
  }

  lemma InspectedHeld(sys: System)
    requires Consistent(sys) && sys.at.Inspected?
    ensures ItemHeld(sys.db, sys.at.item)
  {
    hide DbInv, StoresAgree, ItemHeld;
    assert ([sys.at.item] + sys.at.rest)[0] == sys.at.item;
  }

  lemma BundledFirst(db: Db, run: RunId, k: nat)
    requires DbInv(db) && run in db && k in db[run].workflows
    ensures Inv(db[run]) && 1 in db[run].bundles
  {
    hide Started, Leases, Decided, Published, Verification, Artifacts;
    assert k in db[run].bundles;
    assert db[run].publications != [] ==> 1 <= k <= |db[run].publications|;
  }
}
