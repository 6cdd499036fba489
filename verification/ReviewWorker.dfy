/** The worker as it runs over the two stores (api/review_worker.py): its calls are the actions of
    module CrashRecovery, one after another, when nobody interferes. */
module ReviewWorker {
  import opened ReviewTypes
  import opened ReviewWorkflows
  import opened ReviewResolution
  import opened RunInvariant
  import opened Executions
  import opened ReviewGate
  import opened ReviewStore
  import opened CrashConsistency
  import opened CrashRecovery
  import opened WorkerProgress

  // A transaction over the database commits exactly when its command does.
  lemma TransactionIsCommand(before: Db, after: Db, run: RunId, c: Command, outcome: Outcome)
    requires run in before && !c.Verify? && !c.Decide?
    requires Performed(before, after, run, Apply(before[run], c, false), outcome)
    ensures after == Perform(before, On(run, c)) && (outcome.Done? <==> Committed(before, run, c)) && run in after
  {
    hide Apply;
    assert !UsedByAnother(before, run, c);
    PerformedIsPerform(before, after, run, c, outcome);
  }

  lemma LostLease(s: RunState, k: nat, worker: WorkerId, later: Instant, error: Code)
    ensures Apply(s, ReleaseRetry(k, worker, later, error, 3), false) == Abort(LeaseNotOwned) <==> k in s.workflows && !Owned(s, k, worker, later)
  {
  }

  class Worker {
    const store: Database
    const gate: Gate
    const name: WorkerId
    const lease: Instant
    var reconciled: bool

    ghost predicate Valid()
      reads this, store, gate
    {
      lease > 0 && Consistent(System(store.runs, gate.threads, Idle))
    }

    constructor (store: Database, gate: Gate, name: WorkerId, lease: Instant)
      requires lease > 0 && Consistent(System(store.runs, gate.threads, Idle))
      ensures Valid() && this.store == store && this.gate == gate && !reconciled
    {
      this.store, this.gate, this.name, this.lease, reconciled := store, gate, name, lease, false;
    }

    // ensure_waiting and complete_checkpoint_creation.
    method MakeCheckpoint(job: Job, later: Instant, works: bool) returns (raised: bool)
      requires job.run in store.runs
      modifies store, gate
      ensures var start := System(old(store.runs), old(gate.threads), CreatingCheckpoint(job));
        var called := if works then Consult(start) else start;
        var recorded := Act(called, Record(later));
        && store.runs == recorded.db && gate.threads == recorded.threads
        && (raised <==> !recorded.at.Idle?)
        && (raised ==> (recorded.at.CreatingCheckpoint? || recorded.at.Failing?) && recorded.at.job == job)
      ensures job.run in store.runs
    {
      hide Apply, Perform, Listing, OperatorDbCommand, InspectNext, SettleItem, TakeClaim, SendResult, GiveUpJob, Committed;
      if !works { return true; }
      gate.EnsureWaiting(job.review);
      var outcome := store.CompleteCheckpointCreation(job.run, job.k, job.worker, later);
      AppliedComplete(old(store.runs)[job.run], job, later);
      TransactionIsCommand(old(store.runs), store.runs, job.run, CompleteCheckpoint(job.k, job.worker, later), outcome);
      raised := outcome.Raised?;
    }

    // resume, and mark_resolution_pending with the decision that the checkpoint answers.
    method ResumeCheckpoint(job: Job, id: DecisionId, later: Instant, works: bool) returns (result: Resumption)
      requires job.run in store.runs
      modifies store, gate
      ensures var start := System(old(store.runs), old(gate.threads), ResumingGate(job, id));
        var called := if works then Consult(start) else start;
        var recorded := Act(called, Record(later));
        && store.runs == recorded.db && gate.threads == recorded.threads
        && recorded.at.Idle? == result.Distrusted?
        && (result.Resubmittable? <==> recorded.at == Submitting(job, id))
        && (result.ResumptionFailed? ==> (recorded.at.ResumingGate? || recorded.at.Failing?) && recorded.at.job == job)
      ensures job.run in store.runs
    {
      hide Consult, ResumeAnswer, Load, Apply, Perform, Listing, OperatorDbCommand, InspectNext, SettleItem, TakeClaim, CallTheGate,
        LoadForSubmission, ReadForSubmission, SendResult, GiveUpJob, Committed;
      if !works { return ResumptionFailed; }
      var s := store.runs[job.run];
      ConsultAnswers(System(store.runs, gate.threads, ResumingGate(job, id)));
      var loaded := Load(store.runs, job.run, id);
      var answer := gate.Resume(job.review, id, loaded);
      match answer {
        case Unavailable => result := ResumptionFailed;
        case Mismatched =>
          result := Distrusted;
          var outcome := store.MarkManualRecovery(job.run, job.k, Some(job.worker), later, CheckpointDecisionMismatch);
          AppliedManual(s, job, later);
          TransactionIsCommand(old(store.runs), store.runs, job.run,
            SendToManual(job.k, Some(job.worker), later, CheckpointDecisionMismatch), outcome);
        case Resumed(decision) =>
          var outcome := store.MarkResolutionPending(job.run, job.k, Some(job.worker), later, decision);
          AppliedHandOver(s, job, later, decision);
          TransactionIsCommand(old(store.runs), store.runs, job.run, HandOver(job.k, Some(job.worker), later, decision), outcome);
          result := if outcome.Done? then Resubmittable else ResumptionFailed;
      }
    }

    // get_decision, get_original_decision_brief, build_reviewed_artifacts and resolve_review.
    method SubmitResult(job: Job, id: DecisionId, later: Instant) returns (raised: bool)
      requires job.run in store.runs
      modifies store
      ensures var sent := Deliver(System(old(store.runs), gate.threads, Submitting(job, id)), later);
        && store.runs == sent.db && gate.threads == sent.threads
        && (raised <==> !sent.at.Idle?) && (raised ==> sent.at.Failing? && sent.at.job == job)
      ensures job.run in store.runs
    {
      hide Apply, Perform, Listing, OperatorDbCommand, InspectNext, SettleItem, TakeClaim, CallTheGate, RecordGate, GiveUpJob,
        Committed, OriginalBrief, BuildReviewedArtifacts;
      var s := store.runs[job.run];
      if id !in s.decisions { return true; }
      var d := s.decisions[id];
      var original := OriginalBrief(s, job.review);
      if original.None? { return true; }
      var built := BuildReviewedArtifacts(original.value, id, d, job.k);
      ghost var c := SubmissionOf(job, id, d, original.value, later);
      AppliedSubmission(s, job, later, original.value, id, d);
      if built.None? {
        assert Performed(old(store.runs), store.runs, job.run, Apply(s, c, false), Raised(ReviewPayloadInvalid));
        TransactionIsCommand(old(store.runs), store.runs, job.run, c, Raised(ReviewPayloadInvalid));
        return true;
      }
      var outcome := store.ResolveReview(job.run, job.k, job.worker, later, d.acceptedVersion, built.value);
      TransactionIsCommand(old(store.runs), store.runs, job.run, c, outcome);
      raised := outcome.Raised?;
    }

    // The handler of every other exception. Losing the lease asks for a new reconciliation.
    method Retry(job: Job, later: Instant, error: Code)
      requires job.run in store.runs
      modifies this`reconciled, store
      ensures var end := Act(System(old(store.runs), gate.threads, Failing(job)), GiveUp(later, error));
        store.runs == end.db && gate.threads == end.threads
      ensures job.run in store.runs
      ensures reconciled <==> old(reconciled) && (job.k in old(store.runs)[job.run].workflows ==> Owned(old(store.runs)[job.run], job.k, job.worker, later))
    {
      hide Apply, Perform, Listing, OperatorDbCommand, InspectNext, SettleItem, TakeClaim, CallTheGate, RecordGate, SendResult, Owned;
      LostLease(store.runs[job.run], job.k, job.worker, later, error);
      var outcome := store.ReleaseWorkflowForRetry(job.run, job.k, job.worker, later, error, 3);
      AppliedRetry(old(store.runs)[job.run], job, later, error);
      TransactionIsCommand(old(store.runs), store.runs, job.run, ReleaseRetry(job.k, job.worker, later, error, 3), outcome);
      if outcome == Raised(LeaseNotOwned) { reconciled := false; }
    }

    // The work on a claimed workflow, up to the exception that ends it, if any.
    method CarryOut(job: Job, status: WorkflowStatus, decision: Option<DecisionId>, r: Readings, works: bool) returns (raised: bool)
      requires job.run in store.runs
      modifies store, gate
      ensures Sent(System(old(store.runs), old(gate.threads), PositionFor(job, status, decision)), store.runs, gate.threads,
                   job, r, works, raised)
      ensures job.run in store.runs
    {
      hide Act, Consult, Deliver;
      ghost var start := System(store.runs, gate.threads, PositionFor(job, status, decision));
      IdleSkips(start, r.record, ReviewWorkerFailed);
      IdleSkips(start, r.submit, ReviewWorkerFailed);
      if status == CheckpointPending {
        raised := MakeCheckpoint(job, r.record, works);
        ghost var recorded := Act(if works then Consult(start) else start, Record(r.record));
        IdleSkips(recorded, r.submit, ReviewWorkerFailed);
      } else if decision.None? {
        raised := true;
      } else if status == ResolutionPending {
        raised := SubmitResult(job, decision.value, r.submit);
      } else {
        var result := ResumeCheckpoint(job, decision.value, r.record, works);
        ghost var recorded := Act(if works then Consult(start) else start, Record(r.record));
        IdleSkips(recorded, r.submit, ReviewWorkerFailed);
        if result.Resubmittable? {
          raised := SubmitResult(job, decision.value, r.submit);
        } else {
          raised := result.ResumptionFailed?;
        }
      }
    }

    // One workflow of the reconciler's list. An unreadable checkpoint, or one that does not fit,
    // sends the workflow to manual recovery, unless its review was superseded in the meantime.
    method ReconcileItem(item: Item, later: Instant, readable: bool) returns (raised: bool)
      requires item.run in store.runs && item.k in store.runs[item.run].workflows
      modifies store
      ensures item.run in store.runs
      ensures var start := System(old(store.runs), gate.threads, Reconciling([item]));
        var inspected := Act(start, Inspect(readable, later));
        var settled := if readable then Act(inspected, Settle(later)) else inspected;
        && store.runs == settled.db && gate.threads == settled.threads
        && (raised <==> settled.at.Idle?)
    {
      hide Apply, Perform, Listing, OperatorDbCommand, TakeClaim, CallTheGate, RecordGate, SendResult, GiveUpJob, Committed;
      var run, k, s := item.run, item.k, store.runs[item.run];
      if !readable {
        raised := SendToManualRecovery(item, later, CheckpointCorrupt);
        return;
      }
      var found := gate.Inspect(item.review);
      match Judge(item, found) {
        case LeaveIt => raised := false;
        case MarkItWaiting =>
          var outcome := store.MarkWaitingDecision(run, k);
          AppliedWaiting(s, k);
          TransactionIsCommand(old(store.runs), store.runs, run, MarkWaiting(k), outcome);
          raised := false;
        case HandItOver(decision) =>
          var outcome := store.MarkResolutionPending(run, k, None, later, decision);
          AppliedReconciledHandOver(s, k, later, decision);
          TransactionIsCommand(old(store.runs), store.runs, run, HandOver(k, None, later, decision), outcome);
          raised := outcome.Raised?;
        case ReleaseIt =>
          var outcome := store.ReleaseExpiredLease(run, k, later);
          AppliedRelease(s, k, later);
          TransactionIsCommand(old(store.runs), store.runs, run, ReleaseExpired(k, later), outcome);
          raised := outcome.Raised?;
        case Distrust =>
          raised := SendToManualRecovery(item, later, CheckpointDecisionMismatch);
      }
    }

    method SendToManualRecovery(item: Item, later: Instant, error: Code) returns (raised: bool)
      requires item.run in store.runs && item.k in store.runs[item.run].workflows
      modifies store
      ensures var end := Distrusting(System(old(store.runs), gate.threads, Idle), item, later, error, []);
        store.runs == end.db && (raised <==> end.at.Idle?)
      ensures item.run in store.runs
    {
      hide Apply, Perform;
      var outcome := store.MarkManualRecovery(item.run, item.k, None, later, error);
      AppliedReconcilerManual(old(store.runs)[item.run], item.k, later, error);
      TransactionIsCommand(old(store.runs), store.runs, item.run, SendToManual(item.k, None, later, error), outcome);
      SupersededCode(old(store.runs)[item.run], item.k, later, error);
      raised := outcome.Raised? && outcome.code != ReviewSuperseded;
    }

    // list_reconcilable_workflows; the order of the list is left open.
    method ListReconcilable(now: Instant) returns (todo: seq<Item>)
      ensures Listing(store.runs, now, todo)
      ensures forall run, k: nat | Reconcilable(store.runs, run, k, now) :: ItemFor(store.runs, run, k) in todo
      ensures forall item | item in todo :: Reconcilable(store.runs, item.run, item.k, now) && item == ItemFor(store.runs, item.run, item.k)
    {
      var db := store.runs;
      var keys: set<(RunId, nat)> := set run, k: nat | run in db && k in db[run].workflows && Reconcilable(db, run, k, now) :: (run, k);
      var order: seq<(RunId, nat)> := Arrange(keys);
      todo := [];
      for i := 0 to |order|
        invariant |todo| == i
        invariant forall j | 0 <= j < i :: todo[j] == ItemFor(db, order[j].0, order[j].1)
        invariant forall j | 0 <= j < i :: Reconcilable(db, todo[j].run, todo[j].k, now)
      {
        assert order[i] in keys;
        todo := todo + [ItemFor(db, order[i].0, order[i].1)];
      }
      forall run, k: nat | Reconcilable(db, run, k, now) ensures ItemFor(db, run, k) in todo {
        assert (run, k) in keys;
        var i :| 0 <= i < |order| && order[i] == (run, k);
        assert todo[i] == ItemFor(db, run, k);
      }
    }

    method Arrange<T(==)>(keys: set<T>) returns (order: seq<T>)
      ensures forall key :: key in order <==> key in keys
      ensures forall i, j | 0 <= i < j < |order| :: order[i] != order[j]
    {
      var rest := keys;
      order := [];
      while rest != {}
        invariant rest <= keys
        invariant forall key :: key in order <==> key in keys - rest
        invariant forall i, j | 0 <= i < j < |order| :: order[i] != order[j]
        decreases |rest|
      {
        var key :| key in rest;
        assert key !in order;
        order := order + [key];
        rest := rest - {key};
      }
    }

    // reconcile_review_workflows; `now` is the time of its list, `clock` what each item's own step
    // reads. With nobody else at work it never raises; every workflow of the list ends where its
    // checkpoint says, and no other is touched.
    method Reconcile(now: Instant, clock: nat -> Instant, corrupt: set<ReviewId>) returns (raised: bool)
      requires Valid() && forall i :: now <= clock(i)
      modifies store
      ensures Valid() && !raised
      ensures Potential(store.runs) <= old(Potential(store.runs))
      ensures Settled(old(store.runs), store.runs, gate.threads, old(ReconcilableKeys(store.runs, now)), corrupt)
    {
      hide Act, Consistent, Potential, Settled, Listing;
      var todo := ListReconcilable(now);
      assert Distinct(todo) by { hide Distinct; }
      ghost var before := store.runs;
      ghost var done: set<(RunId, nat)> := {};
      SettledAtFirst(before, gate.threads, corrupt);
      var i := 0;
      while i < |todo|
        invariant 0 <= i <= |todo|
        invariant Valid() && Settled(before, store.runs, gate.threads, done, corrupt)
        invariant done == set j | 0 <= j < i :: (todo[j].run, todo[j].k)
        invariant Potential(store.runs) <= Potential(before)
      {
        var item, later := todo[i], clock(i);
        assert (item.run, item.k) !in done;
        StillListed(before, store.runs, gate.threads, done, corrupt, item, now, later);
        ItemSettles(store.runs, gate.threads, item, later, item.review !in corrupt);
        ghost var earlier := store.runs;
        raised := ReconcileItem(item, later, item.review !in corrupt);
        SettledFurther(before, earlier, store.runs, gate.threads, done, corrupt, item);
        done := done + {(item.run, item.k)};
        i := i + 1;
      }
      raised := false;
      AllListed(before, now, todo, done);
    }

    // run_once after its reconciliation.
    method TakeUp(now: Instant, r: Readings, works: bool, error: Code) returns (claimed: Option<(RunId, nat)>)
      requires Valid()
      modifies this`reconciled, store, gate
      ensures claimed.None? <==> old(store.Due(now)) == map[]
      ensures claimed.None? ==> store.runs == old(store.runs) && gate.threads == old(gate.threads) && reconciled == old(reconciled)
      ensures claimed.Some? ==>
        && claimed.value in old(store.Due(now))
        && (forall key | key in old(store.Due(now)) :: !old(store.Due(now))[key].Precedes(old(store.Due(now))[claimed.value]))
        && System(store.runs, gate.threads, Idle) ==
           Pass(System(old(store.runs), old(gate.threads), Idle), claimed.value.0, claimed.value.1, name, now, lease, r, works, error)
    {
      hide Act, Consult, Deliver, Consistent, Performed, Claimable, PositionFor, Rank.Precedes;
      ghost var start := System(store.runs, gate.threads, Idle);
      var outcome;
      claimed, outcome := store.ClaimReviewWorkflow(name, now, lease);
      if claimed.None? { return; }
      var (run, k) := claimed.value;
      ClaimTransaction(start, store.runs, run, k, name, now, lease, outcome);
      var w := store.runs[run].workflows[k];
      var job := Job(run, k, w.review, name);
      var raised := CarryOut(job, w.status, w.decision, r, works);
      ghost var taken := Act(start, Take(run, k, name, now, lease));
      ghost var sent := Deliver(Act(if works then Consult(taken) else taken, Record(r.record)), r.submit);
      GiveUpFrom(sent, job, r.giveUp, error);
      if raised { Retry(job, r.giveUp, error); }
    }

    // One call: the first after a start, or after a lost lease, reconciles, with the readings
    // `listed` and `clock`; `now` is that of the claim, `r` are those after it. Without interference
    // and with the lease still running, a call that takes a workflow up leaves less to do.
    method RunOnce(listed: Instant, clock: nat -> Instant, corrupt: set<ReviewId>, now: Instant, r: Readings, works: bool, error: Code)
      returns (worked: bool)
      requires Valid() && forall i :: listed <= clock(i)
      modifies this`reconciled, store, gate
      ensures Valid()
      ensures r.Before(now + lease) ==> Potential(store.runs) <= old(Potential(store.runs))
      ensures r.Before(now + lease) && worked ==> Potential(store.runs) < old(Potential(store.runs))
      ensures !worked ==> reconciled && store.Due(now) == map[]
    {
      hide Act, Consistent, Pass, Potential, OneMoves, Passed, Readings.Before;
      if !reconciled {
        var raised := Reconcile(listed, clock, corrupt);
        reconciled := !raised;
      }
      ghost var before := System(store.runs, gate.threads, Idle);
      var claimed := TakeUp(now, r, works, error);
      worked := claimed.Some?;
      if worked {
        var (run, k) := claimed.value;
        PassConsistent(before, run, k, name, now, lease, r, works, error);
        if r.Before(now + lease) { PassProgresses(before, run, k, name, now, lease, r, works, error); }
      }
    }

    // Calls until nothing is due, while the clock goes on: with nobody else at work and every call
    // within its lease, at most three for each workflow that can be taken up.
    method Drain(clock: nat -> Instant, readings: nat -> Readings, works: bool, error: Code) returns (calls: nat)
      requires Valid() && Onward(clock) && WithinLease(clock, readings, lease)
      modifies this`reconciled, store, gate
      ensures Valid() && store.Due(clock(calls)) == map[]
      ensures calls <= old(Potential(store.runs))
      ensures calls <= MAX_ATTEMPTS * |Positive(Weights(old(store.runs)))|
      ensures Drained(old(store.Due(clock(0))).Keys, store.runs, works)
      ensures Untouched(old(store.runs), store.runs)
    {
      hide Consistent, Pass, Potential, Weights, Positive, Drained, InPlay, Untouched, Onward, WithinLease, NoneClaimable, Claimable,
        Rank.Precedes;
      calls := 0;
      var more := true;
      ghost var due := store.Due(clock(0)).Keys;
      NothingTouched(store.runs);
      PotentialBounded(store.runs);
      StartsInPlay(store.runs, due, clock(0), works);
      while more
        invariant Valid() && InPlay(due, store.runs, clock(calls), works)
        invariant Untouched(old(store.runs), store.runs)
        invariant !more ==> store.Due(clock(calls)) == map[]
        invariant calls + Potential(store.runs) <= old(Potential(store.runs))
        decreases Potential(store.runs), more
      {
        ghost var before := System(store.runs, gate.threads, Idle);
        var now := clock(calls);
        var claimed := TakeUp(now, readings(calls), works, error);
        if claimed.None? {
          more := false;
        } else {
          var (run, k) := claimed.value;
          CallInPlay(due, old(store.runs), before, run, k, name, lease, clock, readings, calls, works, error);
          calls := calls + 1;
        }
      }
      NothingDue(store, clock(calls));
      EndsDrained(due, store.runs, clock(calls), works);
    }

    // A worker that starts after a crash, once every lease has run out: it reconciles and calls
    // until nothing is due. Every review that was under way is then waiting for a decision or
    // resolved, with no help but a working checkpoint store.
    method Restart(listed: Instant, items: nat -> Instant, clock: nat -> Instant, readings: nat -> Readings, error: Code)
      returns (calls: nat)
      requires Valid() && LeasesExpired(store.runs, listed)
      requires listed <= clock(0) && forall i :: listed <= items(i)
      requires Onward(clock) && WithinLease(clock, readings, lease)
      modifies this`reconciled, store, gate
      ensures Valid() && Recovered(old(store.runs), store.runs)
      ensures calls <= old(Potential(store.runs))
    {
      hide Consistent, Potential, Settled, Drained, Untouched, LeasesExpired, Recovered, Weights, Positive, Onward, WithinLease;
      var raised := Reconcile(listed, items, {});
      ghost var between, threads, due := store.runs, gate.threads, store.Due(clock(0)).Keys;
      reconciled := !raised;
      calls := Drain(clock, readings, true, error);
      forall run, k: nat | run in old(store.runs) && k in old(store.runs)[run].workflows && old(store.runs)[run].workflows[k].status.Claimable()
        ensures run in store.runs && k in store.runs[run].workflows && Attended(store.runs[run].workflows[k].status)
      {
        RowRecovers(old(store.runs), between, store.runs, threads, due, run, k, listed, clock(0));
      }
      RecoveredByRows(old(store.runs), store.runs);
    }
  }

  // Every call reads the clock for the last time before its lease ends.
  ghost predicate WithinLease(clock: nat -> Instant, readings: nat -> Readings, lease: Instant) {
    forall i: nat :: readings(i).Before(clock(i) + lease)
  }

  // The clock never goes back.
  ghost predicate Onward(clock: nat -> Instant) {
    forall i: nat, j: nat | i <= j :: clock(i) <= clock(j)
  }

  ghost predicate LeasesExpired(db: Db, now: Instant) {
    forall run, k: nat | run in db && k in db[run].workflows :: !LeaseActive(db[run].workflows[k].expires, now)
  }

  // Whatever a worker could take up is attended to.
  ghost predicate Recovered(before: Db, after: Db) {
    forall run, k: nat | run in before && k in before[run].workflows && before[run].workflows[k].status.Claimable() ::
      run in after && k in after[run].workflows && Attended(after[run].workflows[k].status)
  }

  lemma RecoveredByRows(before: Db, after: Db)
    requires forall run, k: nat | run in before && k in before[run].workflows && before[run].workflows[k].status.Claimable() ::
      run in after && k in after[run].workflows && Attended(after[run].workflows[k].status)
    ensures Recovered(before, after)
  {
  }

  // After the reconciliation the workflow waits, or is due: its lease is free.
  lemma RowIsDue(w: Workflow, after: Workflow, threads: Threads, settled: bool, listed: Instant, now: Instant)
    requires w.status.Claimable() && !LeaseActive(w.expires, listed) && listed <= now
    requires settled <==> w.status == CheckpointPending || w.status == Resuming
    requires SettledRow(w, after, threads, settled, {})
    ensures after.status == WaitingDecision || (after.status.Claimable() && LeaseFree(after, now))
  {
  }

  lemma RowRecovers(before: Db, between: Db, after: Db, threads: Threads, due: set<(RunId, nat)>, run: RunId, k: nat,
                    listed: Instant, now: Instant)
    requires LeasesExpired(before, listed) && Settled(before, between, threads, ReconcilableKeys(before, listed), {}) && listed <= now
    requires forall r, j: nat :: (r, j) in due <==> r in between && Claimable(between[r], j, now)
    requires Drained(due, after, true) && Untouched(between, after)
    requires run in before && k in before[run].workflows && before[run].workflows[k].status.Claimable()
    ensures run in after && k in after[run].workflows && Attended(after[run].workflows[k].status)
  {
    hide SettledRow, LeaseFree, LeaseActive;
    var w := before[run].workflows[k];
    assert run in between && k in between[run].workflows;
    assert (run, k) in ReconcilableKeys(before, listed) <==> w.status == CheckpointPending || w.status == Resuming;
    RowIsDue(w, between[run].workflows[k], threads, (run, k) in ReconcilableKeys(before, listed), listed, now);
    assert (run, k) in due || between[run].workflows[k].status == WaitingDecision;
    assert (run, k) !in due ==> after[run].workflows[k] == between[run].workflows[k];
  }

  // Only what a worker may take up has changed, whatever its lease.
  ghost predicate Untouched(start: Db, db: Db) {
    forall run, k: nat ::
      && (run in db && k in db[run].workflows <==> run in start && k in start[run].workflows)
      && (run in start && k in start[run].workflows && !start[run].workflows[k].status.Claimable() ==>
            db[run].workflows[k] == start[run].workflows[k])
  }

  lemma NothingTouched(db: Db)
    ensures Untouched(db, db)
  {
  }

  lemma StillUntouched(start: Db, before: Db, after: Db, run: RunId, k: nat)
    requires Untouched(start, before) && OneMoves(before, after, run, k) && before[run].workflows[k].status.Claimable()
    ensures Untouched(start, after)
  {
    forall r, j: nat
      ensures r in after && j in after[r].workflows <==> r in start && j in start[r].workflows
      ensures r in start && j in start[r].workflows && !start[r].workflows[j].status.Claimable() ==>
        after[r].workflows[j] == start[r].workflows[j]
    {
      OneMovesRow(before, after, run, k, r, j);
      hide OneMoves;
    }
  }

  // A free lease stays free as time goes on.
  lemma LaterInPlay(due: set<(RunId, nat)>, db: Db, clock: nat -> Instant, i: nat, works: bool)
    requires InPlay(due, db, clock(i), works) && Onward(clock)
    ensures InPlay(due, db, clock(i + 1), works)
  {
    assert clock(i) <= clock(i + 1);
  }

  // It waits for a decision, or its decision has been carried out.
  predicate Attended(status: WorkflowStatus) {
    status == WaitingDecision || status == Approved || status == Rejected
  }

  // Every workflow that was due is out of the worker's hands: with a working checkpoint store it
  // waits for a decision or is resolved.
  ghost predicate Drained(due: set<(RunId, nat)>, db: Db, works: bool) {
    forall run, k | (run, k) in due ::
      && run in db && k in db[run].workflows
      && var status := db[run].workflows[k].status;
      && !status.Claimable()
      && (works ==> Attended(status))
  }

  // Each is either still to be taken up, or out of the worker's hands.
  ghost predicate InPlay(due: set<(RunId, nat)>, db: Db, now: Instant, works: bool) {
    forall run, k | (run, k) in due ::
      && run in db && k in db[run].workflows
      && var status := db[run].workflows[k].status;
      && (status.Claimable() ==> Claimable(db[run], k, now))
      && (works ==> status.Claimable() || Attended(status))
  }

  lemma StartsInPlay(db: Db, due: set<(RunId, nat)>, now: Instant, works: bool)
    requires forall run, k: nat | (run, k) in due :: run in db && Claimable(db[run], k, now)
    ensures InPlay(due, db, now, works)
  {
  }

  ghost predicate NoneClaimable(db: Db, now: Instant) {
    forall run, k: nat | run in db :: !Claimable(db[run], k, now)
  }

  lemma NothingDue(store: Database, now: Instant)
    requires store.Due(now) == map[]
    ensures NoneClaimable(store.runs, now)
  {
    forall run, k: nat | run in store.runs ensures !Claimable(store.runs[run], k, now) { assert (run, k) !in store.Due(now); }
  }

  lemma EndsDrained(due: set<(RunId, nat)>, db: Db, now: Instant, works: bool)
    requires InPlay(due, db, now, works)
    requires NoneClaimable(db, now)
    ensures Drained(due, db, works)
  {
    hide Claimable;
  }

  lemma StaysInPlay(due: set<(RunId, nat)>, before: Db, after: Db, run: RunId, k: nat, now: Instant, works: bool, error: Code)
    requires InPlay(due, before, now, works) && OneMoves(before, after, run, k)
    requires Passed(before[run].workflows[k], after[run].workflows[k], DecidedAction(before, run, before[run].workflows[k]), works, error)
    requires before[run].workflows[k].status.Claimable()
    ensures InPlay(due, after, now, works)
  {
    forall r, j | (r, j) in due
      ensures r in after && j in after[r].workflows
      ensures after[r].workflows[j].status.Claimable() ==> Claimable(after[r], j, now)
      ensures works ==> after[r].workflows[j].status.Claimable() || Attended(after[r].workflows[j].status)
    {
      OneMovesRow(before, after, run, k, r, j);
    }
  }

  // One call of the loop leaves everything in play until the next.
  lemma CallInPlay(due: set<(RunId, nat)>, start: Db, before: System, run: RunId, k: nat, worker: WorkerId, lease: Instant,
                   clock: nat -> Instant, readings: nat -> Readings, i: nat, works: bool, error: Code)
    requires Consistent(before) && before.at.Idle? && run in before.db && Claimable(before.db[run], k, clock(i))
    requires lease > 0 && WithinLease(clock, readings, lease) && Onward(clock)
    requires InPlay(due, before.db, clock(i), works) && Untouched(start, before.db)
    ensures var end := Pass(before, run, k, worker, clock(i), lease, readings(i), works, error);
      && InPlay(due, end.db, clock(i + 1), works) && Untouched(start, end.db)
      && Consistent(end) && end.at == Idle && Potential(end.db) < Potential(before.db)
  {
    hide Consistent, Pass, Potential, OneMoves, Passed, InPlay, Untouched, Onward, Readings.Before, LeaseFree;
    var end := Pass(before, run, k, worker, clock(i), lease, readings(i), works, error);
    assert readings(i).Before(clock(i) + lease);
    PassProgresses(before, run, k, worker, clock(i), lease, readings(i), works, error);
    StaysInPlay(due, before.db, end.db, run, k, clock(i), works, error);
    LaterInPlay(due, end.db, clock, i, works);
    StillUntouched(start, before.db, end.db, run, k);
  }

  // A committed claim leads to the position of the claimed row.
  lemma ClaimTransaction(start: System, after: Db, run: RunId, k: nat, worker: WorkerId, now: Instant, lease: Instant, outcome: Outcome)
    requires Consistent(start) && start.at.Idle? && run in start.db && Claimable(start.db[run], k, now) && lease > 0
    requires Performed(start.db, after, run, ClaimWorkflow(start.db[run], k, worker, now, lease), outcome)
    ensures run in after && k in after[run].workflows
    ensures var w := after[run].workflows[k];
      Act(start, Take(run, k, worker, now, lease)) ==
        System(after, start.threads, PositionFor(Job(run, k, w.review, worker), w.status, w.decision))
  {
    hide DbInv, StoresAgree, Bundled, Started, Leases, Perform, OneMoves, ClaimWorkflow,
      InspectNext, SettleItem, CallTheGate, RecordGate, SendResult, GiveUpJob, Listing, OperatorDbCommand;
    InvParts(start.db, run);
    ClaimedRow(start.db[run], k, worker, now, lease);
    WorkerCommits(start.db, run, Claim(k, worker, now, lease));
  }

  // Giving up depends on the job alone, and does nothing at rest.
  lemma GiveUpFrom(sent: System, job: Job, later: Instant, error: Code)
    ensures sent.at.Idle? ==> Act(sent, GiveUp(later, error)) == sent
    ensures !sent.at.Idle? && !sent.at.Reconciling? && !sent.at.Inspected? && sent.at.job == job ==>
      Act(sent, GiveUp(later, error)) == Act(sent.(at := Failing(job)), GiveUp(later, error)) &&
      Act(sent, GiveUp(later, error)).at.Idle? && Act(sent, GiveUp(later, error)).threads == sent.threads
  {
    hide Perform, Listing, OperatorDbCommand, InspectNext, SettleItem, TakeClaim, CallTheGate, RecordGate, SendResult;
  }

  function PositionFor(job: Job, status: WorkflowStatus, decision: Option<DecisionId>): Position {
    if status == CheckpointPending then CreatingCheckpoint(job)
    else if decision.None? then Failing(job)
    else if status == ResolutionPending then Submitting(job, decision.value)
    else ResumingGate(job, decision.value)
  }

  // The stores after the work on a claimed workflow, as actions from where the claim led.
  ghost predicate Sent(start: System, runs: Db, threads: Threads, job: Job, r: Readings, works: bool, raised: bool) {
    var called := if works then Consult(start) else start;
    var sent := Deliver(Act(called, Record(r.record)), r.submit);
    && runs == sent.db && threads == sent.threads
    && (raised <==> !sent.at.Idle?)
    && (raised ==> !sent.at.Reconciling? && !sent.at.Inspected? && sent.at.job == job)
  }

  // A workflow that waits for its checkpoint, or whose resumption has lost its lease.
  predicate Reconcilable(db: Db, run: RunId, k: nat, now: Instant) {
    && run in db && k in db[run].workflows
    && var w := db[run].workflows[k];
    (w.status == CheckpointPending || (w.status == Resuming && !LeaseActive(w.expires, now)))
  }

  function ItemFor(db: Db, run: RunId, k: nat): Item {
    if run in db && k in db[run].workflows then
      var w := db[run].workflows[k]; Item(run, k, w.review, w.status, w.decision)
    else Item(run, k, ReviewId(run, k, []), Superseded, None)
  }

  function ReconcilableKeys(db: Db, now: Instant): set<(RunId, nat)> {
    set run, k: nat | run in db && k in db[run].workflows && Reconcilable(db, run, k, now) :: (run, k)
  }

  // Where the reconciler leaves a listed workflow, by its checkpoint.
  predicate ReconciledRow(w: Workflow, after: Workflow, c: Checkpoint, readable: bool) {
    var status := if !readable then ManualRecovery
      else if w.status == CheckpointPending then WaitingDecision
      else if c.CompletedWith? then ResolutionPending else ResumePending;
    var lastError := if !readable then Some(CheckpointCorrupt) else if w.status == CheckpointPending then None else w.lastError;
    if readable && w.status == CheckpointPending && !c.Interrupted? then after == w
    else after == w.(status := status, owner := None, expires := None, lastError := lastError)
  }

  // The workflows named in `done` are reconciled, the others are as before.
  ghost predicate Settled(before: Db, db: Db, threads: Threads, done: set<(RunId, nat)>, corrupt: set<ReviewId>) {
    forall run, k: nat | run in before && k in before[run].workflows ::
      run in db && k in db[run].workflows && SettledRow(before[run].workflows[k], db[run].workflows[k], threads, (run, k) in done, corrupt)
  }

  predicate SettledRow(w: Workflow, after: Workflow, threads: Threads, settled: bool, corrupt: set<ReviewId>) {
    if settled then ReconciledRow(w, after, At(threads, w.review), w.review !in corrupt) else after == w
  }

  lemma SettledAtFirst(db: Db, threads: Threads, corrupt: set<ReviewId>)
    ensures Settled(db, db, threads, {}, corrupt)
  {
  }

  lemma AllListed(db: Db, now: Instant, todo: seq<Item>, done: set<(RunId, nat)>)
    requires forall run, k: nat | Reconcilable(db, run, k, now) :: ItemFor(db, run, k) in todo
    requires forall item | item in todo :: Reconcilable(db, item.run, item.k, now) && item == ItemFor(db, item.run, item.k)
    requires done == set j | 0 <= j < |todo| :: (todo[j].run, todo[j].k)
    ensures done == ReconcilableKeys(db, now)
  {
    forall run, k: nat | Reconcilable(db, run, k, now) ensures (run, k) in done {
      var j :| 0 <= j < |todo| && todo[j] == ItemFor(db, run, k);
      assert (todo[j].run, todo[j].k) == (run, k);
    }
  }

  // An item not yet settled is still as it was listed.
  lemma StillListed(before: Db, db: Db, threads: Threads, done: set<(RunId, nat)>, corrupt: set<ReviewId>,
                    item: Item, now: Instant, later: Instant)
    requires Settled(before, db, threads, done, corrupt) && (item.run, item.k) !in done && now <= later
    requires Reconcilable(before, item.run, item.k, now) && item == ItemFor(before, item.run, item.k)
    ensures Reconcilable(db, item.run, item.k, later) && item == ItemFor(db, item.run, item.k)
    ensures db[item.run].workflows[item.k] == before[item.run].workflows[item.k]
  {
  }

  // What the two actions of the reconciler make of one listed workflow.
  ghost predicate Reconciled(db: Db, after: Db, threads: Threads, item: Item, readable: bool) {
    && item.run in db && item.k in db[item.run].workflows && item.run in after && item.k in after[item.run].workflows
    && (after == db || OneMoves(db, after, item.run, item.k))
    && (item.status == CheckpointPending || item.status == Resuming) && db[item.run].workflows[item.k].status == item.status
    && ReconciledRow(db[item.run].workflows[item.k], after[item.run].workflows[item.k], At(threads, item.review), readable)
  }

  lemma SettledFurther(before: Db, db: Db, after: Db, threads: Threads, done: set<(RunId, nat)>, corrupt: set<ReviewId>, item: Item)
    requires Settled(before, db, threads, done, corrupt) && (item.run, item.k) !in done
    requires item.run in before && item.k in before[item.run].workflows
    requires item.review == before[item.run].workflows[item.k].review
    requires Reconciled(db, after, threads, item, item.review !in corrupt)
    ensures Settled(before, after, threads, done + {(item.run, item.k)}, corrupt)
    ensures Potential(after) <= Potential(db)
  {
    var row := db[item.run].workflows[item.k];
    if after != db {
      hide ReconciledRow, SettledRow;
      OneMovesPotential(db, after, item.run, item.k);
      LighterOrSame(row, after[item.run].workflows[item.k], At(threads, item.review), item.review !in corrupt);
    }
    forall run, k: nat | run in before && k in before[run].workflows
      ensures run in after && k in after[run].workflows
      ensures SettledRow(before[run].workflows[k], after[run].workflows[k], threads, (run, k) in done + {(item.run, item.k)}, corrupt)
    {
      if after != db { OneMovesRow(db, after, item.run, item.k, run, k); }
    }
  }

  lemma LighterOrSame(w: Workflow, after: Workflow, c: Checkpoint, readable: bool)
    requires ReconciledRow(w, after, c, readable) && (w.status == CheckpointPending || w.status == Resuming)
    ensures Weight(after) <= Weight(w)
  {
  }

  // The step that settles a workflow commits, and leaves the row where the checkpoint says.
  lemma SettlingRow(s: RunState, item: Item, found: Checkpoint, later: Instant)
    requires item.k in s.workflows && CheckpointAgrees(s.workflows[item.k], found)
    requires s.workflows[item.k].status == item.status && s.workflows[item.k].decision == item.decision
    requires item.status == CheckpointPending || (item.status == Resuming && item.decision.Some?)
    requires item.status == Resuming ==> !LeaseActive(s.workflows[item.k].expires, later)
    requires !Judge(item, found).LeaveIt?
    ensures Executions.Worker(SettlingCommand(item, Judge(item, found), later)) && SettlingCommand(item, Judge(item, found), later).k == item.k
    ensures var step := Apply(s, SettlingCommand(item, Judge(item, found), later), false);
      && step.Commit? && step.state != s && item.k in step.state.workflows
      && ReconciledRow(s.workflows[item.k], step.state.workflows[item.k], found, true)
  {
    AppliedWaiting(s, item.k);
    if found.CompletedWith? { AppliedReconciledHandOver(s, item.k, later, found.decision); }
    AppliedRelease(s, item.k, later);
    hide Apply;
  }

  lemma DistrustedRow(s: RunState, item: Item, later: Instant)
    requires item.k in s.workflows && s.workflows[item.k].status.Active()
    ensures var step := Apply(s, SendToManual(item.k, None, later, CheckpointCorrupt), false);
      && step.Commit? && step.state != s && item.k in step.state.workflows
      && ReconciledRow(s.workflows[item.k], step.state.workflows[item.k], Absent, false)
  {
    AppliedReconcilerManual(s, item.k, later, CheckpointCorrupt);
    hide Apply;
  }

  lemma ItemStarts(db: Db, threads: Threads, item: Item, later: Instant)
    requires Consistent(System(db, threads, Idle)) && Reconcilable(db, item.run, item.k, later) && item == ItemFor(db, item.run, item.k)
    ensures Consistent(System(db, threads, Reconciling([item])))
    ensures Consistent(System(db, threads, Inspected(item, At(threads, item.review), [])))
    ensures CheckpointAgrees(db[item.run].workflows[item.k], At(threads, item.review))
    ensures item.status == Resuming ==> item.decision.Some?
  {
    hide DbInv, StoresAgree;
    ResumingIsDecided(db, item.run, item.k);
    assert ItemHeld(db, item);
    HeldAgrees(db, threads, item.run, item.k, item.review, item.status, item.decision);
    assert [item] + [] == [item];
  }

  lemma ReadableSettles(db: Db, threads: Threads, item: Item, later: Instant)
    requires Consistent(System(db, threads, Idle)) && Reconcilable(db, item.run, item.k, later) && item == ItemFor(db, item.run, item.k)
    ensures var settled := Act(System(db, threads, Inspected(item, At(threads, item.review), [])), Settle(later));
      && Consistent(settled) && settled.threads == threads && Reconciled(db, settled.db, threads, item, true)
      && settled.at == Reconciling([])
  {
    var start := System(db, threads, Inspected(item, At(threads, item.review), []));
    hide DbInv, StoresAgree, PositionHeld, Act, Judge, CheckpointAgrees, Apply, Perform, OneMoves, SettlingCommand, ReconciledRow;
    ItemStarts(db, threads, item, later);
    ActKeeps(start, Settle(later));
    SettlingActs(start, later);
    NeverDistrusted(start);
    SettlingEnds(start, later);
    var found := At(threads, item.review);
    if Judge(item, found).LeaveIt? {
      LeftRow(db[item.run].workflows[item.k], item, found);
    } else {
      SettlingRow(db[item.run], item, found, later);
      WorkerCommits(db, item.run, SettlingCommand(item, Judge(item, found), later));
    }
  }

  lemma LeftRow(w: Workflow, item: Item, found: Checkpoint)
    requires Judge(item, found).LeaveIt? && w.status == item.status
    ensures ReconciledRow(w, w, found, true)
  {
  }

  lemma SettlingEnds(start: System, later: Instant)
    requires start.at.Inspected? && !Judge(start.at.item, start.at.found).Distrust?
    ensures var item, verdict := start.at.item, Judge(start.at.item, start.at.found);
      Act(start, Settle(later)).at == Reconciling(start.at.rest) ||
      (!verdict.LeaveIt? && !Committed(start.db, item.run, SettlingCommand(item, verdict, later)))
  {
    hide Perform, Judge, Committed;
  }

  lemma UnreadableSettles(db: Db, threads: Threads, item: Item, later: Instant)
    requires Consistent(System(db, threads, Idle)) && Reconcilable(db, item.run, item.k, later) && item == ItemFor(db, item.run, item.k)
    ensures var settled := Act(System(db, threads, Reconciling([item])), Inspect(false, later));
      && Consistent(settled) && settled.threads == threads && Reconciled(db, settled.db, threads, item, false)
      && settled.at == Reconciling([])
  {
    var start := System(db, threads, Reconciling([item]));
    var c := SendToManual(item.k, None, later, CheckpointCorrupt);
    hide DbInv, StoresAgree, PositionHeld, CheckpointAgrees, Apply, Perform, OneMoves,
      SettleItem, TakeClaim, CallTheGate, RecordGate, SendResult, GiveUpJob, Listing, OperatorDbCommand;
    ItemStarts(db, threads, item, later);
    ActKeeps(start, Inspect(false, later));
    DistrustedRow(db[item.run], item, later);
    WorkerCommits(db, item.run, c);
  }

  lemma ItemSettles(db: Db, threads: Threads, item: Item, later: Instant, readable: bool)
    requires Consistent(System(db, threads, Idle)) && Reconcilable(db, item.run, item.k, later) && item == ItemFor(db, item.run, item.k)
    ensures var inspected := Act(System(db, threads, Reconciling([item])), Inspect(readable, later));
      var settled := if readable then Act(inspected, Settle(later)) else inspected;
      && Consistent(System(settled.db, threads, Idle)) && settled.threads == threads && !settled.at.Idle?
      && Reconciled(db, settled.db, threads, item, readable)
  {
    hide DbInv, StoresAgree, Reconciled, Perform, Act;
    if readable { ReadableSettles(db, threads, item, later); InspectingReads(db, threads, item, later); }
    else { UnreadableSettles(db, threads, item, later); }
  }

  lemma InspectingReads(db: Db, threads: Threads, item: Item, later: Instant)
    ensures Act(System(db, threads, Reconciling([item])), Inspect(true, later)) ==
      System(db, threads, Inspected(item, At(threads, item.review), []))
  {
    hide Perform, SettleItem, TakeClaim, CallTheGate, RecordGate, SendResult, GiveUpJob, Listing, OperatorDbCommand;
    assert [item][1..] == [];
  }

  // What the checkpoint store makes of a resumption.
  lemma ConsultAnswers(sys: System)
    requires sys.at.ResumingGate?
    ensures var job, id := sys.at.job, sys.at.decision;
      Consult(sys) == match ResumeAnswer(At(sys.threads, job.review), job.review, id, Load(sys.db, job.run, id))
        case Resumed(result) => System(sys.db, sys.threads[job.review := CompletedWith(result)], GateResumed(job, id, result))
        case Mismatched => sys.(at := GateMismatched(job))
        case Unavailable => sys.(at := Failing(job))
  {
    hide ResumeAnswer, Load, Perform, Listing, OperatorDbCommand, InspectNext, SettleItem, TakeClaim, RecordGate,
      LoadForSubmission, ReadForSubmission, SendResult, GiveUpJob;
  }

  datatype Resumption = Resubmittable | Distrusted | ResumptionFailed

  lemma AppliedManual(s: RunState, job: Job, later: Instant)
    ensures Apply(s, SendToManual(job.k, Some(job.worker), later, CheckpointDecisionMismatch), false) ==
      ReviewWorkflows.MarkManualRecovery(s, job.k, Some(job.worker), later, CheckpointDecisionMismatch)
  {
    hide ReviewWorkflows.MarkManualRecovery;
  }

  lemma AppliedHandOver(s: RunState, job: Job, later: Instant, decision: DecisionId)
    ensures Apply(s, HandOver(job.k, Some(job.worker), later, decision), false) ==
      ReviewWorkflows.MarkResolutionPending(s, job.k, Some(job.worker), later, decision)
  {
    hide ReviewWorkflows.MarkResolutionPending;
  }

  lemma AppliedSubmission(s: RunState, job: Job, later: Instant, original: Content, id: DecisionId, d: ReviewDecision)
    ensures Apply(s, SubmitReview(job.k, job.worker, later, d.acceptedVersion, original, id, d), false) ==
      match BuildReviewedArtifacts(original, id, d, job.k)
      case None => Abort(ReviewPayloadInvalid)
      case Some(result) => ReviewResolution.ResolveReview(s, job.k, job.worker, later, d.acceptedVersion, result)
  {
    hide ReviewResolution.ResolveReview, BuildReviewedArtifacts;
  }

  lemma AppliedWaiting(s: RunState, k: nat)
    ensures Apply(s, MarkWaiting(k), false) == ReviewWorkflows.MarkWaitingDecision(s, k)
  {
    hide ReviewWorkflows.MarkWaitingDecision;
  }

  lemma AppliedReconciledHandOver(s: RunState, k: nat, later: Instant, decision: DecisionId)
    ensures Apply(s, HandOver(k, None, later, decision), false) == ReviewWorkflows.MarkResolutionPending(s, k, None, later, decision)
  {
    hide ReviewWorkflows.MarkResolutionPending;
  }

  lemma AppliedRelease(s: RunState, k: nat, later: Instant)
    ensures Apply(s, ReleaseExpired(k, later), false) == ReviewWorkflows.ReleaseExpiredLease(s, k, later)
  {
    hide ReviewWorkflows.ReleaseExpiredLease;
  }

  lemma AppliedReconcilerManual(s: RunState, k: nat, later: Instant, error: Code)
    ensures Apply(s, SendToManual(k, None, later, error), false) == ReviewWorkflows.MarkManualRecovery(s, k, None, later, error)
  {
    hide ReviewWorkflows.MarkManualRecovery;
  }

  lemma SupersededCode(s: RunState, k: nat, later: Instant, error: Code)
    requires k in s.workflows
    ensures ReviewWorkflows.MarkManualRecovery(s, k, None, later, error) == Abort(ReviewSuperseded) <==> s.workflows[k].status == Superseded
  {
  }

  lemma AppliedRetry(s: RunState, job: Job, later: Instant, error: Code)
    ensures Apply(s, ReleaseRetry(job.k, job.worker, later, error, 3), false) ==
      ReleaseForRetry(s, job.k, job.worker, later, error, 3)
  {
    hide ReleaseForRetry;
  }

  lemma AppliedComplete(s: RunState, job: Job, later: Instant)
    ensures Apply(s, CompleteCheckpoint(job.k, job.worker, later), false) == ReviewWorkflows.CompleteCheckpointCreation(s, job.k, job.worker, later)
  {
    hide ReviewWorkflows.CompleteCheckpointCreation;
  }
}
