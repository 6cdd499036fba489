/** The application database of the two-store system moves by commands: whatever holds after any
    commands of honest workers holds after any actions, crashes included. */
module SystemRuns {
  import opened ReviewTypes
  import opened ReviewResolution
  import opened RunInvariant
  import opened Executions
  import opened ReviewGate
  import opened DeliverySafety
  import opened ResultDelivery
  import opened CrashConsistency
  import opened CrashRecovery
  import opened ReviewedBriefs

  // The command that an action issues to the database, if any.
  function Issued(sys: System, a: Action): Option<DbCommand> {
    match a
    case Operate(c) => if OperatorDbCommand(c) then Some(c) else None
    case Inspect(readable, now) =>
      if sys.at.Reconciling? && sys.at.todo != [] && !readable
      then Some(On(sys.at.todo[0].run, SendToManual(sys.at.todo[0].k, None, now, CheckpointCorrupt))) else None
    case Settle(now) =>
      if sys.at.Inspected? && !Judge(sys.at.item, sys.at.found).LeaveIt?
      then Some(On(sys.at.item.run, SettlingCommand(sys.at.item, Judge(sys.at.item, sys.at.found), now))) else None
    case Take(run, k, worker, now, lease) =>
      if sys.at.Idle? && Committed(sys.db, run, Claim(k, worker, now, lease)) then Some(On(run, Claim(k, worker, now, lease))) else None
    case Record(now) => Recorded(sys.at, now)
    case Send(now) =>
      if sys.at.BriefRead?
      then Some(On(sys.at.job.run, SubmissionOf(sys.at.job, sys.at.decision, sys.at.loaded, sys.at.original, now))) else None
    case GiveUp(now, error) =>
      if sys.at.Idle? || sys.at.Reconciling? || sys.at.Inspected? then None
      else Some(On(sys.at.job.run, ReleaseRetry(sys.at.job.k, sys.at.job.worker, now, error, 3)))
    case _ => None
  }

  function Recorded(at: Position, now: Instant): Option<DbCommand> {
    match at
    case CheckpointMade(job) => Some(On(job.run, CompleteCheckpoint(job.k, job.worker, now)))
    case GateResumed(job, _, result) => Some(On(job.run, HandOver(job.k, Some(job.worker), now, result)))
    case GateMismatched(job) => Some(On(job.run, SendToManual(job.k, Some(job.worker), now, CheckpointDecisionMismatch)))
    case _ => None
  }

  lemma ActIssues(sys: System, a: Action)
    ensures Act(sys, a).db == match Issued(sys, a)
      case Some(c) => Perform(sys.db, c)
      case None => sys.db
  {
    hide Perform, Judge, Committed, ResumeAnswer, BriefOf, Load, Listing, OperatorDbCommand, SettleItem, SubmissionOf;
    if a.Settle? && sys.at.Inspected? { SettlingActs(sys, a.now); }
  }

  // A worker at work submits what it has read, and that is still what is stored.
  lemma IssuedHonestly(sys: System, a: Action)
    requires Consistent(sys) && Issued(sys, a).Some?
    ensures HonestCommand(sys.db, Issued(sys, a).value)
  {
    hide DbInv, StoresAgree, Judge, Committed, Distinct;
  }

  function Commands(sys: System, actions: seq<Action>): seq<DbCommand>
    decreases actions
  {
    if actions == [] then [] else
    (match Issued(sys, actions[0])
     case Some(c) => [c]
     case None => []) + Commands(Act(sys, actions[0]), actions[1..])
  }

  lemma ExecuteCons(db: Db, c: DbCommand, commands: seq<DbCommand>)
    ensures Execute(db, [c] + commands) == Execute(Perform(db, c), commands)
    ensures HonestRun(db, [c] + commands) <==> HonestCommand(db, c) && HonestRun(Perform(db, c), commands)
  {
    hide Perform, HonestCommand;
    assert ([c] + commands)[1..] == commands;
  }

  // Any actions leave the database as their commands do, and the commands are honest.
  lemma {:induction false} ActsAreCommands(sys: System, actions: seq<Action>)
    requires Consistent(sys)
    ensures Acts(sys, actions).db == Execute(sys.db, Commands(sys, actions)) && HonestRun(sys.db, Commands(sys, actions))
    decreases |actions|
  {
    hide Consistent, Act, Issued, Perform, HonestCommand;
    if actions != [] {
      var next := Act(sys, actions[0]);
      ActKeeps(sys, actions[0]);
      ActsAreCommands(next, actions[1..]);
      ActIssues(sys, actions[0]);
      match Issued(sys, actions[0]) {
        case Some(c) =>
          IssuedHonestly(sys, actions[0]);
          ExecuteCons(sys.db, c, Commands(next, actions[1..]));
        case None =>
          assert [] + Commands(next, actions[1..]) == Commands(next, actions[1..]);
      }
    }
  }

  // So in every state of the whole system each stored brief says of its review what holds of it.
  lemma SystemBriefs(actions: seq<Action>, run: RunId)
    ensures var sys := Acts(START, actions); run in sys.db ==> Inv(sys.db[run]) && Briefs(sys.db[run])
  {
    hide Acts, Commands, Execute, HonestRun, Consistent, Briefs, Inv;
    StartConsistent();
    ActsAreCommands(START, actions);
    ReachableKeeps(Commands(START, actions));
    ReachableBriefs(Commands(START, actions), run);
  }

  // What a reader is served of a talent run, in every state of the whole system: the reviewed brief of
  // the newest revision, resolved by the decision that approved it, or the brief as it was before.
  lemma DeliveredBriefSays(actions: seq<Action>, run: RunId, valid: Artifact -> bool, id: ArtifactId)
    requires var sys := Acts(START, actions);
      run in sys.db && sys.db[run].row.profile == Talent && ServeResult(sys.db[run].row, sys.db[run], valid) == Some(id)
    ensures var s := Acts(START, actions).db[run];
      var n := Newest(s);
      || (id == ReviewedMarkdownId(n) && ReviewedSays(s, n))
      || (id == BriefMarkdownId(n) && BriefSays(s, n) && (s.bundles[n].required ==> ReviewedSays(s, n)))
  {
    hide Acts, Commands, Execute, HonestRun, Consistent, Briefs, Inv, ServeResult, ServedAs, BriefSays, ReviewedSays, Fits;
    SystemBriefs(actions, run);
    StartConsistent();
    ActsAreCommands(START, actions);
    ReachableServed(Commands(START, actions), run, valid);
    var s := Acts(START, actions).db[run];
    ServedHasCompleted(s, valid);
    ExecutionKeepsFits(map[], Commands(START, actions));
    if s.publications == [] { CompletedIsBundled(s); }
    ServedSays(s, valid, id);
  }

  lemma ServedSays(s: RunState, valid: Artifact -> bool, id: ArtifactId)
    requires Inv(s) && Briefs(s) && s.row.profile == Talent && ServeResult(s.row, s, valid) == Some(id)
    requires s.publications == [] ==> 1 in s.bundles && ServedAs(s, valid, BriefMarkdownId(1))
    ensures var n := Newest(s);
      || (id == ReviewedMarkdownId(n) && ReviewedSays(s, n))
      || (id == BriefMarkdownId(n) && BriefSays(s, n) && (s.bundles[n].required ==> ReviewedSays(s, n)))
  {
    hide Inv, BriefSays, ReviewedSays, ServeResult;
    if s.publications != [] { ServedArtifact(s, valid, id); }
    ServedHasCompleted(s, valid);
    ReadyIsBundled(s);
  }

  lemma ServedHasCompleted(s: RunState, valid: Artifact -> bool)
    requires Inv(s)
    ensures ServeResult(s.row, s, valid).Some? ==> s.row.execution == Completed && s.row.delivery == Ready
  {
    hide Bundled, Chain, Leases, Decided, Published, Verification, Artifacts;
  }

  lemma CompletedIsBundled(s: RunState)
    requires Fits(s) && s.row.profile == Talent && s.row.execution == Completed
    ensures 1 in s.bundles
  {
  }

  lemma ReadyIsBundled(s: RunState)
    requires Inv(s) && s.row.profile == Talent && s.row.delivery == Ready
    ensures var n := Newest(s);
      (s.publications != [] || 1 in s.bundles) ==> n in s.bundles && (s.bundles[n].required ==> n in s.workflows && s.workflows[n].status == Approved)
  {
    hide Started, Chain, Leases, Decided, Verification, Artifacts;
  }
}
