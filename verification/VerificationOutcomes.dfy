/** What an accepted verification decision says and for how long, and when one is accepted
    (api/evidence_verification_repository.py), in terms of the request and of what a caller reads. */
module VerificationOutcomes {
  import opened ReviewTypes
  import opened VerificationLedger
  import opened Publications
  import opened RunLifecycle
  import opened RunInvariant
  import opened Evolution
  import opened Executions
  import opened PublicationHistory
  import opened VerificationQueries

  // The verdict --------------------------------------------------------------------------

  // The item reads as the request asked.
  predicate ReadsAsDecided(s: RunState, item: EvidenceId, request: VerificationRequest) {
    && SingleProjection(s, item).Some?
    && var reading := SingleProjection(s, item).value;
    && (reading.state == Verified <==> request.action == VerifyEvidence)
    && (reading.state == RejectedEvidence <==> request.action == RejectEvidence)
    && reading.origin == Human
    && reading.revision == request.expectedRevision + 1
    && reading.decision == Some(request.id)
  }

  // The row that an accepted request leaves.
  predicate RowOf(d: VerificationDecision, item: EvidenceId, request: VerificationRequest) {
    && d.id == request.id && d.evidence == item && d.fingerprint == request.fingerprint
    && d.revision == request.expectedRevision + 1 && d.action == request.action && d.request == request
  }

  lemma AcceptanceAddsRow(s: RunState, elsewhere: bool, item: EvidenceId, request: VerificationRequest)
    ensures var step := AcceptVerification(s, elsewhere, item, request);
      step.Commit? ==>
        && step.state.evidence == s.evidence
        && (if step.replay then step.state == s else
              && item in s.evidence && item.fingerprint == request.fingerprint
              && |step.state.ledger| == |s.ledger| + 1 && step.state.ledger[..|s.ledger|] == s.ledger
              && RowOf(step.state.ledger[|s.ledger|], item, request)
              && MaxRevision(s.ledger, item, request.fingerprint) == request.expectedRevision)
  {
    hide FindVerification, MaxRevision, AdoptBaseline, StaleCurrent;
    AdoptionKeepsLedger(s);
    var adopted := AdoptBaseline(s);
    StalingKeepsLedger(adopted.(ledger := adopted.ledger + [NewVerification(item, request, MaxRevision(s.ledger, item, request.fingerprint) + 1)]));
  }

  lemma StalingKeepsLedger(s: RunState)
    ensures StaleCurrent(s).ledger == s.ledger && StaleCurrent(s).evidence == s.evidence
  {
  }

  lemma AdoptionKeepsLedger(s: RunState)
    ensures AdoptBaseline(s).ledger == s.ledger && AdoptBaseline(s).evidence == s.evidence
  {
  }

  lemma LatestAfterRow(s: RunState, t: RunState, item: EvidenceId, request: VerificationRequest, other: EvidenceId)
    requires |t.ledger| == |s.ledger| + 1 && t.ledger[..|s.ledger|] == s.ledger && t.evidence == s.evidence
    requires RowOf(t.ledger[|s.ledger|], item, request) && item in s.evidence && item.fingerprint == request.fingerprint
    requires MaxRevision(s.ledger, item, request.fingerprint) == request.expectedRevision
    ensures other == item ==> ReadsAsDecided(t, item, request)
    ensures other != item ==> SingleProjection(t, other) == SingleProjection(s, other)
  {
    var d := t.ledger[|s.ledger|];
    assert t.ledger == s.ledger + [d];
    LatestAfterAppend(s.ledger, d, other, other.fingerprint);
  }

  // An accepted decision gives its item the verdict that was asked for, and no other item another.
  lemma AcceptedIsRead(s: RunState, elsewhere: bool, item: EvidenceId, request: VerificationRequest)
    ensures var step := AcceptVerification(s, elsewhere, item, request);
      step.Commit? && !step.replay ==>
        && ReadsAsDecided(step.state, item, request)
        && forall other | other != item :: SingleProjection(step.state, other) == SingleProjection(s, other)
  {
    hide AcceptVerification, SingleProjection, ReadsAsDecided, RowOf, MaxRevision;
    AcceptanceAddsRow(s, elsewhere, item, request);
    var step := AcceptVerification(s, elsewhere, item, request);
    if step.Commit? && !step.replay {
      LatestAfterRow(s, step.state, item, request, item);
      forall other | other != item ensures SingleProjection(step.state, other) == SingleProjection(s, other) {
        LatestAfterRow(s, step.state, item, request, other);
      }
    }
  }

  predicate DecidesOn(c: DbCommand, run: RunId, item: EvidenceId) {
    c.On? && c.run == run && c.command.Verify? && c.command.item == item
  }

  predicate NoneDecidesOn(commands: seq<DbCommand>, run: RunId, item: EvidenceId) {
    forall c | c in commands :: !DecidesOn(c, run, item)
  }

  lemma SameRowsSameReading(s: RunState, t: RunState, item: EvidenceId)
    requires t.ledger == s.ledger && t.evidence == s.evidence
    ensures SingleProjection(t, item) == SingleProjection(s, item)
  {
  }

  lemma CommandKeepsReading(db: Db, c: DbCommand, run: RunId, item: EvidenceId)
    requires DbInv(db) && run in db && item in db[run].evidence && !DecidesOn(c, run, item)
    ensures run in Perform(db, c) && Perform(db, c)[run].evidence == db[run].evidence
    ensures SingleProjection(Perform(db, c)[run], item) == SingleProjection(db[run], item)
  {
    hide Inv, After, UsedByAnother, SingleProjection, AcceptVerification, CreateRun;
    PerformEvolves(db, c);
    EvidenceIsFinal(db[run], Perform(db, c)[run]);
    if c.On? && c.run == run && c.command.Verify? {
      var elsewhere := UsedByAnother(db, run, c.command);
      VerifyAfter(db[run], elsewhere, c.command);
      AcceptedIsRead(db[run], elsewhere, c.command.item, c.command.verification);
    } else {
      PerformKeepsLedger(db, c, run);
      SameRowsSameReading(db[run], Perform(db, c)[run], item);
    }
  }

  lemma VerifyAfter(s: RunState, elsewhere: bool, c: Command)
    requires c.Verify?
    ensures var step := AcceptVerification(s, elsewhere, c.item, c.verification);
      After(s, c, elsewhere) == if step.Commit? && !step.replay then step.state else s
  {
    hide AcceptVerification;
    AcceptanceAddsRow(s, elsewhere, c.item, c.verification);
  }

  // Evidence exists in finished runs only, and then it is final.
  lemma EvidenceIsFinal(s: RunState, t: RunState)
    requires Inv(s) && s.evidence != map[] && Evolves(s, t)
    ensures t.evidence == s.evidence
  {
    assert Terminal(s.row.execution);
  }

  lemma {:induction false} CommandsKeepReading(db: Db, commands: seq<DbCommand>, run: RunId, item: EvidenceId)
    requires DbInv(db) && run in db && item in db[run].evidence && NoneDecidesOn(commands, run, item)
    ensures run in Execute(db, commands) && SingleProjection(Execute(db, commands)[run], item) == SingleProjection(db[run], item)
    decreases |commands|
  {
    hide Inv, Perform, SingleProjection, DecidesOn;
    if commands != [] {
      PerformKeeps(db, commands[0]);
      CommandKeepsReading(db, commands[0], run, item);
      CommandsKeepReading(Perform(db, commands[0]), commands[1..], run, item);
    }
  }

  // Through any commands without another decision on the item, both the reading and every snapshot
  // taken give the verdict that was accepted.
  lemma DecisionIsRead(db: Db, run: RunId, item: EvidenceId, request: VerificationRequest, commands: seq<DbCommand>)
    requires DbInv(db) && run in db
    requires var step := AcceptVerification(db[run], UsedByAnother(db, run, Verify(item, request)), item, request);
      step.Commit? && !step.replay
    requires NoneDecidesOn(commands, run, item)
    ensures var later := Execute(Perform(db, On(run, Verify(item, request))), commands);
      && run in later && ReadsAsDecided(later[run], item, request)
      && item in EffectiveSnapshot(later[run]).projections
      && EffectiveSnapshot(later[run]).projections[item] == SingleProjection(later[run], item).value
  {
    hide Inv, Perform, Execute, AcceptVerification, UsedByAnother, NoneDecidesOn, SingleProjection;
    var c := On(run, Verify(item, request));
    var first := Perform(db, c);
    PerformKeeps(db, c);
    VerifyPerformed(db, run, item, request);
    AcceptedIsRead(db[run], UsedByAnother(db, run, c.command), item, request);
    ReadIsEvidence(first[run], item);
    CommandsKeepReading(first, commands, run, item);
    SnapshotReads(Execute(first, commands)[run], item);
  }

  lemma VerifyPerformed(db: Db, run: RunId, item: EvidenceId, request: VerificationRequest)
    requires run in db
    ensures var step := AcceptVerification(db[run], UsedByAnother(db, run, Verify(item, request)), item, request);
      var after := Perform(db, On(run, Verify(item, request)));
      run in after && (step.Commit? ==> after[run] == step.state)
  {
    hide AcceptVerification, UsedByAnother;
  }

  lemma ReadIsEvidence(s: RunState, item: EvidenceId)
    ensures SingleProjection(s, item).Some? <==> item in s.evidence
  {
  }

  lemma SnapshotReads(s: RunState, item: EvidenceId)
    ensures item in EffectiveSnapshot(s).projections <==> SingleProjection(s, item).Some?
    ensures SingleProjection(s, item).Some? ==> EffectiveSnapshot(s).projections[item] == SingleProjection(s, item).value
  {
  }

  // Without a decision an item is verified exactly if it is a declared fixture.
  lemma {:induction false} UndecidedIsBaseline(s: RunState, item: EvidenceId)
    requires item in s.evidence && forall d | d in s.ledger :: d.evidence != item
    ensures var reading := SingleProjection(s, item).value;
      && (reading.state == Verified <==> s.evidence[item].declaredFixture)
      && (reading.state == Unverified <==> !s.evidence[item].declaredFixture)
      && (reading.origin == DeclaredFixture <==> s.evidence[item].declaredFixture)
      && (reading.origin == NoOrigin <==> !s.evidence[item].declaredFixture)
      && reading.revision == 0 && reading.decision == None
  {
    LatestIsAbout(s.ledger, item, item.fingerprint);
  }

  // Snapshots ------------------------------------------------------------------------------

  // The snapshot shows every item of the run as it reads.
  ghost predicate ShowsReading(s: RunState, snapshot: SnapshotId) {
    && snapshot.run == s.id && snapshot.projections.Keys == s.evidence.Keys
    && forall item | item in s.evidence :: SingleProjection(s, item) == Some(snapshot.projections[item])
  }

  // Taking a snapshot stores what is read now, and says whether it was there; nothing else moves.
  lemma SnapshotIsTaken(s: RunState)
    ensures var step := FinalizeSnapshot(s);
      && ShowsReading(s, EffectiveSnapshot(s))
      && step.Commit? && step.state == s.(snapshots := step.state.snapshots)
      && step.state.snapshots - s.snapshots <= {EffectiveSnapshot(s)} && EffectiveSnapshot(s) in step.state.snapshots
      && s.snapshots <= step.state.snapshots && (step.replay <==> step.state == s)
  {
    forall item | item in s.evidence ensures SingleProjection(s, item) == Some(EffectiveSnapshot(s).projections[item]) {
      SnapshotReads(s, item);
    }
  }

  // Taken again before the next decision, however much else has happened, it is the same snapshot.
  lemma SnapshotTakenAgain(db: Db, run: RunId, commands: seq<DbCommand>)
    requires DbInv(db) && run in db && Terminal(db[run].row.execution) && NoVerification(commands, run)
    ensures var later := Execute(Perform(db, On(run, TakeSnapshot)), commands);
      && run in later && ShowsReading(later[run], EffectiveSnapshot(db[run]))
      && FinalizeSnapshot(later[run]) == Commit(later[run], true)
  {
    hide Inv, Execute, ShowsReading, Evolves, Terminal;
    var first := Perform(db, On(run, TakeSnapshot));
    PerformKeeps(db, On(run, TakeSnapshot));
    SnapshotIsTaken(db[run]);
    ExecutionEvolves(first, commands);
    ExecutionKeepsLedger(first, commands, run);
    var later := Execute(first, commands);
    SameRowsSameSnapshot(db[run], first[run], later[run]);
    SnapshotIsTaken(later[run]);
  }

  lemma SameRowsSameSnapshot(s: RunState, t: RunState, u: RunState)
    requires Terminal(s.row.execution) && t == s.(snapshots := t.snapshots) && EffectiveSnapshot(s) in t.snapshots
    requires Evolves(t, u) && u.ledger == t.ledger
    ensures EffectiveSnapshot(u) == EffectiveSnapshot(s) && EffectiveSnapshot(s) in u.snapshots
  {
  }

  // The ledger's ids ---------------------------------------------------------------------

  // A verification id is used once, in one run, and its row is what was asked for.
  ghost predicate RowsAsked(s: RunState) {
    && (forall i, j | 0 <= i < j < |s.ledger| :: s.ledger[i].id != s.ledger[j].id)
    && (forall d | d in s.ledger :: RowOf(d, d.evidence, d.request))
  }

  predicate UsesId(s: RunState, id: VerificationId) {
    exists d | d in s.ledger :: d.id == id
  }

  ghost predicate LedgersApart(db: Db) {
    && (forall run | run in db :: RowsAsked(db[run]))
    && (forall run, other, id | run in db && other in db && UsesId(db[run], id) && UsesId(db[other], id) :: run == other)
  }

  lemma {:induction false} FoundIsUsed(ledger: seq<VerificationDecision>, id: VerificationId)
    ensures var found := FindVerification(ledger, id);
      && (found.Some? <==> exists d | d in ledger :: d.id == id)
      && (found.Some? ==> found.value in ledger && found.value.id == id)
  {
    if ledger != [] {
      var last := |ledger| - 1;
      FoundIsUsed(ledger[..last], id);
      assert ledger == ledger[..last] + [ledger[last]];
    }
  }

  lemma FoundIsTheRow(s: RunState, d: VerificationDecision)
    requires RowsAsked(s) && d in s.ledger
    ensures FindVerification(s.ledger, d.id) == Some(d)
  {
    FoundIsUsed(s.ledger, d.id);
    var found := FindVerification(s.ledger, d.id).value;
    var i :| 0 <= i < |s.ledger| && s.ledger[i] == d;
    var j :| 0 <= j < |s.ledger| && s.ledger[j] == found;
  }

  lemma AnotherUses(db: Db, run: RunId, item: EvidenceId, request: VerificationRequest)
    ensures UsedByAnother(db, run, Verify(item, request)) <==> exists other | other in db && other != run :: UsesId(db[other], request.id)
  {
    forall other | other in db
      ensures FindVerification(db[other].ledger, request.id).Some? <==> UsesId(db[other], request.id)
    {
      FoundIsUsed(db[other].ledger, request.id);
    }
  }

  lemma AcceptedUsesFreshId(db: Db, run: RunId, item: EvidenceId, request: VerificationRequest)
    requires run in db
    ensures var step := AcceptVerification(db[run], UsedByAnother(db, run, Verify(item, request)), item, request);
      step.Commit? && !step.replay ==> forall other | other in db :: !UsesId(db[other], request.id)
  {
    hide FindVerification, MaxRevision, AdoptBaseline, StaleCurrent, UsedByAnother;
    AnotherUses(db, run, item, request);
    FoundIsUsed(db[run].ledger, request.id);
  }

  lemma RowsStayAsked(s: RunState, t: RunState, item: EvidenceId, request: VerificationRequest)
    requires RowsAsked(s) && !UsesId(s, request.id)
    requires |t.ledger| == |s.ledger| + 1 && t.ledger[..|s.ledger|] == s.ledger && RowOf(t.ledger[|s.ledger|], item, request)
    ensures RowsAsked(t)
    ensures forall id :: UsesId(t, id) <==> UsesId(s, id) || id == request.id
  {
    var d := t.ledger[|s.ledger|];
    assert t.ledger == s.ledger + [d];
    assert d in t.ledger;
    forall i, j | 0 <= i < j < |t.ledger| ensures t.ledger[i].id != t.ledger[j].id {
      assert t.ledger[i] in s.ledger;
    }
    forall id ensures UsesId(t, id) <==> UsesId(s, id) || id == request.id {
      if UsesId(s, id) {
        var row :| row in s.ledger && row.id == id;
        assert row in t.ledger;
      }
    }
  }

  lemma SameLedgerSameIds(s: RunState, t: RunState)
    requires t.ledger == s.ledger
    ensures RowsAsked(s) ==> RowsAsked(t)
    ensures forall id :: UsesId(t, id) <==> UsesId(s, id)
  {
  }

  // What becomes of one run's ledger under a command.
  lemma LedgerAfter(db: Db, c: DbCommand, run: RunId)
    requires DbInv(db) && LedgersApart(db) && run in db
    ensures run in Perform(db, c) && RowsAsked(Perform(db, c)[run])
    ensures forall id | UsesId(Perform(db, c)[run], id) && !UsesId(db[run], id) ::
      c.On? && c.run == run && c.command.Verify? && forall other | other in db :: !UsesId(db[other], id)
  {
    hide Inv, After, UsedByAnother, AcceptVerification, CreateRun, RowsAsked, UsesId;
    if c.On? && c.run == run && c.command.Verify? {
      var elsewhere := UsedByAnother(db, run, c.command);
      VerifyAfter(db[run], elsewhere, c.command);
      AcceptanceAddsRow(db[run], elsewhere, c.command.item, c.command.verification);
      AcceptedUsesFreshId(db, run, c.command.item, c.command.verification);
      var step := AcceptVerification(db[run], elsewhere, c.command.item, c.command.verification);
      if step.Commit? && !step.replay { RowsStayAsked(db[run], step.state, c.command.item, c.command.verification); }
    } else {
      PerformKeepsLedger(db, c, run);
      SameLedgerSameIds(db[run], Perform(db, c)[run]);
    }
  }

  lemma PerformKeepsApart(db: Db, c: DbCommand)
    requires DbInv(db) && LedgersApart(db)
    ensures LedgersApart(Perform(db, c))
  {
    hide Inv, UsedByAnother, AcceptVerification, RowsAsked, UsesId, Perform;
    var after := Perform(db, c);
    PerformedRuns(db, c);
    forall run | run in db
      ensures RowsAsked(after[run])
      ensures forall id | UsesId(after[run], id) && !UsesId(db[run], id) ::
        c.On? && c.run == run && c.command.Verify? && forall other | other in db :: !UsesId(db[other], id)
    {
      LedgerAfter(db, c, run);
    }
    forall run | run in after && run !in db ensures RowsAsked(after[run]) && forall id :: !UsesId(after[run], id) { EmptyLedger(after[run]); }
  }

  lemma PerformedRuns(db: Db, c: DbCommand)
    ensures db.Keys <= Perform(db, c).Keys
    ensures forall run | run in Perform(db, c) && run !in db :: Perform(db, c)[run].ledger == []
  {
    hide After, UsedByAnother;
  }

  lemma EmptyLedger(s: RunState)
    requires s.ledger == []
    ensures RowsAsked(s) && forall id :: !UsesId(s, id)
  {
  }

  lemma {:induction false} ExecutionKeepsApart(db: Db, commands: seq<DbCommand>)
    requires DbInv(db) && LedgersApart(db)
    ensures LedgersApart(Execute(db, commands))
    decreases |commands|
  {
    hide Inv, Perform, LedgersApart;
    if commands != [] {
      PerformKeeps(db, commands[0]);
      PerformKeepsApart(db, commands[0]);
      ExecutionKeepsApart(Perform(db, commands[0]), commands[1..]);
    }
  }

  lemma ReachableApart(commands: seq<DbCommand>)
    ensures LedgersApart(Execute(map[], commands))
  {
    ExecutionKeepsApart(map[], commands);
  }

  // When a decision is accepted ----------------------------------------------------------

  // The id is new, and the request fits what the caller reads of the item.
  predicate Acceptable(s: RunState, item: EvidenceId, request: VerificationRequest) {
    && item in s.evidence && request.fingerprint == item.fingerprint
    && (request.action == VerifyEvidence ==> s.evidence[item].eligible)
    && request.expectedRevision == SingleProjection(s, item).value.revision
  }

  predicate UsedAnywhere(db: Db, id: VerificationId) {
    exists run | run in db :: UsesId(db[run], id)
  }

  // The stored row of this very request on this item.
  predicate AskedBefore(s: RunState, item: EvidenceId, request: VerificationRequest) {
    exists d | d in s.ledger :: d.id == request.id && d.evidence == item && d.request == request
  }

  // A new decision is accepted exactly for an unused id and a request that fits; a used id replays
  // exactly the request that used it, and is refused to any other.
  lemma VerificationCommitsIff(db: Db, run: RunId, item: EvidenceId, request: VerificationRequest)
    requires DbInv(db) && LedgersApart(db) && run in db
    ensures var step := AcceptVerification(db[run], UsedByAnother(db, run, Verify(item, request)), item, request);
      && (step.Commit? && !step.replay <==> !UsedAnywhere(db, request.id) && Acceptable(db[run], item, request))
      && (step.Commit? && step.replay <==> AskedBefore(db[run], item, request))
      && (UsedAnywhere(db, request.id) && !AskedBefore(db[run], item, request) ==> step == Abort(VerificationIdConflict))
  {
    hide Inv, MaxRevision, AdoptBaseline, StaleCurrent, UsedByAnother, RowsAsked, FindVerification, SingleProjection;
    AnotherUses(db, run, item, request);
    FoundIsUsed(db[run].ledger, request.id);
    if UsesId(db[run], request.id) {
      var d :| d in db[run].ledger && d.id == request.id;
      FoundIsTheRow(db[run], d);
      OnlyRow(db[run], d);
    }
    if item in db[run].evidence { ReadingHasRevision(db[run], item); }
  }

  lemma OnlyRow(s: RunState, d: VerificationDecision)
    requires RowsAsked(s) && d in s.ledger
    ensures forall other | other in s.ledger && other.id == d.id :: other == d
  {
    forall other | other in s.ledger && other.id == d.id ensures other == d {
      FoundIsTheRow(s, d);
      FoundIsTheRow(s, other);
    }
  }

  lemma ReadingHasRevision(s: RunState, item: EvidenceId)
    requires item in s.evidence
    ensures SingleProjection(s, item).value.revision == MaxRevision(s.ledger, item, item.fingerprint)
  {
  }

  // The codes of a refusal, in the order in which a caller meets them.
  lemma VerificationCodes(s: RunState, item: EvidenceId, request: VerificationRequest)
    requires !UsesId(s, request.id)
    ensures var step := AcceptVerification(s, false, item, request);
      && (item !in s.evidence ==> step == Abort(EvidenceNotFound))
      && (item in s.evidence && request.fingerprint != item.fingerprint ==> step == Abort(EvidenceFingerprintMismatch))
      && (item in s.evidence && request.fingerprint == item.fingerprint ==>
            if request.action == VerifyEvidence && !s.evidence[item].eligible then step == Abort(EvidencePreflightBlocked)
            else if request.expectedRevision != SingleProjection(s, item).value.revision then step == Abort(VerificationRevisionConflict)
            else step.Commit? && !step.replay)
  {
    hide MaxRevision, AdoptBaseline, StaleCurrent, FindVerification, SingleProjection;
    FoundIsUsed(s.ledger, request.id);
    if item in s.evidence { ReadingHasRevision(s, item); }
  }

  // Once accepted, the same request is answered with its row for ever and changes nothing, and its
  // id is refused to any other request, item or run.
  lemma AcceptedOnce(db: Db, run: RunId, item: EvidenceId, request: VerificationRequest, commands: seq<DbCommand>,
                     other: RunId, otherItem: EvidenceId, otherRequest: VerificationRequest)
    requires DbInv(db) && LedgersApart(db) && run in db && AskedBefore(db[run], item, request)
    requires otherRequest.id == request.id
    ensures var later := Execute(db, commands);
      && run in later
      && (other in later ==>
            AcceptVerification(later[other], UsedByAnother(later, other, Verify(otherItem, otherRequest)), otherItem, otherRequest) ==
              if other == run && otherItem == item && otherRequest == request then Commit(later[run], true) else Abort(VerificationIdConflict))
  {
    hide Inv, Execute, LedgersApart, AcceptVerification, UsedByAnother, UsedAnywhere, UsesId;
    ExecutionKeeps(db, commands);
    ExecutionEvolves(db, commands);
    ExecutionKeepsApart(db, commands);
    var later := Execute(db, commands);
    StillAsked(db[run], later[run], item, request);
    if other in later {
      AskedIsUsed(later, run, item, request);
      VerificationCommitsIff(later, other, otherItem, otherRequest);
      AskedByOne(later, run, item, request, other, otherItem, otherRequest);
      AcceptanceAddsRow(later[other], UsedByAnother(later, other, Verify(otherItem, otherRequest)), otherItem, otherRequest);
    }
  }

  lemma StillAsked(s: RunState, t: RunState, item: EvidenceId, request: VerificationRequest)
    requires Evolves(s, t) && AskedBefore(s, item, request)
    ensures AskedBefore(t, item, request)
  {
    var d :| d in s.ledger && d.id == request.id && d.evidence == item && d.request == request;
    assert d in t.ledger;
  }

  lemma AskedIsUsed(db: Db, run: RunId, item: EvidenceId, request: VerificationRequest)
    requires run in db && AskedBefore(db[run], item, request)
    ensures UsedAnywhere(db, request.id)
  {
    assert UsesId(db[run], request.id);
  }

  lemma AskedByOne(db: Db, run: RunId, item: EvidenceId, request: VerificationRequest,
                   other: RunId, otherItem: EvidenceId, otherRequest: VerificationRequest)
    requires LedgersApart(db) && run in db && other in db && AskedBefore(db[run], item, request) && otherRequest.id == request.id
    ensures AskedBefore(db[other], otherItem, otherRequest) <==> other == run && otherItem == item && otherRequest == request
  {
    var d :| d in db[run].ledger && d.id == request.id && d.evidence == item && d.request == request;
    assert UsesId(db[run], request.id);
    if AskedBefore(db[other], otherItem, otherRequest) {
      assert UsesId(db[other], request.id);
      OnlyRow(db[run], d);
    }
  }
}
