/** The repositories as they run: each method is one transaction over the application database.
    A method that raises leaves the database as it found it. */
module ReviewStore {
  import opened ReviewTypes
  import opened VerificationLedger
  import opened Publications
  import opened RunLifecycle
  import opened ReviewWorkflows
  import opened ReviewResolution
  import opened Executions
  import LeaseTime

  datatype Outcome = Done(replay: bool) | Raised(code: Code)

  // The transaction did what the step says.
  ghost predicate Performed(before: Db, after: Db, run: RunId, step: Step, outcome: Outcome) {
    match step
    case Commit(state, replay) => outcome == Done(replay) && after == before[run := state]
    case Abort(code) => outcome == Raised(code) && after == before
  }

  // The working copy of an open transaction agrees with the step.
  predicate Agrees(step: Step, s: RunState, outcome: Outcome) {
    match step
    case Commit(state, replay) => outcome == Done(replay) && s == state
    case Abort(code) => outcome == Raised(code)
  }

  lemma PerformedIsPerform(before: Db, after: Db, run: RunId, c: Command, outcome: Outcome)
    requires run in before
    requires Performed(before, after, run, Apply(before[run], c, UsedByAnother(before, run, c)), outcome)
    ensures after == Perform(before, On(run, c))
  {
    hide Apply, UsedByAnother;
    if outcome.Raised? { assert before[run := before[run]] == before; }
  }

  predicate EntryAmong(run: RunId, entries: seq<EvidenceEntry>, item: EvidenceId) {
    exists j | 0 <= j < |entries| :: item == EvidenceId(run, entries[j].fingerprint)
  }

  // The rows of the first i entries are in the table beside those from before.
  ghost predicate Inserting(s: RunState, entries: seq<EvidenceEntry>, i: nat, table: map<EvidenceId, Evidence>)
    requires i <= |entries|
  {
    && CanInsertEvidence(s, entries[..i])
    && (forall item :: item in table <==> item in s.evidence || EntryAmong(s.id, entries[..i], item))
    && InsertEvidence(s.id, table, entries[i..]) == InsertEvidence(s.id, s.evidence, entries)
  }

  lemma InsertsNothing(s: RunState, entries: seq<EvidenceEntry>)
    ensures Inserting(s, entries, 0, s.evidence)
  {
    assert entries[0..] == entries;
  }

  lemma InsertsNext(s: RunState, entries: seq<EvidenceEntry>, i: nat, table: map<EvidenceId, Evidence>)
    requires i < |entries| && Inserting(s, entries, i, table)
    ensures var item := EvidenceId(s.id, entries[i].fingerprint);
      if item in table then !CanInsertEvidence(s, entries) else Inserting(s, entries, i + 1, table[item := entries[i].evidence])
  {
    var item := EvidenceId(s.id, entries[i].fingerprint);
    assert entries[i..][1..] == entries[i + 1..];
    assert entries[..i + 1] == entries[..i] + [entries[i]];
    if item !in table {
      hide InsertEvidence;
      InsertsHead(s.id, table, entries[i..]);
      AmongNext(s.id, entries, i);
    } else if item !in s.evidence {
      var j :| 0 <= j < i && item == EvidenceId(s.id, entries[..i][j].fingerprint);
      assert entries[..i][j] == entries[j];
    }
  }

  lemma InsertsHead(run: RunId, table: map<EvidenceId, Evidence>, entries: seq<EvidenceEntry>)
    requires entries != []
    ensures InsertEvidence(run, table, entries) ==
      InsertEvidence(run, table[EvidenceId(run, entries[0].fingerprint) := entries[0].evidence], entries[1..])
  {
  }

  lemma AmongNext(run: RunId, entries: seq<EvidenceEntry>, i: nat)
    requires i < |entries|
    ensures forall item :: EntryAmong(run, entries[..i + 1], item) <==>
      EntryAmong(run, entries[..i], item) || item == EvidenceId(run, entries[i].fingerprint)
  {
    forall item
      ensures EntryAmong(run, entries[..i + 1], item) <==>
        EntryAmong(run, entries[..i], item) || item == EvidenceId(run, entries[i].fingerprint)
    {
      var head, more := entries[..i], entries[..i + 1];
      assert more[i] == entries[i];
      if EntryAmong(run, head, item) {
        var j :| 0 <= j < |head| && item == EvidenceId(run, head[j].fingerprint);
        assert more[j] == head[j];
      }
      if EntryAmong(run, more, item) && item != EvidenceId(run, entries[i].fingerprint) {
        var j :| 0 <= j < |more| && item == EvidenceId(run, more[j].fingerprint);
        assert head[j] == more[j];
      }
    }
  }

  lemma InsertsAll(s: RunState, entries: seq<EvidenceEntry>, table: map<EvidenceId, Evidence>)
    requires Inserting(s, entries, |entries|, table)
    ensures CanInsertEvidence(s, entries) && table == InsertEvidence(s.id, s.evidence, entries)
  {
    assert entries[..|entries|] == entries && entries[|entries|..] == [];
  }

  // How the claim query orders its rows: by creation time, then by the hashed workflow id.
  datatype Rank = Rank(createdAt: Instant, name: LeaseTime.Text)
  {
    predicate Precedes(other: Rank) {
      createdAt < other.createdAt || (createdAt == other.createdAt && LeaseTime.Less(name, other.name))
    }
  }

  lemma PrecedesIsStrict(a: Rank)
    ensures !a.Precedes(a)
  {
    LeaseTime.Irreflexive(a.name);
  }

  // What a later minimum follows, the earlier one does not precede either.
  lemma StillFirst(a: Rank, b: Rank, c: Rank)
    requires b.Precedes(a) && !c.Precedes(a)
    ensures !c.Precedes(b)
  {
    if c.Precedes(b) && c.createdAt == b.createdAt == a.createdAt { LeaseTime.LessIsTransitive(c.name, b.name, a.name); }
  }

  class Database {
    // The workflow id, a hash of the review.
    const workflowId: ReviewId -> LeaseTime.Text
    var runs: Db

    ghost predicate Valid()
      reads this
    {
      DbInv(runs)
    }

    constructor (workflowId: ReviewId -> LeaseTime.Text)
      ensures Valid() && runs == map[] && this.workflowId == workflowId
    {
      this.workflowId, runs := workflowId, map[];
    }

    // create_run: the caller's fresh id names no run yet.
    method CreateRun(run: RunId, profile: Profile)
      requires run !in runs
      modifies this
      ensures runs == Perform(old(runs), Create(run, profile))
    {
      var row := RunRow(profile, Pending, NotRequired, DeliveryPending, 0);
      var segments := map[0 := InitialSegment(run)];
      runs := runs[run := RunState(run, row, segments, map[], 0, map[], map[], map[], map[], map[], map[], [], [], {})];
    }

    // The fenced UPDATE of the run's row; a rowcount of zero is a stale write.
    method TransitionRun(run: RunId, expectedVersion: nat, allowed: set<Execution>,
                         execution: Option<Execution>, review: Option<ReviewFlag>, delivery: Option<Delivery>)
      returns (outcome: Outcome)
      modifies this
      ensures run in old(runs) ==>
        Performed(old(runs), runs, run, Transition(old(runs)[run], expectedVersion, allowed, execution, review, delivery), outcome)
      ensures run !in old(runs) ==>
        runs == old(runs) && outcome == Raised(if allowed == {} then InvalidArgument else StaleRunWrite)
    {
      if allowed == {} { return Raised(InvalidArgument); }
      if run !in runs { return Raised(StaleRunWrite); }
      var s := runs[run];
      if s.row.version != expectedVersion || s.row.execution !in allowed { return Raised(StaleRunWrite); }
      var row := s.row.(version := s.row.version + 1);
      if execution.Some? { row := row.(execution := execution.value); }
      if review.Some? { row := row.(review := review.value); }
      if delivery.Some? { row := row.(delivery := delivery.value); }
      runs := runs[run := s.(row := row)];
      outcome := Done(false);
    }

    method InsertEvidenceRows(s: RunState, entries: seq<EvidenceEntry>) returns (table: map<EvidenceId, Evidence>, inserted: bool)
      ensures inserted <==> CanInsertEvidence(s, entries)
      ensures inserted ==> table == InsertEvidence(s.id, s.evidence, entries)
    {
      hide CanInsertEvidence, InsertEvidence, Inserting;
      table, inserted := s.evidence, true;
      InsertsNothing(s, entries);
      var i := 0;
      while i < |entries|
        invariant i <= |entries| && Inserting(s, entries, i, table)
      {
        var item := EvidenceId(s.id, entries[i].fingerprint);
        InsertsNext(s, entries, i, table);
        if item in table { return table, false; }
        table := table[item := entries[i].evidence];
        i := i + 1;
      }
      InsertsAll(s, entries, table);
    }

    method InsertArtifacts(stored: map<ArtifactId, Artifact>, rows: seq<(ArtifactId, Artifact)>)
      returns (table: map<ArtifactId, Artifact>, inserted: bool)
      ensures inserted <==> CanInsert(stored, rows)
      ensures inserted ==> table == InsertAll(stored, rows)
    {
      table, inserted := stored, true;
      var i := 0;
      while i < |rows|
        invariant 0 <= i <= |rows|
        invariant CanInsert(stored, rows[..i])
        invariant forall a :: a in table <==> a in stored || exists j | 0 <= j < i :: a == rows[j].0
        invariant InsertAll(table, rows[i..]) == InsertAll(stored, rows)
      {
        if rows[i].0 in table {
          inserted := false;
          return;
        }
        assert rows[i..][1..] == rows[i + 1..];
        table := table[rows[i].0 := rows[i].1];
        i := i + 1;
      }
      assert rows[..i] == rows;
    }

    method FinalizeRunTransaction(run: RunId, a: FinalArguments, now: Instant) returns (outcome: Outcome)
      requires run in runs
      modifies this
      ensures Performed(old(runs), runs, run, FinalizeRun(old(runs)[run], a, now), outcome)
    {
      hide CanInsert, InsertAll, InsertEvidence, AdoptBaseline;
      if a.allowed == {} { return Raised(InvalidArgument); }
      var s := runs[run];
      if s.row.version != a.expectedVersion || s.row.execution !in a.allowed { return Raised(StaleRunWrite); }
      s := s.(row := s.row.(execution := a.execution, review := a.review, delivery := a.delivery, version := s.row.version + 1));
      if a.segment !in s.segments.Values { return Raised(InvalidArgument); }
      var evidence, distinct := InsertEvidenceRows(s, a.entries);
      if !distinct { return Raised(IntegrityError); }
      s := s.(evidence := evidence, packets := s.packets + a.packets);
      if a.bundle.Some? {
        var review := a.bundle.value.review;
        if review.revision in s.bundles { return Raised(IntegrityError); }
        s := s.(bundles := s.bundles[review.revision := a.bundle.value]);
      }
      if a.workflow {
        if a.bundle.None? || !a.bundle.value.required { return Raised(InvalidArgument); }
        var review := a.bundle.value.review;
        if review.revision in s.workflows { return Raised(IntegrityError); }
        s := s.(workflows := s.workflows[review.revision := NewWorkflow(review, now)]);
      }
      var artifacts, unique := InsertArtifacts(s.artifacts, a.artifacts);
      if !unique { return Raised(IntegrityError); }
      s := s.(artifacts := artifacts);
      if a.publishing { s := AdoptBaseline(s); }
      runs := runs[run := s];
      outcome := Done(false);
    }

    // Publications -----------------------------------------------------------------------

    method AdoptBaselinePublication(before: RunState) returns (s: RunState)
      ensures s == AdoptBaseline(before)
    {
      s := before;
      if s.publications != [] { return; }
      if s.row.profile != Talent || 1 !in s.bundles || BriefJsonId(1) !in s.artifacts { return; }
      var review := s.bundles[1].review;
      var snapshot := SnapshotId(s.id, BaselineProjections(s.evidence));
      s := s.(snapshots := s.snapshots + {snapshot});
      var resolved := None;
      if review in s.resolutions { resolved := Some(s.resolutions[review].action); }
      var status := AdoptedStatus(s.bundles[1].required, s.row.delivery, resolved, s.ledger != []);
      var hash := s.artifacts[BriefJsonId(1)].contentHash;
      s := s.(publications := [Publication(PublicationId(s.id, 1, snapshot), 1, snapshot, review, status, status != Stale,
        AdoptedArtifactIds(s.artifacts), hash, None)]);
    }

    method StaleCurrentPublication(before: RunState) returns (s: RunState)
      ensures s == StaleCurrent(before)
    {
      s := before;
      var current := CurrentIndex(s.publications);
      if current.None? { return; }
      var i := current.value;
      var review := s.publications[i].review;
      s := s.(publications := s.publications[i := s.publications[i].(status := Stale, current := false)]);
      s := s.(workflows := SupersedeReview(s.workflows, review));
      s := s.(row := s.row.(review := Required, delivery := ReviewRequired, version := s.row.version + 1));
    }

    method AcceptVerificationDecision(run: RunId, item: EvidenceId, request: VerificationRequest) returns (outcome: Outcome)
      modifies this
      ensures run in old(runs) ==>
        Performed(old(runs), runs, run,
          AcceptVerification(old(runs)[run], UsedByAnother(old(runs), run, Verify(item, request)), item, request), outcome)
      ensures run !in old(runs) ==> runs == old(runs) && outcome.Raised?
    {
      if exists other | other in runs :: other != run && FindVerification(runs[other].ledger, request.id).Some? {
        return Raised(VerificationIdConflict);
      }
      if run !in runs { return Raised(EvidenceNotFound); }
      var s := runs[run];
      var existing := FindVerification(s.ledger, request.id);
      if existing.Some? {
        if existing.value.evidence != item || existing.value.request != request { return Raised(VerificationIdConflict); }
        assert runs[run := s] == runs;
        return Done(true);
      }
      if item !in s.evidence { return Raised(EvidenceNotFound); }
      s := AdoptBaselinePublication(s);
      if item.fingerprint != request.fingerprint { return Raised(EvidenceFingerprintMismatch); }
      if request.action.VerifyEvidence? && !s.evidence[item].eligible { return Raised(EvidencePreflightBlocked); }
      var revision := MaxRevision(s.ledger, item, request.fingerprint);
      if revision != request.expectedRevision { return Raised(VerificationRevisionConflict); }
      s := s.(ledger := s.ledger + [NewVerification(item, request, revision + 1)]);
      s := StaleCurrentPublication(s);
      runs := runs[run := s];
      outcome := Done(false);
    }

    // The branch for a current publication that already carries the snapshot.
    method RepairOrReplay(before: RunState, i: nat, now: Instant) returns (s: RunState, outcome: Outcome)
      requires i < |before.publications|
      ensures Agrees(FinalizeAgain(before, i, now), s, outcome)
    {
      s := before;
      var current := s.publications[i];
      var workflow := WorkflowOf(s, current.review);
      if current.status == PublishedForReview && workflow.None? {
        if current.revision in s.workflows { return s, Raised(VerificationPublicationConflict); }
        s := s.(workflows := s.workflows[current.revision := NewWorkflow(current.review, now)]);
        s := s.(row := s.row.(review := Required, delivery := ReviewRequired, version := s.row.version + 1));
        return s, Done(false);
      }
      return s, Done(true);
    }

    // The unique constraints of the bundles, publications and workflows.
    method RevisionIsFree(s: RunState, revision: nat, snapshot: SnapshotId, artifacts: seq<(ArtifactId, Artifact)>)
      returns (free: bool)
      ensures PublicationInsertable(s, revision, snapshot, artifacts) <==> CanInsert(s.artifacts, artifacts) && free
    {
      hide CanInsert;
      free := revision !in s.bundles && revision !in s.workflows;
      for i := 0 to |s.publications|
        invariant free ==> revision !in s.bundles && revision !in s.workflows
        invariant free ==> forall j | 0 <= j < i :: s.publications[j].revision != revision && s.publications[j].snapshot != snapshot
        invariant free || revision in s.bundles || revision in s.workflows
          || exists j | 0 <= j < i :: s.publications[j].revision == revision || s.publications[j].snapshot == snapshot
      {
        if s.publications[i].revision == revision || s.publications[i].snapshot == snapshot { free := false; }
      }
    }

    method InsertRevision(before: RunState, publication: Publication, rows: seq<(ArtifactId, Artifact)>, now: Instant)
      returns (s: RunState, inserted: bool)
      ensures inserted <==> PublicationInsertable(before, publication.revision, publication.snapshot, rows)
      ensures inserted ==> s == before.(
        artifacts := InsertAll(before.artifacts, rows),
        bundles := before.bundles[publication.revision := Bundle(publication.review, true)],
        publications := before.publications + [publication],
        workflows := before.workflows[publication.revision := NewWorkflow(publication.review, now)],
        row := RequireReview(before.row))
    {
      hide CanInsert, InsertAll;
      s := before;
      var artifacts, unique := InsertArtifacts(s.artifacts, rows);
      var free := RevisionIsFree(s, publication.revision, publication.snapshot, rows);
      inserted := unique && free;
      if inserted {
        s := s.(artifacts := artifacts);
        s := s.(bundles := s.bundles[publication.revision := Bundle(publication.review, true)]);
        s := s.(publications := s.publications + [publication]);
        s := s.(workflows := s.workflows[publication.revision := NewWorkflow(publication.review, now)]);
        s := s.(row := s.row.(review := Required, delivery := ReviewRequired, version := s.row.version + 1));
      }
    }

    method PublishNextRevision(before: RunState, snapshot: SnapshotId, build: Build, now: Instant)
      returns (s: RunState, outcome: Outcome)
      ensures Agrees(PublishRevision(before, snapshot, build, now), s, outcome)
    {
      hide CanInsert, InsertAll, NewestIndex, BuiltReview, BuiltBrief, BriefArtifacts, PublicationInsertable, RequireReview;
      s := before;
      if s.row.profile != Talent || s.packets == 0 || build.BuildInvalid? { return s, Raised(PublicationBuildFailed); }
      var previous := NewestIndex(s.publications);
      var revision := if previous.None? then 1 else s.publications[previous.value].revision + 1;
      var supersedes := if previous.None? then None else Some(s.publications[previous.value].id);
      var review := BuiltReview(s, revision, build);
      var brief := BuiltBrief(review, build);
      var inserted;
      s, inserted := InsertRevision(s, Publication(PublicationId(s.id, revision, snapshot), revision, snapshot, review,
        PublishedForReview, true, [BriefJsonId(revision), BriefMarkdownId(revision)], brief.contentHash, supersedes),
        BriefArtifacts(revision, brief), now);
      outcome := if inserted then Done(false) else Raised(VerificationPublicationConflict);
    }

    method FinalizeVerificationPublication(run: RunId, expectedVersion: nat, build: Build, now: Instant) returns (outcome: Outcome)
      modifies this
      ensures run in old(runs) ==>
        Performed(old(runs), runs, run, FinalizePublication(old(runs)[run], expectedVersion, build, now), outcome)
      ensures run !in old(runs) ==> runs == old(runs) && outcome == Raised(RunNotFound)
    {
      if run !in runs { return Raised(RunNotFound); }
      var s := runs[run];
      if s.row.version != expectedVersion { return Raised(StaleStateVersion); }
      s := AdoptBaselinePublication(s);
      var snapshot := EffectiveSnapshot(s);
      s := s.(snapshots := s.snapshots + {snapshot});
      var current := CurrentIndex(s.publications);
      if current.Some? && s.publications[current.value].snapshot == snapshot {
        s, outcome := RepairOrReplay(s, current.value, now);
      } else if current.Some? {
        return Raised(VerificationPublicationConflict);
      } else {
        s, outcome := PublishNextRevision(s, snapshot, build, now);
      }
      if outcome.Done? { runs := runs[run := s]; }
    }

    // Review decisions -------------------------------------------------------------------

    method AcceptReviewDecision(run: RunId, review: ReviewId, request: DecisionRequest) returns (outcome: Outcome)
      modifies this
      ensures run in old(runs) ==>
        Performed(old(runs), runs, run,
          ReviewWorkflows.AcceptReviewDecision(old(runs)[run], UsedByAnother(old(runs), run, Decide(review, request)), review, request),
          outcome)
      ensures run !in old(runs) ==> runs == old(runs) && outcome.Raised?
    {
      if exists other | other in runs :: other != run && request.id in runs[other].decisions {
        return Raised(DecisionIdConflict);
      }
      if run !in runs { return Raised(ReviewNotFound); }
      var s, k := runs[run], request.revision;
      if request.id in s.decisions {
        if !SameRequest(s.decisions[request.id], review, request) { return Raised(DecisionIdConflict); }
        if k !in s.workflows || s.workflows[k].review != review { return Raised(ReviewNotFound); }
        assert runs[run := s] == runs;
        return Done(true);
      }
      if exists d | d in s.decisions :: s.decisions[d].review == review && s.decisions[d].revision == k {
        return Raised(ReviewAlreadyDecided);
      }
      if k !in s.workflows || s.workflows[k].review != review { return Raised(ReviewNotFound); }
      if s.workflows[k].status == Superseded { return Raised(ReviewSuperseded); }
      var closed := ReviewClosed(s, review);
      if closed.Some? { return Raised(closed.value); }
      if s.row.profile != Talent { return Raised(UnsupportedReviewProfile); }
      if s.row.execution != Completed || s.row.review != Required || s.row.delivery != ReviewRequired
         || s.workflows[k].status != WaitingDecision {
        return Raised(ReviewNotWaiting);
      }
      if s.row.version != request.expectedVersion { return Raised(StaleStateVersion); }
      var accepted := s.row.version + 1;
      s := s.(decisions := s.decisions[request.id := ReviewDecision(review, k, request.action, request.reason, accepted)]);
      s := s.(workflows := s.workflows[k := s.workflows[k].(decision := Some(request.id), status := ResumePending)]);
      s := s.(row := s.row.(version := s.row.version + 1));
      runs := runs[run := s];
      outcome := Done(false);
    }

    // Leases -----------------------------------------------------------------------------

    // The workflows that a claim may take, with their places in its order.
    function Due(now: Instant): (due: map<(RunId, nat), Rank>)
      reads this
      ensures forall run, k: nat :: (run, k) in due <==> run in runs && Claimable(runs[run], k, now)
      ensures forall run, k: nat | run in runs && Claimable(runs[run], k, now) :: due[(run, k)] == RankOf(runs[run].workflows[k])
    {
      map run, k | run in runs && k in runs[run].workflows && Claimable(runs[run], k, now) ::
        (run, k) := RankOf(runs[run].workflows[k])
    }

    function RankOf(w: Workflow): Rank {
      Rank(w.createdAt, workflowId(w.review))
    }

    // ORDER BY created_at, workflow_id LIMIT 1
    method Oldest(due: map<(RunId, nat), Rank>) returns (oldest: Option<(RunId, nat)>)
      ensures oldest.None? <==> due == map[]
      ensures oldest.Some? ==> oldest.value in due && forall key | key in due :: !due[key].Precedes(due[oldest.value])
    {
      hide Rank.Precedes;
      oldest := None;
      var rest := due.Keys;
      while rest != {}
        invariant rest <= due.Keys
        invariant oldest.None? ==> rest == due.Keys
        invariant oldest.Some? ==> oldest.value in due && forall key | key in due.Keys - rest :: !due[key].Precedes(due[oldest.value])
        decreases |rest|
      {
        var key :| key in rest;
        PrecedesIsStrict(due[key]);
        if oldest.None? {
          oldest := Some(key);
        } else if due[key].Precedes(due[oldest.value]) {
          forall other | other in due.Keys - rest ensures !due[other].Precedes(due[key]) {
            StillFirst(due[oldest.value], due[key], due[other]);
          }
          oldest := Some(key);
        }
        rest := rest - {key};
      }
    }

    // The UPDATE, the segment and the attempt of a claim.
    method TakeLease(run: RunId, k: nat, worker: WorkerId, now: Instant, lease: Instant) returns (outcome: Outcome)
      requires run in runs && Claimable(runs[run], k, now) && lease > 0
      modifies this
      ensures Performed(old(runs), runs, run, ClaimWorkflow(old(runs)[run], k, worker, now, lease), outcome)
    {
      var s := runs[run];
      var w := s.workflows[k];
      var attempt := w.attemptCount + 1;
      var status := if w.status == ResumePending || w.status == Resuming then Resuming else w.status;
      s := s.(workflows := s.workflows[k := w.(status := status, owner := Some(worker), expires := Some(now + lease), attemptCount := attempt)]);
      var segment := PostReviewSegment(w.review);
      if k !in s.segments && segment !in s.segments.Values {
        s := s.(segments := s.segments[k := segment]);
      }
      if k !in s.segments || s.segments[k] != segment { return Raised(PostReviewSegmentConflict); }
      if (k, attempt) in s.attempts { return Raised(IntegrityError); }
      s := s.(attempts := s.attempts[(k, attempt) := Attempt(worker, None)]);
      runs := runs[run := s];
      outcome := Done(false);
    }

    // Takes the first workflow whose lease is free, of any run; None when there is none.
    lemma LeastIsForemost(due: map<(RunId, nat), Rank>, run: RunId, k: nat, now: Instant)
      requires due == Due(now) && (run, k) in due && forall key | key in due :: !due[key].Precedes(due[(run, k)])
      ensures run in runs && k in runs[run].workflows && Foremost(runs, run, k, now)
    {
      assert run in runs && Claimable(runs[run], k, now);
      forall r, j: nat | r in runs && Claimable(runs[r], j, now)
        ensures var first, other := runs[run].workflows[k], runs[r].workflows[j];
          first.createdAt <= other.createdAt &&
          (first.createdAt == other.createdAt ==> !LeaseTime.Less(workflowId(other.review), workflowId(first.review)))
      {
        assert (r, j) in due;
      }
    }

    // Nothing that is due is older, nor as old under an earlier id.
    ghost predicate Foremost(db: Db, run: RunId, k: nat, now: Instant)
      requires run in db && k in db[run].workflows
    {
      forall r, j: nat | r in db && Claimable(db[r], j, now) ::
        var first, other := db[run].workflows[k], db[r].workflows[j];
        first.createdAt <= other.createdAt &&
        (first.createdAt == other.createdAt ==> !LeaseTime.Less(workflowId(other.review), workflowId(first.review)))
    }

    method ClaimReviewWorkflow(worker: WorkerId, now: Instant, lease: Instant) returns (claimed: Option<(RunId, nat)>, outcome: Outcome)
      modifies this
      ensures claimed.None? <==> lease <= 0 || old(Due(now)) == map[]
      ensures claimed.None? ==> runs == old(runs) && outcome == if lease <= 0 then Raised(InvalidArgument) else Done(false)
      ensures claimed.Some? ==>
        && claimed.value in old(Due(now))
        && (forall key | key in old(Due(now)) :: !old(Due(now))[key].Precedes(old(Due(now))[claimed.value]))
        && var (run, k) := claimed.value;
        && run in old(runs) && k in old(runs)[run].workflows && Foremost(old(runs), run, k, now)
        && Performed(old(runs), runs, run, ClaimWorkflow(old(runs)[run], k, worker, now, lease), outcome)
    {
      hide Claimable, ClaimWorkflow;
      if lease <= 0 { return None, Raised(InvalidArgument); }
      var due := Due(now);
      claimed := Oldest(due);
      if claimed.None? { return None, Done(false); }
      var (run, k) := claimed.value;
      LeastIsForemost(due, run, k, now);
      outcome := TakeLease(run, k, worker, now, lease);
    }

    // _owned_workflow
    method OwnedWorkflow(run: RunId, k: nat, worker: WorkerId, now: Instant) returns (owned: bool)
      requires run in runs && k in runs[run].workflows
      ensures owned <==> Owned(runs[run], k, worker, now)
    {
      var w := runs[run].workflows[k];
      if w.owner != Some(worker) || w.expires.None? { return false; }
      owned := w.expires.value > now;
    }

    // _complete_attempt: exactly one open attempt of this worker must be there to close.
    method CompleteAttempt(before: RunState, k: nat, attempt: nat, worker: WorkerId, result: AttemptOutcome)
      returns (s: RunState, closed: bool)
      ensures closed <==> (k, attempt) in before.attempts && before.attempts[(k, attempt)] == Attempt(worker, None)
      ensures closed ==> s == before.(attempts := before.attempts[(k, attempt) := Attempt(worker, Some(result))])
    {
      s := before;
      var key := (k, attempt);
      closed := key in s.attempts && s.attempts[key].worker == worker && s.attempts[key].outcome.None?;
      if closed { s := s.(attempts := s.attempts[key := s.attempts[key].(outcome := Some(result))]); }
    }

    // _complete_attempt_if_open
    method CompleteAttemptIfOpen(before: RunState, k: nat, attempt: nat, result: AttemptOutcome) returns (s: RunState)
      ensures s == before.(attempts :=
        if (k, attempt) in before.attempts && before.attempts[(k, attempt)].outcome.None?
        then before.attempts[(k, attempt) := before.attempts[(k, attempt)].(outcome := Some(result))] else before.attempts)
    {
      s := before;
      var key := (k, attempt);
      if key in s.attempts && s.attempts[key].outcome.None? {
        s := s.(attempts := s.attempts[key := s.attempts[key].(outcome := Some(result))]);
      }
    }

    method CompleteCheckpointCreation(run: RunId, k: nat, worker: WorkerId, now: Instant) returns (outcome: Outcome)
      requires run in runs
      modifies this
      ensures Performed(old(runs), runs, run, ReviewWorkflows.CompleteCheckpointCreation(old(runs)[run], k, worker, now), outcome)
    {
      var s := runs[run];
      if k !in s.workflows { return Raised(ReviewNotFound); }
      var w := s.workflows[k];
      var owned := OwnedWorkflow(run, k, worker, now);
      if !owned { return Raised(LeaseNotOwned); }
      if w.status != CheckpointPending { return Raised(CheckpointNotPending); }
      s := s.(workflows := s.workflows[k := w.(status := WaitingDecision, owner := None, expires := None, lastError := None)]);
      var closed;
      s, closed := CompleteAttempt(s, k, w.attemptCount, worker, CheckpointCreated);
      if !closed { return Raised(ResumeAttemptNotFound); }
      runs := runs[run := s];
      outcome := Done(false);
    }

    method MarkWaitingDecision(run: RunId, k: nat) returns (outcome: Outcome)
      requires run in runs
      modifies this
      ensures Performed(old(runs), runs, run, ReviewWorkflows.MarkWaitingDecision(old(runs)[run], k), outcome)
    {
      var s := runs[run];
      if k !in s.workflows { return Raised(ReviewNotFound); }
      var w := s.workflows[k];
      if w.status != CheckpointPending {
        assert runs[run := s] == runs;
        return Done(true);
      }
      s := s.(workflows := s.workflows[k := w.(status := WaitingDecision, owner := None, expires := None, lastError := None)]);
      s := CompleteAttemptIfOpen(s, k, w.attemptCount, CheckpointReconciled);
      runs := runs[run := s];
      outcome := Done(false);
    }

    method MarkResolutionPending(run: RunId, k: nat, worker: Option<WorkerId>, now: Instant, decision: DecisionId) returns (outcome: Outcome)
      requires run in runs
      modifies this
      ensures Performed(old(runs), runs, run, ReviewWorkflows.MarkResolutionPending(old(runs)[run], k, worker, now, decision), outcome)
    {
      var s := runs[run];
      if k !in s.workflows { return Raised(ReviewNotFound); }
      var w := s.workflows[k];
      if worker.Some? {
        var owned := OwnedWorkflow(run, k, worker.value, now);
        if !owned { return Raised(LeaseNotOwned); }
      }
      if w.status != Resuming || w.decision != Some(decision) { return Raised(CheckpointDecisionMismatch); }
      if worker.None? {
        s := s.(workflows := s.workflows[k := w.(status := ResolutionPending, owner := None, expires := None)]);
        s := CompleteAttemptIfOpen(s, k, w.attemptCount, CheckpointReconciled);
      } else {
        s := s.(workflows := s.workflows[k := w.(status := ResolutionPending)]);
      }
      runs := runs[run := s];
      outcome := Done(false);
    }

    method MarkManualRecovery(run: RunId, k: nat, worker: Option<WorkerId>, now: Instant, error: Code) returns (outcome: Outcome)
      requires run in runs
      modifies this
      ensures Performed(old(runs), runs, run, ReviewWorkflows.MarkManualRecovery(old(runs)[run], k, worker, now, error), outcome)
    {
      var s := runs[run];
      if k !in s.workflows { return Raised(ReviewNotFound); }
      var w := s.workflows[k];
      if w.status == Superseded { return Raised(ReviewSuperseded); }
      if worker.Some? {
        var owned := OwnedWorkflow(run, k, worker.value, now);
        if !owned { return Raised(LeaseNotOwned); }
      } else if w.status in {Approved, Rejected, ManualRecovery, Superseded} {
        return Raised(LeaseNotOwned);
      }
      s := s.(workflows := s.workflows[k := w.(status := ManualRecovery, owner := None, expires := None, lastError := Some(error))]);
      if worker.None? {
        s := CompleteAttemptIfOpen(s, k, w.attemptCount, SentToManualRecovery);
      } else {
        var closed;
        s, closed := CompleteAttempt(s, k, w.attemptCount, worker.value, SentToManualRecovery);
        if !closed { return Raised(ResumeAttemptNotFound); }
      }
      runs := runs[run := s];
      outcome := Done(false);
    }

    method ReleaseExpiredLease(run: RunId, k: nat, now: Instant) returns (outcome: Outcome)
      requires run in runs
      modifies this
      ensures Performed(old(runs), runs, run, ReviewWorkflows.ReleaseExpiredLease(old(runs)[run], k, now), outcome)
    {
      var s := runs[run];
      if k !in s.workflows { return Raised(ReviewNotFound); }
      var w := s.workflows[k];
      if w.status != Resuming || (w.expires.Some? && w.expires.value > now) { return Raised(LeaseNotExpired); }
      s := s.(workflows := s.workflows[k := w.(status := ResumePending, owner := None, expires := None)]);
      s := CompleteAttemptIfOpen(s, k, w.attemptCount, LeaseExpired);
      runs := runs[run := s];
      outcome := Done(false);
    }

    method ReleaseWorkflowForRetry(run: RunId, k: nat, worker: WorkerId, now: Instant, error: Code, maxAttempts: nat) returns (outcome: Outcome)
      requires run in runs
      modifies this
      ensures Performed(old(runs), runs, run, ReleaseForRetry(old(runs)[run], k, worker, now, error, maxAttempts), outcome)
    {
      var s := runs[run];
      if k !in s.workflows { return Raised(ReviewNotFound); }
      var w := s.workflows[k];
      var owned := OwnedWorkflow(run, k, worker, now);
      if !owned { return Raised(LeaseNotOwned); }
      var status, result := w.status, Retry;
      if w.attemptCount >= maxAttempts {
        status, result := ManualRecovery, SentToManualRecovery;
      } else if w.status == Resuming {
        status := ResumePending;
      } else if w.status != CheckpointPending && w.status != ResolutionPending {
        return Raised(ReviewNotRetryable);
      }
      s := s.(workflows := s.workflows[k := w.(status := status, owner := None, expires := None, lastError := Some(error))]);
      var closed;
      s, closed := CompleteAttempt(s, k, w.attemptCount, worker, result);
      if !closed { return Raised(ResumeAttemptNotFound); }
      runs := runs[run := s];
      outcome := Done(false);
    }

    // Resolution -------------------------------------------------------------------------

    method ResolveReview(run: RunId, k: nat, worker: WorkerId, now: Instant, expectedVersion: nat, result: ReviewedResult)
      returns (outcome: Outcome)
      requires run in runs
      modifies this
      ensures Performed(old(runs), runs, run,
        ReviewResolution.ResolveReview(old(runs)[run], k, worker, now, expectedVersion, result), outcome)
    {
      hide ReviewClosed, ResultMatches, CanInsert, InsertAll, Ids, PublicationOf, Owned, WithContentHash;
      var s := runs[run];
      if k !in s.workflows { return Raised(ReviewNotFound); }
      var w := s.workflows[k];
      if w.status == Superseded { return Raised(ReviewSuperseded); }
      var closedReview := ReviewClosed(s, w.review);
      if closedReview.Some? { return Raised(closedReview.value); }
      if w.review in s.resolutions {
        assert runs[run := s] == runs;
        return Done(true);
      }
      var owned := OwnedWorkflow(run, k, worker, now);
      if w.status != ResolutionPending || !owned { return Raised(LeaseNotOwned); }
      if w.decision.None? { return Raised(ReviewDecisionMissing); }
      var id := w.decision.value;
      if id !in s.decisions { return Raised(ReviewNotFound); }
      var d := s.decisions[id];
      if d.acceptedVersion != expectedVersion || s.row.version != expectedVersion { return Raised(StaleStateVersion); }
      if !ResultMatches(id, d, result) { return Raised(ResolutionResultMismatch); }
      var artifacts, unique := InsertArtifacts(s.artifacts, result.artifacts);
      if !unique || exists review | review in s.resolutions :: s.resolutions[review].decision == id {
        return Raised(ReviewResolutionConflict);
      }
      s := s.(artifacts := artifacts);
      var ids := Ids(result.artifacts);
      s := s.(resolutions := s.resolutions[w.review := Resolution(id, d.action, ids)]);
      var publication := PublicationOf(s.publications, w.review);
      if publication.Some? {
        var p := s.publications[publication.value];
        if d.action == Approve {
          p := p.(status := PublishedReady, artifactIds := ids);
          if result.brief.Some? { p := p.(contentHash := WithContentHash(result.brief.value).contentHash); }
        } else {
          p := p.(status := PublishedBlocked);
        }
        s := s.(publications := s.publications[publication.value := p]);
      }
      var delivery := if d.action == Approve then Ready else Blocked;
      s := s.(row := s.row.(review := Resolved, delivery := delivery, version := s.row.version + 1));
      var status := if d.action == Approve then Approved else Rejected;
      s := s.(workflows := s.workflows[k := w.(status := status, owner := None, expires := None)]);
      var closed;
      s, closed := CompleteAttempt(s, k, w.attemptCount, worker, if d.action == Approve then OutcomeApproved else OutcomeRejected);
      if !closed { return Raised(ResumeAttemptNotFound); }
      runs := runs[run := s];
      outcome := Done(false);
    }
  }
}
