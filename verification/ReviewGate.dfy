/** The checkpoint store behind a review (api/review_gate.py): one thread per workflow, which is
    absent, interrupted while it waits for a decision, or completed with one. */
module ReviewGate {
  import opened ReviewTypes

  datatype Checkpoint = Absent | Interrupted | CompletedWith(decision: DecisionId)

  // What resuming a thread comes to.
  datatype Answer = Resumed(decision: DecisionId) | Mismatched | Unavailable

  // A thread is named after its workflow, and so after the review.
  type Threads = map<ReviewId, Checkpoint>

  function At(threads: Threads, review: ReviewId): Checkpoint {
    if review in threads then threads[review] else Absent
  }

  // The resumed node loads the decision and compares its run, review and revision with its own.
  // A completed thread answers with the decision it holds; an absent one has nothing to resume.
  function ResumeAnswer(c: Checkpoint, review: ReviewId, id: DecisionId, loaded: Option<ReviewDecision>): Answer {
    match c
    case Absent => Unavailable
    case Interrupted => if loaded.Some? && loaded.value.review == review then Resumed(id) else Mismatched
    case CompletedWith(decision) => Resumed(decision)
  }

  class Gate {
    var threads: Threads

    constructor ()
      ensures threads == map[]
    {
      threads := map[];
    }

    // ensure_waiting: runs the graph from its start to the interrupt.
    method EnsureWaiting(review: ReviewId)
      modifies this
      ensures threads == old(threads)[review := Interrupted]
    {
      threads := threads[review := Interrupted];
    }

    method Resume(review: ReviewId, id: DecisionId, loaded: Option<ReviewDecision>) returns (answer: Answer)
      modifies this
      ensures answer == ResumeAnswer(At(old(threads), review), review, id, loaded)
      ensures answer == Mismatched <==>
        review in old(threads) && old(threads)[review] == Interrupted && (loaded == None || loaded.value.review != review)
      ensures answer == Unavailable <==> review !in old(threads) || old(threads)[review] == Absent
      ensures answer.Resumed? ==> old(threads)[review] == CompletedWith(answer.decision) || (old(threads)[review] == Interrupted && answer.decision == id)
      ensures answer.Resumed? ==> threads == old(threads)[review := CompletedWith(answer.decision)]
      ensures !answer.Resumed? ==> threads == old(threads)
    {
      if review !in threads || threads[review].Absent? { return Unavailable; }
      match threads[review] {
        case Interrupted =>
          if loaded.None? || loaded.value.review != review { return Mismatched; }
          threads := threads[review := CompletedWith(id)];
          answer := Resumed(id);
        case CompletedWith(decision) =>
          assert threads[review := CompletedWith(decision)] == threads;
          answer := Resumed(decision);
      }
    }

    method Inspect(review: ReviewId) returns (c: Checkpoint)
      ensures c == At(threads, review)
    {
      c := if review in threads then threads[review] else Absent;
    }
  }
}
