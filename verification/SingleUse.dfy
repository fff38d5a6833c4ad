/** A result belongs to one attempt of one row: it can never complete anything else. */
module SingleUse {
  import opened Base
  import opened SchedulerState
  import opened ResultValidation
  import opened Transitions
  import opened Invariants
  import opened Runs
  import opened Evolution
  import opened Safety
  import opened Recoverability

  /** Two acceptances of one result name the same row, attempt, fingerprint and mode. */
  lemma AcceptedForOneAttempt(result: WorkResult, id: TaskId, task: Task, run: Run, worker: Worker, files: Files,
                              id': TaskId, task': Task, run': Run, worker': Worker, files': Files)
    requires Accepts(id, task, run, result, worker, files) && Accepts(id', task', run', result, worker', files')
    ensures id == id' && task.attempt == task'.attempt && run.proof == run'.proof && run.mode == run'.mode
  {
    assert ExpectedClaims(id, task, run) == ExpectedClaims(id', task', run');
  }

  /** An accepted operator result was reviewed by someone other than its producer, and
      the review binds the digest of every other piece of submitted evidence. */
  lemma AcceptedWasReviewed(result: WorkResult, id: TaskId, task: Task, run: Run, worker: Worker, files: Files,
                            key: string)
    requires Accepts(id, task, run, result, worker, files) && id.OpTask?
    requires key in result.evidence.value && key != ReportKey(QueueOf(id))
    ensures var path, reviewed := result.evidence.value[key], result.evidence.value[ReportKey(QueueOf(id))];
            && path.Some? && path.value in files && files[path.value].Regular?
            && (task.input.workspace.Some? ==> path.value.workspace == task.input.workspace)
            && reviewed.Some? && reviewed.value in files && files[reviewed.value].Regular?
            && files[reviewed.value].content.report.Some?
            && var report := files[reviewed.value].content.report.value;
            && key in report.digests && report.digests[key] == files[path.value].content
            && report.validator.Some? && report.validator.value != worker
  {
    var reviewKey := ReportKey(QueueOf(id));
    assert EntryAccepted(task, result.evidence.value[key], Lookup(result.digests.value, key), files);
    assert EntryAccepted(task, result.evidence.value[reviewKey], Lookup(result.digests.value, reviewKey), files);
    var report := files[result.evidence.value[reviewKey].value].content.report.value;
    assert ReportAccepted(id, task, run, result, worker, report);
    assert report.digests == BoundDigests(id, result);
  }

  /** Attempt `n` of the row is over: it is beyond it, or not running. */
  predicate Past(db: Db, id: TaskId, n: nat) {
    id in db.tasks && db.tasks[id].attempt >= n && (db.tasks[id].status.Running? ==> db.tasks[id].attempt > n)
  }

  lemma PastStays(w: World, w': World, id: TaskId, n: nat)
    requires Past(w.db, id, n) && Evolves(w, w', id)
    ensures Past(w'.db, id, n)
  {
  }

  lemma {:induction false} PastForever(w: World, moves: seq<Move>, id: TaskId, n: nat)
    requires Sound(w) && Past(w.db, id, n)
    ensures Past(Exec(w, moves).db, id, n)
  {
    if moves != [] {
      var init := moves[..|moves| - 1];
      PastForever(w, init, id, n);
      SoundAfter(w, init);
      StepEvolves(Exec(w, init), moves[|moves| - 1], id);
      PastStays(Exec(w, init), Exec(w, moves), id, n);
    }
  }

  /** Once a result has completed a row it is never accepted again: not for that row
      after a reopening, not for any other, whatever happens in between. */
  lemma ResultAcceptedOnce(w: World, m: Move, moves: seq<Move>, id: TaskId, result: WorkResult,
                           other: TaskId, files': Files, registered: bool)
    requires Reachable(w) && m.step.CompleteStep? && m.step.task == id && m.step.result == result
    requires OwnsRow(w.db, w.now + m.wait, id, m.step.credential)
    requires Accepted(w.db, id, result, m.step.files, m.step.registered)
    ensures !Accepted(Exec(After(w, m), moves).db, other, result, files', registered)
  {
    ReachableSound(w);
    var w1 := After(w, m);
    StepKeeps(w, m);
    CompletionPasses(w, m, id);
    PastForever(w1, moves, id, w.db.tasks[id].attempt);
    SoundAfter(w1, moves);
    var w2 := Exec(w1, moves);
    assert LeaseAt(w2.db, w2.minted, other) by { LawfulIsInv(w2.db, w2.minted); }
    if Accepted(w2.db, other, result, files', registered) {
      AcceptedForOneAttempt(result, id, w.db.tasks[id], w.db.runs[id.run], w.db.tasks[id].worker.value, m.step.files,
                            other, w2.db.tasks[other], w2.db.runs[other.run], w2.db.tasks[other].worker.value, files');
    }
  }

  lemma CompletionPasses(w: World, m: Move, id: TaskId)
    requires Sound(w) && m.step.CompleteStep? && m.step.task == id
             && OwnsRow(w.db, w.now + m.wait, id, m.step.credential)
    requires Accepted(w.db, id, m.step.result, m.step.files, m.step.registered)
    ensures Past(After(w, m).db, id, w.db.tasks[id].attempt)
  {
    ContractOf(w, id);
    assert After(w, m).db == SucceedRow(w.db, id, m.step.result);
  }
}
