/** Everything one operation can do to one row. */
module Evolution {
  import opened Base
  import opened SchedulerState
  import opened Transitions
  import opened Tally
  import opened Invariants
  import opened Claiming
  import opened Runs

  function Row(db: Db, id: TaskId): Option<Task> { if id in db.tasks then Some(db.tasks[id]) else None }

  datatype Change =
    | Untouched | Created | LeaseLost | Claimed | Reclaimed | Renewed | Completed | GaveUp | RetryApplied | Reopened

  /** A claim: next attempt, a token never drawn before, an unexpired lease. */
  ghost predicate ClaimOf(t: Task, t': Task, minted: Token, now: Time) {
    && t'.status.Running? && t'.attempt == t.attempt + 1 && t'.output == t.output
    && t'.input.sourceTask == t.input.sourceTask && t'.input.sourceAttempt == t.input.sourceAttempt
    && t'.token.Some? && t'.token.value >= minted
    && t'.worker.Some?
    && t'.expires.Some? && now < t'.expires.value
  }

  predicate IsRunning(db: Db, id: TaskId) { id in db.tasks && db.tasks[id].status.Running? }

  /** What change `c` means for row `id`, and what the log records about it. */
  ghost predicate Follows(c: Change, w: World, w': World, id: TaskId) {
    var before, after := Row(w.db, id), Row(w'.db, id);
    var a, a' := AccountOf(w.db.events, id), AccountOf(w'.db.events, id);
    match c
    case Untouched => after == before && a' == a
    case Created =>
      && before.None? && after.Some? && after.value == NewTask(after.value.input) && a' == a
      && (id.OpTask? && id.stage.Torch? ==> (id.run, id.key) !in w.db.operators)
      && (id.OpTask? && !id.stage.Torch? ==> IsRunning(w.db, Previous(id)))
      && (id.DiagTask? ==> IsRunning(w.db, SourceOf(id)))
    case LeaseLost =>
      before.Some? && before.value.status.Running? && after == Some(Unleased(before.value, Pending)) && a' == a
    case Claimed =>
      && before.Some? && before.value.status.Pending? && after.Some?
      && ClaimOf(before.value, after.value, w.minted, w'.now)
      && DepsSucceeded(w.db, id)
      && a' == Posted(a, TaskClaimed(id, after.value.worker.value, after.value.attempt), id)
    case Reclaimed =>
      && before.Some? && Overdue(before.value, w'.now, false)
      && after.Some? && ClaimOf(before.value, after.value, w.minted, w'.now)
      && DepsSucceeded(w.db, id)
      && a' == Posted(a, TaskClaimed(id, after.value.worker.value, after.value.attempt), id)
    case Renewed =>
      && before.Some? && before.value.status.Running? && !Overdue(before.value, w'.now, false)
      && after.Some? && after.value == before.value.(expires := after.value.expires)
      && after.value.expires.Some? && w'.now < after.value.expires.value && a' == a
    case Completed =>
      && before.Some? && before.value.status.Running? && !Overdue(before.value, w'.now, false)
      && after.Some? && before.value.worker.Some?
      && after.value == SucceededTask(before.value, after.value.output.result)
      && a' == Posted(a, TaskSucceeded(id), id)
    case GaveUp =>
      && before.Some? && before.value.status.Running? && !Overdue(before.value, w'.now, false)
      && after == Some(FailedTask(before.value)) && a' == Posted(a, TaskFailed(id), id)
    case RetryApplied =>
      && id.OpTask? && before.Some? && before.value.status.Failed? && after == Some(Requeued(before.value))
      && StageSucceeded(w.db, DiagnosisOf(id))
      && w.db.tasks[DiagnosisOf(id)].output.result.conclusion.action == Some(Retry)
      && a' == a.(retries := a.retries + 1)
    case Reopened =>
      && id.DiagTask? && before.Some? && before.value.status.Succeeded?
      && Row(w.db, SourceOf(id)).Some? && w.db.tasks[SourceOf(id)].status.Running?
      && after.Some? && after.value.status.Pending? && after.value.attempt == before.value.attempt
      && after.value.token.None? && a' == a
  }

  ghost predicate Evolves(w: World, w': World, id: TaskId) { exists c :: Follows(c, w, w', id) }

  /** Time and drawn tokens only grow. */
  predicate Later(w: World, w': World) { w.now <= w'.now && w.minted <= w'.minted }

  lemma RunStepEvolves(w: World, m: Move, id: TaskId)
    requires Sound(w) && RunStep(m.step)
    ensures Follows(Untouched, w, After(w, m), id)
  {
    var db' := After(w, m).db;
    if db' != w.db {
      Append(w.db.events, db'.events[|db'.events| - 1]);
      assert db'.events == w.db.events + [db'.events[|db'.events| - 1]];
    }
  }

  lemma DiscoverEvolves(w: World, m: Move, id: TaskId)
    requires Sound(w) && m.step.DiscoverStep?
    ensures Evolves(w, After(w, m), id)
  {
    LawfulIsInv(w.db, w.minted);
    var r, k := m.step.run, m.step.spec.key;
    assert PipelineAt(w.db, r, k);
    var torch := OpTask(r, k, Torch);
    if DiscoverOperator(w.db, r, m.step.spec).Ok? && torch !in w.db.tasks {
      Append(w.db.events, OperatorDiscovered(r, k, true));
      Append(w.db.events + [OperatorDiscovered(r, k, true)], TaskCreated(torch));
      assert Follows(if id == torch then Created else Untouched, w, After(w, m), id);
    } else {
      assert Follows(Untouched, w, After(w, m), id);
    }
  }

  lemma RecoverEvolves(w: World, m: Move, id: TaskId)
    requires m.step.RecoverStep?
    ensures Evolves(w, After(w, m), id)
  {
    var now := w.now + m.wait;
    var lost := id in w.db.tasks && Overdue(w.db.tasks[id], now, m.step.force);
    assert Follows(if lost then LeaseLost else Untouched, w, After(w, m), id);
  }

  lemma DepsIgnoreLeases(db: Db, now: Time, force: bool, id: TaskId)
    ensures DepsSucceeded(Released(db, now, force), id) == DepsSucceeded(db, id)
  {
  }

  lemma ClaimedRowEvolves(w: World, w': World, id: TaskId, worker: Worker, token: Token, lease: int,
                          workspace: Option<Workspace>)
    requires id in w.db.tasks && id in w'.db.tasks && token >= w.minted && lease > 0
    requires w.db.tasks[id].status.Pending? || Overdue(w.db.tasks[id], w'.now, false)
    requires var t := if w.db.tasks[id].status.Pending? then w.db.tasks[id] else Unleased(w.db.tasks[id], Pending);
             w'.db.tasks[id] == ClaimedTask(t, worker, token, w'.now + lease, workspace)
    requires DepsSucceeded(w.db, id)
    requires AccountOf(w'.db.events, id)
               == Posted(AccountOf(w.db.events, id), TaskClaimed(id, worker, w.db.tasks[id].attempt + 1), id)
    ensures Evolves(w, w', id)
  {
    assert Follows(if w.db.tasks[id].status.Pending? then Claimed else Reclaimed, w, w', id);
  }

  lemma UnclaimedRowEvolves(w: World, w': World, id: TaskId)
    requires Row(w'.db, id) == Row(Released(w.db, w'.now, false), id)
    requires AccountOf(w'.db.events, id) == AccountOf(w.db.events, id)
    ensures Evolves(w, w', id)
  {
    var lost := id in w.db.tasks && Overdue(w.db.tasks[id], w'.now, false);
    assert Follows(if lost then LeaseLost else Untouched, w, w', id);
  }

  /** A claim step as its two phases: the bulk release, then the chosen rows. */
  ghost predicate ClaimPhases(w: World, w': World, ids: seq<TaskId>, worker: Worker, lease: int, dirs: Allocations) {
    var released := Released(w.db, w'.now, false);
    && lease > 0
    && Claimable(released, ids)
    && (forall x :: x in ids ==> DepsSucceeded(released, x))
    && w'.db == ClaimAll(released, ids, worker, w.minted, w'.now + lease, dirs)
  }

  lemma ChosenRowFacts(w: World, w': World, ids: seq<TaskId>, worker: Worker, lease: int, dirs: Allocations, i: nat)
    requires ClaimPhases(w, w', ids, worker, lease, dirs) && i < |ids|
    ensures var id := ids[i];
            && id in w.db.tasks && id in w'.db.tasks
            && (w.db.tasks[id].status.Pending? || Overdue(w.db.tasks[id], w'.now, false))
            && w'.db.tasks[id] == ClaimedTask(Released(w.db, w'.now, false).tasks[id], worker, w.minted + i,
                                              w'.now + lease, AllocationOf(dirs, id))
            && DepsSucceeded(w.db, id)
  {
    var released := Released(w.db, w'.now, false);
    assert ids[i] in ids;
    ClaimAllRows(released, ids, worker, w.minted, w'.now + lease, dirs, i);
    DepsIgnoreLeases(w.db, w'.now, false, ids[i]);
  }

  lemma ChosenRowLog(w: World, w': World, ids: seq<TaskId>, worker: Worker, lease: int, dirs: Allocations, id: TaskId)
    requires ClaimPhases(w, w', ids, worker, lease, dirs)
    ensures AccountOf(w'.db.events, id) ==
              if id in ids then
                Posted(AccountOf(w.db.events, id), TaskClaimed(id, worker, AttemptOf(w.db, id) + 1), id)
              else AccountOf(w.db.events, id)
  {
    ClaimAllAccounts(Released(w.db, w'.now, false), ids, worker, w.minted, w'.now + lease, dirs, id);
  }

  lemma ChosenRowEvolves(w: World, w': World, ids: seq<TaskId>, worker: Worker, lease: int, dirs: Allocations, i: nat)
    requires ClaimPhases(w, w', ids, worker, lease, dirs) && i < |ids|
    ensures Evolves(w, w', ids[i])
  {
    assert ids[i] in ids;
    ChosenRowLog(w, w', ids, worker, lease, dirs, ids[i]);
    ChosenRowFacts(w, w', ids, worker, lease, dirs, i);
    ClaimedRowEvolves(w, w', ids[i], worker, w.minted + i, lease, AllocationOf(dirs, ids[i]));
  }

  lemma PassedOverRowEvolves(w: World, w': World, ids: seq<TaskId>, worker: Worker, lease: int, dirs: Allocations,
                             id: TaskId)
    requires ClaimPhases(w, w', ids, worker, lease, dirs) && id !in ids
    ensures Evolves(w, w', id)
  {
    ChosenRowLog(w, w', ids, worker, lease, dirs, id);
    ClaimAllFrame(Released(w.db, w'.now, false), ids, worker, w.minted, w'.now + lease, dirs);
    UnclaimedRowEvolves(w, w', id);
  }

  lemma ClaimAllEvolves(w: World, w': World, ids: seq<TaskId>, worker: Worker, lease: int, dirs: Allocations,
                        id: TaskId)
    requires ClaimPhases(w, w', ids, worker, lease, dirs)
    ensures Evolves(w, w', id)
  {
    if id in ids {
      var i :| 0 <= i < |ids| && ids[i] == id;
      ChosenRowEvolves(w, w', ids, worker, lease, dirs, i);
    } else {
      PassedOverRowEvolves(w, w', ids, worker, lease, dirs, id);
    }
  }

  lemma ClaimStepPhases(w: World, m: Move)
    requires Sound(w) && m.step.ClaimStep? && ClaimArguments(m.step.worker, m.step.lease, m.step.limit)
    ensures ClaimPhases(w, After(w, m), Chosen(Released(w.db, w.now + m.wait, false), m.step.queue, m.step.limit),
                        m.step.worker, m.step.lease, m.step.dirs)
  {
    var released := Released(w.db, w.now + m.wait, false);
    assert Ordered(released) by {
      LawfulIsInv(w.db, w.minted);
      SameOrder(w.db, released);
    }
    ChosenClaimable(released, m.step.queue, m.step.limit);
  }

  lemma ClaimEvolves(w: World, m: Move, id: TaskId)
    requires Sound(w) && m.step.ClaimStep?
    ensures Evolves(w, After(w, m), id)
  {
    var s := m.step;
    if !ClaimArguments(s.worker, s.lease, s.limit) {
      assert Follows(Untouched, w, After(w, m), id);
    } else {
      ClaimStepPhases(w, m);
      ClaimAllEvolves(w, After(w, m), Chosen(Released(w.db, w.now + m.wait, false), s.queue, s.limit),
                      s.worker, s.lease, s.dirs, id);
    }
  }

  lemma RenewedRowEvolves(w: World, w': World, id: TaskId, task: TaskId, c: Credential, lease: int)
    requires OwnsRow(w.db, w'.now, task, c) && lease > 0
    requires RenewLease(w.db, w'.now, task, c, lease) == Ok(w'.db)
    ensures Evolves(w, w', id)
  {
    Append(w.db.events, LeaseRenewed(task, w'.now + lease));
    assert Follows(if c.Presented? && id == task then Renewed else Untouched, w, w', id);
  }

  lemma RenewEvolves(w: World, m: Move, id: TaskId)
    requires m.step.RenewStep?
    ensures Evolves(w, After(w, m), id)
  {
    var s := m.step;
    if RenewLease(w.db, w.now + m.wait, s.task, s.credential, s.lease).Ok? {
      RenewedRowEvolves(w, After(w, m), id, s.task, s.credential, s.lease);
    } else {
      assert Follows(Untouched, w, After(w, m), id);
    }
  }

  /** The diagnosis of a row that fails is created, or reopened. */
  lemma DiagnosisEvolves(w: World, w': World, task: TaskId)
    requires Inv(w.db, w.minted) && task in w.db.tasks && task.OpTask? && w.db.tasks[task].status.Running?
    requires w'.db == FailRow(w.db, task)
    ensures Evolves(w, w', DiagnosisOf(task))
  {
    FailRowEffect(w.db, w.minted, task);
    var d := DiagnosisOf(task);
    assert SourceOf(d) == task;
    assert LeaseAt(w.db, w.minted, d);
    assert Follows(if d in w.db.tasks then Reopened else Created, w, w', d);
  }

  lemma FailRowEvolves(w: World, w': World, id: TaskId, task: TaskId)
    requires Sound(w) && task in w.db.tasks && w.db.tasks[task].status.Running?
    requires !Overdue(w.db.tasks[task], w'.now, false) && w'.db == FailRow(w.db, task)
    ensures Evolves(w, w', id)
  {
    assert Inv(w.db, w.minted) by { LawfulIsInv(w.db, w.minted); }
    if task.OpTask? && id == DiagnosisOf(task) {
      DiagnosisEvolves(w, w', task);
    } else {
      FailRowEffect(w.db, w.minted, task);
      assert Follows(if id == task then GaveUp else Untouched, w, w', id);
    }
  }

  lemma SucceedRowEvolves(w: World, w': World, id: TaskId, task: TaskId, result: WorkResult)
    requires Sound(w) && task in w.db.tasks && w.db.tasks[task].status.Running? && w.db.tasks[task].worker.Some?
    requires !Overdue(w.db.tasks[task], w'.now, false) && w'.db == SucceedRow(w.db, task, result)
    ensures Evolves(w, w', id)
  {
    LawfulIsInv(w.db, w.minted);
    SucceedRowEffect(w.db, w.minted, task, result);
    if id == task {
      assert Follows(Completed, w, w', id);
    } else if Advances(task) && id == Next(task) {
      assert Previous(id) == task;
      assert Follows(Created, w, w', id);
    } else {
      assert Follows(Untouched, w, w', id);
    }
  }

  lemma OutcomeEvolves(w: World, m: Move, id: TaskId)
    requires Sound(w) && (m.step.CompleteStep? || m.step.FailStep?)
    ensures Evolves(w, After(w, m), id)
  {
    var now := w.now + m.wait;
    var s := m.step;
    if Attempt(w.db, now, w.minted, s).Err? {
      assert Follows(Untouched, w, After(w, m), id);
    } else if s.CompleteStep? && Accepted(w.db, s.task, s.result, s.files, s.registered) {
      SucceedRowEvolves(w, After(w, m), id, s.task, s.result);
    } else {
      FailRowEvolves(w, After(w, m), id, s.task);
    }
  }

  lemma RetryEvolves(w: World, w': World, d: TaskId, id: TaskId)
    requires d.DiagTask? && StageSucceeded(w.db, d) && SourceOf(d) in w.db.tasks
    requires w.db.tasks[SourceOf(d)].status.Failed?
    requires w.db.tasks[d].output.result.conclusion.action == Some(Retry)
    requires w'.db == RetryRow(w.db, d)
    ensures Evolves(w, w', id)
  {
    Append(w.db.events, ApplicationEvent(w.db, d, SourceOf(d), Retry));
    if id == SourceOf(d) {
      assert DiagnosisOf(id) == d;
      assert Follows(RetryApplied, w, w', id);
    } else {
      assert Follows(Untouched, w, w', id);
    }
  }

  lemma BlockedEvolves(w: World, w': World, d: TaskId, id: TaskId)
    requires d in w.db.tasks && w'.db == Emit(w.db, ApplicationEvent(w.db, d, SourceOf(d), Blocked))
    ensures Evolves(w, w', id)
  {
    Append(w.db.events, ApplicationEvent(w.db, d, SourceOf(d), Blocked));
    assert Follows(Untouched, w, w', id);
  }

  lemma AppliedEvolves(w: World, w': World, d: TaskId, id: TaskId)
    requires Inv(w.db, w.minted) && ApplyDiagnosis(w.db, d) == Ok(w'.db)
    ensures Evolves(w, w', id)
  {
    ApplyOutcome(w.db, w.minted, d);
    if AlreadyApplied(w.db, d) {
      assert Follows(Untouched, w, w', id);
    } else if w.db.tasks[d].output.result.conclusion.action == Some(Retry) {
      RetryEvolves(w, w', d, id);
    } else {
      BlockedEvolves(w, w', d, id);
    }
  }

  lemma ApplyEvolves(w: World, m: Move, id: TaskId)
    requires Sound(w) && m.step.ApplyStep?
    ensures Evolves(w, After(w, m), id)
  {
    if ApplyDiagnosis(w.db, m.step.task).Err? {
      assert Follows(Untouched, w, After(w, m), id);
    } else {
      assert Inv(w.db, w.minted) by { LawfulIsInv(w.db, w.minted); }
      AppliedEvolves(w, After(w, m), m.step.task, id);
    }
  }

  lemma ReconcileOnlyLogs(w: World, m: Move)
    requires Sound(w) && m.step.ReconcileStep? && m.step.run in w.db.runs
    ensures After(w, m).db == Emit(w.db, RunReconciled(m.step.run, [], []))
  {
    assert Inv(w.db, w.minted) by { LawfulIsInv(w.db, w.minted); }
    ReconcileStepKeeps(w.db, w.now + m.wait, w.minted, m.step.run, m.step.files);
  }

  lemma ReconcileEvolves(w: World, m: Move, id: TaskId)
    requires Sound(w) && (m.step.ReconcileStep? || m.step.Crashed?)
    ensures Follows(Untouched, w, After(w, m), id)
  {
    if m.step.ReconcileStep? && m.step.run in w.db.runs {
      ReconcileOnlyLogs(w, m);
      Append(w.db.events, RunReconciled(m.step.run, [], []));
    }
  }

  /** The whole transition relation of a single row. */
  lemma StepEvolves(w: World, m: Move, id: TaskId)
    requires Sound(w)
    ensures Evolves(w, After(w, m), id) && Later(w, After(w, m))
  {
    var s := m.step;
    if RunStep(s) {
      RunStepEvolves(w, m, id);
    } else if s.DiscoverStep? {
      DiscoverEvolves(w, m, id);
    } else if s.ClaimStep? {
      ClaimEvolves(w, m, id);
    } else if s.RenewStep? {
      RenewEvolves(w, m, id);
    } else if s.CompleteStep? || s.FailStep? {
      OutcomeEvolves(w, m, id);
    } else if s.ApplyStep? {
      ApplyEvolves(w, m, id);
    } else if s.RecoverStep? {
      RecoverEvolves(w, m, id);
    } else {
      ReconcileEvolves(w, m, id);
    }
  }
}
