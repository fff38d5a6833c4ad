/** What every reachable database satisfies, and why each row update keeps it. */
module Invariants {
  import opened Base
  import opened SchedulerState
  import opened ResultValidation
  import opened Transitions
  import opened Tally

  // ---- the invariant ----

  /** A row is running exactly when each of its three lease columns is set. */
  ghost predicate LeaseShape(t: Task) {
    && (t.status.Running? <==> t.token.Some?)
    && (t.status.Running? <==> t.worker.Some?)
    && (t.status.Running? <==> t.expires.Some?)
    && (t.worker.Some? ==> t.worker.value != "")
  }

  ghost predicate LeaseAt(db: Db, minted: Token, id: TaskId) {
    id in db.tasks ==> LeaseShape(db.tasks[id]) && (db.tasks[id].token.Some? ==> db.tasks[id].token.value < minted)
  }

  ghost predicate OwnToken(db: Db, a: TaskId, b: TaskId) {
    a in db.tasks && b in db.tasks && a != b && db.tasks[a].token.Some? ==> db.tasks[a].token != db.tasks[b].token
  }

  ghost predicate Leases(db: Db, minted: Token) {
    && (forall id :: LeaseAt(db, minted, id))
    && (forall a, b :: OwnToken(db, a, b))
  }

  predicate Listed(db: Db, id: TaskId) { id in db.order <==> id in db.tasks }

  ghost predicate Ordered(db: Db) {
    && Distinct(db.order)
    && (forall id :: Listed(db, id))
  }

  predicate StageSucceeded(db: Db, id: TaskId) { id in db.tasks && db.tasks[id].status.Succeeded? }

  /** Stage s+1 of an operator has a row exactly when stage s succeeded; its
      contract is stored exactly when its first stage has a row. */
  ghost predicate PipelineAt(db: Db, r: RunId, k: OperatorKey) {
    var torch, xpu, integration := OpTask(r, k, Torch), OpTask(r, k, Xpu), OpTask(r, k, Integration);
    && (torch in db.tasks <==> (r, k) in db.operators)
    && (xpu in db.tasks <==> StageSucceeded(db, torch))
    && (integration in db.tasks <==> StageSucceeded(db, xpu))
    && ((r, k) in db.operators ==> r in db.runs && db.operators[(r, k)].key == k)
  }

  ghost predicate Pipeline(db: Db) { forall r, k :: PipelineAt(db, r, k) }

  function AttemptOf(db: Db, id: TaskId): nat { if id in db.tasks then db.tasks[id].attempt else 0 }

  /** A diagnosis row in step with the operator row it explains. */
  ghost predicate InStep(d: Task, sourceId: TaskId, source: Task) {
    && d.input.sourceTask == Some(sourceId)
    && d.input.sourceAttempt.Some?
    && var explained := d.input.sourceAttempt.value;
    && 1 <= explained <= source.attempt
    && (source.status.Failed? ==> explained == source.attempt)
    && (source.status.Running? ==> explained < source.attempt)
    && (!source.status.Failed? ==> d.status.Succeeded? && d.output.result.conclusion.action == Some(Retry))
  }

  predicate Numbered(t: Task) { !t.status.Pending? ==> t.attempt >= 1 }

  ghost predicate DiagnosedAt(db: Db, r: RunId, k: OperatorKey, s: Stage) {
    var o, d := OpTask(r, k, s), DiagTask(r, k, s);
    && (o in db.tasks ==> Numbered(db.tasks[o]))
    && (o in db.tasks && db.tasks[o].status.Failed? ==> d in db.tasks)
    && (d in db.tasks ==> o in db.tasks && Numbered(db.tasks[d]) && InStep(db.tasks[d], o, db.tasks[o]))
  }

  ghost predicate Diagnoses(db: Db) { forall r, k, s :: DiagnosedAt(db, r, k, s) }

  /** Real runs: contracts carry the bound fingerprint. */
  ghost predicate EnvironmentAt(db: Db, r: RunId) {
    r in db.runs && db.runs[r].mode.Real? ==>
      && db.runs[r].environmentRequired
      && (forall k :: (r, k) in db.operators ==> db.runs[r].proof.Some? && k.fingerprint == db.runs[r].proof)
  }

  ghost predicate Environments(db: Db) { forall r :: EnvironmentAt(db, r) }

  ghost predicate Application(db: Db, e: Event)
    requires e.DiagnosisApplied?
  {
    && e.task in db.tasks && e.task.DiagTask? && e.appliedTo.Some?
    && var d := db.tasks[e.task];
    && d.input.sourceAttempt.Some? && e.appliedTo.value <= d.input.sourceAttempt.value
    && (e.appliedTo == d.input.sourceAttempt ==>
          && d.status.Succeeded? && e.diagnosisAttempt == d.attempt
          && d.output.result.conclusion.action == Some(e.action)
          && (e.action.Retry? && SourceOf(e.task) in db.tasks
              && db.tasks[SourceOf(e.task)].attempt == e.appliedTo.value ==>
                db.tasks[SourceOf(e.task)].status.Pending?))
  }

  ghost predicate Applications(db: Db) {
    forall e :: e in db.events && e.DiagnosisApplied? ==> Application(db, e)
  }

  /** The log accounts for the row: its attempt counts its claims, it was failed
      once more than it was requeued exactly when it is failed now, and what it
      says about its worker is what the log says. */
  ghost predicate Accounted(db: Db, id: TaskId) {
    var a := AccountOf(db.events, id);
    && a.attempts == OneTo(AttemptOf(db, id))
    && a.failures == a.retries + (if id in db.tasks && db.tasks[id].status.Failed? then 1 else 0)
    && (id.OpTask? ==> a.successes == if id in db.tasks && db.tasks[id].status.Succeeded? then 1 else 0)
    && (id in db.tasks && db.tasks[id].status.Running? ==> db.tasks[id].worker == a.claimant)
    && (id in db.tasks && db.tasks[id].status.Succeeded? ==>
          && a.claimant.Some? && a.claimant.value != ""
          && db.tasks[id].output.submission == Some(Submission(a.claimant.value, db.tasks[id].attempt)))
  }

  ghost predicate Accounts(db: Db) { forall id: TaskId :: Accounted(db, id) }

  ghost predicate Inv(db: Db, minted: Token) {
    && Leases(db, minted) && Ordered(db) && Pipeline(db) && Diagnoses(db)
    && Environments(db) && Applications(db) && Accounts(db)
  }

  datatype Law = LeaseLaw | OrderLaw | PipelineLaw | DiagnosisLaw | EnvironmentLaw | ApplicationLaw | AccountLaw

  ghost predicate Holds(law: Law, db: Db, minted: Token) {
    match law
    case LeaseLaw => Leases(db, minted)
    case OrderLaw => Ordered(db)
    case PipelineLaw => Pipeline(db)
    case DiagnosisLaw => Diagnoses(db)
    case EnvironmentLaw => Environments(db)
    case ApplicationLaw => Applications(db)
    case AccountLaw => Accounts(db)
  }

  /** The invariant stated law by law, for statements about whole runs that pass
      it along without looking inside. */
  ghost predicate Lawful(db: Db, minted: Token) { forall law :: Holds(law, db, minted) }

  lemma LawfulIsInv(db: Db, minted: Token)
    ensures Lawful(db, minted) <==> Inv(db, minted)
  {
    if Lawful(db, minted) {
      assert Holds(LeaseLaw, db, minted) && Holds(OrderLaw, db, minted) && Holds(PipelineLaw, db, minted);
      assert Holds(DiagnosisLaw, db, minted) && Holds(EnvironmentLaw, db, minted);
      assert Holds(ApplicationLaw, db, minted) && Holds(AccountLaw, db, minted);
    }
  }

  // ---- preservation, one row update at a time ----

  lemma EmptyInv()
    ensures Inv(EMPTY_DB, 0)
  {
  }

  lemma MintedGrows(db: Db, minted: Token, more: Token)
    requires Leases(db, minted) && minted <= more
    ensures Leases(db, more)
  {
    forall id ensures LeaseAt(db, more, id) { assert LeaseAt(db, minted, id); }
  }

  lemma SameOrder(db: Db, db': Db)
    requires Ordered(db) && db'.order == db.order && db'.tasks.Keys == db.tasks.Keys
    ensures Ordered(db')
  {
    forall x ensures Listed(db', x) { assert Listed(db, x); }
  }

  lemma InvGrows(db: Db, minted: Token, more: Token)
    requires Inv(db, minted) && minted <= more
    ensures Inv(db, more)
  {
    MintedGrows(db, minted, more);
  }

  predicate Neutral(e: Event) {
    !e.TaskClaimed? && !e.TaskFailed? && !e.TaskSucceeded? && !e.DiagnosisApplied?
  }

  lemma EmitNeutralLog(db: Db, e: Event)
    requires Accounts(db) && Applications(db) && Neutral(e)
    ensures Accounts(Emit(db, e)) && Applications(Emit(db, e))
  {
    var db' := Emit(db, e);
    Append(db.events, e);
    forall id: TaskId ensures Accounted(db', id) { assert Accounted(db, id); }
    forall x | x in db'.events && x.DiagnosisApplied? ensures Application(db', x) {
      assert x in db.events;
      assert Application(db, x);
    }
  }

  /** A log entry leaves everything the invariant says about rows. */
  lemma EmitKeepsRows(db: Db, minted: Token, e: Event)
    requires Inv(db, minted)
    ensures var db' := Emit(db, e);
            Leases(db', minted) && Ordered(db') && Pipeline(db') && Diagnoses(db') && Environments(db')
  {
    var db' := Emit(db, e);
    SameOrder(db, db');
    forall id ensures LeaseAt(db', minted, id) { assert LeaseAt(db, minted, id); }
    forall a, b ensures OwnToken(db', a, b) { assert OwnToken(db, a, b); }
    forall r, k ensures PipelineAt(db', r, k) { assert PipelineAt(db, r, k); }
    forall r, k, s ensures DiagnosedAt(db', r, k, s) { assert DiagnosedAt(db, r, k, s); }
    forall r ensures EnvironmentAt(db', r) { assert EnvironmentAt(db, r); }
  }

  lemma EmitNeutral(db: Db, minted: Token, e: Event)
    requires Inv(db, minted) && Neutral(e)
    ensures Inv(Emit(db, e), minted)
  {
    EmitKeepsRows(db, minted, e);
    EmitNeutralLog(db, e);
  }

  /** A run row may change as long as a real run with contracts keeps its proof. */
  lemma PutRunKeeps(db: Db, minted: Token, r: RunId, run: Run)
    requires Inv(db, minted)
    requires r in db.runs ==> run.mode == db.runs[r].mode
    requires run.mode.Real? ==> run.environmentRequired
    requires r in db.runs && run.proof != db.runs[r].proof ==> db.runs[r].proof.None? || !HasTasks(db, r)
    requires r in db.runs && db.runs[r].proof.Some? ==> run.proof.Some?
    ensures Inv(PutRun(db, r, run), minted)
  {
    var db' := PutRun(db, r, run);
    SameOrder(db, db');
    forall id ensures LeaseAt(db', minted, id) { assert LeaseAt(db, minted, id); }
    forall a, b ensures OwnToken(db', a, b) { assert OwnToken(db, a, b); }
    forall r, k ensures PipelineAt(db', r, k) { assert PipelineAt(db, r, k); }
    forall r, k, s ensures DiagnosedAt(db', r, k, s) { assert DiagnosedAt(db, r, k, s); }
    forall s ensures EnvironmentAt(db', s) {
      assert EnvironmentAt(db, s);
      forall k | (s, k) in db.operators ensures OpTask(s, k, Torch) in db.tasks && s in db.runs {
        assert PipelineAt(db, s, k);
      }
    }
    forall id: TaskId ensures Accounted(db', id) { assert Accounted(db, id); }
    forall x | x in db'.events && x.DiagnosisApplied? ensures Application(db', x) {
      assert Application(db, x);
    }
  }

  /** Row updates that touch only leases: a lease may end, returning the row to the queue. */
  predicate Relaxed(before: Task, after: Task) {
    && after.attempt == before.attempt && after.input == before.input && after.output == before.output
    && (after.status == before.status || (before.status.Running? && after.status.Pending?))
    && (after.worker == before.worker || after.worker.None?)
  }

  ghost predicate RelaxedRows(db: Db, db': Db) {
    && db' == db.(tasks := db'.tasks)
    && db'.tasks.Keys == db.tasks.Keys
    && forall id :: id in db.tasks ==> Relaxed(db.tasks[id], db'.tasks[id])
  }

  lemma RelaxedKeeps(db: Db, db': Db, minted: Token)
    requires Inv(db, minted) && RelaxedRows(db, db') && Leases(db', minted)
    ensures Inv(db', minted)
  {
    SameOrder(db, db');
    forall r, k ensures PipelineAt(db', r, k) { assert PipelineAt(db, r, k); }
    forall r, k, s ensures DiagnosedAt(db', r, k, s) { assert DiagnosedAt(db, r, k, s); }
    forall r ensures EnvironmentAt(db', r) { assert EnvironmentAt(db, r); }
    forall id: TaskId ensures Accounted(db', id) {
      assert Accounted(db, id);
      assert LeaseAt(db, minted, id) && LeaseAt(db', minted, id);
    }
    forall x | x in db'.events && x.DiagnosisApplied? ensures Application(db', x) {
      assert Application(db, x);
    }
  }

  lemma ReleasedKeeps(db: Db, minted: Token, now: Time, force: bool)
    requires Inv(db, minted)
    ensures Inv(Released(db, now, force), minted)
  {
    var db' := Released(db, now, force);
    forall id ensures LeaseAt(db', minted, id) { assert LeaseAt(db, minted, id); }
    forall a, b ensures OwnToken(db', a, b) { assert OwnToken(db, a, b); }
    RelaxedKeeps(db, db', minted);
  }

  lemma RenewKeeps(db: Db, minted: Token, id: TaskId, expires: Time)
    requires Inv(db, minted) && id in db.tasks && db.tasks[id].status.Running?
    ensures Inv(Put(db, id, db.tasks[id].(expires := Some(expires))), minted)
  {
    var db' := Put(db, id, db.tasks[id].(expires := Some(expires)));
    forall x ensures LeaseAt(db', minted, x) { assert LeaseAt(db, minted, x); }
    forall a, b ensures OwnToken(db', a, b) { assert OwnToken(db, a, b); }
    RelaxedKeeps(db, db', minted);
  }

  /** A new pending row: its first attempt is still to come. */
  lemma InsertLeases(db: Db, minted: Token, id: TaskId, input: Input)
    requires Leases(db, minted) && Ordered(db) && id !in db.tasks
    ensures Leases(Insert(db, id, NewTask(input)), minted) && Ordered(Insert(db, id, NewTask(input)))
  {
    var db' := Insert(db, id, NewTask(input));
    forall x ensures Listed(db', x) { assert Listed(db, x); }
    assert Listed(db, id);
    forall x ensures LeaseAt(db', minted, x) { assert LeaseAt(db, minted, x); }
    forall a, b ensures OwnToken(db', a, b) { assert OwnToken(db, a, b); }
  }

  lemma DiscoverKeeps(db: Db, minted: Token, r: RunId, spec: OperatorSpec)
    requires Inv(db, minted) && DiscoverOperator(db, r, spec).Ok?
    ensures Inv(DiscoverOperator(db, r, spec).value, minted)
  {
    var k := spec.key;
    var id := OpTask(r, k, Torch);
    assert PipelineAt(db, r, k);
    if id !in db.tasks {
      var stored := db.(operators := db.operators[(r, k) := spec]);
      var db1 := Insert(stored, id, NewTask(PLAIN_INPUT));
      InsertLeases(stored, minted, id, PLAIN_INPUT) by {
        SameOrder(db, stored);
        forall x ensures LeaseAt(stored, minted, x) { assert LeaseAt(db, minted, x); }
        forall a, b ensures OwnToken(stored, a, b) { assert OwnToken(db, a, b); }
      }
      forall s, l ensures PipelineAt(db1, s, l) { assert PipelineAt(db, s, l); }
      forall s, l, g ensures DiagnosedAt(db1, s, l, g) { assert DiagnosedAt(db, s, l, g); }
      forall s ensures EnvironmentAt(db1, s) { assert EnvironmentAt(db, s); }
      forall x: TaskId ensures Accounted(db1, x) { assert Accounted(db, x); }
      forall x | x in db1.events && x.DiagnosisApplied? ensures Application(db1, x) {
        assert Application(db, x);
      }
      EmitNeutral(db1, minted, OperatorDiscovered(r, k, true));
      EmitNeutral(Emit(db1, OperatorDiscovered(r, k, true)), minted, TaskCreated(id));
    } else {
      assert DiscoverOperator(db, r, spec).value == db;
    }
  }

  lemma ClaimRowLeases(db: Db, minted: Token, id: TaskId, worker: Worker, expires: Time, dirs: Allocations)
    requires Leases(db, minted) && id in db.tasks && worker != ""
    ensures Leases(ClaimRow(db, id, worker, minted, expires, dirs), minted + 1)
  {
    var db' := ClaimRow(db, id, worker, minted, expires, dirs);
    var next := minted + 1;
    forall x ensures LeaseAt(db', next, x) { assert LeaseAt(db, minted, x); }
    forall a, b ensures OwnToken(db', a, b) {
      assert OwnToken(db, a, b) && LeaseAt(db, minted, a) && LeaseAt(db, minted, b);
    }
  }

  lemma ClaimRowAccounts(db: Db, minted: Token, id: TaskId, worker: Worker, expires: Time, dirs: Allocations)
    requires Inv(db, minted) && id in db.tasks && db.tasks[id].status.Pending? && worker != ""
    ensures Accounts(ClaimRow(db, id, worker, minted, expires, dirs))
  {
    var db' := ClaimRow(db, id, worker, minted, expires, dirs);
    Append(db.events, TaskClaimed(id, worker, db.tasks[id].attempt + 1));
    OneToGrows(db.tasks[id].attempt);
    forall x: TaskId ensures Accounted(db', x) { assert Accounted(db, x); }
  }

  lemma ClaimRowKeeps(db: Db, minted: Token, id: TaskId, worker: Worker, expires: Time, dirs: Allocations)
    requires Inv(db, minted) && id in db.tasks && db.tasks[id].status.Pending? && worker != ""
    ensures Inv(ClaimRow(db, id, worker, minted, expires, dirs), minted + 1)
  {
    var db' := ClaimRow(db, id, worker, minted, expires, dirs);
    SameOrder(db, db');
    ClaimRowLeases(db, minted, id, worker, expires, dirs);
    ClaimRowAccounts(db, minted, id, worker, expires, dirs);
    assert DiagnosedAt(db, id.run, id.key, id.stage);
    forall r, k ensures PipelineAt(db', r, k) { assert PipelineAt(db, r, k); }
    forall r, k, s ensures DiagnosedAt(db', r, k, s) { assert DiagnosedAt(db, r, k, s); }
    forall r ensures EnvironmentAt(db', r) { assert EnvironmentAt(db, r); }
    forall x | x in db'.events && x.DiagnosisApplied? ensures Application(db', x) {
      assert x in db.events;
      assert Application(db, x);
      assert DiagnosedAt(db, x.task.run, x.task.key, x.task.stage);
    }
  }

  lemma ClaimRowLawful(db: Db, minted: Token, id: TaskId, worker: Worker, expires: Time, dirs: Allocations)
    requires Lawful(db, minted) && id in db.tasks && db.tasks[id].status.Pending? && worker != ""
    ensures Lawful(ClaimRow(db, id, worker, minted, expires, dirs), minted + 1)
  {
    LawfulIsInv(db, minted);
    ClaimRowKeeps(db, minted, id, worker, expires, dirs);
    LawfulIsInv(ClaimRow(db, id, worker, minted, expires, dirs), minted + 1);
  }

  /** Ending a lease on the way to a terminal status. */
  lemma EndLease(db: Db, minted: Token, id: TaskId, after: Task)
    requires Leases(db, minted) && Ordered(db) && id in db.tasks
    requires !after.status.Running? && after.token.None? && after.worker.None? && after.expires.None?
    ensures Leases(Put(db, id, after), minted) && Ordered(Put(db, id, after))
  {
    var db' := Put(db, id, after);
    SameOrder(db, db');
    forall x ensures LeaseAt(db', minted, x) { assert LeaseAt(db, minted, x); }
    forall a, b ensures OwnToken(db', a, b) { assert OwnToken(db, a, b); }
  }

  lemma SucceedRowLeases(db: Db, minted: Token, id: TaskId, result: WorkResult)
    requires Leases(db, minted) && Ordered(db) && id in db.tasks && db.tasks[id].worker.Some?
    ensures Leases(SucceedRow(db, id, result), minted) && Ordered(SucceedRow(db, id, result))
  {
    var task := db.tasks[id];
    var submission := Submission(task.worker.value, task.attempt);
    var after := Unleased(task, Succeeded).(output := Output(result, Some(submission), false));
    EndLease(db, minted, id, after);
    var done := Emit(Put(db, id, after), TaskSucceeded(id));
    assert Leases(done, minted) && Ordered(done) by { LeasesOfRows(Put(db, id, after), done, minted); }
    if id.OpTask? && !id.stage.Integration? && Next(id) !in done.tasks {
      InsertLeases(done, minted, Next(id), PLAIN_INPUT);
      LeasesOfRows(Insert(done, Next(id), NewTask(PLAIN_INPUT)), SucceedRow(db, id, result), minted);
    } else {
      LeasesOfRows(done, SucceedRow(db, id, result), minted);
    }
  }

  lemma LeasesOfRows(db: Db, db': Db, minted: Token)
    requires db.tasks == db'.tasks && db.order == db'.order && Leases(db, minted) && Ordered(db)
    ensures Leases(db', minted) && Ordered(db')
  {
    SameOrder(db, db');
    forall x ensures LeaseAt(db', minted, x) { assert LeaseAt(db, minted, x); }
    forall a, b ensures OwnToken(db', a, b) { assert OwnToken(db, a, b); }
  }

  function SucceededTask(task: Task, result: WorkResult): Task
    requires task.worker.Some?
  {
    Unleased(task, Succeeded).(output := Output(result, Some(Submission(task.worker.value, task.attempt)), false))
  }

  /** Success marks the row and, before the last stage, opens the next one. */
  lemma SucceedRowEffect(db: Db, minted: Token, id: TaskId, result: WorkResult)
    requires Inv(db, minted) && id in db.tasks && db.tasks[id].status.Running? && db.tasks[id].worker.Some?
    ensures var db' := SucceedRow(db, id, result);
            var marked := db.tasks[id := SucceededTask(db.tasks[id], result)];
            && (Advances(id) ==> Next(id) !in db.tasks)
            && db'.tasks == (if Advances(id) then marked[Next(id) := NewTask(PLAIN_INPUT)] else marked)
            && db'.runs == db.runs && db'.operators == db.operators
            && (forall x: TaskId :: AccountOf(db'.events, x) == Posted(AccountOf(db.events, x), TaskSucceeded(id), x))
            && (forall e :: e in db'.events && e.DiagnosisApplied? ==> e in db.events)
  {
    assert PipelineAt(db, id.run, id.key);
    Append(db.events, TaskSucceeded(id));
    var mid := db.events + [TaskSucceeded(id)];
    if id.DiagTask? {
      Append(mid, DiagnosticCompleted(id));
    } else if Advances(id) {
      Append(mid, TaskCreated(Next(id)));
    }
  }

  lemma AccountAfterSuccess(db: Db, db': Db, id: TaskId, result: WorkResult, x: TaskId)
    requires id in db.tasks && db.tasks[id].status.Running? && LeaseShape(db.tasks[id]) && Accounted(db, x)
    requires x in db.tasks ==>
              x in db'.tasks && db'.tasks[x] == if x == id then SucceededTask(db.tasks[id], result) else db.tasks[x]
    requires x in db'.tasks && x !in db.tasks ==> db'.tasks[x] == NewTask(PLAIN_INPUT)
    requires AccountOf(db'.events, x) == Posted(AccountOf(db.events, x), TaskSucceeded(id), x)
    ensures Accounted(db', x)
  {
  }

  lemma SucceedRowAccounts(db: Db, minted: Token, id: TaskId, result: WorkResult)
    requires Inv(db, minted) && id in db.tasks && db.tasks[id].status.Running? && db.tasks[id].worker.Some?
    ensures Accounts(SucceedRow(db, id, result))
  {
    var db' := SucceedRow(db, id, result);
    SucceedRowEffect(db, minted, id, result);
    assert LeaseAt(db, minted, id);
    forall x: TaskId ensures Accounted(db', x) {
      assert Accounted(db, x);
      AccountAfterSuccess(db, db', id, result, x);
    }
  }

  lemma SucceedRowApplications(db: Db, minted: Token, id: TaskId, result: WorkResult)
    requires Inv(db, minted) && id in db.tasks && db.tasks[id].status.Running? && db.tasks[id].worker.Some?
    ensures Applications(SucceedRow(db, id, result))
  {
    var db' := SucceedRow(db, id, result);
    SucceedRowEffect(db, minted, id, result);
    assert DiagnosedAt(db, id.run, id.key, id.stage);
    forall x | x in db'.events && x.DiagnosisApplied? ensures Application(db', x) {
      assert Application(db, x);
      assert DiagnosedAt(db, x.task.run, x.task.key, x.task.stage);
    }
  }

  lemma SucceedRowKeeps(db: Db, minted: Token, id: TaskId, result: WorkResult)
    requires Inv(db, minted) && id in db.tasks && db.tasks[id].status.Running? && db.tasks[id].worker.Some?
    ensures Inv(SucceedRow(db, id, result), minted)
  {
    var db' := SucceedRow(db, id, result);
    SucceedRowLeases(db, minted, id, result);
    SucceedRowAccounts(db, minted, id, result);
    SucceedRowApplications(db, minted, id, result);
    SucceedRowEffect(db, minted, id, result);
    assert PipelineAt(db, id.run, id.key) && DiagnosedAt(db, id.run, id.key, id.stage);
    forall r, k ensures PipelineAt(db', r, k) { assert PipelineAt(db, r, k); }
    forall r, k, s ensures DiagnosedAt(db', r, k, s) { assert DiagnosedAt(db, r, k, s); }
    forall r ensures EnvironmentAt(db', r) { assert EnvironmentAt(db, r); }
  }

  // ---- failure ----

  function FailedTask(task: Task): Task { Unleased(task, Failed).(output := ERROR_OUTPUT) }

  function FreshDiagnosis(db: Db, id: TaskId): Task
    requires id in db.tasks
  {
    var input := DiagnosisInput(id, db.tasks[id].attempt);
    if DiagnosisOf(id) in db.tasks then
      db.tasks[DiagnosisOf(id)].(status := Pending, input := input, output := EMPTY_OUTPUT)
    else NewTask(input)
  }

  /** The reopen test never skips: a failing operator row always leaves behind a
      pending diagnosis of exactly this attempt, and one that is reopened had
      succeeded. */
  lemma FailRowRows(db: Db, minted: Token, id: TaskId)
    requires Inv(db, minted) && id in db.tasks && db.tasks[id].status.Running?
    ensures var db' := FailRow(db, id);
            var marked := db.tasks[id := FailedTask(db.tasks[id])];
            && db'.tasks == (if id.OpTask? then marked[DiagnosisOf(id) := FreshDiagnosis(db, id)] else marked)
            && db'.runs == db.runs && db'.operators == db.operators
    ensures id.OpTask? && DiagnosisOf(id) in db.tasks ==> db.tasks[DiagnosisOf(id)].status.Succeeded?
  {
    assert DiagnosedAt(db, id.run, id.key, id.stage);
    if id.OpTask? { assert LeaseAt(db, minted, DiagnosisOf(id)); }
  }

  lemma DiagnosisLog(db: Db, id: TaskId, attempt: nat)
    ensures var events := EnsureDiagnosis(db, id, attempt).events;
            && (forall x: TaskId :: AccountOf(events, x) == AccountOf(db.events, x))
            && (forall e :: e in events && e.DiagnosisApplied? ==> e in db.events)
  {
    var events := EnsureDiagnosis(db, id, attempt).events;
    if events != db.events {
      var e := events[|events| - 1];
      assert events == db.events + [e];
      Append(db.events, e);
    }
  }

  lemma FailRowLog(db: Db, id: TaskId)
    requires id in db.tasks
    ensures var db' := FailRow(db, id);
            && (forall x: TaskId :: AccountOf(db'.events, x) == Posted(AccountOf(db.events, x), TaskFailed(id), x))
            && (forall e :: e in db'.events && e.DiagnosisApplied? ==> e in db.events)
  {
    var failed := Put(db, id, FailedTask(db.tasks[id]));
    var diagnosed := if id.OpTask? then EnsureDiagnosis(failed, id, db.tasks[id].attempt) else failed;
    DiagnosisLog(failed, id, db.tasks[id].attempt);
    Append(diagnosed.events, TaskFailed(id));
  }

  lemma FailRowEffect(db: Db, minted: Token, id: TaskId)
    requires Inv(db, minted) && id in db.tasks && db.tasks[id].status.Running?
    ensures var db' := FailRow(db, id);
            var marked := db.tasks[id := FailedTask(db.tasks[id])];
            && db'.tasks == (if id.OpTask? then marked[DiagnosisOf(id) := FreshDiagnosis(db, id)] else marked)
            && db'.runs == db.runs && db'.operators == db.operators
            && (forall x: TaskId :: AccountOf(db'.events, x) == Posted(AccountOf(db.events, x), TaskFailed(id), x))
            && (forall e :: e in db'.events && e.DiagnosisApplied? ==> e in db.events)
    ensures id.OpTask? && DiagnosisOf(id) in db.tasks ==> db.tasks[DiagnosisOf(id)].status.Succeeded?
  {
    FailRowRows(db, minted, id);
    FailRowLog(db, id);
  }

  lemma FailRowLeases(db: Db, minted: Token, id: TaskId)
    requires Inv(db, minted) && id in db.tasks && db.tasks[id].status.Running?
    ensures Leases(FailRow(db, id), minted) && Ordered(FailRow(db, id))
  {
    EndLease(db, minted, id, FailedTask(db.tasks[id]));
    var marked := Put(db, id, FailedTask(db.tasks[id]));
    FailRowEffect(db, minted, id);
    if id.OpTask? {
      var d := DiagnosisOf(id);
      var reopened := FreshDiagnosis(db, id);
      if d in db.tasks {
        assert LeaseAt(db, minted, d);
        EndLease(marked, minted, d, reopened);
        LeasesOfRows(Put(marked, d, reopened), FailRow(db, id), minted);
      } else {
        InsertLeases(marked, minted, d, DiagnosisInput(id, db.tasks[id].attempt));
        LeasesOfRows(Insert(marked, d, reopened), FailRow(db, id), minted);
      }
    } else {
      LeasesOfRows(marked, FailRow(db, id), minted);
    }
  }

  lemma AccountAfterFailure(db: Db, db': Db, id: TaskId, x: TaskId)
    requires id in db.tasks && db.tasks[id].status.Running? && Accounted(db, x)
    requires x == id ==> id in db'.tasks && db'.tasks[id] == FailedTask(db.tasks[id])
    requires x != id && x in db.tasks ==>
               x in db'.tasks && (db'.tasks[x] == db.tasks[x]
                 || (x.DiagTask? && db.tasks[x].status.Succeeded? && db'.tasks[x].status.Pending?
                     && db'.tasks[x].attempt == db.tasks[x].attempt))
    requires x in db'.tasks && x !in db.tasks ==> db'.tasks[x] == NewTask(db'.tasks[x].input)
    requires AccountOf(db'.events, x) == Posted(AccountOf(db.events, x), TaskFailed(id), x)
    ensures Accounted(db', x)
  {
  }

  lemma FailRowAccounts(db: Db, minted: Token, id: TaskId)
    requires Inv(db, minted) && id in db.tasks && db.tasks[id].status.Running?
    ensures Accounts(FailRow(db, id))
  {
    var db' := FailRow(db, id);
    FailRowEffect(db, minted, id);
    forall x: TaskId ensures Accounted(db', x) {
      assert Accounted(db, x);
      AccountAfterFailure(db, db', id, x);
    }
  }

  lemma FailRowApplications(db: Db, minted: Token, id: TaskId)
    requires Inv(db, minted) && id in db.tasks && db.tasks[id].status.Running?
    ensures Applications(FailRow(db, id))
  {
    var db' := FailRow(db, id);
    FailRowEffect(db, minted, id);
    assert DiagnosedAt(db, id.run, id.key, id.stage);
    forall x | x in db'.events && x.DiagnosisApplied? ensures Application(db', x) {
      assert Application(db, x);
      assert DiagnosedAt(db, x.task.run, x.task.key, x.task.stage);
    }
  }

  lemma FailRowKeeps(db: Db, minted: Token, id: TaskId)
    requires Inv(db, minted) && id in db.tasks && db.tasks[id].status.Running?
    ensures Inv(FailRow(db, id), minted)
  {
    var db' := FailRow(db, id);
    FailRowEffect(db, minted, id);
    FailRowLeases(db, minted, id);
    FailRowAccounts(db, minted, id);
    FailRowApplications(db, minted, id);
    assert PipelineAt(db, id.run, id.key) && DiagnosedAt(db, id.run, id.key, id.stage);
    forall r, k ensures PipelineAt(db', r, k) { assert PipelineAt(db, r, k); }
    forall r, k, s ensures DiagnosedAt(db', r, k, s) { assert DiagnosedAt(db, r, k, s); }
    forall r ensures EnvironmentAt(db', r) { assert EnvironmentAt(db, r); }
  }

  // ---- applying a diagnosis ----

  /** A failed row's current RETRY conclusion has never been applied before. */
  lemma RetryStillOpen(db: Db, minted: Token, d: TaskId)
    requires Inv(db, minted) && d in db.tasks && d.DiagTask? && db.tasks[d].status.Succeeded?
    requires db.tasks[d].output.result.conclusion.action == Some(Retry)
    requires SourceOf(d) in db.tasks && db.tasks[SourceOf(d)].status.Failed?
    ensures !AlreadyApplied(db, d)
  {
    assert DiagnosedAt(db, d.run, d.key, d.stage);
    forall e | e in db.events && e.DiagnosisApplied? && e.task == d
      ensures e.appliedTo != db.tasks[d].input.sourceAttempt
    {
      assert Application(db, e);
    }
  }

  lemma BlockedLog(db: Db, minted: Token, d: TaskId)
    requires Inv(db, minted) && d in db.tasks && d.DiagTask? && db.tasks[d].status.Succeeded?
    requires db.tasks[d].output.result.conclusion.action == Some(Blocked)
    ensures var db' := Emit(db, ApplicationEvent(db, d, SourceOf(d), Blocked));
            Accounts(db') && Applications(db')
  {
    var e := ApplicationEvent(db, d, SourceOf(d), Blocked);
    var db' := Emit(db, e);
    assert DiagnosedAt(db, d.run, d.key, d.stage);
    Append(db.events, e);
    forall x: TaskId ensures Accounted(db', x) { assert Accounted(db, x); }
    forall x | x in db'.events && x.DiagnosisApplied? ensures Application(db', x) {
      if x in db.events { assert Application(db, x); }
    }
  }

  lemma BlockedKeeps(db: Db, minted: Token, d: TaskId)
    requires Inv(db, minted) && d in db.tasks && d.DiagTask? && db.tasks[d].status.Succeeded?
    requires db.tasks[d].output.result.conclusion.action == Some(Blocked)
    ensures Inv(Emit(db, ApplicationEvent(db, d, SourceOf(d), Blocked)), minted)
  {
    EmitKeepsRows(db, minted, ApplicationEvent(db, d, SourceOf(d), Blocked));
    BlockedLog(db, minted, d);
  }

  function Requeued(task: Task): Task { Unleased(task, Pending).(output := EMPTY_OUTPUT) }

  /** The requeued source, and the log entry that consumes the conclusion. */
  function RetryRow(db: Db, d: TaskId): Db
    requires d in db.tasks && SourceOf(d) in db.tasks
  {
    Emit(Put(db, SourceOf(d), Requeued(db.tasks[SourceOf(d)])), ApplicationEvent(db, d, SourceOf(d), Retry))
  }

  lemma RetryApplications(db: Db, minted: Token, d: TaskId)
    requires Inv(db, minted) && d in db.tasks && d.DiagTask? && db.tasks[d].status.Succeeded?
    requires db.tasks[d].output.result.conclusion.action == Some(Retry)
    requires SourceOf(d) in db.tasks && db.tasks[SourceOf(d)].status.Failed?
    ensures Applications(RetryRow(db, d))
  {
    var db' := RetryRow(db, d);
    assert DiagnosedAt(db, d.run, d.key, d.stage);
    forall x | x in db'.events && x.DiagnosisApplied? ensures Application(db', x) {
      if x in db.events {
        assert Application(db, x);
        assert DiagnosedAt(db, x.task.run, x.task.key, x.task.stage);
      }
    }
  }

  lemma RetryAccounts(db: Db, minted: Token, d: TaskId)
    requires Inv(db, minted) && d in db.tasks && d.DiagTask?
    requires SourceOf(d) in db.tasks && db.tasks[SourceOf(d)].status.Failed?
    ensures Accounts(RetryRow(db, d))
  {
    var db' := RetryRow(db, d);
    var e := ApplicationEvent(db, d, SourceOf(d), Retry);
    Append(db.events, e);
    forall x: TaskId ensures Accounted(db', x) {
      var before, after := AccountOf(db.events, x), AccountOf(db'.events, x);
      assert after == if x == SourceOf(d) then before.(retries := before.retries + 1) else before;
      assert Accounted(db, x);
    }
  }

  lemma RetryKeeps(db: Db, minted: Token, d: TaskId)
    requires Inv(db, minted) && d in db.tasks && d.DiagTask? && db.tasks[d].status.Succeeded?
    requires db.tasks[d].output.result.conclusion.action == Some(Retry)
    requires SourceOf(d) in db.tasks && db.tasks[SourceOf(d)].status.Failed?
    ensures Inv(RetryRow(db, d), minted)
  {
    var source := SourceOf(d);
    var db' := RetryRow(db, d);
    EndLease(db, minted, source, Requeued(db.tasks[source]));
    LeasesOfRows(Put(db, source, Requeued(db.tasks[source])), db', minted);
    RetryApplications(db, minted, d);
    RetryAccounts(db, minted, d);
    assert PipelineAt(db, d.run, d.key) && DiagnosedAt(db, d.run, d.key, d.stage);
    forall r, k ensures PipelineAt(db', r, k) { assert PipelineAt(db, r, k); }
    forall r, k, s ensures DiagnosedAt(db', r, k, s) { assert DiagnosedAt(db, r, k, s); }
    forall r ensures EnvironmentAt(db', r) { assert EnvironmentAt(db, r); }
  }

  /** Of the source's checks on the source task only the action and the failed
      status can ever refuse: the others are implied by the invariant. */
  lemma ApplyOutcome(db: Db, minted: Token, d: TaskId)
    requires Inv(db, minted) && d in db.tasks && d.DiagTask? && db.tasks[d].status.Succeeded?
    ensures SourceOf(d) in db.tasks
    ensures var action := db.tasks[d].output.result.conclusion.action;
            ApplyDiagnosis(db, d) ==
              if action != Some(Retry) && action != Some(Blocked) then Err(ExternalRepairRequired)
              else if AlreadyApplied(db, d) then Ok(db)
              else if action == Some(Blocked) then Ok(Emit(db, ApplicationEvent(db, d, SourceOf(d), Blocked)))
              else if db.tasks[SourceOf(d)].status.Failed? then Ok(RetryRow(db, d))
              else Err(RetryNeedsFailedSource)
  {
    assert DiagnosedAt(db, d.run, d.key, d.stage);
  }

  lemma ApplyKeeps(db: Db, minted: Token, d: TaskId)
    requires Inv(db, minted) && ApplyDiagnosis(db, d).Ok?
    ensures Inv(ApplyDiagnosis(db, d).value, minted)
  {
    ApplyOutcome(db, minted, d);
    var action := db.tasks[d].output.result.conclusion.action;
    if !AlreadyApplied(db, d) {
      if action == Some(Blocked) {
        BlockedKeeps(db, minted, d);
      } else {
        RetryKeeps(db, minted, d);
      }
    }
  }

  // ---- reconciliation finds nothing to repair ----

  lemma NothingLacking(db: Db, minted: Token, id: TaskId)
    requires Inv(db, minted)
    ensures !LacksDiagnosis(db, id) && !LacksSuccessor(db, id)
  {
    assert PipelineAt(db, id.run, id.key) && DiagnosedAt(db, id.run, id.key, id.stage);
  }

  lemma {:induction false} NothingRepaired(db: Db, minted: Token, r: RunId, ids: seq<TaskId>, files: Files)
    requires Inv(db, minted) && r in db.runs && forall id :: id in ids ==> id in db.tasks
    ensures RepairAll(db, r, ids, files) == Repair(db, [], [])
  {
    if ids != [] {
      NothingRepaired(db, minted, r, ids[..|ids| - 1], files);
      NothingLacking(db, minted, ids[|ids| - 1]);
    }
  }

  /** On every reachable database reconcile is a no-op apart from its report event. */
  lemma ReconcileIsNoOp(db: Db, minted: Token, r: RunId, files: Files)
    requires Inv(db, minted) && r in db.runs
    ensures Reconcile(db, r, files) == Ok(Repair(Emit(db, RunReconciled(r, [], [])), [], []))
  {
    forall id | id in RunRows(db, r) ensures !LacksSuccessor(db, id) { NothingLacking(db, minted, id); }
    NothingRepaired(db, minted, r, RunRows(db, r), files);
  }
}
