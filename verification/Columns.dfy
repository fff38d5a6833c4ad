/** What each public operation does, column by column.  Nothing here is defined through
    the functions that describe the operations: only through the columns of the rows. */
module Columns {
  import opened Base
  import opened SchedulerState
  import opened Transitions
  import opened Tally
  import opened Invariants
  import opened Runs
  import opened Evolution
  import opened Recoverability
  import opened Acceptance

  // ---- the vocabulary ----

  predicate NoLease(t: Task) { t.token == None && t.worker == None && t.expires == None }

  /** The row answers to this credential at `now`. */
  predicate Bears(t: Task, now: Time, c: Credential) {
    && t.status == Running && t.expires.Some? && now < t.expires.value
    && match c
       case Presented(worker, token) => t.token == Some(token) && (worker == None || t.worker == worker)
       case TokenOnly(token) => t.token == Some(token)
       case WorkerOnly(_) => false
  }

  /** Only status and lease changed: the row is back in its queue. */
  predicate BackInQueue(t: Task, t': Task) {
    t'.status == Pending && NoLease(t') && t'.attempt == t.attempt && t'.input == t.input && t'.output == t.output
  }

  /** A row nobody has worked on yet. */
  predicate Blank(t: Task) {
    && t.status == Pending && NoLease(t) && t.attempt == 0
    && t.output.result == EMPTY_RESULT && t.output.submission == None && !t.output.error
  }

  predicate SucceededFrom(t: Task, t': Task, result: WorkResult) {
    && t'.status == Succeeded && NoLease(t') && t'.attempt == t.attempt && t'.input == t.input
    && t'.output.result == result && !t'.output.error
    && t.worker.Some? && t'.output.submission == Some(Submission(t.worker.value, t.attempt))
  }

  predicate FailedFrom(t: Task, t': Task) {
    && t'.status == Failed && NoLease(t') && t'.attempt == t.attempt && t'.input == t.input
    && t'.output.result == EMPTY_RESULT && t'.output.submission == None && t'.output.error
  }

  predicate SameRow(db: Db, db': Db, id: TaskId) {
    (id in db.tasks <==> id in db'.tasks) && (id in db.tasks ==> db'.tasks[id] == db.tasks[id])
  }

  /** No row outside `ids` changed, none of the other tables did, and `more` was logged. */
  ghost predicate Elsewhere(db: Db, db': Db, ids: set<TaskId>, more: seq<Event>) {
    && (forall x :: x !in ids ==> SameRow(db, db', x))
    && db'.runs == db.runs && db'.operators == db.operators
    && db'.events == db.events + more
  }

  /** The row is new, listed last, and blank. */
  predicate Appears(db: Db, db': Db, id: TaskId, input: Input) {
    && id !in db.tasks && id in db'.tasks && Blank(db'.tasks[id]) && db'.tasks[id].input == input
    && db'.order == db.order + [id]
  }

  // ---- recovering ----

  /** `recover` returns exactly the running rows whose lease ran out, or all of them if
      forced; no other column of any row changes. */
  lemma RecoverColumns(w: World, m: Move, id: TaskId)
    requires m.step.RecoverStep? && id in w.db.tasks
    ensures var now, t, db' := w.now + m.wait, w.db.tasks[id], After(w, m).db;
            && id in db'.tasks && db'.tasks.Keys == w.db.tasks.Keys && db' == w.db.(tasks := db'.tasks)
            && (t.status == Running && (m.step.force || (t.expires.Some? && t.expires.value <= now)) ==>
                  BackInQueue(t, db'.tasks[id]))
            && (t.status != Running || (!m.step.force && t.expires.Some? && now < t.expires.value) ==>
                  db'.tasks[id] == t)
  {
  }

  // ---- renewing ----

  /** Granted to the holder alone; it moves the expiry and nothing else, and only if the
      token was presented in its own place. */
  lemma RenewColumns(w: World, m: Move)
    requires m.step.RenewStep?
    ensures var now, id, lease, db' := w.now + m.wait, m.step.task, m.step.lease, After(w, m).db;
            if !(lease > 0 && id in w.db.tasks && Bears(w.db.tasks[id], now, m.step.credential)) then db' == w.db
            else
              && Elsewhere(w.db, db', {id}, [LeaseRenewed(id, now + lease)]) && db'.order == w.db.order
              && id in db'.tasks
              && db'.tasks[id] ==
                 if m.step.credential.Presented? then w.db.tasks[id].(expires := Some(now + lease))
                 else w.db.tasks[id]
  {
  }

  // ---- failing ----

  function ExplanationOf(id: TaskId): TaskId { DiagTask(id.run, id.key, id.stage) }

  /** The operator row's one diagnosis row is queued for this very attempt, created if
      there was none and reopened otherwise. */
  predicate DiagnosisQueued(db: Db, db': Db, id: TaskId, attempt: nat) {
    var d := ExplanationOf(id);
    && d in db'.tasks && db'.tasks[d].input == Input(Some(id), Some(attempt), None)
    && (d !in db.tasks ==> Appears(db, db', d, Input(Some(id), Some(attempt), None)))
    && (d in db.tasks ==>
          && db'.order == db.order && db.tasks[d].status == Succeeded
          && Blank(db'.tasks[d].(attempt := 0)) && db'.tasks[d].attempt == db.tasks[d].attempt)
  }

  /** What a failure leaves. */
  ghost predicate FailureLeft(db: Db, db': Db, id: TaskId)
    requires id in db.tasks
  {
    var d, attempt := ExplanationOf(id), db.tasks[id].attempt;
    && id in db'.tasks && FailedFrom(db.tasks[id], db'.tasks[id])
    && (id.DiagTask? ==> Elsewhere(db, db', {id}, [TaskFailed(id)]) && db'.order == db.order)
    && (id.OpTask? ==>
          && DiagnosisQueued(db, db', id, attempt)
          && Elsewhere(db, db', {id, d},
                       [if d in db.tasks then DiagnosisReopened(d, attempt) else DiagnosisCreated(d, attempt),
                        TaskFailed(id)]))
  }

  lemma FailRowColumns(db: Db, minted: Token, id: TaskId)
    requires Inv(db, minted) && id in db.tasks && db.tasks[id].status.Running?
    ensures FailureLeft(db, FailRow(db, id), id)
  {
    FailRowRows(db, minted, id);
    assert DiagnosedAt(db, id.run, id.key, id.stage);
    if id.OpTask? { assert LeaseAt(db, minted, DiagnosisOf(id)); }
  }

  lemma FailColumns(w: World, m: Move)
    requires Sound(w) && m.step.FailStep?
    ensures var now, id, db' := w.now + m.wait, m.step.task, After(w, m).db;
            if !(id in w.db.tasks && Bears(w.db.tasks[id], now, m.step.credential)) then db' == w.db
            else FailureLeft(w.db, db', id)
  {
    assert Inv(w.db, w.minted) by { LawfulIsInv(w.db, w.minted); }
    var now, id := w.now + m.wait, m.step.task;
    if id in w.db.tasks && Bears(w.db.tasks[id], now, m.step.credential) {
      FailRowColumns(w.db, w.minted, id);
    }
  }

  // ---- completing ----

  /** What a success leaves: torch is followed by xpu and xpu by integration. */
  ghost predicate SuccessLeft(db: Db, db': Db, id: TaskId, result: WorkResult)
    requires id in db.tasks
  {
    && id in db'.tasks && SucceededFrom(db.tasks[id], db'.tasks[id], result)
    && match id
       case DiagTask(_, _, _) =>
         Elsewhere(db, db', {id}, [TaskSucceeded(id), DiagnosticCompleted(id)]) && db'.order == db.order
       case OpTask(r, k, Torch) =>
         && Appears(db, db', OpTask(r, k, Xpu), Input(None, None, None))
         && Elsewhere(db, db', {id, OpTask(r, k, Xpu)}, [TaskSucceeded(id), TaskCreated(OpTask(r, k, Xpu))])
       case OpTask(r, k, Xpu) =>
         && Appears(db, db', OpTask(r, k, Integration), Input(None, None, None))
         && Elsewhere(db, db', {id, OpTask(r, k, Integration)},
                      [TaskSucceeded(id), TaskCreated(OpTask(r, k, Integration))])
       case OpTask(_, _, Integration) =>
         Elsewhere(db, db', {id}, [TaskSucceeded(id)]) && db'.order == db.order
  }

  lemma SucceedRowColumns(db: Db, minted: Token, id: TaskId, result: WorkResult)
    requires Inv(db, minted) && id in db.tasks && db.tasks[id].status.Running? && db.tasks[id].worker.Some?
    ensures SuccessLeft(db, SucceedRow(db, id, result), id, result)
  {
    SucceedRowEffect(db, minted, id, result);
    assert PipelineAt(db, id.run, id.key);
  }

  /** What row `id` is completed with by this step. */
  function SubmittedBy(w: World, s: Step): Submitted
    requires s.CompleteStep? && s.task in w.db.tasks && s.task.run in w.db.runs && w.db.tasks[s.task].worker.Some?
  {
    var t := w.db.tasks[s.task];
    Submitted(s.task, t, w.db.runs[s.task.run], s.result, t.worker.value, s.files)
  }

  lemma OwnedCompletion(w: World, now: Time, s: Step)
    requires Sound(w) && s.CompleteStep? && s.task in w.db.tasks && Bears(w.db.tasks[s.task], now, s.credential)
    ensures s.task.run in w.db.runs && w.db.tasks[s.task].worker.Some?
    ensures Complete(w.db, now, s.task, s.credential, s.result, s.files, s.registered) ==
              if Flawless(SubmittedBy(w, s)) && (w.db.tasks[s.task].input.workspace.Some? ==> s.registered)
              then Ok(SucceedRow(w.db, s.task, s.result))
              else Ok(FailRow(w.db, s.task))
  {
    assert LeaseAt(w.db, w.minted, s.task) by { LawfulIsInv(w.db, w.minted); }
    ContractOf(w, s.task);
    AcceptedExactly(SubmittedBy(w, s));
  }

  /** An owned completion succeeds exactly when no objection stands and the artifacts of
      a managed attempt were registered; otherwise it fails the row. */
  lemma CompletionColumns(w: World, m: Move)
    requires Sound(w) && m.step.CompleteStep?
    ensures var now, id, s, db' := w.now + m.wait, m.step.task, m.step, After(w, m).db;
            if !(id in w.db.tasks && Bears(w.db.tasks[id], now, s.credential)) then db' == w.db
            else
              && id.run in w.db.runs && w.db.tasks[id].worker.Some?
              && (if Flawless(SubmittedBy(w, s)) && (w.db.tasks[id].input.workspace.Some? ==> s.registered)
                  then SuccessLeft(w.db, db', id, s.result)
                  else FailureLeft(w.db, db', id))
  {
    var now, id, s := w.now + m.wait, m.step.task, m.step;
    if id in w.db.tasks && Bears(w.db.tasks[id], now, s.credential) {
      OwnedCompletion(w, now, s);
      assert Inv(w.db, w.minted) by { LawfulIsInv(w.db, w.minted); }
      SucceedRowColumns(w.db, w.minted, id, s.result);
      FailRowColumns(w.db, w.minted, id);
    }
  }

  /** In plain words: whatever completes a row passed its review. */
  lemma CompletedMeansPassed(w: World, m: Move, id: TaskId)
    requires Sound(w) && m.step.CompleteStep? && m.step.task == id && id in w.db.tasks
    requires !w.db.tasks[id].status.Succeeded? && StageSucceeded(After(w, m).db, id)
    ensures w.db.tasks[id].worker.Some?
    ensures Passed(id, m.step.result, w.db.tasks[id].worker.value, m.step.files)
  {
    CompletionColumns(w, m);
    FlawlessMeansPassed(SubmittedBy(w, m.step));
  }

  /** And whatever is refused fails its row. */
  lemma UnpassedMeansFailed(w: World, m: Move, id: TaskId)
    requires Sound(w) && m.step.CompleteStep? && m.step.task == id && id in w.db.tasks
    requires Bears(w.db.tasks[id], w.now + m.wait, m.step.credential)
    ensures w.db.tasks[id].worker.Some? && id in After(w, m).db.tasks
    ensures !Passed(id, m.step.result, w.db.tasks[id].worker.value, m.step.files) ==>
              FailedFrom(w.db.tasks[id], After(w, m).db.tasks[id])
  {
    CompletionColumns(w, m);
    if Flawless(SubmittedBy(w, m.step)) { FlawlessMeansPassed(SubmittedBy(w, m.step)); }
  }

  // ---- what can end a live lease ----

  /** The holder of the row acts on it. */
  predicate HolderActs(s: Step, id: TaskId, t: Task, now: Time) {
    match s
    case RenewStep(x, c, lease) => x == id && Bears(t, now, c) && lease > 0
    case CompleteStep(x, c, _, _, _) => x == id && Bears(t, now, c)
    case FailStep(x, c) => x == id && Bears(t, now, c)
    case _ => false
  }

  predicate HeldAt(db: Db, id: TaskId, now: Time) {
    id in db.tasks && db.tasks[id].status == Running && db.tasks[id].expires.Some? && now < db.tasks[id].expires.value
  }

  lemma ClaimPhasesLeaveLive(w: World, w': World, ids: seq<TaskId>, worker: Worker, lease: int, dirs: Allocations,
                             id: TaskId)
    requires ClaimPhases(w, w', ids, worker, lease, dirs) && HeldAt(w.db, id, w'.now)
    ensures SameRow(w.db, w'.db, id)
  {
    assert id !in ids;
    Claiming.ClaimAllFrame(Released(w.db, w'.now, false), ids, worker, w.minted, w'.now + lease, dirs);
  }

  lemma ClaimLeavesLive(w: World, m: Move, id: TaskId)
    requires Sound(w) && m.step.ClaimStep? && HeldAt(w.db, id, w.now + m.wait)
    ensures SameRow(w.db, After(w, m).db, id)
  {
    var s := m.step;
    if ClaimArguments(s.worker, s.lease, s.limit) {
      ClaimStepPhases(w, m);
      ClaimPhasesLeaveLive(w, After(w, m), Chosen(Released(w.db, w.now + m.wait, false), s.queue, s.limit),
                           s.worker, s.lease, s.dirs, id);
    }
  }

  lemma OutcomeLeavesLive(w: World, m: Move, id: TaskId)
    requires Sound(w) && (m.step.RenewStep? || m.step.CompleteStep? || m.step.FailStep?)
    requires HeldAt(w.db, id, w.now + m.wait) && !HolderActs(m.step, id, w.db.tasks[id], w.now + m.wait)
    ensures SameRow(w.db, After(w, m).db, id)
  {
    if m.step.RenewStep? {
      RenewColumns(w, m);
    } else if m.step.FailStep? {
      FailColumns(w, m);
    } else {
      CompletionColumns(w, m);
    }
  }

  lemma OthersLeaveLive(w: World, m: Move, id: TaskId)
    requires Sound(w) && (m.step.DiscoverStep? || m.step.ApplyStep? || m.step.ReconcileStep? || m.step.Crashed?)
    requires HeldAt(w.db, id, w.now + m.wait)
    ensures SameRow(w.db, After(w, m).db, id)
  {
    if m.step.ReconcileStep? || m.step.Crashed? {
      ReconcileEvolves(w, m, id);
    } else if m.step.ApplyStep? && ApplyDiagnosis(w.db, m.step.task).Ok? {
      assert Inv(w.db, w.minted) by { LawfulIsInv(w.db, w.minted); }
      ApplyOutcome(w.db, w.minted, m.step.task);
    }
  }

  /** An unexpired lease is exclusive: whoever moves, the row it holds changes only
      when its own holder acts on it or everything is forcibly recovered, and it goes
      back to the queue in the latter case alone. */
  lemma LiveLeaseIsExclusive(w: World, m: Move, id: TaskId)
    requires Sound(w) && HeldAt(w.db, id, w.now + m.wait)
    ensures var now, db' := w.now + m.wait, After(w, m).db;
            && id in db'.tasks
            && (db'.tasks[id] != w.db.tasks[id] ==>
                  m.step == RecoverStep(true) || HolderActs(m.step, id, w.db.tasks[id], now))
            && (db'.tasks[id].status == Pending <==> m.step == RecoverStep(true))
  {
    var now, s := w.now + m.wait, m.step;
    if RunStep(s) {
      RunStepEvolves(w, m, id);
    } else if s.ClaimStep? {
      ClaimLeavesLive(w, m, id);
    } else if s.RecoverStep? {
      RecoverColumns(w, m, id);
    } else if s.RenewStep? || s.CompleteStep? || s.FailStep? {
      if HolderActs(s, id, w.db.tasks[id], now) {
        HolderNeverRequeues(w, m, id);
      } else {
        OutcomeLeavesLive(w, m, id);
      }
    } else {
      OthersLeaveLive(w, m, id);
    }
  }

  lemma HolderNeverRequeues(w: World, m: Move, id: TaskId)
    requires Sound(w) && HeldAt(w.db, id, w.now + m.wait) && HolderActs(m.step, id, w.db.tasks[id], w.now + m.wait)
    ensures id in After(w, m).db.tasks && After(w, m).db.tasks[id].status != Pending
  {
    if m.step.RenewStep? {
      RenewColumns(w, m);
    } else if m.step.FailStep? {
      FailColumns(w, m);
    } else {
      CompletionColumns(w, m);
    }
  }

  // ---- applying a diagnosis ----

  /** The log holds an application of exactly this conclusion. */
  predicate Consumed(db: Db, d: TaskId)
    requires d in db.tasks
  {
    exists e :: e in db.events && e.DiagnosisApplied? && e.task == d
      && e.appliedTo == db.tasks[d].input.sourceAttempt && e.diagnosisAttempt == db.tasks[d].attempt
  }

  /** A succeeded diagnosis of an operator row of its own operator. */
  predicate Explains(db: Db, d: TaskId, source: TaskId) {
    && d.DiagTask? && d in db.tasks && db.tasks[d].status == Succeeded && db.tasks[d].input.sourceTask == Some(source)
    && source.OpTask? && source in db.tasks && source.run == d.run && source.key == d.key
  }

  /** On any database: only RETRY and BLOCKED are applied, each conclusion once, and a
      RETRY only to a failed source, which is queued again with an empty output. */
  lemma ApplyColumns(w: World, m: Move)
    requires m.step.ApplyStep?
    ensures var d, db, db' := m.step.task, w.db, After(w, m).db;
            var attempted := Attempt(db, w.now + m.wait, w.minted, m.step);
            && (attempted.Ok? <==>
                  exists source, action: Action ::
                    && Explains(db, d, source) && db.tasks[d].output.result.conclusion.action == Some(action)
                    && (action == Blocked
                        || (action == Retry && (Consumed(db, d) || db.tasks[source].status == Failed))))
            && (attempted.Err? || Consumed(db, d) ==> db' == db)
            && (attempted.Ok? && !Consumed(db, d) ==>
                  && var source, action := db.tasks[d].input.sourceTask.value,
                                           db.tasks[d].output.result.conclusion.action.value;
                  && var e := DiagnosisApplied(d, source, db.tasks[d].input.sourceAttempt, db.tasks[d].attempt, action);
                  && db'.order == db.order
                  && (action == Blocked ==> Elsewhere(db, db', {}, [e]))
                  && (action == Retry ==>
                        && Elsewhere(db, db', {source}, [e]) && source in db'.tasks
                        && BackInQueue(db.tasks[source].(output := EMPTY_OUTPUT), db'.tasks[source])))
  {
  }

  // ---- discovering ----

  /** A plain simulation is open to any contract; every other run must be ready, and the
      contract must carry its fingerprint, model and backend. */
  predicate Open(run: Run, key: OperatorKey) {
    || (run.mode == Simulation && !run.environmentRequired && !run.graphRequired)
    || ( && run.status == EnvironmentReady && run.proof.Some? && key.fingerprint == run.proof
         && key.model == run.model && key.backend == run.backend )
  }

  /** On any database: an open run stores the contract under a free key and gives its
      first stage a blank row, unless there is one; nothing stored is written again. */
  lemma DiscoverColumns(w: World, m: Move)
    requires m.step.DiscoverStep?
    ensures var r, spec, db, db' := m.step.run, m.step.spec, w.db, After(w, m).db;
            var torch, isNew := OpTask(r, spec.key, Torch), (r, spec.key) !in db.operators;
            if !(r in db.runs && Open(db.runs[r], spec.key)) then db' == db
            else
              && db'.runs == db.runs
              && db'.operators == (if isNew then db.operators[(r, spec.key) := spec] else db.operators)
              && (torch in db.tasks ==>
                    db'.tasks == db.tasks && db'.order == db.order && db'.events == db.events)
              && (torch !in db.tasks ==>
                    && Appears(db, db', torch, Input(None, None, None))
                    && (forall x :: x != torch ==> SameRow(db, db', x))
                    && db'.events == db.events + [OperatorDiscovered(r, spec.key, isNew), TaskCreated(torch)])
  {
  }

  // ---- the run row ----

  /** Only row `r` of the runs table changed, and `e` was logged. */
  predicate RunWritten(db: Db, db': Db, r: RunId, run: Run, e: Event) {
    db' == db.(runs := db.runs[r := run], events := db.events + [e])
  }

  /** A run is created once; a real one starts waiting for its environment. */
  lemma CreateRunColumns(w: World, m: Move)
    requires m.step.CreateRunStep?
    ensures var r, given, db' := m.step.run, m.step.record, After(w, m).db;
            && (r in w.db.runs ==> db' == w.db)
            && (r !in w.db.runs ==>
                  && r in db'.runs && RunWritten(w.db, db', r, db'.runs[r], RunCreated(r))
                  && (given.mode == Simulation ==> db'.runs[r] == given)
                  && (given.mode == Real ==>
                        && db'.runs[r].status == WaitingForEnvironment && db'.runs[r].environmentRequired
                        && db'.runs[r] == given.(status := WaitingForEnvironment, environmentRequired := true)))
  {
  }

  /** A proof is bound exactly when it is ready, no simulation stands in for a real run,
      and no row would change its environment. */
  lemma BindColumns(w: World, m: Move)
    requires m.step.BindStep?
    ensures var s, db' := m.step, After(w, m).db;
            if && s.run in w.db.runs && s.ready && (w.db.runs[s.run].mode == Simulation || s.mode == Real)
               && (w.db.runs[s.run].proof == None || w.db.runs[s.run].proof == Some(s.fingerprint)
                   || forall id :: id in w.db.tasks ==> id.run != s.run)
            then
              RunWritten(w.db, db', s.run,
                         w.db.runs[s.run].(proof := Some(s.fingerprint), status := EnvironmentReady),
                         EnvironmentBound(s.run))
            else db' == w.db
  {
    assert HasTasks(w.db, m.step.run) <==> !forall id :: id in w.db.tasks ==> id.run != m.step.run;
  }

  /** A failed proof costs the run its status and nothing else. */
  lemma FailureColumns(w: World, m: Move)
    requires m.step.EnvironmentFailureStep?
    ensures var s, db' := m.step, After(w, m).db;
            if s.run in w.db.runs && s.ownerKnown then
              RunWritten(w.db, db', s.run, w.db.runs[s.run].(status := EnvironmentFailed), EnvironmentRejected(s.run))
            else db' == w.db
  {
  }

  /** A graph channel holds the last record, and each change of it is logged once. */
  lemma GraphColumns(w: World, m: Move)
    requires m.step.GraphStep?
    ensures var s, db' := m.step, After(w, m).db;
            && (s.run in w.db.runs ==>
                  && s.run in db'.runs && s.channel in db'.runs[s.run].graph
                  && db'.runs[s.run].graph[s.channel] == s.graphRecord
                  && (forall c :: c != s.channel ==>
                        && (c in db'.runs[s.run].graph <==> c in w.db.runs[s.run].graph)
                        && (c in db'.runs[s.run].graph ==>
                              db'.runs[s.run].graph[c] == w.db.runs[s.run].graph[c])))
            && (db' != w.db ==>
                  && s.run in db'.runs && s.run in w.db.runs
                  && RunWritten(w.db, db', s.run, w.db.runs[s.run].(graph := db'.runs[s.run].graph),
                                GraphRecorded(s.run, s.channel)))
  {
  }

  /** The requirement is set once and logged once. */
  lemma RequirementColumns(w: World, m: Move)
    requires m.step.RequireGraphStep?
    ensures var r, db' := m.step.run, After(w, m).db;
            && (r in w.db.runs ==> r in db'.runs && db'.runs[r].graphRequired)
            && (db' != w.db <==> r in w.db.runs && !w.db.runs[r].graphRequired)
            && (db' != w.db ==>
                  RunWritten(w.db, db', r, w.db.runs[r].(graphRequired := true), GraphRequirement(r)))
  {
  }
}
