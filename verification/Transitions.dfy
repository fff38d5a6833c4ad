/** The public operations of engine/scheduler.py as functions on database values.
    Each is one committed transition; `Err` leaves the database as it was. */
module Transitions {
  import opened Base
  import opened SchedulerState
  import opened ResultValidation

  type DbOutcome = Outcome<Db, Refusal>

  // ---- row updates ----

  function Insert(db: Db, id: TaskId, task: Task): Db {
    if id in db.tasks then db else db.(tasks := db.tasks[id := task], order := db.order + [id])
  }

  function Put(db: Db, id: TaskId, task: Task): Db { db.(tasks := db.tasks[id := task]) }
  function Emit(db: Db, e: Event): Db { db.(events := db.events + [e]) }
  function PutRun(db: Db, r: RunId, run: Run): Db { db.(runs := db.runs[r := run]) }

  function Unleased(task: Task, status: Status): Task {
    task.(status := status, token := None, worker := None, expires := None)
  }

  // ---- runs and environment ----

  function CreateRun(db: Db, r: RunId, run: Run): Db {
    if r in db.runs then db
    else
      var admitted :=
        if run.mode.Real? then run.(environmentRequired := true, status := WaitingForEnvironment) else run;
      Emit(PutRun(db, r, admitted), RunCreated(r))
  }

  predicate HasTasks(db: Db, r: RunId) { exists id :: id in db.tasks && id.run == r }

  /** `ready` stands for the handoff fields, owner, validator and evidence files. */
  function BindEnvironment(db: Db, r: RunId, mode: Mode, ready: bool, fingerprint: Fingerprint): DbOutcome {
    if r !in db.runs then Err(UnknownRun)
    else
      var run := db.runs[r];
      if run.mode.Real? && !mode.Real? then Err(ProofRejected)
      else if !ready then Err(ProofRejected)
      else if run.proof.Some? && run.proof.value != fingerprint && HasTasks(db, r) then Err(EnvironmentChanged)
      else Ok(Emit(PutRun(db, r, run.(proof := Some(fingerprint), status := EnvironmentReady)), EnvironmentBound(r)))
  }

  /** The failed proof is recorded beside the accepted one, which stays. */
  function RecordEnvironmentFailure(db: Db, r: RunId, ownerKnown: bool): DbOutcome {
    if r !in db.runs then Err(UnknownRun)
    else if !ownerKnown then Err(ProofRejected)
    else Ok(Emit(PutRun(db, r, db.runs[r].(status := EnvironmentFailed)), EnvironmentRejected(r)))
  }

  function RecordGraph(db: Db, r: RunId, channel: GraphKey, record: GraphRecord): DbOutcome {
    if r !in db.runs then Err(UnknownRun)
    else
      var run := db.runs[r];
      if channel in run.graph && run.graph[channel] == record then Ok(db)
      else Ok(Emit(PutRun(db, r, run.(graph := run.graph[channel := record])), GraphRecorded(r, channel)))
  }

  function RequireGraphEnvironment(db: Db, r: RunId): DbOutcome {
    if r !in db.runs then Err(UnknownRun)
    else if db.runs[r].graphRequired then Ok(db)
    else Ok(Emit(PutRun(db, r, db.runs[r].(graphRequired := true)), GraphRequirement(r)))
  }

  // ---- discovery ----

  function DiscoverOperator(db: Db, r: RunId, spec: OperatorSpec): DbOutcome {
    if r !in db.runs then Err(UnknownRun)
    else
      var run := db.runs[r];
      if EnvironmentRequired(run) && !run.status.EnvironmentReady? then Err(EnvironmentGate)
      else if EnvironmentRequired(run) && (run.proof.None? || spec.key.fingerprint != run.proof)
        then Err(ContractMismatch)
      else if EnvironmentRequired(run) && (spec.key.model != run.model || spec.key.backend != run.backend)
        then Err(ContractMismatch)
      else
        var isNew := (r, spec.key) !in db.operators;
        var stored := if isNew then db.(operators := db.operators[(r, spec.key) := spec]) else db;
        var id := OpTask(r, spec.key, Torch);
        if id in db.tasks then Ok(stored)
        else Ok(Emit(Emit(Insert(stored, id, NewTask(PLAIN_INPUT)),
                          OperatorDiscovered(r, spec.key, isNew)), TaskCreated(id)))
  }

  // ---- claiming ----

  predicate Overdue(task: Task, now: Time, force: bool) {
    task.status.Running? && (force || (task.expires.Some? && task.expires.value <= now))
  }

  /** The bulk UPDATE that returns overdue (or, forced, all) running rows to the queue. */
  function Released(db: Db, now: Time, force: bool): Db {
    db.(tasks := map id | id in db.tasks ::
          if Overdue(db.tasks[id], now, force) then Unleased(db.tasks[id], Pending) else db.tasks[id])
  }

  predicate DepsSucceeded(db: Db, id: TaskId) {
    id.DiagTask? ||
    ( && id.run in db.runs
      && (EnvironmentRequired(db.runs[id.run]) ==>
            && db.runs[id.run].status.EnvironmentReady?
            && (id.run, id.key) in db.operators
            && db.runs[id.run].proof.Some?
            && db.operators[(id.run, id.key)].key.fingerprint == db.runs[id.run].proof)
      && (!id.stage.Torch? ==> Previous(id) in db.tasks && db.tasks[Previous(id)].status.Succeeded?) )
  }

  predicate Waiting(db: Db, queue: Option<Queue>, id: TaskId) {
    id in db.tasks && db.tasks[id].status.Pending? && (queue.Some? ==> QueueOf(id) == queue.value)
  }

  function Candidates(db: Db, queue: Option<Queue>): seq<TaskId> {
    Filter(db.order, id => Waiting(db, queue, id))
  }

  function Eligible(db: Db, ids: seq<TaskId>): seq<TaskId> {
    Filter(ids, id => DepsSucceeded(db, id))
  }

  /** What one `claim_ready` takes: the first `limit` eligible candidates. */
  function Chosen(db: Db, queue: Option<Queue>, limit: int): (ids: seq<TaskId>)
    ensures forall id :: id in ids ==> id in db.order && Waiting(db, queue, id) && DepsSucceeded(db, id)
  {
    var eligible := Eligible(db, Candidates(db, queue));
    var chosen := if limit <= 0 then [] else eligible[..Min(limit, |eligible|)];
    assert forall id :: id in chosen ==> id in eligible;
    chosen
  }

  type Allocations = map<TaskId, Workspace>

  function ClaimedTask(task: Task, worker: Worker, token: Token, expires: Time, workspace: Option<Workspace>): Task {
    task.(status := Running, attempt := task.attempt + 1,
          token := Some(token), worker := Some(worker), expires := Some(expires),
          input := if workspace.Some? then task.input.(workspace := workspace) else task.input)
  }

  function AllocationOf(dirs: Allocations, id: TaskId): Option<Workspace> {
    if id in dirs then Some(dirs[id]) else None
  }

  function ClaimRow(db: Db, id: TaskId, worker: Worker, token: Token, expires: Time, dirs: Allocations): Db {
    if id !in db.tasks then db
    else Emit(Put(db, id, ClaimedTask(db.tasks[id], worker, token, expires, AllocationOf(dirs, id))),
              TaskClaimed(id, worker, db.tasks[id].attempt + 1))
  }

  /** Claim `ids` one after the other, the i-th with token `token + i`. */
  function ClaimAll(db: Db, ids: seq<TaskId>, worker: Worker, token: Token, expires: Time, dirs: Allocations): Db {
    if ids == [] then db
    else
      var n := |ids| - 1;
      ClaimRow(ClaimAll(db, ids[..n], worker, token, expires, dirs), ids[n], worker, token + n, expires, dirs)
  }

  predicate ClaimArguments(worker: Worker, lease: int, limit: int) { worker != "" && limit > 0 && lease > 0 }

  function ClaimReady(db: Db, now: Time, minted: Token, worker: Worker, queue: Option<Queue>,
                      lease: int, limit: int, dirs: Allocations): DbOutcome
  {
    if !ClaimArguments(worker, lease, limit) then Err(InvalidArgument)
    else
      var released := Released(db, now, false);
      Ok(ClaimAll(released, Chosen(released, queue, limit), worker, minted, now + lease, dirs))
  }

  // ---- leases ----

  /** How a caller presents its lease.  The concise form puts the token where the
      worker name goes; a worker name alone is never enough. */
  datatype Credential =
    | Presented(worker: Option<Worker>, token: Token)
    | TokenOnly(token: Token)
    | WorkerOnly(worker: Option<Worker>)

  predicate Owns(task: Task, now: Time, c: Credential) {
    && !c.WorkerOnly?
    && task.token == Some(c.token)
    && (c.Presented? && c.worker.Some? ==> task.worker == c.worker)
    && task.status.Running?
    && task.expires.Some? && now < task.expires.value
  }

  predicate OwnsRow(db: Db, now: Time, id: TaskId, c: Credential) { id in db.tasks && Owns(db.tasks[id], now, c) }

  /** The UPDATE names the token as presented, so the concise form matches no row. */
  function RenewLease(db: Db, now: Time, id: TaskId, c: Credential, lease: int): DbOutcome {
    if lease <= 0 then Err(InvalidArgument)
    else if id !in db.tasks then Err(UnknownTask)
    else if !Owns(db.tasks[id], now, c) then Err(NotOwner)
    else
      var task := db.tasks[id];
      var renewed := if c.Presented? then Put(db, id, task.(expires := Some(now + lease))) else db;
      Ok(Emit(renewed, LeaseRenewed(id, now + lease)))
  }

  // ---- outcomes ----

  function EnsureNext(db: Db, id: TaskId): Db
    requires !id.stage.Integration?
  {
    if Next(id) in db.tasks then db
    else Emit(Insert(db, Next(id), NewTask(PLAIN_INPUT)), TaskCreated(Next(id)))
  }

  function DiagnosisInput(id: TaskId, attempt: nat): Input { Input(Some(id), Some(attempt), None) }

  /** One diagnosis row per failed row: created, or reopened for a newer attempt. */
  function EnsureDiagnosis(db: Db, id: TaskId, attempt: nat): Db {
    var d := DiagnosisOf(id);
    if d !in db.tasks then
      Emit(Insert(db, d, NewTask(DiagnosisInput(id, attempt))), DiagnosisCreated(d, attempt))
    else if db.tasks[d].input.sourceAttempt.GetOr(0) < attempt then
      var reopened := Unleased(db.tasks[d], Pending).(input := DiagnosisInput(id, attempt), output := EMPTY_OUTPUT);
      Emit(Put(db, d, reopened), DiagnosisReopened(d, attempt))
    else db
  }

  function FailRow(db: Db, id: TaskId): Db
    requires id in db.tasks
  {
    var failed := Put(db, id, Unleased(db.tasks[id], Failed).(output := ERROR_OUTPUT));
    var diagnosed := if id.OpTask? then EnsureDiagnosis(failed, id, db.tasks[id].attempt) else failed;
    Emit(diagnosed, TaskFailed(id))
  }

  function Fail(db: Db, now: Time, id: TaskId, c: Credential): DbOutcome {
    if id !in db.tasks then Err(UnknownTask)
    else if !Owns(db.tasks[id], now, c) then Err(NotOwner)
    else Ok(FailRow(db, id))
  }

  function SucceedRow(db: Db, id: TaskId, result: WorkResult): Db
    requires id in db.tasks && db.tasks[id].worker.Some?
  {
    var task := db.tasks[id];
    var output := Output(result, Some(Submission(task.worker.value, task.attempt)), false);
    var done := Emit(Put(db, id, Unleased(task, Succeeded).(output := output)), TaskSucceeded(id));
    if id.DiagTask? then Emit(done, DiagnosticCompleted(id))
    else if Advances(id) then EnsureNext(done, id)
    else done
  }

  /** `registered`: the attempt's artifacts could be inventoried. */
  predicate Accepted(db: Db, id: TaskId, result: WorkResult, files: Files, registered: bool) {
    && id in db.tasks && id.run in db.runs && db.tasks[id].worker.Some?
    && Accepts(id, db.tasks[id], db.runs[id.run], result, db.tasks[id].worker.value, files)
    && (db.tasks[id].input.workspace.Some? ==> registered)
  }

  /** A row whose success creates the operator's next stage. */
  predicate Advances(id: TaskId) { id.OpTask? && !id.stage.Integration? }

  /** A rejected result fails the row under the same lease; it never raises.  A row
      without its run, its worker or (to advance) its operator contract faults. */
  function Complete(db: Db, now: Time, id: TaskId, c: Credential, result: WorkResult, files: Files, registered: bool)
    : DbOutcome
  {
    if id !in db.tasks then Err(UnknownTask)
    else if !Owns(db.tasks[id], now, c) then Err(NotOwner)
    else if id.run !in db.runs || db.tasks[id].worker.None? then Err(Fault)
    else if !Accepted(db, id, result, files, registered) then Ok(FailRow(db, id))
    else if Advances(id) && (id.run, id.key) !in db.operators then Err(Fault)
    else Ok(SucceedRow(db, id, result))
  }

  // ---- diagnosis consumption ----

  predicate AlreadyApplied(db: Db, d: TaskId)
    requires d in db.tasks
  {
    exists e :: e in db.events && e.DiagnosisApplied? && e.task == d
      && e.appliedTo == db.tasks[d].input.sourceAttempt && e.diagnosisAttempt == db.tasks[d].attempt
  }

  function ApplicationEvent(db: Db, d: TaskId, source: TaskId, action: Action): Event
    requires d in db.tasks
  {
    DiagnosisApplied(d, source, db.tasks[d].input.sourceAttempt, db.tasks[d].attempt, action)
  }

  function ApplyDiagnosis(db: Db, d: TaskId): DbOutcome {
    if d !in db.tasks || !d.DiagTask? then Err(NotADiagnosis)
    else
      var diagnosis := db.tasks[d];
      var action := diagnosis.output.result.conclusion.action;
      var source := diagnosis.input.sourceTask;
      if !diagnosis.status.Succeeded? then Err(DiagnosisUnfinished)
      else if source.None? || source.value !in db.tasks || source.value.DiagTask? then Err(SourceMismatch)
      else if source.value.run != d.run || source.value.key != d.key then Err(SourceMismatch)
      else if action != Some(Retry) && action != Some(Blocked) then Err(ExternalRepairRequired)
      else if AlreadyApplied(db, d) then Ok(db)
      else if action == Some(Blocked) then Ok(Emit(db, ApplicationEvent(db, d, source.value, Blocked)))
      else if !db.tasks[source.value].status.Failed? then Err(RetryNeedsFailedSource)
      else
        var requeued := Unleased(db.tasks[source.value], Pending).(output := EMPTY_OUTPUT);
        Ok(Emit(Put(db, source.value, requeued), ApplicationEvent(db, d, source.value, Retry)))
  }

  function Recover(db: Db, now: Time, force: bool): Db { Released(db, now, force) }

  // ---- reconciliation of historical rows ----

  datatype Repair = Repair(db: Db, created: seq<TaskId>, blocked: seq<TaskId>)

  /** The worker of the last claim event of `id` for `attempt`, if any. */
  function ClaimantAt(events: seq<Event>, id: TaskId, attempt: nat): Option<Worker> {
    if events == [] then None
    else
      var e := events[|events| - 1];
      if e.TaskClaimed? && e.task == id && e.attempt == attempt then Some(e.worker)
      else ClaimantAt(events[..|events| - 1], id, attempt)
  }

  function ClaimCount(events: seq<Event>, id: TaskId): nat {
    if events == [] then 0
    else
      var e := events[|events| - 1];
      ClaimCount(events[..|events| - 1], id) + (if e.TaskClaimed? && e.task == id then 1 else 0)
  }

  function LastClaimant(events: seq<Event>, id: TaskId): Option<Worker> {
    if events == [] then None
    else
      var e := events[|events| - 1];
      if e.TaskClaimed? && e.task == id then Some(e.worker) else LastClaimant(events[..|events| - 1], id)
  }

  /** Who produced a succeeded row: its own submission, else the event log. */
  function Producer(db: Db, id: TaskId): Option<Worker>
    requires id in db.tasks
  {
    var task := db.tasks[id];
    if task.output.submission.Some? && task.output.submission.value.attempt == task.attempt
       && task.output.submission.value.worker != "" then
      Some(task.output.submission.value.worker)
    else if ClaimantAt(db.events, id, task.attempt).Some? then ClaimantAt(db.events, id, task.attempt)
    else if ClaimCount(db.events, id) == task.attempt then LastClaimant(db.events, id)
    else None
  }

  predicate Revalidates(db: Db, r: RunId, id: TaskId, files: Files)
    requires id in db.tasks && r in db.runs
  {
    var producer := Producer(db, id);
    && producer.Some? && producer.value != ""
    && Accepts(id, db.tasks[id], db.runs[r], db.tasks[id].output.result, producer.value, files)
  }

  predicate LacksDiagnosis(db: Db, id: TaskId) {
    id in db.tasks && id.OpTask? && db.tasks[id].status.Failed? && DiagnosisOf(id) !in db.tasks
  }

  predicate LacksSuccessor(db: Db, id: TaskId) {
    id in db.tasks && id.OpTask? && db.tasks[id].status.Succeeded? && !id.stage.Integration? && Next(id) !in db.tasks
  }

  function RepairRow(rep: Repair, r: RunId, id: TaskId, files: Files): Repair
    requires id in rep.db.tasks && r in rep.db.runs
  {
    var db := rep.db;
    if LacksDiagnosis(db, id) then
      Repair(EnsureDiagnosis(db, id, db.tasks[id].attempt), rep.created + [DiagnosisOf(id)], rep.blocked)
    else if LacksSuccessor(db, id) then
      if !Revalidates(db, r, id, files) then rep.(blocked := rep.blocked + [id])
      else Repair(EnsureNext(db, id), rep.created + [Next(id)], rep.blocked)
    else rep
  }

  function RepairAll(db: Db, r: RunId, ids: seq<TaskId>, files: Files): (rep: Repair)
    requires r in db.runs && forall id :: id in ids ==> id in db.tasks
    ensures rep.db.runs == db.runs && db.tasks.Keys <= rep.db.tasks.Keys
  {
    if ids == [] then Repair(db, [], [])
    else RepairRow(RepairAll(db, r, ids[..|ids| - 1], files), r, ids[|ids| - 1], files)
  }

  function RunRows(db: Db, r: RunId): seq<TaskId> {
    Filter(db.order, (id: TaskId) => id.run == r && id in db.tasks)
  }

  /** The row carries no usable submission, was never claimed and counts no attempt: the
      lookup takes the last of no claims. */
  predicate ProducerRaises(db: Db, id: TaskId)
    requires id in db.tasks
  {
    var task := db.tasks[id];
    && !(task.output.submission.Some? && task.output.submission.value.attempt == task.attempt
         && task.output.submission.value.worker != "")
    && task.attempt == 0 && ClaimCount(db.events, id) == 0
  }

  /** The two exceptions of the loop: a row without any trace of a producer, and a row
      about to be repaired that has no operator contract to copy into its successor. */
  predicate Repairable(db: Db, r: RunId, files: Files)
    requires r in db.runs
  {
    forall id :: id in RunRows(db, r) && LacksSuccessor(db, id)
      ==> !ProducerRaises(db, id) && (Revalidates(db, r, id, files) ==> (r, id.key) in db.operators)
  }

  function Reconcile(db: Db, r: RunId, files: Files): Outcome<Repair, Refusal> {
    if r !in db.runs then Err(UnknownRun)
    else if !Repairable(db, r, files) then Err(Fault)
    else
      var rep := RepairAll(db, r, RunRows(db, r), files);
      Ok(rep.(db := Emit(rep.db, RunReconciled(r, rep.created, rep.blocked))))
  }
}
