/** The durable state of engine/scheduler.py: the rows of its four tables. */
module SchedulerState {
  import opened Base

  type RunId = string
  type Worker = string
  type Fingerprint = string
  /** Lease tokens are drawn fresh; the model numbers them in the order drawn. */
  type Token = nat
  type Time = int

  datatype Stage = Torch | Xpu | Integration
  datatype Status = Pending | Running | Succeeded | Failed
  datatype Mode = Real | Simulation
  datatype RunStatus = WaitingForEnvironment | EnvironmentReady | EnvironmentFailed | OtherStatus(text: string)
  datatype Action = Retry | Blocked | RediscoverOperator | DispatchTorchFix | DispatchXpuFix
    | UnknownAction(text: string)

  /** The hashed body of an operator contract.  SHA-256 is taken as injective,
      so the body itself serves as the operator key. */
  datatype OperatorKey = OperatorKey(
    model: string, backend: string, fingerprint: Option<Fingerprint>, contract: string)
  datatype OperatorSpec = OperatorSpec(operatorId: string, evidence: string, key: OperatorKey)

  /** A row identity.  An operator row is `run:key:stage`; its one diagnosis row
      is that text followed by `:diagnosis`. */
  datatype TaskId =
    | OpTask(run: RunId, key: OperatorKey, stage: Stage)
    | DiagTask(run: RunId, key: OperatorKey, stage: Stage)

  function DiagnosisOf(id: TaskId): TaskId { DiagTask(id.run, id.key, id.stage) }
  function SourceOf(id: TaskId): TaskId { OpTask(id.run, id.key, id.stage) }

  function NextStage(s: Stage): Stage
    requires !s.Integration?
  {
    if s.Torch? then Xpu else Integration
  }

  function PreviousStage(s: Stage): Stage
    requires !s.Torch?
  {
    if s.Integration? then Xpu else Torch
  }

  function Next(id: TaskId): TaskId
    requires !id.stage.Integration?
  {
    OpTask(id.run, id.key, NextStage(id.stage))
  }

  function Previous(id: TaskId): TaskId
    requires !id.stage.Torch?
  {
    OpTask(id.run, id.key, PreviousStage(id.stage))
  }

  /** The value of the `stage` column: which queue a worker claims the row from. */
  datatype Queue = OperatorQueue(stage: Stage) | DiagnosisQueue
  function QueueOf(id: TaskId): Queue {
    if id.OpTask? then OperatorQueue(id.stage) else DiagnosisQueue
  }

  // ---- worker results and the evidence they point at ----

  /** One attempt directory of a task; the number is chosen by the file system. */
  datatype Workspace = Workspace(owner: TaskId, number: nat)
  datatype EvidencePath = EvidencePath(workspace: Option<Workspace>, name: string)
  /** SHA-256 is taken as injective: a digest is the content it digests. */
  datatype Content = Content(text: string, report: Option<Report>)
  datatype File = Regular(content: Content) | Symlink | Unreadable
  type Files = map<EvidencePath, File>
  datatype Check = Check(name: string, passed: bool)

  /** The identity fields a result or report states; `None` is a missing key. */
  datatype Claims = Claims(
    task: Option<TaskId>, key: Option<OperatorKey>, queue: Option<Queue>, attempt: Option<int>,
    fingerprint: Option<Option<Fingerprint>>, mode: Option<Mode>)
  datatype Conclusion = Conclusion(
    diagnosis: string, repair: string, action: Option<Action>, confidence: Option<real>)
  datatype Report = Report(
    claims: Claims, pass: bool, validator: Option<Worker>, checks: seq<Check>,
    digests: map<string, Content>, conclusion: Conclusion)

  /** A worker's submitted result.  `pass` lists the verdict of each of the two
      verdict fields that is present. */
  datatype WorkResult = WorkResult(
    schemaVersion: Option<int>, pass: seq<bool>, explicitFailure: bool, claims: Claims,
    evidence: Option<map<string, Option<EvidencePath>>>, digests: Option<map<string, Content>>,
    conclusion: Conclusion)

  const NO_CLAIMS := Claims(None, None, None, None, None, None)
  const EMPTY_RESULT := WorkResult(None, [], false, NO_CLAIMS, None, None, Conclusion("", "", None, None))

  datatype Submission = Submission(worker: Worker, attempt: nat)
  datatype Output = Output(result: WorkResult, submission: Option<Submission>, error: bool)
  const EMPTY_OUTPUT := Output(EMPTY_RESULT, None, false)
  const ERROR_OUTPUT := Output(EMPTY_RESULT, None, true)

  datatype Input = Input(
    sourceTask: Option<TaskId>, sourceAttempt: Option<nat>, workspace: Option<Workspace>)
  const PLAIN_INPUT := Input(None, None, None)

  /** A row of the `tasks` table. */
  datatype Task = Task(
    status: Status, attempt: nat, input: Input, output: Output,
    token: Option<Token>, worker: Option<Worker>, expires: Option<Time>)

  function NewTask(input: Input): Task {
    Task(Pending, 0, input, EMPTY_OUTPUT, None, None, None)
  }

  datatype GraphKey = GraphEnvironment | GraphDiscovery | GraphShimDiscovery | GraphDelivery | GraphProgress
  datatype GraphRecord = GraphRecord(state: string, payload: string)

  /** A row of the `runs` table. */
  datatype Run = Run(
    model: string, backend: string, mode: Mode, status: RunStatus,
    environmentRequired: bool, graphRequired: bool,
    proof: Option<Fingerprint>, graph: map<GraphKey, GraphRecord>)

  predicate EnvironmentRequired(run: Run) {
    !run.mode.Simulation? || run.environmentRequired || run.graphRequired
  }

  datatype Event =
    | RunCreated(run: RunId)
    | EnvironmentBound(run: RunId)
    | EnvironmentRejected(run: RunId)
    | GraphRecorded(run: RunId, channel: GraphKey)
    | GraphRequirement(run: RunId)
    | OperatorDiscovered(run: RunId, key: OperatorKey, isNew: bool)
    | TaskCreated(task: TaskId)
    | TaskClaimed(task: TaskId, worker: Worker, attempt: nat)
    | LeaseRenewed(task: TaskId, expires: Time)
    | TaskSucceeded(task: TaskId)
    | DiagnosticCompleted(task: TaskId)
    | DiagnosisCreated(task: TaskId, sourceAttempt: nat)
    | DiagnosisReopened(task: TaskId, sourceAttempt: nat)
    | TaskFailed(task: TaskId)
    | DiagnosisApplied(task: TaskId, source: TaskId, appliedTo: Option<nat>, diagnosisAttempt: nat, action: Action)
    | RunReconciled(run: RunId, created: seq<TaskId>, blocked: seq<TaskId>)

  /** The whole database.  `order` lists the task rows by creation time. */
  datatype Db = Db(
    runs: map<RunId, Run>,
    operators: map<(RunId, OperatorKey), OperatorSpec>,
    tasks: map<TaskId, Task>,
    order: seq<TaskId>,
    events: seq<Event>)

  const EMPTY_DB := Db(map[], map[], map[], [], [])

  datatype Refusal =
    | UnknownRun | UnknownTask | InvalidArgument | NotOwner | EnvironmentGate | ContractMismatch
    | ProofRejected | EnvironmentChanged | NotADiagnosis | DiagnosisUnfinished | SourceMismatch
    | ExternalRepairRequired | RetryNeedsFailedSource | Fault
}
