/** engine/result_validation.py: when a submitted result is accepted. */
module ResultValidation {
  import opened Base
  import opened SchedulerState

  const REPORT_KEY_DIAGNOSIS := "diagnosis_report"
  const REPORT_KEY_STAGE := "independent_validation"

  function ReportKey(queue: Queue): string {
    if queue.DiagnosisQueue? then REPORT_KEY_DIAGNOSIS else REPORT_KEY_STAGE
  }

  function RequiredEvidence(queue: Queue): set<string> {
    match queue
    case OperatorQueue(Torch) => {"reference_artifact", "focused_tests", "independent_validation"}
    case OperatorQueue(Xpu) =>
      {"build_record", "registration_record", "device_test", "dispatch_report", "independent_validation"}
    case OperatorQueue(Integration) =>
      {"integration_report", "service_regression", "accuracy_regression", "fallback_report",
       "independent_validation"}
    case DiagnosisQueue => {"diagnosis_report"}
  }

  /** The identity every result and report must state, field for field. */
  function ExpectedClaims(id: TaskId, task: Task, run: Run): Claims {
    Claims(Some(id), Some(id.key), Some(QueueOf(id)), Some(task.attempt), Some(run.proof), Some(run.mode))
  }

  predicate EnvironmentBacked(run: Run) { run.mode.Real? || run.graphRequired }

  /** The run may accept results of this queue at all. */
  predicate RunAdmits(queue: Queue, run: Run) {
    && !(run.mode.Simulation? && run.environmentRequired)
    && (EnvironmentBacked(run) ==> run.proof.Some?)
    && (EnvironmentBacked(run) && queue.OperatorQueue? ==> run.status.EnvironmentReady?)
  }

  predicate HeaderAccepted(result: WorkResult) {
    && result.schemaVersion == Some(1)
    && result.pass != []
    && (forall i :: 0 <= i < |result.pass| ==> result.pass[i])
    && !result.explicitFailure
  }

  /** One named piece of evidence is a readable non-empty file of this attempt
      whose digest is the submitted one. */
  predicate EntryAccepted(task: Task, path: Option<EvidencePath>, digest: Option<Content>, files: Files) {
    && path.Some?
    && (task.input.workspace.Some? ==> path.value.workspace == task.input.workspace)
    && path.value in files && files[path.value].Regular?
    && files[path.value].content.text != ""
    && digest == Some(files[path.value].content)
  }

  function Lookup(m: map<string, Content>, key: string): Option<Content> {
    if key in m then Some(m[key]) else None
  }

  predicate ConclusionAccepted(submitted: Conclusion, reported: Conclusion) {
    && submitted == reported
    && reported.diagnosis != "" && reported.repair != ""
    && reported.action.Some? && !reported.action.value.UnknownAction?
    && reported.confidence.Some? && 0.0 <= reported.confidence.value <= 1.0
  }

  predicate ReviewAccepted(report: Report, worker: Worker) {
    && report.validator.Some? && report.validator.value != "" && report.validator.value != worker
    && report.checks != []
    && (forall i :: 0 <= i < |report.checks| ==> report.checks[i].name != "" && report.checks[i].passed)
  }

  predicate ReportAccepted(id: TaskId, task: Task, run: Run, result: WorkResult, worker: Worker, report: Report)
    requires result.evidence.Some? && result.digests.Some?
  {
    && report.claims == ExpectedClaims(id, task, run)
    && report.pass
    && (id.DiagTask? ==> ConclusionAccepted(result.conclusion, report.conclusion))
    && (id.OpTask? ==>
          && ReviewAccepted(report, worker)
          && report.digests == BoundDigests(id, result))
  }

  /** The digests the review must bind: every submitted one except its own. */
  function BoundDigests(id: TaskId, result: WorkResult): map<string, Content>
    requires result.evidence.Some? && result.digests.Some?
  {
    map key | key in result.evidence.value && key in result.digests.value && key != ReportKey(QueueOf(id))
      :: result.digests.value[key]
  }

  predicate EvidenceAccepted(id: TaskId, task: Task, result: WorkResult, files: Files)
    requires result.evidence.Some? && result.digests.Some?
  {
    && RequiredEvidence(QueueOf(id)) <= result.evidence.value.Keys
    && (forall key :: key in result.evidence.value ==>
          EntryAccepted(task, result.evidence.value[key], Lookup(result.digests.value, key), files))
  }

  /** What acceptance means, stated without the order of the checks. */
  predicate Accepts(id: TaskId, task: Task, run: Run, result: WorkResult, worker: Worker, files: Files) {
    && HeaderAccepted(result)
    && RunAdmits(QueueOf(id), run)
    && result.claims == ExpectedClaims(id, task, run)
    && result.evidence.Some? && result.digests.Some?
    && EvidenceAccepted(id, task, result, files)
    && ReportKey(QueueOf(id)) in result.evidence.value
    && var content := files[result.evidence.value[ReportKey(QueueOf(id))].value].content;
    && content.report.Some?
    && ReportAccepted(id, task, run, result, worker, content.report.value)
  }

  datatype Problem =
    | BadSchema | NoPass | ExplicitFailure | SimulationInRealRun | NoFingerprint | NotReady
    | ClaimMismatch | NotObjects | MissingEvidence | BadEntry(key: string) | EmptyFile(key: string)
    | DigestMismatch(key: string) | NoReport | UnreadableReport | ReportMismatch | ReportNotPass
    | BadConclusion | BadReview | UnboundDigests

  function Flag(bad: bool, problem: Problem): seq<Problem> { if bad then [problem] else [] }

  function HeaderProblems(id: TaskId, task: Task, run: Run, result: WorkResult): (errors: seq<Problem>)
    ensures errors == [] <==>
              HeaderAccepted(result) && RunAdmits(QueueOf(id), run) && result.claims == ExpectedClaims(id, task, run)
  {
    Flag(result.schemaVersion != Some(1), BadSchema)
    + Flag(result.pass == [] || exists i :: 0 <= i < |result.pass| && !result.pass[i], NoPass)
    + Flag(result.explicitFailure, ExplicitFailure)
    + Flag(run.mode.Simulation? && run.environmentRequired, SimulationInRealRun)
    + Flag(EnvironmentBacked(run) && run.proof.None?, NoFingerprint)
    + Flag(EnvironmentBacked(run) && id.OpTask? && !run.status.EnvironmentReady?, NotReady)
    + Flag(result.claims != ExpectedClaims(id, task, run), ClaimMismatch)
  }

  function ReportProblems(id: TaskId, task: Task, run: Run, result: WorkResult, worker: Worker, report: Report)
    : (errors: seq<Problem>)
    requires result.evidence.Some? && result.digests.Some?
    ensures errors == [] <==> ReportAccepted(id, task, run, result, worker, report)
  {
    Flag(report.claims != ExpectedClaims(id, task, run), ReportMismatch)
    + Flag(!report.pass, ReportNotPass)
    + (if id.DiagTask? then Flag(!ConclusionAccepted(result.conclusion, report.conclusion), BadConclusion)
       else Flag(!ReviewAccepted(report, worker), BadReview)
            + Flag(report.digests != BoundDigests(id, result), UnboundDigests))
  }

  /** Walks the submitted evidence, collecting the contents that could be read. */
  method CheckEvidence(task: Task, evidence: map<string, Option<EvidencePath>>, digests: map<string, Content>,
                       files: Files)
    returns (errors: seq<Problem>, contents: map<string, Content>)
    ensures errors == [] <==>
              forall key :: key in evidence ==> EntryAccepted(task, evidence[key], Lookup(digests, key), files)
    ensures errors == [] ==> contents.Keys == evidence.Keys
    ensures forall key :: key in contents ==>
              key in evidence && evidence[key].Some? && evidence[key].value in files
              && files[evidence[key].value] == Regular(contents[key])
  {
    errors, contents := [], map[];
    var left := evidence.Keys;
    while left != {}
      invariant left <= evidence.Keys
      invariant errors == [] <==> forall key :: key in evidence.Keys - left ==>
                  EntryAccepted(task, evidence[key], Lookup(digests, key), files)
      invariant errors == [] ==> contents.Keys == evidence.Keys - left
      invariant forall key :: key in contents ==>
                  key in evidence && evidence[key].Some? && evidence[key].value in files
                  && files[evidence[key].value] == Regular(contents[key])
    {
      var key :| key in left;
      left := left - {key};
      var path := evidence[key];
      if path.None? || (task.input.workspace.Some? && path.value.workspace != task.input.workspace)
         || path.value !in files || !files[path.value].Regular?
      {
        errors := errors + [BadEntry(key)];
      } else {
        var content := files[path.value].content;
        errors := errors + Flag(content.text == "", EmptyFile(key))
          + Flag(Lookup(digests, key) != Some(content), DigestMismatch(key));
        contents := contents[key := content];
      }
    }
  }

  /** The checks in the source's order: identity first, then each evidence entry,
      then the report; three conditions end the list early. */
  method ValidateResult(id: TaskId, task: Task, run: Run, result: WorkResult, worker: Worker, files: Files)
    returns (errors: seq<Problem>)
    ensures errors == [] <==> Accepts(id, task, run, result, worker, files)
  {
    var queue := QueueOf(id);
    errors := HeaderProblems(id, task, run, result);
    if result.evidence.None? || result.digests.None? {
      errors := errors + [NotObjects];
      return;
    }
    var evidence, digests := result.evidence.value, result.digests.value;
    errors := errors + Flag(!(RequiredEvidence(queue) <= evidence.Keys), MissingEvidence);
    var unreadable, contents := CheckEvidence(task, evidence, digests, files);
    errors := errors + unreadable;
    var reportKey := ReportKey(queue);
    if reportKey !in contents {
      errors := errors + [NoReport];
      return;
    }
    if contents[reportKey].report.None? {
      errors := errors + [UnreadableReport];
      return;
    }
    var report := contents[reportKey].report.value;
    errors := errors + ReportProblems(id, task, run, result, worker, report);
  }
}
