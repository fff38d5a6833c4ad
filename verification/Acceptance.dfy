/** Everything a submitted result can be refused for, field by field: the error list of
    engine/result_validation.py as a table, independent of how the checks are made. */
module Acceptance {
  import opened Base
  import opened SchedulerState
  import opened ResultValidation

  datatype ResultFlaw =
    | WrongSchema | NoVerdict | VerdictNotPass(verdict: nat) | FailedFlag
    | SimulatedEvidence | FingerprintUnbound | EnvironmentDown | NoEvidence
  datatype ClaimFlaw = OtherTask | OtherKey | OtherStage | OtherAttempt | OtherFingerprint | OtherMode
  datatype EvidenceFlaw = Absent | NoPath | Elsewhere | NotAFile | Empty | Altered
  datatype ConclusionFlaw =
    | Differs | DiagnosisEmpty | RepairEmpty | ActionMissing | ActionUnknown | ConfidenceMissing | ConfidenceOutOfRange
  datatype ReviewFlaw =
    | ValidatorMissing | ValidatorUnnamed | ValidatorIsProducer
    | NoChecks | CheckUnnamed(check: nat) | CheckFailed(check: nat)
  datatype BindingFlaw = Unbound | BoundOtherwise | BoundWithoutEvidence

  datatype Objection =
    | ToResult(result: ResultFlaw)
    | ToClaims(claim: ClaimFlaw)
    | ToEvidence(name: string, evidence: EvidenceFlaw)
    | NoReadableReport
    | ToReportClaims(claim: ClaimFlaw)
    | ReportVerdict
    | ToConclusion(conclusion: ConclusionFlaw)
    | ToReview(review: ReviewFlaw)
    | ToBinding(name: string, binding: BindingFlaw)

  /** One submission: the row and run it is for, the result, who produced it, and what
      the file system shows. */
  datatype Submitted = Submitted(
    id: TaskId, task: Task, run: Run, result: WorkResult, worker: Worker, files: Files)

  const TORCH_EVIDENCE := {"reference_artifact", "focused_tests", "independent_validation"}
  const XPU_EVIDENCE :=
    {"build_record", "registration_record", "device_test", "dispatch_report", "independent_validation"}
  const INTEGRATION_EVIDENCE :=
    {"integration_report", "service_regression", "accuracy_regression", "fallback_report", "independent_validation"}

  function ReviewName(id: TaskId): string { if id.DiagTask? then "diagnosis_report" else "independent_validation" }

  predicate Demanded(id: TaskId, name: string) {
    match id
    case DiagTask(_, _, _) => name == "diagnosis_report"
    case OpTask(_, _, Torch) => name in TORCH_EVIDENCE
    case OpTask(_, _, Xpu) => name in XPU_EVIDENCE
    case OpTask(_, _, Integration) => name in INTEGRATION_EVIDENCE
  }

  /** The evidence is submitted under this name, with a path or without one. */
  predicate Names(s: Submitted, name: string) { s.result.evidence.Some? && name in s.result.evidence.value }

  predicate HasPath(s: Submitted, name: string) { Names(s, name) && s.result.evidence.value[name].Some? }

  predicate HasFile(s: Submitted, name: string) {
    && HasPath(s, name) && s.result.evidence.value[name].value in s.files
    && s.files[s.result.evidence.value[name].value].Regular?
  }

  function FileOf(s: Submitted, name: string): Content
    requires HasFile(s, name)
  {
    s.files[s.result.evidence.value[name].value].content
  }

  predicate HasReport(s: Submitted) { HasFile(s, ReviewName(s.id)) && FileOf(s, ReviewName(s.id)).report.Some? }

  function ReportOf(s: Submitted): Report
    requires HasReport(s)
  {
    FileOf(s, ReviewName(s.id)).report.value
  }

  /** Evidence of this run must come from a proven environment. */
  predicate Backed(run: Run) { run.mode == Real || run.graphRequired }

  // ---- what each objection means ----

  predicate ResultFlawed(o: ResultFlaw, s: Submitted) {
    match o
    case WrongSchema => s.result.schemaVersion != Some(1)
    case NoVerdict => |s.result.pass| == 0
    case VerdictNotPass(i) => i < |s.result.pass| && !s.result.pass[i]
    case FailedFlag => s.result.explicitFailure
    case SimulatedEvidence => s.run.mode == Simulation && s.run.environmentRequired
    case FingerprintUnbound => Backed(s.run) && s.run.proof == None
    case EnvironmentDown => Backed(s.run) && s.id.OpTask? && s.run.status != EnvironmentReady
    case NoEvidence => s.result.evidence.None? || s.result.digests.None?
  }

  /** The result and its report both state whose they are. */
  predicate ClaimsFlawed(o: ClaimFlaw, claims: Claims, s: Submitted) {
    match o
    case OtherTask => claims.task != Some(s.id)
    case OtherKey => claims.key != Some(s.id.key)
    case OtherStage => claims.queue != Some(if s.id.DiagTask? then DiagnosisQueue else OperatorQueue(s.id.stage))
    case OtherAttempt => claims.attempt != Some(s.task.attempt)
    case OtherFingerprint => claims.fingerprint != Some(s.run.proof)
    case OtherMode => claims.mode != Some(s.run.mode)
  }

  predicate EvidenceFlawed(o: EvidenceFlaw, name: string, s: Submitted) {
    match o
    case Absent => Demanded(s.id, name) && !Names(s, name)
    case NoPath => Names(s, name) && s.result.evidence.value[name] == None
    case Elsewhere =>
      && HasPath(s, name) && s.task.input.workspace.Some?
      && s.result.evidence.value[name].value.workspace != s.task.input.workspace
    case NotAFile => HasPath(s, name) && !HasFile(s, name)
    case Empty => HasFile(s, name) && |FileOf(s, name).text| == 0
    case Altered => HasFile(s, name) && s.result.digests.Some? && !DigestMatches(s, name)
  }

  predicate DigestMatches(s: Submitted, name: string)
    requires HasFile(s, name) && s.result.digests.Some?
  {
    name in s.result.digests.value && s.result.digests.value[name] == FileOf(s, name)
  }

  /** A diagnosis report and the result repeat one usable conclusion. */
  predicate ConclusionFlawed(o: ConclusionFlaw, reported: Conclusion, s: Submitted) {
    match o
    case Differs => reported != s.result.conclusion
    case DiagnosisEmpty => reported.diagnosis == ""
    case RepairEmpty => reported.repair == ""
    case ActionMissing => reported.action == None
    case ActionUnknown =>
      && reported.action.Some?
      && reported.action.value !in {Retry, Blocked, RediscoverOperator, DispatchTorchFix, DispatchXpuFix}
    case ConfidenceMissing => reported.confidence == None
    case ConfidenceOutOfRange =>
      reported.confidence.Some? && (reported.confidence.value < 0.0 || reported.confidence.value > 1.0)
  }

  /** An independent validation is by somebody else, and every named check passed. */
  predicate ReviewFlawed(o: ReviewFlaw, report: Report, s: Submitted) {
    match o
    case ValidatorMissing => report.validator == None
    case ValidatorUnnamed => report.validator == Some("")
    case ValidatorIsProducer => report.validator == Some(s.worker)
    case NoChecks => |report.checks| == 0
    case CheckUnnamed(i) => i < |report.checks| && report.checks[i].name == ""
    case CheckFailed(i) => i < |report.checks| && !report.checks[i].passed
  }

  /** And it binds the digest of every other piece of evidence, and nothing else. */
  predicate BindingFlawed(o: BindingFlaw, name: string, report: Report, s: Submitted) {
    match o
    case Unbound => Names(s, name) && name != "independent_validation" && name !in report.digests
    case BoundOtherwise => HasFile(s, name) && name in report.digests && report.digests[name] != FileOf(s, name)
    case BoundWithoutEvidence => name in report.digests && (!Names(s, name) || name == "independent_validation")
  }

  predicate Raised(o: Objection, s: Submitted) {
    match o
    case ToResult(flaw) => ResultFlawed(flaw, s)
    case ToClaims(flaw) => ClaimsFlawed(flaw, s.result.claims, s)
    case ToEvidence(name, flaw) => EvidenceFlawed(flaw, name, s)
    case NoReadableReport => !HasReport(s)
    case ToReportClaims(flaw) => HasReport(s) && ClaimsFlawed(flaw, ReportOf(s).claims, s)
    case ReportVerdict => HasReport(s) && !ReportOf(s).pass
    case ToConclusion(flaw) => s.id.DiagTask? && HasReport(s) && ConclusionFlawed(flaw, ReportOf(s).conclusion, s)
    case ToReview(flaw) => s.id.OpTask? && HasReport(s) && ReviewFlawed(flaw, ReportOf(s), s)
    case ToBinding(name, flaw) => s.id.OpTask? && HasReport(s) && BindingFlawed(flaw, name, ReportOf(s), s)
  }

  ghost predicate Flawless(s: Submitted) { forall o :: !Raised(o, s) }

  predicate AcceptsIt(s: Submitted) { Accepts(s.id, s.task, s.run, s.result, s.worker, s.files) }

  // ---- the table is exactly what acceptance means ----

  lemma ResultExactly(s: Submitted)
    ensures (forall o :: !ResultFlawed(o, s)) <==>
              && HeaderAccepted(s.result) && RunAdmits(QueueOf(s.id), s.run)
              && s.result.evidence.Some? && s.result.digests.Some?
  {
    if forall o :: !ResultFlawed(o, s) {
      assert !ResultFlawed(WrongSchema, s) && !ResultFlawed(NoVerdict, s) && !ResultFlawed(FailedFlag, s);
      assert !ResultFlawed(SimulatedEvidence, s) && !ResultFlawed(FingerprintUnbound, s);
      assert !ResultFlawed(EnvironmentDown, s) && !ResultFlawed(NoEvidence, s);
      forall i | 0 <= i < |s.result.pass| ensures s.result.pass[i] { assert !ResultFlawed(VerdictNotPass(i), s); }
    }
  }

  lemma ClaimsExactly(claims: Claims, s: Submitted)
    ensures (forall o :: !ClaimsFlawed(o, claims, s)) <==> claims == ExpectedClaims(s.id, s.task, s.run)
  {
    if forall o :: !ClaimsFlawed(o, claims, s) {
      assert !ClaimsFlawed(OtherTask, claims, s) && !ClaimsFlawed(OtherKey, claims, s);
      assert !ClaimsFlawed(OtherStage, claims, s) && !ClaimsFlawed(OtherAttempt, claims, s);
      assert !ClaimsFlawed(OtherFingerprint, claims, s) && !ClaimsFlawed(OtherMode, claims, s);
    }
  }

  lemma EntryExactly(name: string, s: Submitted)
    requires s.result.evidence.Some? && s.result.digests.Some?
    ensures (forall o :: !EvidenceFlawed(o, name, s)) <==>
              && (Demanded(s.id, name) ==> Names(s, name))
              && (Names(s, name) ==>
                    EntryAccepted(s.task, s.result.evidence.value[name], Lookup(s.result.digests.value, name), s.files))
  {
    if forall o :: !EvidenceFlawed(o, name, s) {
      assert !EvidenceFlawed(Absent, name, s) && !EvidenceFlawed(NoPath, name, s);
      assert !EvidenceFlawed(Elsewhere, name, s) && !EvidenceFlawed(NotAFile, name, s);
      assert !EvidenceFlawed(Empty, name, s) && !EvidenceFlawed(Altered, name, s);
    }
  }

  predicate EntryClear(name: string, s: Submitted) { forall o :: !EvidenceFlawed(o, name, s) }

  lemma EvidenceExactly(s: Submitted)
    requires s.result.evidence.Some? && s.result.digests.Some?
    ensures (forall name :: EntryClear(name, s)) <==> EvidenceAccepted(s.id, s.task, s.result, s.files)
  {
    forall name: string ensures Demanded(s.id, name) <==> name in RequiredEvidence(QueueOf(s.id)) {}
    if forall name :: EntryClear(name, s) {
      forall name: string
        ensures Demanded(s.id, name) ==> Names(s, name)
        ensures Names(s, name) ==>
                  EntryAccepted(s.task, s.result.evidence.value[name], Lookup(s.result.digests.value, name), s.files)
      {
        assert EntryClear(name, s);
        EntryExactly(name, s);
      }
    }
    if EvidenceAccepted(s.id, s.task, s.result, s.files) {
      forall name ensures EntryClear(name, s) { EntryExactly(name, s); }
    }
  }

  lemma ConclusionExactly(reported: Conclusion, s: Submitted)
    ensures (forall o :: !ConclusionFlawed(o, reported, s)) <==> ConclusionAccepted(s.result.conclusion, reported)
  {
    if forall o :: !ConclusionFlawed(o, reported, s) {
      assert !ConclusionFlawed(Differs, reported, s) && !ConclusionFlawed(DiagnosisEmpty, reported, s);
      assert !ConclusionFlawed(RepairEmpty, reported, s) && !ConclusionFlawed(ActionMissing, reported, s);
      assert !ConclusionFlawed(ActionUnknown, reported, s) && !ConclusionFlawed(ConfidenceMissing, reported, s);
      assert !ConclusionFlawed(ConfidenceOutOfRange, reported, s);
    }
  }

  lemma ReviewExactly(report: Report, s: Submitted)
    ensures (forall o :: !ReviewFlawed(o, report, s)) <==> ReviewAccepted(report, s.worker)
  {
    if forall o :: !ReviewFlawed(o, report, s) {
      assert !ReviewFlawed(ValidatorMissing, report, s) && !ReviewFlawed(ValidatorUnnamed, report, s);
      assert !ReviewFlawed(ValidatorIsProducer, report, s) && !ReviewFlawed(NoChecks, report, s);
      forall i | 0 <= i < |report.checks| ensures report.checks[i].name != "" && report.checks[i].passed {
        assert !ReviewFlawed(CheckUnnamed(i), report, s) && !ReviewFlawed(CheckFailed(i), report, s);
      }
    }
  }

  predicate BindingClear(name: string, report: Report, s: Submitted) { forall o :: !BindingFlawed(o, name, report, s) }

  lemma BindingExactly(report: Report, s: Submitted)
    requires s.id.OpTask? && s.result.evidence.Some? && s.result.digests.Some?
    requires EvidenceAccepted(s.id, s.task, s.result, s.files)
    ensures (forall name :: BindingClear(name, report, s)) <==> report.digests == BoundDigests(s.id, s.result)
  {
    var bound := BoundDigests(s.id, s.result);
    forall name
      ensures BindingClear(name, report, s) <==>
                && (name in report.digests <==> name in bound)
                && (name in bound ==> report.digests[name] == bound[name])
    {
      BindingOfName(name, report, s);
    }
    if forall name :: BindingClear(name, report, s) {
      forall name ensures name in report.digests <==> name in bound
                  ensures name in bound ==> report.digests[name] == bound[name]
      {
        assert BindingClear(name, report, s);
      }
      assert report.digests.Keys == bound.Keys;
    }
  }

  lemma BindingOfName(name: string, report: Report, s: Submitted)
    requires s.id.OpTask? && s.result.evidence.Some? && s.result.digests.Some?
    requires EvidenceAccepted(s.id, s.task, s.result, s.files)
    ensures var bound := BoundDigests(s.id, s.result);
            BindingClear(name, report, s) <==>
              && (name in report.digests <==> name in bound)
              && (name in bound ==> report.digests[name] == bound[name])
  {
    if Names(s, name) {
      assert EntryAccepted(s.task, s.result.evidence.value[name], Lookup(s.result.digests.value, name), s.files);
    }
    if BindingClear(name, report, s) {
      assert !BindingFlawed(Unbound, name, report, s) && !BindingFlawed(BoundOtherwise, name, report, s);
      assert !BindingFlawed(BoundWithoutEvidence, name, report, s);
    }
  }

  // ---- the pieces put together ----

  lemma AcceptedReport(s: Submitted)
    requires AcceptsIt(s)
    ensures HasReport(s) && s.result.evidence.Some? && s.result.digests.Some?
    ensures ReportAccepted(s.id, s.task, s.run, s.result, s.worker, ReportOf(s))
  {
    EvidenceExactly(s);
    assert EntryClear(ReviewName(s.id), s);
    EntryExactly(ReviewName(s.id), s);
  }

  lemma AcceptedRaisesNothing(s: Submitted, o: Objection)
    requires AcceptsIt(s)
    ensures !Raised(o, s)
  {
    AcceptedReport(s);
    match o {
      case ToResult(flaw) => ResultExactly(s);
      case ToClaims(flaw) => ClaimsExactly(s.result.claims, s);
      case ToEvidence(name, flaw) =>
        EvidenceExactly(s);
        assert EntryClear(name, s);
      case NoReadableReport =>
      case ToReportClaims(flaw) => ClaimsExactly(ReportOf(s).claims, s);
      case ReportVerdict =>
      case ToConclusion(flaw) => if s.id.DiagTask? { ConclusionExactly(ReportOf(s).conclusion, s); }
      case ToReview(flaw) => if s.id.OpTask? { ReviewExactly(ReportOf(s), s); }
      case ToBinding(name, flaw) =>
        if s.id.OpTask? {
          BindingExactly(ReportOf(s), s);
          assert BindingClear(name, ReportOf(s), s);
        }
    }
  }

  lemma FlawlessResult(s: Submitted)
    requires Flawless(s)
    ensures HeaderAccepted(s.result) && RunAdmits(QueueOf(s.id), s.run)
    ensures s.result.claims == ExpectedClaims(s.id, s.task, s.run)
    ensures s.result.evidence.Some? && s.result.digests.Some?
    ensures EvidenceAccepted(s.id, s.task, s.result, s.files)
  {
    forall o ensures !ResultFlawed(o, s) { assert !Raised(ToResult(o), s); }
    ResultExactly(s);
    forall o ensures !ClaimsFlawed(o, s.result.claims, s) { assert !Raised(ToClaims(o), s); }
    ClaimsExactly(s.result.claims, s);
    forall name ensures EntryClear(name, s) {
      forall o ensures !EvidenceFlawed(o, name, s) { assert !Raised(ToEvidence(name, o), s); }
    }
    EvidenceExactly(s);
  }

  lemma FlawlessReport(s: Submitted)
    requires Flawless(s) && HasReport(s) && s.result.evidence.Some? && s.result.digests.Some?
    requires EvidenceAccepted(s.id, s.task, s.result, s.files)
    ensures ReportAccepted(s.id, s.task, s.run, s.result, s.worker, ReportOf(s))
  {
    var report := ReportOf(s);
    assert !Raised(ReportVerdict, s);
    forall o ensures !ClaimsFlawed(o, report.claims, s) { assert !Raised(ToReportClaims(o), s); }
    ClaimsExactly(report.claims, s);
    if s.id.DiagTask? {
      forall o ensures !ConclusionFlawed(o, report.conclusion, s) { assert !Raised(ToConclusion(o), s); }
      ConclusionExactly(report.conclusion, s);
    } else {
      forall o ensures !ReviewFlawed(o, report, s) { assert !Raised(ToReview(o), s); }
      ReviewExactly(report, s);
      forall name ensures BindingClear(name, report, s) {
        forall o ensures !BindingFlawed(o, name, report, s) { assert !Raised(ToBinding(name, o), s); }
      }
      BindingExactly(report, s);
    }
  }

  /** A result is accepted exactly when no objection stands. */
  lemma AcceptedExactly(s: Submitted)
    ensures AcceptsIt(s) <==> Flawless(s)
  {
    if AcceptsIt(s) {
      forall o ensures !Raised(o, s) { AcceptedRaisesNothing(s, o); }
    }
    if Flawless(s) {
      FlawlessResult(s);
      assert !Raised(NoReadableReport, s);
      FlawlessReport(s);
    }
  }

  // ---- in plain words ----

  /** Every submitted verdict is PASS, nothing says failed, and the report submitted
      under its name says PASS too; for an operator row it is somebody else's, with at
      least one check, all of them passed. */
  predicate Passed(id: TaskId, result: WorkResult, worker: Worker, files: Files) {
    && result.pass != [] && (forall i :: 0 <= i < |result.pass| ==> result.pass[i]) && !result.explicitFailure
    && var name := if id.DiagTask? then "diagnosis_report" else "independent_validation";
    && result.evidence.Some? && name in result.evidence.value && result.evidence.value[name].Some?
    && var path := result.evidence.value[name].value;
    && path in files && files[path].Regular? && files[path].content.report.Some?
    && var report := files[path].content.report.value;
    && report.pass
    && (id.OpTask? ==>
          && report.validator.Some? && report.validator.value != worker
          && report.checks != [] && forall i :: 0 <= i < |report.checks| ==> report.checks[i].passed)
  }

  lemma FlawlessMeansPassed(s: Submitted)
    requires Flawless(s)
    ensures Passed(s.id, s.result, s.worker, s.files)
  {
    assert !Raised(ToResult(NoVerdict), s) && !Raised(ToResult(FailedFlag), s);
    assert !Raised(NoReadableReport, s) && !Raised(ReportVerdict, s);
    forall i | 0 <= i < |s.result.pass| ensures s.result.pass[i] { assert !Raised(ToResult(VerdictNotPass(i)), s); }
    if s.id.OpTask? {
      assert !Raised(ToReview(ValidatorMissing), s) && !Raised(ToReview(ValidatorIsProducer), s);
      assert !Raised(ToReview(NoChecks), s);
      forall i | 0 <= i < |ReportOf(s).checks| ensures ReportOf(s).checks[i].passed {
        assert !Raised(ToReview(CheckFailed(i)), s);
      }
    }
  }

  /** The evidence is where it was said to be: each path names a non-empty file of the
      row's attempt whose content is the submitted digest. */
  predicate EvidenceStands(task: Task, result: WorkResult, files: Files) {
    && result.evidence.Some? && result.digests.Some?
    && forall name :: name in result.evidence.value ==>
         && var path := result.evidence.value[name];
         && path.Some? && path.value in files && files[path.value].Regular?
         && name in result.digests.value && files[path.value].content == result.digests.value[name]
         && files[path.value].content.text != ""
         && (task.input.workspace.Some? ==> path.value.workspace == task.input.workspace)
  }

  lemma FlawlessMeansEvidence(s: Submitted)
    requires Flawless(s)
    ensures EvidenceStands(s.task, s.result, s.files)
  {
    assert !Raised(ToResult(NoEvidence), s);
    forall name | name in s.result.evidence.value
      ensures HasFile(s, name) && DigestMatches(s, name) && FileOf(s, name).text != ""
      ensures s.task.input.workspace.Some? ==>
                s.result.evidence.value[name].value.workspace == s.task.input.workspace
    {
      assert !Raised(ToEvidence(name, NoPath), s) && !Raised(ToEvidence(name, NotAFile), s);
      assert !Raised(ToEvidence(name, Elsewhere), s) && !Raised(ToEvidence(name, Empty), s);
      assert !Raised(ToEvidence(name, Altered), s);
    }
  }
}
