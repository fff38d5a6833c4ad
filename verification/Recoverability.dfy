/** Exactly which operators of a ready run can still be driven to the end. */
module Recoverability {
  import opened Base
  import opened SchedulerState
  import opened ResultValidation
  import opened Transitions
  import opened Tally
  import opened Invariants
  import opened Claiming
  import opened Runs
  import opened Evolution
  import opened Safety

  predicate Finished(db: Db, r: RunId, k: OperatorKey) {
    StageSucceeded(db, OpTask(r, k, Torch)) && StageSucceeded(db, OpTask(r, k, Xpu))
    && StageSucceeded(db, OpTask(r, k, Integration))
  }

  /** A failed row whose diagnosis cannot lead to a retry. */
  predicate WedgedAt(db: Db, id: TaskId) {
    && id.OpTask? && id in db.tasks && db.tasks[id].status.Failed?
    && DiagnosisOf(id) in db.tasks
    && var d := db.tasks[DiagnosisOf(id)];
    && (d.status.Failed? || (d.status.Succeeded? && d.output.result.conclusion.action != Some(Retry)))
  }

  predicate Wedged(db: Db, r: RunId, k: OperatorKey) {
    WedgedAt(db, OpTask(r, k, Torch)) || WedgedAt(db, OpTask(r, k, Xpu)) || WedgedAt(db, OpTask(r, k, Integration))
  }

  predicate ReadyRun(db: Db, r: RunId) {
    r in db.runs && db.runs[r].mode.Real? && db.runs[r].status.EnvironmentReady?
  }

  // ---- wedged is absorbing ----

  lemma WedgedStays(w: World, w': World, id: TaskId)
    requires WedgedAt(w.db, id) && Evolves(w, w', id) && Evolves(w, w', DiagnosisOf(id))
    ensures WedgedAt(w'.db, id)
  {
    assert SourceOf(DiagnosisOf(id)) == id;
  }

  lemma {:induction false} WedgedForever(w: World, moves: seq<Move>, id: TaskId)
    requires Sound(w) && WedgedAt(w.db, id)
    ensures WedgedAt(Exec(w, moves).db, id)
  {
    if moves != [] {
      var n := |moves| - 1;
      WedgedForever(w, moves[..n], id);
      SoundAfter(w, moves[..n]);
      StepEvolves(Exec(w, moves[..n]), moves[n], id);
      StepEvolves(Exec(w, moves[..n]), moves[n], DiagnosisOf(id));
      WedgedStays(Exec(w, moves[..n]), Exec(w, moves), id);
    }
  }

  lemma WedgedNeverFinishes(w: World, moves: seq<Move>, r: RunId, k: OperatorKey)
    requires Sound(w) && Wedged(w.db, r, k)
    ensures !Finished(Exec(w, moves).db, r, k)
  {
    var s := if WedgedAt(w.db, OpTask(r, k, Torch)) then Torch
             else if WedgedAt(w.db, OpTask(r, k, Xpu)) then Xpu
             else Integration;
    WedgedForever(w, moves, OpTask(r, k, s));
  }

  // ---- an acceptable result always exists ----

  function PlainContent(): Content { Content("evidence", None) }

  function WitnessConclusion(): Conclusion { Conclusion("cause", "repair", Some(Retry), Some(0.5)) }

  function WitnessReport(id: TaskId, task: Task, run: Run): Report {
    Report(ExpectedClaims(id, task, run), true, Some("validator"), [Check("check", true)],
           map key | key in RequiredEvidence(QueueOf(id)) - {ReportKey(QueueOf(id))} :: PlainContent(),
           WitnessConclusion())
  }

  function WitnessContent(id: TaskId, task: Task, run: Run, key: string): Content {
    if key == ReportKey(QueueOf(id)) then Content("report", Some(WitnessReport(id, task, run))) else PlainContent()
  }

  function WitnessResult(id: TaskId, task: Task, run: Run): WorkResult {
    WorkResult(Some(1), [true], false, ExpectedClaims(id, task, run),
               Some(map key | key in RequiredEvidence(QueueOf(id)) :: Some(EvidencePath(task.input.workspace, key))),
               Some(map key | key in RequiredEvidence(QueueOf(id)) :: WitnessContent(id, task, run, key)),
               WitnessConclusion())
  }

  function WitnessFiles(id: TaskId, task: Task, run: Run): Files {
    map key | key in RequiredEvidence(QueueOf(id)) ::
      EvidencePath(task.input.workspace, key) := Regular(WitnessContent(id, task, run, key))
  }

  lemma WitnessAccepted(id: TaskId, task: Task, run: Run, worker: Worker)
    requires RunAdmits(QueueOf(id), run) && worker != "validator"
    ensures Accepts(id, task, run, WitnessResult(id, task, run), worker, WitnessFiles(id, task, run))
  {
    var result, files := WitnessResult(id, task, run), WitnessFiles(id, task, run);
    var required := RequiredEvidence(QueueOf(id));
    assert ReportKey(QueueOf(id)) in required;
    forall key | key in required
      ensures EntryAccepted(task, result.evidence.value[key], Lookup(result.digests.value, key), files)
    {
      assert EvidencePath(task.input.workspace, key) in files;
    }
    assert BoundDigests(id, result) == WitnessReport(id, task, run).digests;
  }

  // ---- taking a row ----

  lemma ExecOne(w: World, m: Move)
    ensures Exec(w, [m]) == After(w, m)
  {
    assert [m][..0] == [];
  }

  lemma ExecTwo(w: World, a: Move, b: Move)
    ensures Exec(w, [a, b]) == After(After(w, a), b)
  {
    ExecOne(w, a);
    assert [a, b][..1] == [a];
  }

  function Grab(w: World): seq<Move> {
    [Move(0, RecoverStep(true)), Move(0, ClaimStep("worker", None, 1, |w.db.order| + 1, map[]))]
  }

  /** Settled rows are out of reach of recovery and claiming. */
  ghost predicate SettledKept(db: Db, db': Db) {
    && db'.runs == db.runs
    && forall x :: x in db.tasks && (db.tasks[x].status.Failed? || db.tasks[x].status.Succeeded?) ==>
         x in db'.tasks && db'.tasks[x] == db.tasks[x]
  }

  ghost predicate Held(w: World, id: TaskId) {
    && id in w.db.tasks
    && var t := w.db.tasks[id];
    && t.status.Running? && t.worker == Some("worker") && t.token.Some? && t.expires.Some? && w.now < t.expires.value
  }

  lemma AllEligibleChosen(db: Db, id: TaskId)
    requires Ordered(db) && id in db.tasks && db.tasks[id].status.Pending? && DepsSucceeded(db, id)
    ensures id in Chosen(db, None, |db.order| + 1)
  {
    assert Listed(db, id);
    assert Waiting(db, None, id);
    var candidates := Candidates(db, None);
    assert id in candidates;
    var eligible := Eligible(db, candidates);
    assert id in eligible && |eligible| <= |candidates| <= |db.order|;
    assert eligible[..|eligible|] == eligible;
  }

  lemma ClaimTakes(w: World, w': World, id: TaskId)
    requires Sound(w) && id in w.db.tasks && w.db.tasks[id].status.Pending? && DepsSucceeded(w.db, id)
    requires forall x :: x in w.db.tasks ==> !w.db.tasks[x].status.Running?
    requires w' == After(w, Move(0, ClaimStep("worker", None, 1, |w.db.order| + 1, map[])))
    ensures Held(w', id) && SettledKept(w.db, w'.db)
  {
    var m := Move(0, ClaimStep("worker", None, 1, |w.db.order| + 1, map[]));
    var released := Released(w.db, w.now, false);
    assert released.tasks == w.db.tasks;
    var ids := Chosen(w.db, None, |w.db.order| + 1);
    assert Ordered(w.db) by { LawfulIsInv(w.db, w.minted); }
    AllEligibleChosen(w.db, id);
    ChosenClaimable(w.db, None, |w.db.order| + 1);
    assert w'.db == ClaimAll(w.db, ids, "worker", w.minted, w.now + 1, map[]);
    ClaimAllFrame(w.db, ids, "worker", w.minted, w.now + 1, map[]);
    var i :| 0 <= i < |ids| && ids[i] == id;
    ClaimAllRows(w.db, ids, "worker", w.minted, w.now + 1, map[], i);
  }

  lemma RecoverReleases(w: World, w1: World)
    requires w1 == After(w, Move(0, RecoverStep(true)))
    ensures w1.db == Released(w.db, w.now, true) && w1.now == w.now && SettledKept(w.db, w1.db)
    ensures forall x :: x in w1.db.tasks ==> !w1.db.tasks[x].status.Running?
  {
  }

  lemma GrabTakes(w: World, id: TaskId)
    requires Sound(w) && id in w.db.tasks && DepsSucceeded(w.db, id)
    requires w.db.tasks[id].status.Pending? || w.db.tasks[id].status.Running?
    ensures var w' := Exec(w, Grab(w));
            Sound(w') && Held(w', id) && SettledKept(w.db, w'.db)
  {
    var w1 := After(w, Move(0, RecoverStep(true)));
    StepKeeps(w, Move(0, RecoverStep(true)));
    DepsIgnoreLeases(w.db, w.now, true, id);
    RecoverReleases(w, w1);
    ExecTwo(w, Grab(w)[0], Grab(w)[1]);
    assert Grab(w) == [Grab(w)[0], Grab(w)[1]];
    ClaimTakes(w1, Exec(w, Grab(w)), id);
    SoundAfter(w, Grab(w));
  }

  function Finish(w: World, id: TaskId): Move
    requires id in w.db.tasks && id.run in w.db.runs && w.db.tasks[id].token.Some?
  {
    var task, run := w.db.tasks[id], w.db.runs[id.run];
    Move(0, CompleteStep(id, Presented(None, task.token.value), WitnessResult(id, task, run),
                         WitnessFiles(id, task, run), true))
  }

  lemma FinishIsAccepted(w: World, id: TaskId)
    requires Sound(w) && Held(w, id) && id.run in w.db.runs && RunAdmits(QueueOf(id), w.db.runs[id.run])
    ensures After(w, Finish(w, id)).db == SucceedRow(w.db, id, WitnessResult(id, w.db.tasks[id], w.db.runs[id.run]))
  {
    WitnessAccepted(id, w.db.tasks[id], w.db.runs[id.run], "worker");
    assert (id.run, id.key) in w.db.operators by { ContractOf(w, id); }
  }

  lemma FinishSucceeds(w: World, id: TaskId)
    requires Sound(w) && Held(w, id) && id.run in w.db.runs && RunAdmits(QueueOf(id), w.db.runs[id.run])
    ensures var w' := After(w, Finish(w, id));
            && Sound(w') && StageSucceeded(w'.db, id) && w'.db.runs == w.db.runs
            && w'.db.tasks[id].output.result.conclusion.action == Some(Retry)
            && (forall x :: x in w.db.tasks && x != id ==> x in w'.db.tasks && w'.db.tasks[x] == w.db.tasks[x])
            && (Advances(id) ==> Next(id) in w'.db.tasks && w'.db.tasks[Next(id)].status.Pending?)
  {
    var task, run := w.db.tasks[id], w.db.runs[id.run];
    FinishIsAccepted(w, id);
    StepKeeps(w, Finish(w, id));
    assert Inv(w.db, w.minted) by { LawfulIsInv(w.db, w.minted); }
    SucceedRowEffect(w.db, w.minted, id, WitnessResult(id, task, run));
  }

  lemma ContractOf(w: World, id: TaskId)
    requires Sound(w) && id in w.db.tasks
    ensures (id.run, id.key) in w.db.operators && id.run in w.db.runs
    ensures ReadyRun(w.db, id.run) ==> DepsSucceeded(w.db, id) && RunAdmits(QueueOf(id), w.db.runs[id.run])
  {
    LawfulIsInv(w.db, w.minted);
    assert PipelineAt(w.db, id.run, id.key) && DiagnosedAt(w.db, id.run, id.key, id.stage);
    assert EnvironmentAt(w.db, id.run);
    match id.stage {
      case Torch => assert SourceOf(id) == OpTask(id.run, id.key, Torch);
      case Xpu => assert SourceOf(id) == OpTask(id.run, id.key, Xpu);
      case Integration => assert SourceOf(id) == OpTask(id.run, id.key, Integration);
    }
    assert id.OpTask? ==> id == SourceOf(id);
  }

  /** Any queued or running row of a ready run can be taken over and finished. */
  lemma QueuedRowFinishes(w: World, id: TaskId) returns (moves: seq<Move>)
    requires Sound(w) && ReadyRun(w.db, id.run) && id in w.db.tasks
    requires w.db.tasks[id].status.Pending? || w.db.tasks[id].status.Running?
    ensures var w' := Exec(w, moves);
            && Sound(w') && StageSucceeded(w'.db, id) && w'.db.runs == w.db.runs
            && w'.db.tasks[id].output.result.conclusion.action == Some(Retry)
            && (forall x :: x in w.db.tasks && w.db.tasks[x].status.Failed? ==>
                  x in w'.db.tasks && w'.db.tasks[x] == w.db.tasks[x])
            && (Advances(id) ==> Next(id) in w'.db.tasks && w'.db.tasks[Next(id)].status.Pending?)
  {
    ContractOf(w, id);
    GrabTakes(w, id);
    var w1 := Exec(w, Grab(w));
    FinishSucceeds(w1, id);
    moves := Grab(w) + [Finish(w1, id)];
    ExecConcat(w, Grab(w), [Finish(w1, id)]);
    ExecOne(w1, Finish(w1, id));
  }

  /** A failed row that is not wedged can be brought back to the queue. */
  lemma FailedRowRequeues(w: World, id: TaskId) returns (moves: seq<Move>)
    requires Sound(w) && ReadyRun(w.db, id.run) && id.OpTask? && id in w.db.tasks
    requires w.db.tasks[id].status.Failed? && !WedgedAt(w.db, id)
    ensures var w' := Exec(w, moves);
            && Sound(w') && w'.db.runs == w.db.runs && id in w'.db.tasks && w'.db.tasks[id].status.Pending?
  {
    var d := DiagnosisOf(id);
    assert d in w.db.tasks by {
      LawfulIsInv(w.db, w.minted);
      assert DiagnosedAt(w.db, id.run, id.key, id.stage);
    }
    var before := [];
    if !w.db.tasks[d].status.Succeeded? {
      before := QueuedRowFinishes(w, d);
    }
    var w1 := Exec(w, before);
    var apply := Move(0, ApplyStep(d));
    assert Inv(w1.db, w1.minted) by { LawfulIsInv(w1.db, w1.minted); }
    assert SourceOf(d) == id;
    RetryStillOpen(w1.db, w1.minted, d);
    ApplyOutcome(w1.db, w1.minted, d);
    StepKeeps(w1, apply);
    moves := before + [apply];
    ExecConcat(w, before, [apply]);
    ExecOne(w1, apply);
  }

  lemma StageDriven(w: World, id: TaskId) returns (moves: seq<Move>)
    requires Sound(w) && ReadyRun(w.db, id.run) && id.OpTask? && id in w.db.tasks && !WedgedAt(w.db, id)
    ensures var w' := Exec(w, moves);
            && Sound(w') && StageSucceeded(w'.db, id) && w'.db.runs == w.db.runs
            && (moves != [] && Advances(id) ==> Next(id) in w'.db.tasks && w'.db.tasks[Next(id)].status.Pending?)
  {
    if w.db.tasks[id].status.Succeeded? {
      moves := [];
    } else {
      var before := [];
      if w.db.tasks[id].status.Failed? {
        before := FailedRowRequeues(w, id);
      }
      var after := QueuedRowFinishes(Exec(w, before), id);
      ExecConcat(w, before, after);
      moves := before + after;
    }
  }

  /** Drive one stage, then hand over to the next. */
  lemma StageHandsOver(w: World, id: TaskId) returns (moves: seq<Move>)
    requires Sound(w) && ReadyRun(w.db, id.run) && id in w.db.tasks && Advances(id)
    requires !WedgedAt(w.db, id) && !WedgedAt(w.db, Next(id))
    ensures var w' := Exec(w, moves);
            && Sound(w') && StageSucceeded(w'.db, id) && w'.db.runs == w.db.runs
            && Next(id) in w'.db.tasks && !WedgedAt(w'.db, Next(id))
            && (moves != [] ==> w'.db.tasks[Next(id)].status.Pending?) && (moves == [] ==> w' == w)
  {
    moves := StageDriven(w, id);
    if moves == [] {
      LawfulIsInv(w.db, w.minted);
      assert PipelineAt(w.db, id.run, id.key);
    }
  }

  lemma Driven(w: World, r: RunId, k: OperatorKey) returns (moves: seq<Move>)
    requires Sound(w) && ReadyRun(w.db, r) && (r, k) in w.db.operators && !Wedged(w.db, r, k)
    ensures Finished(Exec(w, moves).db, r, k)
  {
    var torch, xpu, integration := OpTask(r, k, Torch), OpTask(r, k, Xpu), OpTask(r, k, Integration);
    assert PipelineAt(w.db, r, k) by { LawfulIsInv(w.db, w.minted); }
    var a := StageHandsOver(w, torch);
    var w1 := Exec(w, a);
    assert !WedgedAt(w1.db, integration) by {
      if a != [] {
        LawfulIsInv(w1.db, w1.minted);
        assert PipelineAt(w1.db, r, k);
      }
    }
    var b := StageHandsOver(w1, xpu);
    var w2 := Exec(w1, b);
    var c := StageDriven(w2, integration);
    SucceededForever(w1, b, torch);
    SucceededForever(w2, c, torch);
    SucceededForever(w2, c, xpu);
    moves := a + b + c;
    ExecConcat(w, a, b);
    ExecConcat(w, a + b, c);
  }

  /** The schedule `moves` takes the operator to the end. */
  predicate Drives(w: World, moves: seq<Move>, r: RunId, k: OperatorKey) { Finished(Exec(w, moves).db, r, k) }

  /** Exact recoverability: in a ready real run an operator can be driven by some
      finite schedule to three succeeded stages if and only if it is not wedged. */
  lemma ExactRecoverability(w: World, r: RunId, k: OperatorKey)
    requires Reachable(w) && ReadyRun(w.db, r) && (r, k) in w.db.operators
    ensures (exists moves :: Drives(w, moves, r, k)) <==> !Wedged(w.db, r, k)
  {
    ReachableSound(w);
    if Wedged(w.db, r, k) {
      forall moves ensures !Drives(w, moves, r, k) { WedgedNeverFinishes(w, moves, r, k); }
    } else {
      var moves := Driven(w, r, k);
      assert Drives(w, moves, r, k);
    }
  }
}
