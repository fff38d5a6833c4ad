/** engine/progress.py: the read-only explanation of a run's state. */
module Progress {
  import opened Base
  import opened SchedulerState
  import opened Transitions
  import opened Invariants
  import opened Runs
  import opened Recoverability
  import Reconciliation

  datatype ViewState = Blocking | ActionRequired | InProgress | Queued | Completed
  datatype Reason =
    | LeaseExpired | WorkerRunning | DependencyPending | DiagnosisPending | WorkerUnclaimed
    | DiagnosisConsumed | DiagnosisNotApplied | DiagnosisBlocked | NeedsExternalRepair
    | DiagnosisAvailable | WaitingForDiagnosis | TaskHasFailed | TaskComplete
  datatype View = View(task: TaskId, state: ViewState, reason: Reason)

  /** The diagnosis row that explains this attempt of `id`, if `ids` has one. */
  function ExplainedBy(db: Db, ids: seq<TaskId>, id: TaskId, attempt: nat): Option<TaskId> {
    if ids == [] then None
    else if ids[0] in db.tasks && ids[0].DiagTask? && db.tasks[ids[0]].input.sourceTask == Some(id)
            && db.tasks[ids[0]].input.sourceAttempt == Some(attempt) then Some(ids[0])
    else ExplainedBy(db, ids[1..], id, attempt)
  }

  function DiagnosisView(db: Db, ids: seq<TaskId>, id: TaskId): View
    requires id in db.tasks
  {
    var task := db.tasks[id];
    var source := task.input.sourceTask;
    var action := task.output.result.conclusion.action;
    var current := source.Some? && source.value in ids && source.value in db.tasks
      && db.tasks[source.value].status.Failed? && Some(db.tasks[source.value].attempt) == task.input.sourceAttempt;
    var applied := AlreadyApplied(db, id);
    if !current || (applied && action == Some(Retry)) then View(id, Completed, DiagnosisConsumed)
    else if (action == Some(Retry) || action == Some(Blocked)) && !applied then
      View(id, ActionRequired, DiagnosisNotApplied)
    else View(id, Blocking, if action == Some(Blocked) then DiagnosisBlocked else NeedsExternalRepair)
  }

  function TaskProgress(db: Db, ids: seq<TaskId>, id: TaskId, now: Time): View
    requires id in db.tasks
  {
    var task := db.tasks[id];
    if task.status.Running? then
      if Overdue(task, now, false) then View(id, ActionRequired, LeaseExpired) else View(id, InProgress, WorkerRunning)
    else if task.status.Pending? then
      if id.OpTask? && !id.stage.Torch? && !(Previous(id) in ids && StageSucceeded(db, Previous(id))) then
        View(id, Queued, DependencyPending)
      else View(id, Queued, if id.DiagTask? then DiagnosisPending else WorkerUnclaimed)
    else if id.DiagTask? && task.status.Succeeded? then DiagnosisView(db, ids, id)
    else if task.status.Failed? then
      var d := ExplainedBy(db, ids, id, task.attempt);
      if d.Some? && d.value in db.tasks then
        View(id, Queued, if db.tasks[d.value].status.Succeeded? then DiagnosisAvailable else WaitingForDiagnosis)
      else View(id, Blocking, TaskHasFailed)
    else View(id, Completed, TaskComplete)
  }

  /** Neither finished nor explained by the view of another row. */
  predicate Shown(v: View) {
    !v.state.Completed? && !v.reason.WaitingForDiagnosis? && !v.reason.DiagnosisAvailable?
  }

  /** One view per row, in creation order. */
  function TaskViews(db: Db, all: seq<TaskId>, ids: seq<TaskId>, now: Time): (views: seq<View>)
    ensures forall v :: v in views ==> v.task in ids && v.task in db.tasks && v == TaskProgress(db, all, v.task, now)
    ensures forall id :: id in ids && id in db.tasks ==> TaskProgress(db, all, id, now) in views
  {
    if ids == [] then []
    else
      var n := |ids| - 1;
      TaskViews(db, all, ids[..n], now) + (if ids[n] in db.tasks then [TaskProgress(db, all, ids[n], now)] else [])
  }

  function ActiveViews(db: Db, r: RunId, now: Time): seq<View> {
    Filter(TaskViews(db, RunRows(db, r), RunRows(db, r), now), Shown)
  }

  function Urgency(s: ViewState): nat {
    match s
    case Blocking => 0
    case ActionRequired => 1
    case InProgress => 2
    case Queued => 3
    case Completed => 4
  }

  /** Python's `min` by urgency: the first of the most urgent. */
  function MostUrgent(views: seq<View>): (v: View)
    requires views != []
    ensures v in views && forall u :: u in views ==> Urgency(v.state) <= Urgency(u.state)
  {
    if |views| == 1 then views[0]
    else
      var rest := MostUrgent(views[1..]);
      if Urgency(views[0].state) <= Urgency(rest.state) then views[0] else rest
  }

  datatype GraphReason = WaitingForOperators | OperatorsBlocked | WaitingForDecision | OtherReason(text: string)

  /** The last graph observation; the three flags compare its time with the log. */
  datatype GraphObservation = GraphObservation(
    state: ViewState, reason: GraphReason,
    newerThanFailures: bool, changedSince: bool, taskChangedSince: bool)

  predicate QueueReason(g: GraphReason) { g.WaitingForOperators? || g.OperatorsBlocked? }

  datatype Explanation =
    | GraphExplains
    | EnvironmentBlocks
    | TaskExplains(view: View)
    | MissingStageEdge
    | ReadyToResume
    | ReadyToStart

  predicate StageMissing(db: Db, r: RunId, id: TaskId) {
    id in RunRows(db, r) && id.OpTask? && !Finished(db, r, id.key)
  }

  function RunProgress(db: Db, r: RunId, graph: Option<GraphObservation>, now: Time): Explanation
    requires r in db.runs
  {
    var run := db.runs[r];
    if run.status.WaitingForEnvironment? || run.status.EnvironmentFailed? then
      if graph.Some? && graph.value.newerThanFailures
         && (run.status.WaitingForEnvironment? || graph.value.state.InProgress?
             || graph.value.reason.WaitingForDecision?)
         && !QueueReason(graph.value.reason)
      then GraphExplains else EnvironmentBlocks
    else if graph.Some? && !QueueReason(graph.value.reason)
            && (!graph.value.state.Completed? || !graph.value.changedSince) then GraphExplains
    else
      var ids := RunRows(db, r);
      var active := ActiveViews(db, r, now);
      if active != [] then TaskExplains(MostUrgent(active))
      else if graph.Some? && graph.value.reason.OperatorsBlocked? && !graph.value.taskChangedSince then GraphExplains
      else if exists id :: id in ids && StageMissing(db, r, id) then MissingStageEdge
      else if graph.Some? || exists id :: id in ids && id.OpTask? then ReadyToResume
      else ReadyToStart
  }

  // ---- the hidden views, and the views that cover them ----

  /** What a reader sees that takes the run row, the task rows and the log in queries of
      their own, as `run_progress` does outside a read transaction. */
  function Split(rows: Db, runs: map<RunId, Run>, log: seq<Event>): Db { rows.(runs := runs, events := log) }

  /** The row is failed, its diagnosis concluded RETRY, and the log already says that
      this RETRY was applied. */
  predicate RetriedSince(rows: Db, log: seq<Event>, id: TaskId) {
    && id.OpTask? && id in rows.tasks && rows.tasks[id].status.Failed?
    && StageSucceeded(rows, DiagnosisOf(id))
    && rows.tasks[DiagnosisOf(id)].output.result.conclusion.action == Some(Retry)
    && AlreadyApplied(rows.(events := log), DiagnosisOf(id))
  }

  predicate Open(rows: Db, r: RunId, id: TaskId) {
    id in rows.tasks && id.run == r && id.OpTask? && !rows.tasks[id].status.Succeeded?
  }

  /** Every row still open is one whose retry the log already knows. */
  ghost predicate OnlyRetried(rows: Db, log: seq<Event>, r: RunId) {
    forall id :: Open(rows, r, id) ==> RetriedSince(rows, log, id)
  }

  lemma {:induction false} NoDiagnosisOfDiagnosis(rows: Db, seen: Db, minted: Token, ids: seq<TaskId>, d: TaskId,
                                                  attempt: nat)
    requires Inv(rows, minted) && d.DiagTask? && seen.tasks == rows.tasks
    ensures ExplainedBy(seen, ids, d, attempt).None?
  {
    if ids != [] {
      assert DiagnosedAt(rows, ids[0].run, ids[0].key, ids[0].stage);
      NoDiagnosisOfDiagnosis(rows, seen, minted, ids[1..], d, attempt);
    }
  }

  lemma {:induction false} FailedRowIsExplained(db: Db, ids: seq<TaskId>, id: TaskId, attempt: nat)
    requires DiagnosisOf(id) in ids && DiagnosisOf(id) in db.tasks
    requires var input := db.tasks[DiagnosisOf(id)].input;
             input.sourceTask == Some(id) && input.sourceAttempt == Some(attempt)
    ensures var d := ExplainedBy(db, ids, id, attempt); d.Some? && d.value in db.tasks
  {
    if ids[0] != DiagnosisOf(id) {
      assert DiagnosisOf(id) in ids[1..];
      FailedRowIsExplained(db, ids[1..], id, attempt);
    }
  }

  lemma SplitRows(rows: Db, runs: map<RunId, Run>, log: seq<Event>, r: RunId)
    requires Ordered(rows)
    ensures forall id :: id in RunRows(Split(rows, runs, log), r) <==> id in rows.tasks && id.run == r
  {
    SameOrder(rows, Split(rows, runs, log));
    Reconciliation.RowsOfRun(Split(rows, runs, log), r);
  }

  /** The diagnosis of a failed row is shown unless the log already knows its retry. */
  lemma FailedRowIsCovered(rows: Db, minted: Token, runs: map<RunId, Run>, log: seq<Event>, r: RunId, id: TaskId,
                           now: Time)
    requires Inv(rows, minted) && id.OpTask? && id.run == r && id in rows.tasks && rows.tasks[id].status.Failed?
    ensures DiagnosisOf(id) in rows.tasks
    ensures var seen := Split(rows, runs, log);
            Shown(TaskProgress(seen, RunRows(seen, r), DiagnosisOf(id), now)) <==> !RetriedSince(rows, log, id)
  {
    var seen, d := Split(rows, runs, log), DiagnosisOf(id);
    SplitRows(rows, runs, log, r);
    assert DiagnosedAt(rows, id.run, id.key, id.stage);
    assert SourceOf(d) == id;
    assert AlreadyApplied(seen, d) == AlreadyApplied(rows.(events := log), d);
    if rows.tasks[d].status.Failed? {
      NoDiagnosisOfDiagnosis(rows, seen, minted, RunRows(seen, r), d, rows.tasks[d].attempt);
    }
  }

  lemma OpenRowIsActive(rows: Db, minted: Token, runs: map<RunId, Run>, log: seq<Event>, r: RunId, id: TaskId,
                        now: Time)
    requires Inv(rows, minted) && Open(rows, r, id) && !RetriedSince(rows, log, id)
    ensures ActiveViews(Split(rows, runs, log), r, now) != []
  {
    var seen := Split(rows, runs, log);
    SplitRows(rows, runs, log, r);
    var shown := if rows.tasks[id].status.Failed? then DiagnosisOf(id) else id;
    if rows.tasks[id].status.Failed? { FailedRowIsCovered(rows, minted, runs, log, r, id, now); }
    assert TaskProgress(seen, RunRows(seen, r), shown, now) in ActiveViews(seen, r, now);
  }

  lemma QuietRow(rows: Db, minted: Token, runs: map<RunId, Run>, log: seq<Event>, r: RunId, id: TaskId, now: Time)
    requires Inv(rows, minted) && OnlyRetried(rows, log, r) && id in rows.tasks && id.run == r
    ensures var seen := Split(rows, runs, log); !Shown(TaskProgress(seen, RunRows(seen, r), id, now))
  {
    var seen, source := Split(rows, runs, log), SourceOf(id);
    SplitRows(rows, runs, log, r);
    assert DiagnosedAt(rows, id.run, id.key, id.stage);
    assert id.OpTask? ==> source == id;
    assert source in rows.tasks && DiagnosisOf(source) == DiagTask(id.run, id.key, id.stage);
    if rows.tasks[source].status.Succeeded? {
    } else {
      assert Open(rows, r, source);
      if id.OpTask? {
        FailedRowIsExplained(seen, RunRows(seen, r), id, rows.tasks[id].attempt);
      } else {
        FailedRowIsCovered(rows, minted, runs, log, r, source, now);
      }
    }
  }

  /** The shown views are empty exactly when every row still open is one whose retry the
      log already knows. */
  lemma QuietExactly(rows: Db, minted: Token, runs: map<RunId, Run>, log: seq<Event>, r: RunId, now: Time)
    requires Inv(rows, minted)
    ensures ActiveViews(Split(rows, runs, log), r, now) == [] <==> OnlyRetried(rows, log, r)
  {
    var seen := Split(rows, runs, log);
    var active := ActiveViews(seen, r, now);
    if OnlyRetried(rows, log, r) {
      SplitRows(rows, runs, log, r);
      if active != [] {
        var v := active[0];
        assert v in active;
        QuietRow(rows, minted, runs, log, r, v.task, now);
      }
    } else {
      var id :| Open(rows, r, id) && !RetriedSince(rows, log, id);
      OpenRowIsActive(rows, minted, runs, log, r, id, now);
    }
  }

  /** A retry the log knows and the rows do not was applied between the two reads. */
  lemma RetriedBetweenReads(rows: Db, minted: Token, log: seq<Event>, id: TaskId)
    requires Inv(rows, minted) && RetriedSince(rows, log, id)
    ensures !AlreadyApplied(rows, DiagnosisOf(id))
    ensures exists e :: e in log && e !in rows.events && e.DiagnosisApplied? && e.task == DiagnosisOf(id)
  {
    assert SourceOf(DiagnosisOf(id)) == id;
    RetryStillOpen(rows, minted, DiagnosisOf(id));
  }

  predicate AllFinished(db: Db, r: RunId) {
    forall id :: id in db.tasks && id.run == r && id.OpTask? ==> Finished(db, r, id.key)
  }

  /** Some row is open exactly when some operator is unfinished. */
  lemma OpenExactly(rows: Db, minted: Token, r: RunId)
    requires Inv(rows, minted)
    ensures AllFinished(rows, r) <==> forall id :: !Open(rows, r, id)
  {
    if AllFinished(rows, r) {
      forall id ensures !Open(rows, r, id) { FinishedIsNotOpen(rows, r, id); }
    } else {
      var id :| id in rows.tasks && id.run == r && id.OpTask? && !Finished(rows, r, id.key);
      assert PipelineAt(rows, r, id.key);
      FirstStage(rows, minted, id);
      var torch, xpu := OpTask(r, id.key, Torch), OpTask(r, id.key, Xpu);
      assert Open(rows, r, torch) || Open(rows, r, xpu) || Open(rows, r, OpTask(r, id.key, Integration));
    }
  }

  lemma FinishedIsNotOpen(rows: Db, r: RunId, id: TaskId)
    requires AllFinished(rows, r)
    ensures !Open(rows, r, id)
  {
    if Open(rows, r, id) {
      match id.stage {
        case Torch =>
        case Xpu =>
        case Integration =>
      }
    }
  }

  lemma FirstStage(db: Db, minted: Token, id: TaskId)
    requires Inv(db, minted) && id in db.tasks
    ensures OpTask(id.run, id.key, Torch) in db.tasks
  {
    assert PipelineAt(db, id.run, id.key) && DiagnosedAt(db, id.run, id.key, id.stage);
    match id.stage {
      case Torch => assert SourceOf(id) == OpTask(id.run, id.key, Torch);
      case Xpu => assert SourceOf(id) == OpTask(id.run, id.key, Xpu);
      case Integration => assert SourceOf(id) == OpTask(id.run, id.key, Integration);
    }
    assert id.OpTask? ==> id == SourceOf(id);
  }

  /** On one view the shown views are empty exactly when every discovered operator of the
      run has all three stages succeeded. */
  lemma QuietMeansFinished(db: Db, minted: Token, r: RunId, now: Time)
    requires Inv(db, minted)
    ensures ActiveViews(db, r, now) == [] <==> AllFinished(db, r)
  {
    QuietExactly(db, minted, db.runs, db.events, r, now);
    assert Split(db, db.runs, db.events) == db && db.(events := db.events) == db;
    OpenExactly(db, minted, r);
    forall id ensures !RetriedSince(db, db.events, id) { NotRetriedYet(db, minted, id); }
  }

  lemma NotRetriedYet(db: Db, minted: Token, id: TaskId)
    requires Inv(db, minted)
    ensures !RetriedSince(db, db.events, id)
  {
    assert db.(events := db.events) == db;
    if RetriedSince(db, db.events, id) { RetriedBetweenReads(db, minted, db.events, id); }
  }

  // ---- the projection ----

  /** Neither the run's status nor the graph observation answers first. */
  predicate RowsDecide(run: Run, graph: Option<GraphObservation>) {
    && !run.status.WaitingForEnvironment? && !run.status.EnvironmentFailed?
    && !(graph.Some? && !QueueReason(graph.value.reason)
         && (!graph.value.state.Completed? || !graph.value.changedSince))
    && !(graph.Some? && graph.value.reason.OperatorsBlocked? && !graph.value.taskChangedSince)
  }

  predicate SomeStageMissing(db: Db, r: RunId) { exists id :: id in RunRows(db, r) && StageMissing(db, r, id) }

  lemma MissingExactly(rows: Db, seen: Db, minted: Token, r: RunId)
    requires Inv(rows, minted) && Ordered(seen) && seen.tasks == rows.tasks
    ensures SomeStageMissing(seen, r) <==> !AllFinished(rows, r)
  {
    Reconciliation.RowsOfRun(seen, r);
    if !AllFinished(rows, r) {
      var id :| id in rows.tasks && id.run == r && id.OpTask? && !Finished(rows, r, id.key);
      assert StageMissing(seen, r, id);
    }
  }

  lemma ProgressBranches(db: Db, r: RunId, graph: Option<GraphObservation>, now: Time)
    requires r in db.runs
    ensures var e, active := RunProgress(db, r, graph, now), ActiveViews(db, r, now);
            && (e.MissingStageEdge? <==> RowsDecide(db.runs[r], graph) && active == [] && SomeStageMissing(db, r))
            && (e.ReadyToResume? || e.ReadyToStart? ==> active == [] && !SomeStageMissing(db, r))
            && (e.ReadyToStart? ==> forall id :: id in RunRows(db, r) ==> !id.OpTask?)
            && (e.TaskExplains? ==> active != [] && e.view in active)
  {
  }

  lemma ShownViews(db: Db, r: RunId, now: Time, v: View)
    requires v in ActiveViews(db, r, now)
    ensures Shown(v)
  {
  }

  lemma ProjectionOf(rows: Db, minted: Token, runs: map<RunId, Run>, log: seq<Event>, r: RunId,
                     graph: Option<GraphObservation>, now: Time)
    requires Inv(rows, minted) && r in runs
    ensures var e := RunProgress(Split(rows, runs, log), r, graph, now);
            && (e.MissingStageEdge? <==>
                  RowsDecide(runs[r], graph) && OnlyRetried(rows, log, r) && !AllFinished(rows, r))
            && (e.ReadyToResume? || e.ReadyToStart? ==> AllFinished(rows, r))
            && (e.TaskExplains? ==> !AllFinished(rows, r) && Shown(e.view))
            && (e.ReadyToStart? ==> forall k :: (r, k) !in rows.operators)
  {
    var seen := Split(rows, runs, log);
    SameOrder(rows, seen);
    ProgressBranches(seen, r, graph, now);
    QuietExactly(rows, minted, runs, log, r, now);
    MissingExactly(rows, seen, minted, r);
    OpenExactly(rows, minted, r);
    SplitRows(rows, runs, log, r);
    if RunProgress(seen, r, graph, now).TaskExplains? {
      ShownViews(seen, r, now, RunProgress(seen, r, graph, now).view);
    }
    forall k | (r, k) in rows.operators ensures OpTask(r, k, Torch) in RunRows(seen, r) {
      assert PipelineAt(rows, r, k);
    }
  }

  /** On every reachable state, seen at once, the projection never answers that a stage
      edge is missing, and it answers READY only when every operator is finished. */
  lemma ProjectionSound(w: World, r: RunId, graph: Option<GraphObservation>, now: Time)
    requires Reachable(w) && r in w.db.runs
    ensures var e := RunProgress(w.db, r, graph, now);
            && !e.MissingStageEdge?
            && (e.ReadyToResume? || e.ReadyToStart? ==> AllFinished(w.db, r))
            && (e.TaskExplains? ==> !AllFinished(w.db, r) && Shown(e.view))
            && (e.ReadyToStart? ==> forall k :: (r, k) !in w.db.operators)
  {
    ReachableSound(w);
    assert Inv(w.db, w.minted) by { LawfulIsInv(w.db, w.minted); }
    assert Split(w.db, w.db.runs, w.db.events) == w.db;
    ProjectionOf(w.db, w.minted, w.db.runs, w.db.events, r, graph, now);
    OpenExactly(w.db, w.minted, r);
    forall id ensures !RetriedSince(w.db, w.db.events, id) { NotRetriedYet(w.db, w.minted, id); }
  }

  /** Read in three queries, the rows in world `w` and the log after further moves, the
      projection answers a missing stage edge exactly when nothing else answers first,
      some operator is unfinished, and every open row is a failed one whose RETRY was
      applied between the two reads.  Its READY answers stay right. */
  lemma ProjectionAcrossReads(w: World, moves: seq<Move>, runs: map<RunId, Run>, r: RunId,
                              graph: Option<GraphObservation>, now: Time)
    requires Reachable(w) && r in runs
    ensures var log := Exec(w, moves).db.events;
            var e := RunProgress(Split(w.db, runs, log), r, graph, now);
            && (e.MissingStageEdge? <==>
                  RowsDecide(runs[r], graph) && OnlyRetried(w.db, log, r) && !AllFinished(w.db, r))
            && (e.ReadyToResume? || e.ReadyToStart? ==> AllFinished(w.db, r))
            && forall id :: RetriedSince(w.db, log, id) ==> !AlreadyApplied(w.db, DiagnosisOf(id))
  {
    ReachableSound(w);
    assert Inv(w.db, w.minted) by { LawfulIsInv(w.db, w.minted); }
    var log := Exec(w, moves).db.events;
    ProjectionOf(w.db, w.minted, runs, log, r, graph, now);
    forall id | RetriedSince(w.db, log, id) ensures !AlreadyApplied(w.db, DiagnosisOf(id)) {
      RetriedBetweenReads(w.db, w.minted, log, id);
    }
  }
}
