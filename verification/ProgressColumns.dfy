/** The explanation of a run, reason by reason, in terms of columns and log entries. */
module ProgressColumns {
  import opened Base
  import opened SchedulerState
  import opened Transitions
  import opened Invariants
  import opened Progress
  import Reconciliation

  // ---- one row ----

  predicate PredecessorDone(db: Db, id: TaskId) {
    match id
    case OpTask(r, k, Xpu) => OpTask(r, k, Torch) in db.tasks && db.tasks[OpTask(r, k, Torch)].status == Succeeded
    case OpTask(r, k, Integration) => OpTask(r, k, Xpu) in db.tasks && db.tasks[OpTask(r, k, Xpu)].status == Succeeded
    case _ => true
  }

  /** The diagnosis explains the failure its operator row is in now. */
  predicate Topical(db: Db, d: TaskId) {
    var source := OpTask(d.run, d.key, d.stage);
    && d in db.tasks && source in db.tasks && db.tasks[source].status == Failed
    && db.tasks[d].input.sourceAttempt == Some(db.tasks[source].attempt)
  }

  /** The log holds an application of the conclusion the diagnosis reached. */
  predicate AppliedIn(log: seq<Event>, d: TaskId, t: Task) {
    exists e :: e in log && e.DiagnosisApplied? && e.task == d
      && e.appliedTo == t.input.sourceAttempt && e.diagnosisAttempt == t.attempt
  }

  predicate Lapsed(t: Task, now: Time) { t.expires.Some? && t.expires.value <= now }

  /** When each reason is given. */
  predicate Given(reason: Reason, db: Db, id: TaskId, now: Time)
    requires id in db.tasks
  {
    var t := db.tasks[id];
    var action, applied := t.output.result.conclusion.action, AppliedIn(db.events, id, t);
    match reason
    case LeaseExpired => t.status == Running && Lapsed(t, now)
    case WorkerRunning => t.status == Running && !Lapsed(t, now)
    case DependencyPending => t.status == Pending && !PredecessorDone(db, id)
    case DiagnosisPending => t.status == Pending && id.DiagTask?
    case WorkerUnclaimed => t.status == Pending && id.OpTask? && PredecessorDone(db, id)
    case DiagnosisConsumed =>
      t.status == Succeeded && id.DiagTask? && (!Topical(db, id) || (action == Some(Retry) && applied))
    case DiagnosisNotApplied =>
      t.status == Succeeded && id.DiagTask? && Topical(db, id) && !applied
      && (action == Some(Retry) || action == Some(Blocked))
    case DiagnosisBlocked =>
      t.status == Succeeded && id.DiagTask? && Topical(db, id) && action == Some(Blocked) && applied
    case NeedsExternalRepair =>
      t.status == Succeeded && id.DiagTask? && Topical(db, id) && action != Some(Retry) && action != Some(Blocked)
    case DiagnosisAvailable =>
      t.status == Failed && id.OpTask? && DiagTask(id.run, id.key, id.stage) in db.tasks
      && db.tasks[DiagTask(id.run, id.key, id.stage)].status == Succeeded
    case WaitingForDiagnosis =>
      t.status == Failed && id.OpTask? && DiagTask(id.run, id.key, id.stage) in db.tasks
      && db.tasks[DiagTask(id.run, id.key, id.stage)].status != Succeeded
    case TaskHasFailed => t.status == Failed && id.DiagTask?
    case TaskComplete => t.status == Succeeded && id.OpTask?
  }

  /** How pressing each reason is. */
  function StateOf(reason: Reason): ViewState {
    match reason
    case LeaseExpired => ActionRequired
    case WorkerRunning => InProgress
    case DependencyPending => Queued
    case DiagnosisPending => Queued
    case WorkerUnclaimed => Queued
    case DiagnosisConsumed => Completed
    case DiagnosisNotApplied => ActionRequired
    case DiagnosisBlocked => Blocking
    case NeedsExternalRepair => Blocking
    case DiagnosisAvailable => Queued
    case WaitingForDiagnosis => Queued
    case TaskHasFailed => Blocking
    case TaskComplete => Completed
  }

  lemma ExplainedExactly(rows: Db, minted: Token, seen: Db, ids: seq<TaskId>, id: TaskId)
    requires Inv(rows, minted) && seen.tasks == rows.tasks && id in rows.tasks && rows.tasks[id].status.Failed?
    requires forall x :: x in ids <==> x in rows.tasks && x.run == id.run
    ensures ExplainedBy(seen, ids, id, rows.tasks[id].attempt) == if id.OpTask? then Some(DiagnosisOf(id)) else None
  {
    if id.DiagTask? {
      NoDiagnosisOfDiagnosis(rows, seen, minted, ids, id, rows.tasks[id].attempt);
    } else {
      assert DiagnosedAt(rows, id.run, id.key, id.stage);
      FailedRowIsExplained(seen, ids, id, rows.tasks[id].attempt);
      ExplainedByOwn(rows, minted, seen, ids, id, rows.tasks[id].attempt);
    }
  }

  /** Only its own diagnosis row ever explains a row. */
  lemma {:induction false} ExplainedByOwn(rows: Db, minted: Token, seen: Db, ids: seq<TaskId>, id: TaskId, attempt: nat)
    requires Inv(rows, minted) && seen.tasks == rows.tasks && id.OpTask?
    ensures var d := ExplainedBy(seen, ids, id, attempt); d.Some? ==> d.value == DiagnosisOf(id)
  {
    if ids != [] {
      assert DiagnosedAt(rows, ids[0].run, ids[0].key, ids[0].stage);
      ExplainedByOwn(rows, minted, seen, ids[1..], id, attempt);
    }
  }

  /** No row has two reasons. */
  lemma OneReason(db: Db, id: TaskId, now: Time, a: Reason, b: Reason)
    requires id in db.tasks && Given(a, db, id, now) && Given(b, db, id, now)
    ensures a == b
  {
  }

  lemma DiagnosisViewGiven(rows: Db, minted: Token, seen: Db, ids: seq<TaskId>, id: TaskId, now: Time)
    requires Inv(rows, minted) && seen.tasks == rows.tasks && id in rows.tasks && id.DiagTask?
    requires rows.tasks[id].status.Succeeded? && forall x :: x in ids <==> x in rows.tasks && x.run == id.run
    ensures var v := DiagnosisView(seen, ids, id);
            v.task == id && v.state == StateOf(v.reason) && Given(v.reason, seen, id, now)
  {
    assert DiagnosedAt(rows, id.run, id.key, id.stage);
    assert AlreadyApplied(seen, id) == AppliedIn(seen.events, id, rows.tasks[id]);
  }

  lemma FailedViewGiven(rows: Db, minted: Token, seen: Db, ids: seq<TaskId>, id: TaskId, now: Time)
    requires Inv(rows, minted) && seen.tasks == rows.tasks && id in rows.tasks
    requires rows.tasks[id].status.Failed? && forall x :: x in ids <==> x in rows.tasks && x.run == id.run
    ensures var v := TaskProgress(seen, ids, id, now);
            v.task == id && v.state == StateOf(v.reason) && Given(v.reason, seen, id, now)
  {
    assert DiagnosedAt(rows, id.run, id.key, id.stage);
    ExplainedExactly(rows, minted, seen, ids, id);
  }

  lemma OtherViewGiven(db: Db, ids: seq<TaskId>, id: TaskId, now: Time)
    requires id in db.tasks && forall x :: x in ids <==> x in db.tasks && x.run == id.run
    requires !db.tasks[id].status.Failed? && !(id.DiagTask? && db.tasks[id].status.Succeeded?)
    ensures var v := TaskProgress(db, ids, id, now);
            v.task == id && v.state == StateOf(v.reason) && Given(v.reason, db, id, now)
  {
  }

  /** The view of a row gives the one reason that holds, and its state; this is so even
      if the log was read later than the rows. */
  lemma ViewExactly(rows: Db, minted: Token, runs: map<RunId, Run>, log: seq<Event>, id: TaskId, now: Time)
    requires Inv(rows, minted) && id in rows.tasks
    ensures var seen := Split(rows, runs, log);
            var v := TaskProgress(seen, RunRows(seen, id.run), id, now);
            v.task == id && v.state == StateOf(v.reason) && forall c :: Given(c, seen, id, now) <==> c == v.reason
  {
    var seen := Split(rows, runs, log);
    var ids := RunRows(seen, id.run);
    SplitRows(rows, runs, log, id.run);
    if rows.tasks[id].status.Failed? {
      FailedViewGiven(rows, minted, seen, ids, id, now);
    } else if id.DiagTask? && rows.tasks[id].status.Succeeded? {
      DiagnosisViewGiven(rows, minted, seen, ids, id, now);
    } else {
      OtherViewGiven(seen, ids, id, now);
    }
    forall c | Given(c, seen, id, now) ensures c == TaskProgress(seen, ids, id, now).reason {
      OneReason(seen, id, now, c, TaskProgress(seen, ids, id, now).reason);
    }
  }

  // ---- the run ----

  /** Strictly more pressing. */
  predicate MorePressing(a: ViewState, b: ViewState) {
    || (a == Blocking && b != Blocking)
    || (a == ActionRequired && b != Blocking && b != ActionRequired)
    || (a == InProgress && (b == Queued || b == Completed))
    || (a == Queued && b == Completed)
  }

  /** Finished views, and failed rows that another view explains, stay in the background. */
  predicate Foremost(v: View) {
    v.state != Completed && v.reason != WaitingForDiagnosis && v.reason != DiagnosisAvailable
  }

  /** The view at `p` is the first of the most pressing shown ones. */
  predicate SelectedAt(views: seq<View>, p: int) {
    && 0 <= p < |views| && Foremost(views[p])
    && (forall q :: 0 <= q < p && Foremost(views[q]) ==> MorePressing(views[p].state, views[q].state))
    && (forall q :: p < q < |views| && Foremost(views[q]) ==> !MorePressing(views[q].state, views[p].state))
  }

  lemma PressingIsUrgent(a: ViewState, b: ViewState)
    ensures MorePressing(a, b) <==> Urgency(a) < Urgency(b)
  {
  }

  lemma {:induction false} MostUrgentSnoc(views: seq<View>, x: View)
    requires views != []
    ensures MostUrgent(views + [x]) ==
              if Urgency(x.state) < Urgency(MostUrgent(views).state) then x else MostUrgent(views)
  {
    if |views| == 1 {
      assert (views + [x])[1..] == [x];
      assert MostUrgent([x]) == x && MostUrgent(views) == views[0];
    } else {
      assert (views + [x])[1..] == views[1..] + [x] && (views + [x])[0] == views[0];
      MostUrgentSnoc(views[1..], x);
    }
  }

  /** Appending a view that is not more pressing keeps the selection. */
  lemma SelectedStays(views: seq<View>, p: int, x: View)
    requires SelectedAt(views, p) && !(Foremost(x) && MorePressing(x.state, views[p].state))
    ensures SelectedAt(views + [x], p)
  {
  }

  lemma SelectedMoves(views: seq<View>, p: int, x: View)
    requires Foremost(x)
    requires if exists q :: 0 <= q < |views| && Foremost(views[q])
             then SelectedAt(views, p) && MorePressing(x.state, views[p].state) else p == -1
    ensures SelectedAt(views + [x], |views|)
  {
    forall q | 0 <= q < |views| && Foremost(views[q]) ensures MorePressing(x.state, views[q].state) {
      assert q < p ==> MorePressing(views[p].state, views[q].state);
    }
  }

  lemma {:induction false} FirstSelected(views: seq<View>) returns (p: int)
    ensures var active := Filter(views, Shown);
            if active == [] then p == -1 && forall q :: 0 <= q < |views| ==> !Foremost(views[q])
            else SelectedAt(views, p) && MostUrgent(active) == views[p]
  {
    if views == [] { return -1; }
    var init, x := views[..|views| - 1], views[|views| - 1];
    p := FirstSelected(init);
    assert views == init + [x];
    FilterSnoc(views, Shown);
    var before := Filter(init, Shown);
    if Shown(x) {
      if before != [] {
        MostUrgentSnoc(before, x);
        PressingIsUrgent(x.state, MostUrgent(before).state);
      }
      if before == [] || MorePressing(x.state, init[p].state) {
        SelectedMoves(init, p, x);
        return |init|;
      }
    }
    if before != [] { SelectedStays(init, p, x); }
  }

  lemma TaskViewsSnoc(db: Db, all: seq<TaskId>, ids: seq<TaskId>, now: Time)
    requires ids != [] && ids[|ids| - 1] in db.tasks
    ensures TaskViews(db, all, ids, now) ==
              TaskViews(db, all, ids[..|ids| - 1], now) + [TaskProgress(db, all, ids[|ids| - 1], now)]
  {
  }

  /** One view per row, in creation order. */
  ghost predicate ViewedAt(views: seq<View>, db: Db, all: seq<TaskId>, ids: seq<TaskId>, now: Time, i: int) {
    0 <= i < |ids| ==> i < |views| && ids[i] in db.tasks && views[i] == TaskProgress(db, all, ids[i], now)
  }

  lemma ViewedSnoc(init: seq<View>, db: Db, all: seq<TaskId>, ids: seq<TaskId>, now: Time, i: int)
    requires ids != [] && ids[|ids| - 1] in db.tasks && |init| == |ids| - 1
    requires ViewedAt(init, db, all, ids[..|ids| - 1], now, i)
    ensures ViewedAt(init + [TaskProgress(db, all, ids[|ids| - 1], now)], db, all, ids, now, i)
  {
  }

  lemma {:induction false} ViewInOrder(db: Db, all: seq<TaskId>, ids: seq<TaskId>, now: Time, i: int)
    requires forall id :: id in ids ==> id in db.tasks
    ensures |TaskViews(db, all, ids, now)| == |ids|
    ensures ViewedAt(TaskViews(db, all, ids, now), db, all, ids, now, i)
  {
    if ids != [] {
      ViewInOrder(db, all, ids[..|ids| - 1], now, i);
      TaskViewsSnoc(db, all, ids, now);
      ViewedSnoc(TaskViews(db, all, ids[..|ids| - 1], now), db, all, ids, now, i);
    }
  }

  /** The environment is what the run waits for or failed on. */
  predicate Down(run: Run) { run.status == WaitingForEnvironment || run.status == EnvironmentFailed }

  predicate OfOperators(g: GraphObservation) { g.reason == WaitingForOperators || g.reason == OperatorsBlocked }

  /** The last graph observation is more specific than the missing environment. */
  predicate GraphKnowsBetter(run: Run, g: GraphObservation) {
    && g.newerThanFailures && !OfOperators(g)
    && (run.status == WaitingForEnvironment || g.state == InProgress || g.reason == WaitingForDecision)
  }

  /** The graph stopped for a reason of its own, or completed with nothing new since. */
  predicate GraphStopped(g: GraphObservation) { !OfOperators(g) && (g.state != Completed || !g.changedSince) }

  /** An operator of the run has row `id`, and its stage `s` is not succeeded. */
  predicate OpenAt(db: Db, r: RunId, id: TaskId, s: Stage) {
    && id in db.tasks && id.run == r && id.OpTask?
    && !(OpTask(r, id.key, s) in db.tasks && db.tasks[OpTask(r, id.key, s)].status == Succeeded)
  }

  predicate StageOpen(db: Db, r: RunId) { exists id, s: Stage :: id in db.tasks && OpenAt(db, r, id, s) }

  lemma RunBranches(db: Db, r: RunId, graph: Option<GraphObservation>, now: Time)
    requires r in db.runs
    ensures var run, e, active := db.runs[r], RunProgress(db, r, graph, now), ActiveViews(db, r, now);
            if Down(run) then
              e == if graph.Some? && GraphKnowsBetter(run, graph.value) then GraphExplains else EnvironmentBlocks
            else if graph.Some? && GraphStopped(graph.value) then e == GraphExplains
            else if active != [] then e == TaskExplains(MostUrgent(active))
            else if graph.Some? && graph.value.reason == OperatorsBlocked && !graph.value.taskChangedSince then
              e == GraphExplains
            else if SomeStageMissing(db, r) then e == MissingStageEdge
            else e == if graph.Some? || exists id :: id in RunRows(db, r) && id.OpTask? then ReadyToResume
                      else ReadyToStart
  {
  }

  /** The answer for a run, branch by branch, in terms of its columns, its last graph
      observation and the views of its rows. */
  lemma ExplanationExactly(db: Db, r: RunId, graph: Option<GraphObservation>, now: Time)
    requires Ordered(db) && r in db.runs
    ensures var run, e := db.runs[r], RunProgress(db, r, graph, now);
            var views := TaskViews(db, RunRows(db, r), RunRows(db, r), now);
            var quiet := forall q :: 0 <= q < |views| ==> !Foremost(views[q]);
            if Down(run) then
              e == if graph.Some? && GraphKnowsBetter(run, graph.value) then GraphExplains else EnvironmentBlocks
            else if graph.Some? && GraphStopped(graph.value) then e == GraphExplains
            else if !quiet then e.TaskExplains? && exists p :: SelectedAt(views, p) && views[p] == e.view
            else if graph.Some? && graph.value.reason == OperatorsBlocked && !graph.value.taskChangedSince then
              e == GraphExplains
            else if StageOpen(db, r) then e == MissingStageEdge
            else e == if graph.Some? || exists id :: id in db.tasks && id.run == r && id.OpTask? then ReadyToResume
                      else ReadyToStart
  {
    var views := TaskViews(db, RunRows(db, r), RunRows(db, r), now);
    RunBranches(db, r, graph, now);
    var p := FirstSelected(views);
    Reconciliation.RowsOfRun(db, r);
    StageOpenExactly(db, r);
  }

  lemma StageOpenExactly(db: Db, r: RunId)
    requires Ordered(db)
    ensures StageOpen(db, r) <==> SomeStageMissing(db, r)
  {
    Reconciliation.RowsOfRun(db, r);
    if StageOpen(db, r) {
      var id, s :| id in db.tasks && OpenAt(db, r, id, s);
      match s { case Torch => case Xpu => case Integration => }
      assert StageMissing(db, r, id);
    }
    if SomeStageMissing(db, r) {
      var id :| id in RunRows(db, r) && StageMissing(db, r, id);
      assert OpenAt(db, r, id, Torch) || OpenAt(db, r, id, Xpu) || OpenAt(db, r, id, Integration);
    }
  }
}
