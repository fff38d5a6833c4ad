/** `reconcile` on arbitrary databases, in terms of columns, claims and evidence. */
module ReconcileColumns {
  import opened Base
  import opened SchedulerState
  import opened Transitions
  import opened Invariants
  import opened Reconciliation
  import Acceptance
  import Columns

  // ---- who produced a row ----

  predicate ClaimsRow(e: Event, id: TaskId) { e.TaskClaimed? && e.task == id }
  predicate ClaimsAttempt(e: Event, id: TaskId, attempt: nat) { ClaimsRow(e, id) && e.attempt == attempt }

  /** The claims of a row, and those of one attempt, in the order they were logged. */
  function ClaimsOf(events: seq<Event>, id: TaskId): (claims: seq<Event>)
    ensures forall e :: e in claims ==> ClaimsRow(e, id)
  {
    Filter(events, e => ClaimsRow(e, id))
  }

  function ClaimsAt(events: seq<Event>, id: TaskId, attempt: nat): (claims: seq<Event>)
    ensures forall e :: e in claims ==> ClaimsRow(e, id)
  {
    Filter(events, e => ClaimsAttempt(e, id, attempt))
  }

  datatype Origin = Worker(name: string) | Nobody | Raises

  /** The worker its own submission names for the current attempt, else of the last claim
      of this attempt, else of the last claim if there are as many as attempts. */
  function OriginOf(db: Db, id: TaskId): Origin
    requires id in db.tasks
  {
    var t := db.tasks[id];
    var all, mine := ClaimsOf(db.events, id), ClaimsAt(db.events, id, t.attempt);
    if t.output.submission.Some? && t.output.submission.value.attempt == t.attempt
       && t.output.submission.value.worker != "" then Worker(t.output.submission.value.worker)
    else if mine != [] then
      assert mine[|mine| - 1] in mine;
      Worker(mine[|mine| - 1].worker)
    else if |all| != t.attempt then Nobody
    else if all == [] then Raises
    else
      assert all[|all| - 1] in all;
      Worker(all[|all| - 1].worker)
  }

  lemma {:induction false} ClaimsListed(events: seq<Event>, id: TaskId, attempt: nat)
    ensures ClaimCount(events, id) == |ClaimsOf(events, id)|
    ensures var mine := ClaimsAt(events, id, attempt);
            if mine == [] then ClaimantAt(events, id, attempt).None?
            else mine[|mine| - 1] in mine && ClaimantAt(events, id, attempt) == Some(mine[|mine| - 1].worker)
    ensures var all := ClaimsOf(events, id);
            if all == [] then LastClaimant(events, id).None?
            else all[|all| - 1] in all && LastClaimant(events, id) == Some(all[|all| - 1].worker)
  {
    if events != [] { ClaimsListed(events[..|events| - 1], id, attempt); }
  }

  lemma OriginExactly(db: Db, id: TaskId)
    requires id in db.tasks
    ensures ProducerRaises(db, id) <==> OriginOf(db, id) == Raises
    ensures forall name :: Producer(db, id) == Some(name) <==> OriginOf(db, id) == Worker(name)
  {
    ClaimsListed(db.events, id, db.tasks[id].attempt);
    if db.tasks[id].attempt == 0 && ClaimCount(db.events, id) == 0 { NoClaimsAt(db.events, id, 0); }
  }

  lemma NoClaimsAt(events: seq<Event>, id: TaskId, attempt: nat)
    requires ClaimsOf(events, id) == []
    ensures ClaimsAt(events, id, attempt) == []
  {
    forall e | e in events ensures !ClaimsAttempt(e, id, attempt) {
      assert ClaimsRow(e, id) ==> e in ClaimsOf(events, id);
    }
    FilterNone(events, e => ClaimsAttempt(e, id, attempt));
  }

  // ---- what a row lacks ----

  /** The row that should stand next to `id`: the diagnosis of a failed operator row, the
      next stage of a succeeded one. */
  predicate Misses(db: Db, id: TaskId, x: TaskId) {
    && id in db.tasks && x !in db.tasks
    && match id
       case DiagTask(_, _, _) => false
       case OpTask(r, k, s) =>
         || (db.tasks[id].status == Failed && x == DiagTask(r, k, s))
         || (db.tasks[id].status == Succeeded && s == Torch && x == OpTask(r, k, Xpu))
         || (db.tasks[id].status == Succeeded && s == Xpu && x == OpTask(r, k, Integration))
  }

  ghost predicate MissesStage(db: Db, id: TaskId) { exists x: TaskId :: x.OpTask? && Misses(db, id, x) }

  /** Somebody produced the row, and no objection to what it holds stands now. */
  ghost predicate Proven(db: Db, r: RunId, id: TaskId, files: Files)
    requires r in db.runs && id in db.tasks
  {
    && OriginOf(db, id).Worker? && OriginOf(db, id).name != ""
    && Acceptance.Flawless(Acceptance.Submitted(id, db.tasks[id], db.runs[r], db.tasks[id].output.result,
                                                OriginOf(db, id).name, files))
  }

  lemma LacksExactly(db: Db, r: RunId, id: TaskId, files: Files)
    requires r in db.runs && id in db.tasks
    ensures LacksSuccessor(db, id) <==> MissesStage(db, id)
    ensures Revalidates(db, r, id, files) <==> Proven(db, r, id, files)
    ensures forall x :: Misses(db, id, x) <==>
              (LacksDiagnosis(db, id) && x == DiagnosisOf(id)) || (LacksSuccessor(db, id) && x == Next(id))
  {
    OriginExactly(db, id);
    if OriginOf(db, id).Worker? {
      Acceptance.AcceptedExactly(Acceptance.Submitted(id, db.tasks[id], db.runs[r], db.tasks[id].output.result,
                                                      OriginOf(db, id).name, files));
    }
    if LacksSuccessor(db, id) { assert Misses(db, id, Next(id)); }
  }

  // ---- what a pass adds ----

  /** A diagnosis names the failed row and its attempt; a stage row starts plain. */
  predicate Shaped(db: Db, x: TaskId, t: Task, e: Event) {
    && Columns.Blank(t)
    && match x
       case OpTask(_, _, _) => t.input == Input(None, None, None) && e == TaskCreated(x)
       case DiagTask(r, k, s) =>
         && OpTask(r, k, s) in db.tasks
         && t.input == Input(Some(OpTask(r, k, s)), Some(db.tasks[OpTask(r, k, s)].attempt), None)
         && e == DiagnosisCreated(x, db.tasks[OpTask(r, k, s)].attempt)
  }

  /** The created rows, listed and logged in the order they were made. */
  ghost predicate Adds(db: Db, db': Db, created: seq<TaskId>) {
    && db'.order == db.order + created && |db'.events| == |db.events| + |created|
    && db'.events[..|db.events|] == db.events
    && forall i :: 0 <= i < |created| ==>
         created[i] in db'.tasks && Shaped(db, created[i], db'.tasks[created[i]], db'.events[|db.events| + i])
  }

  lemma AddsNone(db: Db)
    ensures Adds(db, db, [])
  {
  }

  lemma AddsOne(db: Db, mid: Db, created: seq<TaskId>, x: TaskId, t: Task, e: Event)
    requires Adds(db, mid, created) && x !in mid.tasks && Shaped(db, x, t, e)
    ensures Adds(db, Emit(Insert(mid, x, t), e), created + [x])
  {
    var db' := Emit(Insert(mid, x, t), e);
    forall i | 0 <= i < |created| + 1
      ensures (created + [x])[i] in db'.tasks
      ensures Shaped(db, (created + [x])[i], db'.tasks[(created + [x])[i]], db'.events[|db.events| + i])
    {
      if i < |created| { assert created[i] in mid.tasks; }
    }
  }

  lemma RowAdds(db: Db, rep: Repair, r: RunId, id: TaskId, files: Files)
    requires r in db.runs && r in rep.db.runs && id in db.tasks && id in rep.db.tasks
    requires rep.db.tasks[id] == db.tasks[id] && Adds(db, rep.db, rep.created)
    ensures var rep' := RepairRow(rep, r, id, files); Adds(db, rep'.db, rep'.created)
  {
    if LacksDiagnosis(rep.db, id) {
      var d, attempt := DiagnosisOf(id), db.tasks[id].attempt;
      AddsOne(db, rep.db, rep.created, d, NewTask(DiagnosisInput(id, attempt)), DiagnosisCreated(d, attempt));
    } else if LacksSuccessor(rep.db, id) && Revalidates(rep.db, r, id, files) {
      AddsOne(db, rep.db, rep.created, Next(id), NewTask(PLAIN_INPUT), TaskCreated(Next(id)));
    }
  }

  lemma {:induction false} PassAdds(db: Db, r: RunId, ids: seq<TaskId>, files: Files)
    requires r in db.runs && Distinct(ids) && forall id :: id in ids ==> id in db.tasks
    ensures var rep := RepairAll(db, r, ids, files); Adds(db, rep.db, rep.created)
  {
    if ids == [] {
      AddsNone(db);
    } else {
      var n := |ids| - 1;
      PassAdds(db, r, ids[..n], files);
      RepairAllState(db, r, ids[..n], files);
      RowAdds(db, RepairAll(db, r, ids[..n], files), r, ids[n], files);
    }
  }

  /** Row `x` answers a lack of some row of the run that may be repaired. */
  ghost predicate Due(db: Db, r: RunId, files: Files, x: TaskId)
    requires r in db.runs
  {
    exists id :: id in db.tasks && id.run == r && Misses(db, id, x) && (x.DiagTask? || Proven(db, r, id, files))
  }

  /** The pass raises for a row without any trace of a producer, and for a proven row
      whose operator has no contract; the latter and the former undo everything. */
  ghost predicate Passes(db: Db, r: RunId, files: Files)
    requires r in db.runs
  {
    forall id :: id in db.tasks && id.run == r && MissesStage(db, id) ==>
      OriginOf(db, id) != Raises && (Proven(db, r, id, files) ==> (r, id.key) in db.operators)
  }

  lemma PassesExactly(db: Db, r: RunId, files: Files)
    requires Ordered(db) && r in db.runs
    ensures Reconcile(db, r, files).Ok? <==> Passes(db, r, files)
  {
    RowsOfRun(db, r);
    forall id | id in db.tasks && id.run == r
      ensures LacksSuccessor(db, id) <==> MissesStage(db, id)
      ensures ProducerRaises(db, id) <==> OriginOf(db, id) == Raises
      ensures Revalidates(db, r, id, files) <==> Proven(db, r, id, files)
    {
      LacksExactly(db, r, id, files);
      OriginExactly(db, id);
    }
  }

  /** On any database: the pass creates exactly the rows that are due, each blank, listed
      and logged in order, reports exactly the unproven rows, and writes no row over. */
  lemma ReconcileExactly(db: Db, r: RunId, files: Files)
    requires Ordered(db) && r in db.runs && Reconcile(db, r, files).Ok?
    ensures var rep := Reconcile(db, r, files).value;
            && rep.db.runs == db.runs && rep.db.operators == db.operators
            && (forall x :: x in db.tasks ==> x in rep.db.tasks && rep.db.tasks[x] == db.tasks[x])
            && (forall x :: x in rep.db.tasks && x !in db.tasks <==> x in rep.created)
            && (forall x :: x in rep.created <==> Due(db, r, files, x))
            && (forall id :: id in rep.blocked <==>
                  id in db.tasks && id.run == r && MissesStage(db, id) && !Proven(db, r, id, files))
            && |rep.db.events| > 0 && rep.db.events[|rep.db.events| - 1] == RunReconciled(r, rep.created, rep.blocked)
            && Adds(db, rep.db.(events := rep.db.events[..|rep.db.events| - 1]), rep.created)
  {
    var ids := RunRows(db, r);
    var rep := RepairAll(db, r, ids, files);
    RowsOfRun(db, r);
    RepairAllState(db, r, ids, files);
    CreatedIsNew(db, r, ids, files);
    PassAdds(db, r, ids, files);
    forall x ensures x in rep.created <==> Due(db, r, files, x) { CreatedExactly(db, r, rep, ids, files, x); }
    forall id
      ensures id in rep.blocked <==>
                id in db.tasks && id.run == r && MissesStage(db, id) && !Proven(db, r, id, files)
    {
      if id in db.tasks { LacksExactly(db, r, id, files); }
    }
    var db' := Reconcile(db, r, files).value.db;
    assert db'.events[..|db'.events| - 1] == rep.db.events;
    assert db'.(events := rep.db.events) == rep.db;
  }

  lemma CreatedExactly(db: Db, r: RunId, rep: Repair, ids: seq<TaskId>, files: Files, x: TaskId)
    requires r in db.runs && RepairState(db, rep, r, ids, files)
    requires forall id :: id in ids <==> id in db.tasks && id.run == r
    requires forall y :: y in rep.created <==> y in rep.db.tasks && y !in db.tasks
    ensures x in rep.created <==> Due(db, r, files, x)
  {
    if x in rep.created {
      assert Answers(db, r, ids, files, x);
      var y :|
        y in ids && ((LacksDiagnosis(db, y) && x == DiagnosisOf(y)) || (Deserves(db, r, y, files) && x == Next(y)));
      LacksExactly(db, r, y, files);
      assert Misses(db, y, x);
    }
    if Due(db, r, files, x) {
      var id :| id in db.tasks && id.run == r && Misses(db, id, x) && (x.DiagTask? || Proven(db, r, id, files));
      LacksExactly(db, r, id, files);
      assert Answered(db, rep.db, r, id, files);
    }
  }
}
