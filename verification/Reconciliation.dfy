/** `reconcile` on arbitrary historical databases, reachable or not. */
module Reconciliation {
  import opened Base
  import opened SchedulerState
  import opened ResultValidation
  import opened Transitions
  import opened Invariants

  /** The log says the same about who claimed what. */
  ghost predicate SameClaims(a: seq<Event>, b: seq<Event>) {
    && (forall id, n {:trigger ClaimantAt(b, id, n)} :: ClaimantAt(b, id, n) == ClaimantAt(a, id, n))
    && (forall id {:trigger ClaimCount(b, id)} :: ClaimCount(b, id) == ClaimCount(a, id))
    && (forall id {:trigger LastClaimant(b, id)} :: LastClaimant(b, id) == LastClaimant(a, id))
  }

  lemma ClaimsUnmoved(events: seq<Event>, e: Event)
    requires !e.TaskClaimed?
    ensures SameClaims(events, events + [e])
  {
    assert (events + [e])[..|events|] == events;
  }

  predicate Deserves(db: Db, r: RunId, id: TaskId, files: Files)
    requires r in db.runs
  {
    LacksSuccessor(db, id) && Revalidates(db, r, id, files)
  }

  predicate Undeserving(db: Db, r: RunId, id: TaskId, files: Files)
    requires r in db.runs
  {
    LacksSuccessor(db, id) && !Revalidates(db, r, id, files)
  }

  /** What a repair pass may leave changed: nothing but new pending rows. */
  ghost predicate OnlyAdds(db: Db, db': Db) {
    && db'.runs == db.runs && db'.operators == db.operators
    && (forall x :: x in db.tasks ==> x in db'.tasks && db'.tasks[x] == db.tasks[x])
    && (forall x :: x in db'.tasks && x !in db.tasks ==> db'.tasks[x].status.Pending?)
    && SameClaims(db.events, db'.events)
    && (Ordered(db) ==> Ordered(db'))
  }

  /** A new row answers a lack of one of `ids`. */
  ghost predicate Answers(db: Db, r: RunId, ids: seq<TaskId>, files: Files, x: TaskId)
    requires r in db.runs
  {
    exists y ::
      y in ids && ((LacksDiagnosis(db, y) && x == DiagnosisOf(y)) || (Deserves(db, r, y, files) && x == Next(y)))
  }

  ghost predicate Answered(db: Db, db': Db, r: RunId, id: TaskId, files: Files)
    requires r in db.runs
  {
    && (LacksDiagnosis(db, id) ==> DiagnosisOf(id) in db'.tasks)
    && (Deserves(db, r, id, files) ==> Next(id) in db'.tasks)
  }

  ghost predicate RepairState(db: Db, rep: Repair, r: RunId, ids: seq<TaskId>, files: Files)
    requires r in db.runs
  {
    && OnlyAdds(db, rep.db)
    && (forall x :: x in rep.db.tasks && x !in db.tasks ==> Answers(db, r, ids, files, x))
    && (forall x :: x in ids ==> Answered(db, rep.db, r, x, files))
    && rep.blocked == Filter(ids, (x: TaskId) => Undeserving(db, r, x, files))
    && (forall x :: x in rep.created ==> x in rep.db.tasks && x !in db.tasks)
    && (rep.created == [] ==> rep.db == db)
  }

  lemma VerdictUnmoved(db: Db, db': Db, r: RunId, id: TaskId, files: Files)
    requires OnlyAdds(db, db') && id in db.tasks && r in db.runs
    ensures Revalidates(db', r, id, files) == Revalidates(db, r, id, files)
    ensures ProducerRaises(db', id) == ProducerRaises(db, id)
  {
    var n := db.tasks[id].attempt;
    assert ClaimantAt(db'.events, id, n) == ClaimantAt(db.events, id, n);
    assert ClaimCount(db'.events, id) == ClaimCount(db.events, id);
    assert LastClaimant(db'.events, id) == LastClaimant(db.events, id);
  }

  /** Rows still to be visited lack exactly what they lacked at the start. */
  lemma LacksUnmoved(db: Db, rep: Repair, r: RunId, ids: seq<TaskId>, files: Files, id: TaskId)
    requires r in db.runs && RepairState(db, rep, r, ids, files) && id in db.tasks && id !in ids
    ensures LacksDiagnosis(rep.db, id) == LacksDiagnosis(db, id)
    ensures LacksSuccessor(rep.db, id) == LacksSuccessor(db, id)
  {
    if id.OpTask? {
      assert !Answers(db, r, ids, files, DiagnosisOf(id));
      assert !id.stage.Integration? ==> !Answers(db, r, ids, files, Next(id));
    }
  }

  lemma AddsMore(db: Db, mid: Db, id: TaskId, input: Input, e: Event)
    requires OnlyAdds(db, mid) && id !in mid.tasks && !e.TaskClaimed?
    ensures OnlyAdds(db, Emit(Insert(mid, id, NewTask(input)), e))
  {
    var db' := Emit(Insert(mid, id, NewTask(input)), e);
    ClaimsUnmoved(mid.events, e);
    if Ordered(db) {
      assert Listed(mid, id);
      forall x ensures Listed(db', x) { assert Listed(mid, x); }
    }
    forall x, n ensures ClaimantAt(db'.events, x, n) == ClaimantAt(db.events, x, n) {
      assert ClaimantAt(mid.events, x, n) == ClaimantAt(db.events, x, n);
    }
    forall x ensures ClaimCount(db'.events, x) == ClaimCount(db.events, x) {
      assert ClaimCount(mid.events, x) == ClaimCount(db.events, x);
    }
    forall x ensures LastClaimant(db'.events, x) == LastClaimant(db.events, x) {
      assert LastClaimant(mid.events, x) == LastClaimant(db.events, x);
    }
  }

  lemma AnswersGrow(db: Db, rep: Repair, r: RunId, ids: seq<TaskId>, files: Files, id: TaskId)
    requires r in db.runs && RepairState(db, rep, r, ids, files)
    ensures forall x :: x in rep.db.tasks && x !in db.tasks ==> Answers(db, r, ids + [id], files, x)
  {
    forall x | x in rep.db.tasks && x !in db.tasks ensures Answers(db, r, ids + [id], files, x) {
      assert Answers(db, r, ids, files, x);
      var y :|
        y in ids && ((LacksDiagnosis(db, y) && x == DiagnosisOf(y)) || (Deserves(db, r, y, files) && x == Next(y)));
      assert y in ids + [id];
    }
  }

  lemma RepairRowState(db: Db, rep: Repair, r: RunId, ids: seq<TaskId>, files: Files, id: TaskId)
    requires r in db.runs && RepairState(db, rep, r, ids, files) && id in db.tasks && id !in ids
    ensures id in rep.db.tasks && RepairState(db, RepairRow(rep, r, id, files), r, ids + [id], files)
  {
    var rep' := RepairRow(rep, r, id, files);
    LacksUnmoved(db, rep, r, ids, files, id);
    VerdictUnmoved(db, rep.db, r, id, files);
    AnswersGrow(db, rep, r, ids, files, id);
    assert id in ids + [id];
    FilterSnoc(ids + [id], (x: TaskId) => Undeserving(db, r, x, files));
    assert (ids + [id])[..|ids|] == ids;
    if LacksDiagnosis(db, id) {
      AddsMore(db, rep.db, DiagnosisOf(id), DiagnosisInput(id, db.tasks[id].attempt),
               DiagnosisCreated(DiagnosisOf(id), db.tasks[id].attempt));
    } else if Deserves(db, r, id, files) {
      AddsMore(db, rep.db, Next(id), PLAIN_INPUT, TaskCreated(Next(id)));
    }
    forall x | x in ids + [id] ensures Answered(db, rep'.db, r, x, files) {
      if x in ids { assert Answered(db, rep.db, r, x, files); }
    }
  }

  lemma {:induction false} RepairAllState(db: Db, r: RunId, ids: seq<TaskId>, files: Files)
    requires r in db.runs && Distinct(ids) && forall id :: id in ids ==> id in db.tasks
    ensures RepairState(db, RepairAll(db, r, ids, files), r, ids, files)
  {
    if ids != [] {
      var init, id := ids[..|ids| - 1], ids[|ids| - 1];
      assert init + [id] == ids;
      RepairAllState(db, r, init, files);
      RepairRowState(db, RepairAll(db, r, init, files), r, init, files, id);
    }
  }

  lemma RowsOfRun(db: Db, r: RunId)
    requires Ordered(db)
    ensures Distinct(RunRows(db, r))
    ensures forall id :: id in RunRows(db, r) <==> id in db.tasks && id.run == r
  {
    FilterDistinct(db.order, (id: TaskId) => id.run == r && id in db.tasks);
    forall id ensures id in RunRows(db, r) <==> id in db.tasks && id.run == r { assert Listed(db, id); }
  }

  /** After a reconcile every failed operator row of the run has its diagnosis, and
      every succeeded row short of integration has its successor or is reported
      blocked; no existing row was written. */
  lemma Repairs(db: Db, r: RunId, files: Files)
    requires Ordered(db) && r in db.runs && Reconcile(db, r, files).Ok?
    ensures var rep := Reconcile(db, r, files).value;
            && OnlyAdds(db, rep.db.(events := RepairAll(db, r, RunRows(db, r), files).db.events))
            && (forall id :: id in rep.db.tasks && id.run == r ==>
                  !LacksDiagnosis(rep.db, id) && (LacksSuccessor(rep.db, id) ==> id in rep.blocked))
            && (forall id :: id in rep.created <==> id in rep.db.tasks && id !in db.tasks)
  {
    RowsOfRun(db, r);
    var ids := RunRows(db, r);
    RepairAllState(db, r, ids, files);
    var rep := RepairAll(db, r, ids, files);
    forall id | id in rep.db.tasks && id.run == r
      ensures !LacksDiagnosis(rep.db, id) && (LacksSuccessor(rep.db, id) ==> id in rep.blocked)
    {
      if id in db.tasks {
        assert Answered(db, rep.db, r, id, files);
        assert id in ids;
      }
    }
    CreatedIsNew(db, r, ids, files);
  }

  lemma {:induction false} CreatedIsNew(db: Db, r: RunId, ids: seq<TaskId>, files: Files)
    requires r in db.runs && forall id :: id in ids ==> id in db.tasks
    ensures var rep := RepairAll(db, r, ids, files);
            forall x :: x in rep.db.tasks && x !in db.tasks ==> x in rep.created
  {
    if ids != [] {
      CreatedIsNew(db, r, ids[..|ids| - 1], files);
    }
  }

  lemma {:induction false} NothingLeft(db: Db, r: RunId, ids: seq<TaskId>, files: Files)
    requires r in db.runs && forall id :: id in ids ==> id in db.tasks
    requires forall id :: id in ids ==> !LacksDiagnosis(db, id) && !Deserves(db, r, id, files)
    ensures RepairAll(db, r, ids, files)
              == Repair(db, [], Filter(ids, (x: TaskId) => Undeserving(db, r, x, files)))
  {
    if ids != [] {
      NothingLeft(db, r, ids[..|ids| - 1], files);
      FilterSnoc(ids, (x: TaskId) => Undeserving(db, r, x, files));
    }
  }

  /** After a first pass nothing is left to repair, and what it could not repair is
      exactly what it reported. */
  lemma NothingMore(db: Db, rep: Repair, db1: Db, r: RunId, ids: seq<TaskId>, files: Files, id: TaskId)
    requires r in db.runs && RepairState(db, rep, r, ids, files) && OnlyAdds(db, db1) && db1.tasks == rep.db.tasks
    requires id in db1.tasks && (id in db.tasks ==> id in ids)
    requires db1.events == rep.db.events + [RunReconciled(r, rep.created, rep.blocked)]
    ensures !LacksDiagnosis(db1, id) && !Deserves(db1, r, id, files)
    ensures Undeserving(db1, r, id, files) <==> id in rep.blocked
    ensures LacksSuccessor(db1, id) ==> id in db.tasks && LacksSuccessor(db, id)
    ensures id in db.tasks ==> ProducerRaises(db1, id) == ProducerRaises(db, id)
  {
    if id in db.tasks {
      assert Answered(db, rep.db, r, id, files);
      VerdictUnmoved(db, db1, r, id, files);
      SuccessorAppears(db, rep, r, ids, files, id);
    }
  }

  /** A second reconcile with unchanged evidence creates nothing and reports
      exactly the rows the first one left blocked. */
  lemma SecondReconcileCreatesNothing(db: Db, r: RunId, files: Files)
    requires Ordered(db) && r in db.runs && Reconcile(db, r, files).Ok?
    ensures var first := Reconcile(db, r, files).value;
            var second := Reconcile(first.db, r, files);
            && second.Ok? && second.value.created == []
            && second.value.db.tasks == first.db.tasks && second.value.db.order == first.db.order
            && (forall id :: id in second.value.blocked <==> id in first.blocked)
  {
    var rep := RepairAll(db, r, RunRows(db, r), files);
    var db1 := Emit(rep.db, RunReconciled(r, rep.created, rep.blocked));
    SecondPass(db, r, files, rep, db1);
    NothingLeft(db1, r, RunRows(db1, r), files);
  }

  lemma SecondPass(db: Db, r: RunId, files: Files, rep: Repair, db1: Db)
    requires Ordered(db) && r in db.runs && Repairable(db, r, files)
    requires rep == RepairAll(db, r, RunRows(db, r), files)
    requires db1 == Emit(rep.db, RunReconciled(r, rep.created, rep.blocked))
    ensures r in db1.runs && Repairable(db1, r, files)
    ensures forall id :: id in RunRows(db1, r) ==>
              id in db1.tasks && !LacksDiagnosis(db1, id) && !Deserves(db1, r, id, files)
    ensures forall id :: id in RunRows(db1, r) ==> (Undeserving(db1, r, id, files) <==> id in rep.blocked)
    ensures forall id :: id in rep.blocked ==> id in RunRows(db1, r)
  {
    RowsOfRun(db, r);
    RepairAllState(db, r, RunRows(db, r), files);
    EmitAdds(db, rep.db, RunReconciled(r, rep.created, rep.blocked));
    RowsOfRun(db1, r);
    forall id | id in RunRows(db1, r)
      ensures !LacksDiagnosis(db1, id) && !Deserves(db1, r, id, files)
      ensures Undeserving(db1, r, id, files) <==> id in rep.blocked
      ensures LacksSuccessor(db1, id) ==> id in RunRows(db, r) && LacksSuccessor(db, id)
      ensures id in db.tasks ==> ProducerRaises(db1, id) == ProducerRaises(db, id)
    {
      NothingMore(db, rep, db1, r, RunRows(db, r), files, id);
    }
  }

  lemma EmitAdds(db: Db, mid: Db, e: Event)
    requires OnlyAdds(db, mid) && !e.TaskClaimed?
    ensures OnlyAdds(db, Emit(mid, e))
  {
    var db' := Emit(mid, e);
    ClaimsUnmoved(mid.events, e);
    if Ordered(db) { SameOrder(mid, db'); }
    forall x, n ensures ClaimantAt(db'.events, x, n) == ClaimantAt(db.events, x, n) {
      assert ClaimantAt(mid.events, x, n) == ClaimantAt(db.events, x, n);
    }
    forall x ensures ClaimCount(db'.events, x) == ClaimCount(db.events, x) {
      assert ClaimCount(mid.events, x) == ClaimCount(db.events, x);
    }
    forall x ensures LastClaimant(db'.events, x) == LastClaimant(db.events, x) {
      assert LastClaimant(mid.events, x) == LastClaimant(db.events, x);
    }
  }

  /** A missing successor appears in the pass exactly when it was deserved. */
  lemma SuccessorAppears(db: Db, rep: Repair, r: RunId, ids: seq<TaskId>, files: Files, id: TaskId)
    requires r in db.runs && RepairState(db, rep, r, ids, files) && id in db.tasks && id in ids
    ensures LacksSuccessor(rep.db, id) <==> Undeserving(db, r, id, files)
  {
    assert Answered(db, rep.db, r, id, files);
    assert Undeserving(db, r, id, files) ==> !Answers(db, r, ids, files, Next(id));
  }
}
