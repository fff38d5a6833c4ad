/** `claim_ready`: what its row-by-row loop amounts to. */
module Claiming {
  import opened Base
  import opened SchedulerState
  import opened Transitions
  import opened Tally
  import opened Invariants

  ghost predicate Claimable(db: Db, ids: seq<TaskId>) {
    Distinct(ids) && forall id :: id in ids ==> id in db.tasks && db.tasks[id].status.Pending?
  }

  function ClaimEvent(db: Db, id: TaskId, worker: Worker): Event {
    TaskClaimed(id, worker, AttemptOf(db, id) + 1)
  }

  function ClaimEvents(db: Db, ids: seq<TaskId>, worker: Worker): seq<Event> {
    if ids == [] then []
    else ClaimEvents(db, ids[..|ids| - 1], worker) + [ClaimEvent(db, ids[|ids| - 1], worker)]
  }

  lemma InitClaimable(db: Db, ids: seq<TaskId>)
    requires Claimable(db, ids) && ids != []
    ensures Claimable(db, ids[..|ids| - 1])
    ensures ids[|ids| - 1] !in ids[..|ids| - 1] && ids[|ids| - 1] in ids
    ensures forall id :: id in ids <==> id in ids[..|ids| - 1] || id == ids[|ids| - 1]
  {
    var init := ids[..|ids| - 1];
    assert ids == init + [ids[|ids| - 1]];
  }

  /** One more claim on top of those already made; rows outside `ids`, and the
      other tables, are untouched. */
  lemma {:induction false} ClaimAllFrame(db: Db, ids: seq<TaskId>, worker: Worker, token: Token, expires: Time,
                                         dirs: Allocations)
    requires Claimable(db, ids)
    ensures var db' := ClaimAll(db, ids, worker, token, expires, dirs);
            && db' == db.(tasks := db'.tasks, events := db'.events)
            && db'.tasks.Keys == db.tasks.Keys
            && (forall id :: id in db.tasks && id !in ids ==> db'.tasks[id] == db.tasks[id])
            && db'.events == db.events + ClaimEvents(db, ids, worker)
  {
    if ids != [] {
      InitClaimable(db, ids);
      var n := |ids| - 1;
      ClaimAllFrame(db, ids[..n], worker, token, expires, dirs);
      var mid := ClaimAll(db, ids[..n], worker, token, expires, dirs);
      assert mid.tasks[ids[n]] == db.tasks[ids[n]];
      var e := ClaimEvent(db, ids[n], worker);
      assert ClaimAll(db, ids, worker, token, expires, dirs).events == mid.events + [e];
      assert db.events + ClaimEvents(db, ids[..n], worker) + [e] == db.events + ClaimEvents(db, ids, worker);
    }
  }

  lemma ClaimAllStep(db: Db, ids: seq<TaskId>, worker: Worker, token: Token, expires: Time, dirs: Allocations)
    requires Claimable(db, ids) && ids != []
    ensures var n := |ids| - 1;
            && Claimable(db, ids[..n])
            && var mid := ClaimAll(db, ids[..n], worker, token, expires, dirs);
            && ids[n] in mid.tasks && mid.tasks[ids[n]] == db.tasks[ids[n]] && mid.tasks[ids[n]].status.Pending?
            && ClaimAll(db, ids, worker, token, expires, dirs) ==
               ClaimRow(mid, ids[n], worker, token + n, expires, dirs)
  {
    InitClaimable(db, ids);
    ClaimAllFrame(db, ids[..|ids| - 1], worker, token, expires, dirs);
  }

  /** The i-th chosen row gets the i-th fresh token. */
  lemma {:induction false} ClaimAllRows(db: Db, ids: seq<TaskId>, worker: Worker, token: Token, expires: Time,
                                        dirs: Allocations, i: nat)
    requires Claimable(db, ids) && i < |ids|
    ensures var db' := ClaimAll(db, ids, worker, token, expires, dirs);
            && ids[i] in db'.tasks
            && db'.tasks[ids[i]] ==
               ClaimedTask(db.tasks[ids[i]], worker, token + i, expires, AllocationOf(dirs, ids[i]))
  {
    ClaimAllStep(db, ids, worker, token, expires, dirs);
    var init := ids[..|ids| - 1];
    if i < |init| {
      assert ids[i] == init[i];
      ClaimAllRows(db, init, worker, token, expires, dirs, i);
    }
  }

  lemma {:induction false} ClaimAllKeeps(db: Db, minted: Token, ids: seq<TaskId>, worker: Worker, expires: Time,
                                         dirs: Allocations)
    requires Lawful(db, minted) && Claimable(db, ids) && worker != ""
    ensures Lawful(ClaimAll(db, ids, worker, minted, expires, dirs), minted + |ids|)
  {
    if ids == [] {
      assert ClaimAll(db, ids, worker, minted, expires, dirs) == db;
    } else {
      ClaimAllStep(db, ids, worker, minted, expires, dirs);
      var n := |ids| - 1;
      ClaimAllKeeps(db, minted, ids[..n], worker, expires, dirs);
      ClaimRowLawful(ClaimAll(db, ids[..n], worker, minted, expires, dirs), minted + n, ids[n], worker, expires, dirs);
    }
  }

  /** The log entry of a claim concerns the claimed row only. */
  lemma {:induction false} ClaimAllAccounts(db: Db, ids: seq<TaskId>, worker: Worker, token: Token, expires: Time,
                                            dirs: Allocations, id: TaskId)
    requires Claimable(db, ids)
    ensures AccountOf(ClaimAll(db, ids, worker, token, expires, dirs).events, id) ==
              if id in ids then Posted(AccountOf(db.events, id), ClaimEvent(db, id, worker), id)
              else AccountOf(db.events, id)
  {
    if ids == [] {
      assert ClaimAll(db, ids, worker, token, expires, dirs) == db;
    } else {
      InitClaimable(db, ids);
      ClaimAllStep(db, ids, worker, token, expires, dirs);
      var n := |ids| - 1;
      var mid := ClaimAll(db, ids[..n], worker, token, expires, dirs);
      ClaimAllAccounts(db, ids[..n], worker, token, expires, dirs, id);
      Append(mid.events, ClaimEvent(db, ids[n], worker));
    }
  }

  lemma ChosenClaimable(db: Db, queue: Option<Queue>, limit: int)
    requires Ordered(db)
    ensures Claimable(db, Chosen(db, queue, limit))
  {
    var candidates := Candidates(db, queue);
    FilterDistinct(db.order, (id: TaskId) => Waiting(db, queue, id));
    FilterDistinct(candidates, (id: TaskId) => DepsSucceeded(db, id));
    var eligible := Eligible(db, candidates);
    assert Distinct(eligible);
  }

  /** Claiming never changes whether another row's dependencies hold: they look at
      succeeded rows, and only pending rows are claimed. */
  lemma ClaimKeepsEligibility(db: Db, ids: seq<TaskId>, worker: Worker, token: Token, expires: Time,
                              dirs: Allocations, id: TaskId)
    requires Claimable(db, ids)
    ensures DepsSucceeded(ClaimAll(db, ids, worker, token, expires, dirs), id) == DepsSucceeded(db, id)
  {
    ClaimAllFrame(db, ids, worker, token, expires, dirs);
    if id.OpTask? && !id.stage.Torch? && Previous(id) in ids {
      var i :| 0 <= i < |ids| && ids[i] == Previous(id);
      ClaimAllRows(db, ids, worker, token, expires, dirs, i);
    }
  }

  lemma ClaimReadyKeeps(db: Db, now: Time, minted: Token, worker: Worker, queue: Option<Queue>, lease: int,
                        limit: int, dirs: Allocations)
    requires Lawful(db, minted) && ClaimArguments(worker, lease, limit)
    ensures Lawful(ClaimReady(db, now, minted, worker, queue, lease, limit, dirs).value,
                   minted + |Chosen(Released(db, now, false), queue, limit)|)
  {
    var released := Released(db, now, false);
    assert Lawful(released, minted) && Ordered(released) by {
      LawfulIsInv(db, minted);
      ReleasedKeeps(db, minted, now, false);
      LawfulIsInv(released, minted);
    }
    ChosenClaimable(released, queue, limit);
    ClaimAllKeeps(released, minted, Chosen(released, queue, limit), worker, now + lease, dirs);
  }
}
