/** engine/scheduler.py's TaskScheduler: the public operations as methods that
    update the store statement by statement, each refining one step of a run. */
module OperatorScheduler {
  import opened Base
  import opened SchedulerState
  import opened ResultValidation
  import opened Transitions
  import opened Invariants
  import opened Claiming
  import opened Runs
  import opened DurableStore
  import Reconciliation

  /** From `before`, time moved on and then exactly step `s` was taken. */
  predicate Performs(before: World, after: World, s: Step) {
    && before.now <= after.now
    && after.minted == before.minted + Drawn(before.db, after.now, s)
    && after.db == Published(before.db, Attempt(before.db, after.now, before.minted, s))
  }

  /** A refused attempt publishes nothing. */
  function Published(db: Db, outcome: DbOutcome): Db { if outcome.Ok? then outcome.value else db }

  /** That is one move of a run. */
  lemma PerformsOneMove(before: World, after: World, s: Step)
    requires Performs(before, after, s)
    ensures after == After(before, Move(after.now - before.now, s))
  {
    assert before.now + (after.now - before.now) == after.now;
  }

  /** The caller is told what the step relation says: a value, or this exception. */
  predicate Answers<T>(outcome: Outcome<T, Refusal>, expected: DbOutcome) {
    outcome.Ok? == expected.Ok? && (outcome.Err? ==> outcome.error == expected.error)
  }

  /** Whatever public methods are called, in whatever order, the state stays reachable. */
  lemma StaysReachable(before: World, after: World, s: Step)
    requires Reachable(before) && Performs(before, after, s)
    ensures Reachable(after)
  {
    PerformsOneMove(before, after, s);
    var moves :| before == Exec(START, moves);
    var m := Move(after.now - before.now, s);
    assert (moves + [m])[..|moves|] == moves;
    assert after == Exec(START, moves + [m]);
  }

  lemma TimePasses(w: World, later: Time)
    requires w.now <= later
    ensures Performs(w, w.(now := later), Crashed(0))
  {
  }

  /** A renewal leaves the clock at its second reading. */
  lemma RenewalStaysReachable(before: World, after: World, checked: Time, s: Step)
    requires Reachable(before) && checked <= after.now && Performs(before, after.(now := checked), s)
    ensures Reachable(after)
  {
    StaysReachable(before, after.(now := checked), s);
    TimePasses(after.(now := checked), after.now);
    StaysReachable(after.(now := checked), after, Crashed(0));
  }

  /** The rows of `db` with the log of `was`: claims made, their events not yet appended. */
  function Quietly(was: Db, db: Db): Db { db.(events := was.events) }

  /** The rows the claim loop has taken once it has looked at `ids`. */
  function Taken(db: Db, ids: seq<TaskId>, limit: int): seq<TaskId>
    requires limit > 0
  {
    var eligible := Eligible(db, ids);
    eligible[..Min(limit, |eligible|)]
  }

  lemma TakenStep(db: Db, queue: Option<Queue>, limit: int, candidates: seq<TaskId>, i: nat)
    requires Ordered(db) && limit > 0 && candidates == Candidates(db, queue) && i < |candidates|
    ensures var claimed, id := Taken(db, candidates[..i], limit), candidates[i];
            && Claimable(db, claimed) && id !in claimed && id in db.tasks && db.tasks[id].status.Pending?
            && Taken(db, candidates[..i + 1], limit)
                 == if |claimed| >= limit || !DepsSucceeded(db, id) then claimed else claimed + [id]
  {
    var id := candidates[i];
    assert candidates[..i + 1][..i] == candidates[..i];
    FilterDistinct(db.order, (x: TaskId) => Waiting(db, queue, x));
    assert Distinct(candidates[..i]);
    FilterDistinct(candidates[..i], (x: TaskId) => DepsSucceeded(db, x));
    assert id !in candidates[..i];
    assert id in candidates;
    forall x | x in Taken(db, candidates[..i], limit) ensures x in candidates && x in candidates[..i] {
      assert x in Eligible(db, candidates[..i]);
    }
  }

  /** Claims already made leave the next candidate as it was, and as eligible. */
  lemma NextCandidate(db: Db, claimed: seq<TaskId>, worker: Worker, token: Token, expires: Time, dirs: Allocations,
                      id: TaskId)
    requires Claimable(db, claimed) && id !in claimed && id in db.tasks
    ensures var db' := Quietly(db, ClaimAll(db, claimed, worker, token, expires, dirs));
            && id in db'.tasks && db'.tasks[id] == db.tasks[id]
            && DepsSucceeded(db', id) == DepsSucceeded(db, id)
  {
    ClaimAllFrame(db, claimed, worker, token, expires, dirs);
    ClaimKeepsEligibility(db, claimed, worker, token, expires, dirs, id);
  }

  /** Claiming it is one more row update and one more pending event. */
  lemma OneMoreClaim(db: Db, claimed: seq<TaskId>, worker: Worker, token: Token, expires: Time, dirs: Allocations,
                     id: TaskId)
    requires Claimable(db, claimed) && id !in claimed && id in db.tasks
    ensures var db' := Quietly(db, ClaimAll(db, claimed, worker, token, expires, dirs));
            var row := ClaimedTask(db.tasks[id], worker, token + |claimed|, expires, AllocationOf(dirs, id));
            Quietly(db, ClaimAll(db, claimed + [id], worker, token, expires, dirs)) == Put(db', id, row)
    ensures ClaimEvents(db, claimed + [id], worker)
              == ClaimEvents(db, claimed, worker) + [TaskClaimed(id, worker, db.tasks[id].attempt + 1)]
  {
    ClaimAllFrame(db, claimed, worker, token, expires, dirs);
    assert (claimed + [id])[..|claimed|] == claimed;
  }

  /** `claimed` are marked in `db`, and their events are waiting in `batch`. */
  ghost predicate ClaimedSoFar(released: Db, db: Db, claimed: seq<TaskId>, batch: seq<Event>,
                               worker: Worker, first: Token, expires: Time, dirs: Allocations)
  {
    && db == Quietly(released, ClaimAll(released, claimed, worker, first, expires, dirs))
    && batch == ClaimEvents(released, claimed, worker)
  }

  function MarkClaimed(db: Db, id: TaskId, worker: Worker, token: Token, expires: Time, dirs: Allocations): Task
    requires id in db.tasks
  {
    ClaimedTask(db.tasks[id], worker, token, expires, AllocationOf(dirs, id))
  }

  lemma ClaimTurnRow(released: Db, db: Db, claimed: seq<TaskId>, batch: seq<Event>, id: TaskId,
                     worker: Worker, first: Token, expires: Time, dirs: Allocations)
    requires Claimable(released, claimed) && id !in claimed && id in released.tasks
    requires ClaimedSoFar(released, db, claimed, batch, worker, first, expires, dirs)
    ensures id in db.tasks && db.tasks[id] == released.tasks[id] && DepsSucceeded(db, id) == DepsSucceeded(released, id)
    ensures ClaimedSoFar(released, Put(db, id, MarkClaimed(db, id, worker, first + |claimed|, expires, dirs)),
                         claimed + [id], batch + [TaskClaimed(id, worker, db.tasks[id].attempt + 1)],
                         worker, first, expires, dirs)
  {
    NextCandidate(released, claimed, worker, first, expires, dirs, id);
    OneMoreClaim(released, claimed, worker, first, expires, dirs, id);
  }

  /** One turn of the claim loop. */
  lemma ClaimTurn(released: Db, db: Db, queue: Option<Queue>, limit: int, candidates: seq<TaskId>, i: nat,
                  claimed: seq<TaskId>, batch: seq<Event>, worker: Worker, first: Token, expires: Time,
                  dirs: Allocations)
    requires Ordered(released) && limit > 0 && candidates == Candidates(released, queue) && i < |candidates|
    requires claimed == Taken(released, candidates[..i], limit)
    requires ClaimedSoFar(released, db, claimed, batch, worker, first, expires, dirs)
    ensures var id := candidates[i];
            && id in db.tasks && db.tasks[id].status.Pending?
            && Taken(released, candidates[..i + 1], limit)
                 == (if |claimed| >= limit || !DepsSucceeded(db, id) then claimed else claimed + [id])
            && ClaimedSoFar(released, Put(db, id, MarkClaimed(db, id, worker, first + |claimed|, expires, dirs)),
                            claimed + [id], batch + [TaskClaimed(id, worker, db.tasks[id].attempt + 1)],
                            worker, first, expires, dirs)
  {
    TakenStep(released, queue, limit, candidates, i);
    ClaimTurnRow(released, db, claimed, batch, candidates[i], worker, first, expires, dirs);
  }

  /** What stays the same while one claim runs. */
  datatype ClaimJob = ClaimJob(
    released: Db, queue: Option<Queue>, limit: int, worker: Worker, first: Token, expires: Time, dirs: Allocations)

  datatype LoopFact = RowsTaken | RowsMarked

  ghost predicate Upholds(fact: LoopFact, job: ClaimJob, seen: seq<TaskId>, db: Db, claimed: seq<TaskId>,
                          batch: seq<Event>)
    requires job.limit > 0
  {
    match fact
    case RowsTaken => claimed == Taken(job.released, seen, job.limit)
    case RowsMarked => ClaimedSoFar(job.released, db, claimed, batch, job.worker, job.first, job.expires, job.dirs)
  }

  /** The claim loop once it has seen `seen`. */
  ghost predicate Underway(job: ClaimJob, seen: seq<TaskId>, db: Db, claimed: seq<TaskId>, batch: seq<Event>) {
    job.limit > 0 && forall fact :: Upholds(fact, job, seen, db, claimed, batch)
  }

  lemma UnderwayTurn(job: ClaimJob, candidates: seq<TaskId>, i: nat, db: Db, claimed: seq<TaskId>, batch: seq<Event>)
    requires Ordered(job.released) && candidates == Candidates(job.released, job.queue) && i < |candidates|
    requires Underway(job, candidates[..i], db, claimed, batch)
    ensures candidates[i] in db.tasks && db.tasks[candidates[i]].status.Pending?
    ensures var id := candidates[i];
            if |claimed| >= job.limit || !DepsSucceeded(db, id) then
              Underway(job, candidates[..i + 1], db, claimed, batch)
            else Underway(job, candidates[..i + 1],
                          Put(db, id, MarkClaimed(db, id, job.worker, job.first + |claimed|, job.expires, job.dirs)),
                          claimed + [id], batch + [TaskClaimed(id, job.worker, db.tasks[id].attempt + 1)])
  {
    assert Upholds(RowsTaken, job, candidates[..i], db, claimed, batch);
    assert Upholds(RowsMarked, job, candidates[..i], db, claimed, batch);
    ClaimTurn(job.released, db, job.queue, job.limit, candidates, i, claimed, batch, job.worker, job.first,
              job.expires, job.dirs);
  }

  /** The loop's rows plus the collected events are the specified claim. */
  lemma ClaimedAll(db: Db, queue: Option<Queue>, limit: int, worker: Worker, token: Token, expires: Time,
                   dirs: Allocations)
    requires Ordered(db) && limit > 0
    ensures var claimed := Taken(db, Candidates(db, queue), limit);
            && claimed == Chosen(db, queue, limit)
            && var all := ClaimAll(db, claimed, worker, token, expires, dirs);
            Quietly(db, all).(events := db.events + ClaimEvents(db, claimed, worker)) == all
  {
    ChosenClaimable(db, queue, limit);
    ClaimAllFrame(db, Chosen(db, queue, limit), worker, token, expires, dirs);
  }

  ghost predicate ClaimOutcome(db: Db, db': Db, now: Time, first: Token, next: Token, worker: Worker,
                               queue: Option<Queue>, lease: int, limit: int, dirs: Allocations,
                               outcome: Outcome<seq<TaskId>, Refusal>)
  {
    if !ClaimArguments(worker, lease, limit) then outcome == Err(InvalidArgument) && next == first
    else
      var released := Released(db, now, false);
      && outcome == Ok(Chosen(released, queue, limit))
      && db' == ClaimAll(released, Chosen(released, queue, limit), worker, first, now + lease, dirs)
      && next == first + |outcome.value|
  }

  lemma ClaimPerforms(before: World, after: World, db: Db, worker: Worker, queue: Option<Queue>,
                      lease: int, limit: int, dirs: Allocations, outcome: Outcome<seq<TaskId>, Refusal>)
    requires before.now <= after.now
    requires ClaimOutcome(before.db, db, after.now, before.minted, after.minted, worker, queue, lease, limit, dirs,
                          outcome)
    requires after.db == if outcome.Ok? then db else before.db
    ensures Performs(before, after, ClaimStep(worker, queue, lease, limit, dirs))
  {
    var s := ClaimStep(worker, queue, lease, limit, dirs);
    assert Drawn(before.db, after.now, s) == after.minted - before.minted;
  }

  /** The reconcile loop gets past row `id`. */
  predicate Continues(db: Db, r: RunId, id: TaskId, files: Files)
    requires r in db.runs && id in db.tasks
  {
    LacksSuccessor(db, id) ==>
      !ProducerRaises(db, id) && (Revalidates(db, r, id, files) ==> (r, id.key) in db.operators)
  }

  /** It gets past all of `ids`. */
  predicate GetsPast(db: Db, r: RunId, ids: seq<TaskId>, files: Files)
    requires r in db.runs
  {
    forall id :: id in ids ==> id in db.tasks && Continues(db, r, id, files)
  }

  lemma GetsPastNext(db: Db, r: RunId, ids: seq<TaskId>, i: nat, files: Files)
    requires r in db.runs && i < |ids| && forall id :: id in ids ==> id in db.tasks
    ensures GetsPast(db, r, ids[..i + 1], files) <==>
              GetsPast(db, r, ids[..i], files) && Continues(db, r, ids[i], files)
    ensures GetsPast(db, r, ids, files) ==> Continues(db, r, ids[i], files)
  {
    assert ids[..i + 1] == ids[..i] + [ids[i]];
    assert ids[i] in ids;
  }

  lemma RepairableMeansPast(db: Db, r: RunId, files: Files)
    requires r in db.runs && forall id :: id in RunRows(db, r) ==> id in db.tasks
    ensures Repairable(db, r, files) <==> GetsPast(db, r, RunRows(db, r), files)
  {
  }

  /** Without claims there is no claimant; with some, there is a last one. */
  lemma {:induction false} NeverClaimed(events: seq<Event>, id: TaskId, attempt: nat)
    ensures ClaimCount(events, id) == 0 <==> LastClaimant(events, id).None?
    ensures ClaimCount(events, id) == 0 ==> ClaimantAt(events, id, attempt).None?
  {
    if events != [] { NeverClaimed(events[..|events| - 1], id, attempt); }
  }

  /** Repairing a row adds to whatever was repaired before. */
  lemma RepairRowAppends(rep: Repair, r: RunId, id: TaskId, files: Files)
    requires id in rep.db.tasks && r in rep.db.runs
    ensures var one := RepairRow(Repair(rep.db, [], []), r, id, files);
            RepairRow(rep, r, id, files) == Repair(one.db, rep.created + one.created, rep.blocked + one.blocked)
  {
  }

  /** A row about to be visited is as it was when the rows were read, and lacks
      what it lacked then. */
  lemma RepairTurn(db: Db, r: RunId, ids: seq<TaskId>, i: nat, files: Files)
    requires r in db.runs && Distinct(ids) && i < |ids| && forall id :: id in ids ==> id in db.tasks && id.run == r
    ensures var rep, id := RepairAll(db, r, ids[..i], files), ids[i];
            && id.run == r && id in db.tasks && id in rep.db.tasks && rep.db.tasks[id] == db.tasks[id]
            && rep.db.operators == db.operators
            && RepairAll(db, r, ids[..i + 1], files) == RepairRow(rep, r, id, files)
            && Continues(rep.db, r, id, files) == Continues(db, r, id, files)
  {
    Reconciliation.RepairAllState(db, r, ids[..i], files);
    var rep, id := RepairAll(db, r, ids[..i], files), ids[i];
    assert ids[..i + 1][..i] == ids[..i];
    assert id in ids && id !in ids[..i];
    Reconciliation.LacksUnmoved(db, rep, r, ids[..i], files, id);
    Reconciliation.VerdictUnmoved(db, rep.db, r, id, files);
  }

  class TaskScheduler {
    const store: EventStore
    /** The last clock reading, and how many lease tokens were drawn. */
    var clock: Time
    var drawn: Token

    function State(): World
      reads this, store
    {
      World(store.committed, clock, drawn)
    }

    ghost predicate Idle()
      reads this, store
    {
      store.depth == 0 && store.Valid()
    }

    constructor ()
      ensures Idle() && State() == START && fresh(store)
    {
      store := new EventStore();
      clock, drawn := 0, 0;
    }

    /** `time.time()`: any instant not before the previous reading. */
    method ReadClock() returns (now: Time)
      modifies `clock
      ensures now == clock && old(clock) <= clock
    {
      var passed: int :| 0 <= passed;
      clock := clock + passed;
      now := clock;
    }

    /** Inside an open transaction nothing is published and the depth returns. */
    twostate predicate Within()
      reads this, store
    {
      store.Valid() && store.depth == old(store.depth) && store.committed == old(store.committed) && old(clock) <= clock
    }

    method CreateRun(r: RunId, run: Run) returns (saved: Run)
      requires Idle()
      modifies this, store
      ensures Idle() && Performs(old(State()), State(), CreateRunStep(r, run))
      ensures r in store.committed.runs && saved == store.committed.runs[r]
    {
      store.Enter();
      if r in store.runs {
        saved := store.runs[r];
        store.Leave(false);
        return;
      }
      var admitted := run;
      if run.mode.Real? {
        admitted := run.(environmentRequired := true, status := WaitingForEnvironment);
      }
      saved := store.SaveRun(r, admitted);
      store.AppendEvent(RunCreated(r));
      store.Leave(false);
    }

    method BindBody(r: RunId, mode: Mode, ready: bool, fingerprint: Fingerprint)
      returns (outcome: Outcome<Run, Refusal>)
      requires store.Valid() && store.depth > 0
      modifies store
      ensures Within()
      ensures var expected := Transitions.BindEnvironment(old(store.Working()), r, mode, ready, fingerprint);
              Answers(outcome, expected) && (expected.Ok? ==> store.Working() == expected.value)
    {
      if r !in store.runs { return Err(UnknownRun); }
      var run := store.runs[r];
      if (run.mode.Real? && !mode.Real?) || !ready { return Err(ProofRejected); }
      if run.proof.Some? && run.proof.value != fingerprint && HasTasks(store.Working(), r) {
        return Err(EnvironmentChanged);
      }
      run := run.(proof := Some(fingerprint));
      run := run.(status := EnvironmentReady);
      store.UpdateRun(r, run);
      store.AppendEvent(EnvironmentBound(r));
      return Ok(run);
    }

    method BindEnvironment(r: RunId, mode: Mode, ready: bool, fingerprint: Fingerprint)
      returns (outcome: Outcome<Run, Refusal>)
      requires Idle()
      modifies this, store
      ensures Idle() && Performs(old(State()), State(), BindStep(r, mode, ready, fingerprint))
      ensures Answers(outcome, Transitions.BindEnvironment(old(store.committed), r, mode, ready, fingerprint))
    {
      store.Enter();
      outcome := BindBody(r, mode, ready, fingerprint);
      store.Leave(outcome.Err?);
    }

    method RecordEnvironmentFailure(r: RunId, ownerKnown: bool) returns (outcome: Outcome<Run, Refusal>)
      requires Idle()
      modifies this, store
      ensures Idle() && Performs(old(State()), State(), EnvironmentFailureStep(r, ownerKnown))
      ensures Answers(outcome, Transitions.RecordEnvironmentFailure(old(store.committed), r, ownerKnown))
    {
      store.Enter();
      if r !in store.runs { store.Leave(true); return Err(UnknownRun); }
      if !ownerKnown { store.Leave(true); return Err(ProofRejected); }
      var run := store.runs[r].(status := EnvironmentFailed);
      store.UpdateRun(r, run);
      store.AppendEvent(EnvironmentRejected(r));
      store.Leave(false);
      return Ok(run);
    }

    /** `record_graph_transition`; the requirement flag is its own column here. */
    method RecordGraph(r: RunId, channel: GraphKey, record: GraphRecord) returns (outcome: Outcome<Run, Refusal>)
      requires Idle()
      modifies this, store
      ensures Idle() && Performs(old(State()), State(), GraphStep(r, channel, record))
      ensures Answers(outcome, Transitions.RecordGraph(old(store.committed), r, channel, record))
    {
      store.Enter();
      if r !in store.runs { store.Leave(true); return Err(UnknownRun); }
      var run := store.runs[r];
      if channel !in run.graph || run.graph[channel] != record {
        run := run.(graph := run.graph[channel := record]);
        store.UpdateRun(r, run);
        store.AppendEvent(GraphRecorded(r, channel));
      }
      store.Leave(false);
      return Ok(run);
    }

    method RequireGraphEnvironment(r: RunId) returns (outcome: Outcome<Run, Refusal>)
      requires Idle()
      modifies this, store
      ensures Idle() && Performs(old(State()), State(), RequireGraphStep(r))
      ensures Answers(outcome, Transitions.RequireGraphEnvironment(old(store.committed), r))
    {
      store.Enter();
      if r !in store.runs { store.Leave(true); return Err(UnknownRun); }
      var run := store.runs[r];
      if !run.graphRequired {
        run := run.(graphRequired := true);
        store.UpdateRun(r, run);
        store.AppendEvent(GraphRequirement(r));
      }
      store.Leave(false);
      return Ok(run);
    }

    method DiscoverBody(r: RunId, spec: OperatorSpec) returns (outcome: Outcome<TaskId, Refusal>)
      requires store.Valid() && store.depth > 0
      modifies store
      ensures Within()
      ensures var expected := Transitions.DiscoverOperator(old(store.Working()), r, spec);
              Answers(outcome, expected) && (expected.Ok? ==> store.Working() == expected.value)
      ensures outcome.Ok? ==> outcome.value == OpTask(r, spec.key, Torch) && outcome.value in store.tasks
    {
      if r !in store.runs { return Err(UnknownRun); }
      var run := store.runs[r];
      if EnvironmentRequired(run) {
        if !run.status.EnvironmentReady? { return Err(EnvironmentGate); }
        if run.proof.None? || spec.key.fingerprint != run.proof { return Err(ContractMismatch); }
        if spec.key.model != run.model || spec.key.backend != run.backend { return Err(ContractMismatch); }
      }
      var isNew := store.PutOperator(r, spec);
      var id := OpTask(r, spec.key, Torch);
      if id !in store.tasks {
        var _ := store.InsertTask(id, NewTask(PLAIN_INPUT));
        store.AppendEvent(OperatorDiscovered(r, spec.key, isNew));
        store.AppendEvent(TaskCreated(id));
      }
      return Ok(id);
    }

    method DiscoverOperator(r: RunId, spec: OperatorSpec) returns (outcome: Outcome<TaskId, Refusal>)
      requires Idle()
      modifies this, store
      ensures Idle() && Performs(old(State()), State(), DiscoverStep(r, spec))
      ensures Answers(outcome, Transitions.DiscoverOperator(old(store.committed), r, spec))
      ensures outcome.Ok? ==> outcome.value == OpTask(r, spec.key, Torch) && outcome.value in store.committed.tasks
    {
      store.Enter();
      outcome := DiscoverBody(r, spec);
      store.Leave(outcome.Err?);
    }

    // ---- claiming ----

    /** Draws a token and marks one pending row with it. */
    method TakeRow(id: TaskId, worker: Worker, expires: Time, dirs: Allocations) returns (event: Event)
      requires store.Valid() && store.depth > 0 && id in store.tasks && store.tasks[id].status.Pending?
      modifies `drawn, store`tasks
      ensures store.Valid() && drawn == old(drawn) + 1
      ensures store.Working() == Put(old(store.Working()), id,
                                     MarkClaimed(old(store.Working()), id, worker, old(drawn), expires, dirs))
      ensures event == TaskClaimed(id, worker, old(store.tasks[id].attempt) + 1)
    {
      var token := drawn;
      drawn := drawn + 1;
      event := TaskClaimed(id, worker, store.tasks[id].attempt + 1);
      store.UpdateTask(id, MarkClaimed(store.Working(), id, worker, token, expires, dirs));
    }

    /** Walks the candidates in creation order; the table on entry is the released one. */
    method ClaimRows(candidates: seq<TaskId>, worker: Worker, queue: Option<Queue>, expires: Time, limit: int,
                     dirs: Allocations)
      returns (claimed: seq<TaskId>, claimEvents: seq<Event>)
      requires store.Valid() && store.depth > 0 && limit > 0 && candidates == Candidates(store.Working(), queue)
      modifies `drawn, store`tasks
      ensures store.Valid() && drawn == old(drawn) + |claimed|
      ensures claimed == Taken(old(store.Working()), candidates, limit)
      ensures ClaimedSoFar(old(store.Working()), store.Working(), claimed, claimEvents, worker, old(drawn), expires,
                           dirs)
    {
      ghost var job := ClaimJob(store.Working(), queue, limit, worker, drawn, expires, dirs);
      claimed, claimEvents := [], [];
      for i := 0 to |candidates|
        invariant store.Valid() && drawn == job.first + |claimed|
        invariant Underway(job, candidates[..i], store.Working(), claimed, claimEvents)
      {
        var id := candidates[i];
        UnderwayTurn(job, candidates, i, store.Working(), claimed, claimEvents);
        if |claimed| >= limit || !DepsSucceeded(store.Working(), id) { continue; }
        var event := TakeRow(id, worker, expires, dirs);
        claimed, claimEvents := claimed + [id], claimEvents + [event];
      }
      assert candidates[..|candidates|] == candidates;
      assert Upholds(RowsTaken, job, candidates, store.Working(), claimed, claimEvents);
      assert Upholds(RowsMarked, job, candidates, store.Working(), claimed, claimEvents);
    }

    /** Releases overdue rows, claims, and appends the claim events last. */
    method ClaimBody(worker: Worker, queue: Option<Queue>, lease: int, limit: int, dirs: Allocations)
      returns (outcome: Outcome<seq<TaskId>, Refusal>)
      requires store.Valid() && store.depth > 0
      modifies this, store
      ensures Within()
      ensures ClaimOutcome(old(store.Working()), store.Working(), clock, old(drawn), drawn, worker, queue, lease,
                           limit, dirs, outcome)
    {
      if !ClaimArguments(worker, lease, limit) { return Err(InvalidArgument); }
      var now := ReadClock();
      store.ReleaseOverdue(now, false);
      ghost var released, first := store.Working(), drawn;
      var candidates := Candidates(store.Working(), queue);
      var claimed, claimEvents := ClaimRows(candidates, worker, queue, now + lease, limit, dirs);
      store.AppendAll(claimEvents);
      ClaimedAll(released, queue, limit, worker, first, now + lease, dirs);
      return Ok(claimed);
    }

    method ClaimReady(worker: Worker, queue: Option<Queue>, lease: int, limit: int, dirs: Allocations)
      returns (outcome: Outcome<seq<TaskId>, Refusal>)
      requires Idle()
      modifies this, store
      ensures Idle() && Performs(old(State()), State(), ClaimStep(worker, queue, lease, limit, dirs))
      ensures outcome.Err? <==> !ClaimArguments(worker, lease, limit)
      ensures outcome.Ok? ==> outcome.value == Chosen(Released(old(store.committed), clock, false), queue, limit)
    {
      store.Enter();
      outcome := ClaimBody(worker, queue, lease, limit, dirs);
      ghost var db := store.Working();
      store.Leave(outcome.Err?);
      ClaimPerforms(old(State()), State(), db, worker, queue, lease, limit, dirs, outcome);
    }

    // ---- leases ----

    /** `_owned_lease`: reads the clock and checks the presented credential. */
    method OwnedLease(id: TaskId, c: Credential) returns (owned: bool)
      requires id in store.tasks
      modifies `clock
      ensures old(clock) <= clock
      ensures owned == Owns(store.tasks[id], clock, c)
    {
      var now := ReadClock();
      owned := Owns(store.tasks[id], now, c);
    }

    /** The lease is checked at one reading of the clock and extended from a later
        one, so it behaves as a renewal at `checked` for a correspondingly longer lease. */
    method RenewBody(id: TaskId, c: Credential, lease: int)
      returns (outcome: Outcome<TaskId, Refusal>, ghost checked: Time)
      requires store.Valid() && store.depth > 0
      modifies this, store
      ensures Within() && drawn == old(drawn) && old(clock) <= checked <= clock
      ensures var expected := Transitions.RenewLease(old(store.Working()), checked, id, c, lease + (clock - checked));
              Answers(outcome, expected) && (expected.Ok? ==> store.Working() == expected.value)
    {
      checked := clock;
      if lease <= 0 { return Err(InvalidArgument), clock; }
      if id !in store.tasks { return Err(UnknownTask), clock; }
      var owned := OwnedLease(id, c);
      checked := clock;
      if !owned { return Err(NotOwner), clock; }
      var now := ReadClock();
      if c.Presented? && store.tasks[id].token == Some(c.token) {
        store.UpdateTask(id, store.tasks[id].(expires := Some(now + lease)));
      }
      store.AppendEvent(LeaseRenewed(id, now + lease));
      return Ok(id), checked;
    }

    method RenewLease(id: TaskId, c: Credential, lease: int)
      returns (outcome: Outcome<TaskId, Refusal>, ghost checked: Time)
      requires Idle()
      modifies this, store
      ensures Idle() && old(clock) <= checked <= clock
      ensures Performs(old(State()), State().(now := checked), RenewStep(id, c, lease + (clock - checked)))
      ensures Answers(outcome, Transitions.RenewLease(old(store.committed), checked, id, c, lease + (clock - checked)))
    {
      store.Enter();
      outcome, checked := RenewBody(id, c, lease);
      store.Leave(outcome.Err?);
    }

    // ---- outcomes ----

    /** `_ensure_next`: reads the operator contract before it inserts. */
    method EnsureNext(id: TaskId) returns (known: bool)
      requires store.Valid() && store.depth > 0 && Advances(id)
      modifies store
      ensures Within() && known == ((id.run, id.key) in old(store.operators))
      ensures known ==> store.Working() == Transitions.EnsureNext(old(store.Working()), id)
    {
      if (id.run, id.key) !in store.operators { return false; }
      var inserted := store.InsertTask(Next(id), NewTask(PLAIN_INPUT));
      if inserted { store.AppendEvent(TaskCreated(Next(id))); }
      return true;
    }

    method EnsureDiagnosis(id: TaskId, attempt: nat)
      requires store.Valid() && store.depth > 0
      modifies store
      ensures Within()
      ensures store.Working() == Transitions.EnsureDiagnosis(old(store.Working()), id, attempt)
    {
      var d := DiagnosisOf(id);
      var inserted := store.InsertTask(d, NewTask(DiagnosisInput(id, attempt)));
      if inserted {
        store.AppendEvent(DiagnosisCreated(d, attempt));
      } else if store.tasks[d].input.sourceAttempt.GetOr(0) < attempt {
        var reopened := Unleased(store.tasks[d], Pending).(input := DiagnosisInput(id, attempt),
                                                           output := EMPTY_OUTPUT);
        store.UpdateTask(d, reopened);
        store.AppendEvent(DiagnosisReopened(d, attempt));
      }
    }

    method FailBody(id: TaskId, c: Credential) returns (outcome: Outcome<TaskId, Refusal>)
      requires store.Valid() && store.depth > 0
      modifies this, store
      ensures Within() && drawn == old(drawn)
      ensures var expected := Transitions.Fail(old(store.Working()), clock, id, c);
              Answers(outcome, expected) && (expected.Ok? ==> store.Working() == expected.value)
    {
      if id !in store.tasks { return Err(UnknownTask); }
      var task := store.tasks[id];
      var owned := OwnedLease(id, c);
      if !owned { return Err(NotOwner); }
      owned := OwnedLease(id, c);
      if !owned { return Err(NotOwner); }
      store.UpdateTask(id, Unleased(task, Failed).(output := ERROR_OUTPUT));
      if id.OpTask? { EnsureDiagnosis(id, task.attempt); }
      store.AppendEvent(TaskFailed(id));
      return Ok(id);
    }

    /** `fail` as `complete` calls it: inside an open transaction it joins that one. */
    method JoinFail(id: TaskId, c: Credential) returns (outcome: Outcome<TaskId, Refusal>)
      requires store.Valid()
      modifies this, store
      ensures store.Valid() && store.depth == old(store.depth) && old(clock) <= clock && drawn == old(drawn)
      ensures var expected := Transitions.Fail(old(store.Working()), clock, id, c);
              Answers(outcome, expected) && (expected.Ok? ==> store.Working() == expected.value)
      ensures store.depth > 0 ==> store.committed == old(store.committed)
      ensures store.depth == 0 && outcome.Err? ==> store.committed == old(store.committed)
    {
      store.Enter();
      outcome := FailBody(id, c);
      store.Leave(outcome.Err?);
    }

    method Fail(id: TaskId, c: Credential) returns (outcome: Outcome<TaskId, Refusal>)
      requires Idle()
      modifies this, store
      ensures Idle() && Performs(old(State()), State(), FailStep(id, c))
      ensures Answers(outcome, Transitions.Fail(old(store.committed), clock, id, c))
    {
      outcome := JoinFail(id, c);
    }

    method PublishSuccess(id: TaskId, result: WorkResult) returns (known: bool)
      requires store.Valid() && store.depth > 0 && id in store.tasks && store.tasks[id].worker.Some?
      modifies store
      ensures Within()
      ensures known <==> (Advances(id) ==> (id.run, id.key) in old(store.operators))
      ensures known ==> store.Working() == SucceedRow(old(store.Working()), id, result)
    {
      var task := store.tasks[id];
      var submission := Submission(task.worker.value, task.attempt);
      store.UpdateTask(id, Unleased(task, Succeeded).(output := Output(result, Some(submission), false)));
      store.AppendEvent(TaskSucceeded(id));
      known := true;
      if id.DiagTask? {
        store.AppendEvent(DiagnosticCompleted(id));
      } else if !id.stage.Integration? {
        known := EnsureNext(id);
      }
    }

    /** The result was accepted: register the attempt's artifacts, then publish. */
    method CompleteAccepted(id: TaskId, c: Credential, result: WorkResult, registered: bool)
      returns (outcome: Outcome<TaskId, Refusal>)
      requires store.Valid() && store.depth > 0 && id in store.tasks && store.tasks[id].worker.Some?
      modifies this, store
      ensures Within() && drawn == old(drawn)
      ensures var before := old(store.Working());
              var owned := Owns(before.tasks[id], clock, c);
              var unregistered := before.tasks[id].input.workspace.Some? && !registered;
              if !owned then outcome == Err(NotOwner)
              else if unregistered then outcome.Ok? && store.Working() == FailRow(before, id)
              else if Advances(id) && (id.run, id.key) !in before.operators then outcome == Err(Fault)
              else outcome.Ok? && store.Working() == SucceedRow(before, id, result)
    {
      var owned := OwnedLease(id, c);
      if !owned { return Err(NotOwner); }
      if store.tasks[id].input.workspace.Some? && !registered {
        outcome := JoinFail(id, c);
        return;
      }
      owned := OwnedLease(id, c);
      if !owned { return Err(NotOwner); }
      var known := PublishSuccess(id, result);
      return if known then Ok(id) else Err(Fault);
    }

    /** A row held under `c`: validation decides between failure and publication. */
    method CompleteOwned(id: TaskId, c: Credential, result: WorkResult, files: Files, registered: bool)
      returns (outcome: Outcome<TaskId, Refusal>)
      requires store.Valid() && store.depth > 0 && id in store.tasks && id.run in store.runs
      requires store.tasks[id].worker.Some? && Owns(store.tasks[id], clock, c)
      modifies this, store
      ensures Within() && drawn == old(drawn)
      ensures var expected := Transitions.Complete(old(store.Working()), clock, id, c, result, files, registered);
              Answers(outcome, expected) && (expected.Ok? ==> store.Working() == expected.value)
    {
      var task := store.tasks[id];
      var lease := Presented(task.worker, c.token);
      var errors := ValidateResult(id, task, store.runs[id.run], result, task.worker.value, files);
      if errors != [] {
        outcome := JoinFail(id, lease);
      } else {
        outcome := CompleteAccepted(id, lease, result, registered);
      }
    }

    /** Validation, registration of the attempt's artifacts and the update are each
        preceded by another look at the lease. */
    method CompleteBody(id: TaskId, c: Credential, result: WorkResult, files: Files, registered: bool)
      returns (outcome: Outcome<TaskId, Refusal>)
      requires store.Valid() && store.depth > 0
      modifies this, store
      ensures Within() && drawn == old(drawn)
      ensures var expected := Transitions.Complete(old(store.Working()), clock, id, c, result, files, registered);
              Answers(outcome, expected) && (expected.Ok? ==> store.Working() == expected.value)
    {
      if id !in store.tasks { return Err(UnknownTask); }
      var owned := OwnedLease(id, c);
      if !owned { return Err(NotOwner); }
      if id.run !in store.runs || store.tasks[id].worker.None? { return Err(Fault); }
      outcome := CompleteOwned(id, c, result, files, registered);
    }

    method Complete(id: TaskId, c: Credential, result: WorkResult, files: Files, registered: bool)
      returns (outcome: Outcome<TaskId, Refusal>)
      requires Idle()
      modifies this, store
      ensures Idle() && Performs(old(State()), State(), CompleteStep(id, c, result, files, registered))
      ensures Answers(outcome, Transitions.Complete(old(store.committed), clock, id, c, result, files, registered))
    {
      store.Enter();
      outcome := CompleteBody(id, c, result, files, registered);
      store.Leave(outcome.Err?);
    }

    // ---- diagnosis consumption ----

    method ApplyBody(d: TaskId) returns (outcome: Outcome<TaskId, Refusal>)
      requires store.Valid() && store.depth > 0
      modifies store
      ensures Within()
      ensures var expected := Transitions.ApplyDiagnosis(old(store.Working()), d);
              Answers(outcome, expected) && (expected.Ok? ==> store.Working() == expected.value)
    {
      if d !in store.tasks || !d.DiagTask? { return Err(NotADiagnosis); }
      var diagnosis := store.tasks[d];
      if !diagnosis.status.Succeeded? { return Err(DiagnosisUnfinished); }
      var named := diagnosis.input.sourceTask;
      if named.None? || named.value !in store.tasks || named.value.DiagTask? { return Err(SourceMismatch); }
      var source := named.value;
      if source.run != d.run || source.key != d.key { return Err(SourceMismatch); }
      var action := diagnosis.output.result.conclusion.action;
      if action != Some(Retry) && action != Some(Blocked) { return Err(ExternalRepairRequired); }
      if AlreadyApplied(store.Working(), d) { return Ok(source); }
      var applied := ApplicationEvent(store.Working(), d, source, action.value);
      if action == Some(Retry) {
        if !store.tasks[source].status.Failed? { return Err(RetryNeedsFailedSource); }
        store.UpdateTask(source, Unleased(store.tasks[source], Pending).(output := EMPTY_OUTPUT));
      }
      store.AppendEvent(applied);
      return Ok(source);
    }

    method ApplyDiagnosis(d: TaskId) returns (outcome: Outcome<TaskId, Refusal>)
      requires Idle()
      modifies this, store
      ensures Idle() && Performs(old(State()), State(), ApplyStep(d))
      ensures Answers(outcome, Transitions.ApplyDiagnosis(old(store.committed), d))
    {
      store.Enter();
      outcome := ApplyBody(d);
      store.Leave(outcome.Err?);
    }

    // ---- reconciliation ----

    /** Who produced a succeeded row, read from its output and then from the log; `raised`
        when the last of no claims is asked for. */
    method FindProducer(id: TaskId) returns (worker: Option<Worker>, raised: bool)
      requires id in store.tasks
      ensures worker == Producer(store.Working(), id)
      ensures raised == ProducerRaises(store.Working(), id)
    {
      var task := store.tasks[id];
      var submission := task.output.submission;
      worker, raised := None, false;
      if submission.Some? && submission.value.attempt == task.attempt { worker := Some(submission.value.worker); }
      if worker.None? || worker.value == "" {
        worker := ClaimantAt(store.events, id, task.attempt);
        NeverClaimed(store.events, id, task.attempt);
        if worker.None? && ClaimCount(store.events, id) == task.attempt {
          worker := LastClaimant(store.events, id);
          raised := worker.None?;
        }
      }
    }

    /** The edge out of a succeeded row: `created` or `blocked` says what happened. */
    method RepairSuccessor(r: RunId, id: TaskId, files: Files) returns (known: bool, created: bool)
      requires store.Valid() && store.depth > 0 && r in store.runs && id.run == r && LacksSuccessor(store.Working(), id)
      modifies store
      ensures Within()
      ensures known <==> Continues(old(store.Working()), r, id, files)
      ensures known ==> created == Revalidates(old(store.Working()), r, id, files)
      ensures known ==>
                store.Working() ==
                  if created then Transitions.EnsureNext(old(store.Working()), id) else old(store.Working())
    {
      var worker, raised := FindProducer(id);
      if raised { return false, false; }
      if worker.None? || worker.value == "" { return true, false; }
      var errors := ValidateResult(id, store.tasks[id], store.runs[r], store.tasks[id].output.result, worker.value,
                                   files);
      if errors != [] { return true, false; }
      created := true;
      known := EnsureNext(id);
    }

    /** One row, as it was read before the loop started. */
    method RepairRead(r: RunId, id: TaskId, task: Task, files: Files)
      returns (known: bool, made: seq<TaskId>, stuck: seq<TaskId>)
      requires store.Valid() && store.depth > 0 && r in store.runs && id.run == r
      requires id in store.tasks && store.tasks[id] == task
      modifies store
      ensures Within()
      ensures known <==> Continues(old(store.Working()), r, id, files)
      ensures known ==>
                Repair(store.Working(), made, stuck) == RepairRow(Repair(old(store.Working()), [], []), r, id, files)
    {
      known, made, stuck := true, [], [];
      if id.DiagTask? { return; }
      if task.status.Failed? && DiagnosisOf(id) !in store.tasks {
        EnsureDiagnosis(id, task.attempt);
        made := [DiagnosisOf(id)];
      } else if task.status.Succeeded? && !id.stage.Integration? && Next(id) !in store.tasks {
        var created;
        known, created := RepairSuccessor(r, id, files);
        if created { made := [Next(id)]; } else { stuck := [id]; }
      }
    }

    /** The loop works from the rows as they were read before it started. */
    method ReconcileBody(r: RunId, files: Files) returns (outcome: Outcome<(seq<TaskId>, seq<TaskId>), Refusal>)
      requires store.Valid() && store.depth > 0
      modifies store
      ensures Within()
      ensures var expected := Transitions.Reconcile(old(store.Working()), r, files);
              && (match expected
                  case Ok(rep) => outcome == Ok((rep.created, rep.blocked)) && store.Working() == rep.db
                  case Err(e) => outcome == Err(e))
    {
      if r !in store.runs { return Err(UnknownRun); }
      ghost var db := store.Working();
      var ids, rows := RunRows(store.Working(), r), store.tasks;
      Reconciliation.RowsOfRun(db, r);
      RepairableMeansPast(db, r, files);
      var created, blocked := [], [];
      for i := 0 to |ids|
        invariant Within()
        invariant Repair(store.Working(), created, blocked) == RepairAll(db, r, ids[..i], files)
        invariant GetsPast(db, r, ids[..i], files)
      {
        RepairTurn(db, r, ids, i, files);
        GetsPastNext(db, r, ids, i, files);
        RepairRowAppends(Repair(store.Working(), created, blocked), r, ids[i], files);
        var known, made, stuck := RepairRead(r, ids[i], rows[ids[i]], files);
        if !known { return Err(Fault); }
        created, blocked := created + made, blocked + stuck;
      }
      assert ids[..|ids|] == ids;
      store.AppendEvent(RunReconciled(r, created, blocked));
      return Ok((created, blocked));
    }

    method Reconcile(r: RunId, files: Files) returns (outcome: Outcome<(seq<TaskId>, seq<TaskId>), Refusal>)
      requires Idle()
      modifies this, store
      ensures Idle() && Performs(old(State()), State(), ReconcileStep(r, files))
      ensures match Transitions.Reconcile(old(store.committed), r, files)
              case Ok(rep) => outcome == Ok((rep.created, rep.blocked))
              case Err(e) => outcome == Err(e)
    {
      store.Enter();
      outcome := ReconcileBody(r, files);
      store.Leave(outcome.Err?);
    }

    method Recover(force: bool)
      requires Idle()
      modifies this, store
      ensures Idle() && Performs(old(State()), State(), RecoverStep(force))
    {
      store.Enter();
      var now := ReadClock();
      store.ReleaseOverdue(now, force);
      store.Leave(false);
    }
  }
}
