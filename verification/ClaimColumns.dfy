/** Who `claim_ready` takes, and what it writes into each row, column by column. */
module ClaimColumns {
  import opened Base
  import opened SchedulerState
  import opened Transitions
  import opened Invariants
  import opened Claiming
  import opened Runs
  import opened Evolution
  import opened Safety
  import opened Columns

  // ---- who may be claimed ----

  predicate Queued(queue: Option<Queue>, id: TaskId) {
    match id
    case OpTask(_, _, stage) => queue == None || queue == Some(OperatorQueue(stage))
    case DiagTask(_, _, _) => queue == None || queue == Some(DiagnosisQueue)
  }

  /** Diagnosis rows are always unblocked.  An operator row needs its predecessor
      succeeded and, unless the run is a plain simulation, a ready environment that is
      still the one of its contract. */
  predicate Unblocked(db: Db, id: TaskId) {
    match id
    case DiagTask(_, _, _) => true
    case OpTask(r, k, stage) =>
      && r in db.runs
      && var run := db.runs[r];
      && (run.mode == Real || run.environmentRequired || run.graphRequired ==>
            && run.status == EnvironmentReady && (r, k) in db.operators && run.proof.Some?
            && db.operators[(r, k)].key.fingerprint == run.proof)
      && (stage == Xpu ==> OpTask(r, k, Torch) in db.tasks && db.tasks[OpTask(r, k, Torch)].status == Succeeded)
      && (stage == Integration ==> OpTask(r, k, Xpu) in db.tasks && db.tasks[OpTask(r, k, Xpu)].status == Succeeded)
  }

  predicate RanOut(t: Task, now: Time) { t.status == Running && t.expires.Some? && t.expires.value <= now }

  predicate Takable(db: Db, now: Time, queue: Option<Queue>, id: TaskId) {
    && id in db.tasks && (db.tasks[id].status == Pending || RanOut(db.tasks[id], now))
    && Queued(queue, id) && Unblocked(db, id)
  }

  /** How many of `ids` may be claimed. */
  function Ahead(db: Db, now: Time, queue: Option<Queue>, ids: seq<TaskId>): nat {
    if ids == [] then 0
    else
      Ahead(db, now, queue, ids[..|ids| - 1]) + (if Takable(db, now, queue, ids[|ids| - 1]) then 1 else 0)
  }

  // ---- the rank of a row in creation order decides ----

  function Waiters(db: Db, now: Time, queue: Option<Queue>, ids: seq<TaskId>): seq<TaskId> {
    Eligible(Released(db, now, false), Filter(ids, id => Waiting(Released(db, now, false), queue, id)))
  }

  lemma TakableExactly(db: Db, now: Time, queue: Option<Queue>, id: TaskId)
    ensures var released := Released(db, now, false);
            Takable(db, now, queue, id) <==> Waiting(released, queue, id) && DepsSucceeded(released, id)
  {
    DepsIgnoreLeases(db, now, false, id);
  }

  lemma WaitersSnoc(db: Db, now: Time, queue: Option<Queue>, init: seq<TaskId>, id: TaskId)
    ensures Waiters(db, now, queue, init + [id]) ==
              Waiters(db, now, queue, init) + (if Takable(db, now, queue, id) then [id] else [])
  {
    var released := Released(db, now, false);
    TakableExactly(db, now, queue, id);
    FilterSnoc(init + [id], x => Waiting(released, queue, x));
    assert (init + [id])[..|init|] == init;
    var waiting := Filter(init, x => Waiting(released, queue, x));
    FilterSnoc(waiting + [id], x => DepsSucceeded(released, x));
    assert (waiting + [id])[..|waiting|] == waiting;
  }

  lemma {:induction false} WaitersRanked(db: Db, now: Time, queue: Option<Queue>, ids: seq<TaskId>, p: int)
    ensures |Waiters(db, now, queue, ids)| == Ahead(db, now, queue, ids)
    ensures RankedAt(db, now, queue, ids, p)
  {
    if ids != [] {
      var n := |ids| - 1;
      assert ids == ids[..n] + [ids[n]];
      WaitersSnoc(db, now, queue, ids[..n], ids[n]);
      WaitersRanked(db, now, queue, ids[..n], p);
      assert 0 <= p < n ==> ids[..p] == ids[..n][..p];
    }
  }

  predicate RankedAt(db: Db, now: Time, queue: Option<Queue>, ids: seq<TaskId>, p: int) {
    0 <= p < |ids| && Takable(db, now, queue, ids[p]) ==>
      var rank := Ahead(db, now, queue, ids[..p]);
      rank < |Waiters(db, now, queue, ids)| && Waiters(db, now, queue, ids)[rank] == ids[p]
  }

  lemma WaitersDistinct(db: Db, now: Time, queue: Option<Queue>)
    requires Ordered(db)
    ensures Distinct(Waiters(db, now, queue, db.order))
  {
    var released := Released(db, now, false);
    FilterDistinct(db.order, id => Waiting(released, queue, id));
    FilterDistinct(Filter(db.order, id => Waiting(released, queue, id)), id => DepsSucceeded(released, id));
  }

  /** A row is chosen exactly when it may be claimed and fewer than `limit` rows created
      before it may; its place among the chosen is how many those are. */
  lemma ChosenByRank(db: Db, now: Time, queue: Option<Queue>, limit: int, p: nat)
    requires Ordered(db) && limit > 0 && p < |db.order|
    ensures var ids, id, rank := Chosen(Released(db, now, false), queue, limit), db.order[p],
                                 Ahead(db, now, queue, db.order[..p]);
            if Takable(db, now, queue, id) && rank < limit then rank < |ids| && ids[rank] == id else id !in ids
    ensures |Chosen(Released(db, now, false), queue, limit)| == Min(limit, Ahead(db, now, queue, db.order))
  {
    var id, rank := db.order[p], Ahead(db, now, queue, db.order[..p]);
    var all, ids := Waiters(db, now, queue, db.order), Chosen(Released(db, now, false), queue, limit);
    WaitersRanked(db, now, queue, db.order, p);
    WaitersDistinct(db, now, queue);
    TakableExactly(db, now, queue, id);
    assert ids == all[..Min(limit, |all|)];
    if id in ids {
      var k :| 0 <= k < |ids| && ids[k] == id;
      assert all[k] == all[rank];
    }
  }

  // ---- what a claim writes ----

  /** The next attempt of the row, held by `worker` until `until`, in directory `dir` if
      one was allocated; everything else is as it was. */
  predicate ClaimedFrom(t: Task, t': Task, worker: Worker, token: Token, until: Time, dir: Option<Workspace>) {
    && t'.status == Running && t'.attempt == t.attempt + 1
    && t'.token == Some(token) && t'.worker == Some(worker) && t'.expires == Some(until)
    && t'.input.sourceTask == t.input.sourceTask && t'.input.sourceAttempt == t.input.sourceAttempt
    && t'.input.workspace == (if dir.Some? then dir else t.input.workspace)
    && t'.output == t.output
  }

  /** Rows passed over only lose a lease that ran out. */
  predicate PassedOver(t: Task, t': Task, now: Time) { if RanOut(t, now) then BackInQueue(t, t') else t' == t }

  function DirOf(dirs: Allocations, id: TaskId): Option<Workspace> { if id in dirs then Some(dirs[id]) else None }

  lemma PhasesColumns(w: World, w': World, ids: seq<TaskId>, worker: Worker, lease: int, dirs: Allocations, id: TaskId)
    requires ClaimPhases(w, w', ids, worker, lease, dirs) && id in w.db.tasks
    ensures id in w'.db.tasks
    ensures id !in ids ==> PassedOver(w.db.tasks[id], w'.db.tasks[id], w'.now)
    ensures forall i :: 0 <= i < |ids| && ids[i] == id ==>
              ClaimedFrom(w.db.tasks[id], w'.db.tasks[id], worker, w.minted + i, w'.now + lease, DirOf(dirs, id))
  {
    Claiming.ClaimAllFrame(Released(w.db, w'.now, false), ids, worker, w.minted, w'.now + lease, dirs);
    forall i | 0 <= i < |ids| && ids[i] == id
      ensures ClaimedFrom(w.db.tasks[id], w'.db.tasks[id], worker, w.minted + i, w'.now + lease, DirOf(dirs, id))
    {
      ChosenRowFacts(w, w', ids, worker, lease, dirs, i);
    }
  }

  /** The rows `claim_ready` takes, in terms of their places in the creation order. */
  ghost predicate TakesByRank(w: World, now: Time, s: Step, ids: seq<TaskId>, p: nat)
    requires s.ClaimStep? && p < |w.db.order|
  {
    var id, rank := w.db.order[p], Ahead(w.db, now, s.queue, w.db.order[..p]);
    if Takable(w.db, now, s.queue, id) && rank < s.limit then rank < |ids| && ids[rank] == id else id !in ids
  }

  /** `ids` are the chosen rows: claimed in two phases and chosen by rank. */
  ghost predicate Ranked(w: World, w': World, s: Step, ids: seq<TaskId>, p: nat)
    requires s.ClaimStep? && p < |w.db.order|
  {
    && w.db.order[p] in w.db.tasks && TakesByRank(w, w'.now, s, ids, p)
    && |ids| == Min(s.limit, Ahead(w.db, w'.now, s.queue, w.db.order))
    && ClaimPhases(w, w', ids, s.worker, s.lease, s.dirs)
  }

  lemma ChosenRanked(w: World, w': World, s: Step, p: nat)
    requires s.ClaimStep? && s.limit > 0 && s.lease > 0 && p < |w.db.order| && Ordered(w.db)
    requires w'.db == ClaimAll(Released(w.db, w'.now, false), Chosen(Released(w.db, w'.now, false), s.queue, s.limit),
                               s.worker, w.minted, w'.now + s.lease, s.dirs)
    ensures Ranked(w, w', s, Chosen(Released(w.db, w'.now, false), s.queue, s.limit), p)
  {
    var released := Released(w.db, w'.now, false);
    assert Listed(w.db, w.db.order[p]);
    SameOrder(w.db, released);
    ChosenClaimable(released, s.queue, s.limit);
    ChosenByRank(w.db, w'.now, s.queue, s.limit, p);
  }

  lemma AfterClaim(w: World, m: Move)
    requires m.step.ClaimStep? && m.step.worker != "" && m.step.lease > 0 && m.step.limit > 0
    ensures var s, w' := m.step, After(w, m);
            var ids := Chosen(Released(w.db, w'.now, false), s.queue, s.limit);
            && w'.now == w.now + m.wait && w'.minted == w.minted + |ids|
            && w'.db == ClaimAll(Released(w.db, w'.now, false), ids, s.worker, w.minted, w'.now + s.lease, s.dirs)
  {
  }

  lemma ClaimRanked(w: World, m: Move, p: nat) returns (ids: seq<TaskId>)
    requires Sound(w) && m.step.ClaimStep? && p < |w.db.order|
    requires m.step.worker != "" && m.step.lease > 0 && m.step.limit > 0
    ensures Ranked(w, After(w, m), m.step, ids, p) && After(w, m).minted == w.minted + |ids|
    ensures After(w, m).now == w.now + m.wait
  {
    var w' := After(w, m);
    ids := Chosen(Released(w.db, w'.now, false), m.step.queue, m.step.limit);
    AfterClaim(w, m);
    assert Ordered(w.db) by { LawfulIsInv(w.db, w.minted); }
    ChosenRanked(w, w', m.step, p);
  }

  /** What a claim leaves of the row at place `p` of the creation order. */
  predicate ClaimLeft(w: World, w': World, s: Step, p: nat)
    requires s.ClaimStep? && p < |w.db.order|
  {
    var id, rank := w.db.order[p], Ahead(w.db, w'.now, s.queue, w.db.order[..p]);
    && id in w.db.tasks && id in w'.db.tasks
    && (if Takable(w.db, w'.now, s.queue, id) && rank < s.limit
        then
          ClaimedFrom(w.db.tasks[id], w'.db.tasks[id], s.worker, w.minted + rank, w'.now + s.lease, DirOf(s.dirs, id))
        else PassedOver(w.db.tasks[id], w'.db.tasks[id], w'.now))
  }

  lemma RankedColumns(w: World, w': World, s: Step, ids: seq<TaskId>, p: nat)
    requires s.ClaimStep? && p < |w.db.order| && Ranked(w, w', s, ids, p)
    ensures ClaimLeft(w, w', s, p)
  {
    PhasesColumns(w, w', ids, s.worker, s.lease, s.dirs, w.db.order[p]);
  }

  /** `claim_ready` on any reachable database: the row at place `p` of the creation order
      is claimed exactly when it may be and fewer than `limit` rows before it may; the
      claimed rows get fresh tokens in that order, the attempt directory allocated for
      them, and a lease of the full length from now. */
  lemma ClaimColumns(w: World, m: Move, p: nat)
    requires Sound(w) && m.step.ClaimStep? && p < |w.db.order|
    requires m.step.worker != "" && m.step.lease > 0 && m.step.limit > 0
    ensures After(w, m).now == w.now + m.wait && ClaimLeft(w, After(w, m), m.step, p)
  {
    var ids := ClaimRanked(w, m, p);
    RankedColumns(w, After(w, m), m.step, ids, p);
  }

  lemma {:induction false} ClaimEventsInOrder(db: Db, ids: seq<TaskId>, worker: Worker)
    ensures |ClaimEvents(db, ids, worker)| == |ids|
    ensures forall i :: 0 <= i < |ids| ==> ClaimEvents(db, ids, worker)[i] == ClaimEvent(db, ids[i], worker)
  {
    if ids != [] { ClaimEventsInOrder(db, ids[..|ids| - 1], worker); }
  }

  /** Beside the rows a claim writes only the log: one entry per claimed row. */
  ghost predicate LoggedClaims(db: Db, db': Db, ids: seq<TaskId>, worker: Worker) {
    && db' == db.(tasks := db'.tasks, events := db'.events) && db'.tasks.Keys == db.tasks.Keys
    && |db'.events| == |db.events| + |ids| && db'.events[..|db.events|] == db.events
    && forall i :: 0 <= i < |ids| ==>
         && ids[i] in db.tasks
         && db'.events[|db.events| + i] == TaskClaimed(ids[i], worker, db.tasks[ids[i]].attempt + 1)
  }

  lemma LoggedInOrder(db: Db, db': Db, ids: seq<TaskId>, worker: Worker)
    requires db' == db.(tasks := db'.tasks, events := db'.events) && db'.tasks.Keys == db.tasks.Keys
    requires db'.events == db.events + ClaimEvents(db, ids, worker) && forall id :: id in ids ==> id in db.tasks
    ensures LoggedClaims(db, db', ids, worker)
  {
    ClaimEventsInOrder(db, ids, worker);
    forall i | 0 <= i < |ids|
      ensures ids[i] in db.tasks && |db'.events| == |db.events| + |ids|
      ensures db'.events[|db.events| + i] == TaskClaimed(ids[i], worker, db.tasks[ids[i]].attempt + 1)
    {
      assert ids[i] in ids;
    }
  }

  lemma ClaimsLogged(db: Db, ids: seq<TaskId>, worker: Worker, token: Token, expires: Time, dirs: Allocations)
    requires Claimable(db, ids)
    ensures LoggedClaims(db, ClaimAll(db, ids, worker, token, expires, dirs), ids, worker)
  {
    ClaimAllFrame(db, ids, worker, token, expires, dirs);
    LoggedInOrder(db, ClaimAll(db, ids, worker, token, expires, dirs), ids, worker);
  }

  lemma ReleasedLogs(db: Db, now: Time, db': Db, ids: seq<TaskId>, worker: Worker)
    requires LoggedClaims(Released(db, now, false), db', ids, worker)
    ensures LoggedClaims(db, db', ids, worker)
  {
  }

  lemma PhasesLog(w: World, w': World, ids: seq<TaskId>, worker: Worker, lease: int, dirs: Allocations)
    requires ClaimPhases(w, w', ids, worker, lease, dirs)
    ensures LoggedClaims(w.db, w'.db, ids, worker)
  {
    ClaimsLogged(Released(w.db, w'.now, false), ids, worker, w.minted, w'.now + lease, dirs);
    ReleasedLogs(w.db, w'.now, w'.db, ids, worker);
  }

  /** The rest of a claim: one token and one log entry per claimed row, in the same order,
      and nothing else. */
  predicate ClaimLogged(w: World, w': World, s: Step, p: nat)
    requires s.ClaimStep? && p < |w.db.order|
  {
    var id, rank := w.db.order[p], Ahead(w.db, w'.now, s.queue, w.db.order[..p]);
    var taken := Min(s.limit, Ahead(w.db, w'.now, s.queue, w.db.order));
    && w'.minted == w.minted + taken && |w'.db.events| == |w.db.events| + taken
    && w'.db == w.db.(tasks := w'.db.tasks, events := w'.db.events) && w'.db.tasks.Keys == w.db.tasks.Keys
    && |w.db.events| <= |w'.db.events| && w'.db.events[..|w.db.events|] == w.db.events
    && (Takable(w.db, w'.now, s.queue, id) && rank < s.limit ==>
          && id in w.db.tasks && |w.db.events| + rank < |w'.db.events|
          && w'.db.events[|w.db.events| + rank] == TaskClaimed(id, s.worker, w.db.tasks[id].attempt + 1))
  }

  lemma RankedLog(w: World, w': World, s: Step, ids: seq<TaskId>, p: nat)
    requires s.ClaimStep? && p < |w.db.order| && Ranked(w, w', s, ids, p) && w'.minted == w.minted + |ids|
    ensures ClaimLogged(w, w', s, p)
  {
    PhasesLog(w, w', ids, s.worker, s.lease, s.dirs);
  }

  lemma ClaimLogs(w: World, m: Move, p: nat)
    requires Sound(w) && m.step.ClaimStep? && p < |w.db.order|
    requires m.step.worker != "" && m.step.lease > 0 && m.step.limit > 0
    ensures ClaimLogged(w, After(w, m), m.step, p)
  {
    var ids := ClaimRanked(w, m, p);
    RankedLog(w, After(w, m), m.step, ids, p);
  }

  /** A claim without worker, lease or limit is refused. */
  lemma ClaimRefused(w: World, m: Move)
    requires m.step.ClaimStep? && (m.step.worker == "" || m.step.lease <= 0 || m.step.limit <= 0)
    ensures After(w, m) == w.(now := w.now + m.wait)
  {
  }

  // ---- the attempt stays in its directory ----

  /** Attempt `n` of the row works in `dir`, or is over. */
  predicate Confined(db: Db, id: TaskId, n: nat, dir: Workspace) {
    && id in db.tasks && db.tasks[id].attempt >= n
    && (db.tasks[id].attempt == n && db.tasks[id].status.Running? ==> db.tasks[id].input.workspace == Some(dir))
  }

  lemma ConfinedStays(w: World, w': World, id: TaskId, n: nat, dir: Workspace)
    requires Confined(w.db, id, n, dir) && Evolves(w, w', id)
    ensures Confined(w'.db, id, n, dir)
  {
  }

  lemma {:induction false} ConfinedForever(w: World, moves: seq<Move>, id: TaskId, n: nat, dir: Workspace)
    requires Sound(w) && Confined(w.db, id, n, dir)
    ensures Confined(Exec(w, moves).db, id, n, dir)
  {
    if moves != [] {
      var init := moves[..|moves| - 1];
      ConfinedForever(w, init, id, n, dir);
      SoundAfter(w, init);
      StepEvolves(Exec(w, init), moves[|moves| - 1], id);
      ConfinedStays(Exec(w, init), Exec(w, moves), id, n, dir);
    }
  }

  /** Row `p` of the creation order is among the claimed, with a directory of its own. */
  predicate ClaimsWithDirectory(w: World, claim: Move, p: nat) {
    && claim.step.ClaimStep? && p < |w.db.order|
    && var s, now := claim.step, w.now + claim.wait;
    && s.worker != "" && s.lease > 0 && s.limit > 0
    && Takable(w.db, now, s.queue, w.db.order[p]) && Ahead(w.db, now, s.queue, w.db.order[..p]) < s.limit
    && w.db.order[p] in s.dirs
  }

  lemma ClaimConfines(w: World, claim: Move, p: nat)
    requires Sound(w) && ClaimsWithDirectory(w, claim, p)
    ensures var id := w.db.order[p];
            id in w.db.tasks && Confined(After(w, claim).db, id, w.db.tasks[id].attempt + 1, claim.step.dirs[id])
  {
    ClaimColumns(w, claim, p);
  }

  lemma CompletedInside(w: World, done: Move, id: TaskId, n: nat, dir: Workspace)
    requires Sound(w) && Confined(w.db, id, n, dir) && w.db.tasks[id].attempt == n && w.db.tasks[id].status.Running?
    requires done.step.CompleteStep? && done.step.task == id && StageSucceeded(After(w, done).db, id)
    ensures done.step.result.evidence.Some?
    ensures forall name :: name in done.step.result.evidence.value ==>
              var path := done.step.result.evidence.value[name]; path.Some? && path.value.workspace == Some(dir)
  {
    CompletionColumns(w, done);
    Acceptance.FlawlessMeansEvidence(SubmittedBy(w, done.step));
  }

  /** Whatever completes an attempt that was claimed with a directory, then or later,
      submitted evidence from that directory only. */
  lemma EvidenceFromOwnDirectory(w: World, claim: Move, p: nat, moves: seq<Move>, done: Move)
    requires Sound(w) && ClaimsWithDirectory(w, claim, p)
    requires done.step.CompleteStep? && done.step.task == w.db.order[p] && w.db.order[p] in w.db.tasks
    requires var id, later := w.db.order[p], Exec(After(w, claim), moves);
             && id in later.db.tasks && later.db.tasks[id].attempt == w.db.tasks[id].attempt + 1
             && later.db.tasks[id].status.Running? && StageSucceeded(After(later, done).db, id)
    ensures done.step.result.evidence.Some?
    ensures forall name :: name in done.step.result.evidence.value ==>
              var path := done.step.result.evidence.value[name];
              path.Some? && path.value.workspace == Some(claim.step.dirs[w.db.order[p]])
  {
    var id, w1 := w.db.order[p], After(w, claim);
    var n, dir := w.db.tasks[id].attempt + 1, claim.step.dirs[id];
    ClaimConfines(w, claim, p);
    StepKeeps(w, claim);
    ConfinedForever(w1, moves, id, n, dir);
    SoundAfter(w1, moves);
    CompletedInside(Exec(w1, moves), done, id, n, dir);
  }
}
