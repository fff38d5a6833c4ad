/** Whole runs: any interleaving of workers, clocks, restarts and crashes. */
module Runs {
  import opened Base
  import opened SchedulerState
  import opened Transitions
  import opened Tally
  import opened Invariants
  import opened Claiming

  /** One attempted operation by anyone.  `Crashed` is a transition that raised or
      died part-way; it may have drawn tokens but published nothing. */
  datatype Step =
    | CreateRunStep(run: RunId, record: Run)
    | BindStep(run: RunId, mode: Mode, ready: bool, fingerprint: Fingerprint)
    | EnvironmentFailureStep(run: RunId, ownerKnown: bool)
    | GraphStep(run: RunId, channel: GraphKey, graphRecord: GraphRecord)
    | RequireGraphStep(run: RunId)
    | DiscoverStep(run: RunId, spec: OperatorSpec)
    | ClaimStep(worker: Worker, queue: Option<Queue>, lease: int, limit: int, dirs: Allocations)
    | RenewStep(task: TaskId, credential: Credential, lease: int)
    | CompleteStep(task: TaskId, credential: Credential, result: WorkResult, files: Files, registered: bool)
    | FailStep(task: TaskId, credential: Credential)
    | ApplyStep(task: TaskId)
    | RecoverStep(force: bool)
    | ReconcileStep(run: RunId, files: Files)
    | Crashed(drawn: nat)

  datatype World = World(db: Db, now: Time, minted: Token)
  /** Time passes, then one operation is attempted. */
  datatype Move = Move(wait: nat, step: Step)

  const START := World(EMPTY_DB, 0, 0)

  function Attempt(db: Db, now: Time, minted: Token, s: Step): DbOutcome {
    match s
    case CreateRunStep(r, record) => Ok(CreateRun(db, r, record))
    case BindStep(r, mode, ready, fp) => BindEnvironment(db, r, mode, ready, fp)
    case EnvironmentFailureStep(r, known) => RecordEnvironmentFailure(db, r, known)
    case GraphStep(r, channel, record) => RecordGraph(db, r, channel, record)
    case RequireGraphStep(r) => RequireGraphEnvironment(db, r)
    case DiscoverStep(r, spec) => DiscoverOperator(db, r, spec)
    case ClaimStep(worker, queue, lease, limit, dirs) => ClaimReady(db, now, minted, worker, queue, lease, limit, dirs)
    case RenewStep(id, c, lease) => RenewLease(db, now, id, c, lease)
    case CompleteStep(id, c, result, files, registered) => Complete(db, now, id, c, result, files, registered)
    case FailStep(id, c) => Fail(db, now, id, c)
    case ApplyStep(d) => ApplyDiagnosis(db, d)
    case RecoverStep(force) => Ok(Recover(db, now, force))
    case ReconcileStep(r, files) =>
      (match Reconcile(db, r, files) case Ok(rep) => Ok(rep.db) case Err(e) => Err(e))
    case Crashed(_) => Err(Fault)
  }

  function Drawn(db: Db, now: Time, s: Step): nat {
    match s
    case ClaimStep(worker, queue, lease, limit, _) =>
      if ClaimArguments(worker, lease, limit) then |Chosen(Released(db, now, false), queue, limit)| else 0
    case Crashed(n) => n
    case _ => 0
  }

  function After(w: World, m: Move): World {
    var now := w.now + m.wait;
    var minted := w.minted + Drawn(w.db, now, m.step);
    match Attempt(w.db, now, w.minted, m.step)
    case Ok(db) => World(db, now, minted)
    case Err(_) => World(w.db, now, minted)
  }

  function Exec(w: World, moves: seq<Move>): World {
    if moves == [] then w else After(Exec(w, moves[..|moves| - 1]), moves[|moves| - 1])
  }

  ghost predicate Sound(w: World) { Lawful(w.db, w.minted) }

  ghost predicate Reachable(w: World) { exists moves :: w == Exec(START, moves) }

  lemma {:induction false} ExecConcat(w: World, a: seq<Move>, b: seq<Move>)
    ensures Exec(w, a + b) == Exec(Exec(w, a), b)
  {
    if b == [] {
      assert a + b == a;
    } else {
      var n := |b| - 1;
      ExecConcat(w, a, b[..n]);
      assert (a + b)[..|a + b| - 1] == a + b[..n];
    }
  }

  lemma RunRowKeeps(db: Db, now: Time, minted: Token, s: Step)
    requires RunStep(s) && Lawful(db, minted) && Attempt(db, now, minted, s).Ok?
    ensures Lawful(Attempt(db, now, minted, s).value, minted)
  {
    var db' := Attempt(db, now, minted, s).value;
    LawfulIsInv(db, minted);
    LawfulIsInv(db', minted);
    if db' != db {
      var e := db'.events[|db'.events| - 1];
      assert EnvironmentAt(db, s.run);
      PutRunKeeps(db, minted, s.run, db'.runs[s.run]);
      EmitNeutral(PutRun(db, s.run, db'.runs[s.run]), minted, e);
      assert db' == Emit(PutRun(db, s.run, db'.runs[s.run]), e);
    }
  }

  lemma RenewStepKeeps(db: Db, now: Time, minted: Token, id: TaskId, c: Credential, lease: int)
    requires Inv(db, minted) && RenewLease(db, now, id, c, lease).Ok?
    ensures Inv(RenewLease(db, now, id, c, lease).value, minted)
  {
    var renewed := if c.Presented? then Put(db, id, db.tasks[id].(expires := Some(now + lease))) else db;
    if c.Presented? { RenewKeeps(db, minted, id, now + lease); }
    EmitNeutral(renewed, minted, LeaseRenewed(id, now + lease));
  }

  lemma CompleteStepKeeps(db: Db, now: Time, minted: Token, id: TaskId, c: Credential, result: WorkResult,
                          files: Files, registered: bool)
    requires Inv(db, minted) && Complete(db, now, id, c, result, files, registered).Ok?
    ensures Inv(Complete(db, now, id, c, result, files, registered).value, minted)
  {
    if Accepted(db, id, result, files, registered) {
      SucceedRowKeeps(db, minted, id, result);
    } else {
      FailRowKeeps(db, minted, id);
    }
  }

  lemma ReconcileStepKeeps(db: Db, now: Time, minted: Token, r: RunId, files: Files)
    requires Inv(db, minted) && r in db.runs
    ensures Attempt(db, now, minted, ReconcileStep(r, files)) == Ok(Emit(db, RunReconciled(r, [], [])))
    ensures Inv(Emit(db, RunReconciled(r, [], [])), minted)
  {
    ReconcileIsNoOp(db, minted, r, files);
    EmitNeutral(db, minted, RunReconciled(r, [], []));
  }

  predicate LeasedStep(s: Step) { s.RenewStep? || s.CompleteStep? || s.FailStep? }
  predicate RunStep(s: Step) {
    s.CreateRunStep? || s.BindStep? || s.EnvironmentFailureStep? || s.GraphStep? || s.RequireGraphStep?
  }

  lemma LawfulGrows(db: Db, minted: Token, more: Token)
    requires Lawful(db, minted) && minted <= more
    ensures Lawful(db, more)
  {
    LawfulIsInv(db, minted);
    InvGrows(db, minted, more);
    LawfulIsInv(db, more);
  }

  lemma LeasedStepKeeps(db: Db, now: Time, minted: Token, s: Step)
    requires LeasedStep(s) && Lawful(db, minted) && Attempt(db, now, minted, s).Ok?
    ensures Lawful(Attempt(db, now, minted, s).value, minted)
  {
    LawfulIsInv(db, minted);
    LawfulIsInv(Attempt(db, now, minted, s).value, minted);
    match s {
      case RenewStep(id, c, lease) => RenewStepKeeps(db, now, minted, id, c, lease);
      case CompleteStep(id, c, result, files, registered) =>
        CompleteStepKeeps(db, now, minted, id, c, result, files, registered);
      case FailStep(id, c) => FailRowKeeps(db, minted, id);
    }
  }

  lemma QueueStepKeeps(db: Db, now: Time, minted: Token, s: Step)
    requires s.DiscoverStep? || s.ApplyStep? || s.RecoverStep? || s.ReconcileStep?
    requires Lawful(db, minted) && Attempt(db, now, minted, s).Ok?
    ensures Lawful(Attempt(db, now, minted, s).value, minted)
  {
    LawfulIsInv(db, minted);
    LawfulIsInv(Attempt(db, now, minted, s).value, minted);
    match s {
      case DiscoverStep(r, spec) => DiscoverKeeps(db, minted, r, spec);
      case ApplyStep(d) => ApplyKeeps(db, minted, d);
      case RecoverStep(force) => ReleasedKeeps(db, minted, now, force);
      case ReconcileStep(r, files) => ReconcileStepKeeps(db, now, minted, r, files);
    }
  }

  lemma ClaimStepKeeps(db: Db, now: Time, minted: Token, s: Step)
    requires s.ClaimStep? && Lawful(db, minted) && Attempt(db, now, minted, s).Ok?
    ensures Lawful(Attempt(db, now, minted, s).value, minted + Drawn(db, now, s))
  {
    ClaimReadyKeeps(db, now, minted, s.worker, s.queue, s.lease, s.limit, s.dirs);
  }

  lemma AttemptKeeps(db: Db, now: Time, minted: Token, s: Step)
    requires Lawful(db, minted) && Attempt(db, now, minted, s).Ok?
    ensures Lawful(Attempt(db, now, minted, s).value, minted + Drawn(db, now, s))
  {
    if s.ClaimStep? {
      ClaimStepKeeps(db, now, minted, s);
    } else if LeasedStep(s) {
      LeasedStepKeeps(db, now, minted, s);
    } else if RunStep(s) {
      RunRowKeeps(db, now, minted, s);
    } else {
      QueueStepKeeps(db, now, minted, s);
    }
  }

  lemma StepKeeps(w: World, m: Move)
    requires Sound(w)
    ensures Sound(After(w, m))
  {
    var now := w.now + m.wait;
    if Attempt(w.db, now, w.minted, m.step).Ok? {
      AttemptKeeps(w.db, now, w.minted, m.step);
    } else {
      LawfulGrows(w.db, w.minted, w.minted + Drawn(w.db, now, m.step));
    }
  }

  lemma {:induction false} ExecKeeps(w: World, moves: seq<Move>)
    requires Sound(w)
    ensures Sound(Exec(w, moves))
  {
    if moves != [] {
      ExecKeeps(w, moves[..|moves| - 1]);
      StepKeeps(Exec(w, moves[..|moves| - 1]), moves[|moves| - 1]);
    }
  }

  /** Main safety theorem: the invariant holds in every reachable world. */
  lemma ReachableSound(w: World)
    requires Reachable(w)
    ensures Sound(w)
  {
    var moves :| w == Exec(START, moves);
    EmptyInv();
    LawfulIsInv(EMPTY_DB, 0);
    ExecKeeps(START, moves);
  }
}
