/** The delivery gate of engine/graph_bridge.py and what a receipt rests on. */
module Delivery {
  import opened Base
  import opened SchedulerState
  import opened ResultValidation
  import opened Transitions
  import opened Invariants
  import opened Runs
  import opened Evolution
  import opened Safety
  import opened Contracts
  import opened Recoverability
  import Reconciliation
  import Acceptance

  // ---- the gate ----

  datatype GateState = OperatorsReady | OperatorsBlocked | WaitingForOperators

  datatype TaskResult = TaskResult(
    key: OperatorKey, queue: Queue, status: Status, attempt: nat,
    digests: Option<map<string, Content>>, submission: Option<Submission>)

  /** The compared part of a gate report.  Its lists are sorted by unique
      identifiers, so sets and maps carry the same information; the snapshot token
      is an injective digest of exactly these fields. */
  datatype Snapshot = Snapshot(
    state: GateState, run: RunId, mode: Mode, fingerprint: Option<Fingerprint>,
    tasks: set<TaskId>, keys: set<OperatorKey>, results: map<TaskId, TaskResult>)

  /** What the file system says while the gate is computed. */
  datatype Evidence = Evidence(environmentIntact: bool, dispatchIntact: bool, files: Files)

  datatype Obstacle =
    | EnvironmentNotReady | EnvironmentNotAccepted | ProofChanged
    | DiscoveryBlocked(channel: GraphKey) | DispatchChanged
    | RowFailed(task: TaskId) | RowBlocked(task: TaskId) | NoSubmission(task: TaskId)
    | Rejected(task: TaskId) | Unresolved(task: TaskId)

  function ResultOf(db: Db, id: TaskId): TaskResult
    requires id in db.tasks
  {
    var t := db.tasks[id];
    TaskResult(id.key, QueueOf(id), t.status, t.attempt, t.output.result.digests, t.output.submission)
  }

  function SnapshotOf(db: Db, r: RunId, state: GateState): Snapshot
    requires r in db.runs
  {
    Snapshot(state, r, db.runs[r].mode, db.runs[r].proof,
             set id | id in db.tasks && id.run == r,
             set id | id in db.tasks && id.run == r && id.OpTask? :: id.key,
             map id | id in db.tasks && id.run == r :: ResultOf(db, id))
  }

  predicate Dispatched(run: Run, channel: GraphKey) {
    channel in run.graph ==> run.graph[channel].state == "DISPATCHED" || run.graph[channel].state == "DISPATCH_SKIPPED"
  }

  predicate EnvironmentOpen(run: Run, e: Evidence) {
    run.status.EnvironmentReady? && GraphEnvironment in run.graph && e.environmentIntact
  }

  predicate DiscoveryOpen(run: Run, e: Evidence) {
    Dispatched(run, GraphDiscovery) && Dispatched(run, GraphShimDiscovery)
    && (GraphDiscovery in run.graph || GraphShimDiscovery in run.graph ==> e.dispatchIntact)
  }

  /** A row raises no objection: unfinished operator rows merely make the gate wait. */
  predicate RowCleared(db: Db, r: RunId, id: TaskId, files: Files)
    requires id in db.tasks && r in db.runs
  {
    var t := db.tasks[id];
    && !t.status.Failed?
    && (id.DiagTask? ==> t.status.Succeeded? && t.output.result.conclusion.action != Some(Blocked))
    && (t.status.Succeeded? ==>
          && t.output.submission.Some? && t.output.submission.value.worker != ""
          && t.output.submission.value.attempt == t.attempt
          && Accepts(id, t, db.runs[r], t.output.result, t.output.submission.value.worker, files))
  }

  predicate Unobstructed(db: Db, r: RunId, e: Evidence)
    requires r in db.runs
  {
    && EnvironmentOpen(db.runs[r], e) && DiscoveryOpen(db.runs[r], e)
    && forall id :: id in db.tasks && id.run == r ==> RowCleared(db, r, id, e.files)
  }

  predicate GateWaits(db: Db, r: RunId)
    requires r in db.runs
  {
    GraphDiscovery !in db.runs[r].graph
    || exists id :: id in db.tasks && id.run == r && Unfinished(db, r, id)
  }

  function GateOf(db: Db, r: RunId, e: Evidence): GateState
    requires r in db.runs
  {
    if !Unobstructed(db, r, e) then OperatorsBlocked
    else if GateWaits(db, r) then WaitingForOperators
    else OperatorsReady
  }

  function RowObstacles(db: Db, r: RunId, id: TaskId, files: Files): (o: seq<Obstacle>)
    requires id in db.tasks && r in db.runs
    ensures o == [] <==> RowCleared(db, r, id, files)
  {
    var t := db.tasks[id];
    if t.status.Failed? then [RowFailed(id)]
    else if id.DiagTask? && t.output.result.conclusion.action == Some(Blocked) then [RowBlocked(id)]
    else if t.status.Succeeded? then
      if t.output.submission.None? || t.output.submission.value.worker == ""
         || t.output.submission.value.attempt != t.attempt then [NoSubmission(id)]
      else if !Accepts(id, t, db.runs[r], t.output.result, t.output.submission.value.worker, files) then [Rejected(id)]
      else []
    else if id.DiagTask? then [Unresolved(id)]
    else []
  }

  /** The objections of all rows, row by row. */
  method ReviewRows(db: Db, r: RunId, files: Files) returns (errors: seq<Obstacle>)
    requires r in db.runs && Ordered(db)
    ensures errors == [] <==> forall id :: id in db.tasks && id.run == r ==> RowCleared(db, r, id, files)
  {
    Reconciliation.RowsOfRun(db, r);
    var ids := RunRows(db, r);
    errors := [];
    for i := 0 to |ids|
      invariant errors == [] <==> forall j :: 0 <= j < i ==> RowCleared(db, r, ids[j], files)
    {
      errors := errors + RowObstacles(db, r, ids[i], files);
    }
  }

  predicate Unfinished(db: Db, r: RunId, id: TaskId) { id.OpTask? && !Finished(db, r, id.key) }

  /** Whether some operator still lacks a succeeded stage. */
  method ReviewStages(db: Db, r: RunId) returns (unfinished: bool)
    requires r in db.runs && Ordered(db)
    ensures unfinished <==> exists id :: id in db.tasks && id.run == r && Unfinished(db, r, id)
  {
    Reconciliation.RowsOfRun(db, r);
    var ids := RunRows(db, r);
    unfinished := false;
    for i := 0 to |ids|
      invariant unfinished <==> exists j :: 0 <= j < i && Unfinished(db, r, ids[j])
    {
      if Unfinished(db, r, ids[i]) { unfinished := true; }
    }
  }

  /** `delivery_status`: environment first, then the accepted discoveries, then row
      by row.  A changed environment proof is also written back as a failure. */
  method DeliveryStatus(db: Db, r: RunId, e: Evidence)
    returns (snapshot: Snapshot, errors: seq<Obstacle>, db': Db)
    requires r in db.runs && Ordered(db)
    ensures Ok(db') ==
              if db.runs[r].status == EnvironmentReady && GraphEnvironment in db.runs[r].graph && !e.environmentIntact
              then RecordEnvironmentFailure(db, r, true)
              else Ok(db)
    ensures snapshot == SnapshotOf(db', r, snapshot.state)
    ensures snapshot.state == GateOf(db, r, e)
    ensures errors == [] <==> snapshot.state != OperatorsBlocked
  {
    errors, db' := [], db;
    if !db.runs[r].status.EnvironmentReady? {
      errors := [EnvironmentNotReady];
    } else if GraphEnvironment !in db.runs[r].graph {
      errors := [EnvironmentNotAccepted];
    } else if !e.environmentIntact {
      errors := [ProofChanged];
      db' := RecordEnvironmentFailure(db, r, true).value;
    }
    assert errors == [] <==> EnvironmentOpen(db.runs[r], e);
    var run := db'.runs[r];
    if !Dispatched(run, GraphDiscovery) { errors := errors + [DiscoveryBlocked(GraphDiscovery)]; }
    if !Dispatched(run, GraphShimDiscovery) { errors := errors + [DiscoveryBlocked(GraphShimDiscovery)]; }
    if (GraphDiscovery in run.graph || GraphShimDiscovery in run.graph) && !e.dispatchIntact {
      errors := errors + [DispatchChanged];
    }
    SameOrder(db, db');
    var rowErrors := ReviewRows(db', r, e.files);
    errors := errors + rowErrors;
    var unfinished := ReviewStages(db', r);
    var waiting := GraphDiscovery !in run.graph || unfinished;
    var state := if errors != [] then OperatorsBlocked else if waiting then WaitingForOperators else OperatorsReady;
    snapshot := SnapshotOf(db', r, state);
  }

  // ---- a ready gate pins the task table ----

  predicate AllRowsSucceeded(db: Db, r: RunId) {
    forall id :: id in db.tasks && id.run == r ==> db.tasks[id].status.Succeeded?
  }

  lemma ReadyMeansSettled(db: Db, r: RunId, e: Evidence)
    requires r in db.runs && GateOf(db, r, e).OperatorsReady?
    ensures AllRowsSucceeded(db, r)
    ensures forall id :: id in db.tasks && id.run == r && id.OpTask? ==> Finished(db, r, id.key)
  {
    forall id | id in db.tasks && id.run == r ensures db.tasks[id].status.Succeeded? {
      assert RowCleared(db, r, id, e.files);
      if id.OpTask? {
        match id.stage {
          case Torch => assert id == OpTask(r, id.key, Torch);
          case Xpu => assert id == OpTask(r, id.key, Xpu);
          case Integration => assert id == OpTask(r, id.key, Integration);
        }
      }
    }
  }

  // ---- the gate, field by field ----

  /** What the gate revalidates a succeeded row against. */
  function Resubmitted(db: Db, r: RunId, id: TaskId, files: Files): Acceptance.Submitted
    requires r in db.runs && id in db.tasks && db.tasks[id].output.submission.Some?
  {
    var t := db.tasks[id];
    Acceptance.Submitted(id, t, db.runs[r], t.output.result, t.output.submission.value.worker, files)
  }

  /** The row was completed in its current attempt by somebody, and no objection to what
      was submitted then stands now. */
  ghost predicate StillStands(db: Db, r: RunId, id: TaskId, files: Files)
    requires r in db.runs && id in db.tasks
  {
    && db.tasks[id].output.submission.Some? && db.tasks[id].output.submission.value.worker != ""
    && db.tasks[id].output.submission.value.attempt == db.tasks[id].attempt
    && Acceptance.Flawless(Resubmitted(db, r, id, files))
  }

  /** No row is failed, diagnoses are finished and not BLOCKED, and what succeeded still
      stands; operator rows may be on their way. */
  ghost predicate Unobjectionable(db: Db, r: RunId, id: TaskId, files: Files)
    requires r in db.runs && id in db.tasks
  {
    match db.tasks[id].status
    case Failed => false
    case Pending => id.OpTask?
    case Running => id.OpTask?
    case Succeeded =>
      && StillStands(db, r, id, files)
      && (id.DiagTask? ==> db.tasks[id].output.result.conclusion.action != Some(Blocked))
  }

  lemma RowExactly(db: Db, r: RunId, id: TaskId, files: Files)
    requires r in db.runs && id in db.tasks
    ensures RowCleared(db, r, id, files) <==> Unobjectionable(db, r, id, files)
  {
    if db.tasks[id].output.submission.Some? { Acceptance.AcceptedExactly(Resubmitted(db, r, id, files)); }
  }

  predicate Handed(run: Run, channel: GraphKey, e: Evidence) {
    channel in run.graph ==> run.graph[channel].state in {"DISPATCHED", "DISPATCH_SKIPPED"} && e.dispatchIntact
  }

  /** The gate is open exactly when the accepted environment still stands, both accepted
      discoveries were clean and are unchanged, and no row is objectionable; it then
      waits exactly for the discovery or for some stage of some operator. */
  lemma GateExactly(db: Db, r: RunId, e: Evidence)
    requires r in db.runs
    ensures var run, gate := db.runs[r], GateOf(db, r, e);
            && (gate != OperatorsBlocked <==>
                  && run.status == EnvironmentReady && GraphEnvironment in run.graph && e.environmentIntact
                  && Handed(run, GraphDiscovery, e) && Handed(run, GraphShimDiscovery, e)
                  && forall id :: id in db.tasks && id.run == r ==> Unobjectionable(db, r, id, e.files))
            && (gate == OperatorsReady <==>
                  && gate != OperatorsBlocked && GraphDiscovery in run.graph
                  && forall k, s, stage :: OpTask(r, k, s) in db.tasks ==>
                       OpTask(r, k, stage) in db.tasks && db.tasks[OpTask(r, k, stage)].status == Succeeded)
  {
    forall id | id in db.tasks && id.run == r
      ensures RowCleared(db, r, id, e.files) <==> Unobjectionable(db, r, id, e.files)
    {
      RowExactly(db, r, id, e.files);
    }
    if forall k, s, stage :: OpTask(r, k, s) in db.tasks ==> StageSucceeded(db, OpTask(r, k, stage)) {
      assert !exists id :: id in db.tasks && id.run == r && Unfinished(db, r, id);
    }
    if !exists id :: id in db.tasks && id.run == r && Unfinished(db, r, id) {
      forall k, s, stage | OpTask(r, k, s) in db.tasks ensures StageSucceeded(db, OpTask(r, k, stage)) {
        assert !Unfinished(db, r, OpTask(r, k, s));
        match stage { case Torch => case Xpu => case Integration => }
      }
    }
  }

  /** Every row of the run rests on evidence that is still what was submitted, for its
      current attempt, in the environment and mode of the run. */
  ghost predicate EvidenceHolds(db: Db, r: RunId, files: Files)
    requires r in db.runs
  {
    forall id :: id in db.tasks && id.run == r ==>
      && db.tasks[id].status == Succeeded
      && Acceptance.EvidenceStands(db.tasks[id], db.tasks[id].output.result, files)
      && var claims := db.tasks[id].output.result.claims;
      && claims.task == Some(id) && claims.attempt == Some(db.tasks[id].attempt)
      && claims.fingerprint == Some(db.runs[r].proof) && claims.mode == Some(db.runs[r].mode)
  }

  lemma RowEvidence(db: Db, r: RunId, id: TaskId, files: Files)
    requires r in db.runs && id in db.tasks && StillStands(db, r, id, files)
    ensures Acceptance.EvidenceStands(db.tasks[id], db.tasks[id].output.result, files)
    ensures var claims := db.tasks[id].output.result.claims;
            && claims.task == Some(id) && claims.attempt == Some(db.tasks[id].attempt)
            && claims.fingerprint == Some(db.runs[r].proof) && claims.mode == Some(db.runs[r].mode)
  {
    var s := Resubmitted(db, r, id, files);
    Acceptance.FlawlessMeansEvidence(s);
    assert !Acceptance.Raised(Acceptance.ToClaims(Acceptance.OtherTask), s);
    assert !Acceptance.Raised(Acceptance.ToClaims(Acceptance.OtherAttempt), s);
    assert !Acceptance.Raised(Acceptance.ToClaims(Acceptance.OtherFingerprint), s);
    assert !Acceptance.Raised(Acceptance.ToClaims(Acceptance.OtherMode), s);
  }

  /** Behind a READY gate the evidence of every row holds; and one succeeded row whose
      evidence is gone or altered closes the gate. */
  lemma ReadyMeansEvidence(db: Db, r: RunId, e: Evidence)
    requires r in db.runs
    ensures GateOf(db, r, e).OperatorsReady? ==> EvidenceHolds(db, r, e.files)
    ensures forall id :: id in db.tasks && id.run == r && db.tasks[id].status == Succeeded
              && !Acceptance.EvidenceStands(db.tasks[id], db.tasks[id].output.result, e.files)
              ==> GateOf(db, r, e).OperatorsBlocked?
  {
    GateExactly(db, r, e);
    if GateOf(db, r, e).OperatorsReady? {
      ReadyMeansSettled(db, r, e);
      forall id | id in db.tasks && id.run == r ensures StillStands(db, r, id, e.files) {
        assert Unobjectionable(db, r, id, e.files);
      }
    }
    forall id | id in db.tasks && id.run == r && db.tasks[id].status == Succeeded && StillStands(db, r, id, e.files)
      ensures Acceptance.EvidenceStands(db.tasks[id], db.tasks[id].output.result, e.files)
      ensures var claims := db.tasks[id].output.result.claims;
              && claims.task == Some(id) && claims.attempt == Some(db.tasks[id].attempt)
              && claims.fingerprint == Some(db.runs[r].proof) && claims.mode == Some(db.runs[r].mode)
    {
      RowEvidence(db, r, id, e.files);
    }
    forall id | id in db.tasks && id.run == r && db.tasks[id].status == Succeeded
      && !Acceptance.EvidenceStands(db.tasks[id], db.tasks[id].output.result, e.files)
      ensures GateOf(db, r, e).OperatorsBlocked?
    {
      assert !Unobjectionable(db, r, id, e.files);
    }
  }

  // ---- what a snapshot pins ----

  predicate SameOutcome(t: Task, t': Task) {
    && t'.status == t.status && t'.attempt == t.attempt
    && t'.output.result.digests == t.output.result.digests && t'.output.submission == t.output.submission
  }

  ghost predicate SameOutcomes(db: Db, db': Db, r: RunId) {
    && (forall id: TaskId :: id.run == r ==> (id in db.tasks <==> id in db'.tasks))
    && (forall id: TaskId :: id.run == r && id in db.tasks && id in db'.tasks ==>
          SameOutcome(db.tasks[id], db'.tasks[id]))
  }

  lemma SameOutcomesSnapshot(db: Db, db': Db, r: RunId, gate: GateState)
    requires r in db.runs && r in db'.runs && SameOutcomes(db, db', r)
    requires db.runs[r].mode == db'.runs[r].mode && db.runs[r].proof == db'.runs[r].proof
    ensures SnapshotOf(db, r, gate) == SnapshotOf(db', r, gate)
  {
    var a, b := SnapshotOf(db, r, gate), SnapshotOf(db', r, gate);
    assert a.tasks == b.tasks && a.keys == b.keys;
    assert a.results.Keys == b.results.Keys;
    forall id | id in a.results ensures a.results[id] == b.results[id] {
      assert SameOutcome(db.tasks[id], db'.tasks[id]);
    }
    assert a.results == b.results;
  }

  /** Two snapshots are equal exactly when gate, mode, fingerprint and rows are, and each
      row has the same status, attempt, evidence digests and submission. */
  lemma SnapshotsAgree(db: Db, db': Db, r: RunId, gate: GateState, gate': GateState)
    requires r in db.runs && r in db'.runs
    ensures SnapshotOf(db, r, gate) == SnapshotOf(db', r, gate') <==>
              && gate == gate' && db.runs[r].mode == db'.runs[r].mode && db.runs[r].proof == db'.runs[r].proof
              && SameOutcomes(db, db', r)
  {
    var a, b := SnapshotOf(db, r, gate), SnapshotOf(db', r, gate');
    if a == b {
      forall id: TaskId | id.run == r ensures id in db.tasks <==> id in db'.tasks {
        assert id in a.tasks <==> id in b.tasks;
      }
      forall id: TaskId | id.run == r && id in db.tasks && id in db'.tasks
        ensures SameOutcome(db.tasks[id], db'.tasks[id])
      {
        assert a.results[id] == b.results[id];
      }
    }
    if && gate == gate' && db.runs[r].mode == db'.runs[r].mode && db.runs[r].proof == db'.runs[r].proof
       && SameOutcomes(db, db', r) {
      SameOutcomesSnapshot(db, db', r, gate);
    }
  }

  function RowsOf(db: Db, r: RunId): map<TaskId, Task> { map id | id in db.tasks && id.run == r :: db.tasks[id] }

  /** A row of a settled run after one more step. */
  lemma SettledRow(w: World, w': World, id: TaskId)
    requires Evolves(w, w', id) && AllRowsSucceeded(w.db, id.run)
    ensures id in w.db.tasks && (id.OpTask? || SourceOf(id) in w.db.tasks) ==>
              id in w'.db.tasks && w'.db.tasks[id] == w.db.tasks[id]
    ensures id in w'.db.tasks && id !in w.db.tasks ==>
              id.OpTask? && id.stage.Torch? && (id.run, id.key) !in w.db.operators
  {
  }

  /** A first stage without a stored contract is new: this very step discovered it. */
  lemma NewRowIsDiscovered(w: World, m: Move, r: RunId, k: OperatorKey)
    requires Sound(w) && (r, k) !in w.db.operators && OpTask(r, k, Torch) in After(w, m).db.tasks
    ensures m.step.DiscoverStep? && m.step.run == r && m.step.spec.key == k
  {
    StepKeeps(w, m);
    assert (r, k) in After(w, m).db.operators by {
      LawfulIsInv(After(w, m).db, After(w, m).minted);
      assert PipelineAt(After(w, m).db, r, k);
    }
    if m.step.DiscoverStep? {
      DiscoveryWritesOne(w, m, (r, k));
    } else {
      OnlyDiscoveryWrites(w, m);
    }
  }

  /** The step discovers the operator whose first stage `id` is. */
  predicate DiscoversRow(m: Move, id: TaskId) {
    m.step.DiscoverStep? && id == OpTask(m.step.run, m.step.spec.key, Torch)
  }

  /** From a settled run the only step that alters its task table is the discovery
      of a new operator: it adds that operator's first stage and nothing else. */
  lemma SettledRunStep(w: World, m: Move, r: RunId)
    requires Sound(w) && AllRowsSucceeded(w.db, r)
    ensures var before, after := RowsOf(w.db, r), RowsOf(After(w, m).db, r);
            && (forall id :: id in before ==> id in after && after[id] == before[id])
            && (forall id :: id in after && id !in before ==> DiscoversRow(m, id) && (r, id.key) !in w.db.operators)
            && (!m.step.DiscoverStep? ==> after == before)
  {
    var w' := After(w, m);
    forall id: TaskId | id.run == r
      ensures id in w.db.tasks ==> id in w'.db.tasks && w'.db.tasks[id] == w.db.tasks[id]
      ensures id in w'.db.tasks && id !in w.db.tasks ==> DiscoversRow(m, id) && (r, id.key) !in w.db.operators
    {
      StepEvolves(w, m, id);
      if id in w.db.tasks && id.DiagTask? { SourceExists(w, id); }
      SettledRow(w, w', id);
      if id in w'.db.tasks && id !in w.db.tasks { NewRowIsDiscovered(w, m, r, id.key); }
    }
  }

  lemma SourceExists(w: World, id: TaskId)
    requires Sound(w) && id in w.db.tasks && id.DiagTask?
    ensures SourceOf(id) in w.db.tasks
  {
    LawfulIsInv(w.db, w.minted);
    assert DiagnosedAt(w.db, id.run, id.key, id.stage);
  }

  /** Either nothing moved in the run throughout, or it now has a row it lacked. */
  ghost predicate Still(w: World, moves: seq<Move>, r: RunId) {
    forall i :: 0 <= i <= |moves| ==> RowsOf(Exec(w, moves[..i]).db, r) == RowsOf(w.db, r)
  }

  ghost predicate Grown(a: Db, b: Db, r: RunId) { exists id :: id in RowsOf(b, r) && id !in RowsOf(a, r) }

  lemma {:induction false} SettledOrGrown(w: World, moves: seq<Move>, r: RunId)
    requires Sound(w) && AllRowsSucceeded(w.db, r)
    ensures Still(w, moves, r) || Grown(w.db, Exec(w, moves).db, r)
  {
    if moves == [] {
      assert moves[..0] == [];
    } else {
      var n := |moves| - 1;
      SettledOrGrown(w, moves[..n], r);
      SoundAfter(w, moves[..n]);
      if Grown(w.db, Exec(w, moves[..n]).db, r) {
        GrownStays(w, Exec(w, moves[..n]), moves[n], r);
      } else {
        assert moves[..n][..n] == moves[..n];
        SettledCarries(w.db, Exec(w, moves[..n]).db, r);
        SettledRunStep(Exec(w, moves[..n]), moves[n], r);
        if RowsOf(Exec(w, moves).db, r) == RowsOf(w.db, r) {
          StillLonger(w, moves, r);
        } else {
          RowsGrew(w.db, Exec(w, moves).db, r);
        }
      }
    }
  }

  lemma GrownStays(w: World, mid: World, m: Move, r: RunId)
    requires Sound(mid) && Grown(w.db, mid.db, r)
    ensures Grown(w.db, After(mid, m).db, r)
  {
    var id :| id in RowsOf(mid.db, r) && id !in RowsOf(w.db, r);
    StepEvolves(mid, m, id);
    RowStays(mid, After(mid, m), id);
    assert id in RowsOf(After(mid, m).db, r);
  }

  lemma StillLonger(w: World, moves: seq<Move>, r: RunId)
    requires moves != [] && Still(w, moves[..|moves| - 1], r) && RowsOf(Exec(w, moves).db, r) == RowsOf(w.db, r)
    ensures Still(w, moves, r)
  {
    var init := moves[..|moves| - 1];
    forall i | 0 <= i <= |moves| ensures RowsOf(Exec(w, moves[..i]).db, r) == RowsOf(w.db, r) {
      assert moves[..i] == if i <= |init| then init[..i] else moves;
    }
  }

  lemma SettledCarries(a: Db, b: Db, r: RunId)
    requires AllRowsSucceeded(a, r) && RowsOf(b, r) == RowsOf(a, r)
    ensures AllRowsSucceeded(b, r)
  {
    forall id | id in b.tasks && id.run == r ensures b.tasks[id].status.Succeeded? {
      assert id in RowsOf(b, r) && b.tasks[id] == RowsOf(a, r)[id];
    }
  }

  lemma RowsGrew(a: Db, b: Db, r: RunId)
    requires RowsOf(b, r) != RowsOf(a, r)
    requires forall id :: id in RowsOf(a, r) ==> id in RowsOf(b, r) && RowsOf(b, r)[id] == RowsOf(a, r)[id]
    ensures Grown(a, b, r)
  {
    var x, y := RowsOf(a, r), RowsOf(b, r);
    assert y.Keys == x.Keys ==> y == x;
    assert x.Keys <= y.Keys;
    var id :| id in y.Keys && id !in x.Keys;
    assert id in RowsOf(b, r);
  }

  lemma SameIdsMeanStill(w: World, moves: seq<Move>, r: RunId)
    requires Sound(w) && AllRowsSucceeded(w.db, r)
    requires forall id :: id in RowsOf(Exec(w, moves).db, r) ==> id in RowsOf(w.db, r)
    ensures Still(w, moves, r)
  {
    SettledOrGrown(w, moves, r);
  }

  /** The database as a gate sees it that reads the run row in a query of its own. */
  function Seen(db: Db, r: RunId, run: Run): Db { PutRun(db, r, run) }

  /** No ABA: between a READY snapshot and any later snapshot with the same task
      ids, no row of the run changed at any moment.  The run rows of the two
      snapshots may come from other moments than their task rows. */
  lemma NoAba(w: World, moves: seq<Move>, r: RunId, run: Run, e: Evidence, run': Run, later: GateState)
    requires Reachable(w) && GateOf(Seen(w.db, r, run), r, e).OperatorsReady?
    requires SnapshotOf(Seen(Exec(w, moves).db, r, run'), r, later).tasks
             == SnapshotOf(Seen(w.db, r, run), r, OperatorsReady).tasks
    ensures Still(w, moves, r)
  {
    ReachableSound(w);
    ReadyMeansSettled(Seen(w.db, r, run), r, e);
    assert AllRowsSucceeded(w.db, r);
    forall id | id in RowsOf(Exec(w, moves).db, r) ensures id in RowsOf(w.db, r) {
      assert id in SnapshotOf(Seen(Exec(w, moves).db, r, run'), r, later).tasks;
    }
    SameIdsMeanStill(w, moves, r);
  }

  // ---- publishing a receipt ----

  /** A final regression fact: whether its attempt belongs to the run, the gate
      snapshot stored when the attempt was prepared, and the service proof it cites. */
  datatype RegressionFact = RegressionFact(owned: bool, snapshot: Snapshot, serviceProof: Option<string>)
  /** `accepted` stands for the other final facts: inventory, required states,
      baseline, dispatch, shims and identities. */
  datatype FinalFacts = FinalFacts(
    complete: bool, accepted: bool, service: RegressionFact, accuracy: RegressionFact, serviceDigest: string)
  datatype Receipt = Receipt(
    run: RunId, simulated: bool, fingerprint: Option<Fingerprint>, snapshot: Snapshot)
  datatype DeliveryError = GateClosed | FactsRejected | StaleService | StaleAccuracy | ChangedDuringDelivery

  predicate RegressionCurrent(fact: RegressionFact, gate: Snapshot) {
    fact.owned && fact.snapshot.state.OperatorsReady?
    && fact.snapshot.run == gate.run && fact.snapshot.mode == gate.mode
    && fact.snapshot.fingerprint == gate.fingerprint && fact.snapshot.tasks == gate.tasks
    && fact.snapshot.keys == gate.keys && fact.snapshot.results == gate.results
  }

  /** `_finalize`: gate, facts, both regressions, then the gate once more.  `first`
      and `second` are what the file system shows at the two gates. */
  method Finalize(db: Db, r: RunId, facts: FinalFacts, first: Evidence, second: Evidence)
    returns (outcome: Outcome<Receipt, DeliveryError>)
    requires r in db.runs && Ordered(db)
    ensures outcome.Ok? <==>
              && GateOf(db, r, first).OperatorsReady?
              && GateOf(db, r, second).OperatorsReady?
              && facts.complete && facts.accepted
              && facts.service.owned && facts.service.snapshot == SnapshotOf(db, r, OperatorsReady)
              && facts.accuracy.owned && facts.accuracy.snapshot == SnapshotOf(db, r, OperatorsReady)
              && facts.accuracy.serviceProof == Some(facts.serviceDigest)
    ensures outcome.Ok? ==>
              && outcome.value == Receipt(r, db.runs[r].mode.Simulation?, db.runs[r].proof,
                                          SnapshotOf(db, r, OperatorsReady))
              && EvidenceHolds(db, r, first.files) && EvidenceHolds(db, r, second.files)
  {
    ReadyMeansEvidence(db, r, first);
    ReadyMeansEvidence(db, r, second);
    var gate, errors, db1 := DeliveryStatus(db, r, first);
    if errors != [] || !gate.state.OperatorsReady? || !facts.complete { return Err(GateClosed); }
    if !facts.accepted { return Err(FactsRejected); }
    if !RegressionCurrent(facts.service, gate) { return Err(StaleService); }
    if !RegressionCurrent(facts.accuracy, gate) || facts.accuracy.serviceProof != Some(facts.serviceDigest) {
      return Err(StaleAccuracy);
    }
    var final, late, db2 := DeliveryStatus(db1, r, second);
    if !final.state.OperatorsReady? { return Err(ChangedDuringDelivery); }
    if !RegressionCurrent(facts.service, final) || !RegressionCurrent(facts.accuracy, final) {
      return Err(ChangedDuringDelivery);
    }
    return Ok(Receipt(r, db.runs[r].mode.Simulation?, db.runs[r].proof, gate));
  }

  /** What `Finalize` publishes on. */
  predicate Publishes(db: Db, r: RunId, facts: FinalFacts, e: Evidence)
    requires r in db.runs
  {
    && GateOf(db, r, e).OperatorsReady?
    && facts.service.snapshot == SnapshotOf(db, r, OperatorsReady)
    && facts.accuracy.snapshot == SnapshotOf(db, r, OperatorsReady)
    && facts.accuracy.serviceProof == Some(facts.serviceDigest)
  }

  /** What a regression stores when it is prepared: the gate's snapshot, from task rows
      of `db` and a run row read separately. */
  function Prepared(db: Db, r: RunId, run: Run, e: Evidence): Snapshot {
    SnapshotOf(Seen(db, r, run), r, GateOf(Seen(db, r, run), r, e))
  }

  /** Every receipt rests on regressions that began after the last operator change:
      if either regression's stored snapshot was prepared from the task rows of world
      `w`, then no row of the run changed from `w` to the delivery, all of them were
      succeeded throughout, and the delivered fingerprint is the one read then. */
  lemma ReceiptRestsOnSettledOperators(w: World, moves: seq<Move>, r: RunId, facts: FinalFacts,
                                       run: Run, prepared: Evidence, final: Evidence)
    requires Reachable(w) && r in Exec(w, moves).db.runs
    requires Publishes(Exec(w, moves).db, r, facts, final)
    requires facts.service.snapshot == Prepared(w.db, r, run, prepared)
             || facts.accuracy.snapshot == Prepared(w.db, r, run, prepared)
    ensures GateOf(Seen(w.db, r, run), r, prepared).OperatorsReady?
    ensures Still(w, moves, r)
    ensures forall i :: 0 <= i <= |moves| ==> AllRowsSucceeded(Exec(w, moves[..i]).db, r)
    ensures Exec(w, moves).db.runs[r].proof == run.proof && Exec(w, moves).db.runs[r].mode == run.mode
  {
    var delivered := SnapshotOf(Exec(w, moves).db, r, OperatorsReady);
    assert Prepared(w.db, r, run, prepared) == delivered;
    assert Prepared(w.db, r, run, prepared).fingerprint == run.proof;
    assert Prepared(w.db, r, run, prepared).mode == run.mode;
    assert Seen(Exec(w, moves).db, r, Exec(w, moves).db.runs[r]).tasks == Exec(w, moves).db.tasks;
    NoAba(w, moves, r, run, prepared, Exec(w, moves).db.runs[r], OperatorsReady);
    ReadyMeansSettled(Seen(w.db, r, run), r, prepared);
    forall i | 0 <= i <= |moves| ensures AllRowsSucceeded(Exec(w, moves[..i]).db, r) {
      SettledCarries(w.db, Exec(w, moves[..i]).db, r);
    }
  }

  /** On a reachable database no succeeded row is ever reported without its producer. */
  lemma ProducerNeverMissing(w: World, r: RunId, id: TaskId, files: Files)
    requires Reachable(w) && r in w.db.runs && StageSucceeded(w.db, id)
    ensures NoSubmission(id) !in RowObstacles(w.db, r, id, files)
  {
    ProducerKnown(w, id);
  }
}
