/** What the scheduler promises over whole runs. */
module Safety {
  import opened Base
  import opened SchedulerState
  import opened Transitions
  import opened Tally
  import opened Invariants
  import opened Claiming
  import opened Runs
  import opened Evolution

  lemma {:induction false} SoundAfter(w: World, moves: seq<Move>)
    requires Sound(w)
    ensures Sound(Exec(w, moves)) && Exec(w, moves).now >= w.now && Exec(w, moves).minted >= w.minted
  {
    if moves != [] {
      SoundAfter(w, moves[..|moves| - 1]);
      StepKeeps(Exec(w, moves[..|moves| - 1]), moves[|moves| - 1]);
    }
  }

  // ---- pipeline ----

  predicate Unfinished(db: Db, id: TaskId) { id in db.tasks && !db.tasks[id].status.Succeeded? }

  /** Under every interleaving: a stage has a row exactly when its predecessor
      succeeded, and at most one row of an operator is unfinished. */
  lemma PipelineShape(w: World, r: RunId, k: OperatorKey)
    requires Reachable(w)
    ensures OpTask(r, k, Torch) in w.db.tasks <==> (r, k) in w.db.operators
    ensures OpTask(r, k, Xpu) in w.db.tasks <==> StageSucceeded(w.db, OpTask(r, k, Torch))
    ensures OpTask(r, k, Integration) in w.db.tasks <==> StageSucceeded(w.db, OpTask(r, k, Xpu))
    ensures forall s, s' :: Unfinished(w.db, OpTask(r, k, s)) && Unfinished(w.db, OpTask(r, k, s')) ==> s == s'
  {
    ReachableSound(w);
    LawfulIsInv(w.db, w.minted);
    assert PipelineAt(w.db, r, k);
    assert forall s: Stage :: s.Torch? || s.Xpu? || s.Integration?;
  }

  lemma RowStays(w: World, w': World, id: TaskId)
    requires Evolves(w, w', id) && id in w.db.tasks
    ensures id in w'.db.tasks
  {
  }

  lemma {:induction false} RowsPersist(w: World, moves: seq<Move>, id: TaskId)
    requires Sound(w) && id in w.db.tasks
    ensures id in Exec(w, moves).db.tasks
  {
    if moves != [] {
      var n := |moves| - 1;
      RowsPersist(w, moves[..n], id);
      SoundAfter(w, moves[..n]);
      StepEvolves(Exec(w, moves[..n]), moves[n], id);
      RowStays(Exec(w, moves[..n]), Exec(w, moves), id);
    }
  }

  lemma SucceededStays(w: World, w': World, id: TaskId)
    requires Evolves(w, w', id) && id.OpTask? && StageSucceeded(w.db, id)
    ensures id in w'.db.tasks && w'.db.tasks[id] == w.db.tasks[id]
  {
  }

  /** A succeeded operator row is never written again. */
  lemma {:induction false} SucceededForever(w: World, moves: seq<Move>, id: TaskId)
    requires Sound(w) && id.OpTask? && StageSucceeded(w.db, id)
    ensures id in Exec(w, moves).db.tasks && Exec(w, moves).db.tasks[id] == w.db.tasks[id]
  {
    if moves != [] {
      var n := |moves| - 1;
      SucceededForever(w, moves[..n], id);
      SoundAfter(w, moves[..n]);
      StepEvolves(Exec(w, moves[..n]), moves[n], id);
      SucceededStays(Exec(w, moves[..n]), Exec(w, moves), id);
    }
  }

  // ---- leases ----

  /** At any instant a running row answers to its holder or may be reclaimed,
      never both and never neither; any other row answers to nobody. */
  lemma UsableOrReclaimable(w: World, id: TaskId)
    requires Reachable(w) && id in w.db.tasks
    ensures var t := w.db.tasks[id];
            && (t.status.Running? ==>
                  t.token.Some? && (Owns(t, w.now, Presented(t.worker, t.token.value)) <==> !Overdue(t, w.now, false)))
            && (!t.status.Running? ==> t.token.None? && t.worker.None? && t.expires.None?)
            && (!t.status.Running? ==> forall c :: !Owns(t, w.now, c))
  {
    ReachableSound(w);
    LawfulIsInv(w.db, w.minted);
    assert LeaseAt(w.db, w.minted, id);
  }

  /** Token `t` was drawn, and no longer opens row `id`. */
  predicate Spent(w: World, id: TaskId, t: Token) {
    t < w.minted && (id in w.db.tasks && w.db.tasks[id].token == Some(t) ==> Overdue(w.db.tasks[id], w.now, false))
  }

  lemma SpentStays(w: World, w': World, id: TaskId, t: Token)
    requires Spent(w, id, t) && Evolves(w, w', id) && Later(w, w')
    ensures Spent(w', id, t)
  {
  }

  lemma {:induction false} SpentForever(w: World, moves: seq<Move>, id: TaskId, t: Token)
    requires Sound(w) && Spent(w, id, t)
    ensures Spent(Exec(w, moves), id, t)
  {
    if moves != [] {
      var n := |moves| - 1;
      SpentForever(w, moves[..n], id, t);
      SoundAfter(w, moves[..n]);
      StepEvolves(Exec(w, moves[..n]), moves[n], id);
      SpentStays(Exec(w, moves[..n]), Exec(w, moves), id, t);
    }
  }

  predicate PresentsToken(c: Credential, t: Token) { !c.WorkerOnly? && c.token == t }

  /** Fencing: once a lease has expired, been forcibly recovered, been reclaimed or
      finished, every later renew, complete or fail with its token is refused. */
  lemma Fencing(w: World, moves: seq<Move>, id: TaskId, t: Token, c: Credential, wait: nat, lease: int,
                result: WorkResult, files: Files, registered: bool)
    requires Reachable(w) && Spent(w, id, t) && PresentsToken(c, t)
    ensures var w' := Exec(w, moves);
            && Attempt(w'.db, w'.now + wait, w'.minted, RenewStep(id, c, lease)).Err?
            && Attempt(w'.db, w'.now + wait, w'.minted, CompleteStep(id, c, result, files, registered)).Err?
            && Attempt(w'.db, w'.now + wait, w'.minted, FailStep(id, c)).Err?
  {
    ReachableSound(w);
    SpentForever(w, moves, id, t);
  }

  lemma TokenMovesOn(w: World, w': World, id: TaskId)
    requires Evolves(w, w', id) && Later(w, w') && LeaseAt(w.db, w.minted, id)
    requires id in w.db.tasks && w.db.tasks[id].status.Running?
    ensures var t := w.db.tasks[id].token;
            t.Some? && id in w'.db.tasks && (w'.db.tasks[id].token != t ==> Spent(w', id, t.value))
  {
  }

  /** When a claim or a recovery takes a row away from its holder, or the row
      finishes, the holder's token is spent. */
  lemma LosingTheLeaseSpendsIt(w: World, m: Move, id: TaskId)
    requires Reachable(w) && id in w.db.tasks && w.db.tasks[id].status.Running?
    ensures var t := w.db.tasks[id].token;
            && t.Some? && id in After(w, m).db.tasks
            && (After(w, m).db.tasks[id].token != t ==> Spent(After(w, m), id, t.value))
  {
    ReachableSound(w);
    assert LeaseAt(w.db, w.minted, id) by { LawfulIsInv(w.db, w.minted); }
    StepEvolves(w, m, id);
    TokenMovesOn(w, After(w, m), id);
  }

  /** In the concise form renewal is accepted and logged, yet no lease moves. */
  lemma RenewalExtends(w: World, now: Time, id: TaskId, c: Credential, lease: int)
    requires Reachable(w) && OwnsRow(w.db, now, id, c) && lease > 0
    ensures var r := RenewLease(w.db, now, id, c, lease);
            && r.Ok?
            && (c.Presented? ==> r.value.tasks[id].expires == Some(now + lease))
            && (!c.Presented? ==> r.value.tasks == w.db.tasks)
            && LeaseRenewed(id, now + lease) in r.value.events
  {
    var r := RenewLease(w.db, now, id, c, lease);
    assert r.value.events[|r.value.events| - 1] == LeaseRenewed(id, now + lease);
  }

  /** So a granted concise renewal buys no time: once the lease would have ended, its
      token completes, fails and renews nothing. */
  lemma ConciseRenewalBuysNothing(w: World, m: Move, id: TaskId, wait: nat, c: Credential, lease: int,
                                  result: WorkResult, files: Files, registered: bool)
    requires Reachable(w) && m.step.RenewStep? && m.step.credential.TokenOnly? && m.step.task == id && m.step.lease > 0
    requires OwnsRow(w.db, w.now + m.wait, id, m.step.credential) && PresentsToken(c, m.step.credential.token)
    requires w.db.tasks[id].expires.value <= w.now + m.wait + wait
    ensures var w' := After(w, m);
            && LeaseRenewed(id, w'.now + m.step.lease) in w'.db.events
            && Attempt(w'.db, w'.now + wait, w'.minted, RenewStep(id, c, lease)).Err?
            && Attempt(w'.db, w'.now + wait, w'.minted, CompleteStep(id, c, result, files, registered)).Err?
            && Attempt(w'.db, w'.now + wait, w'.minted, FailStep(id, c)).Err?
  {
    RenewalExtends(w, w.now + m.wait, id, m.step.credential, m.step.lease);
    var w' := After(w, m);
    assert w'.db.tasks == w.db.tasks && w'.now == w.now + m.wait;
    assert !OwnsRow(w'.db, w'.now + wait, id, c);
  }

  // ---- environment ----

  /** Every contract of a real run carries the fingerprint bound to the run now. */
  lemma EnvironmentConstancy(w: World, r: RunId, k: OperatorKey)
    requires Reachable(w) && (r, k) in w.db.operators
    ensures r in w.db.runs
    ensures w.db.runs[r].mode.Real? ==> w.db.runs[r].proof.Some? && k.fingerprint == w.db.runs[r].proof
    ensures w.db.runs[r].mode.Real? && w.db.runs[r].status.EnvironmentReady? ==>
              forall s :: OpTask(r, k, s) in w.db.tasks && w.db.tasks[OpTask(r, k, s)].status.Pending? ==>
                DepsSucceeded(w.db, OpTask(r, k, s))
  {
    ReachableSound(w);
    LawfulIsInv(w.db, w.minted);
    assert PipelineAt(w.db, r, k) && EnvironmentAt(w.db, r);
  }

  lemma ClaimKeepsTables(db: Db, now: Time, minted: Token, s: Step)
    requires Lawful(db, minted) && s.ClaimStep? && ClaimArguments(s.worker, s.lease, s.limit)
    ensures var db' := ClaimReady(db, now, minted, s.worker, s.queue, s.lease, s.limit, s.dirs).value;
            db'.runs == db.runs && db'.operators == db.operators
  {
    var released := Released(db, now, false);
    assert Ordered(released) by {
      LawfulIsInv(db, minted);
      SameOrder(db, released);
    }
    ChosenClaimable(released, s.queue, s.limit);
    ClaimAllFrame(released, Chosen(released, s.queue, s.limit), s.worker, minted, now + s.lease, s.dirs);
  }

  /** Only the run operations write run rows. */
  lemma RunsUntouched(db: Db, now: Time, minted: Token, s: Step)
    requires Lawful(db, minted) && !RunStep(s) && Attempt(db, now, minted, s).Ok?
    ensures Attempt(db, now, minted, s).value.runs == db.runs
  {
    if s.ClaimStep? {
      ClaimKeepsTables(db, now, minted, s);
    }
  }

  lemma ModesFixed(w: World, m: Move, r: RunId)
    requires Sound(w) && r in w.db.runs
    ensures r in After(w, m).db.runs && After(w, m).db.runs[r].mode == w.db.runs[r].mode
  {
    if !RunStep(m.step) && Attempt(w.db, w.now + m.wait, w.minted, m.step).Ok? {
      RunsUntouched(w.db, w.now + m.wait, w.minted, m.step);
    }
  }

  lemma {:induction false} RunsPersist(w: World, moves: seq<Move>, r: RunId)
    requires Sound(w) && r in w.db.runs
    ensures r in Exec(w, moves).db.runs && Exec(w, moves).db.runs[r].mode == w.db.runs[r].mode
  {
    if moves != [] {
      var n := |moves| - 1;
      RunsPersist(w, moves[..n], r);
      SoundAfter(w, moves[..n]);
      ModesFixed(Exec(w, moves[..n]), moves[n], r);
    }
  }

  /** Once a real run has a contract its bound fingerprint never changes, through
      any later failed proofs and rebindings. */
  lemma FingerprintForever(w: World, moves: seq<Move>, r: RunId, k: OperatorKey)
    requires Reachable(w) && (r, k) in w.db.operators && r in w.db.runs && w.db.runs[r].mode.Real?
    ensures var w' := Exec(w, moves);
            && r in w'.db.runs && (r, k) in w'.db.operators && w'.db.runs[r].proof == w.db.runs[r].proof
  {
    ReachableSound(w);
    EnvironmentConstancy(w, r, k);
    PipelineShape(w, r, k);
    RowsPersist(w, moves, OpTask(r, k, Torch));
    RunsPersist(w, moves, r);
    var past :| w == Exec(START, past);
    ExecConcat(START, past, moves);
    PipelineShape(Exec(w, moves), r, k);
    EnvironmentConstancy(Exec(w, moves), r, k);
  }

  /** An operator row of a real run is claimed only while the run is ready and
      still bound to the fingerprint of its contract. */
  lemma ClaimedOnlyWhenReady(w: World, m: Move, id: TaskId)
    requires Reachable(w) && id in w.db.tasks && id.OpTask? && id.run in w.db.runs && w.db.runs[id.run].mode.Real?
    requires id in After(w, m).db.tasks && After(w, m).db.tasks[id].attempt != w.db.tasks[id].attempt
    ensures w.db.runs[id.run].status.EnvironmentReady? && w.db.runs[id.run].proof == id.key.fingerprint
    ensures id.key.fingerprint.Some?
  {
    ReachableSound(w);
    StepEvolves(w, m, id);
    LawfulIsInv(w.db, w.minted);
    assert PipelineAt(w.db, id.run, id.key) && EnvironmentAt(w.db, id.run);
  }

  // ---- accounting ----

  /** One when a running row was taken away without an outcome. */
  function Lost(before: Option<Task>, after: Option<Task>): nat {
    if before.Some? && before.value.status.Running? && after.Some?
       && (after.value.status.Pending? || (after.value.status.Running? && after.value.token != before.value.token))
    then 1 else 0
  }

  function LostBy(w: World, m: Move, id: TaskId): nat { Lost(Row(w.db, id), Row(After(w, m).db, id)) }

  function LostIn(w: World, moves: seq<Move>, id: TaskId): nat {
    if moves == [] then 0
    else
      LostIn(w, moves[..|moves| - 1], id) + LostBy(Exec(w, moves[..|moves| - 1]), moves[|moves| - 1], id)
  }

  function RunningNow(db: Db, id: TaskId): nat { if id in db.tasks && db.tasks[id].status.Running? then 1 else 0 }

  /** Claims less outcomes, losses and the claim still running. */
  function Balance(w: World, id: TaskId): int {
    var a := AccountOf(w.db.events, id);
    |a.attempts| - a.successes - a.failures - RunningNow(w.db, id)
  }

  lemma BalanceMoves(w: World, w': World, id: TaskId)
    requires Evolves(w, w', id) && LeaseAt(w.db, w.minted, id)
    ensures Balance(w', id) == Balance(w, id) + Lost(Row(w.db, id), Row(w'.db, id))
  {
    var c :| Follows(c, w, w', id);
  }

  lemma BalanceStep(w: World, m: Move, id: TaskId)
    requires Sound(w)
    ensures Balance(After(w, m), id) == Balance(w, id) + LostBy(w, m, id)
  {
    StepEvolves(w, m, id);
    assert LeaseAt(w.db, w.minted, id) by { LawfulIsInv(w.db, w.minted); }
    BalanceMoves(w, After(w, m), id);
  }

  lemma {:induction false} BalanceOver(moves: seq<Move>, id: TaskId)
    ensures Balance(Exec(START, moves), id) == LostIn(START, moves, id)
  {
    if moves != [] {
      var n := |moves| - 1;
      BalanceOver(moves[..n], id);
      EmptyInv();
      LawfulIsInv(EMPTY_DB, 0);
      SoundAfter(START, moves[..n]);
      BalanceStep(Exec(START, moves[..n]), moves[n], id);
    }
  }

  /** Attempt accounting for every row of every run: the claim events carry exactly
      the attempts 1..n, and each claim succeeded, failed, was lost or still runs. */
  lemma AttemptAccounting(moves: seq<Move>, id: TaskId)
    ensures var w := Exec(START, moves);
            var a := AccountOf(w.db.events, id);
            && a.attempts == OneTo(AttemptOf(w.db, id))
            && AttemptOf(w.db, id) == a.successes + a.failures + LostIn(START, moves, id) + RunningNow(w.db, id)
  {
    var w := Exec(START, moves);
    assert Reachable(w);
    ReachableSound(w);
    LawfulIsInv(w.db, w.minted);
    assert Accounted(w.db, id);
    BalanceOver(moves, id);
  }

  /** Failures of a row outnumber its applied retries by one exactly while it is failed. */
  lemma FailureConservation(w: World, id: TaskId)
    requires Reachable(w)
    ensures var a := AccountOf(w.db.events, id);
            a.failures - a.retries == if id in w.db.tasks && w.db.tasks[id].status.Failed? then 1 else 0
  {
    ReachableSound(w);
    LawfulIsInv(w.db, w.minted);
    assert Accounted(w.db, id);
  }

  /** The submission of a succeeded row names the worker of the claim at its current
      attempt: nothing is ever missing a producer, and the event fallback agrees. */
  lemma ProducerKnown(w: World, id: TaskId)
    requires Reachable(w) && StageSucceeded(w.db, id)
    ensures var t := w.db.tasks[id];
            && t.output.submission.Some? && t.output.submission.value.attempt == t.attempt
            && t.output.submission.value.worker != ""
            && Producer(w.db, id) == Some(t.output.submission.value.worker)
            && ClaimantAt(w.db.events, id, t.attempt) == Some(t.output.submission.value.worker)
            && ClaimCount(w.db.events, id) == t.attempt
  {
    ReachableSound(w);
    LawfulIsInv(w.db, w.minted);
    assert Accounted(w.db, id) && DiagnosedAt(w.db, id.run, id.key, id.stage);
    ClaimantOfLatest(w.db.events, id, w.db.tasks[id].attempt);
    AccountCounts(w.db.events, id);
  }

  // ---- diagnosis ----

  /** Diagnosis rows stay in step with the operator row they explain. */
  lemma DiagnosisInStep(w: World, r: RunId, k: OperatorKey, s: Stage)
    requires Reachable(w)
    ensures var o, d := OpTask(r, k, s), DiagTask(r, k, s);
            && (o in w.db.tasks && w.db.tasks[o].status.Failed? ==>
                  d in w.db.tasks && w.db.tasks[d].input.sourceAttempt == Some(w.db.tasks[o].attempt))
            && (d in w.db.tasks ==>
                  o in w.db.tasks && w.db.tasks[d].input.sourceTask == Some(o)
                    && w.db.tasks[d].input.sourceAttempt.Some?)
            && (o in w.db.tasks && w.db.tasks[o].status.Running? && d in w.db.tasks ==>
                  w.db.tasks[d].input.sourceAttempt.value < w.db.tasks[o].attempt
                  && w.db.tasks[d].status.Succeeded?)
  {
    ReachableSound(w);
    LawfulIsInv(w.db, w.minted);
    assert DiagnosedAt(w.db, r, k, s);
  }
}
