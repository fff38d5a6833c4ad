/** Which steps write operator contracts, and how long a contract lasts. */
module Contracts {
  import opened Base
  import opened SchedulerState
  import opened Transitions
  import opened Invariants
  import opened Claiming
  import opened Runs
  import opened Evolution
  import opened Safety

  lemma OutcomeKeepsContracts(w: World, m: Move)
    requires LeasedStep(m.step) || m.step.ApplyStep?
    ensures After(w, m).db.operators == w.db.operators
  {
  }

  lemma ReconcileKeepsContracts(w: World, m: Move)
    requires Sound(w) && m.step.ReconcileStep?
    ensures After(w, m).db.operators == w.db.operators
  {
    if m.step.run in w.db.runs { ReconcileOnlyLogs(w, m); }
  }

  lemma ClaimKeepsContracts(w: World, m: Move)
    requires Sound(w) && m.step.ClaimStep?
    ensures After(w, m).db.operators == w.db.operators
  {
    if ClaimArguments(m.step.worker, m.step.lease, m.step.limit) {
      ClaimKeepsTables(w.db, w.now + m.wait, w.minted, m.step);
    }
  }

  /** Discovery is the only step that writes contracts. */
  lemma OnlyDiscoveryWrites(w: World, m: Move)
    requires Sound(w) && !m.step.DiscoverStep?
    ensures After(w, m).db.operators == w.db.operators
  {
    var s := m.step;
    if LeasedStep(s) || s.ApplyStep? {
      OutcomeKeepsContracts(w, m);
    } else if s.ClaimStep? {
      ClaimKeepsContracts(w, m);
    } else if s.ReconcileStep? {
      ReconcileKeepsContracts(w, m);
    }
  }

  /** A discovery stores at most its own contract, and only under a free key. */
  lemma DiscoveryWritesOne(w: World, m: Move, x: (RunId, OperatorKey))
    requires m.step.DiscoverStep?
    ensures var db' := After(w, m).db;
            && (x in w.db.operators ==> x in db'.operators && db'.operators[x] == w.db.operators[x])
            && (x in db'.operators && x !in w.db.operators ==>
                  x == (m.step.run, m.step.spec.key) && db'.operators[x] == m.step.spec)
  {
  }

  /** Contracts are never renamed or removed, and rows never disappear. */
  ghost predicate Keeps(db: Db, db': Db) {
    && (forall x :: x in db.operators ==> x in db'.operators && db'.operators[x] == db.operators[x])
    && (forall id :: id in db.tasks ==> id in db'.tasks)
  }

  lemma KeepsOver(w: World, m: Move)
    requires Sound(w)
    ensures Keeps(w.db, After(w, m).db)
  {
    forall x | x in w.db.operators
      ensures x in After(w, m).db.operators && After(w, m).db.operators[x] == w.db.operators[x]
    {
      if m.step.DiscoverStep? { DiscoveryWritesOne(w, m, x); } else { OnlyDiscoveryWrites(w, m); }
    }
    forall id | id in w.db.tasks ensures id in After(w, m).db.tasks {
      StepEvolves(w, m, id);
      RowStays(w, After(w, m), id);
    }
  }

  lemma {:induction false} KeepsForever(w: World, moves: seq<Move>)
    requires Sound(w)
    ensures Keeps(w.db, Exec(w, moves).db) && Sound(Exec(w, moves))
  {
    SoundAfter(w, moves);
    if moves != [] {
      KeepsForever(w, moves[..|moves| - 1]);
      KeepsOver(Exec(w, moves[..|moves| - 1]), moves[|moves| - 1]);
    }
  }
}
