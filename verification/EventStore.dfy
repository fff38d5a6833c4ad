/** The SQLite store of engine/scheduler.py: the tables as the current connection
    sees them, and what a crash at this instant would leave behind. */
module DurableStore {
  import opened Base
  import opened SchedulerState
  import opened Transitions
  import opened Invariants
  import Transactions

  function StoreOperator(db: Db, r: RunId, spec: OperatorSpec): Db {
    if (r, spec.key) in db.operators then db else db.(operators := db.operators[(r, spec.key) := spec])
  }

  lemma InsertOrdered(db: Db, id: TaskId, task: Task)
    requires Ordered(db)
    ensures Ordered(Insert(db, id, task))
  {
    assert Listed(db, id);
    forall x ensures Listed(Insert(db, id, task), x) { assert Listed(db, x); }
  }

  type Connection = Transactions.Connection<Db>

  /** One statement that writes, at any depth: the transaction model's write. */
  function Wrote(c: Connection, effect: Db -> Db): Connection {
    Transactions.Step(c, Transactions.Do(effect))
  }

  /** One that writes and then calls `commit()`, which publishes nothing inside a
      transaction. */
  function WroteAndCommitted(c: Connection, effect: Db -> Db): Connection {
    Transactions.Step(Wrote(c, effect), Transactions.CommitCall)
  }

  lemma InsideNothingIsPublished(c: Connection, effect: Db -> Db)
    requires c.depth > 0
    ensures WroteAndCommitted(c, effect) == Wrote(c, effect)
    ensures Wrote(c, effect).committed == c.committed && Wrote(c, effect).depth == c.depth
  {
  }

  class EventStore {
    var runs: map<RunId, Run>
    var operators: map<(RunId, OperatorKey), OperatorSpec>
    var tasks: map<TaskId, Task>
    var order: seq<TaskId>
    var events: seq<Event>
    /** The database file: what the last commit published. */
    var committed: Db
    /** How many `transaction()` blocks are open. */
    var depth: nat

    function Working(): Db
      reads this
    {
      Db(runs, operators, tasks, order, events)
    }

    /** Row identities are unique, and outside every transaction nothing is left
        unpublished. */
    ghost predicate Valid()
      reads this
    {
      Ordered(Working()) && Ordered(committed) && (depth == 0 ==> committed == Working())
    }

    /** The connection as the transaction model sees it. */
    function View(): Connection
      reads this
    {
      Transactions.Connection(Working(), committed, depth)
    }

    constructor ()
      ensures Valid() && depth == 0 && committed == EMPTY_DB
    {
      runs, operators, tasks, order, events := map[], map[], map[], [], [];
      committed, depth := EMPTY_DB, 0;
      new;
      forall id ensures Listed(EMPTY_DB, id) {}
    }

    /** Entering `transaction()`: only the outermost level begins one. */
    method Enter()
      requires Valid()
      modifies `depth
      ensures Valid()
      ensures depth == old(depth) + 1
      ensures View() == Transactions.Step(old(View()), Transactions.Enter)
    {
      depth := depth + 1;
    }

    /** Leaving it: only the outermost level publishes, or rolls everything back. */
    method Leave(raised: bool)
      requires Valid() && depth > 0
      modifies this
      ensures Valid()
      ensures depth == old(depth) - 1
      ensures depth > 0 ==> Working() == old(Working()) && committed == old(committed)
      ensures depth == 0 && !raised ==> Working() == old(Working()) && committed == Working()
      ensures depth == 0 && raised ==> Working() == old(committed) && committed == old(committed)
      ensures View() == Transactions.Step(old(View()), Transactions.Leave(raised))
    {
      var outermost := depth == 1;
      if outermost && !raised {
        committed := Working();
      } else if outermost {
        runs, operators, tasks := committed.runs, committed.operators, committed.tasks;
        order, events := committed.order, committed.events;
      }
      depth := depth - 1;
    }

    /** `commit()` publishes nothing while a transaction is open. */
    method Commit()
      requires Ordered(Working()) && Ordered(committed)
      modifies `committed
      ensures Valid()
      ensures committed == if depth == 0 then Working() else old(committed)
      ensures View() == Transactions.Step(old(View()), Transactions.CommitCall)
    {
      if depth == 0 { committed := Working(); }
    }

    method AppendEvent(e: Event)
      requires Valid()
      modifies `events, `committed
      ensures Valid()
      ensures Working() == Emit(old(Working()), e)
      ensures View() == WroteAndCommitted(old(View()), (db: Db) => Emit(db, e))
      ensures committed == if depth == 0 then Working() else old(committed)
    {
      SameOrder(Working(), Emit(Working(), e));
      events := events + [e];
      Commit();
    }

    method AppendAll(batch: seq<Event>)
      requires Valid() && depth > 0
      modifies `events, `committed
      ensures Valid() && committed == old(committed)
      ensures Working() == old(Working()).(events := old(events) + batch)
    {
      for i := 0 to |batch|
        invariant Valid() && committed == old(committed)
        invariant Working() == old(Working()).(events := old(events) + batch[..i])
      {
        AppendEvent(batch[i]);
        assert old(events) + batch[..i] + [batch[i]] == old(events) + batch[..i + 1];
      }
      assert batch[..|batch|] == batch;
    }

    /** INSERT OR IGNORE, then what the table holds. */
    method SaveRun(r: RunId, run: Run) returns (saved: Run)
      requires Valid()
      modifies `runs, `committed
      ensures Valid()
      ensures Working() == if r in old(runs) then old(Working()) else PutRun(old(Working()), r, run)
      ensures r in runs && saved == runs[r]
      ensures View() == WroteAndCommitted(old(View()), (db: Db) => if r in db.runs then db else PutRun(db, r, run))
      ensures committed == if depth == 0 then Working() else old(committed)
    {
      SameOrder(Working(), PutRun(Working(), r, run));
      if r !in runs { runs := runs[r := run]; }
      Commit();
      saved := runs[r];
    }

    method UpdateRun(r: RunId, run: Run)
      requires Valid()
      modifies `runs, `committed
      ensures Valid()
      ensures Working() == if r in old(runs) then PutRun(old(Working()), r, run) else old(Working())
      ensures View() == WroteAndCommitted(old(View()), (db: Db) => if r in db.runs then PutRun(db, r, run) else db)
      ensures committed == if depth == 0 then Working() else old(committed)
    {
      SameOrder(Working(), PutRun(Working(), r, run));
      if r in runs { runs := runs[r := run]; }
      Commit();
    }

    method PutOperator(r: RunId, spec: OperatorSpec) returns (isNew: bool)
      requires Valid()
      modifies `operators, `committed
      ensures Valid()
      ensures isNew == ((r, spec.key) !in old(operators))
      ensures var was := old(Working());
              Working() == if isNew then was.(operators := was.operators[(r, spec.key) := spec]) else was
      ensures View() == WroteAndCommitted(old(View()), (db: Db) => StoreOperator(db, r, spec))
      ensures committed == if depth == 0 then Working() else old(committed)
    {
      isNew := (r, spec.key) !in operators;
      SameOrder(Working(), Working().(operators := operators[(r, spec.key) := spec]));
      if isNew { operators := operators[(r, spec.key) := spec]; }
      Commit();
    }

    method InsertTask(id: TaskId, task: Task) returns (inserted: bool)
      requires Valid()
      modifies `tasks, `order, `committed
      ensures Valid()
      ensures inserted == (id !in old(tasks))
      ensures Working() == Insert(old(Working()), id, task)
      ensures View() == WroteAndCommitted(old(View()), (db: Db) => Insert(db, id, task))
      ensures committed == if depth == 0 then Working() else old(committed)
    {
      inserted := id !in tasks;
      InsertOrdered(Working(), id, task);
      if inserted { tasks, order := tasks[id := task], order + [id]; }
      Commit();
    }

    /** UPDATE of one existing row. */
    method UpdateTask(id: TaskId, task: Task)
      requires Valid() && depth > 0 && id in tasks
      modifies `tasks
      ensures Valid()
      ensures Working() == Put(old(Working()), id, task)
      ensures View() == Wrote(old(View()), (db: Db) => Put(db, id, task))
    {
      SameOrder(Working(), Put(Working(), id, task));
      tasks := tasks[id := task];
    }

    /** The bulk UPDATE of `recover` and of the first statement of `claim_ready`. */
    method ReleaseOverdue(now: Time, force: bool)
      requires Valid() && depth > 0
      modifies `tasks
      ensures Valid()
      ensures Working() == Released(old(Working()), now, force)
      ensures View() == Wrote(old(View()), (db: Db) => Released(db, now, force))
    {
      SameOrder(Working(), Released(Working(), now, force));
      tasks := Released(Working(), now, force).tasks;
    }
  }
}
