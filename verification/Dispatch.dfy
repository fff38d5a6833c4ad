/** `dispatch` of engine/graph_bridge.py: measured operator entries become scheduler
    contracts, and every actionable gap must be covered by one. */
module Dispatch {
  import opened Base
  import opened SchedulerState
  import opened Transitions
  import opened Invariants
  import opened Runs
  import opened Safety
  import opened Contracts
  import opened Recoverability

  /** An entry of the operator report: what its checks would say, and the contract it
      describes when it describes one. */
  datatype Entry = NotAnEntry | Entry(waived: bool, reasoned: bool, identityHolds: bool, spec: Option<OperatorSpec>)
  datatype Gap = NotAGap | Gap(waived: bool, reasoned: bool, identifier: Option<string>)

  datatype DispatchState = DispatchBlocked | Dispatched | DispatchSkipped

  datatype DispatchError =
    | Environment | Unmapped | EntryRejected(index: nat) | Aliased(index: nat)
    | Undiscoverable(index: nat, why: Refusal) | GapMalformed(index: nat) | GapUnresolved(index: nat)

  /** A dispatch is no transaction: on other connections anything may happen before the
      alias guard of entry i, between that guard and the entry's discovery, and between
      the last entry and the validation of the report. */
  datatype Others = Others(before: nat -> seq<Move>, between: nat -> seq<Move>, last: seq<Move>)

  // ---- one contract ----

  /** The contract stored under the entry's key, if there is one, bears its name. */
  predicate Unaliased(db: Db, r: RunId, spec: OperatorSpec) {
    (r, spec.key) in db.operators ==> db.operators[(r, spec.key)].operatorId == spec.operatorId
  }

  /** There is one, and it does; and its first stage exists. */
  predicate Named(db: Db, r: RunId, spec: OperatorSpec) {
    (r, spec.key) in db.operators && Unaliased(db, r, spec) && OpTask(r, spec.key, Torch) in db.tasks
  }

  /** A stored contract of the run carries this name, and its first stage exists. */
  ghost predicate Resolved(db: Db, r: RunId, name: string) {
    exists spec: OperatorSpec :: spec.operatorId == name && Named(db, r, spec)
  }

  /** Move `m` stores the entry's key under another name. */
  predicate Overtakes(w: World, m: Move, r: RunId, spec: OperatorSpec) {
    (r, spec.key) !in w.db.operators && !Unaliased(After(w, m).db, r, spec)
  }

  predicate OvertakenAt(w: World, moves: seq<Move>, r: RunId, spec: OperatorSpec, j: int) {
    0 <= j < |moves| && Overtakes(Exec(w, moves[..j]), moves[j], r, spec)
  }

  ghost predicate Overtaken(w: World, moves: seq<Move>, r: RunId, spec: OperatorSpec) {
    exists j :: OvertakenAt(w, moves, r, spec, j)
  }

  /** Only the discovery of another operator with the same contract overtakes. */
  lemma OvertakenByDiscovery(w: World, m: Move, r: RunId, spec: OperatorSpec)
    requires Sound(w) && Overtakes(w, m, r, spec)
    ensures m.step.DiscoverStep? && m.step.run == r
    ensures m.step.spec.key == spec.key && m.step.spec.operatorId != spec.operatorId
  {
    if m.step.DiscoverStep? {
      DiscoveryWritesOne(w, m, (r, spec.key));
    } else {
      OnlyDiscoveryWrites(w, m);
    }
  }

  /** Once guarded, an entry meets an alias later exactly when some move in between
      stored its key under another name. */
  lemma {:induction false} AliasedExactly(w: World, moves: seq<Move>, r: RunId, spec: OperatorSpec)
    requires Sound(w) && Unaliased(w.db, r, spec)
    ensures Overtaken(w, moves, r, spec) <==> !Unaliased(Exec(w, moves).db, r, spec)
  {
    if moves != [] {
      var n := |moves| - 1;
      AliasedExactly(w, moves[..n], r, spec);
      KeepsForever(w, moves[..n]);
      KeepsOver(Exec(w, moves[..n]), moves[n]);
      OvertakenSnoc(w, moves, r, spec);
    }
  }

  lemma OvertakenSnoc(w: World, moves: seq<Move>, r: RunId, spec: OperatorSpec)
    requires moves != []
    ensures var n := |moves| - 1;
            Overtaken(w, moves, r, spec) <==>
              Overtaken(w, moves[..n], r, spec) || Overtakes(Exec(w, moves[..n]), moves[n], r, spec)
  {
    var n := |moves| - 1;
    forall j | 0 <= j < n ensures OvertakenAt(w, moves, r, spec, j) <==> OvertakenAt(w, moves[..n], r, spec, j) {
      assert moves[..n][..j] == moves[..j];
    }
    assert OvertakenAt(w, moves, r, spec, n) <==> Overtakes(Exec(w, moves[..n]), moves[n], r, spec);
  }

  // ---- the entries, one after the other ----

  predicate WellFormed(e: Entry) {
    e.Entry? && e.identityHolds && (if e.waived then e.reasoned else e.spec.Some?)
  }

  function GuardWorld(w: World, o: Others, i: nat): World { Exec(w, o.before(i)) }
  function DiscoveryWorld(w: World, o: Others, i: nat): World { Exec(GuardWorld(w, o, i), o.between(i)) }

  predicate Guarded(w: World, r: RunId, o: Others, i: nat, e: Entry) {
    WellFormed(e) && !e.waived && Unaliased(GuardWorld(w, o, i).db, r, e.spec.value)
  }

  /** The entry is well-formed and, unless waived with a reason, passes the alias guard
      and is discovered. */
  predicate EntryOk(w: World, r: RunId, o: Others, i: nat, e: Entry) {
    && WellFormed(e)
    && (!e.waived ==>
          Guarded(w, r, o, i, e) && DiscoverOperator(DiscoveryWorld(w, o, i).db, r, e.spec.value).Ok?)
  }

  function AfterEntry(w: World, r: RunId, o: Others, i: nat, e: Entry): World {
    if Guarded(w, r, o, i, e) then After(DiscoveryWorld(w, o, i), Move(0, DiscoverStep(r, e.spec.value)))
    else GuardWorld(w, o, i)
  }

  function AfterEntries(w: World, r: RunId, o: Others, entries: seq<Entry>): World {
    if entries == [] then w
    else
      var n := |entries| - 1;
      AfterEntry(AfterEntries(w, r, o, entries[..n]), r, o, n, entries[n])
  }

  /** Entry `i` contributed an operator. */
  predicate Accepted(w: World, r: RunId, o: Others, entries: seq<Entry>, i: int) {
    && 0 <= i < |entries| && EntryOk(AfterEntries(w, r, o, entries[..i]), r, o, i, entries[i]) && !entries[i].waived
  }

  /** Between the guard of entry `i` and its discovery, its key was stored under
      another name. */
  ghost predicate EntryOvertaken(w: World, r: RunId, o: Others, entries: seq<Entry>, i: nat)
    requires i < |entries| && entries[i].Entry? && entries[i].spec.Some?
  {
    Overtaken(GuardWorld(AfterEntries(w, r, o, entries[..i]), o, i), o.between(i), r, entries[i].spec.value)
  }

  /** Every entry was acceptable when its turn came. */
  predicate AllOk(w: World, r: RunId, o: Others, entries: seq<Entry>) {
    entries == [] ||
    (var n := |entries| - 1;
     AllOk(w, r, o, entries[..n]) && EntryOk(AfterEntries(w, r, o, entries[..n]), r, o, n, entries[n]))
  }

  /** The contracts of the accepted entries. */
  function SpecsOf(w: World, r: RunId, o: Others, entries: seq<Entry>): seq<OperatorSpec> {
    if entries == [] then []
    else
      var n := |entries| - 1;
      SpecsOf(w, r, o, entries[..n]) + (if Accepted(w, r, o, entries, n) then [entries[n].spec.value] else [])
  }

  function NamesOf(specs: seq<OperatorSpec>): set<string> { set s | s in specs :: s.operatorId }
  function TasksOf(r: RunId, specs: seq<OperatorSpec>): set<TaskId> { set s | s in specs :: OpTask(r, s.key, Torch) }

  // ---- what becomes of an accepted entry ----

  lemma EntryKeeps(w: World, r: RunId, o: Others, i: nat, e: Entry)
    requires Sound(w)
    ensures Keeps(w.db, AfterEntry(w, r, o, i, e).db) && Sound(AfterEntry(w, r, o, i, e))
  {
    var guard, found := GuardWorld(w, o, i), DiscoveryWorld(w, o, i);
    KeepsForever(w, o.before(i));
    KeepsForever(guard, o.between(i));
    if Guarded(w, r, o, i, e) {
      KeepsOver(found, Move(0, DiscoverStep(r, e.spec.value)));
      StepKeeps(found, Move(0, DiscoverStep(r, e.spec.value)));
    }
  }

  lemma {:induction false} EntriesKeep(w: World, r: RunId, o: Others, entries: seq<Entry>, i: nat)
    requires Sound(w) && i <= |entries|
    ensures Sound(AfterEntries(w, r, o, entries))
    ensures Keeps(AfterEntries(w, r, o, entries[..i]).db, AfterEntries(w, r, o, entries).db)
  {
    if i == |entries| {
      assert entries[..i] == entries;
      if entries != [] {
        EntriesKeep(w, r, o, entries[..i - 1], 0);
        EntryKeeps(AfterEntries(w, r, o, entries[..i - 1]), r, o, i - 1, entries[i - 1]);
      }
    } else {
      var n := |entries| - 1;
      assert entries[..n][..i] == entries[..i];
      EntriesKeep(w, r, o, entries[..n], i);
      EntryKeeps(AfterEntries(w, r, o, entries[..n]), r, o, n, entries[n]);
    }
  }

  lemma DiscoveredExactly(w: World, r: RunId, spec: OperatorSpec)
    requires DiscoverOperator(w.db, r, spec).Ok?
    ensures var db' := After(w, Move(0, DiscoverStep(r, spec))).db;
            && (r, spec.key) in db'.operators && OpTask(r, spec.key, Torch) in db'.tasks
            && (Unaliased(db', r, spec) <==> Unaliased(w.db, r, spec))
  {
  }

  lemma NameIsSettled(db: Db, db': Db, r: RunId, spec: OperatorSpec)
    requires Keeps(db, db') && (r, spec.key) in db.operators && OpTask(r, spec.key, Torch) in db.tasks
    ensures (r, spec.key) in db'.operators && OpTask(r, spec.key, Torch) in db'.tasks
    ensures Named(db', r, spec) <==> Unaliased(db, r, spec)
  {
  }

  /** An accepted entry is covered by a contract of its own name exactly when no move
      between its guard and its discovery stored its key under another name; and that
      is settled for good, whatever happens later. */
  lemma CoveredExactly(w: World, r: RunId, o: Others, entries: seq<Entry>, i: nat, later: seq<Move>)
    requires Sound(w) && Accepted(w, r, o, entries, i)
    ensures var final := Exec(AfterEntries(w, r, o, entries), later);
            Named(final.db, r, entries[i].spec.value) <==> !EntryOvertaken(w, r, o, entries, i)
    ensures OpTask(r, entries[i].spec.value.key, Torch) in Exec(AfterEntries(w, r, o, entries), later).db.tasks
  {
    var spec := entries[i].spec.value;
    var at := AfterEntries(w, r, o, entries[..i]);
    EntriesKeep(w, r, o, entries[..i], 0);
    KeepsForever(at, o.before(i));
    AliasedExactly(GuardWorld(at, o, i), o.between(i), r, spec);
    DiscoveredExactly(DiscoveryWorld(at, o, i), r, spec);
    assert entries[..i + 1][..i] == entries[..i];
    var found := AfterEntries(w, r, o, entries[..i + 1]);
    EntriesKeep(w, r, o, entries, i + 1);
    KeepsForever(AfterEntries(w, r, o, entries), later);
    NameIsSettled(found.db, AfterEntries(w, r, o, entries).db, r, spec);
    NameIsSettled(AfterEntries(w, r, o, entries).db, Exec(AfterEntries(w, r, o, entries), later).db, r, spec);
  }

  lemma {:induction false} SpecIsAccepted(w: World, r: RunId, o: Others, entries: seq<Entry>, spec: OperatorSpec)
    requires spec in SpecsOf(w, r, o, entries)
    ensures exists i :: Accepted(w, r, o, entries, i) && entries[i].spec == Some(spec)
  {
    var n := |entries| - 1;
    if Accepted(w, r, o, entries, n) && entries[n].spec == Some(spec) {
    } else {
      SpecIsAccepted(w, r, o, entries[..n], spec);
      var i :| Accepted(w, r, o, entries[..n], i) && entries[..n][i].spec == Some(spec);
      assert entries[..n][..i] == entries[..i];
      assert Accepted(w, r, o, entries, i);
    }
  }

  // ---- the code ----

  /** One entry: checks, the alias guard, then, on whatever the table has become,
      discovery. */
  method DispatchEntry(w: World, r: RunId, o: Others, index: nat, entry: Entry)
    returns (outcome: Outcome<Option<OperatorSpec>, DispatchError>, w': World)
    ensures outcome.Ok? <==> EntryOk(w, r, o, index, entry)
    ensures w' == AfterEntry(w, r, o, index, entry)
    ensures outcome.Ok? ==> outcome.value == if entry.waived then None else entry.spec
  {
    w' := Exec(w, o.before(index));
    if entry.NotAnEntry? || (entry.waived && !entry.reasoned) || !entry.identityHolds {
      return Err(EntryRejected(index)), w';
    }
    if entry.waived { return Ok(None), w'; }
    if entry.spec.None? { return Err(EntryRejected(index)), w'; }
    var spec := entry.spec.value;
    if (r, spec.key) in w'.db.operators && w'.db.operators[(r, spec.key)].operatorId != spec.operatorId {
      return Err(Aliased(index)), w';
    }
    w' := Exec(w', o.between(index));
    var discovered := DiscoverOperator(w'.db, r, spec);
    w' := After(w', Move(0, DiscoverStep(r, spec)));
    outcome := if discovered.Ok? then Ok(Some(spec)) else Err(Undiscoverable(index, discovered.error));
  }

  method DispatchEntries(w: World, r: RunId, o: Others, entries: seq<Entry>)
    returns (w': World, errors: seq<DispatchError>, specs: seq<OperatorSpec>)
    ensures w' == AfterEntries(w, r, o, entries)
    ensures errors == [] <==> AllOk(w, r, o, entries)
    ensures specs == SpecsOf(w, r, o, entries)
  {
    w', errors, specs := w, [], [];
    for i := 0 to |entries|
      invariant w' == AfterEntries(w, r, o, entries[..i])
      invariant errors == [] <==> AllOk(w, r, o, entries[..i])
      invariant specs == SpecsOf(w, r, o, entries[..i])
    {
      assert entries[..i + 1][..i] == entries[..i];
      var outcome;
      outcome, w' := DispatchEntry(w', r, o, i, entries[i]);
      match outcome {
        case Err(e) => errors := errors + [e];
        case Ok(None) =>
        case Ok(Some(spec)) => specs := specs + [spec];
      }
    }
    assert entries[..|entries|] == entries;
  }

  /** A gap nobody waived with a reason needs an operator. */
  predicate Actionable(g: Gap) { g.Gap? && !(g.waived && g.reasoned) }

  predicate GapMet(g: Gap, resolved: set<string>) {
    g.Gap? && (Actionable(g) ==> g.identifier.Some? && g.identifier.value in resolved)
  }

  method CheckGaps(gaps: seq<Gap>, resolved: set<string>) returns (errors: seq<DispatchError>)
    ensures errors == [] <==> forall i :: 0 <= i < |gaps| ==> GapMet(gaps[i], resolved)
  {
    errors := [];
    for i := 0 to |gaps|
      invariant errors == [] <==> forall j :: 0 <= j < i ==> GapMet(gaps[j], resolved)
    {
      var gap := gaps[i];
      if gap.NotAGap? {
        errors := errors + [GapMalformed(i)];
      } else if gap.waived && gap.reasoned {
      } else if gap.identifier.None? || gap.identifier.value !in resolved {
        errors := errors + [GapUnresolved(i)];
      }
    }
  }

  /** `validate_dispatch` of a report without errors, against the database as it is
      by then: the run is bound, ready and still under the reported fingerprint, the
      named rows are first stages of the run, and the source reports are unchanged. */
  predicate Validates(db: Db, r: RunId, fingerprint: Option<Fingerprint>, tasks: set<TaskId>, reportsIntact: bool) {
    && r in db.runs && db.runs[r].graphRequired && db.runs[r].status.EnvironmentReady?
    && db.runs[r].proof == fingerprint && reportsIntact
    && forall id :: id in tasks ==> id in db.tasks && id.run == r && id.OpTask? && id.stage.Torch?
  }

  function FingerprintOf(db: Db, r: RunId): Option<Fingerprint> { if r in db.runs then db.runs[r].proof else None }

  /** `dispatch`.  The environment is checked twice, before the reports are read and
      before the entries are turned into operators; `ready` and `stillReady` are the
      two answers. */
  method DispatchReport(w: World, r: RunId, o: Others, ready: bool, stillReady: bool, unmapped: bool,
                        reportsIntact: bool, entries: seq<Entry>, gaps: seq<Gap>)
    returns (state: DispatchState, errors: seq<DispatchError>, w': World, specs: seq<OperatorSpec>)
    ensures var dispatched := if stillReady then AfterEntries(w, r, o, entries) else w;
            && w' == Exec(dispatched, o.last)
            && specs == (if stillReady then SpecsOf(w, r, o, entries) else [])
            && (errors == [] <==>
                  && ready && !unmapped && (stillReady ==> AllOk(w, r, o, entries))
                  && forall i :: 0 <= i < |gaps| ==> GapMet(gaps[i], NamesOf(specs)))
            && (!state.DispatchBlocked? <==>
                  && errors == [] && reportsIntact
                  && r in w'.db.runs && w'.db.runs[r].graphRequired && w'.db.runs[r].status == EnvironmentReady
                  && w'.db.runs[r].proof == (if r in dispatched.db.runs then dispatched.db.runs[r].proof else None)
                  && forall s :: s in specs ==> OpTask(r, s.key, Torch) in w'.db.tasks)
            && (state.DispatchSkipped? <==> !state.DispatchBlocked? && specs == [])
  {
    errors, w', specs := [], w, [];
    if !ready { errors := errors + [Environment]; }
    if unmapped { errors := errors + [Unmapped]; }
    if stillReady {
      var entryErrors;
      w', entryErrors, specs := DispatchEntries(w, r, o, entries);
      errors := errors + entryErrors;
    }
    var gapErrors := CheckGaps(gaps, NamesOf(specs));
    errors := errors + gapErrors;
    var fingerprint := FingerprintOf(w'.db, r);
    state := if errors != [] then DispatchBlocked else if specs != [] then Dispatched else DispatchSkipped;
    w' := Exec(w', o.last);
    if !Validates(w'.db, r, fingerprint, TasksOf(r, specs), reportsIntact) { state := DispatchBlocked; }
  }

  // ---- what a dispatch that is not blocked promises ----

  /** Entry `i` is one that answers the gap. */
  predicate Answers(w: World, r: RunId, o: Others, entries: seq<Entry>, g: Gap, i: int) {
    Accepted(w, r, o, entries, i) && g.Gap? && g.identifier == Some(entries[i].spec.value.operatorId)
  }

  ghost predicate CoveredUnlessOvertaken(w: World, r: RunId, o: Others, entries: seq<Entry>, i: nat, final: World)
    requires i < |entries| && entries[i].Entry? && entries[i].spec.Some?
  {
    Named(final.db, r, entries[i].spec.value) <==> !EntryOvertaken(w, r, o, entries, i)
  }

  /** Every gap a dispatch met was answered by an accepted entry.  The gap is covered by
      that entry's contract, for good, exactly when the entry was not overtaken. */
  lemma GapCoverage(w: World, r: RunId, o: Others, entries: seq<Entry>, g: Gap, later: seq<Move>)
    requires Sound(w) && GapMet(g, NamesOf(SpecsOf(w, r, o, entries))) && Actionable(g)
    ensures exists i :: Answers(w, r, o, entries, g, i)
    ensures var final := Exec(AfterEntries(w, r, o, entries), later);
            forall i :: Answers(w, r, o, entries, g, i) ==> CoveredUnlessOvertaken(w, r, o, entries, i, final)
  {
    var spec :| spec in SpecsOf(w, r, o, entries) && Some(spec.operatorId) == g.identifier;
    SpecIsAccepted(w, r, o, entries, spec);
    var i :| Accepted(w, r, o, entries, i) && entries[i].spec == Some(spec);
    assert Answers(w, r, o, entries, g, i);
    var final := Exec(AfterEntries(w, r, o, entries), later);
    forall i | Answers(w, r, o, entries, g, i) ensures CoveredUnlessOvertaken(w, r, o, entries, i, final) {
      CoveredExactly(w, r, o, entries, i, later);
    }
  }

  /** The promise in one piece: if nobody overtook an entry, every actionable gap of an
      accepted dispatch is covered by a stored contract of that very name, at the end of
      the dispatch and in every later state. */
  lemma DispatchCovers(w: World, r: RunId, o: Others, entries: seq<Entry>, g: Gap, later: seq<Move>)
    requires Sound(w) && GapMet(g, NamesOf(SpecsOf(w, r, o, entries))) && Actionable(g)
    requires forall i :: Accepted(w, r, o, entries, i) ==> !EntryOvertaken(w, r, o, entries, i)
    ensures Resolved(Exec(AfterEntries(w, r, o, entries), later).db, r, g.identifier.value)
  {
    GapCoverage(w, r, o, entries, g, later);
    var i :| Answers(w, r, o, entries, g, i);
    assert Named(Exec(AfterEntries(w, r, o, entries), later).db, r, entries[i].spec.value);
  }

  /** The rows a dispatch reports always pass the validator. */
  lemma ReportedRowsValidate(w: World, r: RunId, o: Others, entries: seq<Entry>, later: seq<Move>, id: TaskId)
    requires Sound(w) && id in TasksOf(r, SpecsOf(w, r, o, entries))
    ensures id in Exec(AfterEntries(w, r, o, entries), later).db.tasks && id.run == r && id.OpTask? && id.stage.Torch?
  {
    var spec :| spec in SpecsOf(w, r, o, entries) && id == OpTask(r, spec.key, Torch);
    SpecIsAccepted(w, r, o, entries, spec);
    var i :| Accepted(w, r, o, entries, i) && entries[i].spec == Some(spec);
    CoveredExactly(w, r, o, entries, i, later);
  }

  // ---- the unguarded interval is real ----

  /** On another connection, `a` is discovered between the guard of the one entry,
      `b`, and its discovery. */
  function Race(r: RunId, a: OperatorSpec): Others { Others(i => [], i => [Move(0, DiscoverStep(r, a))], []) }
  function Lone(b: OperatorSpec): seq<Entry> { [Entry(false, false, true, Some(b))] }

  lemma RaceWorlds(w: World, r: RunId, a: OperatorSpec, b: OperatorSpec)
    ensures var mid := After(w, Move(0, DiscoverStep(r, a)));
            && AfterEntries(w, r, Race(r, a), Lone(b)[..0]) == w
            && GuardWorld(w, Race(r, a), 0) == w && DiscoveryWorld(w, Race(r, a), 0) == mid
            && (Unaliased(w.db, r, b) ==>
                  AfterEntries(w, r, Race(r, a), Lone(b)) == After(mid, Move(0, DiscoverStep(r, b))))
  {
    ExecOne(w, Move(0, DiscoverStep(r, a)));
    assert Lone(b)[..0] == [];
  }

  /** Discovering `a` and then `b` under one key leaves `a`'s name and no `b`. */
  lemma SecondNameIsLost(w: World, r: RunId, a: OperatorSpec, b: OperatorSpec)
    requires a.key == b.key && a.operatorId != b.operatorId && (r, a.key) !in w.db.operators
    requires DiscoverOperator(w.db, r, a).Ok?
    requires !Resolved(w.db, r, b.operatorId)
    requires forall k :: (r, k) in w.db.operators ==> OpTask(r, k, Torch) in w.db.tasks
    ensures var mid := After(w, Move(0, DiscoverStep(r, a)));
            && DiscoverOperator(mid.db, r, b).Ok?
            && !Resolved(After(mid, Move(0, DiscoverStep(r, b))).db, r, b.operatorId)
  {
    var first, second := Move(0, DiscoverStep(r, a)), Move(0, DiscoverStep(r, b));
    var mid := After(w, first);
    var last := After(mid, second);
    forall spec: OperatorSpec | spec.operatorId == b.operatorId ensures !Named(last.db, r, spec) {
      DiscoveryWritesOne(w, first, (r, spec.key));
      DiscoveryWritesOne(mid, second, (r, spec.key));
      assert !Named(w.db, r, spec);
    }
  }

  /** The input on which the promise fails: `a` and `b` share a contract but not a name,
      neither is stored, and `a` is discovered in between.  The dispatch of `b` reports
      no error and meets its gap, yet no contract of that name exists afterwards. */
  lemma OvertakenDispatchLeavesGap(w: World, r: RunId, a: OperatorSpec, b: OperatorSpec)
    requires Sound(w) && a.key == b.key && a.operatorId != b.operatorId && (r, a.key) !in w.db.operators
    requires DiscoverOperator(w.db, r, a).Ok? && !Resolved(w.db, r, b.operatorId)
    ensures AllOk(w, r, Race(r, a), Lone(b))
    ensures GapMet(Gap(false, false, Some(b.operatorId)), NamesOf(SpecsOf(w, r, Race(r, a), Lone(b))))
    ensures !Resolved(AfterEntries(w, r, Race(r, a), Lone(b)).db, r, b.operatorId)
  {
    RaceWorlds(w, r, a, b);
    forall k | (r, k) in w.db.operators ensures OpTask(r, k, Torch) in w.db.tasks {
      LawfulIsInv(w.db, w.minted);
      assert PipelineAt(w.db, r, k);
    }
    SecondNameIsLost(w, r, a, b);
    assert Accepted(w, r, Race(r, a), Lone(b), 0);
    assert SpecsOf(w, r, Race(r, a), Lone(b)[..0]) == [];
    assert b in SpecsOf(w, r, Race(r, a), Lone(b));
  }

  /** A run that was just created and bound to an environment. */
  function BoundWorld(r: RunId, run: Run, fingerprint: Fingerprint): World {
    After(After(START, Move(0, CreateRunStep(r, run))), Move(0, BindStep(r, Real, true, fingerprint)))
  }

  lemma BoundTables(r: RunId, run: Run, fingerprint: Fingerprint)
    requires run.mode.Real? && run.proof.None?
    ensures var w := BoundWorld(r, run, fingerprint);
            && Reachable(w) && r in w.db.runs && w.db.operators == map[]
            && w.db.runs[r].status.EnvironmentReady? && w.db.runs[r].proof == Some(fingerprint)
            && w.db.runs[r].model == run.model && w.db.runs[r].backend == run.backend
  {
    var create, bind := Move(0, CreateRunStep(r, run)), Move(0, BindStep(r, Real, true, fingerprint));
    ExecTwo(START, create, bind);
    assert BoundWorld(r, run, fingerprint) == Exec(START, [create, bind]);
  }

  /** Such inputs are reached: in every freshly bound run, for any contract and any two
      names. */
  lemma OvertakingIsReachable(r: RunId, run: Run, fingerprint: Fingerprint, contract: string, a: string, b: string)
    requires run.mode.Real? && run.proof.None? && a != b
    ensures var w := BoundWorld(r, run, fingerprint);
            var key := OperatorKey(run.model, run.backend, Some(fingerprint), contract);
            var first, second := OperatorSpec(a, "", key), OperatorSpec(b, "", key);
            && Reachable(w) && AllOk(w, r, Race(r, first), Lone(second))
            && !Resolved(AfterEntries(w, r, Race(r, first), Lone(second)).db, r, b)
  {
    BoundTables(r, run, fingerprint);
    var w := BoundWorld(r, run, fingerprint);
    var key := OperatorKey(run.model, run.backend, Some(fingerprint), contract);
    ReachableSound(w);
    OvertakenDispatchLeavesGap(w, r, OperatorSpec(a, "", key), OperatorSpec(b, "", key));
  }
}
