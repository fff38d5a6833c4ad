/** The walk of runners/graph_runner.py: visits, edges, reuse and recovery. */
module GraphWalk {
  import opened Base
  import opened Journal
  import Recovery

  type NodeId = string

  /** A workflow node as the walk reads it. */
  datatype FlowNode = FlowNode(contracted: bool, onSuccess: Option<NodeId>, onFailure: Option<NodeId>)
  type Graph = map<NodeId, FlowNode>

  datatype Options = Options(
    execute: bool, resume: bool, autoRecover: bool, budget: nat, bridged: bool, untilNode: Option<NodeId>)

  /** What one visit finds: arbitrary answers of the Skill registry, the Journal, the
      node's commands and its own validator, the scheduler bridge and the brain. */
  datatype Situation = Situation(
    skillResolved: bool, manual: bool, produces: Option<Kind>, prior: bool, inputsResolved: bool,
    commandsBound: bool, passed: bool, state: string, shimDispatch: Option<bool>, bound: bool,
    outside: Recovery.Outside)

  datatype How =
    | Refused | Reused | Planned | Interrupted | Passed
    | Recovered(history: Recovery.History) | Failed(history: Recovery.History)
  datatype Edge = SuccessEdge | FailureEdge | Halt
  datatype Visit = Visit(node: NodeId, how: How, edge: Edge)

  datatype Ending =
    | NoContract(next: NodeId) | TooManyVisits(next: NodeId)
    | Stopped | UntilReached | Terminal(name: Option<NodeId>) | Delivery

  /** How often the node's commands were started during one visit. */
  function Runs(how: How): nat {
    match how
    case Refused => 0
    case Reused => 0
    case Planned => 0
    case Interrupted => 1
    case Passed => 1
    case Recovered(h) => 1 + Recovery.Reruns(h)
    case Failed(h) => 1 + Recovery.Reruns(h)
  }

  /** `on_failure` defaults to a name that normally is no node. */
  function Target(g: Graph, id: NodeId, edge: Edge): Option<NodeId>
    requires id in g
  {
    match edge
    case SuccessEdge => g[id].onSuccess
    case FailureEdge => Some(g[id].onFailure.GetOr("NEEDS_HUMAN"))
    case Halt => None
  }

  /** The node can be attempted at all. */
  predicate Attemptable(s: Situation) { s.skillResolved && !s.manual && s.produces.Some? }

  /** Outcomes of a node that stop the walk instead of choosing an edge. */
  predicate Interrupts(s: Situation, o: Options)
    requires s.produces.Some?
  {
    var kind := s.produces.value;
    || (o.bridged && kind == TorchShimRegistry && s.shimDispatch == Some(false))
    || (o.bridged && (kind == OperatorTaskDispatch || kind == OperatorIntegration) && !s.passed)
    || (kind == EnvironmentProof && (!s.passed || !s.bound))
    || (kind == FailureTriage && s.state == "NEEDS_HUMAN")
  }

  /** Neither reused nor refused: the node's commands are prepared. */
  predicate Prepared(s: Situation, o: Options) { Attemptable(s) && !(o.resume && s.prior) && s.inputsResolved }

  /** Its commands ran and their outcome chooses an edge. */
  predicate Decided(s: Situation, o: Options) { Prepared(s, o) && o.execute && s.commandsBound && !Interrupts(s, o) }

  /** Why the walk left a node the way it did.  In execute mode the success edge needs
      a pass of the node itself, a reused fact, or a recovery whose last rerun passed;
      the failure edge needs a failed node that was not recovered. */
  ghost predicate Justified(s: Situation, v: Visit, o: Options) {
    match v.how
    case Refused => v.edge == Halt && (!Attemptable(s) || (!(o.resume && s.prior) && !s.inputsResolved))
    case Reused => v.edge == SuccessEdge && Attemptable(s) && o.resume && s.prior
    case Planned => v.edge == SuccessEdge && !o.execute && Prepared(s, o)
    case Interrupted => v.edge == Halt && o.execute && Prepared(s, o) && (!s.commandsBound || Interrupts(s, o))
    case Passed => v.edge == SuccessEdge && Decided(s, o) && s.passed
    case Recovered(h) =>
      && v.edge == SuccessEdge && Decided(s, o) && !s.passed && o.autoRecover
      && Recovery.Finished(s.outside, o.budget, h) && Recovery.Recovered(h)
    case Failed(h) =>
      && v.edge == FailureEdge && Decided(s, o) && !s.passed && !Recovery.Recovered(h)
      && (if o.autoRecover then Recovery.Finished(s.outside, o.budget, h) else h == [])
  }

  /** The situation leaves no choice. */
  lemma OneWayOut(s: Situation, a: Visit, b: Visit, o: Options)
    requires Justified(s, a, o) && Justified(s, b, o) && a.node == b.node
    ensures a == b
  {
    if o.autoRecover && (a.how.Recovered? || a.how.Failed?) && (b.how.Recovered? || b.how.Failed?) {
      Recovery.FinishedIsUnique(s.outside, o.budget, a.how.history, b.how.history);
    }
  }

  type World = (seq<Visit>, NodeId) -> Situation

  ghost predicate JustifiedAt(world: World, o: Options, trace: seq<Visit>, i: int) {
    0 <= i < |trace| ==> Justified(world(trace[..i], trace[i].node), trace[i], o)
  }

  /** The node passed, stood already, was only planned, or was recovered. */
  predicate LeftWell(how: How) { how.Passed? || how.Reused? || how.Planned? || how.Recovered? }

  /** After `v` the walk goes on at `next`: where `on_success` leads if the node was left
      well and was not the last one asked for, where `on_failure` leads if it failed. */
  predicate GoesOn(g: Graph, o: Options, v: Visit, next: NodeId) {
    && v.node in g && next in g
    && (|| ( && LeftWell(v.how) && g[v.node].onSuccess == Some(next) && o.untilNode != Some(v.node)
             && !(o.bridged && o.execute && v.how.Reused? && next == "DELIVERED"))
        || ( && v.how.Failed?
             && (g[v.node].onFailure == Some(next) || (g[v.node].onFailure == None && next == "NEEDS_HUMAN"))))
  }

  /** Where the walk stands after `trace`. */
  predicate At(g: Graph, o: Options, start: NodeId, trace: seq<Visit>, current: NodeId) {
    if trace == [] then current == start else GoesOn(g, o, trace[|trace| - 1], current)
  }

  function VisitsTo(trace: seq<Visit>, id: NodeId): nat {
    if trace == [] then 0
    else VisitsTo(trace[..|trace| - 1], id) + (if trace[|trace| - 1].node == id then 1 else 0)
  }

  ghost predicate WellWalked(g: Graph, o: Options, start: NodeId, world: World, trace: seq<Visit>) {
    && (trace != [] ==> trace[0].node == start)
    && (forall i :: 0 <= i < |trace| ==> trace[i].node in g)
    && (forall i :: JustifiedAt(world, o, trace, i))
    && (forall i :: 0 <= i < |trace| - 1 ==> GoesOn(g, o, trace[i], trace[i + 1].node))
  }

  // ---- one visit ----

  /** The node's commands ran; decide which way to leave it. */
  method Leave(s: Situation, o: Options) returns (how: How, edge: Edge)
    requires o.execute && s.commandsBound && Prepared(s, o) && (o.autoRecover ==> o.budget >= 1)
    ensures forall id :: Justified(s, Visit(id, how, edge), o)
  {
    var kind := s.produces.value;
    if o.bridged && kind == TorchShimRegistry && s.shimDispatch == Some(false) { return Interrupted, Halt; }
    if o.bridged && (kind == OperatorTaskDispatch || kind == OperatorIntegration) && !s.passed {
      return Interrupted, Halt;
    }
    if kind == EnvironmentProof && !s.passed { return Interrupted, Halt; }
    if kind == FailureTriage && s.state == "NEEDS_HUMAN" { return Interrupted, Halt; }
    if !s.passed {
      var history := [];
      var recovered := false;
      if o.autoRecover {
        var controller := new Recovery.RecoveryController(s.outside, o.budget);
        var outcome := controller.Recover(s.state);
        history, recovered := outcome.attempts, outcome.recovered;
      }
      if !recovered { return Failed(history), FailureEdge; }
      return Recovered(history), SuccessEdge;
    }
    if kind == EnvironmentProof && !s.bound { return Interrupted, Halt; }
    return Passed, SuccessEdge;
  }

  method VisitNode(s: Situation, o: Options) returns (how: How, edge: Edge)
    requires o.autoRecover ==> o.budget >= 1
    ensures forall id :: Justified(s, Visit(id, how, edge), o)
  {
    if !s.skillResolved || s.manual || s.produces.None? { return Refused, Halt; }
    if o.resume && s.prior { return Reused, SuccessEdge; }
    if !s.inputsResolved { return Refused, Halt; }
    if !o.execute { return Planned, SuccessEdge; }
    if !s.commandsBound { return Interrupted, Halt; }
    how, edge := Leave(s, o);
  }

  // ---- the walk ----

  type Slot = (NodeId, nat)

  /** The visits the guard still allows. */
  function SlotsLeft(g: Graph, visits: map<NodeId, nat>): set<Slot> {
    set id, k | id in g.Keys && k in {1, 2, 3} && (id in visits ==> visits[id] < k) :: (id, k)
  }

  lemma SlotSpent(g: Graph, visits: map<NodeId, nat>, id: NodeId)
    requires id in g && (id in visits ==> visits[id] < 3)
    ensures var k := (if id in visits then visits[id] else 0) + 1;
            |SlotsLeft(g, visits[id := k])| < |SlotsLeft(g, visits)|
  {
    var k := (if id in visits then visits[id] else 0) + 1;
    var before, after := SlotsLeft(g, visits), SlotsLeft(g, visits[id := k]);
    assert (id, k) in before && (id, k) !in after;
    assert after <= before;
    assert after < before;
    SmallerSet(after, before);
  }

  lemma SmallerSet(a: set<Slot>, b: set<Slot>)
    requires a < b
    ensures |a| < |b|
  {
    assert b == a + (b - a);
  }

  /** What each ending says about the walk that led to it. */
  ghost predicate Concludes(g: Graph, o: Options, start: NodeId, trace: seq<Visit>, ending: Ending) {
    match ending
    case NoContract(next) => At(g, o, start, trace, next) && (next !in g || !g[next].contracted)
    case TooManyVisits(next) => trace != [] && At(g, o, start, trace, next) && VisitsTo(trace, next) == 3
    case _ => trace != [] && EndsOn(g, o, trace[|trace| - 1], ending)
  }

  /** How a walk ends on its last visit. */
  predicate EndsOn(g: Graph, o: Options, v: Visit, ending: Ending) {
    && v.node in g
    && match ending
       case Stopped => v.how.Refused? || v.how.Interrupted?
       case UntilReached => LeftWell(v.how) && o.untilNode == Some(v.node)
       case Delivery =>
         && LeftWell(v.how) && o.untilNode != Some(v.node) && o.bridged && o.execute
         && g[v.node].onSuccess == Some("DELIVERED") && (v.how.Reused? || "DELIVERED" !in g)
       case Terminal(name) =>
         && (name.Some? ==> name.value !in g)
         && (|| (v.how.Failed? && name == Some(g[v.node].onFailure.GetOr("NEEDS_HUMAN")))
             || ( && LeftWell(v.how) && name == g[v.node].onSuccess && o.untilNode != Some(v.node)
                  && !(o.bridged && o.execute && name == Some("DELIVERED"))))
       case _ => false
  }

  /** The edge a justified visit takes follows from how it went. */
  lemma EdgeOfVisit(s: Situation, v: Visit, o: Options)
    requires Justified(s, v, o)
    ensures v.edge == if LeftWell(v.how) then SuccessEdge else if v.how.Failed? then FailureEdge else Halt
  {
  }

  /** After a visit: the ending it brings, or none when the walk goes on. */
  method AfterVisit(g: Graph, o: Options, v: Visit) returns (ending: Option<Ending>)
    requires v.node in g
    requires v.edge == if LeftWell(v.how) then SuccessEdge else if v.how.Failed? then FailureEdge else Halt
    ensures ending.Some? ==> EndsOn(g, o, v, ending.value)
    ensures ending.None? ==>
              && v.edge != Halt && Target(g, v.node, v.edge).Some?
              && GoesOn(g, o, v, Target(g, v.node, v.edge).value)
  {
    if v.edge.Halt? { return Some(Stopped); }
    if v.edge.SuccessEdge? && o.untilNode == Some(v.node) { return Some(UntilReached); }
    var target := Target(g, v.node, v.edge);
    if v.edge.SuccessEdge? && o.bridged && o.execute && target == Some("DELIVERED")
       && (v.how.Reused? || "DELIVERED" !in g) {
      return Some(Delivery);
    }
    if target.None? || target.value !in g { return Some(Terminal(target)); }
    return None;
  }

  /** A visit leaves no choice: it ends the walk in one way, or the walk goes on at one
      node, and one of the two is the case. */
  lemma OneWayOn(g: Graph, o: Options, v: Visit, a: Ending, b: Ending, x: NodeId, y: NodeId)
    requires v.node in g
    ensures EndsOn(g, o, v, a) && EndsOn(g, o, v, b) ==> a == b
    ensures GoesOn(g, o, v, x) && GoesOn(g, o, v, y) ==> x == y
    ensures !(EndsOn(g, o, v, a) && GoesOn(g, o, v, x))
  {
  }

  ghost predicate Counted(trace: seq<Visit>, visits: map<NodeId, nat>) {
    forall id :: CountedAt(trace, visits, id)
  }

  predicate CountedAt(trace: seq<Visit>, visits: map<NodeId, nat>, id: NodeId) {
    VisitsTo(trace, id) == (if id in visits then visits[id] else 0) && VisitsTo(trace, id) <= 3
  }

  lemma Longer(g: Graph, o: Options, start: NodeId, world: World, trace: seq<Visit>, v: Visit)
    requires WellWalked(g, o, start, world, trace) && v.node in g && Justified(world(trace, v.node), v, o)
    requires At(g, o, start, trace, v.node)
    ensures WellWalked(g, o, start, world, trace + [v])
  {
    forall i ensures JustifiedAt(world, o, trace + [v], i) {
      assert JustifiedAt(world, o, trace, i);
      assert 0 <= i <= |trace| ==> (trace + [v])[..i] == trace[..i];
      assert trace[..|trace|] == trace;
    }
  }

  lemma CountedOnce(trace: seq<Visit>, visits: map<NodeId, nat>, v: Visit)
    requires Counted(trace, visits) && VisitsTo(trace, v.node) < 3
    ensures Counted(trace + [v], visits[v.node := VisitsTo(trace, v.node) + 1])
  {
    assert (trace + [v])[..|trace|] == trace;
    var visits' := visits[v.node := VisitsTo(trace, v.node) + 1];
    forall id ensures CountedAt(trace + [v], visits', id) {
      assert CountedAt(trace, visits, id);
    }
  }

  /** What stays the same while one walk runs. */
  datatype Walk = Walk(graph: Graph, options: Options, start: NodeId, world: World)

  datatype WalkFact = Sound | Here | Tallied

  ghost predicate Upholds(fact: WalkFact, k: Walk, trace: seq<Visit>, visits: map<NodeId, nat>, current: NodeId) {
    match fact
    case Sound => WellWalked(k.graph, k.options, k.start, k.world, trace)
    case Here => At(k.graph, k.options, k.start, trace, current)
    case Tallied => Counted(trace, visits)
  }

  /** The loop between two visits: `trace` was walked and `current` is next. */
  ghost predicate Underway(k: Walk, trace: seq<Visit>, visits: map<NodeId, nat>, current: NodeId) {
    forall fact :: Upholds(fact, k, trace, visits, current)
  }

  /** What a walk guarantees whenever it ends. */
  ghost predicate Walked(k: Walk, trace: seq<Visit>) {
    WellWalked(k.graph, k.options, k.start, k.world, trace) && forall id :: VisitsTo(trace, id) <= 3
  }

  lemma WalkBegins(k: Walk)
    ensures Underway(k, [], map[], k.start)
  {
    forall id ensures CountedAt([], map[], id) {}
  }

  /** The walk may end before the next visit. */
  lemma WalkPauses(k: Walk, trace: seq<Visit>, visits: map<NodeId, nat>, current: NodeId)
    requires Underway(k, trace, visits, current)
    ensures Walked(k, trace) && At(k.graph, k.options, k.start, trace, current)
    ensures VisitsTo(trace, current) == (if current in visits then visits[current] else 0)
  {
    assert Upholds(Sound, k, trace, visits, current) && Upholds(Here, k, trace, visits, current);
    assert Upholds(Tallied, k, trace, visits, current);
    forall id ensures VisitsTo(trace, id) <= 3 { assert CountedAt(trace, visits, id); }
    assert CountedAt(trace, visits, current);
  }

  /** One visit: the walk may end after it, or go on where its edge leads. */
  lemma WalkTurn(k: Walk, trace: seq<Visit>, visits: map<NodeId, nat>, v: Visit)
    requires Underway(k, trace, visits, v.node) && v.node in k.graph
    requires VisitsTo(trace, v.node) < 3 && Justified(k.world(trace, v.node), v, k.options)
    ensures Walked(k, trace + [v])
    ensures forall next :: GoesOn(k.graph, k.options, v, next) ==>
              Underway(k, trace + [v], visits[v.node := VisitsTo(trace, v.node) + 1], next)
  {
    assert Upholds(Sound, k, trace, visits, v.node) && Upholds(Here, k, trace, visits, v.node);
    assert Upholds(Tallied, k, trace, visits, v.node);
    Longer(k.graph, k.options, k.start, k.world, trace, v);
    CountedOnce(trace, visits, v);
    var visits' := visits[v.node := VisitsTo(trace, v.node) + 1];
    forall id ensures VisitsTo(trace + [v], id) <= 3 { assert CountedAt(trace + [v], visits', id); }
  }

  /** `_run`.  `world` answers each visit from everything that happened before it.
      The walk ends for every graph, cyclic ones included, and whatever the world
      answers. */
  method Run(g: Graph, o: Options, start: NodeId, world: World)
    returns (trace: seq<Visit>, ending: Ending)
    requires o.autoRecover ==> o.budget >= 1
    ensures WellWalked(g, o, start, world, trace)
    ensures forall id :: VisitsTo(trace, id) <= 3
    ensures Concludes(g, o, start, trace, ending)
  {
    ghost var walk := Walk(g, o, start, world);
    var current := start;
    var visits: map<NodeId, nat> := map[];
    trace := [];
    WalkBegins(walk);
    while true
      invariant Underway(walk, trace, visits, current)
      decreases |SlotsLeft(g, visits)|
    {
      WalkPauses(walk, trace, visits, current);
      if current !in g || !g[current].contracted { return trace, NoContract(current); }
      var count := (if current in visits then visits[current] else 0) + 1;
      if count > 3 { return trace, TooManyVisits(current); }
      SlotSpent(g, visits, current);
      var how, edge := VisitNode(world(trace, current), o);
      var v := Visit(current, how, edge);
      EdgeOfVisit(world(trace, current), v, o);
      WalkTurn(walk, trace, visits, v);
      visits := visits[current := count];
      trace := trace + [v];
      var over := AfterVisit(g, o, v);
      if over.Some? { return trace, over.value; }
      current := Target(g, v.node, v.edge).value;
    }
  }

  // ---- consequences ----

  /** Each visit starts the node's commands at most 1 + budget times, at most once
      without automatic recovery, and never in plan mode. */
  lemma ExecutionsPerVisit(s: Situation, v: Visit, o: Options)
    requires Justified(s, v, o)
    ensures Runs(v.how) <= if !o.execute then 0 else if o.autoRecover then 1 + o.budget else 1
  {
  }

  function RunsOf(trace: seq<Visit>, id: NodeId): nat {
    if trace == [] then 0
    else
      RunsOf(trace[..|trace| - 1], id)
      + (if trace[|trace| - 1].node == id then Runs(trace[|trace| - 1].how) else 0)
  }

  lemma {:induction false} RunsBounded(trace: seq<Visit>, o: Options, world: World, id: NodeId)
    requires forall i :: JustifiedAt(world, o, trace, i)
    ensures RunsOf(trace, id) <= VisitsTo(trace, id) * (1 + o.budget)
    ensures !o.execute ==> RunsOf(trace, id) == 0
  {
    if trace != [] {
      var init, last := trace[..|trace| - 1], trace[|trace| - 1];
      forall i ensures JustifiedAt(world, o, init, i) {
        assert JustifiedAt(world, o, trace, i);
        assert 0 <= i < |init| ==> init[..i] == trace[..i];
      }
      RunsBounded(init, o, world, id);
      assert JustifiedAt(world, o, trace, |init|);
      ExecutionsPerVisit(world(init, last.node), last, o);
      OneMoreVisit(VisitsTo(init, id), 1 + o.budget);
    }
  }

  lemma OneMoreVisit(n: nat, most: nat)
    ensures (n + 1) * most == n * most + most
  {
  }

  lemma AtMostTimes(a: nat, b: nat, most: nat)
    requires a <= b
    ensures a * most <= b * most
  {
  }

  /** Over a whole walk no node is started more than 3 * (1 + budget) times, and the
      walk makes at most three visits per node of the graph. */
  lemma WalkBounded(g: Graph, o: Options, start: NodeId, world: World, trace: seq<Visit>, id: NodeId)
    requires WellWalked(g, o, start, world, trace) && forall x :: VisitsTo(trace, x) <= 3
    ensures RunsOf(trace, id) <= 3 * (1 + o.budget)
    ensures |trace| <= 3 * |g.Keys|
  {
    RunsBounded(trace, o, world, id);
    AtMostTimes(VisitsTo(trace, id), 3, 1 + o.budget);
    VisitsAddUp(trace, g.Keys);
  }

  lemma {:induction false} VisitsAddUp(trace: seq<Visit>, ids: set<NodeId>)
    requires forall i :: 0 <= i < |trace| ==> trace[i].node in ids
    requires forall x :: VisitsTo(trace, x) <= 3
    ensures |trace| <= 3 * |ids|
    decreases |ids|
  {
    if trace != [] {
      var id := trace[0].node;
      var rest := Filter(trace, (v: Visit) => v.node != id);
      WithoutNode(trace, id);
      assert ids == (ids - {id}) + {id};
      forall i | 0 <= i < |rest| ensures rest[i].node in ids - {id} {
        assert rest[i] in rest;
        assert rest[i] in trace;
      }
      forall x ensures VisitsTo(rest, x) <= 3 {
        if x != id { assert VisitsTo(rest, x) == VisitsTo(trace, x); }
      }
      VisitsAddUp(rest, ids - {id});
    }
  }

  lemma {:induction false} WithoutNode(trace: seq<Visit>, id: NodeId)
    ensures var rest := Filter(trace, (v: Visit) => v.node != id);
            && |trace| == |rest| + VisitsTo(trace, id)
            && (forall x :: x != id ==> VisitsTo(rest, x) == VisitsTo(trace, x))
            && VisitsTo(rest, id) == 0
  {
    if trace != [] {
      var init, last := trace[..|trace| - 1], trace[|trace| - 1];
      WithoutNode(init, id);
      var rest := Filter(init, (v: Visit) => v.node != id);
      assert (rest + [last])[..|rest|] == rest;
    }
  }
}
