/** engine/recovery.py: decide, act, rerun, under a budget. */
module Recovery {

  datatype Decision = Decision(nextAction: string, diagnosis: string)

  const RERUN_ACTIONS := {"RETRY", "RETRY_WITH_PARAMS"}

  datatype Result =
    BlockedByBrain | NoExecutor | ActionComplete | ActionFailed
    | NodePassed(state: string) | NodeStillFailing(state: string)

  datatype Entry = Entry(decision: Decision, result: Result)
  type History = seq<Entry>

  datatype Rerun = Rerun(passed: bool, state: string)

  /** Everything the controller is given, as arbitrary answers to what happened so
      far: the brain, the node's rerun judged by its own validator, the registered
      actions and whether performing one succeeds. */
  datatype Outside = Outside(
    decide: (History, nat) -> Decision,
    rerun: (History, Decision) -> Rerun,
    registered: set<string>,
    perform: (History, Decision) -> bool)

  predicate Final(r: Result) { r.BlockedByBrain? || r.NoExecutor? || r.NodePassed? }

  function LastRerunState(h: History, initial: string): string {
    if h == [] then initial
    else
      match h[|h| - 1].result
      case NodePassed(s) => s
      case NodeStillFailing(s) => s
      case _ => LastRerunState(h[..|h| - 1], initial)
  }

  function Reruns(h: History): (n: nat)
    ensures n <= |h|
  {
    if h == [] then 0
    else Reruns(h[..|h| - 1]) + (if h[|h| - 1].result.NodePassed? || h[|h| - 1].result.NodeStillFailing? then 1 else 0)
  }

  predicate AsksForRerun(d: Decision) { d.nextAction == "RETRY" || d.nextAction == "RETRY_WITH_PARAMS" }

  /** What the outside world's answers make of one turn: an independent account of
      the entry appended after `h` with `remaining` turns left. */
  predicate Explains(o: Outside, h: History, remaining: nat, e: Entry) {
    var d := o.decide(h, remaining);
    && e.decision == d
    && match e.result
       case BlockedByBrain => d.nextAction == "BLOCKED"
       case NoExecutor => d.nextAction != "BLOCKED" && !AsksForRerun(d) && d.nextAction !in o.registered
       case ActionComplete =>
         d.nextAction != "BLOCKED" && !AsksForRerun(d) && d.nextAction in o.registered && o.perform(h, d)
       case ActionFailed =>
         d.nextAction != "BLOCKED" && !AsksForRerun(d) && d.nextAction in o.registered && !o.perform(h, d)
       case NodePassed(s) => AsksForRerun(d) && o.rerun(h, d) == Rerun(true, s)
       case NodeStillFailing(s) => AsksForRerun(d) && o.rerun(h, d) == Rerun(false, s)
  }

  /** A history in progress: each entry is explained by what came before it, none of
      them final. */
  ghost predicate Ongoing(o: Outside, budget: nat, h: History) {
    |h| <= budget && forall i :: TurnAt(o, budget, h, i)
  }

  predicate TurnAt(o: Outside, budget: nat, h: History, i: int) {
    0 <= i < |h| && i <= budget ==> Explains(o, h[..i], budget - i, h[i]) && !Final(h[i].result)
  }

  /** A finished history: an ongoing one that used up the budget, or that ends in
      its one final entry. */
  ghost predicate Finished(o: Outside, budget: nat, h: History) {
    || (Ongoing(o, budget, h) && |h| == budget)
    || ( && h != [] && |h| <= budget
         && Ongoing(o, budget, h[..|h| - 1])
         && Final(h[|h| - 1].result)
         && Explains(o, h[..|h| - 1], budget - (|h| - 1), h[|h| - 1]) )
  }

  predicate Recovered(h: History) { h != [] && h[|h| - 1].result.NodePassed? }

  class RecoveryOutcome {
    var recovered: bool
    var attempts: History
    var finalState: string
    var lastDecision: Decision

    constructor (state: string)
      ensures !recovered && attempts == [] && finalState == state
    {
      recovered, attempts, finalState, lastDecision := false, [], state, Decision("", "");
    }
  }

  class RecoveryController {
    const outside: Outside
    const budget: nat

    constructor (outside: Outside, budget: nat)
      requires budget >= 1
      ensures this.outside == outside && this.budget == budget
    {
      this.outside, this.budget := outside, budget;
    }

    /** One turn of the loop: decide, then act or rerun. */
    method TakeTurn(history: History, remaining: nat) returns (e: Entry)
      ensures Explains(outside, history, remaining, e)
    {
      var decision := outside.decide(history, remaining);
      if decision.nextAction == "BLOCKED" { return Entry(decision, BlockedByBrain); }
      if decision.nextAction in RERUN_ACTIONS {
        var rerun := outside.rerun(history, decision);
        return Entry(decision, if rerun.passed then NodePassed(rerun.state) else NodeStillFailing(rerun.state));
      }
      if decision.nextAction !in outside.registered { return Entry(decision, NoExecutor); }
      var worked := outside.perform(history, decision);
      return Entry(decision, if worked then ActionComplete else ActionFailed);
    }

    /** `recover`.  The history and what is left of the budget always add up to the
        budget while the loop runs. */
    method Recover(state: string) returns (outcome: RecoveryOutcome)
      ensures fresh(outcome)
      ensures Finished(outside, budget, outcome.attempts)
      ensures outcome.recovered <==> Recovered(outcome.attempts)
      ensures outcome.finalState == LastRerunState(outcome.attempts, state)
      ensures outcome.attempts != [] ==> outcome.lastDecision == outcome.attempts[|outcome.attempts| - 1].decision
    {
      outcome := new RecoveryOutcome(state);
      var remaining := budget;
      while remaining > 0
        invariant fresh(outcome) && !outcome.recovered
        invariant |outcome.attempts| + remaining == budget
        invariant Ongoing(outside, budget, outcome.attempts) && !Recovered(outcome.attempts)
        invariant outcome.finalState == LastRerunState(outcome.attempts, state)
        invariant outcome.attempts != [] ==> outcome.lastDecision == outcome.attempts[|outcome.attempts| - 1].decision
        decreases remaining
      {
        ghost var h := outcome.attempts;
        var e := TakeTurn(outcome.attempts, remaining);
        outcome.lastDecision := e.decision;
        if e.result.NodePassed? || e.result.NodeStillFailing? {
          outcome.finalState := e.result.state;
          outcome.recovered := e.result.NodePassed?;
        }
        outcome.attempts := outcome.attempts + [e];
        OneMore(outside, budget, h, e, state);
        if e.result.BlockedByBrain? || e.result.NoExecutor? || e.result.NodePassed? { return; }
        remaining := remaining - 1;
      }
    }
  }

  lemma OneMore(o: Outside, budget: nat, h: History, e: Entry, initial: string)
    requires Ongoing(o, budget, h) && |h| < budget && Explains(o, h, budget - |h|, e)
    ensures if Final(e.result) then Finished(o, budget, h + [e]) else Ongoing(o, budget, h + [e])
    ensures LastRerunState(h + [e], initial) ==
              match e.result
              case NodePassed(s) => s
              case NodeStillFailing(s) => s
              case _ => LastRerunState(h, initial)
  {
    assert (h + [e])[..|h|] == h;
    if !Final(e.result) {
      forall i ensures TurnAt(o, budget, h + [e], i) {
        assert TurnAt(o, budget, h, i);
        assert 0 <= i < |h| ==> (h + [e])[..i] == h[..i];
      }
    }
  }

  /** The account is complete: the same answers leave only one finished history. */
  lemma {:induction false} FinishedIsUnique(o: Outside, budget: nat, a: History, b: History)
    requires Finished(o, budget, a) && Finished(o, budget, b)
    ensures a == b
  {
    if |a| <= |b| {
      CommonPrefix(o, budget, a, b, |a|);
      NoFinishedPrefix(o, budget, a, b);
    } else {
      CommonPrefix(o, budget, a, b, |b|);
      NoFinishedPrefix(o, budget, b, a);
    }
  }

  lemma NoFinishedPrefix(o: Outside, budget: nat, a: History, b: History)
    requires Finished(o, budget, a) && Finished(o, budget, b) && |a| <= |b| && a == b[..|a|]
    ensures a == b
  {
    if a != [] { EntryExplained(o, budget, b, |a| - 1); }
  }

  lemma {:induction false} CommonPrefix(o: Outside, budget: nat, a: History, b: History, n: nat)
    requires Finished(o, budget, a) && Finished(o, budget, b) && n <= |a| && n <= |b|
    ensures a[..n] == b[..n]
  {
    if n > 0 {
      CommonPrefix(o, budget, a, b, n - 1);
      EntryExplained(o, budget, a, n - 1);
      EntryExplained(o, budget, b, n - 1);
      assert a[n - 1] == b[n - 1];
      assert a[..n] == a[..n - 1] + [a[n - 1]] && b[..n] == b[..n - 1] + [b[n - 1]];
    }
  }

  lemma EntryExplained(o: Outside, budget: nat, h: History, i: nat)
    requires Finished(o, budget, h) && i < |h|
    ensures i < budget && Explains(o, h[..i], budget - i, h[i])
    ensures i < |h| - 1 ==> !Final(h[i].result)
  {
    var init := h[..|h| - 1];
    if Ongoing(o, budget, h) {
      assert TurnAt(o, budget, h, i);
    } else if i < |init| {
      assert TurnAt(o, budget, init, i);
      assert init[i] == h[i] && init[..i] == h[..i];
    }
  }

  /** RECOVERED is only ever the verdict of the last rerun. */
  lemma RecoveredMeansLastRerunPassed(o: Outside, budget: nat, h: History, i: nat)
    requires Finished(o, budget, h) && i < |h| && h[i].result.NodePassed?
    ensures i == |h| - 1 && Recovered(h)
    ensures AsksForRerun(h[i].decision)
    ensures o.rerun(h[..i], h[i].decision) == Rerun(true, LastRerunState(h, ""))
  {
    EntryExplained(o, budget, h, i);
  }

  /** The loop ends at once: every entry but the last is a performed or failed action or a
      failing rerun, and a stop by the brain, an unknown action or a pass comes last. */
  lemma EndsAtOnce(o: Outside, budget: nat, h: History, i: nat)
    requires Finished(o, budget, h) && i < |h|
    ensures i < |h| - 1 ==> h[i].result.ActionComplete? || h[i].result.ActionFailed? || h[i].result.NodeStillFailing?
    ensures i == |h| - 1 && |h| < budget ==>
              h[i].result.BlockedByBrain? || h[i].result.NoExecutor? || h[i].result.NodePassed?
  {
    EntryExplained(o, budget, h, i);
  }

  /** The budget bounds the turns, and the loop gives up early only when the brain
      says so or names an action nobody registered. */
  lemma GivingUp(o: Outside, budget: nat, h: History)
    requires Finished(o, budget, h) && !Recovered(h)
    ensures |h| <= budget && Reruns(h) <= budget
    ensures |h| < budget ==>
              && h != []
              && var action := o.decide(h[..|h| - 1], budget - (|h| - 1)).nextAction;
              action == "BLOCKED" || (action !in {"RETRY", "RETRY_WITH_PARAMS"} && action !in o.registered)
  {
    if h != [] { EntryExplained(o, budget, h, |h| - 1); }
  }
}
