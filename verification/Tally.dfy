/** What the append-only event log says about one task row. */
module Tally {
  import opened Base
  import opened SchedulerState
  import opened Transitions

  /** Claimed attempts in log order, the last claimant, and how often the row
      failed, succeeded, and was requeued by an applied RETRY. */
  datatype Account = Account(
    attempts: seq<nat>, claimant: Option<Worker>, failures: nat, successes: nat, retries: nat)

  const BLANK_ACCOUNT := Account([], None, 0, 0, 0)

  function Posted(a: Account, e: Event, id: TaskId): Account {
    match e
    case TaskClaimed(t, w, n) =>
      if t == id then a.(attempts := a.attempts + [n], claimant := Some(w)) else a
    case TaskFailed(t) => if t == id then a.(failures := a.failures + 1) else a
    case TaskSucceeded(t) => if t == id then a.(successes := a.successes + 1) else a
    case DiagnosisApplied(_, source, _, _, action) =>
      if source == id && action.Retry? then a.(retries := a.retries + 1) else a
    case _ => a
  }

  function AccountOf(events: seq<Event>, id: TaskId): Account {
    if events == [] then BLANK_ACCOUNT
    else Posted(AccountOf(events[..|events| - 1], id), events[|events| - 1], id)
  }

  lemma {:induction false} Append(events: seq<Event>, e: Event)
    ensures forall id: TaskId :: AccountOf(events + [e], id) == Posted(AccountOf(events, id), e, id)
  {
    assert (events + [e])[..|events|] == events;
  }

  /** The attempts 1, 2, ..., n. */
  function OneTo(n: nat): (r: seq<nat>)
    ensures |r| == n
    ensures forall i :: 0 <= i < n ==> r[i] == i + 1
  {
    seq(n, i => i + 1)
  }

  lemma OneToGrows(n: nat)
    ensures OneTo(n + 1) == OneTo(n) + [n + 1]
  {
  }

  lemma {:induction false} AccountCounts(events: seq<Event>, id: TaskId)
    ensures ClaimCount(events, id) == |AccountOf(events, id).attempts|
    ensures LastClaimant(events, id) == AccountOf(events, id).claimant
  {
    if events != [] {
      AccountCounts(events[..|events| - 1], id);
    }
  }

  /** When the claimed attempts are exactly 1..n, looking the claimant of attempt n
      up by number finds the last claimant. */
  lemma {:induction false} ClaimantOfLatest(events: seq<Event>, id: TaskId, n: nat)
    requires n >= 1 && AccountOf(events, id).attempts == OneTo(n)
    ensures ClaimantAt(events, id, n) == AccountOf(events, id).claimant
    ensures AccountOf(events, id).claimant.Some?
  {
    assert events != [];
    var init, e := events[..|events| - 1], events[|events| - 1];
    if e.TaskClaimed? && e.task == id {
      assert AccountOf(events, id).attempts[n - 1] == e.attempt;
    } else {
      ClaimantOfLatest(init, id, n);
    }
  }
}
