/** engine/state/journal.py: the append-only fact log with environment-scoped lookup. */
module Journal {
  import opened Base

  type Environment = map<string, string>

  datatype Kind =
    | ModelRequest | EnvironmentProof | ModelSupportCard | RuntimeDriftReport | ToyBringupReport
    | TorchShimRegistry | CapabilityMatch | GapClassification | OperatorTaskDispatch | DeploymentPlan
    | DeploymentProof | MemoryBudget | AccuracyDifferential | ServingBaseline | OperatorIntegration
    | SupportMatrixEntry | VendorHandoff | FailureTriage | PlacedPatch | PlatformKernelCorrectness
    | EndToEndAccuracy | LongContextSparseCorrectness | CapabilityEvaluation | ApiConformance
    | OtherKind(name: string)

  /** A log line.  The fingerprint is an injective digest of an environment, so the
      environment it digests stands for it. */
  datatype Fact = Fact(
    kind: Kind, subject: string, state: string, artifacts: string,
    environment: Environment, fingerprint: Environment, detail: string)

  type Log = seq<Fact>

  function Record(log: Log, kind: Kind, subject: string, state: string, artifacts: string,
                  environment: Environment, detail: string): Log
  {
    log + [Fact(kind, subject, state, artifacts, environment, environment, detail)]
  }

  /** `None` in a filter means unfiltered; `states` empty likewise. */
  datatype Filters = Filters(subject: Option<string>, environment: Option<Environment>, states: set<string>)

  predicate Matches(f: Fact, kind: Kind, q: Filters) {
    && f.kind == kind
    && (q.subject.Some? ==> f.subject == q.subject.value)
    && (q.environment.Some? ==> f.environment == q.environment.value && f.fingerprint == q.environment.value)
    && (q.states != {} ==> f.state in q.states)
  }

  function Reverse<T>(s: seq<T>): (r: seq<T>)
    ensures |r| == |s| && forall i :: 0 <= i < |s| ==> r[i] == s[|s| - 1 - i]
  {
    seq(|s|, i requires 0 <= i < |s| => s[|s| - 1 - i])
  }

  /** Most recent first.  An empty environment identifies no runtime and hits nothing. */
  function Query(log: Log, kind: Kind, q: Filters): seq<Fact> {
    if q.environment == Some(map[]) then []
    else Reverse(Filter(log, f => Matches(f, kind, q)))
  }

  function Latest(log: Log, kind: Kind, q: Filters): Option<Fact> {
    var hits := Query(log, kind, q);
    if hits == [] then None else Some(hits[0])
  }

  /** The last position at which exactly this fact was appended, or -1. */
  function FactIndex(log: Log, f: Fact): (i: int)
    ensures -1 <= i < |log|
    ensures i >= 0 ==> log[i] == f
    ensures forall k :: i < k < |log| ==> log[k] != f
  {
    if log == [] then -1
    else if log[|log| - 1] == f then |log| - 1
    else FactIndex(log[..|log| - 1], f)
  }

  predicate HitAt(log: Log, kind: Kind, q: Filters, i: int) {
    0 <= i < |log| && Matches(log[i], kind, q)
  }

  /** The fact `latest` answers sits at the greatest matching position, and that
      position is its index; it answers nothing only when nothing matches. */
  lemma {:induction false} LatestIsGreatest(log: Log, kind: Kind, q: Filters)
    requires q.environment != Some(map[])
    ensures var hit := Latest(log, kind, q);
            && (hit.None? ==> forall i :: !HitAt(log, kind, q, i))
            && (hit.Some? ==>
                  && var at := FactIndex(log, hit.value);
                  && HitAt(log, kind, q, at)
                  && forall i :: at < i ==> !HitAt(log, kind, q, i))
  {
    if log != [] {
      var init, last := log[..|log| - 1], log[|log| - 1];
      LatestIsGreatest(init, kind, q);
      LatestAfter(log, kind, q);
      forall i | 0 <= i < |init| ensures HitAt(log, kind, q, i) == HitAt(init, kind, q, i) {}
    }
  }

  lemma LatestAfter(log: Log, kind: Kind, q: Filters)
    requires log != [] && q.environment != Some(map[])
    ensures var last := log[|log| - 1];
            Latest(log, kind, q) == if Matches(last, kind, q) then Some(last) else Latest(log[..|log| - 1], kind, q)
  {
  }

  /** The fact is of this kind and, where the lookup says so, of this subject, this
      environment by value and by fingerprint, and one of these states. */
  predicate Fits(f: Fact, kind: Kind, q: Filters) {
    && f.kind == kind && (q.subject == None || q.subject == Some(f.subject))
    && (q.environment == None || (q.environment == Some(f.environment) && q.environment == Some(f.fingerprint)))
    && (|q.states| == 0 || f.state in q.states)
  }

  /** It is at position `i`, and nothing fitting comes later. */
  predicate LastFit(log: Log, kind: Kind, q: Filters, f: Fact, i: int) {
    0 <= i < |log| && log[i] == f && Fits(f, kind, q) && forall j :: i < j < |log| ==> !Fits(log[j], kind, q)
  }

  /** A lookup by its fields: it answers the last fact that fits, and in an empty
      environment none. */
  lemma LatestByFields(log: Log, kind: Kind, q: Filters, f: Fact)
    ensures Latest(log, kind, q) == Some(f) <==>
              q.environment != Some(map[]) && exists i :: LastFit(log, kind, q, f, i)
  {
    forall g ensures Matches(g, kind, q) <==> Fits(g, kind, q) { assert q.states == {} <==> |q.states| == 0; }
    if q.environment != Some(map[]) {
      LatestIsGreatest(log, kind, q);
      var hit := Latest(log, kind, q);
      if hit.Some? {
        var at := FactIndex(log, hit.value);
        assert HitAt(log, kind, q, at);
        forall j | at < j < |log| ensures !Fits(log[j], kind, q) { assert !HitAt(log, kind, q, j); }
        assert LastFit(log, kind, q, hit.value, at);
      }
      if exists i :: LastFit(log, kind, q, f, i) {
        var i :| LastFit(log, kind, q, f, i);
        assert HitAt(log, kind, q, i);
      }
    }
  }

  /** Recording a fact answers exactly the lookups it matches, and no other: in
      particular none from another environment, subject or kind. */
  lemma RecordAnswers(log: Log, f: Fact, kind: Kind, q: Filters)
    requires f.fingerprint == f.environment && q.environment != Some(map[])
    ensures var log' := Record(log, f.kind, f.subject, f.state, f.artifacts, f.environment, f.detail);
            && (Matches(f, kind, q) ==> Latest(log', kind, q) == Some(f))
            && (!Matches(f, kind, q) ==> Latest(log', kind, q) == Latest(log, kind, q))
            && (q.environment.Some? && q.environment.value != f.environment ==>
                  Latest(log', kind, q) == Latest(log, kind, q))
  {
    var log' := Record(log, f.kind, f.subject, f.state, f.artifacts, f.environment, f.detail);
    assert log'[..|log' | - 1] == log && log'[|log'| - 1] == f;
    LatestAfter(log', kind, q);
  }
}
