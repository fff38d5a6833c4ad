/** Fact reuse in runners/graph_runner.py: which recorded facts may stand in for
    running a node again. */
module FactReuse {
  import opened Base
  import opened Journal

  /** What a node reads.  `plans`: its command line names the contract instance
      rendered by the deployment plan. */
  datatype Reads = Reads(needs: set<Kind>, optional: set<Kind>, plans: bool)
  datatype Node = Node(produces: Option<Kind>, inputs: Reads)

  /** The node table, keyed by the kind each node produces. */
  type Table = map<Kind, Reads>

  /** `_input_kinds`. */
  function Required(n: Node): set<Kind> {
    if n.inputs.plans && n.produces != Some(FailureTriage) then n.inputs.needs + {DeploymentPlan} else n.inputs.needs
  }

  function Optional(n: Node): set<Kind> {
    if n.inputs.plans && n.produces == Some(FailureTriage) then n.inputs.optional + {DeploymentPlan}
    else n.inputs.optional
  }

  function Inputs(n: Node): set<Kind> { Required(n) + Optional(n) }

  function Producer(t: Table, kind: Kind): Option<Node> {
    if kind in t then Some(Node(Some(kind), t[kind])) else None
  }

  /** What a lookup depends on besides the log: whose facts, in which environment,
      whether a fact's artifacts still hold up, and whether the Skill it was made
      with is the one selected now. */
  datatype Setting = Setting(
    log: Log, subject: string, environment: Environment, holdsUp: Fact -> bool, skillCurrent: Fact -> bool)

  const PROOF_KEYS := {"environment_fingerprint", "environment_pod"}

  /** `fact_environment`: identity facts are looked up without the proof's own keys. */
  function FactEnvironment(kind: Kind, e: Environment): Environment {
    if kind == ModelRequest || kind == EnvironmentProof then e - PROOF_KEYS else e
  }

  function ScopeOf(s: Setting, kind: Kind): Filters {
    Filters(Some(s.subject), Some(FactEnvironment(kind, s.environment)), {})
  }

  /** `reusable_fact`: only the latest hit is considered, and it must hold up.  The
      success states are part of `holdsUp`. */
  function ReusableFact(s: Setting, kind: Kind, verify: bool): Option<Fact> {
    if s.environment == map[] then None
    else
      var hit := Latest(s.log, kind, ScopeOf(s, kind));
      if hit.Some? && s.holdsUp(hit.value) && (verify ==> s.skillCurrent(hit.value)) then hit else None
  }

  function InputFact(t: Table, s: Setting, kind: Kind, verify: bool): Option<Fact> {
    if Producer(t, kind).None? then None else ReusableFact(s, kind, verify)
  }

  /** The fact found without looking at Skills, and the one that passes them. */
  function Raw(t: Table, s: Setting, kind: Kind): Option<Fact> { InputFact(t, s, kind, false) }
  function Verified(t: Table, s: Setting, kind: Kind): Option<Fact> { InputFact(t, s, kind, true) }

  // ---- what a lookup takes, by its fields ----

  /** Requests and environment proofs are looked up without what the proof itself adds. */
  function Scope(kind: Kind, e: Environment): Environment {
    if kind == ModelRequest || kind == EnvironmentProof then
      map key | key in e && key != "environment_fingerprint" && key != "environment_pod" :: e[key]
    else e
  }

  /** `f` is the last fact of this kind about this subject in this environment, and it
      still holds up; with `skills`, it was made with the Skill selected now. */
  predicate StandsAt(s: Setting, kind: Kind, f: Fact, skills: bool, i: int) {
    && 0 <= i < |s.log| && s.log[i] == f && InScope(s, kind, f)
    && (forall j :: i < j < |s.log| ==> !InScope(s, kind, s.log[j]))
    && s.holdsUp(f) && (skills ==> s.skillCurrent(f))
  }

  predicate InScope(s: Setting, kind: Kind, f: Fact) {
    && f.kind == kind && f.subject == s.subject
    && f.environment == Scope(kind, s.environment) && f.fingerprint == Scope(kind, s.environment)
  }

  lemma ScopeExactly(s: Setting, kind: Kind, f: Fact)
    ensures FactEnvironment(kind, s.environment) == Scope(kind, s.environment)
    ensures Fits(f, kind, ScopeOf(s, kind)) <==> InScope(s, kind, f)
  {
    var e, scope := s.environment, Scope(kind, s.environment);
    if kind == ModelRequest || kind == EnvironmentProof {
      assert (e - PROOF_KEYS).Keys == scope.Keys;
      assert e - PROOF_KEYS == scope;
    }
  }

  lemma LastInScope(s: Setting, kind: Kind, f: Fact, skills: bool, i: int)
    ensures LastFit(s.log, kind, ScopeOf(s, kind), f, i) && s.holdsUp(f) && (skills ==> s.skillCurrent(f)) <==>
              StandsAt(s, kind, f, skills, i)
  {
    forall g ensures Fits(g, kind, ScopeOf(s, kind)) <==> InScope(s, kind, g) { ScopeExactly(s, kind, g); }
  }

  /** Only kinds some node makes are looked up, never without an environment; what is
      taken is the last fact in scope, if it holds up, and no earlier one instead. */
  lemma InputByFields(t: Table, s: Setting, kind: Kind, skills: bool, f: Fact)
    ensures InputFact(t, s, kind, skills) == Some(f) <==>
              && kind in t && s.environment != map[] && Scope(kind, s.environment) != map[]
              && exists i :: StandsAt(s, kind, f, skills, i)
  {
    LatestByFields(s.log, kind, ScopeOf(s, kind), f);
    ScopeExactly(s, kind, f);
    forall i
      ensures LastFit(s.log, kind, ScopeOf(s, kind), f, i) && s.holdsUp(f) && (skills ==> s.skillCurrent(f)) <==>
                StandsAt(s, kind, f, skills, i)
    {
      LastInScope(s, kind, f, skills, i);
    }
  }

  /** What a node cannot do without, and what it merely uses: a node whose command names
      the planned contract needs the plan, except triage, which uses it if there is one. */
  lemma InputsByFields(n: Node, kind: Kind)
    ensures kind in Required(n) <==>
              || kind in n.inputs.needs
              || (kind == DeploymentPlan && n.inputs.plans && n.produces != Some(FailureTriage))
    ensures kind in Optional(n) <==>
              || kind in n.inputs.optional
              || (kind == DeploymentPlan && n.inputs.plans && n.produces == Some(FailureTriage))
    ensures kind in Inputs(n) <==> kind in Required(n) || kind in Optional(n)
  {
  }

  // ---- the guarded recursion ----

  predicate Tabled(t: Table, n: Node) { n.produces.Some? && n.produces.value in t.Keys }

  function Seen(n: Node, seen: set<Kind>): set<Kind> {
    if n.produces.Some? then seen + {n.produces.value} else seen
  }

  predicate LinkCurrent(t: Table, s: Setting, n: Node, f: Fact, kind: Kind, ordered: bool) {
    var verified := Verified(t, s, kind);
    && (kind in Required(n) ==> verified.Some?)
    && (kind in Optional(n) && Raw(t, s, kind).Some? ==> verified.Some?)
    && (ordered && verified.Some? ==> FactIndex(s.log, verified.value) < FactIndex(s.log, f))
  }

  lemma FewerUnseen(t: Table, n: Node, seen: set<Kind>)
    ensures Tabled(t, n) && n.produces.value !in seen ==> |t.Keys - Seen(n, seen)| < |t.Keys - seen|
    ensures |t.Keys - Seen(n, seen)| <= |t.Keys - seen|
  {
    var before, after := t.Keys - seen, t.Keys - Seen(n, seen);
    if Tabled(t, n) && n.produces.value !in seen {
      assert before == after + {n.produces.value};
    } else if n.produces.Some? {
      assert after == before;
    }
  }

  /** `reusable_inputs_current`, for any table: kinds not yet seen run out. */
  predicate InputsCurrent(t: Table, s: Setting, n: Node, f: Fact, seen: set<Kind>, ordered: bool)
    decreases |t.Keys - seen|, if Tabled(t, n) then 0 else 1
  {
    && !(n.produces.Some? && n.produces.value in seen)
    && FactIndex(s.log, f) >= 0
    && forall kind :: kind in Inputs(n) ==>
         && LinkCurrent(t, s, n, f, kind, ordered)
         && (Verified(t, s, kind).Some? && Producer(t, kind).Some? ==>
               (FewerUnseen(t, n, seen);
                InputsCurrent(t, s, Producer(t, kind).value, Verified(t, s, kind).value, Seen(n, seen), ordered)))
  }

  // ---- soundness on every table ----

  /** `path` follows facts actually present, from consumer to input. */
  ghost predicate Chain(t: Table, s: Setting, n: Node, path: seq<Kind>)
    decreases path
  {
    path != [] ==>
      && path[0] in Inputs(n) && Raw(t, s, path[0]).Some? && Producer(t, path[0]).Some?
      && Chain(t, s, Producer(t, path[0]).value, path[1..])
  }

  /** Along `path` every fact is Skill-current and strictly earlier in the log than
      the fact that consumed it, and no node it visits lacks a required fact. */
  ghost predicate FreshAlong(t: Table, s: Setting, n: Node, f: Fact, path: seq<Kind>)
    decreases path
  {
    && (forall kind :: kind in Required(n) ==> Verified(t, s, kind).Some?)
    && (path != [] ==>
          && Verified(t, s, path[0]) == Raw(t, s, path[0]) && Verified(t, s, path[0]).Some?
          && FactIndex(s.log, Verified(t, s, path[0]).value) < FactIndex(s.log, f)
          && Producer(t, path[0]).Some?
          && FreshAlong(t, s, Producer(t, path[0]).value, Verified(t, s, path[0]).value, path[1..]))
  }

  /** Transitive freshness, for every table, cyclic ones included. */
  lemma {:induction false} TransitiveFreshness(t: Table, s: Setting, n: Node, f: Fact, seen: set<Kind>, path: seq<Kind>)
    requires InputsCurrent(t, s, n, f, seen, true) && Chain(t, s, n, path)
    ensures FreshAlong(t, s, n, f, path)
    decreases path
  {
    forall kind | kind in Required(n) ensures Verified(t, s, kind).Some? {
      assert kind in Inputs(n);
      assert LinkCurrent(t, s, n, f, kind, true);
    }
    if path != [] {
      assert LinkCurrent(t, s, n, f, path[0], true);
      TransitiveFreshness(t, s, Producer(t, path[0]).value, Verified(t, s, path[0]).value, Seen(n, seen), path[1..]);
    }
  }

  /** What a lookup finds is in the log. */
  lemma FoundIsRecorded(t: Table, s: Setting, kind: Kind)
    ensures Verified(t, s, kind).Some? ==> FactIndex(s.log, Verified(t, s, kind).value) >= 0
  {
    if Verified(t, s, kind).Some? {
      LatestIsGreatest(s.log, kind, ScopeOf(s, kind));
    }
  }

  /** So no chain of consumed facts is longer than the log before the reused fact. */
  lemma {:induction false} ChainsEnd(t: Table, s: Setting, n: Node, f: Fact, path: seq<Kind>)
    requires FreshAlong(t, s, n, f, path) && FactIndex(s.log, f) >= 0
    ensures |path| <= FactIndex(s.log, f)
    decreases path
  {
    if path != [] {
      FoundIsRecorded(t, s, path[0]);
      ChainsEnd(t, s, Producer(t, path[0]).value, Verified(t, s, path[0]).value, path[1..]);
    }
  }

  /** A present input of a node whose inputs are current is current itself, and is made
      by a node not yet being made. */
  lemma PresentInputCurrent(t: Table, s: Setting, n: Node, f: Fact, seen: set<Kind>, ordered: bool, kind: Kind)
    requires InputsCurrent(t, s, n, f, seen, ordered)
    requires kind in Inputs(n) && Raw(t, s, kind).Some? && Producer(t, kind).Some?
    ensures Verified(t, s, kind).Some? && kind !in Seen(n, seen)
    ensures InputsCurrent(t, s, Producer(t, kind).value, Verified(t, s, kind).value, Seen(n, seen), ordered)
  {
    assert LinkCurrent(t, s, n, f, kind, ordered);
  }

  lemma DistinctCons(head: Kind, rest: seq<Kind>)
    requires Distinct(rest) && head !in rest
    ensures Distinct([head] + rest)
  {
  }

  /** A chain never returns to a kind already being produced. */
  lemma {:induction false} NoReturnTo(t: Table, s: Setting, n: Node, f: Fact, seen: set<Kind>, ordered: bool,
                                      path: seq<Kind>, kind: Kind)
    requires InputsCurrent(t, s, n, f, seen, ordered) && Chain(t, s, n, path) && kind in path
    ensures kind !in Seen(n, seen)
    decreases path
  {
    PresentInputCurrent(t, s, n, f, seen, ordered, path[0]);
    if kind != path[0] {
      NoReturnTo(t, s, Producer(t, path[0]).value, Verified(t, s, path[0]).value, Seen(n, seen), ordered, path[1..],
                 kind);
    }
  }

  /** A dependency cycle of present facts answers False, with or without ordering:
      no chain returns to a kind already being produced, or visits a kind twice. */
  lemma {:induction false} NoReturn(t: Table, s: Setting, n: Node, f: Fact, seen: set<Kind>, ordered: bool,
                                    path: seq<Kind>)
    requires InputsCurrent(t, s, n, f, seen, ordered) && Chain(t, s, n, path)
    ensures forall kind :: kind in path ==> kind !in Seen(n, seen)
    ensures Distinct(path)
    decreases path
  {
    forall kind | kind in path ensures kind !in Seen(n, seen) { NoReturnTo(t, s, n, f, seen, ordered, path, kind); }
    if path != [] {
      var kind, rest := path[0], path[1..];
      PresentInputCurrent(t, s, n, f, seen, ordered, kind);
      NoReturn(t, s, Producer(t, kind).value, Verified(t, s, kind).value, Seen(n, seen), ordered, rest);
      DistinctCons(kind, rest);
      assert path == [kind] + rest;
    }
  }

  // ---- acyclic dependencies ----

  /** Every input with a current fact ranks below what is made from it: the table may
      be cyclic as long as the facts on record are not. */
  ghost predicate Ranked(t: Table, s: Setting, rank: Kind -> nat) {
    forall made, kind :: made in t && kind in Inputs(Node(Some(made), t[made])) && Verified(t, s, kind).Some?
      ==> rank(kind) < rank(made)
  }

  /** The plain definition: everything consumed is current, recursively. */
  ghost predicate PlainlyCurrent(t: Table, rank: Kind -> nat, s: Setting, n: Node, f: Fact, ordered: bool)
    requires Ranked(t, s, rank) && n.produces.Some? && Producer(t, n.produces.value) == Some(n)
    decreases rank(n.produces.value)
  {
    && FactIndex(s.log, f) >= 0
    && forall kind :: kind in Inputs(n) ==>
         && (kind in Required(n) ==> Verified(t, s, kind).Some?)
         && (kind in Optional(n) && Raw(t, s, kind).Some? ==> Verified(t, s, kind).Some?)
         && (ordered && Verified(t, s, kind).Some? ==>
               FactIndex(s.log, Verified(t, s, kind).value) < FactIndex(s.log, f))
         && (Verified(t, s, kind).Some? && Producer(t, kind).Some? ==>
               PlainlyCurrent(t, rank, s, Producer(t, kind).value, Verified(t, s, kind).value, ordered))
  }

  /** Where the facts on record are acyclic, the guard never fires. */
  lemma {:induction false} AcyclicEquivalence(t: Table, rank: Kind -> nat, s: Setting, n: Node, f: Fact,
                                              seen: set<Kind>, ordered: bool)
    requires Ranked(t, s, rank) && n.produces.Some? && Producer(t, n.produces.value) == Some(n)
    requires forall k :: k in seen ==> rank(k) > rank(n.produces.value)
    ensures InputsCurrent(t, s, n, f, seen, ordered) <==> PlainlyCurrent(t, rank, s, n, f, ordered)
    decreases rank(n.produces.value)
  {
    forall kind | kind in Inputs(n) && Verified(t, s, kind).Some? && Producer(t, kind).Some?
      ensures var m, g := Producer(t, kind).value, Verified(t, s, kind).value;
              InputsCurrent(t, s, m, g, Seen(n, seen), ordered) == PlainlyCurrent(t, rank, s, m, g, ordered)
    {
      AcyclicEquivalence(t, rank, s, Producer(t, kind).value, Verified(t, s, kind).value, Seen(n, seen), ordered);
    }
  }

  // ---- the workflow's own table ----

  function ReadsOf(kind: Kind): Reads {
    match kind
    case ModelRequest => Reads({EnvironmentProof}, {}, false)
    case EnvironmentProof => Reads({}, {}, false)
    case ModelSupportCard => Reads({ModelRequest, EnvironmentProof}, {}, false)
    case RuntimeDriftReport => Reads({EnvironmentProof}, {}, false)
    case ToyBringupReport => Reads({ModelRequest, EnvironmentProof}, {}, false)
    case TorchShimRegistry => Reads({EnvironmentProof}, {}, false)
    case CapabilityMatch => Reads({ModelRequest, ModelSupportCard, EnvironmentProof}, {}, false)
    case GapClassification => Reads({ModelSupportCard, CapabilityMatch}, {}, false)
    case OperatorTaskDispatch => Reads({GapClassification}, {}, false)
    case DeploymentPlan => Reads({ModelRequest, GapClassification}, {PlacedPatch}, false)
    case DeploymentProof => Reads({}, {}, true)
    case MemoryBudget => Reads({}, {}, false)
    case AccuracyDifferential => Reads({ModelRequest}, {}, false)
    case ServingBaseline => Reads({DeploymentProof, AccuracyDifferential}, {}, false)
    case OperatorIntegration => Reads({ServingBaseline}, {}, false)
    case SupportMatrixEntry => Reads({AccuracyDifferential}, {DeploymentProof, MemoryBudget, DeploymentPlan}, false)
    case VendorHandoff => Reads({FailureTriage}, {}, false)
    case FailureTriage => Reads({EnvironmentProof}, {}, true)
    case PlacedPatch => Reads({FailureTriage}, {}, true)
    case PlatformKernelCorrectness => Reads({}, {}, false)
    case EndToEndAccuracy => Reads({ModelRequest}, {}, false)
    case LongContextSparseCorrectness => Reads({}, {}, false)
    case CapabilityEvaluation => Reads({CapabilityMatch}, {}, false)
    case ApiConformance => Reads({ModelRequest}, {}, false)
    case OtherKind(_) => Reads({}, {}, false)
  }

  const KINDS := {
    ModelRequest, EnvironmentProof, ModelSupportCard, RuntimeDriftReport, ToyBringupReport, TorchShimRegistry,
    CapabilityMatch, GapClassification, OperatorTaskDispatch, DeploymentPlan, DeploymentProof, MemoryBudget,
    AccuracyDifferential, ServingBaseline, OperatorIntegration, SupportMatrixEntry, VendorHandoff,
    FailureTriage, PlacedPatch, PlatformKernelCorrectness, EndToEndAccuracy, LongContextSparseCorrectness,
    CapabilityEvaluation, ApiConformance}

  const NODES: Table := map kind | kind in KINDS :: ReadsOf(kind)

  /** `a` may be made from `b`, which needs `a`: once a `b` is on record that holds
      up, no `a` is ever reused. */
  lemma LoopForbidsReuse(t: Table, s: Setting, n: Node, m: Node, a: Kind, b: Kind, f: Fact, ordered: bool)
    requires Producer(t, a) == Some(n) && Producer(t, b) == Some(m)
    requires b in Inputs(n) && a in Required(m) && Raw(t, s, b).Some?
    ensures !InputsCurrent(t, s, n, f, {}, ordered)
  {
    if Verified(t, s, b).Some? { LoopClosed(t, s, n, m, a, Verified(t, s, b).value, ordered); }
    assert InputsCurrent(t, s, n, f, {}, ordered) ==> LinkCurrent(t, s, n, f, b, ordered);
  }

  lemma LoopClosed(t: Table, s: Setting, n: Node, m: Node, a: Kind, g: Fact, ordered: bool)
    requires Producer(t, a) == Some(n) && a in Required(m)
    ensures !InputsCurrent(t, s, m, g, Seen(n, {}), ordered)
  {
    if Verified(t, s, a).Some? {
      assert !InputsCurrent(t, s, n, Verified(t, s, a).value, Seen(m, Seen(n, {})), ordered);
    }
    assert InputsCurrent(t, s, m, g, Seen(n, {}), ordered) ==> LinkCurrent(t, s, m, g, a, ordered);
  }

  /** The table really is cyclic: a plan may read a placed patch, and placing a patch
      reads the plan.  With a placed patch on record the plan node always runs again. */
  lemma PlacedPatchForcesReplanning(s: Setting, plan: Fact, ordered: bool)
    requires Raw(NODES, s, PlacedPatch).Some?
    ensures !InputsCurrent(NODES, s, Node(Some(DeploymentPlan), NODES[DeploymentPlan]), plan, {}, ordered)
  {
    LoopForbidsReuse(NODES, s, Producer(NODES, DeploymentPlan).value, Producer(NODES, PlacedPatch).value,
                     DeploymentPlan, PlacedPatch, plan, ordered);
  }

  /** The table read the other way round: which nodes cannot do without a kind. */
  function ReadersOf(kind: Kind): set<Kind> {
    match kind
    case EnvironmentProof =>
      {ModelRequest, ModelSupportCard, RuntimeDriftReport, ToyBringupReport, TorchShimRegistry, CapabilityMatch,
       FailureTriage}
    case ModelRequest =>
      {ModelSupportCard, ToyBringupReport, CapabilityMatch, DeploymentPlan, AccuracyDifferential, EndToEndAccuracy,
       ApiConformance}
    case ModelSupportCard => {CapabilityMatch, GapClassification}
    case CapabilityMatch => {GapClassification, CapabilityEvaluation}
    case GapClassification => {OperatorTaskDispatch, DeploymentPlan}
    case DeploymentPlan => {DeploymentProof, PlacedPatch}
    case DeploymentProof => {ServingBaseline}
    case AccuracyDifferential => {ServingBaseline, SupportMatrixEntry}
    case ServingBaseline => {OperatorIntegration}
    case FailureTriage => {VendorHandoff, PlacedPatch}
    case _ => {}
  }

  lemma TabledReads(made: Kind)
    requires made in NODES
    ensures NODES[made] == ReadsOf(made) && made in KINDS
  {
  }

  /** The two kinds most nodes read, and the others. */
  lemma CommonNeeds(made: Kind, kind: Kind)
    requires made in KINDS && (kind == EnvironmentProof || kind == ModelRequest)
    ensures kind in ReadsOf(made).needs <==> made in ReadersOf(kind)
  {
  }

  lemma OtherNeeds(made: Kind, kind: Kind)
    requires made in KINDS && kind != EnvironmentProof && kind != ModelRequest
    ensures kind in ReadsOf(made).needs <==> kind != DeploymentPlan && made in ReadersOf(kind)
  {
  }

  lemma PlannedNodes(made: Kind)
    ensures ReadsOf(made).plans <==> made == FailureTriage || made in ReadersOf(DeploymentPlan)
  {
  }

  lemma UsesBackwards(made: Kind, kind: Kind)
    ensures kind in Optional(Node(Some(made), ReadsOf(made))) <==>
              || (kind == PlacedPatch && made == DeploymentPlan)
              || (kind == DeploymentPlan && (made == FailureTriage || made == SupportMatrixEntry))
              || (made == SupportMatrixEntry && (kind == DeploymentProof || kind == MemoryBudget))
  {
  }

  lemma ReadBackwards(made: Kind, kind: Kind)
    requires made in NODES
    ensures kind in Required(Node(Some(made), NODES[made])) <==> made in ReadersOf(kind)
    ensures kind in Optional(Node(Some(made), NODES[made])) <==>
              || (kind == PlacedPatch && made == DeploymentPlan)
              || (kind == DeploymentPlan && (made == FailureTriage || made == SupportMatrixEntry))
              || (made == SupportMatrixEntry && (kind == DeploymentProof || kind == MemoryBudget))
  {
    TabledReads(made);
    if kind == EnvironmentProof || kind == ModelRequest {
      CommonNeeds(made, kind);
    } else {
      OtherNeeds(made, kind);
    }
    PlannedNodes(made);
    UsesBackwards(made, kind);
  }

  /** How far down the workflow a kind is made, leaving the optional patch aside. */
  function Depth(kind: Kind): nat {
    match kind
    case EnvironmentProof => 0
    case ModelRequest => 1
    case ModelSupportCard => 2
    case CapabilityMatch => 3
    case GapClassification => 4
    case DeploymentPlan => 5
    case DeploymentProof => 6
    case FailureTriage => 6
    case AccuracyDifferential => 2
    case ServingBaseline => 7
    case OperatorIntegration => 8
    case PlacedPatch => 7
    case MemoryBudget => 0
    case _ => 9
  }

  lemma DepthRanks(s: Setting, made: Kind, kind: Kind)
    requires made in NODES && kind in Inputs(Node(Some(made), NODES[made])) && kind != PlacedPatch
    ensures Depth(kind) < Depth(made)
  {
  }

  /** The other half: with no placed patch on record the workflow's own table is decided
      by the plain definition, for every node. */
  lemma WithoutPatchPlainly(s: Setting, made: Kind, f: Fact, ordered: bool)
    requires Raw(NODES, s, PlacedPatch).None? && made in NODES
    ensures Ranked(NODES, s, Depth)
    ensures var n := Node(Some(made), NODES[made]);
            InputsCurrent(NODES, s, n, f, {}, ordered) <==> PlainlyCurrent(NODES, Depth, s, n, f, ordered)
  {
    forall made, kind | made in NODES && kind in Inputs(Node(Some(made), NODES[made])) && Verified(NODES, s, kind).Some?
      ensures Depth(kind) < Depth(made)
    {
      DepthRanks(s, made, kind);
    }
    AcyclicEquivalence(NODES, Depth, s, Node(Some(made), NODES[made]), f, {}, ordered);
  }
}
