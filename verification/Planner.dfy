/** validators/plan_validator.py: the acceptance checks of a deployment plan, written
    without reference to how a plan is made. */
module PlanValidator {
  import opened Base

  /** The checkpoint facts; an absent or zero field counts as unknown. */
  datatype Identity = Identity(
    dtype: Option<string>, layers: Option<nat>, kvLoraRank: Option<nat>, ropeHeadDim: Option<nat>,
    kvHeads: Option<nat>, headDim: Option<nat>, nopeHeadDim: Option<nat>,
    heads: Option<nat>, positionLimit: Option<nat>)

  datatype Checkpoint = Checkpoint(weightBytes: nat, remoteCode: bool, revision: Option<string>)
  datatype Request = Request(identity: Option<Identity>, model: Option<Checkpoint>, stackCommit: Option<string>)

  /** The decided parameters; `None` is a parameter without a value. */
  datatype Report = Report(
    ready: bool, dtype: Option<string>, tensorParallel: Option<int>, maxModelLen: Option<int>, blockSize: Option<int>,
    trustRemoteCode: Option<bool>, utilization: Option<real>, enforceEager: Option<bool>,
    revision: Option<string>, stackCommit: Option<string>, hbm: int)

  datatype Checks = Checks(stackPin: bool, revision: bool, memoryArithmetic: bool)

  datatype Parameter =
    Dtype | TensorParallelSize | MaxModelLen | BlockSize | TrustRemoteCode | MemoryUtilization | EnforceEager

  datatype PlanError =
    | NotReady | NoValue(parameter: Parameter) | NoStackPin | NoRevision | DtypeContradicts | LengthExceedsLimit
    | BadTensorParallel | HeadsNotDivided | TrustRequired | WeightsDoNotFit

  const VALID_TP := {1, 2, 4, 8}
  const MIB := 1048576.0

  predicate Known(x: Option<nat>) { x.Some? && x.value != 0 }

  function Mib(bytes: nat): real { bytes as real / MIB }

  predicate DividesHeads(id: Identity, tp: int)
    requires tp != 0
  {
    Known(id.heads) ==> id.heads.value % tp == 0
  }

  predicate WithinLimit(id: Identity, len: Option<int>) {
    Known(id.positionLimit) && len.Some? && len.value != 0 ==> len.value <= id.positionLimit.value
  }

  /** Each card's share of the weights fits in its memory. */
  predicate WeightsFit(bytes: nat, tp: int, hbm: int)
    requires tp != 0
  {
    hbm != 0 && bytes != 0 ==> Mib(bytes) / tp as real <= hbm as real
  }

  function Bytes(r: Request): nat { if r.model.Some? then r.model.value.weightBytes else 0 }

  /** The divisor of the memory check: an undecided size counts as one card. */
  function Cards(p: Report): (n: int)
    ensures n != 0
  {
    if p.tensorParallel.GetOr(0) == 0 then 1 else p.tensorParallel.value
  }

  predicate Decides(p: Report, parameter: Parameter) {
    match parameter
    case Dtype => p.dtype.Some?
    case TensorParallelSize => p.tensorParallel.Some?
    case MaxModelLen => p.maxModelLen.Some?
    case BlockSize => p.blockSize.Some?
    case TrustRemoteCode => p.trustRemoteCode.Some?
    case MemoryUtilization => p.utilization.Some?
    case EnforceEager => p.enforceEager.Some?
  }

  /** What each objection means. */
  predicate Objects(p: Report, c: Checks, r: Request, e: PlanError) {
    match e
    case NotReady => !p.ready
    case NoValue(Dtype) => p.dtype == None
    case NoValue(TensorParallelSize) => p.tensorParallel == None
    case NoValue(MaxModelLen) => p.maxModelLen == None
    case NoValue(BlockSize) => p.blockSize == None
    case NoValue(TrustRemoteCode) => p.trustRemoteCode == None
    case NoValue(MemoryUtilization) => p.utilization == None
    case NoValue(EnforceEager) => p.enforceEager == None
    case NoStackPin => c.stackPin && p.stackCommit.None?
    case NoRevision => c.revision && p.revision.None?
    case DtypeContradicts =>
      r.identity.Some? && p.dtype.Some? && r.identity.value.dtype.Some? && p.dtype != r.identity.value.dtype
    case LengthExceedsLimit =>
      && r.identity.Some? && r.identity.value.positionLimit.Some? && r.identity.value.positionLimit.value > 0
      && p.maxModelLen.Some? && p.maxModelLen.value > r.identity.value.positionLimit.value
    case BadTensorParallel =>
      && r.identity.Some?
      && p.tensorParallel != Some(1) && p.tensorParallel != Some(2)
      && p.tensorParallel != Some(4) && p.tensorParallel != Some(8)
    case HeadsNotDivided =>
      && r.identity.Some? && r.identity.value.heads.Some? && r.identity.value.heads.value > 0
      && p.tensorParallel.Some? && p.tensorParallel.value in {1, 2, 4, 8}
      && r.identity.value.heads.value % p.tensorParallel.value != 0
    case TrustRequired => r.model.Some? && r.model.value.remoteCode && p.trustRemoteCode != Some(true)
    case WeightsDoNotFit =>
      && c.memoryArithmetic && p.hbm != 0 && r.model.Some? && r.model.value.weightBytes > 0
      && var cards := if p.tensorParallel.Some? && p.tensorParallel.value != 0 then p.tensorParallel.value else 1;
      && r.model.value.weightBytes as real / 1048576.0 / cards as real > p.hbm as real
  }

  /** `errors` holds exactly the objections to `p` among `looked`. */
  ghost predicate Found(errors: seq<PlanError>, p: Report, c: Checks, r: Request, looked: set<PlanError>) {
    forall e :: e in errors <==> e in looked && Objects(p, c, r, e)
  }

  const PARAMETERS := [Dtype, TensorParallelSize, MaxModelLen, BlockSize, TrustRemoteCode, MemoryUtilization,
                       EnforceEager]

  lemma AllParameters(q: Parameter)
    ensures q in PARAMETERS
  {
    assert PARAMETERS[0] == Dtype && PARAMETERS[1] == TensorParallelSize && PARAMETERS[2] == MaxModelLen;
    assert PARAMETERS[3] == BlockSize && PARAMETERS[4] == TrustRemoteCode && PARAMETERS[5] == MemoryUtilization;
    assert PARAMETERS[6] == EnforceEager;
  }

  method CheckDecisions(p: Report, c: Checks, r: Request) returns (errors: seq<PlanError>)
    ensures forall e :: e in errors <==> e.NoValue? && Objects(p, c, r, e)
  {
    errors := [];
    for i := 0 to |PARAMETERS|
      invariant forall e :: e in errors <==> e.NoValue? && e.parameter in PARAMETERS[..i] && !Decides(p, e.parameter)
    {
      assert PARAMETERS[..i + 1] == PARAMETERS[..i] + [PARAMETERS[i]];
      if !Decides(p, PARAMETERS[i]) { errors := errors + [NoValue(PARAMETERS[i])]; }
    }
    assert PARAMETERS[..|PARAMETERS|] == PARAMETERS;
    forall q ensures q in PARAMETERS { AllParameters(q); }
  }

  method CheckIdentity(p: Report, c: Checks, r: Request) returns (errors: seq<PlanError>)
    ensures Found(errors, p, c, r, {DtypeContradicts, LengthExceedsLimit, BadTensorParallel, HeadsNotDivided})
  {
    errors := [];
    if r.identity.None? { return; }
    var id := r.identity.value;
    if p.dtype.Some? && id.dtype.Some? && p.dtype != id.dtype { errors := errors + [DtypeContradicts]; }
    if !WithinLimit(id, p.maxModelLen) { errors := errors + [LengthExceedsLimit]; }
    if p.tensorParallel.None? || p.tensorParallel.value !in VALID_TP {
      errors := errors + [BadTensorParallel];
    } else if !DividesHeads(id, p.tensorParallel.value) {
      errors := errors + [HeadsNotDivided];
    }
  }

  method CheckModel(p: Report, c: Checks, r: Request) returns (errors: seq<PlanError>)
    ensures Found(errors, p, c, r, {TrustRequired, WeightsDoNotFit})
  {
    errors := [];
    if r.model.Some? && r.model.value.remoteCode && p.trustRemoteCode != Some(true) {
      errors := errors + [TrustRequired];
    }
    if c.memoryArithmetic && !WeightsFit(Bytes(r), Cards(p), p.hbm) { errors := errors + [WeightsDoNotFit]; }
  }

  /** The validator reports exactly the objections there are. */
  method Validate(p: Report, c: Checks, r: Request) returns (errors: seq<PlanError>)
    ensures forall e :: e in errors <==> Objects(p, c, r, e)
  {
    errors := [];
    if !p.ready { errors := errors + [NotReady]; }
    var decisions := CheckDecisions(p, c, r);
    errors := errors + decisions;
    if c.stackPin && p.stackCommit.None? { errors := errors + [NoStackPin]; }
    if c.revision && p.revision.None? { errors := errors + [NoRevision]; }
    var identity := CheckIdentity(p, c, r);
    var model := CheckModel(p, c, r);
    errors := errors + identity + model;
  }
}

/** operations/deployment/plan_deployment.py: launch parameters derived from facts. */
module Planner {
  import opened Base
  import opened PlanValidator

  const WEIGHT_HEADROOM := 0.55
  const UTILIZATION := 0.9
  const DEFAULT_LIMIT: nat := 32768
  const NO_IDENTITY := Identity(None, None, None, None, None, None, None, None, None)

  function Or(x: Option<nat>, default: nat): nat { if Known(x) then x.value else default }

  function ElementsPerToken(id: Identity): nat {
    if Known(id.kvLoraRank) then id.kvLoraRank.value + Or(id.ropeHeadDim, 0)
    else 2 * Or(id.kvHeads, 1) * Or(id.headDim, Or(id.nopeHeadDim, 128))
  }

  /** `kv_floor_mib`: two bytes per element, layer and token of one full sequence. */
  function KvFloor(id: Identity, len: nat): real {
    (ElementsPerToken(id) * Or(id.layers, 1) * len * 2) as real / MIB
  }

  // ---- tensor parallelism ----

  function Ceil(x: real): int { -((-x).Floor) }

  function MinimumCards(weights: real, hbm: nat): int
    requires hbm > 0
  {
    var cards := Ceil(weights / (hbm as real * WEIGHT_HEADROOM));
    if cards < 1 then 1 else cards
  }

  predicate Suits(size: int, weights: real, hbm: nat, heads: nat)
    requires hbm > 0 && size > 0
  {
    size >= MinimumCards(weights, hbm) && heads % size == 0
  }

  function TensorParallel(weights: real, hbm: nat, heads: nat): (tp: int)
    requires hbm > 0
    ensures tp in VALID_TP
    ensures forall size :: size in VALID_TP && Suits(size, weights, hbm, heads) ==>
              Suits(tp, weights, hbm, heads) && tp <= size
    ensures (forall size :: size in VALID_TP ==> !Suits(size, weights, hbm, heads)) ==> tp == 8
  {
    if Suits(1, weights, hbm, heads) then 1
    else if Suits(2, weights, hbm, heads) then 2
    else if Suits(4, weights, hbm, heads) then 4
    else 8
  }

  // ---- context length ----

  /** Fits with half of the remainder to spare. */
  predicate Fits(id: Identity, len: nat, remainder: real) { KvFloor(id, len) <= remainder * 0.5 }

  /** The search may stop here. */
  predicate Settled(id: Identity, len: nat, remainder: real) { len <= 1024 || Fits(id, len, remainder) }

  function Halved(n: nat, times: nat): nat {
    if times == 0 then n else Halved(n, times - 1) / 2
  }

  /** `len` is `limit` halved the least number of times that settles it. */
  ghost predicate LeastHalving(id: Identity, limit: nat, remainder: real, len: nat, times: nat) {
    && len == Halved(limit, times) && Settled(id, len, remainder)
    && forall k: nat :: k < times ==> !Settled(id, Halved(limit, k), remainder)
  }

  /** `len` is what the least halving of `limit` leaves. */
  ghost predicate CappedTo(id: Identity, limit: nat, remainder: real, len: nat) {
    exists times: nat :: LeastHalving(id, limit, remainder, len, times)
  }

  lemma {:induction false} HalvedShrinks(n: nat, a: nat, b: nat)
    requires a <= b
    ensures Halved(n, b) <= Halved(n, a)
  {
    if a < b { HalvedShrinks(n, a, b - 1); }
  }

  /** `cap_model_len_to_budget`. */
  method CapModelLen(id: Identity, limit: nat, weights: real, hbm: nat, tp: int, utilization: real)
    returns (len: nat)
    requires tp > 0
    ensures CappedTo(id, limit, hbm as real * utilization - weights / tp as real, len)
  {
    var perCard := weights / tp as real;
    var budget := hbm as real * utilization;
    var remainder := budget - perCard;
    if Fits(id, limit, remainder) {
      assert LeastHalving(id, limit, remainder, limit, 0);
      return limit;
    }
    len := limit;
    ghost var times: nat := 0;
    while len > 1024 && !Fits(id, len, remainder)
      invariant len == Halved(limit, times)
      invariant forall k: nat :: k < times ==> !Settled(id, Halved(limit, k), remainder)
      decreases len
    {
      len, times := len / 2, times + 1;
    }
    assert LeastHalving(id, limit, remainder, len, times);
  }

  lemma KvFloorPositive(id: Identity, len: nat)
    requires len > 0
    ensures KvFloor(id, len) > 0.0
  {
    PositiveProduct(Or(id.kvHeads, 1), Or(id.headDim, Or(id.nopeHeadDim, 128)));
    PositiveProduct(ElementsPerToken(id), Or(id.layers, 1));
    PositiveProduct(ElementsPerToken(id) * Or(id.layers, 1), len);
  }

  lemma PositiveProduct(a: nat, b: nat)
    requires a > 0 && b > 0
    ensures a * b > 0
  {
  }

  /** The capped length lies between 512 and the limit; with nothing left after the
      weights no context above 1024 survives. */
  lemma CapBounds(id: Identity, limit: nat, remainder: real, len: nat, times: nat)
    requires LeastHalving(id, limit, remainder, len, times)
    ensures len <= limit
    ensures len != limit ==> 512 <= len
    ensures len == limit <==> Settled(id, limit, remainder)
    ensures remainder <= 0.0 && limit > 1024 ==> len <= 1024
    ensures len > 1024 ==> Fits(id, len, remainder)
  {
    HalvedShrinks(limit, 0, times);
    if times > 0 {
      var before := Halved(limit, times - 1);
      assert !Settled(id, before, remainder);
      HalvedShrinks(limit, 0, times - 1);
    }
    if len > 0 { KvFloorPositive(id, len); }
  }

  /** What settles a length settles it with more memory. */
  lemma HalvingsOrdered(id: Identity, limit: nat, r1: real, a: nat, i: nat, r2: real, b: nat, j: nat)
    requires r1 <= r2 && LeastHalving(id, limit, r1, a, i) && LeastHalving(id, limit, r2, b, j)
    ensures j <= i && a <= b
  {
    assert Settled(id, Halved(limit, i), r2);
    assert j <= i;
    HalvedShrinks(limit, j, i);
  }

  /** More memory never shortens the context, and equal memory leaves one context. */
  lemma MoreMemoryLongerContext(id: Identity, limit: nat, r1: real, a: nat, r2: real, b: nat)
    requires r1 <= r2 && CappedTo(id, limit, r1, a) && CappedTo(id, limit, r2, b)
    ensures a <= b
    ensures r1 == r2 ==> a == b
  {
    var i: nat :| LeastHalving(id, limit, r1, a, i);
    var j: nat :| LeastHalving(id, limit, r2, b, j);
    HalvingsOrdered(id, limit, r1, a, i, r2, b, j);
    if r1 == r2 { HalvingsOrdered(id, limit, r2, b, j, r1, a, i); }
  }

  // ---- in plain numbers ----

  /** A checkpoint field, or `default` where it is absent or zero. */
  function Stated(x: Option<nat>, default: nat): nat {
    match x
    case Some(n) => if n > 0 then n else default
    case None => default
  }

  /** Two-byte cache elements per token and layer: the compressed latent and its rotary
      part, or keys and values of every head. */
  function CacheElements(id: Identity): nat {
    if id.kvLoraRank.Some? && id.kvLoraRank.value > 0 then id.kvLoraRank.value + Stated(id.ropeHeadDim, 0)
    else
      var dim := if Stated(id.headDim, 0) > 0 then Stated(id.headDim, 0) else Stated(id.nopeHeadDim, 128);
      (Stated(id.kvHeads, 1) * dim) * 2
  }

  /** MiB of cache one full sequence of `len` tokens takes. */
  function CacheMib(id: Identity, len: nat): real {
    (CacheElements(id) * Stated(id.layers, 1) * len * 2) as real / 1048576.0
  }

  lemma CacheIsFloor(id: Identity, len: nat)
    ensures KvFloor(id, len) == CacheMib(id, len)
  {
    Commuted(Or(id.kvHeads, 1), Or(id.headDim, Or(id.nopeHeadDim, 128)));
    assert ElementsPerToken(id) == CacheElements(id);
  }

  lemma Commuted(a: nat, b: nat)
    ensures 2 * a * b == (a * b) * 2
  {
  }

  predicate CutFrom(id: Identity, limit: nat, left: real, longer: nat, len: nat) {
    len == longer / 2 && 1024 < longer <= limit && CacheMib(id, longer) > left / 2.0
  }

  /** The capped length in numbers: it keeps the limit if a full sequence takes at most
      half of what the weights leave, or the limit is 1024 or less; otherwise it is the
      half, rounded down, of a longer length that took more, and fits unless it is short
      already. */
  lemma CapByNumbers(id: Identity, limit: nat, left: real, len: nat)
    requires CappedTo(id, limit, left, len)
    ensures len == limit <==> limit <= 1024 || CacheMib(id, limit) <= left / 2.0
    ensures len > 1024 ==> CacheMib(id, len) <= left / 2.0
    ensures len != limit ==> 512 <= len < limit && exists longer: nat :: CutFrom(id, limit, left, longer, len)
  {
    var times: nat :| LeastHalving(id, limit, left, len, times);
    CapBounds(id, limit, left, len, times);
    CacheIsFloor(id, limit);
    CacheIsFloor(id, len);
    if len != limit {
      var longer := Halved(limit, times - 1);
      assert !Settled(id, longer, left);
      CacheIsFloor(id, longer);
      HalvedShrinks(limit, 0, times - 1);
      assert CutFrom(id, limit, left, longer, len);
    }
  }

  /** Each card holds at most 0.55 of its memory in weights, and the heads divide evenly. */
  predicate Carries(size: nat, weights: real, hbm: nat, heads: nat)
    requires hbm > 0 && size > 0
  {
    weights / size as real <= hbm as real * 0.55 && heads % size == 0
  }

  /** The chosen size is the smallest of 1, 2, 4 and 8 that carries the model, or 8. */
  lemma SizeByNumbers(weights: real, hbm: nat, heads: nat)
    requires hbm > 0
    ensures TensorParallel(weights, hbm, heads) ==
              if Carries(1, weights, hbm, heads) then 1
              else if Carries(2, weights, hbm, heads) then 2
              else if Carries(4, weights, hbm, heads) then 4
              else 8
  {
    HeadroomBound(1, weights, hbm);
    HeadroomBound(2, weights, hbm);
    HeadroomBound(4, weights, hbm);
  }

  // ---- the plan ----

  function IdentityOf(r: Request): Identity { r.identity.GetOr(NO_IDENTITY) }
  function Weights(r: Request): real { Mib(Bytes(r)) }
  function Heads(r: Request): nat { Or(IdentityOf(r).heads, 1) }

  function Limit(r: Request): nat { Or(IdentityOf(r).positionLimit, DEFAULT_LIMIT) }

  /** Memory per card inside the budget once the weights are loaded. */
  function Remainder(r: Request, hbm: nat, tp: int): real
    requires tp != 0
  {
    hbm as real * UTILIZATION - Weights(r) / tp as real
  }

  ghost predicate Capped(r: Request, hbm: nat, tp: int, len: nat)
    requires tp != 0
  {
    CappedTo(IdentityOf(r), Limit(r), Remainder(r, hbm, tp), len)
  }

  /** `plan`, with the eager-execution verdict of the placed patch as a flag. */
  method MakePlan(r: Request, hbm: nat, eager: bool) returns (p: Report)
    requires hbm > 0
    ensures p.hbm == hbm && p.ready && p.dtype == IdentityOf(r).dtype
    ensures p.revision == (if r.model.Some? then r.model.value.revision else None) && p.stackCommit == r.stackCommit
    ensures p.trustRemoteCode == Some(r.model.Some? && r.model.value.remoteCode) && p.enforceEager == Some(eager)
    ensures p.tensorParallel == Some(TensorParallel(Weights(r), hbm, Heads(r)))
    ensures p.blockSize == Some(if Stated(IdentityOf(r).kvLoraRank, 0) > 0 then 64 else 16)
            && p.utilization == Some(0.9)
    ensures p.maxModelLen.Some? && p.maxModelLen.value >= 0
    ensures var id := IdentityOf(r);
            var perCard := Bytes(r) as real / 1048576.0 / p.tensorParallel.value as real;
            CappedTo(id, Stated(id.positionLimit, 32768), hbm as real * 0.9 - perCard, p.maxModelLen.value)
  {
    var id := IdentityOf(r);
    var tp := TensorParallel(Weights(r), hbm, Heads(r));
    var len := CapModelLen(id, Limit(r), Weights(r), hbm, tp, UTILIZATION);
    p := Report(true, id.dtype, Some(tp), Some(len), Some(if Known(id.kvLoraRank) then 64 else 16),
                Some(r.model.Some? && r.model.value.remoteCode), Some(UTILIZATION), Some(eager),
                if r.model.Some? then r.model.value.revision else None, r.stackCommit, hbm);
  }

  // ---- planner and validator agree ----

  lemma ShareOf(weights: real, tp: int, bound: real)
    requires tp > 0
    ensures weights <= tp as real * bound <==> weights / tp as real <= bound
  {
  }

  lemma CeilAtMost(x: real, n: int)
    ensures Ceil(x) <= n <==> x <= n as real
  {
  }

  /** A size meets the headroom bound exactly when each card holds at most 0.55 of its
      memory in weights. */
  lemma HeadroomBound(size: int, weights: real, hbm: nat)
    requires hbm > 0 && size > 0
    ensures size >= MinimumCards(weights, hbm) <==> weights / size as real <= hbm as real * 0.55
  {
    var room := hbm as real * WEIGHT_HEADROOM;
    assert room > 0.0;
    CeilAtMost(weights / room, size);
    Quotient(weights, room, size as real);
    ShareOf(weights, size, room);
  }

  lemma Quotient(a: real, b: real, c: real)
    requires b > 0.0
    ensures a / b <= c <==> a <= c * b
  {
    var q := a / b;
    assert a == q * b;
  }

  ghost predicate SomeSizeSuits(r: Request, hbm: nat)
    requires hbm > 0
  {
    exists size :: size in VALID_TP && Suits(size, Weights(r), hbm, Heads(r))
  }

  /** When some size meets the headroom bound and divides the heads, at least 0.35 of
      the memory is left after weights inside the 0.9 budget. */
  lemma RemainderLeft(r: Request, hbm: nat)
    requires hbm > 0 && SomeSizeSuits(r, hbm)
    ensures var tp := TensorParallel(Weights(r), hbm, Heads(r));
            && Heads(r) % tp == 0 && Weights(r) / tp as real <= hbm as real * WEIGHT_HEADROOM
            && hbm as real * UTILIZATION - Weights(r) / tp as real >= hbm as real * 0.35
  {
    var size :| size in VALID_TP && Suits(size, Weights(r), hbm, Heads(r));
    HeadroomBound(TensorParallel(Weights(r), hbm, Heads(r)), Weights(r), hbm);
  }

  lemma LengthWithinLimit(r: Request, hbm: nat, tp: int, len: nat)
    requires tp != 0 && Capped(r, hbm, tp, len)
    ensures len <= Limit(r)
  {
    var times: nat :| LeastHalving(IdentityOf(r), Limit(r), Remainder(r, hbm, tp), len, times);
    CapBounds(IdentityOf(r), Limit(r), Remainder(r, hbm, tp), len, times);
  }

  /** Exactly what the validator holds against a plan of the planner's: never its
      tensor parallel size, its length, its dtype or its trust flag; and when no size
      suits, only what the fallback to eight cards gets wrong. */
  method PlanAndValidate(r: Request, hbm: nat, eager: bool, c: Checks) returns (p: Report, errors: seq<PlanError>)
    requires hbm > 0
    ensures NotReady !in errors && BadTensorParallel !in errors && LengthExceedsLimit !in errors
    ensures DtypeContradicts !in errors && TrustRequired !in errors
    ensures forall q :: NoValue(q) in errors <==> q == Dtype && IdentityOf(r).dtype.None?
    ensures SomeSizeSuits(r, hbm) ==> HeadsNotDivided !in errors && WeightsDoNotFit !in errors
    ensures !SomeSizeSuits(r, hbm) ==>
              && (HeadsNotDivided in errors <==> Known(IdentityOf(r).heads) && Heads(r) % 8 != 0)
              && (WeightsDoNotFit in errors <==> c.memoryArithmetic && Weights(r) / 8.0 > hbm as real)
  {
    p := MakePlan(r, hbm, eager);
    errors := Validate(p, c, r);
    LengthWithinLimit(r, hbm, p.tensorParallel.value, p.maxModelLen.value);
    if SomeSizeSuits(r, hbm) { RemainderLeft(r, hbm); }
  }
}
