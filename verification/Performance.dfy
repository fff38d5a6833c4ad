/** core/performance.py: metric comparison, and the runner's overall verdict. */
module Performance {
  import opened Base

  datatype Value = Finite(amount: real) | NonFinite
  datatype Metric = Metric(name: string, labels: map<string, string>, unit: string, value: Value,
                           direction: Option<string>)

  /** Metrics are told apart by name and labels. */
  datatype Key = Key(name: string, labels: map<string, string>)
  function KeyOf(m: Metric): Key { Key(m.name, m.labels) }
  function KeysOf(ms: seq<Metric>): seq<Key> { seq(|ms|, i requires 0 <= i < |ms| => KeyOf(ms[i])) }

  datatype Verdict = Pass | Fail | Unknown | Incomparable
  datatype GateResult = GateResult(name: string, key: Option<Key>, verdict: Verdict)

  const HIGHER := "higher_is_better"
  const LOWER := "lower_is_better"

  /** `_legacy_direction`; splitting a name into lower-case words is not modelled. */
  function LegacyDirection(words: set<string>): Option<string> {
    var lower := words * {"latency", "tpot", "ttft"} != {};
    var higher := "throughput" in words;
    if lower == higher then None else if lower then Some(LOWER) else Some(HIGHER)
  }

  type Words = string -> set<string>

  // ---- the reference: what a key deserves, read off the two lists ----

  function Occurrences(ms: seq<Metric>, k: Key): nat {
    if ms == [] then 0 else Occurrences(ms[..|ms| - 1], k) + (if KeyOf(ms[|ms| - 1]) == k then 1 else 0)
  }

  /** The last metric under `k`. */
  function LastOf(ms: seq<Metric>, k: Key): (m: Option<Metric>)
    ensures m.Some? <==> Occurrences(ms, k) > 0
    ensures m.Some? ==> m.value in ms && KeyOf(m.value) == k
  {
    if ms == [] then None
    else if KeyOf(ms[|ms| - 1]) == k then Some(ms[|ms| - 1])
    else LastOf(ms[..|ms| - 1], k)
  }

  /** Stated directions must be valid and agree; unstated ones are inferred. */
  function Direction(words: Words, reference: Metric, metric: Metric): Option<string> {
    var stated := {reference.direction, metric.direction} - {None};
    if !(stated <= {Some(HIGHER), Some(LOWER)}) || |stated| > 1 then None
    else if reference.direction.Some? then reference.direction
    else if metric.direction.Some? then metric.direction
    else LegacyDirection(words(metric.name))
  }

  function Abs(x: real): real { if x < 0.0 then -x else x }

  function Regression(direction: string, reference: real, metric: real): real
    requires reference != 0.0
  {
    (if direction == LOWER then metric - reference else reference - metric) / Abs(reference)
  }

  /** Both sides have the key exactly once and can be compared. */
  predicate Comparable(words: Words, reference: Metric, metric: Metric) {
    && reference.unit == metric.unit && reference.value.Finite? && metric.value.Finite?
    && Direction(words, reference, metric).Some? && reference.value.amount != 0.0
  }

  predicate Bounded(words: Words, reference: Metric, metric: Metric, allowed: real)
    requires Comparable(words, reference, metric)
  {
    Regression(Direction(words, reference, metric).value, reference.value.amount, metric.value.amount) <= allowed
  }

  /** The verdict a key deserves. */
  function Deserved(words: Words, baseline: seq<Metric>, candidate: seq<Metric>, k: Key, allowed: real): Verdict {
    Judged(words, LastOf(baseline, k), LastOf(candidate, k),
           Occurrences(baseline, k) > 1 || Occurrences(candidate, k) > 1, allowed)
  }

  /** Distinct elements in the order they first appear: the keys of a Python dict. */
  function FirstSeen<T(==,!new)>(s: seq<T>): (r: seq<T>)
    ensures Distinct(r) && (forall x :: x in r <==> x in s)
  {
    if s == [] then []
    else
      var r, last := FirstSeen(s[..|s| - 1]), s[|s| - 1];
      assert s == s[..|s| - 1] + [last];
      if last in r then r else r + [last]
  }

  lemma FirstSeenSnoc<T(!new)>(s: seq<T>, x: T)
    ensures FirstSeen(s + [x]) == if x in FirstSeen(s) then FirstSeen(s) else FirstSeen(s) + [x]
  {
    assert (s + [x])[..|s|] == s;
  }

  lemma {:induction false} FirstSeenOfDistinct<T(!new)>(s: seq<T>)
    requires Distinct(s)
    ensures FirstSeen(s) == s
  {
    if s != [] { FirstSeenOfDistinct(s[..|s| - 1]); }
  }

  /** Deduplicating the two key lists first changes nothing. */
  lemma {:induction false} FirstSeenTwice<T(!new)>(a: seq<T>, b: seq<T>)
    ensures FirstSeen(FirstSeen(a) + FirstSeen(b)) == FirstSeen(a + b)
  {
    if b == [] {
      FirstSeenTwiceEmpty(a);
    } else {
      var init, x := b[..|b| - 1], b[|b| - 1];
      assert b == init + [x];
      FirstSeenTwice(a, init);
      FirstSeenTwiceSnoc(a, init, x);
    }
  }

  lemma FirstSeenTwiceEmpty<T(!new)>(a: seq<T>)
    ensures FirstSeen(FirstSeen(a) + FirstSeen<T>([])) == FirstSeen(a + [])
  {
    FirstSeenOfDistinct(FirstSeen(a));
    assert FirstSeen(a) + FirstSeen<T>([]) == FirstSeen(a);
    assert a + [] == a;
  }

  lemma FirstSeenTwiceSnoc<T(!new)>(a: seq<T>, b: seq<T>, x: T)
    requires FirstSeen(FirstSeen(a) + FirstSeen(b)) == FirstSeen(a + b)
    ensures FirstSeen(FirstSeen(a) + FirstSeen(b + [x])) == FirstSeen(a + (b + [x]))
  {
    var fa, fb := FirstSeen(a), FirstSeen(b);
    Assoc(a, b, [x]);
    FirstSeenSnoc(a + b, x);
    FirstSeenSnoc(b, x);
    if x !in fb {
      Assoc(fa, fb, [x]);
      FirstSeenSnoc(fa + fb, x);
    }
  }

  // ---- the code ----

  /** The dictionary and the set agree with the list about `k`. */
  predicate IndexedAt(ms: seq<Metric>, indexed: map<Key, Metric>, duplicates: set<Key>, k: Key) {
    && (k in indexed <==> Occurrences(ms, k) > 0)
    && (k in indexed ==> LastOf(ms, k) == Some(indexed[k]))
    && (k in duplicates <==> Occurrences(ms, k) > 1)
  }

  lemma IndexOneMore(ms: seq<Metric>, m: Metric, indexed: map<Key, Metric>, duplicates: set<Key>,
                     indexed': map<Key, Metric>, duplicates': set<Key>)
    requires forall k :: IndexedAt(ms, indexed, duplicates, k)
    requires indexed' == indexed[KeyOf(m) := m]
    requires duplicates' == if KeyOf(m) in indexed then duplicates + {KeyOf(m)} else duplicates
    ensures forall k :: IndexedAt(ms + [m], indexed', duplicates', k)
  {
    assert (ms + [m])[..|ms|] == ms;
    forall k ensures IndexedAt(ms + [m], indexed', duplicates', k) {
      assert IndexedAt(ms, indexed, duplicates, k);
    }
  }

  lemma FirstSeenOneMore(ms: seq<Metric>, m: Metric)
    ensures var order := FirstSeen(KeysOf(ms));
            FirstSeen(KeysOf(ms + [m])) == if KeyOf(m) in order then order else order + [KeyOf(m)]
  {
    assert KeysOf(ms + [m]) == KeysOf(ms) + [KeyOf(m)];
    FirstSeenSnoc(KeysOf(ms), KeyOf(m));
  }

  method IndexMetrics(ms: seq<Metric>) returns (order: seq<Key>, indexed: map<Key, Metric>, duplicates: set<Key>)
    ensures order == FirstSeen(KeysOf(ms))
    ensures forall k :: IndexedAt(ms, indexed, duplicates, k)
  {
    order, indexed, duplicates := [], map[], {};
    for i := 0 to |ms|
      invariant order == FirstSeen(KeysOf(ms[..i]))
      invariant forall k :: IndexedAt(ms[..i], indexed, duplicates, k)
    {
      var key := KeyOf(ms[i]);
      assert ms[..i + 1] == ms[..i] + [ms[i]];
      FirstSeenOneMore(ms[..i], ms[i]);
      OccursIffKeyed(ms[..i], key);
      assert IndexedAt(ms[..i], indexed, duplicates, key);
      ghost var indexed0, duplicates0 := indexed, duplicates;
      if key in indexed { duplicates := duplicates + {key}; } else { order := order + [key]; }
      indexed := indexed[key := ms[i]];
      IndexOneMore(ms[..i], ms[i], indexed0, duplicates0, indexed, duplicates);
    }
    assert ms[..|ms|] == ms;
  }

  function Lookup(m: map<Key, Metric>, k: Key): Option<Metric> { if k in m then Some(m[k]) else None }

  function Judged(words: Words, reference: Option<Metric>, metric: Option<Metric>, duplicate: bool, allowed: real)
    : Verdict
  {
    if duplicate then Incomparable
    else if metric.None? then Fail
    else if reference.None? then Unknown
    else if !Comparable(words, reference.value, metric.value) then Incomparable
    else if Bounded(words, reference.value, metric.value, allowed) then Pass
    else Fail
  }

  lemma IndexedVerdict(words: Words, baseline: seq<Metric>, base: map<Key, Metric>, duplicateBase: set<Key>,
                       candidate: seq<Metric>, current: map<Key, Metric>, duplicateCurrent: set<Key>, k: Key,
                       allowed: real)
    requires IndexedAt(baseline, base, duplicateBase, k) && IndexedAt(candidate, current, duplicateCurrent, k)
    ensures Judged(words, Lookup(base, k), Lookup(current, k), k in duplicateBase || k in duplicateCurrent, allowed)
              == Deserved(words, baseline, candidate, k, allowed)
  {
  }

  /** Stated directions first, from whichever side states one; else the name's. */
  method ChooseDirection(words: Words, was: Metric, now: Metric) returns (direction: Option<string>)
    ensures direction == Direction(words, was, now)
  {
    var stated: set<string> := {};
    if was.direction.Some? { stated := stated + {was.direction.value}; }
    if now.direction.Some? { stated := stated + {now.direction.value}; }
    StatedDirections(words, was, now);
    if stated - {HIGHER, LOWER} != {} || |stated| > 1 { return None; }
    if was.direction.Some? { return was.direction; }
    if now.direction.Some? { return now.direction; }
    return LegacyDirection(words(now.name));
  }

  /** The branches of the comparison, for one key, in the order they are taken. */
  method Judge(words: Words, reference: Option<Metric>, metric: Option<Metric>, duplicate: bool, allowed: real)
    returns (verdict: Verdict)
    ensures verdict == Judged(words, reference, metric, duplicate, allowed)
  {
    if duplicate { return Incomparable; }
    if metric.None? { return Fail; }
    if reference.None? { return Unknown; }
    var was, now := reference.value, metric.value;
    if was.unit != now.unit { return Incomparable; }
    if !was.value.Finite? || !now.value.Finite? { return Incomparable; }
    var direction := ChooseDirection(words, was, now);
    if direction.None? { return Incomparable; }
    if was.value.amount == 0.0 { return Incomparable; }
    var delta := now.value.amount - was.value.amount;
    var regression := (if direction.value == LOWER then delta else -delta) / Abs(was.value.amount);
    return if regression <= allowed then Pass else Fail;
  }

  lemma StatedDirections(words: Words, was: Metric, now: Metric)
    ensures Direction(words, was, now) ==
              if (was.direction.Some? && was.direction.value !in {HIGHER, LOWER})
                 || (now.direction.Some? && now.direction.value !in {HIGHER, LOWER})
                 || (was.direction.Some? && now.direction.Some? && was.direction != now.direction) then None
              else if was.direction.Some? then was.direction
              else if now.direction.Some? then now.direction
              else LegacyDirection(words(now.name))
  {
    var stated := {was.direction, now.direction} - {None};
    if was.direction.Some? && now.direction.Some? {
      assert stated == {was.direction, now.direction};
      if was.direction != now.direction { assert |{was.direction, now.direction}| == 2; }
      if was.direction == now.direction { assert stated == {was.direction}; }
    } else if was.direction.Some? {
      assert stated == {was.direction};
    } else if now.direction.Some? {
      assert stated == {now.direction};
    } else {
      assert stated == {};
    }
  }

  datatype CompareError = BadMaxRegression

  function Order(baseline: seq<Metric>, candidate: seq<Metric>): seq<Key> {
    FirstSeen(KeysOf(candidate) + KeysOf(baseline))
  }

  function Reported(words: Words, baseline: seq<Metric>, candidate: seq<Metric>, k: Key, allowed: real): GateResult {
    GateResult(k.name, Some(k), Deserved(words, baseline, candidate, k, allowed))
  }

  /** Exactly one result per distinct key, candidate keys first, each with the verdict
      the key deserves; a single UNKNOWN when there is no key at all. */
  method CompareMetrics(words: Words, baseline: seq<Metric>, candidate: seq<Metric>, allowed: Value)
    returns (outcome: Outcome<seq<GateResult>, CompareError>)
    ensures outcome.Ok? <==> allowed.Finite? && allowed.amount >= 0.0
    ensures outcome.Ok? && Order(baseline, candidate) == [] ==> outcome.value == [GateResult("metrics", None, Unknown)]
    ensures outcome.Ok? && Order(baseline, candidate) != [] ==>
              && var order := Order(baseline, candidate);
              && |outcome.value| == |order|
              && forall i :: 0 <= i < |order| ==>
                  outcome.value[i] == Reported(words, baseline, candidate, order[i], allowed.amount)
  {
    if !allowed.Finite? || allowed.amount < 0.0 { return Err(BadMaxRegression); }
    var baseOrder, base, duplicateBase := IndexMetrics(baseline);
    var currentOrder, current, duplicateCurrent := IndexMetrics(candidate);
    var keys := FirstSeen(currentOrder + baseOrder);
    FirstSeenTwice(KeysOf(candidate), KeysOf(baseline));
    var results := [];
    for i := 0 to |keys|
      invariant |results| == i
      invariant forall j :: 0 <= j < i ==> results[j] == Reported(words, baseline, candidate, keys[j], allowed.amount)
    {
      var key := keys[i];
      assert IndexedAt(baseline, base, duplicateBase, key) && IndexedAt(candidate, current, duplicateCurrent, key);
      IndexedVerdict(words, baseline, base, duplicateBase, candidate, current, duplicateCurrent, key, allowed.amount);
      var verdict := Judge(words, Lookup(base, key), Lookup(current, key),
                           key in duplicateBase || key in duplicateCurrent, allowed.amount);
      results := results + [GateResult(key.name, Some(key), verdict)];
    }
    return Ok(if results == [] then [GateResult("metrics", None, Unknown)] else results);
  }

  /** The keys reported are the distinct keys of both lists, each once. */
  lemma OrderIsPartition(baseline: seq<Metric>, candidate: seq<Metric>, k: Key)
    ensures Distinct(Order(baseline, candidate))
    ensures k in Order(baseline, candidate) <==> Occurrences(baseline, k) + Occurrences(candidate, k) > 0
  {
    OccursIffKeyed(baseline, k);
    OccursIffKeyed(candidate, k);
  }

  lemma {:induction false} OccursIffKeyed(ms: seq<Metric>, k: Key)
    ensures k in KeysOf(ms) <==> Occurrences(ms, k) > 0
  {
    if ms != [] {
      var init := ms[..|ms| - 1];
      OccursIffKeyed(init, k);
      assert KeysOf(ms) == KeysOf(init) + [KeyOf(ms[|ms| - 1])];
    }
  }

  // ---- meaning of the verdicts ----

  /** Once on each side, same unit, finite, a direction, a nonzero baseline and a
      bounded regression. */
  predicate MeetsGate(words: Words, baseline: seq<Metric>, candidate: seq<Metric>, k: Key, allowed: real) {
    && Occurrences(baseline, k) == 1 && Occurrences(candidate, k) == 1
    && var was, now := LastOf(baseline, k).value, LastOf(candidate, k).value;
    && Comparable(words, was, now) && Bounded(words, was, now, allowed)
  }

  lemma PassExactly(words: Words, baseline: seq<Metric>, candidate: seq<Metric>, k: Key, allowed: real)
    ensures Deserved(words, baseline, candidate, k, allowed).Pass? <==>
              MeetsGate(words, baseline, candidate, k, allowed)
  {
  }

  // ---- in plain numbers ----

  /** Whether smaller values are better, as far as anybody says so: a stated direction
      must be one of the two, both sides must agree, and only a name that speaks of
      latency or of throughput, not of both, stands in for a direction nobody states. */
  function SmallerIsBetter(words: Words, was: Metric, now: Metric): Option<bool> {
    var named := words(now.name);
    var slow := "latency" in named || "tpot" in named || "ttft" in named;
    var fast := "throughput" in named;
    match (was.direction, now.direction)
    case (None, None) => if slow && !fast then Some(true) else if fast && !slow then Some(false) else None
    case (Some(d), None) => Stated(d)
    case (None, Some(d)) => Stated(d)
    case (Some(d), Some(e)) => if d == e then Stated(d) else None
  }

  function Stated(direction: string): Option<bool> {
    if direction == "lower_is_better" then Some(true)
    else if direction == "higher_is_better" then Some(false)
    else None
  }

  function Magnitude(x: real): real { if x >= 0.0 then x else 0.0 - x }

  lemma DirectionExactly(words: Words, was: Metric, now: Metric)
    ensures Direction(words, was, now) ==
              match SmallerIsBetter(words, was, now)
              case None => None
              case Some(smaller) => Some(if smaller then "lower_is_better" else "higher_is_better")
  {
    StatedDirections(words, was, now);
    LegacyExactly(words(now.name));
  }

  lemma LegacyExactly(words: set<string>)
    ensures LegacyDirection(words) ==
              (if ("latency" in words || "tpot" in words || "ttft" in words) && "throughput" !in words then
                 Some("lower_is_better")
               else if "throughput" in words && !("latency" in words || "tpot" in words || "ttft" in words) then
                 Some("higher_is_better")
               else None)
  {
    var hits := words * {"latency", "tpot", "ttft"};
    assert forall x :: x in hits <==> x in words && (x == "latency" || x == "tpot" || x == "ttft");
  }

  /** Units, finiteness, direction and a nonzero baseline make two metrics comparable, and
      the candidate passes exactly when it got worse by at most `allowed` times the
      baseline's magnitude. */
  function PairVerdict(words: Words, was: Metric, now: Metric, allowed: real): Verdict {
    var smaller := SmallerIsBetter(words, was, now);
    if was.unit != now.unit || was.value == NonFinite || now.value == NonFinite || smaller == None
       || was.value.amount == 0.0 then Incomparable
    else
      var a, b := was.value.amount, now.value.amount;
      var worse := if smaller.value then b - a else a - b;
      if worse <= allowed * Magnitude(a) then Pass else Fail
  }

  lemma ComparableExactly(words: Words, was: Metric, now: Metric)
    ensures Comparable(words, was, now) <==>
              && was.unit == now.unit && was.value != NonFinite && now.value != NonFinite
              && SmallerIsBetter(words, was, now) != None && was.value.amount != 0.0
  {
    DirectionExactly(words, was, now);
  }

  lemma PairExactly(words: Words, was: Metric, now: Metric, allowed: real)
    ensures Judged(words, Some(was), Some(now), false, allowed) == PairVerdict(words, was, now, allowed)
  {
    ComparableExactly(words, was, now);
    DirectionExactly(words, was, now);
    if Comparable(words, was, now) {
      var a, b := was.value.amount, now.value.amount;
      QuotientBound(if SmallerIsBetter(words, was, now).value then b - a else a - b, Abs(a), allowed);
    }
  }

  /** A key's verdict in numbers: duplicates cannot be compared, a metric that went away
      fails, a new one is unknown, and a pair is judged by its values. */
  lemma VerdictByNumbers(words: Words, baseline: seq<Metric>, candidate: seq<Metric>, k: Key, allowed: real)
    ensures Deserved(words, baseline, candidate, k, allowed) ==
              if Occurrences(baseline, k) > 1 || Occurrences(candidate, k) > 1 then Incomparable
              else if Occurrences(candidate, k) == 0 then Fail
              else if Occurrences(baseline, k) == 0 then Unknown
              else PairVerdict(words, LastOf(baseline, k).value, LastOf(candidate, k).value, allowed)
  {
    if Occurrences(baseline, k) == 1 && Occurrences(candidate, k) == 1 {
      PairExactly(words, LastOf(baseline, k).value, LastOf(candidate, k).value, allowed);
    }
  }

  lemma QuotientBound(a: real, b: real, c: real)
    requires b > 0.0
    ensures a / b <= c <==> a <= c * b
  {
    var q := a / b;
    assert a == q * b;
  }

  // ---- the runner ----

  /** Some key of either list has this verdict. */
  ghost predicate SomeKey(words: Words, baseline: seq<Metric>, candidate: seq<Metric>, allowed: real, v: Verdict) {
    exists k :: Listed(baseline, candidate, k) && Deserved(words, baseline, candidate, k, allowed) == v
  }

  predicate Listed(baseline: seq<Metric>, candidate: seq<Metric>, k: Key) {
    Occurrences(baseline, k) + Occurrences(candidate, k) > 0
  }

  lemma AllKeysPass(words: Words, baseline: seq<Metric>, candidate: seq<Metric>, allowed: real)
    ensures (forall v :: SomeKey(words, baseline, candidate, allowed, v) ==> v.Pass?)
              <==> (forall k :: Listed(baseline, candidate, k) ==> MeetsGate(words, baseline, candidate, k, allowed))
  {
    forall k
      ensures Deserved(words, baseline, candidate, k, allowed).Pass? <==>
                MeetsGate(words, baseline, candidate, k, allowed)
    {
      PassExactly(words, baseline, candidate, k, allowed);
    }
    if forall v :: SomeKey(words, baseline, candidate, allowed, v) ==> v.Pass? {
      forall k | Listed(baseline, candidate, k) ensures MeetsGate(words, baseline, candidate, k, allowed) {
        assert SomeKey(words, baseline, candidate, allowed, Deserved(words, baseline, candidate, k, allowed));
      }
    }
  }

  predicate SomeGate(gates: seq<GateResult>, v: Verdict) { exists i :: 0 <= i < |gates| && gates[i].verdict == v }

  lemma GateIffKey(words: Words, baseline: seq<Metric>, candidate: seq<Metric>, allowed: real,
                   gates: seq<GateResult>, v: Verdict)
    requires var order := Order(baseline, candidate);
             && |gates| == |order|
             && forall i :: 0 <= i < |order| ==> gates[i] == Reported(words, baseline, candidate, order[i], allowed)
    ensures SomeGate(gates, v) <==> SomeKey(words, baseline, candidate, allowed, v)
  {
    var order := Order(baseline, candidate);
    if SomeGate(gates, v) {
      var i :| 0 <= i < |gates| && gates[i].verdict == v;
      OrderIsPartition(baseline, candidate, order[i]);
    }
    if SomeKey(words, baseline, candidate, allowed, v) {
      var k :| Listed(baseline, candidate, k) && Deserved(words, baseline, candidate, k, allowed) == v;
      OrderIsPartition(baseline, candidate, k);
      var i :| 0 <= i < |order| && order[i] == k;
      assert gates[i].verdict == v;
    }
  }

  lemma NoKeys(baseline: seq<Metric>, candidate: seq<Metric>)
    ensures Order(baseline, candidate) == [] <==> baseline == [] && candidate == []
  {
    var keys := KeysOf(candidate) + KeysOf(baseline);
    assert |keys| == |candidate| + |baseline|;
    if keys != [] { assert keys[0] in keys; }
  }

  /** The runner's status: PASS means every key deserves PASS and there is one; FAIL
      means some key does. */
  method Assess(words: Words, baseline: seq<Metric>, candidate: seq<Metric>, allowed: real) returns (status: Verdict)
    requires allowed >= 0.0
    ensures status.Pass? <==>
              && (baseline != [] || candidate != [])
              && forall k :: Listed(baseline, candidate, k) ==> MeetsGate(words, baseline, candidate, k, allowed)
    ensures status.Fail? <==> SomeKey(words, baseline, candidate, allowed, Fail)
    ensures status.Incomparable? <==>
              !SomeKey(words, baseline, candidate, allowed, Fail)
              && SomeKey(words, baseline, candidate, allowed, Incomparable)
  {
    var outcome := CompareMetrics(words, baseline, candidate, Finite(allowed));
    var gates := outcome.value;
    NoKeys(baseline, candidate);
    AllKeysPass(words, baseline, candidate, allowed);
    if baseline == [] && candidate == [] {
      assert gates[0].verdict.Unknown?;
      return Unknown;
    }
    forall v ensures SomeGate(gates, v) <==> SomeKey(words, baseline, candidate, allowed, v) {
      GateIffKey(words, baseline, candidate, allowed, gates, v);
    }
    assert SomeGate(gates, gates[0].verdict);
    if exists i :: 0 <= i < |gates| && gates[i].verdict.Fail? { assert SomeGate(gates, Fail); return Fail; }
    if exists i :: 0 <= i < |gates| && gates[i].verdict.Incomparable? {
      assert SomeGate(gates, Incomparable);
      return Incomparable;
    }
    if gates != [] && forall i :: 0 <= i < |gates| ==> gates[i].verdict.Pass? { return Pass; }
    assert SomeGate(gates, Unknown);
    return Unknown;
  }

  // ---- improving a candidate ----

  /** `better` is at least as good a value as `worse` in this direction. */
  predicate AtLeastAsGood(direction: string, better: real, worse: real) {
    if direction == LOWER then better <= worse else better >= worse
  }

  function AmountOf(m: Metric, default: real): real { if m.value.Finite? then m.value.amount else default }

  lemma RegressionMonotone(direction: string, reference: real, worse: real, better: real)
    requires reference != 0.0 && AtLeastAsGood(direction, better, worse)
    ensures Regression(direction, reference, better) <= Regression(direction, reference, worse)
  {
    var a := if direction == LOWER then better - reference else reference - better;
    var b := if direction == LOWER then worse - reference else reference - worse;
    QuotientMonotone(a, b, Abs(reference));
  }

  lemma QuotientMonotone(a: real, b: real, c: real)
    requires a <= b && c > 0.0
    ensures a / c <= b / c
  {
  }

  lemma {:induction false} RevaluedCounts(ms: seq<Metric>, i: nat, v: Value, k: Key)
    requires i < |ms|
    ensures var ms' := ms[i := ms[i].(value := v)];
            && Occurrences(ms', k) == Occurrences(ms, k)
            && (k != KeyOf(ms[i]) ==> LastOf(ms', k) == LastOf(ms, k))
            && (k == KeyOf(ms[i]) && Occurrences(ms, k) == 1 ==>
                  LastOf(ms, k) == Some(ms[i]) && LastOf(ms', k) == Some(ms'[i]))
  {
    var n := |ms| - 1;
    var ms' := ms[i := ms[i].(value := v)];
    if i < n {
      assert ms'[..n] == ms[..n][i := ms[i].(value := v)];
      RevaluedCounts(ms[..n], i, v, k);
      SomeOccurrence(ms[..n], i);
    } else {
      assert ms'[..n] == ms[..n];
    }
  }

  lemma {:induction false} SomeOccurrence(ms: seq<Metric>, i: nat)
    requires i < |ms|
    ensures Occurrences(ms, KeyOf(ms[i])) >= 1
  {
    if i < |ms| - 1 { SomeOccurrence(ms[..|ms| - 1], i); }
  }

  /** Improving one candidate value keeps its PASS and touches no other verdict, so it
      never turns an overall PASS into anything else. */
  lemma ImprovementKeepsPass(words: Words, baseline: seq<Metric>, candidate: seq<Metric>, i: nat, better: real,
                             k: Key, allowed: real)
    requires i < |candidate| && Deserved(words, baseline, candidate, KeyOf(candidate[i]), allowed).Pass?
    requires var was := LastOf(baseline, KeyOf(candidate[i])).value;
             AtLeastAsGood(Direction(words, was, candidate[i]).GetOr(LOWER), better, AmountOf(candidate[i], better))
    ensures var candidate' := candidate[i := candidate[i].(value := Finite(better))];
            Deserved(words, baseline, candidate', k, allowed) == Deserved(words, baseline, candidate, k, allowed)
  {
    var key := KeyOf(candidate[i]);
    RevaluedCounts(candidate, i, Finite(better), k);
    PassExactly(words, baseline, candidate, key, allowed);
    if k == key {
      var was, now := LastOf(baseline, key).value, candidate[i];
      RevaluedCounts(candidate, i, Finite(better), key);
      RegressionMonotone(Direction(words, was, now).value, was.value.amount, now.value.amount, better);
    }
  }

  /** Hence the overall status is what it was. */
  lemma ImprovementKeepsStatus(words: Words, baseline: seq<Metric>, candidate: seq<Metric>, i: nat, better: real,
                               allowed: real, v: Verdict)
    requires i < |candidate| && Deserved(words, baseline, candidate, KeyOf(candidate[i]), allowed).Pass?
    requires var was := LastOf(baseline, KeyOf(candidate[i])).value;
             AtLeastAsGood(Direction(words, was, candidate[i]).GetOr(LOWER), better, AmountOf(candidate[i], better))
    ensures var candidate' := candidate[i := candidate[i].(value := Finite(better))];
            SomeKey(words, baseline, candidate', allowed, v) <==> SomeKey(words, baseline, candidate, allowed, v)
  {
    var candidate' := candidate[i := candidate[i].(value := Finite(better))];
    forall k
      ensures Occurrences(candidate', k) == Occurrences(candidate, k)
      ensures Deserved(words, baseline, candidate', k, allowed) == Deserved(words, baseline, candidate, k, allowed)
    {
      RevaluedCounts(candidate, i, Finite(better), k);
      ImprovementKeepsPass(words, baseline, candidate, i, better, k, allowed);
    }
  }
}
