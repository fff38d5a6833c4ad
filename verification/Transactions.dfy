/** `transaction()` and `commit()` of engine/scheduler.py: nesting by a depth
    counter, and what survives an exception or a crash at any point. */
module Transactions {

  /** What a connection is told to do, one statement at a time. */
  datatype Op<!S> = Enter | Do(effect: S -> S) | CommitCall | Leave(raised: bool)

  datatype Connection<S> = Connection(working: S, committed: S, depth: nat)

  function Step<S>(c: Connection<S>, op: Op<S>): Connection<S> {
    match op
    case Enter => c.(depth := c.depth + 1)
    case Do(effect) => c.(working := effect(c.working))
    case CommitCall => if c.depth == 0 then c.(committed := c.working) else c
    case Leave(raised) =>
      if c.depth == 0 then c
      else if c.depth > 1 then c.(depth := c.depth - 1)
      else if raised then Connection(c.committed, c.committed, 0)
      else Connection(c.working, c.working, 0)
  }

  function Run<S>(c: Connection<S>, ops: seq<Op<S>>): Connection<S>
    decreases ops
  {
    if ops == [] then c else Run(Step(c, ops[0]), ops[1..])
  }

  /** A piece of a transition's body: a write, a `commit()`, or a call to another
      transition, which returns or raises. */
  datatype Item<!S> = Write(effect: S -> S) | Publish | Call(body: seq<Item<S>>, raised: bool)

  /** The statements the connection sees. */
  function Flat<S>(items: seq<Item<S>>): seq<Op<S>> {
    if items == [] then []
    else
      (match items[0]
       case Write(effect) => [Do(effect)]
       case Publish => [CommitCall]
       case Call(body, raised) => Bracketed(Flat(body), raised))
      + Flat(items[1..])
  }

  /** Every write of `items`, nested calls included, in order. */
  function Effect<S>(items: seq<Item<S>>, s: S): S {
    if items == [] then s
    else
      Effect(items[1..],
             match items[0]
             case Write(effect) => effect(s)
             case Publish => s
             case Call(body, _) => Effect(body, s))
  }

  predicate AllCalls<S>(txs: seq<Item<S>>) { forall i :: 0 <= i < |txs| ==> txs[i].Call? }

  /** Whole transitions, one after the other: all of it, or none if it raised. */
  function Net<S>(txs: seq<Item<S>>, s: S): S
    requires AllCalls(txs)
  {
    if txs == [] then s else Net(txs[1..], if txs[0].raised then s else Effect(txs[0].body, s))
  }

  /** How many whole transitions end within the first `n` statements. */
  function Whole<S>(txs: seq<Item<S>>, n: nat): (k: nat)
    ensures k <= |txs|
  {
    if txs == [] || n < |Flat(txs[..1])| then 0 else 1 + Whole(txs[1..], n - |Flat(txs[..1])|)
  }

  lemma {:induction false} RunConcat<S>(c: Connection<S>, a: seq<Op<S>>, b: seq<Op<S>>)
    ensures Run(c, a + b) == Run(Run(c, a), b)
    decreases a
  {
    if a == [] {
      assert a + b == b;
    } else {
      assert (a + b)[1..] == a[1..] + b;
      RunConcat(Step(c, a[0]), a[1..], b);
    }
  }

  function Bracketed<S>(body: seq<Op<S>>, raised: bool): seq<Op<S>> { [Enter] + (body + [Leave(raised)]) }

  lemma RunBracketed<S>(c: Connection<S>, body: seq<Op<S>>, raised: bool)
    ensures Run(c, Bracketed(body, raised)) == Step(Run(c.(depth := c.depth + 1), body), Leave(raised))
  {
    assert Bracketed(body, raised)[1..] == body + [Leave(raised)];
    RunSnoc(Step(c, Enter), body, Leave(raised));
  }

  lemma RunSnoc<S>(c: Connection<S>, ops: seq<Op<S>>, op: Op<S>)
    ensures Run(c, ops + [op]) == Step(Run(c, ops), op)
  {
    RunConcat(c, ops, [op]);
    assert [op][1..] == [];
  }

  lemma CutBracketed<S>(c: Connection<S>, body: seq<Op<S>>, raised: bool, n: nat)
    requires 0 < n < |Bracketed(body, raised)|
    ensures Run(c, Bracketed(body, raised)[..n]) == Run(c.(depth := c.depth + 1), body[..n - 1])
  {
    assert Bracketed(body, raised)[..n][1..] == body[..n - 1];
  }

  lemma FlatHead<S>(items: seq<Item<S>>)
    requires items != []
    ensures Flat(items) == Flat([items[0]]) + Flat(items[1..])
  {
    assert [items[0]][1..] == [];
  }

  /** Inside an open transaction a body does exactly its writes, nested calls and
      their exits included, and publishes nothing. */
  lemma {:induction false} RunInside<S>(c: Connection<S>, items: seq<Item<S>>)
    requires c.depth > 0
    ensures Run(c, Flat(items)) == c.(working := Effect(items, c.working))
    decreases items
  {
    if items != [] {
      var head := Flat(items)[..|Flat(items)| - |Flat(items[1..])|];
      assert Flat(items) == head + Flat(items[1..]);
      RunConcat(c, head, Flat(items[1..]));
      match items[0] {
        case Write(effect) => assert head == [Do(effect)] && head[1..] == [];
        case Publish => assert head == [CommitCall] && head[1..] == [];
        case Call(body, raised) =>
          assert head == Bracketed(Flat(body), raised);
          RunBracketed(c, Flat(body), raised);
          RunInside(c.(depth := c.depth + 1), body);
      }
      RunInside(Run(c, head), items[1..]);
    }
  }

  /** Stopping anywhere inside publishes nothing either. */
  lemma {:induction false} CutInside<S>(c: Connection<S>, items: seq<Item<S>>, n: nat)
    requires c.depth > 0 && n <= |Flat(items)|
    ensures Run(c, Flat(items)[..n]).committed == c.committed
    decreases items
  {
    if items != [] {
      var rest := Flat(items[1..]);
      var head := Flat(items)[..|Flat(items)| - |rest|];
      assert Flat(items) == head + rest;
      if n >= |head| {
        assert Flat(items)[..n] == head + rest[..n - |head|];
        RunConcat(c, head, rest[..n - |head|]);
        RunInside(c, items[..1]);
        assert items[..1][1..] == [] && Flat(items[..1]) == head;
        CutInside(Run(c, head), items[1..], n - |head|);
      } else if n > 0 {
        assert Flat(items)[..n] == head[..n];
        assert items[0].Call?;
        assert head == Bracketed(Flat(items[0].body), items[0].raised);
        CutBracketed(c, Flat(items[0].body), items[0].raised, n);
        CutInside(c.(depth := c.depth + 1), items[0].body, n - 1);
      }
    }
  }

  /** One outermost transition, run to its end or cut short. */
  lemma OneTransition<S>(c: Connection<S>, tx: Item<S>, n: nat)
    requires tx.Call? && c.depth == 0 && c.working == c.committed && n <= |Flat([tx])|
    ensures n < |Flat([tx])| ==> Run(c, Flat([tx])[..n]).committed == c.committed
    ensures var s := Net([tx], c.committed); n == |Flat([tx])| ==> Run(c, Flat([tx])[..n]) == Connection(s, s, 0)
  {
    var inside := c.(depth := 1);
    assert Flat([tx]) == Bracketed(Flat(tx.body), tx.raised);
    if n == |Flat([tx])| {
      assert Flat([tx])[..n] == Flat([tx]);
      RunBracketed(c, Flat(tx.body), tx.raised);
      RunInside(inside, tx.body);
    } else if n > 0 {
      CutBracketed(c, Flat(tx.body), tx.raised, n);
      CutInside(inside, tx.body, n - 1);
    }
  }

  /** Crash and exception atomicity: stop any sequence of transitions after any
      number of statements, and the database file holds the net effect of the whole
      transitions before that point, and nothing of the one in progress. */
  lemma {:induction false} CrashAtomicity<S>(c: Connection<S>, txs: seq<Item<S>>, n: nat)
    requires AllCalls(txs) && c.depth == 0 && c.working == c.committed && n <= |Flat(txs)|
    ensures Run(c, Flat(txs)[..n]).committed == Net(txs[..Whole(txs, n)], c.committed)
    decreases txs
  {
    if txs != [] {
      var first, rest := Flat(txs[..1]), Flat(txs[1..]);
      assert txs[..1] == [txs[0]];
      FlatHead(txs);
      OneTransition(c, txs[0], if n < |first| then n else |first|);
      if n < |first| {
        assert Flat(txs)[..n] == first[..n];
      } else {
        assert first[..|first|] == first;
        assert Flat(txs)[..n] == first + rest[..n - |first|];
        RunConcat(c, first, rest[..n - |first|]);
        CrashAtomicity(Run(c, first), txs[1..], n - |first|);
        var k := Whole(txs[1..], n - |first|);
        assert txs[..k + 1][1..] == txs[1..][..k];
      }
    }
  }

  /** An exception leaves a nested call only by ending its caller too, as it does
      where `complete` calls `fail`. */
  predicate Propagates<S>(items: seq<Item<S>>, raised: bool) {
    items == [] ||
    ( && (items[0].Call? ==>
            && Propagates(items[0].body, items[0].raised)
            && (items[0].raised ==> raised && items[1..] == []))
      && Propagates(items[1..], raised) )
  }

  /** Something is written somewhere inside. */
  predicate Writes<S>(items: seq<Item<S>>) {
    items != [] && (items[0].Write? || (items[0].Call? && Writes(items[0].body)) || Writes(items[1..]))
  }

  /** Some nested call wrote and then raised. */
  predicate Torn<S>(items: seq<Item<S>>) {
    && items != []
    && ( || (items[0].Call? && ((items[0].raised && Writes(items[0].body)) || Torn(items[0].body)))
         || Torn(items[1..]) )
  }

  /** The effect in which a nested call counts as a whole: all of it, or none if it raised. */
  function WholeEffect<S>(items: seq<Item<S>>, s: S): S {
    if items == [] then s
    else
      WholeEffect(items[1..],
                  match items[0]
                  case Write(effect) => effect(s)
                  case Publish => s
                  case Call(body, raised) => if raised then s else WholeEffect(body, s))
  }

  lemma {:induction false} NoWritesNoEffect<S>(items: seq<Item<S>>, s: S)
    requires !Writes(items)
    ensures Effect(items, s) == s
  {
    if items != [] {
      if items[0].Call? { NoWritesNoEffect(items[0].body, s); }
      NoWritesNoEffect(items[1..], s);
    }
  }

  lemma {:induction false} UntornIsWhole<S>(items: seq<Item<S>>, s: S)
    requires !Torn(items)
    ensures Effect(items, s) == WholeEffect(items, s)
  {
    if items != [] {
      var next := s;
      match items[0] {
        case Write(effect) => next := effect(s);
        case Publish =>
        case Call(body, raised) =>
          if raised { NoWritesNoEffect(body, s); } else { UntornIsWhole(body, s); }
          next := Effect(body, s);
      }
      UntornIsWhole(items[1..], next);
    }
  }

  /** Where exceptions propagate, nothing that is published is torn. */
  lemma {:induction false} PropagationKeepsWhole<S>(items: seq<Item<S>>)
    requires Propagates(items, false)
    ensures !Torn(items)
  {
    if items != [] {
      if items[0].Call? { PropagationKeepsWhole(items[0].body); }
      PropagationKeepsWhole(items[1..]);
    }
  }

  /** So a transition that ends normally publishes whole transitions at every level. */
  lemma PublishedIsWhole<S>(tx: Item<S>, s: S)
    requires tx.Call? && !tx.raised && Propagates(tx.body, false)
    ensures Net([tx], s) == WholeEffect(tx.body, s)
  {
    PropagationKeepsWhole(tx.body);
    UntornIsWhole(tx.body, s);
    assert [tx][1..] == [];
  }

  /** Every write leaves a trace of its own. */
  ghost predicate Traced(items: seq<Item<nat>>) {
    items == [] ||
    ( && (match items[0]
          case Write(effect) => forall s: nat :: effect(s) == s + 1
          case Publish => true
          case Call(body, _) => Traced(body))
      && Traced(items[1..]) )
  }

  lemma {:induction false} TracesAdd(items: seq<Item<nat>>, s: nat)
    requires Traced(items)
    ensures Effect(items, s) == s + Effect(items, 0) && WholeEffect(items, s) == s + WholeEffect(items, 0)
    ensures WholeEffect(items, 0) <= Effect(items, 0)
    ensures Writes(items) <==> Effect(items, 0) > 0
    ensures Torn(items) <==> WholeEffect(items, 0) < Effect(items, 0)
  {
    if items != [] {
      match items[0] {
        case Write(effect) =>
          assert effect(s) == s + 1 && effect(0) == 1;
          TracesAdd(items[1..], s + 1);
          TracesAdd(items[1..], 1);
        case Publish => TracesAdd(items[1..], s);
        case Call(body, raised) =>
          TracesAdd(body, s);
          TracesAdd(items[1..], s + Effect(body, 0));
          TracesAdd(items[1..], Effect(body, 0));
          if raised { TracesAdd(items[1..], s); } else {
            TracesAdd(items[1..], s + WholeEffect(body, 0));
            TracesAdd(items[1..], WholeEffect(body, 0));
          }
      }
    }
  }

  /** For every caller: what it publishes is whole if and only if it is not torn, that
      is, unless it swallowed the exception of a nested transition that had written. */
  lemma WholeExactlyUnlessTorn(tx: Item<nat>, s: nat)
    requires tx.Call? && !tx.raised && Traced(tx.body)
    ensures Net([tx], s) == WholeEffect(tx.body, s) <==> !Torn(tx.body)
  {
    TracesAdd(tx.body, s);
    assert [tx][1..] == [];
  }
}
