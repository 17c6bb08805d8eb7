/** Checking each key alone is checking the whole (src/porcupine/model.go:28-33,
src/models/kv.go:18-34): a history of operations on many keys is linearizable against one
table of keys exactly when, for each key, its operations are linearizable against one cell. */
module Locality {
  import opened Checker
  import opened Operations

  /** The value of a key in a table, which starts with every key at the cell's initial state. */
  ghost function Cell<S, I, O, K>(model: Model<S, I, O>, table: map<K, S>, k: K): S {
    if k in table then table[k] else model.init
  }

  ghost function TableStep<S, I, O, K>(
    model: Model<S, I, O>, key: I -> K, table: map<K, S>, input: I, output: O): (bool, map<K, S>)
  {
    var (ok, next) := model.step(Cell(model, table, key(input)), input, output);
    (ok, table[key(input) := next])
  }

  /** The model of the whole table: every operation touches the cell of its key. */
  ghost function Table<S, I, O, K>(model: Model<S, I, O>, key: I -> K): Model<map<K, S>, I, O> {
    Model(map[], (table: map<K, S>, input: I, output: O) => TableStep(model, key, table, input, output))
  }

  /** The operations on one key, in their order. */
  function OfKey<I, O, K(==)>(key: I -> K, k: K, ops: seq<Operation<I, O>>): seq<Operation<I, O>> {
    if ops == [] then []
    else (if key(ops[0].input) == k then [ops[0]] else []) + OfKey(key, k, ops[1..])
  }

  lemma {:induction false} OfKeyAppend<I, O, K>(
    key: I -> K, k: K, ops: seq<Operation<I, O>>, op: Operation<I, O>)
    ensures OfKey(key, k, ops + [op]) == OfKey(key, k, ops) + if key(op.input) == k then [op] else []
    decreases |ops|
  {
    if ops != [] {
      OfKeyAppend(key, k, ops[1..], op);
      assert (ops + [op])[1..] == ops[1..] + [op];
    }
  }

  // ----- from the whole to each key

  lemma {:induction false} OfKeyCounts<I, O, K>(key: I -> K, k: K, ops: seq<Operation<I, O>>, x: Operation<I, O>)
    ensures multiset(OfKey(key, k, ops))[x] == if key(x.input) == k then multiset(ops)[x] else 0
    decreases |ops|
  {
    if ops != [] {
      OfKeyCounts(key, k, ops[1..], x);
      assert ops == [ops[0]] + ops[1..];
    }
  }

  lemma OfKeyRearranged<I(!new), O(!new), K>(
    key: I -> K, k: K, a: seq<Operation<I, O>>, b: seq<Operation<I, O>>)
    requires multiset(a) == multiset(b)
    ensures multiset(OfKey(key, k, a)) == multiset(OfKey(key, k, b))
  {
    forall x: Operation<I, O>
      ensures multiset(OfKey(key, k, a))[x] == multiset(OfKey(key, k, b))[x]
    {
      OfKeyCounts(key, k, a, x);
      OfKeyCounts(key, k, b, x);
    }
  }

  lemma OfKeyMember<I, O, K>(key: I -> K, k: K, ops: seq<Operation<I, O>>, x: Operation<I, O>)
    ensures x in OfKey(key, k, ops) <==> x in ops && key(x.input) == k
  {
    OfKeyCounts(key, k, ops, x);
    assert x in multiset(ops) <==> x in ops;
    assert x in multiset(OfKey(key, k, ops)) <==> x in OfKey(key, k, ops);
  }

  lemma {:induction false} OfKeyRespectsClock<I, O, K>(key: I -> K, k: K, order: seq<Operation<I, O>>)
    requires RespectsClock(order)
    ensures RespectsClock(OfKey(key, k, order))
    decreases |order|
  {
    if order != [] {
      var rest := OfKey(key, k, order[1..]);
      OfKeyRespectsClock(key, k, order[1..]);
      forall b | 0 <= b < |rest|
        ensures !(rest[b].ret < order[0].call)
      {
        OfKeyMember(key, k, order[1..], rest[b]);
        var c :| 0 <= c < |order[1..]| && order[1..][c] == rest[b];
        assert order[c + 1] == rest[b];
      }
    }
  }

  lemma {:induction false} TableRunsOnCell<S, I, O, K>(
    model: Model<S, I, O>, key: I -> K, k: K, table: map<K, S>, order: seq<Operation<I, O>>)
    requires Runs(Table(model, key), table, order)
    ensures Runs(model, Cell(model, table, k), OfKey(key, k, order))
    decreases |order|
  {
    if order != [] {
      var (ok, next) := TableStep(model, key, table, order[0].input, order[0].output);
      TableRunsOnCell(model, key, k, next, order[1..]);
      var rest := OfKey(key, k, order[1..]);
      assert ([order[0]] + rest)[1..] == rest;
      assert [] + rest == rest;
    }
  }

  /** The part of a legal order that concerns one key is a legal order for that key. */
  lemma WholeToKey<S, I(!new), O(!new), K>(
    model: Model<S, I, O>, key: I -> K, k: K, ops: seq<Operation<I, O>>, order: seq<Operation<I, O>>)
    requires Linearizes(Table(model, key), ops, order)
    ensures Linearizes(model, OfKey(key, k, ops), OfKey(key, k, order))
  {
    OfKeyRearranged(key, k, order, ops);
    OfKeyRespectsClock(key, k, order);
    TableRunsOnCell(model, key, k, map[], order);
  }

  // ----- from each key to the whole

  ghost function Drop<T>(s: seq<T>, i: nat): seq<T>
    requires i < |s|
  {
    s[..i] + s[i + 1..]
  }

  lemma DropElements<T>(s: seq<T>, i: nat)
    requires i < |s|
    ensures multiset(s) == multiset(Drop(s, i)) + multiset{s[i]}
  {
    assert s == s[..i] + [s[i]] + s[i + 1..];
  }

  lemma DropOfKey<I(!new), O(!new), K>(key: I -> K, k: K, ops: seq<Operation<I, O>>, i: nat)
    requires i < |ops|
    ensures multiset(OfKey(key, k, ops)) ==
            multiset(OfKey(key, k, Drop(ops, i))) + if key(ops[i].input) == k then multiset{ops[i]} else multiset{}
  {
    DropElements(ops, i);
    forall x: Operation<I, O>
      ensures multiset(OfKey(key, k, ops))[x] ==
              (multiset(OfKey(key, k, Drop(ops, i))) +
               if key(ops[i].input) == k then multiset{ops[i]} else multiset{})[x]
    {
      OfKeyCounts(key, k, ops, x);
      OfKeyCounts(key, k, Drop(ops, i), x);
    }
  }

  /** `order` is a legal order, from this state of the cell, of the operations on key k. */
  ghost predicate KeyOrder<S, I, O, K>(
    model: Model<S, I, O>, key: I -> K, k: K, state: S, ops: seq<Operation<I, O>>, order: seq<Operation<I, O>>)
  {
    multiset(order) == multiset(OfKey(key, k, ops)) && RespectsClock(order) && Runs(model, state, order)
  }

  ghost predicate KeyOrders<S, I, O, K>(
    model: Model<S, I, O>, key: I -> K, table: map<K, S>, ops: seq<Operation<I, O>>,
    orders: map<K, seq<Operation<I, O>>>)
  {
    && (forall i :: 0 <= i < |ops| ==> key(ops[i].input) in orders)
    && (forall k :: k in orders ==> KeyOrder(model, key, k, Cell(model, table, k), ops, orders[k]))
  }

  lemma {:induction false} EarliestReturn<I, O>(ops: seq<Operation<I, O>>) returns (i: nat)
    requires ops != []
    ensures i < |ops| && forall j :: 0 <= j < |ops| ==> ops[i].ret <= ops[j].ret
    decreases |ops|
  {
    if |ops| == 1 {
      i := 0;
    } else {
      var j := EarliestReturn(ops[..|ops| - 1]);
      i := if ops[j].ret <= ops[|ops| - 1].ret then j else |ops| - 1;
    }
  }

  /** The head of a key's order is in the remaining operations. */
  lemma HeadOfKey<S, I(!new), O(!new), K>(
    model: Model<S, I, O>, key: I -> K, k: K, state: S, ops: seq<Operation<I, O>>, order: seq<Operation<I, O>>, x: nat)
    returns (i: nat)
    requires Timely(ops) && KeyOrder(model, key, k, state, ops, order)
    requires x < |ops| && key(ops[x].input) == k
    ensures order != [] && i < |ops| && ops[i] == order[0] && key(ops[i].input) == k
    ensures order[0].call <= ops[x].ret
  {
    OfKeyMember(key, k, ops, ops[x]);
    assert ops[x] in multiset(order);
    var a :| 0 <= a < |order| && order[a] == ops[x];
    assert order[0] in multiset(OfKey(key, k, ops));
    OfKeyMember(key, k, ops, order[0]);
    i :| 0 <= i < |ops| && ops[i] == order[0];
    assert ops[x] in ops;
  }

  lemma Cancel<T>(a: multiset<T>, b: multiset<T>, x: T)
    requires a + multiset{x} == b + multiset{x}
    ensures a == b
  {
    assert a == (a + multiset{x}) - multiset{x};
    assert b == (b + multiset{x}) - multiset{x};
  }

  lemma OtherKeyOrder<S, I(!new), O(!new), K>(
    model: Model<S, I, O>, key: I -> K, k: K, state: S, ops: seq<Operation<I, O>>, order: seq<Operation<I, O>>, i: nat)
    requires KeyOrder(model, key, k, state, ops, order) && i < |ops| && key(ops[i].input) != k
    ensures KeyOrder(model, key, k, state, Drop(ops, i), order)
  {
    DropOfKey(key, k, ops, i);
  }

  lemma OwnKeyOrder<S, I(!new), O(!new), K>(
    model: Model<S, I, O>, key: I -> K, k: K, state: S, ops: seq<Operation<I, O>>, order: seq<Operation<I, O>>, i: nat)
    requires KeyOrder(model, key, k, state, ops, order) && i < |ops| && key(ops[i].input) == k
    requires order != [] && order[0] == ops[i]
    ensures
      var (ok, next) := model.step(state, ops[i].input, ops[i].output);
      ok && KeyOrder(model, key, k, next, Drop(ops, i), order[1..])
  {
    hide OfKey, Drop;
    DropOfKey(key, k, ops, i);
    assert order == [ops[i]] + order[1..];
    Cancel(multiset(order[1..]), multiset(OfKey(key, k, Drop(ops, i))), ops[i]);
    assert forall a :: 0 <= a < |order[1..]| ==> order[1..][a] == order[a + 1];
  }

  /** After the head of one key's order is taken, the orders still fit. */
  lemma TakeHead<S, I(!new), O(!new), K>(
    model: Model<S, I, O>, key: I -> K, table: map<K, S>, ops: seq<Operation<I, O>>,
    orders: map<K, seq<Operation<I, O>>>, i: nat)
    requires KeyOrders(model, key, table, ops, orders)
    requires i < |ops|
    requires
      var k := key(ops[i].input);
      k in orders && orders[k] != [] && orders[k][0] == ops[i]
    ensures
      var k := key(ops[i].input);
      var (ok, next) := TableStep(model, key, table, ops[i].input, ops[i].output);
      ok && KeyOrders(model, key, next, Drop(ops, i), orders[k := orders[k][1..]])
  {
    hide KeyOrder;
    var k := key(ops[i].input);
    var (ok, next) := TableStep(model, key, table, ops[i].input, ops[i].output);
    var after, rest := orders[k := orders[k][1..]], Drop(ops, i);
    OwnKeyOrder(model, key, k, Cell(model, table, k), ops, orders[k], i);
    forall k' | k' in after && k' != k
      ensures KeyOrder(model, key, k', Cell(model, next, k'), rest, after[k'])
    {
      OtherKeyOrder(model, key, k', Cell(model, table, k'), ops, orders[k'], i);
    }
    forall j | 0 <= j < |rest|
      ensures key(rest[j].input) in after
    {
      assert rest[j] == ops[if j < i then j else j + 1];
    }
  }

  lemma PrependClock<I, O>(h: Operation<I, O>, rest: seq<Operation<I, O>>)
    requires RespectsClock(rest)
    requires forall b :: 0 <= b < |rest| ==> h.call <= rest[b].ret
    ensures RespectsClock([h] + rest)
  {
    var order := [h] + rest;
    forall a, b | 0 <= a < b < |order|
      ensures !(order[b].ret < order[a].call)
    {
      assert order[b] == rest[b - 1];
      assert a > 0 ==> order[a] == rest[a - 1];
    }
  }

  /** Merge the orders of the keys.  The operation that returns first belongs to some key, and
      the head of that key's order can always go next. */
  lemma {:induction false} MergeKeys<S, I(!new), O(!new), K>(
    model: Model<S, I, O>, key: I -> K, table: map<K, S>, ops: seq<Operation<I, O>>,
    orders: map<K, seq<Operation<I, O>>>) returns (order: seq<Operation<I, O>>)
    requires Timely(ops) && KeyOrders(model, key, table, ops, orders)
    ensures multiset(order) == multiset(ops) && RespectsClock(order) && Runs(Table(model, key), table, order)
    decreases |ops|
  {
    hide KeyOrder;
    if ops == [] {
      order := [];
    } else {
      var x := EarliestReturn(ops);
      var k := key(ops[x].input);
      var i := HeadOfKey(model, key, k, Cell(model, table, k), ops, orders[k], x);
      TakeHead(model, key, table, ops, orders, i);
      var (ok, next) := TableStep(model, key, table, ops[i].input, ops[i].output);
      DropElements(ops, i);
      assert Timely(Drop(ops, i)) by { DropTimely(ops, i); }
      var rest := MergeKeys(model, key, next, Drop(ops, i), orders[k := orders[k][1..]]);
      forall b | 0 <= b < |rest|
        ensures ops[i].call <= rest[b].ret
      {
        assert rest[b] in multiset(Drop(ops, i));
        assert rest[b] in multiset(ops);
        var c :| 0 <= c < |ops| && ops[c] == rest[b];
      }
      PrependClock(ops[i], rest);
      order := [ops[i]] + rest;
      assert order[1..] == rest;
    }
  }

  lemma DropTimely<I, O>(ops: seq<Operation<I, O>>, i: nat)
    requires Timely(ops) && i < |ops|
    ensures Timely(Drop(ops, i))
  {}

  // ----- the locality theorem

  ghost function KeysOf<I, O, K>(key: I -> K, ops: seq<Operation<I, O>>): set<K> {
    set op | op in ops :: key(op.input)
  }

  /** A history is linearizable against the table exactly when each key's part is linearizable
      against a cell. */
  lemma LocalityTheorem<S, I(!new), O(!new), K(!new)>(model: Model<S, I, O>, key: I -> K, ops: seq<Operation<I, O>>)
    requires Timely(ops)
    ensures IsLinearizable(Table(model, key), ops) <==>
            forall k :: k in KeysOf(key, ops) ==> IsLinearizable(model, OfKey(key, k, ops))
  {
    if order :| Linearizes(Table(model, key), ops, order) {
      forall k | k in KeysOf(key, ops)
        ensures IsLinearizable(model, OfKey(key, k, ops))
      {
        WholeToKey(model, key, k, ops, order);
      }
    }
    if forall k :: k in KeysOf(key, ops) ==> IsLinearizable(model, OfKey(key, k, ops)) {
      var orders := map k | k in KeysOf(key, ops) :: KeyWitness(model, OfKey(key, k, ops));
      forall k | k in orders
        ensures KeyOrder(model, key, k, Cell(model, map[], k), ops, orders[k])
      {
        assert Linearizes(model, OfKey(key, k, ops), orders[k]);
      }
      var order := MergeKeys(model, key, map[], ops, orders);
      assert Linearizes(Table(model, key), ops, order);
    }
  }

  ghost function KeyWitness<S, I(!new), O(!new)>(model: Model<S, I, O>, ops: seq<Operation<I, O>>)
    : (order: seq<Operation<I, O>>)
    requires IsLinearizable(model, ops)
    ensures Linearizes(model, ops, order)
  {
    var order :| Linearizes(model, ops, order);
    order
  }
}
