/** The key/value model and the check of a whole key/value history (src/models/kv.go,
src/porcupine/checker.go:274-373, src/porcupine/porcupine.go:5-8). */
module KvModel {
  import opened Checker
  import opened Operations
  import opened Locality
  import Sorting

  /** op: 0 get, 1 put, 2 append, anything else append with the old value returned */
  datatype KvInput = KvInput(op: nat, key: string, value: string)

  datatype KvOutput = KvOutput(value: string)

  type KvOperation = Operation<KvInput, KvOutput>

  function Key(input: KvInput): string {
    input.key
  }

  /** One key's value; a key that was never written has the empty string. */
  function Step(state: string, input: KvInput, output: KvOutput): (bool, string) {
    if input.op == 0 then (output.value == state, state)
    else if input.op == 1 then (true, input.value)
    else if input.op == 2 then (true, state + input.value)
    else (output.value == state, state + input.value)
  }

  const Cells: Model<string, KvInput, KvOutput> := Model("", Step)

  // ----- the order of strings

  predicate StringLess(a: string, b: string) {
    b != [] && (a == [] || a[0] < b[0] || (a[0] == b[0] && StringLess(a[1..], b[1..])))
  }

  lemma {:induction false} StringLessAsymmetric(a: string, b: string)
    requires StringLess(a, b)
    ensures !StringLess(b, a)
    decreases |a|
  {
    if a != [] && a[0] == b[0] {
      StringLessAsymmetric(a[1..], b[1..]);
    }
  }

  lemma {:induction false} NotLessTransitive(a: string, b: string, c: string)
    requires !StringLess(b, a) && !StringLess(c, b)
    ensures !StringLess(c, a)
    decreases |a|
  {
    if a != [] && b != [] && c != [] && a[0] == b[0] == c[0] {
      NotLessTransitive(a[1..], b[1..], c[1..]);
    }
  }

  lemma {:induction false} NeitherLessIsEqual(a: string, b: string)
    requires !StringLess(a, b) && !StringLess(b, a)
    ensures a == b
    decreases |a|
  {
    if a != [] && b != [] {
      NeitherLessIsEqual(a[1..], b[1..]);
      assert a == [a[0]] + a[1..] && b == [b[0]] + b[1..];
    }
  }

  lemma StringsOrdered()
    ensures Sorting.StrictWeakOrder(StringLess)
  {
    forall a, b | StringLess(a, b)
      ensures !StringLess(b, a)
    {
      StringLessAsymmetric(a, b);
    }
    forall a, b, c | !StringLess(b, a) && !StringLess(c, b)
      ensures !StringLess(c, a)
    {
      NotLessTransitive(a, b, c);
    }
  }

  // ----- Partition

  /** m holds the operations of each key that occurs. */
  ghost predicate Grouped(m: map<string, seq<KvOperation>>, history: seq<KvOperation>) {
    && m.Keys == KeysOf(Key, history)
    && (forall k :: k in m ==> m[k] == OfKey(Key, k, history))
  }

  lemma GroupAppend(m: map<string, seq<KvOperation>>, history: seq<KvOperation>, v: KvOperation)
    requires Grouped(m, history)
    ensures Grouped(m[Key(v.input) := (if Key(v.input) in m then m[Key(v.input)] else []) + [v]], history + [v])
  {
    var key := Key(v.input);
    var after := m[key := (if key in m then m[key] else []) + [v]];
    forall k | k in after
      ensures after[k] == OfKey(Key, k, history + [v])
    {
      OfKeyAppend(Key, k, history, v);
      if k !in m {
        NoneOfKey(k, history);
      }
    }
    KeysAppend(history, v);
  }

  lemma KeysAppend(history: seq<KvOperation>, v: KvOperation)
    ensures KeysOf(Key, history + [v]) == KeysOf(Key, history) + {Key(v.input)}
  {
    assert v in history + [v];
    forall op | op in history
      ensures op in history + [v]
    {}
  }

  lemma {:induction false} NoneOfKey(k: string, history: seq<KvOperation>)
    requires k !in KeysOf(Key, history)
    ensures OfKey(Key, k, history) == []
  {
    if history != [] {
      assert history[0] in history;
      forall op | op in history[1..]
        ensures op in history
      {}
      NoneOfKey(k, history[1..]);
    }
  }

  method GroupByKey(history: seq<KvOperation>) returns (m: map<string, seq<KvOperation>>)
    ensures Grouped(m, history)
  {
    m := map[];
    for i := 0 to |history|
      invariant Grouped(m, history[..i])
    {
      var v := history[i];
      var key := Key(v.input);
      GroupAppend(m, history[..i], v);
      assert history[..i + 1] == history[..i] + [v];
      m := m[key := (if key in m then m[key] else []) + [v]];
    }
    assert history[..|history|] == history;
  }

  /** The operations of each key, by ascending key; `keys` are the keys of the parts. */
  method Partition(history: seq<KvOperation>) returns (parts: seq<seq<KvOperation>>, keys: seq<string>)
    ensures |parts| == |keys|
    ensures forall i :: 0 <= i < |keys| ==> parts[i] == OfKey(Key, keys[i], history)
    ensures forall k :: k in keys <==> k in KeysOf(Key, history)
    ensures forall i, j :: 0 <= i < j < |keys| ==> StringLess(keys[i], keys[j])
  {
    hide OfKey, KeysOf, StringLess;
    var m := GroupByKey(history);
    var ks := KeysInSomeOrder(m.Keys);
    StringsOrdered();
    var sorted := Sorting.Sort(StringLess, ks);
    SortedStrictly(ks, sorted);
    parts := [];
    for i := 0 to |sorted|
      invariant |parts| == i
      invariant forall j :: 0 <= j < i ==> parts[j] == OfKey(Key, sorted[j], history)
    {
      assert sorted[i] in sorted;
      parts := parts + [m[sorted[i]]];
    }
    keys := sorted;
  }

  /** Ranging over a map yields its keys in no particular order. */
  method KeysInSomeOrder(keys: set<string>) returns (ks: seq<string>)
    ensures forall k :: k in ks <==> k in keys
    ensures forall k :: multiset(ks)[k] <= 1
  {
    ks := [];
    var rest := keys;
    while rest != {}
      invariant rest <= keys
      invariant forall k :: k in ks <==> k in keys - rest
      invariant forall k :: multiset(ks)[k] <= 1
    {
      var k :| k in rest;
      assert k !in ks;
      assert multiset(ks)[k] == 0;
      ks := ks + [k];
      rest := rest - {k};
    }
  }

  lemma SortedStrictly(ks: seq<string>, sorted: seq<string>)
    requires multiset(ks) == multiset(sorted) && Sorting.Sorted(StringLess, sorted)
    requires forall k :: multiset(ks)[k] <= 1
    ensures forall k :: k in sorted <==> k in ks
    ensures forall i, j :: 0 <= i < j < |sorted| ==> StringLess(sorted[i], sorted[j])
  {
    forall k
      ensures k in sorted <==> k in ks
    {
      assert k in multiset(sorted) <==> k in multiset(ks);
    }
    forall i, j | 0 <= i < j < |sorted|
      ensures StringLess(sorted[i], sorted[j])
    {
      if !StringLess(sorted[i], sorted[j]) {
        NeitherLessIsEqual(sorted[i], sorted[j]);
        OccurrencesAt(sorted, i, j);
      }
    }
  }

  // ----- the whole check

  datatype CheckResult = Illegal | Ok

  /** checkParallel without a timeout: the results come in as the partitions finish, in any
      order; unless details are wanted, the first failure ends the check. */
  method CheckParallel(parts: seq<seq<KvOperation>>, verbose: bool) returns (result: CheckResult)
    requires forall i :: 0 <= i < |parts| ==> Timely(parts[i])
    ensures result == Ok <==> forall i :: 0 <= i < |parts| ==> IsLinearizable(Cells, parts[i])
  {
    var ok := true;
    var pending: set<nat> := {};
    for i := 0 to |parts|
      invariant forall j: nat :: j in pending <==> j < i
    {
      pending := pending + {i};
    }
    while pending != {}
      invariant forall i :: i in pending ==> 0 <= i < |parts|
      invariant ok <==> forall i :: 0 <= i < |parts| && i !in pending ==> IsLinearizable(Cells, parts[i])
    {
      var i :| i in pending;
      var r := CheckPartition(Cells, parts[i]);
      ok := ok && r;
      pending := pending - {i};
      if !ok && !verbose {
        break;
      }
    }
    result := if ok then Ok else Illegal;
  }

  lemma {:induction false} OfKeyTimely(k: string, history: seq<KvOperation>)
    requires Timely(history)
    ensures Timely(OfKey(Key, k, history))
  {
    forall op | op in OfKey(Key, k, history)
      ensures op.call <= op.ret
    {
      OfKeyMember(Key, k, history, op);
    }
  }

  lemma KeysAreParts(history: seq<KvOperation>, parts: seq<seq<KvOperation>>, keys: seq<string>)
    requires |parts| == |keys|
    requires forall i :: 0 <= i < |keys| ==> parts[i] == OfKey(Key, keys[i], history)
    requires forall k :: k in keys <==> k in KeysOf(Key, history)
    ensures (forall k :: k in KeysOf(Key, history) ==> IsLinearizable(Cells, OfKey(Key, k, history))) <==>
            (forall i :: 0 <= i < |parts| ==> IsLinearizable(Cells, parts[i]))
  {
    hide OfKey, KeysOf, IsLinearizable;
    if forall k :: k in KeysOf(Key, history) ==> IsLinearizable(Cells, OfKey(Key, k, history)) {
      forall i | 0 <= i < |parts|
        ensures IsLinearizable(Cells, parts[i])
      {
        assert keys[i] in keys;
      }
    }
    if forall i :: 0 <= i < |parts| ==> IsLinearizable(Cells, parts[i]) {
      forall k | k in KeysOf(Key, history)
        ensures IsLinearizable(Cells, OfKey(Key, k, history))
      {
        var i :| 0 <= i < |keys| && keys[i] == k;
        assert IsLinearizable(Cells, parts[i]);
      }
    }
  }

  /** CheckOperations with the key/value model: each key is checked alone, and the answer is
      whether the whole history is linearizable against one key/value table.  With no operation
      there is no partition and checkParallel waits forever for a first result. */
  method CheckOperations(history: seq<KvOperation>, verbose: bool) returns (ok: bool)
    requires history != [] && Timely(history)
    ensures ok <==> IsLinearizable(Table(Cells, Key), history)
  {
    var parts, keys := Partition(history);
    forall i | 0 <= i < |parts|
      ensures Timely(parts[i])
    {
      OfKeyTimely(keys[i], history);
    }
    var result := CheckParallel(parts, verbose);
    LocalityTheorem(Cells, Key, history);
    assert (forall k :: k in KeysOf(Key, history) ==> IsLinearizable(Cells, OfKey(Key, k, history))) <==>
           (forall i :: 0 <= i < |parts| ==> IsLinearizable(Cells, parts[i])) by {
      KeysAreParts(history, parts, keys);
    }
    ok := result == Ok;
  }
}
