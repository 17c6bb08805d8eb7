/** Timestamped operations, their events, and linearizability of a set of operations
(src/porcupine/model.go:5-11, src/porcupine/checker.go:29-60). */
module Operations {
  import opened Histories
  import opened Checker
  import Sorting

  datatype Operation<I, O> = Operation(clientId: int, input: I, call: int, output: O, ret: int)

  /** Nothing returns before it is called. */
  ghost predicate Timely<I, O>(ops: seq<Operation<I, O>>) {
    forall op :: op in ops ==> op.call <= op.ret
  }

  // ----- linearizability, in terms of the operations themselves

  ghost predicate RespectsClock<I, O>(order: seq<Operation<I, O>>) {
    forall a, b :: 0 <= a < b < |order| ==> !(order[b].ret < order[a].call)
  }

  ghost predicate Runs<S, I, O>(model: Model<S, I, O>, state: S, order: seq<Operation<I, O>>) {
    order == [] ||
    var (ok, next) := model.step(state, order[0].input, order[0].output);
    ok && Runs(model, next, order[1..])
  }

  /** `order` arranges exactly the operations `ops`, in an order the clock and the model allow. */
  ghost predicate Linearizes<S, I, O>(model: Model<S, I, O>, ops: seq<Operation<I, O>>, order: seq<Operation<I, O>>) {
    multiset(order) == multiset(ops) && RespectsClock(order) && Runs(model, model.init, order)
  }

  ghost predicate IsLinearizable<S, I(!new), O(!new)>(model: Model<S, I, O>, ops: seq<Operation<I, O>>) {
    exists order :: Linearizes(model, ops, order)
  }

  // ----- events

  function CallOf<I, O>(ops: seq<Operation<I, O>>, i: nat): Entry<I, O>
    requires i < |ops|
  {
    CallEntry(ops[i].input, i, ops[i].call)
  }

  function ReturnOf<I, O>(ops: seq<Operation<I, O>>, i: nat): Entry<I, O>
    requires i < |ops|
  {
    ReturnEntry(ops[i].output, i, ops[i].ret)
  }

  /** The two events of each operation, in the order they are appended. */
  function Raw<I, O>(ops: seq<Operation<I, O>>): (raw: seq<Entry<I, O>>)
    ensures |raw| == 2 * |ops|
  {
    seq(2 * |ops|, p requires 0 <= p < 2 * |ops| => if p % 2 == 0 then CallOf(ops, p / 2) else ReturnOf(ops, p / 2))
  }

  /** byTime.Less: earlier first, and at the same time calls before returns. */
  predicate Earlier<I, O>(a: Entry<I, O>, b: Entry<I, O>) {
    if a.time != b.time then a.time < b.time else a.CallEntry? && b.ReturnEntry?
  }

  /** What makeEntries promises: the events of the operations, sorted by time. */
  ghost predicate EntriesOf<I, O>(ops: seq<Operation<I, O>>, entries: seq<Entry<I, O>>) {
    multiset(entries) == multiset(Raw(ops)) && Sorting.Sorted(Earlier, entries)
  }

  method MakeEntries<I(!new), O(!new)>(ops: seq<Operation<I, O>>) returns (entries: seq<Entry<I, O>>)
    ensures EntriesOf(ops, entries)
  {
    entries := [];
    for id := 0 to |ops|
      invariant entries == Raw(ops)[..2 * id]
    {
      entries := entries + [CallOf(ops, id)];
      entries := entries + [ReturnOf(ops, id)];
      assert Raw(ops)[2 * id] == CallOf(ops, id) && Raw(ops)[2 * id + 1] == ReturnOf(ops, id);
    }
    assert Raw(ops)[..2 * |ops|] == Raw(ops);
    entries := Sorting.Sort(Earlier, entries);
  }

  // ----- the events form a well-formed history

  lemma {:induction false} OccurrencesAt<T>(s: seq<T>, i: nat, j: nat)
    requires i < j < |s| && s[i] == s[j]
    ensures multiset(s)[s[i]] >= 2
  {
    assert s == s[..j] + s[j..];
    assert s[i] in s[..j] && s[j] in s[j..];
  }

  lemma {:induction false} OnceAtMost<T>(s: seq<T>, x: T)
    requires NoRepeats(s)
    ensures multiset(s)[x] <= 1
    decreases |s|
  {
    if s != [] {
      var rest := s[..|s| - 1];
      OnceAtMost(rest, x);
      assert s == rest + [s[|s| - 1]];
      if x == s[|s| - 1] {
        assert x !in rest;
      }
    }
  }

  lemma RearrangedNoRepeats<T>(a: seq<T>, b: seq<T>)
    requires multiset(a) == multiset(b) && NoRepeats(a)
    ensures NoRepeats(b)
  {
    forall i, j | 0 <= i < j < |b|
      ensures b[i] != b[j]
    {
      OnceAtMost(a, b[i]);
      if b[i] == b[j] {
        OccurrencesAt(b, i, j);
      }
    }
  }

  lemma RawNoRepeats<I, O>(ops: seq<Operation<I, O>>)
    ensures NoRepeats(Raw(ops))
  {}

  /** The events are those of the operations, each exactly once. */
  lemma EntriesMembers<I, O>(ops: seq<Operation<I, O>>, entries: seq<Entry<I, O>>)
    requires EntriesOf(ops, entries)
    ensures |entries| == 2 * |ops| && NoRepeats(entries)
    ensures forall e :: e in entries ==>
              e.id < |ops| && e == if e.CallEntry? then CallOf(ops, e.id) else ReturnOf(ops, e.id)
    ensures forall i :: 0 <= i < |ops| ==> CallOf(ops, i) in entries && ReturnOf(ops, i) in entries
  {
    var raw := Raw(ops);
    RawNoRepeats(ops);
    RearrangedNoRepeats(raw, entries);
    assert |entries| == |multiset(entries)| == |multiset(raw)| == |raw|;
    forall e | e in entries
      ensures e.id < |ops| && e == if e.CallEntry? then CallOf(ops, e.id) else ReturnOf(ops, e.id)
    {
      assert e in multiset(raw);
      var p :| 0 <= p < |raw| && raw[p] == e;
    }
    forall i | 0 <= i < |ops|
      ensures CallOf(ops, i) in entries && ReturnOf(ops, i) in entries
    {
      assert raw[2 * i] == CallOf(ops, i) && raw[2 * i + 1] == ReturnOf(ops, i);
      assert CallOf(ops, i) in multiset(entries) && ReturnOf(ops, i) in multiset(entries);
    }
  }

  /** A return comes before a call in the list exactly when it is earlier on the clock. */
  lemma ListedBefore<I, O>(ops: seq<Operation<I, O>>, entries: seq<Entry<I, O>>, p: nat, q: nat)
    requires EntriesOf(ops, entries) && p < |entries| && q < |entries|
    requires entries[p].ReturnEntry? && entries[q].CallEntry?
    ensures p < q <==> entries[p].time < entries[q].time
  {
    assert p != q;
    if p < q {
      assert !Earlier(entries[q], entries[p]);
    } else {
      assert !Earlier(entries[p], entries[q]);
    }
  }

  lemma EventIs<I, O>(entries: seq<Entry<I, O>>, p: nat, id: nat)
    requires p < |entries|
    ensures IsCall(Events(entries), p, id) <==> entries[p].CallEntry? && entries[p].id == id
    ensures IsReturn(Events(entries), p, id) <==> entries[p].ReturnEntry? && entries[p].id == id
  {
    assert Events(entries)[p] == EventOf(entries[p]);
  }

  lemma EntriesWellFormed<I, O>(ops: seq<Operation<I, O>>, entries: seq<Entry<I, O>>)
    requires EntriesOf(ops, entries) && Timely(ops)
    ensures WellFormed(Events(entries))
  {
    var events := Events(entries);
    EntriesMembers(ops, entries);
    forall p | 0 <= p < |events|
      ensures events[p].id < |events| / 2
    {
      assert entries[p] in entries;
    }
    forall id: nat | id < |events| / 2
      ensures HasBoth(events, id)
    {
      var p :| 0 <= p < |entries| && entries[p] == CallOf(ops, id);
      var q :| 0 <= q < |entries| && entries[q] == ReturnOf(ops, id);
      EventIs(entries, p, id);
      EventIs(entries, q, id);
    }
    forall p, q, id | IsCall(events, p, id) && IsCall(events, q, id)
      ensures p == q
    {
      SameEntry(ops, entries, p, q);
    }
    forall p, q, id | IsReturn(events, p, id) && IsReturn(events, q, id)
      ensures p == q
    {
      SameEntry(ops, entries, p, q);
    }
    forall p: nat, q: nat, id: nat | IsCall(events, p, id) && IsReturn(events, q, id)
      ensures p < q
    {
      EventIs(entries, p, id);
      EventIs(entries, q, id);
      assert entries[p] in entries && entries[q] in entries;
      assert entries[p] == CallOf(ops, id) && entries[q] == ReturnOf(ops, id);
      assert ops[id] in ops;
      ListedBefore(ops, entries, q, p);
    }
  }

  lemma SameEntry<I, O>(ops: seq<Operation<I, O>>, entries: seq<Entry<I, O>>, p: nat, q: nat)
    requires EntriesOf(ops, entries) && p < |entries| && q < |entries|
    requires EventOf(entries[p]) == EventOf(entries[q])
    ensures p == q
  {
    EntriesMembers(ops, entries);
    assert entries[p] in entries && entries[q] in entries;
  }

  /** The history says of each operation what the operation says of itself. */
  lemma EntriesSay<I, O>(ops: seq<Operation<I, O>>, entries: seq<Entry<I, O>>, i: nat)
    requires EntriesOf(ops, entries) && WellFormed(Events(entries)) && i < |ops|
    ensures |entries| == 2 * |ops|
    ensures entries[CallAt(Events(entries), i)] == CallOf(ops, i)
    ensures entries[ReturnAt(Events(entries), i)] == ReturnOf(ops, i)
    ensures InputOf(entries, i) == ops[i].input && OutputOf(entries, i) == ops[i].output
  {
    EntriesMembers(ops, entries);
    var p, q := CallAt(Events(entries), i), ReturnAt(Events(entries), i);
    EventIs(entries, p, i);
    EventIs(entries, q, i);
    assert entries[p] in entries && entries[q] in entries;
  }

  /** Precedence in the history is precedence on the clock, ties counting as overlap. */
  lemma PrecedesOnClock<I, O>(ops: seq<Operation<I, O>>, entries: seq<Entry<I, O>>, j: nat, i: nat)
    requires EntriesOf(ops, entries) && WellFormed(Events(entries)) && i < |ops| && j < |ops|
    ensures |entries| == 2 * |ops|
    ensures Precedes(Events(entries), j, i) <==> ops[j].ret < ops[i].call
  {
    EntriesSay(ops, entries, i);
    EntriesSay(ops, entries, j);
    ListedBefore(ops, entries, ReturnAt(Events(entries), j), CallAt(Events(entries), i));
  }

  // ----- orders of ids and orders of operations

  ghost function Pick<T>(items: seq<T>, ids: seq<nat>): (picked: seq<T>)
    requires forall a :: 0 <= a < |ids| ==> ids[a] < |items|
    ensures |picked| == |ids|
  {
    seq(|ids|, a requires 0 <= a < |ids| => items[ids[a]])
  }

  ghost predicate Arranges(ids: seq<nat>, n: nat) {
    NoRepeats(ids) && Elements(ids) == Ids(n)
  }

  lemma ArrangedBound(ids: seq<nat>, n: nat)
    requires Arranges(ids, n)
    ensures forall a :: 0 <= a < |ids| ==> ids[a] < n
  {
    forall a | 0 <= a < |ids|
      ensures ids[a] < n
    {
      assert ids[a] in Elements(ids);
    }
  }

  lemma LeaveOut(ids: seq<nat>, k: nat)
    requires NoRepeats(ids) && k < |ids|
    ensures NoRepeats(ids[..k] + ids[k + 1..])
    ensures ids[k] !in ids[..k] + ids[k + 1..]
  {
    var rest := ids[..k] + ids[k + 1..];
    assert forall a :: 0 <= a < |rest| ==> rest[a] == ids[if a < k then a else a + 1];
  }

  lemma InsertElements(a: seq<nat>, n: nat, b: seq<nat>)
    ensures Elements(a + [n] + b) == Elements(a + b) + {n}
  {}

  lemma RemoveLast(ids: seq<nat>, n: nat) returns (k: nat)
    requires Arranges(ids, n + 1)
    ensures k < |ids| && ids[k] == n
    ensures Arranges(ids[..k] + ids[k + 1..], n)
  {
    hide NoRepeats;
    assert n in Elements(ids);
    k :| 0 <= k < |ids| && ids[k] == n;
    var rest := ids[..k] + ids[k + 1..];
    LeaveOut(ids, k);
    assert ids == ids[..k] + [n] + ids[k + 1..];
    InsertElements(ids[..k], n, ids[k + 1..]);
    assert n !in Elements(rest);
    assert Ids(n + 1) == Ids(n) + {n};
  }

  lemma PickWithout<T>(items: seq<T>, ids: seq<nat>, k: nat)
    requires items != [] && k < |ids| && ids[k] == |items| - 1
    requires forall a :: 0 <= a < |ids| ==> ids[a] < |items|
    requires forall a :: 0 <= a < |ids| && a != k ==> ids[a] < |items| - 1
    ensures
      var rest, fewer := ids[..k] + ids[k + 1..], items[..|items| - 1];
      && (forall a :: 0 <= a < |rest| ==> rest[a] < |fewer|)
      && multiset(Pick(items, ids)) == multiset(Pick(fewer, rest)) + multiset{items[|items| - 1]}
  {
    var rest, fewer, picked := ids[..k] + ids[k + 1..], items[..|items| - 1], Pick(items, ids);
    assert picked == picked[..k] + [items[|items| - 1]] + picked[k + 1..];
    assert Pick(fewer, rest) == picked[..k] + picked[k + 1..];
  }

  /** Picking along an arrangement of all indices keeps the multiset. */
  lemma {:induction false} PickKeepsElements<T>(items: seq<T>, ids: seq<nat>)
    requires Arranges(ids, |items|)
    ensures forall a :: 0 <= a < |ids| ==> ids[a] < |items|
    ensures multiset(Pick(items, ids)) == multiset(items)
    decreases |items|
  {
    hide Ids, Pick;
    ArrangedBound(ids, |items|);
    if ids == [] {
      assert Elements(ids) == {};
      assert |items| == 0;
    } else {
      assert ids[0] < |items|;
      var n := |items| - 1;
      var k := RemoveLast(ids, n);
      PickKeepsElements(items[..n], ids[..k] + ids[k + 1..]);
      PickWithout(items, ids, k);
      assert items == items[..n] + [items[n]];
    }
  }

  lemma InsertArranges(ids: seq<nat>, n: nat, k: nat)
    requires Arranges(ids, n) && k <= |ids|
    ensures Arranges(ids[..k] + [n] + ids[k..], n + 1)
  {
    var longer := ids[..k] + [n] + ids[k..];
    ArrangedBound(ids, n);
    assert longer[k] == n;
    assert forall a :: 0 <= a < |longer| && a != k ==> longer[a] == ids[if a < k then a else a - 1];
    assert NoRepeats(longer) by {
      hide Elements, Ids;
    }
    assert Elements(longer) == Elements(ids) + {n} by {
      hide NoRepeats;
      assert longer == ids[..k] + [n] + ids[k..] && ids == ids[..k] + ids[k..];
      InsertElements(ids[..k], n, ids[k..]);
    }
    assert Ids(n + 1) == Ids(n) + {n};
  }

  /** Putting the last item back where the order has it. */
  lemma PickInserted<T>(items: seq<T>, rest: seq<nat>, k: nat, order: seq<T>)
    requires items != [] && k < |order| && order[k] == items[|items| - 1]
    requires forall a :: 0 <= a < |rest| ==> rest[a] < |items| - 1
    requires Pick(items[..|items| - 1], rest) == order[..k] + order[k + 1..]
    ensures
      var ids := rest[..k] + [|items| - 1] + rest[k..];
      && (forall a :: 0 <= a < |ids| ==> ids[a] < |items|)
      && Pick(items, ids) == order
  {
    var n := |items| - 1;
    var ids, shorter := rest[..k] + [n] + rest[k..], order[..k] + order[k + 1..];
    forall a | 0 <= a < |ids|
      ensures ids[a] < |items| && items[ids[a]] == order[a]
    {
      if a != k {
        var b := if a < k then a else a - 1;
        assert ids[a] == rest[b];
        assert Pick(items[..n], rest)[b] == shorter[b];
      }
    }
  }

  lemma TakeOut<T>(items: seq<T>, order: seq<T>) returns (k: nat)
    requires multiset(order) == multiset(items) && items != []
    ensures k < |order| && order[k] == items[|items| - 1]
    ensures multiset(order[..k] + order[k + 1..]) == multiset(items[..|items| - 1])
  {
    var x, fewer := items[|items| - 1], items[..|items| - 1];
    assert items == fewer + [x];
    assert x in multiset(order);
    k :| 0 <= k < |order| && order[k] == x;
    assert order == order[..k] + [x] + order[k + 1..];
    assert multiset(order[..k] + order[k + 1..]) == multiset(order) - multiset{x};
  }

  /** Any rearrangement of items is a picking along some arrangement of the indices. */
  lemma {:induction false} RearrangementIsPick<T>(items: seq<T>, order: seq<T>) returns (ids: seq<nat>)
    requires multiset(order) == multiset(items)
    ensures Arranges(ids, |items|)
    ensures forall a :: 0 <= a < |ids| ==> ids[a] < |items|
    ensures Pick(items, ids) == order
    decreases |items|
  {
    hide Pick, Arranges;
    assert |order| == |multiset(order)| == |multiset(items)| == |items|;
    if items == [] {
      ids := [];
      NothingArranges();
      assert Pick(items, ids) == order;
    } else {
      var n := |items| - 1;
      var fewer := items[..n];
      var k := TakeOut(items, order);
      var shorter := order[..k] + order[k + 1..];
      var rest := RearrangementIsPick(fewer, shorter);
      assert |rest| == |shorter|;
      InsertArranges(rest, n, k);
      PickInserted(items, rest, k, order);
      ids := rest[..k] + [n] + rest[k..];
    }
  }

  lemma NothingArranges()
    ensures Arranges([], 0)
  {
    assert Elements<nat>([]) == {};
  }

  // ----- the two notions agree

  lemma {:induction false} AcceptedIsRuns<S, I, O>(
    model: Model<S, I, O>, ops: seq<Operation<I, O>>, entries: seq<Entry<I, O>>, state: S, ids: seq<nat>)
    requires EntriesOf(ops, entries) && WellFormed(Events(entries))
    requires forall a :: 0 <= a < |ids| ==> ids[a] < |ops|
    ensures Accepted(ProblemOf(model, entries), state, ids) <==> Runs(model, state, Pick(ops, ids))
    decreases |ids|
  {
    hide EntriesOf, WellFormed;
    if ids != [] {
      EntriesSay(ops, entries, ids[0]);
      var (ok, next) := model.step(state, ops[ids[0]].input, ops[ids[0]].output);
      AcceptedIsRuns(model, ops, entries, next, ids[1..]);
      assert Pick(ops, ids)[1..] == Pick(ops, ids[1..]);
    }
  }

  lemma TimeIsClock<I, O>(ops: seq<Operation<I, O>>, entries: seq<Entry<I, O>>, ids: seq<nat>)
    requires EntriesOf(ops, entries) && WellFormed(Events(entries))
    requires forall a :: 0 <= a < |ids| ==> ids[a] < |ops|
    ensures RespectsTime(Events(entries), ids) <==> RespectsClock(Pick(ops, ids))
  {
    hide EntriesOf, WellFormed, Precedes;
    EntriesMembers(ops, entries);
    forall a, b | 0 <= a < b < |ids|
      ensures Precedes(Events(entries), ids[b], ids[a]) <==> Pick(ops, ids)[b].ret < Pick(ops, ids)[a].call
    {
      PrecedesOnClock(ops, entries, ids[b], ids[a]);
    }
  }

  lemma OrderOfIds<S, I(!new), O(!new)>(
    model: Model<S, I, O>, ops: seq<Operation<I, O>>, entries: seq<Entry<I, O>>, ids: seq<nat>)
    requires EntriesOf(ops, entries) && WellFormed(Events(entries)) && |entries| == 2 * |ops|
    ensures Completes(ProblemOf(model, entries), {}, model.init, ids) <==>
            Arranges(ids, |ops|)
            && (forall a :: 0 <= a < |ids| ==> ids[a] < |ops|)
            && Linearizes(model, ops, Pick(ops, ids))
  {
    hide EntriesOf, WellFormed, Accepted, Runs, Pick, RespectsClock;
    assert Ids(|ops|) - {} == Ids(|ops|);
    if Arranges(ids, |ops|) {
      ArrangedBound(ids, |ops|);
      PickKeepsElements(ops, ids);
      AcceptedIsRuns(model, ops, entries, model.init, ids);
      TimeIsClock(ops, entries, ids);
    }
  }

  /** The events of a set of operations are linearizable exactly when the operations are. */
  lemma EventsIffOperations<S, I(!new), O(!new)>(
    model: Model<S, I, O>, ops: seq<Operation<I, O>>, entries: seq<Entry<I, O>>)
    requires EntriesOf(ops, entries) && Timely(ops)
    ensures WellFormed(Events(entries))
    ensures Linearizable(ProblemOf(model, entries)) <==> IsLinearizable(model, ops)
  {
    EntriesWellFormed(ops, entries);
    EntriesMembers(ops, entries);
    hide EntriesOf, WellFormed, Completes, Linearizes, Arranges, Pick;
    if ids :| Completes(ProblemOf(model, entries), {}, model.init, ids) {
      OrderOfIds(model, ops, entries, ids);
    }
    if order :| Linearizes(model, ops, order) {
      assert multiset(order) == multiset(ops) by { LinearizesKeeps(model, ops, order); }
      var ids := RearrangementIsPick(ops, order);
      OrderOfIds(model, ops, entries, ids);
    }
  }

  lemma LinearizesKeeps<S, I, O>(model: Model<S, I, O>, ops: seq<Operation<I, O>>, order: seq<Operation<I, O>>)
    requires Linearizes(model, ops, order)
    ensures multiset(order) == multiset(ops)
  {}

  /** makeEntries followed by checkSingle decides linearizability of the operations. */
  method CheckPartition<S(==), I(!new), O(!new)>(model: Model<S, I, O>, ops: seq<Operation<I, O>>)
    returns (ok: bool)
    requires Timely(ops)
    ensures ok <==> IsLinearizable(model, ops)
  {
    var entries := MakeEntries(ops);
    EventsIffOperations(model, ops, entries);
    var order;
    ok, order := CheckSingle(model, entries);
  }
}
