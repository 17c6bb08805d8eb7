/** Every history of the replicated store is linearizable (src/kvraft/server.go,
src/kvraft/client.go), in the very sense in which the checker decides it. */
module KvLinearizable {
  import opened Checker
  import opened Operations
  import opened Locality
  import opened KvModel
  import opened KvReplica
  import opened KvRaft

  // ----- each request is applied once

  /** The request at an index has not been applied before. */
  lemma DuplicateIffNotFresh(w: World, p: nat)
    requires KvRaft.Inv(w) && p < |w.log|
    ensures IsDuplicate(Replay(w.log[..p]).sessions, w.log[p]) <==> !IsFresh(w, p)
  {
    hide EntriesOk, ClockOk, DoneOk, HandlersOk, Replay;
    var sessions, ck := Replay(w.log[..p]).sessions, w.log[p].ck;
    SessionIsLast(w.log[..p], ck);
    EntryIsCall(w, p);
    if IsDuplicate(sessions, w.log[p]) {
      var q := sessions[ck].index - 1;
      assert w.log[..p][q] == w.log[q];
      EntryIsCall(w, q);
      NoneEarlier(w, q, p);
      assert IdOf(w, q) == IdOf(w, p);
    } else {
      forall q | 0 <= q < p
        ensures IdOf(w, q) != IdOf(w, p)
      {
        EntryIsCall(w, q);
        assert w.log[..p][q] == w.log[q];
        if ck in sessions && w.log[q].ck == ck {
          var r := sessions[ck].index - 1;
          assert w.log[..p][r] == w.log[r];
          EntryIsCall(w, r);
          NoneEarlier(w, q, r);
        }
      }
    }
  }

  /** A client's entries are in the order of its calls. */
  lemma NoneEarlier(w: World, q: nat, p: nat)
    requires KvRaft.Inv(w) && q <= p < |w.log| && w.log[q].ck == w.log[p].ck
    ensures IdOf(w, q) <= IdOf(w, p) && w.log[q].req <= w.log[p].req
  {
    hide EntriesOk, ClockOk, DoneOk, HandlersOk;
    EntryIsCall(w, q);
    EntryIsCall(w, p);
    if q < p {
      assert w.source[q] < w.source[p];
      assert w.log[q] == w.started[w.source[q]] && w.log[p] == w.started[w.source[p]];
    }
  }

  ghost function Mp(w: World, p: nat): map<string, string>
    requires p <= |w.log|
  {
    Replay(w.log[..p]).mp
  }

  /** The table changes exactly where a write is in the log for the first time. */
  lemma MpNext(w: World, p: nat)
    requires KvRaft.Inv(w) && p < |w.log|
    ensures Mp(w, p + 1) == if IsFresh(w, p) then Written(Mp(w, p), w.log[p].input) else Mp(w, p)
  {
    DuplicateIffNotFresh(w, p);
    ReplayNext(w.log, p);
  }

  // ----- the order in which the calls took effect

  /** The Gets among the first n calls that took effect after p entries. */
  ghost function Gets(w: World, p: nat, n: nat): seq<nat>
    requires n <= |w.calls|
  {
    if n == 0 then []
    else Gets(w, p, n - 1) + if IsGetAt(w, p, n - 1) then [n - 1] else []
  }

  ghost predicate IsGetAt(w: World, p: nat, c: nat)
    requires c < |w.calls|
  {
    w.calls[c].input.op == 0 && w.calls[c].done && w.calls[c].pos == p
  }

  ghost predicate IsWriteAt(w: World, p: nat, c: nat)
    requires Shaped(w) && c < |w.calls|
  {
    w.calls[c].input.op != 0 && 1 <= p <= |w.log| && IdOf(w, p - 1) == c && IsFresh(w, p - 1)
  }

  ghost predicate IsAt(w: World, p: nat, c: nat)
    requires Shaped(w) && c < |w.calls|
  {
    IsGetAt(w, p, c) || IsWriteAt(w, p, c)
  }

  /** The calls that took effect within the first p entries: after each entry that is a new
      write, and then the Gets that saw just that much. */
  ghost function Order(w: World, p: nat): seq<nat>
    requires Shaped(w) && p <= |w.log|
  {
    if p == 0 then []
    else Order(w, p - 1) + WritesAt(w, p) + Gets(w, p, |w.calls|)
  }

  ghost function WritesAt(w: World, p: nat): seq<nat>
    requires Shaped(w) && 1 <= p <= |w.log|
  {
    var c := IdOf(w, p - 1);
    if IsWriteAt(w, p, c) then [c] else []
  }

  ghost predicate Distinct(ids: seq<nat>) {
    forall i, j :: 0 <= i < j < |ids| ==> ids[i] != ids[j]
  }

  lemma {:induction false} GetsContents(w: World, p: nat, n: nat)
    requires n <= |w.calls|
    ensures forall c: nat :: c in Gets(w, p, n) <==> c < n && IsGetAt(w, p, c)
    ensures Distinct(Gets(w, p, n))
  {
    if n > 0 {
      GetsContents(w, p, n - 1);
    }
  }

  /** A call takes effect at one place only. */
  lemma OnePlace(w: World, p: nat, q: nat, c: nat)
    requires Shaped(w) && c < |w.calls| && IsAt(w, p, c) && IsAt(w, q, c)
    ensures p == q
  {}

  ghost predicate Effective(w: World, ids: seq<nat>, p: nat)
    requires Shaped(w)
  {
    forall i :: 0 <= i < |ids| ==> ids[i] < |w.calls| && IsSomewhere(w, p, ids[i])
  }

  ghost predicate IsSomewhere(w: World, p: nat, c: nat)
    requires Shaped(w) && c < |w.calls|
  {
    exists q: nat :: 1 <= q <= p && IsAt(w, q, c)
  }

  lemma StillSomewhere(w: World, p: nat, c: nat)
    requires Shaped(w) && c < |w.calls| && IsSomewhere(w, p, c)
    ensures IsSomewhere(w, p + 1, c)
  {
    var q: nat :| 1 <= q <= p && IsAt(w, q, c);
  }

  ghost predicate Covers(w: World, ids: seq<nat>, p: nat)
    requires Shaped(w)
  {
    forall c: nat, q: nat :: c < |w.calls| && 1 <= q <= p && IsAt(w, q, c) ==> c in ids
  }

  ghost predicate InOrder(w: World, ids: seq<nat>)
    requires Shaped(w)
  {
    forall i, j, q: nat, r: nat ::
      0 <= i < j < |ids| && ids[i] < |w.calls| && ids[j] < |w.calls| && IsAt(w, q, ids[i]) && IsAt(w, r, ids[j]) ==>
        q <= r
  }

  /** The order has each call that took effect once, in the order of the places. */
  ghost predicate Placed(w: World, ids: seq<nat>, p: nat)
    requires Shaped(w)
  {
    Effective(w, ids, p) && Covers(w, ids, p) && Distinct(ids) && InOrder(w, ids)
  }

  lemma AppendDistinct(w: World, a: seq<nat>, b: seq<nat>, p: nat, i: nat, j: nat)
    requires Shaped(w) && 1 <= p <= |w.log| && Placed(w, a, p - 1) && Distinct(b)
    requires forall c: nat :: c in b <==> c < |w.calls| && IsAt(w, p, c)
    requires i < j < |a + b|
    ensures (a + b)[i] != (a + b)[j]
  {
    hide IsAt;
    var x, y := (a + b)[i], (a + b)[j];
    if i < |a| && j >= |a| {
      assert IsSomewhere(w, p - 1, a[i]);
      var q: nat :| 1 <= q <= p - 1 && IsAt(w, q, a[i]);
      assert y == b[j - |a|] && y in b;
      if x == y {
        OnePlace(w, q, p, x);
      }
    } else if i >= |a| {
      assert b[i - |a|] != b[j - |a|];
    } else if j < |a| {
      assert Distinct(a) && x == a[i] && y == a[j];
    }
  }

  lemma PlacedAppend(w: World, a: seq<nat>, b: seq<nat>, p: nat)
    requires Shaped(w) && 1 <= p <= |w.log| && Placed(w, a, p - 1) && Distinct(b)
    requires forall c: nat :: c in b <==> c < |w.calls| && IsAt(w, p, c)
    ensures Placed(w, a + b, p)
  {
    hide IsAt;
    var ids := a + b;
    assert Effective(w, ids, p) by {
      forall i | 0 <= i < |ids|
        ensures ids[i] < |w.calls| && IsSomewhere(w, p, ids[i])
      {
        if i >= |a| {
          assert ids[i] == b[i - |a|] && ids[i] in b;
        } else {
          assert ids[i] == a[i];
          StillSomewhere(w, p - 1, a[i]);
        }
      }
    }
    assert Distinct(ids) by {
      forall i, j | 0 <= i < j < |ids|
        ensures ids[i] != ids[j]
      {
        AppendDistinct(w, a, b, p, i, j);
      }
    }
    assert InOrder(w, ids) by {
      forall i, j, q: nat, r: nat |
        0 <= i < j < |ids| && ids[i] < |w.calls| && ids[j] < |w.calls| && IsAt(w, q, ids[i]) && IsAt(w, r, ids[j])
        ensures q <= r
      {
        PlaceInAppend(w, a, b, p, i, q);
        PlaceInAppend(w, a, b, p, j, r);
        assert j < |a| ==> ids[i] == a[i] && ids[j] == a[j];
      }
    }
    assert Covers(w, ids, p) by {
      forall c: nat, q: nat | c < |w.calls| && 1 <= q <= p && IsAt(w, q, c)
        ensures c in ids
      {
        assert q < p ==> c in a;
        assert q == p ==> c in b;
      }
    }
  }

  lemma PlaceInAppend(w: World, a: seq<nat>, b: seq<nat>, p: nat, i: nat, q: nat)
    requires Shaped(w) && 1 <= p <= |w.log| && Placed(w, a, p - 1)
    requires forall c: nat :: c in b <==> c < |w.calls| && IsAt(w, p, c)
    requires i < |a + b| && (a + b)[i] < |w.calls| && IsAt(w, q, (a + b)[i])
    ensures if i < |a| then q < p else q == p
  {
    var c := (a + b)[i];
    if i < |a| {
      assert IsSomewhere(w, p - 1, a[i]);
      var r: nat :| 1 <= r <= p - 1 && IsAt(w, r, a[i]);
      OnePlace(w, q, r, c);
    } else {
      assert c == b[i - |a|] && c in b;
      OnePlace(w, q, p, c);
    }
  }

  lemma BlockContents(w: World, p: nat)
    requires Shaped(w) && 1 <= p <= |w.log|
    ensures var b := WritesAt(w, p) + Gets(w, p, |w.calls|);
            Distinct(b) && forall c: nat :: c in b <==> c < |w.calls| && IsAt(w, p, c)
  {
    var g, ws := Gets(w, p, |w.calls|), WritesAt(w, p);
    GetsContents(w, p, |w.calls|);
    GetsInRange(w, p);
  }

  lemma NothingPlaced(w: World)
    requires Shaped(w)
    ensures Placed(w, [], 0)
  {}

  lemma {:induction false} OrderPlaced(w: World, p: nat)
    requires Shaped(w) && p <= |w.log|
    ensures Placed(w, Order(w, p), p)
  {
    hide Placed, Distinct, IsAt, Gets, WritesAt;
    if p == 0 {
      NothingPlaced(w);
    } else {
      OrderPlaced(w, p - 1);
      BlockContents(w, p);
      var b := WritesAt(w, p) + Gets(w, p, |w.calls|);
      PlacedAppend(w, Order(w, p - 1), b, p);
      assert Order(w, p) == Order(w, p - 1) + b;
    }
  }

  // ----- that order respects the clock

  /** The operation of a call; one that has not returned may return any time from now on. */
  ghost function OpOf(w: World, c: nat): KvOperation
    requires c < |w.calls|
  {
    var call := w.calls[c];
    Operation(call.ck, call.input, call.at, KvOutput(call.value), if call.done then call.ret else |w.lens|)
  }

  ghost function Ops(w: World, ids: seq<nat>): (ops: seq<KvOperation>)
    requires forall i :: 0 <= i < |ids| ==> ids[i] < |w.calls|
    ensures |ops| == |ids|
  {
    seq(|ids|, i requires 0 <= i < |ids| => OpOf(w, ids[i]))
  }

  /** A call takes effect after it began and before it ended. */
  lemma InTime(w: World, p: nat, c: nat)
    requires KvRaft.Inv(w) && c < |w.calls| && IsAt(w, p, c)
    ensures w.calls[c].at < |w.lens| && w.lens[w.calls[c].at] < p
    ensures w.calls[c].done ==> w.calls[c].ret < |w.lens| && p <= w.lens[w.calls[c].ret]
  {
    hide LogsOk, HandlersOk, ClockOk, Replay;
    assert DoneOk(w, c);
    if w.calls[c].done && IsWriteAt(w, p, c) {
      assert IsWriteAt(w, w.calls[c].pos, c);
      OnePlace(w, p, w.calls[c].pos, c);
    }
  }

  lemma OrderRespectsClock(w: World, ids: seq<nat>)
    requires KvRaft.Inv(w) && Placed(w, ids, |w.log|)
    ensures RespectsClock(Ops(w, ids))
  {
    hide LogsOk, HandlersOk, CallsOk, EntriesOk, DoneOk, IsAt;
    forall a, b | 0 <= a < b < |ids|
      ensures !(Ops(w, ids)[b].ret < Ops(w, ids)[a].call)
    {
      var x, y := ids[a], ids[b];
      assert IsSomewhere(w, |w.log|, x) && IsSomewhere(w, |w.log|, y);
      var q: nat :| 1 <= q <= |w.log| && IsAt(w, q, x);
      var r: nat :| 1 <= r <= |w.log| && IsAt(w, r, y);
      InTime(w, q, x);
      InTime(w, r, y);
      assert q <= r;
    }
  }

  // ----- and it runs on one table

  ghost function KvTable(): Model<map<string, string>, KvInput, KvOutput> {
    Table(Cells, Key)
  }

  ghost function After(table: map<string, string>, ops: seq<KvOperation>): map<string, string>
    decreases |ops|
  {
    if ops == [] then table
    else After(TableStep(Cells, Key, table, ops[0].input, ops[0].output).1, ops[1..])
  }

  lemma {:induction false} RunsAppend(table: map<string, string>, a: seq<KvOperation>, b: seq<KvOperation>)
    requires Runs(KvTable(), table, a) && Runs(KvTable(), After(table, a), b)
    ensures Runs(KvTable(), table, a + b) && After(table, a + b) == After(After(table, a), b)
    decreases |a|
  {
    if a == [] {
      assert a + b == b;
    } else {
      assert (a + b)[1..] == a[1..] + b;
      RunsAppend(TableStep(Cells, Key, table, a[0].input, a[0].output).1, a[1..], b);
    }
  }

  /** The table has what the servers have; a key that is missing has the empty string. */
  ghost predicate Same(table: map<string, string>, mp: map<string, string>) {
    forall k :: Cell(Cells, table, k) == Lookup(mp, k)
  }

  lemma RunsOne(table: map<string, string>, mp: map<string, string>, op: KvOperation)
    requires Same(table, mp) && IsKvOp(op.input)
    requires op.input.op == 0 ==> op.output.value == Lookup(mp, op.input.key)
    ensures Runs(KvTable(), table, [op]) && Same(After(table, [op]), Written(mp, op.input))
  {
    var step := TableStep(Cells, Key, table, op.input, op.output);
    assert [op][1..] == [];
    assert Runs(KvTable(), step.1, []);
    assert After(step.1, []) == step.1;
    assert Cell(Cells, table, op.input.key) == Lookup(mp, op.input.key);
    forall k
      ensures Cell(Cells, step.1, k) == Lookup(Written(mp, op.input), k)
    {
      assert Cell(Cells, table, k) == Lookup(mp, k);
    }
  }

  lemma {:induction false} GetsRun(w: World, p: nat, table: map<string, string>, ids: seq<nat>)
    requires KvRaft.Inv(w) && 1 <= p <= |w.log| && Same(table, Mp(w, p))
    requires forall i :: 0 <= i < |ids| ==> ids[i] < |w.calls| && IsGetAt(w, p, ids[i])
    ensures Runs(KvTable(), table, Ops(w, ids)) && Same(After(table, Ops(w, ids)), Mp(w, p))
    decreases |ids|
  {
    hide LogsOk, HandlersOk, CallsOk, EntriesOk, ClockOk, Replay;
    if ids != [] {
      var op := OpOf(w, ids[0]);
      assert DoneOk(w, ids[0]);
      RunsOne(table, Mp(w, p), op);
      GetsRun(w, p, After(table, [op]), ids[1..]);
      RunsAppend(table, [op], Ops(w, ids[1..]));
      assert Ops(w, ids) == [op] + Ops(w, ids[1..]);
    }
  }

  lemma WritesRun(w: World, p: nat, table: map<string, string>)
    requires KvRaft.Inv(w) && 1 <= p <= |w.log| && Same(table, Mp(w, p - 1))
    ensures var ops := Ops(w, WritesAt(w, p));
            Runs(KvTable(), table, ops) && Same(After(table, ops), Mp(w, p))
  {
    hide LogsOk, HandlersOk, EntriesOk, ClockOk, DoneOk, Replay;
    var c := IdOf(w, p - 1);
    MpNext(w, p - 1);
    EntryIsCall(w, p - 1);
    if IsWriteAt(w, p, c) {
      RunsOne(table, Mp(w, p - 1), OpOf(w, c));
      assert Ops(w, [c]) == [OpOf(w, c)];
    } else {
      assert Ops(w, []) == [];
    }
  }

  lemma {:induction false} OrderRuns(w: World, p: nat)
    requires KvRaft.Inv(w) && p <= |w.log| && Placed(w, Order(w, p), p)
    ensures var ops := Ops(w, Order(w, p));
            Runs(KvTable(), map[], ops) && Same(After(map[], ops), Mp(w, p))
  {
    hide KvRaft.Inv, Placed, Runs, After, Same, Mp, Shaped, Gets, WritesAt;
    InvShaped(w);
    if p == 0 {
      NothingRuns(w);
    } else {
      var before, writes, gets := Order(w, p - 1), WritesAt(w, p), Gets(w, p, |w.calls|);
      OrderPlaced(w, p - 1);
      PlacedInRange(w, before, p - 1);
      PlacedInRange(w, Order(w, p), p);
      WritesInRange(w, p);
      GetsInRange(w, p);
      OrderRuns(w, p - 1);
      var t1 := After(map[], Ops(w, before));
      WritesRun(w, p, t1);
      GetsRun(w, p, After(t1, Ops(w, writes)), gets);
      RunsAppend(map[], Ops(w, before), Ops(w, writes));
      RunsAppend(map[], Ops(w, before) + Ops(w, writes), Ops(w, gets));
      OpsAppend(w, before, writes);
      OpsAppend(w, before + writes, gets);
    }
  }

  lemma NothingRuns(w: World)
    ensures var ops := Ops(w, []); Runs(KvTable(), map[], ops) && Same(After(map[], ops), Mp(w, 0))
  {
    assert Ops(w, []) == [];
  }

  lemma OpsAppend(w: World, a: seq<nat>, b: seq<nat>)
    requires forall i :: 0 <= i < |a| ==> a[i] < |w.calls|
    requires forall i :: 0 <= i < |b| ==> b[i] < |w.calls|
    ensures Ops(w, a + b) == Ops(w, a) + Ops(w, b)
  {}

  lemma WritesInRange(w: World, p: nat)
    requires Shaped(w) && 1 <= p <= |w.log|
    ensures forall i :: 0 <= i < |WritesAt(w, p)| ==> WritesAt(w, p)[i] < |w.calls|
  {}

  lemma InvShaped(w: World)
    requires KvRaft.Inv(w)
    ensures Shaped(w)
  {}

  lemma PlacedInRange(w: World, ids: seq<nat>, p: nat)
    requires Shaped(w) && p <= |w.log| && Placed(w, ids, p)
    ensures forall i :: 0 <= i < |ids| ==> ids[i] < |w.calls|
  {}

  lemma GetsInRange(w: World, p: nat)
    ensures forall i :: 0 <= i < |Gets(w, p, |w.calls|)| ==>
              Gets(w, p, |w.calls|)[i] < |w.calls| && IsGetAt(w, p, Gets(w, p, |w.calls|)[i])
  {
    GetsContents(w, p, |w.calls|);
    forall i | 0 <= i < |Gets(w, p, |w.calls|)|
      ensures Gets(w, p, |w.calls|)[i] < |w.calls| && IsGetAt(w, p, Gets(w, p, |w.calls|)[i])
    {
      assert Gets(w, p, |w.calls|)[i] in Gets(w, p, |w.calls|);
    }
  }

  // ----- the theorem

  /** A call that took effect: it returned, or it is a Put or Append that is in the log. */
  ghost predicate TookEffect(w: World, c: nat)
    requires Shaped(w) && c < |w.calls|
  {
    w.calls[c].done || (w.calls[c].input.op != 0 && exists p: nat :: p < |w.log| && IdOf(w, p) == c)
  }

  lemma PlaceIsEffect(w: World, q: nat, c: nat)
    requires Shaped(w) && c < |w.calls| && 1 <= q <= |w.log| && IsAt(w, q, c)
    ensures TookEffect(w, c)
  {
    if !IsGetAt(w, q, c) {
      assert IdOf(w, q - 1) == c;
    }
  }

  lemma EffectHasPlace(w: World, c: nat) returns (q: nat)
    requires KvRaft.Inv(w) && c < |w.calls| && TookEffect(w, c)
    ensures 1 <= q <= |w.log| && IsAt(w, q, c)
  {
    hide LogsOk, HandlersOk, CallsOk, EntriesOk, ClockOk, Replay;
    assert DoneOk(w, c);
    if w.calls[c].done {
      q := w.calls[c].pos;
    } else {
      q := FirstFrom(w, c, 0) + 1;
    }
  }

  /** Every listing, without repetition, of the calls that took effect. */
  ghost predicate Lists(w: World, ids: seq<nat>)
    requires Shaped(w)
  {
    Distinct(ids) && forall c: nat :: c in ids <==> c < |w.calls| && TookEffect(w, c)
  }

  lemma {:induction false} DistinctCounts(a: seq<nat>, x: nat)
    requires Distinct(a)
    ensures multiset(a)[x] == if x in a then 1 else 0
    decreases |a|
  {
    if a != [] {
      assert a == [a[0]] + a[1..];
      DistinctCounts(a[1..], x);
    }
  }

  lemma SameListing(a: seq<nat>, b: seq<nat>)
    requires Distinct(a) && Distinct(b) && (forall c: nat :: c in a <==> c in b)
    ensures multiset(a) == multiset(b)
  {
    forall x: nat
      ensures multiset(a)[x] == multiset(b)[x]
    {
      DistinctCounts(a, x);
      DistinctCounts(b, x);
    }
  }

  lemma WithoutFirst(a: seq<nat>, b: seq<nat>) returns (j: nat)
    requires a != [] && multiset(a) == multiset(b)
    ensures j < |b| && b[j] == a[0] && multiset(a[1..]) == multiset(b[..j] + b[j + 1..])
  {
    assert a[0] in multiset(a);
    assert a[0] in multiset(b);
    j := PlaceOf(b, a[0]);
    DropOne(a, 0);
    DropOne(b, j);
    assert a[..0] + a[1..] == a[1..];
  }

  lemma PlaceOf(b: seq<nat>, x: nat) returns (j: nat)
    requires x in multiset(b)
    ensures j < |b| && b[j] == x
  {
    assert x in b;
    j :| 0 <= j < |b| && b[j] == x;
  }

  lemma DropOne(b: seq<nat>, j: nat)
    requires j < |b|
    ensures multiset(b[..j] + b[j + 1..]) == multiset(b) - multiset{b[j]}
  {
    assert b == b[..j] + [b[j]] + b[j + 1..];
  }

  lemma {:induction false} SameOps(w: World, a: seq<nat>, b: seq<nat>)
    requires multiset(a) == multiset(b)
    requires forall i :: 0 <= i < |a| ==> a[i] < |w.calls|
    requires forall i :: 0 <= i < |b| ==> b[i] < |w.calls|
    ensures multiset(Ops(w, a)) == multiset(Ops(w, b))
    decreases |a|
  {
    hide OpOf, Ops;
    if a == [] {
      assert |multiset(b)| == 0;
    } else {
      var j := WithoutFirst(a, b);
      SameOps(w, a[1..], b[..j] + b[j + 1..]);
      OpsWithoutOne(w, a, 0);
      OpsWithoutOne(w, b, j);
      assert a[..0] + a[1..] == a[1..];
    }
  }

  lemma OpsWithoutOne(w: World, b: seq<nat>, j: nat)
    requires j < |b| && forall i :: 0 <= i < |b| ==> b[i] < |w.calls|
    ensures multiset(Ops(w, b)) == multiset(Ops(w, b[..j] + b[j + 1..])) + multiset{OpOf(w, b[j])}
  {
    assert Ops(w, b) == Ops(w, b[..j]) + [OpOf(w, b[j])] + Ops(w, b[j + 1..]);
    assert Ops(w, b[..j] + b[j + 1..]) == Ops(w, b[..j]) + Ops(w, b[j + 1..]);
  }

  /** In every run, however calls are retried, servers crash and snapshots are restored, the
      calls that returned, together with the writes that took effect without having returned,
      form a history that is linearizable against one table of keys. */
  lemma KvRaftIsLinearizable(first: World, steps: seq<Step>, w: World, ids: seq<nat>)
    requires KvRaft.Initial(first) && KvRaft.Leads(first, steps, w) && Shaped(w) && Lists(w, ids)
    ensures forall i :: 0 <= i < |ids| ==> ids[i] < |w.calls|
    ensures IsLinearizable(Table(Cells, Key), Ops(w, ids))
  {
    KvRaft.InitialInv(first);
    KvRaft.RunsKeep(first, steps, w);
    ListsInRange(w, ids);
    LinearizableListing(w, ids);
  }

  /** Nothing returns before it is called. */
  lemma HistoryIsTimely(w: World, ids: seq<nat>)
    requires KvRaft.Inv(w) && forall i :: 0 <= i < |ids| ==> ids[i] < |w.calls|
    ensures Timely(Ops(w, ids))
  {
    hide LogsOk, HandlersOk, EntriesOk, Replay;
    forall op | op in Ops(w, ids)
      ensures op.call <= op.ret
    {
      var i :| 0 <= i < |ids| && Ops(w, ids)[i] == op;
      var c := w.calls[ids[i]];
      assert DoneOk(w, ids[i]);
    }
  }

  /** The checker accepts every history of the replicated store. */
  method CheckerAcceptsKvRaft(
    history: seq<KvOperation>, verbose: bool,
    ghost first: World, ghost steps: seq<Step>, ghost w: World, ghost ids: seq<nat>)
    returns (ok: bool)
    requires KvRaft.Initial(first) && KvRaft.Leads(first, steps, w) && Shaped(w) && Lists(w, ids)
    requires forall i :: 0 <= i < |ids| ==> ids[i] < |w.calls|
    requires history == Ops(w, ids) && history != []
    ensures ok
  {
    hide KvRaft.Inv;
    KvRaft.InitialInv(first);
    KvRaft.RunsKeep(first, steps, w);
    HistoryIsTimely(w, ids);
    KvRaftIsLinearizable(first, steps, w, ids);
    ok := CheckOperations(history, verbose);
  }

  lemma ListsInRange(w: World, ids: seq<nat>)
    requires Shaped(w) && Lists(w, ids)
    ensures forall i :: 0 <= i < |ids| ==> ids[i] < |w.calls|
  {
    forall i | 0 <= i < |ids|
      ensures ids[i] < |w.calls|
    {
      assert ids[i] in ids;
    }
  }

  lemma LinearizableListing(w: World, ids: seq<nat>)
    requires KvRaft.Inv(w) && Lists(w, ids)
    requires forall i :: 0 <= i < |ids| ==> ids[i] < |w.calls|
    ensures IsLinearizable(Table(Cells, Key), Ops(w, ids))
  {
    hide LogsOk, HandlersOk, CallsOk, EntriesOk, ClockOk, DoneOk, TookEffect, IsAt, Order;
    var n := |w.log|;
    var order := Order(w, n);
    OrderPlaced(w, n);
    PlacedInRange(w, order, n);
    OrderRespectsClock(w, order);
    OrderRuns(w, n);
    forall c: nat
      ensures c in ids <==> c in order
    {
      if c in ids {
        var q := EffectHasPlace(w, c);
      } else if c in order {
        var i :| 0 <= i < |order| && order[i] == c;
        assert IsSomewhere(w, n, c);
        var q: nat :| 1 <= q <= n && IsAt(w, q, c);
        PlaceIsEffect(w, q, c);
      }
    }
    SameListing(order, ids);
    SameOps(w, order, ids);
    assert Linearizes(KvTable(), Ops(w, ids), Ops(w, order));
  }

  /** The call's operation changed the table at its place, and nowhere else. */
  ghost predicate ChangesOnce(w: World, c: nat)
    requires Shaped(w) && c < |w.calls|
  {
    var call := w.calls[c];
    && 1 <= call.pos <= |w.log|
    && Mp(w, call.pos) == Written(Mp(w, call.pos - 1), call.input)
    && forall q: nat :: q < |w.log| && IdOf(w, q) == c && q != call.pos - 1 ==> Mp(w, q + 1) == Mp(w, q)
  }

  lemma DoneChangesOnce(w: World, c: nat)
    requires KvRaft.Inv(w) && c < |w.calls| && w.calls[c].done && w.calls[c].input.op != 0
    ensures ChangesOnce(w, c)
  {
    DoneFacts(w, c);
    hide KvRaft.Inv, Mp, Written;
    var p := w.calls[c].pos - 1;
    MpNext(w, p);
    EntryIsCall(w, p);
    forall q: nat | q < |w.log| && IdOf(w, q) == c && q != p
      ensures Mp(w, q + 1) == Mp(w, q)
    {
      RetryChangesNothing(w, p, q);
    }
  }

  /** A Put or Append that returned changed the table exactly once, while it was going on: where
      it is first in the log.  Its retries in the log changed nothing. */
  lemma AcknowledgedOnce(first: World, steps: seq<Step>, w: World, c: nat)
    requires KvRaft.Initial(first) && KvRaft.Leads(first, steps, w) && Shaped(w)
    requires c < |w.calls| && w.calls[c].done && w.calls[c].input.op != 0
    ensures var call := w.calls[c];
            call.at < |w.lens| && call.ret < |w.lens| && w.lens[call.at] < call.pos <= w.lens[call.ret] <= |w.log|
    ensures ChangesOnce(w, c)
  {
    hide KvRaft.Leads, KvRaft.Inv, ChangesOnce;
    KvRaft.InitialInv(first);
    KvRaft.RunsKeep(first, steps, w);
    DoneFacts(w, c);
    DoneChangesOnce(w, c);
  }

  lemma DoneFacts(w: World, c: nat)
    requires KvRaft.Inv(w) && c < |w.calls|
    ensures DoneOk(w, c)
  {
    hide DoneOk;
  }

  lemma RetryChangesNothing(w: World, p: nat, q: nat)
    requires KvRaft.Inv(w) && p < |w.log| && q < |w.log| && p != q && IdOf(w, p) == IdOf(w, q) && IsFresh(w, p)
    ensures Mp(w, q + 1) == Mp(w, q)
  {
    hide LogsOk, HandlersOk, CallsOk, EntriesOk, ClockOk, DoneOk, Mp, Written;
    RetryIsNotFresh(w, p, q);
    MpNext(w, q);
  }

  lemma RetryIsNotFresh(w: World, p: nat, q: nat)
    requires Shaped(w) && p < |w.log| && q < |w.log| && p != q && IdOf(w, p) == IdOf(w, q) && IsFresh(w, p)
    ensures !IsFresh(w, q)
  {}

  /** A Get returned the state after a prefix of the log that is longer than what was committed
      when it was called, and no longer than what was committed when it returned. */
  lemma GetReturnsCurrent(first: World, steps: seq<Step>, w: World, c: nat)
    requires KvRaft.Initial(first) && KvRaft.Leads(first, steps, w) && Shaped(w)
    requires c < |w.calls| && w.calls[c].done && w.calls[c].input.op == 0
    ensures var call := w.calls[c];
            && call.at < |w.lens| && call.ret < |w.lens| && w.lens[call.at] < call.pos <= w.lens[call.ret] <= |w.log|
            && call.value == Lookup(Mp(w, call.pos), call.input.key)
  {
    KvRaft.InitialInv(first);
    KvRaft.RunsKeep(first, steps, w);
    hide KvRaft.Leads, LogsOk, HandlersOk, CallsOk, EntriesOk, ClockOk;
    assert DoneOk(w, c);
  }
}
