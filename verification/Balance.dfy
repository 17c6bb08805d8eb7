/** The greedy loop of rebalance (src/shardctrler/server.go:249-290): what each round keeps, why
it ends, and why it ends balanced. */
module Balance {

  /** The shards each group holds, the groups in ascending order of id, and the shards that no
      group holds. */
  datatype Placement = Placement(held: seq<seq<nat>>, orphans: seq<nat>)

  // ----- one round

  /** The last of the groups with the fewest shards. */
  function LastMin(held: seq<seq<nat>>): (m: nat)
    requires held != []
    ensures m < |held|
    ensures forall j :: 0 <= j < |held| ==> |held[m]| <= |held[j]|
    ensures forall j :: m < j < |held| ==> |held[m]| < |held[j]|
  {
    var n := |held| - 1;
    if n == 0 then 0
    else
      var m := LastMin(held[..n]);
      if |held[n]| <= |held[m]| then n else m
  }

  /** The last of the groups with the most shards. */
  function LastMax(held: seq<seq<nat>>): (m: nat)
    requires held != []
    ensures m < |held|
    ensures forall j :: 0 <= j < |held| ==> |held[j]| <= |held[m]|
    ensures forall j :: m < j < |held| ==> |held[j]| < |held[m]|
  {
    var n := |held| - 1;
    if n == 0 then 0
    else
      var m := LastMax(held[..n]);
      if |held[m]| <= |held[n]| then n else m
  }

  predicate Even(held: seq<seq<nat>>)
    requires held != []
  {
    |held[LastMax(held)]| <= |held[LastMin(held)]| + 1
  }

  predicate Done(p: Placement)
    requires p.held != []
  {
    p.orphans == [] && Even(p.held)
  }

  function Give(held: seq<seq<nat>>, i: nat, shard: nat): seq<seq<nat>>
    requires i < |held|
  {
    held[i := held[i] + [shard]]
  }

  function DropLast(held: seq<seq<nat>>, i: nat): seq<seq<nat>>
    requires i < |held| && held[i] != []
  {
    held[i := held[i][..|held[i]| - 1]]
  }

  function Last(s: seq<nat>): nat
    requires s != []
  {
    s[|s| - 1]
  }

  function Round(p: Placement): (q: Placement)
    requires p.held != [] && !Done(p)
    ensures |q.held| == |p.held|
  {
    var min, max := LastMin(p.held), LastMax(p.held);
    if p.orphans != [] then
      Placement(Give(p.held, min, Last(p.orphans)), p.orphans[..|p.orphans| - 1])
    else
      Placement(Give(DropLast(p.held, max), min, Last(p.held[max])), [])
  }

  // ----- termination

  function Square(n: nat): nat {
    n * n
  }

  ghost function Squares(held: seq<seq<nat>>): nat {
    if held == [] then 0 else Square(|held[0]|) + Squares(held[1..])
  }

  lemma {:induction false} SquaresUpdate(held: seq<seq<nat>>, i: nat, shards: seq<nat>)
    requires i < |held|
    ensures Squares(held[i := shards]) == Squares(held) - Square(|held[i]|) + Square(|shards|)
  {
    hide Square;
    var after := held[i := shards];
    if i == 0 {
      assert after[1..] == held[1..];
    } else {
      assert after[1..] == held[1..][i - 1 := shards];
      SquaresUpdate(held[1..], i - 1, shards);
    }
  }

  lemma CloserSquares(a: nat, b: nat)
    requires a > b + 1
    ensures Square(a - 1) + Square(b + 1) < Square(a) + Square(b)
  {
    assert (a - 1) * (a - 1) == a * a - 2 * a + 1;
    assert (b + 1) * (b + 1) == b * b + 2 * b + 1;
  }

  /** Moving a shard between groups two or more apart lowers the sum of squares. */
  lemma RoundLowersSquares(p: Placement)
    requires p.held != [] && !Done(p) && p.orphans == []
    ensures Squares(Round(p).held) < Squares(p.held)
  {
    hide Square, Squares;
    var min, max := LastMin(p.held), LastMax(p.held);
    var a, b := |p.held[max]|, |p.held[min]|;
    var dropped := DropLast(p.held, max);
    SquaresUpdate(p.held, max, p.held[max][..a - 1]);
    SquaresUpdate(dropped, min, dropped[min] + [Last(p.held[max])]);
    CloserSquares(a, b);
  }

  /** Rounds until there is nothing to do: for every placement on at least one group the loop
      ends. */
  ghost function Run(p: Placement): (q: Placement)
    requires p.held != []
    ensures |q.held| == |p.held| && Done(q)
    decreases |p.orphans|, Squares(p.held)
  {
    if Done(p) then p
    else
      assert p.orphans == [] ==> Squares(Round(p).held) < Squares(p.held) by {
        if p.orphans == [] {
          RoundLowersSquares(p);
        }
      }
      Run(Round(p))
  }

  // ----- what every round keeps

  function Loads(held: seq<seq<nat>>): (loads: seq<nat>)
    ensures |loads| == |held|
  {
    seq(|held|, i requires 0 <= i < |held| => |held[i]|)
  }

  /** How the loads b came about from the loads a: groups that gained are among those with the
      fewest shards, groups that lost among those with the most, nobody that gained has more
      than anybody that lost, and nothing is taken away while there are orphans. */
  ghost predicate Fair(a: seq<nat>, b: seq<nat>, orphans: bool) {
    && |a| == |b|
    && (forall i, j :: 0 <= i < |b| && 0 <= j < |b| && b[i] > a[i] ==> b[i] <= b[j] + 1)
    && (forall i, j :: 0 <= i < |b| && 0 <= j < |b| && b[i] < a[i] ==> b[j] <= b[i] + 1)
    && (forall i, j :: 0 <= i < |b| && 0 <= j < |b| && b[i] > a[i] && b[j] < a[j] ==> b[i] <= b[j])
    && (orphans ==> forall i :: 0 <= i < |b| ==> b[i] >= a[i])
  }

  /** A group's shards are an initial part of what it had, or begin with what it had. */
  ghost predicate OneWay(start: seq<seq<nat>>, held: seq<seq<nat>>) {
    |held| == |start| && forall i :: 0 <= i < |held| ==> held[i] <= start[i] || start[i] <= held[i]
  }

  lemma FairGive(a: seq<nat>, b: seq<nat>, min: nat)
    requires Fair(a, b, true) && min < |b| && forall j :: 0 <= j < |b| ==> b[min] <= b[j]
    ensures Fair(a, b[min := b[min] + 1], true)
  {}

  lemma FairMove(a: seq<nat>, b: seq<nat>, min: nat, max: nat)
    requires Fair(a, b, false) && min < |b| && max < |b| && b[max] > b[min] + 1
    requires forall j :: 0 <= j < |b| ==> b[min] <= b[j] <= b[max]
    ensures b[max] <= a[max] && b[min] >= a[min]
    ensures Fair(a, b[max := b[max] - 1][min := b[min] + 1], false)
  {}

  ghost predicate Kept(start: Placement, p: Placement) {
    && OneWay(start.held, p.held)
    && Fair(Loads(start.held), Loads(p.held), p.orphans != [])
  }

  lemma StartKept(start: Placement)
    ensures Kept(start, start)
  {}

  lemma GiveOneWay(start: seq<seq<nat>>, held: seq<seq<nat>>, i: nat, shard: nat)
    requires OneWay(start, held) && i < |held| && |start[i]| <= |held[i]|
    ensures OneWay(start, Give(held, i, shard))
    ensures Loads(Give(held, i, shard)) == Loads(held)[i := |held[i]| + 1]
  {}

  lemma DropOneWay(start: seq<seq<nat>>, held: seq<seq<nat>>, i: nat)
    requires OneWay(start, held) && i < |held| && held[i] != [] && |held[i]| <= |start[i]|
    ensures OneWay(start, DropLast(held, i))
    ensures Loads(DropLast(held, i)) == Loads(held)[i := |held[i]| - 1]
  {}

  /** Nobody that has gained gives, and nobody that has lost receives. */
  lemma RoundKeeps(start: Placement, p: Placement)
    requires p.held != [] && !Done(p) && Kept(start, p)
    ensures Kept(start, Round(p))
  {
    hide Fair;
    var a, b := Loads(start.held), Loads(p.held);
    var min, max := LastMin(p.held), LastMax(p.held);
    if p.orphans == [] {
      FairMove(a, b, min, max);
      assert a[max] == |start.held[max]| && a[min] == |start.held[min]|;
      DropOneWay(start.held, p.held, max);
      GiveOneWay(start.held, DropLast(p.held, max), min, Last(p.held[max]));
    } else {
      FairGive(a, b, min);
      FairIsUp(a, b, min);
      GiveOneWay(start.held, p.held, min, Last(p.orphans));
      var after := Loads(Give(p.held, min, Last(p.orphans)));
      FairWithout(a, after);
    }
  }

  lemma FairIsUp(a: seq<nat>, b: seq<nat>, i: nat)
    requires Fair(a, b, true) && i < |b|
    ensures |a| == |b| && b[i] >= a[i]
  {}

  lemma FairWithout(a: seq<nat>, b: seq<nat>)
    requires Fair(a, b, true)
    ensures Fair(a, b, false)
  {}

  lemma {:induction false} RunKeeps(start: Placement, p: Placement)
    requires p.held != [] && Kept(start, p)
    ensures Kept(start, Run(p))
    decreases |p.orphans|, Squares(p.held)
  {
    hide Kept;
    if !Done(p) {
      if p.orphans == [] {
        RoundLowersSquares(p);
      }
      RoundKeeps(start, p);
      RunKeeps(start, Round(p));
    }
  }

  // ----- every shard stays in one place

  ghost predicate Distinct(s: seq<nat>) {
    forall i, j :: 0 <= i < j < |s| ==> s[i] != s[j]
  }

  ghost predicate Somewhere(held: seq<seq<nat>>, s: nat) {
    exists i :: 0 <= i < |held| && s in held[i]
  }

  /** The shards below n, each in exactly one place. */
  ghost predicate Partition(p: Placement, n: nat) {
    && Distinct(p.orphans)
    && (forall i :: 0 <= i < |p.held| ==> Distinct(p.held[i]))
    && (forall s :: s in p.orphans ==> s < n && !Somewhere(p.held, s))
    && (forall i, s :: 0 <= i < |p.held| && s in p.held[i] ==> s < n)
    && (forall i, j, s :: 0 <= i < |p.held| && 0 <= j < |p.held| && s in p.held[i] && s in p.held[j] ==> i == j)
    && (forall s: nat :: s < n ==> s in p.orphans || Somewhere(p.held, s))
  }

  /** A distinct sequence without its last element no longer has it. */
  lemma DistinctInit(s: seq<nat>)
    requires Distinct(s) && s != []
    ensures Distinct(s[..|s| - 1]) && Last(s) !in s[..|s| - 1]
    ensures forall x :: x in s <==> x in s[..|s| - 1] || x == Last(s)
  {
    assert s == s[..|s| - 1] + [Last(s)];
  }

  lemma GivePartition(p: Placement, n: nat, i: nat)
    requires Partition(p, n) && p.orphans != [] && i < |p.held|
    ensures Partition(Placement(Give(p.held, i, Last(p.orphans)), p.orphans[..|p.orphans| - 1]), n)
  {
    var x, rest := Last(p.orphans), p.orphans[..|p.orphans| - 1];
    var held := Give(p.held, i, x);
    DistinctInit(p.orphans);
    assert x in p.orphans && x < n && !Somewhere(p.held, x);
    assert forall j :: 0 <= j < |p.held| ==> x !in p.held[j];
    assert Distinct(p.held[i]) && Distinct(held[i]);
    assert forall s :: s in held[i] <==> s in p.held[i] || s == x;
    assert x in held[i];
    forall j, s | 0 <= j < |held| && s in held[j]
      ensures s in p.held[j] || (s == x && j == i)
    {}
    forall s | s in rest
      ensures s < n && !Somewhere(held, s)
    {
      assert s in p.orphans;
      assert s != x && !Somewhere(p.held, s);
    }
    forall s: nat | s < n
      ensures s in rest || Somewhere(held, s)
    {
      if s !in p.orphans {
        var j :| 0 <= j < |p.held| && s in p.held[j];
        assert s in held[j];
      }
    }
  }

  /** Taking a group's last shard makes it an orphan. */
  lemma DropPartition(held: seq<seq<nat>>, n: nat, i: nat)
    requires Partition(Placement(held, []), n) && i < |held| && held[i] != []
    ensures Partition(Placement(DropLast(held, i), [Last(held[i])]), n)
  {
    var x, after := Last(held[i]), DropLast(held, i);
    DistinctInit(held[i]);
    forall j, s | 0 <= j < |after| && s in after[j]
      ensures s in held[j] && s != x
    {
      assert s in held[j];
    }
    assert !Somewhere(after, x);
    forall s: nat | s < n
      ensures s in [x] || Somewhere(after, s)
    {
      assert Somewhere(held, s);
      var j :| 0 <= j < |held| && s in held[j];
      assert s == x || s in after[j];
    }
  }

  lemma RoundPartition(p: Placement, n: nat)
    requires p.held != [] && !Done(p) && Partition(p, n)
    ensures Partition(Round(p), n)
  {
    hide Partition;
    var min, max := LastMin(p.held), LastMax(p.held);
    if p.orphans == [] {
      var x := Last(p.held[max]);
      DropPartition(p.held, n, max);
      GivePartition(Placement(DropLast(p.held, max), [x]), n, min);
      assert [x][..0] == [];
    } else {
      GivePartition(p, n, min);
    }
  }

  lemma {:induction false} RunPartition(p: Placement, n: nat)
    requires p.held != [] && Partition(p, n)
    ensures Partition(Run(p), n)
    decreases |p.orphans|, Squares(p.held)
  {
    hide Partition;
    if !Done(p) {
      if p.orphans == [] {
        RoundLowersSquares(p);
      }
      RoundPartition(p, n);
      RunPartition(Round(p), n);
    }
  }
}
