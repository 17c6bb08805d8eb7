/** Why a fair balanced outcome moves the fewest shards: arithmetic on loads. */
module Fewest {
  import opened Balance

  ghost function Sum(a: seq<int>): int {
    if a == [] then 0 else a[0] + Sum(a[1..])
  }

  lemma {:induction false} SumMonotone(a: seq<int>, b: seq<int>)
    requires |a| == |b| && forall i :: 0 <= i < |a| ==> a[i] <= b[i]
    ensures Sum(a) <= Sum(b)
    ensures Sum(a) == Sum(b) ==> a == b
  {
    if a != [] {
      SumMonotone(a[1..], b[1..]);
      assert a == [a[0]] + a[1..] && b == [b[0]] + b[1..];
    }
  }

  lemma {:induction false} SumOfSums(a: seq<int>, b: seq<int>, c: seq<int>)
    requires |a| == |b| == |c| && forall i :: 0 <= i < |a| ==> c[i] == a[i] + b[i]
    ensures Sum(c) == Sum(a) + Sum(b)
  {
    if a != [] {
      SumOfSums(a[1..], b[1..], c[1..]);
    }
  }

  ghost predicate Level(loads: seq<nat>) {
    forall i, j :: 0 <= i < |loads| && 0 <= j < |loads| ==> loads[i] <= loads[j] + 1
  }

  ghost predicate Near(loads: seq<nat>, q: nat) {
    forall i :: 0 <= i < |loads| ==> q <= loads[i] <= q + 1
  }

  /** How many shards each group must give up to get from loads a to loads b. */
  ghost function Excess(a: seq<nat>, b: seq<nat>): (e: seq<int>)
    requires |a| == |b|
    ensures |e| == |a|
  {
    seq(|a|, i requires 0 <= i < |a| => if a[i] > b[i] then a[i] - b[i] else 0)
  }

  ghost function Minimum(loads: seq<nat>): (m: nat)
    requires loads != []
    ensures m in loads && forall i :: 0 <= i < |loads| ==> m <= loads[i]
  {
    if |loads| == 1 then loads[0]
    else
      var m := Minimum(loads[1..]);
      assert loads == [loads[0]] + loads[1..];
      if loads[0] <= m then loads[0] else m
  }

  /** Level loads with the same sum have the same minimum. */
  lemma SameMinimum(b: seq<nat>, c: seq<nat>)
    requires |b| == |c| > 0 && Level(b) && Level(c) && Sum(b) == Sum(c)
    ensures Minimum(b) == Minimum(c)
  {
    if Minimum(b) < Minimum(c) {
      BelowIsLess(b, c);
    } else if Minimum(c) < Minimum(b) {
      BelowIsLess(c, b);
    }
  }

  lemma BelowIsLess(b: seq<nat>, c: seq<nat>)
    requires |b| == |c| > 0 && Level(b) && Minimum(b) < Minimum(c)
    ensures Sum(b) < Sum(c)
  {
    var m :| 0 <= m < |b| && b[m] == Minimum(b);
    forall i | 0 <= i < |b|
      ensures b[i] <= c[i]
    {
      assert b[i] <= b[m] + 1;
    }
    SumMonotone(b, c);
    assert b[m] < c[m];
  }

  /** Of all level loads with the same sum, fair ones take the fewest shards away. */
  lemma FairIsFewest(a: seq<nat>, b: seq<nat>, c: seq<nat>)
    requires |a| == |b| == |c| > 0 && Fair(a, b, false)
    requires Level(b) && Level(c) && Sum(b) == Sum(c)
    ensures Sum(Excess(a, b)) <= Sum(Excess(a, c))
  {
    SameMinimum(b, c);
    var q := Minimum(b);
    var mb :| 0 <= mb < |b| && b[mb] == q;
    var mc :| 0 <= mc < |c| && c[mc] == q;
    forall i | 0 <= i < |b|
      ensures q <= b[i] <= q + 1 && q <= c[i] <= q + 1
    {
      assert b[i] <= b[mb] + 1 && c[i] <= c[mc] + 1;
    }
    if forall i :: 0 <= i < |a| && a[i] > q ==> b[i] == q + 1 {
      SumMonotone(Excess(a, b), Excess(a, c));
    } else {
      var x :| 0 <= x < |a| && a[x] > q && b[x] != q + 1;
      SomeLoserIsLow(a, b, c, q, x);
    }
  }

  /** If a group that lost ends low, every group that had few ends low. */
  lemma SomeLoserIsLow(a: seq<nat>, b: seq<nat>, c: seq<nat>, q: nat, x: nat)
    requires |a| == |b| == |c| && Fair(a, b, false) && Near(b, q) && Near(c, q) && Sum(b) == Sum(c)
    requires x < |a| && a[x] > q && b[x] == q
    ensures Sum(Excess(a, b)) <= Sum(Excess(a, c))
  {
    var eb, ec := Excess(a, b), Excess(a, c);
    var tb := seq(|a|, i requires 0 <= i < |a| => eb[i] + b[i]);
    var tc := seq(|a|, i requires 0 <= i < |a| => ec[i] + c[i]);
    forall i | 0 <= i < |a|
      ensures tb[i] <= tc[i]
    {
      assert b[i] <= b[x] || b[i] <= q || a[i] > q;
    }
    SumOfSums(eb, b, tb);
    SumOfSums(ec, c, tc);
    SumMonotone(tb, tc);
  }
}
