/** Which shard goes to which group (src/shardctrler/server.go:203-300): what the assignment that
rebalance computes means, and that it is the best one. */
module Allocation {
  import opened Balance
  import opened Fewest

  // ----- assignments

  ghost function On(assign: seq<int>, g: int): set<nat> {
    set s: nat | s < |assign| && assign[s] == g
  }

  ghost predicate Within(assign: seq<int>, groups: set<int>) {
    forall s :: 0 <= s < |assign| ==> assign[s] in groups
  }

  /** No group has two shards more than another. */
  ghost predicate Balanced(assign: seq<int>, groups: set<int>) {
    forall g, h :: g in groups && h in groups ==> |On(assign, g)| <= |On(assign, h)| + 1
  }

  /** A shard's old group survives if it is a group of the new configuration, but 0 is nobody. */
  predicate Survives(g: int, groups: set<int>) {
    g != 0 && g in groups
  }

  /** The shards taken away from a group that survives. */
  ghost function Rehomed(old': seq<int>, groups: set<int>, new': seq<int>): set<nat> {
    set s: nat | s < |old'| && s < |new'| && Survives(old'[s], groups) && new'[s] != old'[s]
  }

  // ----- the assignment that rebalance computes

  ghost predicate Ascends(gids: seq<int>) {
    forall i, j :: 0 <= i < j < |gids| ==> gids[i] < gids[j]
  }

  /** The group ids in ascending order: the same whatever the order of iteration. */
  ghost predicate Lists(gids: seq<int>, groups: set<int>) {
    && Ascends(gids)
    && (forall g :: g in gids ==> g in groups)
    && (forall g :: g in groups ==> g in gids)
  }

  lemma ListsNothing(gids: seq<int>, groups: set<int>)
    requires Lists(gids, groups)
    ensures gids == [] <==> groups == {}
  {
    if gids != [] {
      assert gids[0] in gids;
    } else {
      assert forall g :: g in groups ==> g in gids;
      assert groups == {};
    }
  }

  lemma {:induction false} ListsOnce(a: seq<int>, b: seq<int>, groups: set<int>)
    requires Lists(a, groups) && Lists(b, groups)
    ensures a == b
    decreases |a|
  {
    ListsNothing(a, groups);
    ListsNothing(b, groups);
    if a != [] {
      assert a[0] in a && b[0] in b;
      assert a[0] in b && b[0] in a;
      assert a[0] == b[0];
      forall g
        ensures g in a[1..] <==> g in groups - {a[0]}
        ensures g in b[1..] <==> g in groups - {a[0]}
      {
        assert a == [a[0]] + a[1..] && b == [b[0]] + b[1..];
      }
      ListsOnce(a[1..], b[1..], groups - {a[0]});
    }
  }

  /** The shards below n that the group had, in ascending order; group 0 never has any. */
  function Homed(old': seq<int>, g: int, n: nat): seq<nat>
    requires n <= |old'|
  {
    if n == 0 then []
    else Homed(old', g, n - 1) + if g != 0 && old'[n - 1] == g then [n - 1] else []
  }

  function Homeless(old': seq<int>, groups: set<int>, n: nat): seq<nat>
    requires n <= |old'|
  {
    if n == 0 then []
    else Homeless(old', groups, n - 1) + if Survives(old'[n - 1], groups) then [] else [n - 1]
  }

  function Start(old': seq<int>, groups: set<int>, gids: seq<int>): Placement {
    Placement(seq(|gids|, i requires 0 <= i < |gids| => Homed(old', gids[i], |old'|)),
              Homeless(old', groups, |old'|))
  }

  /** The group that holds a shard, the last one if there were several. */
  function HolderOf(gids: seq<int>, held: seq<seq<nat>>, s: nat): int
    requires |gids| == |held|
    decreases |held|
  {
    if held == [] then 0
    else
      var n := |held| - 1;
      if s in held[n] then gids[n] else HolderOf(gids[..n], held[..n], s)
  }

  function Assignment(gids: seq<int>, held: seq<seq<nat>>, n: nat): seq<int>
    requires |gids| == |held|
  {
    seq(n, s requires 0 <= s < n => HolderOf(gids, held, s))
  }

  /** What rebalance computes from the old assignment and the new set of groups. */
  ghost predicate IsRebalanced(old': seq<int>, groups: set<int>, new': seq<int>) {
    if groups == {} then new' == seq(|old'|, _ => 0)
    else
      exists gids :: Lists(gids, groups) && gids != []
        && new' == Assignment(gids, Run(Start(old', groups, gids)).held, |old'|)
  }

  /** The result depends on nothing but the old assignment and the set of groups. */
  lemma RebalanceIsDeterministic(old': seq<int>, groups: set<int>, a: seq<int>, b: seq<int>)
    requires IsRebalanced(old', groups, a) && IsRebalanced(old', groups, b)
    ensures a == b
  {
    if groups != {} {
      var x :| Lists(x, groups) && x != [] && a == Assignment(x, Run(Start(old', groups, x)).held, |old'|);
      var y :| Lists(y, groups) && y != [] && b == Assignment(y, Run(Start(old', groups, y)).held, |old'|);
      ListsOnce(x, y, groups);
    }
  }

  // ----- the start is a partition

  lemma {:induction false} HomedContents(old': seq<int>, g: int, n: nat)
    requires n <= |old'|
    ensures forall s: nat :: s in Homed(old', g, n) <==> s < n && g != 0 && old'[s] == g
    ensures Distinct(Homed(old', g, n))
  {
    if n > 0 {
      HomedContents(old', g, n - 1);
    }
  }

  lemma {:induction false} HomelessContents(old': seq<int>, groups: set<int>, n: nat)
    requires n <= |old'|
    ensures forall s: nat :: s in Homeless(old', groups, n) <==> s < n && !Survives(old'[s], groups)
    ensures Distinct(Homeless(old', groups, n))
  {
    if n > 0 {
      HomelessContents(old', groups, n - 1);
    }
  }

  lemma StartPartition(old': seq<int>, groups: set<int>, gids: seq<int>)
    requires Lists(gids, groups)
    ensures Partition(Start(old', groups, gids), |old'|)
  {
    var p, n := Start(old', groups, gids), |old'|;
    HomelessContents(old', groups, n);
    forall i | 0 <= i < |gids|
      ensures Distinct(p.held[i])
      ensures forall s: nat :: s in p.held[i] <==> s < n && gids[i] != 0 && old'[s] == gids[i]
    {
      HomedContents(old', gids[i], n);
    }
    forall s: nat | s < n
      ensures s in p.orphans || Somewhere(p.held, s)
    {
      if Survives(old'[s], groups) {
        var i :| 0 <= i < |gids| && gids[i] == old'[s];
        assert s in p.held[i];
      }
    }
  }

  // ----- the assignment read off a placement without orphans

  lemma {:induction false} HolderIs(gids: seq<int>, held: seq<seq<nat>>, s: nat, i: nat)
    requires |gids| == |held| && i < |held| && s in held[i]
    requires forall j :: i < j < |held| ==> s !in held[j]
    ensures HolderOf(gids, held, s) == gids[i]
    decreases |held|
  {
    var n := |held| - 1;
    if i < n {
      HolderIs(gids[..n], held[..n], s, i);
    }
  }

  /** The shards assigned to a group are those that it holds. */
  lemma AssignmentHolds(gids: seq<int>, p: Placement, n: nat, i: nat)
    requires Ascends(gids) && |gids| == |p.held| && Partition(p, n) && p.orphans == [] && i < |gids|
    ensures forall s :: s in On(Assignment(gids, p.held, n), gids[i]) <==> s in p.held[i]
    ensures |On(Assignment(gids, p.held, n), gids[i])| == |p.held[i]|
  {
    var on := On(Assignment(gids, p.held, n), gids[i]);
    forall s | s in p.held[i]
      ensures s in on
    {
      HolderIs(gids, p.held, s, i);
    }
    forall s | s in on
      ensures s in p.held[i]
    {
      assert Somewhere(p.held, s);
      var j :| 0 <= j < |p.held| && s in p.held[j];
      HolderIs(gids, p.held, s, j);
      assert gids[j] == gids[i];
    }
    DistinctSize(p.held[i], on);
  }

  lemma {:induction false} DistinctSize(s: seq<nat>, elements: set<nat>)
    requires Distinct(s) && forall x :: x in elements <==> x in s
    ensures |elements| == |s|
    decreases |s|
  {
    if s == [] {
      assert elements == {};
    } else {
      DistinctInit(s);
      DistinctSize(s[..|s| - 1], elements - {Last(s)});
    }
  }

  // ----- counting shards group by group

  ghost function Piece(shards: set<nat>, owner: seq<int>, g: int): set<nat> {
    set s | s in shards && s < |owner| && owner[s] == g
  }

  ghost function Pieces(shards: set<nat>, owner: seq<int>, gids: seq<int>): (sizes: seq<int>)
    ensures |sizes| == |gids|
  {
    seq(|gids|, i requires 0 <= i < |gids| => |Piece(shards, owner, gids[i])|)
  }

  lemma {:induction false} SumOfPieces(shards: set<nat>, owner: seq<int>, gids: seq<int>)
    requires Ascends(gids) && forall s :: s in shards ==> s < |owner| && owner[s] in gids
    ensures Sum(Pieces(shards, owner, gids)) == |shards|
    decreases |gids|
  {
    if gids == [] {
      assert shards == {};
    } else {
      var first := Piece(shards, owner, gids[0]);
      var rest := shards - first;
      PiecesOfRest(shards, owner, gids);
      SumOfPieces(rest, owner, gids[1..]);
      assert shards == first + rest;
    }
  }

  lemma PiecesOfRest(shards: set<nat>, owner: seq<int>, gids: seq<int>)
    requires gids != [] && Ascends(gids) && forall s :: s in shards ==> s < |owner| && owner[s] in gids
    ensures var rest := shards - Piece(shards, owner, gids[0]);
            && Pieces(shards, owner, gids)[1..] == Pieces(rest, owner, gids[1..])
            && forall s :: s in rest ==> owner[s] in gids[1..]
  {
    var rest := shards - Piece(shards, owner, gids[0]);
    assert gids == [gids[0]] + gids[1..];
    forall i | 1 <= i < |gids|
      ensures Piece(rest, owner, gids[i]) == Piece(shards, owner, gids[i])
    {}
    assert Pieces(shards, owner, gids)[1..] == Pieces(rest, owner, gids[1..]);
  }

  ghost function OnEach(assign: seq<int>, gids: seq<int>): (loads: seq<nat>)
    ensures |loads| == |gids|
  {
    seq(|gids|, i requires 0 <= i < |gids| => |On(assign, gids[i])|)
  }

  ghost function AllShards(n: nat): (all: set<nat>)
    ensures forall s: nat :: s in all <==> s < n
    ensures |all| == n
  {
    if n == 0 then {} else AllShards(n - 1) + {n - 1}
  }

  /** The loads of an assignment to the groups add up to the number of shards. */
  lemma LoadsAddUp(assign: seq<int>, groups: set<int>, gids: seq<int>)
    requires Lists(gids, groups) && Within(assign, groups)
    ensures Sum(OnEach(assign, gids)) == |assign|
  {
    var all := AllShards(|assign|);
    forall s | s in all
      ensures assign[s] in gids
    {
      var g := assign[s];
      assert g in groups && g in gids;
    }
    SumOfPieces(all, assign, gids);
    forall i | 0 <= i < |gids|
      ensures Piece(all, assign, gids[i]) == On(assign, gids[i])
    {}
    assert Pieces(all, assign, gids) == OnEach(assign, gids);
  }

  lemma BalancedIsLevel(assign: seq<int>, groups: set<int>, gids: seq<int>)
    requires Lists(gids, groups) && Balanced(assign, groups)
    ensures Level(OnEach(assign, gids))
  {
    forall i, j | 0 <= i < |gids| && 0 <= j < |gids|
      ensures OnEach(assign, gids)[i] <= OnEach(assign, gids)[j] + 1
    {
      assert gids[i] in groups && gids[j] in groups;
    }
  }

  /** The shards of a group that survives and its own number. */
  ghost function Had(old': seq<int>, g: int): set<nat> {
    if g == 0 then {} else On(old', g)
  }

  lemma TakenAway(old': seq<int>, groups: set<int>, new': seq<int>, g: int)
    requires g in groups && |new'| == |old'|
    ensures Piece(Rehomed(old', groups, new'), old', g) == Had(old', g) - On(new', g)
    ensures |Had(old', g) - On(new', g)| >= |Had(old', g)| - |On(new', g)|
  {
    var had, on := Had(old', g), On(new', g);
    assert had == (had - on) + (had * on);
    assert |had| == |had - on| + |had * on|;
    SubsetSize(had * on, on);
  }

  lemma {:induction false} SubsetSize(a: set<nat>, b: set<nat>)
    requires a <= b
    ensures |a| <= |b|
    decreases |a|
  {
    if a != {} {
      var x :| x in a;
      SubsetSize(a - {x}, b - {x});
    }
  }

  lemma RehomedIsPieces(old': seq<int>, groups: set<int>, new': seq<int>, gids: seq<int>)
    requires Lists(gids, groups) && |new'| == |old'|
    ensures |Rehomed(old', groups, new')| == Sum(Pieces(Rehomed(old', groups, new'), old', gids))
  {
    SumOfPieces(Rehomed(old', groups, new'), old', gids);
  }

  ghost function HadEach(old': seq<int>, gids: seq<int>): (loads: seq<nat>)
    ensures |loads| == |gids|
  {
    seq(|gids|, i requires 0 <= i < |gids| => |Had(old', gids[i])|)
  }

  /** Every assignment takes away at least the excess of each group. */
  lemma AtLeastTheExcess(old': seq<int>, groups: set<int>, new': seq<int>, gids: seq<int>)
    requires Lists(gids, groups) && |new'| == |old'|
    ensures |Rehomed(old', groups, new')| >= Sum(Excess(HadEach(old', gids), OnEach(new', gids)))
  {
    RehomedIsPieces(old', groups, new', gids);
    var sizes := Pieces(Rehomed(old', groups, new'), old', gids);
    var excess := Excess(HadEach(old', gids), OnEach(new', gids));
    forall i | 0 <= i < |gids|
      ensures excess[i] <= sizes[i]
    {
      TakenAway(old', groups, new', gids[i]);
    }
    SumMonotone(excess, sizes);
  }

  /** No group gains a shard and loses another. */
  ghost predicate GivesOrTakes(old': seq<int>, new': seq<int>, g: int) {
    Had(old', g) <= On(new', g) || On(new', g) <= Had(old', g)
  }

  lemma ExactlyTheExcess(old': seq<int>, groups: set<int>, new': seq<int>, gids: seq<int>)
    requires Lists(gids, groups) && |new'| == |old'|
    requires forall g :: g in groups ==> GivesOrTakes(old', new', g)
    ensures |Rehomed(old', groups, new')| == Sum(Excess(HadEach(old', gids), OnEach(new', gids)))
  {
    RehomedIsPieces(old', groups, new', gids);
    var sizes := Pieces(Rehomed(old', groups, new'), old', gids);
    var excess := Excess(HadEach(old', gids), OnEach(new', gids));
    forall i | 0 <= i < |gids|
      ensures excess[i] == sizes[i]
    {
      assert gids[i] in groups;
      TakenAway(old', groups, new', gids[i]);
      GiveOrTakeSize(old', new', gids[i]);
    }
    assert excess == sizes;
  }

  lemma GiveOrTakeSize(old': seq<int>, new': seq<int>, g: int)
    requires GivesOrTakes(old', new', g)
    ensures var had, on := |Had(old', g)|, |On(new', g)|;
            |Had(old', g) - On(new', g)| == if had > on then had - on else 0
  {
    var had, on := Had(old', g), On(new', g);
    if had <= on {
      SubsetSize(had, on);
      assert had - on == {};
    } else {
      SubsetSize(on, had);
      assert had == (had - on) + on;
    }
  }

  // ----- the main results

  /** What the loop leaves, in terms of the assignments before and after. */
  lemma RunAssigns(old': seq<int>, groups: set<int>, gids: seq<int>, new': seq<int>)
    requires Lists(gids, groups) && gids != []
    requires new' == Assignment(gids, Run(Start(old', groups, gids)).held, |old'|)
    ensures |new'| == |old'| && Within(new', groups)
    ensures OnEach(new', gids) == Loads(Run(Start(old', groups, gids)).held)
    ensures HadEach(old', gids) == Loads(Start(old', groups, gids).held)
    ensures forall i :: 0 <= i < |gids| ==> GivesOrTakes(old', new', gids[i])
  {
    var p, n := Start(old', groups, gids), |old'|;
    var q := Run(p);
    StartPartition(old', groups, gids);
    RunPartition(p, n);
    StartKept(p);
    RunKeeps(p, p);
    forall i | 0 <= i < |gids|
      ensures |On(new', gids[i])| == |q.held[i]| && |Had(old', gids[i])| == |p.held[i]|
      ensures GivesOrTakes(old', new', gids[i])
    {
      AssignmentHolds(gids, q, n, i);
      HomedContents(old', gids[i], n);
      DistinctSize(p.held[i], Had(old', gids[i]));
      PrefixContents(p.held[i], q.held[i]);
    }
    forall s | 0 <= s < n
      ensures new'[s] in groups
    {
      assert Somewhere(q.held, s);
      var i :| 0 <= i < |q.held| && s in q.held[i];
      HolderIs(gids, q.held, s, i);
    }
  }

  lemma PrefixContents(a: seq<nat>, b: seq<nat>)
    ensures a <= b ==> forall s :: s in a ==> s in b
    ensures b <= a ==> forall s :: s in b ==> s in a
  {}

  /** Every shard goes to a current group and the loads differ by at most one, whatever the old
      assignment was; without groups every shard goes to 0. */
  lemma RebalanceBalances(old': seq<int>, groups: set<int>, new': seq<int>)
    requires IsRebalanced(old', groups, new')
    ensures |new'| == |old'|
    ensures groups == {} ==> forall s :: 0 <= s < |new'| ==> new'[s] == 0
    ensures groups != {} ==> Within(new', groups) && Balanced(new', groups)
  {
    if groups != {} {
      var gids :| Lists(gids, groups) && gids != []
        && new' == Assignment(gids, Run(Start(old', groups, gids)).held, |old'|);
      RunAssigns(old', groups, gids, new');
      var q := Run(Start(old', groups, gids));
      forall g, h | g in groups && h in groups
        ensures |On(new', g)| <= |On(new', h)| + 1
      {
        assert g in gids && h in gids;
        var i, j :| 0 <= i < |gids| && gids[i] == g && 0 <= j < |gids| && gids[j] == h;
        assert OnEach(new', gids)[i] == |q.held[i]| && OnEach(new', gids)[j] == |q.held[j]|;
      }
    }
  }

  /** No group both gives and takes. */
  lemma RebalanceIsOneWay(old': seq<int>, groups: set<int>, new': seq<int>, g: int)
    requires IsRebalanced(old', groups, new') && g in groups
    ensures GivesOrTakes(old', new', g)
  {
    var gids :| Lists(gids, groups) && gids != []
      && new' == Assignment(gids, Run(Start(old', groups, gids)).held, |old'|);
    RunAssigns(old', groups, gids, new');
    assert g in gids;
  }

  /** No balanced assignment to the groups takes fewer shards away from groups that survive. */
  lemma RebalanceMovesFewest(old': seq<int>, groups: set<int>, new': seq<int>, other: seq<int>)
    requires IsRebalanced(old', groups, new') && groups != {}
    requires |other| == |old'| && Within(other, groups) && Balanced(other, groups)
    ensures |Rehomed(old', groups, new')| <= |Rehomed(old', groups, other)|
  {
    var gids :| Lists(gids, groups) && gids != []
      && new' == Assignment(gids, Run(Start(old', groups, gids)).held, |old'|);
    RunAssigns(old', groups, gids, new');
    RebalanceBalances(old', groups, new');
    var p := Start(old', groups, gids);
    StartKept(p);
    RunKeeps(p, p);
    var a, b, c := HadEach(old', gids), OnEach(new', gids), OnEach(other, gids);
    LoadsAddUp(new', groups, gids);
    LoadsAddUp(other, groups, gids);
    BalancedIsLevel(new', groups, gids);
    BalancedIsLevel(other, groups, gids);
    FairIsFewest(a, b, c);
    AtLeastTheExcess(old', groups, other, gids);
    ExactlyTheExcess(old', groups, new', gids);
  }

  /** An assignment that is already balanced is left as it is. */
  lemma RebalanceIsStable(old': seq<int>, groups: set<int>, new': seq<int>)
    requires IsRebalanced(old', groups, new') && groups != {} && 0 !in groups
    requires Within(old', groups) && Balanced(old', groups)
    ensures new' == old'
  {
    RebalanceBalances(old', groups, new');
    RebalanceMovesFewest(old', groups, new', old');
    assert Rehomed(old', groups, old') == {};
    assert Rehomed(old', groups, new') == {};
    forall s | 0 <= s < |old'|
      ensures new'[s] == old'[s]
    {
      assert s !in Rehomed(old', groups, new');
    }
  }
}
