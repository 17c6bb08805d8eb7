/** The shard controller: rebalance and the history of configurations
(src/shardctrler/server.go:203-382). */
module ShardController {
  import opened Balance
  import opened Allocation
  import Sorting

  const NSHARDS: nat := 10

  // ----- rebalance

  /** A group id and its shards. */
  datatype GS = GS(gid: int, shards: seq<nat>)

  function Gids(gss: seq<GS>): (gids: seq<int>)
    ensures |gids| == |gss|
  {
    seq(|gss|, i requires 0 <= i < |gss| => gss[i].gid)
  }

  function Held(gss: seq<GS>): (held: seq<seq<nat>>)
    ensures |held| == |gss|
  {
    seq(|gss|, i requires 0 <= i < |gss| => gss[i].shards)
  }

  /** Each group is found at its index. */
  ghost predicate Indexed(gss: seq<GS>, index: map<int, nat>) {
    && (forall i :: 0 <= i < |gss| ==> gss[i].gid in index && index[gss[i].gid] == i)
    && (forall g :: g in index ==> index[g] < |gss| && gss[index[g]].gid == g)
  }

  /** Some order in which to go over the groups. */
  ghost predicate Enumerates(order: seq<int>, groups: set<int>) {
    && (forall i, j :: 0 <= i < j < |order| ==> order[i] != order[j])
    && (forall i :: 0 <= i < |order| ==> order[i] in groups)
    && (forall g :: g in groups ==> g in order)
  }

  /** The groups of the new configuration, in whatever order they come. */
  method Collect(order: seq<int>, groups: set<int>) returns (gss: seq<GS>, index: map<int, nat>)
    requires Enumerates(order, groups)
    ensures Indexed(gss, index) && index.Keys == groups && |gss| == |order|
    ensures forall i :: 0 <= i < |gss| ==> gss[i].shards == []
  {
    gss, index := [], map[];
    for k := 0 to |order|
      invariant |gss| == k && forall i :: 0 <= i < k ==> gss[i] == GS(order[i], [])
      invariant forall i :: 0 <= i < k ==> order[i] in index && index[order[i]] == i
      invariant forall g :: g in index ==> index[g] < k && order[index[g]] == g
    {
      gss := gss + [GS(order[k], [])];
      index := index[order[k] := |gss| - 1];
    }
    forall g
      ensures g in index <==> g in groups
    {
      assert g in groups ==> g in order;
    }
  }

  /** Each shard to its old group, or to the orphans if that is not a group any more. */
  method Distribute(old': seq<int>, start: seq<GS>, index: map<int, nat>)
    returns (gss: seq<GS>, orphans: seq<nat>)
    requires Indexed(start, index) && forall i :: 0 <= i < |start| ==> start[i].shards == []
    ensures Indexed(gss, index) && |gss| == |start|
    ensures orphans == Homeless(old', index.Keys, |old'|)
    ensures forall i :: 0 <= i < |gss| ==> gss[i].shards == Homed(old', gss[i].gid, |old'|)
  {
    gss, orphans := start, [];
    for s := 0 to |old'|
      invariant Indexed(gss, index) && |gss| == |start|
      invariant orphans == Homeless(old', index.Keys, s)
      invariant forall i :: 0 <= i < |gss| ==> gss[i].shards == Homed(old', gss[i].gid, s)
    {
      var gid := old'[s];
      if gid == 0 {
        orphans := orphans + [s];
      } else if gid !in index {
        orphans := orphans + [s];
      } else {
        gss := gss[index[gid] := GS(gid, gss[index[gid]].shards + [s])];
      }
    }
  }

  /** The order by group id. */
  predicate Before(a: GS, b: GS) {
    a.gid < b.gid
  }

  method SortByGid(gss: seq<GS>, index: map<int, nat>) returns (sorted: seq<GS>, index': map<int, nat>)
    requires Indexed(gss, index)
    ensures |sorted| == |gss| && Indexed(sorted, index') && Lists(Gids(sorted), index.Keys)
    ensures forall i :: 0 <= i < |sorted| ==> sorted[i] in gss
  {
    sorted := Sorting.Sort(Before, gss);
    assert |multiset(sorted)| == |multiset(gss)|;
    SortedAscends(gss, index, sorted);
    index' := Reindex(sorted);
  }

  method Reindex(sorted: seq<GS>) returns (index': map<int, nat>)
    requires Ascends(Gids(sorted))
    ensures Indexed(sorted, index')
  {
    index' := map[];
    for i := 0 to |sorted|
      invariant forall j :: 0 <= j < i ==> sorted[j].gid in index' && index'[sorted[j].gid] == j
      invariant forall g :: g in index' ==> index'[g] < i && sorted[index'[g]].gid == g
    {
      forall j | 0 <= j < i
        ensures sorted[j].gid < sorted[i].gid
      {
        assert Gids(sorted)[j] < Gids(sorted)[i];
      }
      index' := index'[sorted[i].gid := i];
    }
  }

  lemma SortedAscends(gss: seq<GS>, index: map<int, nat>, sorted: seq<GS>)
    requires Indexed(gss, index) && multiset(sorted) == multiset(gss) && Sorting.Sorted(Before, sorted)
    ensures Lists(Gids(sorted), index.Keys)
    ensures forall i :: 0 <= i < |sorted| ==> sorted[i] in gss
  {
    forall x
      ensures x in sorted <==> x in gss
    {
      assert x in sorted <==> x in multiset(sorted);
      assert x in gss <==> x in multiset(gss);
    }
    forall i, j | 0 <= i < j < |sorted|
      ensures sorted[i].gid < sorted[j].gid
    {
      assert !Before(sorted[j], sorted[i]);
      SameElementTwice(gss, index, sorted, i, j);
    }
    forall g | g in index
      ensures g in Gids(sorted)
    {
      var x := gss[index[g]];
      assert x in sorted;
      var k :| 0 <= k < |sorted| && sorted[k] == x;
      assert Gids(sorted)[k] == g;
    }
    forall g | g in Gids(sorted)
      ensures g in index
    {
      var k :| 0 <= k < |sorted| && Gids(sorted)[k] == g;
      assert sorted[k] in gss;
    }
  }

  /** No group id comes twice. */
  lemma SameElementTwice(gss: seq<GS>, index: map<int, nat>, sorted: seq<GS>, i: nat, j: nat)
    requires Indexed(gss, index) && multiset(sorted) == multiset(gss) && i < j < |sorted|
    ensures sorted[i].gid != sorted[j].gid
  {
    var x, y := sorted[i], sorted[j];
    assert x in multiset(sorted) && y in multiset(sorted);
    assert x in gss && y in gss;
    var a :| 0 <= a < |gss| && gss[a] == x;
    var b :| 0 <= b < |gss| && gss[b] == y;
    if x.gid == y.gid {
      assert a == b;
      TwiceInSeq(sorted, i, j);
      OnceInSeq(gss, index, a);
    }
  }

  lemma TwiceInSeq(s: seq<GS>, i: nat, j: nat)
    requires i < j < |s| && s[i] == s[j]
    ensures multiset(s)[s[i]] >= 2
  {
    assert s == s[..j] + [s[j]] + s[j + 1..];
    assert s[..j][i] == s[i];
  }

  lemma OnceInSeq(gss: seq<GS>, index: map<int, nat>, a: nat)
    requires Indexed(gss, index) && a < |gss|
    ensures multiset(gss)[gss[a]] == 1
  {
    assert gss == gss[..a] + [gss[a]] + gss[a + 1..];
    assert gss[a] !in gss[..a] && gss[a] !in gss[a + 1..];
  }

  /** The last group with the fewest and the last with the most shards. */
  method Scan(gss: seq<GS>) returns (minNum: nat, minGid: int, maxNum: nat, maxGid: int)
    requires gss != [] && forall i :: 0 <= i < |gss| ==> |gss[i].shards| <= NSHARDS
    ensures var min, max := LastMin(Held(gss)), LastMax(Held(gss));
            && minGid == gss[min].gid && minNum == |gss[min].shards|
            && maxGid == gss[max].gid && maxNum == |gss[max].shards|
  {
    minNum, minGid, maxNum, maxGid := 10_000_000_000, 0, 0, 0;
    ghost var min, max := 0, 0;
    for i := 0 to |gss|
      invariant i == 0 ==> minNum == 10_000_000_000 && maxNum == 0
      invariant i > 0 ==> min < i && minGid == gss[min].gid && minNum == |gss[min].shards|
      invariant i > 0 ==> max < i && maxGid == gss[max].gid && maxNum == |gss[max].shards|
      invariant forall j :: 0 <= j < i ==> minNum <= |gss[j].shards| <= maxNum
      invariant forall j :: min < j < i ==> minNum < |gss[j].shards|
      invariant forall j :: max < j < i ==> |gss[j].shards| < maxNum
    {
      if |gss[i].shards| <= minNum {
        minNum, minGid, min := |gss[i].shards|, gss[i].gid, i;
      }
      if maxNum <= |gss[i].shards| {
        maxNum, maxGid, max := |gss[i].shards|, gss[i].gid, i;
      }
    }
    ghost var held := Held(gss);
    assert |held[min]| == minNum && |held[max]| == maxNum;
    assert min == LastMin(held);
    assert max == LastMax(held);
  }

  /** One pass of the loop: nothing left to do, or a shard more for a group with the fewest. */
  method OneRound(gss: seq<GS>, index: map<int, nat>, orphans: seq<nat>)
    returns (done: bool, gss': seq<GS>, orphans': seq<nat>)
    requires gss != [] && Indexed(gss, index) && forall i :: 0 <= i < |gss| ==> |gss[i].shards| <= NSHARDS
    ensures done == Done(Placement(Held(gss), orphans))
    ensures done ==> gss' == gss && orphans' == orphans
    ensures Gids(gss') == Gids(gss)
    ensures !done ==> Placement(Held(gss'), orphans') == Round(Placement(Held(gss), orphans))
  {
    gss', orphans' := gss, orphans;
    var minNum, minGid, maxNum, maxGid := Scan(gss);
    ghost var held := Held(gss);
    done := maxNum <= minNum + 1 && |orphans| == 0;
    if done {
      return;
    }
    var min, max := index[minGid], index[maxGid];
    assert min == LastMin(held) && max == LastMax(held);
    var minShards, maxShards := gss[min].shards, gss[max].shards;
    if |orphans| != 0 {
      gss' := gss'[min := GS(minGid, minShards + [orphans[|orphans| - 1]])];
      orphans' := orphans[..|orphans| - 1];
      assert Held(gss') == Give(held, min, Last(orphans));
    } else {
      var moved := maxShards[|maxShards| - 1];
      gss' := gss'[min := GS(minGid, minShards + [moved])];
      gss' := gss'[max := GS(maxGid, maxShards[..|maxShards| - 1])];
      assert Held(gss') == Give(DropLast(held, max), min, moved);
    }
  }

  /** The loop: rounds until the loads are even and no orphan is left. */
  method Settle(start: seq<GS>, index: map<int, nat>, orphans0: seq<nat>) returns (gss: seq<GS>)
    requires start != [] && Indexed(start, index) && Partition(Placement(Held(start), orphans0), NSHARDS)
    ensures Gids(gss) == Gids(start)
    ensures Held(gss) == Run(Placement(Held(start), orphans0)).held
  {
    hide Partition;
    gss := start;
    var orphans, done := orphans0, false;
    while !done
      invariant |gss| == |start| && Gids(gss) == Gids(start) && Indexed(gss, index)
      invariant Partition(Placement(Held(gss), orphans), NSHARDS)
      invariant Run(Placement(Held(gss), orphans)) == Run(Placement(Held(start), orphans0))
      invariant done ==> Done(Placement(Held(gss), orphans))
      decreases !done, |orphans|, Squares(Held(gss))
    {
      ghost var p := Placement(Held(gss), orphans);
      SmallLoads(gss, orphans);
      ghost var before := gss;
      done, gss, orphans := OneRound(gss, index, orphans);
      SameIndex(before, gss, index);
      if !done {
        RoundPartition(p, NSHARDS);
        if p.orphans == [] {
          RoundLowersSquares(p);
        }
      }
    }
  }

  lemma SameIndex(a: seq<GS>, b: seq<GS>, index: map<int, nat>)
    requires Indexed(a, index) && Gids(b) == Gids(a)
    ensures |b| == |a| && Indexed(b, index)
  {
    assert |Gids(b)| == |b|;
    forall i | 0 <= i < |a|
      ensures a[i].gid == b[i].gid
    {
      assert Gids(a)[i] == a[i].gid && Gids(b)[i] == b[i].gid;
    }
  }

  lemma SmallLoads(gss: seq<GS>, orphans: seq<nat>)
    requires Partition(Placement(Held(gss), orphans), NSHARDS)
    ensures forall i :: 0 <= i < |gss| ==> |gss[i].shards| <= NSHARDS
  {
    var held := Held(gss);
    forall i | 0 <= i < |gss|
      ensures |gss[i].shards| <= NSHARDS
    {
      assert Distinct(held[i]) && forall s :: s in held[i] ==> s < NSHARDS;
      var elements := set s | s in held[i];
      DistinctSize(held[i], elements);
      SubsetSize(elements, AllShards(NSHARDS));
    }
  }

  /** Each group's shards to the group. */
  method WriteOut(gss: seq<GS>) returns (new': seq<int>)
    requires Partition(Placement(Held(gss), []), NSHARDS)
    ensures new' == Assignment(Gids(gss), Held(gss), NSHARDS)
  {
    new' := seq(NSHARDS, _ => 0);
    ghost var gids, held := Gids(gss), Held(gss);
    for i := 0 to |gss|
      invariant |new'| == NSHARDS
      invariant forall s :: 0 <= s < NSHARDS ==> new'[s] == HolderOf(gids[..i], held[..i], s)
    {
      var shards := gss[i].shards;
      ghost var before := new';
      for k := 0 to |shards|
        invariant |new'| == NSHARDS
        invariant forall s :: 0 <= s < NSHARDS ==> new'[s] == if s in shards[..k] then gss[i].gid else before[s]
      {
        assert shards[k] in held[i];
        new' := new'[shards[k] := gss[i].gid];
        assert shards[..k + 1] == shards[..k] + [shards[k]];
      }
      assert shards[..|shards|] == shards;
      assert gids[..i + 1][..i] == gids[..i] && held[..i + 1][..i] == held[..i];
    }
    assert gids[..|gss|] == gids && held[..|gss|] == held;
  }

  /** rebalance, for any order in which the map of groups may be gone over. */
  method Rebalance(old': seq<int>, groups: set<int>, order: seq<int>) returns (new': seq<int>)
    requires |old'| == NSHARDS && Enumerates(order, groups)
    ensures IsRebalanced(old', groups, new')
  {
    var gss, index := Collect(order, groups);
    if |gss| == 0 {
      assert forall g :: g in groups ==> g in order;
      return seq(NSHARDS, _ => 0);
    }
    var orphans;
    gss, orphans := Distribute(old', gss, index);
    gss, index := SortByGid(gss, index);
    ghost var gids := Gids(gss);
    ghost var p := Start(old', groups, gids);
    assert Placement(Held(gss), orphans) == p;
    StartPartition(old', groups, gids);
    gss := Settle(gss, index, orphans);
    RunPartition(p, NSHARDS);
    new' := WriteOut(gss);
  }

  // ----- the history of configurations

  datatype Config = Config(num: nat, shards: seq<int>, groups: map<int, seq<string>>)

  datatype Op =
    | Join(servers: map<int, seq<string>>)
    | Leave(gids: seq<int>)
    | Move(shard: nat, gid: int)
    | Query

  function FirstConfig(): Config {
    Config(0, seq(NSHARDS, _ => 0), map[])
  }

  /** The groups after an operation. */
  function GroupsAfter(groups: map<int, seq<string>>, op: Op): map<int, seq<string>> {
    match op
    case Join(servers) => groups + servers
    case Leave(gids) => map g | g in groups && g !in gids :: groups[g]
    case _ => groups
  }

  /** The configuration that an operation appends. */
  ghost predicate Follows(before: Config, op: Op, after: Config) {
    && after.num == before.num + 1
    && after.groups == GroupsAfter(before.groups, op)
    && (if op.Move? then op.shard < |before.shards| && after.shards == before.shards[op.shard := op.gid]
        else IsRebalanced(before.shards, after.groups.Keys, after.shards))
  }

  lemma FollowsOnce(before: Config, op: Op, a: Config, b: Config)
    requires Follows(before, op, a) && Follows(before, op, b)
    ensures a == b
  {
    if !op.Move? {
      RebalanceIsDeterministic(before.shards, a.groups.Keys, a.shards, b.shards);
    }
  }

  /** The configurations after the operations. */
  ghost predicate History(ops: seq<Op>, configs: seq<Config>)
    decreases |ops|
  {
    if ops == [] then configs == [FirstConfig()]
    else
      var n, m := |ops| - 1, |configs| - 1;
      if ops[n].Query? then History(ops[..n], configs)
      else
        && m >= 1
        && History(ops[..n], configs[..m])
        && Follows(configs[m - 1], ops[n], configs[m])
  }

  /** Replicas that apply the same operations have the same configurations, whatever order each
      went over its map of groups in. */
  lemma {:induction false} ReplicasAgree(ops: seq<Op>, a: seq<Config>, b: seq<Config>)
    requires History(ops, a) && History(ops, b)
    ensures a == b
    decreases |ops|
  {
    if ops != [] {
      var n := |ops| - 1;
      if ops[n].Query? {
        ReplicasAgree(ops[..n], a, b);
      } else {
        var i, j := |a| - 1, |b| - 1;
        ReplicasAgree(ops[..n], a[..i], b[..j]);
        assert a[..i][i - 1] == a[i - 1] && b[..j][j - 1] == b[j - 1];
        FollowsOnce(a[i - 1], ops[n], a[i], b[j]);
        assert a == a[..i] + [a[i]] && b == b[..j] + [b[j]];
      }
    }
  }

  /** Configurations are numbered by their position, and each says where every shard is. */
  ghost predicate Numbered(configs: seq<Config>) {
    configs != [] && forall i :: 0 <= i < |configs| ==> configs[i].num == i && |configs[i].shards| == NSHARDS
  }

  lemma {:induction false} HistoryIsNumbered(ops: seq<Op>, configs: seq<Config>)
    requires History(ops, configs)
    ensures Numbered(configs)
    decreases |ops|
  {
    if ops != [] {
      var n, m := |ops| - 1, |configs| - 1;
      if ops[n].Query? {
        HistoryIsNumbered(ops[..n], configs);
      } else {
        HistoryIsNumbered(ops[..n], configs[..m]);
        assert configs[..m][m - 1] == configs[m - 1];
        if !ops[n].Move? {
          RebalanceBalances(configs[m - 1].shards, configs[m].groups.Keys, configs[m].shards);
        }
        forall i | 0 <= i < |configs|
          ensures configs[i].num == i && |configs[i].shards| == NSHARDS
        {
          assert i < m ==> configs[i] == configs[..m][i];
        }
      }
    }
  }

  /** Whatever came before, also Moves to groups that do not exist: after a Join or Leave that
      leaves some group, every shard is at a current group, evenly. */
  lemma JoinAndLeaveBalance(ops: seq<Op>, configs: seq<Config>)
    requires History(ops, configs) && ops != [] && (ops[|ops| - 1].Join? || ops[|ops| - 1].Leave?)
    ensures configs != []
    ensures var last := configs[|configs| - 1];
            if last.groups == map[] then forall s :: 0 <= s < NSHARDS && s < |last.shards| ==> last.shards[s] == 0
            else Within(last.shards, last.groups.Keys) && Balanced(last.shards, last.groups.Keys)
  {
    var m := |configs| - 1;
    RebalanceBalances(configs[m - 1].shards, configs[m].groups.Keys, configs[m].shards);
  }

  /** A group from which shards are fetched has nothing to fetch itself, so that migrations
      after a Join or Leave do not wait for one another. */
  lemma SourcesDoNotWait(before: Config, op: Op, after: Config, s: nat, t: nat)
    requires Follows(before, op, after) && (op.Join? || op.Leave?)
    requires s < |before.shards| && s < |after.shards|
    requires before.shards[s] != 0 && after.shards[s] != before.shards[s]
    requires t < |before.shards| && t < |after.shards| && before.shards[t] != before.shards[s]
    ensures after.shards[t] != before.shards[s]
  {
    var g, groups := before.shards[s], after.groups.Keys;
    RebalanceBalances(before.shards, groups, after.shards);
    if g in groups {
      RebalanceIsOneWay(before.shards, groups, after.shards, g);
      assert s in Had(before.shards, g) && s !in On(after.shards, g);
      assert t !in Had(before.shards, g);
      assert t in On(after.shards, g) <==> after.shards[t] == g;
    }
  }

  class ShardCtrler {
    var configs: seq<Config>

    constructor ()
      ensures History([], configs)
    {
      configs := [FirstConfig()];
    }

    /** applyOp: the configurations stay those of the operations applied so far, and no earlier
        one changes. */
    method ApplyOp(op: Op, order: seq<int>, ghost ops: seq<Op>)
      requires History(ops, configs)
      requires op.Move? ==> op.shard < NSHARDS
      requires configs != [] ==> Enumerates(order, GroupsAfter(configs[|configs| - 1].groups, op).Keys)
      modifies this
      ensures History(ops + [op], configs)
      ensures old(configs) <= configs
      ensures |configs| == |old(configs)| + if op.Query? then 0 else 1
    {
      HistoryIsNumbered(ops, configs);
      assert (ops + [op])[..|ops|] == ops;
      var last := configs[|configs| - 1];
      var groups := GroupsAfter(last.groups, op);
      var shards := last.shards;
      match op {
        case Query => return;
        case Move(shard, gid) => shards := shards[shard := gid];
        case _ => shards := Rebalance(last.shards, groups.Keys, order);
      }
      var next := Config(last.num + 1, shards, groups);
      assert Follows(last, op, next);
      assert (configs + [next])[..|configs|] == configs;
      configs := configs + [next];
    }

    /** successCommit of a Query: the configuration of that number, or the last one for -1 and for
        numbers not reached yet. */
    method Query(num: int, ghost ops: seq<Op>) returns (config: Config)
      requires History(ops, configs) && num >= -1
      ensures config in configs
      ensures config.num == if 0 <= num < |configs| then num else |configs| - 1
    {
      HistoryIsNumbered(ops, configs);
      config := configs[if num == -1 || num >= |configs| then |configs| - 1 else num];
    }
  }
}
