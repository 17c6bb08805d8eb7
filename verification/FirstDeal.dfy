/** How rebalance deals out shards that nobody has (src/shardctrler/server.go:203-300), for example at the first
Join: from the last shard down, one to each group in turn, from the last group down. */
module FirstDeal {
  import opened Balance
  import opened Allocation
  import opened ShardController

  /** The group whose turn it is after j shards. */
  function Turn(j: nat, k: nat): int
    requires k > 0
  {
    k - 1 - j % k
  }

  /** Of n shards the last ones, down to r, have been dealt to k groups: q to each and one more to m of them. */
  ghost predicate Dealt(p: Placement, n: nat, r: nat, q: nat, m: nat) {
    && p.held != [] && r <= n && n - r == q * |p.held| + m && m < |p.held|
    && |p.orphans| == r && (forall i :: 0 <= i < r ==> p.orphans[i] == i)
    && (forall i :: 0 <= i < |p.held| ==> |p.held[i]| == q + if i >= |p.held| - m then 1 else 0)
    && (forall i, s: nat :: 0 <= i < |p.held| ==>
          (s in p.held[i] <==> r <= s < n && Turn(n - 1 - s, |p.held|) == i))
  }

  lemma RemainderIs(q: nat, k: nat, m: nat)
    requires m < k
    ensures (q * k + m) % k == m
  {
    var x := q * k + m;
    var d, e := x / k, x % k;
    assert x == d * k + e;
    assert (d - q) * k == m - e;
    SmallMultiple(d - q, k);
  }

  lemma SmallMultiple(a: int, k: int)
    requires k > 0 && -k < a * k < k
    ensures a == 0
  {}

  /** The next shard goes to the group whose turn it is. */
  lemma NextIsDealt(p: Placement, n: nat, r: nat, q: nat, m: nat)
    requires Dealt(p, n, r, q, m) && r > 0
    ensures !Done(p)
    ensures if m + 1 < |p.held| then Dealt(Round(p), n, r - 1, q, m + 1) else Dealt(Round(p), n, r - 1, q + 1, 0)
  {
    var k := |p.held|;
    var min, p' := LastMin(p.held), Round(p);
    assert min == k - 1 - m by {
      var t := k - 1 - m;
      assert |p.held[t]| == q;
      assert forall j :: t < j < k ==> |p.held[j]| == q + 1;
    }
    RemainderIs(q, k, m);
    assert Turn(n - 1 - (r - 1), k) == min;
    forall i, s: nat | 0 <= i < k
      ensures s in p'.held[i] <==> r - 1 <= s < n && Turn(n - 1 - s, k) == i
    {
      assert s in p.held[i] <==> r <= s < n && Turn(n - 1 - s, k) == i;
      if i == min {
        assert p'.held[i] == p.held[i] + [r - 1];
      }
    }
    assert (q + 1) * k == q * k + k;
  }

  lemma DealtIsEven(p: Placement, n: nat, q: nat, m: nat)
    requires Dealt(p, n, 0, q, m)
    ensures Done(p)
  {}

  lemma {:induction false} RunDeals(p: Placement, n: nat, r: nat, q: nat, m: nat)
    requires Dealt(p, n, r, q, m)
    ensures var held := Run(p).held;
            && |held| == |p.held|
            && forall i, s: nat :: 0 <= i < |held| ==> (s in held[i] <==> s < n && Turn(n - 1 - s, |held|) == i)
    decreases r
  {
    hide Dealt, Round, Done;
    if r == 0 {
      DealtIsEven(p, n, q, m);
      DealtFacts(p, n, 0, q, m);
    } else {
      DealtFacts(p, n, r, q, m);
      NextIsDealt(p, n, r, q, m);
      if m + 1 < |p.held| {
        RunDeals(Round(p), n, r - 1, q, m + 1);
      } else {
        RunDeals(Round(p), n, r - 1, q + 1, 0);
      }
    }
  }

  lemma DealtFacts(p: Placement, n: nat, r: nat, q: nat, m: nat)
    requires Dealt(p, n, r, q, m)
    ensures p.held != []
    ensures forall i, s: nat :: 0 <= i < |p.held| ==>
              (s in p.held[i] <==> r <= s < n && Turn(n - 1 - s, |p.held|) == i)
  {}

  // ----- when nobody has a shard

  lemma {:induction false} AllHomeless(old': seq<int>, groups: set<int>, n: nat)
    requires n <= |old'| && forall s :: 0 <= s < |old'| ==> !Survives(old'[s], groups)
    ensures |Homeless(old', groups, n)| == n
    ensures forall i :: 0 <= i < n ==> Homeless(old', groups, n)[i] == i
  {
    if n > 0 {
      AllHomeless(old', groups, n - 1);
    }
  }

  lemma {:induction false} NobodyHome(old': seq<int>, groups: set<int>, g: int, n: nat)
    requires n <= |old'| && g in groups && forall s :: 0 <= s < |old'| ==> !Survives(old'[s], groups)
    ensures Homed(old', g, n) == []
  {
    if n > 0 {
      NobodyHome(old', groups, g, n - 1);
    }
  }

  lemma {:induction false} HolderIs(gids: seq<int>, held: seq<seq<nat>>, s: nat, i: nat)
    requires |gids| == |held| && i < |held| && s in held[i]
    requires forall j :: 0 <= j < |held| && j != i ==> s !in held[j]
    ensures HolderOf(gids, held, s) == gids[i]
    decreases |held|
  {
    var n := |held| - 1;
    if i < n {
      HolderIs(gids[..n], held[..n], s, i);
    }
  }

  /** If no group keeps a shard, the last shard goes to the last group, the one before to the group before,
      and so on in turn. */
  lemma OrphansAreDealt(old': seq<int>, groups: set<int>, gids: seq<int>, new': seq<int>, s: nat)
    requires IsRebalanced(old', groups, new') && Lists(gids, groups) && gids != [] && s < |old'|
    requires forall t :: 0 <= t < |old'| ==> !Survives(old'[t], groups)
    ensures |new'| == |old'| && new'[s] == gids[|gids| - 1 - (|old'| - 1 - s) % |gids|]
  {
    ListsNothing(gids, groups);
    var listed :| Lists(listed, groups) && listed != []
                  && new' == Assignment(listed, Run(Start(old', groups, listed)).held, |old'|);
    ListsOnce(listed, gids, groups);
    StartIsDealt(old', groups, gids);
    var p := Start(old', groups, gids);
    RunDeals(p, |old'|, |old'|, 0, 0);
    HolderIs(gids, Run(p).held, s, Turn(|old'| - 1 - s, |gids|));
  }

  lemma StartIsDealt(old': seq<int>, groups: set<int>, gids: seq<int>)
    requires Lists(gids, groups) && gids != []
    requires forall t :: 0 <= t < |old'| ==> !Survives(old'[t], groups)
    ensures Dealt(Start(old', groups, gids), |old'|, |old'|, 0, 0)
  {
    AllHomeless(old', groups, |old'|);
    forall i | 0 <= i < |gids|
      ensures Homed(old', gids[i], |old'|) == []
    {
      assert gids[i] in gids;
      NobodyHome(old', groups, gids[i], |old'|);
    }
  }

  lemma FirstJoinFollows(servers: map<int, seq<string>>, configs: seq<Config>)
    requires History([Join(servers)], configs)
    ensures |configs| == 2 && Follows(FirstConfig(), Join(servers), configs[1])
  {
    hide Follows;
    assert [Join(servers)][..0] == [];
    assert History([], configs[..|configs| - 1]);
  }

  /** So it is after the first Join. */
  lemma FirstJoinDeals(servers: map<int, seq<string>>, configs: seq<Config>, gids: seq<int>, s: nat)
    requires History([Join(servers)], configs) && Lists(gids, servers.Keys) && gids != [] && s < NSHARDS
    ensures |configs| == 2 && |configs[1].shards| == NSHARDS
    ensures configs[1].shards[s] == gids[|gids| - 1 - (NSHARDS - 1 - s) % |gids|]
  {
    hide History, IsRebalanced, Lists;
    FirstJoinFollows(servers, configs);
    assert configs[1].groups == servers;
    OrphansAreDealt(FirstConfig().shards, servers.Keys, gids, configs[1].shards, s);
  }
}
