/** A run in which all shards move to another group, back, and there again, and what a late retry would
do on the way (src/shardkv/server.go:358-361). */
module MigrationExample {
  import opened ShardStore
  import opened Migration
  import opened MigrationRuns

  /** Everything at group 1, then at group 2, then at group 1 again, and so on. */
  function ThereAndBack(n: nat, s: nat): int {
    if n == 0 then 0 else if n % 2 == 0 then 2 else 1
  }

  lemma SameForAll(n: nat)
    ensures forall s: nat :: ThereAndBack(n, s) == ThereAndBack(n, 0)
  {}

  ghost function Everything(n: nat): (all: set<nat>)
    ensures forall s: nat :: s in all <==> s < n
  {
    if n == 0 then {} else Everything(n - 1) + {n - 1}
  }

  /** A group's configuration, and whether it serves all shards or none, and since when. */
  ghost predicate IsAt(w: World, g: int, num: nat, serves: bool, last: nat) {
    && g in w.groups && w.groups[g].Shaped() && w.groups[g].num == num
    && forall s: nat :: s < NSHARDS ==> w.groups[g].vec[s] == serves && w.groups[g].last[s] == last
  }

  /** The steps of a run, one more at the end. */
  lemma {:induction false} OneMore(plan: Plan, w: World, steps: seq<Step>, mid: World, step: Step)
    requires Leads(plan, w, steps, mid) && Shaped(mid) && Enabled(plan, mid, step)
    ensures Leads(plan, w, steps + [step], Take(plan, mid, step))
    decreases |steps|
  {
    hide Shaped, Enabled, Take;
    if steps == [] {
      assert (steps + [step])[1..] == [];
      assert Leads(plan, Take(plan, mid, step), [], Take(plan, mid, step));
    } else {
      assert (steps + [step])[1..] == steps[1..] + [step];
      OneMore(plan, Take(plan, w, steps[0]), steps[1..], mid, step);
    }
  }

  lemma Adopts(w: World, g: int, num: nat, serves: bool, last: nat) returns (w': World)
    requires Inv(ThereAndBack, w) && w.groups.Keys == {1, 2} && IsAt(w, g, num, serves, last)
    requires num >= 1 && ThereAndBack(num, 0) != g && ThereAndBack(num + 1, 0) == g ==> last > num
    ensures Enabled(ThereAndBack, w, Adopt(g)) && w' == Take(ThereAndBack, w, Adopt(g))
    ensures Inv(ThereAndBack, w') && w'.groups.Keys == {1, 2} && w'.packets == w.packets
    ensures w'.table == w.table && w'.seen == w.seen
    ensures forall h :: h in w.groups && h != g ==> w'.groups[h] == w.groups[h]
    ensures var mine := ThereAndBack(num + 1, 0) == g; IsAt(w', g, num + 1, mine, if mine then num + 1 else last)
  {
    hide Inv;
    InvIsShaped(w);
    assert Enabled(ThereAndBack, w, Adopt(g));
    w' := Take(ThereAndBack, w, Adopt(g));
    AdoptEffect(ThereAndBack, w, g);
    AdoptKeeps(ThereAndBack, w, g);
  }

  lemma InvIsShaped(w: World)
    requires Inv(ThereAndBack, w)
    ensures Shaped(w)
  {}

  lemma MayFetch(w: World, src: int, dst: int, num: nat)
    requires Shaped(w) && src in w.groups && w.groups[src].num >= num >= 2 && src != dst
    requires ThereAndBack(num - 1, 0) == src && ThereAndBack(num, 0) == dst
    ensures Enabled(ThereAndBack, w, Fetch(src, dst, num, Everything(NSHARDS)))
  {
    hide Shaped;
    SameForAll(num - 1);
    SameForAll(num);
  }

  /** All shards are fetched from a group that has reached the configuration. */
  lemma Fetches(w: World, src: int, dst: int, num: nat) returns (w': World, p: Packet)
    requires Inv(ThereAndBack, w) && src in w.groups && w.groups[src].num >= num >= 2 && src != dst
    requires ThereAndBack(num - 1, 0) == src && ThereAndBack(num, 0) == dst
    ensures Enabled(ThereAndBack, w, Fetch(src, dst, num, Everything(NSHARDS)))
    ensures w' == Take(ThereAndBack, w, Fetch(src, dst, num, Everything(NSHARDS))) && Inv(ThereAndBack, w')
    ensures w'.groups == w.groups && w'.packets == w.packets + {p} && w'.table == w.table
    ensures p.num == num && p.src == src && p.dst == dst && p.moved == Everything(NSHARDS)
  {
    hide Inv, ThereAndBack, Enabled, Shaped, DataOf, SessionsOf;
    InvIsShaped(w);
    MayFetch(w, src, dst, num);
    var all := Everything(NSHARDS);
    FetchKeeps(ThereAndBack, w, src, dst, num, all);
    w' := Take(ThereAndBack, w, Fetch(src, dst, num, all));
    var g := w.groups[src];
    p := Packet(num, src, dst, all, DataOf(g.mp, all), SessionsOf(g.sessions, all));
  }

  lemma Moves(w: World, p: Packet, serves: bool, last: nat) returns (w': World)
    requires Inv(ThereAndBack, w) && p in w.packets && p.moved == Everything(NSHARDS)
    requires w.groups.Keys == {1, 2} && p.num >= 1 && IsAt(w, p.dst, p.num - 1, serves, last)
    ensures Enabled(ThereAndBack, w, Move(p)) && w' == Take(ThereAndBack, w, Move(p)) && Inv(ThereAndBack, w')
    ensures w'.groups.Keys == {1, 2} && w'.packets == w.packets && w'.table == w.table
    ensures forall h :: h in w.groups && h != p.dst ==> w'.groups[h] == w.groups[h]
    ensures IsAt(w', p.dst, p.num - 1, true, p.num)
  {
    hide Inv;
    InvIsShaped(w);
    w' := Take(ThereAndBack, w, Move(p));
    MoveEffect(ThereAndBack, w, p);
    MoveKeeps(ThereAndBack, w, p);
  }

  /** A client puts something under the empty key, which is in shard 0. */
  lemma Writes(w: World, g: int, num: nat, last: nat) returns (w': World)
    requires Inv(ThereAndBack, w) && w.groups.Keys == {1, 2} && IsAt(w, g, num, true, last) && w.seen == map[]
    requires w.groups[g].sessions == map[]
    ensures Enabled(ThereAndBack, w, Request(g, 0, 1, "", Set("x")))
    ensures w' == Take(ThereAndBack, w, Request(g, 0, 1, "", Set("x"))) && Inv(ThereAndBack, w')
    ensures w'.groups.Keys == {1, 2} && IsAt(w', g, num, true, last) && "" in w'.table
    ensures forall h :: h in w.groups && h != g ==> w'.groups[h] == w.groups[h]
  {
    hide Inv;
    InvIsShaped(w);
    w' := Take(ThereAndBack, w, Request(g, 0, 1, "", Set("x")));
    RequestKeeps(ThereAndBack, w, g, 0, 1, "", Set("x"));
  }

  // ----- the run, step by step

  /** A run has led here, and the write is in the table. */
  ghost predicate Reached(first: World, steps: seq<Step>, w: World) {
    && Leads(ThereAndBack, first, steps, w) && Inv(ThereAndBack, w)
    && w.groups.Keys == {1, 2} && "" in w.table
  }

  /** Where group 1 and group 2 are. */
  ghost predicate AreAt(
    w: World, g: int, num: nat, serves: bool, last: nat, h: int, num': nat, serves': bool, last': nat)
  {
    IsAt(w, g, num, serves, last) && IsAt(w, h, num', serves', last') && g != h
  }

  lemma ThenAdopts(
    first: World, steps: seq<Step>, w: World, g: int, num: nat, serves: bool, last: nat, h: int, num': nat,
    serves': bool, last': nat)
    returns (w': World)
    requires Reached(first, steps, w) && AreAt(w, g, num, serves, last, h, num', serves', last')
    requires num >= 1 && ThereAndBack(num, 0) != g && ThereAndBack(num + 1, 0) == g ==> last > num
    ensures Reached(first, steps + [Adopt(g)], w') && w'.packets == w.packets
    ensures var mine := ThereAndBack(num + 1, 0) == g;
            AreAt(w', g, num + 1, mine, if mine then num + 1 else last, h, num', serves', last')
  {
    hide Inv, Enabled, Take, Leads;
    w' := Adopts(w, g, num, serves, last);
    InvIsShaped(w);
    OneMore(ThereAndBack, first, steps, w, Adopt(g));
  }

  lemma ThenFetches(
    first: World, steps: seq<Step>, w: World, g: int, num: nat, serves: bool, last: nat, h: int, num': nat,
    serves': bool, last': nat)
    returns (w': World, p: Packet)
    requires Reached(first, steps, w) && AreAt(w, g, num, serves, last, h, num', serves', last')
    requires num >= 2 && ThereAndBack(num - 1, 0) == g && ThereAndBack(num, 0) == h
    ensures Reached(first, steps + [Fetch(g, h, num, Everything(NSHARDS))], w') && w'.packets == w.packets + {p}
    ensures p.num == num && p.src == g && p.dst == h && p.moved == Everything(NSHARDS)
    ensures AreAt(w', g, num, serves, last, h, num', serves', last')
  {
    hide Inv, Enabled, Take, Leads;
    w', p := Fetches(w, g, h, num);
    InvIsShaped(w);
    OneMore(ThereAndBack, first, steps, w, Fetch(g, h, num, Everything(NSHARDS)));
  }

  lemma ThenMoves(
    first: World, steps: seq<Step>, w: World, p: Packet, g: int, num: nat, serves: bool, last: nat, h: int,
    num': nat, serves': bool, last': nat)
    returns (w': World)
    requires Reached(first, steps, w) && AreAt(w, g, num, serves, last, h, num', serves', last')
    requires p in w.packets && p.dst == h && p.num == num' + 1 && p.moved == Everything(NSHARDS)
    ensures Reached(first, steps + [Move(p)], w') && w'.packets == w.packets
    ensures AreAt(w', g, num, serves, last, h, num', true, p.num)
  {
    hide Inv, Enabled, Take, Leads;
    w' := Moves(w, p, serves', last');
    InvIsShaped(w);
    OneMore(ThereAndBack, first, steps, w, Move(p));
  }

  /** Group 1 adopts the first configuration and takes a write. */
  lemma Serves(w: World) returns (steps: seq<Step>, last: World)
    requires Initial(w) && w.groups.Keys == {1, 2}
    ensures Reached(w, steps, last) && AreAt(last, 1, 1, true, 1, 2, 0, false, 0)
  {
    hide Inv, Enabled, Take, Leads;
    Begins(w);
    var w1 := Adopts(w, 1, 0, false, 0);
    OneMore(ThereAndBack, w, [], w, Adopt(1));
    InvIsShaped(w1);
    NoSessions(w, w1);
    last := Writes(w1, 1, 1, 1);
    OneMore(ThereAndBack, w, [] + [Adopt(1)], w1, Request(1, 0, 1, "", Set("x")));
    steps := [] + [Adopt(1)] + [Request(1, 0, 1, "", Set("x"))];
  }

  /** Nobody has a session of a request that was never applied. */
  lemma NoSessions(w: World, w1: World)
    requires Initial(w) && Inv(ThereAndBack, w1) && w1.seen == w.seen && 1 in w1.groups
    ensures w1.seen == map[] && w1.groups[1].sessions == map[]
  {
    hide LastOk, VecOk, ChainOk, DataOk, PacketOk, PacketScope, GoodPlan;
    assert forall k :: k in w1.groups[1].sessions ==> k in w1.seen;
  }

  lemma Begins(w: World)
    requires Initial(w) && w.groups.Keys == {1, 2}
    ensures Inv(ThereAndBack, w) && Shaped(w) && Leads(ThereAndBack, w, [], w)
    ensures IsAt(w, 1, 0, false, 0) && IsAt(w, 2, 0, false, 0)
  {
    InitialInv(ThereAndBack, w);
  }

  /** All shards move from group 1 to group 2. */
  lemma There(w: World) returns (steps: seq<Step>, last: World, p: Packet)
    requires Initial(w) && w.groups.Keys == {1, 2}
    ensures Reached(w, steps, last) && AreAt(last, 1, 2, false, 1, 2, 1, true, 2)
    ensures p in last.packets && p.num == 2 && p.dst == 2 && p.moved == Everything(NSHARDS)
  {
    hide Reached, IsAt;
    var s0, w0 := Serves(w);
    var w1 := ThenAdopts(w, s0, w0, 2, 0, false, 0, 1, 1, true, 1);
    var w2 := ThenAdopts(w, s0 + [Adopt(2)], w1, 1, 1, true, 1, 2, 1, false, 0);
    var s2 := s0 + [Adopt(2)] + [Adopt(1)];
    var w3, p3 := ThenFetches(w, s2, w2, 1, 2, false, 1, 2, 1, false, 0);
    p := p3;
    var s3 := s2 + [Fetch(1, 2, 2, Everything(NSHARDS))];
    last := ThenMoves(w, s3, w3, p, 1, 2, false, 1, 2, 1, false, 0);
    steps := s3 + [Move(p)];
  }

  /** From group `src`, which has got all shards in configuration n but not adopted it, they move on to
      the other group. */
  lemma Onward(first: World, s0: seq<Step>, w: World, p: Packet, src: int, dst: int, n: nat, was: nat)
    returns (steps: seq<Step>, last: World)
    requires Reached(first, s0, w) && p in w.packets
    requires n >= 2 && ThereAndBack(n, 0) == src && ThereAndBack(n + 1, 0) == dst
    requires AreAt(w, src, n - 1, true, n, dst, n, false, was)
    ensures Reached(first, steps, last) && p in last.packets
    ensures AreAt(last, src, n + 1, false, n, dst, n, true, n + 1)
  {
    hide Reached, IsAt;
    var w1 := ThenAdopts(first, s0, w, src, n - 1, true, n, dst, n, false, was);
    var w2 := ThenAdopts(first, s0 + [Adopt(src)], w1, src, n, true, n, dst, n, false, was);
    var s2 := s0 + [Adopt(src)] + [Adopt(src)];
    var w3, q := ThenFetches(first, s2, w2, src, n + 1, false, n, dst, n, false, was);
    var s3 := s2 + [Fetch(src, dst, n + 1, Everything(NSHARDS))];
    last := ThenMoves(first, s3, w3, q, src, n + 1, false, n, dst, n, false, was);
    steps := s3 + [Move(q)];
  }

  // ----- what a late retry does

  /** The code applies moved data in whatever configuration the group is.  From every first world
      of two groups there is a run after which group 1 serves a shard and a retry of the data moved
      in configuration 2 would make group 2, which has left that configuration, serve it too. */
  lemma LateRetryGivesTwoServers(w: World) returns (steps: seq<Step>, last: World, p: Packet)
    requires Initial(w) && w.groups.Keys == {1, 2}
    ensures Leads(ThereAndBack, w, steps, last) && Shaped(last) && p in last.packets
    ensures last.groups.Keys == {1, 2} && p.dst == 2 && last.groups[2].num > p.num
    ensures last.groups[1].vec[0] && TakeMove(last, p).groups[2].vec[0]
  {
    hide Inv, Leads;
    var steps0, mid, p0 := There(w);
    p := p0;
    steps, last := Onward(w, steps0, mid, p, 2, 1, 2, 1);
    InvIsShaped(last);
    LateMoveServes(ThereAndBack, last, p, 0);
  }

  /** The group does not have the key any more after the moved data was applied and then all shards
      deleted that are not more recent than the configuration. */
  ghost predicate IsLost(w: World, p: Packet, num: nat, key: string)
    requires Shaped(w) && p in w.packets && p.dst in w.groups
  {
    var g := TakeMove(w, p).groups[p.dst];
    g.Shaped() && key !in DeleteShards(g, num, Everything(NSHARDS)).mp
  }

  /** ... and a longer run after which group 2 has the shards again, the write is in its data, and after
      such a retry the suggestion to delete from configuration 3, which may still come, loses it. */
  lemma LateRetryLosesData(w: World) returns (steps: seq<Step>, last: World, p: Packet)
    requires Initial(w) && w.groups.Keys == {1, 2}
    ensures Leads(ThereAndBack, w, steps, last) && Shaped(last) && p in last.packets
    ensures last.groups.Keys == {1, 2} && p.dst == 2 && last.groups[2].num > p.num
    ensures last.groups[2].vec[0] && "" in last.groups[2].mp
    ensures Enabled(ThereAndBack, last, Delete(2, 3, Everything(NSHARDS)))
    ensures IsLost(last, p, 3, "")
  {
    hide Reached, AreAt, Enabled, IsLost, Leads, Shaped;
    var s0, w0, p0 := There(w);
    p := p0;
    TurnRound(w0, 1, 2, false, 1, 2, 1, true, 2);
    var s1, w1 := Onward(w, s0, w0, p, 2, 1, 2, 1);
    TurnRound(w1, 2, 3, false, 2, 1, 2, true, 3);
    steps, last := Onward(w, s1, w1, p, 1, 2, 3, 2);
    LosesData(w, steps, last, p);
  }

  lemma TurnRound(w: World, g: int, num: nat, serves: bool, last: nat, h: int, num': nat, serves': bool, last': nat)
    requires AreAt(w, g, num, serves, last, h, num', serves', last')
    ensures AreAt(w, h, num', serves', last', g, num, serves, last)
  {}

  lemma LosesData(first: World, steps: seq<Step>, w: World, p: Packet)
    requires Reached(first, steps, w) && AreAt(w, 1, 4, false, 3, 2, 3, true, 4)
    requires p in w.packets && p.num == 2 && p.dst == 2 && p.moved == Everything(NSHARDS)
    ensures Leads(ThereAndBack, first, steps, w) && Shaped(w) && w.groups.Keys == {1, 2}
    ensures w.groups[2].num > p.num && w.groups[2].vec[0] && "" in w.groups[2].mp
    ensures Enabled(ThereAndBack, w, Delete(2, 3, Everything(NSHARDS)))
    ensures IsLost(w, p, 3, "")
  {
    hide Inv, Leads, DeleteShards, ApplyMovement;
    InvIsShaped(w);
    HasTable(w, 2);
    LateMoveUnprotects(ThereAndBack, w, p, 3, Everything(NSHARDS), 0);
    assert Key2Shard("") == 0;
  }

  lemma HasTable(w: World, g: int)
    requires Inv(ThereAndBack, w) && g in w.groups && w.groups[g].vec[0] && "" in w.table
    ensures "" in w.groups[g].mp
  {
    hide LastOk, VecOk, ChainOk, PacketOk, PacketScope, KeysOk, GoodPlan;
    ServingIsHolding(ThereAndBack, w, g, 0);
    assert DataOk(ThereAndBack, w, 0);
    assert Key2Shard("") == 0;
  }
}
