/** Moving shards between groups (src/shardkv/server.go:96-129, 411-558, 654-747).

Each group is one replicated state machine.  The controller's history of configurations is
a plan: who owns each shard in each configuration.  Beside the groups the world keeps the
single table that every applied write also goes to, the last applied request of each client
on each shard, the data replies that were ever sent, and for each shard the configuration in
which it was last acquired or kept.
 */
module Migration {
  import opened ShardStore

  type Plan = (nat, nat) -> int

  datatype Packet = Packet(
    num: nat, src: int, dst: int, moved: set<nat>, mp: map<string, string>, sessions: map<SessionKey, int>)

  datatype World = World(
    groups: map<int, Group>,
    table: map<string, string>,
    seen: map<SessionKey, int>,
    packets: set<Packet>,
    epoch: seq<nat>)

  /** Configuration 0 assigns nothing, and afterwards every shard has a group that exists. */
  ghost predicate GoodPlan(plan: Plan, gids: set<int>) {
    && 0 !in gids
    && (forall s: nat :: s < NSHARDS ==> plan(0, s) == 0)
    && (forall n: nat, s: nat :: n >= 1 && s < NSHARDS ==> plan(n, s) in gids)
  }

  function ShardsOf(plan: Plan, n: nat): seq<int> {
    seq(NSHARDS, s requires 0 <= s < NSHARDS => plan(n, s))
  }

  /** The first phase of a configuration change: keep only what stays. */
  function NewVec(plan: Plan, gid: int, n: nat): seq<bool> {
    seq(NSHARDS, s requires 0 <= s < NSHARDS => (plan(n, s) == gid || plan(n, s) == 0) && plan(n + 1, s) == gid)
  }

  /** The group whose data for shard s counts. */
  ghost function Holder(plan: Plan, w: World, s: nat): int
    requires s < |w.epoch|
  {
    plan(if w.epoch[s] == 0 then 1 else w.epoch[s], s)
  }

  ghost function LastOf(w: World, g: int, s: nat): nat {
    if g in w.groups && s < |w.groups[g].last| then w.groups[g].last[s] else 0
  }

  ghost function NumOf(w: World, g: int): nat {
    if g in w.groups then w.groups[g].num else 0
  }

  // ----- steps

  datatype Step =
    | Request(gid: int, ck: int, req: int, key: string, write: Write)
    | Narrow(gid: int)
    | Fetch(src: int, dst: int, num: nat, moved: set<nat>)
    | Move(packet: Packet)
    | Adopt(gid: int)
    | Delete(src: int, num: nat, gone: set<nat>)

  ghost predicate AllShards(shards: set<nat>) {
    forall s :: s in shards ==> s < NSHARDS
  }

  ghost predicate Shaped(w: World) {
    && |w.epoch| == NSHARDS
    && (forall g :: g in w.groups ==>
          w.groups[g].Shaped() && w.groups[g].gid == g && ShardsInRange(w.groups[g].sessions))
    && (forall p :: p in w.packets ==> AllShards(p.moved) && ShardsInRange(p.sessions))
  }

  /** The group has not left the configuration that the moved data is for. */
  ghost predicate InSeason(w: World, p: Packet)
    requires p.dst in w.groups
  {
    w.groups[p.dst].num <= p.num <= w.groups[p.dst].num + 1
  }

  /** What the code, and the clients and network it assumes, allow. */
  ghost predicate Enabled(plan: Plan, w: World, step: Step)
    requires Shaped(w)
  {
    match step
    // clients are serial, so the group that holds a shard never sees an older request than
    // one it has recorded
    case Request(gid, ck, req, key, write) =>
      && gid in w.groups
      && var s := Key2Shard(key);
      (Holder(plan, w, s) == gid && (ck, s) in w.seen ==> w.seen[(ck, s)] <= req)
    case Narrow(gid) => gid in w.groups
    // a source answers for configuration num once it has reached it
    case Fetch(src, dst, num, moved) =>
      && num >= 2 && src in w.groups && src != dst && AllShards(moved)
      && w.groups[src].num >= num
      && (forall s :: s in moved ==> plan(num - 1, s) == src && plan(num, s) == dst)
    // moved data is applied in the configuration before, or as a retry in the one it is for
    case Move(packet) => packet in w.packets && packet.dst in w.groups && InSeason(w, packet)
    // the configuration changes once all shards to be received have been applied
    case Adopt(gid) =>
      && gid in w.groups
      && var n := w.groups[gid].num;
      (forall s: nat :: s < NSHARDS && n >= 1 && plan(n, s) != gid && plan(n + 1, s) == gid ==>
         w.groups[gid].last[s] > n)
    // deletion is suggested once the new owner has applied the data, and may come late
    case Delete(src, num, gone) =>
      && num >= 2 && src in w.groups && AllShards(gone)
      && (forall s :: s in gone ==>
            && plan(num - 1, s) == src && plan(num, s) != src
            && plan(num, s) in w.groups && w.groups[plan(num, s)].last[s] >= num)
  }

  /** Moved data is applied; the code does this in whatever configuration the group is. */
  ghost function TakeMove(w: World, p: Packet): World
    requires Shaped(w) && p in w.packets && p.dst in w.groups
  {
    var g := w.groups[p.dst];
    w.(groups := w.groups[p.dst := ApplyMovement(g, p.num, p.mp, p.sessions, p.moved)],
       epoch := seq(NSHARDS, s requires 0 <= s < NSHARDS =>
                      if s in p.moved && g.last[s] < p.num then p.num else w.epoch[s]))
  }

  ghost function Take(plan: Plan, w: World, step: Step): World
    requires Shaped(w) && Enabled(plan, w, step)
  {
    match step
    case Request(gid, ck, req, key, write) =>
      var g, s := w.groups[gid], Key2Shard(key);
      var applied := !IsStale(g.sessions, ck, s, req) && g.vec[s];
      w.(groups := w.groups[gid := Client(g, ck, req, key, write)],
         table := if applied then Written(w.table, key, write) else w.table,
         seen := if applied then w.seen[(ck, s) := req] else w.seen)
    case Narrow(gid) =>
      var g := w.groups[gid];
      w.(groups := w.groups[gid := UpdateShardVec(g, g.num + 1, NewVec(plan, gid, g.num))])
    case Fetch(src, dst, num, moved) =>
      var g := w.groups[src];
      w.(packets := w.packets + {Packet(num, src, dst, moved, DataOf(g.mp, moved), SessionsOf(g.sessions, moved))})
    case Move(p) => TakeMove(w, p)
    case Adopt(gid) =>
      var g := w.groups[gid];
      w.(groups := w.groups[gid := ChangeConfig(g, g.num + 1, ShardsOf(plan, g.num + 1))],
         epoch := seq(NSHARDS, s requires 0 <= s < NSHARDS =>
                        if plan(g.num + 1, s) == gid then g.num + 1 else w.epoch[s]))
    case Delete(src, num, gone) =>
      w.(groups := w.groups[src := DeleteShards(w.groups[src], num, gone)])
  }

  ghost predicate Initial(w: World) {
    && Shaped(w)
    && w.table == map[] && w.seen == map[] && w.packets == {}
    && (forall s :: 0 <= s < NSHARDS ==> w.epoch[s] == 0)
    && (forall g :: g in w.groups ==>
          && w.groups[g].mp == map[] && w.groups[g].sessions == map[] && w.groups[g].num == 0
          && (forall s :: 0 <= s < NSHARDS ==> !w.groups[g].vec[s] && w.groups[g].last[s] == 0))
  }

  // ----- the invariant

  /** Two maps agree on a shard. */
  ghost predicate SameData(a: map<string, string>, b: map<string, string>, s: nat) {
    forall k :: Key2Shard(k) == s ==> (k in a <==> k in b) && (k in a && k in b ==> a[k] == b[k])
  }

  ghost predicate SameSessions(a: map<SessionKey, int>, b: map<SessionKey, int>, s: nat) {
    forall ck :: ((ck, s) in a <==> (ck, s) in b) && ((ck, s) in a && (ck, s) in b ==> a[(ck, s)] == b[(ck, s)])
  }

  /** A group has a shard up to a configuration that assigns it, never beyond the next one, and
      beyond its own only if it is just receiving it. */
  ghost predicate LastOk(plan: Plan, w: World, g: int, s: nat)
    requires Shaped(w) && g in w.groups && s < NSHARDS
  {
    var last, num := w.groups[g].last[s], w.groups[g].num;
    && last <= w.epoch[s]
    && (last > 0 ==> plan(last, s) == g)
    && last <= num + 1
    && (last == num + 1 ==> num >= 1 && plan(num, s) != g)
    && (forall n: nat :: 1 <= n <= num && plan(n, s) == g ==> n <= last)
  }

  /** Up to its epoch, every owner of the shard acquired it and then left that configuration. */
  ghost predicate ChainOk(plan: Plan, w: World, s: nat)
    requires Shaped(w) && s < NSHARDS
  {
    && (forall m: nat :: 1 <= m <= w.epoch[s] ==> LastOf(w, plan(m, s), s) >= m)
    && (forall m: nat :: 1 <= m < w.epoch[s] ==> NumOf(w, plan(m, s)) > m)
  }

  ghost predicate VecOk(plan: Plan, w: World, g: int, s: nat)
    requires Shaped(w) && g in w.groups && s < NSHARDS
  {
    var num := w.groups[g].num;
    w.groups[g].vec[s] ==>
      || (num == 0 && plan(1, s) == g)
      || (num >= 1 && plan(num, s) == g)
      || w.groups[g].last[s] == num + 1
  }

  /** The holder's data and sessions are the table's. */
  ghost predicate DataOk(plan: Plan, w: World, s: nat)
    requires Shaped(w) && s < NSHARDS
  {
    var h := Holder(plan, w, s);
    && h in w.groups
    && SameData(w.groups[h].mp, w.table, s)
    && SameSessions(w.groups[h].sessions, w.seen, s)
  }

  /** A reply for a shard not yet acquired in its configuration carries the table's data. */
  ghost predicate PacketOk(plan: Plan, w: World, p: Packet, s: nat)
    requires Shaped(w) && s < NSHARDS
  {
    && p.num >= 2 && plan(p.num - 1, s) == p.src && plan(p.num, s) == p.dst && p.src != p.dst
    && p.src in w.groups && w.groups[p.src].num >= p.num
    && (w.epoch[s] + 1 == p.num ==> SameData(p.mp, w.table, s) && SameSessions(p.sessions, w.seen, s))
  }

  /** Nobody has a key or a session that the table does not have. */
  ghost predicate KeysOk(w: World) {
    && (forall g, k :: g in w.groups && k in w.groups[g].mp ==> k in w.table)
    && (forall g, k :: g in w.groups && k in w.groups[g].sessions ==> k in w.seen)
  }

  ghost predicate PacketScope(p: Packet) {
    && (forall k :: k in p.mp ==> Key2Shard(k) in p.moved)
    && (forall k :: k in p.sessions ==> k.1 in p.moved)
  }

  ghost predicate Inv(plan: Plan, w: World) {
    && Shaped(w)
    && GoodPlan(plan, w.groups.Keys)
    && (forall g, s: nat :: g in w.groups && s < NSHARDS ==> LastOk(plan, w, g, s) && VecOk(plan, w, g, s))
    && (forall s: nat :: s < NSHARDS ==> ChainOk(plan, w, s) && DataOk(plan, w, s))
    && (forall p, s :: p in w.packets && s in p.moved ==> PacketOk(plan, w, p, s))
    && (forall p :: p in w.packets ==> PacketScope(p))
    && KeysOk(w)
  }

  // ----- what the invariant says

  lemma InitialInv(plan: Plan, w: World)
    requires Initial(w) && GoodPlan(plan, w.groups.Keys)
    ensures Inv(plan, w)
  {}

  /** A group that serves a shard is its holder. */
  lemma ServingIsHolding(plan: Plan, w: World, g: int, s: nat)
    requires Inv(plan, w) && g in w.groups && s < NSHARDS && w.groups[g].vec[s]
    ensures Holder(plan, w, s) == g
  {
    assert LastOk(plan, w, g, s) && VecOk(plan, w, g, s) && ChainOk(plan, w, s);
    var num, e := w.groups[g].num, w.epoch[s];
    var c := if w.groups[g].last[s] == num + 1 then num + 1 else if num == 0 then 1 else num;
    assert plan(c, s) == g;
    assert e > c ==> NumOf(w, plan(c, s)) > c;
  }

  /** A group that is past configuration n, in which it lost the shard, does not serve it while
      nobody else has acquired it. */
  lemma LeftIsNotServing(plan: Plan, w: World, g: int, s: nat)
    requires Inv(plan, w) && g in w.groups && s < NSHARDS
    requires w.epoch[s] < w.groups[g].num && w.epoch[s] >= 1
    ensures !w.groups[g].vec[s]
  {
    assert LastOk(plan, w, g, s) && VecOk(plan, w, g, s);
  }

  /** A group that is in the configuration that moved data is for has all of it already. */
  lemma RetryHasLast(plan: Plan, w: World, p: Packet, s: nat)
    requires Inv(plan, w) && p in w.packets && s in p.moved
    requires p.dst in w.groups && w.groups[p.dst].num == p.num
    ensures w.groups[p.dst].last[s] == p.num
  {
    assert PacketOk(plan, w, p, s) && LastOk(plan, w, p.dst, s);
    assert 1 <= p.num <= w.groups[p.dst].num && plan(p.num, s) == p.dst;
  }

  /** When the first reply for configuration n + 1 is applied, the shard is in epoch n. */
  lemma EpochBeforeMove(plan: Plan, w: World, p: Packet, s: nat)
    requires Inv(plan, w) && p in w.packets && s in p.moved
    requires p.dst in w.groups && InSeason(w, p) && w.groups[p.dst].last[s] < p.num
    ensures w.epoch[s] + 1 == p.num && w.groups[p.dst].num + 1 == p.num
  {
    if w.groups[p.dst].num == p.num {
      RetryHasLast(plan, w, p, s);
    }
    assert PacketOk(plan, w, p, s);
    var n := p.num - 1;
    assert LastOk(plan, w, p.src, s);
    assert plan(n, s) == p.src;
    assert w.epoch[s] >= n;
    assert ChainOk(plan, w, s);
    assert w.epoch[s] >= p.num ==> LastOf(w, plan(p.num, s), s) >= p.num;
  }

  // ----- what every step keeps

  /** Same configurations, same last ownership, same epochs. */
  ghost predicate SameOwnership(w: World, w': World) {
    && Shaped(w) && Shaped(w')
    && w'.groups.Keys == w.groups.Keys
    && w'.epoch == w.epoch
    && (forall g :: g in w.groups ==> w'.groups[g].num == w.groups[g].num && w'.groups[g].last == w.groups[g].last)
  }

  lemma OwnershipKept(plan: Plan, w: World, w': World)
    requires Inv(plan, w) && SameOwnership(w, w')
    ensures forall g, s: nat :: g in w'.groups && s < NSHARDS ==> LastOk(plan, w', g, s)
    ensures forall s: nat :: s < NSHARDS ==> ChainOk(plan, w', s)
  {
    hide VecOk, DataOk, PacketOk, PacketScope, KeysOk;
    forall g, s: nat | g in w'.groups && s < NSHARDS
      ensures LastOk(plan, w', g, s)
    {
      assert LastOk(plan, w, g, s);
    }
    forall s: nat | s < NSHARDS
      ensures ChainOk(plan, w', s)
    {
      assert ChainOk(plan, w, s);
    }
  }

  lemma VecsKept(plan: Plan, w: World, w': World)
    requires Inv(plan, w) && SameOwnership(w, w')
    requires forall g :: g in w.groups ==> w'.groups[g].vec == w.groups[g].vec
    ensures forall g, s: nat :: g in w'.groups && s < NSHARDS ==> VecOk(plan, w', g, s)
  {
    hide LastOk, ChainOk, DataOk, PacketOk, PacketScope, KeysOk;
    forall g, s: nat | g in w'.groups && s < NSHARDS
      ensures VecOk(plan, w', g, s)
    {
      assert VecOk(plan, w, g, s);
    }
  }

  lemma PacketsKept(plan: Plan, w: World, w': World)
    requires Inv(plan, w) && SameOwnership(w, w')
    requires w'.table == w.table && w'.seen == w.seen
    ensures forall p, s :: p in w.packets && s in p.moved ==> PacketOk(plan, w', p, s)
  {
    hide LastOk, ChainOk, DataOk, VecOk, PacketScope, KeysOk;
    forall p, s | p in w.packets && s in p.moved
      ensures PacketOk(plan, w', p, s)
    {
      assert PacketOk(plan, w, p, s);
    }
  }

  lemma NarrowKeeps(plan: Plan, w: World, gid: int)
    requires Inv(plan, w) && Enabled(plan, w, Narrow(gid))
    ensures Inv(plan, Take(plan, w, Narrow(gid)))
  {
    hide LastOk, ChainOk, PacketOk, PacketScope, SameData, SameSessions;
    var w' := Take(plan, w, Narrow(gid));
    OwnershipKept(plan, w, w');
    PacketsKept(plan, w, w');
    forall g, s: nat | g in w'.groups && s < NSHARDS
      ensures VecOk(plan, w', g, s)
    {
      assert VecOk(plan, w, g, s);
    }
    forall s: nat | s < NSHARDS
      ensures DataOk(plan, w', s)
    {
      assert DataOk(plan, w, s);
    }
  }

  /** A source that has reached the configuration replies with the table's data while the
      shard is still in the epoch before. */
  lemma FetchedIsTable(plan: Plan, w: World, src: int, dst: int, num: nat, moved: set<nat>, s: nat)
    requires Inv(plan, w) && Enabled(plan, w, Fetch(src, dst, num, moved)) && s in moved
    ensures var g := w.groups[src];
            PacketOk(plan, w, Packet(num, src, dst, moved, DataOf(g.mp, moved), SessionsOf(g.sessions, moved)), s)
  {
    hide LastOk, ChainOk, VecOk, KeysOk, GoodPlan;
    assert DataOk(plan, w, s);
  }

  lemma FetchKeeps(plan: Plan, w: World, src: int, dst: int, num: nat, moved: set<nat>)
    requires Inv(plan, w) && Enabled(plan, w, Fetch(src, dst, num, moved))
    ensures Inv(plan, Take(plan, w, Fetch(src, dst, num, moved)))
  {
    hide LastOk, ChainOk, VecOk, GoodPlan, SameData, SameSessions;
    var w' := Take(plan, w, Fetch(src, dst, num, moved));
    OwnershipKept(plan, w, w');
    VecsKept(plan, w, w');
    PacketsKept(plan, w, w');
    forall s: nat | s < NSHARDS
      ensures DataOk(plan, w', s)
    {
      assert DataOk(plan, w, s);
    }
    forall s | s in moved
      ensures var g := w.groups[src];
              PacketOk(plan, w', Packet(num, src, dst, moved, DataOf(g.mp, moved), SessionsOf(g.sessions, moved)), s)
    {
      FetchedIsTable(plan, w, src, dst, num, moved, s);
    }
  }

  lemma DeleteKeepsShape(plan: Plan, w: World, src: int, num: nat, gone: set<nat>)
    requires Inv(plan, w) && Enabled(plan, w, Delete(src, num, gone))
    ensures var w' := Take(plan, w, Delete(src, num, gone));
            && SameOwnership(w, w') && w'.packets == w.packets && GoodPlan(plan, w'.groups.Keys)
            && w'.table == w.table && w'.seen == w.seen && KeysOk(w')
            && (forall g :: g in w.groups ==> w'.groups[g].vec == w.groups[g].vec)
  {
    hide LastOk, ChainOk, VecOk, PacketScope, DataOk, PacketOk, GoodPlan;
    var w' := Take(plan, w, Delete(src, num, gone));
    assert w'.groups.Keys == w.groups.Keys;
  }

  /** Removing some shards' data leaves the other shards' data. */
  lemma DeletedElsewhere(g: Group, num: nat, gone: set<nat>, s: nat)
    requires g.Shaped() && AllShards(gone) && s !in Deletable(g, num, gone)
    ensures SameData(DeleteShards(g, num, gone).mp, g.mp, s)
    ensures SameSessions(DeleteShards(g, num, gone).sessions, g.sessions, s)
  {}

  lemma DeleteKeepsData(plan: Plan, w: World, src: int, num: nat, gone: set<nat>, s: nat)
    requires Inv(plan, w) && Enabled(plan, w, Delete(src, num, gone)) && s < NSHARDS
    requires Shaped(Take(plan, w, Delete(src, num, gone)))
    ensures DataOk(plan, Take(plan, w, Delete(src, num, gone)), s)
  {
    hide LastOk, ChainOk, VecOk, PacketOk, PacketScope, KeysOk, GoodPlan, SameData, SameSessions, DeleteShards;
    assert DataOk(plan, w, s);
    var g, g' := w.groups[src], DeleteShards(w.groups[src], num, gone);
    if s in Deletable(g, num, gone) {
      DeletableIsNotHeld(plan, w, src, num, gone, s);
    } else {
      DeletedElsewhere(g, num, gone, s);
      if Holder(plan, w, s) == src {
        SameDataTransitive(g'.mp, g.mp, w.table, s);
        SameSessionsTransitive(g'.sessions, g.sessions, w.seen, s);
      }
    }
  }

  lemma DeleteKeeps(plan: Plan, w: World, src: int, num: nat, gone: set<nat>)
    requires Inv(plan, w) && Enabled(plan, w, Delete(src, num, gone))
    ensures Inv(plan, Take(plan, w, Delete(src, num, gone)))
  {
    hide LastOk, ChainOk, VecOk, PacketOk, PacketScope, KeysOk, GoodPlan, DataOk, Take;
    var w' := Take(plan, w, Delete(src, num, gone));
    DeleteKeepsShape(plan, w, src, num, gone);
    OwnershipKept(plan, w, w');
    VecsKept(plan, w, w');
    PacketsKept(plan, w, w');
    forall s: nat | s < NSHARDS
      ensures DataOk(plan, w', s)
    {
      DeleteKeepsData(plan, w, src, num, gone, s);
    }
  }

  /** What a late suggestion may delete is no longer the data that counts. */
  lemma DeletableIsNotHeld(plan: Plan, w: World, src: int, num: nat, gone: set<nat>, s: nat)
    requires Inv(plan, w) && Enabled(plan, w, Delete(src, num, gone))
    requires s in Deletable(w.groups[src], num, gone)
    ensures Holder(plan, w, s) != src
  {
    var d := plan(num, s);
    assert LastOk(plan, w, d, s) && LastOk(plan, w, src, s) && ChainOk(plan, w, s);
    assert LastOf(w, plan(w.epoch[s], s), s) >= w.epoch[s];
  }

  // ----- a client's request

  /** While a reply for the next configuration is under way nobody serves the shard. */
  lemma MovingIsNotServed(plan: Plan, w: World, p: Packet, s: nat, g: int)
    requires Inv(plan, w) && p in w.packets && s in p.moved && w.epoch[s] + 1 == p.num
    requires g in w.groups
    ensures !w.groups[g].vec[s]
  {
    assert PacketOk(plan, w, p, s);
    if w.groups[g].vec[s] {
      ServingIsHolding(plan, w, g, s);
      LeftIsNotServing(plan, w, g, s);
    }
  }

  /** The same write keeps two maps the same on every shard. */
  lemma WrittenAlike(a: map<string, string>, b: map<string, string>, key: string, write: Write, t: nat)
    requires SameData(a, b, t)
    ensures SameData(Written(a, key, write), Written(b, key, write), t)
  {}

  lemma SeenAlike(a: map<SessionKey, int>, b: map<SessionKey, int>, ck: int, s: nat, req: int, t: nat)
    requires SameSessions(a, b, t)
    ensures SameSessions(a[(ck, s) := req], b[(ck, s) := req], t)
  {}

  /** Where the sessions are the seen requests, a serial client's old request is the last one. */
  lemma StaleChangesNothing(a: map<SessionKey, int>, seen: map<SessionKey, int>, ck: int, s: nat, req: int)
    requires SameSessions(a, seen, s) && IsStale(a, ck, s, req)
    requires (ck, s) in seen ==> seen[(ck, s)] <= req
    ensures a[(ck, s) := req] == a
  {}

  lemma RequestKeepsData(plan: Plan, w: World, gid: int, ck: int, req: int, key: string, write: Write, t: nat)
    requires Inv(plan, w) && Enabled(plan, w, Request(gid, ck, req, key, write)) && t < NSHARDS
    requires Shaped(Take(plan, w, Request(gid, ck, req, key, write)))
    ensures DataOk(plan, Take(plan, w, Request(gid, ck, req, key, write)), t)
  {
    hide LastOk, ChainOk, VecOk, PacketOk, PacketScope, KeysOk, SameData, SameSessions, GoodPlan, Written;
    assert DataOk(plan, w, t);
    var w' := Take(plan, w, Request(gid, ck, req, key, write));
    var s, g, h := Key2Shard(key), w.groups[gid], Holder(plan, w, t);
    assert Holder(plan, w', t) == h;
    if IsStale(g.sessions, ck, s, req) {
      if h == gid {
        if s == t {
          StaleChangesNothing(g.sessions, w.seen, ck, s, req);
        } else {
          SeenElsewhere(g.sessions, ck, s, req, t);
          SameSessionsTransitive(g.sessions[(ck, s) := req], g.sessions, w.seen, t);
        }
      }
    } else if g.vec[s] {
      ServingIsHolding(plan, w, gid, s);
      if h == gid {
        WrittenAlike(g.mp, w.table, key, write, t);
        SeenAlike(g.sessions, w.seen, ck, s, req, t);
      } else {
        WrittenElsewhere(w.table, key, write, t);
        SeenElsewhere(w.seen, ck, s, req, t);
        SameDataTransitive(w.groups[h].mp, w.table, w'.table, t);
        SameSessionsTransitive(w.groups[h].sessions, w.seen, w'.seen, t);
      }
    }
  }

  lemma RequestKeepsPacket(
    plan: Plan, w: World, gid: int, ck: int, req: int, key: string, write: Write, p: Packet, t: nat)
    requires Inv(plan, w) && Enabled(plan, w, Request(gid, ck, req, key, write))
    requires Shaped(Take(plan, w, Request(gid, ck, req, key, write)))
    requires p in w.packets && t in p.moved
    ensures PacketOk(plan, Take(plan, w, Request(gid, ck, req, key, write)), p, t)
  {
    hide LastOk, ChainOk, VecOk, PacketScope, KeysOk, DataOk, SameData, SameSessions, GoodPlan, Written;
    var w' := Take(plan, w, Request(gid, ck, req, key, write));
    assert PacketOk(plan, w, p, t);
    var s, g := Key2Shard(key), w.groups[gid];
    if w.epoch[t] + 1 == p.num && !IsStale(g.sessions, ck, s, req) && g.vec[s] {
      MovingIsNotServed(plan, w, p, t, gid);
      WrittenElsewhere(w.table, key, write, t);
      SeenElsewhere(w.seen, ck, s, req, t);
      SameDataTransitive(p.mp, w.table, w'.table, t);
      SameSessionsTransitive(p.sessions, w.seen, w'.seen, t);
    }
  }

  lemma RequestKeepsShape(plan: Plan, w: World, gid: int, ck: int, req: int, key: string, write: Write)
    requires Inv(plan, w) && Enabled(plan, w, Request(gid, ck, req, key, write))
    ensures var w' := Take(plan, w, Request(gid, ck, req, key, write));
            && SameOwnership(w, w') && w'.packets == w.packets && GoodPlan(plan, w'.groups.Keys)
            && (forall g :: g in w.groups ==> w'.groups[g].vec == w.groups[g].vec)
  {
    hide LastOk, ChainOk, VecOk, PacketScope, DataOk, PacketOk, KeysOk, GoodPlan, Written;
    var w' := Take(plan, w, Request(gid, ck, req, key, write));
    assert w'.groups.Keys == w.groups.Keys;
  }

  lemma RequestKeepsKeys(plan: Plan, w: World, gid: int, ck: int, req: int, key: string, write: Write)
    requires Inv(plan, w) && Enabled(plan, w, Request(gid, ck, req, key, write))
    ensures KeysOk(Take(plan, w, Request(gid, ck, req, key, write)))
  {
    hide LastOk, ChainOk, VecOk, PacketScope, DataOk, PacketOk, GoodPlan;
  }

  lemma RequestKeeps(plan: Plan, w: World, gid: int, ck: int, req: int, key: string, write: Write)
    requires Inv(plan, w) && Enabled(plan, w, Request(gid, ck, req, key, write))
    ensures Inv(plan, Take(plan, w, Request(gid, ck, req, key, write)))
  {
    hide LastOk, ChainOk, VecOk, PacketScope, DataOk, PacketOk, KeysOk, GoodPlan, Take;
    var w' := Take(plan, w, Request(gid, ck, req, key, write));
    RequestKeepsShape(plan, w, gid, ck, req, key, write);
    RequestKeepsKeys(plan, w, gid, ck, req, key, write);
    OwnershipKept(plan, w, w');
    VecsKept(plan, w, w');
    forall t: nat | t < NSHARDS
      ensures DataOk(plan, w', t)
    {
      RequestKeepsData(plan, w, gid, ck, req, key, write, t);
    }
    forall p, t | p in w.packets && t in p.moved
      ensures PacketOk(plan, w', p, t)
    {
      RequestKeepsPacket(plan, w, gid, ck, req, key, write, p, t);
    }
  }

  lemma WrittenElsewhere(table: map<string, string>, key: string, write: Write, t: nat)
    requires Key2Shard(key) != t
    ensures SameData(table, Written(table, key, write), t)
  {}

  lemma SeenElsewhere(seen: map<SessionKey, int>, ck: int, s: nat, req: int, t: nat)
    requires s != t
    ensures SameSessions(seen, seen[(ck, s) := req], t)
  {}

  lemma SameDataTransitive(a: map<string, string>, b: map<string, string>, c: map<string, string>, t: nat)
    requires SameData(a, b, t) && SameData(b, c, t)
    ensures SameData(a, c, t)
  {}

  lemma SameSessionsTransitive(a: map<SessionKey, int>, b: map<SessionKey, int>, c: map<SessionKey, int>, t: nat)
    requires SameSessions(a, b, t) && SameSessions(b, c, t)
    ensures SameSessions(a, c, t)
  {}

  // ----- applying moved data

  /** What the step does to the group and to the epochs, one shard at a time. */
  lemma MoveEffect(plan: Plan, w: World, p: Packet)
    requires Inv(plan, w) && Enabled(plan, w, Move(p))
    ensures var w' := Take(plan, w, Move(p));
            && Shaped(w') && w'.groups.Keys == w.groups.Keys && GoodPlan(plan, w'.groups.Keys)
            && w'.packets == w.packets && w'.table == w.table && w'.seen == w.seen
            && (forall g :: g in w.groups && g != p.dst ==> w'.groups[g] == w.groups[g])
            && w'.groups[p.dst] == ApplyMovement(w.groups[p.dst], p.num, p.mp, p.sessions, p.moved)
            && (forall s :: 0 <= s < NSHARDS ==>
                  w'.epoch[s] == if s in p.moved && w.groups[p.dst].last[s] < p.num then p.num else w.epoch[s])
  {
    hide LastOk, ChainOk, VecOk, PacketScope, DataOk, PacketOk, KeysOk, GoodPlan;
    var w' := Take(plan, w, Move(p));
    assert w'.groups.Keys == w.groups.Keys;
  }

  lemma MoveKeepsLast(plan: Plan, w: World, p: Packet, g: int, s: nat)
    requires Inv(plan, w) && Enabled(plan, w, Move(p)) && s < NSHARDS && g in w.groups
    requires var w' := Take(plan, w, Move(p)); Shaped(w') && g in w'.groups
    ensures LastOk(plan, Take(plan, w, Move(p)), g, s) && VecOk(plan, Take(plan, w, Move(p)), g, s)
  {
    hide PacketScope, DataOk, KeysOk, GoodPlan, ChainOk, Take, SameData, SameSessions, Overlay, NewKeys, NewSessions;
    MoveEffect(plan, w, p);
    assert LastOk(plan, w, g, s) && VecOk(plan, w, g, s);
    if s in p.moved {
      assert PacketOk(plan, w, p, s);
      if w.groups[p.dst].num == p.num {
        RetryHasLast(plan, w, p, s);
      } else if w.groups[p.dst].last[s] < p.num {
        EpochBeforeMove(plan, w, p, s);
      }
    }
  }

  lemma MoveKeepsChain(plan: Plan, w: World, p: Packet, s: nat)
    requires Inv(plan, w) && Enabled(plan, w, Move(p)) && s < NSHARDS
    requires Shaped(Take(plan, w, Move(p)))
    ensures ChainOk(plan, Take(plan, w, Move(p)), s)
  {
    hide PacketScope, DataOk, KeysOk, GoodPlan, LastOk, VecOk, Take, SameData, SameSessions;
    hide Overlay, NewKeys, NewSessions;
    MoveEffect(plan, w, p);
    assert ChainOk(plan, w, s);
    if s in p.moved {
      assert PacketOk(plan, w, p, s);
      if w.groups[p.dst].last[s] < p.num {
        EpochBeforeMove(plan, w, p, s);
      }
    }
  }

  /** The data of a shard just arriving replaces the little the group still had of it. */
  lemma ArrivingData(g: Group, num: nat, mp: map<string, string>, table: map<string, string>, s: nat)
    requires g.Shaped() && s < NSHARDS && g.last[s] < num
    requires SameData(mp, table, s) && forall k :: k in g.mp ==> k in table
    ensures SameData(Overlay(g.mp, mp, NewKeys(g.last, num, mp)), table, s)
  {}

  lemma ArrivingSessions(g: Group, num: nat, sessions: map<SessionKey, int>, seen: map<SessionKey, int>, s: nat)
    requires g.Shaped() && ShardsInRange(sessions) && s < NSHARDS && g.last[s] < num
    requires SameSessions(sessions, seen, s) && forall k :: k in g.sessions ==> k in seen
    ensures SameSessions(Overlay(g.sessions, sessions, NewSessions(g.last, num, sessions)), seen, s)
  {}

  /** A retry, or data of other shards, leaves the shard as it was. */
  lemma NotArriving(g: Group, p: Packet, s: nat)
    requires g.Shaped() && ShardsInRange(p.sessions) && s < NSHARDS
    requires s !in p.moved || g.last[s] >= p.num
    requires PacketScope(p)
    ensures SameData(Overlay(g.mp, p.mp, NewKeys(g.last, p.num, p.mp)), g.mp, s)
    ensures SameSessions(Overlay(g.sessions, p.sessions, NewSessions(g.last, p.num, p.sessions)), g.sessions, s)
  {}

  lemma MoveKeepsData(plan: Plan, w: World, p: Packet, s: nat)
    requires Inv(plan, w) && Enabled(plan, w, Move(p)) && s < NSHARDS
    requires Shaped(Take(plan, w, Move(p)))
    ensures DataOk(plan, Take(plan, w, Move(p)), s)
  {
    hide LastOk, ChainOk, VecOk, GoodPlan, Take, SameData, SameSessions, PacketScope;
    hide Overlay, NewKeys, NewSessions;
    var w' := Take(plan, w, Move(p));
    MoveEffect(plan, w, p);
    assert DataOk(plan, w, s) && PacketScope(p);
    var g, g' := w.groups[p.dst], w'.groups[p.dst];
    if s in p.moved && g.last[s] < p.num {
      EpochBeforeMove(plan, w, p, s);
      assert PacketOk(plan, w, p, s);
      ArrivingData(g, p.num, p.mp, w.table, s);
      ArrivingSessions(g, p.num, p.sessions, w.seen, s);
    } else {
      NotArriving(g, p, s);
      if Holder(plan, w, s) == p.dst {
        SameDataTransitive(g'.mp, g.mp, w.table, s);
        SameSessionsTransitive(g'.sessions, g.sessions, w.seen, s);
      }
    }
  }

  lemma MoveKeepsPacket(plan: Plan, w: World, p: Packet, q: Packet, s: nat)
    requires Inv(plan, w) && Enabled(plan, w, Move(p)) && q in w.packets && s in q.moved
    requires Shaped(Take(plan, w, Move(p)))
    ensures PacketOk(plan, Take(plan, w, Move(p)), q, s)
  {
    hide LastOk, ChainOk, VecOk, GoodPlan, Take, SameData, SameSessions, PacketScope, DataOk, KeysOk;
    MoveEffect(plan, w, p);
    assert PacketOk(plan, w, q, s);
    if s in p.moved {
      assert PacketOk(plan, w, p, s);
      if w.groups[p.dst].num == p.num {
        RetryHasLast(plan, w, p, s);
      }
    }
  }

  lemma MoveKeepsKeys(plan: Plan, w: World, p: Packet)
    requires Inv(plan, w) && Enabled(plan, w, Move(p))
    ensures KeysOk(Take(plan, w, Move(p)))
  {
    hide LastOk, ChainOk, VecOk, GoodPlan, Take, DataOk;
    var w', g := Take(plan, w, Move(p)), w.groups[p.dst];
    MoveEffect(plan, w, p);
    assert PacketScope(p);
    forall k | k in NewKeys(g.last, p.num, p.mp)
      ensures k in w.table
    {
      EpochBeforeMove(plan, w, p, Key2Shard(k));
      assert PacketOk(plan, w, p, Key2Shard(k));
    }
    forall k | k in NewSessions(g.last, p.num, p.sessions)
      ensures k in w.seen
    {
      var (ck, s) := k;
      EpochBeforeMove(plan, w, p, s);
      assert PacketOk(plan, w, p, s);
      assert (ck, s) in p.sessions;
    }
  }

  lemma MoveKeeps(plan: Plan, w: World, p: Packet)
    requires Inv(plan, w) && Enabled(plan, w, Move(p))
    ensures Inv(plan, Take(plan, w, Move(p)))
  {
    hide LastOk, ChainOk, VecOk, PacketOk, PacketScope, KeysOk, GoodPlan, DataOk, Take;
    var w' := Take(plan, w, Move(p));
    MoveEffect(plan, w, p);
    MoveKeepsKeys(plan, w, p);
    forall g, s: nat | g in w'.groups && s < NSHARDS
      ensures LastOk(plan, w', g, s) && VecOk(plan, w', g, s)
    {
      MoveKeepsLast(plan, w, p, g, s);
    }
    forall s: nat | s < NSHARDS
      ensures ChainOk(plan, w', s) && DataOk(plan, w', s)
    {
      MoveKeepsChain(plan, w, p, s);
      MoveKeepsData(plan, w, p, s);
    }
    forall q, s | q in w.packets && s in q.moved
      ensures PacketOk(plan, w', q, s)
    {
      MoveKeepsPacket(plan, w, p, q, s);
    }
  }

  /** Applying moved data in another configuration spoils the invariant: too early, the group would be
      ahead of itself; too late, it would serve a shard that has gone on or forget how recent its own
      data is. */
  lemma MoveOutOfSeasonBreaks(plan: Plan, w: World, p: Packet, s: nat)
    requires Inv(plan, w) && p in w.packets && p.dst in w.groups && s in p.moved && !InSeason(w, p)
    ensures !Inv(plan, TakeMove(w, p))
  {
    hide PacketScope, DataOk, KeysOk, ChainOk, GoodPlan, Overlay, NewKeys, NewSessions, PacketOk;
    var w', num := TakeMove(w, p), w.groups[p.dst].num;
    var g' := w'.groups[p.dst];
    assert g'.last[s] == p.num && g'.vec[s] && g'.num == num;
    assert Shaped(w') ==> !LastOk(plan, w', p.dst, s) || !VecOk(plan, w', p.dst, s);
  }

  /** Applying moved data is harmless exactly in the configuration before and in the one it is for. */
  lemma MoveSafeIff(plan: Plan, w: World, p: Packet)
    requires Inv(plan, w) && p in w.packets && p.dst in w.groups && p.moved != {}
    ensures Inv(plan, TakeMove(w, p)) <==> InSeason(w, p)
  {
    hide Inv;
    if InSeason(w, p) {
      MoveStepKeeps(plan, w, p);
    } else {
      var s :| s in p.moved;
      MoveOutOfSeasonBreaks(plan, w, p, s);
    }
  }

  lemma MoveStepKeeps(plan: Plan, w: World, p: Packet)
    requires Inv(plan, w) && p in w.packets && p.dst in w.groups && InSeason(w, p)
    ensures Inv(plan, TakeMove(w, p))
  {
    hide LastOk, VecOk, ChainOk, DataOk, PacketOk, PacketScope, KeysOk, GoodPlan, TakeMove;
    MoveKeeps(plan, w, p);
  }

  // ----- adopting the next configuration

  lemma AdoptEffect(plan: Plan, w: World, gid: int)
    requires Inv(plan, w) && Enabled(plan, w, Adopt(gid))
    ensures var w', n := Take(plan, w, Adopt(gid)), w.groups[gid].num + 1;
            && Shaped(w') && w'.groups.Keys == w.groups.Keys && GoodPlan(plan, w'.groups.Keys)
            && w'.packets == w.packets && w'.table == w.table && w'.seen == w.seen && KeysOk(w')
            && (forall g :: g in w.groups && g != gid ==> w'.groups[g] == w.groups[g])
            && w'.groups[gid].mp == w.groups[gid].mp && w'.groups[gid].sessions == w.groups[gid].sessions
            && w'.groups[gid].num == n
            && (forall s: nat :: s < NSHARDS ==>
                  && w'.groups[gid].vec[s] == (plan(n, s) == gid)
                  && w'.groups[gid].last[s] == (if plan(n, s) == gid then n else w.groups[gid].last[s])
                  && w'.epoch[s] == (if plan(n, s) == gid then n else w.epoch[s]))
  {
    hide LastOk, ChainOk, VecOk, PacketScope, DataOk, PacketOk, GoodPlan;
    var w' := Take(plan, w, Adopt(gid));
    assert w'.groups.Keys == w.groups.Keys;
  }

  /** A group adopts a configuration that assigns it the shard only when it already has it. */
  lemma EpochAtAdopt(plan: Plan, w: World, gid: int, s: nat)
    requires Inv(plan, w) && Enabled(plan, w, Adopt(gid)) && s < NSHARDS
    requires plan(w.groups[gid].num + 1, s) == gid
    ensures var n := w.groups[gid].num;
            && (w.epoch[s] == n + 1 || (w.epoch[s] == n && (n == 0 || plan(n, s) == gid)))
            && Holder(plan, w, s) == gid
  {
    hide PacketScope, DataOk, PacketOk, KeysOk, VecOk, Take;
    var n: nat, e := w.groups[gid].num, w.epoch[s];
    assert LastOk(plan, w, gid, s) && ChainOk(plan, w, s);
    var next: nat := n + 1;
    assert e > next ==> NumOf(w, plan(next, s)) > next;
    assert e > n && n >= 1 ==> NumOf(w, plan(n, s)) > n;
    assert e >= 1 ==> LastOf(w, plan(1, s), s) >= 1;
    assert n >= 1 && plan(n, s) == gid ==> n <= w.groups[gid].last[s];
  }

  lemma AdoptKeepsLast(plan: Plan, w: World, gid: int, g: int, s: nat)
    requires Inv(plan, w) && Enabled(plan, w, Adopt(gid)) && s < NSHARDS && g in w.groups
    requires var w' := Take(plan, w, Adopt(gid)); Shaped(w') && g in w'.groups
    ensures LastOk(plan, Take(plan, w, Adopt(gid)), g, s) && VecOk(plan, Take(plan, w, Adopt(gid)), g, s)
  {
    hide PacketScope, DataOk, PacketOk, KeysOk, GoodPlan, ChainOk, Take;
    AdoptEffect(plan, w, gid);
    assert LastOk(plan, w, g, s) && VecOk(plan, w, g, s);
    if plan(w.groups[gid].num + 1, s) == gid {
      EpochAtAdopt(plan, w, gid, s);
    }
  }

  lemma AdoptKeepsChain(plan: Plan, w: World, gid: int, s: nat)
    requires Inv(plan, w) && Enabled(plan, w, Adopt(gid)) && s < NSHARDS
    requires Shaped(Take(plan, w, Adopt(gid)))
    ensures ChainOk(plan, Take(plan, w, Adopt(gid)), s)
  {
    hide PacketScope, DataOk, PacketOk, KeysOk, GoodPlan, VecOk, LastOk, Take;
    AdoptEffect(plan, w, gid);
    assert ChainOk(plan, w, s);
    if plan(w.groups[gid].num + 1, s) == gid {
      EpochAtAdopt(plan, w, gid, s);
    }
    assert LastOk(plan, w, gid, s);
    LastNotAhead(plan, w, gid, s);
  }

  /** Adopting never lowers the last configuration in which the group had the shard. */
  lemma LastNotAhead(plan: Plan, w: World, gid: int, s: nat)
    requires Inv(plan, w) && gid in w.groups && s < NSHARDS
    ensures w.groups[gid].last[s] <= w.groups[gid].num + 1
  {
    assert LastOk(plan, w, gid, s);
  }

  lemma AdoptKeepsContent(plan: Plan, w: World, gid: int, s: nat)
    requires Inv(plan, w) && Enabled(plan, w, Adopt(gid)) && s < NSHARDS
    requires Shaped(Take(plan, w, Adopt(gid)))
    ensures DataOk(plan, Take(plan, w, Adopt(gid)), s)
    ensures forall p :: p in w.packets && s in p.moved ==> PacketOk(plan, Take(plan, w, Adopt(gid)), p, s)
  {
    hide LastOk, ChainOk, VecOk, PacketScope, KeysOk, GoodPlan, Take, SameData, SameSessions;
    var w' := Take(plan, w, Adopt(gid));
    AdoptEffect(plan, w, gid);
    assert DataOk(plan, w, s);
    if plan(w.groups[gid].num + 1, s) == gid {
      EpochAtAdopt(plan, w, gid, s);
    }
    forall p | p in w.packets && s in p.moved
      ensures PacketOk(plan, w', p, s)
    {
      assert PacketOk(plan, w, p, s);
    }
  }

  lemma AdoptKeeps(plan: Plan, w: World, gid: int)
    requires Inv(plan, w) && Enabled(plan, w, Adopt(gid))
    ensures Inv(plan, Take(plan, w, Adopt(gid)))
  {
    hide LastOk, ChainOk, VecOk, PacketOk, PacketScope, KeysOk, GoodPlan, DataOk, Take;
    var w' := Take(plan, w, Adopt(gid));
    AdoptEffect(plan, w, gid);
    forall g, s: nat | g in w'.groups && s < NSHARDS
      ensures LastOk(plan, w', g, s) && VecOk(plan, w', g, s)
    {
      AdoptKeepsLast(plan, w, gid, g, s);
    }
    forall s: nat | s < NSHARDS
      ensures ChainOk(plan, w', s) && DataOk(plan, w', s)
    {
      AdoptKeepsChain(plan, w, gid, s);
      AdoptKeepsContent(plan, w, gid, s);
    }
    forall p, s | p in w.packets && s in p.moved
      ensures PacketOk(plan, w', p, s)
    {
      AdoptKeepsContent(plan, w, gid, s);
    }
  }

  // ----- runs

  lemma StepKeeps(plan: Plan, w: World, step: Step)
    requires Inv(plan, w) && Enabled(plan, w, step)
    ensures Inv(plan, Take(plan, w, step))
  {
    hide Inv, Enabled, Take;
    match step
    case Request(gid, ck, req, key, write) => RequestKeeps(plan, w, gid, ck, req, key, write);
    case Narrow(gid) => NarrowKeeps(plan, w, gid);
    case Fetch(src, dst, num, moved) => FetchKeeps(plan, w, src, dst, num, moved);
    case Move(packet) => MoveKeeps(plan, w, packet);
    case Adopt(gid) => AdoptKeeps(plan, w, gid);
    case Delete(src, num, gone) => DeleteKeeps(plan, w, src, num, gone);
  }

  /** The steps may be taken one after the other from w, and lead to the last world. */
  ghost predicate Leads(plan: Plan, w: World, steps: seq<Step>, last: World)
    decreases |steps|
  {
    if steps == [] then last == w
    else Shaped(w) && Enabled(plan, w, steps[0]) && Leads(plan, Take(plan, w, steps[0]), steps[1..], last)
  }

  lemma {:induction false} RunsKeep(plan: Plan, w: World, steps: seq<Step>, last: World)
    requires Inv(plan, w) && Leads(plan, w, steps, last)
    ensures Inv(plan, last)
    decreases |steps|
  {
    hide Inv, Enabled, Take;
    if steps != [] {
      StepKeeps(plan, w, steps[0]);
      RunsKeep(plan, Take(plan, w, steps[0]), steps[1..], last);
    }
  }
}
