/** What every run of the sharded store guarantees, for any number of groups, configurations,
client requests, retries and late deletions. */
module MigrationRuns {
  import opened ShardStore
  import opened Migration

  /** A client operation that took effect at some group. */
  datatype Applied = Applied(gid: int, ck: int, req: int, key: string, write: Write)

  ghost predicate TakesEffect(w: World, step: Step)
    requires Shaped(w)
  {
    && step.Request? && step.gid in w.groups
    && w.groups[step.gid].vec[Key2Shard(step.key)]
    && !IsStale(w.groups[step.gid].sessions, step.ck, Key2Shard(step.key), step.req)
  }

  /** The client operations that took effect in a run, in the order in which they did. */
  ghost function History(plan: Plan, w: World, steps: seq<Step>): seq<Applied>
    decreases |steps|
  {
    if steps == [] || !Shaped(w) || !Enabled(plan, w, steps[0]) then []
    else
      var step := steps[0];
      (if TakesEffect(w, step) then [Applied(step.gid, step.ck, step.req, step.key, step.write)] else [])
      + History(plan, Take(plan, w, step), steps[1..])
  }

  /** One map that receives every write. */
  ghost function Replay(mp: map<string, string>, history: seq<Applied>): map<string, string>
    decreases |history|
  {
    if history == [] then mp
    else Replay(Written(mp, history[0].key, history[0].write), history[1..])
  }

  lemma {:induction false} TableIsReplay(plan: Plan, w: World, steps: seq<Step>, last: World)
    requires Leads(plan, w, steps, last)
    ensures last.table == Replay(w.table, History(plan, w, steps))
    decreases |steps|
  {
    if steps != [] {
      var w', rest := Take(plan, w, steps[0]), History(plan, Take(plan, w, steps[0]), steps[1..]);
      TableIsReplay(plan, w', steps[1..], last);
      if TakesEffect(w, steps[0]) {
        assert History(plan, w, steps)[1..] == rest;
      } else {
        assert History(plan, w, steps) == rest;
      }
    }
  }

  /** The sharded store refines one map: in every reachable world a group that serves a shard
      holds for it exactly what one map that received every applied write holds, and exactly the
      last applied request of each client. */
  lemma ShardedStoreRefinesOneMap(plan: Plan, w: World, steps: seq<Step>, last: World, g: int, s: nat)
    requires Initial(w) && GoodPlan(plan, w.groups.Keys) && Leads(plan, w, steps, last)
    requires g in last.groups && s < NSHARDS && Shaped(last) && last.groups[g].vec[s]
    ensures SameData(last.groups[g].mp, Replay(map[], History(plan, w, steps)), s)
    ensures SameSessions(last.groups[g].sessions, last.seen, s)
  {
    InitialInv(plan, w);
    RunsKeep(plan, w, steps, last);
    ServingIsHolding(plan, last, g, s);
    TableIsReplay(plan, w, steps, last);
    assert DataOk(plan, last, s);
  }

  /** At most one group serves a shard, in every reachable world. */
  lemma OneServerPerShard(plan: Plan, w: World, steps: seq<Step>, last: World, g: int, h: int, s: nat)
    requires Initial(w) && GoodPlan(plan, w.groups.Keys) && Leads(plan, w, steps, last)
    requires Shaped(last) && s < NSHARDS
    requires g in last.groups && last.groups[g].vec[s] && h in last.groups && last.groups[h].vec[s]
    ensures g == h
  {
    InitialInv(plan, w);
    RunsKeep(plan, w, steps, last);
    ServingIsHolding(plan, last, g, s);
    ServingIsHolding(plan, last, h, s);
  }

  // ----- at most once

  ghost predicate Newer(seen: map<SessionKey, int>, a: Applied) {
    var k := (a.ck, Key2Shard(a.key));
    k in seen ==> seen[k] < a.req
  }

  ghost predicate SameStream(a: Applied, b: Applied) {
    a.ck == b.ck && Key2Shard(a.key) == Key2Shard(b.key)
  }

  /** An operation takes effect only if its request is newer than all that took effect before. */
  lemma EffectIsNewer(plan: Plan, w: World, step: Step)
    requires Inv(plan, w) && TakesEffect(w, step)
    ensures Newer(w.seen, Applied(step.gid, step.ck, step.req, step.key, step.write))
  {
    hide LastOk, ChainOk, VecOk, PacketOk, PacketScope, KeysOk, GoodPlan;
    var s := Key2Shard(step.key);
    ServingIsHolding(plan, w, step.gid, s);
    assert DataOk(plan, w, s);
    assert SameSessions(w.groups[step.gid].sessions, w.seen, s);
  }

  /** Each client's requests on each shard, newer than those seen before, and increasing. */
  ghost predicate Increasing(seen: map<SessionKey, int>, h: seq<Applied>) {
    && (forall j :: 0 <= j < |h| ==> Newer(seen, h[j]))
    && (forall i, j :: 0 <= i < j < |h| && SameStream(h[i], h[j]) ==> h[i].req < h[j].req)
  }

  lemma SeenAfter(plan: Plan, w: World, step: Step)
    requires Shaped(w) && Enabled(plan, w, step)
    ensures Take(plan, w, step).seen ==
            if TakesEffect(w, step) then w.seen[(step.ck, Key2Shard(step.key)) := step.req] else w.seen
  {}

  /** Across all groups and all moves, each client's operations on a shard take effect with
      strictly increasing request numbers, so a retried request takes effect at most once. */
  lemma {:induction false} AtMostOnce(plan: Plan, w: World, steps: seq<Step>, last: World)
    requires Inv(plan, w) && Leads(plan, w, steps, last)
    ensures Increasing(w.seen, History(plan, w, steps))
    decreases |steps|
  {
    hide Inv, Enabled, Take, Increasing, TakesEffect;
    if steps == [] {
      NothingIsIncreasing(w.seen);
    } else {
      var w' := Take(plan, w, steps[0]);
      var rest, h := History(plan, w', steps[1..]), History(plan, w, steps);
      StepKeeps(plan, w, steps[0]);
      AtMostOnce(plan, w', steps[1..], last);
      SeenAfter(plan, w, steps[0]);
      if TakesEffect(w, steps[0]) {
        EffectIsNewer(plan, w, steps[0]);
        FirstIsOlder(w.seen, w'.seen, h, rest);
      } else {
        assert h == rest;
      }
    }
  }

  lemma NothingIsIncreasing(seen: map<SessionKey, int>)
    ensures Increasing(seen, [])
  {}

  lemma FirstIsOlder(seen: map<SessionKey, int>, seen': map<SessionKey, int>, h: seq<Applied>, rest: seq<Applied>)
    requires h != [] && h == [h[0]] + rest && Newer(seen, h[0])
    requires seen' == seen[(h[0].ck, Key2Shard(h[0].key)) := h[0].req]
    requires Increasing(seen', rest)
    ensures Increasing(seen, h)
  {
    forall j | 0 <= j < |h|
      ensures Newer(seen, h[j])
    {
      if j > 0 {
        assert h[j] == rest[j - 1] && Newer(seen', rest[j - 1]);
      }
    }
    forall i, j | 0 <= i < j < |h| && SameStream(h[i], h[j])
      ensures h[i].req < h[j].req
    {
      assert h[j] == rest[j - 1] && Newer(seen', rest[j - 1]);
      assert i > 0 ==> h[i] == rest[i - 1];
    }
  }

  // ----- the first phase of a configuration change

  /** After it the group still serves just what it has in this configuration, or what nobody has, and keeps
      in the next. */
  lemma NarrowServesWhatStays(plan: Plan, w: World, g: int, s: nat)
    requires Shaped(w) && g in w.groups && s < NSHARDS
    ensures Enabled(plan, w, Narrow(g))
    ensures var w', n := Take(plan, w, Narrow(g)), w.groups[g].num;
            && g in w'.groups && w'.groups[g].Shaped()
            && (w'.groups[g].vec[s] <==> plan(n + 1, s) == g && (plan(n, s) == g || plan(n, s) == 0))
            && w'.groups[g] == w.groups[g].(vec := w'.groups[g].vec)
  {}

  // ----- retries and late deletions

  /** A step never lowers the configuration up to which a group has a shard. */
  lemma LastNeverFalls(plan: Plan, w: World, step: Step, g: int, s: nat)
    requires Inv(plan, w) && Enabled(plan, w, step) && s < NSHARDS
    ensures LastOf(Take(plan, w, step), g, s) >= LastOf(w, g, s)
  {
    hide VecOk, ChainOk, DataOk, PacketOk, PacketScope, KeysOk, GoodPlan;
    if g in w.groups {
      assert LastOk(plan, w, g, s);
      if step.Move? && s in step.packet.moved && w.groups[step.packet.dst].num == step.packet.num {
        RetryHasLast(plan, w, step.packet, s);
      }
    }
  }

  lemma {:induction false} LastNeverFallsInRuns(plan: Plan, w: World, steps: seq<Step>, last: World, g: int, s: nat)
    requires Inv(plan, w) && Leads(plan, w, steps, last) && s < NSHARDS
    ensures LastOf(last, g, s) >= LastOf(w, g, s)
    decreases |steps|
  {
    hide Inv, Enabled, Take;
    if steps != [] {
      LastNeverFalls(plan, w, steps[0], g, s);
      StepKeeps(plan, w, steps[0]);
      LastNeverFallsInRuns(plan, Take(plan, w, steps[0]), steps[1..], last, g, s);
    }
  }

  /** A group that is as recent as the incoming data keeps its own. */
  lemma RecentGroupKeepsContent(g: Group, q: Packet)
    requires g.Shaped() && AllShards(q.moved) && ShardsInRange(q.sessions) && PacketScope(q)
    requires forall s :: s in q.moved ==> g.last[s] >= q.num
    ensures var g' := ApplyMovement(g, q.num, q.mp, q.sessions, q.moved);
            g'.mp == g.mp && g'.sessions == g.sessions
  {
    assert NewKeys(g.last, q.num, q.mp) == {} && NewSessions(g.last, q.num, q.sessions) == {};
  }

  /** Applying moved data again for the same configuration, after any run of other steps, rolls
      back no value and no session, whatever the second reply carries, also when the group has adopted
      the configuration in the meantime. */
  lemma RetriedMoveIsHarmless(plan: Plan, w: World, p: Packet, steps: seq<Step>, last: World, q: Packet)
    requires Inv(plan, w) && Enabled(plan, w, Move(p)) && Leads(plan, Take(plan, w, Move(p)), steps, last)
    requires Shaped(last) && Enabled(plan, last, Move(q)) && q.num == p.num && q.dst == p.dst && q.moved <= p.moved
    ensures var after := Take(plan, last, Move(q));
            && after.groups[q.dst].mp == last.groups[q.dst].mp
            && after.groups[q.dst].sessions == last.groups[q.dst].sessions
            && after.table == last.table && after.seen == last.seen && after.epoch == last.epoch
  {
    hide LastOk, VecOk, ChainOk, DataOk, PacketOk, PacketScope, KeysOk, GoodPlan, Take, Overlay, NewKeys, NewSessions;
    var w1, g := Take(plan, w, Move(p)), last.groups[q.dst];
    StepKeeps(plan, w, Move(p));
    RunsKeep(plan, w1, steps, last);
    MoveEffect(plan, w, p);
    MoveEffect(plan, last, q);
    forall s | s in q.moved
      ensures g.last[s] >= q.num
    {
      LastNeverFallsInRuns(plan, w1, steps, last, q.dst, s);
    }
    RecentGroupKeepsContent(g, q);
  }

  /** A suggestion to delete, however late, leaves every shard that the group serves or holds. */
  lemma LateDeleteIsHarmless(plan: Plan, w: World, src: int, num: nat, gone: set<nat>, s: nat)
    requires Inv(plan, w) && Enabled(plan, w, Delete(src, num, gone)) && s < NSHARDS
    requires w.groups[src].vec[s] || Holder(plan, w, s) == src
    ensures var after := Take(plan, w, Delete(src, num, gone));
            && SameData(after.groups[src].mp, w.groups[src].mp, s)
            && SameSessions(after.groups[src].sessions, w.groups[src].sessions, s)
  {
    hide LastOk, VecOk, ChainOk, DataOk, PacketOk, KeysOk, GoodPlan;
    if w.groups[src].vec[s] {
      ServingIsHolding(plan, w, src, s);
    }
    if s in Deletable(w.groups[src], num, gone) {
      DeletableIsNotHeld(plan, w, src, num, gone, s);
    } else {
      DeletedElsewhere(w.groups[src], num, gone, s);
    }
  }

  /** A suggestion that could be made once can still be made after any run. */
  lemma DeleteStaysEnabled(
    plan: Plan, w: World, src: int, num: nat, gone: set<nat>, steps: seq<Step>, last: World)
    requires Inv(plan, w) && Enabled(plan, w, Delete(src, num, gone)) && Leads(plan, w, steps, last)
    requires Shaped(last)
    ensures Enabled(plan, last, Delete(src, num, gone))
  {
    hide LastOk, VecOk, ChainOk, DataOk, PacketOk, KeysOk, GoodPlan;
    GroupsStay(plan, w, steps, last);
    forall s | s in gone
      ensures last.groups[plan(num, s)].last[s] >= num
    {
      LastNeverFallsInRuns(plan, w, steps, last, plan(num, s), s);
    }
  }

  lemma {:induction false} GroupsStay(plan: Plan, w: World, steps: seq<Step>, last: World)
    requires Leads(plan, w, steps, last)
    ensures last.groups.Keys == w.groups.Keys
    decreases |steps|
  {
    if steps != [] {
      var w' := Take(plan, w, steps[0]);
      GroupsStay(plan, w', steps[1..], last);
      assert w'.groups.Keys == w.groups.Keys;
    }
  }

  /** Applying moved data after the group has left its configuration makes the group serve every shard of
      it, also if another group serves it. */
  lemma LateMoveServes(plan: Plan, w: World, p: Packet, s: nat)
    requires Inv(plan, w) && p in w.packets && p.dst in w.groups && s in p.moved
    ensures TakeMove(w, p).groups[p.dst].vec[s] && TakeMove(w, p).groups[p.dst].last[s] == p.num
  {
    hide LastOk, VecOk, ChainOk, DataOk, PacketOk, PacketScope, KeysOk, GoodPlan;
  }

  /** ... and it takes away the protection of a shard that the group has got back in the meantime: a
      suggestion to delete from any configuration since, which was refused, now deletes the shard. */
  lemma LateMoveUnprotects(plan: Plan, w: World, p: Packet, num: nat, gone: set<nat>, s: nat)
    requires Inv(plan, w) && p in w.packets && p.dst in w.groups && s in p.moved
    requires AllShards(gone) && s in gone && p.num <= num < w.groups[p.dst].last[s]
    ensures var g, late := w.groups[p.dst], TakeMove(w, p).groups[p.dst];
            && SameData(DeleteShards(g, num, gone).mp, g.mp, s)
            && late.Shaped() && forall k :: k in DeleteShards(late, num, gone).mp ==> Key2Shard(k) != s
  {
    hide LastOk, VecOk, ChainOk, DataOk, PacketOk, PacketScope, KeysOk, GoodPlan;
    LateMoveServes(plan, w, p, s);
    DeletedElsewhere(w.groups[p.dst], num, gone, s);
  }
}
