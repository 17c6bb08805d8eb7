/** What the configurations of a shard controller say (src/shardctrler/server.go:302-374), read off the
operations alone: which groups there are, with which servers, and which shards are where somebody moved them. */
module ControllerHistory {
  import opened ShardController
  import opened Allocation

  /** A Join that brings the group, or a Leave that takes it away. */
  ghost predicate Names(op: Op, gid: int) {
    match op
    case Join(servers) => gid in servers
    case Leave(gids) => gid in gids
    case _ => false
  }

  ghost predicate IsLastNaming(ops: seq<Op>, gid: int, i: nat) {
    i < |ops| && Names(ops[i], gid) && forall j :: i < j < |ops| ==> !Names(ops[j], gid)
  }

  ghost predicate LastJoins(ops: seq<Op>, gid: int, i: nat) {
    IsLastNaming(ops, gid, i) && ops[i].Join? && gid in ops[i].servers
  }

  /** One more operation: it is the last that names the group, or it does not matter. */
  lemma LastNamingNext(ops: seq<Op>, op: Op, gid: int, i: nat)
    ensures IsLastNaming(ops + [op], gid, i) <==>
            if Names(op, gid) then i == |ops| else IsLastNaming(ops, gid, i)
  {
    var all := ops + [op];
    assert all[|ops|] == op;
    assert forall j :: 0 <= j < |ops| ==> all[j] == ops[j];
  }

  /** The group is there exactly if the last operation that names it is a Join, with that Join's servers. */
  ghost predicate IsMember(ops: seq<Op>, groups: map<int, seq<string>>, gid: int) {
    && (gid in groups <==> exists i: nat :: LastJoins(ops, gid, i))
    && (forall i: nat :: LastJoins(ops, gid, i) ==> gid in groups && groups[gid] == ops[i].servers[gid])
  }

  lemma MemberNext(ops: seq<Op>, op: Op, groups: map<int, seq<string>>, gid: int)
    requires IsMember(ops, groups, gid)
    ensures IsMember(ops + [op], GroupsAfter(groups, op), gid)
  {
    var all, next := ops + [op], GroupsAfter(groups, op);
    forall i: nat
      ensures IsLastNaming(all, gid, i) <==> if Names(op, gid) then i == |ops| else IsLastNaming(ops, gid, i)
    {
      LastNamingNext(ops, op, gid, i);
    }
    if Names(op, gid) {
      assert op.Join? ==> LastJoins(all, gid, |ops|);
    } else {
      assert forall i: nat :: LastJoins(all, gid, i) <==> LastJoins(ops, gid, i);
    }
  }

  /** A group is in the last configuration exactly if the last Join or Leave that names it is a Join, and it
      has the servers of that Join. */
  lemma {:induction false} GroupsAreThoseLastJoined(ops: seq<Op>, configs: seq<Config>, gid: int)
    requires History(ops, configs)
    ensures configs != [] && IsMember(ops, configs[|configs| - 1].groups, gid)
    decreases |ops|
  {
    if ops != [] {
      var n, m := |ops| - 1, |configs| - 1;
      assert ops == ops[..n] + [ops[n]];
      if ops[n].Query? {
        GroupsAreThoseLastJoined(ops[..n], configs, gid);
        MemberNext(ops[..n], ops[n], configs[m].groups, gid);
      } else {
        GroupsAreThoseLastJoined(ops[..n], configs[..m], gid);
        assert configs[..m][m - 1] == configs[m - 1];
        MemberNext(ops[..n], ops[n], configs[m - 1].groups, gid);
      }
    }
  }

  /** Where somebody moved the shard since the shards were last spread out. */
  ghost predicate MovedTo(ops: seq<Op>, s: nat, gid: int) {
    exists i: nat :: IsLastMove(ops, s, gid, i)
  }

  ghost predicate IsLastMove(ops: seq<Op>, s: nat, gid: int, i: nat) {
    && i < |ops| && ops[i] == Move(s, gid)
    && forall j :: i < j < |ops| ==> ops[j].Query? || (ops[j].Move? && ops[j].shard != s)
  }

  lemma MovedNext(ops: seq<Op>, op: Op, s: nat, gid: int)
    ensures MovedTo(ops + [op], s, gid) <==>
            op == Move(s, gid) || (MovedTo(ops, s, gid) && (op.Query? || (op.Move? && op.shard != s)))
  {
    var all := ops + [op];
    assert all[|ops|] == op;
    assert forall j :: 0 <= j < |ops| ==> all[j] == ops[j];
    if MovedTo(all, s, gid) && op != Move(s, gid) {
      var i: nat :| IsLastMove(all, s, gid, i);
      assert IsLastMove(ops, s, gid, i);
    }
    if op == Move(s, gid) {
      assert IsLastMove(all, s, gid, |ops|);
    } else if MovedTo(ops, s, gid) && (op.Query? || (op.Move? && op.shard != s)) {
      var i: nat :| IsLastMove(ops, s, gid, i);
      assert IsLastMove(all, s, gid, i);
    }
  }

  /** A shard is where it was moved to, whatever group that is, until the next Join or Leave; otherwise it
      is at a group of the configuration, or nowhere if there is none. */
  lemma {:induction false} ShardIsMovedOrPlaced(ops: seq<Op>, configs: seq<Config>, s: nat)
    requires History(ops, configs) && s < NSHARDS
    ensures Numbered(configs)
    ensures var last := configs[|configs| - 1];
            && (forall gid :: MovedTo(ops, s, gid) ==> last.shards[s] == gid)
            && ((forall gid :: !MovedTo(ops, s, gid)) ==>
                  if last.groups == map[] then last.shards[s] == 0 else last.shards[s] in last.groups)
    decreases |ops|
  {
    HistoryIsNumbered(ops, configs);
    if ops != [] {
      var n, m := |ops| - 1, |configs| - 1;
      assert ops == ops[..n] + [ops[n]];
      forall gid
        ensures MovedTo(ops, s, gid) <==>
                ops[n] == Move(s, gid) ||
                (MovedTo(ops[..n], s, gid) && (ops[n].Query? || (ops[n].Move? && ops[n].shard != s)))
      {
        MovedNext(ops[..n], ops[n], s, gid);
      }
      if ops[n].Query? {
        ShardIsMovedOrPlaced(ops[..n], configs, s);
      } else if ops[n].Move? {
        ShardIsMovedOrPlaced(ops[..n], configs[..m], s);
        assert configs[..m][m - 1] == configs[m - 1];
      } else {
        JoinAndLeaveBalance(ops, configs);
      }
    }
  }

  lemma LeaversAreGone(ops: seq<Op>, configs: seq<Config>, gid: int)
    requires History(ops, configs) && ops != [] && ops[|ops| - 1].Leave? && gid in ops[|ops| - 1].gids
    ensures configs != [] && gid !in configs[|configs| - 1].groups
  {
    hide History;
    GroupsAreThoseLastJoined(ops, configs, gid);
    assert Names(ops[|ops| - 1], gid);
  }

  /** After a Leave no shard is at a group that left; with no group left, every shard is at 0. */
  lemma LeaversHoldNothing(ops: seq<Op>, configs: seq<Config>, s: nat)
    requires History(ops, configs) && s < NSHARDS && ops != [] && ops[|ops| - 1].Leave?
    ensures Numbered(configs)
    ensures var last := configs[|configs| - 1];
            if last.groups == map[] then last.shards[s] == 0 else last.shards[s] !in ops[|ops| - 1].gids
  {
    hide History;
    ShardIsMovedOrPlaced(ops, configs, s);
    var gid := configs[|configs| - 1].shards[s];
    if gid in ops[|ops| - 1].gids {
      LeaversAreGone(ops, configs, gid);
    }
  }

  /** A Move changes the place of its shard and nothing else. */
  lemma MoveMovesOne(ops: seq<Op>, configs: seq<Config>, s: nat)
    requires History(ops, configs) && s < NSHARDS && ops != [] && ops[|ops| - 1].Move?
    ensures Numbered(configs) && |configs| >= 2
    ensures var before, last, op := configs[|configs| - 2], configs[|configs| - 1], ops[|ops| - 1];
            && last.groups == before.groups
            && last.shards[s] == if s == op.shard then op.gid else before.shards[s]
  {
    HistoryIsNumbered(ops, configs);
  }
}
