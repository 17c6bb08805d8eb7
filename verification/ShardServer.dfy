/** The state of one server of a group and what applying a log entry does to it
(src/shardkv/server.go). */
module ShardServer {
  import Store = ShardStore

  type SessionKey = Store.SessionKey

  /** The last operation of a client on a shard.  Clients have non-negative ids; a negative id
      is a server's own. */
  datatype Session = Session(number: int, req: int, shard: nat, index: int)

  datatype Args =
    | Get(key: string)
    | Put(key: string, value: string)
    | Append(key: string, value: string)
    | ChangeConfig(num: nat, shards: seq<int>)
    | ApplyMovement(num: nat, mp: map<string, string>, sessions: map<SessionKey, Session>, moved: set<nat>)
    | DeleteShards(num: nat, gone: set<nat>)
    | UpdateShardVec(num: nat, vec: seq<bool>)

  datatype Op = Op(number: int, req: int, ck: int, shard: nat, args: Args)

  datatype Reply = WrongLeader | LowerConfigNum | Data(mp: map<string, string>, sessions: map<SessionKey, Session>)

  /** The clients' sessions, as far as duplicate suppression depends on them. */
  ghost function Requests(sessions: map<SessionKey, Session>): map<SessionKey, int> {
    map k | k in sessions && k.0 >= 0 :: sessions[k].req
  }

  /** A session is filed under its own shard. */
  ghost predicate Filed(sessions: map<SessionKey, Session>) {
    forall k :: k in sessions ==> k.1 < Store.NSHARDS && sessions[k].shard == k.1
  }

  predicate IsClientArgs(args: Args) {
    args.Get? || args.Put? || args.Append?
  }

  function WriteOf(args: Args): Store.Write {
    match args
    case Put(_, value) => Store.Set(value)
    case Append(_, value) => Store.Extend(value)
    case _ => Store.Read
  }

  ghost predicate ArgsOk(args: Args) {
    match args
    case ChangeConfig(_, shards) => |shards| == Store.NSHARDS
    case ApplyMovement(_, _, sessions, moved) => Filed(sessions) && forall s :: s in moved ==> s < Store.NSHARDS
    case DeleteShards(_, gone) => forall s :: s in gone ==> s < Store.NSHARDS
    case UpdateShardVec(_, vec) => |vec| == Store.NSHARDS
    case _ => true
  }

  /** Clients ask for Get, Put and Append on their key's shard, servers for the rest. */
  ghost predicate OpOk(op: Op) {
    && ArgsOk(op.args)
    && (op.ck >= 0 <==> IsClientArgs(op.args))
    && (if IsClientArgs(op.args) then op.shard == Store.Key2Shard(op.args.key) else op.shard == 0)
  }

  /** What the entry means for the group: an old entry of a server changes nothing. */
  ghost function Meaning(g: Store.Group, op: Op, stale: bool): Store.Group
    requires g.Shaped() && OpOk(op)
  {
    if IsClientArgs(op.args) then Store.Client(g, op.ck, op.req, op.args.key, WriteOf(op.args))
    else if stale then g
    else
      match op.args
      case ChangeConfig(num, shards) => Store.ChangeConfig(g, num, shards)
      case ApplyMovement(num, mp, sessions, moved) =>
        Store.ApplyMovement(g, num, mp, Requests(sessions), moved)
      case DeleteShards(num, gone) => Store.DeleteShards(g, num, gone)
      case UpdateShardVec(num, vec) => Store.UpdateShardVec(g, num, vec)
      case _ => g
  }

  // ----- the loops over maps

  /** Takes over the incoming values of shards that are not yet as recent. */
  method MergeData(base: map<string, string>, last: seq<nat>, configNum: nat, incoming: map<string, string>)
    returns (merged: map<string, string>)
    requires |last| == Store.NSHARDS
    ensures merged == Store.Overlay(base, incoming, Store.NewKeys(last, configNum, incoming))
  {
    hide Store.Overlay, Store.Key2Shard;
    merged := base;
    var todo := incoming.Keys;
    ghost var wanted := Store.NewKeys(last, configNum, incoming);
    ghost var taken := {};
    Store.OverlayNone(base, incoming);
    while todo != {}
      invariant todo <= incoming.Keys && taken == wanted - todo
      invariant merged == Store.Overlay(base, incoming, taken)
      decreases |todo|
    {
      var k :| k in todo;
      todo := todo - {k};
      if last[Store.Key2Shard(k)] < configNum {
        Store.OverlayOneMore(base, incoming, taken, k);
        merged := merged[k := incoming[k]];
        taken := taken + {k};
      }
    }
    assert taken == wanted;
  }

  /** The sessions to take over: a client's only if its shard is not yet as recent. */
  ghost function NewSessions(last: seq<nat>, configNum: nat, incoming: map<SessionKey, Session>): set<SessionKey>
    requires |last| == Store.NSHARDS && Filed(incoming)
  {
    set k | k in incoming && (k.0 < 0 || last[k.1] < configNum)
  }

  /** Sessions that arrive from elsewhere have no index in this group's log. */
  ghost function Arriving(incoming: map<SessionKey, Session>): map<SessionKey, Session> {
    map k | k in incoming :: incoming[k].(index := -1)
  }

  method MergeSessions(
    base: map<SessionKey, Session>, last: seq<nat>, configNum: nat, incoming: map<SessionKey, Session>)
    returns (merged: map<SessionKey, Session>)
    requires |last| == Store.NSHARDS && Filed(incoming)
    ensures merged == Store.Overlay(base, Arriving(incoming), NewSessions(last, configNum, incoming))
  {
    hide Store.Overlay;
    merged := base;
    var todo := incoming.Keys;
    ghost var wanted, arriving := NewSessions(last, configNum, incoming), Arriving(incoming);
    ghost var taken := {};
    Store.OverlayNone(base, arriving);
    while todo != {}
      invariant todo <= incoming.Keys && taken == wanted - todo
      invariant merged == Store.Overlay(base, arriving, taken)
      decreases |todo|
    {
      var k :| k in todo;
      todo := todo - {k};
      if !(k.0 >= 0 && last[incoming[k].shard] >= configNum) {
        Store.OverlayOneMore(base, arriving, taken, k);
        merged := merged[k := incoming[k].(index := -1)];
        taken := taken + {k};
      }
    }
    assert taken == wanted;
  }

  lemma RequestsUpdate(sessions: map<SessionKey, Session>, k: SessionKey, session: Session)
    ensures Requests(sessions[k := session]) ==
            if k.0 >= 0 then Requests(sessions)[k := session.req] else Requests(sessions)
  {}

  lemma RequestsAt(sessions: map<SessionKey, Session>, k: SessionKey)
    requires k.0 >= 0
    ensures k in Requests(sessions) <==> k in sessions
    ensures k in sessions ==> Requests(sessions)[k] == sessions[k].req
  {}

  lemma OverlayRequests(last: seq<nat>, base: map<SessionKey, Session>, incoming: map<SessionKey, Session>, num: nat)
    requires |last| == Store.NSHARDS && Filed(incoming)
    ensures Requests(Store.Overlay(base, Arriving(incoming), NewSessions(last, num, incoming))) ==
            Store.Overlay(Requests(base), Requests(incoming), Store.NewSessions(last, num, Requests(incoming)))
  {}

  lemma MergedIsFiled(
    base: map<SessionKey, Session>, last: seq<nat>, num: nat, incoming: map<SessionKey, Session>, index: int)
    requires |last| == Store.NSHARDS && Filed(base) && Filed(incoming) && index >= 0
    requires forall k :: k in base ==> base[k].index <= index
    ensures var merged := Store.Overlay(base, Arriving(incoming), NewSessions(last, num, incoming));
            Filed(merged) && forall k :: k in merged ==> merged[k].index <= index
  {}

  /** The shards to delete that are not needed any more. */
  method Unneeded(last: seq<nat>, configNum: nat, gone: set<nat>) returns (doomed: set<nat>)
    requires |last| == Store.NSHARDS && forall s :: s in gone ==> s < Store.NSHARDS
    ensures doomed == set s | s in gone && configNum >= last[s]
  {
    doomed := gone;
    var todo := gone;
    while todo != {}
      invariant todo <= gone
      invariant forall s :: s in doomed <==> s in gone && (s in todo || configNum >= last[s])
      decreases |todo|
    {
      var s :| s in todo;
      todo := todo - {s};
      if configNum < last[s] {
        doomed := doomed - {s};
      }
    }
  }

  method DropData(base: map<string, string>, doomed: set<nat>) returns (kept: map<string, string>)
    ensures kept == map k | k in base && Store.Key2Shard(k) !in doomed :: base[k]
  {
    kept := base;
    var todo := base.Keys;
    while todo != {}
      invariant todo <= base.Keys
      invariant kept == map k | k in base && (k in todo || Store.Key2Shard(k) !in doomed) :: base[k]
      decreases |todo|
    {
      var k :| k in todo;
      todo := todo - {k};
      if Store.Key2Shard(k) in doomed {
        kept := kept - {k};
      }
    }
  }

  method DropSessions(base: map<SessionKey, Session>, doomed: set<nat>) returns (kept: map<SessionKey, Session>)
    requires Filed(base)
    ensures kept == map k | k in base && (k.0 < 0 || k.1 !in doomed) :: base[k]
  {
    kept := base;
    var todo := base.Keys;
    while todo != {}
      invariant todo <= base.Keys
      invariant kept == map k | k in base && (k in todo || k.0 < 0 || k.1 !in doomed) :: base[k]
      decreases |todo|
    {
      var k :| k in todo;
      todo := todo - {k};
      if k.0 >= 0 && base[k].shard in doomed {
        kept := kept - {k};
      }
    }
  }

  /** The data and sessions another group asks for. */
  method SelectData(base: map<string, string>, wanted: set<nat>) returns (chosen: map<string, string>)
    ensures chosen == Store.DataOf(base, wanted)
  {
    chosen := map[];
    var todo := base.Keys;
    while todo != {}
      invariant todo <= base.Keys
      invariant chosen == map k | k in base && k !in todo && Store.Key2Shard(k) in wanted :: base[k]
      decreases |todo|
    {
      var k :| k in todo;
      todo := todo - {k};
      if Store.Key2Shard(k) in wanted {
        chosen := chosen[k := base[k]];
      }
    }
  }

  method SelectSessions(base: map<SessionKey, Session>, wanted: set<nat>) returns (chosen: map<SessionKey, Session>)
    requires Filed(base)
    ensures chosen == map k | k in base && k.0 >= 0 && k.1 in wanted :: base[k]
  {
    chosen := map[];
    var todo := base.Keys;
    while todo != {}
      invariant todo <= base.Keys
      invariant chosen == map k | k in base && k !in todo && k.0 >= 0 && k.1 in wanted :: base[k]
      decreases |todo|
    {
      var k :| k in todo;
      todo := todo - {k};
      if k.0 >= 0 && base[k].shard in wanted {
        chosen := chosen[k := base[k]];
      }
    }
  }

  class Server {
    const gid: int
    var num: nat
    var shards: seq<int>
    var mp: map<string, string>
    var ckSessions: map<SessionKey, Session>
    var logRecord: map<int, int>
    var lastApplied: int
    var shardLastNums: seq<nat>
    var shardVec: seq<bool>

    ghost predicate Valid()
      reads this
    {
      && |shardVec| == Store.NSHARDS && |shardLastNums| == Store.NSHARDS && |shards| == Store.NSHARDS
      && Filed(ckSessions)
      && lastApplied >= 0
      && (forall k :: k in ckSessions ==> ckSessions[k].index <= lastApplied)
    }

    /** The group's state as this server knows it. */
    ghost function View(): Store.Group
      reads this
    {
      Store.Group(gid, mp, Requests(ckSessions), num, shardVec, shardLastNums)
    }

    constructor (gid: int)
      ensures Valid() && this.gid == gid
      ensures View() == Store.Group(gid, map[], map[], 0,
                                    seq(Store.NSHARDS, _ => false), seq(Store.NSHARDS, _ => 0))
    {
      this.gid := gid;
      num, shards := 0, seq(Store.NSHARDS, _ => 0);
      mp, ckSessions, logRecord, lastApplied := map[], map[], map[], 0;
      shardLastNums, shardVec := seq(Store.NSHARDS, _ => 0), seq(Store.NSHARDS, _ => false);
    }

    method ApplyChangeConfig(newNum: nat, newShards: seq<int>)
      requires Valid() && |newShards| == Store.NSHARDS
      modifies this`num, this`shards, this`shardVec, this`shardLastNums
      ensures Valid()
      ensures View() == Store.ChangeConfig(old(View()), newNum, newShards)
    {
      if num < newNum {
        num, shards := newNum, newShards;
        for s := 0 to Store.NSHARDS
          invariant |shardVec| == Store.NSHARDS && |shardLastNums| == Store.NSHARDS
          invariant num == newNum && shards == newShards
          invariant forall t :: 0 <= t < s ==> shardVec[t] == (newShards[t] == gid)
          invariant forall t :: 0 <= t < s ==>
            shardLastNums[t] == if newShards[t] == gid then newNum else old(shardLastNums)[t]
          invariant forall t :: s <= t < Store.NSHARDS ==> shardLastNums[t] == old(shardLastNums)[t]
        {
          if newShards[s] == gid {
            shardVec := shardVec[s := true];
            shardLastNums := shardLastNums[s := newNum];
          } else {
            shardVec := shardVec[s := false];
          }
        }
      }
    }

    method ApplyMovedShards(configNum: nat, incoming: map<string, string>, sessions: map<SessionKey, Session>,
                            moved: set<nat>)
      requires Valid() && Filed(sessions) && forall s :: s in moved ==> s < Store.NSHARDS
      modifies this`mp, this`ckSessions, this`shardVec, this`shardLastNums
      ensures Valid()
      ensures View() == Store.ApplyMovement(old(View()), configNum, incoming, Requests(sessions), moved)
    {
      hide Requests, Store.Overlay, Store.NewKeys, Store.NewSessions, Arriving;
      MergedIsFiled(ckSessions, shardLastNums, configNum, sessions, lastApplied);
      mp := MergeData(mp, shardLastNums, configNum, incoming);
      ckSessions := MergeSessions(ckSessions, shardLastNums, configNum, sessions);
      OverlayRequests(shardLastNums, old(ckSessions), sessions, configNum);
      MarkMoved(configNum, moved);
    }

    /** Serve the shards that arrived. */
    method MarkMoved(configNum: nat, moved: set<nat>)
      requires Valid() && forall s :: s in moved ==> s < Store.NSHARDS
      modifies this`shardVec, this`shardLastNums
      ensures Valid()
      ensures forall s :: 0 <= s < Store.NSHARDS ==>
        && shardVec[s] == (s in moved || old(shardVec)[s])
        && shardLastNums[s] == if s in moved then configNum else old(shardLastNums)[s]
    {
      var todo := moved;
      while todo != {}
        invariant todo <= moved && |shardVec| == Store.NSHARDS && |shardLastNums| == Store.NSHARDS
        invariant forall s :: 0 <= s < Store.NSHARDS ==>
          && shardVec[s] == ((s in moved && s !in todo) || old(shardVec)[s])
          && shardLastNums[s] == if s in moved && s !in todo then configNum else old(shardLastNums)[s]
        decreases |todo|
      {
        var s :| s in todo;
        todo := todo - {s};
        shardVec := shardVec[s := true];
        shardLastNums := shardLastNums[s := configNum];
      }
    }

    method ApplyDeleteShards(configNum: nat, gone: set<nat>)
      requires Valid() && forall s :: s in gone ==> s < Store.NSHARDS
      modifies this`mp, this`ckSessions
      ensures Valid()
      ensures View() == Store.DeleteShards(old(View()), configNum, gone)
    {
      var doomed := Unneeded(shardLastNums, configNum, gone);
      assert doomed == Store.Deletable(View(), configNum, gone);
      mp := DropData(mp, doomed);
      ckSessions := DropSessions(ckSessions, doomed);
    }

    /** applyOp: whether the entry took effect. */
    method ApplyOp(op: Op) returns (ok: bool)
      requires Valid() && OpOk(op)
      modifies this`num, this`shards, this`mp, this`ckSessions, this`shardVec, this`shardLastNums
      ensures Valid()
      ensures ok == (IsClientArgs(op.args) ==> old(shardVec)[op.shard])
      ensures IsClientArgs(op.args) ==>
        && ckSessions == old(ckSessions)
        && View() ==
           if ok then old(View()).(mp := Store.Written(old(mp), op.args.key, WriteOf(op.args))) else old(View())
      ensures ok && op.args.Put? ==> mp == old(mp)[op.args.key := op.args.value]
      ensures ok && op.args.Append? ==>
        mp == old(mp)[op.args.key := Store.Lookup(old(mp), op.args.key) + op.args.value]
      ensures !IsClientArgs(op.args) ==> View() == Meaning(old(View()), op, false)
    {
      ok := true;
      match op.args
      case Get(key) =>
        ok := shardVec[Store.Key2Shard(key)];
      case Put(key, value) =>
        ok := shardVec[Store.Key2Shard(key)];
        if ok {
          mp := mp[key := value];
        }
      case Append(key, value) =>
        ok := shardVec[Store.Key2Shard(key)];
        if ok {
          mp := mp[key := (if key in mp then mp[key] else "") + value];
        }
      case ChangeConfig(newNum, newShards) =>
        ApplyChangeConfig(newNum, newShards);
      case ApplyMovement(configNum, incoming, sessions, moved) =>
        ApplyMovedShards(configNum, incoming, sessions, moved);
      case DeleteShards(configNum, gone) =>
        ApplyDeleteShards(configNum, gone);
      case UpdateShardVec(configNum, newVec) =>
        if num < configNum {
          shardVec := newVec;
        }
    }

    ghost predicate Stale(op: Op)
      reads this
    {
      (op.ck, op.shard) in ckSessions && op.req <= ckSessions[(op.ck, op.shard)].req
    }

    /** Remember the entry as the last one of its client on its shard. */
    method Record(index: int, op: Op)
      requires Valid() && OpOk(op) && index <= lastApplied
      modifies this`ckSessions
      ensures Valid()
      ensures ckSessions == old(ckSessions)[(op.ck, op.shard) := Session(op.number, op.req, op.shard, index)]
      ensures View() == if IsClientArgs(op.args)
                        then old(View()).(sessions := old(View()).sessions[(op.ck, op.shard) := op.req])
                        else old(View())
    {
      var session := Session(op.number, op.req, op.shard, index);
      RequestsUpdate(ckSessions, (op.ck, op.shard), session);
      ckSessions := ckSessions[(op.ck, op.shard) := session];
    }

    /** handleApplyMsg for a command: the server's view of the group becomes what the entry
        means, and the log record keeps the entry's number exactly if it may be answered. */
    method HandleCommand(index: int, op: Op)
      requires Valid() && OpOk(op) && op.number >= 0 && index > lastApplied
      modifies this
      ensures Valid()
      ensures View() == Meaning(old(View()), op, old(Stale(op)))
      ensures lastApplied == index
      ensures var done := old(Stale(op)) || !IsClientArgs(op.args) || old(shardVec)[op.shard];
              && logRecord == old(logRecord)[index := if done then op.number else -1]
              && (done ==> (op.ck, op.shard) in ckSessions
                           && ckSessions[(op.ck, op.shard)] == Session(op.number, op.req, op.shard, index))
    {
      hide Requests, Filed, ArgsOk, WriteOf, Store.Written;
      hide Store.ChangeConfig, Store.ApplyMovement, Store.DeleteShards, Store.UpdateShardVec;
      logRecord := logRecord[index := op.number];
      lastApplied := index;
      var uniKey := (op.ck, op.shard);
      if op.ck >= 0 {
        RequestsAt(ckSessions, uniKey);
      }
      if uniKey in ckSessions && ckSessions[uniKey].index < index && op.req <= ckSessions[uniKey].req {
        Record(index, op);
        return;
      }
      var ok := ApplyOp(op);
      if !ok {
        logRecord := logRecord[index := -1];
      } else {
        Record(index, op);
      }
    }

    /** RequestMapAndSession: answered only once this group has reached the configuration. */
    method RequestMapAndSession(isLeader: bool, configNum: nat, wanted: set<nat>) returns (reply: Reply)
      requires Valid()
      ensures reply.WrongLeader? <==> !isLeader
      ensures reply.LowerConfigNum? <==> isLeader && num < configNum
      ensures reply.Data? ==>
        && reply.mp == Store.DataOf(View().mp, wanted)
        && Requests(reply.sessions) == Store.SessionsOf(View().sessions, wanted)
        && Filed(reply.sessions)
    {
      if !isLeader {
        return WrongLeader;
      }
      if num < configNum {
        return LowerConfigNum;
      }
      var data := SelectData(mp, wanted);
      var sessions := SelectSessions(ckSessions, wanted);
      reply := Data(data, sessions);
    }

    /** The vector of the first phase of a configuration change. */
    method NarrowedVec(nextShards: seq<int>) returns (vec: seq<bool>)
      requires Valid() && |nextShards| == Store.NSHARDS
      ensures |vec| == Store.NSHARDS
      ensures forall s :: 0 <= s < Store.NSHARDS ==>
        vec[s] == ((shards[s] == gid || shards[s] == 0) && nextShards[s] == gid)
    {
      vec := seq(Store.NSHARDS, _ => false);
      for i := 0 to Store.NSHARDS
        invariant |vec| == Store.NSHARDS
        invariant forall s :: 0 <= s < i ==> vec[s] == ((shards[s] == gid || shards[s] == 0) && nextShards[s] == gid)
      {
        vec := vec[i := (shards[i] == gid || shards[i] == 0) && nextShards[i] == gid];
      }
    }

    /** Which shards to fetch from which group: all that this group gains, from their owners. */
    method ReceiveFrom(nextShards: seq<int>) returns (from: map<int, set<nat>>)
      requires Valid() && |nextShards| == Store.NSHARDS
      ensures forall g :: g in from ==> g != gid && from[g] != {} && from[g] == Gained(g, nextShards, Store.NSHARDS)
      ensures forall s: nat :: s < Store.NSHARDS && shards[s] != gid && nextShards[s] == gid ==> shards[s] in from
    {
      from := map[];
      for i := 0 to Store.NSHARDS
        invariant forall g :: g in from ==> g != gid && from[g] != {} && from[g] == Gained(g, nextShards, i)
        invariant forall s: nat :: s < i && shards[s] != gid && nextShards[s] == gid ==> shards[s] in from
      {
        var src := shards[i];
        if src != gid && nextShards[i] == gid {
          assert src !in from ==> Gained(src, nextShards, i) == {};
          from := from[src := (if src in from then from[src] else {}) + {i}];
        }
      }
    }

    ghost function Gained(g: int, nextShards: seq<int>, n: nat): set<nat>
      requires n <= |nextShards| && n <= |shards|
      reads this
    {
      set s: nat | s < n && shards[s] == g && nextShards[s] == gid
    }

    /** Installing a snapshot made by another server of the group gives that server's view. */
    method Install(index: nat, maker: Server)
      requires Valid() && maker.Valid() && maker.lastApplied == index && maker.gid == gid
      modifies this
      ensures Valid() && View() == old(maker.View()) && lastApplied == index
    {
      mp, ckSessions, num, shards := maker.mp, maker.ckSessions, maker.num, maker.shards;
      shardVec, shardLastNums, lastApplied := maker.shardVec, maker.shardLastNums, index;
    }
  }
}
