/** What a client finds in the sharded store (src/shardkv/server.go:282-315): under every key, in the group
that serves its shard, exactly what the Puts and Appends that took effect anywhere have left. */
module StoredValues {
  import opened ShardStore
  import opened Migration
  import opened MigrationRuns
  import WriteLog

  function WriteOf(a: Applied): WriteLog.Write {
    match a.write
    case Read => WriteLog.NoWrite
    case Set(value) => WriteLog.Put(a.key, value)
    case Extend(value) => WriteLog.Append(a.key, value)
  }

  function WritesOf(h: seq<Applied>): (writes: seq<WriteLog.Write>)
    ensures |writes| == |h|
  {
    seq(|h|, i requires 0 <= i < |h| => WriteOf(h[i]))
  }

  lemma {:induction false} ReplayLast(mp: map<string, string>, h: seq<Applied>, a: Applied)
    ensures Replay(mp, h + [a]) == Written(Replay(mp, h), a.key, a.write)
    decreases |h|
  {
    if h == [] {
      assert (h + [a])[1..] == [];
    } else {
      assert (h + [a])[1..] == h[1..] + [a];
      ReplayLast(Written(mp, h[0].key, h[0].write), h[1..], a);
    }
  }

  lemma WrittenHolds(mp: map<string, string>, writes: seq<WriteLog.Write>, a: Applied)
    requires WriteLog.Holds(mp, writes)
    ensures WriteLog.Holds(Written(mp, a.key, a.write), writes + [WriteOf(a)])
  {
    hide WriteLog.Touches, WriteLog.ValueOf;
    forall key
      ensures var mp' := Written(mp, a.key, a.write);
              && (key in mp' <==> WriteLog.Touches(writes + [WriteOf(a)], key))
              && (key in mp' ==> mp'[key] == WriteLog.ValueOf(writes + [WriteOf(a)], key))
    {
      WriteLog.TouchesNext(writes, WriteOf(a), key);
      WriteLog.ValueNext(writes, WriteOf(a), key);
      if !WriteLog.Touches(writes, key) {
        WriteLog.UntouchedIsEmpty(writes, key);
      }
    }
  }

  lemma {:induction false} ReplayHolds(h: seq<Applied>)
    ensures WriteLog.Holds(Replay(map[], h), WritesOf(h))
    decreases |h|
  {
    if h != [] {
      var n := |h| - 1;
      assert h == h[..n] + [h[n]];
      ReplayHolds(h[..n]);
      ReplayLast(map[], h[..n], h[n]);
      WrittenHolds(Replay(map[], h[..n]), WritesOf(h[..n]), h[n]);
      assert WritesOf(h) == WritesOf(h[..n]) + [WriteOf(h[n])];
    }
  }

  /** In every reachable world, and for every key, the group that serves its shard has under it the value
      of the last Put that took effect followed by the Appends that took effect since, across all groups
      and moves, and nothing if there were none. */
  lemma StoredIsWhatWasWritten(plan: Plan, w: World, steps: seq<Step>, last: World, g: int, key: string)
    requires Initial(w) && GoodPlan(plan, w.groups.Keys) && Leads(plan, w, steps, last) && Shaped(last)
    requires g in last.groups && last.groups[g].vec[Key2Shard(key)]
    ensures var mp, writes := last.groups[g].mp, WritesOf(History(plan, w, steps));
            && (key in mp <==> WriteLog.Touches(writes, key))
            && (key in mp ==> mp[key] == WriteLog.ValueOf(writes, key))
  {
    var h := History(plan, w, steps);
    ShardedStoreRefinesOneMap(plan, w, steps, last, g, Key2Shard(key));
    ReplayHolds(h);
  }

  // ----- which requests take effect

  ghost function StreamOf(a: Applied): SessionKey {
    (a.ck, Key2Shard(a.key))
  }

  /** What is remembered of the requests after a history. */
  ghost function Remembered(seen: map<SessionKey, int>, h: seq<Applied>): map<SessionKey, int>
    decreases |h|
  {
    if h == [] then seen else Remembered(seen[StreamOf(h[0]) := h[0].req], h[1..])
  }

  lemma {:induction false} SeenIsRemembered(plan: Plan, w: World, steps: seq<Step>, last: World)
    requires Leads(plan, w, steps, last)
    ensures last.seen == Remembered(w.seen, History(plan, w, steps))
    decreases |steps|
  {
    hide Enabled, Take, TakesEffect;
    if steps != [] {
      var w', rest := Take(plan, w, steps[0]), History(plan, Take(plan, w, steps[0]), steps[1..]);
      SeenIsRemembered(plan, w', steps[1..], last);
      SeenAfter(plan, w, steps[0]);
      if TakesEffect(w, steps[0]) {
        assert History(plan, w, steps)[1..] == rest;
      } else {
        assert History(plan, w, steps) == rest;
      }
    }
  }

  ghost predicate Bounds(h: seq<Applied>, k: SessionKey, req: int) {
    forall i :: 0 <= i < |h| && StreamOf(h[i]) == k ==> h[i].req <= req
  }

  ghost predicate Occurs(h: seq<Applied>, k: SessionKey, req: int) {
    exists i :: 0 <= i < |h| && StreamOf(h[i]) == k && h[i].req == req
  }

  /** With increasing requests, what is remembered is the greatest one. */
  lemma {:induction false} RememberedIsGreatest(seen: map<SessionKey, int>, h: seq<Applied>, k: SessionKey)
    requires Increasing(seen, h)
    ensures var r := Remembered(seen, h);
            if k in r then Bounds(h, k, r[k]) && (Occurs(h, k, r[k]) || (k in seen && r[k] == seen[k]))
            else k !in seen && forall i :: 0 <= i < |h| ==> StreamOf(h[i]) != k
    ensures k in seen ==> k in Remembered(seen, h) && seen[k] <= Remembered(seen, h)[k]
    decreases |h|
  {
    if h != [] {
      var seen', rest, r := seen[StreamOf(h[0]) := h[0].req], h[1..], Remembered(seen, h);
      RestIncreases(seen, h);
      RememberedIsGreatest(seen', rest, k);
      if k in r {
        assert forall i :: 0 <= i < |rest| ==> rest[i] == h[i + 1];
        if Occurs(rest, k, r[k]) {
          var i :| 0 <= i < |rest| && StreamOf(rest[i]) == k && rest[i].req == r[k];
          assert h[i + 1] == rest[i];
        }
        forall i | 0 <= i < |h| && StreamOf(h[i]) == k
          ensures h[i].req <= r[k]
        {
          assert i > 0 ==> h[i] == rest[i - 1];
        }
      } else {
        forall i | 0 <= i < |h|
          ensures StreamOf(h[i]) != k
        {
          assert i > 0 ==> h[i] == rest[i - 1];
        }
      }
    }
  }

  lemma RestIncreases(seen: map<SessionKey, int>, h: seq<Applied>)
    requires h != [] && Increasing(seen, h)
    ensures Newer(seen, h[0]) && Increasing(seen[StreamOf(h[0]) := h[0].req], h[1..])
  {
    var seen', rest := seen[StreamOf(h[0]) := h[0].req], h[1..];
    forall j | 0 <= j < |rest|
      ensures Newer(seen', rest[j])
    {
      assert rest[j] == h[j + 1] && Newer(seen, h[j + 1]);
      assert SameStream(h[0], h[j + 1]) ==> h[0].req < h[j + 1].req;
    }
    forall i, j | 0 <= i < j < |rest| && SameStream(rest[i], rest[j])
      ensures rest[i].req < rest[j].req
    {
      assert rest[i] == h[i + 1] && rest[j] == h[j + 1];
    }
  }

  /** In every reachable world a client's request takes effect exactly if the group serves the shard and
      the request is above all of the client that took effect on the shard, in whatever group. */
  lemma TakesEffectIffNew(plan: Plan, w: World, steps: seq<Step>, last: World, step: Step)
    requires Initial(w) && GoodPlan(plan, w.groups.Keys) && Leads(plan, w, steps, last) && Shaped(last)
    requires step.Request? && step.gid in last.groups
    ensures var h, s := History(plan, w, steps), Key2Shard(step.key);
            TakesEffect(last, step) <==>
            last.groups[step.gid].vec[s] &&
            forall i :: 0 <= i < |h| && h[i].ck == step.ck && Key2Shard(h[i].key) == s ==> h[i].req < step.req
  {
    hide Leads, Inv, Key2Shard, Enabled, Take, GoodPlan, Increasing, Remembered;
    var h, s := History(plan, w, steps), Key2Shard(step.key);
    var k := (step.ck, s);
    if last.groups[step.gid].vec[s] {
      InitialInv(plan, w);
      AtMostOnce(plan, w, steps, last);
      SeenIsRemembered(plan, w, steps, last);
      RememberedIsGreatest(w.seen, h, k);
      ShardedStoreRefinesOneMap(plan, w, steps, last, step.gid, s);
      SameSession(last.groups[step.gid].sessions, last.seen, step.ck, s);
      if k in last.seen && last.seen[k] < step.req {
        forall i | 0 <= i < |h| && h[i].ck == step.ck && Key2Shard(h[i].key) == s
          ensures h[i].req < step.req
        {
          assert StreamOf(h[i]) == k;
        }
      }
    }
  }

  lemma SameSession(a: map<SessionKey, int>, b: map<SessionKey, int>, ck: int, s: nat)
    requires SameSessions(a, b, s)
    ensures ((ck, s) in a <==> (ck, s) in b) && ((ck, s) in a ==> a[(ck, s)] == b[(ck, s)])
  {}
}
