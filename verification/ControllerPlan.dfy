/** The configurations of the shard controller are a plan for the sharded store
(src/shardctrler/server.go:302-374, src/shardkv/server.go:654-752). */
module ControllerPlan {
  import opened Allocation
  import opened ShardController
  import Store = ShardStore
  import Migration
  import MigrationRuns
  import Progress = MigrationProgress

  /** Who owns a shard in a configuration; after the last one nothing changes. */
  function PlanOf(configs: seq<Config>): Migration.Plan
    requires configs != []
  {
    (n: nat, s: nat) =>
      var shards := configs[if n < |configs| then n else |configs| - 1].shards;
      if s < |shards| then shards[s] else 0
  }

  /** There is always some group, and shards are moved by hand only to groups that exist. */
  ghost predicate KeepsGroups(ops: seq<Op>, configs: seq<Config>)
    decreases |ops|
  {
    ops == [] ||
    var n, m := |ops| - 1, |configs| - 1;
    if ops[n].Query? then KeepsGroups(ops[..n], configs)
    else
      && m >= 0 && KeepsGroups(ops[..n], configs[..m])
      && configs[m].groups != map[] && (ops[n].Move? ==> ops[n].gid in configs[m].groups)
  }

  ghost predicate AllServed(configs: seq<Config>) {
    forall i :: 1 <= i < |configs| ==> Within(configs[i].shards, configs[i].groups.Keys)
  }

  lemma {:induction false} HistoryServes(ops: seq<Op>, configs: seq<Config>)
    requires History(ops, configs) && KeepsGroups(ops, configs)
    ensures AllServed(configs) && configs != [] && configs[0] == FirstConfig()
    decreases |ops|
  {
    hide Follows, Within;
    if ops != [] {
      var n, m := |ops| - 1, |configs| - 1;
      if ops[n].Query? {
        HistoryServes(ops[..n], configs);
      } else {
        HistoryServes(ops[..n], configs[..m]);
        assert configs[..m][m - 1] == configs[m - 1] && configs[..m][0] == configs[0];
        NextServes(configs[m - 1], ops[n], configs[m], m);
        forall i | 1 <= i < |configs|
          ensures Within(configs[i].shards, configs[i].groups.Keys)
        {
          assert i < m ==> configs[..m][i] == configs[i];
        }
      }
    }
  }

  /** A Move cannot make the first configuration, since then there is no group. */
  lemma NextServes(before: Config, op: Op, after: Config, m: nat)
    requires Follows(before, op, after) && after.groups != map[] && (op.Move? ==> op.gid in after.groups)
    requires m >= 1 && (m > 1 ==> Within(before.shards, before.groups.Keys)) && (m == 1 ==> before == FirstConfig())
    ensures Within(after.shards, after.groups.Keys)
  {
    if !op.Move? {
      RebalanceBalances(before.shards, after.groups.Keys, after.shards);
    }
  }

  /** Every history of the controller in which there is always some group, and shards are moved by hand
      only to groups that exist, is a plan as the sharded store needs it. */
  lemma ControllerGivesGoodPlan(ops: seq<Op>, configs: seq<Config>, gids: set<int>)
    requires History(ops, configs) && KeepsGroups(ops, configs) && |configs| > 1
    requires 0 !in gids && forall i, g :: 0 <= i < |configs| && g in configs[i].groups ==> g in gids
    ensures Migration.GoodPlan(PlanOf(configs), gids)
  {
    HistoryServes(ops, configs);
    HistoryIsNumbered(ops, configs);
    var plan := PlanOf(configs);
    forall n: nat, s: nat | n >= 1 && s < Store.NSHARDS
      ensures plan(n, s) in gids
    {
      var i := if n < |configs| then n else |configs| - 1;
      assert Within(configs[i].shards, configs[i].groups.Keys);
      var g := configs[i].shards[s];
      assert g in configs[i].groups;
    }
  }

  /** So the store under the controller has one server per shard. */
  lemma ControlledStoreHasOneServer(
    ops: seq<Op>, configs: seq<Config>, w: Migration.World, steps: seq<Migration.Step>, last: Migration.World,
    g: int, h: int, s: nat)
    requires History(ops, configs) && KeepsGroups(ops, configs) && |configs| > 1
    requires forall i, k :: 0 <= i < |configs| && k in configs[i].groups ==> k in w.groups
    requires Migration.Initial(w) && 0 !in w.groups
    requires configs != [] && Migration.Leads(PlanOf(configs), w, steps, last)
    requires Migration.Shaped(last) && s < Store.NSHARDS
    requires g in last.groups && last.groups[g].vec[s] && h in last.groups && last.groups[h].vec[s]
    ensures g == h
  {
    ControllerGivesGoodPlan(ops, configs, w.groups.Keys);
    MigrationRuns.OneServerPerShard(PlanOf(configs), w, steps, last, g, h, s);
  }

  // ----- nobody waits in a circle

  /** Each configuration after the first comes from the one before by an operation that changes it. */
  ghost predicate Comes(before: Config, after: Config) {
    exists op: Op :: !op.Query? && Follows(before, op, after)
  }

  lemma {:induction false} ConfigComes(ops: seq<Op>, configs: seq<Config>, i: nat)
    requires History(ops, configs) && i + 1 < |configs|
    ensures Comes(configs[i], configs[i + 1])
    decreases |ops|
  {
    hide Follows;
    if ops != [] {
      var n, m := |ops| - 1, |configs| - 1;
      if ops[n].Query? {
        ConfigComes(ops[..n], configs, i);
      } else if i + 1 < m {
        ConfigComes(ops[..n], configs[..m], i);
        assert configs[..m][i] == configs[i] && configs[..m][i + 1] == configs[i + 1];
      }
    }
  }

  /** A group that loses a shard gains none. */
  lemma LoserGainsNothing(before: Config, op: Op, after: Config, s: nat, t: nat)
    requires Follows(before, op, after) && !op.Query?
    requires s < |before.shards| && s < |after.shards| && t < |before.shards| && t < |after.shards|
    requires before.shards[s] != 0 && after.shards[s] != before.shards[s] && before.shards[t] != before.shards[s]
    ensures after.shards[t] != before.shards[s]
  {
    hide IsRebalanced;
    if !op.Move? {
      SourcesDoNotWait(before, op, after, s, t);
    }
  }

  ghost predicate OneWay(plan: Migration.Plan, n: nat, s: nat, t: nat) {
    plan(n, s) != 0 && plan(n + 1, s) != plan(n, s) && plan(n, t) != plan(n, s) ==> plan(n + 1, t) != plan(n, s)
  }

  lemma PlanIsOneWay(ops: seq<Op>, configs: seq<Config>, n: nat, s: nat, t: nat)
    requires History(ops, configs) && configs != [] && s < Store.NSHARDS && t < Store.NSHARDS
    ensures OneWay(PlanOf(configs), n, s, t)
  {
    hide Follows, History;
    HistoryIsNumbered(ops, configs);
    var plan := PlanOf(configs);
    if n + 1 < |configs| && plan(n, s) != 0 && plan(n + 1, s) != plan(n, s) && plan(n, t) != plan(n, s) {
      ConfigComes(ops, configs, n);
      var op: Op :| !op.Query? && Follows(configs[n], op, configs[n + 1]);
      LoserGainsNothing(configs[n], op, configs[n + 1], s, t);
    }
  }

  lemma OneWayHasNoCircle(plan: Migration.Plan, gids: set<int>, n: nat, circle: set<int>)
    requires 0 !in gids && forall s: nat, t: nat :: s < Store.NSHARDS && t < Store.NSHARDS ==> OneWay(plan, n, s, t)
    ensures !Progress.Waits(plan, gids, n, circle)
  {
    hide OneWay;
    if Progress.Waits(plan, gids, n, circle) {
      var g :| g in circle;
      assert Progress.GainsFrom(plan, n, g, circle);
      var s: nat :| s < Store.NSHARDS && Progress.Gains(plan, n, g, s) && plan(n, s) in circle;
      assert Progress.GainsFrom(plan, n, plan(n, s), circle);
      var t: nat :| t < Store.NSHARDS && Progress.Gains(plan, n, plan(n, s), t) && plan(n, t) in circle;
      NotBoth(plan, n, s, t);
    }
  }

  lemma NotBoth(plan: Migration.Plan, n: nat, s: nat, t: nat)
    requires OneWay(plan, n, s, t) && plan(n, s) != 0 && plan(n + 1, s) != plan(n, s)
    ensures !Progress.Gains(plan, n, plan(n, s), t)
  {}

  /** Under the controller no groups ever gain shards from one another in a circle. */
  lemma NobodyWaits(ops: seq<Op>, configs: seq<Config>, gids: set<int>, n: nat, circle: set<int>)
    requires History(ops, configs) && configs != [] && 0 !in gids
    ensures !Progress.Waits(PlanOf(configs), gids, n, circle)
  {
    hide History, OneWay, Progress.Waits;
    forall s: nat, t: nat | s < Store.NSHARDS && t < Store.NSHARDS
      ensures OneWay(PlanOf(configs), n, s, t)
    {
      PlanIsOneWay(ops, configs, n, s, t);
    }
    OneWayHasNoCircle(PlanOf(configs), gids, n, circle);
  }

  /** So the store under the controller can always come to every configuration, all shards served. */
  lemma ControlledStoreCanSettle(
    ops: seq<Op>, configs: seq<Config>, first: Migration.World, before: seq<Migration.Step>, w: Migration.World,
    num: nat)
    requires History(ops, configs) && KeepsGroups(ops, configs) && |configs| > 1
    requires forall i, k :: 0 <= i < |configs| && k in configs[i].groups ==> k in first.groups
    requires Migration.Initial(first) && 0 !in first.groups
    requires configs != [] && Migration.Leads(PlanOf(configs), first, before, w)
    requires forall g :: g in w.groups ==> w.groups[g].num < num
    ensures Progress.CanSettle(PlanOf(configs), w, num)
  {
    hide History, KeepsGroups, Migration.Leads, Progress.Waits;
    var plan := PlanOf(configs);
    ControllerGivesGoodPlan(ops, configs, first.groups.Keys);
    Progress.KeysStay(plan, first, before, w);
    Progress.CanSettleIff(plan, first, before, w, num);
    forall n: nat, circle | 1 <= n < num
      ensures !Progress.Waits(plan, w.groups.Keys, n, circle)
    {
      NobodyWaits(ops, configs, w.groups.Keys, n, circle);
    }
  }
}
