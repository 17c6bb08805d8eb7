/** When the groups can all reach a configuration (src/shardkv/server.go:411-452, 654-752): a group answers for the
shards that it loses only once it has changed its own configuration, and changes it only once it has all that it
gains, so groups that gain from one another wait forever, and no others do. */
module MigrationProgress {
  import opened ShardStore
  import opened Migration

  /** Between configurations n and n + 1, each of the groups gains a shard from another one of them. */
  ghost predicate Waits(plan: Plan, gids: set<int>, n: nat, circle: set<int>) {
    && (exists g :: g in circle) && circle <= gids
    && forall g :: g in circle ==> GainsFrom(plan, n, g, circle)
  }

  ghost predicate GainsFrom(plan: Plan, n: nat, g: int, others: set<int>) {
    exists s: nat :: s < NSHARDS && Gains(plan, n, g, s) && plan(n, s) in others
  }

  ghost predicate Gains(plan: Plan, n: nat, g: int, s: nat) {
    plan(n, s) != g && plan(n + 1, s) == g
  }

  /** Every group is in the configuration and serves just what that gives it. */
  ghost predicate Settled(plan: Plan, w: World, num: nat) {
    Shaped(w) && forall g :: g in w.groups ==> w.groups[g].num == num && Serves(plan, w, g)
  }

  ghost predicate Serves(plan: Plan, w: World, g: int)
    requires Shaped(w) && g in w.groups
  {
    forall s: nat :: s < NSHARDS ==> (w.groups[g].vec[s] <==> plan(w.groups[g].num, s) == g)
  }

  // ----- runs

  lemma {:induction false} Then(
    plan: Plan, w: World, steps: seq<Step>, mid: World, more: seq<Step>, last: World)
    requires Leads(plan, w, steps, mid) && Leads(plan, mid, more, last)
    ensures Leads(plan, w, steps + more, last)
    decreases |steps|
  {
    hide Enabled, Take, Shaped;
    if steps == [] {
      assert steps + more == more;
    } else {
      assert (steps + more)[1..] == steps[1..] + more;
      Then(plan, Take(plan, w, steps[0]), steps[1..], mid, more, last);
    }
  }

  lemma One(plan: Plan, w: World, step: Step)
    requires Inv(plan, w) && Enabled(plan, w, step)
    ensures Leads(plan, w, [step], Take(plan, w, step)) && Inv(plan, Take(plan, w, step))
  {
    hide Inv, Enabled, Take, Shaped;
    IsShaped(plan, w);
    assert Leads(plan, Take(plan, w, step), [], Take(plan, w, step));
    assert [step][1..] == [];
    StepKeeps(plan, w, step);
  }

  lemma IsShaped(plan: Plan, w: World)
    requires Inv(plan, w)
    ensures Shaped(w) && GoodPlan(plan, w.groups.Keys)
  {}

  lemma Nothing(plan: Plan, w: World)
    ensures Leads(plan, w, [], w)
  {}

  // ----- one group

  /** Only the group has changed. */
  ghost predicate Only(w: World, w': World, g: int) {
    && g in w.groups && w'.groups.Keys == w.groups.Keys
    && forall h :: h in w.groups && h != g ==> w'.groups[h] == w.groups[h]
  }

  /** A source that has reached the next configuration can be asked for a shard, and the answer applied. */
  lemma FetchOne(plan: Plan, w: World, g: int, n: nat, s: nat) returns (steps: seq<Step>, last: World)
    requires Inv(plan, w) && g in w.groups && w.groups[g].num == n >= 1 && s < NSHARDS && Gains(plan, n, g, s)
    requires plan(n, s) in w.groups && w.groups[plan(n, s)].num > n
    ensures Leads(plan, w, steps, last) && Inv(plan, last) && Only(w, last, g) && last.groups[g].num == n
    ensures last.groups[g].Shaped() && last.groups[g].last[s] == n + 1
    ensures forall t :: 0 <= t < NSHARDS && t != s ==> last.groups[g].last[t] == w.groups[g].last[t]
  {
    hide LastOk, VecOk, ChainOk, DataOk, PacketOk, PacketScope, KeysOk, GoodPlan, Leads, DataOf, SessionsOf;
    var src := plan(n, s);
    var h := w.groups[src];
    var fetch := Fetch(src, g, n + 1, {s});
    One(plan, w, fetch);
    var mid := Take(plan, w, fetch);
    var p := Packet(n + 1, src, g, {s}, DataOf(h.mp, {s}), SessionsOf(h.sessions, {s}));
    ApplyOne(plan, mid, p);
    last := Take(plan, mid, Move(p));
    Then(plan, w, [fetch], mid, [Move(p)], last);
    steps := [fetch] + [Move(p)];
  }

  lemma ApplyOne(plan: Plan, w: World, p: Packet)
    requires Inv(plan, w) && p in w.packets && p.dst in w.groups && w.groups[p.dst].num + 1 == p.num
    ensures Enabled(plan, w, Move(p))
    ensures var w' := Take(plan, w, Move(p));
            && Leads(plan, w, [Move(p)], w') && Inv(plan, w') && Only(w, w', p.dst)
            && w'.groups[p.dst].num == w.groups[p.dst].num && w'.groups[p.dst].Shaped()
            && forall t :: 0 <= t < NSHARDS ==>
              w'.groups[p.dst].last[t] == if t in p.moved then p.num else w.groups[p.dst].last[t]
  {
    hide LastOk, VecOk, ChainOk, DataOk, PacketOk, PacketScope, KeysOk, GoodPlan, Leads, Overlay, NewKeys, NewSessions;
    One(plan, w, Move(p));
    MoveEffect(plan, w, p);
  }

  /** All sources have reached the next configuration. */
  ghost predicate SourcesReady(plan: Plan, w: World, g: int, n: nat) {
    forall s: nat :: s < NSHARDS && Gains(plan, n, g, s) ==>
      plan(n, s) in w.groups && w.groups[plan(n, s)].num > n
  }

  ghost predicate HasGained(plan: Plan, w: World, g: int, n: nat, k: nat)
    requires g in w.groups && w.groups[g].Shaped()
  {
    forall s: nat :: s < k && s < NSHARDS && Gains(plan, n, g, s) ==> w.groups[g].last[s] > n
  }

  lemma {:induction false} FetchAll(plan: Plan, w: World, g: int, n: nat, k: nat)
    returns (steps: seq<Step>, last: World)
    requires Inv(plan, w) && g in w.groups && w.groups[g].num == n >= 1 && k <= NSHARDS && w.groups[g].Shaped()
    requires SourcesReady(plan, w, g, n) && HasGained(plan, w, g, n, k)
    ensures Leads(plan, w, steps, last) && Inv(plan, last) && Only(w, last, g) && last.groups[g].num == n
    ensures last.groups[g].Shaped() && HasGained(plan, last, g, n, NSHARDS)
    decreases NSHARDS - k
  {
    hide Inv, Leads, GoodPlan;
    if k == NSHARDS {
      Nothing(plan, w);
      return [], w;
    }
    var a, mid := [], w;
    Nothing(plan, w);
    if Gains(plan, n, g, k) {
      a, mid := FetchOne(plan, w, g, n, k);
    }
    var b;
    b, last := FetchAll(plan, mid, g, n, k + 1);
    Then(plan, w, a, mid, b, last);
    steps := a + b;
  }

  /** A group that has all that it gains adopts the next configuration. */
  lemma AdoptNext(plan: Plan, w: World, g: int, n: nat)
    requires Inv(plan, w) && g in w.groups && w.groups[g].num == n && w.groups[g].Shaped()
    requires n >= 1 ==> HasGained(plan, w, g, n, NSHARDS)
    ensures Enabled(plan, w, Adopt(g))
    ensures var w' := Take(plan, w, Adopt(g));
            && Leads(plan, w, [Adopt(g)], w') && Inv(plan, w') && Only(w, w', g)
            && w'.groups[g].num == n + 1 && Shaped(w') && Serves(plan, w', g)
  {
    hide LastOk, VecOk, ChainOk, DataOk, PacketOk, PacketScope, KeysOk, GoodPlan, Leads;
    One(plan, w, Adopt(g));
  }

  /** So a group whose sources are ready can go on to the next configuration. */
  lemma Advance(plan: Plan, w: World, g: int, n: nat) returns (steps: seq<Step>, last: World)
    requires Inv(plan, w) && g in w.groups && w.groups[g].num == n
    requires n >= 1 ==> SourcesReady(plan, w, g, n)
    ensures Leads(plan, w, steps, last) && Inv(plan, last) && Only(w, last, g)
    ensures last.groups[g].num == n + 1 && Shaped(last) && Serves(plan, last, g)
  {
    hide Inv, Leads, Enabled, Take, Serves, HasGained, SourcesReady;
    IsShaped(plan, w);
    var a, mid := [], w;
    Nothing(plan, w);
    if n >= 1 {
      NothingGained(plan, w, g, n);
      a, mid := FetchAll(plan, w, g, n, 0);
    }
    IsShaped(plan, mid);
    AdoptNext(plan, mid, g, n);
    last := Take(plan, mid, Adopt(g));
    Then(plan, w, a, mid, [Adopt(g)], last);
    steps := a + [Adopt(g)];
  }

  lemma NothingGained(plan: Plan, w: World, g: int, n: nat)
    requires g in w.groups && w.groups[g].Shaped()
    ensures HasGained(plan, w, g, n, 0)
  {}

  // ----- all groups

  ghost function Low(w: World, n: nat): set<int> {
    set g | g in w.groups && w.groups[g].num == n
  }

  /** Who was above n is as before; who was at n is at n + 1 and serves what it should. */
  ghost predicate Raised(plan: Plan, w: World, w': World, n: nat) {
    && Shaped(w') && w'.groups.Keys == w.groups.Keys
    && forall g :: g in w.groups ==>
      if w.groups[g].num == n then w'.groups[g].num == n + 1 && Serves(plan, w', g)
      else w'.groups[g] == w.groups[g]
  }

  /** Of the lowest groups, one does not wait for another of them. */
  lemma SomeoneIsReady(plan: Plan, w: World, n: nat) returns (g: int)
    requires Inv(plan, w) && forall g :: g in w.groups ==> w.groups[g].num >= n
    requires exists g :: g in Low(w, n)
    requires n >= 1 ==> !Waits(plan, w.groups.Keys, n, Low(w, n))
    ensures g in Low(w, n) && (n >= 1 ==> SourcesReady(plan, w, g, n))
  {
    hide LastOk, VecOk, ChainOk, DataOk, PacketOk, PacketScope, KeysOk, Shaped;
    var low := Low(w, n);
    if n == 0 {
      g :| g in low;
    } else {
      g :| g in low && !GainsFrom(plan, n, g, low);
      forall s: nat | s < NSHARDS && Gains(plan, n, g, s)
        ensures plan(n, s) in w.groups && w.groups[plan(n, s)].num > n
      {
        var h := plan(n, s);
        assert h in w.groups && h !in low;
      }
    }
  }

  lemma {:induction false} AdvanceAll(plan: Plan, w: World, n: nat) returns (steps: seq<Step>, last: World)
    requires Inv(plan, w) && forall g :: g in w.groups ==> w.groups[g].num >= n
    requires n >= 1 ==> forall circle :: !Waits(plan, w.groups.Keys, n, circle)
    ensures Leads(plan, w, steps, last) && Inv(plan, last) && Raised(plan, w, last, n)
    decreases |Low(w, n)|
  {
    hide Inv, Leads, Waits, SourcesReady, Serves;
    IsShaped(plan, w);
    if forall g :: g in w.groups ==> g !in Low(w, n) {
      Nothing(plan, w);
      return [], w;
    }
    var g := SomeoneIsReady(plan, w, n);
    var a, mid := Advance(plan, w, g, n);
    LowerByOne(w, mid, n, g);
    var b;
    b, last := AdvanceAll(plan, mid, n);
    Then(plan, w, a, mid, b, last);
    steps := a + b;
    forall h | h in w.groups
      ensures if w.groups[h].num == n then last.groups[h].num == n + 1 && Serves(plan, last, h)
              else last.groups[h] == w.groups[h]
    {
      if h == g {
        SameServes(plan, mid, last, g);
      }
    }
  }

  lemma LowerByOne(w: World, w': World, n: nat, g: int)
    requires Only(w, w', g) && g in Low(w, n) && w'.groups[g].num == n + 1
    ensures |Low(w', n)| < |Low(w, n)|
  {
    var low, low' := Low(w, n), Low(w', n);
    forall h
      ensures h in low' <==> h in low - {g}
    {}
    assert low' == low - {g};
  }

  lemma SameServes(plan: Plan, w: World, w': World, g: int)
    requires Shaped(w) && Shaped(w') && g in w.groups && g in w'.groups && w'.groups[g] == w.groups[g]
    ensures Serves(plan, w', g) <==> Serves(plan, w, g)
  {}

  /** No groups wait for one another on the way to a configuration. */
  ghost predicate WayIsFree(plan: Plan, gids: set<int>, num: nat) {
    forall n: nat, circle :: 1 <= n < num ==> !Waits(plan, gids, n, circle)
  }

  lemma {:induction false} AdvanceTo(plan: Plan, w: World, n: nat, num: nat)
    returns (steps: seq<Step>, last: World)
    requires Inv(plan, w) && Shaped(w) && n <= num && WayIsFree(plan, w.groups.Keys, num)
    requires forall g :: g in w.groups ==>
               n <= w.groups[g].num <= num && (w.groups[g].num == num ==> Serves(plan, w, g))
    ensures Leads(plan, w, steps, last) && Inv(plan, last) && Settled(plan, last, num)
    ensures last.groups.Keys == w.groups.Keys
    decreases num - n
  {
    hide Inv, Leads, Waits, Serves;
    if n == num {
      Nothing(plan, w);
      return [], w;
    }
    var a, mid := AdvanceAll(plan, w, n);
    forall g | g in mid.groups
      ensures n + 1 <= mid.groups[g].num <= num && (mid.groups[g].num == num ==> Serves(plan, mid, g))
    {
      if w.groups[g].num != n {
        SameServes(plan, w, mid, g);
      }
    }
    var b;
    b, last := AdvanceTo(plan, mid, n + 1, num);
    Then(plan, w, a, mid, b, last);
    steps := a + b;
  }

  // ----- groups that wait for one another

  ghost predicate NoneBeyond(w: World, n: nat, circle: set<int>) {
    forall g :: g in circle && g in w.groups ==> w.groups[g].num <= n
  }

  lemma NumAfter(plan: Plan, w: World, step: Step, g: int)
    requires Shaped(w) && Enabled(plan, w, step) && g in w.groups
    ensures g in Take(plan, w, step).groups
    ensures Take(plan, w, step).groups[g].num == w.groups[g].num + if step.Adopt? && step.gid == g then 1 else 0
  {}

  /** Whoever gains from a group that has not reached the next configuration may not adopt it. */
  lemma MayNotAdopt(plan: Plan, w: World, g: int, n: nat, circle: set<int>)
    requires Inv(plan, w) && g in w.groups && w.groups[g].num == n >= 1
    requires GainsFrom(plan, n, g, circle) && circle <= w.groups.Keys && NoneBeyond(w, n, circle)
    ensures !Enabled(plan, w, Adopt(g))
  {
    hide VecOk, DataOk, PacketOk, PacketScope, KeysOk, GoodPlan;
    var s: nat :| s < NSHARDS && Gains(plan, n, g, s) && plan(n, s) in circle;
    assert LastOk(plan, w, g, s) && ChainOk(plan, w, s);
    assert w.groups[g].last[s] > n ==> NumOf(w, plan(n, s)) > n;
  }

  lemma CircleStays(plan: Plan, w: World, step: Step, n: nat, circle: set<int>)
    requires Inv(plan, w) && Enabled(plan, w, step) && n >= 1
    requires Waits(plan, w.groups.Keys, n, circle) && NoneBeyond(w, n, circle)
    ensures NoneBeyond(Take(plan, w, step), n, circle)
  {
    hide Inv, Enabled, Take, GainsFrom, GoodPlan;
    IsShaped(plan, w);
    SameGroups(plan, w, step);
    forall g | g in circle && g in w.groups
      ensures g in Take(plan, w, step).groups && Take(plan, w, step).groups[g].num <= n
    {
      NumAfter(plan, w, step, g);
      if step == Adopt(g) && w.groups[g].num == n {
        MayNotAdopt(plan, w, g, n, circle);
      }
    }
  }

  lemma SameGroups(plan: Plan, w: World, step: Step)
    requires Shaped(w) && Enabled(plan, w, step)
    ensures Take(plan, w, step).groups.Keys == w.groups.Keys
  {}

  lemma {:induction false} CircleNeverGoesOn(
    plan: Plan, w: World, steps: seq<Step>, last: World, n: nat, circle: set<int>)
    requires Inv(plan, w) && Leads(plan, w, steps, last) && n >= 1
    requires Waits(plan, w.groups.Keys, n, circle) && NoneBeyond(w, n, circle)
    ensures NoneBeyond(last, n, circle) && last.groups.Keys == w.groups.Keys
    decreases |steps|
  {
    hide Inv, Enabled, Take, Waits, NoneBeyond, Shaped;
    if steps != [] {
      CircleStays(plan, w, steps[0], n, circle);
      SameGroups(plan, w, steps[0]);
      StepKeeps(plan, w, steps[0]);
      CircleNeverGoesOn(plan, Take(plan, w, steps[0]), steps[1..], last, n, circle);
    }
  }

  ghost predicate CanSettle(plan: Plan, w: World, num: nat) {
    exists steps, last :: Leads(plan, w, steps, last) && last.groups.Keys == w.groups.Keys && Settled(plan, last, num)
  }

  /** From every reachable world, all groups can come to a later configuration, each serving just the shards
      that it has there, exactly if on the way no groups gain shards from one another in a circle. */
  lemma CanSettleIff(plan: Plan, first: World, before: seq<Step>, w: World, num: nat)
    requires Initial(first) && GoodPlan(plan, first.groups.Keys) && Leads(plan, first, before, w)
    requires forall g :: g in w.groups ==> w.groups[g].num < num
    ensures CanSettle(plan, w, num) <==> WayIsFree(plan, w.groups.Keys, num)
  {
    hide Inv, Leads, Waits, Serves, GoodPlan;
    InitialInv(plan, first);
    RunsKeep(plan, first, before, w);
    IsShaped(plan, w);
    if WayIsFree(plan, w.groups.Keys, num) {
      var steps, last := AdvanceTo(plan, w, 0, num);
    }
    if CanSettle(plan, w, num) {
      var steps, last :|
        Leads(plan, w, steps, last) && last.groups.Keys == w.groups.Keys && Settled(plan, last, num);
      forall n: nat, circle | 1 <= n < num
        ensures !Waits(plan, w.groups.Keys, n, circle)
      {
        if Waits(plan, w.groups.Keys, n, circle) {
          Blocked(plan, first, before, w, steps, last, n, circle, num);
        }
      }
    }
  }

  lemma Blocked(plan: Plan, first: World, before: seq<Step>, w: World, steps: seq<Step>, last: World, n: nat,
                circle: set<int>, num: nat)
    requires Initial(first) && Inv(plan, first) && Leads(plan, first, before, w) && Leads(plan, w, steps, last)
    requires 1 <= n < num && Waits(plan, w.groups.Keys, n, circle) && w.groups.Keys == last.groups.Keys
    ensures !Settled(plan, last, num)
  {
    hide Inv, Leads, GoodPlan;
    Then(plan, first, before, w, steps, last);
    KeysStay(plan, first, before, w);
    CircleNeverGoesOn(plan, first, before + steps, last, n, circle);
    var g :| g in circle;
    assert g in last.groups && last.groups[g].num <= n;
  }

  lemma {:induction false} KeysStay(plan: Plan, w: World, steps: seq<Step>, last: World)
    requires Leads(plan, w, steps, last)
    ensures last.groups.Keys == w.groups.Keys
    decreases |steps|
  {
    hide Enabled, Take, Shaped;
    if steps != [] {
      SameGroups(plan, w, steps[0]);
      KeysStay(plan, Take(plan, w, steps[0]), steps[1..], last);
    }
  }
}
