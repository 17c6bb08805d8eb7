/** A run after which a follower is stuck (src/raft/raft.go:912-1002): an old leader that lags behind by one entry
and has an entry of its own that was never replicated, while the new leader has trimmed its log to the entry that
the old one would apply next. */
module RaftStuck {
  import opened RaftNode
  import opened RaftWorld
  import opened RaftSafety
  import opened RaftMarks
  import opened RaftCatchUp
  import opened RaftProgress
  import opened RaftCommits

  function Own(term: nat): Entry {
    Entry(term, Noop)
  }

  function Said(value: int): Entry {
    Entry(2, Normal(value))
  }

  /** The old leader, its log, and how much it knows to be committed and replicated. */
  function Old(log: Log, commit: nat, matched: seq<nat>): Node {
    FirstNode(3).(role := Leader, term := 2, vote := 0, log := log, commit := commit, applied := commit,
                  matched := matched)
  }

  /** Its follower. */
  function Heir(log: Log, commit: nat): Node {
    FirstNode(3).(term := 2, vote := 0, log := log, commit := commit)
  }

  /** The follower as the new leader. */
  function New(commit: nat, applied: nat, base: nat, snap: nat, queue: seq<Msg>, matched: seq<nat>): Node {
    FirstNode(3).(role := Leader, term := 3, vote := 1, log := [Sentinel(), Own(2), Said(1), Own(3)],
                  commit := commit, applied := applied, base := base, snap := snap, queue := queue,
                  matched := matched)
  }

  lemma And(first: World, steps: seq<Step>, w: World, step: Step)
    requires Leads(first, steps, w) && Sound(w) && Enabled(w, step)
    ensures Leads(first, steps + [step], Take(w, step)) && Sound(Take(w, step))
  {
    hide Leads, Inv, Marks, Shaped, Enabled, Take;
    Next(w, step);
    Then(first, steps, w, [step], Take(w, step));
  }

  lemma Begins(first: World)
    requires Initial(first) && |first.nodes| == 3
    ensures Sound(first) && first.nodes == [FirstNode(3), FirstNode(3), FirstNode(3)] && Leads(first, [], first)
  {
    InitialInv(first);
    InvShaped(first);
  }

  /** Server 0 is elected in term 2. */
  lemma FirstReign(first: World) returns (steps: seq<Step>, w: World)
    requires Initial(first) && |first.nodes| == 3
    ensures Leads(first, steps, w) && Sound(w)
    ensures w.nodes == [Old([Sentinel(), Own(2)], 0, [1, 0, 0]), Heir([Sentinel()], 0), FirstNode(3)]
  {
    hide Leads, Inv, Marks, Shaped;
    Begins(first);
    var n := FirstNode(3);
    And(first, [], first, Timeout(0));
    var w1 := Take(first, Timeout(0));
    steps := [] + [Timeout(0)];
    And(first, steps, w1, Elect(0));
    var w2 := Take(w1, Elect(0));
    steps := steps + [Elect(0)];
    assert w2.cand(0, 2) == [Sentinel()] && w2.vote(0, 2) == 0;
    And(first, steps, w2, Vote(1, 0, 2));
    var w3 := Take(w2, Vote(1, 0, 2));
    steps := steps + [Vote(1, 0, 2)];
    assert w3.nodes[1] == Heir([Sentinel()], 0) && w3.vote(1, 2) == 0 && w3.vote(0, 2) == 0;
    And(first, steps, w3, Win(0, {0, 1}));
    w := Take(w3, Win(0, {0, 1}));
    steps := steps + [Win(0, {0, 1})];
    assert w.nodes[0].matched == [1, 0, 0];
    assert w.nodes[0] == Old([Sentinel(), Own(2)], 0, [1, 0, 0]) && w.nodes[1] == w3.nodes[1];
  }

  /** It gives its first entry to server 1. */
  lemma FirstAppend(first: World, before: seq<Step>, w0: World) returns (steps: seq<Step>, w: World)
    requires Leads(first, before, w0) && Sound(w0)
    requires w0.nodes == [Old([Sentinel(), Own(2)], 0, [1, 0, 0]), Heir([Sentinel()], 0), FirstNode(3)]
    ensures Leads(first, steps, w) && Sound(w)
    ensures w.nodes == [Old([Sentinel(), Own(2)], 0, [1, 1, 0]), Heir([Sentinel(), Own(2)], 0), FirstNode(3)]
  {
    hide Leads, Inv, Marks, Shaped;
    And(first, before, w0, SendAppend(0, 0));
    var w1 := Take(w0, SendAppend(0, 0));
    steps := before + [SendAppend(0, 0)];
    var m := Append(2, 0, 0, 1, [Own(2)], 0);
    assert [Sentinel(), Own(2)][1..] == [Own(2)];
    And(first, steps, w1, Deliver(1, m));
    var w2 := Take(w1, Deliver(1, m));
    steps := steps + [Deliver(1, m)];
    assert w2.nodes[1] == Heir([Sentinel(), Own(2)], 0) && w2.ack(1, 2) >= 2;
    And(first, steps, w2, Reply(0, 1, 2));
    w := Take(w2, Reply(0, 1, 2));
    steps := steps + [Reply(0, 1, 2)];
    assert w.nodes[0].matched == [1, 1, 0];
  }

  /** It commits the entry and applies it. */
  lemma FirstCommit(first: World, before: seq<Step>, w0: World) returns (steps: seq<Step>, w: World)
    requires Leads(first, before, w0) && Sound(w0)
    requires w0.nodes == [Old([Sentinel(), Own(2)], 0, [1, 1, 0]), Heir([Sentinel(), Own(2)], 0), FirstNode(3)]
    ensures Leads(first, steps, w) && Sound(w)
    ensures w.nodes == [Old([Sentinel(), Own(2)], 1, [1, 1, 0]), Heir([Sentinel(), Own(2)], 0), FirstNode(3)]
  {
    hide Leads, Inv, Marks, Shaped, Matching;
    Majority([1, 1, 0], 1);
    And(first, before, w0, Commit(0, 1));
    var w1 := Take(w0, Commit(0, 1));
    steps := before + [Commit(0, 1)];
    And(first, steps, w1, ApplyOne(0));
    w := Take(w1, ApplyOne(0));
    steps := steps + [ApplyOne(0)];
  }

  lemma Majority(matched: seq<nat>, i: nat)
    requires |matched| == 3 && (matched[0] >= i || matched[2] >= i) && matched[1] >= i
    ensures Matching(matched, i) >= 2
  {
    assert matched[1..] == [matched[1], matched[2]] && [matched[1], matched[2]][1..] == [matched[2]];
    assert [matched[2]][1..] == [];
    assert Matching([matched[2]], i) == if matched[2] >= i then 1 else 0;
  }

  /** It gives a command to server 1. */
  lemma FirstCommand(first: World, before: seq<Step>, w0: World) returns (steps: seq<Step>, w: World)
    requires Leads(first, before, w0) && Sound(w0)
    requires w0.nodes == [Old([Sentinel(), Own(2)], 1, [1, 1, 0]), Heir([Sentinel(), Own(2)], 0), FirstNode(3)]
    ensures Leads(first, steps, w) && Sound(w)
    ensures w.nodes == [Old([Sentinel(), Own(2), Said(1)], 1, [2, 1, 0]),
                        Heir([Sentinel(), Own(2), Said(1)], 1), FirstNode(3)]
  {
    hide Leads, Inv, Marks, Shaped;
    And(first, before, w0, Submit(0, 1));
    var w1 := Take(w0, Submit(0, 1));
    steps := before + [Submit(0, 1)];
    assert w1.nodes[0] == Old([Sentinel(), Own(2), Said(1)], 1, [2, 1, 0]);
    And(first, steps, w1, SendAppend(0, 1));
    var w2 := Take(w1, SendAppend(0, 1));
    steps := steps + [SendAppend(0, 1)];
    var m := Append(2, 0, 1, 2, [Said(1)], 1);
    assert [Sentinel(), Own(2), Said(1)][2..] == [Said(1)];
    And(first, steps, w2, Deliver(1, m));
    w := Take(w2, Deliver(1, m));
    steps := steps + [Deliver(1, m)];
    assert w.nodes[1] == Heir([Sentinel(), Own(2), Said(1)], 1);
  }

  /** It has another one that nobody else gets. */
  lemma SecondCommand(first: World, before: seq<Step>, w0: World) returns (steps: seq<Step>, w: World)
    requires Leads(first, before, w0) && Sound(w0)
    requires w0.nodes == [Old([Sentinel(), Own(2), Said(1)], 1, [2, 1, 0]),
                          Heir([Sentinel(), Own(2), Said(1)], 1), FirstNode(3)]
    ensures Leads(first, steps, w) && Sound(w)
    ensures w.nodes == [Old([Sentinel(), Own(2), Said(1), Said(2)], 1, [3, 1, 0]),
                        Heir([Sentinel(), Own(2), Said(1)], 1), FirstNode(3)]
  {
    hide Leads, Inv, Marks, Shaped;
    And(first, before, w0, Submit(0, 2));
    w := Take(w0, Submit(0, 2));
    steps := before + [Submit(0, 2)];
    assert w.nodes[0] == Old([Sentinel(), Own(2), Said(1), Said(2)], 1, [3, 1, 0]);
  }

  /** Server 1 is elected in term 3 with the vote of server 2. */
  lemma SecondReign(first: World, before: seq<Step>, w0: World) returns (steps: seq<Step>, w: World)
    requires Leads(first, before, w0) && Sound(w0) && |w0.nodes| == 3
    requires w0.nodes[1] == Heir([Sentinel(), Own(2), Said(1)], 1) && w0.nodes[2] == FirstNode(3)
    ensures Leads(first, steps, w) && Sound(w)
    ensures w.nodes == [w0.nodes[0], New(1, 0, 0, 0, [], [0, 3, 0]), FirstNode(3).(term := 3, vote := 1)]
  {
    hide Leads, Inv, Marks, Shaped;
    var log := [Sentinel(), Own(2), Said(1)];
    And(first, before, w0, Timeout(1));
    var w1 := Take(w0, Timeout(1));
    steps := before + [Timeout(1)];
    And(first, steps, w1, Elect(1));
    var w2 := Take(w1, Elect(1));
    steps := steps + [Elect(1)];
    assert w2.cand(1, 3) == log && w2.vote(1, 3) == 1;
    And(first, steps, w2, Vote(2, 1, 3));
    var w3 := Take(w2, Vote(2, 1, 3));
    steps := steps + [Vote(2, 1, 3)];
    assert w3.nodes[2] == FirstNode(3).(term := 3, vote := 1) && w3.vote(2, 3) == 1 && w3.vote(1, 3) == 1;
    And(first, steps, w3, Win(1, {1, 2}));
    w := Take(w3, Win(1, {1, 2}));
    steps := steps + [Win(1, {1, 2})];
    assert w.nodes[1].matched == [0, 3, 0];
    assert log + [Own(3)] == [Sentinel(), Own(2), Said(1), Own(3)];
  }

  /** It brings server 2 to its log and commits everything. */
  lemma SecondCommit(first: World, before: seq<Step>, w0: World) returns (steps: seq<Step>, w: World)
    requires Leads(first, before, w0) && Sound(w0) && |w0.nodes| == 3
    requires w0.nodes[1] == New(1, 0, 0, 0, [], [0, 3, 0]) && w0.nodes[2] == FirstNode(3).(term := 3, vote := 1)
    ensures Leads(first, steps, w) && Sound(w) && |w.nodes| == 3
    ensures w.nodes[0] == w0.nodes[0] && w.nodes[1] == New(3, 0, 0, 0, [], [0, 3, 3])
  {
    hide Leads, Inv, Marks, Shaped;
    And(first, before, w0, SendAppend(1, 0));
    var w1 := Take(w0, SendAppend(1, 0));
    steps := before + [SendAppend(1, 0)];
    var m := Append(3, 1, 0, 1, [Own(2), Said(1), Own(3)], 1);
    assert [Sentinel(), Own(2), Said(1), Own(3)][1..] == [Own(2), Said(1), Own(3)];
    And(first, steps, w1, Deliver(2, m));
    var w2 := Take(w1, Deliver(2, m));
    steps := steps + [Deliver(2, m)];
    assert w2.ack(2, 3) >= 4;
    And(first, steps, w2, Reply(1, 2, 4));
    var w3 := Take(w2, Reply(1, 2, 4));
    steps := steps + [Reply(1, 2, 4)];
    assert w3.nodes[1].matched == [0, 3, 3];
    Majority([0, 3, 3], 2);
    Majority([0, 3, 3], 3);
    And(first, steps, w3, Commit(1, 3));
    w := Take(w3, Commit(1, 3));
    steps := steps + [Commit(1, 3)];
  }

  /** It applies the first command and trims its log there. */
  lemma Trims(first: World, before: seq<Step>, w0: World) returns (steps: seq<Step>, w: World)
    requires Leads(first, before, w0) && Sound(w0) && |w0.nodes| == 3
    requires w0.nodes[1] == New(3, 0, 0, 0, [], [0, 3, 3])
    ensures Leads(first, steps, w) && Sound(w) && |w.nodes| == 3
    ensures w.nodes[0] == w0.nodes[0] && w.nodes[1] == New(3, 2, 2, 1, [Apply(1, 1)], [0, 3, 3])
  {
    hide Leads, Inv, Marks, Shaped;
    var log := w0.nodes[1].log;
    assert External(log, 1) == 0 && External(log, 2) == 1;
    And(first, before, w0, ApplyOne(1));
    var w1 := Take(w0, ApplyOne(1));
    steps := before + [ApplyOne(1)];
    assert w1.nodes[1] == New(3, 1, 0, 0, [], [0, 3, 3]);
    And(first, steps, w1, ApplyOne(1));
    var w2 := Take(w1, ApplyOne(1));
    steps := steps + [ApplyOne(1)];
    assert w2.nodes[1] == New(3, 2, 0, 0, [Apply(1, 1)], [0, 3, 3]);
    And(first, steps, w2, Trim(1, 2));
    w := Take(w2, Trim(1, 2));
    steps := steps + [Trim(1, 2)];
  }

  /** There is a run of three servers after which a follower, which is not in a later term than the leader,
      never catches up, whatever the leader believes it to need next. */
  lemma FollowerCanBeStuck(first: World) returns (steps: seq<Step>, w: World)
    requires Initial(first) && |first.nodes| == 3
    ensures Leads(first, steps, w) && Shaped(w) && |w.nodes| == 3
    ensures w.nodes[1].role.Leader? && w.nodes[0].term <= w.nodes[1].term
    ensures forall next: nat, n: nat :: !After(w.nodes[1], 1, 0, w.nodes[0], next, n).done
  {
    hide Leads, Inv, Marks, Shaped, After, Enabled, Take;
    var s1, w1 := FirstReign(first);
    var s2, w2 := FirstAppend(first, s1, w1);
    var s3, w3 := FirstCommit(first, s2, w2);
    var s4, w4 := FirstCommand(first, s3, w3);
    var s5, w5 := SecondCommand(first, s4, w4);
    var s6, w6 := SecondReign(first, s5, w5);
    var s7, w7 := SecondCommit(first, s6, w6);
    steps, w := Trims(first, s7, w7);
    var l, f := w.nodes[1], w.nodes[0];
    assert Stuck(l, f);
    forall next: nat, n: nat
      ensures !After(l, 1, 0, f, next, n).done
    {
      CatchesUpIffNotStuck(first, steps, w, 1, 0, next);
    }
  }
}
