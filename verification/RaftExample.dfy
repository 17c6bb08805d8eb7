/** A run that gets something done. */
module RaftExample {
  import opened RaftNode
  import opened RaftWorld
  import opened RaftSafety

  /** A server alone elects itself. */
  lemma Elects(w: World) returns (last: World)
    requires Initial(w) && |w.nodes| == 1
    ensures Leads(w, [Timeout(0), Elect(0), Win(0, {0})], last)
    ensures |last.nodes| == 1 && Shaped(last)
    ensures var n := last.nodes[0];
            && n.role.Leader? && n.term == 2 && n.commit == n.applied == n.base == 0
            && n.log == [Sentinel(), Entry(2, Noop)] && n.matched == [1]
  {
    var n := w.nodes[0];
    assert n == FirstNode(1);
    assert Shaped(w);
    var w1 := Take(w, Timeout(0));
    assert Shaped(w1) && Enabled(w1, Elect(0));
    var w2 := Take(w1, Elect(0));
    assert w2.nodes[0].live == 2 && w2.vote(0, 2) == 0;
    assert Shaped(w2) && Enabled(w2, Win(0, {0}));
    last := Take(w2, Win(0, {0}));
    Three(w, Timeout(0), Elect(0), Win(0, {0}), last);
  }

  lemma Three(w: World, a: Step, b: Step, c: Step, last: World)
    requires Shaped(w) && Enabled(w, a)
    requires var w1 := Take(w, a); Shaped(w1) && Enabled(w1, b)
    requires var w2 := Take(Take(w, a), b); Shaped(w2) && Enabled(w2, c)
    requires last == Take(Take(Take(w, a), b), c)
    ensures Leads(w, [a, b, c], last)
  {
    hide Shaped, Enabled, Take;
    assert [a, b, c][1..] == [b, c] && [b, c][1..] == [c] && [c][1..] == [];
    assert Leads(last, [], last);
    assert Leads(Take(Take(w, a), b), [c], last);
    assert Leads(Take(w, a), [b, c], last);
  }

  /** ... commits a command, and begins to apply. */
  lemma Serves(w: World, value: int) returns (last: World)
    requires |w.nodes| == 1 && Shaped(w)
    requires var n := w.nodes[0];
             && n.role.Leader? && n.term == 2 && n.commit == n.applied == n.base == 0
             && n.log == [Sentinel(), Entry(2, Noop)] && n.matched == [1]
    ensures Leads(w, [Submit(0, value), Commit(0, 2), ApplyOne(0)], last)
    ensures Applied(0, 1, Entry(2, Noop)) in last.applied
  {
    var w1 := Take(w, Submit(0, value));
    var n1 := w1.nodes[0];
    assert n1.log == [Sentinel(), Entry(2, Noop), Entry(2, Normal(value))] && n1.matched == [2];
    assert Shaped(w1);
    assert [2][1..] == [];
    assert Matching(n1.matched, 1) == 1 && Matching(n1.matched, 2) == 1;
    assert MayCommit(n1, 2);
    var w2 := Take(w1, Commit(0, 2));
    assert Shaped(w2) && Enabled(w2, ApplyOne(0));
    last := Take(w2, ApplyOne(0));
    Three(w, Submit(0, value), Commit(0, 2), ApplyOne(0), last);
  }
}
