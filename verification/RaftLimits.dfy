/** What the guards of the model's steps are for: what happens without them. */
module RaftLimits {
  import opened RaftNode
  import opened RaftWorld
  import opened RaftKeeps
  import opened RaftQuiet
  import opened RaftReplication
  import opened RaftSafety

  // ----- elections that begin late (src/raft/raft.go:663-698)

  lemma {:induction false} OneMore(w: World, steps: seq<Step>, mid: World, step: Step)
    requires Leads(w, steps, mid) && Shaped(mid) && Enabled(mid, step)
    ensures Leads(w, steps + [step], Take(mid, step))
    decreases |steps|
  {
    hide Shaped, Enabled, Take;
    if steps == [] {
      assert (steps + [step])[1..] == [];
      assert Leads(Take(mid, step), [], Take(mid, step));
    } else {
      assert (steps + [step])[1..] == steps[1..] + [step];
      OneMore(Take(w, steps[0]), steps[1..], mid, step);
    }
  }

  /** A server of a cluster of three whose log is still empty. */
  ghost predicate Is(w: World, v: nat, role: Role, term: nat, live: nat) {
    && |w.nodes| == 3 && v < 3 && Shaped(w)
    && w.nodes[v].role == role && w.nodes[v].term == term && w.nodes[v].live == live
    && w.nodes[v].log == [Sentinel()] && w.nodes[v].vote >= NOBODY
  }

  /** The other servers and all earlier votes and candidacies are as before. */
  ghost predicate Others(w: World, w': World, v: nat, term: nat) {
    && |w'.nodes| == |w.nodes|
    && (forall u :: 0 <= u < |w.nodes| && u != v ==> w'.nodes[u] == w.nodes[u])
    && (forall u: nat, t: nat :: u != v || t < term ==> w'.vote(u, t) == w.vote(u, t))
    && (forall u: nat, t: nat :: u != v || t < term ==> w'.cand(u, t) == w.cand(u, t))
  }

  lemma TimesOut(w: World, v: nat, role: Role, term: nat, live: nat) returns (w': World)
    requires Is(w, v, role, term, live) && !role.Leader?
    ensures Enabled(w, Timeout(v)) && w' == Take(w, Timeout(v))
    ensures Is(w', v, Candidate, term, 0) && w'.nodes[v].pending && Others(w, w', v, term)
    ensures w'.vote == w.vote && w'.cand == w.cand
    ensures w'.nodes[v].late == if w.nodes[v].pending then w.nodes[v].late + 1 else w.nodes[v].late
  {
    w' := Take(w, Timeout(v));
  }

  lemma Begins(w: World, v: nat, term: nat) returns (w': World)
    requires Is(w, v, Candidate, term, 0) && w.nodes[v].pending
    ensures Enabled(w, Elect(v)) && w' == Take(w, Elect(v))
    ensures Is(w', v, Candidate, term + 1, term + 1) && Others(w, w', v, term + 1)
    ensures w'.nodes[v].late == w.nodes[v].late
    ensures w'.vote(v, term + 1) == v && w'.cand(v, term + 1) == [Sentinel()]
  {
    w' := Take(w, Elect(v));
  }

  lemma Votes(w: World, v: nat, c: nat, term: nat, was: nat) returns (w': World)
    requires Is(w, v, Follower, was, 0) && was < term && c < 3 && c != v && w.cand(c, term) == [Sentinel()]
    ensures Enabled(w, Vote(v, c, term)) && w' == Take(w, Vote(v, c, term))
    ensures Is(w', v, Follower, term, 0) && Others(w, w', v, term) && w'.vote(v, term) == c
  {
    w' := Take(w, Vote(v, c, term));
  }

  lemma Wins(w: World, v: nat, voter: nat, term: nat, live: nat) returns (w': World)
    requires Is(w, v, Candidate, term, live) && live > 0 && voter < 3 && voter != v
    requires w.vote(v, live) == v && w.vote(voter, live) == v
    ensures Enabled(w, Win(v, {v, voter})) && w' == Take(w, Win(v, {v, voter}))
    ensures w'.nodes[v].role.Leader? && w'.nodes[v].term == term && w'.nodes[v].late == w.nodes[v].late
    ensures Shaped(w') && |w'.nodes| == 3 && forall u :: 0 <= u < 3 && u != v ==> w'.nodes[u] == w.nodes[u]
    ensures w'.vote == w.vote && w'.cand == w.cand
  {
    w' := Take(w, Win(v, {v, voter}));
  }

  /** Of three servers, server 0 times out twice, begins an election in term 2 and gets the vote of
      server 1; the election of its first timeout has not begun. */
  lemma FirstElection(first: World) returns (steps: seq<Step>, w: World)
    requires Initial(first) && |first.nodes| == 3
    ensures Leads(first, steps, w)
    ensures Is(w, 0, Candidate, 2, 2) && Is(w, 1, Follower, 2, 0) && Is(w, 2, Follower, 1, 0) && w.nodes[0].late == 1
    ensures w.vote(0, 2) == 0 && w.vote(1, 2) == 0
  {
    hide Enabled, Take, Leads, Shaped;
    StartsEmpty(first);
    var w1 := TimesOut(first, 0, Follower, 1, 0);
    OneMore(first, [], first, Timeout(0));
    var w2 := TimesOut(w1, 0, Candidate, 1, 0);
    OneMore(first, [] + [Timeout(0)], w1, Timeout(0));
    var w3 := Begins(w2, 0, 1);
    OneMore(first, [] + [Timeout(0)] + [Timeout(0)], w2, Elect(0));
    SameServer(w2, w3, 0, 1, 2, Follower, 1);
    w := Votes(w3, 1, 0, 2, 1);
    OneMore(first, [] + [Timeout(0)] + [Timeout(0)] + [Elect(0)], w3, Vote(1, 0, 2));
    steps := [] + [Timeout(0)] + [Timeout(0)] + [Elect(0)] + [Vote(1, 0, 2)];
  }

  lemma StartsEmpty(first: World)
    requires Initial(first) && |first.nodes| == 3
    ensures Leads(first, [], first) && Shaped(first)
    ensures Is(first, 0, Follower, 1, 0) && Is(first, 1, Follower, 1, 0) && Is(first, 2, Follower, 1, 0)
    ensures !first.nodes[0].pending && first.nodes[0].late == 0
  {
    forall v | 0 <= v < 3
      ensures first.nodes[v] == FirstNode(3)
    {}
  }

  lemma SameServer(w: World, w': World, v: nat, u: nat, term: nat, role: Role, t: nat)
    requires Others(w, w', v, term) && u != v && Is(w, u, role, t, 0) && Shaped(w')
    ensures Is(w', u, role, t, 0)
  {}

  /** Server 1 begins an election in term 3, gets the vote of server 2 and wins. */
  lemma RivalWins(w: World) returns (steps: seq<Step>, last: World)
    requires Shaped(w) && |w.nodes| == 3 && Is(w, 1, Follower, 2, 0) && Is(w, 2, Follower, 1, 0)
    ensures Leads(w, steps, last) && Shaped(last) && |last.nodes| == 3
    ensures last.nodes[1].role.Leader? && last.nodes[1].term == 3 && last.nodes[0] == w.nodes[0]
    ensures last.vote(0, 2) == w.vote(0, 2) && last.vote(1, 2) == w.vote(1, 2)
  {
    hide Enabled, Take, Leads, Shaped;
    Nothing(w);
    var w1 := TimesOut(w, 1, Follower, 2, 0);
    OneMore(w, [], w, Timeout(1));
    var w2 := Begins(w1, 1, 2);
    OneMore(w, [] + [Timeout(1)], w1, Elect(1));
    SameServer(w, w1, 1, 2, 2, Follower, 1);
    SameServer(w1, w2, 1, 2, 3, Follower, 1);
    var w3 := Votes(w2, 2, 1, 3, 1);
    OneMore(w, [] + [Timeout(1)] + [Elect(1)], w2, Vote(2, 1, 3));
    SameCandidate(w2, w3, 2, 1, 3);
    last := Wins(w3, 1, 2, 3, 3);
    OneMore(w, [] + [Timeout(1)] + [Elect(1)] + [Vote(2, 1, 3)], w3, Win(1, {1, 2}));
    steps := [] + [Timeout(1)] + [Elect(1)] + [Vote(2, 1, 3)] + [Win(1, {1, 2})];
  }

  lemma Nothing(w: World)
    ensures Leads(w, [], w)
  {}

  lemma SameCandidate(w: World, w': World, v: nat, u: nat, term: nat)
    requires Others(w, w', v, term) && u != v && Is(w, u, Candidate, term, term) && Shaped(w')
    ensures Is(w', u, Candidate, term, term)
  {}

  lemma AfterLate(w: World)
    requires Shaped(w) && |w.nodes| == 3
    ensures var w' := TakeLate(w, 0);
            && Shaped(w') && |w'.nodes| == 3 && w'.nodes[1] == w.nodes[1] && w'.nodes[2] == w.nodes[2]
            && w'.nodes[0] == OnLateElection(w.nodes[0], 0)
            && w'.vote(1, 2) == w.vote(1, 2) && (w.nodes[0].term == 2 ==> w'.vote(0, 2) == w.vote(0, 2))
  {}

  /** Without the guard on a candidate, a run of three servers ends with two leaders of term 3: the
      election of server 0's first timeout begins while that of its second timeout goes on and has a
      majority of the votes of term 2, and server 1 has a majority of the votes of term 3. */
  lemma LateElectionAtCandidate(first: World)
    returns (before: seq<Step>, w: World, after: seq<Step>, last: World)
    requires Initial(first) && |first.nodes| == 3
    ensures Leads(first, before, w) && |w.nodes| == 3 && w.nodes[0].late > 0
    ensures w.nodes[0].role.Candidate? && w.nodes[0].live > 0
    ensures Leads(TakeLate(w, 0), after, last) && |last.nodes| == 3
    ensures last.nodes[0].role.Leader? && last.nodes[1].role.Leader? && last.nodes[0].term == last.nodes[1].term
  {
    hide Enabled, Take, Leads, Shaped;
    before, w := FirstElection(first);
    var w1 := TakeLate(w, 0);
    AfterLate(w);
    var steps, w2 := RivalWins(w1);
    last := Wins(w2, 0, 1, 3, 2);
    OneMore(w1, steps, w2, Win(0, {0, 1}));
    after := steps + [Win(0, {0, 1})];
  }

  /** Without the guard on a leader too: server 0 wins term 2, the election of its first timeout begins,
      and it leads term 3 without a vote. */
  lemma LateElectionAtLeader(first: World)
    returns (before: seq<Step>, w: World, after: seq<Step>, last: World)
    requires Initial(first) && |first.nodes| == 3
    ensures Leads(first, before, w) && |w.nodes| == 3 && w.nodes[0].late > 0 && w.nodes[0].role.Leader?
    ensures Leads(TakeLate(w, 0), after, last) && |last.nodes| == 3
    ensures last.nodes[0].role.Leader? && last.nodes[1].role.Leader? && last.nodes[0].term == last.nodes[1].term
  {
    hide Enabled, Take, Leads, Shaped;
    var steps, w0 := FirstElection(first);
    w := Wins(w0, 0, 1, 2, 2);
    OneMore(first, steps, w0, Win(0, {0, 1}));
    before := steps + [Win(0, {0, 1})];
    AfterLate(w);
    after, last := RivalWins(TakeLate(w, 0));
  }

  // ----- fix packages (src/raft/raft.go:430, 1110)

  /** A fix package is taken without a look at the term of the entry before it.  The log that comes of
      it is one that a leader could have sent exactly if the follower has the leader's entry there. */
  lemma FixIsSoundIff(w: World, n: Node, m: Append)
    requires (forall t: nat :: Elected(w, t) ==> ReignOk(w, t)) && AppendOk(w, m) && Known(w, n.log)
    requires m.term >= n.term && m.prev == n.applied < |n.log| - 1
    requires !Agrees(n.log, m.prev + 1, m.entries)
    ensures Known(w, OnAppend(n, m).0.log) <==> n.log[m.prev].term == m.prevTerm
  {
    hide Certified, Known;
    var sent := w.log(m.term);
    var log := OnAppend(n, m).0.log;
    assert ReignOk(w, m.term);
    assert log == n.log[..m.prev + 1] + m.entries;
    if n.log[m.prev].term == m.prevTerm {
      SamePoint(w, n.log, sent, m.prev);
      FixGivesSentLog(w, m, n.log);
      KnownPart(w, sent, Length(m));
    }
    if Known(w, log) {
      assert m.entries != [];
      assert log[m.prev + 1] == m.entries[0] == sent[m.prev + 1];
      SamePoint(w, log, sent, m.prev + 1);
      assert log[..m.prev + 2][m.prev] == sent[..m.prev + 2][m.prev];
    }
  }

  /** That fails for a server that counts index 1 as applied from the start: with the no-op and a command
      of the leader of one term, and a fix package from the leader of a later one, it ends up with the
      later leader's command after the earlier leader's no-op. */
  lemma FixFromUncommittedMisleads(n: Node, m: Append, own: nat, later: nat, x: int, y: int)
    requires own < later && n.applied == 1
    requires n.log == [Sentinel(), Entry(own, Noop), Entry(own, Normal(x))]
    requires m.term == later >= n.term && m.prev == 1 && m.prevTerm == later && m.entries == [Entry(later, Normal(y))]
    ensures OnAppend(n, m).0.log == [Sentinel(), Entry(own, Noop), Entry(later, Normal(y))]
  {
    assert m.entries[0].term != n.log[2].term;
    assert !Agrees(n.log, 2, m.entries);
  }
}
