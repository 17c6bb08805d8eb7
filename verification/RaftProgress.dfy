/** A cluster of Raft servers is never without the means to elect a leader (src/raft/raft.go:317-361, 658-800):
whatever has happened, the server with the most up-to-date log can get everybody's vote. */
module RaftProgress {
  import opened RaftNode
  import opened RaftWorld
  import opened RaftKeeps
  import opened RaftQuiet
  import opened RaftSafety

  lemma {:induction false} Then(w: World, steps: seq<Step>, mid: World, more: seq<Step>, last: World)
    requires Leads(w, steps, mid) && Leads(mid, more, last)
    ensures Leads(w, steps + more, last)
    decreases |steps|
  {
    hide Shaped, Enabled, Take;
    if steps == [] {
      assert steps + more == more;
    } else {
      assert (steps + more)[1..] == steps[1..] + more;
      Then(Take(w, steps[0]), steps[1..], mid, more, last);
    }
  }

  lemma One(w: World, step: Step)
    requires Inv(w) && Shaped(w) && Enabled(w, step)
    ensures Leads(w, [step], Take(w, step)) && Inv(Take(w, step)) && Shaped(Take(w, step))
  {
    hide Inv, Shaped, Enabled, Take;
    assert Leads(Take(w, step), [], Take(w, step));
    assert [step][1..] == [];
    StepKeeps(w, step);
    InvShaped(Take(w, step));
  }

  // ----- a candidate asks everybody

  /** Of two logs, the first is at least as up to date. */
  ghost predicate IsAsUpToDate(a: Log, b: Log) {
    LastTerm(a) > LastTerm(b) || (LastTerm(a) == LastTerm(b) && |a| >= |b|)
  }

  /** A server that is in an earlier term follows the candidate into its term, and votes for it if its
      log is not more up to date. */
  lemma AnswersCandidate(w: World, v: nat, c: nat, term: nat)
    requires Shaped(w) && v < |w.nodes| && c < |w.nodes| && v != c && w.cand(c, term) != []
    requires w.nodes[v].term < term
    ensures Enabled(w, Vote(v, c, term))
    ensures var w', n := Take(w, Vote(v, c, term)), w.nodes[v];
            && w'.nodes == w.nodes[v := w'.nodes[v]] && w'.cand == w.cand
            && w'.nodes[v].term == term && w'.nodes[v].log == n.log && w'.nodes[v].role.Follower?
            && (forall s: nat, t: nat :: s != v ==> w'.vote(s, t) == w.vote(s, t))
            && (IsAsUpToDate(w.cand(c, term), n.log) ==> w'.vote(v, term) == c)
  {}

  /** The servers below k have been asked. */
  ghost predicate Asked(w: World, w': World, c: nat, term: nat, k: nat) {
    && c < |w.nodes| == |w'.nodes| && w'.nodes[c] == w.nodes[c] && w'.cand == w.cand
    && (forall t: nat :: w'.vote(c, t) == w.vote(c, t))
    && (forall v: nat :: v < |w.nodes| && v != c && v < k ==>
          && w'.nodes[v].term == term && w'.nodes[v].log == w.nodes[v].log && w'.nodes[v].role.Follower?
          && (IsAsUpToDate(w.cand(c, term), w.nodes[v].log) ==> w'.vote(v, term) == c))
    && (forall v: nat :: v < |w.nodes| && v != c && v >= k ==> w'.nodes[v] == w.nodes[v])
  }

  lemma AskOne(w: World, w': World, c: nat, term: nat, k: nat)
    requires Shaped(w') && Asked(w, w', c, term, k) && k < |w.nodes| && k != c && w.cand(c, term) != []
    requires w.nodes[k].term < term
    ensures Enabled(w', Vote(k, c, term)) && Asked(w, Take(w', Vote(k, c, term)), c, term, k + 1)
  {
    hide IsAsUpToDate, Take;
    AnswersCandidate(w', k, c, term);
  }

  lemma {:induction false} AskAll(w: World, w': World, c: nat, term: nat, k: nat)
    returns (steps: seq<Step>, last: World)
    requires Inv(w') && Shaped(w') && Asked(w, w', c, term, k) && k <= |w.nodes| && w.cand(c, term) != []
    requires forall v: nat :: v < |w.nodes| && v != c ==> w.nodes[v].term < term
    ensures Leads(w', steps, last) && Inv(last) && Shaped(last) && Asked(w, last, c, term, |w.nodes|)
    decreases |w.nodes| - k
  {
    hide Inv, Leads, Take, Enabled, IsAsUpToDate, Shaped;
    if k == |w.nodes| {
      Nothing(w');
      return [], w';
    }
    if k == c {
      steps, last := AskAll(w, w', c, term, k + 1);
    } else {
      AskOne(w, w', c, term, k);
      var step := Vote(k, c, term);
      One(w', step);
      var more;
      more, last := AskAll(w, Take(w', step), c, term, k + 1);
      Then(w', [step], Take(w', step), more, last);
      steps := [step] + more;
    }
  }

  lemma Nothing(w: World)
    ensures Leads(w, [], w)
  {}

  // ----- candidates

  /** A server that does not lead begins an election. */
  lemma Stand(w: World, c: nat) returns (last: World)
    requires Inv(w) && Shaped(w) && c < |w.nodes| && !w.nodes[c].role.Leader?
    ensures Leads(w, [Timeout(c), Elect(c)], last) && Inv(last) && Shaped(last) && |last.nodes| == |w.nodes|
    ensures var n, n' := w.nodes[c], last.nodes[c];
            && last.nodes == w.nodes[c := n']
            && n'.term == n.term + 1 == n'.live && n'.log == n.log && n'.role.Candidate?
            && last.cand(c, n'.term) == n.log && last.vote(c, n'.term) == c
  {
    hide Inv, Leads;
    One(w, Timeout(c));
    var mid := Take(w, Timeout(c));
    One(mid, Elect(c));
    last := Take(mid, Elect(c));
    Then(w, [Timeout(c)], mid, [Elect(c)], last);
    assert [Timeout(c)] + [Elect(c)] == [Timeout(c), Elect(c)];
  }

  /** A candidate asks everybody who is in an earlier term. */
  lemma Campaign(w: World, c: nat) returns (steps: seq<Step>, last: World)
    requires Inv(w) && Shaped(w) && c < |w.nodes| && !w.nodes[c].role.Leader?
    requires forall v: nat :: v < |w.nodes| ==> w.nodes[v].term <= w.nodes[c].term
    ensures Leads(w, steps, last) && Inv(last) && Shaped(last) && |last.nodes| == |w.nodes|
    ensures var term := w.nodes[c].term + 1;
            && last.nodes[c].term == last.nodes[c].live == term && last.nodes[c].role.Candidate?
            && last.vote(c, term) == c
            && forall v: nat :: v < |w.nodes| ==>
              && last.nodes[v].term == term && last.nodes[v].log == w.nodes[v].log && !last.nodes[v].role.Leader?
              && (IsAsUpToDate(w.nodes[c].log, w.nodes[v].log) ==> last.vote(v, term) == c)
  {
    hide Inv, Leads, Take, Enabled, IsAsUpToDate;
    var mid := Stand(w, c);
    LogNotEmpty(w, c);
    var term := w.nodes[c].term + 1;
    var more;
    more, last := AskAll(mid, mid, c, term, 0);
    Then(w, [Timeout(c), Elect(c)], mid, more, last);
    steps := [Timeout(c), Elect(c)] + more;
  }

  lemma LogNotEmpty(w: World, v: nat)
    requires Shaped(w) && v < |w.nodes|
    ensures w.nodes[v].log != []
  {}

  // ----- which server

  /** A server whose term is the highest. */
  lemma {:induction false} HighestTerm(w: World, n: nat) returns (d: nat)
    requires 0 < n <= |w.nodes|
    ensures d < n && forall v: nat :: v < n ==> w.nodes[v].term <= w.nodes[d].term
  {
    d := 0;
    if n > 1 {
      d := HighestTerm(w, n - 1);
      if w.nodes[d].term < w.nodes[n - 1].term {
        d := n - 1;
      }
    }
  }

  /** A server whose log is the most up to date. */
  lemma {:induction false} BestLog(w: World, n: nat) returns (c: nat)
    requires 0 < n <= |w.nodes|
    ensures c < n && forall v: nat :: v < n ==> IsAsUpToDate(w.nodes[c].log, w.nodes[v].log)
  {
    c := 0;
    if n > 1 {
      c := BestLog(w, n - 1);
      if !IsAsUpToDate(w.nodes[c].log, w.nodes[n - 1].log) {
        c := n - 1;
      }
    }
  }

  lemma EverybodyIsQuorum(n: nat)
    requires n > 0
    ensures IsQuorum(n, Below(n))
  {
    hide Below;
  }

  /** With all votes the candidate wins. */
  lemma WinsAll(w: World, c: nat) returns (last: World)
    requires Inv(w) && Shaped(w) && c < |w.nodes| && w.nodes[c].role.Candidate? && w.nodes[c].live > 0
    requires w.nodes[c].term == w.nodes[c].live
    requires forall v: nat :: v < |w.nodes| ==> w.vote(v, w.nodes[c].live) == c
    requires forall v: nat :: v < |w.nodes| ==> w.nodes[v].term == w.nodes[c].live
    ensures Leads(w, [Win(c, Below(|w.nodes|))], last) && Inv(last) && Shaped(last)
    ensures |last.nodes| == |w.nodes| && last.nodes[c].role.Leader?
    ensures forall v: nat :: v < |w.nodes| ==> last.nodes[v].term == last.nodes[c].term
  {
    hide Inv, Leads, Below, IsQuorum;
    var voters := Below(|w.nodes|);
    EverybodyIsQuorum(|w.nodes|);
    One(w, Win(c, voters));
    last := Take(w, Win(c, voters));
  }

  /** From every reachable world the servers can come to have a leader that nobody is ahead of. */
  lemma CanAlwaysElect(first: World, steps: seq<Step>, w: World) returns (more: seq<Step>, last: World, c: nat)
    requires Initial(first) && Leads(first, steps, w)
    ensures Leads(w, more, last)
    ensures c < |last.nodes| && last.nodes[c].role.Leader?
    ensures forall v: nat :: v < |last.nodes| ==> last.nodes[v].term <= last.nodes[c].term
  {
    hide Leads, IsAsUpToDate, Shaped;
    InitialInv(first);
    RunsKeep(first, steps, w);
    InvShaped(w);
    hide Inv;
    SomeServer(w);
    var d := HighestTerm(w, |w.nodes|);
    if w.nodes[d].role.Leader? {
      Nothing(w);
      return [], w, d;
    }
    var a, w1 := Campaign(w, d);
    c := BestLog(w1, |w1.nodes|);
    var b, w2 := Campaign(w1, c);
    last := WinsAll(w2, c);
    Then(w, a, w1, b, w2);
    Then(w, a + b, w2, [Win(c, Below(|w2.nodes|))], last);
    more := a + b + [Win(c, Below(|w2.nodes|))];
  }

  lemma SomeServer(w: World)
    requires Inv(w)
    ensures |w.nodes| > 0
  {}
}
