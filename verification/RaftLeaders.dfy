/** Winning an election and adding to the leader's log (src/raft/raft.go:754-800, 599-631). */
module RaftLeaders {
  import opened RaftNode
  import opened RaftWorld
  import opened RaftKeeps
  import opened RaftQuiet
  import opened RaftElections

  /** The term that a server wins has no leader yet. */
  lemma WinIsFirst(w: World, v: nat, voters: set<nat>)
    requires Inv(w) && Enabled(w, Win(v, voters))
    ensures !Elected(w, w.nodes[v].term) && w.nodes[v].term == w.nodes[v].live >= 2
  {
    hide Inv, Known, KeepOk, BallotOk, CommitOk, MatchOk, AckOk;
    var n := w.nodes[v];
    Facts(w, v);
    assert w.cand(v, n.live) != [];
    if Elected(w, n.term) {
      ReignFacts(w, n.term);
      var s := QuorumsMeet(|w.nodes|, voters, w.ballots(n.term));
    }
  }

  lemma WinGrows(w: World, v: nat, voters: set<nat>)
    requires Inv(w) && Shaped(w) && Enabled(w, Win(v, voters))
    ensures var w' := TakeWin(w, v, voters); Grows(w, w') && Only(w, w', v)
    ensures var w', n := TakeWin(w, v, voters), w.nodes[v]; w'.ack(v, n.term) == |n.log| + 1
  {
    hide Inv, Known, RoleOk, KeepOk, BallotOk, CommitOk, MatchOk, CandOk, AckOk;
    WinIsFirst(w, v, voters);
    AckBounded(w, v, w.nodes[v].term);
  }

  /** A log that the next leader extends by an entry of its own is known. */
  lemma KnownExtended(w: World, log: Log, e: Entry)
    requires Known(w, log) && log + [e] <= w.log(e.term)
    ensures Known(w, log + [e])
  {
    forall i | 0 <= i < |log + [e]|
      ensures (log + [e])[..i + 1] <= w.log((log + [e])[i].term)
    {
      if i < |log| {
        assert (log + [e])[..i + 1] == log[..i + 1];
      } else {
        assert (log + [e])[..i + 1] == log + [e];
      }
    }
  }

  lemma WinReign(w: World, v: nat, voters: set<nat>)
    requires Inv(w) && Shaped(w) && Enabled(w, Win(v, voters))
    requires Grows(w, TakeWin(w, v, voters))
    ensures ReignOk(TakeWin(w, v, voters), w.nodes[v].term)
  {
    hide Inv, KeepOk, BallotOk, CommitOk, MatchOk, AckOk, VoteOk, Grows;
    var w', n := TakeWin(w, v, voters), w.nodes[v];
    Facts(w, v);
    WinIsFirst(w, v, voters);
    forall i | 0 <= i < |n.log|
      ensures n.log[i].term < n.term
    {
      assert n.log[..i + 1] <= w.log(n.log[i].term);
    }
    assert w'.log(n.term) == n.log + [Entry(n.term, Noop)];
    KnownGrows(w, w', n.log);
    KnownExtended(w', n.log, Entry(n.term, Noop));
  }

  /** The winner has all that could have been chosen in earlier terms. */
  lemma WinnerIsComplete(w: World, v: nat, voters: set<nat>, t: nat, k: nat)
    requires Inv(w) && Enabled(w, Win(v, voters)) && t < w.nodes[v].term && Choosable(w, t, k)
    ensures w.log(t)[..k] <= w.nodes[v].log
  {
    hide Inv, Known, RoleOk, KeepOk, CommitOk, MatchOk, CandOk, AckOk;
    var n := w.nodes[v];
    WinIsFirst(w, v, voters);
    var s := QuorumsMeet(|w.nodes|, voters, Able(w, t, k));
    Facts(w, s);
    assert w.vote(s, n.term) == v;
    assert BallotOk(w, s);
    assert k <= w.ack(s, t);
    CandidateLog(w, v);
  }

  lemma CandidateLog(w: World, v: nat)
    requires Inv(w) && v < |w.nodes| && w.nodes[v].role.Candidate? && w.nodes[v].live > 0
    ensures w.cand(v, w.nodes[v].term) == w.nodes[v].log && w.nodes[v].live == w.nodes[v].term
  {
    hide Inv, CoreOk, CommitOk, MatchOk;
    Facts(w, v);
  }

  lemma WinComplete(w: World, v: nat, voters: set<nat>)
    requires Inv(w) && Shaped(w) && Enabled(w, Win(v, voters))
    requires Grows(w, TakeWin(w, v, voters))
    ensures Complete(TakeWin(w, v, voters))
  {
    hide Inv, Grows, Able, IsQuorum;
    var w', n := TakeWin(w, v, voters), w.nodes[v];
    forall t: nat, k: nat, u: nat | t < u && Elected(w', u) && Choosable(w', t, k)
      ensures k <= w'.start(u) && w'.log(t)[..k] <= w'.log(u)
    {
      if u == n.term {
        ChoosableShrinks(w, w', t, k);
        WinnerIsComplete(w, v, voters, t, k);
        assert w'.log(u) == n.log + [Entry(n.term, Noop)];
      } else {
        CompleteFor(w, w', t, k, u);
      }
    }
  }

  lemma WinCore(w: World, v: nat, voters: set<nat>)
    requires Inv(w) && Shaped(w) && Enabled(w, Win(v, voters))
    requires Grows(w, TakeWin(w, v, voters)) && ReignOk(TakeWin(w, v, voters), w.nodes[v].term)
    requires TakeWin(w, v, voters).ack(v, w.nodes[v].term) == |w.nodes[v].log| + 1
    ensures CoreOk(TakeWin(w, v, voters), v)
  {
    hide Inv, RoleOk, CommitOk, MatchOk, Grows, Known, KeepOk, BallotOk, CandOk, VoteOk;
    var w', n := TakeWin(w, v, voters), w.nodes[v];
    Facts(w, v);
    GrowsKeepsSize(w, w');
    assert w'.vote == w.vote && w'.cand == w.cand;
    SameVotes(w, w', v);
    SameCand(w, w', v);
    BallotKept(w, w', v);
    KeepKept(w, w', v);
    assert w'.log(n.term) == w'.nodes[v].log;
    OwnAck(w, w', v);
  }

  lemma SameVotes(w: World, w': World, v: nat)
    requires v < |w.nodes| && Grows(w, w') && VoteOk(w, v) && w'.vote == w.vote && w'.cand == w.cand
    requires w'.nodes[v].vote == w.nodes[v].vote && w'.nodes[v].term == w.nodes[v].term
    ensures VoteOk(w', v)
  {}

  /** The leader confirms its own log. */
  lemma OwnAck(w: World, w': World, v: nat)
    requires v < |w.nodes| && Grows(w, w') && AckOk(w, v) && w'.nodes[v].term == w.nodes[v].term
    requires var n' := w'.nodes[v]; n'.log == w'.log(n'.term) && w'.ack(v, n'.term) == |n'.log|
    requires forall t: nat :: t != w.nodes[v].term ==> w'.ack(v, t) == w.ack(v, t)
    ensures AckOk(w', v)
  {
    forall t: nat
      ensures w'.ack(v, t) <= |w'.log(t)|
    {
      assert w.log(t) <= w'.log(t) && w.ack(v, t) <= |w.log(t)|;
    }
  }

  /** A longer log is certified as far as before, and its external indices are the same. */
  lemma CommitOfLonger(w: World, w': World, v: nat)
    requires Grows(w, w') && v < |w.nodes| && CommitOk(w, v)
    requires var n, n' := w.nodes[v], w'.nodes[v];
             && n.log <= n'.log && n'.term >= n.term && n'.base == n.base && n'.snap == n.snap
             && n'.commit == n.commit && n'.applied == n.applied
    ensures CommitOk(w', v)
  {
    hide Grows, Certified;
    GrowsKeepsSize(w, w');
    var n, n' := w.nodes[v], w'.nodes[v];
    CertifiedSize(w, n.log, n.commit + 1, n.term);
    CertifiedSize(w, n.log, n.applied + 1, n.term);
    CertifiedLater(w, w', n.log, n.commit + 1, n.term, n'.term);
    CertifiedLater(w, w', n.log, n.applied + 1, n.term, n'.term);
    CertifiedOfLonger(w', n.log, n'.log, n.commit + 1, n'.term);
    CertifiedOfLonger(w', n.log, n'.log, n.applied + 1, n'.term);
    ExternalOfPrefix(n.log, n'.log, n.base);
  }

  lemma WinKeeps(w: World, v: nat, voters: set<nat>)
    requires Inv(w) && Shaped(w) && Enabled(w, Win(v, voters))
    ensures Inv(Take(w, Win(v, voters)))
  {
    hide Inv, CoreOk, Complete, Grows, Only, CommitOk, ReignOk;
    var w', n := Take(w, Win(v, voters)), w.nodes[v];
    WinGrows(w, v, voters);
    WinReign(w, v, voters);
    WinComplete(w, v, voters);
    WinCore(w, v, voters);
    Facts(w, v);
    WinIsFirst(w, v, voters);
    CommitOfLonger(w, w', v);
    assert RoleOk(w', v) && MatchOk(w', v);
    RefusedKept(w, v);
    Assemble(w, w', v);
  }

  // ----- the leader's log

  lemma SubmitGrows(w: World, v: nat, value: int)
    requires Inv(w) && Shaped(w) && Enabled(w, Submit(v, value))
    ensures var w' := TakeSubmit(w, v, value); Grows(w, w') && Only(w, w', v)
    ensures var w', n := TakeSubmit(w, v, value), w.nodes[v]; w'.ack(v, n.term) == |n.log| + 1
  {
    hide Inv, Known, KeepOk, BallotOk, CommitOk, MatchOk, CandOk, AckOk;
    Facts(w, v);
    AckBounded(w, v, w.nodes[v].term);
  }

  lemma SubmitReign(w: World, v: nat, value: int)
    requires Inv(w) && Shaped(w) && Enabled(w, Submit(v, value))
    requires Grows(w, TakeSubmit(w, v, value))
    ensures ReignOk(TakeSubmit(w, v, value), w.nodes[v].term)
  {
    hide Inv, KeepOk, BallotOk, CommitOk, MatchOk, AckOk, VoteOk, Grows, CandOk;
    var w', n, e := TakeSubmit(w, v, value), w.nodes[v], Entry(w.nodes[v].term, Normal(value));
    Facts(w, v);
    ReignFacts(w, n.term);
    assert w'.log(n.term) == n.log + [e];
    KnownGrows(w, w', n.log);
    KnownExtended(w', n.log, e);
    assert (n.log + [e])[..w.start(n.term)] == n.log[..w.start(n.term)];
  }

  lemma SubmitCore(w: World, v: nat, value: int)
    requires Inv(w) && Shaped(w) && Enabled(w, Submit(v, value))
    requires Grows(w, TakeSubmit(w, v, value)) && ReignOk(TakeSubmit(w, v, value), w.nodes[v].term)
    requires TakeSubmit(w, v, value).ack(v, w.nodes[v].term) == |w.nodes[v].log| + 1
    ensures CoreOk(TakeSubmit(w, v, value), v)
  {
    hide Inv, RoleOk, CommitOk, MatchOk, Grows, Known, KeepOk, BallotOk, CandOk, VoteOk;
    var w', n := TakeSubmit(w, v, value), w.nodes[v];
    Facts(w, v);
    GrowsKeepsSize(w, w');
    assert w'.vote == w.vote && w'.cand == w.cand;
    SameVotes(w, w', v);
    SameCand(w, w', v);
    BallotKept(w, w', v);
    KeepKept(w, w', v);
    assert w'.log(n.term) == w'.nodes[v].log;
    OwnAck(w, w', v);
  }

  lemma SubmitKeeps(w: World, v: nat, value: int)
    requires Inv(w) && Shaped(w) && Enabled(w, Submit(v, value))
    ensures Inv(Take(w, Submit(v, value)))
  {
    hide Inv, CoreOk, Complete, Grows, Only, CommitOk, ReignOk;
    var w', n := Take(w, Submit(v, value)), w.nodes[v];
    SubmitGrows(w, v, value);
    SubmitReign(w, v, value);
    SubmitCore(w, v, value);
    Facts(w, v);
    CompleteKept(w, w');
    CommitOfLonger(w, w', v);
    assert RoleOk(w', v);
    SubmitMatch(w, v, value);
    RefusedKept(w, v);
    Assemble(w, w', v);
  }

  lemma SubmitMatch(w: World, v: nat, value: int)
    requires Inv(w) && Shaped(w) && Enabled(w, Submit(v, value))
    requires TakeSubmit(w, v, value).ack(v, w.nodes[v].term) == |w.nodes[v].log| + 1
    ensures MatchOk(TakeSubmit(w, v, value), v)
  {
    hide Inv, CoreOk, RoleOk, CommitOk;
    Facts(w, v);
  }
}
