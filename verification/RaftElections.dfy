/** Elections (src/raft/raft.go:317-361, 658-726): beginning one, voting, winning, and the leader's
own additions to its log. */
module RaftElections {
  import opened RaftNode
  import opened RaftWorld
  import opened RaftKeeps
  import opened RaftQuiet

  // ----- beginning an election

  lemma ElectGrows(w: World, v: nat)
    requires Inv(w) && v < |w.nodes|
    ensures Grows(w, TakeElect(w, v)) && Only(w, TakeElect(w, v), v)
  {
    hide Inv, Known, RoleOk, AckOk, KeepOk, BallotOk, CommitOk, MatchOk;
    Facts(w, v);
    var t := w.nodes[v].term + 1;
    assert w.vote(v, t) == NOBODY;
    assert w.cand(v, t) == [];
  }

  lemma ElectCore(w: World, v: nat)
    requires Inv(w) && v < |w.nodes|
    requires Grows(w, TakeElect(w, v))
    ensures CoreOk(TakeElect(w, v), v)
  {
    hide Inv, RoleOk, CommitOk, MatchOk, Grows;
    var w', n := TakeElect(w, v), w.nodes[v];
    Facts(w, v);
    GrowsKeepsSize(w, w');
    KnownGrows(w, w', n.log);
    AckKeptAtElection(w, w', v);
    KeepKept(w, w', v);
    ElectVotes(w, w', v);
    ElectBallots(w, w', v);
  }

  lemma AckKeptAtElection(w: World, w': World, v: nat)
    requires v < |w.nodes| && w' == TakeElect(w, v) && Grows(w, w') && AckOk(w, v)
    ensures AckOk(w', v)
  {
    hide Grows;
    assert w'.log == w.log && w'.ack == w.ack;
    assert w.ack(v, w.nodes[v].term + 1) == 0;
  }

  lemma ElectVotes(w: World, w': World, v: nat)
    requires v < |w.nodes| && w' == TakeElect(w, v) && Grows(w, w') && VoteOk(w, v) && CandOk(w, v)
    requires TermsOk(w.nodes[v]) && Known(w', w.nodes[v].log)
    ensures VoteOk(w', v) && CandOk(w', v)
  {
    hide Known;
    var n := w.nodes[v];
    forall t: nat | w'.vote(v, t) != NOBODY
      ensures t <= w'.nodes[v].term && 0 <= w'.vote(v, t) < |w'.nodes| && w'.cand(w'.vote(v, t), t) != []
    {
      if t != n.term + 1 {
        assert w.vote(v, t) == w'.vote(v, t);
        assert w.cand(w.vote(v, t), t) != [];
      }
    }
    forall t: nat | w'.cand(v, t) != []
      ensures 2 <= t <= w'.nodes[v].term && Known(w', w'.cand(v, t))
    {
      if t != n.term + 1 {
        assert w.cand(v, t) == w'.cand(v, t);
        KnownGrows(w, w', w.cand(v, t));
      }
    }
  }

  lemma ElectBallots(w: World, w': World, v: nat)
    requires v < |w.nodes| && w' == TakeElect(w, v) && Grows(w, w') && VoteOk(w, v)
    requires AckOk(w, v) && KeepOk(w, v) && BallotOk(w, v)
    ensures BallotOk(w', v)
  {
    hide Choosable, KeepOk, AckOk;
    forall t: nat, k: nat, u: nat | t < u && w'.vote(v, u) >= 0 && Choosable(w', t, k) && k <= w'.ack(v, t)
      ensures k <= |w'.log(t)| && w'.log(t)[..k] <= w'.cand(w'.vote(v, u), u)
    {
      if u == w.nodes[v].term + 1 {
        StillHas(w, w', v, t, k);
        WasChoosable(w, w', v, t, k);
      } else {
        assert w.vote(v, u) == w'.vote(v, u);
        WasChoosable(w, w', v, t, k);
        assert w.cand(w.vote(v, u), u) != [];
      }
    }
  }

  /** A leader's term is not beyond its own. */
  lemma LeaderReached(w: World, t: nat, v: nat)
    requires Inv(w) && Elected(w, t) && t > 1 && w.leader(t) == v && v < |w.nodes|
    ensures t <= w.nodes[v].term
  {
    hide Inv, Known, VoteOk, AckOk, KeepOk, BallotOk, RoleOk, CommitOk, MatchOk;
    ReignFacts(w, t);
    Facts(w, v);
    assert w.cand(v, t) == w.log(t)[..w.start(t)];
  }

  lemma ElectKeeps(w: World, v: nat)
    requires Inv(w) && Shaped(w) && Enabled(w, Elect(v))
    ensures Inv(Take(w, Elect(v)))
  {
    hide Inv, Certified, Grows, Only, CoreOk, Complete, KeepOk, Known;
    var w', n := Take(w, Elect(v)), w.nodes[v];
    ElectGrows(w, v);
    ElectCore(w, v);
    Facts(w, v);
    CompleteKept(w, w');
    if Elected(w, n.term + 1) && w.leader(n.term + 1) == v {
      CoreTerm(w, v);
      LeaderReached(w, n.term + 1, v);
    }
    CertifiedLater(w, w', n.log, n.commit + 1, n.term, n.term + 1);
    CertifiedLater(w, w', n.log, n.applied + 1, n.term, n.term + 1);
    CoreTerm(w, v);
    assert RoleOk(w', v) && CommitOk(w', v) && MatchOk(w', v);
    RefusedKept(w, v);
    Assemble(w, w', v);
  }

  lemma CoreTerm(w: World, v: nat)
    requires v < |w.nodes| && CoreOk(w, v)
    ensures w.nodes[v].term >= 1 && w.nodes[v].log != []
  {}

  lemma RefusedKept(w: World, v: nat)
    requires Inv(w) && v < |w.nodes|
    ensures forall t: nat :: w.refused(v, t) ==> w.nodes[v].term >= t
  {}

  lemma CertifiedLater(w: World, w': World, log: Log, n: nat, term: nat, term': nat)
    requires Grows(w, w') && Certified(w, log, n, term) && term <= term'
    ensures Certified(w', log, n, term')
  {
    CertifiedGrows(w, w', log, n, term);
  }

  // ----- an election that begins late

  /** For everything but the election itself, beginning late is beginning. */
  lemma LateLikeElect(w: World, v: nat)
    requires Inv(w) && v < |w.nodes|
    ensures var w' := TakeLate(w, v); Grows(w, w') && Only(w, w', v) && CoreOk(w', v)
  {
    hide Inv, Known, AckOk, KeepOk, BallotOk, VoteOk, CandOk, TermsOk, Choosable;
    var e, w' := TakeElect(w, v), TakeLate(w, v);
    ElectGrows(w, v);
    ElectCore(w, v);
    assert e.nodes[v].log == w'.nodes[v].log && e.nodes[v].term == w'.nodes[v].term;
    assert forall u: nat :: u < |w.nodes| ==> e.nodes[u].term == w'.nodes[u].term;
    SameCore(e, w', v);
  }

  /** The core of the invariant looks at a server's term, vote and log, and at everybody's term. */
  lemma SameCore(w: World, w': World, v: nat)
    requires |w'.nodes| == |w.nodes| && v < |w.nodes| && CoreOk(w, v)
    requires w'.nodes[v].term == w.nodes[v].term && w'.nodes[v].log == w.nodes[v].log
    requires w'.nodes[v].vote == w.nodes[v].vote
    requires forall u: nat :: u < |w.nodes| ==> w'.nodes[u].term == w.nodes[u].term
    requires w'.cand == w.cand && w'.vote == w.vote && w'.log == w.log && w'.start == w.start && w'.ack == w.ack
    ensures CoreOk(w', v)
  {
    forall t: nat, k: nat
      ensures Choosable(w', t, k) <==> Choosable(w, t, k)
    {
      assert Able(w', t, k) == Able(w, t, k);
    }
  }

  /** An election that begins late is harmless exactly if the server does not lead and is not a
      candidate whose own election goes on. */
  lemma LateElectSafeIff(w: World, v: nat)
    requires Inv(w) && Shaped(w) && v < |w.nodes|
    ensures Inv(TakeLate(w, v)) <==> LateIsSafe(w.nodes[v])
  {
    if LateIsSafe(w.nodes[v]) {
      LateElectKeeps(w, v);
    } else {
      LateElectBreaks(w, v);
    }
  }

  lemma LateElectKeeps(w: World, v: nat)
    requires Inv(w) && Shaped(w) && v < |w.nodes| && LateIsSafe(w.nodes[v])
    ensures Inv(TakeLate(w, v))
  {
    hide Inv, Certified, Grows, Only, CoreOk, Complete, KeepOk, Known;
    var w', n := TakeLate(w, v), w.nodes[v];
    LateLikeElect(w, v);
    Facts(w, v);
    CompleteKept(w, w');
    CertifiedLater(w, w', n.log, n.commit + 1, n.term, n.term + 1);
    CertifiedLater(w, w', n.log, n.applied + 1, n.term, n.term + 1);
    assert RoleOk(w', v) && CommitOk(w', v) && MatchOk(w', v);
    RefusedKept(w, v);
    Assemble(w, w', v);
  }

  /** A leader would lead a term that nobody elected it for, and a candidate's ballots would be for
      another term than the one it would lead. */
  lemma LateElectBreaks(w: World, v: nat)
    requires Inv(w) && Shaped(w) && v < |w.nodes| && !LateIsSafe(w.nodes[v])
    ensures !Inv(TakeLate(w, v))
  {
    hide Inv, CommitOk, MatchOk, Known, VoteOk, CandOk, AckOk, KeepOk, BallotOk;
    var w', n := TakeLate(w, v), w.nodes[v];
    Facts(w, v);
    if Elected(w, n.term + 1) && w.leader(n.term + 1) == v {
      LeaderReached(w, n.term + 1, v);
    }
    if Inv(w') {
      Facts(w', v);
    }
  }

  // ----- voting

  /** What was confirmed and could be chosen is in every log that is as up to date. */
  lemma UpToDateContains(w: World, c: Log, log: Log, t: nat, k: nat)
    requires Inv(w) && Choosable(w, t, k) && w.log(t)[..k] <= log
    requires Known(w, c) && Known(w, log) && c != [] && UpToDate(|c|, LastTerm(c), log)
    ensures w.log(t)[..k] <= c
  {
    hide NodeOk, AppendOk, InstallOk, AppliedOk, Able, IsQuorum;
    var a, b := LastTerm(log), LastTerm(c);
    assert log[..|log|] <= w.log(a) && c[..|c|] <= w.log(b);
    assert c[..|c|] == c && log[..|log|] == log;
    ReignFacts(w, t);
    ReignFacts(w, a);
    ReignFacts(w, b);
    assert log[k - 1] == w.log(t)[k - 1] && w.log(a)[k - 1] == log[k - 1];
    assert t <= a <= b;
    if t < b {
      assert k <= w.start(b) && w.log(t)[..k] <= w.log(b);
      assert w.log(b)[|c| - 1] == c[|c| - 1];
    }
  }

  lemma VoteGrows(w: World, v: nat, candidate: nat, term: nat)
    requires Inv(w) && Shaped(w) && Enabled(w, Vote(v, candidate, term))
    ensures var w' := TakeVote(w, v, candidate, term); Grows(w, w') && Only(w, w', v)
  {
    hide Inv, Known, RoleOk, AckOk, KeepOk, BallotOk, CommitOk, MatchOk, CandOk, UpToDate;
    Facts(w, v);
    assert term > w.nodes[v].term ==> w.vote(v, term) == NOBODY;
  }

  lemma VoteVotes(w: World, v: nat, candidate: nat, term: nat)
    requires Inv(w) && Shaped(w) && Enabled(w, Vote(v, candidate, term))
    requires Grows(w, TakeVote(w, v, candidate, term))
    ensures VoteOk(TakeVote(w, v, candidate, term), v)
  {
    hide Inv, Known, RoleOk, AckOk, KeepOk, BallotOk, CommitOk, MatchOk, CandOk, UpToDate;
    Facts(w, v);
    var w' := TakeVote(w, v, candidate, term);
    forall t: nat | w'.vote(v, t) != NOBODY
      ensures t <= w'.nodes[v].term && 0 <= w'.vote(v, t) < |w'.nodes| && w'.cand(w'.vote(v, t), t) != []
    {
      assert w'.vote(v, t) == w.vote(v, t) || (t == term && w'.vote(v, t) == candidate);
      assert w.vote(v, t) != NOBODY ==> w.cand(w.vote(v, t), t) != [];
    }
  }

  lemma VoteBallots(w: World, v: nat, candidate: nat, term: nat)
    requires Inv(w) && Shaped(w) && Enabled(w, Vote(v, candidate, term))
    requires Grows(w, TakeVote(w, v, candidate, term))
    ensures BallotOk(TakeVote(w, v, candidate, term), v)
  {
    hide Inv, Known, RoleOk, KeepOk, CommitOk, MatchOk, AckOk, UpToDate, Grows;
    var w', n := TakeVote(w, v, candidate, term), w.nodes[v];
    Facts(w, v);
    CandidateKnown(w, candidate, term);
    forall t: nat, k: nat, u: nat | t < u && w'.vote(v, u) >= 0 && Choosable(w', t, k) && k <= w'.ack(v, t)
      ensures k <= |w'.log(t)| && w'.log(t)[..k] <= w'.cand(w'.vote(v, u), u)
    {
      WasChoosable(w, w', v, t, k);
      if w'.vote(v, u) == w.vote(v, u) {
        assert w.log(t)[..k] <= w.cand(w.vote(v, u), u);
      } else {
        StillHas(w, w', v, t, k);
        UpToDateContains(w, w.cand(candidate, term), n.log, t, k);
      }
    }
  }

  lemma CandidateKnown(w: World, candidate: nat, term: nat)
    requires Inv(w) && candidate < |w.nodes| && w.cand(candidate, term) != []
    ensures Known(w, w.cand(candidate, term)) && term >= 2
  {
    hide Inv, Known, VoteOk, AckOk, KeepOk, BallotOk, RoleOk, CommitOk, MatchOk;
    Facts(w, candidate);
  }

  lemma VoteCore(w: World, v: nat, candidate: nat, term: nat)
    requires Inv(w) && Shaped(w) && Enabled(w, Vote(v, candidate, term))
    requires Grows(w, TakeVote(w, v, candidate, term))
    ensures CoreOk(TakeVote(w, v, candidate, term), v)
  {
    hide Inv, RoleOk, CommitOk, MatchOk, Grows, Known, AckOk, KeepOk, BallotOk, CandOk, VoteOk, TermsOk, UpToDate;
    var w', n := TakeVote(w, v, candidate, term), w.nodes[v];
    Facts(w, v);
    GrowsKeepsSize(w, w');
    KnownGrows(w, w', n.log);
    TermsKept(n, w'.nodes[v]);
    VoteVotes(w, v, candidate, term);
    VoteBallots(w, v, candidate, term);
    assert w'.ack == w.ack && w'.cand == w.cand && w'.log == w.log;
    SameAck(w, w', v);
    SameCand(w, w', v);
    KeepKept(w, w', v);
  }

  lemma SameAck(w: World, w': World, v: nat)
    requires v < |w.nodes| && Grows(w, w') && AckOk(w, v)
    requires w'.ack == w.ack && w'.log == w.log && w'.nodes[v].log == w.nodes[v].log
    ensures AckOk(w', v)
  {
    assert w'.nodes[v].term > w.nodes[v].term ==> w.ack(v, w'.nodes[v].term) == 0;
  }

  lemma SameCand(w: World, w': World, v: nat)
    requires v < |w.nodes| && Grows(w, w') && CandOk(w, v) && w'.cand == w.cand
    ensures CandOk(w', v)
  {
    forall t: nat | w'.cand(v, t) != []
      ensures 2 <= t <= w'.nodes[v].term && Known(w', w'.cand(v, t))
    {
      KnownGrows(w, w', w.cand(v, t));
    }
  }

  lemma VoteKeeps(w: World, v: nat, candidate: nat, term: nat)
    requires Inv(w) && Shaped(w) && Enabled(w, Vote(v, candidate, term))
    ensures Inv(Take(w, Vote(v, candidate, term)))
  {
    hide Inv, Certified, Grows, Only, CoreOk, Complete, KeepOk, Known, UpToDate;
    var w', n := Take(w, Vote(v, candidate, term)), w.nodes[v];
    VoteGrows(w, v, candidate, term);
    VoteCore(w, v, candidate, term);
    Facts(w, v);
    CompleteKept(w, w');
    CertifiedLater(w, w', n.log, n.commit + 1, n.term, w'.nodes[v].term);
    CertifiedLater(w, w', n.log, n.applied + 1, n.term, w'.nodes[v].term);
    assert RoleOk(w', v) && CommitOk(w', v) && MatchOk(w', v);
    RefusedKept(w, v);
    Assemble(w, w', v);
  }
}
