/** What a step that concerns one server leaves true of everything else. */
module RaftKeeps {
  import opened RaftNode
  import opened RaftWorld

  /** Only server v changes, and only the log of a term that v leads. */
  ghost predicate Only(w: World, w': World, v: nat) {
    && |w'.nodes| == |w.nodes|
    && (forall u: nat :: u < |w.nodes| && u != v ==> w'.nodes[u] == w.nodes[u])
    && (forall u: nat, t: nat :: u != v ==> w'.cand(u, t) == w.cand(u, t))
    && (forall u: nat, t: nat :: u != v ==> w'.vote(u, t) == w.vote(u, t))
    && (forall u: nat, t: nat :: u != v ==> w'.ack(u, t) == w.ack(u, t))
    && (forall u: nat, t: nat :: u != v ==> w'.refused(u, t) == w.refused(u, t))
    && (forall t: nat :: w'.log(t) != w.log(t) ==> w'.leader(t) == v && (Elected(w, t) ==> w.leader(t) == v))
  }

  // ----- leaders

  lemma ReignKept(w: World, w': World, t: nat)
    requires Grows(w, w') && Elected(w, t) && ReignOk(w, t) && w'.log(t) == w.log(t)
    ensures ReignOk(w', t)
  {
    KnownGrows(w, w', w.log(t));
    if t > 1 {
      assert w.cand(w.leader(t), t) == w.log(t)[..w.start(t)];
    }
  }

  /** A voter of a leader's election has left all earlier terms. */
  lemma VoterHasLeft(w: World, s: nat, u: nat)
    requires Inv(w) && Elected(w, u) && u > 1 && s in w.ballots(u)
    ensures s < |w.nodes| && w.nodes[s].term >= u && w.vote(s, u) == w.leader(u)
  {
    hide Known, CandOk, AckOk, KeepOk, BallotOk, RoleOk, CommitOk, MatchOk, Complete, AppendOk, InstallOk, AppliedOk;
    assert ReignOk(w, u);
    assert s < |w.nodes|;
    assert NodeOk(w, s);
    assert VoteOk(w, s);
  }

  lemma AckBounded(w: World, s: nat, t: nat)
    requires Inv(w) && s < |w.nodes|
    ensures w.ack(s, t) <= |w.log(t)|
    ensures w.ack(s, t) > 0 ==> t <= w.nodes[s].term
    ensures w.ack(s, w.nodes[s].term) <= |w.log(w.nodes[s].term)|
    ensures w.log(w.nodes[s].term)[..w.ack(s, w.nodes[s].term)] <= w.nodes[s].log
  {
    hide Known, VoteOk, CandOk, KeepOk, BallotOk, RoleOk, CommitOk, MatchOk, Complete, AppendOk, InstallOk, AppliedOk;
    assert NodeOk(w, s);
    assert AckOk(w, s);
  }

  /** Once a later leader is elected, nothing new of an earlier term can be chosen. */
  lemma TooLateToChoose(w: World, w': World, t: nat, k: nat, u: nat)
    requires Inv(w) && Grows(w, w') && t < u && Elected(w, u) && k > |w.log(t)|
    ensures !Choosable(w', t, k)
  {
    hide NodeOk, Complete, AppendOk, InstallOk, AppliedOk, Known;
    assert ReignOk(w, u);
    if Choosable(w', t, k) {
      var s := QuorumsMeet(|w.nodes|, Able(w', t, k), w.ballots(u));
      VoterHasLeft(w, s, u);
      AckBounded(w, s, t);
    }
  }

  /** Earlier leaders stay complete. */
  lemma CompleteFor(w: World, w': World, t: nat, k: nat, u: nat)
    requires Inv(w) && Grows(w, w') && t < u && Elected(w, u) && Choosable(w', t, k)
    ensures k <= w'.start(u) && w'.log(t)[..k] <= w'.log(u)
  {
    hide NodeOk, AppendOk, InstallOk, AppliedOk, Known, ReignOk;
    if k > |w.log(t)| {
      TooLateToChoose(w, w', t, k, u);
    } else {
      ChoosableShrinks(w, w', t, k);
      assert k <= w.start(u) && w.log(t)[..k] <= w.log(u);
      assert w.log(t) <= w'.log(t) && w.log(u) <= w'.log(u);
      assert w'.log(t)[..k] == w.log(t)[..k];
    }
  }

  lemma CompleteKept(w: World, w': World)
    requires Inv(w) && Grows(w, w') && forall u: nat :: Elected(w', u) ==> Elected(w, u)
    ensures Complete(w')
  {
    hide Inv, Grows, Able, IsQuorum;
    forall t: nat, k: nat, u: nat | t < u && Elected(w', u) && Choosable(w', t, k)
      ensures k <= w'.start(u) && w'.log(t)[..k] <= w'.log(u)
    {
      CompleteFor(w, w', t, k, u);
    }
  }

  // ----- servers

  /** Nothing that server v has confirmed or voted changes. */
  ghost predicate SamePast(w: World, w': World, v: nat) {
    forall t: nat ::
      w'.cand(v, t) == w.cand(v, t) && w'.vote(v, t) == w.vote(v, t) && w'.ack(v, t) == w.ack(v, t)
  }

  lemma VoteKept(w: World, w': World, v: nat)
    requires Grows(w, w') && v < |w.nodes| && VoteOk(w, v) && SamePast(w, w', v)
    requires w'.nodes[v].term == w.nodes[v].term && w'.nodes[v].vote == w.nodes[v].vote
    ensures VoteOk(w', v)
  {
    forall t: nat | w'.vote(v, t) != NOBODY
      ensures t <= w'.nodes[v].term && 0 <= w'.vote(v, t) < |w'.nodes| && w'.cand(w'.vote(v, t), t) != []
    {
      assert w.vote(v, t) == w'.vote(v, t);
      assert w.cand(w.vote(v, t), t) != [];
    }
  }

  lemma CandKept(w: World, w': World, v: nat)
    requires Grows(w, w') && v < |w.nodes| && CandOk(w, v) && SamePast(w, w', v)
    ensures CandOk(w', v)
  {
    forall t: nat | w'.cand(v, t) != []
      ensures 2 <= t <= w'.nodes[v].term && Known(w', w'.cand(v, t))
    {
      assert w.cand(v, t) == w'.cand(v, t);
      KnownGrows(w, w', w.cand(v, t));
    }
  }

  lemma AckKept(w: World, w': World, v: nat)
    requires Grows(w, w') && v < |w.nodes| && AckOk(w, v) && SamePast(w, w', v)
    requires w.nodes[v].log <= w'.nodes[v].log
    ensures AckOk(w', v)
  {
    var n := w.nodes[v];
    forall t: nat
      ensures w'.ack(v, t) <= |w'.log(t)| && (w'.ack(v, t) > 0 ==> t <= n.term)
    {
      assert w.ack(v, t) <= |w.log(t)| && w.log(t) <= w'.log(t);
      assert w'.ack(v, t) == w.ack(v, t);
    }
    assert w'.nodes[v].term >= n.term;
    assert w.log(n.term) <= w'.log(n.term);
    assert w.log(n.term)[..w.ack(v, n.term)] == w'.log(n.term)[..w.ack(v, n.term)];
  }

  /** What could be chosen and was confirmed by v could be chosen before. */
  lemma WasChoosable(w: World, w': World, v: nat, t: nat, k: nat)
    requires Grows(w, w') && v < |w.nodes| && AckOk(w, v) && w'.ack(v, t) == w.ack(v, t)
    requires Choosable(w', t, k) && k <= w'.ack(v, t)
    ensures k <= |w.log(t)| && Choosable(w, t, k) && w'.log(t)[..k] == w.log(t)[..k]
  {
    assert w.ack(v, t) <= |w.log(t)|;
    ChoosableShrinks(w, w', t, k);
    assert w.log(t) <= w'.log(t);
  }

  lemma KeepKept(w: World, w': World, v: nat)
    requires Grows(w, w') && v < |w.nodes| && AckOk(w, v) && KeepOk(w, v)
    requires w.nodes[v].log <= w'.nodes[v].log
    requires forall t: nat :: t < w'.nodes[v].term ==> w'.ack(v, t) == w.ack(v, t)
    ensures KeepOk(w', v)
  {
    forall t: nat, k: nat | t < w'.nodes[v].term && Choosable(w', t, k) && k <= w'.ack(v, t)
      ensures w'.log(t)[..k] <= w'.nodes[v].log
    {
      StillHas(w, w', v, t, k);
    }
  }

  /** What v confirmed in its present or an earlier term it still has. */
  lemma StillHas(w: World, w': World, v: nat, t: nat, k: nat)
    requires Grows(w, w') && v < |w.nodes| && AckOk(w, v) && KeepOk(w, v)
    requires Choosable(w', t, k) && w'.ack(v, t) == w.ack(v, t) && k <= w.ack(v, t)
    ensures t <= w.nodes[v].term && w'.log(t)[..k] <= w.nodes[v].log
  {
    hide Grows, Able, IsQuorum, Have;
    WasChoosable(w, w', v, t, k);
    if t == w.nodes[v].term {
      assert w.log(t)[..k] <= w.log(t)[..w.ack(v, t)] <= w.nodes[v].log;
    }
  }

  lemma BallotKept(w: World, w': World, v: nat)
    requires Grows(w, w') && v < |w.nodes| && AckOk(w, v) && VoteOk(w, v) && BallotOk(w, v)
    requires forall t: nat :: w'.vote(v, t) == w.vote(v, t)
    ensures BallotOk(w', v)
  {
    hide Choosable;
    forall t: nat, k: nat, u: nat | t < u && w'.vote(v, u) >= 0 && Choosable(w', t, k) && k <= w'.ack(v, t)
      ensures w'.log(t)[..k] <= w'.cand(w'.vote(v, u), u)
    {
      assert w.vote(v, u) == w'.vote(v, u);
      assert u <= w.nodes[v].term;
      assert w'.ack(v, t) == w.ack(v, t);
      WasChoosable(w, w', v, t, k);
      assert w.cand(w.vote(v, u), u) != [];
    }
  }

  lemma CoreKept(w: World, w': World, v: nat)
    requires Grows(w, w') && v < |w.nodes| && CoreOk(w, v) && SamePast(w, w', v)
    requires w'.nodes[v].term == w.nodes[v].term && w'.nodes[v].vote == w.nodes[v].vote
    requires w'.nodes[v].log == w.nodes[v].log
    ensures CoreOk(w', v)
  {
    hide Grows, Known, TermsOk, VoteOk, CandOk, AckOk, KeepOk, BallotOk;
    GrowsKeepsSize(w, w');
    KnownGrows(w, w', w.nodes[v].log);
    TermsKept(w.nodes[v], w'.nodes[v]);
    VoteKept(w, w', v);
    CandKept(w, w', v);
    AckKept(w, w', v);
    KeepKept(w, w', v);
    BallotKept(w, w', v);
  }

  lemma TermsKept(n: Node, n': Node)
    requires TermsOk(n) && n'.log == n.log && n'.term >= n.term
    ensures TermsOk(n')
  {}

  lemma GrowsKeepsSize(w: World, w': World)
    requires Grows(w, w')
    ensures |w'.nodes| == |w.nodes|
  {}

  lemma OtherKept(w: World, w': World, v: nat, u: nat)
    requires Grows(w, w') && Only(w, w', v) && u < |w.nodes| && u != v && NodeOk(w, u)
    ensures NodeOk(w', u)
  {
    hide Grows, CoreOk, RoleOk, CommitOk, MatchOk;
    GrowsKeepsSize(w, w');
    assert w'.nodes[u] == w.nodes[u];
    CoreKept(w, w', u);
    OtherRole(w, w', v, u);
    CommitKept(w, w', u);
    MatchKept(w, w', u);
  }

  lemma CommitKept(w: World, w': World, u: nat)
    requires Grows(w, w') && u < |w.nodes| && w'.nodes[u] == w.nodes[u] && CommitOk(w, u)
    ensures CommitOk(w', u)
  {
    hide Grows, Certified;
    GrowsKeepsSize(w, w');
    var n := w.nodes[u];
    CertifiedGrows(w, w', n.log, n.commit + 1, n.term);
    CertifiedGrows(w, w', n.log, n.applied + 1, n.term);
  }

  lemma MatchKept(w: World, w': World, u: nat)
    requires Grows(w, w') && u < |w.nodes| && w'.nodes[u] == w.nodes[u] && MatchOk(w, u)
    ensures MatchOk(w', u)
  {
    var n := w.nodes[u];
    if n.role.Leader? {
      forall s | 0 <= s < |n.matched| && n.matched[s] > 0
        ensures w'.ack(s, n.term) > n.matched[s]
      {
        assert w'.ack(s, n.term) >= w.ack(s, n.term);
      }
    }
  }

  lemma OtherRole(w: World, w': World, v: nat, u: nat)
    requires Grows(w, w') && Only(w, w', v) && u < |w.nodes| && u != v && RoleOk(w, u)
    ensures RoleOk(w', u)
  {
    var n := w.nodes[u];
    assert w.log(n.term) <= w'.log(n.term);
    assert w.cand(u, n.live) == w'.cand(u, n.live);
    if Elected(w', n.live) && w'.leader(n.live) == u {
      assert w'.log(n.live) == w.log(n.live);
    }
  }

  // ----- messages and what was applied

  lemma AppendKept(w: World, w': World, m: Append)
    requires Grows(w, w') && AppendOk(w, m)
    ensures AppendOk(w', m)
  {
    hide Certified;
    var t := m.term;
    assert w.log(t) <= w'.log(t);
    PartOfLonger(w.log(t), w'.log(t), m.prev + 1, Length(m));
    CertifiedGrows(w, w', w.log(t), m.commit + 1, t);
    CertifiedOfLonger(w', w.log(t), w'.log(t), m.commit + 1, t);
  }

  lemma PartOfLonger(a: Log, b: Log, i: nat, j: nat)
    requires a <= b && i <= j <= |a|
    ensures b[i..j] == a[i..j] && (i > 0 ==> b[i - 1] == a[i - 1])
  {}

  lemma CertifiedOfLonger(w: World, log: Log, log': Log, n: nat, term: nat)
    requires Certified(w, log, n, term) && n <= |log'| && log'[..n] == log[..n]
    ensures Certified(w, log', n, term)
  {}

  lemma InstallKept(w: World, w': World, m: Install)
    requires Grows(w, w') && InstallOk(w, m)
    ensures InstallOk(w', m)
  {
    hide Certified;
    var t := m.term;
    assert w.log(t) <= w'.log(t);
    CertifiedGrows(w, w', w.log(t), |m.prefix|, t);
    CertifiedOfLonger(w', w.log(t), w'.log(t), |m.prefix|, t);
  }

  lemma AppliedKept(w: World, w': World, a: Applied)
    requires Grows(w, w') && AppliedOk(w, a)
    ensures AppliedOk(w', a)
  {
    var t: nat, k: nat :| Chosen(w, t, k) && a.index < k && w.log(t)[a.index] == a.entry;
    ChosenGrows(w, w', t, k);
    assert w.log(t) <= w'.log(t);
  }

  // ----- putting it together

  /** It is enough to look at the server that changed, at new leaders and longer logs, and at
      new messages. */
  lemma Assemble(w: World, w': World, v: nat)
    requires Inv(w) && Grows(w, w') && Only(w, w', v) && v < |w.nodes|
    requires NodeOk(w', v) && Complete(w')
    requires forall t: nat :: Elected(w', t) && w'.log(t) != w.log(t) ==> ReignOk(w', t)
    requires forall m :: m in w'.appends && m !in w.appends ==> AppendOk(w', m)
    requires forall m :: m in w'.installs && m !in w.installs ==> InstallOk(w', m)
    requires forall t: nat :: w'.refused(v, t) ==> w'.nodes[v].term >= t
    requires forall a :: a in w'.applied && a !in w.applied ==> AppliedOk(w', a)
    ensures Inv(w')
  {
    hide NodeOk, Complete, ReignOk, AppendOk, InstallOk, AppliedOk;
    assert w.log(1) <= w'.log(1);
    forall t: nat | Elected(w', t)
      ensures ReignOk(w', t)
    {
      if w'.log(t) == w.log(t) {
        ReignKept(w, w', t);
      }
    }
    forall u: nat | u < |w'.nodes|
      ensures NodeOk(w', u)
    {
      if u != v {
        OtherKept(w, w', v, u);
      }
    }
    forall m | m in w'.appends
      ensures AppendOk(w', m)
    {
      if m in w.appends {
        AppendKept(w, w', m);
      }
    }
    forall m | m in w'.installs
      ensures InstallOk(w', m)
    {
      if m in w.installs {
        InstallKept(w, w', m);
      }
    }
    forall a | a in w'.applied
      ensures AppliedOk(w', a)
    {
      if a in w.applied {
        AppliedKept(w, w', a);
      }
    }
    forall u: nat, t: nat | u < |w'.nodes| && w'.refused(u, t)
      ensures w'.nodes[u].term >= t
    {
      assert u != v ==> w'.nodes[u] == w.nodes[u] && w.refused(u, t);
    }
  }
}
