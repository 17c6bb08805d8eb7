/** A follower takes over the leader's log (src/raft/raft.go:363-528): ordinary entries, the fix
package that starts at what the follower has applied, and snapshots. */
module RaftReplication {
  import opened RaftNode
  import opened RaftWorld
  import opened RaftKeeps
  import opened RaftQuiet
  import opened RaftElections
  import opened RaftLeaders

  /** Logs with an entry of the same term at an index agree up to it. */
  lemma SamePoint(w: World, a: Log, b: Log, i: nat)
    requires Known(w, a) && Known(w, b) && i < |a| && i < |b| && a[i].term == b[i].term
    ensures a[..i + 1] == b[..i + 1]
  {
    assert a[..i + 1] <= w.log(a[i].term) && b[..i + 1] <= w.log(b[i].term);
  }

  lemma ChosenIsChoosable(w: World, t: nat, k: nat)
    requires Chosen(w, t, k)
    ensures Choosable(w, t, k)
  {
    BiggerQuorum(|w.nodes|, Have(w, t, k), Able(w, t, k));
  }

  /** What is certified is in the log of every leader of the same or a later term. */
  lemma LeaderHasCertified(w: World, log: Log, n: nat, term: nat, u: nat)
    requires Inv(w) && Certified(w, log, n, term) && term <= u && Elected(w, u)
    ensures n <= |w.log(u)| && log[..n] == w.log(u)[..n]
  {
    hide NodeOk, AppendOk, InstallOk, AppliedOk, ReignOk;
    var t: nat, k: nat :| t <= term && Chosen(w, t, k) && n <= k && log[..n] == w.log(t)[..n];
    ChosenIsChoosable(w, t, k);
    if t < u {
      assert k <= w.start(u) && w.log(t)[..k] <= w.log(u);
      ReignFacts(w, u);
      assert w.log(t)[..n] == w.log(t)[..k][..n];
    }
  }

  /** The leader's log as it was when the message was sent. */
  ghost function SentLog(w: World, m: Append): Log
    requires Length(m) <= |w.log(m.term)|
  {
    w.log(m.term)[..Length(m)]
  }

  // ----- what the follower's log becomes

  lemma AppendFacts(w: World, m: Append)
    requires Inv(w) && m in w.appends
    ensures AppendOk(w, m) && ReignOk(w, m.term)
  {
    hide AppendOk, ReignOk, NodeOk, Complete, InstallOk, AppliedOk;
    assert AppendOk(w, m);
    AppendElected(w, m);
  }

  lemma AppendElected(w: World, m: Append)
    requires AppendOk(w, m)
    ensures Elected(w, m.term)
  {}

  lemma OrdinaryGivesSentLog(w: World, m: Append, log: Log)
    requires AppendOk(w, m) && ReignOk(w, m.term) && Known(w, log)
    requires |log| - 1 == m.prev && LastTerm(log) == m.prevTerm
    ensures log + m.entries == SentLog(w, m)
  {
    hide Certified;
    SamePoint(w, log, w.log(m.term), m.prev);
    assert log[..m.prev + 1] == log;
  }

  /** A fix package goes back to what was applied, and that the leader has. */
  lemma FixGivesSentLog(w: World, m: Append, log: Log)
    requires AppendOk(w, m) && m.prev + 1 <= |log| && log[..m.prev + 1] == w.log(m.term)[..m.prev + 1]
    ensures log[..m.prev + 1] + m.entries == SentLog(w, m)
  {
    hide Certified;
  }

  lemma PrefixHasSentLog(w: World, m: Append, log: Log)
    requires AppendOk(w, m) && ReignOk(w, m.term) && Known(w, log)
    requires m.prev + 1 <= |log| && log[..m.prev + 1] == w.log(m.term)[..m.prev + 1]
    requires Agrees(log, m.prev + 1, m.entries)
    ensures SentLog(w, m) <= log
  {
    hide Certified;
    if |m.entries| > 0 {
      var i := Length(m) - 1;
      assert log[m.prev + 1 + (|m.entries| - 1)].term == m.entries[|m.entries| - 1].term;
      assert m.entries[|m.entries| - 1] == w.log(m.term)[i];
      SamePoint(w, log, w.log(m.term), i);
    }
  }

  /** A log that the fix package corrects did not have all the leader sent. */
  lemma FixedWasShort(w: World, m: Append, log: Log, k: nat)
    requires AppendOk(w, m) && m.prev + 1 <= |log| && !Agrees(log, m.prev + 1, m.entries)
    requires k <= |w.log(m.term)| && w.log(m.term)[..k] <= log
    ensures k < Length(m)
  {
    hide Certified;
    if k >= Length(m) {
      forall i | 0 <= i < |m.entries|
        ensures log[m.prev + 1 + i].term == m.entries[i].term
      {
        assert w.log(m.term)[..k][m.prev + 1 + i] == m.entries[i];
      }
    }
  }

  /** The follower is in the leader's term; its log is as before or just what the leader sent,
      and still has what was applied and what it had of the leader's log. */
  ghost predicate Adopted(w: World, m: Append, n: Node, n': Node, success: bool) {
    && Length(m) <= |w.log(m.term)|
    && n'.term == m.term >= n.term
    && n'.role.Follower?
    && n'.vote == (if m.term > n.term then NOBODY else n.vote)
    && n' == n.(term := n'.term, role := n'.role, vote := n'.vote, log := n'.log, commit := n'.commit)
    && ((n'.log == n.log && n'.commit == n.commit) || (n'.log == SentLog(w, m) && n'.commit == m.commit))
    && n.applied < |n.log| && n.applied < |n'.log| && n'.log[..n.applied + 1] == n.log[..n.applied + 1]
    && (success ==> SentLog(w, m) <= n'.log)
    && (forall k: nat :: k <= |w.log(m.term)| && w.log(m.term)[..k] <= n.log ==> w.log(m.term)[..k] <= n'.log)
  }

  lemma OrdinaryAdopts(w: World, m: Append, n: Node)
    requires AppendOk(w, m) && ReignOk(w, m.term) && Known(w, n.log) && n.applied < |n.log|
    requires m.term >= n.term && |n.log| - 1 == m.prev && LastTerm(n.log) == m.prevTerm
    ensures var (n', outcome) := OnAppend(n, m); Adopted(w, m, n, n', true) && IsSuccess(outcome)
  {
    hide Certified, Known, AppendOk, ReignOk;
    OrdinaryGivesSentLog(w, m, n.log);
    SentIsPart(w, m);
  }

  lemma SentIsPart(w: World, m: Append)
    requires AppendOk(w, m)
    ensures Length(m) <= |w.log(m.term)|
  {}

  lemma FixAdopts(w: World, m: Append, n: Node)
    requires AppendOk(w, m) && ReignOk(w, m.term) && Known(w, n.log) && n.applied < |n.log|
    requires m.term >= n.term && |n.log| - 1 > m.prev && m.prev == n.applied
    requires n.applied + 1 <= |w.log(m.term)| && n.log[..n.applied + 1] == w.log(m.term)[..n.applied + 1]
    ensures var (n', outcome) := OnAppend(n, m); Adopted(w, m, n, n', true) && IsSuccess(outcome)
  {
    hide Certified, Known, AppendOk, ReignOk;
    SentIsPart(w, m);
    if Agrees(n.log, n.applied + 1, m.entries) {
      PrefixHasSentLog(w, m, n.log);
    } else {
      FixGivesSentLog(w, m, n.log);
      forall k: nat | k <= |w.log(m.term)| && w.log(m.term)[..k] <= n.log
        ensures w.log(m.term)[..k] <= SentLog(w, m)
      {
        FixedWasShort(w, m, n.log, k);
      }
    }
  }

  lemma DeliverAdopts(w: World, v: nat, m: Append)
    requires Inv(w) && Shaped(w) && Enabled(w, Deliver(v, m)) && m.term >= w.nodes[v].term
    ensures var (n', outcome) := OnAppend(w.nodes[v], m); Adopted(w, m, w.nodes[v], n', IsSuccess(outcome))
  {
    hide Inv, RoleOk, KeepOk, BallotOk, MatchOk, CandOk, AckOk, VoteOk, Certified, Agrees, ReignOk, AppendOk, Known;
    var n := w.nodes[v];
    Facts(w, v);
    AppendFacts(w, m);
    AppendElected(w, m);
    SentIsPart(w, m);
    if |n.log| - 1 == m.prev && LastTerm(n.log) == m.prevTerm {
      OrdinaryAdopts(w, m, n);
    } else if |n.log| - 1 > m.prev && m.prev == n.applied {
      LeaderHasCertified(w, n.log, n.applied + 1, n.term, m.term);
      FixAdopts(w, m, n);
    }
  }

  // ----- what that keeps

  lemma DeliverGrows(w: World, v: nat, m: Append)
    requires Inv(w) && Shaped(w) && Enabled(w, Deliver(v, m)) && m.term >= w.nodes[v].term
    ensures var w' := TakeDeliver(w, v, m); Grows(w, w') && Only(w, w', v)
  {
    hide Inv, SentLog, Agrees;
    DeliverAdopts(w, v, m);
  }

  lemma DeliverAck(w: World, v: nat, m: Append)
    requires Inv(w) && Shaped(w) && Enabled(w, Deliver(v, m)) && m.term >= w.nodes[v].term
    ensures AckOk(TakeDeliver(w, v, m), v)
  {
    hide Inv, Agrees, Known, VoteOk, CandOk, KeepOk, BallotOk, RoleOk, CommitOk, MatchOk, OnAppend;
    var w', n := TakeDeliver(w, v, m), w.nodes[v];
    Facts(w, v);
    DeliverAdopts(w, v, m);
    var n' := w'.nodes[v];
    assert w'.log == w.log;
    var k, k' := w.ack(v, m.term), w'.ack(v, m.term);
    assert k <= |w.log(m.term)| && w.log(m.term)[..k] <= n.log by {
      if n.term < m.term {
        assert k == 0;
      }
    }
    assert k' == k || w.log(m.term)[..k'] == SentLog(w, m);
  }

  /** The leader's log holds everything of earlier terms that could be chosen. */
  lemma SentLogKeeps(w: World, m: Append, t: nat, k: nat)
    requires Complete(w) && AppendOk(w, m) && t < m.term && Choosable(w, t, k)
    ensures Length(m) <= |w.log(m.term)| && w.log(t)[..k] <= SentLog(w, m)
  {
    hide Able, IsQuorum, Certified;
    assert k <= w.start(m.term) && w.log(t)[..k] <= w.log(m.term);
  }

  lemma DeliverKeep(w: World, v: nat, m: Append)
    requires Inv(w) && Shaped(w) && Enabled(w, Deliver(v, m)) && m.term >= w.nodes[v].term
    requires Grows(w, TakeDeliver(w, v, m)) && Complete(TakeDeliver(w, v, m))
    ensures KeepOk(TakeDeliver(w, v, m), v)
  {
    hide Inv, Complete, RoleOk, CommitOk, MatchOk, OnAppend, Grows, Choosable, ReignOk, AppendOk;
    hide Known, TermsOk, VoteOk, CandOk, AckOk, BallotOk;
    var w', n := TakeDeliver(w, v, m), w.nodes[v];
    Facts(w, v);
    DeliverAdopts(w, v, m);
    var n' := w'.nodes[v];
    if n'.log == n.log {
      KeepKept(w, w', v);
    } else {
      AppendFacts(w, m);
      AppendKept(w, w', m);
      forall t: nat, k: nat | t < n'.term && Choosable(w', t, k) && k <= w'.ack(v, t)
        ensures k <= |w'.log(t)| && w'.log(t)[..k] <= n'.log
      {
        PointFacts(w', t, k);
        SentLogKeeps(w', m, t, k);
      }
    }
  }

  lemma PointFacts(w: World, t: nat, k: nat)
    requires Choosable(w, t, k)
    ensures k <= |w.log(t)|
  {}

  lemma DeliverVote(w: World, v: nat, m: Append)
    requires Inv(w) && Shaped(w) && Enabled(w, Deliver(v, m)) && m.term >= w.nodes[v].term
    requires Grows(w, TakeDeliver(w, v, m))
    ensures VoteOk(TakeDeliver(w, v, m), v)
  {
    hide Inv, Agrees, Known, CandOk, KeepOk, BallotOk, RoleOk, CommitOk, MatchOk, AckOk, OnAppend, SentLog;
    Facts(w, v);
    DeliverAdopts(w, v, m);
    var w' := TakeDeliver(w, v, m);
    assert w'.vote == w.vote && w'.cand == w.cand;
  }

  lemma DeliverLog(w: World, v: nat, m: Append)
    requires Inv(w) && Shaped(w) && Enabled(w, Deliver(v, m)) && m.term >= w.nodes[v].term
    requires Grows(w, TakeDeliver(w, v, m))
    ensures Known(TakeDeliver(w, v, m), TakeDeliver(w, v, m).nodes[v].log) && TermsOk(TakeDeliver(w, v, m).nodes[v])
  {
    hide Inv, Agrees, CandOk, KeepOk, BallotOk, RoleOk, CommitOk, MatchOk, AckOk, OnAppend, Grows, Known;
    var w', n := TakeDeliver(w, v, m), w.nodes[v];
    Facts(w, v);
    DeliverAdopts(w, v, m);
    AppendFacts(w, m);
    if w'.nodes[v].log == n.log {
      KnownGrows(w, w', n.log);
    } else {
      KnownPart(w, w.log(m.term), Length(m));
      KnownGrows(w, w', SentLog(w, m));
    }
  }

  lemma KnownPart(w: World, log: Log, n: nat)
    requires Known(w, log) && n <= |log|
    ensures Known(w, log[..n])
  {
    forall i | 0 <= i < n
      ensures log[..n][..i + 1] <= w.log(log[..n][i].term)
    {
      assert log[..n][..i + 1] == log[..i + 1];
    }
  }

  lemma DeliverCore(w: World, v: nat, m: Append)
    requires Inv(w) && Shaped(w) && Enabled(w, Deliver(v, m)) && m.term >= w.nodes[v].term
    requires Grows(w, TakeDeliver(w, v, m)) && Complete(TakeDeliver(w, v, m))
    ensures CoreOk(TakeDeliver(w, v, m), v)
  {
    hide Inv, RoleOk, CommitOk, MatchOk, Grows, Known, AckOk, KeepOk, BallotOk, CandOk, VoteOk, TermsOk, OnAppend;
    var w' := TakeDeliver(w, v, m);
    Facts(w, v);
    GrowsKeepsSize(w, w');
    assert w'.vote == w.vote && w'.cand == w.cand;
    DeliverLog(w, v, m);
    DeliverVote(w, v, m);
    DeliverAck(w, v, m);
    DeliverKeep(w, v, m);
    SameCand(w, w', v);
    BallotKept(w, w', v);
  }

  lemma AdoptedCommit(w: World, w': World, m: Append, n: Node, n': Node, success: bool)
    requires Grows(w, w') && AppendOk(w, m) && Adopted(w, m, n, n', success)
    requires Certified(w, n.log, n.commit + 1, n.term) && Certified(w, n.log, n.applied + 1, n.term)
    ensures Certified(w', n'.log, n'.commit + 1, n'.term) && Certified(w', n'.log, n'.applied + 1, n'.term)
  {
    hide Grows, Certified;
    CertifiedLater(w, w', n.log, n.applied + 1, n.term, n'.term);
    CertifiedOfLonger(w', n.log, n'.log, n.applied + 1, n'.term);
    if n'.log == n.log && n'.commit == n.commit {
      CertifiedLater(w, w', n.log, n.commit + 1, n.term, n'.term);
    } else {
      CertifiedLater(w, w', w.log(m.term), m.commit + 1, m.term, n'.term);
      CertifiedOfLonger(w', w.log(m.term), n'.log, m.commit + 1, n'.term);
    }
  }

  lemma ExternalUpTo(a: Log, b: Log, n: nat, i: nat)
    requires i < n <= |a| && n <= |b| && a[..n] == b[..n]
    ensures External(a, i) == External(b, i)
  {
    assert a[..i + 1] == a[..n][..i + 1] && b[..i + 1] == b[..n][..i + 1];
    ExternalOfPrefix(a, b, i);
  }

  lemma DeliverCommit(w: World, v: nat, m: Append)
    requires Inv(w) && Shaped(w) && Enabled(w, Deliver(v, m)) && m.term >= w.nodes[v].term
    requires Grows(w, TakeDeliver(w, v, m))
    ensures CommitOk(TakeDeliver(w, v, m), v)
  {
    hide Inv, RoleOk, CoreOk, MatchOk, Grows, Certified, OnAppend, ReignOk, AppendOk, SentLog;
    var w', n := TakeDeliver(w, v, m), w.nodes[v];
    Facts(w, v);
    DeliverAdopts(w, v, m);
    AppendFacts(w, m);
    var n' := w'.nodes[v];
    AdoptedCommit(w, w', m, n, n', IsSuccess(OnAppend(n, m).1));
    ExternalUpTo(n.log, n'.log, n.applied + 1, n.base);
  }

  lemma DeliverKeeps(w: World, v: nat, m: Append)
    requires Inv(w) && Shaped(w) && Enabled(w, Deliver(v, m))
    ensures Inv(Take(w, Deliver(v, m)))
  {
    hide Inv, CoreOk, Complete, Grows, Only, CommitOk, ReignOk, OnAppend;
    var w', n := Take(w, Deliver(v, m)), w.nodes[v];
    if m.term < n.term {
      StaleChangesNothing(w, v, m);
    } else {
      DeliverGrows(w, v, m);
      CompleteKept(w, w');
      DeliverCore(w, v, m);
      DeliverCommit(w, v, m);
      Facts(w, v);
      DeliverAdopts(w, v, m);
      assert RoleOk(w', v) && MatchOk(w', v);
      RefusedKept(w, v);
      Assemble(w, w', v);
    }
  }

  lemma StaleChangesNothing(w: World, v: nat, m: Append)
    requires Inv(w) && Shaped(w) && Enabled(w, Deliver(v, m)) && m.term < w.nodes[v].term
    ensures Inv(Take(w, Deliver(v, m)))
  {
    hide Inv;
    var w' := Take(w, Deliver(v, m));
    assert w'.nodes == w.nodes;
    assert w' == w;
  }

  // ----- snapshots

  lemma {:induction false} ExternalMonotone(log: Log, i: nat, j: nat)
    requires i <= j < |log|
    ensures External(log, i) <= External(log, j)
    decreases j
  {
    if i < j {
      ExternalMonotone(log, i, j - 1);
    }
  }

  lemma InstallFacts(w: World, m: Install)
    requires Inv(w) && m in w.installs
    ensures InstallOk(w, m) && ReignOk(w, m.term)
  {
    hide AppendOk, ReignOk, NodeOk, Complete, AppliedOk, Certified;
    assert InstallOk(w, m);
    ReignFacts(w, m.term);
  }

  /** A snapshot that is accepted reaches further than the server has trimmed its log. */
  lemma SnapshotIsAhead(w: World, v: nat, m: Install)
    requires Inv(w) && Shaped(w) && Enabled(w, DeliverInstall(v, m)) && Accepts(w.nodes[v], m)
    ensures w.nodes[v].base < |m.prefix| && w.nodes[v].term == m.term
  {
    hide Inv, RoleOk, CoreOk, MatchOk, Certified, ReignOk;
    var n := w.nodes[v];
    Facts(w, v);
    InstallFacts(w, m);
    var k := |m.prefix| - 1;
    if k < n.base {
      LeaderHasCertified(w, n.log, n.applied + 1, n.term, m.term);
      ExternalUpTo(n.log, w.log(m.term), n.applied + 1, n.base);
      ExternalUpTo(m.prefix, w.log(m.term), k + 1, k);
      ExternalMonotone(w.log(m.term), k, n.base);
    }
  }

  /** The new log holds the snapshot, and what the server had of the leader's log. */
  lemma InstallAdopts(w: World, v: nat, m: Install)
    requires Inv(w) && Shaped(w) && Enabled(w, DeliverInstall(v, m)) && Accepts(w.nodes[v], m)
    ensures var n, n' := w.nodes[v], OnInstall(w.nodes[v], m);
            && m.prefix <= n'.log
            && (n'.log == n.log || n'.log == m.prefix)
            && (forall k: nat :: k <= |w.log(m.term)| && w.log(m.term)[..k] <= n.log ==> w.log(m.term)[..k] <= n'.log)
  {
    hide Inv, RoleOk, MatchOk, Certified, VoteOk, CandOk, AckOk, KeepOk, BallotOk, CommitOk, TermsOk;
    var n := w.nodes[v];
    Facts(w, v);
    InstallFacts(w, m);
    SnapshotIsAhead(w, v, m);
    var last := |m.prefix| - 1;
    assert m.prefix[last] == w.log(m.term)[last];
    if HasSnapshotPoint(n, m) {
      SamePoint(w, n.log, w.log(m.term), last);
    } else {
      forall k: nat | k <= |w.log(m.term)| && w.log(m.term)[..k] <= n.log
        ensures w.log(m.term)[..k] <= m.prefix
      {
        if k > last {
          PrefixEntry(w.log(m.term), k, n.log, last);
        }
      }
    }
  }

  lemma PrefixEntry(a: Log, k: nat, b: Log, i: nat)
    requires i < k <= |a| && a[..k] <= b
    ensures i < |b| && b[i] == a[i]
  {
    assert a[..k][i] == a[i];
  }

  lemma InstallCore(w: World, v: nat, m: Install)
    requires Inv(w) && Shaped(w) && Enabled(w, DeliverInstall(v, m)) && Accepts(w.nodes[v], m)
    ensures CoreOk(Take(w, DeliverInstall(v, m)), v)
  {
    hide Inv, RoleOk, MatchOk, Certified, CommitOk, OnInstall, KeepOk, Known, BallotOk, VoteOk, CandOk;
    var w', n := Take(w, DeliverInstall(v, m)), w.nodes[v];
    Facts(w, v);
    InstallShape(n, m);
    SnapshotIsAhead(w, v, m);
    InstallAdopts(w, v, m);
    QuietGrows(w, w', v);
    SameVotes(w, w', v);
    SameCand(w, w', v);
    BallotKept(w, w', v);
    InstallLog(w, v, m);
    InstallKeep(w, v, m);
    assert AckOk(w', v);
  }

  lemma InstallShape(n: Node, m: Install)
    requires m.prefix != [] && Accepts(n, m)
    ensures var n' := OnInstall(n, m);
            && n'.term == n.term && n'.vote == n.vote && n'.role.Follower? && n'.matched == n.matched
            && n'.pending == n.pending && n'.live == n.live
            && n'.base == n'.applied == n'.commit == |m.prefix| - 1 && n'.snap == m.snap
  {}

  lemma InstallLog(w: World, v: nat, m: Install)
    requires Inv(w) && Shaped(w) && Enabled(w, DeliverInstall(v, m)) && Accepts(w.nodes[v], m)
    ensures var w' := Take(w, DeliverInstall(v, m)); Known(w', w'.nodes[v].log) && TermsOk(w'.nodes[v])
  {
    hide Inv, RoleOk, MatchOk, Certified, CommitOk, OnInstall, KeepOk, BallotOk, VoteOk, CandOk, Known;
    var w', n := Take(w, DeliverInstall(v, m)), w.nodes[v];
    Facts(w, v);
    InstallFacts(w, m);
    InstallShape(n, m);
    InstallAdopts(w, v, m);
    SnapshotIsAhead(w, v, m);
    QuietGrows(w, w', v);
    KnownGrows(w, w', n.log);
    KnownPart(w, w.log(m.term), |m.prefix|);
    assert m.prefix == w.log(m.term)[..|m.prefix|];
    KnownGrows(w, w', m.prefix);
  }

  lemma InstallKeep(w: World, v: nat, m: Install)
    requires Inv(w) && Shaped(w) && Enabled(w, DeliverInstall(v, m)) && Accepts(w.nodes[v], m)
    ensures KeepOk(Take(w, DeliverInstall(v, m)), v)
  {
    hide Inv, RoleOk, MatchOk, Certified, CommitOk, OnInstall, BallotOk, VoteOk, CandOk, Known, Able, IsQuorum, ReignOk;
    var w', n := Take(w, DeliverInstall(v, m)), w.nodes[v];
    Facts(w, v);
    InstallFacts(w, m);
    InstallShape(n, m);
    InstallAdopts(w, v, m);
    SnapshotIsAhead(w, v, m);
    QuietGrows(w, w', v);
    forall t: nat, k: nat | t < w'.nodes[v].term && Choosable(w', t, k) && k <= w'.ack(v, t)
      ensures w'.log(t)[..k] <= w'.nodes[v].log
    {
      StillHas(w, w', v, t, k);
      CompleteFor(w, w', t, k, m.term);
      assert w.log(m.term)[..k] == w.log(t)[..k];
    }
  }

  lemma InstallCommit(w: World, v: nat, m: Install)
    requires Inv(w) && Shaped(w) && Enabled(w, DeliverInstall(v, m)) && Accepts(w.nodes[v], m)
    ensures CommitOk(Take(w, DeliverInstall(v, m)), v)
  {
    hide Inv, RoleOk, CoreOk, MatchOk, Certified, OnInstall, ReignOk;
    var w', n := Take(w, DeliverInstall(v, m)), w.nodes[v];
    InstallFacts(w, m);
    InstallShape(n, m);
    InstallAdopts(w, v, m);
    SnapshotIsAhead(w, v, m);
    QuietGrows(w, w', v);
    var n', k := w'.nodes[v], |m.prefix|;
    CertifiedLater(w, w', w.log(m.term), k, m.term, n'.term);
    CertifiedOfLonger(w', w.log(m.term), n'.log, k, n'.term);
    ExternalUpTo(m.prefix, n'.log, k, k - 1);
  }

  lemma InstallKeeps(w: World, v: nat, m: Install)
    requires Inv(w) && Shaped(w) && Enabled(w, DeliverInstall(v, m))
    ensures Inv(Take(w, DeliverInstall(v, m)))
  {
    hide Inv, CoreOk, CommitOk, ReignOk, Grows, Only, Complete;
    var w', n := Take(w, DeliverInstall(v, m)), w.nodes[v];
    if Accepts(n, m) {
      InstallShape(n, m);
      QuietGrows(w, w', v);
      InstallCore(w, v, m);
      InstallCommit(w, v, m);
      Facts(w, v);
      CompleteKept(w, w');
      assert RoleOk(w', v) && MatchOk(w', v);
      RefusedKept(w, v);
      Assemble(w, w', v);
    } else {
      assert w'.nodes == w.nodes;
      assert w' == w;
    }
  }
}
