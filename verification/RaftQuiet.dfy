/** Steps that leave the past as it is: timeouts, replies, commitment, application, trimming,
restarts and the sending of messages. */
module RaftQuiet {
  import opened RaftNode
  import opened RaftWorld
  import opened RaftKeeps

  ghost predicate Quiet(w: World, w': World, v: nat)
    requires v < |w.nodes|
  {
    && |w'.nodes| == |w.nodes|
    && w'.nodes == w.nodes[v := w'.nodes[v]]
    && w'.cand == w.cand && w'.vote == w.vote && w'.log == w.log && w'.start == w.start
    && w'.leader == w.leader && w'.ballots == w.ballots && w'.ack == w.ack && w'.refused == w.refused
  }

  lemma QuietGrows(w: World, w': World, v: nat)
    requires v < |w.nodes| && Quiet(w, w', v) && w'.nodes[v].term == w.nodes[v].term
    ensures Grows(w, w') && Only(w, w', v) && SamePast(w, w', v)
  {}

  /** Only the parts of the invariant about the server's own bookkeeping are left to check. */
  lemma QuietKeeps(w: World, w': World, v: nat)
    requires Inv(w) && v < |w.nodes| && Quiet(w, w', v)
    requires var n, n' := w.nodes[v], w'.nodes[v]; n'.term == n.term && n'.vote == n.vote && n'.log == n.log
    requires RoleOk(w', v) && CommitOk(w', v) && MatchOk(w', v)
    requires forall m :: m in w'.appends && m !in w.appends ==> AppendOk(w', m)
    requires forall m :: m in w'.installs && m !in w.installs ==> InstallOk(w', m)
    requires forall a :: a in w'.applied && a !in w.applied ==> AppliedOk(w', a)
    ensures Inv(w')
  {
    hide CoreOk, RoleOk, CommitOk, MatchOk, Complete, ReignOk, AppendOk, InstallOk, AppliedOk, Grows, Only;
    QuietGrows(w, w', v);
    assert NodeOk(w, v);
    CoreKept(w, w', v);
    CompleteKept(w, w');
    Assemble(w, w', v);
  }

  lemma CertifiedSame(w: World, w': World, v: nat, log: Log, n: nat, term: nat)
    requires v < |w.nodes| && Quiet(w, w', v) && w'.nodes[v].term == w.nodes[v].term && Certified(w, log, n, term)
    ensures Certified(w', log, n, term)
  {
    hide Certified;
    QuietGrows(w, w', v);
    CertifiedGrows(w, w', log, n, term);
  }

  /** What is certified is certified in part. */
  lemma CertifiedPart(w: World, log: Log, n: nat, term: nat, m: nat)
    requires Certified(w, log, n, term) && m <= n
    ensures Certified(w, log, m, term)
  {
    var t: nat, k: nat :| t <= term && Chosen(w, t, k) && n <= k && log[..n] == w.log(t)[..n];
    assert log[..m] == log[..n][..m] && w.log(t)[..m] == w.log(t)[..n][..m];
  }

  /** The server's facts that the lemmas below start from. */
  lemma Facts(w: World, v: nat)
    requires Inv(w) && v < |w.nodes|
    ensures RoleOk(w, v) && CommitOk(w, v) && MatchOk(w, v) && CoreOk(w, v)
  {
    hide CoreOk, RoleOk, CommitOk, MatchOk, Complete, ReignOk, AppendOk, InstallOk, AppliedOk;
    assert NodeOk(w, v);
  }

  lemma TimeoutKeeps(w: World, v: nat)
    requires Inv(w) && Shaped(w) && Enabled(w, Timeout(v))
    ensures Inv(Take(w, Timeout(v)))
  {
    hide Inv, Certified;
    var w', n := Take(w, Timeout(v)), w.nodes[v];
    Facts(w, v);
    CertifiedSame(w, w', v, n.log, n.commit + 1, n.term);
    CertifiedSame(w, w', v, n.log, n.applied + 1, n.term);
    QuietKeeps(w, w', v);
  }

  lemma CancelKeeps(w: World, v: nat)
    requires Inv(w) && Shaped(w) && Enabled(w, Cancel(v))
    ensures Inv(Take(w, Cancel(v)))
  {
    hide Inv, Certified;
    var w', n := Take(w, Cancel(v)), w.nodes[v];
    Facts(w, v);
    CertifiedSame(w, w', v, n.log, n.commit + 1, n.term);
    CertifiedSame(w, w', v, n.log, n.applied + 1, n.term);
    QuietKeeps(w, w', v);
  }

  lemma ReplyKeeps(w: World, v: nat, s: nat, length: nat)
    requires Inv(w) && Shaped(w) && Enabled(w, Reply(v, s, length))
    ensures Inv(Take(w, Reply(v, s, length)))
  {
    hide Inv, Certified;
    var w', n := Take(w, Reply(v, s, length)), w.nodes[v];
    Facts(w, v);
    CertifiedSame(w, w', v, n.log, n.commit + 1, n.term);
    CertifiedSame(w, w', v, n.log, n.applied + 1, n.term);
    QuietKeeps(w, w', v);
  }

  /** A reply is harmless exactly if the server does not lead, or the other one has confirmed as much in the
      term that it leads; a reply from an earlier term of the same leader need not. */
  lemma ReplySafeIff(w: World, v: nat, s: nat, length: nat)
    requires Inv(w) && Shaped(w) && v < |w.nodes| && s < |w.nodes| && length > 0
    ensures Inv(SetNode(w, v, OnReply(w.nodes[v], s, length))) <==> ReplyIsSafe(w, w.nodes[v], s, length)
  {
    hide Inv, CoreOk, CommitOk;
    var n := w.nodes[v];
    var w' := SetNode(w, v, OnReply(n, s, length));
    Facts(w, v);
    if ReplyIsSafe(w, n, s, length) {
      ReplyKeeps(w, v, s, length);
    }
    if Inv(w') {
      Facts(w', v);
      assert w'.ack(s, n.term) == w.ack(s, n.term);
    }
  }

  lemma SendKeeps(w: World, v: nat)
    requires Inv(w) && Shaped(w) && Enabled(w, Send(v))
    ensures Inv(Take(w, Send(v)))
  {
    hide Inv, Certified;
    var w', n := Take(w, Send(v)), w.nodes[v];
    Facts(w, v);
    CertifiedSame(w, w', v, n.log, n.commit + 1, n.term);
    CertifiedSame(w, w', v, n.log, n.applied + 1, n.term);
    QuietKeeps(w, w', v);
  }

  lemma TrimKeeps(w: World, v: nat, k: nat)
    requires Inv(w) && Shaped(w) && Enabled(w, Trim(v, k))
    ensures Inv(Take(w, Trim(v, k)))
  {
    hide Inv, Certified;
    var w', n := Take(w, Trim(v, k)), w.nodes[v];
    Facts(w, v);
    CertifiedSame(w, w', v, n.log, n.commit + 1, n.term);
    CertifiedSame(w, w', v, n.log, n.applied + 1, n.term);
    QuietKeeps(w, w', v);
  }

  lemma RestartKeeps(w: World, v: nat)
    requires Inv(w) && Shaped(w) && Enabled(w, Restart(v))
    ensures Inv(Take(w, Restart(v)))
  {
    hide Inv, Certified;
    var w', n := Take(w, Restart(v)), w.nodes[v];
    Facts(w, v);
    CertifiedPart(w, n.log, n.applied + 1, n.term, 1);
    CertifiedPart(w, n.log, n.applied + 1, n.term, n.base + 1);
    CertifiedSame(w, w', v, n.log, 1, n.term);
    CertifiedSame(w, w', v, n.log, n.base + 1, n.term);
    QuietKeeps(w, w', v);
  }

  lemma ApplyCommit(w: World, v: nat)
    requires Inv(w) && Shaped(w) && Enabled(w, ApplyOne(v))
    ensures var w', n := Take(w, ApplyOne(v)), w.nodes[v];
            CommitOk(w', v) && AppliedOk(w', Applied(v, n.applied + 1, n.log[n.applied + 1]))
  {
    hide Inv, Certified, CoreOk, RoleOk, MatchOk, External, Grows;
    var w', n := Take(w, ApplyOne(v)), w.nodes[v];
    var i := n.applied + 1;
    Facts(w, v);
    CertifiedSame(w, w', v, n.log, n.commit + 1, n.term);
    CertifiedPart(w, n.log, n.commit + 1, n.term, i + 1);
    CertifiedSame(w, w', v, n.log, i + 1, n.term);
    CertifiedEntry(w', n.log, i + 1, n.term, Applied(v, i, n.log[i]));
  }

  lemma ApplyKeeps(w: World, v: nat)
    requires Inv(w) && Shaped(w) && Enabled(w, ApplyOne(v))
    ensures Inv(Take(w, ApplyOne(v)))
  {
    hide Inv, CoreOk, CommitOk, AppliedOk;
    var w' := Take(w, ApplyOne(v));
    Facts(w, v);
    ApplyCommit(w, v);
    QuietKeeps(w, w', v);
  }

  lemma CertifiedEntry(w: World, log: Log, n: nat, term: nat, a: Applied)
    requires Certified(w, log, n, term) && a.index + 1 == n && a.entry == log[a.index]
    ensures AppliedOk(w, a)
  {
    var t: nat, k: nat :| t <= term && Chosen(w, t, k) && n <= k && log[..n] == w.log(t)[..n];
    assert log[..n][a.index] == w.log(t)[..n][a.index];
  }

  // ----- commitment

  ghost function AtLeast(matched: seq<nat>, i: nat): set<nat> {
    set s: nat | s < |matched| && matched[s] >= i
  }

  lemma {:induction false} MatchingCounts(matched: seq<nat>, i: nat)
    ensures Matching(matched, i) == |AtLeast(matched, i)|
    decreases |matched|
  {
    if matched == [] {
      assert AtLeast(matched, i) == {};
    } else {
      var rest := matched[1..];
      MatchingCounts(rest, i);
      var here := if matched[0] >= i then {0} else {};
      ShiftedSize(AtLeast(rest, i), AtLeast(matched, i) - here);
      assert AtLeast(matched, i) == (AtLeast(matched, i) - here) + here;
    }
  }

  lemma {:induction false} ShiftedSize(a: set<nat>, b: set<nat>)
    requires forall s: nat :: s in a <==> s + 1 in b
    requires 0 !in b
    ensures |a| == |b|
    decreases |a|
  {
    if a == {} {
      forall s: nat
        ensures s !in b
      {
        assert s > 0 ==> s - 1 !in a;
      }
      assert b == {};
    } else {
      var x :| x in a;
      assert x + 1 in b;
      ShiftedSize(a - {x}, b - {x + 1});
    }
  }

  /** What a majority has confirmed is chosen. */
  lemma MajorityChooses(w: World, v: nat, i: nat)
    requires Inv(w) && v < |w.nodes| && w.nodes[v].role.Leader? && MayCommit(w.nodes[v], i) && i >= w.nodes[v].base
    ensures Certified(w, w.nodes[v].log, i + 1, w.nodes[v].term)
  {
    hide CoreOk, CommitOk, Complete, AppendOk, InstallOk, AppliedOk, Known, Inv;
    var n := w.nodes[v];
    Facts(w, v);
    ReignFacts(w, n.term);
    MatchingCounts(n.matched, i);
    var have := Have(w, n.term, i + 1);
    assert AtLeast(n.matched, i) <= have;
    assert IsMajority(Matching(n.matched, i), |n.matched|);
    BiggerQuorum(|w.nodes|, AtLeast(n.matched, i), have);
    assert Chosen(w, n.term, i + 1);
  }

  lemma ReignFacts(w: World, t: nat)
    requires Inv(w) && Elected(w, t)
    ensures ReignOk(w, t)
  {
    hide ReignOk;
  }

  lemma CommitKeeps(w: World, v: nat, i: nat)
    requires Inv(w) && Shaped(w) && Enabled(w, Commit(v, i))
    ensures Inv(Take(w, Commit(v, i)))
  {
    hide Inv, Certified;
    var w', n := Take(w, Commit(v, i)), w.nodes[v];
    Facts(w, v);
    if i < n.base {
      CertifiedPart(w, n.log, n.applied + 1, n.term, i + 1);
    } else {
      MajorityChooses(w, v, i);
    }
    CertifiedSame(w, w', v, n.log, i + 1, n.term);
    CertifiedSame(w, w', v, n.log, n.applied + 1, n.term);
    QuietKeeps(w, w', v);
  }

  /** As far as a majority has the log, and not further. */
  lemma {:induction false} AgreedBounds(n: Node, i: nat)
    requires i > 0
    ensures Agreed(n, i) >= i - 1
    ensures forall j :: i <= j <= Agreed(n, i) ==> IsMajority(Matching(n.matched, j), |n.matched|)
    ensures Agreed(n, i) < |n.log| ==> !IsMajority(Matching(n.matched, Agreed(n, i) + 1), |n.matched|)
    decreases |n.log| + 1 - i
  {
    hide Matching, IsMajority;
    if i <= |n.log| && IsMajority(Matching(n.matched, i), |n.matched|) {
      AgreedBounds(n, i + 1);
    }
  }

  /** What commitCheck does is a step of the protocol. */
  lemma CommitCheckMayCommit(n: Node)
    ensures var i := OnCommitCheck(n).commit; i == n.commit || MayCommit(n, i)
  {
    hide Matching, IsMajority;
    AgreedBounds(n, n.commit + 1);
  }

  /** Nobody has more of the leader's log than there is. */
  lemma NobodyIsAhead(w: World, v: nat)
    requires Inv(w) && v < |w.nodes| && w.nodes[v].role.Leader?
    ensures var n := w.nodes[v]; forall s :: 0 <= s < |n.matched| ==> n.matched[s] < |n.log|
  {
    hide CoreOk, CommitOk, Inv;
    var n := w.nodes[v];
    Facts(w, v);
    CoreNonempty(w, v);
    forall s | 0 <= s < |n.matched|
      ensures n.matched[s] < |n.log|
    {
      AckBounded(w, s, n.term);
    }
  }

  lemma CoreNonempty(w: World, v: nat)
    requires v < |w.nodes| && CoreOk(w, v)
    ensures w.nodes[v].log != []
  {}

  lemma {:induction false} NobodyMatches(matched: seq<nat>, i: nat)
    requires forall s :: 0 <= s < |matched| ==> matched[s] < i
    ensures Matching(matched, i) == 0
  {
    if matched != [] {
      NobodyMatches(matched[1..], i);
    }
  }

  /** The leader's entries from its own term on are all of its own term. */
  lemma OwnTermStays(w: World, v: nat, i: nat, j: nat)
    requires Inv(w) && v < |w.nodes| && w.nodes[v].role.Leader?
    requires i <= j < |w.nodes[v].log| && w.nodes[v].log[i].term == w.nodes[v].term
    ensures w.nodes[v].log[j].term == w.nodes[v].term
  {
    hide CoreOk, CommitOk, MatchOk, Inv, Known;
    Facts(w, v);
    ReignFacts(w, w.nodes[v].term);
  }

  /** Whatever the leader may commit, one commitCheck commits: in every reachable world the commit
      index reaches every entry of the leader's term that a majority has confirmed. */
  lemma CommitCheckAdvances(w: World, v: nat, i: nat)
    requires Inv(w) && v < |w.nodes| && w.nodes[v].role.Leader?
    requires w.nodes[v].base <= i && MayCommit(w.nodes[v], i)
    ensures OnCommitCheck(w.nodes[v]).commit >= i
  {
    hide Inv, Matching, IsMajority;
    var n := w.nodes[v];
    AgreedBounds(n, n.commit + 1);
    NobodyIsAhead(w, v);
    NobodyMatches(n.matched, |n.log|);
    var k := Agreed(n, n.commit + 1);
    NoMajorityOfNobody(|n.matched|);
    AgreedReaches(n, n.commit + 1, i);
    OwnTermStays(w, v, i, k);
  }

  lemma NoMajorityOfNobody(n: nat)
    ensures !IsMajority(0, n)
  {}

  lemma {:induction false} AgreedReaches(n: Node, i: nat, j: nat)
    requires 0 < i && j <= |n.log|
    requires forall l :: i <= l <= j ==> IsMajority(Matching(n.matched, l), |n.matched|)
    ensures Agreed(n, i) >= j
    decreases |n.log| + 1 - i
  {
    hide Matching, IsMajority;
    if i <= j {
      AgreedReaches(n, i + 1, j);
    } else {
      AgreedBounds(n, i);
    }
  }

  // ----- sending

  lemma SendAppendKeeps(w: World, v: nat, prev: nat)
    requires Inv(w) && Shaped(w) && Enabled(w, SendAppend(v, prev))
    ensures Inv(Take(w, SendAppend(v, prev)))
  {
    hide Inv, Certified;
    var w', n := Take(w, SendAppend(v, prev)), w.nodes[v];
    Facts(w, v);
    ReignFacts(w, n.term);
    CertifiedSame(w, w', v, n.log, n.commit + 1, n.term);
    CertifiedSame(w, w', v, n.log, n.applied + 1, n.term);
    CertifiedSize(w, n.log, n.commit + 1, n.term);
    assert AppendOk(w', AppendOf(n, v, prev));
    QuietKeeps(w, w', v);
  }

  lemma CertifiedSize(w: World, log: Log, n: nat, term: nat)
    requires Certified(w, log, n, term)
    ensures n <= |log|
  {}

  lemma NewInstallOk(w: World, v: nat, dst: nat)
    requires Inv(w) && Shaped(w) && Enabled(w, SendInstall(v, dst))
    ensures InstallOk(w, InstallOf(w.nodes[v], v, dst))
  {
    hide Inv, Certified, CoreOk, MatchOk;
    var n := w.nodes[v];
    Facts(w, v);
    CertifiedPart(w, n.log, n.applied + 1, n.term, n.base + 1);
    RefusedFacts(w, dst, n.term);
    ExternalOfPrefix(n.log, n.log[..n.base + 1], n.base);
  }

  lemma SendInstallKeeps(w: World, v: nat, dst: nat)
    requires Inv(w) && Shaped(w) && Enabled(w, SendInstall(v, dst))
    ensures Inv(Take(w, SendInstall(v, dst)))
  {
    hide Inv, CoreOk, Certified, InstallOk, Grows;
    var w', n := Take(w, SendInstall(v, dst)), w.nodes[v];
    Facts(w, v);
    CertifiedSame(w, w', v, n.log, n.commit + 1, n.term);
    CertifiedSame(w, w', v, n.log, n.applied + 1, n.term);
    NewInstallOk(w, v, dst);
    QuietGrows(w, w', v);
    InstallKept(w, w', InstallOf(n, v, dst));
    QuietKeeps(w, w', v);
  }

  lemma RefusedFacts(w: World, v: nat, t: nat)
    requires Inv(w) && v < |w.nodes| && w.refused(v, t)
    ensures w.nodes[v].term >= t
  {}

  /** External indices depend on nothing after the index. */
  lemma {:induction false} ExternalOfPrefix(a: Log, b: Log, i: nat)
    requires i < |a| && i < |b| && a[..i + 1] == b[..i + 1]
    ensures External(a, i) == External(b, i)
  {
    assert a[i] == a[..i + 1][i] && b[i] == b[..i + 1][i];
    if i > 0 {
      assert a[..i] == a[..i + 1][..i] && b[..i] == b[..i + 1][..i];
      ExternalOfPrefix(a, b, i - 1);
    }
  }
}
