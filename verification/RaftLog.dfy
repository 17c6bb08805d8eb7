/** The log that Raft gives to a service: the commands of the entries chosen so far.  It only grows, and
every service has been sent a part of it from the beginning. */
module RaftLog {
  import opened RaftNode
  import opened RaftWorld
  import opened RaftKeeps
  import opened RaftQuiet
  import opened RaftElections
  import opened RaftLeaders
  import opened RaftReplication
  import opened RaftSafety
  import opened RaftStream

  /** The commands up to an index. */
  ghost function Commands(log: Log, i: nat): seq<int>
    requires i < |log|
  {
    if i == 0 then []
    else
      Commands(log, i - 1) +
      match log[i].command
      case Normal(value) => [value]
      case Noop => []
  }

  lemma {:induction false} CommandsCount(log: Log, i: nat)
    requires i < |log|
    ensures |Commands(log, i)| == External(log, i)
    ensures i > 0 && log[i].command.Normal? ==>
              |Commands(log, i)| > 0 && Commands(log, i)[|Commands(log, i)| - 1] == log[i].command.value
  {
    if i > 0 {
      CommandsCount(log, i - 1);
    }
  }

  lemma {:induction false} CommandsGrow(log: Log, i: nat, j: nat)
    requires i <= j < |log|
    ensures Commands(log, i) <= Commands(log, j)
    decreases j
  {
    if i < j {
      CommandsGrow(log, i, j - 1);
    }
  }

  lemma {:induction false} CommandsOfSame(a: Log, b: Log, n: nat, i: nat)
    requires i < n <= |a| && n <= |b| && a[..n] == b[..n]
    ensures Commands(a, i) == Commands(b, i)
    decreases i
  {
    if i > 0 {
      CommandsOfSame(a, b, n, i - 1);
      assert a[..n][i] == b[..n][i];
    }
  }

  // ----- the last chosen point

  ghost predicate IsLastPoint(w: World, t: nat, k: nat) {
    && Chosen(w, t, k)
    && (forall u: nat, j: nat :: Chosen(w, u, j) ==> u < t || (u == t && j <= k))
  }

  /** The commands of the entries chosen so far. */
  ghost predicate IsLog(w: World, c: seq<int>) {
    exists t: nat, k: nat :: IsLastPoint(w, t, k) && 0 < k <= |w.log(t)| && c == Commands(w.log(t), k - 1)
  }

  lemma LogIsOne(w: World, a: seq<int>, b: seq<int>)
    requires IsLog(w, a) && IsLog(w, b)
    ensures a == b
  {
    hide Chosen;
    var t: nat, k: nat :| IsLastPoint(w, t, k) && 0 < k <= |w.log(t)| && a == Commands(w.log(t), k - 1);
    var u: nat, j: nat :| IsLastPoint(w, u, j) && 0 < j <= |w.log(u)| && b == Commands(w.log(u), j - 1);
    assert Chosen(w, t, k) && Chosen(w, u, j);
  }

  ghost predicate AnyChosen(w: World, t: nat) {
    exists k: nat :: Chosen(w, t, k)
  }

  /** The largest k at which something is chosen in a term. */
  lemma {:induction false} LastInTerm(w: World, t: nat, j: nat, bound: nat) returns (k: nat)
    requires Chosen(w, t, j) && j <= bound
    requires forall i: nat :: Chosen(w, t, i) ==> i <= bound
    ensures Chosen(w, t, k) && forall i: nat :: Chosen(w, t, i) ==> i <= k
    decreases bound
  {
    hide Chosen;
    if Chosen(w, t, bound) {
      k := bound;
    } else {
      k := LastInTerm(w, t, j, bound - 1);
    }
  }

  lemma {:induction false} LastTermChosen(w: World, u: nat, bound: nat) returns (t: nat)
    requires AnyChosen(w, u) && u <= bound
    requires forall v: nat :: AnyChosen(w, v) ==> v <= bound
    ensures AnyChosen(w, t) && forall v: nat :: AnyChosen(w, v) ==> v <= t
    decreases bound
  {
    hide AnyChosen;
    if AnyChosen(w, bound) {
      t := bound;
    } else {
      t := LastTermChosen(w, u, bound - 1);
    }
  }

  ghost function HighestTerm(nodes: seq<Node>): (t: nat)
    ensures forall v :: 0 <= v < |nodes| ==> nodes[v].term <= t
  {
    if nodes == [] then 0
    else
      var n := |nodes| - 1;
      var t := HighestTerm(nodes[..n]);
      if nodes[n].term > t then nodes[n].term else t
  }

  /** Nothing is chosen in a term that nobody has reached. */
  lemma ChosenIsReached(w: World, t: nat, k: nat)
    requires Inv(w) && Chosen(w, t, k)
    ensures t <= HighestTerm(w.nodes)
  {
    hide Inv;
    var s := QuorumsMeet(|w.nodes|, Have(w, t, k), Have(w, t, k));
    AckBounded(w, s, t);
  }

  lemma SomethingIsChosen(w: World) returns (t: nat, k: nat)
    requires Inv(w)
    ensures Chosen(w, t, k)
  {
    hide Chosen;
    SomeServer(w);
    Facts(w, 0);
    var n := w.nodes[0];
    assert Certified(w, n.log, n.commit + 1, n.term);
    t, k :| t <= n.term && Chosen(w, t, k) && n.commit + 1 <= k;
  }

  lemma SomeServer(w: World)
    requires Inv(w)
    ensures |w.nodes| > 0
  {
    hide NodeOk, ReignOk, Complete, AppendOk, InstallOk, AppliedOk;
  }

  lemma LogExists(w: World) returns (c: seq<int>)
    requires Inv(w)
    ensures IsLog(w, c)
  {
    var t0, k0 := SomethingIsChosen(w);
    forall v: nat | AnyChosen(w, v)
      ensures v <= HighestTerm(w.nodes)
    {
      var k: nat :| Chosen(w, v, k);
      ChosenIsReached(w, v, k);
    }
    hide Inv;
    assert AnyChosen(w, t0);
    var t := LastTermChosen(w, t0, HighestTerm(w.nodes));
    var j: nat :| Chosen(w, t, j);
    var k := LastInTerm(w, t, j, |w.log(t)|);
    forall u: nat, i: nat | Chosen(w, u, i)
      ensures u < t || (u == t && i <= k)
    {
      assert AnyChosen(w, u);
    }
    assert IsLastPoint(w, t, k);
    c := Commands(w.log(t), k - 1);
  }

  // ----- what is chosen is in the log

  /** The commands of a chosen point are the beginning of the log. */
  lemma ChosenIsInLog(w: World, t: nat, k: nat, c: seq<int>)
    requires Inv(w) && Chosen(w, t, k) && IsLog(w, c)
    ensures 0 < k <= |w.log(t)| && Commands(w.log(t), k - 1) <= c
  {
    hide NodeOk, ReignOk, AppendOk, InstallOk, AppliedOk, Have, Able, IsQuorum;
    var u: nat, j: nat :| IsLastPoint(w, u, j) && 0 < j <= |w.log(u)| && c == Commands(w.log(u), j - 1);
    if t < u {
      ChosenIsChoosable(w, t, k);
      assert Elected(w, u);
      assert k <= w.start(u) && w.log(t)[..k] <= w.log(u);
      CommandsOfSame(w.log(t), w.log(u), k, k - 1);
      CommandsGrow(w.log(u), k - 1, j - 1);
    } else {
      CommandsGrow(w.log(u), k - 1, j - 1);
    }
  }

  /** The log only grows. */
  lemma LogGrows(w: World, w': World, c: seq<int>, c': seq<int>)
    requires Inv(w') && Grows(w, w') && IsLog(w, c) && IsLog(w', c')
    ensures c <= c'
  {
    hide Inv, Have, IsQuorum;
    var t: nat, k: nat :| IsLastPoint(w, t, k) && 0 < k <= |w.log(t)| && c == Commands(w.log(t), k - 1);
    ChosenGrows(w, w', t, k);
    ChosenIsInLog(w', t, k, c');
    assert w.log(t) <= w'.log(t);
    CommandsOfSame(w.log(t), w'.log(t), |w.log(t)|, k - 1);
  }

  /** What a service is sent is in the log, at its index. */
  lemma SentIsInLog(w: World, m: Msg, c: seq<int>)
    requires Inv(w) && MsgOk(w, m) && IsLog(w, c)
    ensures m.index <= |c| && (m.Apply? ==> 1 <= m.index && c[m.index - 1] == m.value)
  {
    hide Inv, Have, IsQuorum;
    var t: nat, k: nat, i: nat :| IsSource(w, m, t, k, i);
    ChosenIsInLog(w, t, k, c);
    CommandsCount(w.log(t), i);
    CommandsGrow(w.log(t), i, k - 1);
    if m.Apply? {
      FirstIsNoop(w, t);
    }
  }

  /** Index 0 holds no command. */
  lemma FirstIsNoop(w: World, t: nat)
    requires Inv(w) && Elected(w, t)
    ensures w.log(t)[0].command.Noop?
  {
    hide Inv, CoreOk, RoleOk, MatchOk, Certified;
    FirstChosen(w);
    ReignFacts(w, t);
    if t > 1 {
      FirstIsShared(w, t);
    }
  }

  lemma FirstChosen(w: World)
    requires Inv(w)
    ensures w.log(1) == [Sentinel()]
  {
    hide NodeOk, Complete, AppendOk, InstallOk, AppliedOk;
    assert ReignOk(w, 1);
  }

  /** Every log begins with the entry that every log begins with. */
  lemma FirstIsShared(w: World, t: nat)
    requires Inv(w) && Elected(w, t) && w.log(1) == [Sentinel()]
    ensures w.log(t)[0] == Sentinel()
  {
    hide NodeOk, Complete, AppendOk, InstallOk, AppliedOk;
    assert ReignOk(w, t);
    var first := w.log(t)[0];
    assert w.log(t)[..1] <= w.log(first.term);
    assert ReignOk(w, first.term);
  }
}
