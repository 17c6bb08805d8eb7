/** What a leader can do with followers that are not stuck (src/raft/raft.go:599-631, 847-1043): bring all of them
to its log, commit a new command, and apply it. */
module RaftCommits {
  import opened RaftNode
  import opened RaftWorld
  import opened RaftKeeps
  import opened RaftQuiet
  import opened RaftSafety
  import opened RaftReplication
  import opened RaftMarks
  import opened RaftCatchUp
  import opened RaftProgress

  /** Reachable worlds are like this. */
  ghost predicate Sound(w: World) {
    Inv(w) && Marks(w) && Shaped(w)
  }

  lemma Next(w: World, step: Step)
    requires Sound(w) && Enabled(w, step)
    ensures Leads(w, [step], Take(w, step)) && Sound(Take(w, step))
  {
    hide Inv, Shaped, Enabled, Take, Marks;
    One(w, step);
    StepMarks(w, step);
  }

  lemma Two(w: World, a: Step, b: Step)
    requires Sound(w) && Enabled(w, a) && Sound(Take(w, a)) && Enabled(Take(w, a), b)
    ensures Leads(w, [a, b], Take(Take(w, a), b)) && Sound(Take(Take(w, a), b))
  {
    hide Inv, Shaped, Enabled, Take, Marks, Leads;
    Next(w, a);
    Next(Take(w, a), b);
    Then(w, [a], Take(w, a), [b], Take(Take(w, a), b));
    assert [a] + [b] == [a, b];
  }

  // ----- a conversation between the leader and a follower, as steps

  /** Only the follower has changed. */
  ghost predicate OnlyNode(w: World, w': World, s: nat) {
    && |w'.nodes| == |w.nodes|
    && forall v: nat :: v < |w.nodes| && v != s ==> w'.nodes[v] == w.nodes[v]
  }

  ghost predicate KeepsAcks(w: World, w': World) {
    forall v: nat, t: nat :: w'.ack(v, t) >= w.ack(v, t)
  }

  /** Sending a message and delivering it. */
  lemma SendAndDeliver(w: World, c: nat, s: nat, prev: nat) returns (last: World)
    requires Sound(w) && c < |w.nodes| && s < |w.nodes| && s != c && w.nodes[c].role.Leader?
    requires w.nodes[c].base <= prev < |w.nodes[c].log| && w.nodes[s].applied < |w.nodes[s].log|
    ensures var m := AppendOf(w.nodes[c], c, prev);
            && Leads(w, [SendAppend(c, prev), Deliver(s, m)], last) && Sound(last) && OnlyNode(w, last, s)
            && KeepsAcks(w, last)
            && var (n, outcome) := OnAppend(w.nodes[s], m);
               && last.nodes[s] == n
               && (IsSuccess(outcome) ==> last.ack(s, m.term) >= Length(m))
               && (outcome.Refused? ==> last.refused(s, m.term))
  {
    hide Inv, Marks, Leads, OnAppend, Shaped;
    var m := AppendOf(w.nodes[c], c, prev);
    Next(w, SendAppend(c, prev));
    var mid := Take(w, SendAppend(c, prev));
    Two(w, SendAppend(c, prev), Deliver(s, m));
    last := Take(mid, Deliver(s, m));
  }

  /** The leader's snapshot for a follower that has refused. */
  lemma SendAndInstall(w: World, c: nat, s: nat) returns (last: World)
    requires Sound(w) && c < |w.nodes| && s < |w.nodes| && s != c && w.nodes[c].role.Leader?
    requires w.nodes[c].base < |w.nodes[c].log| && w.refused(s, w.nodes[c].term)
    ensures var m := InstallOf(w.nodes[c], c, s);
            && Leads(w, [SendInstall(c, s), DeliverInstall(s, m)], last) && Sound(last) && OnlyNode(w, last, s)
            && KeepsAcks(w, last) && last.nodes[s] == OnInstall(w.nodes[s], m)
  {
    hide Inv, Marks, Leads, OnInstall, Shaped;
    var m := InstallOf(w.nodes[c], c, s);
    Next(w, SendInstall(c, s));
    var mid := Take(w, SendInstall(c, s));
    Two(w, SendInstall(c, s), DeliverInstall(s, m));
    last := Take(mid, DeliverInstall(s, m));
  }

  /** One exchange is a run. */
  lemma ExchangeRuns(w: World, c: nat, s: nat, next: nat) returns (steps: seq<Step>, last: World)
    requires Sound(w) && c < |w.nodes| && s < |w.nodes| && s != c && w.nodes[c].role.Leader?
    requires Related(w.nodes[c], w.nodes[s])
    ensures Leads(w, steps, last) && Sound(last) && OnlyNode(w, last, s) && KeepsAcks(w, last)
    ensures var t := Exchange(w.nodes[c], c, s, w.nodes[s], next);
            last.nodes[s] == t.follower && (t.done ==> last.ack(s, w.nodes[c].term) >= |w.nodes[c].log|)
  {
    hide Sound, Leads, OnAppend, OnInstall, External, Matches, Takes, OnRefusal;
    var l, f, prev := w.nodes[c], w.nodes[s], Clamped(w.nodes[c], next) - 1;
    last := SendAndDeliver(w, c, s, prev);
    steps := [SendAppend(c, prev), Deliver(s, AppendOf(l, c, prev))];
    if Takes(l, f, prev) {
      TakenGivesLog(l, c, f, prev);
    } else {
      RefusedExchange(l, c, s, f, next);
      OtherIsRefused(l, c, f, prev);
      if OnRefusal(l, prev, l.log[prev].term, RefusalOf(l, f)).SendSnapshot? {
        var mid := last;
        last := SendAndInstall(mid, c, s);
        Then(w, steps, mid, [SendInstall(c, s), DeliverInstall(s, InstallOf(l, c, s))], last);
        steps := steps + [SendInstall(c, s), DeliverInstall(s, InstallOf(l, c, s))];
      }
    }
  }

  /** A server that is not in a later term before an exchange is not in one after it. */
  lemma StillRelated(w: World, c: nat, s: nat, next: nat, last: World)
    requires Sound(last) && c < |w.nodes| && s < |w.nodes| && s != c && w.nodes[c].role.Leader?
    requires Related(w.nodes[c], w.nodes[s]) && OnlyNode(w, last, s)
    requires last.nodes[s] == Exchange(w.nodes[c], c, s, w.nodes[s], next).follower
    ensures Related(last.nodes[c], last.nodes[s])
  {
    hide Inv, Marks, Shaped, External, Matches, OnRefusal, HasSnapshotPoint;
    LeaderRelates(last, c, s);
  }

  /** A number of exchanges is a run. */
  lemma {:induction false} AfterRuns(w: World, c: nat, s: nat, next: nat, n: nat)
    returns (steps: seq<Step>, last: World)
    requires Sound(w) && c < |w.nodes| && s < |w.nodes| && s != c && w.nodes[c].role.Leader?
    requires Related(w.nodes[c], w.nodes[s])
    ensures Leads(w, steps, last) && Sound(last) && OnlyNode(w, last, s) && KeepsAcks(w, last)
    ensures After(w.nodes[c], c, s, w.nodes[s], next, n).done ==>
              last.ack(s, w.nodes[c].term) >= |w.nodes[c].log|
    decreases n
  {
    hide Sound, Leads, Exchange, External, Matches;
    if n == 0 {
      Nothing(w);
      return [], w;
    }
    steps, last := ExchangeRuns(w, c, s, next);
    var t := Exchange(w.nodes[c], c, s, w.nodes[s], next);
    if !t.done {
      StillRelated(w, c, s, next, last);
      var mid, more := last, [];
      more, last := AfterRuns(mid, c, s, t.next, n - 1);
      Then(w, steps, mid, more, last);
      steps := steps + more;
    }
  }

  // ----- all followers

  /** The leader has heard that everybody below k has its log; it and the others are as before. */
  ghost predicate Heeded(w: World, w': World, c: nat, k: nat) {
    && c < |w.nodes| == |w'.nodes| == |w'.nodes[c].matched| == |w.nodes[c].matched| && w.nodes[c].log != []
    && w'.nodes[c] == w.nodes[c].(matched := w'.nodes[c].matched)
    && (forall v: nat :: v < |w.nodes| && (v < k || v == c) ==> w'.nodes[c].matched[v] >= |w.nodes[c].log| - 1)
    && (forall v: nat :: v < |w.nodes| && v != c && v >= k ==> w'.nodes[v] == w.nodes[v])
  }

  /** A follower is brought up to date, and the leader hears of it. */
  lemma BringOne(w: World, w': World, c: nat, k: nat) returns (steps: seq<Step>, last: World)
    requires Sound(w') && Heeded(w, w', c, k) && w.nodes[c].role.Leader? && k < |w.nodes| && k != c
    requires w.nodes[k].term <= w.nodes[c].term && !Stuck(w.nodes[c], w.nodes[k])
    ensures Leads(w', steps, last) && Sound(last) && Heeded(w, last, c, k + 1)
  {
    hide Leads, Inv, Marks, Shaped, External, Matches, After;
    var l := w'.nodes[c];
    LeaderRelates(w', c, k);
    CatchesUp(l, c, k, w'.nodes[k], 0, 3);
    var mid;
    steps, mid := AfterRuns(w', c, k, 0, 3);
    var reply := Reply(c, k, |l.log|);
    Next(mid, reply);
    last := Take(mid, reply);
    Then(w', steps, mid, [reply], last);
    steps := steps + [reply];
  }

  lemma {:induction false} BringAll(w: World, w': World, c: nat, k: nat) returns (steps: seq<Step>, last: World)
    requires Sound(w') && Heeded(w, w', c, k) && w.nodes[c].role.Leader? && k <= |w.nodes|
    requires forall v: nat :: v < |w.nodes| && v != c ==>
               w.nodes[v].term <= w.nodes[c].term && !Stuck(w.nodes[c], w.nodes[v])
    ensures Leads(w', steps, last) && Sound(last) && Heeded(w, last, c, |w.nodes|)
    decreases |w.nodes| - k
  {
    hide Leads, Sound, Stuck;
    if k == |w.nodes| {
      Nothing(w');
      return [], w';
    }
    if k == c {
      steps, last := BringAll(w, w', c, k + 1);
    } else {
      var a, mid := BringOne(w, w', c, k);
      var b;
      b, last := BringAll(w, mid, c, k + 1);
      Then(w', a, mid, b, last);
      steps := a + b;
    }
  }

  // ----- commit and apply

  lemma {:induction false} AllMatch(matched: seq<nat>, i: nat)
    requires forall s :: 0 <= s < |matched| ==> matched[s] >= i
    ensures Matching(matched, i) == |matched|
    decreases |matched|
  {
    if matched != [] {
      AllMatch(matched[1..], i);
    }
  }

  lemma MayCommitAll(n: Node)
    requires |n.log| > 0 && n.commit < |n.log| - 1 && n.matched != [] && n.log[|n.log| - 1].term == n.term
    requires forall s :: 0 <= s < |n.matched| ==> n.matched[s] >= |n.log| - 1
    ensures MayCommit(n, |n.log| - 1)
  {
    hide Matching;
    forall j | n.commit < j <= |n.log| - 1
      ensures IsMajority(Matching(n.matched, j), |n.matched|)
    {
      AllMatch(n.matched, j);
    }
  }

  /** Everything that is committed can be applied. */
  lemma {:induction false} ApplyAll(w: World, c: nat, i: nat) returns (steps: seq<Step>, last: World)
    requires Sound(w) && c < |w.nodes| && w.nodes[c].applied < i <= w.nodes[c].commit && i < |w.nodes[c].log|
    ensures Leads(w, steps, last) && Sound(last) && Applied(c, i, w.nodes[c].log[i]) in last.applied
    decreases i - w.nodes[c].applied
  {
    hide Leads, Inv, Marks, Shaped, External;
    Next(w, ApplyOne(c));
    var mid := Take(w, ApplyOne(c));
    steps, last := [ApplyOne(c)], mid;
    if w.nodes[c].applied + 1 < i {
      var more;
      more, last := ApplyAll(mid, c, i);
      Then(w, steps, mid, more, last);
      steps := steps + more;
    }
  }

  lemma AfterSubmit(w: World, c: nat, value: int) returns (last: World)
    requires Sound(w) && c < |w.nodes| && w.nodes[c].role.Leader? && c < |w.nodes[c].matched|
    ensures Leads(w, [Submit(c, value)], last) && Sound(last) && |last.nodes| == |w.nodes|
    ensures last.nodes == w.nodes[c := OnStart(w.nodes[c], c, value)]
  {
    hide Leads, Inv, Marks, Shaped;
    Next(w, Submit(c, value));
    last := Take(w, Submit(c, value));
  }

  /** Nothing that the leader has committed or applied is new. */
  lemma NotBeyondLog(w: World, c: nat)
    requires Inv(w) && Shaped(w) && c < |w.nodes|
    ensures var n := w.nodes[c]; n.commit < |n.log| && n.applied < |n.log| && n.log != [] && n.matched != []
    ensures |w.nodes[c].matched| == |w.nodes|
  {
    hide Inv, RoleOk, CoreOk, MatchOk, Certified;
    Facts(w, c);
    CertifiedSize(w, w.nodes[c].log, w.nodes[c].commit + 1, w.nodes[c].term);
  }

  /** A follower does not get stuck because the leader adds to its log. */
  lemma NotStuckByMore(l: Node, f: Node, c: nat, value: int)
    requires c < |l.matched| && f.log != [] && !Stuck(l, f)
    ensures !Stuck(OnStart(l, c, value), f)
  {}

  /** In every reachable world, a leader that nobody is ahead of and of which no follower is stuck can commit
      any command and apply it. */
  lemma CanCommit(first: World, before: seq<Step>, w: World, c: nat, value: int)
    returns (steps: seq<Step>, last: World)
    requires Initial(first) && Leads(first, before, w)
    requires c < |w.nodes| && c < |w.nodes[c].matched| && w.nodes[c].role.Leader?
    requires forall v: nat :: v < |w.nodes| && v != c ==>
               w.nodes[v].term <= w.nodes[c].term && !Stuck(w.nodes[c], w.nodes[v])
    ensures Leads(w, steps, last)
    ensures Applied(c, |w.nodes[c].log|, Entry(w.nodes[c].term, Normal(value))) in last.applied
  {
    hide Leads, Inv, Marks, Shaped, Stuck;
    TrimmedAtCommands(first, before, w);
    InvShaped(w);
    NotBeyondLog(w, c);
    var w1 := AfterSubmit(w, c, value);
    var i := |w.nodes[c].log|;
    assert Heeded(w1, w1, c, 0);
    forall v: nat | v < |w.nodes| && v != c
      ensures !Stuck(w1.nodes[c], w1.nodes[v])
    {
      LogNotEmpty(w, v);
      NotStuckByMore(w.nodes[c], w.nodes[v], c, value);
    }
    var a, w2 := BringAll(w1, w1, c, 0);
    Then(w, [Submit(c, value)], w1, a, w2);
    MayCommitAll(w2.nodes[c]);
    Next(w2, Commit(c, i));
    var w3 := Take(w2, Commit(c, i));
    Then(w, [Submit(c, value)] + a, w2, [Commit(c, i)], w3);
    var b;
    b, last := ApplyAll(w3, c, i);
    Then(w, [Submit(c, value)] + a + [Commit(c, i)], w3, b, last);
    steps := [Submit(c, value)] + a + [Commit(c, i)] + b;
  }
}
