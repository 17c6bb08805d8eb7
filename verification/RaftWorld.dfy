/** A cluster of Raft servers: its steps, what is remembered about the past, and the invariant.

Messages may be lost, repeated, delayed and reordered: a message once sent may be delivered at
any time and any number of times.
 */
module RaftWorld {
  import opened RaftNode

  /** An entry that some server has applied. */
  datatype Applied = Applied(server: nat, index: nat, entry: Entry)

  /** The servers, the messages sent, and the past: the log with which a server began its
      election in a term, whom a server voted for in a term, for each term the leader's log, its
      length when the leader was elected, the leader and its voters, how much of the leader's log
      of a term each server has confirmed in that term, and what was applied. */
  datatype World = World(
    nodes: seq<Node>,
    cand: (nat, nat) -> Log,
    vote: (nat, nat) -> int,
    log: nat -> Log,
    start: nat -> nat,
    leader: nat -> int,
    ballots: nat -> set<nat>,
    ack: (nat, nat) -> nat,
    appends: set<Append>,
    installs: set<Install>,
    refused: (nat, nat) -> bool,
    applied: set<Applied>)

  datatype Step =
    | Timeout(v: nat)
    | Elect(v: nat)
    | LateElect(v: nat)
    | Cancel(v: nat)
    | Vote(v: nat, candidate: nat, term: nat)
    | Win(v: nat, voters: set<nat>)
    | Submit(v: nat, value: int)
    | SendAppend(v: nat, prev: nat)
    | Deliver(v: nat, m: Append)
    | Reply(v: nat, s: nat, length: nat)
    | Commit(v: nat, i: nat)
    | ApplyOne(v: nat)
    | SendInstall(v: nat, dst: nat)
    | DeliverInstall(v: nat, snapshot: Install)
    | Trim(v: nat, k: nat)
    | Restart(v: nat)
    | Send(v: nat)

  // ----- majorities

  ghost predicate IsQuorum(n: nat, q: set<nat>) {
    (forall s :: s in q ==> s < n) && |q| >= n / 2 + 1
  }

  ghost function Below(n: nat): (all: set<nat>)
    ensures forall s: nat :: s in all <==> s < n
    ensures |all| == n
  {
    if n == 0 then {} else Below(n - 1) + {n - 1}
  }

  lemma {:induction false} SubsetSize(a: set<nat>, b: set<nat>)
    requires a <= b
    ensures |a| <= |b|
    decreases |a|
  {
    if a != {} {
      var x :| x in a;
      SubsetSize(a - {x}, b - {x});
    }
  }

  /** Two majorities have a common member. */
  lemma QuorumsMeet(n: nat, a: set<nat>, b: set<nat>) returns (s: nat)
    requires IsQuorum(n, a) && IsQuorum(n, b)
    ensures s in a && s in b
  {
    SubsetSize(a + b, Below(n));
    assert |a + b| + |a * b| == |a| + |b|;
    s :| s in a * b;
  }

  lemma BiggerQuorum(n: nat, a: set<nat>, b: set<nat>)
    requires IsQuorum(n, a) && a <= b && forall s :: s in b ==> s < n
    ensures IsQuorum(n, b)
  {
    SubsetSize(a, b);
  }

  // ----- the past

  ghost predicate Elected(w: World, t: nat) {
    w.log(t) != []
  }

  /** The servers that have, or could still confirm, the first k entries of the log of term t. */
  ghost function Able(w: World, t: nat, k: nat): set<nat> {
    set s: nat | s < |w.nodes| && (w.ack(s, t) >= k || w.nodes[s].term <= t)
  }

  ghost function Have(w: World, t: nat, k: nat): set<nat> {
    set s: nat | s < |w.nodes| && w.ack(s, t) >= k
  }

  /** The first k entries of the log of term t, the last of them of that term. */
  ghost predicate IsPoint(w: World, t: nat, k: nat) {
    t >= 1 && w.start(t) < k <= |w.log(t)|
  }

  /** They are, or could still be, confirmed by a majority in term t. */
  ghost predicate Choosable(w: World, t: nat, k: nat) {
    IsPoint(w, t, k) && IsQuorum(|w.nodes|, Able(w, t, k))
  }

  ghost predicate Chosen(w: World, t: nat, k: nat) {
    IsPoint(w, t, k) && IsQuorum(|w.nodes|, Have(w, t, k))
  }

  /** The log's first n entries were chosen in some term up to `term`. */
  ghost predicate Certified(w: World, log: Log, n: nat, term: nat) {
    && n <= |log|
    && exists t: nat, k: nat :: t <= term && Chosen(w, t, k) && n <= k && log[..n] == w.log(t)[..n]
  }

  // ----- the invariant

  /** Every entry came from the leader of its term, with all entries before it. */
  ghost predicate Known(w: World, log: Log) {
    forall i :: 0 <= i < |log| ==> log[..i + 1] <= w.log(log[i].term)
  }

  ghost predicate ReignOk(w: World, t: nat) {
    && t >= 1
    && w.start(t) < |w.log(t)|
    && Known(w, w.log(t))
    && (forall i :: 0 <= i < |w.log(t)| ==> w.log(t)[i].term <= t && (w.log(t)[i].term == t <==> i >= w.start(t)))
    && (t == 1 ==> w.log(t) == [Sentinel()])
    && (t > 1 ==>
          && w.start(t) > 0
          && 0 <= w.leader(t) < |w.nodes|
          && w.cand(w.leader(t), t) == w.log(t)[..w.start(t)]
          && IsQuorum(|w.nodes|, w.ballots(t))
          && (forall v :: v in w.ballots(t) ==> w.vote(v, t) == w.leader(t)))
  }

  ghost predicate VoteOk(w: World, v: nat)
    requires v < |w.nodes|
  {
    && (forall t: nat :: w.vote(v, t) != NOBODY ==>
          t <= w.nodes[v].term && 0 <= w.vote(v, t) < |w.nodes| && w.cand(w.vote(v, t), t) != [])
    && w.vote(v, w.nodes[v].term) == w.nodes[v].vote
  }

  ghost predicate CandOk(w: World, v: nat)
    requires v < |w.nodes|
  {
    forall t: nat :: w.cand(v, t) != [] ==> 2 <= t <= w.nodes[v].term && Known(w, w.cand(v, t))
  }

  ghost predicate RoleOk(w: World, v: nat)
    requires v < |w.nodes|
  {
    var n := w.nodes[v];
    && (n.role.Leader? ==> n.term >= 2 && Elected(w, n.term) && w.leader(n.term) == v && n.log == w.log(n.term))
    && (n.pending ==> n.live == 0 && !n.role.Leader?)
    && (n.live > 0 ==>
          && n.live <= n.term && w.cand(v, n.live) != []
          && !(Elected(w, n.live) && w.leader(n.live) == v)
          && !n.role.Leader?)
    && (n.live > 0 && n.role.Candidate? ==> n.term == n.live && n.log == w.cand(v, n.live))
  }

  ghost predicate AckOk(w: World, v: nat)
    requires v < |w.nodes|
  {
    var n := w.nodes[v];
    && (forall t: nat :: w.ack(v, t) <= |w.log(t)| && (w.ack(v, t) > 0 ==> t <= n.term))
    && w.log(n.term)[..w.ack(v, n.term)] <= n.log
  }

  /** What a server confirmed in an earlier term it still has, if it can still matter. */
  ghost predicate KeepOk(w: World, v: nat)
    requires v < |w.nodes|
  {
    forall t: nat, k: nat :: t < w.nodes[v].term && Choosable(w, t, k) && k <= w.ack(v, t) ==>
      w.log(t)[..k] <= w.nodes[v].log
  }

  /** ... and so had the candidate it voted for later. */
  ghost predicate BallotOk(w: World, v: nat) {
    forall t: nat, k: nat, u: nat :: t < u && w.vote(v, u) >= 0 && Choosable(w, t, k) && k <= w.ack(v, t) ==>
      w.log(t)[..k] <= w.cand(w.vote(v, u), u)
  }

  ghost predicate CommitOk(w: World, v: nat)
    requires v < |w.nodes|
  {
    var n := w.nodes[v];
    && Certified(w, n.log, n.commit + 1, n.term)
    && Certified(w, n.log, n.applied + 1, n.term)
    && n.base <= n.applied
    && n.snap == (if n.base < |n.log| then External(n.log, n.base) else 0)
  }

  ghost predicate MatchOk(w: World, v: nat)
    requires v < |w.nodes|
  {
    var n := w.nodes[v];
    && |n.matched| == |w.nodes|
    && (n.role.Leader? ==>
          forall s :: 0 <= s < |n.matched| && n.matched[s] > 0 ==> w.ack(s, n.term) > n.matched[s])
  }

  /** Every leader was elected with everything that could have been chosen before. */
  ghost predicate Complete(w: World) {
    forall t: nat, k: nat, u: nat :: t < u && Elected(w, u) && Choosable(w, t, k) ==>
      k <= w.start(u) && w.log(t)[..k] <= w.log(u)
  }

  ghost predicate AppendOk(w: World, m: Append) {
    && Elected(w, m.term) && w.leader(m.term) == m.leader && m.term >= 2
    && w.start(m.term) < Length(m) <= |w.log(m.term)|
    && m.entries == w.log(m.term)[m.prev + 1..Length(m)]
    && m.prevTerm == w.log(m.term)[m.prev].term
    && m.commit < Length(m)
    && Certified(w, w.log(m.term), m.commit + 1, m.term)
  }

  ghost predicate InstallOk(w: World, m: Install) {
    && m.prefix != []
    && Elected(w, m.term) && w.leader(m.term) == m.leader && m.dst != m.leader
    && m.prefix <= w.log(m.term)
    && m.snap == External(m.prefix, |m.prefix| - 1)
    && Certified(w, w.log(m.term), |m.prefix|, m.term)
    && m.dst < |w.nodes| && w.nodes[m.dst].term >= m.term
  }

  ghost predicate AppliedOk(w: World, a: Applied) {
    exists t: nat, k: nat :: Chosen(w, t, k) && a.index < k && w.log(t)[a.index] == a.entry
  }

  ghost predicate TermsOk(n: Node) {
    n.term >= 1 && n.log != [] && forall i :: 0 <= i < |n.log| ==> n.log[i].term <= n.term
  }

  ghost predicate CoreOk(w: World, v: nat)
    requires v < |w.nodes|
  {
    && Known(w, w.nodes[v].log) && TermsOk(w.nodes[v])
    && VoteOk(w, v) && CandOk(w, v) && AckOk(w, v) && KeepOk(w, v) && BallotOk(w, v)
  }

  ghost predicate NodeOk(w: World, v: nat)
    requires v < |w.nodes|
  {
    CoreOk(w, v) && RoleOk(w, v) && CommitOk(w, v) && MatchOk(w, v)
  }

  ghost predicate Inv(w: World) {
    && |w.nodes| > 0
    && Elected(w, 1)
    && (forall t: nat :: Elected(w, t) ==> ReignOk(w, t))
    && (forall v: nat :: v < |w.nodes| ==> NodeOk(w, v))
    && Complete(w)
    && (forall m :: m in w.appends ==> AppendOk(w, m))
    && (forall m :: m in w.installs ==> InstallOk(w, m))
    && (forall v: nat, t: nat :: v < |w.nodes| && w.refused(v, t) ==> w.nodes[v].term >= t)
    && (forall a :: a in w.applied ==> AppliedOk(w, a))
  }

  // ----- the first world

  ghost predicate Initial(w: World) {
    && |w.nodes| > 0
    && (forall v :: 0 <= v < |w.nodes| ==> w.nodes[v] == FirstNode(|w.nodes|))
    && (forall v: nat, t: nat :: w.cand(v, t) == [])
    && (forall v: nat, t: nat :: w.vote(v, t) == NOBODY)
    && (forall t: nat :: w.log(t) == if t == 1 then [Sentinel()] else [])
    && w.start(1) == 0
    && (forall v: nat, t: nat :: w.ack(v, t) == if t == 1 then 1 else 0)
    && w.appends == {} && w.installs == {} && w.applied == {}
    && (forall v: nat, t: nat :: !w.refused(v, t))
  }

  lemma InitialNode(w: World, v: nat)
    requires Initial(w) && v < |w.nodes|
    ensures NodeOk(w, v)
  {
    var n := w.nodes[v];
    assert n == FirstNode(|w.nodes|);
    assert Have(w, 1, 1) == Below(|w.nodes|);
    assert Chosen(w, 1, 1);
    assert n.log[..1] == w.log(1)[..1];
    assert Certified(w, n.log, 1, 1);
    assert Known(w, n.log);
    assert VoteOk(w, v) && CandOk(w, v);
    assert AckOk(w, v);
    assert KeepOk(w, v) && BallotOk(w, v);
  }

  lemma InitialInv(w: World)
    requires Initial(w)
    ensures Inv(w)
  {
    hide NodeOk;
    forall v: nat | v < |w.nodes|
      ensures NodeOk(w, v)
    {
      InitialNode(w, v);
    }
    assert ReignOk(w, 1);
  }

  // ----- how the past grows

  /** The past only grows, and nobody confirms anything of a term that it has left. */
  ghost predicate Grows(w: World, w': World) {
    && |w'.nodes| == |w.nodes|
    && (forall v: nat :: v < |w.nodes| ==> w'.nodes[v].term >= w.nodes[v].term)
    && (forall t: nat :: w.log(t) <= w'.log(t))
    && (forall t: nat :: Elected(w, t) ==>
          w'.start(t) == w.start(t) && w'.leader(t) == w.leader(t) && w'.ballots(t) == w.ballots(t))
    && (forall v: nat, t: nat :: w'.ack(v, t) >= w.ack(v, t))
    && (forall v: nat, t: nat :: v < |w.nodes| && w'.ack(v, t) > w.ack(v, t) ==> w.nodes[v].term <= t)
    && (forall v: nat, t: nat :: w.cand(v, t) != [] ==> w'.cand(v, t) == w.cand(v, t))
    && (forall v: nat, t: nat :: w.vote(v, t) != NOBODY ==> w'.vote(v, t) == w.vote(v, t))
  }

  lemma KnownGrows(w: World, w': World, log: Log)
    requires Grows(w, w') && Known(w, log)
    ensures Known(w', log)
  {
    forall i | 0 <= i < |log|
      ensures log[..i + 1] <= w'.log(log[i].term)
    {
      assert log[..i + 1] <= w.log(log[i].term) <= w'.log(log[i].term);
    }
  }

  lemma ChosenGrows(w: World, w': World, t: nat, k: nat)
    requires Grows(w, w') && Chosen(w, t, k)
    ensures Chosen(w', t, k)
  {
    BiggerQuorum(|w.nodes|, Have(w, t, k), Have(w', t, k));
  }

  lemma CertifiedGrows(w: World, w': World, log: Log, n: nat, term: nat)
    requires Grows(w, w') && Certified(w, log, n, term)
    ensures Certified(w', log, n, term)
  {
    var t: nat, k: nat :| t <= term && Chosen(w, t, k) && n <= k && log[..n] == w.log(t)[..n];
    ChosenGrows(w, w', t, k);
    assert w.log(t) <= w'.log(t);
    assert w'.log(t)[..n] == w.log(t)[..n];
  }

  lemma ChoosableShrinks(w: World, w': World, t: nat, k: nat)
    requires Grows(w, w') && Choosable(w', t, k) && k <= |w.log(t)|
    ensures Choosable(w, t, k)
  {
    BiggerQuorum(|w.nodes|, Able(w', t, k), Able(w, t, k));
  }

  // ----- steps

  /** The request with which a server began its election. */
  ghost function RequestOf(w: World, candidate: nat, term: nat): VoteRequest {
    var log := w.cand(candidate, term);
    VoteRequest(term, candidate, |log|, LastTerm(log))
  }

  /** When a step may happen.  A server's tasks as a leader or candidate end when it stops being
      the leader of that term or when that election is cancelled. */
  ghost predicate Enabled(w: World, step: Step) {
    && step.v < |w.nodes|
    && var n := w.nodes[step.v];
    match step
    case Timeout(v) => !n.role.Leader?
    case Elect(v) => n.pending
    // an election that was cancelled before it began does harm at a leader and at a candidate
    // whose own election goes on
    case LateElect(v) => n.late > 0 && LateIsSafe(n)
    case Cancel(v) => true
    case Vote(v, candidate, term) => w.cand(candidate, term) != [] && candidate != v && candidate < |w.nodes|
    case Win(v, voters) =>
      && n.role.Candidate? && n.live > 0
      && IsQuorum(|w.nodes|, voters) && (forall s :: s in voters ==> w.vote(s, n.live) == v)
    case Submit(v, value) => n.role.Leader?
    case SendAppend(v, prev) => n.role.Leader? && n.base <= prev < |n.log|
    case Deliver(v, m) => m in w.appends && m.leader != v
    // a reply may come in after the server has stopped leading, but not after it leads a later term
    case Reply(v, s, length) => s < |w.nodes| && length > 0 && ReplyIsSafe(w, n, s, length)
    case Commit(v, i) => n.role.Leader? && MayCommit(n, i)
    case ApplyOne(v) => MayApply(n)
    case SendInstall(v, dst) =>
      n.role.Leader? && dst < |w.nodes| && dst != v && w.refused(dst, n.term)
    case DeliverInstall(v, snapshot) => snapshot in w.installs && snapshot.dst == v
    case Trim(v, k) => n.base <= k <= n.applied && k < |n.log| && (k > n.base ==> n.log[k].command.Normal?)
    case Restart(v) => true
    case Send(v) => n.queue != []
  }

  ghost function SetNode(w: World, v: nat, n: Node): World
    requires v < |w.nodes|
  {
    w.(nodes := w.nodes[v := n])
  }

  ghost function Update2<T>(f: (nat, nat) -> T, a: nat, b: nat, x: T): (nat, nat) -> T {
    (c: nat, d: nat) => if c == a && d == b then x else f(c, d)
  }

  ghost function Update<T>(f: nat -> T, a: nat, x: T): nat -> T {
    (c: nat) => if c == a then x else f(c)
  }

  /** Server v confirms the first `length` entries of the log of a term. */
  ghost function Confirm(w: World, v: nat, term: nat, length: nat): World {
    if length <= w.ack(v, term) then w else w.(ack := Update2(w.ack, v, term, length))
  }

  ghost function TakeElect(w: World, v: nat): World
    requires v < |w.nodes|
  {
    var n := w.nodes[v];
    SetNode(w, v, OnElection(n, v)).(
      cand := Update2(w.cand, v, n.term + 1, n.log),
      vote := Update2(w.vote, v, n.term + 1, v))
  }

  /** The server does not lead, or the other one has confirmed as much in the term that it leads. */
  ghost predicate ReplyIsSafe(w: World, n: Node, s: nat, length: nat) {
    !n.role.Leader? || length <= 1 || length <= w.ack(s, n.term)
  }

  predicate LateIsSafe(n: Node) {
    !n.role.Leader? && !(n.role.Candidate? && n.live > 0)
  }

  ghost function TakeLate(w: World, v: nat): World
    requires v < |w.nodes|
  {
    var n := w.nodes[v];
    SetNode(w, v, OnLateElection(n, v)).(
      cand := Update2(w.cand, v, n.term + 1, n.log),
      vote := Update2(w.vote, v, n.term + 1, v))
  }

  ghost function TakeVote(w: World, v: nat, candidate: nat, term: nat): World
    requires v < |w.nodes|
  {
    var (n, granted) := OnRequestVote(w.nodes[v], RequestOf(w, candidate, term));
    var w1 := SetNode(w, v, n);
    if granted then w1.(vote := Update2(w.vote, v, term, candidate)) else w1
  }

  ghost function TakeWin(w: World, v: nat, voters: set<nat>): World
    requires v < |w.nodes| && v < |w.nodes[v].matched|
  {
    var n, n' := w.nodes[v], OnWin(w.nodes[v], v);
    Confirm(SetNode(w, v, n').(
      log := Update(w.log, n.term, n'.log),
      start := Update<nat>(w.start, n.term, |n.log|),
      leader := Update(w.leader, n.term, v),
      ballots := Update(w.ballots, n.term, voters)), v, n.term, |n'.log|)
  }

  ghost function TakeSubmit(w: World, v: nat, value: int): World
    requires v < |w.nodes| && v < |w.nodes[v].matched|
  {
    var n, n' := w.nodes[v], OnStart(w.nodes[v], v, value);
    Confirm(SetNode(w, v, n').(log := Update(w.log, n.term, n'.log)), v, n.term, |n'.log|)
  }

  ghost function AppendOf(n: Node, v: nat, prev: nat): Append
    requires prev < |n.log|
  {
    Append(n.term, v, prev, n.log[prev].term, n.log[prev + 1..], n.commit)
  }

  ghost function TakeDeliver(w: World, v: nat, m: Append): World
    requires v < |w.nodes| && w.nodes[v].applied < |w.nodes[v].log|
  {
    var (n, outcome) := OnAppend(w.nodes[v], m);
    var w1 := SetNode(w, v, n);
    if IsSuccess(outcome) then Confirm(w1, v, m.term, Length(m))
    else if outcome.Refused? then w1.(refused := Update2(w.refused, v, m.term, true))
    else w1
  }

  ghost function InstallOf(n: Node, v: nat, dst: nat): Install
    requires n.base < |n.log|
  {
    Install(n.term, v, dst, n.log[..n.base + 1], n.snap)
  }

  ghost function TakeApply(w: World, v: nat): World
    requires v < |w.nodes| && MayApply(w.nodes[v])
  {
    var n := w.nodes[v];
    var i := n.applied + 1;
    SetNode(w, v, OnApply(n)).(applied := w.applied + {Applied(v, i, n.log[i])})
  }

  /** Servers know their peers, have applied only what they have, and have trimmed only what
      they have applied. */
  ghost predicate Shaped(w: World) {
    && (forall v: nat :: v < |w.nodes| ==>
          && |w.nodes[v].matched| == |w.nodes|
          && w.nodes[v].base <= w.nodes[v].applied < |w.nodes[v].log|)
    && (forall m :: m in w.installs ==> m.prefix != [])
  }

  lemma InvShaped(w: World)
    requires Inv(w)
    ensures Shaped(w)
  {
    hide Known, VoteOk, CandOk, RoleOk, AckOk, KeepOk, BallotOk, Complete, AppendOk, ReignOk, AppliedOk;
    forall v: nat | v < |w.nodes|
      ensures |w.nodes[v].matched| == |w.nodes| && w.nodes[v].base <= w.nodes[v].applied < |w.nodes[v].log|
    {
      assert NodeOk(w, v);
      assert CommitOk(w, v) && MatchOk(w, v);
    }
    forall m | m in w.installs
      ensures m.prefix != []
    {
      assert InstallOk(w, m);
    }
  }

  ghost function Take(w: World, step: Step): World
    requires Shaped(w) && Enabled(w, step)
  {
    var v := step.v;
    var n := w.nodes[v];
    match step
    case Timeout(v) => SetNode(w, v, OnTimeout(n))
    case Elect(v) => TakeElect(w, v)
    case LateElect(v) => TakeLate(w, v)
    case Cancel(v) => SetNode(w, v, OnCancel(n))
    case Vote(v, candidate, term) => TakeVote(w, v, candidate, term)
    case Win(v, voters) => TakeWin(w, v, voters)
    case Submit(v, value) => TakeSubmit(w, v, value)
    case SendAppend(v, prev) => w.(appends := w.appends + {AppendOf(n, v, prev)})
    case Deliver(v, m) => TakeDeliver(w, v, m)
    case Reply(v, s, length) => SetNode(w, v, OnReply(n, s, length))
    case Commit(v, i) => SetNode(w, v, n.(commit := i))
    case ApplyOne(v) => TakeApply(w, v)
    case SendInstall(v, dst) => w.(installs := w.installs + {InstallOf(n, v, dst)})
    case DeliverInstall(v, snapshot) => SetNode(w, v, OnInstall(n, snapshot))
    case Trim(v, k) => SetNode(w, v, OnSnapshot(n, k))
    case Restart(v) => SetNode(w, v, OnRestart(n))
    case Send(v) => SetNode(w, v, OnSend(n))
  }
}
