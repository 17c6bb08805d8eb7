/** One Raft server and what it does on each event (src/raft/raft.go).

A server's log is modelled in full.  `base` is the index up to which it has been trimmed, which
is the index of the first entry that the server still stores.  An index is internal unless it
is called external; the external index of an entry leaves out no-ops.
 */
module RaftNode {

  datatype Command = Noop | Normal(value: int)
  datatype Entry = Entry(term: nat, command: Command)
  type Log = seq<Entry>

  datatype Role = Follower | Candidate | Leader

  /** What a server sends to its service, with external indices. */
  datatype Msg = Apply(index: nat, value: int) | Restore(index: nat)

  const NOBODY: int := -1

  /** `pending` tells that the election of the last timeout has not begun, `live` is the term of
      the election going on, or 0 if it was cancelled, and `late` counts elections of earlier
      timeouts that have not begun; `snap` is the external index of `base`; `queue` are
      messages not yet sent and `served` is the external index the service has reached. */
  datatype Node = Node(
    role: Role, term: nat, vote: int, log: Log,
    base: nat, snap: nat, commit: nat, applied: nat,
    matched: seq<nat>, pending: bool, live: nat, late: nat,
    queue: seq<Msg>, served: nat)

  datatype VoteRequest = VoteRequest(term: nat, candidate: nat, length: nat, lastTerm: nat)
  datatype Append = Append(term: nat, leader: nat, prev: nat, prevTerm: nat, entries: Log, commit: nat)
  datatype Install = Install(term: nat, leader: nat, dst: nat, prefix: Log, snap: nat)

  function Sentinel(): Entry {
    Entry(1, Noop)
  }

  function FirstNode(n: nat): Node {
    Node(Follower, 1, NOBODY, [Sentinel()], 0, 0, 0, 0, seq(n, _ => 0), false, 0, 0, [], 0)
  }

  function LastTerm(log: Log): nat {
    if log == [] then 0 else log[|log| - 1].term
  }

  predicate UpToDate(length: nat, lastTerm: nat, log: Log) {
    lastTerm > LastTerm(log) || (lastTerm == LastTerm(log) && length >= |log|)
  }

  /** How many entries up to and including index i the service sees. */
  function External(log: Log, i: nat): nat
    requires i < |log|
  {
    if i == 0 then 0
    else External(log, i - 1) + if log[i].command.Normal? then 1 else 0
  }

  // ----- events

  function OnRequestVote(n: Node, m: VoteRequest): (Node, bool) {
    if m.term < n.term then (n, false)
    else
      var n1 := if m.term > n.term then n.(term := m.term, vote := NOBODY, role := Follower) else n;
      if UpToDate(m.length, m.lastTerm, n.log) && (n1.vote == NOBODY || n1.vote == m.candidate)
      then (n1.(vote := m.candidate, role := Follower), true)
      else (n1, false)
  }

  datatype Outcome = Stale | Appended | Fixed | IsPrefix | Refused

  /** The entries are already in the log from index `from` on, judging by their terms. */
  predicate Agrees(log: Log, from: nat, entries: Log) {
    from + |entries| <= |log| && forall i :: 0 <= i < |entries| ==> log[from + i].term == entries[i].term
  }

  /** AppendEntries.  The outcome is a success for the leader if it is Appended, Fixed or
      IsPrefix. */
  function OnAppend(n: Node, m: Append): (Node, Outcome)
    requires n.applied < |n.log|
  {
    if m.term < n.term then (n, Stale)
    else
      var n1 := n.(term := m.term, vote := if m.term > n.term then NOBODY else n.vote, role := Follower);
      if |n.log| - 1 == m.prev && LastTerm(n.log) == m.prevTerm then
        (n1.(log := n.log + m.entries, commit := m.commit), Appended)
      else if |n.log| - 1 > m.prev && m.prev == n.applied then
        if Agrees(n.log, n.applied + 1, m.entries) then (n1, IsPrefix)
        else (n1.(log := n.log[..n.applied + 1] + m.entries, commit := m.commit), Fixed)
      else (n1, Refused)
  }

  /** The reply to AppendEntries: the term, and where the log ended and what was applied before. */
  datatype AppendReply = AppendReply(term: nat, success: bool, prevIndex: nat, prevTerm: nat, applied: nat)

  /** What the follower says.  A stale message is answered with the term alone. */
  function ReplyOf(n: Node, m: Append): AppendReply
    requires n.applied < |n.log|
  {
    if m.term < n.term then AppendReply(n.term, false, 0, 0, 0)
    else AppendReply(m.term, IsSuccess(OnAppend(n, m).1), |n.log| - 1, LastTerm(n.log), n.applied)
  }

  /** The next index of a follower as syncEntries uses it: within what the leader's log still has. */
  function Clamped(n: Node, next: nat): nat {
    if next < n.base + 1 then n.base + 1 else if next > |n.log| then |n.log| else next
  }

  datatype Reaction = GiveUp | Retry(next: nat) | SendSnapshot

  /** handleFailedReply: what the leader does about a refusal of entries after index `prev`. */
  function OnRefusal(n: Node, prev: nat, prevTerm: nat, reply: AppendReply): Reaction {
    var p := reply.prevIndex;
    if n.term < reply.term then GiveUp
    else if p >= n.base &&
            ((reply.prevTerm == prevTerm && p < prev) ||
             (p != prev && p < |n.log| && reply.prevTerm == n.log[p].term)) then Retry(p + 1)
    else if reply.applied + 1 >= n.base && p >= n.base &&
            (p >= prev || p >= |n.log| || reply.prevTerm != n.log[p].term) then Retry(reply.applied + 1)
    else SendSnapshot
  }

  function Length(m: Append): nat {
    m.prev + 1 + |m.entries|
  }

  predicate IsSuccess(o: Outcome) {
    o.Appended? || o.Fixed? || o.IsPrefix?
  }

  /** The log has the last entry of the snapshot. */
  predicate HasSnapshotPoint(n: Node, m: Install)
    requires m.prefix != []
  {
    var k := |m.prefix| - 1;
    n.base <= k < |n.log| && n.log[k].term == m.prefix[k].term
  }

  predicate Accepts(n: Node, m: Install) {
    m.term >= n.term && m.snap > n.snap
  }

  function OnInstall(n: Node, m: Install): Node
    requires m.prefix != []
  {
    if !Accepts(n, m) then n
    else
      var k := |m.prefix| - 1;
      n.(log := if HasSnapshotPoint(n, m) then n.log else m.prefix,
         role := Follower, base := k, snap := m.snap, applied := k, commit := k,
         queue := [Restore(m.snap)])
  }

  function OnTimeout(n: Node): Node {
    n.(role := Candidate, pending := true, live := 0, late := if n.pending then n.late + 1 else n.late)
  }

  /** The election going on is cancelled. */
  function OnCancel(n: Node): Node {
    n.(live := 0)
  }

  function OnElection(n: Node, me: nat): Node {
    n.(term := n.term + 1, vote := me, pending := false, live := n.term + 1)
  }

  /** The election of an earlier timeout begins only now.  It was cancelled, so nobody is asked for a
      vote and nothing else changes; the server's role in particular is not looked at. */
  function OnLateElection(n: Node, me: nat): Node {
    n.(term := n.term + 1, vote := me, late := if n.late > 0 then n.late - 1 else 0)
  }

  function OnWin(n: Node, me: nat): Node
    requires me < |n.matched|
  {
    n.(role := Leader, live := 0, log := n.log + [Entry(n.term, Noop)],
       matched := seq(|n.matched|, s => if s == me then |n.log| else 0))
  }

  function OnStart(n: Node, me: nat, value: int): Node
    requires me < |n.matched|
  {
    n.(log := n.log + [Entry(n.term, Normal(value))], matched := n.matched[me := |n.log|])
  }

  function OnReply(n: Node, s: nat, length: nat): Node
    requires s < |n.matched| && length > 0
  {
    if n.matched[s] <= length - 1 then n.(matched := n.matched[s := length - 1]) else n
  }

  /** How many servers have the leader's log up to an index. */
  function Matching(matched: seq<nat>, i: nat): nat {
    if matched == [] then 0 else (if matched[0] >= i then 1 else 0) + Matching(matched[1..], i)
  }

  predicate IsMajority(count: nat, n: nat) {
    count >= n / 2 + 1
  }

  /** A leader advances its commit index to i. */
  predicate MayCommit(n: Node, i: nat) {
    && n.commit < i
    && (forall j :: n.commit < j <= i ==> IsMajority(Matching(n.matched, j), |n.matched|))
    && (i < n.base || (i < |n.log| && n.log[i].term == n.term))
  }

  /** From index i on, the last index up to which a majority has the leader's log. */
  function Agreed(n: Node, i: nat): nat
    requires i > 0
    decreases |n.log| + 1 - i
  {
    if i <= |n.log| && IsMajority(Matching(n.matched, i), |n.matched|) then Agreed(n, i + 1) else i - 1
  }

  /** commitCheck: go as far as a majority has the log, but only to an entry of the leader's own
      term or one that is already in a snapshot. */
  function OnCommitCheck(n: Node): Node {
    var i := if n.commit + 1 < |n.log| then Agreed(n, n.commit + 1) else n.commit;
    if i > n.commit && (i < n.base || (i < |n.log| && n.log[i].term == n.term)) then n.(commit := i) else n
  }

  predicate MayApply(n: Node) {
    n.applied + 1 <= n.commit && n.applied + 1 < |n.log|
  }

  function OnApply(n: Node): Node
    requires MayApply(n)
  {
    var i := n.applied + 1;
    n.(applied := i,
       queue := match n.log[i].command
                case Normal(value) => n.queue + [Apply(External(n.log, i), value)]
                case Noop => n.queue)
  }

  /** Snapshot: forget the entries before index k. */
  function OnSnapshot(n: Node, k: nat): Node
    requires k < |n.log|
  {
    n.(base := k, snap := External(n.log, k))
  }

  /** A restart keeps what is persisted; the service starts again from the snapshot if there is
      one. */
  function OnRestart(n: Node): Node {
    n.(commit := 0, applied := n.base, matched := seq(|n.matched|, _ => 0), pending := false, live := 0, late := 0,
       queue := if n.snap > 0 then [Restore(n.snap)] else [], served := 0)
  }

  function OnSend(n: Node): Node
    requires n.queue != []
  {
    n.(queue := n.queue[1..], served := n.queue[0].index)
  }
}
