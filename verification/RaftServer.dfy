/** A Raft server as the program has it: its log holds only what was not trimmed, and starts with
an entry that stands for everything before (src/raft/raft.go).  Each method is proved to do to the
server's full log what the protocol says. */
module RaftServer {
  import opened RaftNode

  datatype Stored = Stored(term: nat, command: Command, index: nat)

  function Strip(entries: seq<Stored>): (log: Log)
    ensures |log| == |entries|
  {
    seq(|entries|, i requires 0 <= i < |entries| => Entry(entries[i].term, entries[i].command))
  }

  /** Entries with consecutive indices. */
  ghost predicate IndexedFrom(entries: seq<Stored>, first: nat) {
    forall i :: 0 <= i < |entries| ==> entries[i].index == first + i
  }

  /** The full log: what was trimmed, up to the entry that the first one stands for, and the
      rest. */
  ghost function Full(hidden: Log, log: seq<Stored>): Log
    requires log != []
  {
    hidden + Strip(log)[1..]
  }

  ghost predicate Fits(hidden: Log, log: seq<Stored>) {
    && log != []
    && IndexedFrom(log, log[0].index)
    && |hidden| == log[0].index + 1
    && hidden[log[0].index].term == log[0].term
    && log[0].command.Noop?
  }

  lemma FullAt(hidden: Log, log: seq<Stored>, i: nat)
    requires Fits(hidden, log) && i < |log|
    ensures |Full(hidden, log)| == log[0].index + |log|
    ensures Full(hidden, log)[log[0].index + i].term == log[i].term
    ensures i > 0 ==> Full(hidden, log)[log[0].index + i].command == log[i].command
  {}

  lemma FullAppend(hidden: Log, log: seq<Stored>, more: seq<Stored>)
    requires Fits(hidden, log) && IndexedFrom(more, log[0].index + |log|)
    ensures Fits(hidden, log + more)
    ensures Full(hidden, log + more) == Full(hidden, log) + Strip(more)
  {
    assert Strip(log + more) == Strip(log) + Strip(more);
  }

  lemma FullTake(hidden: Log, log: seq<Stored>, n: nat)
    requires Fits(hidden, log) && 0 < n <= |log|
    ensures Fits(hidden, log[..n])
    ensures Full(hidden, log[..n]) == Full(hidden, log)[..log[0].index + n]
  {
    assert Strip(log[..n]) == Strip(log)[..n];
  }

  /** Trimming the first entries hides them; the log in full is the same. */
  lemma FullDrop(hidden: Log, log: seq<Stored>, n: nat, log': seq<Stored>)
    requires Fits(hidden, log) && n < |log|
    requires log' == log[n..][0 := log[n].(command := Noop)]
    ensures var full := Full(hidden, log);
            var hidden' := full[..log[0].index + n + 1];
            Fits(hidden', log') && Full(hidden', log') == full
  {
    var full := Full(hidden, log);
    FullAt(hidden, log, n);
    assert Strip(log')[1..] == Strip(log)[n + 1..];
    assert full[log[0].index + n + 1..] == Strip(log)[n + 1..];
  }

  /** What survives a crash. */
  datatype Persisted = Persisted(role: Role, currentTerm: nat, log: seq<Stored>, snapshotIndex: nat, votedFor: int)

  ghost predicate Saves(saved: Persisted, hidden: Log, n: Node) {
    && Fits(hidden, saved.log)
    && n.role == saved.role && n.term == saved.currentTerm && n.vote == saved.votedFor
    && n.log == Full(hidden, saved.log) && n.base == saved.log[0].index && n.snap == saved.snapshotIndex
    && n.base < |n.log| && n.snap == External(n.log, n.base)
  }

  class Server {
    const me: nat
    var role: Role
    var currentTerm: nat
    var log: seq<Stored>
    var votedFor: int
    var snapshotIndex: nat
    var commitIndex: nat
    var lastApplied: nat
    var matchIndex: seq<nat>
    var nextIndex: seq<nat>
    var applyQueue: seq<Msg>
    ghost var hidden: Log
    ghost var pending: bool
    ghost var live: nat
    ghost var late: nat
    ghost var served: nat

    ghost predicate Valid()
      reads this
    {
      && Fits(hidden, log)
      && log[0].index <= lastApplied < log[0].index + |log|
      && snapshotIndex == External(Full(hidden, log), log[0].index)
      && me < |matchIndex| == |nextIndex|
    }

    /** What the protocol knows of this server. */
    ghost function View(): Node
      requires log != []
      reads this
    {
      Node(role, currentTerm, votedFor, Full(hidden, log), log[0].index, snapshotIndex, commitIndex, lastApplied,
           matchIndex, pending, live, late, applyQueue, served)
    }

    ghost function Whole(): Log
      requires log != []
      reads this
    {
      Full(hidden, log)
    }

    constructor (me: nat, n: nat)
      requires me < n
      ensures Valid() && View() == FirstNode(n)
    {
      this.me := me;
      role, currentTerm, votedFor := Follower, 1, NOBODY;
      log, hidden := [Stored(1, Noop, 0)], [Sentinel()];
      snapshotIndex, commitIndex, lastApplied := 0, 0, 0;
      matchIndex, nextIndex, applyQueue := seq(n, _ => 0), seq(n, _ => 1), [];
      pending, live, late, served := false, 0, 0, 0;
    }

    /** persist */
    method Persist() returns (saved: Persisted)
      requires Valid()
      ensures Saves(saved, hidden, View())
    {
      FullAt(hidden, log, 0);
      saved := Persisted(role, currentTerm, log, snapshotIndex, votedFor);
    }

    /** Make and readPersist: a server that starts from what was persisted resumes its role. */
    constructor ReadPersist(me: nat, peers: nat, saved: Persisted, ghost hidden: Log, ghost n: Node)
      requires Saves(saved, hidden, n) && me < peers == |n.matched|
      ensures Valid() && View() == OnRestart(n)
      ensures role == saved.role && currentTerm == saved.currentTerm && votedFor == saved.votedFor
      ensures log == saved.log && snapshotIndex == saved.snapshotIndex && this.me == me
      ensures forall s :: 0 <= s < |nextIndex| ==> nextIndex[s] == |n.log|
    {
      this.me, this.hidden := me, hidden;
      role, currentTerm, votedFor, log := saved.role, saved.currentTerm, saved.votedFor, saved.log;
      snapshotIndex, commitIndex, lastApplied := saved.snapshotIndex, 0, saved.log[0].index;
      matchIndex, nextIndex := seq(peers, _ => 0), seq(peers, _ => saved.log[0].index + |saved.log|);
      applyQueue := if saved.snapshotIndex > 0 then [Restore(saved.snapshotIndex)] else [];
      pending, live, late, served := false, 0, 0, 0;
    }

    // ----- the two index spaces

    /** externalIndex: counts the entries the service sees. */
    method ExternalIndex(internal: nat) returns (e: nat)
      requires Valid() && log[0].index <= internal < log[0].index + |log|
      ensures e == External(Whole(), internal)
    {
      var index, target := 0, internal - log[0].index;
      for i := 1 to target + 1
        invariant snapshotIndex + index == External(Whole(), log[0].index + i - 1)
      {
        FullAt(hidden, log, i);
        if log[i].command.Normal? {
          index := index + 1;
        }
      }
      e := index + snapshotIndex;
    }

    /** internalIndex: finds the entry that the service knows by an external index. */
    method InternalIndex(external: nat) returns (internal: nat)
      requires Valid() && snapshotIndex <= external <= External(Whole(), lastApplied)
      ensures log[0].index <= internal <= lastApplied
      ensures External(Whole(), internal) == external
      ensures internal == log[0].index || Whole()[internal].command.Normal?
    {
      var index, count, target := 0, 0, external - snapshotIndex;
      var i := 0;
      while i < |log|
        invariant 0 <= i <= |log| && log[0].index + i <= lastApplied + 1
        invariant i == 0 ==> count == 0
        invariant i > 0 ==> snapshotIndex + count == External(Whole(), log[0].index + i - 1) && count < target
      {
        FullAt(hidden, log, i);
        index := i;
        if log[i].command.Normal? {
          count := count + 1;
        }
        if count == target {
          break;
        }
        StillBelow(Whole(), log[0].index + i, lastApplied, external);
        i := i + 1;
      }
      internal := index + log[0].index;
    }

    lemma StillBelow(log: Log, i: nat, last: nat, e: nat)
      requires i <= last < |log| && External(log, i) < e <= External(log, last)
      ensures i < last
    {}

    // ----- messages from candidates and leaders

    /** RequestVote */
    method RequestVote(m: VoteRequest)
      returns (term: nat, granted: bool)
      requires Valid()
      modifies this`currentTerm, this`votedFor, this`role
      ensures Valid()
      ensures (View(), granted) == OnRequestVote(old(View()), m)
      ensures term == if granted then m.term else old(currentTerm)
    {
      term, granted := currentTerm, false;
      var length, lastTerm := log[0].index + |log|, log[|log| - 1].term;
      FullAt(hidden, log, |log| - 1);
      if m.term < currentTerm {
        return;
      } else if m.term > currentTerm {
        currentTerm, votedFor, role := m.term, NOBODY, Follower;
      }
      var upToDate := m.lastTerm > lastTerm || (m.lastTerm == lastTerm && m.length >= length);
      if upToDate && (votedFor == NOBODY || votedFor == m.candidate) {
        currentTerm, votedFor, role := m.term, m.candidate, Follower;
        term, granted := currentTerm, true;
      }
    }

    /** The check of a fix package: how many entries agree with the log. */
    method Agreeing(entries: seq<Stored>) returns (i: nat)
      requires Valid()
      ensures i <= |entries|
      ensures i == |entries| <==> Agrees(Whole(), lastApplied + 1, Strip(entries))
    {
      i := 0;
      var local := lastApplied + 1 - log[0].index;
      ghost var whole := Whole();
      FullAt(hidden, log, 0);
      while i < |entries| && local + i < |log|
        invariant 0 <= i <= |entries| && local + i <= |log|
        invariant forall j :: 0 <= j < i ==> whole[lastApplied + 1 + j].term == entries[j].term
      {
        FullAt(hidden, log, local + i);
        if entries[i].term != log[local + i].term {
          assert whole[lastApplied + 1 + i].term != Strip(entries)[i].term;
          return;
        }
        i := i + 1;
      }
    }

    lemma EndOfLog()
      requires Valid()
      ensures log != [] && |Whole()| == log[0].index + |log| && LastTerm(Whole()) == log[|log| - 1].term
    {
      FullAt(hidden, log, |log| - 1);
    }

    method ExtendLog(entries: seq<Stored>)
      requires Valid() && IndexedFrom(entries, log[0].index + |log|)
      modifies this`log
      ensures Valid() && log[0] == old(log[0]) && Whole() == old(Whole()) + Strip(entries)
    {
      FullAppend(hidden, log, entries);
      KeepsExternal(hidden, log, log + entries, log[0].index);
      log := log + entries;
    }

    /** Put the entries after what has been applied. */
    method Overwrite(entries: seq<Stored>)
      requires Valid() && IndexedFrom(entries, lastApplied + 1)
      modifies this`log
      ensures Valid() && log[0] == old(log[0])
      ensures lastApplied < |old(Whole())| && Whole() == old(Whole())[..lastApplied + 1] + Strip(entries)
    {
      var local := lastApplied + 1 - log[0].index;
      FullAt(hidden, log, 0);
      FullTake(hidden, log, local);
      FullAppend(hidden, log[..local], entries);
      KeepsExternal(hidden, log, log[..local] + entries, log[0].index);
      log := log[..local] + entries;
    }

    /** The part of AppendEntries that concerns the log. */
    method SyncLog(m: Append, entries: seq<Stored>) returns (outcome: Outcome)
      requires Valid() && Strip(entries) == m.entries && IndexedFrom(entries, m.prev + 1)
      modifies this`log, this`commitIndex
      ensures Valid() && log[0] == old(log[0])
      ensures outcome == OutcomeOf(old(Whole()), lastApplied, m)
      ensures outcome.Appended? ==> Whole() == old(Whole()) + m.entries
      ensures outcome.Fixed? ==>
        lastApplied < |old(Whole())| && Whole() == old(Whole())[..lastApplied + 1] + m.entries
      ensures outcome.IsPrefix? || outcome.Refused? ==> Whole() == old(Whole())
      ensures commitIndex == if outcome.Appended? || outcome.Fixed? then m.commit else old(commitIndex)
    {
      hide Full, External, Agrees, IndexedFrom;
      FullAt(hidden, log, |log| - 1);
      var prevLogIndex, prevLogTerm := log[0].index + |log| - 1, log[|log| - 1].term;
      if prevLogIndex == m.prev && prevLogTerm == m.prevTerm {
        ExtendLog(entries);
        commitIndex := m.commit;
        return Appended;
      }
      if prevLogIndex > m.prev && m.prev == lastApplied {
        var i := Agreeing(entries);
        if i == |entries| {
          return IsPrefix;
        }
        Overwrite(entries);
        commitIndex := m.commit;
        return Fixed;
      }
      return Refused;
    }

    lemma StaleIs(n: Node, m: Append)
      requires n.applied < |n.log| && m.term < n.term
      ensures OnAppend(n, m) == (n, Stale)
    {}

    lemma SyncedIs(n: Node, n': Node, m: Append, outcome: Outcome)
      requires n.applied < |n.log| && m.term >= n.term
      requires n' == n.(term := m.term, vote := if m.term > n.term then NOBODY else n.vote, role := Follower,
                        log := n'.log, commit := n'.commit)
      requires outcome == OutcomeOf(n.log, n.applied, m)
      requires outcome.Appended? ==> n'.log == n.log + m.entries
      requires outcome.Fixed? ==> n'.log == n.log[..n.applied + 1] + m.entries
      requires outcome.IsPrefix? || outcome.Refused? ==> n'.log == n.log
      requires n'.commit == if outcome.Appended? || outcome.Fixed? then m.commit else n.commit
      ensures (n', outcome) == OnAppend(n, m) && !outcome.Stale?
    {}

    /** What AppendEntries does about the log. */
    ghost function OutcomeOf(log: Log, applied: nat, m: Append): Outcome {
      if |log| - 1 == m.prev && LastTerm(log) == m.prevTerm then Appended
      else if |log| - 1 > m.prev && m.prev == applied then
        if Agrees(log, applied + 1, m.entries) then IsPrefix else Fixed
      else Refused
    }

    /** AppendEntries */
    method AppendEntries(m: Append, entries: seq<Stored>)
      returns (reply: AppendReply, outcome: Outcome)
      requires Valid() && Strip(entries) == m.entries && IndexedFrom(entries, m.prev + 1)
      modifies this`currentTerm, this`votedFor, this`role, this`log, this`commitIndex
      ensures Valid()
      ensures (View(), outcome) == OnAppend(old(View()), m)
      ensures reply == ReplyOf(old(View()), m) && reply.success == IsSuccess(outcome)
      // the sender learns of a later term exactly if its message was stale
      ensures reply.term == if m.term < old(currentTerm) then old(currentTerm) else m.term
      ensures reply.term == currentTerm && (reply.term > m.term <==> outcome.Stale?)
    {
      hide Full, External, Agrees, IndexedFrom, LastTerm, Fits, OnAppend, OutcomeOf;
      EndOfLog();
      ghost var n := View();
      if m.term < currentTerm {
        StaleIs(n, m);
        return AppendReply(currentTerm, false, 0, 0, 0), Stale;
      }
      if m.term > currentTerm {
        votedFor := NOBODY;
      }
      currentTerm, role := m.term, Follower;
      var prevLogIndex, prevLogTerm := log[0].index + |log| - 1, log[|log| - 1].term;
      outcome := SyncLog(m, entries);
      reply := AppendReply(currentTerm, IsSuccess(outcome), prevLogIndex, prevLogTerm, lastApplied);
      SyncedIs(n, View(), m, outcome);
    }

    // ----- snapshots

    /** InstallSnapshot; `prefix` is the log that the snapshot stands for. */
    method InstallSnapshot(
      m: Install, lastIncludedInternal: nat, lastIncludedTerm: nat) returns (term: nat)
      requires Valid() && |m.prefix| == lastIncludedInternal + 1
      requires m.prefix[lastIncludedInternal].term == lastIncludedTerm
      requires m.snap == External(m.prefix, lastIncludedInternal)
      requires HasPoint(Whole(), log[0].index, lastIncludedInternal, lastIncludedTerm) ==> m.prefix <= Whole()
      modifies this`log, this`hidden, this`role, this`snapshotIndex, this`lastApplied, this`commitIndex, this`applyQueue
      ensures Valid()
      ensures View() == OnInstall(old(View()), m)
      ensures term == currentTerm == old(currentTerm)
    {
      hide Full, External, HasPoint, Fits, OnInstall;
      NotEmpty();
      term := currentTerm;
      if m.term < currentTerm || m.snap <= snapshotIndex {
        RefusedIs(View(), m);
        return;
      }
      InstallLog(m.prefix, lastIncludedInternal, lastIncludedTerm);
      ExternalOfHidden(m.prefix, Whole(), lastIncludedInternal);
      role := Follower;
      snapshotIndex := m.snap;
      lastApplied, commitIndex := log[0].index, log[0].index;
      applyQueue := [Restore(m.snap)];
      InstalledIs(old(View()), View(), m);
    }

    lemma NotEmpty()
      requires Valid()
      ensures log != []
    {}

    lemma InstalledIs(n: Node, n': Node, m: Install)
      requires m.prefix != [] && m.term >= n.term && m.snap > n.snap
      requires n'.log == if HasPoint(n.log, n.base, |m.prefix| - 1, LastTerm(m.prefix)) then n.log else m.prefix
      requires var k := |m.prefix| - 1;
               n' == n.(log := n'.log, role := Follower, base := k, snap := m.snap, applied := k, commit := k,
                        queue := [Restore(m.snap)])
      ensures n' == OnInstall(n, m)
    {}

    lemma RefusedIs(n: Node, m: Install)
      requires m.prefix != [] && (m.term < n.term || m.snap <= n.snap)
      ensures n == OnInstall(n, m)
    {}

    ghost predicate HasPoint(whole: Log, base: nat, k: nat, term: nat) {
      base <= k < |whole| && whole[k].term == term
    }

    /** The log after a snapshot that stands for `prefix`: the rest of the log if it has the last entry
        of the snapshot, and nothing but the snapshot otherwise. */
    method InstallLog(ghost prefix: Log, k: nat, term: nat)
      requires Valid() && |prefix| == k + 1 && prefix[k].term == term
      requires HasPoint(Whole(), log[0].index, k, term) ==> prefix <= Whole()
      modifies this`log, this`hidden
      ensures Fits(hidden, log) && log != [] && log[0].index == k && prefix <= Whole()
      ensures Whole() == if HasPoint(old(Whole()), old(log[0].index), k, term) then old(Whole()) else prefix
    {
      hide Full, External;
      FullAt(hidden, log, if log[0].index <= k < log[0].index + |log| then k - log[0].index else 0);
      if k >= log[0].index && k - log[0].index < |log| && log[k - log[0].index].term == term {
        TrimTo(k);
      } else {
        log := [Stored(term, Noop, k)];
        hidden := prefix;
        OnlySnapshot(hidden, log);
      }
    }

    lemma OnlySnapshot(hidden: Log, log: seq<Stored>)
      requires |log| == 1
      ensures Full(hidden, log) == hidden
    {}

    /** Forget the entries before index k. */
    method TrimTo(k: nat)
      requires Valid() && log[0].index <= k < log[0].index + |log|
      modifies this`log, this`hidden
      ensures Fits(hidden, log) && Whole() == old(Whole()) && log[0].index == k
      ensures |log| == old(log[0].index) + |old(log)| - k
    {
      var n := k - log[0].index;
      FullAt(hidden, log, n);
      ghost var full := Whole();
      FullDrop(hidden, log, n, log[n..][0 := log[n].(command := Noop)]);
      hidden := full[..k + 1];
      log := log[n..];
      log := log[0 := log[0].(command := Noop)];
    }

    /** Snapshot: trims what the snapshot holds, unless there is a later snapshot. */
    method Snapshot(index: nat) returns (ghost k: nat)
      requires Valid() && index <= External(Whole(), lastApplied)
      modifies this`log, this`hidden, this`snapshotIndex
      ensures Valid()
      ensures index <= old(snapshotIndex) ==> View() == old(View())
      ensures index > old(snapshotIndex) ==>
        && old(log[0].index) <= k <= lastApplied && External(Whole(), k) == index
        && (k > old(log[0].index) ==> k < |Whole()| && Whole()[k].command.Normal?)
        && k < |old(Whole())| && View() == OnSnapshot(old(View()), k)
    {
      hide Full, External;
      k := log[0].index;
      if snapshotIndex >= index {
        return;
      }
      FullAt(hidden, log, 0);
      var prevIndex := InternalIndex(index);
      k := prevIndex;
      TrimTo(prevIndex);
      snapshotIndex := index;
    }

    // ----- the leader

    /** The beginning of election, whether or not it was cancelled in the meantime: a vote for itself
        in the next term, without a look at the role. */
    method ElectionBegins(ghost cancelled: bool)
      requires Valid()
      modifies this`votedFor, this`currentTerm, this`pending, this`live, this`late
      ensures Valid()
      ensures View() == if cancelled then OnLateElection(old(View()), me) else OnElection(old(View()), me)
    {
      votedFor, currentTerm := me, currentTerm + 1;
      if cancelled {
        late := if late > 0 then late - 1 else 0;
      } else {
        pending, live := false, currentTerm;
      }
    }

    /** A leader adds an entry of its own term. */
    method AppendOwn(command: Command)
      requires Valid()
      modifies this`log
      ensures Valid() && log != [] && log[0] == old(log[0])
      ensures Whole() == old(Whole()) + [Entry(currentTerm, command)] && |Whole()| == log[0].index + |log|
    {
      hide Full, External;
      FullAt(hidden, log, 0);
      var entry := Stored(currentTerm, command, log[0].index + |log|);
      ExtendLog([entry]);
      assert Strip([entry]) == [Entry(currentTerm, command)];
      FullAt(hidden, log, 0);
    }

    method ForgetFollowers(next: nat)
      requires me < |matchIndex| == |nextIndex|
      modifies this`matchIndex, this`nextIndex
      ensures |matchIndex| == |nextIndex| == |old(matchIndex)|
      ensures forall s :: 0 <= s < |matchIndex| && s != me ==> matchIndex[s] == 0 && nextIndex[s] == next
    {
      var i := 0;
      while i < |matchIndex|
        invariant 0 <= i <= |matchIndex| == |nextIndex| == |old(matchIndex)|
        invariant forall s :: 0 <= s < i && s != me ==> matchIndex[s] == 0 && nextIndex[s] == next
      {
        if i != me {
          nextIndex, matchIndex := nextIndex[i := next], matchIndex[i := 0];
        }
        i := i + 1;
      }
    }

    /** Winning: everything about the followers is forgotten, and a no-op begins the term. */
    method BecomeLeader()
      requires Valid()
      modifies this`role, this`log, this`matchIndex, this`nextIndex, this`live
      ensures Valid() && View() == OnWin(old(View()), me)
      ensures forall s :: 0 <= s < |nextIndex| ==> nextIndex[s] == |Whole()| - if s == me then 0 else 1
    {
      hide Full, External, Fits, OnWin, LastTerm;
      EndOfLog();
      ghost var n := View();
      role, live := Leader, 0;
      ForgetFollowers(log[0].index + |log|);
      AppendOwn(Noop);
      nextIndex := nextIndex[me := log[0].index + |log|];
      matchIndex := matchIndex[me := log[0].index + |log| - 1];
      WonIs(n, View(), me);
    }

    lemma WonIs(n: Node, n': Node, me: nat)
      requires me < |n.matched| == |n'.matched|
      requires forall s :: 0 <= s < |n'.matched| ==> n'.matched[s] == if s == me then |n.log| else 0
      requires n' == n.(role := Leader, live := 0, log := n.log + [Entry(n.term, Noop)], matched := n'.matched)
      ensures n' == OnWin(n, me)
    {
      assert n'.matched == seq(|n.matched|, s => if s == me then |n.log| else 0);
    }

    /** Start: a leader appends the command and says under which index the service will see it. */
    method Start(value: int)
      returns (index: int, term: int, isLeader: bool)
      requires Valid()
      modifies this`log, this`matchIndex, this`nextIndex
      ensures Valid() && isLeader == role.Leader?
      ensures !isLeader ==> index == -1 && term == -1 && View() == old(View())
      ensures isLeader ==>
        && View() == OnStart(old(View()), me, value)
        && term == currentTerm && |Whole()| > 0 && index == External(Whole(), |Whole()| - 1)
    {
      hide Full, External;
      if !role.Leader? {
        return -1, -1, false;
      }
      AppendOwn(Normal(value));
      nextIndex := nextIndex[me := log[0].index + |log|];
      matchIndex := matchIndex[me := log[0].index + |log| - 1];
      index := ExternalIndex(log[0].index + |log| - 1);
      term, isLeader := currentTerm, true;
    }

    /** How many servers have the log up to index n. */
    method CountMatching(n: nat) returns (counter: nat)
      ensures counter == Matching(matchIndex, n)
    {
      counter := 0;
      var i := |matchIndex|;
      assert matchIndex[i..] == [];
      while i > 0
        invariant 0 <= i <= |matchIndex| && counter == Matching(matchIndex[i..], n)
      {
        i := i - 1;
        assert matchIndex[i..][1..] == matchIndex[i + 1..];
        if matchIndex[i] >= n {
          counter := counter + 1;
        }
      }
      assert matchIndex[0..] == matchIndex;
    }

    /** commitCheck: the commit index moves as far as a majority has the log, if that is an entry of
        the leader's own term or in a snapshot, and otherwise stays. */
    method CommitCheck()
      requires Valid()
      modifies this`commitIndex
      ensures Valid() && View() == OnCommitCheck(old(View()))
    {
      hide Full, External, Matching;
      FullAt(hidden, log, 0);
      ghost var n0 := View();
      var n := commitIndex + 1;
      var newCommit, changed := n, false;
      while newCommit < log[0].index + |log|
        invariant commitIndex == old(commitIndex)
        invariant newCommit == if changed then n - 1 else n
        invariant n > commitIndex && (!changed ==> n == commitIndex + 1)
        invariant n <= |n0.log| + 1 || !changed
        invariant Agreed(n0, n) == Agreed(n0, commitIndex + 1)
        decreases log[0].index + |log| + 1 - n
      {
        var counter := CountMatching(n);
        if counter >= |matchIndex| / 2 + 1 {
          newCommit, changed := n, true;
        } else {
          break;
        }
        n := n + 1;
      }
      if changed {
        if newCommit < log[0].index {
          commitIndex := newCommit;
        } else if newCommit < log[0].index + |log| {
          FullAt(hidden, log, newCommit - log[0].index);
          if log[newCommit - log[0].index].term == currentTerm {
            commitIndex := newCommit;
          }
        }
      }
    }

    /** syncEntries: the message for a follower that is believed to need the entries from its next
        index on, as far as the leader still has them. */
    method MakeAppend(server: nat) returns (m: Append, entries: seq<Stored>)
      requires Valid() && server < |nextIndex|
      ensures log[0].index <= m.prev < |Whole()| && m.prev + 1 == Clamped(View(), nextIndex[server])
      ensures m == Append(currentTerm, me, m.prev, Whole()[m.prev].term, Whole()[m.prev + 1..], commitIndex)
      ensures Strip(entries) == m.entries && IndexedFrom(entries, m.prev + 1)
    {
      var base, next := log[0].index, nextIndex[server];
      FullAt(hidden, log, 0);
      var first := if next < base + 1 then base + 1 else if next > base + |log| then base + |log| else next;
      FullAt(hidden, log, first - 1 - base);
      entries := log[first - base..];
      assert Strip(entries) == Whole()[first..];
      m := Append(currentTerm, me, first - 1, log[first - 1 - base].term, Strip(entries), commitIndex);
    }

    /** A success: what is known of a follower only grows, and the entries after the message are next. */
    method HandleSuccess(s: nat, newNextIndex: nat)
      requires Valid() && s < |matchIndex| && newNextIndex > 0
      modifies this`matchIndex, this`nextIndex
      ensures Valid() && View() == OnReply(old(View()), s, newNextIndex)
      ensures nextIndex == old(nextIndex)[s := newNextIndex]
    {
      nextIndex := nextIndex[s := newNextIndex];
      if matchIndex[s] <= newNextIndex - 1 {
        matchIndex := matchIndex[s := newNextIndex - 1];
      }
    }

    /** handleFailedReply, up to the snapshot that it may send. */
    method HandleFailedReply(s: nat, m: Append, reply: AppendReply) returns (reaction: Reaction)
      requires Valid() && s < |nextIndex|
      modifies this`nextIndex
      ensures Valid() && reaction == OnRefusal(View(), m.prev, m.prevTerm, reply)
      ensures nextIndex == if reaction.Retry? then old(nextIndex)[s := reaction.next] else old(nextIndex)
    {
      if currentTerm < reply.term {
        return GiveUp;
      }
      var base, p := log[0].index, reply.prevIndex;
      var inLog := base <= p < base + |log|;
      FullAt(hidden, log, if inLog then p - base else 0);
      if p + 1 > base &&
         ((reply.prevTerm == m.prevTerm && p < m.prev) ||
          (p != m.prev && p < base + |log| && reply.prevTerm == log[p - base].term))
      {
        nextIndex := nextIndex[s := p + 1];
        return Retry(p + 1);
      }
      if reply.applied + 1 >= base && p >= base &&
         (p >= m.prev || p >= base + |log| || (p < m.prev && reply.prevTerm != log[p - base].term))
      {
        nextIndex := nextIndex[s := reply.applied + 1];
        return Retry(reply.applied + 1);
      }
      assert reply.applied + 1 < base || p < base;
      reaction := SendSnapshot;
    }

    /** The snapshot for a follower that needs entries which are no longer in the log. */
    method MakeInstall(dst: nat) returns (ghost m: Install, internal: nat, lastTerm: nat, external: nat)
      requires Valid()
      ensures internal == log[0].index < |Whole()| && external == snapshotIndex == m.snap
      ensures m == Install(currentTerm, me, dst, Whole()[..internal + 1], External(Whole(), internal))
      ensures lastTerm == Whole()[internal].term
    {
      hide External;
      FullAt(hidden, log, 0);
      internal, lastTerm, external := log[0].index, log[0].term, snapshotIndex;
      m := Install(currentTerm, me, dst, Whole()[..internal + 1], snapshotIndex);
    }

    /** The reply to the snapshot: what comes after it is next, by its external index. */
    method HandleInstallReply(s: nat, external: nat, term: nat) returns (cancelled: bool)
      requires Valid() && s < |nextIndex|
      modifies this`nextIndex
      ensures Valid() && cancelled == (currentTerm < term)
      ensures nextIndex == if cancelled then old(nextIndex) else old(nextIndex)[s := external + 1]
    {
      if currentTerm < term {
        return true;
      }
      nextIndex := nextIndex[s := external + 1];
      return false;
    }

    // ----- applying

    /** One round of applyEntries' inner loop. */
    method ApplyOne() returns (more: bool)
      requires Valid()
      modifies this`lastApplied, this`applyQueue
      ensures Valid() && more == MayApply(old(View()))
      ensures View() ==
              if more then OnApply(old(View())) else old(View())
    {
      hide Full, External;
      var i := lastApplied + 1;
      FullAt(hidden, log, 0);
      more := i <= commitIndex && i < log[0].index + |log|;
      if more {
        FullAt(hidden, log, i - log[0].index);
        match log[i - log[0].index].command {
          case Normal(value) =>
            var e := ExternalIndex(i);
            applyQueue := applyQueue + [Apply(e, value)];
          case Noop =>
        }
        lastApplied := i;
      }
    }

    lemma KeepsExternal(hidden: Log, log: seq<Stored>, log': seq<Stored>, i: nat)
      requires log != [] && log' != [] && i < |hidden|
      ensures External(Full(hidden, log), i) == External(Full(hidden, log'), i)
    {
      ExternalOfHidden(hidden, Full(hidden, log), i);
      ExternalOfHidden(hidden, Full(hidden, log'), i);
    }

    lemma {:induction false} ExternalOfHidden(hidden: Log, log: Log, i: nat)
      requires i < |hidden| && hidden <= log
      ensures External(log, i) == External(hidden, i)
    {
      if i > 0 {
        ExternalOfHidden(hidden, log, i - 1);
      }
    }
  }
}
