/** A server of the replicated key/value store (src/kvraft/server.go): what applying the log makes
of it, and when it answers. */
module KvReplica {
  import opened KvModel

  datatype LogOp = LogOp(ck: int, req: int, input: KvInput, number: int)

  /** The last operation of a client that was applied, and its index. */
  datatype Session = Session(op: LogOp, index: nat)

  datatype State = State(mp: map<string, string>, sessions: map<int, Session>)

  function Lookup(mp: map<string, string>, key: string): string {
    if key in mp then mp[key] else ""
  }

  /** Get, Put and Append are the only operations. */
  predicate IsKvOp(input: KvInput) {
    input.op <= 2
  }

  function Written(mp: map<string, string>, input: KvInput): map<string, string> {
    if input.op == 0 then mp
    else if input.op == 1 then mp[input.key := input.value]
    else mp[input.key := Lookup(mp, input.key) + input.value]
  }

  predicate IsDuplicate(sessions: map<int, Session>, op: LogOp) {
    op.ck in sessions && op.req <= sessions[op.ck].op.req
  }

  /** The effect of the entry at an index. */
  function ApplyOp(state: State, op: LogOp, index: nat): State {
    var sessions := state.sessions[op.ck := Session(op, index)];
    if IsDuplicate(state.sessions, op) then State(state.mp, sessions)
    else State(Written(state.mp, op.input), sessions)
  }

  /** The state after a log. */
  function Replay(log: seq<LogOp>): State {
    if log == [] then State(map[], map[])
    else ApplyOp(Replay(log[..|log| - 1]), log[|log| - 1], |log|)
  }

  lemma ReplayNext(log: seq<LogOp>, i: nat)
    requires i < |log|
    ensures Replay(log[..i + 1]) == ApplyOp(Replay(log[..i]), log[i], i + 1)
  {
    assert log[..i + 1][..i] == log[..i];
  }

  /** The session of a client is its last operation in the log. */
  ghost predicate IsLast(log: seq<LogOp>, ck: int, i: nat) {
    i < |log| && log[i].ck == ck && forall j :: i < j < |log| ==> log[j].ck != ck
  }

  lemma {:induction false} SessionIsLast(log: seq<LogOp>, ck: int)
    ensures ck in Replay(log).sessions ==>
              var s := Replay(log).sessions[ck];
              s.index >= 1 && IsLast(log, ck, s.index - 1) && log[s.index - 1] == s.op
    ensures ck !in Replay(log).sessions ==> forall i :: 0 <= i < |log| ==> log[i].ck != ck
    decreases |log|
  {
    if log != [] {
      var n := |log| - 1;
      SessionIsLast(log[..n], ck);
    }
  }

  /** A client's entries come in the order of its requests. */
  ghost predicate InOrder(log: seq<LogOp>, ck: int) {
    forall i, j :: 0 <= i < j < |log| && log[i].ck == ck && log[j].ck == ck ==> log[i].req <= log[j].req
  }

  /** After the first p entries, a retry of the request at index i would change nothing. */
  ghost predicate IsSuppressed(log: seq<LogOp>, i: nat, p: nat)
    requires i < |log| && p <= |log|
  {
    IsDuplicate(Replay(log[..p]).sessions, log[i])
  }

  /** At every moment, a retry of any request that was applied would change nothing. */
  ghost predicate Suppresses(log: seq<LogOp>, ck: int) {
    forall i: nat, p: nat :: i < p <= |log| && log[i].ck == ck ==> IsSuppressed(log, i, p)
  }

  /** Duplicate suppression works for a client exactly if its entries come in the order of its requests.
      (A duplicate takes the place of the last operation even if it is an older one.) */
  lemma SuppressesIffInOrder(log: seq<LogOp>, ck: int)
    ensures Suppresses(log, ck) <==> InOrder(log, ck)
  {
    hide Replay;
    if InOrder(log, ck) {
      forall i: nat, p: nat | i < p <= |log| && log[i].ck == ck
        ensures IsSuppressed(log, i, p)
      {
        LastIsGreatest(log, ck, i, p);
      }
    }
    if Suppresses(log, ck) {
      forall i, j | 0 <= i < j < |log| && log[i].ck == ck && log[j].ck == ck
        ensures log[i].req <= log[j].req
      {
        assert IsSuppressed(log, i, j + 1);
        LastIs(log, ck, j);
      }
    }
  }

  lemma LastIsGreatest(log: seq<LogOp>, ck: int, i: nat, p: nat)
    requires InOrder(log, ck) && i < p <= |log| && log[i].ck == ck
    ensures IsSuppressed(log, i, p)
  {
    hide Replay;
    SessionIsLast(log[..p], ck);
    assert log[..p][i].ck == ck;
    var k := Replay(log[..p]).sessions[ck].index - 1;
    assert log[..p][k] == log[k];
  }

  /** Right after an entry, the session is that entry. */
  lemma LastIs(log: seq<LogOp>, ck: int, j: nat)
    requires j < |log| && log[j].ck == ck
    ensures ck in Replay(log[..j + 1]).sessions && Replay(log[..j + 1]).sessions[ck].op == log[j]
  {
    assert log[..j + 1][j] == log[j];
  }

  /** For example, after an older entry a request that was applied is applied again. */
  lemma OlderEntryReopens(newer: LogOp, older: LogOp)
    requires newer.ck == older.ck && older.req < newer.req && newer.input.op == 2
    ensures Lookup(Replay([newer, older, newer]).mp, newer.input.key) == newer.input.value + newer.input.value
  {
    var log := [newer, older, newer];
    assert log[..2][..1] == [newer] && [newer][..0] == [] && log[..2] == [newer, older];
    assert Replay([newer]) == ApplyOp(Replay([]), newer, 1);
    assert Replay([newer, older]) == ApplyOp(Replay([newer]), older, 2);
    assert Replay(log) == ApplyOp(Replay([newer, older]), newer, 3);
  }

  /** The answer to an RPC. */
  datatype Answer = Wait | Done(value: string) | Failed

  class KVServer {
    var mp: map<string, string>
    var ckSessions: map<int, Session>
    var logRecord: map<nat, LogOp>
    var lastApplied: nat

    /** The server's state is what the first entries of the log make of it, and it remembers
        entries only as they are in the log. */
    ghost predicate Follows(log: seq<LogOp>)
      reads this
    {
      && lastApplied <= |log|
      && State(mp, ckSessions) == Replay(log[..lastApplied])
      && (forall i :: i in logRecord ==> 1 <= i <= |log| && logRecord[i] == log[i - 1])
    }

    constructor ()
      ensures Follows([]) && lastApplied == 0
    {
      mp, ckSessions, logRecord, lastApplied := map[], map[], map[], 0;
    }

    /** Duplicates only renew the session. */
    method Change(index: nat, op: LogOp)
      requires IsKvOp(op.input) && (op.ck in ckSessions ==> ckSessions[op.ck].index < index)
      modifies this`mp, this`ckSessions
      ensures State(mp, ckSessions) == ApplyOp(old(State(mp, ckSessions)), op, index)
    {
      if op.ck in ckSessions && ckSessions[op.ck].index < index && op.req <= ckSessions[op.ck].op.req {
        ckSessions := ckSessions[op.ck := Session(op, index)];
        return;
      }
      ckSessions := ckSessions[op.ck := Session(op, index)];
      if op.input.op == 1 {
        mp := mp[op.input.key := op.input.value];
      } else if op.input.op == 2 {
        mp := mp[op.input.key := (if op.input.key in mp then mp[op.input.key] else "") + op.input.value];
      }
    }

    /** handleApplyMsg for a command. */
    method HandleCommand(index: nat, op: LogOp, ghost log: seq<LogOp>)
      requires Follows(log) && index == lastApplied + 1 && index <= |log| && op == log[index - 1]
      requires IsKvOp(op.input)
      modifies this
      ensures Follows(log) && lastApplied == index && logRecord == old(logRecord)[index := op]
    {
      hide Replay, ApplyOp, IsKvOp;
      SessionIsLast(log[..lastApplied], op.ck);
      ReplayNext(log, lastApplied);
      logRecord := logRecord[index := op];
      lastApplied := index;
      Change(index, op);
    }

    /** handleApplyMsg for a snapshot. */
    method HandleSnapshot(index: nat, snapshot: State, ghost log: seq<LogOp>)
      requires Follows(log) && index <= |log| && snapshot == Replay(log[..index])
      modifies this`mp, this`ckSessions, this`lastApplied
      ensures Follows(log) && lastApplied == index
    {
      mp, ckSessions, lastApplied := snapshot.mp, snapshot.sessions, index;
    }

    /** What a request that is done is answered with. */
    ghost function ValueFor(input: KvInput, log: seq<LogOp>): string
      requires lastApplied <= |log|
      reads this
    {
      if input.op == 0 then Lookup(Replay(log[..lastApplied]).mp, input.key) else ""
    }

    /** handleNormalRPC before it starts a new operation: a request is answered at once exactly if it is the
        client's last one that was applied here, and the server still has the record of its entry. */
    method AnswerFromSession(ck: int, req: int, input: KvInput, ghost log: seq<LogOp>) returns (answer: Answer)
      requires Follows(log)
      ensures answer.Done? <==>
              exists i: nat :: IsLast(log[..lastApplied], ck, i) && log[i].req == req && i + 1 in logRecord
      ensures answer == if answer.Done? then Done(ValueFor(input, log)) else Wait
    {
      hide Replay;
      answer := Wait;
      SessionIsLast(log[..lastApplied], ck);
      if ck in ckSessions && ckSessions[ck].op.req == req {
        var session := ckSessions[ck];
        assert log[..lastApplied][session.index - 1] == log[session.index - 1];
        if session.index in logRecord && logRecord[session.index].number == session.op.number {
          assert IsLast(log[..lastApplied], ck, session.index - 1);
          answer := Done(if input.op != 0 then "" else if input.key in mp then mp[input.key] else "");
        }
      }
      OneLast(log[..lastApplied], ck);
    }

    lemma OneLast(log: seq<LogOp>, ck: int)
      ensures forall i: nat, j: nat :: IsLast(log, ck, i) && IsLast(log, ck, j) ==> i == j
    {}

    /** waittingForCommit, each time it looks: once the index is applied and the server has the record of the
        entry there, the operation is done if that entry is the one that was started, and has failed
        otherwise. */
    method AnswerWhenApplied(index: nat, op: LogOp, ghost log: seq<LogOp>) returns (answer: Answer)
      requires Follows(log)
      ensures answer.Done? <==> index <= lastApplied && index in logRecord && log[index - 1].number == op.number
      ensures answer.Failed? <==> index <= lastApplied && index in logRecord && log[index - 1].number != op.number
      ensures answer.Done? ==> answer.value == ValueFor(op.input, log)
    {
      answer := Wait;
      if index <= lastApplied && index in logRecord {
        if logRecord[index].number == op.number {
          answer := Done(if op.input.op != 0 then "" else if op.input.key in mp then mp[op.input.key] else "");
        } else {
          answer := Failed;
        }
      }
    }
  }
}
