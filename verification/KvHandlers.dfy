/** The handlers of the key/value servers (src/kvraft/server.go:76-255) at work in the replicated store: they
answer exactly when the store's steps say that a call may return, and with the value of that step. */
module KvHandlers {
  import opened KvModel
  import opened KvReplica
  import opened KvRaft

  /** The server stands where the store says. */
  ghost predicate Mirrors(s: KVServer, w: World, server: nat)
    reads s
  {
    && server < |w.replicas| && s.Follows(w.log)
    && s.lastApplied == w.replicas[server].applied && s.logRecord.Keys == w.replicas[server].records
  }

  lemma HandlerIsCall(w: World, h: Handler)
    requires Inv(w) && h in w.handlers
    ensures h.call < |w.calls|
    ensures var c := w.calls[h.call]; h.op.ck == c.ck && h.op.req == c.req && h.op.input == c.input
  {
    hide CallsOk, ClockOk, EntriesOk, DoneOk;
  }

  /** A waiting handler answers its call exactly when the store may, with the same value. */
  method WhileWaiting(s: KVServer, h: Handler, ghost w: World) returns (answer: KvReplica.Answer)
    requires Inv(w) && Mirrors(s, w, h.server) && h in w.handlers && h.call < |w.calls| && !w.calls[h.call].done
    ensures answer.Done? <==> Enabled(w, Step.Answer(h))
    ensures answer.Done? ==> answer.value == Take(w, Step.Answer(h)).calls[h.call].value
  {
    hide Inv, Replay;
    HandlerIsCall(w, h);
    answer := s.AnswerWhenApplied(h.index, h.op, w.log);
  }

  /** A request is answered at once exactly when the store may, with the same value. */
  method OnRequest(s: KVServer, server: nat, ghost call: nat, ck: int, req: int, input: KvInput, ghost w: World)
    returns (answer: KvReplica.Answer)
    requires Inv(w) && Mirrors(s, w, server) && call < |w.calls| && !w.calls[call].done
    requires var c := w.calls[call]; c.ck == ck && c.req == req && c.input == input
    ensures answer.Done? <==> Enabled(w, Step.AnswerAtOnce(call, server))
    ensures answer.Done? ==> answer.value == Take(w, Step.AnswerAtOnce(call, server)).calls[call].value
  {
    hide Inv, Replay;
    SessionShows(s, w, server, ck, req);
    answer := s.AnswerFromSession(ck, req, input, w.log);
  }

  /** The session of a client shows its last entry. */
  lemma SessionShows(s: KVServer, w: World, server: nat, ck: int, req: int)
    requires Mirrors(s, w, server)
    ensures var sessions := Replay(w.log[..s.lastApplied]).sessions;
            (exists i: nat :: IsLast(w.log[..s.lastApplied], ck, i) && w.log[i].req == req && i + 1 in s.logRecord) <==>
            (ck in sessions && sessions[ck].op.req == req && 1 <= sessions[ck].index <= |w.log| &&
             sessions[ck].index in s.logRecord && w.log[sessions[ck].index - 1].number == sessions[ck].op.number)
  {
    hide Replay;
    var log := w.log[..s.lastApplied];
    SessionIsLast(log, ck);
    var sessions := Replay(log).sessions;
    if ck in sessions {
      var k := sessions[ck].index - 1;
      assert log[k] == w.log[k];
      assert IsLast(log, ck, k);
      assert forall i: nat :: IsLast(log, ck, i) ==> i == k;
    }
  }

  /** Applying the next command keeps the server where the store says. */
  method OnCommand(s: KVServer, server: nat, index: nat, op: LogOp, ghost w: World)
    requires Inv(w) && Mirrors(s, w, server) && Enabled(w, Step.Apply(server))
    requires index == s.lastApplied + 1 && op == w.log[s.lastApplied]
    modifies s
    ensures Mirrors(s, Take(w, Step.Apply(server)), server)
  {
    hide Inv, Replay;
    EntryIsKvOp(w, s.lastApplied);
    s.HandleCommand(index, op, w.log);
  }

  lemma EntryIsKvOp(w: World, p: nat)
    requires Inv(w) && p < |w.log|
    ensures IsKvOp(w.log[p].input)
  {
    hide ClockOk, EntriesOk, DoneOk, HandlersOk, LogsOk;
    EntryIsCall(w, p);
  }

  /** So does a snapshot. */
  method OnSnapshot(s: KVServer, server: nat, index: nat, snapshot: State, ghost w: World)
    requires Inv(w) && Mirrors(s, w, server) && Enabled(w, Step.Restore(server, index))
    requires snapshot == Replay(w.log[..index])
    modifies s
    ensures Mirrors(s, Take(w, Step.Restore(server, index)), server)
  {
    hide Inv, Replay;
    s.HandleSnapshot(index, snapshot, w.log);
  }
}
