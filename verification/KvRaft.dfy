/** The replicated key/value store over a replicated log (src/kvraft/server.go, client.go).

Raft is taken as a log: servers start operations, some of them are committed in the order in
which they were started, and every server has applied a prefix of the committed log.  A clerk
has one call at a time, numbers its calls in increasing order, and retries a call, by any server
and any number of times, until one answers.  A handler may outlive its call, but it starts no
operation after one of a later call of the same clerk was started.
 */
module KvRaft {
  import opened KvModel
  import opened KvReplica

  /** A clerk's call: what it asked for and when, whether it is over, when it returned and with
      what value, and after how many log entries it took effect. */
  datatype Call = Call(
    ck: int, req: int, input: KvInput, at: nat, done: bool, ret: nat, value: string, pos: nat)

  /** How much of the log a server has applied, and which entries it remembers. */
  datatype Replica = Replica(applied: nat, records: set<nat>)

  /** A handler that waits for an operation that it started. */
  datatype Handler = Handler(call: nat, server: nat, index: nat, op: LogOp)

  /** `origin` are the calls of the operations started, `source` the places of the committed
      operations among those started, `lens` the lengths of the log at each past moment. */
  datatype World = World(
    calls: seq<Call>,
    started: seq<LogOp>, origin: seq<nat>,
    log: seq<LogOp>, source: seq<nat>,
    replicas: seq<Replica>, handlers: set<Handler>,
    lens: seq<nat>)

  datatype Step =
    | Invoke(ck: int, req: int, input: KvInput)
    | Propose(call: nat, server: nat, index: nat)
    | Commit(i: nat)
    | Apply(server: nat)
    | Restore(server: nat, applied: nat)
    | Restart(server: nat, applied: nat)
    | Answer(handler: Handler)
    | AnswerAtOnce(call: nat, server: nat)

  ghost predicate Shaped(w: World) {
    && |w.origin| == |w.started| && |w.source| == |w.log|
    && (forall p :: 0 <= p < |w.log| ==> w.source[p] < |w.started|)
    && (forall i :: 0 <= i < |w.origin| ==> w.origin[i] < |w.calls|)
    && (forall s :: 0 <= s < |w.replicas| ==> w.replicas[s].applied <= |w.log|)
  }

  /** The call of a log entry. */
  ghost function IdOf(w: World, p: nat): nat
    requires Shaped(w) && p < |w.log|
  {
    w.origin[w.source[p]]
  }

  ghost predicate Enabled(w: World, step: Step)
    requires Shaped(w)
  {
    match step
    case Invoke(ck, req, input) =>
      IsKvOp(input) && forall c :: 0 <= c < |w.calls| && w.calls[c].ck == ck ==> w.calls[c].done && w.calls[c].req < req
    case Propose(call, server, index) =>
      && call < |w.calls|
      && forall i :: 0 <= i < |w.started| && w.started[i].ck == w.calls[call].ck ==> w.origin[i] <= call
    case Commit(i) => i < |w.started| && forall p :: 0 <= p < |w.source| ==> w.source[p] < i
    case Apply(server) => server < |w.replicas| && w.replicas[server].applied < |w.log|
    case Restore(server, applied) => server < |w.replicas| && applied <= |w.log|
    case Restart(server, applied) => server < |w.replicas| && applied <= |w.log|
    // waittingForCommit finds its own operation at the index that Start gave it
    case Answer(h) =>
      && h in w.handlers && h.call < |w.calls| && !w.calls[h.call].done && h.server < |w.replicas|
      && 1 <= h.index <= w.replicas[h.server].applied && h.index in w.replicas[h.server].records
      && w.log[h.index - 1].number == h.op.number
    // the session shows the call's request, and the server remembers the entry
    case AnswerAtOnce(call, server) =>
      && call < |w.calls| && !w.calls[call].done && server < |w.replicas|
      && var c := w.calls[call];
      var sessions := Replay(w.log[..w.replicas[server].applied]).sessions;
      && c.ck in sessions && sessions[c.ck].op.req == c.req
      && 1 <= sessions[c.ck].index <= |w.log|
      && sessions[c.ck].index in w.replicas[server].records
      && w.log[sessions[c.ck].index - 1].number == sessions[c.ck].op.number
  }

  /** Where the call's operation is first in the log, or the length of the log. */
  ghost function FirstFrom(w: World, call: nat, p: nat): (q: nat)
    requires Shaped(w) && p <= |w.log|
    ensures p <= q <= |w.log|
    ensures forall r :: p <= r < q ==> IdOf(w, r) != call
    ensures q < |w.log| ==> IdOf(w, q) == call
    decreases |w.log| - p
  {
    if p == |w.log| || IdOf(w, p) == call then p else FirstFrom(w, call, p + 1)
  }

  /** The call returns: a Get with what the server has at that moment. */
  ghost function Return(w: World, call: nat, server: nat): World
    requires Shaped(w) && call < |w.calls| && server < |w.replicas|
  {
    var c, a := w.calls[call], w.replicas[server].applied;
    var c' :=
      if c.input.op == 0
      then c.(done := true, ret := |w.lens|, value := Lookup(Replay(w.log[..a]).mp, c.input.key), pos := a)
      else c.(done := true, ret := |w.lens|, value := "", pos := FirstFrom(w, call, 0) + 1);
    w.(calls := w.calls[call := c'])
  }

  ghost function Effect(w: World, step: Step): World
    requires Shaped(w) && Enabled(w, step)
  {
    match step
    case Invoke(ck, req, input) =>
      w.(calls := w.calls + [Call(ck, req, input, |w.lens|, false, 0, "", 0)])
    case Propose(call, server, index) =>
      var c := w.calls[call];
      var op := LogOp(c.ck, c.req, c.input, |w.started|);
      w.(started := w.started + [op], origin := w.origin + [call],
         handlers := w.handlers + {Handler(call, server, index, op)})
    case Commit(i) => w.(log := w.log + [w.started[i]], source := w.source + [i])
    case Apply(server) =>
      var r := w.replicas[server];
      w.(replicas := w.replicas[server := Replica(r.applied + 1, r.records + {r.applied + 1})])
    case Restore(server, applied) =>
      w.(replicas := w.replicas[server := Replica(applied, w.replicas[server].records)])
    case Restart(server, applied) => w.(replicas := w.replicas[server := Replica(applied, {})])
    case Answer(h) => Return(w, h.call, h.server)
    case AnswerAtOnce(call, server) => Return(w, call, server)
  }

  ghost function Take(w: World, step: Step): World
    requires Shaped(w) && Enabled(w, step)
  {
    var w' := Effect(w, step);
    w'.(lens := w.lens + [|w'.log|])
  }

  ghost predicate Initial(w: World) {
    && w.calls == [] && w.started == [] && w.origin == [] && w.log == [] && w.source == []
    && w.handlers == {} && w.lens == []
    && forall s :: 0 <= s < |w.replicas| ==> w.replicas[s] == Replica(0, {})
  }

  // ----- the invariant

  ghost predicate LogsOk(w: World)
    requires Shaped(w)
  {
    && (forall i :: 0 <= i < |w.started| ==>
          var c := w.calls[w.origin[i]]; w.started[i] == LogOp(c.ck, c.req, c.input, i))
    && (forall p :: 0 <= p < |w.log| ==> w.log[p] == w.started[w.source[p]])
    && (forall p, q :: 0 <= p < q < |w.log| ==> w.source[p] < w.source[q])
    && (forall i, j :: 0 <= i < j < |w.started| && w.started[i].ck == w.started[j].ck ==> w.origin[i] <= w.origin[j])
  }

  ghost predicate CallsOk(w: World) {
    && (forall c :: 0 <= c < |w.calls| ==> w.calls[c].at < |w.lens| && IsKvOp(w.calls[c].input))
    && (forall c, d :: 0 <= c < d < |w.calls| && w.calls[c].ck == w.calls[d].ck ==>
          w.calls[c].done && w.calls[c].req < w.calls[d].req)
  }

  ghost predicate ClockOk(w: World) {
    && (forall t :: 0 <= t < |w.lens| ==> w.lens[t] <= |w.log|)
    && (forall t, u :: 0 <= t < u < |w.lens| ==> w.lens[t] <= w.lens[u])
  }

  /** An entry is committed after its call began. */
  ghost predicate EntriesOk(w: World)
    requires Shaped(w)
  {
    forall p :: 0 <= p < |w.log| ==>
      var c := IdOf(w, p); w.calls[c].at < |w.lens| && w.lens[w.calls[c].at] <= p
  }

  ghost predicate IsFresh(w: World, p: nat)
    requires Shaped(w) && p < |w.log|
  {
    forall q :: 0 <= q < p ==> IdOf(w, q) != IdOf(w, p)
  }

  /** A call that is over took effect between its beginning and its end; a Get returned the state
      at that point, and a Put or Append took effect where it is first in the log. */
  ghost predicate DoneOk(w: World, c: nat)
    requires Shaped(w) && c < |w.calls|
  {
    var call := w.calls[c];
    call.done ==>
      && call.at < |w.lens| && call.ret < |w.lens|
      && w.lens[call.at] < call.pos <= w.lens[call.ret] <= |w.log|
      && (call.input.op == 0 ==> call.value == Lookup(Replay(w.log[..call.pos]).mp, call.input.key))
      && (call.input.op != 0 ==> IdOf(w, call.pos - 1) == c && IsFresh(w, call.pos - 1))
  }

  ghost predicate HandlersOk(w: World)
    requires Shaped(w)
  {
    && (forall h :: h in w.handlers ==>
          0 <= h.op.number < |w.started| && w.started[h.op.number] == h.op && w.origin[h.op.number] == h.call)
    && (forall s, i :: 0 <= s < |w.replicas| && i in w.replicas[s].records ==> 1 <= i <= |w.log|)
  }

  ghost predicate Inv(w: World) {
    && Shaped(w) && LogsOk(w) && CallsOk(w) && ClockOk(w) && EntriesOk(w) && HandlersOk(w)
    && forall c: nat :: c < |w.calls| ==> DoneOk(w, c)
  }

  lemma InitialInv(w: World)
    requires Initial(w)
    ensures Inv(w)
  {}

  // ----- steps that only add to the past

  /** Everything is as before, with more at the end. */
  ghost predicate Grows(w: World, w': World) {
    && Shaped(w) && Shaped(w')
    && w.calls <= w'.calls && w.started <= w'.started && w.origin <= w'.origin
    && w.log <= w'.log && w.source <= w'.source && w.lens <= w'.lens
  }

  lemma GrowsKeepsId(w: World, w': World, p: nat)
    requires Grows(w, w') && p < |w.log|
    ensures p < |w'.log| && IdOf(w', p) == IdOf(w, p)
  {}

  lemma DoneKept(w: World, w': World, c: nat)
    requires Grows(w, w') && c < |w.calls| && DoneOk(w, c)
    ensures DoneOk(w', c)
  {
    var call := w.calls[c];
    if call.done {
      assert w'.log[..call.pos] == w.log[..call.pos];
      if call.input.op != 0 {
        forall q | 0 <= q < call.pos
          ensures IdOf(w', q) == IdOf(w, q)
        {
          GrowsKeepsId(w, w', q);
        }
      }
    }
  }

  lemma ClockKept(w: World, w': World)
    requires ClockOk(w) && w.log <= w'.log && w'.lens == w.lens + [|w'.log|]
    ensures ClockOk(w')
  {}

  lemma GrowsKeeps(w: World, w': World)
    requires Inv(w) && Grows(w, w') && w'.lens == w.lens + [|w'.log|]
    requires LogsOk(w') && CallsOk(w') && HandlersOk(w') && EntriesOk(w')
    requires forall c: nat :: |w.calls| <= c < |w'.calls| ==> !w'.calls[c].done
    ensures Inv(w')
  {
    hide LogsOk, CallsOk, HandlersOk, EntriesOk, DoneOk, ClockOk;
    ClockKept(w, w');
    forall c: nat | c < |w'.calls|
      ensures DoneOk(w', c)
    {
      if c < |w.calls| {
        DoneKept(w, w', c);
      } else {
        NotDoneOk(w', c);
      }
    }
  }

  lemma NotDoneOk(w: World, c: nat)
    requires Shaped(w) && c < |w.calls| && !w.calls[c].done
    ensures DoneOk(w, c)
  {}

  lemma EntriesKept(w: World, w': World)
    requires Grows(w, w') && EntriesOk(w) && w'.log == w.log
    ensures EntriesOk(w')
  {
    forall p | 0 <= p < |w'.log|
      ensures var c := IdOf(w', p); w'.calls[c].at < |w'.lens| && w'.lens[w'.calls[c].at] <= p
    {
      GrowsKeepsId(w, w', p);
    }
  }

  lemma InvokeKeeps(w: World, ck: int, req: int, input: KvInput)
    requires Inv(w) && Enabled(w, Invoke(ck, req, input))
    ensures Inv(Take(w, Invoke(ck, req, input)))
  {
    hide DoneOk, EntriesOk, ClockOk;
    var w' := Take(w, Invoke(ck, req, input));
    EntriesKept(w, w');
    GrowsKeeps(w, w');
  }

  lemma ProposeKeeps(w: World, call: nat, server: nat, index: nat)
    requires Inv(w) && Enabled(w, Propose(call, server, index))
    ensures Inv(Take(w, Propose(call, server, index)))
  {
    hide DoneOk, EntriesOk, ClockOk;
    var w' := Take(w, Propose(call, server, index));
    EntriesKept(w, w');
    GrowsKeeps(w, w');
  }

  /** While a call is going on its operation may always be started. */
  lemma MayProposeWhileGoingOn(w: World, call: nat, server: nat, index: nat)
    requires Inv(w) && call < |w.calls| && !w.calls[call].done
    ensures Enabled(w, Propose(call, server, index))
  {
    hide DoneOk, EntriesOk, ClockOk, HandlersOk;
    forall i | 0 <= i < |w.started| && w.started[i].ck == w.calls[call].ck
      ensures w.origin[i] <= call
    {
      assert w.calls[w.origin[i]].ck == w.calls[call].ck;
    }
  }

  lemma CommitEntries(w: World, i: nat)
    requires Inv(w) && Enabled(w, Commit(i))
    ensures EntriesOk(Take(w, Commit(i)))
  {
    hide DoneOk, LogsOk, HandlersOk;
    var w' := Take(w, Commit(i));
    forall p | 0 <= p < |w'.log|
      ensures var c := IdOf(w', p); w'.calls[c].at < |w'.lens| && w'.lens[w'.calls[c].at] <= p
    {
      if p < |w.log| {
        GrowsKeepsId(w, w', p);
      }
    }
  }

  lemma CommitKeeps(w: World, i: nat)
    requires Inv(w) && Enabled(w, Commit(i))
    ensures Inv(Take(w, Commit(i)))
  {
    hide DoneOk, EntriesOk, ClockOk;
    var w' := Take(w, Commit(i));
    CommitEntries(w, i);
    GrowsKeeps(w, w');
  }

  lemma ReplicaKeeps(w: World, step: Step)
    requires Inv(w) && Enabled(w, step) && (step.Apply? || step.Restore? || step.Restart?)
    ensures Inv(Take(w, step))
  {
    hide DoneOk, EntriesOk, ClockOk, Replay;
    var w' := Take(w, step);
    EntriesKept(w, w');
    GrowsKeeps(w, w');
  }

  // ----- returns

  /** Two calls of a clerk have different numbers. */
  lemma SameCall(w: World, c: nat, d: nat)
    requires CallsOk(w) && c < |w.calls| && d < |w.calls|
    requires w.calls[c].ck == w.calls[d].ck && w.calls[c].req == w.calls[d].req
    ensures c == d
  {}

  lemma EntryIsCall(w: World, p: nat)
    requires Inv(w) && p < |w.log|
    ensures var c := w.calls[IdOf(w, p)]; w.log[p] == LogOp(c.ck, c.req, c.input, w.source[p])
  {}

  /** A call that returns is in the part of the log that the answering server has applied. */
  lemma ReturnIsApplied(w: World, call: nat, server: nat, p: nat)
    requires Inv(w) && call < |w.calls| && !w.calls[call].done && server < |w.replicas|
    requires p < w.replicas[server].applied && IdOf(w, p) == call
    ensures Inv(Return(w, call, server).(lens := w.lens + [|w.log|]))
  {
    hide LogsOk, CallsOk, HandlersOk, EntriesOk, ClockOk, DoneOk;
    var w' := Return(w, call, server).(lens := w.lens + [|w.log|]);
    forall q: nat | q < |w.log|
      ensures IdOf(w', q) == IdOf(w, q)
    {}
    ReturnKeepsPast(w, w', call);
    forall c: nat | c < |w'.calls|
      ensures DoneOk(w', c)
    {
      if c == call {
        ReturnDone(w, call, server, p);
      } else {
        OtherDone(w, w', c);
      }
    }
  }

  lemma OtherDone(w: World, w': World, c: nat)
    requires Shaped(w) && Shaped(w') && c < |w.calls| == |w'.calls| && w'.calls[c] == w.calls[c]
    requires w'.origin == w.origin && w'.source == w.source && w'.log == w.log && w.lens <= w'.lens
    requires DoneOk(w, c)
    ensures DoneOk(w', c)
  {
    SameIds(w, w');
  }

  lemma SameIds(w: World, w': World)
    requires Shaped(w) && Shaped(w') && w'.origin == w.origin && w'.source == w.source && w'.log == w.log
    ensures forall q :: 0 <= q < |w.log| ==> IdOf(w', q) == IdOf(w, q)
  {}

  lemma ReturnKeepsPast(w: World, w': World, call: nat)
    requires Inv(w) && Shaped(w') && call < |w.calls| == |w'.calls| && w'.calls == w.calls[call := w'.calls[call]]
    requires var c, c' := w.calls[call], w'.calls[call];
             c'.ck == c.ck && c'.req == c.req && c'.input == c.input && c'.at == c.at && c'.done
    requires w' == w.(calls := w'.calls, lens := w.lens + [|w.log|])
    ensures LogsOk(w') && CallsOk(w') && HandlersOk(w') && EntriesOk(w') && ClockOk(w')
  {
    hide DoneOk;
    forall c | 0 <= c < |w.calls|
      ensures w'.calls[c].ck == w.calls[c].ck && w'.calls[c].req == w.calls[c].req
      ensures w'.calls[c].input == w.calls[c].input && w'.calls[c].at == w.calls[c].at
    {}
    forall p | 0 <= p < |w.log|
      ensures IdOf(w', p) == IdOf(w, p)
    {}
  }

  lemma ReturnDone(w: World, call: nat, server: nat, p: nat)
    requires Inv(w) && call < |w.calls| && !w.calls[call].done && server < |w.replicas|
    requires p < w.replicas[server].applied && IdOf(w, p) == call
    requires Shaped(Return(w, call, server).(lens := w.lens + [|w.log|]))
    ensures DoneOk(Return(w, call, server).(lens := w.lens + [|w.log|]), call)
  {
    hide LogsOk, HandlersOk, DoneOk, ClockOk, Replay;
    var w' := Return(w, call, server).(lens := w.lens + [|w.log|]);
    var c := w.calls[call];
    var f := FirstFrom(w, call, 0);
    assert f <= p;
    SameIds(w, w');
    assert w.lens[c.at] <= p && w.lens[c.at] <= f;
    DoneFrom(w', call);
  }

  lemma DoneFrom(w: World, c: nat)
    requires Shaped(w) && c < |w.calls|
    requires var call := w.calls[c];
             && call.at < |w.lens| && call.ret < |w.lens|
             && w.lens[call.at] < call.pos <= w.lens[call.ret] <= |w.log|
             && (call.input.op == 0 ==> call.value == Lookup(Replay(w.log[..call.pos]).mp, call.input.key))
             && (call.input.op != 0 ==> IdOf(w, call.pos - 1) == c && IsFresh(w, call.pos - 1))
    ensures DoneOk(w, c)
  {}

  lemma AnswerKeeps(w: World, h: Handler)
    requires Inv(w) && Enabled(w, Answer(h))
    ensures Inv(Take(w, Answer(h)))
  {
    hide CallsOk, EntriesOk, ClockOk, DoneOk;
    assert w.source[h.index - 1] == h.op.number;
    ReturnIsApplied(w, h.call, h.server, h.index - 1);
  }

  lemma AnswerAtOnceKeeps(w: World, call: nat, server: nat)
    requires Inv(w) && Enabled(w, AnswerAtOnce(call, server))
    ensures Inv(Take(w, AnswerAtOnce(call, server)))
  {
    hide LogsOk, HandlersOk, EntriesOk, ClockOk, DoneOk, Replay;
    var a := w.replicas[server].applied;
    var c := w.calls[call];
    SessionIsLast(w.log[..a], c.ck);
    var p := Replay(w.log[..a]).sessions[c.ck].index - 1;
    assert w.log[..a][p] == w.log[p];
    EntryIsCall(w, p);
    SameCall(w, IdOf(w, p), call);
    ReturnIsApplied(w, call, server, p);
  }

  lemma StepKeeps(w: World, step: Step)
    requires Inv(w) && Enabled(w, step)
    ensures Inv(Take(w, step))
  {
    hide Inv, Enabled, Take;
    match step
    case Invoke(ck, req, input) => InvokeKeeps(w, ck, req, input);
    case Propose(call, server, index) => ProposeKeeps(w, call, server, index);
    case Commit(i) => CommitKeeps(w, i);
    case Apply(server) => ReplicaKeeps(w, step);
    case Restore(server, applied) => ReplicaKeeps(w, step);
    case Restart(server, applied) => ReplicaKeeps(w, step);
    case Answer(h) => AnswerKeeps(w, h);
    case AnswerAtOnce(call, server) => AnswerAtOnceKeeps(w, call, server);
  }

  ghost predicate Leads(w: World, steps: seq<Step>, last: World)
    decreases |steps|
  {
    if steps == [] then last == w
    else Shaped(w) && Enabled(w, steps[0]) && Leads(Take(w, steps[0]), steps[1..], last)
  }

  lemma {:induction false} RunsKeep(w: World, steps: seq<Step>, last: World)
    requires Inv(w) && Leads(w, steps, last)
    ensures Inv(last)
    decreases |steps|
  {
    hide Inv, Enabled, Take;
    if steps != [] {
      StepKeeps(w, steps[0]);
      RunsKeep(Take(w, steps[0]), steps[1..], last);
    }
  }
}
