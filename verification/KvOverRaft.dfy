/** The replicated key/value store runs on Raft: every step of a cluster of Raft servers is one or more
steps of the log that the store takes for granted (src/kvraft/server.go:76-257, src/raft/raft.go).

A command is the number of an operation among those started. */
module KvOverRaft {
  import RN = RaftNode
  import RW = RaftWorld
  import RS = RaftSafety
  import RT = RaftStream
  import RL = RaftLog
  import RQ = RaftQuiet
  import KvRaft
  import KvModel
  import Locality
  import Operations
  import KvLinearizable

  // ----- operations are in the log in the order in which they were started

  ghost predicate IsNormal(log: RN.Log, i: nat) {
    i < |log| && log[i].command.Normal?
  }

  /** Commands are below n, and each is above those before it. */
  ghost predicate Numbered(log: RN.Log, n: nat) {
    && (forall i: nat :: IsNormal(log, i) ==> 0 <= log[i].command.value < n)
    && (forall i: nat, j: nat :: i < j && IsNormal(log, i) && IsNormal(log, j) ==>
          log[i].command.value < log[j].command.value)
  }

  ghost predicate AllNumbered(w: RW.World, n: nat) {
    forall t: nat :: Numbered(w.log(t), n)
  }

  lemma NumberedPart(log: RN.Log, part: RN.Log, n: nat, m: nat)
    requires Numbered(log, n) && part <= log && n <= m
    ensures Numbered(part, m)
  {
    forall i: nat | IsNormal(part, i)
      ensures IsNormal(log, i) && log[i] == part[i]
    {}
  }

  lemma NumberedMore(log: RN.Log, e: RN.Entry, n: nat, m: nat)
    requires Numbered(log, n) && n <= m && (e.command.Normal? ==> e.command.value == n < m)
    ensures Numbered(log + [e], m)
  {
    forall i: nat | IsNormal(log + [e], i) && i < |log|
      ensures IsNormal(log, i) && (log + [e])[i] == log[i]
    {}
  }

  /** A candidate's log is part of some leader's. */
  lemma KnownIsNumbered(w: RW.World, log: RN.Log, n: nat)
    requires AllNumbered(w, n) && RW.Known(w, log) && log != []
    ensures Numbered(log, n)
  {
    var i := |log| - 1;
    assert log[..i + 1] == log;
    NumberedPart(w.log(log[i].term), log, n, n);
  }

  /** How many operations have been started after a step. */
  ghost function Started(step: RW.Step, n: nat): nat {
    if step.Submit? then n + 1 else n
  }

  lemma StepNumbers(w: RW.World, step: RW.Step, n: nat)
    requires RW.Inv(w) && RW.Shaped(w) && RW.Enabled(w, step) && AllNumbered(w, n)
    requires step.Submit? ==> step.value == n
    ensures AllNumbered(RW.Take(w, step), Started(step, n))
  {
    hide RW.Inv, Numbered;
    var w' := RW.Take(w, step);
    forall t: nat
      ensures Numbered(w'.log(t), Started(step, n))
    {
      if step.Submit? {
        SubmitNumbers(w, step, n, t);
      } else if step.Win? {
        WinNumbers(w, step, n, t);
      } else {
        LogsStay(w, step);
      }
    }
  }

  lemma LogsStay(w: RW.World, step: RW.Step)
    requires RW.Shaped(w) && RW.Enabled(w, step) && !step.Submit? && !step.Win?
    ensures RW.Take(w, step).log == w.log
  {
    hide RN.OnAppend, RN.OnInstall, RN.OnRequestVote, RN.OnApply, RN.External, RW.Shaped;
  }

  lemma SubmitNumbers(w: RW.World, step: RW.Step, n: nat, t: nat)
    requires RW.Inv(w) && RW.Shaped(w) && RW.Enabled(w, step) && AllNumbered(w, n)
    requires step.Submit? && step.value == n
    ensures Numbered(RW.Take(w, step).log(t), n + 1)
  {
    hide RW.Inv, Numbered, RW.CoreOk, RW.CommitOk, RW.MatchOk;
    var node := w.nodes[step.v];
    RQ.Facts(w, step.v);
    assert Numbered(w.log(t), n);
    if t == node.term {
      NumberedMore(w.log(t), RN.Entry(t, RN.Normal(n)), n, n + 1);
    } else {
      NumberedPart(w.log(t), w.log(t), n, n + 1);
    }
  }

  lemma WinNumbers(w: RW.World, step: RW.Step, n: nat, t: nat)
    requires RW.Inv(w) && RW.Shaped(w) && RW.Enabled(w, step) && AllNumbered(w, n) && step.Win?
    ensures Numbered(RW.Take(w, step).log(t), n)
  {
    hide RW.Inv, Numbered, RW.RoleOk, RW.CommitOk, RW.MatchOk, RW.VoteOk, RW.CandOk, RW.AckOk, RW.KeepOk, RW.BallotOk;
    var node := w.nodes[step.v];
    RQ.Facts(w, step.v);
    assert Numbered(w.log(t), n);
    if t == node.term {
      KnownIsNumbered(w, node.log, n);
      NumberedMore(node.log, RN.Entry(t, RN.Noop), n, n);
    }
  }

  // ----- the log that is committed

  ghost predicate Ascends(c: seq<int>, n: nat) {
    && (forall p :: 0 <= p < |c| ==> 0 <= c[p] < n)
    && (forall p, q :: 0 <= p < q < |c| ==> c[p] < c[q])
  }

  ghost predicate ComesFrom(log: RN.Log, i: nat, value: int) {
    exists j: nat :: j <= i && IsNormal(log, j) && log[j].command.value == value
  }

  lemma StillComesFrom(log: RN.Log, i: nat, value: int)
    requires ComesFrom(log, i, value)
    ensures ComesFrom(log, i + 1, value)
  {
    var j: nat :| j <= i && IsNormal(log, j) && log[j].command.value == value;
  }

  lemma {:induction false} CommandsAscend(log: RN.Log, i: nat, n: nat)
    requires Numbered(log, n) && i < |log|
    ensures Ascends(RL.Commands(log, i), n)
    ensures forall p :: 0 <= p < |RL.Commands(log, i)| ==> ComesFrom(log, i, RL.Commands(log, i)[p])
  {
    if i > 0 {
      CommandsAscend(log, i - 1, n);
      var before, c := RL.Commands(log, i - 1), RL.Commands(log, i);
      forall p | 0 <= p < |c|
        ensures 0 <= c[p] < n && ComesFrom(log, i, c[p])
      {
        if p < |before| {
          StillComesFrom(log, i - 1, before[p]);
        } else {
          assert IsNormal(log, i);
        }
      }
      forall p, q | 0 <= p < q < |c|
        ensures c[p] < c[q]
      {
        if q == |before| {
          assert ComesFrom(log, i - 1, before[p]);
          var j: nat :| j <= i - 1 && IsNormal(log, j) && log[j].command.value == before[p];
          assert IsNormal(log, i);
        }
      }
    }
  }

  lemma LogAscends(w: RW.World, c: seq<int>, n: nat)
    requires AllNumbered(w, n) && RL.IsLog(w, c)
    ensures Ascends(c, n)
  {
    var t: nat, k: nat :|
      RL.IsLastPoint(w, t, k) && 0 < k <= |w.log(t)| && c == RL.Commands(w.log(t), k - 1);
    CommandsAscend(w.log(t), k - 1, n);
  }

  // ----- steps of the store's log

  /** The external index that Start returns. */
  ghost function IndexOf(n: RN.Node): nat {
    if n.log == [] then 0 else RN.External(n.log, |n.log| - 1) + 1
  }

  /** What a step of a Raft server is to the store: its handler starts an operation, its service is sent a
      command or a snapshot, or it starts afresh. */
  ghost function Act(w: RW.World, step: RW.Step, call: nat): seq<KvRaft.Step>
    requires RW.Enabled(w, step)
  {
    match step
    case Submit(v, _) => [KvRaft.Propose(call, v, IndexOf(w.nodes[v]))]
    case Send(v) =>
      (match w.nodes[v].queue[0]
       case Apply(_, _) => [KvRaft.Apply(v)]
       case Restore(index) => [KvRaft.Restore(v, index)])
    case Restart(v) => [KvRaft.Restart(v, 0)]
    case _ => []
  }

  ghost predicate Natural(c: seq<int>) {
    forall p :: 0 <= p < |c| ==> c[p] >= 0
  }

  /** The operations that are committed after the first few. */
  ghost function Commits(c: seq<int>, from: nat): seq<KvRaft.Step>
    requires from <= |c| && Natural(c)
    decreases |c| - from
  {
    if from == |c| then [] else [KvRaft.Commit(c[from])] + Commits(c, from + 1)
  }

  /** The store after a step of a Raft server: it acts, and has whatever has been chosen committed. */
  ghost predicate Follows(w: RW.World, step: RW.Step, kw: KvRaft.World, call: nat, kw': KvRaft.World)
    requires RW.Shaped(w) && RW.Enabled(w, step)
  {
    exists c :: FollowsTo(w, step, kw, call, kw', c)
  }

  ghost predicate FollowsTo(
    w: RW.World, step: RW.Step, kw: KvRaft.World, call: nat, kw': KvRaft.World, c: seq<int>)
    requires RW.Shaped(w) && RW.Enabled(w, step)
  {
    && RL.IsLog(RW.Take(w, step), c) && |kw.source| <= |c| && Natural(c)
    && KvRaft.Leads(kw, Act(w, step, call) + Commits(c, |kw.source|), kw')
  }

  lemma {:induction false} LeadsAppend(
    a: KvRaft.World, s: seq<KvRaft.Step>, b: KvRaft.World, t: seq<KvRaft.Step>, c: KvRaft.World)
    requires KvRaft.Leads(a, s, b) && KvRaft.Leads(b, t, c)
    ensures KvRaft.Leads(a, s + t, c)
    decreases |s|
  {
    hide KvRaft.Shaped, KvRaft.Enabled, KvRaft.Take;
    if s == [] {
      assert s + t == t;
    } else {
      assert (s + t)[1..] == s[1..] + t;
      LeadsAppend(KvRaft.Take(a, s[0]), s[1..], b, t, c);
    }
  }

  lemma {:induction false} LeadsOnce(a: KvRaft.World, s: seq<KvRaft.Step>, b: KvRaft.World, c: KvRaft.World)
    requires KvRaft.Leads(a, s, b) && KvRaft.Leads(a, s, c)
    ensures b == c
    decreases |s|
  {
    hide KvRaft.Shaped, KvRaft.Enabled, KvRaft.Take;
    if s != [] {
      LeadsOnce(KvRaft.Take(a, s[0]), s[1..], b, c);
    }
  }

  lemma LeadsOne(a: KvRaft.World, step: KvRaft.Step)
    requires KvRaft.Shaped(a) && KvRaft.Enabled(a, step)
    ensures KvRaft.Leads(a, [step], KvRaft.Take(a, step))
  {
    hide KvRaft.Shaped, KvRaft.Enabled, KvRaft.Take;
    assert [step][1..] == [];
    assert KvRaft.Leads(KvRaft.Take(a, step), [], KvRaft.Take(a, step));
  }

  // ----- the two go together

  /** The store's log is the one that Raft has chosen, and its replicas are where the services are. */
  ghost predicate Agree(w: RW.World, kw: KvRaft.World) {
    && RW.Inv(w) && RT.Streams(w) && KvRaft.Inv(kw) && Together(w.nodes, kw.replicas)
    && RL.IsLog(w, kw.source)
    && AllNumbered(w, |kw.started|)
  }

  ghost predicate Together(nodes: seq<RN.Node>, replicas: seq<KvRaft.Replica>) {
    |replicas| == |nodes| && forall v :: 0 <= v < |nodes| ==> replicas[v].applied == nodes[v].served
  }

  /** As many operations of a longer log are committed as are missing. */
  lemma {:induction false} CommitsLead(kw: KvRaft.World, c: seq<int>) returns (kw': KvRaft.World)
    requires KvRaft.Inv(kw) && kw.source <= c && Ascends(c, |kw.started|) && Natural(c)
    ensures KvRaft.Leads(kw, Commits(c, |kw.source|), kw') && KvRaft.Inv(kw')
    ensures kw'.source == c && kw'.replicas == kw.replicas && kw'.started == kw.started
    decreases |c| - |kw.source|
  {
    hide KvRaft.Inv;
    var n := |kw.source|;
    if n == |c| {
      kw' := kw;
    } else {
      var i: nat := c[n];
      CommitEnabled(kw, c);
      KvRaft.CommitKeeps(kw, i);
      var k1 := KvRaft.Take(kw, KvRaft.Commit(i));
      assert k1.source == kw.source + [i];
      assert k1.source <= c;
      kw' := CommitsLead(k1, c);
      LeadsOne(kw, KvRaft.Commit(i));
      LeadsAppend(kw, [KvRaft.Commit(i)], k1, Commits(c, n + 1), kw');
    }
  }

  lemma CommitEnabled(kw: KvRaft.World, c: seq<int>)
    requires KvRaft.Inv(kw) && kw.source <= c && |kw.source| < |c| && Ascends(c, |kw.started|)
    ensures KvRaft.Shaped(kw) && KvRaft.Enabled(kw, KvRaft.Commit(c[|kw.source|]))
  {
    hide KvRaft.LogsOk, KvRaft.CallsOk, KvRaft.ClockOk, KvRaft.EntriesOk, KvRaft.HandlersOk, KvRaft.DoneOk;
    forall p | 0 <= p < |kw.source|
      ensures kw.source[p] < c[|kw.source|]
    {
      assert kw.source[p] == c[p];
    }
  }

  lemma ServedStays(w: RW.World, step: RW.Step, u: nat)
    requires RW.Shaped(w) && RW.Enabled(w, step) && u < |w.nodes|
    ensures |RW.Take(w, step).nodes| == |w.nodes|
    ensures var n' := RW.Take(w, step).nodes[u];
            n'.served == if u == step.v && step.Send? then w.nodes[u].queue[0].index
                         else if u == step.v && step.Restart? then 0
                         else w.nodes[u].served
  {
    hide RN.External, RN.MayCommit, RN.UpToDate, RN.Agrees;
  }

  /** The next message to a service is about something committed, and a command is the next one. */
  lemma NextMessage(w: RW.World, kw: KvRaft.World, v: nat)
    requires Agree(w, kw) && v < |w.nodes| && w.nodes[v].queue != []
    ensures var m := w.nodes[v].queue[0];
            m.index <= |kw.log| && (m.Apply? ==> m.index == kw.replicas[v].applied + 1)
  {
    hide RW.Inv, RT.MsgOk, RL.IsLog, KvRaft.Inv, Numbered;
    var m := w.nodes[v].queue[0];
    RT.StreamMsg(w, v, m);
    RL.SentIsInLog(w, m, kw.source);
    SameLength(kw);
    assert RT.NodeStreams(w.nodes[v]);
  }

  lemma SameLength(kw: KvRaft.World)
    requires KvRaft.Inv(kw)
    ensures |kw.source| == |kw.log| && KvRaft.Shaped(kw)
  {
    hide KvRaft.LogsOk, KvRaft.CallsOk, KvRaft.ClockOk, KvRaft.EntriesOk, KvRaft.HandlersOk, KvRaft.DoneOk;
  }

  /** The handler that starts an operation does so in order, under the operation's number. */
  ghost predicate MayAct(w: RW.World, step: RW.Step, kw: KvRaft.World, call: nat)
    requires RW.Enabled(w, step)
  {
    step.Submit? ==>
      && step.value == |kw.started|
      && KvRaft.Shaped(kw) && KvRaft.Enabled(kw, KvRaft.Propose(call, step.v, IndexOf(w.nodes[step.v])))
  }

  lemma ActEnabled(w: RW.World, step: RW.Step, kw: KvRaft.World, call: nat)
    requires Agree(w, kw) && RW.Shaped(w) && RW.Enabled(w, step) && MayAct(w, step, kw, call)
    ensures KvRaft.Shaped(kw) && forall a :: a in Act(w, step, call) ==> KvRaft.Enabled(kw, a)
  {
    hide RW.Inv, RT.Streams, RL.IsLog, KvRaft.Inv, AllNumbered, RW.Shaped, IndexOf;
    SameLength(kw);
    if step.Send? {
      NextMessage(w, kw, step.v);
    }
  }

  lemma ActLeads(w: RW.World, step: RW.Step, kw: KvRaft.World, call: nat) returns (k1: KvRaft.World)
    requires Agree(w, kw) && RW.Shaped(w) && RW.Enabled(w, step) && MayAct(w, step, kw, call)
    ensures KvRaft.Leads(kw, Act(w, step, call), k1) && KvRaft.Inv(k1)
    ensures k1.source == kw.source && |k1.started| == Started(step, |kw.started|)
    ensures Together(RW.Take(w, step).nodes, k1.replicas)
  {
    hide RW.Inv, RT.Streams, RL.IsLog, KvRaft.Inv, AllNumbered, RW.Shaped, IndexOf, RW.Take;
    var nodes' := RW.Take(w, step).nodes;
    ServedStays(w, step, step.v);
    ActEnabled(w, step, kw, call);
    var acts := Act(w, step, call);
    if acts == [] {
      k1 := kw;
    } else {
      assert acts == [acts[0]] && acts[0] in acts;
      LeadsOne(kw, acts[0]);
      KvRaft.StepKeeps(kw, acts[0]);
      k1 := KvRaft.Take(kw, acts[0]);
    }
    forall u | 0 <= u < |w.nodes|
      ensures k1.replicas[u].applied == nodes'[u].served
    {
      ServedStays(w, step, u);
      if u == step.v && step.Send? {
        NextMessage(w, kw, u);
      }
    }
  }

  /** Every step of a cluster of Raft servers is one that the store's log can take, and the two stay
      together. */
  lemma RaftGivesLog(w: RW.World, step: RW.Step, kw: KvRaft.World, call: nat) returns (kw': KvRaft.World)
    requires Agree(w, kw) && RW.Shaped(w) && RW.Enabled(w, step) && MayAct(w, step, kw, call)
    ensures Follows(w, step, kw, call, kw') && Agree(RW.Take(w, step), kw')
  {
    hide RW.Inv, RT.Streams, RL.IsLog, KvRaft.Inv, RW.Shaped, RW.Take, RW.Enabled, RW.Grows, Act, Numbered;
    var w' := RW.Take(w, step);
    RS.StepKeeps(w, step);
    RT.StepStreams(w, step);
    RS.StepGrows(w, step);
    StepNumbers(w, step, |kw.started|);
    var k1 := ActLeads(w, step, kw, call);
    var c := RL.LogExists(w');
    RL.LogGrows(w, w', kw.source, c);
    LogAscends(w', c, |k1.started|);
    kw' := CommitsLead(k1, c);
    LeadsAppend(kw, Act(w, step, call), k1, Commits(c, |kw.source|), kw');
    assert FollowsTo(w, step, kw, call, kw', c);
  }

  /** There is only one store that follows. */
  lemma FollowsOnce(w: RW.World, step: RW.Step, kw: KvRaft.World, call: nat, a: KvRaft.World, b: KvRaft.World)
    requires RW.Shaped(w) && RW.Enabled(w, step) && Follows(w, step, kw, call, a) && Follows(w, step, kw, call, b)
    ensures a == b
  {
    hide RW.Shaped, RW.Take, RW.Enabled, RL.IsLog, KvRaft.Leads;
    var c :| FollowsTo(w, step, kw, call, a, c);
    var d :| FollowsTo(w, step, kw, call, b, d);
    RL.LogIsOne(RW.Take(w, step), c, d);
    LeadsOnce(kw, Act(w, step, call) + Commits(c, |kw.source|), a, b);
  }

  // ----- runs of the store on Raft

  datatype Both = Server(step: RW.Step, call: nat) | Client(act: KvRaft.Step)

  /** Clerks call and handlers answer, and the Raft servers run. */
  ghost predicate Runs(w: RW.World, kw: KvRaft.World, steps: seq<Both>, w': RW.World, kw': KvRaft.World)
    decreases |steps|
  {
    if steps == [] then w' == w && kw' == kw
    else
      match steps[0]
      case Client(act) =>
        && (act.Invoke? || act.Answer? || act.AnswerAtOnce?) && KvRaft.Shaped(kw) && KvRaft.Enabled(kw, act)
        && Runs(w, KvRaft.Take(kw, act), steps[1..], w', kw')
      case Server(step, call) =>
        && RW.Shaped(w) && RW.Enabled(w, step) && MayAct(w, step, kw, call)
        && exists k1 :: Follows(w, step, kw, call, k1) && Runs(RW.Take(w, step), k1, steps[1..], w', kw')
  }

  lemma ClientKeeps(w: RW.World, kw: KvRaft.World, act: KvRaft.Step)
    requires Agree(w, kw) && KvRaft.Shaped(kw) && KvRaft.Enabled(kw, act)
    requires act.Invoke? || act.Answer? || act.AnswerAtOnce?
    ensures Agree(w, KvRaft.Take(kw, act))
  {
    hide RW.Inv, RT.Streams, RL.IsLog, KvRaft.Inv, AllNumbered, KvRaft.Enabled;
    KvRaft.StepKeeps(kw, act);
  }

  /** Every run of the store on Raft is a run of the store. */
  lemma {:induction false} RunsAreRuns(w: RW.World, kw: KvRaft.World, steps: seq<Both>, w': RW.World, kw': KvRaft.World)
    returns (acts: seq<KvRaft.Step>)
    requires Agree(w, kw) && Runs(w, kw, steps, w', kw')
    ensures Agree(w', kw') && KvRaft.Leads(kw, acts, kw')
    decreases |steps|
  {
    hide Agree, RW.Shaped, RW.Enabled, RW.Take, KvRaft.Shaped, KvRaft.Enabled, KvRaft.Take, MayAct, Act, RL.IsLog;
    if steps == [] {
      acts := [];
    } else {
      match steps[0]
      case Client(act) =>
        ClientKeeps(w, kw, act);
        var rest := RunsAreRuns(w, KvRaft.Take(kw, act), steps[1..], w', kw');
        LeadsOne(kw, act);
        LeadsAppend(kw, [act], KvRaft.Take(kw, act), rest, kw');
        acts := [act] + rest;
      case Server(step, call) =>
        var k1 :| Follows(w, step, kw, call, k1) && Runs(RW.Take(w, step), k1, steps[1..], w', kw');
        var k2 := RaftGivesLog(w, step, kw, call);
        FollowsOnce(w, step, kw, call, k1, k2);
        var c :| FollowsTo(w, step, kw, call, k1, c);
        var rest := RunsAreRuns(RW.Take(w, step), k1, steps[1..], w', kw');
        var first := Act(w, step, call) + Commits(c, |kw.source|);
        LeadsAppend(kw, first, k1, rest, kw');
        acts := first + rest;
    }
  }

  /** The first worlds go together. */
  lemma FirstAgree(w: RW.World, kw: KvRaft.World)
    requires RW.Initial(w) && KvRaft.Initial(kw) && |kw.replicas| == |w.nodes|
    ensures Agree(w, kw)
  {
    RW.InitialInv(w);
    RT.InitialStreams(w);
    KvRaft.InitialInv(kw);
    FirstLogIsEmpty(w);
    forall v | 0 <= v < |w.nodes|
      ensures kw.replicas[v].applied == w.nodes[v].served
    {
      assert w.nodes[v] == RN.FirstNode(|w.nodes|);
    }
  }

  lemma FirstLogIsEmpty(w: RW.World)
    requires RW.Initial(w) && RW.Inv(w)
    ensures RL.IsLog(w, [])
  {
    hide RW.Inv;
    var c := RL.LogExists(w);
    var t: nat, k: nat :|
      RL.IsLastPoint(w, t, k) && 0 < k <= |w.log(t)| && c == RL.Commands(w.log(t), k - 1);
    assert w.log(t) == [RN.Sentinel()];
  }

  /** The store on Raft is linearizable: in every run of clerks, handlers and Raft servers, with messages
      lost, repeated, delayed and reordered, servers crashing and restarting, and snapshots, the calls
      that returned, with the writes that took effect without having returned, are a history that is
      linearizable against one table of keys. */
  lemma KvOverRaftIsLinearizable(
    w: RW.World, kw: KvRaft.World, steps: seq<Both>, w': RW.World, kw': KvRaft.World, ids: seq<nat>)
    requires RW.Initial(w) && KvRaft.Initial(kw) && |kw.replicas| == |w.nodes|
    requires Runs(w, kw, steps, w', kw') && KvRaft.Shaped(kw') && KvLinearizable.Lists(kw', ids)
    ensures forall i :: 0 <= i < |ids| ==> ids[i] < |kw'.calls|
    ensures Operations.IsLinearizable(Locality.Table(KvModel.Cells, KvModel.Key), KvLinearizable.Ops(kw', ids))
  {
    FirstAgree(w, kw);
    var acts := RunsAreRuns(w, kw, steps, w', kw');
    KvLinearizable.KvRaftIsLinearizable(kw, acts, kw', ids);
  }
}
