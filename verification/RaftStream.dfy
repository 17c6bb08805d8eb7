/** What the service on each server is sent (src/raft/raft.go:110-148, 802-845;
src/kvraft/server.go:180-182). */
module RaftStream {
  import opened RaftNode
  import opened RaftWorld
  import opened RaftKeeps
  import opened RaftQuiet
  import opened RaftElections
  import opened RaftLeaders
  import opened RaftReplication
  import opened RaftSafety

  /** After external index `from`, each command is the next one, and a snapshot may start the
      counting anew. */
  ghost predicate GapFree(from: nat, queue: seq<Msg>)
    decreases |queue|
  {
    queue == [] || ((queue[0].Apply? ==> queue[0].index == from + 1) && GapFree(queue[0].index, queue[1..]))
  }

  ghost function Reached(from: nat, queue: seq<Msg>): nat {
    if queue == [] then from else queue[|queue| - 1].index
  }

  lemma {:induction false} GapFreeAppend(from: nat, queue: seq<Msg>, m: Msg)
    requires GapFree(from, queue) && (m.Apply? ==> m.index == Reached(from, queue) + 1)
    ensures GapFree(from, queue + [m])
    decreases |queue|
  {
    if queue != [] {
      assert (queue + [m])[1..] == queue[1..] + [m];
      GapFreeAppend(queue[0].index, queue[1..], m);
    }
  }

  /** The queue continues what the service has been sent, up to what has been applied. */
  ghost predicate NodeStreams(n: Node) {
    && n.applied < |n.log|
    && GapFree(n.served, n.queue)
    && Reached(n.served, n.queue) == External(n.log, n.applied)
  }

  /** A command comes from a chosen entry, under its external index, and a snapshot ends at one. */
  ghost predicate MsgOk(w: World, m: Msg) {
    exists t: nat, k: nat, i: nat :: IsSource(w, m, t, k, i)
  }

  ghost predicate IsSource(w: World, m: Msg, t: nat, k: nat, i: nat) {
    && Chosen(w, t, k) && i < k && External(w.log(t), i) == m.index
    && (m.Apply? ==> w.log(t)[i].command == Normal(m.value))
  }

  ghost predicate Streams(w: World) {
    forall v: nat :: v < |w.nodes| ==>
      NodeStreams(w.nodes[v]) && forall m :: m in w.nodes[v].queue ==> MsgOk(w, m)
  }

  lemma InitialStreams(w: World)
    requires Initial(w)
    ensures Streams(w)
  {
    forall v: nat | v < |w.nodes|
      ensures NodeStreams(w.nodes[v]) && forall m :: m in w.nodes[v].queue ==> MsgOk(w, m)
    {
      assert w.nodes[v] == FirstNode(|w.nodes|);
    }
  }

  lemma MsgGrows(w: World, w': World, m: Msg)
    requires Grows(w, w') && MsgOk(w, m)
    ensures MsgOk(w', m)
  {
    var t: nat, k: nat, i: nat :| IsSource(w, m, t, k, i);
    ChosenGrows(w, w', t, k);
    assert w.log(t) <= w'.log(t);
    ExternalUpTo(w.log(t), w'.log(t), |w.log(t)|, i);
    assert IsSource(w', m, t, k, i);
  }

  // ----- what each step does to a server's stream

  lemma ApplyStreams(n: Node)
    requires NodeStreams(n) && MayApply(n)
    ensures NodeStreams(OnApply(n))
  {
    var i := n.applied + 1;
    if n.log[i].command.Normal? {
      GapFreeAppend(n.served, n.queue, Apply(External(n.log, i), n.log[i].command.value));
    }
  }

  lemma CertifiedMsg(w: World, log: Log, n: nat, term: nat, i: nat, m: Msg)
    requires Certified(w, log, n, term) && i + 1 == n && m.index == External(log, i)
    requires m.Apply? ==> log[i].command == Normal(m.value)
    ensures MsgOk(w, m)
  {
    var t: nat, k: nat :| t <= term && Chosen(w, t, k) && n <= k && log[..n] == w.log(t)[..n];
    ExternalUpTo(log, w.log(t), n, i);
    assert log[..n][i] == w.log(t)[..n][i];
    assert IsSource(w, m, t, k, i);
  }

  lemma SameStream(n: Node, n': Node)
    requires NodeStreams(n)
    requires n'.queue == n.queue && n'.served == n.served && n'.applied == n.applied
    requires n.applied < |n'.log| && n'.log[..n.applied + 1] == n.log[..n.applied + 1]
    ensures NodeStreams(n')
  {
    ExternalUpTo(n.log, n'.log, n.applied + 1, n.applied);
  }

  lemma SendStreams(n: Node)
    requires NodeStreams(n) && n.queue != []
    ensures NodeStreams(OnSend(n))
  {}

  lemma RestartStreams(n: Node)
    requires NodeStreams(n) && n.base <= n.applied && n.snap == External(n.log, n.base)
    ensures NodeStreams(OnRestart(n))
  {
    assert GapFree(n.snap, []);
  }

  lemma InstallStreams(w: World, v: nat, m: Install)
    requires Inv(w) && Shaped(w) && Enabled(w, DeliverInstall(v, m)) && NodeStreams(w.nodes[v])
    ensures NodeStreams(OnInstall(w.nodes[v], m))
  {
    hide Inv, Certified, ReignOk;
    var n, n' := w.nodes[v], OnInstall(w.nodes[v], m);
    if Accepts(n, m) {
      InstallFacts(w, m);
      InstallAdopts(w, v, m);
      var k := |m.prefix|;
      ExternalUpTo(m.prefix, n'.log, k, k - 1);
      assert [Restore(m.snap)][1..] == [];
      assert GapFree(n.served, [Restore(m.snap)]);
    }
  }

  lemma DeliverStreams(w: World, v: nat, m: Append)
    requires Inv(w) && Shaped(w) && Enabled(w, Deliver(v, m)) && NodeStreams(w.nodes[v])
    ensures NodeStreams(OnAppend(w.nodes[v], m).0)
  {
    hide Inv, OnAppend;
    var n := w.nodes[v];
    if m.term >= n.term {
      DeliverAdopts(w, v, m);
      SameStream(n, OnAppend(n, m).0);
    } else {
      StaleAppend(n, m);
    }
  }

  lemma StaleAppend(n: Node, m: Append)
    requires m.term < n.term && n.applied < |n.log|
    ensures OnAppend(n, m).0 == n
  {}

  lemma StepStreamsAt(w: World, step: Step)
    requires Inv(w) && Shaped(w) && Enabled(w, step) && NodeStreams(w.nodes[step.v])
    ensures step.v < |Take(w, step).nodes| && NodeStreams(Take(w, step).nodes[step.v])
  {
    hide Inv, NodeStreams, OnAppend, OnInstall, OnApply, OnSend, OnRestart, OnRequestVote;
    var w', v := Take(w, step), step.v;
    var n := w.nodes[v];
    match step
    case Deliver(v, m) => DeliverStreams(w, v, m);
    case DeliverInstall(v, snapshot) => InstallStreams(w, v, snapshot);
    case ApplyOne(v) => ApplyStreams(n);
    case Send(v) => SendStreams(n);
    case Restart(v) =>
      SnapFacts(w, v);
      RestartStreams(n);
    case Vote(v, candidate, term) =>
      VoteKeepsLog(n, RequestOf(w, candidate, term));
      SameStream(n, w'.nodes[v]);
    case _ => SameStream(n, w'.nodes[v]);
  }

  lemma VoteKeepsLog(n: Node, m: VoteRequest)
    ensures var n' := OnRequestVote(n, m).0;
            n'.log == n.log && n'.queue == n.queue && n'.served == n.served && n'.applied == n.applied
  {}

  lemma SnapFacts(w: World, v: nat)
    requires Inv(w) && Shaped(w) && v < |w.nodes|
    ensures var n := w.nodes[v]; n.snap == External(n.log, n.base)
  {
    hide Inv, CoreOk, RoleOk, MatchOk, Certified;
    Facts(w, v);
  }

  /** What is queued anew is an applied entry or a snapshot. */
  lemma StepQueues(w: World, step: Step, m: Msg)
    requires Inv(w) && Shaped(w) && Enabled(w, step)
    requires step.v < |Take(w, step).nodes| && m in Take(w, step).nodes[step.v].queue && m !in w.nodes[step.v].queue
    ensures MsgOk(Take(w, step), m)
  {
    hide Inv, MsgOk, OnAppend, OnRequestVote, External;
    var v := step.v;
    assert step.ApplyOne? || step.Restart? || step.DeliverInstall? by {
      QueueStays(w, step);
    }
    if step.ApplyOne? {
      ApplyIsOk(w, v, m);
    } else if step.Restart? {
      RestoreIsOk(w, v, m);
    } else {
      InstallIsOk(w, v, step.snapshot, m);
    }
  }

  lemma QueueStays(w: World, step: Step)
    requires Shaped(w) && Enabled(w, step)
    ensures step.ApplyOne? || step.Restart? || step.DeliverInstall? ||
            forall m :: m in Take(w, step).nodes[step.v].queue ==> m in w.nodes[step.v].queue
  {
    hide External, MayCommit, UpToDate, Agrees;
  }

  lemma ApplyIsOk(w: World, v: nat, m: Msg)
    requires Inv(w) && Shaped(w) && Enabled(w, ApplyOne(v))
    requires m in Take(w, ApplyOne(v)).nodes[v].queue && m !in w.nodes[v].queue
    ensures MsgOk(Take(w, ApplyOne(v)), m)
  {
    hide Inv, Certified, CoreOk, RoleOk, MatchOk, MsgOk, External;
    var w', n := Take(w, ApplyOne(v)), w.nodes[v];
    ApplyCommit(w, v);
    CertifiedMsg(w', n.log, n.applied + 2, n.term, n.applied + 1, m);
  }

  lemma RestoreIsOk(w: World, v: nat, m: Msg)
    requires Inv(w) && Shaped(w) && Enabled(w, Restart(v))
    requires m in Take(w, Restart(v)).nodes[v].queue
    ensures MsgOk(Take(w, Restart(v)), m)
  {
    hide Inv, Certified, CoreOk, RoleOk, MatchOk, MsgOk;
    var w', n := Take(w, Restart(v)), w.nodes[v];
    RestartKeeps(w, v);
    Facts(w, v);
    Facts(w', v);
    CertifiedMsg(w', n.log, n.base + 1, n.term, n.base, m);
  }

  lemma InstallIsOk(w: World, v: nat, snapshot: Install, m: Msg)
    requires Inv(w) && Shaped(w) && Enabled(w, DeliverInstall(v, snapshot))
    requires m in Take(w, DeliverInstall(v, snapshot)).nodes[v].queue && m !in w.nodes[v].queue
    ensures MsgOk(Take(w, DeliverInstall(v, snapshot)), m)
  {
    hide Inv, Certified, CoreOk, RoleOk, MatchOk, MsgOk, HasSnapshotPoint;
    var w' := Take(w, DeliverInstall(v, snapshot));
    InstallKeeps(w, v, snapshot);
    Facts(w', v);
    var n' := w'.nodes[v];
    CertifiedSize(w', n'.log, n'.applied + 1, n'.term);
    CertifiedMsg(w', n'.log, n'.applied + 1, n'.term, n'.applied, m);
  }

  lemma StepOthers(w: World, step: Step, u: nat)
    requires Shaped(w) && Enabled(w, step) && u < |w.nodes| && u != step.v
    ensures u < |Take(w, step).nodes| && Take(w, step).nodes[u] == w.nodes[u]
  {
    hide OnAppend, OnInstall, OnApply, OnSend, OnRestart, OnRequestVote, External;
  }

  lemma StepStreams(w: World, step: Step)
    requires Inv(w) && Shaped(w) && Enabled(w, step) && Streams(w)
    ensures Streams(Take(w, step))
  {
    hide Inv, Shaped, Enabled, Take, NodeStreams, MsgOk, Grows;
    var w' := Take(w, step);
    StepGrows(w, step);
    GrowsKeepsSize(w, w');
    forall v: nat | v < |w'.nodes|
      ensures NodeStreams(w'.nodes[v]) && forall m :: m in w'.nodes[v].queue ==> MsgOk(w', m)
    {
      if v == step.v {
        StepStreamsAt(w, step);
      } else {
        StepOthers(w, step, v);
      }
      forall m | m in w'.nodes[v].queue
        ensures MsgOk(w', m)
      {
        if m in w.nodes[v].queue {
          MsgGrows(w, w', m);
        } else {
          StepQueues(w, step, m);
        }
      }
    }
  }

  // ----- runs

  lemma {:induction false} RunsStream(w: World, steps: seq<Step>, last: World)
    requires Inv(w) && Streams(w) && Leads(w, steps, last)
    ensures Inv(last) && Streams(last)
    decreases |steps|
  {
    hide Inv, Shaped, Enabled, Take, Streams;
    if steps != [] {
      StepKeeps(w, steps[0]);
      StepStreams(w, steps[0]);
      RunsStream(Take(w, steps[0]), steps[1..], last);
    }
  }

  /** The service sees no gaps: a command that is about to be sent is the one after the last
      command or snapshot that was sent since the server started. */
  lemma NoGaps(first: World, steps: seq<Step>, w: World, v: nat)
    requires Initial(first) && Leads(first, steps, w) && v < |w.nodes|
    requires w.nodes[v].queue != [] && w.nodes[v].queue[0].Apply?
    ensures w.nodes[v].queue[0].index == w.nodes[v].served + 1
  {
    hide Inv, Leads, MsgOk;
    InitialInv(first);
    InitialStreams(first);
    RunsStream(first, steps, w);
    assert NodeStreams(w.nodes[v]);
  }

  /** Two entries that the service sees under the same external index are the same entry. */
  lemma {:induction false} SameExternal(log: Log, i: nat, j: nat)
    requires i <= j < |log| && External(log, i) == External(log, j) && log[j].command.Normal?
    ensures i == j
  {
    if i < j {
      ExternalMonotone(log, i, j - 1);
    }
  }

  /** Commands under the same external index are the same, on all servers. */
  lemma MsgsAgree(w: World, a: Msg, b: Msg)
    requires Inv(w) && MsgOk(w, a) && MsgOk(w, b) && a.Apply? && b.Apply? && a.index == b.index
    ensures a.value == b.value
  {
    hide Inv, Have, IsQuorum;
    var t: nat, k: nat, i: nat :| IsSource(w, a, t, k, i);
    var u: nat, l: nat, j: nat :| IsSource(w, b, u, l, j);
    if t <= u {
      ExternalAgrees(w, t, k, i, u, l, j);
    } else {
      ExternalAgrees(w, u, l, j, t, k, i);
    }
  }

  lemma ExternalAgrees(w: World, t: nat, k: nat, i: nat, u: nat, l: nat, j: nat)
    requires Inv(w) && Chosen(w, t, k) && Chosen(w, u, l) && t <= u && i < k && j < l
    requires k <= |w.log(t)| && l <= |w.log(u)|
    requires External(w.log(t), i) == External(w.log(u), j)
    requires w.log(t)[i].command.Normal? && w.log(u)[j].command.Normal?
    ensures w.log(t)[i] == w.log(u)[j]
  {
    hide NodeOk, AppendOk, InstallOk, AppliedOk, ReignOk, Have, Able, IsQuorum;
    ChosenIsChoosable(w, t, k);
    assert t < u ==> k <= |w.log(u)| && w.log(t)[..k] == w.log(u)[..k] by {
      if t < u {
        assert Elected(w, u);
        assert k <= w.start(u) && w.log(t)[..k] <= w.log(u);
      }
    }
    ExternalUpTo(w.log(t), w.log(u), k, i);
    assert w.log(t)[..k][i] == w.log(u)[..k][i];
    if i <= j {
      SameExternal(w.log(u), i, j);
    } else {
      SameExternal(w.log(u), j, i);
    }
  }

  /** The commands sent to the services in a run. */
  ghost function Sent(w: World, steps: seq<Step>): seq<Msg>
    decreases |steps|
  {
    if steps == [] || !Shaped(w) || !Enabled(w, steps[0]) then []
    else (if steps[0].Send? then [w.nodes[steps[0].v].queue[0]] else []) + Sent(Take(w, steps[0]), steps[1..])
  }

  lemma {:induction false} SentIsOk(w: World, steps: seq<Step>, last: World, m: Msg)
    requires Inv(w) && Streams(w) && Leads(w, steps, last) && m in Sent(w, steps)
    ensures MsgOk(last, m)
    decreases |steps|
  {
    hide Inv, Shaped, Take, Streams, MsgOk, Grows;
    if steps != [] {
      var w' := Take(w, steps[0]);
      StepKeeps(w, steps[0]);
      StepStreams(w, steps[0]);
      if m in Sent(w', steps[1..]) {
        SentIsOk(w', steps[1..], last, m);
      } else {
        StreamMsg(w, steps[0].v, m);
        OkInRuns(w, steps, last, m);
      }
    }
  }

  lemma StreamMsg(w: World, v: nat, m: Msg)
    requires Streams(w) && v < |w.nodes| && m in w.nodes[v].queue
    ensures MsgOk(w, m)
  {}

  lemma {:induction false} OkInRuns(w: World, steps: seq<Step>, last: World, m: Msg)
    requires Inv(w) && Leads(w, steps, last) && MsgOk(w, m)
    ensures MsgOk(last, m)
    decreases |steps|
  {
    hide Inv, Shaped, Enabled, Take, MsgOk, Grows;
    if steps != [] {
      StepGrows(w, steps[0]);
      MsgGrows(w, Take(w, steps[0]), m);
      StepKeeps(w, steps[0]);
      OkInRuns(Take(w, steps[0]), steps[1..], last, m);
    }
  }

  /** All services see the same command under the same index, in the whole run and across
      restarts and snapshots. */
  lemma ServicesAgree(first: World, steps: seq<Step>, last: World, a: Msg, b: Msg)
    requires Initial(first) && Leads(first, steps, last)
    requires a in Sent(first, steps) && b in Sent(first, steps) && a.Apply? && b.Apply? && a.index == b.index
    ensures a == b
  {
    InitialInv(first);
    InitialStreams(first);
    RunsKeep(first, steps, last);
    SentIsOk(first, steps, last, a);
    SentIsOk(first, steps, last, b);
    MsgsAgree(last, a, b);
  }
}
