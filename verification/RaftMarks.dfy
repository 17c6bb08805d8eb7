/** Where logs are trimmed (src/raft/raft.go:244-273): always at an entry that the service has seen, so that a
later snapshot always has a higher external index too. */
module RaftMarks {
  import opened RaftNode
  import opened RaftWorld
  import opened RaftKeeps
  import opened RaftQuiet
  import opened RaftReplication
  import opened RaftSafety
  import opened RaftStream

  ghost predicate Marked(n: Node) {
    n.base < |n.log| && (n.base > 0 ==> n.log[n.base].command.Normal?)
  }

  ghost predicate MarkedInstall(m: Install) {
    m.prefix != [] && (|m.prefix| > 1 ==> m.prefix[|m.prefix| - 1].command.Normal?)
  }

  ghost predicate Marks(w: World) {
    && (forall v: nat :: v < |w.nodes| ==> Marked(w.nodes[v]))
    && (forall m :: m in w.installs ==> MarkedInstall(m))
  }

  /** What a server has applied stays, and with it the entry at which it trimmed its log. */
  lemma DeliverMarks(w: World, v: nat, m: Append)
    requires Inv(w) && Shaped(w) && Enabled(w, Deliver(v, m)) && Marked(w.nodes[v])
    ensures Marked(OnAppend(w.nodes[v], m).0)
  {
    hide Inv, OnAppend;
    var n := w.nodes[v];
    if m.term >= n.term {
      DeliverAdopts(w, v, m);
      assert n.log[..n.applied + 1][n.base] == n.log[n.base];
    } else {
      StaleAppend(n, m);
    }
  }

  lemma InstallMarks(w: World, v: nat, m: Install)
    requires Inv(w) && Shaped(w) && Enabled(w, DeliverInstall(v, m)) && Marked(w.nodes[v]) && MarkedInstall(m)
    ensures Marked(OnInstall(w.nodes[v], m))
  {
    hide Inv, HasSnapshotPoint;
    if Accepts(w.nodes[v], m) {
      InstallAdopts(w, v, m);
    }
  }

  lemma StepMarksAt(w: World, step: Step)
    requires Inv(w) && Shaped(w) && Enabled(w, step) && Marks(w)
    ensures step.v < |Take(w, step).nodes| && Marked(Take(w, step).nodes[step.v])
  {
    hide Inv, OnAppend, OnInstall, External, MayCommit, Marks, OnRequestVote, Shaped, ReplyIsSafe, IsQuorum;
    var v := step.v;
    MarksFacts(w, v);
    match step
    case Vote(v, candidate, term) => VoteMarks(w.nodes[v], RequestOf(w, candidate, term));
    case Deliver(v, m) => DeliverMarks(w, v, m);
    case DeliverInstall(v, snapshot) =>
      MarksInstall(w, snapshot);
      InstallMarks(w, v, snapshot);
    case _ =>
  }

  lemma VoteMarks(n: Node, m: VoteRequest)
    requires Marked(n)
    ensures Marked(OnRequestVote(n, m).0)
  {}

  lemma MarksFacts(w: World, v: nat)
    requires Marks(w) && v < |w.nodes|
    ensures Marked(w.nodes[v])
  {}

  lemma MarksInstall(w: World, m: Install)
    requires Marks(w) && m in w.installs
    ensures MarkedInstall(m)
  {}

  lemma StepMarksInstalls(w: World, step: Step, m: Install)
    requires Shaped(w) && Enabled(w, step) && Marks(w) && m in Take(w, step).installs
    ensures MarkedInstall(m)
  {
    hide OnAppend, OnInstall, OnApply, OnSend, OnRestart, OnRequestVote, External, UpToDate, MayCommit;
  }

  lemma StepMarks(w: World, step: Step)
    requires Inv(w) && Shaped(w) && Enabled(w, step) && Marks(w)
    ensures Marks(Take(w, step))
  {
    hide Inv, Shaped, Enabled, Take, Marked, MarkedInstall, Grows;
    var w' := Take(w, step);
    StepGrows(w, step);
    GrowsKeepsSize(w, w');
    forall v: nat | v < |w'.nodes|
      ensures Marked(w'.nodes[v])
    {
      if v == step.v {
        StepMarksAt(w, step);
      } else {
        StepOthers(w, step, v);
      }
    }
    forall m | m in w'.installs
      ensures MarkedInstall(m)
    {
      StepMarksInstalls(w, step, m);
    }
  }

  lemma {:induction false} RunsMark(w: World, steps: seq<Step>, last: World)
    requires Inv(w) && Marks(w) && Leads(w, steps, last)
    ensures Inv(last) && Marks(last)
    decreases |steps|
  {
    hide Inv, Shaped, Enabled, Take, Marks;
    if steps != [] {
      StepKeeps(w, steps[0]);
      StepMarks(w, steps[0]);
      RunsMark(Take(w, steps[0]), steps[1..], last);
    }
  }

  /** In every reachable world a log is trimmed at the beginning or at an entry that the service has
      seen. */
  lemma TrimmedAtCommands(first: World, steps: seq<Step>, w: World)
    requires Initial(first) && Leads(first, steps, w)
    ensures Inv(w) && Marks(w)
  {
    InitialInv(first);
    RunsMark(first, steps, w);
  }
}
