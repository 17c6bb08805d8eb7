/** What holds in every run of a Raft cluster (sections 5.2, 5.3 and 5.4 of the extended Raft paper,
Ongaro and Ousterhout, 2014). */
module RaftSafety {
  import opened RaftNode
  import opened RaftWorld
  import opened RaftKeeps
  import opened RaftQuiet
  import opened RaftElections
  import opened RaftLeaders
  import opened RaftReplication

  lemma StepKeeps(w: World, step: Step)
    requires Inv(w) && Shaped(w) && Enabled(w, step)
    ensures Inv(Take(w, step))
  {
    hide Inv, Shaped, Enabled, Take;
    match step
    case Timeout(v) => TimeoutKeeps(w, v);
    case Elect(v) => ElectKeeps(w, v);
    case LateElect(v) => LateElectStepKeeps(w, v);
    case Cancel(v) => CancelKeeps(w, v);
    case Vote(v, candidate, term) => VoteKeeps(w, v, candidate, term);
    case Win(v, voters) => WinKeeps(w, v, voters);
    case Submit(v, value) => SubmitKeeps(w, v, value);
    case SendAppend(v, prev) => SendAppendKeeps(w, v, prev);
    case Deliver(v, m) => DeliverKeeps(w, v, m);
    case Reply(v, s, length) => ReplyKeeps(w, v, s, length);
    case Commit(v, i) => CommitKeeps(w, v, i);
    case ApplyOne(v) => ApplyKeeps(w, v);
    case SendInstall(v, dst) => SendInstallKeeps(w, v, dst);
    case DeliverInstall(v, snapshot) => InstallKeeps(w, v, snapshot);
    case Trim(v, k) => TrimKeeps(w, v, k);
    case Restart(v) => RestartKeeps(w, v);
    case Send(v) => SendKeeps(w, v);
  }

  lemma LateElectStepKeeps(w: World, v: nat)
    requires Inv(w) && Shaped(w) && Enabled(w, LateElect(v))
    ensures Inv(Take(w, LateElect(v)))
  {
    hide Inv;
    LateElectKeeps(w, v);
  }

  /** Steps taken one after the other. */
  ghost predicate Leads(w: World, steps: seq<Step>, last: World)
    decreases |steps|
  {
    if steps == [] then last == w
    else Shaped(w) && Enabled(w, steps[0]) && Leads(Take(w, steps[0]), steps[1..], last)
  }

  lemma {:induction false} RunsKeep(w: World, steps: seq<Step>, last: World)
    requires Inv(w) && Leads(w, steps, last)
    ensures Inv(last)
    decreases |steps|
  {
    hide Inv, Shaped, Enabled, Take;
    if steps != [] {
      StepKeeps(w, steps[0]);
      RunsKeep(Take(w, steps[0]), steps[1..], last);
    }
  }

  // ----- the past stays

  /** Leaders of the past and what was applied are never forgotten or changed. */
  ghost predicate Remembers(w: World, w': World) {
    && (forall t: nat :: Elected(w, t) ==> Elected(w', t) && w'.leader(t) == w.leader(t))
    && w.applied <= w'.applied
  }

  lemma StepGrows(w: World, step: Step)
    requires Inv(w) && Shaped(w) && Enabled(w, step)
    ensures Grows(w, Take(w, step))
  {
    hide Inv, OnRequestVote, External, MayCommit, UpToDate, Agrees, HasSnapshotPoint;
    var w', v := Take(w, step), step.v;
    match step
    case Elect(v) => ElectGrows(w, v);
    case LateElect(v) => LateLikeElect(w, v);
    case Vote(v, candidate, term) => VoteGrows(w, v, candidate, term);
    case Win(v, voters) => WinGrows(w, v, voters);
    case Submit(v, value) => SubmitGrows(w, v, value);
    case Deliver(v, m) =>
      if m.term >= w.nodes[v].term {
        DeliverGrows(w, v, m);
      }
    case _ => QuietGrows(w, w', v);
  }

  lemma AppliedStays(w: World, step: Step)
    requires Shaped(w) && Enabled(w, step)
    ensures w.applied <= Take(w, step).applied
  {
    hide OnAppend, OnInstall, OnRequestVote, OnApply, External, Shaped, Enabled, IsSuccess;
  }

  lemma StepRemembers(w: World, step: Step)
    requires Inv(w) && Shaped(w) && Enabled(w, step)
    ensures Remembers(w, Take(w, step))
  {
    hide Inv, Shaped, Enabled, Take;
    StepGrows(w, step);
    AppliedStays(w, step);
  }

  lemma {:induction false} RunsRemember(w: World, steps: seq<Step>, last: World)
    requires Inv(w) && Leads(w, steps, last)
    ensures Remembers(w, last)
    decreases |steps|
  {
    hide Inv, Shaped, Enabled, Take;
    if steps != [] {
      StepRemembers(w, steps[0]);
      StepKeeps(w, steps[0]);
      RunsRemember(Take(w, steps[0]), steps[1..], last);
    }
  }

  // ----- election safety

  /** If one server leads a term at one time and another at the same or a later time, they are
      the same server. */
  lemma ElectionSafety(first: World, before: seq<Step>, w: World, steps: seq<Step>, last: World, a: nat, b: nat)
    requires Initial(first) && Leads(first, before, w) && Leads(w, steps, last)
    requires a < |w.nodes| && w.nodes[a].role.Leader?
    requires b < |last.nodes| && last.nodes[b].role.Leader? && last.nodes[b].term == w.nodes[a].term
    ensures a == b
  {
    hide Inv, Leads, CoreOk, CommitOk, MatchOk;
    InitialInv(first);
    RunsKeep(first, before, w);
    RunsKeep(w, steps, last);
    RunsRemember(w, steps, last);
    Facts(w, a);
    Facts(last, b);
  }

  /** A candidate whose election is live is still in the term that its ballots are for, with
      the log that it asked for votes with. */
  lemma LiveElection(first: World, steps: seq<Step>, w: World, v: nat)
    requires Initial(first) && Leads(first, steps, w)
    requires v < |w.nodes| && w.nodes[v].role.Candidate? && w.nodes[v].live > 0
    ensures w.nodes[v].term == w.nodes[v].live && w.nodes[v].log == w.cand(v, w.nodes[v].live)
  {
    InitialInv(first);
    RunsKeep(first, steps, w);
    CandidateLog(w, v);
  }

  // ----- logs

  /** Log Matching: servers whose logs have an entry of the same term at an index have the same
      entries up to it. */
  lemma LogMatching(first: World, steps: seq<Step>, w: World, a: nat, b: nat, i: nat)
    requires Initial(first) && Leads(first, steps, w)
    requires a < |w.nodes| && b < |w.nodes| && i < |w.nodes[a].log| && i < |w.nodes[b].log|
    requires w.nodes[a].log[i].term == w.nodes[b].log[i].term
    ensures w.nodes[a].log[..i + 1] == w.nodes[b].log[..i + 1]
  {
    hide Inv, Leads, RoleOk, CommitOk, MatchOk, Known, VoteOk, CandOk, AckOk, KeepOk, BallotOk;
    InitialInv(first);
    RunsKeep(first, steps, w);
    Facts(w, a);
    Facts(w, b);
    SamePoint(w, w.nodes[a].log, w.nodes[b].log, i);
  }

  /** Leader Completeness: what any server has applied, or knows to be committed, every leader
      of the same or a later term has. */
  lemma LeaderCompleteness(first: World, steps: seq<Step>, w: World, v: nat, l: nat)
    requires Initial(first) && Leads(first, steps, w)
    requires v < |w.nodes| && l < |w.nodes| && w.nodes[l].role.Leader? && w.nodes[v].term <= w.nodes[l].term
    ensures var n, m := w.nodes[v], w.nodes[l].log;
            && n.applied < |n.log| && n.applied < |m| && m[..n.applied + 1] == n.log[..n.applied + 1]
            && n.commit < |n.log| && n.commit < |m| && m[..n.commit + 1] == n.log[..n.commit + 1]
  {
    hide Inv, Leads, CoreOk, MatchOk, Certified;
    InitialInv(first);
    RunsKeep(first, steps, w);
    Facts(w, v);
    Facts(w, l);
    var n := w.nodes[v];
    CertifiedSize(w, n.log, n.applied + 1, n.term);
    CertifiedSize(w, n.log, n.commit + 1, n.term);
    LeaderHasCertified(w, n.log, n.applied + 1, n.term, w.nodes[l].term);
    LeaderHasCertified(w, n.log, n.commit + 1, n.term, w.nodes[l].term);
  }

  // ----- state machine safety

  /** Chosen entries at the same index are the same. */
  lemma ChosenAgree(w: World, t: nat, k: nat, u: nat, j: nat, i: nat)
    requires Inv(w) && Chosen(w, t, k) && Chosen(w, u, j) && t <= u && i < k && i < j
    ensures w.log(t)[i] == w.log(u)[i]
  {
    hide NodeOk, AppendOk, InstallOk, AppliedOk, ReignOk, Have, Able, IsQuorum;
    ChosenIsChoosable(w, t, k);
    if t < u {
      assert Elected(w, u);
      assert k <= w.start(u) && w.log(t)[..k] <= w.log(u);
      assert w.log(t)[..k][i] == w.log(u)[i];
    }
  }

  /** State Machine Safety: whatever servers have ever applied at an index is the same entry. */
  lemma StateMachineSafety(first: World, steps: seq<Step>, w: World, a: Applied, b: Applied)
    requires Initial(first) && Leads(first, steps, w)
    requires a in w.applied && b in w.applied && a.index == b.index
    ensures a.entry == b.entry
  {
    InitialInv(first);
    RunsKeep(first, steps, w);
    hide Leads, NodeOk, AppendOk, InstallOk, ReignOk, Complete, Chosen;
    assert AppliedOk(w, a) && AppliedOk(w, b);
    var t: nat, k: nat :| Chosen(w, t, k) && a.index < k && w.log(t)[a.index] == a.entry;
    var u: nat, j: nat :| Chosen(w, u, j) && b.index < j && w.log(u)[b.index] == b.entry;
    if t <= u {
      ChosenAgree(w, t, k, u, j, a.index);
    } else {
      ChosenAgree(w, u, j, t, k, a.index);
    }
  }
}
