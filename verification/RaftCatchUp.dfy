/** How a leader brings a follower up to date (src/raft/raft.go:847-1002): it sends what it believes is
missing, corrects its belief after a refusal, and sends its snapshot if entries are missing that it no longer
has. */
module RaftCatchUp {
  import opened RaftNode
  import opened RaftWorld
  import opened RaftKeeps
  import opened RaftQuiet
  import opened RaftReplication
  import opened RaftSafety
  import opened RaftMarks
  import opened RaftStream

  /** The follower and the leader's next index for it; `done` after a success. */
  datatype Talk = Talk(follower: Node, next: nat, done: bool)

  /** One message to the follower, the reply to it, and what the leader does about the reply. */
  ghost function Exchange(l: Node, me: nat, dst: nat, f: Node, next: nat): (t: Talk)
    requires l.base < |l.log| && f.applied < |f.log|
    ensures t.follower.applied < |t.follower.log|
  {
    var prev := Clamped(l, next) - 1;
    var m := AppendOf(l, me, prev);
    var (f1, outcome) := OnAppend(f, m);
    if IsSuccess(outcome) then Talk(f1, |l.log|, true)
    else
      match OnRefusal(l, prev, m.prevTerm, ReplyOf(f, m))
      case GiveUp => Talk(f1, next, false)
      case Retry(index) => Talk(f1, index, false)
      case SendSnapshot => Talk(OnInstall(f1, InstallOf(l, me, dst)), l.snap + 1, false)
  }

  /** After n messages, or fewer if one succeeds. */
  ghost function After(l: Node, me: nat, dst: nat, f: Node, next: nat, n: nat): Talk
    requires l.base < |l.log| && f.applied < |f.log|
    decreases n
  {
    if n == 0 then Talk(f, next, false)
    else
      var t := Exchange(l, me, dst, f, next);
      if t.done then t else After(l, me, dst, t.follower, t.next, n - 1)
  }

  /** What is so of a leader and a server that is not in a later term. */
  ghost predicate Related(l: Node, f: Node) {
    && Marked(l) && l.snap == External(l.log, l.base)
    && f.base <= f.applied < |f.log| && f.snap == External(f.log, f.base) && f.term <= l.term
    && f.applied < |l.log| && f.log[..f.applied + 1] == l.log[..f.applied + 1]
    && Matches(l.log, f.log)
  }

  /** Entries of the same term at an index come after the same entries. */
  ghost predicate Matches(a: Log, b: Log) {
    forall i :: 0 <= i < |a| && i < |b| && a[i].term == b[i].term ==> a[..i + 1] == b[..i + 1]
  }

  /** The follower's log ends where the leader's has an entry of the same term. */
  ghost predicate EndsInside(l: Node, f: Node) {
    0 < |f.log| <= |l.log| && l.log[|f.log| - 1].term == LastTerm(f.log)
  }

  /** The leader has trimmed its log to the very entry that the follower would apply next, and the
      follower's log goes at least as far and does not end inside the leader's. */
  ghost predicate Stuck(l: Node, f: Node) {
    f.applied + 1 == l.base && |f.log| > l.base && !EndsInside(l, f)
  }

  // ----- one message

  ghost predicate Takes(l: Node, f: Node, prev: nat)
    requires prev < |l.log|
  {
    || (|f.log| - 1 == prev && LastTerm(f.log) == l.log[prev].term)
    || (|f.log| - 1 > prev && prev == f.applied)
  }

  ghost function Heard(l: Node, f: Node): Node {
    f.(term := l.term, role := Follower, vote := if l.term > f.term then NOBODY else f.vote)
  }

  /** A message that is taken leaves the follower with the leader's log. */
  lemma TakenGivesLog(l: Node, me: nat, f: Node, prev: nat)
    requires Related(l, f) && prev < |l.log| && Takes(l, f, prev)
    ensures var (f', outcome) := OnAppend(f, AppendOf(l, me, prev)); IsSuccess(outcome) && l.log <= f'.log
  {
    hide External;
    var m := AppendOf(l, me, prev);
    assert l.log == l.log[..prev + 1] + l.log[prev + 1..];
    if |f.log| - 1 == prev && LastTerm(f.log) == l.log[prev].term {
      assert f.log == f.log[..prev + 1];
    } else if Agrees(f.log, prev + 1, m.entries) {
      PrefixIsLog(l, f, prev);
    }
  }

  lemma PrefixIsLog(l: Node, f: Node, prev: nat)
    requires Matches(l.log, f.log) && prev < |l.log| && prev < |f.log| && l.log[..prev + 1] == f.log[..prev + 1]
    requires Agrees(f.log, prev + 1, l.log[prev + 1..])
    ensures l.log <= f.log
  {
    var last := |l.log| - 1;
    assert l.log == l.log[..last + 1];
    if prev < last {
      assert f.log[prev + 1 + (last - prev - 1)].term == l.log[prev + 1..][last - prev - 1].term;
      assert l.log[..last + 1] == f.log[..last + 1];
    } else {
      assert l.log[..prev + 1] == l.log;
    }
  }

  /** Any other message is refused, and changes nothing that matters here. */
  lemma OtherIsRefused(l: Node, me: nat, f: Node, prev: nat)
    requires Related(l, f) && prev < |l.log| && !Takes(l, f, prev)
    ensures OnAppend(f, AppendOf(l, me, prev)) == (Heard(l, f), Refused)
    ensures ReplyOf(f, AppendOf(l, me, prev)) == RefusalOf(l, f)
    ensures Related(l, Heard(l, f))
  {
    hide External, Matches;
  }

  // ----- the snapshot

  /** Where the follower lags behind what the leader still has, the snapshot is accepted. */
  lemma SnapshotIsNews(l: Node, f: Node)
    requires Related(l, f) && f.applied < l.base
    ensures l.snap > f.snap
  {
    hide External, Matches;
    ExternalUpTo(f.log, l.log, f.applied + 1, f.base);
    ExternalMonotone(l.log, f.base, l.base - 1);
    ExternalGrows(l.log, l.base);
  }

  lemma ExternalGrows(log: Log, i: nat)
    requires 0 < i < |log| && log[i].command.Normal?
    ensures External(log, i) == External(log, i - 1) + 1
  {}

  /** After it the follower has applied what the leader has trimmed, and takes the rest. */
  lemma SnapshotHelps(l: Node, me: nat, dst: nat, f: Node)
    requires Related(l, f) && f.term == l.term && f.applied < l.base
    ensures var f' := OnInstall(f, InstallOf(l, me, dst));
            Related(l, f') && f'.applied == l.base && Takes(l, f', l.base)
  {
    hide External;
    SnapshotIsNews(l, f);
    var m := InstallOf(l, me, dst);
    var f' := OnInstall(f, m);
    var k := l.base;
    assert m.prefix == l.log[..k + 1] && m.prefix[k] == l.log[k];
    if HasSnapshotPoint(f, m) {
      assert f'.log[..k + 1] == l.log[..k + 1];
    } else {
      assert f'.log[..k + 1] == l.log[..k + 1];
      PartMatches(l.log, k + 1);
    }
    ExternalUpTo(f'.log, l.log, k + 1, k);
    assert f'.log[..k + 1][k] == f'.log[k] && l.log[..k + 1][k] == l.log[k];
  }

  lemma PartMatches(log: Log, n: nat)
    requires n <= |log|
    ensures Matches(log, log[..n])
  {}

  // ----- the conversation

  lemma TakenIsDone(l: Node, me: nat, dst: nat, f: Node, next: nat, n: nat)
    requires Related(l, f) && n > 0 && Takes(l, f, Clamped(l, next) - 1)
    ensures var t := After(l, me, dst, f, next, n); t.done && l.log <= t.follower.log
  {
    hide External, Matches, OnAppend, Takes;
    TakenGivesLog(l, me, f, Clamped(l, next) - 1);
  }

  /** The follower's reply to a message that it refuses. */
  ghost function RefusalOf(l: Node, f: Node): AppendReply {
    AppendReply(l.term, false, |f.log| - (if f.log == [] then 0 else 1), LastTerm(f.log), f.applied)
  }

  lemma RefusedExchange(l: Node, me: nat, dst: nat, f: Node, next: nat)
    requires Related(l, f) && !Takes(l, f, Clamped(l, next) - 1)
    ensures var prev, f1 := Clamped(l, next) - 1, Heard(l, f);
            var reaction := OnRefusal(l, prev, l.log[prev].term, RefusalOf(l, f));
            && Related(l, f1) && !reaction.GiveUp?
            && Exchange(l, me, dst, f, next) ==
               (if reaction.Retry? then Talk(f1, reaction.next, false)
                else Talk(OnInstall(f1, InstallOf(l, me, dst)), l.snap + 1, false))
  {
    hide External, Matches, OnAppend, Takes, OnInstall;
    OtherIsRefused(l, me, f, Clamped(l, next) - 1);
  }

  lemma RefusedGoesOn(l: Node, me: nat, dst: nat, f: Node, next: nat, n: nat)
    requires Related(l, f) && n > 0 && !Takes(l, f, Clamped(l, next) - 1)
    ensures var prev, f1 := Clamped(l, next) - 1, Heard(l, f);
            var reaction := OnRefusal(l, prev, l.log[prev].term, RefusalOf(l, f));
            && Related(l, f1) && f1.log == f.log && f1.applied == f.applied && f1.term == l.term
            && !reaction.GiveUp?
            && (reaction.Retry? ==>
                  After(l, me, dst, f, next, n) == After(l, me, dst, f1, reaction.next, n - 1))
            && (reaction.SendSnapshot? ==>
                  var f2 := OnInstall(f1, InstallOf(l, me, dst));
                  && f2.applied < |f2.log|
                  && After(l, me, dst, f, next, n) == After(l, me, dst, f2, l.snap + 1, n - 1))
  {
    hide External, Matches, OnAppend, Takes, OnInstall, Exchange, OnRefusal, RefusalOf;
    RefusedExchange(l, me, dst, f, next);
  }

  /** From its snapshot on the leader has what is needed. */
  lemma AfterSnapshot(l: Node, me: nat, dst: nat, f: Node, n: nat)
    requires Related(l, f) && n > 0 && f.term == l.term && f.applied < l.base
    ensures var f2 := OnInstall(f, InstallOf(l, me, dst));
            && f2.applied < |f2.log|
            && var t := After(l, me, dst, f2, l.snap + 1, n);
               t.done && l.log <= t.follower.log
  {
    hide External, Matches, OnInstall, Takes, After;
    SnapshotHelps(l, me, dst, f);
    ExternalAtMost(l.log, l.base);
    TakenIsDone(l, me, dst, OnInstall(f, InstallOf(l, me, dst)), l.snap + 1, n);
  }

  /** An external index is at most the internal one. */
  lemma {:induction false} ExternalAtMost(log: Log, i: nat)
    requires i < |log|
    ensures External(log, i) <= i
  {
    if i > 0 {
      ExternalAtMost(log, i - 1);
    }
  }

  /** From what the follower has applied on, unless the leader has trimmed it. */
  lemma FromApplied(l: Node, f: Node)
    requires Related(l, f) && f.applied >= l.base
    ensures Takes(l, f, Clamped(l, f.applied + 1) - 1)
  {
    hide External, Matches;
    assert f.log[..f.applied + 1][f.applied] == l.log[..f.applied + 1][f.applied];
  }

  lemma FromEnd(l: Node, f: Node)
    requires Related(l, f) && EndsInside(l, f) && |f.log| > l.base
    ensures Takes(l, f, Clamped(l, |f.log|) - 1)
  {
    hide External, Matches;
  }

  /** The leader turns to what the follower has applied, or to its snapshot. */
  lemma BackToApplied(l: Node, me: nat, dst: nat, f: Node, next: nat, n: nat)
    requires Related(l, f) && !Stuck(l, f) && n >= 2 && !Takes(l, f, Clamped(l, next) - 1)
    requires |f.log| - 1 < l.base || !EndsInside(l, f)
    requires var prev := Clamped(l, next) - 1; |f.log| - 1 >= prev || LastTerm(f.log) != l.log[prev].term
    ensures var t := After(l, me, dst, f, next, n); t.done && l.log <= t.follower.log
  {
    hide External, Matches, Takes, After, OnInstall;
    RefusedGoesOn(l, me, dst, f, next, n);
    var f1 := Heard(l, f);
    if f.applied + 1 > l.base {
      FromApplied(l, f1);
      TakenIsDone(l, me, dst, f1, f.applied + 1, n - 1);
    } else {
      AfterSnapshot(l, me, dst, f1, n - 1);
    }
  }

  /** Three messages are enough. */
  lemma CatchesUp(l: Node, me: nat, dst: nat, f: Node, next: nat, n: nat)
    requires Related(l, f) && !Stuck(l, f) && n >= 3
    ensures var t := After(l, me, dst, f, next, n); t.done && l.log <= t.follower.log
  {
    hide External, Matches, After, OnInstall;
    var prev := Clamped(l, next) - 1;
    if Takes(l, f, prev) {
      TakenIsDone(l, me, dst, f, next, n);
    } else if EndsInside(l, f) && |f.log| > l.base {
      RefusedGoesOn(l, me, dst, f, next, n);
      FromEnd(l, Heard(l, f));
      TakenIsDone(l, me, dst, Heard(l, f), |f.log|, n - 1);
    } else if |f.log| - 1 >= prev || LastTerm(f.log) != l.log[prev].term {
      BackToApplied(l, me, dst, f, next, n);
    } else {
      RefusedGoesOn(l, me, dst, f, next, n);
      if |f.log| > l.base {
        BackToApplied(l, me, dst, Heard(l, f), |f.log|, n - 1);
      } else {
        AfterSnapshot(l, me, dst, Heard(l, f), n - 1);
      }
    }
  }

  /** Otherwise nothing that the leader sends is ever taken. */
  lemma {:induction false} StaysStuck(l: Node, me: nat, dst: nat, f: Node, next: nat, n: nat)
    requires Related(l, f) && Stuck(l, f)
    ensures !After(l, me, dst, f, next, n).done
    decreases n
  {
    hide External, Matches;
    if n > 0 {
      var prev := Clamped(l, next) - 1;
      assert !Takes(l, f, prev);
      RefusedGoesOn(l, me, dst, f, next, n);
      StaysStuck(l, me, dst, Heard(l, f), OnRefusal(l, prev, l.log[prev].term, RefusalOf(l, f)).next, n - 1);
    }
  }

  // ----- in every run

  lemma LeaderRelates(w: World, v: nat, s: nat)
    requires Inv(w) && Marks(w) && Shaped(w) && v < |w.nodes| && s < |w.nodes|
    requires w.nodes[v].role.Leader? && w.nodes[s].term <= w.nodes[v].term
    ensures Related(w.nodes[v], w.nodes[s])
  {
    hide Inv, MatchOk, Certified, Known, TermsOk, VoteOk, CandOk, AckOk, KeepOk, BallotOk;
    var l, f := w.nodes[v], w.nodes[s];
    Facts(w, v);
    Facts(w, s);
    SnapFacts(w, v);
    SnapFacts(w, s);
    LeaderHasCertified(w, f.log, f.applied + 1, f.term, l.term);
    forall i | 0 <= i < |l.log| && i < |f.log| && l.log[i].term == f.log[i].term
      ensures l.log[..i + 1] == f.log[..i + 1]
    {
      SamePoint(w, l.log, f.log, i);
    }
  }

  /** In every reachable world and whatever the leader believes of a server that is not in a later term:
      three messages bring the server to the leader's log, unless it is stuck, and then no number of
      messages does. */
  lemma CatchesUpIffNotStuck(first: World, steps: seq<Step>, w: World, v: nat, s: nat, next: nat)
    requires Initial(first) && Leads(first, steps, w) && Shaped(w)
    requires v < |w.nodes| && s < |w.nodes| && w.nodes[v].role.Leader? && w.nodes[s].term <= w.nodes[v].term
    ensures var l, f := w.nodes[v], w.nodes[s];
            if Stuck(l, f) then forall n: nat :: !After(l, v, s, f, next, n).done
            else forall n: nat :: n >= 3 ==>
              After(l, v, s, f, next, n).done && l.log <= After(l, v, s, f, next, n).follower.log
  {
    hide Inv, Marks, Stuck, After;
    var l, f := w.nodes[v], w.nodes[s];
    TrimmedAtCommands(first, steps, w);
    LeaderRelates(w, v, s);
    if Stuck(l, f) {
      forall n: nat
        ensures !After(l, v, s, f, next, n).done
      {
        StaysStuck(l, v, s, f, next, n);
      }
    } else {
      forall n: nat | n >= 3
        ensures After(l, v, s, f, next, n).done && l.log <= After(l, v, s, f, next, n).follower.log
      {
        CatchesUp(l, v, s, f, next, n);
      }
    }
  }
}
