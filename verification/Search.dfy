/** Why the backtracking search of checkSingle is right (src/porcupine/checker.go:190-243).

A path is the stack of choices made so far, with the current position on top.
Each level knows which operations are done, the model state, the events still
linked, and how many of those have been tried.  The lemmas say what each kind
of iteration keeps: skip, push and pop.
 */
module Search {
  import opened Histories

  datatype Level<S> = Level(done: set<nat>, state: S, left: seq<nat>, at: nat)

  /** `left` lists, in order, the events of the operations outside `done`. */
  ghost predicate IsLeft(events: seq<Event>, done: set<nat>, left: seq<nat>) {
    && (forall j, k :: 0 <= j < k < |left| ==> left[j] < left[k])
    && (forall k :: 0 <= k < |left| ==> left[k] < |events| && events[left[k]].id !in done)
    && (forall p :: 0 <= p < |events| && events[p].id !in done ==> p in left)
  }

  /** Choosing i next leads nowhere. */
  ghost predicate Explored<S>(problem: Problem<S>, done: set<nat>, state: S, i: nat)
    requires WellFormed(problem.events)
  {
    var (ok, next) := problem.step(state, i);
    ok ==> !Completable(problem, done + {i}, next)
  }

  /** The first `at` linked events are calls that have been tried in vain. */
  ghost predicate Tried<S>(problem: Problem<S>, level: Level<S>)
    requires WellFormed(problem.events)
  {
    && IsLeft(problem.events, level.done, level.left)
    && level.at <= |level.left|
    && (forall k :: 0 <= k < level.at ==>
          && problem.events[level.left[k]].Call?
          && Explored(problem, level.done, level.state, problem.events[level.left[k]].id))
  }

  /** The event under the cursor of a level. */
  ghost function Under<S>(events: seq<Event>, level: Level<S>): Event
    requires IsLeft(events, level.done, level.left) && level.at < |level.left|
  {
    events[level.left[level.at]]
  }

  /** `deeper` is `level` with the call under its cursor taken. */
  ghost predicate Descends<S>(problem: Problem<S>, level: Level<S>, deeper: Level<S>) {
    && IsLeft(problem.events, level.done, level.left)
    && level.at < |level.left|
    && var event := Under(problem.events, level);
    && event.Call?
    && problem.step(level.state, event.id) == (true, deeper.state)
    && deeper.done == level.done + {event.id}
  }

  ghost predicate PathOk<S>(problem: Problem<S>, path: seq<Level<S>>)
    requires WellFormed(problem.events)
  {
    && |path| > 0
    && path[0].done == {} && path[0].state == problem.init
    && (forall j :: 0 <= j < |path| ==> Tried(problem, path[j]) && |path[j].done| == j)
    && (forall j, k :: 0 <= j && k == j + 1 < |path| ==> Descends(problem, path[j], path[k]))
  }

  ghost predicate OnPath<S>(path: seq<Level<S>>, pair: (set<nat>, S)) {
    exists j :: 1 <= j < |path| && path[j].done == pair.0 && path[j].state == pair.1
  }

  /** Every cached pair is either on the path or cannot be completed. */
  ghost predicate CacheOk<S>(problem: Problem<S>, path: seq<Level<S>>, cached: set<(set<nat>, S)>)
    requires WellFormed(problem.events)
  {
    forall pair :: pair in cached ==> OnPath(path, pair) || !Completable(problem, pair.0, pair.1)
  }

  ghost function Top<S>(path: seq<Level<S>>): Level<S>
    requires |path| > 0
  {
    path[|path| - 1]
  }

  ghost function Advance<S>(path: seq<Level<S>>): seq<Level<S>>
    requires |path| > 0
  {
    path[|path| - 1 := Top(path).(at := Top(path).at + 1)]
  }

  lemma AdvanceKeepsPairs<S>(path: seq<Level<S>>, pair: (set<nat>, S))
    requires |path| > 0 && OnPath(path, pair)
    ensures OnPath(Advance(path), pair)
  {
    var after := Advance(path);
    var j :| 1 <= j < |path| && path[j].done == pair.0 && path[j].state == pair.1;
    assert after[j].done == pair.0 && after[j].state == pair.1;
  }

  lemma TriedOneMore<S>(problem: Problem<S>, level: Level<S>)
    requires WellFormed(problem.events) && Tried(problem, level)
    requires level.at < |level.left| && Under(problem.events, level).Call?
    requires Explored(problem, level.done, level.state, Under(problem.events, level).id)
    ensures Tried(problem, level.(at := level.at + 1))
  {
    hide IsLeft, Explored;
  }

  lemma AdvanceKeepsPath<S>(problem: Problem<S>, path: seq<Level<S>>)
    requires WellFormed(problem.events) && PathOk(problem, path)
    requires Top(path).at < |Top(path).left| && Under(problem.events, Top(path)).Call?
    requires Explored(problem, Top(path).done, Top(path).state, Under(problem.events, Top(path)).id)
    ensures PathOk(problem, Advance(path))
  {
    hide Tried, IsLeft, WellFormed, Explored;
    var after := Advance(path);
    TriedOneMore(problem, Top(path));
    forall j, k | 0 <= j && k == j + 1 < |after|
      ensures Descends(problem, after[j], after[k])
    {
      assert Descends(problem, path[j], path[k]);
    }
  }

  /** A pair one level deeper than the top is not on the path, so if it is cached it is dead. */
  lemma CachedIsExplored<S>(problem: Problem<S>, path: seq<Level<S>>, cached: set<(set<nat>, S)>, i: nat)
    requires WellFormed(problem.events)
    requires PathOk(problem, path) && CacheOk(problem, path, cached)
    requires i !in Top(path).done
    requires
      var (ok, next) := problem.step(Top(path).state, i);
      ok ==> (Top(path).done + {i}, next) in cached
    ensures Explored(problem, Top(path).done, Top(path).state, i)
  {
    var (ok, next) := problem.step(Top(path).state, i);
    if ok {
      var pair := (Top(path).done + {i}, next);
      assert |pair.0| == |path|;
      assert !OnPath(path, pair);
    }
  }

  /** Skip: the model refuses the call, or the pair it leads to is cached. */
  lemma SkipKeeps<S>(problem: Problem<S>, path: seq<Level<S>>, cached: set<(set<nat>, S)>)
    requires WellFormed(problem.events)
    requires PathOk(problem, path) && CacheOk(problem, path, cached)
    requires Top(path).at < |Top(path).left| && IsLeft(problem.events, Top(path).done, Top(path).left)
    requires Under(problem.events, Top(path)).Call?
    requires
      var i := Under(problem.events, Top(path)).id;
      var (ok, next) := problem.step(Top(path).state, i);
      ok ==> (Top(path).done + {i}, next) in cached
    ensures PathOk(problem, Advance(path)) && CacheOk(problem, Advance(path), cached)
  {
    CachedIsExplored(problem, path, cached, Under(problem.events, Top(path)).id);
    AdvanceKeepsPath(problem, path);
    forall pair | pair in cached && Completable(problem, pair.0, pair.1)
      ensures OnPath(Advance(path), pair)
    {
      AdvanceKeepsPairs(path, pair);
    }
  }

  lemma PushedPath<S>(problem: Problem<S>, path: seq<Level<S>>, deeper: Level<S>)
    requires WellFormed(problem.events) && PathOk(problem, path) && Descends(problem, Top(path), deeper)
    requires deeper.at == 0 && IsLeft(problem.events, deeper.done, deeper.left)
    ensures PathOk(problem, path + [deeper])
  {
    hide Completable;
    assert |deeper.done| == |path|;
  }

  /** Push: a new pair goes into the cache and becomes the top of the path. */
  lemma PushKeeps<S>(problem: Problem<S>, path: seq<Level<S>>, cached: set<(set<nat>, S)>, deeper: Level<S>)
    requires WellFormed(problem.events)
    requires PathOk(problem, path) && CacheOk(problem, path, cached)
    requires Descends(problem, Top(path), deeper)
    requires deeper.at == 0 && IsLeft(problem.events, deeper.done, deeper.left)
    ensures PathOk(problem, path + [deeper])
    ensures CacheOk(problem, path + [deeper], cached + {(deeper.done, deeper.state)})
  {
    hide Completable, Descends, IsLeft, WellFormed, Tried;
    PushedPath(problem, path, deeper);
    var after := path + [deeper];
    forall pair | pair in cached + {(deeper.done, deeper.state)} && Completable(problem, pair.0, pair.1)
      ensures OnPath(after, pair)
    {
      if pair in cached {
        var j :| 1 <= j < |path| && path[j].done == pair.0 && path[j].state == pair.1;
        assert after[j].done == pair.0 && after[j].state == pair.1;
      } else {
        assert after[|path|].done == pair.0 && after[|path|].state == pair.1;
      }
    }
  }

  /** A free operation's call comes before every return that is still linked. */
  lemma FreeIsBeforeReturns(events: seq<Event>, done: set<nat>, left: seq<nat>, at: nat, i: nat)
    requires WellFormed(events) && IsLeft(events, done, left)
    requires at < |left| && events[left[at]].Return?
    requires Free(events, done, i)
    ensures exists k :: 0 <= k < at && left[k] == CallAt(events, i)
  {
    var j := events[left[at]].id;
    assert IsReturn(events, left[at], j) && IsReturn(events, ReturnAt(events, j), j);
    assert !Precedes(events, j, i);
    var p := CallAt(events, i);
    assert p in left;
    var k :| 0 <= k < |left| && left[k] == p;
  }

  /** The cursor has reached a return: every call that could go next has been tried. */
  lemma ReturnIsDeadEnd<S>(problem: Problem<S>, level: Level<S>)
    requires WellFormed(problem.events) && Tried(problem, level)
    requires level.at < |level.left| && Under(problem.events, level).Return?
    ensures !Completable(problem, level.done, level.state)
  {
    if Completable(problem, level.done, level.state) {
      assert Under(problem.events, level).id in Ids(problem.Count());
      var i: nat :|
        && Free(problem.events, level.done, i)
        && problem.step(level.state, i).0
        && Completable(problem, level.done + {i}, problem.step(level.state, i).1);
      FreeIsBeforeReturns(problem.events, level.done, level.left, level.at, i);
    }
  }

  lemma PrefixOk<S>(problem: Problem<S>, path: seq<Level<S>>)
    requires WellFormed(problem.events) && PathOk(problem, path) && |path| > 1
    ensures PathOk(problem, path[..|path| - 1])
  {}

  /** Pop: the top is a dead end, and the level below moves on. */
  lemma PopKeeps<S>(problem: Problem<S>, path: seq<Level<S>>, cached: set<(set<nat>, S)>)
    requires WellFormed(problem.events)
    requires PathOk(problem, path) && CacheOk(problem, path, cached)
    requires |path| > 1 && IsLeft(problem.events, Top(path).done, Top(path).left)
    requires Top(path).at < |Top(path).left| && Under(problem.events, Top(path)).Return?
    ensures PathOk(problem, Advance(path[..|path| - 1]))
    ensures CacheOk(problem, Advance(path[..|path| - 1]), cached)
  {
    var below := path[..|path| - 1];
    ReturnIsDeadEnd(problem, Top(path));
    PrefixOk(problem, path);
    assert Descends(problem, path[|path| - 2], path[|path| - 1]);
    assert Top(below) == path[|path| - 2];
    AdvanceKeepsPath(problem, below);
    forall pair | pair in cached && Completable(problem, pair.0, pair.1)
      ensures OnPath(Advance(below), pair)
    {
      var j :| 1 <= j < |path| && path[j].done == pair.0 && path[j].state == pair.1;
      assert below[j].done == pair.0 && below[j].state == pair.1;
      AdvanceKeepsPairs(below, pair);
    }
  }

  /** The ids chosen along a path. */
  ghost function Chosen<S>(events: seq<Event>, path: seq<Level<S>>): seq<nat>
    requires forall j :: 0 <= j < |path| - 1 ==>
               IsLeft(events, path[j].done, path[j].left) && path[j].at < |path[j].left|
  {
    if |path| <= 1 then [] else [Under(events, path[0]).id] + Chosen(events, path[1..])
  }

  /** The call under a cursor is free: only calls were linked before it. */
  lemma CallUnderCursorIsFree<S>(problem: Problem<S>, level: Level<S>)
    requires WellFormed(problem.events) && Tried(problem, level)
    requires level.at < |level.left| && Under(problem.events, level).Call?
    ensures Free(problem.events, level.done, Under(problem.events, level).id)
  {
    var i := Under(problem.events, level).id;
    assert IsCall(problem.events, level.left[level.at], i) && IsCall(problem.events, CallAt(problem.events, i), i);
    forall j: nat | j < problem.Count() && j !in level.done
      ensures !Precedes(problem.events, j, i)
    {
      var p := ReturnAt(problem.events, j);
      assert p in level.left;
      var k :| 0 <= k < |level.left| && level.left[k] == p;
    }
  }

  /** Nothing is left: the chosen ids are a legal order of what was open at the path's start. */
  lemma {:induction false} EmptyListCompletes<S>(problem: Problem<S>, path: seq<Level<S>>)
    requires WellFormed(problem.events)
    requires |path| > 0
    requires forall j :: 0 <= j < |path| ==> Tried(problem, path[j])
    requires forall j, k :: 0 <= j && k == j + 1 < |path| ==> Descends(problem, path[j], path[k])
    requires Top(path).left == []
    ensures forall j :: 0 <= j < |path| - 1 ==>
              IsLeft(problem.events, path[j].done, path[j].left) && path[j].at < |path[j].left|
    ensures Completes(problem, path[0].done, path[0].state, Chosen(problem.events, path))
    decreases |path|
  {
    if |path| == 1 {
      assert Ids(problem.Count()) - path[0].done == {} by {
        forall id: nat | id < problem.Count()
          ensures id in path[0].done
        {
          assert IsCall(problem.events, CallAt(problem.events, id), id);
        }
      }
    } else {
      assert Descends(problem, path[0], path[1]);
      CallUnderCursorIsFree(problem, path[0]);
      var rest := path[1..];
      assert Top(rest) == Top(path);
      forall j, k | 0 <= j && k == j + 1 < |rest|
        ensures Descends(problem, rest[j], rest[k])
      {
        assert Descends(problem, path[j + 1], path[k + 1]);
      }
      EmptyListCompletes(problem, rest);
      FreeOperationFirst(problem, path[0].done, path[0].state,
                         Under(problem.events, path[0]).id, Chosen(problem.events, rest));
    }
  }

  // ----- termination: only finitely many pairs can ever be cached

  /** One more legal step from any of the pairs. */
  ghost function Successors<S>(problem: Problem<S>, pairs: set<(set<nat>, S)>): set<(set<nat>, S)> {
    set pair, i: nat | pair in pairs && i < problem.Count() && i !in pair.0 && problem.step(pair.1, i).0
                     :: (pair.0 + {i}, problem.step(pair.1, i).1)
  }

  ghost function Grown<S>(problem: Problem<S>, pairs: set<(set<nat>, S)>): set<(set<nat>, S)> {
    pairs + Successors(problem, pairs)
  }

  lemma GrownKeeps<S>(problem: Problem<S>, pairs: set<(set<nat>, S)>, pair: (set<nat>, S))
    requires pair in pairs
    ensures pair in Grown(problem, pairs)
  {}

  /** The pairs reachable by at most k legal steps. */
  ghost function Reach<S>(problem: Problem<S>, k: nat): set<(set<nat>, S)> {
    if k == 0 then {({}, problem.init)} else Grown(problem, Reach(problem, k - 1))
  }

  lemma {:induction false} ReachGrows<S>(problem: Problem<S>, j: nat, k: nat, pair: (set<nat>, S))
    requires j <= k
    requires pair in Reach(problem, j)
    ensures pair in Reach(problem, k)
    decreases k
  {
    hide Grown;
    if j < k {
      ReachGrows(problem, j, k - 1, pair);
      GrownKeeps(problem, Reach(problem, k - 1), pair);
    }
  }

  ghost predicate Reached<S>(problem: Problem<S>, k: nat, level: Level<S>) {
    (level.done, level.state) in Reach(problem, k) && level.done <= Ids(problem.Count())
  }

  lemma DescendReaches<S>(problem: Problem<S>, k: nat, level: Level<S>, deeper: Level<S>)
    requires WellFormed(problem.events)
    requires Reached(problem, k, level) && Descends(problem, level, deeper)
    ensures Reached(problem, k + 1, deeper)
  {
    var pair := (level.done, level.state);
    assert pair in Reach(problem, k);
    var i := Under(problem.events, level).id;
    assert (pair.0 + {i}, problem.step(pair.1, i).1) in Successors(problem, Reach(problem, k));
  }

  lemma {:induction false} PathInReach<S>(problem: Problem<S>, path: seq<Level<S>>, j: nat)
    requires WellFormed(problem.events) && PathOk(problem, path) && j < |path|
    ensures Reached(problem, j, path[j])
    decreases j
  {
    if j > 0 {
      PathInReach(problem, path, j - 1);
      assert Descends(problem, path[j - 1], path[j]);
      DescendReaches(problem, j - 1, path[j - 1], path[j]);
    }
  }

  lemma SubsetSize<T>(a: set<T>, b: set<T>)
    requires a <= b
    ensures |a| <= |b|
  {
    assert b == a + (b - a);
  }

  /** A descending step stays within finitely many pairs. */
  lemma NewPairInReach<S>(problem: Problem<S>, path: seq<Level<S>>, deeper: Level<S>)
    requires WellFormed(problem.events) && PathOk(problem, path)
    requires Descends(problem, Top(path), deeper)
    ensures (deeper.done, deeper.state) in Reach(problem, problem.Count())
  {
    var k := |path| - 1;
    PathInReach(problem, path, k);
    DescendReaches(problem, k, path[k], deeper);
    SubsetSize(deeper.done, Ids(problem.Count()));
    ReachGrows(problem, k + 1, problem.Count(), (deeper.done, deeper.state));
  }
}
