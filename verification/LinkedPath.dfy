/** The event list follows the search path (src/porcupine/checker.go:159-177, 203-207, 235-241).

At every moment the list links exactly the events of the operations not yet
taken, and each call taken on the way down remembers where it and its return
have to go back.
 */
module LinkedPath {
  import opened Histories
  import opened Search
  import opened EventList

  /** `all` is the sentinel followed by one node per event. */
  ghost predicate Placed<I, O>(events: seq<Event>, all: seq<Node<I, O>>) {
    && |all| == |events| + 1
    && (forall p :: 0 <= p < |all| ==> all[p].place == p)
  }

  /** The calls know the nodes of their returns. */
  ghost predicate Matched<I, O>(events: seq<Event>, all: seq<Node<I, O>>)
    requires WellFormed(events)
  {
    && Placed(events, all)
    && (forall p :: 0 <= p < |events| && events[p].Call? ==>
          all[p + 1].matching == all[ReturnAt(events, events[p].id) + 1])
  }

  /** The sentinel and the nodes of the listed events. */
  ghost function ListOf<I, O>(all: seq<Node<I, O>>, left: seq<nat>): seq<Node<I, O>>
    requires |all| > 0 && forall k :: 0 <= k < |left| ==> left[k] + 1 < |all|
  {
    [all[0]] + seq(|left|, k requires 0 <= k < |left| => all[left[k] + 1])
  }

  lemma ListOfIncreasing<I, O>(events: seq<Event>, all: seq<Node<I, O>>, done: set<nat>, left: seq<nat>)
    requires Placed(events, all) && IsLeft(events, done, left)
    ensures Increasing(ListOf(all, left))
  {
    var list := ListOf(all, left);
    forall j, k | 0 <= j < k < |list|
      ensures list[j].place < list[k].place
    {
      assert list[k] == all[left[k - 1] + 1];
      assert j > 0 ==> list[j] == all[left[j - 1] + 1];
    }
  }

  // ----- where the return of the call under the cursor is

  ghost predicate AtCall<S>(events: seq<Event>, level: Level<S>) {
    && IsLeft(events, level.done, level.left)
    && level.at < |level.left|
    && Under(events, level).Call?
  }

  ghost function ReturnIndex<S>(events: seq<Event>, level: Level<S>): (r: nat)
    requires WellFormed(events) && AtCall(events, level)
    ensures level.at < r < |level.left|
    ensures level.left[r] == ReturnAt(events, Under(events, level).id)
  {
    var id := Under(events, level).id;
    var p := ReturnAt(events, id);
    assert IsCall(events, level.left[level.at], id) && IsReturn(events, p, id);
    assert p in level.left;
    var r: nat :| r < |level.left| && level.left[r] == p;
    r
  }

  /** What is left once the call under the cursor and its return are gone. */
  ghost function LeftAfter<S>(events: seq<Event>, level: Level<S>): seq<nat>
    requires WellFormed(events) && AtCall(events, level)
  {
    Without(Without(level.left, level.at), ReturnIndex(events, level) - 1)
  }

  lemma WithoutKeepsOthers(left: seq<nat>, a: nat)
    requires a < |left| && forall j, k :: 0 <= j < k < |left| ==> left[j] < left[k]
    ensures
      var rest := Without(left, a);
      forall j, k :: 0 <= j < k < |rest| ==> rest[j] < rest[k]
    ensures forall p :: p in Without(left, a) <==> p in left && p != left[a]
  {
    var rest := Without(left, a);
    forall p | p in left && p != left[a]
      ensures p in rest
    {
      var k :| 0 <= k < |left| && left[k] == p;
      assert p == rest[if k < a then k else k - 1];
    }
  }

  lemma WithoutBoth(left: seq<nat>, a: nat, b: nat)
    requires a < b < |left| && forall j, k :: 0 <= j < k < |left| ==> left[j] < left[k]
    ensures
      var rest := Without(Without(left, a), b - 1);
      && (forall j, k :: 0 <= j < k < |rest| ==> rest[j] < rest[k])
      && (forall p :: p in rest <==> p in left && p != left[a] && p != left[b])
  {
    WithoutKeepsOthers(left, a);
    assert Without(left, a)[b - 1] == left[b];
    WithoutKeepsOthers(Without(left, a), b - 1);
  }

  lemma OthersAreLeft(events: seq<Event>, done: set<nat>, left: seq<nat>, x: nat, y: nat, id: nat, rest: seq<nat>)
    requires IsLeft(events, done, left)
    requires forall p :: 0 <= p < |events| ==> (events[p].id == id <==> p == x || p == y)
    requires forall j, k :: 0 <= j < k < |rest| ==> rest[j] < rest[k]
    requires forall p :: p in rest <==> p in left && p != x && p != y
    ensures IsLeft(events, done + {id}, rest)
  {
    forall k | 0 <= k < |rest|
      ensures rest[k] < |events| && events[rest[k]].id !in done + {id}
    {
      assert rest[k] in rest;
    }
  }

  /** Only the call and the return carry the operation's id. */
  lemma LeftAfterIsLeft<S>(events: seq<Event>, level: Level<S>)
    requires WellFormed(events) && AtCall(events, level)
    ensures IsLeft(events, level.done + {Under(events, level).id}, LeftAfter(events, level))
  {
    var id, r := Under(events, level).id, ReturnIndex(events, level);
    assert IsCall(events, level.left[level.at], id) && IsReturn(events, level.left[r], id);
    forall p | 0 <= p < |events|
      ensures events[p].id == id <==> p == level.left[level.at] || p == level.left[r]
    {
      assert events[p].id == id ==> IsCall(events, p, id) || IsReturn(events, p, id);
    }
    WithoutBoth(level.left, level.at, r);
    OthersAreLeft(events, level.done, level.left, level.left[level.at], level.left[r], id, LeftAfter(events, level));
  }

  lemma ListOfWithout<I, O>(all: seq<Node<I, O>>, left: seq<nat>, a: nat)
    requires |all| > 0 && forall k :: 0 <= k < |left| ==> left[k] + 1 < |all|
    requires a < |left|
    ensures forall k :: 0 <= k < |Without(left, a)| ==> Without(left, a)[k] + 1 < |all|
    ensures ListOf(all, Without(left, a)) == Without(ListOf(all, left), a + 1)
  {
    var rest, list := Without(left, a), ListOf(all, left);
    forall k | 0 <= k < |rest|
      ensures rest[k] + 1 < |all|
      ensures ListOf(all, rest)[k + 1] == Without(list, a + 1)[k + 1]
    {
      assert rest[k] == left[if k < a then k else k + 1];
    }
  }

  lemma ListOfWithoutBoth<I, O>(all: seq<Node<I, O>>, left: seq<nat>, a: nat, b: nat)
    requires |all| > 0 && forall k :: 0 <= k < |left| ==> left[k] + 1 < |all|
    requires a < b < |left|
    ensures
      var rest := Without(Without(left, a), b - 1);
      && (forall k :: 0 <= k < |rest| ==> rest[k] + 1 < |all|)
      && ListOf(all, rest) == Lifted(ListOf(all, left), a + 1, b + 1)
  {
    ListOfWithout(all, left, a);
    ListOfWithout(all, Without(left, a), b - 1);
  }

  lemma ListOfLeftAfter<S, I, O>(events: seq<Event>, all: seq<Node<I, O>>, level: Level<S>)
    requires WellFormed(events) && Placed(events, all) && AtCall(events, level)
    ensures IsLeft(events, level.done + {Under(events, level).id}, LeftAfter(events, level))
    ensures ListOf(all, LeftAfter(events, level))
         == Lifted(ListOf(all, level.left), level.at + 1, ReturnIndex(events, level) + 1)
  {
    LeftAfterIsLeft(events, level);
    ListOfWithoutBoth(all, level.left, level.at, ReturnIndex(events, level));
  }

  // ----- the list and the path

  ghost function Below<S>(path: seq<Level<S>>): seq<Level<S>>
    requires |path| > 0
  {
    path[..|path| - 1]
  }

  /** The gaps in the list are the calls taken along the path. */
  ghost predicate Mirrors<S, I, O>(
    events: seq<Event>, all: seq<Node<I, O>>, path: seq<Level<S>>, gaps: Gaps<I, O>)
    requires WellFormed(events) && Placed(events, all)
    decreases |path|
  {
    && |path| > 0
    && IsLeft(events, Top(path).done, Top(path).left)
    && (|path| == 1 ==> gaps == Whole(ListOf(all, Top(path).left)))
    && (|path| > 1 ==>
          && gaps.Gap?
          && Mirrors(events, all, Below(path), gaps.below)
          && var level := Top(Below(path));
          && AtCall(events, level)
          && gaps.a == level.at + 1
          && gaps.b == ReturnIndex(events, level) + 1
          && Top(path).left == LeftAfter(events, level))
  }

  lemma AdvanceMirrors<S, I, O>(events: seq<Event>, all: seq<Node<I, O>>, path: seq<Level<S>>, gaps: Gaps<I, O>)
    requires WellFormed(events) && Placed(events, all) && Mirrors(events, all, path, gaps)
    ensures Mirrors(events, all, Advance(path), gaps)
  {
    assert Below(Advance(path)) == Below(path);
  }

  /** The node under the cursor. */
  ghost function Cursor<S, I, O>(events: seq<Event>, all: seq<Node<I, O>>, level: Level<S>): Node?<I, O>
    requires Placed(events, all) && IsLeft(events, level.done, level.left)
  {
    if level.at < |level.left| then all[level.left[level.at] + 1] else null
  }

  lemma CursorNodes<S, I, O>(events: seq<Event>, all: seq<Node<I, O>>, level: Level<S>)
    requires WellFormed(events) && Matched(events, all) && AtCall(events, level)
    ensures
      var list, r := ListOf(all, level.left), ReturnIndex(events, level);
      && Cursor(events, all, level) == list[level.at + 1]
      && list[level.at + 1].matching == list[r + 1]
      && (forall n :: n in list ==> n in all)
  {
    var list := ListOf(all, level.left);
    forall k | 0 <= k < |list|
      ensures list[k] in all
    {
      assert k > 0 ==> list[k] == all[level.left[k - 1] + 1];
    }
  }

  /** The gaps are sound, and leave the events that the top of the path has left. */
  lemma {:induction false} MirrorsIsSound<S, I, O>(
    events: seq<Event>, all: seq<Node<I, O>>, path: seq<Level<S>>, gaps: Gaps<I, O>)
    requires WellFormed(events) && Matched(events, all) && Mirrors(events, all, path, gaps)
    ensures Sound(gaps) && Rest(gaps) == ListOf(all, Top(path).left)
    ensures Increasing(Rest(gaps))
    decreases |path|
  {
    hide WellFormed, IsLeft, Increasing;
    ListOfIncreasing(events, all, Top(path).done, Top(path).left);
    if |path| > 1 {
      var level := Top(Below(path));
      MirrorsIsSound(events, all, Below(path), gaps.below);
      CursorNodes(events, all, level);
      ListOfLeftAfter(events, all, level);
    }
  }
}
