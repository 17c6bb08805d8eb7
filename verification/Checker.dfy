/** The linearizability check of one partition (src/porcupine/checker.go). */
module Checker {
  import opened Histories
  import opened Search
  import opened EventList
  import opened LinkedPath
  import Bitset
  import Cache

  /** The sequential model: an initial state, and a step that says whether an input may
      give an output in a state, and what the next state is. */
  datatype Model<!S, !I, !O> = Model(init: S, step: (S, I, O) -> (bool, S))

  /** One timestamped event of a history. */
  datatype Entry<I, O> =
    | CallEntry(input: I, id: nat, time: int)
    | ReturnEntry(output: O, id: nat, time: int)

  function EventOf<I, O>(entry: Entry<I, O>): Event {
    if entry.CallEntry? then Call(entry.id) else Return(entry.id)
  }

  ghost function Events<I, O>(history: seq<Entry<I, O>>): (events: seq<Event>)
    ensures |events| == |history|
  {
    seq(|history|, p requires 0 <= p < |history| => EventOf(history[p]))
  }

  ghost function InputOf<I, O>(history: seq<Entry<I, O>>, id: nat): I
    requires WellFormed(Events(history)) && id < |history| / 2
  {
    assert IsCall(Events(history), CallAt(Events(history), id), id);
    history[CallAt(Events(history), id)].input
  }

  ghost function OutputOf<I, O>(history: seq<Entry<I, O>>, id: nat): O
    requires WellFormed(Events(history)) && id < |history| / 2
  {
    assert IsReturn(Events(history), ReturnAt(Events(history), id), id);
    history[ReturnAt(Events(history), id)].output
  }

  ghost function ProblemOf<S, I, O>(model: Model<S, I, O>, history: seq<Entry<I, O>>): Problem<S>
    requires WellFormed(Events(history))
  {
    Problem(Events(history), model.init,
            (state: S, id: nat) =>
              if id < |history| / 2 then model.step(state, InputOf(history, id), OutputOf(history, id))
              else (false, state))
  }

  // ----- building the list

  /** Node p of `nodes` is the event at position `start + p` of the history. */
  ghost predicate NodeOk<I, O>(history: seq<Entry<I, O>>, start: nat, nodes: seq<Node<I, O>>, p: nat)
    requires WellFormed(Events(history)) && start + |nodes| == |history| && p < |nodes|
  {
    var entry, event := history[start + p], Events(history)[start + p];
    && nodes[p].place == start + p + 1
    && nodes[p].id == event.id
    && (event.Call? ==>
          && nodes[p].value == Input(entry.input)
          && start <= ReturnAt(Events(history), event.id)
          && nodes[p].matching == nodes[ReturnAt(Events(history), event.id) - start])
    && (event.Return? ==> nodes[p].value == Output(entry.output) && nodes[p].matching == null)
  }

  ghost predicate NodesOk<I, O>(history: seq<Entry<I, O>>, start: nat, nodes: seq<Node<I, O>>)
    requires WellFormed(Events(history)) && start + |nodes| == |history|
  {
    forall p :: 0 <= p < |nodes| ==> NodeOk(history, start, nodes, p)
  }

  /** The `match` table: the nodes of the returns seen so far. */
  ghost predicate ReturnsOk<I, O>(
    history: seq<Entry<I, O>>, start: nat, nodes: seq<Node<I, O>>, table: map<nat, Node<I, O>>)
    requires WellFormed(Events(history)) && start + |nodes| == |history|
  {
    && (forall id: nat :: id in table <==> id < |history| / 2 && ReturnAt(Events(history), id) >= start)
    && (forall id :: id in table ==> table[id] == nodes[ReturnAt(Events(history), id) - start])
  }

  lemma ReturnIsInTable<I, O>(
    history: seq<Entry<I, O>>, start: nat, nodes: seq<Node<I, O>>, table: map<nat, Node<I, O>>)
    requires WellFormed(Events(history)) && start + 1 + |nodes| == |history|
    requires ReturnsOk(history, start + 1, nodes, table)
    requires history[start].CallEntry?
    ensures history[start].id in table
  {
    assert IsCall(Events(history), start, history[start].id) by {
      assert Events(history)[start] == EventOf(history[start]);
    }
  }

  lemma PrependReturn<I, O>(
    history: seq<Entry<I, O>>, start: nat, n: Node<I, O>, nodes: seq<Node<I, O>>, table: map<nat, Node<I, O>>)
    requires WellFormed(Events(history)) && start + 1 + |nodes| == |history|
    requires ReturnsOk(history, start + 1, nodes, table)
    ensures history[start].ReturnEntry? ==>
              ReturnsOk(history, start, [n] + nodes, table[history[start].id := n])
    ensures history[start].CallEntry? ==> ReturnsOk(history, start, [n] + nodes, table)
  {
    var id := history[start].id;
    assert Events(history)[start] == EventOf(history[start]);
    if history[start].ReturnEntry? {
      assert IsReturn(Events(history), start, id);
    } else {
      assert IsCall(Events(history), start, id);
    }
  }

  /** Adding the node of the event just before the others. */
  lemma PrependNode<I, O>(history: seq<Entry<I, O>>, start: nat, n: Node<I, O>, nodes: seq<Node<I, O>>)
    requires WellFormed(Events(history)) && start + 1 + |nodes| == |history|
    requires NodesOk(history, start + 1, nodes)
    requires NodeOk(history, start, [n] + nodes, 0)
    ensures NodesOk(history, start, [n] + nodes)
    ensures forall k :: 0 <= k < |nodes| ==> nodes[k].place > n.place
  {
    forall p | 0 < p < |nodes| + 1
      ensures NodeOk(history, start, [n] + nodes, p)
    {
      assert NodeOk(history, start + 1, nodes, p - 1);
    }
    forall k | 0 <= k < |nodes|
      ensures nodes[k].place > n.place
    {
      assert NodeOk(history, start + 1, nodes, k);
      assert NodeOk(history, start, [n] + nodes, 0);
    }
  }

  /** insertBefore: `mark` starts a stretch of a list, or there is no list yet. */
  method InsertBefore<I, O>(n: Node<I, O>, mark: Node?<I, O>, ghost list: seq<Node<I, O>>)
    requires Linked(list) && n !in list && n.next == null && n.prev == null
    requires if mark == null then list == [] else list != [] && list[0] == mark
    requires mark != null && mark.prev != null ==> mark.prev !in list && mark.prev != n
    requires forall k :: 0 <= k < |list| ==> n.place < list[k].place
    modifies n, mark, if mark == null then null else mark.prev
    ensures Linked([n] + list)
    ensures n.prev == if mark == null then null else old(mark.prev)
    ensures n.prev != null ==> n.prev.next == n
  {
    if mark != null {
      var beforeMark := mark.prev;
      Apart(list, 0);
      mark.prev := n;
      n.next := mark;
      if beforeMark != null {
        n.prev := beforeMark;
        beforeMark.next := n;
      }
    }
  }

  method MakeLinkedEntries<I, O>(history: seq<Entry<I, O>>) returns (root: Node?<I, O>, ghost nodes: seq<Node<I, O>>)
    requires WellFormed(Events(history))
    ensures |nodes| == |history| && NodesOk(history, 0, nodes)
    ensures Linked(nodes)
    ensures if nodes == [] then root == null else root == nodes[0] && root.prev == null
    ensures fresh(nodes)
  {
    root, nodes := null, [];
    var table: map<nat, Node<I, O>> := map[];
    var i := |history|;
    while i > 0
      invariant 0 <= i <= |history| && |nodes| == |history| - i
      invariant NodesOk(history, i, nodes)
      invariant Linked(nodes)
      invariant if nodes == [] then root == null else root == nodes[0] && root.prev == null
      invariant ReturnsOk(history, i, nodes, table)
      invariant fresh(nodes)
    {
      i := i - 1;
      var elem := history[i];
      var n: Node<I, O>;
      if elem.ReturnEntry? {
        n := new Node(Output(elem.output), null, elem.id, i + 1);
        PrependReturn(history, i, n, nodes, table);
        table := table[elem.id := n];
      } else {
        ReturnIsInTable(history, i, nodes, table);
        n := new Node(Input(elem.input), table[elem.id], elem.id, i + 1);
        PrependReturn(history, i, n, nodes, table);
      }
      assert NodeOk(history, i, [n] + nodes, 0);
      PrependNode(history, i, n, nodes);
      InsertBefore(n, root, nodes);
      root, nodes := n, [n] + nodes;
    }
  }

  /** length: how many nodes follow each other from `n` on. */
  method Length<I, O>(n: Node?<I, O>, ghost list: seq<Node<I, O>>) returns (l: nat)
    requires Linked(list) && n == if list == [] then null else list[0]
    ensures l == |list|
  {
    l := 0;
    var m := n;
    while m != null
      invariant l <= |list| && m == if l < |list| then list[l] else null
      decreases |list| - l
    {
      assert list[l].next == After(list, l);
      m := m.next;
      l := l + 1;
    }
  }

  // ----- the search

  /** What a taken call needs to be undone: its node, and the state before it. */
  datatype CallsEntry<S, I, O> = CallsEntry(entry: Node<I, O>, state: S)

  /** The nodes of `all` carry the inputs and outputs of the history. */
  ghost predicate Carries<I, O>(history: seq<Entry<I, O>>, all: seq<Node<I, O>>)
    requires WellFormed(Events(history))
  {
    && Matched(Events(history), all)
    && (forall p :: 0 <= p < |history| ==>
          && all[p + 1].id == history[p].id
          && (history[p].CallEntry? ==> all[p + 1].value == Input(history[p].input))
          && (history[p].ReturnEntry? ==> all[p + 1].value == Output(history[p].output) && all[p + 1].matching == null))
  }

  lemma NodesCarry<I, O>(history: seq<Entry<I, O>>, head: Node<I, O>, nodes: seq<Node<I, O>>)
    requires WellFormed(Events(history)) && |nodes| == |history| && NodesOk(history, 0, nodes)
    requires head.place == 0
    ensures Carries(history, [head] + nodes)
  {
    var all := [head] + nodes;
    forall p | 0 <= p < |history|
      ensures all[p + 1].place == p + 1 && all[p + 1].id == history[p].id
      ensures Events(history)[p].Call? ==>
                && all[p + 1].value == Input(history[p].input)
                && all[p + 1].matching == all[ReturnAt(Events(history), Events(history)[p].id) + 1]
      ensures Events(history)[p].Return? ==>
                all[p + 1].value == Output(history[p].output) && all[p + 1].matching == null
    {
      assert NodeOk(history, 0, nodes, p);
    }
    forall p | 0 <= p < |all|
      ensures all[p].place == p
    {
      if p > 0 {
        assert NodeOk(history, 0, nodes, p - 1);
      }
    }
  }

  /** The stack of calls is the path without its top. */
  ghost predicate CallsFollow<S, I, O>(
    events: seq<Event>, all: seq<Node<I, O>>, path: seq<Level<S>>, calls: seq<CallsEntry<S, I, O>>)
    requires Placed(events, all)
  {
    && |calls| == |path| - 1
    && (forall j :: 0 <= j < |calls| ==>
          && IsLeft(events, path[j].done, path[j].left)
          && calls[j].entry == Cursor(events, all, path[j])
          && calls[j].state == path[j].state)
  }

  ghost function Positions(n: nat): seq<nat> {
    seq(n, k requires 0 <= k < n => k)
  }

  ghost function Start<S>(init: S, n: nat): seq<Level<S>> {
    [Level({}, init, Positions(n), 0)]
  }

  lemma StartOk<S, I, O>(problem: Problem<S>, all: seq<Node<I, O>>)
    requires WellFormed(problem.events) && Placed(problem.events, all)
    ensures
      var path := Start(problem.init, |problem.events|);
      && PathOk(problem, path)
      && CacheOk(problem, path, {})
      && Mirrors(problem.events, all, path, Whole(all))
      && CallsFollow(problem.events, all, path, [])
  {
    var left := Positions(|problem.events|);
    forall p | 0 <= p < |problem.events|
      ensures p in left
    {
      assert left[p] == p;
    }
    assert ListOf(all, left) == all;
  }

  /** The nodes under the cursor hold what the model has to judge. */
  lemma NodesGiveStep<S, I, O>(
    model: Model<S, I, O>, history: seq<Entry<I, O>>, all: seq<Node<I, O>>, level: Level<S>)
    requires WellFormed(Events(history)) && Carries(history, all)
    requires IsLeft(Events(history), level.done, level.left) && level.at < |level.left|
    ensures
      var entry, event := Cursor(Events(history), all, level), Under(Events(history), level);
      && entry != null
      && entry.id == event.id
      && (entry.matching != null <==> event.Call?)
      && (event.Call? ==>
            && entry.value.Input?
            && entry.matching.value.Output?
            && model.step(level.state, entry.value.input, entry.matching.value.output)
            == ProblemOf(model, history).step(level.state, event.id))
  {
    var events := Events(history);
    var p := level.left[level.at];
    var id := events[p].id;
    assert events[p] == EventOf(history[p]);
    if events[p].Call? {
      var r := ReturnAt(events, id);
      assert IsReturn(events, r, id) && events[r] == EventOf(history[r]);
      assert IsCall(events, p, id) && IsCall(events, CallAt(events, id), id);
      assert InputOf(history, id) == history[p].input && OutputOf(history, id) == history[r].output;
    }
  }

  /** The call taken becomes a new level on the path. */
  ghost function Deeper<S>(problem: Problem<S>, level: Level<S>): Level<S>
    requires WellFormed(problem.events) && AtCall(problem.events, level)
  {
    var id := Under(problem.events, level).id;
    Level(level.done + {id}, problem.step(level.state, id).1, LeftAfter(problem.events, level), 0)
  }

  /** The gaps once the call under the cursor is taken. */
  ghost function Dug<S, I, O>(events: seq<Event>, level: Level<S>, gaps: Gaps<I, O>): Gaps<I, O>
    requires WellFormed(events) && AtCall(events, level)
  {
    Gap(gaps, level.at + 1, ReturnIndex(events, level) + 1)
  }

  lemma PushMirrors<S, I, O>(
    problem: Problem<S>, all: seq<Node<I, O>>, path: seq<Level<S>>, gaps: Gaps<I, O>)
    requires WellFormed(problem.events) && Matched(problem.events, all)
    requires Mirrors(problem.events, all, path, gaps) && AtCall(problem.events, Top(path))
    ensures
      var gaps' := Dug(problem.events, Top(path), gaps);
      && Mirrors(problem.events, all, path + [Deeper(problem, Top(path))], gaps')
      && Sound(gaps')
  {
    hide WellFormed, Sound, Rest, IsLeft;
    LeftAfterIsLeft(problem.events, Top(path));
    assert Below(path + [Deeper(problem, Top(path))]) == path;
    MirrorsIsSound(problem.events, all, path + [Deeper(problem, Top(path))],
                   Dug(problem.events, Top(path), gaps));
  }

  lemma CursorIsLinked<S, I, O>(
    problem: Problem<S>, all: seq<Node<I, O>>, path: seq<Level<S>>, gaps: Gaps<I, O>)
    requires WellFormed(problem.events) && Matched(problem.events, all)
    requires Mirrors(problem.events, all, path, gaps) && Top(path).at < |Top(path).left|
    ensures Sound(gaps) && Top(path).at + 1 < |Rest(gaps)|
    ensures Cursor(problem.events, all, Top(path)) == Rest(gaps)[Top(path).at + 1]
  {
    hide WellFormed, IsLeft, Sound, Rest;
    MirrorsIsSound(problem.events, all, path, gaps);
  }

  lemma PushCallsFollow<S, I, O>(
    events: seq<Event>, all: seq<Node<I, O>>, path: seq<Level<S>>, calls: seq<CallsEntry<S, I, O>>,
    entry: Node<I, O>, deeper: Level<S>)
    requires Placed(events, all) && |path| > 0
    requires CallsFollow(events, all, path, calls)
    requires IsLeft(events, Top(path).done, Top(path).left) && entry == Cursor(events, all, Top(path))
    ensures CallsFollow(events, all, path + [deeper], calls + [CallsEntry(entry, Top(path).state)])
  {}

  lemma AdvanceCallsFollow<S, I, O>(
    events: seq<Event>, all: seq<Node<I, O>>, path: seq<Level<S>>, calls: seq<CallsEntry<S, I, O>>)
    requires Placed(events, all) && |path| > 0
    requires CallsFollow(events, all, path, calls)
    ensures CallsFollow(events, all, Advance(path), calls)
  {}

  lemma PopCallsFollow<S, I, O>(
    events: seq<Event>, all: seq<Node<I, O>>, path: seq<Level<S>>, calls: seq<CallsEntry<S, I, O>>)
    requires Placed(events, all) && |path| > 1
    requires CallsFollow(events, all, path, calls)
    ensures CallsFollow(events, all, Advance(Below(path)), calls[..|calls| - 1])
  {}

  lemma PopMirrors<S, I, O>(
    problem: Problem<S>, all: seq<Node<I, O>>, path: seq<Level<S>>, gaps: Gaps<I, O>)
    requires WellFormed(problem.events) && Matched(problem.events, all) && |path| > 1
    requires Mirrors(problem.events, all, path, gaps)
    ensures gaps.Gap? && Sound(gaps) && Sound(gaps.below)
    ensures AtCall(problem.events, Top(Below(path)))
    ensures Mirrors(problem.events, all, Below(path), gaps.below)
    ensures Cursor(problem.events, all, Top(Below(path))) == Rest(gaps.below)[gaps.a]
    ensures Mirrors(problem.events, all, Advance(Below(path)), gaps.below)
    ensures Top(Below(path)).at + 1 < |Top(Below(path)).left|
  {
    MirrorsIsSound(problem.events, all, path, gaps);
    MirrorsIsSound(problem.events, all, Below(path), gaps.below);
    AdvanceMirrors(problem.events, all, Below(path), gaps.below);
    CursorNodes(problem.events, all, Top(Below(path)));
  }

  /** The invariant of the search loop, as far as it does not speak of the heap. */
  ghost predicate SearchOk<S, I, O>(
    problem: Problem<S>, all: seq<Node<I, O>>, path: seq<Level<S>>, gaps: Gaps<I, O>,
    calls: seq<CallsEntry<S, I, O>>, pairs: set<(set<nat>, S)>)
    requires WellFormed(problem.events)
  {
    && Matched(problem.events, all)
    && PathOk(problem, path)
    && CacheOk(problem, path, pairs)
    && Mirrors(problem.events, all, path, gaps)
    && CallsFollow(problem.events, all, path, calls)
    && pairs <= Reach(problem, problem.Count())
    && (Top(path).left != [] ==> Top(path).at < |Top(path).left|)
  }

  ghost predicate Known<S>(problem: Problem<S>, level: Level<S>, pairs: set<(set<nat>, S)>)
    requires WellFormed(problem.events) && AtCall(problem.events, level)
  {
    var id := Under(problem.events, level).id;
    (level.done + {id}, problem.step(level.state, id).1) in pairs
  }

  lemma SkipStep<S, I, O>(
    problem: Problem<S>, all: seq<Node<I, O>>, path: seq<Level<S>>, gaps: Gaps<I, O>,
    calls: seq<CallsEntry<S, I, O>>, pairs: set<(set<nat>, S)>)
    requires WellFormed(problem.events) && SearchOk(problem, all, path, gaps, calls, pairs)
    requires AtCall(problem.events, Top(path))
    requires problem.step(Top(path).state, Under(problem.events, Top(path)).id).0 ==> Known(problem, Top(path), pairs)
    ensures SearchOk(problem, all, Advance(path), gaps, calls, pairs)
  {
    SkipKeeps(problem, path, pairs);
    AdvanceMirrors(problem.events, all, path, gaps);
    AdvanceCallsFollow(problem.events, all, path, calls);
    assert ReturnIndex(problem.events, Top(path)) > Top(path).at;
  }

  lemma DeeperKeeps<S>(problem: Problem<S>, path: seq<Level<S>>, pairs: set<(set<nat>, S)>)
    requires WellFormed(problem.events) && PathOk(problem, path) && CacheOk(problem, path, pairs)
    requires AtCall(problem.events, Top(path))
    requires problem.step(Top(path).state, Under(problem.events, Top(path)).id).0
    ensures
      var deeper := Deeper(problem, Top(path));
      && PathOk(problem, path + [deeper])
      && CacheOk(problem, path + [deeper], pairs + {(deeper.done, deeper.state)})
      && (deeper.done, deeper.state) in Reach(problem, problem.Count())
  {
    var deeper := Deeper(problem, Top(path));
    LeftAfterIsLeft(problem.events, Top(path));
    assert Descends(problem, Top(path), deeper);
    PushKeeps(problem, path, pairs, deeper);
    NewPairInReach(problem, path, deeper);
  }

  lemma PushStep<S, I, O>(
    problem: Problem<S>, all: seq<Node<I, O>>, path: seq<Level<S>>, gaps: Gaps<I, O>,
    calls: seq<CallsEntry<S, I, O>>, pairs: set<(set<nat>, S)>, entry: Node<I, O>)
    requires WellFormed(problem.events) && SearchOk(problem, all, path, gaps, calls, pairs)
    requires AtCall(problem.events, Top(path)) && entry == Cursor(problem.events, all, Top(path))
    requires problem.step(Top(path).state, Under(problem.events, Top(path)).id).0
    ensures
      var deeper := Deeper(problem, Top(path));
      && (deeper.done, deeper.state) in Reach(problem, problem.Count())
      && SearchOk(problem, all, path + [deeper],
                  Dug(problem.events, Top(path), gaps),
                  calls + [CallsEntry(entry, Top(path).state)], pairs + {(deeper.done, deeper.state)})
  {
    hide WellFormed, IsLeft, PathOk, CacheOk, Mirrors, CallsFollow, Reach, Sound, Rest;
    DeeperKeeps(problem, path, pairs);
    PushMirrors(problem, all, path, gaps);
    PushCallsFollow(problem.events, all, path, calls, entry, Deeper(problem, Top(path)));
  }

  lemma PopStep<S, I, O>(
    problem: Problem<S>, all: seq<Node<I, O>>, path: seq<Level<S>>, gaps: Gaps<I, O>,
    calls: seq<CallsEntry<S, I, O>>, pairs: set<(set<nat>, S)>)
    requires WellFormed(problem.events) && SearchOk(problem, all, path, gaps, calls, pairs) && |path| > 1
    requires Top(path).at < |Top(path).left| && Under(problem.events, Top(path)).Return?
    ensures gaps.Gap? && SearchOk(problem, all, Advance(Below(path)), gaps.below, calls[..|calls| - 1], pairs)
  {
    PopKeeps(problem, path, pairs);
    PopMirrors(problem, all, path, gaps);
    PopCallsFollow(problem.events, all, path, calls);
  }

  /** The event list with its sentinel in front. */
  method MakeList<I, O>(history: seq<Entry<I, O>>)
    returns (head: Node<I, O>, root: Node?<I, O>, length: nat, ghost all: seq<Node<I, O>>)
    requires WellFormed(Events(history))
    ensures Carries(history, all) && Linked(all) && fresh(all)
    ensures |all| == |history| + 1 && all[0] == head && length == |history|
    ensures root == if |history| == 0 then null else all[1]
  {
    ghost var nodes;
    root, nodes := MakeLinkedEntries(history);
    length := Length(root, nodes);
    head := new Node(Nothing, null, -1, 0);
    forall k | 0 <= k < |nodes|
      ensures nodes[k].place > 0
    {
      assert NodeOk(history, 0, nodes, k);
    }
    InsertBefore(head, root, nodes);
    NodesCarry(history, head, nodes);
    all := [head] + nodes;
  }

  // ----- the moves of the cursor

  ghost predicate Within<I, O>(gaps: Gaps<I, O>, all: seq<Node<I, O>>) {
    && Sound(gaps)
    && (forall k :: 0 <= k < |Rest(gaps)| ==> Rest(gaps)[k] in all)
    && (forall n :: n in Taken(gaps) ==> n in all)
  }

  /** The list is linked as the gaps say. */
  ghost predicate ListOk<I, O>(gaps: Gaps<I, O>, all: seq<Node<I, O>>)
    reads all
  {
    Within(gaps, all) && Linked(Rest(gaps)) && AllRemember(gaps)
  }

  lemma LiftWithin<I, O>(gaps: Gaps<I, O>, a: nat, b: nat, all: seq<Node<I, O>>)
    requires Within(gaps, all) && Sound(Gap(gaps, a, b))
    ensures Within(Gap(gaps, a, b), all)
  {
    var lifted := Rest(Gap(gaps, a, b));
    forall k | 0 <= k < |lifted|
      ensures lifted[k] in all
    {
      LiftedNodes(Rest(gaps), a, b, lifted[k]);
    }
  }

  lemma UnliftWithin<I, O>(gaps: Gaps<I, O>, all: seq<Node<I, O>>)
    requires gaps.Gap? && Within(gaps, all)
    ensures Within(gaps.below, all)
  {
    var list, lifted := Rest(gaps.below), Rest(gaps);
    var once := Without(list, gaps.a);
    forall k | 0 <= k < |list|
      ensures list[k] in all
    {
      var n := list[k];
      if k == gaps.a || k == gaps.b {
        assert n in Taken(gaps);
      } else {
        var j := if k < gaps.a then k else k - 1;
        assert once[j] == n;
        assert lifted[if j < gaps.b - 1 then j else j - 1] == n;
      }
    }
  }

  /** The event after a call that stays in the list. */
  lemma NextIsLinked<S, I, O>(
    problem: Problem<S>, all: seq<Node<I, O>>, path: seq<Level<S>>, gaps: Gaps<I, O>)
    requires WellFormed(problem.events) && Matched(problem.events, all) && |path| > 0
    requires Mirrors(problem.events, all, path, gaps) && AtCall(problem.events, Top(path))
    ensures Sound(gaps) && Top(path).at + 2 < |Rest(gaps)|
    ensures Cursor(problem.events, all, Top(path)) == Rest(gaps)[Top(path).at + 1]
    ensures Cursor(problem.events, all, Top(Advance(path))) == Rest(gaps)[Top(path).at + 2]
  {
    hide WellFormed, Mirrors, Placed, IsLeft, Rest, Sound, Cursor;
    assert ReturnIndex(problem.events, Top(path)) > Top(path).at;
    CursorIsLinked(problem, all, path, gaps);
    AdvanceMirrors(problem.events, all, path, gaps);
    CursorIsLinked(problem, all, Advance(path), gaps);
  }

  lemma FollowNext<S, I, O>(
    problem: Problem<S>, all: seq<Node<I, O>>, path: seq<Level<S>>, gaps: Gaps<I, O>, entry: Node<I, O>)
    requires WellFormed(problem.events) && Matched(problem.events, all) && |path| > 0
    requires Mirrors(problem.events, all, path, gaps) && ListOk(gaps, all)
    requires AtCall(problem.events, Top(path)) && entry == Cursor(problem.events, all, Top(path))
    ensures entry.next == Cursor(problem.events, all, Top(Advance(path)))
  {
    hide WellFormed, Mirrors, IsLeft, Placed, AllRemember, Within, Rest, Cursor, AtCall;
    NextIsLinked(problem, all, path, gaps);
    assert Rest(gaps)[Top(path).at + 1].next == After(Rest(gaps), Top(path).at + 1);
  }

  lemma HeadIsLinked<S, I, O>(
    problem: Problem<S>, all: seq<Node<I, O>>, path: seq<Level<S>>, gaps: Gaps<I, O>)
    requires WellFormed(problem.events) && Matched(problem.events, all) && |path| > 0
    requires Mirrors(problem.events, all, path, gaps)
    ensures Sound(gaps) && |Rest(gaps)| > 0 && Rest(gaps)[0] == all[0]
    ensures After(Rest(gaps), 0) == Cursor(problem.events, all, Top(path).(at := 0))
    ensures After(Rest(gaps), 0) == null <==> Top(path).left == []
  {
    hide WellFormed, Sound, Rest, Mirrors, IsLeft;
    TopIsLeft(problem.events, all, path, gaps);
    MirrorsIsSound(problem.events, all, path, gaps);
    HeadOfList(problem.events, all, Top(path));
  }

  lemma TopIsLeft<S, I, O>(events: seq<Event>, all: seq<Node<I, O>>, path: seq<Level<S>>, gaps: Gaps<I, O>)
    requires WellFormed(events) && Placed(events, all) && Mirrors(events, all, path, gaps)
    ensures IsLeft(events, Top(path).done, Top(path).left)
  {
    hide WellFormed, IsLeft;
  }

  lemma HeadOfList<S, I, O>(events: seq<Event>, all: seq<Node<I, O>>, level: Level<S>)
    requires Placed(events, all) && IsLeft(events, level.done, level.left)
    ensures var list := ListOf(all, level.left);
            && |list| > 0 && list[0] == all[0]
            && After(list, 0) == Cursor(events, all, level.(at := 0))
            && (After(list, 0) == null <==> level.left == [])
  {}

  /** The first event in the list, if there is one. */
  lemma FollowHead<S, I, O>(
    problem: Problem<S>, all: seq<Node<I, O>>, path: seq<Level<S>>, gaps: Gaps<I, O>)
    requires WellFormed(problem.events) && Matched(problem.events, all) && |path| > 0
    requires Mirrors(problem.events, all, path, gaps) && ListOk(gaps, all)
    ensures all[0].next == Cursor(problem.events, all, Top(path).(at := 0))
    ensures all[0].next == null <==> Top(path).left == []
  {
    hide WellFormed, Mirrors, Placed, IsLeft, Cursor, Within, Rest, AllRemember;
    HeadIsLinked(problem, all, path, gaps);
    assert Rest(gaps)[0].next == After(Rest(gaps), 0);
  }

  /** lift the call under the cursor. */
  method TakeCall<S, I, O>(entry: Node<I, O>, ghost problem: Problem<S>, ghost all: seq<Node<I, O>>,
                           ghost path: seq<Level<S>>, ghost gaps: Gaps<I, O>)
    requires WellFormed(problem.events) && Matched(problem.events, all) && |path| > 0
    requires Mirrors(problem.events, all, path, gaps) && ListOk(gaps, all)
    requires AtCall(problem.events, Top(path)) && entry == Cursor(problem.events, all, Top(path))
    modifies all
    ensures ListOk(Dug(problem.events, Top(path), gaps), all)
  {
    hide WellFormed, Mirrors, IsLeft, Placed, AllRemember, Sound, Rest, Cursor, AtCall;
    PushMirrors(problem, all, path, gaps);
    CursorIsLinked(problem, all, path, gaps);
    LiftWithin(gaps, Top(path).at + 1, ReturnIndex(problem.events, Top(path)) + 1, all);
    LiftNext(entry, gaps, Top(path).at + 1, ReturnIndex(problem.events, Top(path)) + 1, Taken(gaps));
  }

  /** unlift the call taken last. */
  method PutBack<S, I, O>(entry: Node<I, O>, ghost problem: Problem<S>, ghost all: seq<Node<I, O>>,
                          ghost path: seq<Level<S>>, ghost gaps: Gaps<I, O>)
    requires WellFormed(problem.events) && Matched(problem.events, all) && |path| > 1
    requires Mirrors(problem.events, all, path, gaps) && ListOk(gaps, all)
    requires entry == Cursor(problem.events, all, Top(Below(path)))
    modifies all
    ensures gaps.Gap? && ListOk(gaps.below, all)
  {
    hide WellFormed, Mirrors, IsLeft, Placed, AllRemember, Sound, Rest, Cursor, AtCall;
    PopMirrors(problem, all, path, gaps);
    UnliftWithin(gaps, all);
    UnliftLast(entry, gaps, Taken(gaps.below));
  }

  // ----- the cache and the packed set

  /** The packed set is what is done, and the cache holds the cached pairs. */
  ghost predicate SetsOk<S>(
    linearized: array<Bitset.Word>, words: map<array<Bitset.Word>, seq<Bitset.Word>>, cache: Cache.Buckets<S>,
    pairs: set<(set<nat>, S)>, done: set<nat>, count: nat)
    reads linearized, words.Keys
  {
    && Bitset.Members(linearized[..]) == done
    && count <= 64 * linearized.Length
    && linearized !in words
    && Cache.Frozen(words)
    && Cache.Holds(cache, words, linearized.Length, pairs)
  }

  /** Look up the pair that taking operation `id` leads to, and add it if it is new. */
  method Remember<S(==)>(
    linearized: array<Bitset.Word>, id: nat, newState: S, cache: Cache.Buckets<S>,
    ghost words: map<array<Bitset.Word>, seq<Bitset.Word>>, ghost pairs: set<(set<nat>, S)>,
    ghost done: set<nat>, ghost count: nat)
    returns (isNew: bool, cache': Cache.Buckets<S>, ghost words': map<array<Bitset.Word>, seq<Bitset.Word>>)
    requires SetsOk(linearized, words, cache, pairs, done, count) && id < count
    ensures isNew <==> (done + {id}, newState) !in pairs
    ensures SetsOk(linearized, words', cache', pairs + {(done + {id}, newState)}, done, count)
    ensures !isNew ==> cache' == cache
  {
    var newLinearized := Bitset.Clone(linearized);
    Bitset.Set(newLinearized, id);
    var newCacheEntry := Cache.CacheEntry(newLinearized, newState);
    var found := Cache.Contains(cache, newCacheEntry, words, pairs);
    if found {
      assert pairs + {(done + {id}, newState)} == pairs;
      return false, cache, words;
    }
    var hash := Bitset.Hash(newLinearized);
    Cache.AddHolds(cache, words, linearized.Length, pairs, newCacheEntry, newLinearized[..]);
    return true, Cache.Add(cache, hash, newCacheEntry), words[newLinearized := newLinearized[..]];
  }

  /** The ids on the stack of calls. */
  function IdsOf<S, I, O>(calls: seq<CallsEntry<S, I, O>>): seq<nat>
    requires forall k :: 0 <= k < |calls| ==> calls[k].entry.id >= 0
  {
    seq(|calls|, i requires 0 <= i < |calls| => calls[i].entry.id)
  }

  /** The loop invariant as far as it does not speak of the heap, with the loop's variables. */
  ghost predicate LoopOk<S, I, O>(
    model: Model<S, I, O>, history: seq<Entry<I, O>>, all: seq<Node<I, O>>, path: seq<Level<S>>, gaps: Gaps<I, O>,
    calls: seq<CallsEntry<S, I, O>>, pairs: set<(set<nat>, S)>, entry: Node?<I, O>, state: S)
    requires WellFormed(Events(history))
  {
    && |path| > 0
    && Carries(history, all)
    && SearchOk(ProblemOf(model, history), all, path, gaps, calls, pairs)
    && state == Top(path).state
    && entry == Cursor(Events(history), all, Top(path))
  }

  /** What the code sees at the cursor is what the search is about. */
  lemma LoopStep<S, I, O>(
    model: Model<S, I, O>, history: seq<Entry<I, O>>, all: seq<Node<I, O>>, path: seq<Level<S>>, gaps: Gaps<I, O>,
    calls: seq<CallsEntry<S, I, O>>, pairs: set<(set<nat>, S)>, entry: Node?<I, O>, state: S)
    requires WellFormed(Events(history))
    requires LoopOk(model, history, all, path, gaps, calls, pairs, entry, state)
    requires Top(path).left != []
    ensures
      var events := Events(history);
      && entry != null
      && IsLeft(events, Top(path).done, Top(path).left)
      && Top(path).at < |Top(path).left|
      && entry.id == Under(events, Top(path)).id
      && 0 <= entry.id < |history| / 2
      && (entry.matching != null <==> AtCall(events, Top(path)))
      && (entry.matching == null <==> Under(events, Top(path)).Return?)
      && (entry.matching != null ==>
            && entry.value.Input? && entry.matching.value.Output?
            && model.step(state, entry.value.input, entry.matching.value.output)
            == ProblemOf(model, history).step(state, entry.id))
  {
    NodesGiveStep(model, history, all, Top(path));
  }

  lemma FewerLeft<T>(universe: set<T>, pairs: set<T>, pair: T)
    requires pair in universe && pair !in pairs
    ensures |universe - (pairs + {pair})| < |universe - pairs|
  {
    assert universe - pairs == (universe - (pairs + {pair})) + {pair};
  }

  /** The cursor is at a return and nothing has been taken: there is no legal order. */
  lemma NothingToUndo<S, I, O>(
    problem: Problem<S>, all: seq<Node<I, O>>, path: seq<Level<S>>, gaps: Gaps<I, O>,
    calls: seq<CallsEntry<S, I, O>>, pairs: set<(set<nat>, S)>)
    requires WellFormed(problem.events) && SearchOk(problem, all, path, gaps, calls, pairs)
    requires calls == [] && Top(path).at < |Top(path).left| && Under(problem.events, Top(path)).Return?
    ensures !Linearizable(problem)
  {
    ReturnIsDeadEnd(problem, path[0]);
    LinearizableIffCompletable(problem);
  }

  lemma CursorId<S, I, O>(events: seq<Event>, all: seq<Node<I, O>>, level: Level<S>)
    requires Placed(events, all) && IsLeft(events, level.done, level.left) && level.at < |level.left|
    requires forall p :: 0 <= p < |events| ==> all[p + 1].id == events[p].id
    ensures Cursor(events, all, level).id == Under(events, level).id
  {}

  /** The list is empty: the calls on the stack are a legal order. */
  lemma {:induction false} ChosenAreCalls<S, I, O>(
    events: seq<Event>, all: seq<Node<I, O>>, path: seq<Level<S>>, calls: seq<CallsEntry<S, I, O>>)
    requires Placed(events, all) && |path| > 0 && CallsFollow(events, all, path, calls)
    requires forall j :: 0 <= j < |path| - 1 ==>
               IsLeft(events, path[j].done, path[j].left) && path[j].at < |path[j].left|
    requires forall p :: 0 <= p < |events| ==> all[p + 1].id == events[p].id
    ensures forall k :: 0 <= k < |calls| ==> calls[k].entry.id >= 0
    ensures Chosen(events, path) == IdsOf(calls)
    decreases |path|
  {
    hide IsLeft, Cursor, Under;
    if |path| > 1 {
      var rest := path[1..];
      assert CallsFollow(events, all, rest, calls[1..]);
      CursorId(events, all, path[0]);
      ChosenAreCalls(events, all, rest, calls[1..]);
      assert IdsOf(calls) == [calls[0].entry.id] + IdsOf(calls[1..]);
    }
  }

  lemma StackIsOrder<S, I, O>(
    model: Model<S, I, O>, history: seq<Entry<I, O>>, all: seq<Node<I, O>>, path: seq<Level<S>>, gaps: Gaps<I, O>,
    calls: seq<CallsEntry<S, I, O>>, pairs: set<(set<nat>, S)>, entry: Node?<I, O>, state: S)
    requires WellFormed(Events(history))
    requires LoopOk(model, history, all, path, gaps, calls, pairs, entry, state)
    requires Top(path).left == []
    ensures forall k :: 0 <= k < |calls| ==> calls[k].entry.id >= 0
    ensures Completes(ProblemOf(model, history), {}, model.init, IdsOf(calls))
    ensures Linearizable(ProblemOf(model, history))
  {
    hide WellFormed, IsLeft, CacheOk, Mirrors, Reach, Completes, Tried, Descends;
    EmptyListCompletes(ProblemOf(model, history), path);
    ChosenAreCalls(Events(history), all, path, calls);
    forall k | 0 <= k < |calls|
      ensures calls[k].entry.id >= 0
    {
      assert IdsOf(calls)[k] == calls[k].entry.id;
    }
  }

  lemma SetsStart<S>(linearized: array<Bitset.Word>, count: nat)
    requires Bitset.Members(linearized[..]) == {} && count <= 64 * linearized.Length
    ensures SetsOk<S>(linearized, map[], map[], {}, {}, count)
  {}

  /** The search is at a call, and the entry is that call's node. */
  ghost predicate UnderCursor<S, I, O>(
    problem: Problem<S>, all: seq<Node<I, O>>, path: seq<Level<S>>, gaps: Gaps<I, O>, entry: Node<I, O>)
  {
    && WellFormed(problem.events) && Matched(problem.events, all) && |path| > 0
    && Mirrors(problem.events, all, path, gaps)
    && AtCall(problem.events, Top(path)) && entry == Cursor(problem.events, all, Top(path))
  }

  /** Take the call under the cursor: its id joins the packed set, its nodes leave the list. */
  method Descend<S, I, O>(
    entry: Node<I, O>, linearized: array<Bitset.Word>,
    ghost problem: Problem<S>, ghost all: seq<Node<I, O>>, ghost path: seq<Level<S>>, ghost gaps: Gaps<I, O>,
    ghost words: map<array<Bitset.Word>, seq<Bitset.Word>>, ghost cache: Cache.Buckets<S>,
    ghost pairs: set<(set<nat>, S)>, ghost count: nat)
    requires UnderCursor(problem, all, path, gaps, entry) && ListOk(gaps, all)
    requires 0 <= entry.id < count && forall n :: n in all ==> n as object != linearized
    requires SetsOk(linearized, words, cache, pairs, Top(path).done, count)
    modifies all, linearized
    ensures ListOk(Dug(problem.events, Top(path), gaps), all)
    ensures SetsOk(linearized, words, cache, pairs, Top(path).done + {entry.id}, count)
  {
    hide WellFormed, Matched, Mirrors, IsLeft, Cursor, AtCall, ListOk, Cache.Holds;
    Bitset.Set(linearized, entry.id);
    TakeCall(entry, problem, all, path, gaps);
  }

  /** Undo the call taken last. */
  method Ascend<S, I, O>(
    entry: Node<I, O>, linearized: array<Bitset.Word>,
    ghost problem: Problem<S>, ghost all: seq<Node<I, O>>, ghost path: seq<Level<S>>, ghost gaps: Gaps<I, O>,
    ghost words: map<array<Bitset.Word>, seq<Bitset.Word>>, ghost cache: Cache.Buckets<S>,
    ghost pairs: set<(set<nat>, S)>, ghost count: nat)
    requires WellFormed(problem.events) && Matched(problem.events, all) && |path| > 1
    requires Mirrors(problem.events, all, path, gaps) && ListOk(gaps, all)
    requires AtCall(problem.events, Top(Below(path))) && entry == Cursor(problem.events, all, Top(Below(path)))
    requires 0 <= entry.id < count && forall n :: n in all ==> n as object != linearized
    requires SetsOk(linearized, words, cache, pairs, Top(path).done, count)
    modifies all, linearized
    ensures gaps.Gap? && ListOk(gaps.below, all)
    ensures SetsOk(linearized, words, cache, pairs, Top(path).done - {entry.id}, count)
  {
    hide WellFormed, Matched, Mirrors, IsLeft, Cursor, AtCall, ListOk, Cache.Holds;
    Bitset.Clear(linearized, entry.id);
    PutBack(entry, problem, all, path, gaps);
  }

  lemma LoopStart<S, I, O>(model: Model<S, I, O>, history: seq<Entry<I, O>>, all: seq<Node<I, O>>)
    requires WellFormed(Events(history)) && Carries(history, all) && Linked(all)
    ensures LoopOk(model, history, all, Start(model.init, |history|), Whole(all), [], {},
                   if |history| == 0 then null else all[1], model.init)
    ensures ListOk(Whole(all), all)
  {
    StartOk(ProblemOf(model, history), all);
  }

  lemma LoopSkip<S, I, O>(
    model: Model<S, I, O>, history: seq<Entry<I, O>>, all: seq<Node<I, O>>, path: seq<Level<S>>, gaps: Gaps<I, O>,
    calls: seq<CallsEntry<S, I, O>>, pairs: set<(set<nat>, S)>, entry: Node<I, O>, state: S)
    requires WellFormed(Events(history))
    requires LoopOk(model, history, all, path, gaps, calls, pairs, entry, state) && ListOk(gaps, all)
    requires AtCall(Events(history), Top(path))
    requires ProblemOf(model, history).step(state, Under(Events(history), Top(path)).id).0 ==>
               Known(ProblemOf(model, history), Top(path), pairs)
    ensures LoopOk(model, history, all, Advance(path), gaps, calls, pairs, entry.next, state)
  {
    hide WellFormed, Carries, PathOk, CacheOk, Mirrors, ListOk, IsLeft, Cursor, CallsFollow, Reach;
    SkipStep(ProblemOf(model, history), all, path, gaps, calls, pairs);
    FollowNext(ProblemOf(model, history), all, path, gaps, entry);
  }

  lemma LoopPush<S, I, O>(
    model: Model<S, I, O>, history: seq<Entry<I, O>>, all: seq<Node<I, O>>, path: seq<Level<S>>, gaps: Gaps<I, O>,
    calls: seq<CallsEntry<S, I, O>>, pairs: set<(set<nat>, S)>, entry: Node<I, O>, state: S)
    requires WellFormed(Events(history))
    requires LoopOk(model, history, all, path, gaps, calls, pairs, entry, state)
    requires AtCall(Events(history), Top(path))
    requires ProblemOf(model, history).step(state, Under(Events(history), Top(path)).id).0
    ensures
      var problem := ProblemOf(model, history);
      var deeper := Deeper(problem, Top(path));
      && (deeper.done, deeper.state) in Reach(problem, problem.Count())
      && IsLeft(problem.events, deeper.done, deeper.left)
      && LoopOk(model, history, all, path + [deeper],
                Dug(problem.events, Top(path), gaps),
                calls + [CallsEntry(entry, state)], pairs + {(deeper.done, deeper.state)},
                Cursor(problem.events, all, deeper), deeper.state)
  {
    hide WellFormed, Carries, PathOk, CacheOk, Mirrors, IsLeft, Cursor, CallsFollow, Reach;
    LeftAfterIsLeft(Events(history), Top(path));
    PushStep(ProblemOf(model, history), all, path, gaps, calls, pairs, entry);
  }

  lemma TakenBelow<S>(problem: Problem<S>, path: seq<Level<S>>)
    requires WellFormed(problem.events) && |path| > 1 && PathOk(problem, path)
    ensures AtCall(problem.events, Top(Below(path)))
    ensures Top(path).done - {Under(problem.events, Top(Below(path))).id} == Top(Below(path)).done
    ensures Under(problem.events, Top(Below(path))).id < problem.Count()
  {
    assert Descends(problem, path[|path| - 2], path[|path| - 1]);
  }

  lemma LoopPop<S, I, O>(
    model: Model<S, I, O>, history: seq<Entry<I, O>>, all: seq<Node<I, O>>, path: seq<Level<S>>, gaps: Gaps<I, O>,
    calls: seq<CallsEntry<S, I, O>>, pairs: set<(set<nat>, S)>, entry: Node?<I, O>, state: S)
    requires WellFormed(Events(history))
    requires LoopOk(model, history, all, path, gaps, calls, pairs, entry, state)
    requires calls != [] && IsLeft(Events(history), Top(path).done, Top(path).left)
    requires Top(path).at < |Top(path).left| && Under(Events(history), Top(path)).Return?
    ensures
      var events, top, below := Events(history), calls[|calls| - 1], Below(path);
      && |path| > 1 && gaps.Gap? && Mirrors(events, all, below, gaps.below)
      && AtCall(events, Top(below)) && top.entry == Cursor(events, all, Top(below))
      && 0 <= top.entry.id < |history| / 2
      && Top(path).done - {top.entry.id} == Top(below).done == Top(Advance(below)).done
      && IsLeft(events, Top(Advance(below)).done, Top(Advance(below)).left)
      && LoopOk(model, history, all, Advance(below), gaps.below, calls[..|calls| - 1], pairs,
                Cursor(events, all, Top(Advance(below))), top.state)
  {
    hide WellFormed, Carries, PathOk, CacheOk, Mirrors, IsLeft, Cursor, Reach;
    var problem := ProblemOf(model, history);
    PopStep(problem, all, path, gaps, calls, pairs);
    PopMirrors(problem, all, path, gaps);
    TakenBelow(problem, path);
    NodesGiveStep(model, history, all, Top(Below(path)));
  }

  /** What the variables of the search loop stand for. */
  datatype View<S(==), I, O> = View(
    all: seq<Node<I, O>>, path: seq<Level<S>>, gaps: Gaps<I, O>,
    words: map<array<Bitset.Word>, seq<Bitset.Word>>, pairs: set<(set<nat>, S)>)

  /** The loop invariant. */
  ghost predicate Invariant<S, I, O>(
    model: Model<S, I, O>, history: seq<Entry<I, O>>, view: View<S, I, O>,
    headEntry: Node<I, O>, linearized: array<Bitset.Word>,
    entry: Node?<I, O>, state: S, cache: Cache.Buckets<S>, calls: seq<CallsEntry<S, I, O>>)
    requires WellFormed(Events(history))
    reads view.all, linearized, view.words.Keys
  {
    && |view.path| > 0 && |view.all| > 0 && view.all[0] == headEntry
    && (forall n :: n in view.all ==> n as object != linearized)
    && LoopOk(model, history, view.all, view.path, view.gaps, calls, view.pairs, entry, state)
    && ListOk(view.gaps, view.all)
    && SetsOk(linearized, view.words, cache, view.pairs, Top(view.path).done, |history| / 2)
  }

  /** Each round caches a new pair, or shortens the path, or moves the cursor on. */
  ghost predicate Progress<S, I, O>(problem: Problem<S>, before: View<S, I, O>, after: View<S, I, O>)
    requires |before.path| > 0 && |after.path| > 0
  {
    var universe := Reach(problem, problem.Count());
    || |universe - after.pairs| < |universe - before.pairs|
    || (after.pairs == before.pairs
        && (|after.path| < |before.path|
            || (|after.path| == |before.path|
                && Top(after.path).left == Top(before.path).left
                && Top(before.path).at < Top(after.path).at <= |Top(after.path).left|)))
  }

  /** The cursor is at a call: take it if the model accepts it and the pair is new. */
  method OnCall<S(==), I, O>(
    model: Model<S, I, O>, headEntry: Node<I, O>, linearized: array<Bitset.Word>,
    entry: Node<I, O>, state: S, cache: Cache.Buckets<S>, calls: seq<CallsEntry<S, I, O>>,
    ghost history: seq<Entry<I, O>>, ghost view: View<S, I, O>)
    returns (entry': Node?<I, O>, state': S, cache': Cache.Buckets<S>, calls': seq<CallsEntry<S, I, O>>,
             ghost view': View<S, I, O>)
    requires WellFormed(Events(history)) && |view.path| > 0
    requires Invariant(model, history, view, headEntry, linearized, entry, state, cache, calls)
    requires Top(view.path).left != [] && entry.matching != null
    modifies view.all, linearized
    ensures view'.all == view.all
    ensures Invariant(model, history, view', headEntry, linearized, entry', state', cache', calls')
    ensures Progress(ProblemOf(model, history), view, view')
  {
    hide WellFormed, Carries, PathOk, CacheOk, Mirrors, CallsFollow, ListOk, SetsOk, IsLeft, Cursor, Reach;
    ghost var problem, path, gaps, pairs := ProblemOf(model, history), view.path, view.gaps, view.pairs;
    LoopStep(model, history, view.all, path, gaps, calls, pairs, entry, state);
    var matching := entry.matching;
    var (ok, newState) := model.step(state, entry.value.input, matching.value.output);
    ghost var pair := (Top(path).done + {entry.id}, newState);
    var isNew := false;
    ghost var words := view.words;
    cache' := cache;
    if ok {
      isNew, cache', words :=
        Remember(linearized, entry.id, newState, cache, words, pairs, Top(path).done, |history| / 2);
    }
    if isNew {
      ghost var deeper := Deeper(problem, Top(path));
      LoopPush(model, history, view.all, path, gaps, calls, pairs, entry, state);
      FewerLeft(Reach(problem, problem.Count()), pairs, pair);
      calls', state' := calls + [CallsEntry(entry, state)], newState;
      Descend(entry, linearized, problem, view.all, path, gaps, words, cache', pairs + {pair}, |history| / 2);
      gaps := Dug(problem.events, Top(path), gaps);
      FollowHead(problem, view.all, path + [deeper], gaps);
      entry' := headEntry.next;
      view' := View(view.all, path + [deeper], gaps, words, pairs + {pair});
    } else {
      assert ok ==> pairs + {pair} == pairs;
      LoopSkip(model, history, view.all, path, gaps, calls, pairs, entry, state);
      entry', state', calls' := entry.next, state, calls;
      view' := View(view.all, Advance(path), gaps, words, pairs);
    }
  }

  /** The cursor is at a return and some call has been taken: undo the last one. */
  method OnReturn<S(==), I, O>(
    headEntry: Node<I, O>, linearized: array<Bitset.Word>, entry: Node<I, O>, state: S,
    cache: Cache.Buckets<S>, calls: seq<CallsEntry<S, I, O>>,
    ghost model: Model<S, I, O>, ghost history: seq<Entry<I, O>>, ghost view: View<S, I, O>)
    returns (entry': Node?<I, O>, state': S, calls': seq<CallsEntry<S, I, O>>, ghost view': View<S, I, O>)
    requires WellFormed(Events(history)) && |view.path| > 0
    requires Invariant(model, history, view, headEntry, linearized, entry, state, cache, calls)
    requires Top(view.path).left != [] && entry.matching == null && |calls| > 0
    modifies view.all, linearized
    ensures view'.all == view.all
    ensures Invariant(model, history, view', headEntry, linearized, entry', state', cache, calls')
    ensures Progress(ProblemOf(model, history), view, view')
  {
    hide WellFormed, Carries, PathOk, CacheOk, Mirrors, CallsFollow, ListOk, SetsOk, IsLeft, Cursor, Reach;
    ghost var problem, path, gaps := ProblemOf(model, history), view.path, view.gaps;
    LoopStep(model, history, view.all, path, gaps, calls, view.pairs, entry, state);
    LoopPop(model, history, view.all, path, gaps, calls, view.pairs, entry, state);
    var callsTop := calls[|calls| - 1];
    entry', state', calls' := callsTop.entry, callsTop.state, calls[..|calls| - 1];
    Ascend(callsTop.entry, linearized, problem, view.all, path, gaps, view.words, cache, view.pairs, |history| / 2);
    FollowNext(problem, view.all, Below(path), gaps.below, callsTop.entry);
    entry' := callsTop.entry.next;
    view' := View(view.all, Advance(Below(path)), gaps.below, view.words, view.pairs);
  }

  /** checkSingle: is there an order of all operations that respects time and that the model
      accepts?  If so, `order` is one. */
  method CheckSingle<S(==), I, O>(model: Model<S, I, O>, history: seq<Entry<I, O>>)
    returns (ok: bool, order: seq<nat>)
    requires WellFormed(Events(history))
    ensures ok <==> Linearizable(ProblemOf(model, history))
    ensures ok ==> Completes(ProblemOf(model, history), {}, model.init, order)
  {
    hide WellFormed, Carries, PathOk, CacheOk, Mirrors, CallsFollow, ListOk, SetsOk, IsLeft, Cursor;
    hide Completes, Linearizable, Reach;
    var headEntry, entry, length;
    ghost var all;
    headEntry, entry, length, all := MakeList(history);
    var linearized := Bitset.New(length / 2);
    var cache: Cache.Buckets<S> := map[];
    var calls: seq<CallsEntry<S, I, O>> := [];
    var state := model.init;

    ghost var problem := ProblemOf(model, history);
    ghost var universe := Reach(problem, problem.Count());
    ghost var view: View<S, I, O> := View(all, Start(model.init, |history|), Whole(all), map[], {});
    LoopStart(model, history, all);
    SetsStart<S>(linearized, |history| / 2);

    while headEntry.next != null
      invariant |view.path| > 0 && view.all == all
      invariant Invariant(model, history, view, headEntry, linearized, entry, state, cache, calls)
      decreases |universe - view.pairs|, |view.path|, |Top(view.path).left| - Top(view.path).at
    {
      FollowHead(problem, view.all, view.path, view.gaps);
      LoopStep(model, history, view.all, view.path, view.gaps, calls, view.pairs, entry, state);
      if entry.matching != null {
        entry, state, cache, calls, view :=
          OnCall(model, headEntry, linearized, entry, state, cache, calls, history, view);
      } else {
        if |calls| == 0 {
          NothingToUndo(problem, view.all, view.path, view.gaps, calls, view.pairs);
          return false, [];
        }
        entry, state, calls, view := OnReturn(headEntry, linearized, entry, state, cache, calls, model, history, view);
      }
    }
    FollowHead(problem, view.all, view.path, view.gaps);
    StackIsOrder(model, history, view.all, view.path, view.gaps, calls, view.pairs, entry, state);
    return true, IdsOf(calls);
  }
}
