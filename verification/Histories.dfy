/** Event histories and what it means for one to be linearizable
(src/porcupine/model.go, src/porcupine/checker.go). */
module Histories {

  /** The call or the return of the operation `id`. */
  datatype Event = Call(id: nat) | Return(id: nat)

  /** A history of events, and how the sequential model judges its operations: the initial
      state, and whether operation `id` may run in a state, with the state it leaves. */
  datatype Problem<!S> = Problem(events: seq<Event>, init: S, step: (S, nat) -> (bool, S)) {
    function Count(): nat {
      |events| / 2
    }
  }

  ghost predicate IsCall(events: seq<Event>, p: nat, id: nat) {
    p < |events| && events[p] == Call(id)
  }

  ghost predicate IsReturn(events: seq<Event>, p: nat, id: nat) {
    p < |events| && events[p] == Return(id)
  }

  ghost predicate HasBoth(events: seq<Event>, id: nat) {
    (exists p :: IsCall(events, p, id)) && (exists p :: IsReturn(events, p, id))
  }

  /** Ids count up from 0, and each id has one call and, later, one return. */
  ghost predicate WellFormed(events: seq<Event>) {
    && |events| % 2 == 0
    && (forall p :: 0 <= p < |events| ==> events[p].id < |events| / 2)
    && (forall id: nat :: id < |events| / 2 ==> HasBoth(events, id))
    && (forall p, q, id :: IsCall(events, p, id) && IsCall(events, q, id) ==> p == q)
    && (forall p, q, id :: IsReturn(events, p, id) && IsReturn(events, q, id) ==> p == q)
    && (forall p, q, id :: IsCall(events, p, id) && IsReturn(events, q, id) ==> p < q)
  }

  ghost function CallAt(events: seq<Event>, id: nat): (p: nat)
    requires WellFormed(events) && id < |events| / 2
    ensures IsCall(events, p, id)
  {
    assert HasBoth(events, id);
    var p :| IsCall(events, p, id);
    p
  }

  ghost function ReturnAt(events: seq<Event>, id: nat): (p: nat)
    requires WellFormed(events) && id < |events| / 2
    ensures IsReturn(events, p, id)
  {
    assert HasBoth(events, id);
    var p :| IsReturn(events, p, id);
    p
  }

  /** Operation j returned before operation i was called. */
  ghost predicate Precedes(events: seq<Event>, j: nat, i: nat)
    requires WellFormed(events) && j < |events| / 2 && i < |events| / 2
  {
    ReturnAt(events, j) < CallAt(events, i)
  }

  // ----- linearizability

  ghost predicate NoRepeats<T>(s: seq<T>) {
    forall a, b :: 0 <= a < b < |s| ==> s[a] != s[b]
  }

  ghost function Ids(n: nat): (ids: set<nat>)
    ensures |ids| == n
    ensures forall i: nat :: i in ids <==> i < n
  {
    if n == 0 then {} else Ids(n - 1) + {n - 1}
  }

  ghost function Elements<T>(s: seq<T>): set<T> {
    set x | x in s
  }

  /** No operation is placed before one that had already returned when it was called. */
  ghost predicate RespectsTime(events: seq<Event>, order: seq<nat>)
    requires WellFormed(events)
  {
    && (forall a :: 0 <= a < |order| ==> order[a] < |events| / 2)
    && (forall a, b :: 0 <= a < b < |order| ==> !Precedes(events, order[b], order[a]))
  }

  /** The model takes the operations one after the other, starting in `state`. */
  ghost predicate Accepted<S>(problem: Problem<S>, state: S, order: seq<nat>) {
    order == [] ||
    var (ok, next) := problem.step(state, order[0]);
    ok && Accepted(problem, next, order[1..])
  }

  /** `order` places exactly the operations outside `done`, legally from `state` on. */
  ghost predicate Completes<S>(problem: Problem<S>, done: set<nat>, state: S, order: seq<nat>)
    requires WellFormed(problem.events)
  {
    && NoRepeats(order)
    && Elements(order) == Ids(problem.Count()) - done
    && RespectsTime(problem.events, order)
    && Accepted(problem, state, order)
  }

  ghost predicate Linearizable<S>(problem: Problem<S>)
    requires WellFormed(problem.events)
  {
    exists order :: Completes(problem, {}, problem.init, order)
  }

  // ----- the same by choosing one operation at a time

  /** Operation i may go next: none of the remaining ones returned before its call. */
  ghost predicate Free(events: seq<Event>, done: set<nat>, i: nat)
    requires WellFormed(events)
  {
    && i < |events| / 2
    && i !in done
    && (forall j: nat :: j < |events| / 2 && j !in done ==> !Precedes(events, j, i))
  }

  ghost predicate Completable<S>(problem: Problem<S>, done: set<nat>, state: S)
    requires WellFormed(problem.events)
    decreases Ids(problem.Count()) - done
  {
    || Ids(problem.Count()) <= done
    || exists i: nat ::
         && Free(problem.events, done, i)
         && problem.step(state, i).0
         && Completable(problem, done + {i}, problem.step(state, i).1)
  }

  lemma FreeOperationFirst<S>(problem: Problem<S>, done: set<nat>, state: S, i: nat, rest: seq<nat>)
    requires WellFormed(problem.events)
    requires Free(problem.events, done, i) && problem.step(state, i).0
    requires Completes(problem, done + {i}, problem.step(state, i).1, rest)
    ensures Completes(problem, done, state, [i] + rest)
  {
    var order := [i] + rest;
    forall b | 0 <= b < |rest|
      ensures rest[b] != i && rest[b] !in done
    {
      assert rest[b] in Elements(rest);
    }
    assert Elements(order) == {i} + Elements(rest);
    assert order[1..] == rest;
    assert RespectsTime(problem.events, order) by {
      forall a, b | 0 <= a < b < |order|
        ensures !Precedes(problem.events, order[b], order[a])
      {
        assert order[b] == rest[b - 1];
        assert a != 0 ==> order[a] == rest[a - 1];
      }
    }
  }

  lemma {:induction false} CompletableHasOrder<S>(problem: Problem<S>, done: set<nat>, state: S)
    returns (order: seq<nat>)
    requires WellFormed(problem.events)
    requires Completable(problem, done, state)
    ensures Completes(problem, done, state, order)
    decreases Ids(problem.Count()) - done
  {
    if Ids(problem.Count()) <= done {
      order := [];
    } else {
      var i: nat :|
        && Free(problem.events, done, i)
        && problem.step(state, i).0
        && Completable(problem, done + {i}, problem.step(state, i).1);
      var rest := CompletableHasOrder(problem, done + {i}, problem.step(state, i).1);
      FreeOperationFirst(problem, done, state, i, rest);
      order := [i] + rest;
    }
  }

  lemma FirstIsFree(events: seq<Event>, done: set<nat>, order: seq<nat>)
    requires WellFormed(events) && order != []
    requires Elements(order) == Ids(|events| / 2) - done
    requires RespectsTime(events, order)
    ensures Free(events, done, order[0])
  {
    var i := order[0];
    assert i in Elements(order);
    forall j: nat | j < |events| / 2 && j !in done
      ensures !Precedes(events, j, i)
    {
      assert j in Elements(order);
      var b :| 0 <= b < |order| && order[b] == j;
      assert IsCall(events, CallAt(events, i), i) && IsReturn(events, ReturnAt(events, i), i);
    }
  }

  lemma RestElements(order: seq<nat>)
    requires NoRepeats(order) && order != []
    ensures Elements(order[1..]) == Elements(order) - {order[0]}
  {
    assert order == [order[0]] + order[1..];
    forall b | 0 <= b < |order[1..]|
      ensures order[1..][b] != order[0]
    {
      assert order[1..][b] == order[b + 1];
    }
  }

  lemma {:induction false} OrderCompletes<S>(problem: Problem<S>, done: set<nat>, state: S, order: seq<nat>)
    requires WellFormed(problem.events)
    requires Completes(problem, done, state, order)
    ensures Completable(problem, done, state)
    decreases |order|
  {
    if order == [] {
      assert Elements(order) == {};
      assert Ids(problem.Count()) <= done;
    } else {
      FirstIsFree(problem.events, done, order);
      RestElements(order);
      OrderCompletes(problem, done + {order[0]}, problem.step(state, order[0]).1, order[1..]);
    }
  }

  /** Choosing free operations one by one finds an order exactly when one exists. */
  lemma LinearizableIffCompletable<S>(problem: Problem<S>)
    requires WellFormed(problem.events)
    ensures Linearizable(problem) <==> Completable(problem, {}, problem.init)
  {
    if Completable(problem, {}, problem.init) {
      var order := CompletableHasOrder(problem, {}, problem.init);
    }
    if order :| Completes(problem, {}, problem.init, order) {
      OrderCompletes(problem, {}, problem.init, order);
    }
  }
}
