/** The doubly linked event list of the checker (src/porcupine/checker.go).

Nodes are unlinked by Lift and put back by Unlift, in stack order.  Every node
carries the place it has in the whole history (the sentinel has place 0), and a
linked list is described by the sequence of its nodes, in increasing places.
 */
module EventList {

  datatype Value<I, O> = Nothing | Input(input: I) | Output(output: O)

  class Node<I, O> {
    const value: Value<I, O>
    const matching: Node?<I, O>  // the return of a call; null for a return
    const id: int
    var next: Node?<I, O>
    var prev: Node?<I, O>
    ghost const place: nat

    constructor (value: Value<I, O>, matching: Node?<I, O>, id: int, ghost place: nat)
      ensures this.value == value && this.matching == matching && this.id == id
      ensures this.place == place
      ensures next == null && prev == null
    {
      this.value := value;
      this.matching := matching;
      this.id := id;
      this.next := null;
      this.prev := null;
      this.place := place;
    }
  }

  ghost predicate Increasing<I, O>(list: seq<Node<I, O>>) {
    forall j, k {:trigger list[j].place, list[k].place} ::
      0 <= j < k < |list| ==> list[j].place < list[k].place
  }

  /** The successor of the k-th node. */
  ghost function After<I, O>(list: seq<Node<I, O>>, k: nat): Node?<I, O> {
    if k + 1 < |list| then list[k + 1] else null
  }

  /** next and prev run exactly through `list`. */
  ghost predicate Linked<I, O>(list: seq<Node<I, O>>)
    reads list
  {
    && Increasing(list)
    && (forall k {:trigger list[k].next} :: 0 <= k < |list| ==> list[k].next == After(list, k))
    && (forall k {:trigger list[k].prev} :: 1 <= k < |list| ==> list[k].prev == list[k - 1])
  }

  ghost function Without<T>(list: seq<T>, a: nat): seq<T>
    requires a < |list|
  {
    list[..a] + list[a + 1..]
  }

  lemma Apart<I, O>(list: seq<Node<I, O>>, a: nat)
    requires Increasing(list) && a < |list|
    ensures forall k :: 0 <= k < |list| && k != a ==> list[k] != list[a]
  {
    forall k | 0 <= k < |list| && k != a
      ensures list[k] != list[a]
    {
      assert list[k].place != list[a].place;
    }
  }

  lemma WithoutIncreasing<I, O>(list: seq<Node<I, O>>, a: nat)
    requires Increasing(list) && a < |list|
    ensures Increasing(Without(list, a))
  {
    var rest := Without(list, a);
    forall j, k | 0 <= j < k < |rest|
      ensures rest[j].place < rest[k].place
    {
      var j', k' := if j < a then j else j + 1, if k < a then k else k + 1;
      assert rest[j] == list[j'] && rest[k] == list[k'];
      assert list[j'].place < list[k'].place;
    }
  }

  /** Half of lift: unlink one node, which keeps its own pointers. */
  method Unlink<I, O>(n: Node<I, O>, ghost list: seq<Node<I, O>>, ghost a: nat)
    requires Linked(list)
    requires 1 <= a < |list| && n == list[a]
    modifies n.prev, n.next
    ensures Linked(Without(list, a))
    ensures n.next == old(n.next) && n.prev == old(n.prev)
  {
    ghost var rest := Without(list, a);
    WithoutIncreasing(list, a);
    Apart(list, a);
    Apart(list, a - 1);
    if a + 1 < |list| {
      Apart(list, a + 1);
    }
    assert n.prev == list[a - 1] && n.next == After(list, a);
    n.prev.next := n.next;
    if n.next != null {
      n.next.prev := n.prev;
    }
    forall k | 0 <= k < |rest|
      ensures rest[k].next == After(rest, k)
    {
      var k' := if k < a then k else k + 1;
      assert rest[k] == list[k'] && old(list[k'].next) == After(list, k');
    }
    forall k | 1 <= k < |rest|
      ensures rest[k].prev == rest[k - 1]
    {
      var k' := if k < a then k else k + 1;
      assert rest[k] == list[k'] && old(list[k'].prev) == list[k' - 1];
    }
  }

  /** Half of unlift: link one node back between the neighbours it remembers. */
  method Relink<I, O>(n: Node<I, O>, ghost list: seq<Node<I, O>>, ghost a: nat)
    requires 1 <= a < |list| && Increasing(list) && n == list[a]
    requires Linked(Without(list, a))
    requires n.prev == list[a - 1] && n.next == After(list, a)
    modifies n.prev, n.next
    ensures Linked(list)
  {
    ghost var rest := Without(list, a);
    Apart(list, a);
    Apart(list, a - 1);
    if a + 1 < |list| {
      Apart(list, a + 1);
    }
    n.prev.next := n;
    if n.next != null {
      n.next.prev := n;
    }
    forall k | 0 <= k < |list|
      ensures list[k].next == After(list, k)
    {
      if k != a {
        var k' := if k < a then k else k - 1;
        assert list[k] == rest[k'] && old(rest[k'].next) == After(rest, k');
      }
    }
    forall k | 1 <= k < |list|
      ensures list[k].prev == list[k - 1]
    {
      if k > a + 1 || k < a {
        var k' := if k < a then k else k - 1;
        assert list[k] == rest[k'] && old(rest[k'].prev) == rest[k' - 1];
      }
    }
  }

  /** What a lifted call remembers: its neighbours when it was unlinked, and those of its
      return, which was unlinked second. */
  ghost predicate Remembers<I, O>(list: seq<Node<I, O>>, a: nat, b: nat)
    requires 1 <= a < b < |list|
    reads list[a], list[b]
  {
    && Increasing(list)
    && list[a].prev == list[a - 1]
    && list[a].next == After(list, a)
    && list[b].prev == Without(list, a)[b - 2]
    && list[b].next == After(list, b)
  }

  ghost function Lifted<I, O>(list: seq<Node<I, O>>, a: nat, b: nat): seq<Node<I, O>>
    requires a < b < |list|
  {
    Without(Without(list, a), b - 1)
  }

  /** lift: unlink a call, then its return. */
  method Lift<I, O>(entry: Node<I, O>, ghost list: seq<Node<I, O>>, ghost a: nat, ghost b: nat)
    requires Linked(list)
    requires 1 <= a < b < |list|
    requires entry == list[a] && entry.matching == list[b]
    modifies list
    ensures Linked(Lifted(list, a, b))
    ensures Remembers(list, a, b)
  {
    ghost var once := Without(list, a);
    assert list[a].next == After(list, a) && list[a].prev == list[a - 1];
    Apart(list, a);
    Unlink(entry, list, a);
    assert once[b - 1] == list[b];
    assert once[b - 1].next == After(once, b - 1) == After(list, b);
    assert once[b - 1].prev == once[b - 2];
    assert once[b - 2] == list[if b - 2 < a then b - 2 else b - 1];
    Unlink(entry.matching, once, b - 1);
  }

  /** unlift: put a return, then its call, back where they were. */
  method Unlift<I, O>(entry: Node<I, O>, ghost list: seq<Node<I, O>>, ghost a: nat, ghost b: nat)
    requires 1 <= a < b < |list|
    requires Remembers(list, a, b)
    requires Linked(Lifted(list, a, b))
    requires entry == list[a] && entry.matching == list[b]
    modifies list
    ensures Linked(list)
  {
    ghost var once := Without(list, a);
    WithoutIncreasing(list, a);
    Apart(list, a);
    assert once[b - 1] == list[b];
    assert After(once, b - 1) == After(list, b);
    assert once[b - 2] == list[if b - 2 < a then b - 2 else b - 1];
    Relink(entry.matching, once, b - 1);
    assert entry.prev == list[a - 1] && entry.next == After(list, a);
    Relink(entry, list, a);
  }

  // ----- lifting in stack order

  /** The whole list, with pairs lifted out of it one after the other. */
  datatype Gaps<I, O> = Whole(all: seq<Node<I, O>>) | Gap(below: Gaps<I, O>, a: nat, b: nat)

  /** The nodes still linked. */
  ghost function Rest<I, O>(gaps: Gaps<I, O>): seq<Node<I, O>> {
    match gaps
    case Whole(all) => all
    case Gap(below, a, b) => if a < b < |Rest(below)| then Lifted(Rest(below), a, b) else []
  }

  /** Each gap takes a call and its return out of what was left below it. */
  ghost predicate Sound<I, O>(gaps: Gaps<I, O>) {
    match gaps
    case Whole(all) => true
    case Gap(below, a, b) =>
      && Sound(below)
      && 1 <= a < b < |Rest(below)|
      && Increasing(Rest(below))
      && Rest(below)[a].matching == Rest(below)[b]
  }

  /** The nodes that are out of the list. */
  ghost function Taken<I, O>(gaps: Gaps<I, O>): set<Node<I, O>>
    requires Sound(gaps)
  {
    match gaps
    case Whole(all) => {}
    case Gap(below, a, b) => Taken(below) + {Rest(below)[a], Rest(below)[b]}
  }

  /** Every lifted call, and its return, remember their places. */
  ghost predicate AllRemember<I, O>(gaps: Gaps<I, O>)
    requires Sound(gaps)
    reads Taken(gaps)
  {
    match gaps
    case Whole(all) => true
    case Gap(below, a, b) => AllRemember(below) && Remembers(Rest(below), a, b)
  }

  lemma LiftedNodes<I, O>(list: seq<Node<I, O>>, a: nat, b: nat, n: Node<I, O>)
    requires a < b < |list| && Increasing(list) && n in Lifted(list, a, b)
    ensures n in list && n != list[a] && n != list[b]
  {
    var once, twice := Without(list, a), Lifted(list, a, b);
    var k :| 0 <= k < |twice| && twice[k] == n;
    var j := if k < b - 1 then k else k + 1;
    assert n == once[j];
    var i := if j < a then j else j + 1;
    assert n == list[i];
    Apart(list, a);
    Apart(list, b);
  }

  /** What is out of the list is not in it. */
  lemma {:induction false} TakenIsOut<I, O>(gaps: Gaps<I, O>, n: Node<I, O>)
    requires Sound(gaps) && n in Rest(gaps)
    ensures n !in Taken(gaps)
  {
    match gaps
    case Whole(all) =>
    case Gap(below, a, b) =>
      LiftedNodes(Rest(below), a, b, n);
      TakenIsOut(below, n);
  }

  /** lift on top of the gaps made so far. */
  method LiftNext<I, O>(entry: Node<I, O>, ghost gaps: Gaps<I, O>, ghost a: nat, ghost b: nat,
                        ghost taken: set<Node<I, O>>)
    requires Sound(Gap(gaps, a, b)) && entry == Rest(gaps)[a] && taken == Taken(gaps)
    requires Linked(Rest(gaps)) && AllRemember(gaps)
    modifies Rest(gaps)
    ensures Linked(Rest(Gap(gaps, a, b))) && AllRemember(Gap(gaps, a, b))
  {
    ghost var list := Rest(gaps);
    forall n | n in list
      ensures n !in taken
    {
      TakenIsOut(gaps, n);
    }
    Lift(entry, list, a, b);
    assert forall n :: n in taken ==> unchanged(n);
    assert AllRemember(gaps) == old(AllRemember(gaps));
  }

  /** unlift the last gap made. */
  method UnliftLast<I, O>(entry: Node<I, O>, ghost gaps: Gaps<I, O>, ghost taken: set<Node<I, O>>)
    requires Sound(gaps) && gaps.Gap? && entry == Rest(gaps.below)[gaps.a] && taken == Taken(gaps.below)
    requires Linked(Rest(gaps)) && AllRemember(gaps)
    modifies Rest(gaps.below)
    ensures Linked(Rest(gaps.below)) && AllRemember(gaps.below)
  {
    ghost var list := Rest(gaps.below);
    forall n | n in list
      ensures n !in taken
    {
      TakenIsOut(gaps.below, n);
    }
    Unlift(entry, list, gaps.a, gaps.b);
    assert forall n :: n in taken ==> unchanged(n);
    assert AllRemember(gaps.below) == old(AllRemember(gaps.below));
  }
}
