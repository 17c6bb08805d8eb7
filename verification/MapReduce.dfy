/** The distributed MapReduce pipeline means the same as the sequential program
(src/mr/worker.go:111-255, src/main/mrsequential.go:26-86). */
module MapReduce {
  import opened KvModel
  import Sorting

  datatype KeyValue = KeyValue(key: string, value: string)

  /** A line of output. */
  datatype Line = Line(key: string, output: string)

  datatype File = File(name: string, content: string)

  type MapF = (string, string) -> seq<KeyValue>
  type ReduceF = (string, seq<string>) -> string
  type Hash = string -> nat

  /** The reduce function does not look at the order of the values. */
  ghost predicate OrderInsensitive(reducef: ReduceF) {
    forall key, a, b :: multiset(a) == multiset(b) ==> reducef(key, a) == reducef(key, b)
  }

  /** The values of a key, in their order. */
  function Values(kvs: seq<KeyValue>, key: string): seq<string> {
    if kvs == [] then []
    else (if kvs[0].key == key then [kvs[0].value] else []) + Values(kvs[1..], key)
  }

  ghost predicate HasKey(kvs: seq<KeyValue>, key: string) {
    exists i :: 0 <= i < |kvs| && kvs[i].key == key
  }

  ghost predicate HasLine(lines: seq<Line>, key: string) {
    exists i :: 0 <= i < |lines| && lines[i].key == key
  }

  ghost predicate OneLineEach(lines: seq<Line>) {
    forall i, j :: 0 <= i < j < |lines| ==> lines[i].key != lines[j].key
  }

  /** Every line is for one of the keys, reduced with all the values of that key. */
  ghost predicate Reduced(reducef: ReduceF, lines: seq<Line>, keys: seq<KeyValue>, kvs: seq<KeyValue>) {
    forall i :: 0 <= i < |lines| ==>
      HasKey(keys, lines[i].key) && lines[i].output == reducef(lines[i].key, Values(kvs, lines[i].key))
  }

  ghost predicate Covers(lines: seq<Line>, kvs: seq<KeyValue>) {
    forall k :: 0 <= k < |kvs| ==> HasLine(lines, kvs[k].key)
  }

  /** What a run should produce: one line for each distinct key, reduced with all its values. */
  ghost predicate IsOutput(reducef: ReduceF, lines: seq<Line>, kvs: seq<KeyValue>) {
    OneLineEach(lines) && Reduced(reducef, lines, kvs, kvs) && Covers(lines, kvs)
  }

  // ----- the grouping loop

  predicate KeyLess(a: KeyValue, b: KeyValue) {
    StringLess(a.key, b.key)
  }

  lemma KeysOrdered()
    ensures Sorting.StrictWeakOrder(KeyLess)
  {
    StringsOrdered();
    forall a, b, c | !KeyLess(b, a) && !KeyLess(c, b)
      ensures !KeyLess(c, a)
    {
      NotLessTransitive(a.key, b.key, c.key);
    }
    forall a, b | KeyLess(a, b)
      ensures !KeyLess(b, a)
    {
      StringLessAsymmetric(a.key, b.key);
    }
  }

  /** Equal keys of a sorted sequence are next to each other. */
  lemma SortedIsGrouped(kva: seq<KeyValue>, i: nat, j: nat, k: nat)
    requires Sorting.Sorted(KeyLess, kva) && i <= j <= k < |kva| && kva[i].key == kva[k].key
    ensures kva[j].key == kva[i].key
  {
    if i < j < k {
      assert !KeyLess(kva[j], kva[i]) && !KeyLess(kva[k], kva[j]);
      NeitherLessIsEqual(kva[i].key, kva[j].key);
    }
  }

  lemma {:induction false} NoValues(kvs: seq<KeyValue>, key: string)
    requires !HasKey(kvs, key)
    ensures Values(kvs, key) == []
    decreases |kvs|
  {
    if kvs != [] {
      assert kvs[0].key != key;
      forall i | 0 <= i < |kvs[1..]|
        ensures kvs[1..][i].key != key
      {
        assert kvs[1..][i] == kvs[i + 1];
      }
      NoValues(kvs[1..], key);
    }
  }

  lemma {:induction false} ValuesAppend(a: seq<KeyValue>, b: seq<KeyValue>, key: string)
    ensures Values(a + b, key) == Values(a, key) + Values(b, key)
    decreases |a|
  {
    if a == [] {
      assert a + b == b;
    } else {
      assert (a + b)[1..] == a[1..] + b;
      ValuesAppend(a[1..], b, key);
    }
  }

  lemma ValuesSplit(kva: seq<KeyValue>, i: nat, j: nat, key: string)
    requires i <= j <= |kva|
    ensures Values(kva, key) == Values(kva[..i], key) + Values(kva[i..j], key) + Values(kva[j..], key)
  {
    hide Values;
    assert kva == kva[..i] + kva[i..j] + kva[j..];
    ValuesAppend(kva[..i] + kva[i..j], kva[j..], key);
    ValuesAppend(kva[..i], kva[i..j], key);
  }

  /** The values of a key that fills exactly the places from i to j. */
  lemma ValuesOfGroup(kva: seq<KeyValue>, i: nat, j: nat, values: seq<string>)
    requires i < j <= |kva| && |values| == j - i
    requires forall l :: 0 <= l < j - i ==> kva[i..j][l].key == kva[i].key && kva[i..j][l].value == values[l]
    requires !HasKey(kva[..i], kva[i].key) && !HasKey(kva[j..], kva[i].key)
    ensures Values(kva, kva[i].key) == values
  {
    hide Values, HasKey;
    var key := kva[i].key;
    ValuesSplit(kva, i, j, key);
    NoValues(kva[..i], key);
    NoValues(kva[j..], key);
    AllValues(kva[i..j], key, values);
  }

  lemma AbsentKey(kvs: seq<KeyValue>, key: string)
    requires forall k :: 0 <= k < |kvs| ==> kvs[k].key != key
    ensures !HasKey(kvs, key)
  {}

  lemma {:induction false} AllValues(kvs: seq<KeyValue>, key: string, values: seq<string>)
    requires |values| == |kvs| && forall k :: 0 <= k < |kvs| ==> kvs[k].key == key && kvs[k].value == values[k]
    ensures Values(kvs, key) == values
    decreases |kvs|
  {
    if kvs != [] {
      AllValues(kvs[1..], key, values[1..]);
      assert values == [values[0]] + values[1..];
    }
  }

  /** One line per group of equal keys of what has been looked at. */
  ghost predicate OutputSoFar(reducef: ReduceF, lines: seq<Line>, kva: seq<KeyValue>, i: nat)
    requires i <= |kva|
  {
    OneLineEach(lines) && Reduced(reducef, lines, kva[..i], kva) && Covers(lines, kva[..i])
  }

  lemma HasKeyLonger(kva: seq<KeyValue>, i: nat, j: nat, key: string)
    requires i <= j <= |kva| && HasKey(kva[..i], key)
    ensures HasKey(kva[..j], key)
  {
    var k :| 0 <= k < |kva[..i]| && kva[..i][k].key == key;
    assert kva[..j][k].key == key;
  }

  lemma HasLineLonger(lines: seq<Line>, line: Line, key: string)
    requires HasLine(lines, key) || line.key == key
    ensures HasLine(lines + [line], key)
  {
    if HasLine(lines, key) {
      var i :| 0 <= i < |lines| && lines[i].key == key;
      assert (lines + [line])[i].key == key;
    } else {
      assert (lines + [line])[|lines|].key == key;
    }
  }

  lemma OutputNext(reducef: ReduceF, lines: seq<Line>, kva: seq<KeyValue>, i: nat, j: nat)
    requires i < j <= |kva| && OutputSoFar(reducef, lines, kva, i)
    requires forall k :: i <= k < j ==> kva[k].key == kva[i].key
    requires forall k :: 0 <= k < i ==> kva[k].key != kva[i].key
    ensures OutputSoFar(reducef, lines + [Line(kva[i].key, reducef(kva[i].key, Values(kva, kva[i].key)))], kva, j)
  {
    hide HasLine, Values;
    var line := Line(kva[i].key, reducef(kva[i].key, Values(kva, kva[i].key)));
    var lines' := lines + [line];
    assert kva[..j][i].key == line.key;
    forall a | 0 <= a < |lines|
      ensures HasKey(kva[..j], lines[a].key) && lines[a].key != line.key
    {
      HasKeyLonger(kva, i, j, lines[a].key);
    }
    forall k | 0 <= k < |kva[..j]|
      ensures HasLine(lines', kva[..j][k].key)
    {
      assert k < i ==> kva[..i][k] == kva[..j][k];
      HasLineLonger(lines, line, kva[..j][k].key);
    }
  }

  method CollectValues(kva: seq<KeyValue>, i: nat, j: nat) returns (values: seq<string>)
    requires i <= j <= |kva|
    ensures |values| == j - i && forall l :: 0 <= l < j - i ==> values[l] == kva[i..j][l].value
  {
    values := [];
    for k := i to j
      invariant |values| == k - i
      invariant forall l :: 0 <= l < k - i ==> values[l] == kva[i..j][l].value
    {
      assert kva[k] == kva[i..j][k - i];
      values := values + [kva[k].value];
    }
  }

  method EndOfGroup(kva: seq<KeyValue>, i: nat) returns (j: nat)
    requires i < |kva|
    ensures i < j <= |kva| && (j < |kva| ==> kva[j].key != kva[i].key)
    ensures forall k :: i <= k < j ==> kva[k].key == kva[i].key
  {
    j := i + 1;
    while j < |kva| && kva[j].key == kva[i].key
      invariant i < j <= |kva|
      invariant forall k :: i <= k < j ==> kva[k].key == kva[i].key
    {
      j := j + 1;
    }
  }

  /** One group: where it ends, and the values in it. */
  method NextGroup(kva: seq<KeyValue>, i: nat) returns (j: nat, values: seq<string>)
    requires i < |kva| && Sorting.Sorted(KeyLess, kva) && (i > 0 ==> kva[i - 1].key != kva[i].key)
    ensures i < j <= |kva| && (j < |kva| ==> kva[j - 1].key != kva[j].key)
    ensures forall k :: i <= k < j ==> kva[k].key == kva[i].key
    ensures forall k :: 0 <= k < i ==> kva[k].key != kva[i].key
    ensures values == Values(kva, kva[i].key)
  {
    hide Values, HasKey, Sorting.Sorted;
    j := EndOfGroup(kva, i);
    values := CollectValues(kva, i, j);
    GroupBounds(kva, i, j);
    AbsentKey(kva[..i], kva[i].key);
    AbsentKey(kva[j..], kva[i].key);
    GroupKeys(kva, i, j);
    ValuesOfGroup(kva, i, j, values);
  }

  lemma GroupKeys(kva: seq<KeyValue>, i: nat, j: nat)
    requires i < j <= |kva| && forall k :: i <= k < j ==> kva[k].key == kva[i].key
    ensures forall l :: 0 <= l < j - i ==> kva[i..j][l].key == kva[i].key
  {
    forall l | 0 <= l < j - i
      ensures kva[i..j][l].key == kva[i].key
    {
      assert kva[i..j][l] == kva[i + l];
    }
  }

  /** Sorts by key and reduces each group: the loop of mrsequential and of do_reducef. */
  method SortAndReduce(reducef: ReduceF, kvs: seq<KeyValue>) returns (lines: seq<Line>)
    requires OrderInsensitive(reducef)
    ensures IsOutput(reducef, lines, kvs)
  {
    hide OrderInsensitive, OutputSoFar, IsOutput, Values, Sorting.Sorted;
    KeysOrdered();
    var kva := Sorting.Sort(KeyLess, kvs);
    lines := [];
    var i := 0;
    NoOutputYet(reducef, kva);
    while i < |kva|
      invariant 0 <= i <= |kva|
      invariant OutputSoFar(reducef, lines, kva, i)
      invariant 0 < i < |kva| ==> kva[i - 1].key != kva[i].key
    {
      var j, values := NextGroup(kva, i);
      OutputNext(reducef, lines, kva, i, j);
      lines := lines + [Line(kva[i].key, reducef(kva[i].key, values))];
      i := j;
    }
    OutputOfAll(reducef, lines, kva);
    OutputOfSame(reducef, lines, kva, kvs);
  }

  lemma NoOutputYet(reducef: ReduceF, kva: seq<KeyValue>)
    ensures OutputSoFar(reducef, [], kva, 0)
  {}

  lemma GroupBounds(kva: seq<KeyValue>, i: nat, j: nat)
    requires Sorting.Sorted(KeyLess, kva) && i < j <= |kva|
    requires i > 0 ==> kva[i - 1].key != kva[i].key
    requires j < |kva| ==> kva[j].key != kva[i].key
    ensures forall k :: 0 <= k < |kva| && !(i <= k < j) ==> kva[k].key != kva[i].key
  {
    forall k | 0 <= k < |kva| && !(i <= k < j)
      ensures kva[k].key != kva[i].key
    {
      if kva[k].key == kva[i].key {
        if k < i {
          SortedIsGrouped(kva, k, i - 1, i);
        } else {
          SortedIsGrouped(kva, i, j, k);
        }
      }
    }
  }

  lemma OutputOfAll(reducef: ReduceF, lines: seq<Line>, kva: seq<KeyValue>)
    requires OutputSoFar(reducef, lines, kva, |kva|)
    ensures IsOutput(reducef, lines, kva)
  {
    assert kva[..|kva|] == kva;
  }

  // ----- rearranging

  lemma {:induction false} ValuesCount(kvs: seq<KeyValue>, key: string, v: string)
    ensures multiset(Values(kvs, key))[v] == multiset(kvs)[KeyValue(key, v)]
    decreases |kvs|
  {
    if kvs != [] {
      ValuesCount(kvs[1..], key, v);
      assert kvs == [kvs[0]] + kvs[1..];
    }
  }

  lemma SameValues(a: seq<KeyValue>, b: seq<KeyValue>, key: string)
    requires multiset(a) == multiset(b)
    ensures multiset(Values(a, key)) == multiset(Values(b, key))
  {
    forall v
      ensures multiset(Values(a, key))[v] == multiset(Values(b, key))[v]
    {
      ValuesCount(a, key, v);
      ValuesCount(b, key, v);
    }
  }

  lemma SameElements(a: seq<KeyValue>, b: seq<KeyValue>, i: nat) returns (j: nat)
    requires multiset(a) == multiset(b) && i < |a|
    ensures j < |b| && b[j] == a[i]
  {
    assert a[i] in multiset(a);
    assert a[i] in b;
    j :| 0 <= j < |b| && b[j] == a[i];
  }

  /** The output depends only on which pairs there are, not on their order. */
  lemma OutputOfSame(reducef: ReduceF, lines: seq<Line>, a: seq<KeyValue>, b: seq<KeyValue>)
    requires OrderInsensitive(reducef) && IsOutput(reducef, lines, a) && multiset(a) == multiset(b)
    ensures IsOutput(reducef, lines, b)
  {
    forall i | 0 <= i < |lines|
      ensures HasKey(b, lines[i].key) && lines[i].output == reducef(lines[i].key, Values(b, lines[i].key))
    {
      var k :| 0 <= k < |a| && a[k].key == lines[i].key;
      var j := SameElements(a, b, k);
      SameValues(a, b, lines[i].key);
    }
    forall k | 0 <= k < |b|
      ensures HasLine(lines, b[k].key)
    {
      var j := SameElements(b, a, k);
      assert HasLine(lines, a[j].key);
    }
  }

  // ----- the sequential program

  function Intermediate(mapf: MapF, files: seq<File>): seq<KeyValue> {
    if files == [] then []
    else Intermediate(mapf, files[..|files| - 1])
         + mapf(files[|files| - 1].name, files[|files| - 1].content)
  }

  /** The pairs of each file come right after those of the files before it. */
  lemma {:induction false} EveryFileIsMapped(mapf: MapF, files: seq<File>, i: nat)
    requires i < |files|
    ensures Intermediate(mapf, files[..i]) + mapf(files[i].name, files[i].content) <= Intermediate(mapf, files)
    ensures i == |files| - 1 ==>
              Intermediate(mapf, files[..i]) + mapf(files[i].name, files[i].content) == Intermediate(mapf, files)
    decreases |files|
  {
    var n := |files| - 1;
    if i < n {
      EveryFileIsMapped(mapf, files[..n], i);
      assert files[..n][..i] == files[..i];
    }
  }

  /** mrsequential */
  method Sequential(mapf: MapF, reducef: ReduceF, files: seq<File>) returns (lines: seq<Line>)
    requires OrderInsensitive(reducef)
    ensures IsOutput(reducef, lines, Intermediate(mapf, files))
  {
    var intermediate := [];
    for i := 0 to |files|
      invariant intermediate == Intermediate(mapf, files[..i])
    {
      assert files[..i + 1][..i] == files[..i];
      intermediate := intermediate + mapf(files[i].name, files[i].content);
    }
    assert files[..|files|] == files;
    lines := SortAndReduce(reducef, intermediate);
  }

  // ----- the workers

  /** The pairs for one reduce task. */
  function Bucket(hash: Hash, n: nat, r: nat, kvs: seq<KeyValue>): seq<KeyValue>
    requires n > 0
  {
    if kvs == [] then []
    else
      var m := |kvs| - 1;
      Bucket(hash, n, r, kvs[..m]) + if hash(kvs[m].key) % n == r then [kvs[m]] else []
  }

  lemma {:induction false} BucketCount(hash: Hash, n: nat, r: nat, kvs: seq<KeyValue>, x: KeyValue)
    requires n > 0
    ensures multiset(Bucket(hash, n, r, kvs))[x] == if hash(x.key) % n == r then multiset(kvs)[x] else 0
    decreases |kvs|
  {
    if kvs != [] {
      var m := |kvs| - 1;
      BucketCount(hash, n, r, kvs[..m], x);
      assert kvs == kvs[..m] + [kvs[m]];
    }
  }

  lemma BucketOfSame(hash: Hash, n: nat, r: nat, a: seq<KeyValue>, b: seq<KeyValue>)
    requires n > 0 && multiset(a) == multiset(b)
    ensures multiset(Bucket(hash, n, r, a)) == multiset(Bucket(hash, n, r, b))
  {
    forall x: KeyValue
      ensures multiset(Bucket(hash, n, r, a))[x] == multiset(Bucket(hash, n, r, b))[x]
    {
      BucketCount(hash, n, r, a, x);
      BucketCount(hash, n, r, b, x);
    }
  }

  lemma BucketAppend(hash: Hash, n: nat, r: nat, a: seq<KeyValue>, b: seq<KeyValue>)
    requires n > 0
    ensures multiset(Bucket(hash, n, r, a + b)) ==
            multiset(Bucket(hash, n, r, a)) + multiset(Bucket(hash, n, r, b))
  {
    forall x: KeyValue
      ensures multiset(Bucket(hash, n, r, a + b))[x] ==
              multiset(Bucket(hash, n, r, a))[x] + multiset(Bucket(hash, n, r, b))[x]
    {
      BucketCount(hash, n, r, a + b, x);
      BucketCount(hash, n, r, a, x);
      BucketCount(hash, n, r, b, x);
    }
  }

  /** do_mapf: one bucket per reduce task. */
  method DoMap(mapf: MapF, hash: Hash, n: nat, file: File) returns (buckets: seq<seq<KeyValue>>)
    requires n > 0
    ensures |buckets| == n
    ensures forall r :: 0 <= r < n ==>
      multiset(buckets[r]) == multiset(Bucket(hash, n, r, mapf(file.name, file.content)))
  {
    hide Bucket, Sorting.Sorted, Sorting.StrictWeakOrder;
    KeysOrdered();
    var mapped := mapf(file.name, file.content);
    var kvs := Sorting.Sort(KeyLess, mapped);
    buckets := [];
    for r := 0 to n
      invariant |buckets| == r
      invariant forall q :: 0 <= q < r ==> multiset(buckets[q]) == multiset(Bucket(hash, n, q, mapped))
    {
      var bucket := SplitOff(hash, n, r, kvs);
      BucketOfSame(hash, n, r, kvs, mapped);
      buckets := buckets + [bucket];
    }
  }

  method SplitOff(hash: Hash, n: nat, r: nat, kvs: seq<KeyValue>) returns (bucket: seq<KeyValue>)
    requires n > 0
    ensures bucket == Bucket(hash, n, r, kvs)
  {
    bucket := [];
    for k := 0 to |kvs|
      invariant bucket == Bucket(hash, n, r, kvs[..k])
    {
      assert kvs[..k + 1][..k] == kvs[..k];
      if hash(kvs[k].key) % n == r {
        bucket := bucket + [kvs[k]];
      }
    }
    assert kvs[..|kvs|] == kvs;
  }

  /** The files of one reduce task, in the order in which they are found. */
  function Gather(parts: seq<seq<KeyValue>>, order: seq<nat>): seq<KeyValue>
    requires forall i :: 0 <= i < |order| ==> order[i] < |parts|
  {
    if order == [] then [] else Gather(parts, order[..|order| - 1]) + parts[order[|order| - 1]]
  }

  /** do_reducef */
  method DoReduce(reducef: ReduceF, parts: seq<seq<KeyValue>>, order: seq<nat>) returns (lines: seq<Line>)
    requires OrderInsensitive(reducef) && forall i :: 0 <= i < |order| ==> order[i] < |parts|
    ensures IsOutput(reducef, lines, Gather(parts, order))
  {
    var kva := [];
    for i := 0 to |order|
      invariant kva == Gather(parts, order[..i])
    {
      assert order[..i + 1][..i] == order[..i];
      kva := kva + parts[order[i]];
    }
    assert order[..|order|] == order;
    lines := SortAndReduce(reducef, kva);
  }

  // ----- each reduce task gets its bucket of everything

  lemma GatherSplit(parts: seq<seq<KeyValue>>, a: seq<nat>, b: seq<nat>)
    requires b != []
    requires forall i :: 0 <= i < |a| ==> a[i] < |parts|
    requires forall i :: 0 <= i < |b| ==> b[i] < |parts|
    ensures Gather(parts, a + b) == Gather(parts, a + b[..|b| - 1]) + parts[b[|b| - 1]]
  {
    assert (a + b)[..|a + b| - 1] == a + b[..|b| - 1];
  }

  lemma GatherNone(parts: seq<seq<KeyValue>>)
    ensures Gather(parts, []) == []
  {}

  lemma {:induction false} GatherAppend(parts: seq<seq<KeyValue>>, a: seq<nat>, b: seq<nat>)
    requires forall i :: 0 <= i < |a| ==> a[i] < |parts|
    requires forall i :: 0 <= i < |b| ==> b[i] < |parts|
    ensures Gather(parts, a + b) == Gather(parts, a) + Gather(parts, b)
    decreases |b|
  {
    hide Gather;
    if b == [] {
      assert a + b == a;
      GatherNone(parts);
    } else {
      var n := |b| - 1;
      GatherAppend(parts, a, b[..n]);
      GatherSplit(parts, a, b);
      GatherSplit(parts, [], b);
      assert [] + b == b && [] + b[..n] == b[..n];
    }
  }

  lemma GatherOne(parts: seq<seq<KeyValue>>, x: nat)
    requires x < |parts|
    ensures Gather(parts, [x]) == parts[x]
  {
    assert [x][..0] == [];
    assert Gather(parts, [x]) == Gather(parts, []) + parts[x];
  }

  lemma GatherWithout(parts: seq<seq<KeyValue>>, b: seq<nat>, j: nat)
    requires j < |b| && forall i :: 0 <= i < |b| ==> b[i] < |parts|
    ensures multiset(Gather(parts, b)) == multiset(Gather(parts, b[..j] + b[j + 1..])) + multiset(parts[b[j]])
  {
    hide Gather;
    var before, here, after := b[..j], [b[j]], b[j + 1..];
    assert b == before + here + after;
    GatherAppend(parts, before + here, after);
    GatherAppend(parts, before, here);
    GatherAppend(parts, before, after);
    GatherOne(parts, b[j]);
  }

  lemma Find(a: seq<nat>, b: seq<nat>) returns (j: nat)
    requires a != [] && multiset(a) == multiset(b)
    ensures j < |b| && b[j] == a[|a| - 1]
    ensures multiset(a[..|a| - 1]) == multiset(b[..j] + b[j + 1..])
  {
    var n := |a| - 1;
    var x := a[n];
    assert x in multiset(a);
    assert x in b;
    j :| 0 <= j < |b| && b[j] == x;
    assert a == a[..n] + [x];
    assert multiset(a[..n]) == multiset(a) - multiset{x};
    assert b == b[..j] + [x] + b[j + 1..];
    assert multiset(b[..j] + b[j + 1..]) == multiset(b) - multiset{x};
  }

  /** The order in which files are found does not matter. */
  lemma {:induction false} GatherOfSame(parts: seq<seq<KeyValue>>, a: seq<nat>, b: seq<nat>)
    requires multiset(a) == multiset(b)
    requires forall i :: 0 <= i < |a| ==> a[i] < |parts|
    requires forall i :: 0 <= i < |b| ==> b[i] < |parts|
    ensures multiset(Gather(parts, a)) == multiset(Gather(parts, b))
    decreases |a|
  {
    if a == [] {
      assert |multiset(b)| == 0;
    } else {
      var j := Find(a, b);
      GatherOfSame(parts, a[..|a| - 1], b[..j] + b[j + 1..]);
      GatherWithout(parts, b, j);
    }
  }

  function Upto(n: nat): (all: seq<nat>)
    ensures |all| == n && forall i :: 0 <= i < n ==> all[i] == i
  {
    seq(n, i requires 0 <= i < n => i)
  }

  lemma NoBucket(hash: Hash, n: nat, r: nat)
    requires n > 0
    ensures Bucket(hash, n, r, []) == []
  {}

  /** All the parts of a reduce task are its bucket of all intermediate pairs. */
  lemma {:induction false} PartsAreBucket(
    mapf: MapF, hash: Hash, n: nat, r: nat, files: seq<File>, parts: seq<seq<KeyValue>>, m: nat)
    requires n > 0 && m <= |files| == |parts|
    requires forall i :: 0 <= i < |files| ==>
      multiset(parts[i]) == multiset(Bucket(hash, n, r, mapf(files[i].name, files[i].content)))
    ensures multiset(Gather(parts, Upto(m))) == multiset(Bucket(hash, n, r, Intermediate(mapf, files[..m])))
  {
    hide Bucket;
    if m == 0 {
      NoBucket(hash, n, r);
    } else {
      PartsAreBucket(mapf, hash, n, r, files, parts, m - 1);
      var f := files[m - 1];
      assert Upto(m)[..m - 1] == Upto(m - 1);
      assert files[..m][..m - 1] == files[..m - 1];
      BucketAppend(hash, n, r, Intermediate(mapf, files[..m - 1]), mapf(f.name, f.content));
    }
  }

  // ----- the outputs of all reduce tasks together

  function AllLines(outputs: seq<seq<Line>>): seq<Line> {
    if outputs == [] then [] else AllLines(outputs[..|outputs| - 1]) + outputs[|outputs| - 1]
  }

  lemma {:induction false} BucketKeys(hash: Hash, n: nat, r: nat, kvs: seq<KeyValue>, key: string)
    requires n > 0
    ensures HasKey(Bucket(hash, n, r, kvs), key) <==> hash(key) % n == r && HasKey(kvs, key)
    decreases |kvs|
  {
    if kvs != [] {
      var m := |kvs| - 1;
      BucketKeys(hash, n, r, kvs[..m], key);
      HasKeyAppend(kvs[..m], kvs[m], key);
      HasKeyAppend(Bucket(hash, n, r, kvs[..m]), kvs[m], key);
      assert Bucket(hash, n, r, kvs[..m]) + [] == Bucket(hash, n, r, kvs[..m]);
      assert kvs == kvs[..m] + [kvs[m]];
    }
  }

  lemma HasKeyAppend(kvs: seq<KeyValue>, kv: KeyValue, key: string)
    ensures HasKey(kvs + [kv], key) <==> HasKey(kvs, key) || kv.key == key
  {
    if HasKey(kvs, key) {
      var i :| 0 <= i < |kvs| && kvs[i].key == key;
      assert (kvs + [kv])[i].key == key;
    }
    if kv.key == key {
      assert (kvs + [kv])[|kvs|].key == key;
    }
  }

  lemma OneValue(kv: KeyValue, key: string)
    ensures Values([kv], key) == if kv.key == key then [kv.value] else []
  {
    assert [kv][1..] == [];
  }

  lemma {:induction false} BucketValues(hash: Hash, n: nat, r: nat, kvs: seq<KeyValue>, key: string)
    requires n > 0 && hash(key) % n == r
    ensures Values(Bucket(hash, n, r, kvs), key) == Values(kvs, key)
    decreases |kvs|
  {
    if kvs != [] {
      var m := |kvs| - 1;
      BucketValues(hash, n, r, kvs[..m], key);
      assert kvs == kvs[..m] + [kvs[m]];
      ValuesAppend(kvs[..m], [kvs[m]], key);
      ValuesAppend(Bucket(hash, n, r, kvs[..m]), [kvs[m]], key);
      assert Bucket(hash, n, r, kvs[..m]) + [] == Bucket(hash, n, r, kvs[..m]);
      OneValue(kvs[m], key);
    }
  }

  /** The lines of the first reduce tasks are right for the keys that belong to them. */
  ghost predicate OutputOfFirst(
    reducef: ReduceF, hash: Hash, n: nat, q: nat, lines: seq<Line>, kvs: seq<KeyValue>)
    requires n > 0
  {
    && OneLineEach(lines) && Reduced(reducef, lines, kvs, kvs)
    && (forall i :: 0 <= i < |lines| ==> hash(lines[i].key) % n < q)
    && (forall k :: 0 <= k < |kvs| && hash(kvs[k].key) % n < q ==> HasLine(lines, kvs[k].key))
  }

  /** The output for a bucket, seen from all the pairs. */
  lemma BucketOutput(
    reducef: ReduceF, hash: Hash, n: nat, q: nat, lines: seq<Line>, kvs: seq<KeyValue>)
    requires n > 0 && IsOutput(reducef, lines, Bucket(hash, n, q, kvs))
    ensures Reduced(reducef, lines, kvs, kvs)
    ensures forall i :: 0 <= i < |lines| ==> hash(lines[i].key) % n == q
    ensures forall k :: 0 <= k < |kvs| && hash(kvs[k].key) % n == q ==> HasLine(lines, kvs[k].key)
  {
    var bucket := Bucket(hash, n, q, kvs);
    forall i | 0 <= i < |lines|
      ensures HasKey(kvs, lines[i].key) && hash(lines[i].key) % n == q
      ensures lines[i].output == reducef(lines[i].key, Values(kvs, lines[i].key))
    {
      BucketKeys(hash, n, q, kvs, lines[i].key);
      BucketValues(hash, n, q, kvs, lines[i].key);
    }
    forall k | 0 <= k < |kvs| && hash(kvs[k].key) % n == q
      ensures HasLine(lines, kvs[k].key)
    {
      BucketKeys(hash, n, q, kvs, kvs[k].key);
      var i :| 0 <= i < |bucket| && bucket[i].key == kvs[k].key;
      assert HasLine(lines, bucket[i].key);
    }
  }

  lemma HasLineAppend(a: seq<Line>, b: seq<Line>, key: string)
    requires HasLine(a, key) || HasLine(b, key)
    ensures HasLine(a + b, key)
  {
    if HasLine(a, key) {
      var i :| 0 <= i < |a| && a[i].key == key;
      assert (a + b)[i].key == key;
    } else {
      var i :| 0 <= i < |b| && b[i].key == key;
      assert (a + b)[|a| + i].key == key;
    }
  }

  lemma OneMoreOutput(
    reducef: ReduceF, hash: Hash, n: nat, q: nat, lines: seq<Line>, more: seq<Line>, kvs: seq<KeyValue>)
    requires n > 0 && OutputOfFirst(reducef, hash, n, q, lines, kvs)
    requires IsOutput(reducef, more, Bucket(hash, n, q, kvs))
    ensures OutputOfFirst(reducef, hash, n, q + 1, lines + more, kvs)
  {
    hide HasLine, HasKey, Values;
    BucketOutput(reducef, hash, n, q, more, kvs);
    var all := lines + more;
    forall i, j | 0 <= i < j < |all|
      ensures all[i].key != all[j].key
    {
      if i < |lines| <= j {
        assert hash(lines[i].key) % n < q == hash(more[j - |lines|].key) % n;
      } else if i >= |lines| {
        assert more[i - |lines|].key != more[j - |lines|].key;
      }
    }
    forall i | 0 <= i < |all|
      ensures HasKey(kvs, all[i].key) && all[i].output == reducef(all[i].key, Values(kvs, all[i].key))
      ensures hash(all[i].key) % n < q + 1
    {
      assert i >= |lines| ==> all[i] == more[i - |lines|];
    }
    forall k | 0 <= k < |kvs| && hash(kvs[k].key) % n < q + 1
      ensures HasLine(all, kvs[k].key)
    {
      HasLineAppend(lines, more, kvs[k].key);
    }
  }

  lemma AllOutputs(reducef: ReduceF, hash: Hash, n: nat, lines: seq<Line>, kvs: seq<KeyValue>)
    requires n > 0 && OutputOfFirst(reducef, hash, n, n, lines, kvs)
    ensures IsOutput(reducef, lines, kvs)
  {}

  /** The distributed run: every file is mapped, and every reduce task reads its part of every
      map task's output, in whatever order the directory lists them. */
  method Distributed(mapf: MapF, reducef: ReduceF, hash: Hash, n: nat, files: seq<File>, orders: seq<seq<nat>>)
    returns (outputs: seq<seq<Line>>)
    requires n > 0 && OrderInsensitive(reducef)
    requires |orders| == n && forall r :: 0 <= r < n ==> multiset(orders[r]) == multiset(Upto(|files|))
    ensures |outputs| == n && IsOutput(reducef, AllLines(outputs), Intermediate(mapf, files))
  {
    var tasks := MapAll(mapf, hash, n, files);
    outputs := [];
    ghost var all := Intermediate(mapf, files);
    for r := 0 to n
      invariant |outputs| == r && OutputOfFirst(reducef, hash, n, r, AllLines(outputs), all)
    {
      var lines := ReduceOne(mapf, reducef, hash, n, files, tasks, r, orders[r]);
      OneMoreOutput(reducef, hash, n, r, AllLines(outputs), lines, all);
      assert (outputs + [lines])[..r] == outputs;
      outputs := outputs + [lines];
    }
    AllOutputs(reducef, hash, n, AllLines(outputs), all);
  }

  /** What the map tasks leave behind: for each file and each reduce task a bucket. */
  ghost predicate Mapped(mapf: MapF, hash: Hash, n: nat, files: seq<File>, tasks: seq<seq<seq<KeyValue>>>)
    requires n > 0
  {
    && |tasks| <= |files|
    && (forall m :: 0 <= m < |tasks| ==> |tasks[m]| == n)
    && (forall m, r :: 0 <= m < |tasks| && 0 <= r < n ==>
          multiset(tasks[m][r]) == multiset(Bucket(hash, n, r, mapf(files[m].name, files[m].content))))
  }

  method MapAll(mapf: MapF, hash: Hash, n: nat, files: seq<File>) returns (tasks: seq<seq<seq<KeyValue>>>)
    requires n > 0
    ensures |tasks| == |files| && Mapped(mapf, hash, n, files, tasks)
  {
    hide Bucket;
    tasks := [];
    for i := 0 to |files|
      invariant |tasks| == i && Mapped(mapf, hash, n, files, tasks)
    {
      var buckets := DoMap(mapf, hash, n, files[i]);
      tasks := tasks + [buckets];
    }
  }

  method ReduceOne(
    mapf: MapF, reducef: ReduceF, hash: Hash, n: nat, files: seq<File>, tasks: seq<seq<seq<KeyValue>>>, r: nat,
    order: seq<nat>)
    returns (lines: seq<Line>)
    requires n > 0 && r < n && OrderInsensitive(reducef) && |tasks| == |files| && Mapped(mapf, hash, n, files, tasks)
    requires multiset(order) == multiset(Upto(|files|))
    ensures IsOutput(reducef, lines, Bucket(hash, n, r, Intermediate(mapf, files)))
  {
    hide Bucket, IsOutput, OrderInsensitive, Gather;
    var parts := seq(|tasks|, m requires 0 <= m < |tasks| => tasks[m][r]);
    InRange(order, |files|);
    lines := DoReduce(reducef, parts, order);
    GatherOfSame(parts, order, Upto(|files|));
    PartsAreBucket(mapf, hash, n, r, files, parts, |files|);
    assert files[..|files|] == files;
    OutputOfSame(reducef, lines, Gather(parts, order), Bucket(hash, n, r, Intermediate(mapf, files)));
  }

  lemma InRange(order: seq<nat>, n: nat)
    requires multiset(order) == multiset(Upto(n))
    ensures forall i :: 0 <= i < |order| ==> order[i] < n
  {
    forall i | 0 <= i < |order|
      ensures order[i] < n
    {
      assert order[i] in multiset(order);
      assert order[i] in Upto(n);
    }
  }

  // ----- the two mean the same

  lemma {:induction false} LinesCount(lines: seq<Line>, x: Line)
    requires OneLineEach(lines)
    ensures multiset(lines)[x] == if x in lines then 1 else 0
    decreases |lines|
  {
    if lines != [] {
      assert lines == [lines[0]] + lines[1..];
      LinesCount(lines[1..], x);
    }
  }

  lemma SameLine(reducef: ReduceF, a: seq<Line>, b: seq<Line>, kvs: seq<KeyValue>, x: Line)
    requires IsOutput(reducef, a, kvs) && IsOutput(reducef, b, kvs) && x in a
    ensures x in b
  {
    var i :| 0 <= i < |a| && a[i] == x;
    assert HasKey(kvs, a[i].key);
    var k :| 0 <= k < |kvs| && kvs[k].key == x.key;
    assert HasLine(b, kvs[k].key);
    var j :| 0 <= j < |b| && b[j].key == x.key;
    assert b[j].output == x.output;
  }

  /** There is only one output, up to the order of the lines: for every number of reduce tasks,
      hash, map function and order-insensitive reduce function, the lines of all reduce tasks
      together are those of the sequential program. */
  lemma OutputIsUnique(reducef: ReduceF, a: seq<Line>, b: seq<Line>, kvs: seq<KeyValue>)
    requires IsOutput(reducef, a, kvs) && IsOutput(reducef, b, kvs)
    ensures multiset(a) == multiset(b)
  {
    hide IsOutput;
    forall x: Line
      ensures multiset(a)[x] == multiset(b)[x]
    {
      OutputLines(reducef, a, kvs, x);
      OutputLines(reducef, b, kvs, x);
      if x in a {
        SameLine(reducef, a, b, kvs, x);
      }
      if x in b {
        SameLine(reducef, b, a, kvs, x);
      }
    }
  }

  lemma OutputLines(reducef: ReduceF, lines: seq<Line>, kvs: seq<KeyValue>, x: Line)
    requires IsOutput(reducef, lines, kvs)
    ensures multiset(lines)[x] == if x in lines then 1 else 0
  {
    LinesCount(lines, x);
  }

  method BothWays(mapf: MapF, reducef: ReduceF, hash: Hash, n: nat, files: seq<File>, orders: seq<seq<nat>>)
    returns (outputs: seq<seq<Line>>, lines: seq<Line>)
    requires n > 0 && OrderInsensitive(reducef)
    requires |orders| == n && forall r :: 0 <= r < n ==> multiset(orders[r]) == multiset(Upto(|files|))
    ensures multiset(AllLines(outputs)) == multiset(lines)
  {
    outputs := Distributed(mapf, reducef, hash, n, files, orders);
    lines := Sequential(mapf, reducef, files);
    OutputIsUnique(reducef, AllLines(outputs), lines, Intermediate(mapf, files));
  }
}
