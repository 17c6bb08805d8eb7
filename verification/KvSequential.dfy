/** What the key/value model accepts (src/models/kv.go:40-57), said without its step function: of operations
that do not overlap, exactly those are accepted in which every read sees what was written before. */
module KvSequential {
  import opened Checker
  import opened Operations
  import opened Locality
  import opened KvModel
  import WriteLog

  function WriteOf(op: KvOperation): WriteLog.Write {
    if op.input.op == 0 then WriteLog.NoWrite
    else if op.input.op == 1 then WriteLog.Put(op.input.key, op.input.value)
    else WriteLog.Append(op.input.key, op.input.value)
  }

  function WritesOf(h: seq<KvOperation>): (writes: seq<WriteLog.Write>)
    ensures |writes| == |h|
  {
    seq(|h|, i requires 0 <= i < |h| => WriteOf(h[i]))
  }

  /** Put and plain Append answer nothing; everything else answers with the value just before. */
  ghost predicate AnswersRightly(before: seq<KvOperation>, op: KvOperation) {
    op.input.op != 1 && op.input.op != 2 ==> op.output.value == WriteLog.ValueOf(WritesOf(before), op.input.key)
  }

  ghost predicate AllAnswerRightly(h: seq<KvOperation>) {
    forall i :: 0 <= i < |h| ==> AnswersRightly(h[..i], h[i])
  }

  /** Each operation returns before the next is called. */
  ghost predicate Sequential(h: seq<KvOperation>) {
    Timely(h) && forall i, j :: 0 <= i < j < |h| ==> h[i].ret < h[j].call
  }

  // ----- there is only one order

  lemma FirstIsFirst(h: seq<KvOperation>, order: seq<KvOperation>)
    requires Sequential(h) && h != [] && multiset(order) == multiset(h) && RespectsClock(order)
    ensures order != [] && order[0] == h[0]
  {
    assert |multiset(order)| == |multiset(h)|;
    assert order[0] in multiset(order) && h[0] in multiset(h);
    var k :| 0 <= k < |h| && h[k] == order[0];
    var b :| 0 <= b < |order| && order[b] == h[0];
    assert b > 0 ==> !(order[b].ret < order[0].call);
  }

  lemma SameRest(order: seq<KvOperation>, h: seq<KvOperation>)
    requires order != [] && h != [] && order[0] == h[0] && multiset(order) == multiset(h)
    ensures multiset(order[1..]) == multiset(h[1..])
  {
    assert h == [h[0]] + h[1..] && order == [h[0]] + order[1..];
    assert multiset(order[1..]) == multiset(order) - multiset{h[0]};
  }

  lemma {:induction false} OnlyOneOrder(h: seq<KvOperation>, order: seq<KvOperation>)
    requires Sequential(h) && multiset(order) == multiset(h) && RespectsClock(order)
    ensures order == h
    decreases |h|
  {
    assert |multiset(order)| == |multiset(h)|;
    if h != [] {
      FirstIsFirst(h, order);
      SameRest(order, h);
      RestIsSequential(h);
      OnlyOneOrder(h[1..], order[1..]);
      assert h == [h[0]] + h[1..] && order == [order[0]] + order[1..];
    }
  }

  lemma RestIsSequential(h: seq<KvOperation>)
    requires Sequential(h) && h != []
    ensures Sequential(h[1..])
  {
    forall op | op in h[1..]
      ensures op in h
    {}
  }

  lemma SequentialRespectsClock(h: seq<KvOperation>)
    requires Sequential(h)
    ensures RespectsClock(h)
  {
    forall a, b | 0 <= a < b < |h|
      ensures !(h[b].ret < h[a].call)
    {
      assert h[a] in h && h[b] in h;
    }
  }

  // ----- and in that order

  /** The table has what the operations so far have left. */
  ghost predicate Stands(table: map<string, string>, past: seq<KvOperation>) {
    forall key :: Cell(Cells, table, key) == WriteLog.ValueOf(WritesOf(past), key)
  }

  lemma StepStands(table: map<string, string>, past: seq<KvOperation>, op: KvOperation)
    requires Stands(table, past)
    ensures var (ok, next) := TableStep(Cells, Key, table, op.input, op.output);
            && (ok <==> AnswersRightly(past, op)) && Stands(next, past + [op])
  {
    hide WriteLog.ValueOf;
    var (ok, next) := TableStep(Cells, Key, table, op.input, op.output);
    assert WritesOf(past + [op]) == WritesOf(past) + [WriteOf(op)];
    assert Cell(Cells, table, op.input.key) == WriteLog.ValueOf(WritesOf(past), op.input.key);
    forall key
      ensures Cell(Cells, next, key) == WriteLog.ValueOf(WritesOf(past + [op]), key)
    {
      WriteLog.ValueNext(WritesOf(past), WriteOf(op), key);
      assert Cell(Cells, table, key) == WriteLog.ValueOf(WritesOf(past), key);
    }
  }

  lemma {:induction false} RunsIffRight(table: map<string, string>, past: seq<KvOperation>, h: seq<KvOperation>)
    requires Stands(table, past)
    ensures Runs(Table(Cells, Key), table, h) <==>
            forall i :: 0 <= i < |h| ==> AnswersRightly(past + h[..i], h[i])
    decreases |h|
  {
    hide AnswersRightly, Stands;
    if h != [] {
      var next := TableStep(Cells, Key, table, h[0].input, h[0].output).1;
      StepStands(table, past, h[0]);
      RunsIffRight(next, past + [h[0]], h[1..]);
      ShiftRight(past, h);
    }
  }

  lemma ShiftRight(past: seq<KvOperation>, h: seq<KvOperation>)
    requires h != []
    ensures (forall i :: 0 <= i < |h| ==> AnswersRightly(past + h[..i], h[i])) <==>
            && AnswersRightly(past, h[0])
            && forall i :: 0 <= i < |h[1..]| ==> AnswersRightly(past + [h[0]] + h[1..][..i], h[1..][i])
  {
    hide AnswersRightly;
    assert past + h[..0] == past;
    forall i | 0 <= i < |h[1..]|
      ensures past + [h[0]] + h[1..][..i] == past + h[..i + 1] && h[1..][i] == h[i + 1]
    {}
    if AnswersRightly(past, h[0]) &&
       forall i :: 0 <= i < |h[1..]| ==> AnswersRightly(past + [h[0]] + h[1..][..i], h[1..][i])
    {
      forall i | 0 <= i < |h|
        ensures AnswersRightly(past + h[..i], h[i])
      {
        if i > 0 {
          assert AnswersRightly(past + [h[0]] + h[1..][..i - 1], h[1..][i - 1]);
        }
      }
    }
  }

  /** A history in which no two operations overlap is linearizable exactly if every operation but Put and
      plain Append answered with the value just before it: the last Put on its key followed by the
      Appends since. */
  lemma SequentialIsLinearizableIff(h: seq<KvOperation>)
    requires Sequential(h)
    ensures IsLinearizable(Table(Cells, Key), h) <==> AllAnswerRightly(h)
  {
    hide AnswersRightly;
    NothingStands();
    RunsIffRight(map[], [], h);
    forall i | 0 <= i < |h|
      ensures [] + h[..i] == h[..i]
    {}
    SequentialRespectsClock(h);
    if IsLinearizable(Table(Cells, Key), h) {
      var order :| Linearizes(Table(Cells, Key), h, order);
      OnlyOneOrder(h, order);
    }
    if AllAnswerRightly(h) {
      assert Linearizes(Table(Cells, Key), h, h);
    }
  }

  lemma NothingStands()
    ensures Stands(map[], [])
  {
    forall key
      ensures Cell(Cells, map[], key) == WriteLog.ValueOf(WritesOf([]), key)
    {
      assert WritesOf([]) == [];
    }
  }

  /** So the checker's answer on such a history. */
  method CheckSequential(history: seq<KvOperation>, verbose: bool) returns (ok: bool)
    requires history != [] && Sequential(history)
    ensures ok <==> AllAnswerRightly(history)
  {
    SequentialIsLinearizableIff(history);
    ok := CheckOperations(history, verbose);
  }
}
