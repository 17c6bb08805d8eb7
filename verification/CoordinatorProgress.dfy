/** The coordinator is never stuck (src/mr/coordinator.go:117-230): whatever workers have done or failed to do so
far, the job can still be finished, by new workers if need be. */
module MrProgress {
  import opened MrCoordinator

  lemma {:induction false} Then(w: World, steps: seq<Step>, mid: World, more: seq<Step>, last: World)
    requires Leads(w, steps, mid) && Leads(mid, more, last)
    ensures Leads(w, steps + more, last)
    decreases |steps|
  {
    hide Enabled, Take;
    if steps == [] {
      assert steps + more == more;
    } else {
      assert (steps + more)[1..] == steps[1..] + more;
      Then(Take(w, steps[0]), steps[1..], mid, more, last);
    }
  }

  lemma One(w: World, step: Step)
    requires Enabled(w, step)
    ensures Leads(w, [step], Take(w, step))
  {
    hide Enabled, Take;
    assert Leads(Take(w, step), [], Take(w, step));
    assert [step][1..] == [];
  }

  lemma And(w: World, steps: seq<Step>, mid: World, step: Step)
    requires Inv(w) && Inv(mid) && Leads(w, steps, mid) && Enabled(mid, step)
    ensures Leads(w, steps + [step], Take(mid, step)) && Inv(Take(mid, step))
  {
    hide Enabled, Take, Inv;
    One(mid, step);
    Then(w, steps, mid, [step], Take(mid, step));
    StepKeeps(mid, step);
  }

  /** The same phase, with the same tasks done except that task `i` may be done too. */
  ghost predicate SameBut(w: World, w': World, i: int) {
    && w'.phase == w.phase && w'.files == w.files && w'.reduces == w.reduces
    && |w'.tables.info| == |w.tables.info|
    && forall j :: 0 <= j < |w.tables.info| && j != i ==> (w'.tables.info[j] == DONE <==> w.tables.info[j] == DONE)
  }

  /** The scheduler can drop or complete what it is about. */
  lemma ToLooking(w: World) returns (steps: seq<Step>, last: World)
    requires Inv(w)
    ensures Leads(w, steps, last) && Inv(last) && last.choice.Looking? && SameBut(w, last, -1)
  {
    hide TaskOk, WorkerOk, DoneOk;
    steps, last := [], w;
    if w.choice.HasTask? {
      And(w, [], w, PickNobody);
      steps, last := [] + [PickNobody], Take(w, PickNobody);
    } else if w.choice.HasBoth? {
      And(w, [], w, NoteTask);
      var mid := Take(w, NoteTask);
      And(w, [] + [NoteTask], mid, NoteWorker);
      steps, last := [] + [NoteTask] + [NoteWorker], Take(mid, NoteWorker);
    } else if w.choice.Noted? {
      And(w, [], w, NoteWorker);
      steps, last := [] + [NoteWorker], Take(w, NoteWorker);
    }
  }

  /** An id that nobody has. */
  lemma {:induction false} FreshId(ids: set<int>) returns (id: int)
    ensures id > 0 && forall i :: i in ids ==> i < id
    decreases |ids|
  {
    id := 1;
    if x :| x in ids {
      var y := FreshId(ids - {x});
      id := if x < y then y else x + 1;
      assert forall i :: i in ids ==> i == x || i in ids - {x};
    }
  }

  /** A task that is not done can be taken back. */
  lemma TakeBack(w: World, i: nat) returns (steps: seq<Step>, last: World)
    requires Inv(w) && w.choice.Looking? && i < |w.tables.info| && w.tables.info[i] != DONE
    ensures Leads(w, steps, last) && Inv(last) && last.choice.Looking? && SameBut(w, last, -1)
    ensures i < |last.tables.info| && last.tables.info[i] == READY
  {
    hide TaskOk, WorkerOk, DoneOk;
    And(w, [], w, Late(i));
    steps, last := [] + [Late(i)], Take(w, Late(i));
  }

  lemma NobodysDoing(w: World, id: int)
    requires Inv(w) && id !in w.tables.workers
    ensures w.doing(id) == NoJob
  {
    assert WorkerOk(w, id);
  }

  /** A new worker can be given the task. */
  lemma GiveToNew(w: World, i: nat) returns (steps: seq<Step>, last: World, id: int)
    requires Inv(w) && !w.phase.Exiting? && w.choice.Looking? && i < |w.tables.info| && w.tables.info[i] == READY
    ensures Leads(w, steps, last) && Inv(last) && last.choice.Looking? && SameBut(w, last, -1)
    ensures id > 0 && id in last.tables.workers && last.tables.workers[id] == Worker(Ready, Job(w.phase, i))
    ensures last.doing(id) == NoJob
  {
    hide TaskOk, WorkerOk, DoneOk, Inv, Leads;
    id := FreshId(w.tables.workers.Keys);
    NobodysDoing(w, id);
    Nothing(w);
    And(w, [], w, Register(id));
    var w1 := Take(w, Register(id));
    And(w, [] + [Register(id)], w1, PickTask(i));
    var w2 := Take(w1, PickTask(i));
    And(w, [] + [Register(id)] + [PickTask(i)], w2, PickWorker(id));
    var w3 := Take(w2, PickWorker(id));
    And(w, [] + [Register(id)] + [PickTask(i)] + [PickWorker(id)], w3, NoteTask);
    var w4 := Take(w3, NoteTask);
    And(w, [] + [Register(id)] + [PickTask(i)] + [PickWorker(id)] + [NoteTask], w4, NoteWorker);
    steps := [] + [Register(id)] + [PickTask(i)] + [PickWorker(id)] + [NoteTask] + [NoteWorker];
    last := Take(w4, NoteWorker);
  }

  lemma Nothing(w: World)
    ensures Leads(w, [], w)
  {}

  /** Which then does it. */
  lemma DoIt(w: World, i: nat, id: int) returns (steps: seq<Step>, last: World)
    requires Inv(w) && w.choice.Looking? && id > 0 && id in w.tables.workers && i < |w.tables.info|
    requires w.tables.workers[id] == Worker(Ready, Job(w.phase, i)) && w.doing(id) == NoJob
    ensures Leads(w, steps, last) && Inv(last) && last.choice.Looking? && SameBut(w, last, i)
    ensures i < |last.tables.info| && last.tables.info[i] == DONE
  {
    hide TaskOk, WorkerOk, DoneOk, Inv, Leads;
    Nothing(w);
    And(w, [], w, TakeJob(id));
    var w1 := Take(w, TakeJob(id));
    And(w, [] + [TakeJob(id)], w1, Report(id));
    steps, last := [] + [TakeJob(id)] + [Report(id)], Take(w1, Report(id));
  }

  lemma FinishTask(w: World, i: nat) returns (steps: seq<Step>, last: World)
    requires Inv(w) && !w.phase.Exiting? && w.choice.Looking? && i < |w.tables.info| && w.tables.info[i] != DONE
    ensures Leads(w, steps, last) && Inv(last) && last.choice.Looking? && SameBut(w, last, i)
    ensures i < |last.tables.info| && last.tables.info[i] == DONE
  {
    hide Inv, Leads;
    var a, w1 := TakeBack(w, i);
    var b, w2, id := GiveToNew(w1, i);
    var c;
    c, last := DoIt(w2, i, id);
    Then(w, a, w1, b, w2);
    Then(w, a + b, w2, c, last);
    steps := a + b + c;
  }

  /** All tasks from the k-th on, one after the other. */
  lemma {:induction false} FinishFrom(w: World, k: nat) returns (steps: seq<Step>, last: World)
    requires Inv(w) && !w.phase.Exiting? && w.choice.Looking? && k <= |w.tables.info|
    requires forall j :: 0 <= j < k ==> w.tables.info[j] == DONE
    ensures Leads(w, steps, last) && Inv(last) && last.choice.Looking? && last.phase == w.phase
    ensures last.reduces == w.reduces && last.files == w.files && AllDone(last.tables.info)
    decreases |w.tables.info| - k
  {
    hide Inv, Leads;
    if k == |w.tables.info| {
      Nothing(w);
      steps, last := [], w;
    } else {
      var a, w1 := [], w;
      Nothing(w);
      if w.tables.info[k] != DONE {
        a, w1 := FinishTask(w, k);
      }
      var b;
      b, last := FinishFrom(w1, k + 1);
      Then(w, a, w1, b, last);
      steps := a + b;
    }
  }

  lemma FinishPhase(w: World) returns (steps: seq<Step>, last: World)
    requires Inv(w) && !w.phase.Exiting?
    ensures Leads(w, steps, last) && Inv(last)
    ensures last.phase == if w.phase.MapPhase? then ReducePhase else Exiting
  {
    hide Inv, Leads;
    var a, w1 := ToLooking(w);
    var b, w2 := FinishFrom(w1, 0);
    Then(w, a, w1, b, w2);
    And(w, a + b, w2, NextPhase);
    steps, last := a + b + [NextPhase], Take(w2, NextPhase);
  }

  /** From every reachable world the job can be finished, with every task accepted. */
  lemma CanAlwaysFinish(first: World, steps: seq<Step>, w: World) returns (more: seq<Step>, last: World)
    requires Initial(first) && Leads(first, steps, w)
    ensures Leads(w, more, last) && last.phase.Exiting?
    ensures forall i: nat :: i < last.files ==> Has(last.accepted, MapPhase, i)
    ensures forall i: nat :: i < last.reduces ==> Has(last.accepted, ReducePhase, i)
  {
    hide Inv, Leads, Has;
    InitialInv(first);
    RunsKeep(first, steps, w);
    Nothing(w);
    more, last := [], w;
    if last.phase.MapPhase? {
      more, last := FinishPhase(w);
    }
    if last.phase.ReducePhase? {
      var a, w1 := FinishPhase(last);
      Then(w, more, last, a, w1);
      more, last := more + a, w1;
    }
    Then(first, steps, w, more, last);
    EachTaskOnce(first, steps + more, last);
  }
}
