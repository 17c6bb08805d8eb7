/** The MapReduce coordinator (src/mr/coordinator.go): it gives each task to a worker, takes a task
back from a worker that is too slow, and accepts a report only from a worker it has not given up.

A worker registers once, under an id of its own that is above 0, and does one job at a time.  It
may stop at any moment, give a job up, or report it however late.
 */
module MrCoordinator {

  datatype Phase = MapPhase | ReducePhase | Exiting
  datatype Job = NoJob | Job(phase: Phase, task: nat)
  datatype WorkerState = Free | Ready | Death
  datatype Worker = Worker(state: WorkerState, job: Job)

  const READY: int := 0
  const DONE: int := -1

  /** The coordinator's tables: workers by id, and for each task of the phase the worker that has
      it, or READY or DONE. */
  datatype Tables = Tables(workers: map<int, Worker>, info: seq<int>)

  // ----- what the coordinator does

  function OnRegister(c: Tables, id: int): Tables {
    c.(workers := c.workers[id := Worker(Free, NoJob)])
  }

  predicate IsDead(c: Tables, id: int) {
    id in c.workers && c.workers[id].state.Death?
  }

  /** WorkFinish, and whether the report is accepted.  (That a report is never about a task outside
      the table is part of AcceptedIsAssigned.) */
  function OnFinish(c: Tables, id: int, task: nat): (Tables, bool) {
    if IsDead(c, id) then (c, false)
    else if task < |c.info| then (Tables(c.workers[id := Worker(Free, NoJob)], c.info[task := DONE]), true)
    else (c, true)
  }

  /** A worker has not finished its task in time. */
  function OnLate(c: Tables, task: nat): Tables
    requires task < |c.info|
  {
    if c.info[task] == READY || c.info[task] == DONE then c
    else Tables(c.workers[c.info[task] := Worker(Death, NoJob)], c.info[task := READY])
  }

  /** A task is given to a worker in two parts, first in the one table and then in the other. */
  function OnNoteTask(c: Tables, task: nat, id: int): Tables
    requires task < |c.info|
  {
    c.(info := c.info[task := id])
  }

  function OnNoteWorker(c: Tables, phase: Phase, task: nat, id: int): Tables {
    c.(workers := c.workers[id := Worker(Ready, Job(phase, task))])
  }

  class Coordinator {
    var workerMap: map<int, Worker>
    var workInfo: seq<int>

    ghost function View(): Tables
      reads this
    {
      Tables(workerMap, workInfo)
    }

    constructor (tasks: nat)
      ensures View() == Tables(map[], seq(tasks, _ => READY))
    {
      workerMap, workInfo := map[], seq(tasks, _ => READY);
    }

    method RegisterWorker(id: int)
      modifies this`workerMap
      ensures View() == OnRegister(old(View()), id)
    {
      workerMap := workerMap[id := Worker(Free, NoJob)];
    }

    method WorkFinish(id: int, task: nat) returns (accepted: bool)
      requires task < |workInfo|
      modifies this
      ensures (View(), accepted) == OnFinish(old(View()), id, task)
    {
      if id in workerMap && workerMap[id].state.Death? {
        return false;
      }
      workerMap := workerMap[id := Worker(Free, NoJob)];
      workInfo := workInfo[task := DONE];
      return true;
    }

    /** The sweep at the beginning of AllocWork's loop, over the tasks that are late. */
    method RecoverCrashed(late: seq<bool>)
      requires |late| == |workInfo|
      modifies this
      ensures View() == Swept(old(View()), late, |late|)
    {
      for i := 0 to |workInfo|
        invariant |workInfo| == |late| && View() == Swept(old(View()), late, i)
      {
        if workInfo[i] != READY && workInfo[i] != DONE && late[i] {
          workerMap := workerMap[workInfo[i] := Worker(Death, NoJob)];
          workInfo := workInfo[i := READY];
        }
      }
    }

    /** The first task that is ready, and whether some task before it is being worked on. */
    method FindReady() returns (task: int, isWorking: bool)
      ensures task == -1 || (0 <= task < |workInfo| && workInfo[task] == READY)
      ensures var looked := if task == -1 then |workInfo| else task;
              && (forall i :: 0 <= i < looked ==> workInfo[i] != READY)
              && (isWorking <==> exists i :: 0 <= i < looked && workInfo[i] != DONE)
    {
      task, isWorking := -1, false;
      for i := 0 to |workInfo|
        invariant forall j :: 0 <= j < i ==> workInfo[j] != READY
        invariant !isWorking ==> forall j :: 0 <= j < i ==> workInfo[j] == DONE
        invariant isWorking ==> exists j :: 0 <= j < i && workInfo[j] != DONE
        invariant task == -1
      {
        if workInfo[i] == READY {
          return i, isWorking;
        } else if workInfo[i] != DONE {
          isWorking := true;
        }
      }
    }

    /** Some worker that is free, or nobody; `order` is the order in which the map is gone over. */
    method GetFreeWorker(order: seq<int>) returns (id: int)
      requires PositiveIds(View()) && forall i :: i in workerMap <==> i in order
      ensures id == -1 ==> forall i :: i in workerMap ==> !workerMap[i].state.Free?
      ensures id != -1 ==> id in workerMap && workerMap[id].state.Free?
    {
      for k := 0 to |order|
        invariant forall j :: 0 <= j < k ==> order[j] in workerMap && !workerMap[order[j]].state.Free?
      {
        var i := order[k];
        assert i in order && i in workerMap;
        if workerMap[i].state.Free? {
          return i;
        }
      }
      return -1;
    }

    /** One round of AllocWork when nothing happens in between: late tasks are taken back, and a ready task
        goes to a free worker if there are both; the phase is over exactly if all tasks are done. */
    method AllocRound(phase: Phase, late: seq<bool>, order: seq<int>) returns (over: bool)
      requires |late| == |workInfo| && PositiveIds(View())
      requires forall i :: i in Swept(View(), late, |late|).workers <==> i in order
      modifies this
      ensures over == AllDone(Swept(old(View()), late, |late|).info)
      ensures var swept := Swept(old(View()), late, |late|);
              if HasReady(swept) && HasFree(swept) then IsGivenOut(swept, phase, View()) else View() == swept
    {
      RecoverCrashed(late);
      SweptIds(old(View()), late, |late|);
      var task, isWorking := FindReady();
      if task == -1 {
        return !isWorking;
      }
      over := false;
      var id := GetFreeWorker(order);
      if id != -1 {
        ghost var before := View();
        workInfo := workInfo[task := id];
        workerMap := workerMap[id := Worker(Ready, Job(phase, task))];
        assert View() == OnNoteWorker(OnNoteTask(before, task, id), phase, task, id);
        assert IsGivenOut(before, phase, View());
      }
    }
  }

  ghost predicate PositiveIds(c: Tables) {
    && (forall i :: i in c.workers ==> i > 0)
    && (forall i :: 0 <= i < |c.info| && c.info[i] != READY && c.info[i] != DONE ==> c.info[i] > 0)
  }

  ghost predicate HasReady(c: Tables) {
    exists task :: 0 <= task < |c.info| && c.info[task] == READY
  }

  ghost predicate HasFree(c: Tables) {
    exists id :: id in c.workers && c.workers[id].state.Free?
  }

  /** A ready task has gone to a free worker. */
  ghost predicate IsGivenOut(c: Tables, phase: Phase, c': Tables) {
    exists task: nat, id: int ::
      && task < |c.info| && c.info[task] == READY && id in c.workers && c.workers[id].state.Free?
      && c' == OnNoteWorker(OnNoteTask(c, task, id), phase, task, id)
  }

  /** The sweep brings in no ids. */
  lemma {:induction false} SweptIds(c: Tables, late: seq<bool>, n: nat)
    requires n <= |late| == |c.info| && PositiveIds(c)
    ensures PositiveIds(Swept(c, late, n))
  {
    if n > 0 {
      SweptIds(c, late, n - 1);
      LateIds(Swept(c, late, n - 1), n - 1);
    }
  }

  lemma LateIds(c: Tables, task: nat)
    requires task < |c.info| && PositiveIds(c)
    ensures PositiveIds(OnLate(c, task))
  {}

  /** The late tasks among the first n taken back one by one. */
  ghost function Swept(c: Tables, late: seq<bool>, n: nat): (c': Tables)
    requires n <= |late| == |c.info|
    ensures |c'.info| == |c.info|
  {
    if n == 0 then c
    else
      var c1 := Swept(c, late, n - 1);
      if late[n - 1] then OnLate(c1, n - 1) else c1
  }

  /** The sweep task by task and worker by worker: exactly the late tasks that somebody has are ready again,
      and exactly those who had them are given up. */
  lemma {:induction false} SweepTakesBackLate(c: Tables, late: seq<bool>, n: nat)
    requires n <= |late| == |c.info|
    ensures var c' := Swept(c, late, n);
            && (forall i :: 0 <= i < |c.info| ==>
                  c'.info[i] == if i < n && late[i] && c.info[i] != DONE then READY else c.info[i])
            && (forall id :: id in c'.workers <==> id in c.workers || HadLate(c, late, n, id))
            && (forall id :: id in c'.workers ==>
                  if HadLate(c, late, n, id) then c'.workers[id] == Worker(Death, NoJob)
                  else id in c.workers && c'.workers[id] == c.workers[id])
  {
    if n > 0 {
      SweepTakesBackLate(c, late, n - 1);
      forall id
        ensures HadLate(c, late, n, id) <==>
                HadLate(c, late, n - 1, id) || (late[n - 1] && IsHad(c, n - 1) && c.info[n - 1] == id)
      {}
    }
  }

  ghost predicate IsHad(c: Tables, i: nat)
    requires i < |c.info|
  {
    c.info[i] != READY && c.info[i] != DONE
  }

  /** The worker has one of the first n tasks and is late with it. */
  ghost predicate HadLate(c: Tables, late: seq<bool>, n: nat, id: int)
    requires n <= |late| == |c.info|
  {
    exists i: nat :: i < n && late[i] && IsHad(c, i) && c.info[i] == id
  }

  // ----- runs

  datatype Accepted = Accepted(phase: Phase, task: nat, worker: int)

  /** What the scheduler is about: it looks for a task, then for a worker, and then notes both. */
  datatype Choice = Looking | HasTask(task: nat) | HasBoth(task: nat, id: int) | Noted(task: nat, id: int)

  /** `doing` is what each worker believes its job to be, `files` and `reduces` the
      number of tasks of the two phases. */
  datatype World = World(
    tables: Tables, phase: Phase, choice: Choice, doing: int -> Job, accepted: seq<Accepted>, files: nat,
    reduces: nat)

  datatype Step =
    | Register(id: int)
    | PickTask(task: nat)
    | PickWorker(id: int)
    | PickNobody
    | NoteTask
    | NoteWorker
    | TakeJob(id: int)
    | GiveUp(id: int)
    | Report(id: int)
    | Late(task: nat)
    | NextPhase

  ghost predicate AllDone(info: seq<int>) {
    forall i :: 0 <= i < |info| ==> info[i] == DONE
  }

  ghost predicate Enabled(w: World, step: Step) {
    match step
    case Register(id) => id > 0 && id !in w.tables.workers && w.doing(id) == NoJob
    case PickTask(task) =>
      w.choice.Looking? && task < |w.tables.info| && w.tables.info[task] == READY && !w.phase.Exiting?
    case PickWorker(id) => w.choice.HasTask? && id in w.tables.workers && w.tables.workers[id].state.Free?
    case PickNobody => w.choice.HasTask?
    case NoteTask => w.choice.HasBoth? && w.choice.task < |w.tables.info|
    case NoteWorker => w.choice.Noted?
    case TakeJob(id) => w.doing(id) == NoJob && id in w.tables.workers && w.tables.workers[id].state.Ready?
    case GiveUp(id) => true
    case Report(id) => w.doing(id).Job?
    case Late(task) => w.choice.Looking? && task < |w.tables.info|
    case NextPhase => w.choice.Looking? && !w.phase.Exiting? && AllDone(w.tables.info)
  }

  ghost function SetDoing(w: World, id: int, job: Job): int -> Job {
    (i: int) => if i == id then job else w.doing(i)
  }

  ghost function Take(w: World, step: Step): World
    requires Enabled(w, step)
  {
    match step
    case Register(id) => w.(tables := OnRegister(w.tables, id))
    case PickTask(task) => w.(choice := HasTask(task))
    case PickWorker(id) => w.(choice := HasBoth(w.choice.task, id))
    case PickNobody => w.(choice := Looking)
    case NoteTask =>
      var (task, id) := (w.choice.task, w.choice.id);
      w.(tables := OnNoteTask(w.tables, task, id), choice := Noted(task, id))
    case NoteWorker =>
      w.(tables := OnNoteWorker(w.tables, w.phase, w.choice.task, w.choice.id), choice := Looking)
    case TakeJob(id) => w.(doing := SetDoing(w, id, w.tables.workers[id].job))
    case GiveUp(id) => w.(doing := SetDoing(w, id, NoJob))
    case Report(id) =>
      var job := w.doing(id);
      var (tables, ok) := OnFinish(w.tables, id, job.task);
      w.(tables := tables, doing := SetDoing(w, id, NoJob),
         accepted := if ok then w.accepted + [Accepted(job.phase, job.task, id)] else w.accepted)
    case Late(task) => w.(tables := OnLate(w.tables, task))
    case NextPhase =>
      if w.phase.MapPhase?
      then w.(phase := ReducePhase, tables := w.tables.(info := seq(w.reduces, _ => READY)))
      else w.(phase := Exiting)
  }

  ghost predicate Initial(w: World) {
    && w.tables == Tables(map[], seq(w.files, _ => READY)) && w.phase == MapPhase && w.accepted == []
    && w.choice == Looking
    && forall id :: w.doing(id) == NoJob
  }

  // ----- the invariant

  ghost function TasksOf(w: World, phase: Phase): nat {
    if phase.MapPhase? then w.files else w.reduces
  }

  /** The worker of a task is ready and has just this job, or is free and about to get it. */
  ghost predicate TaskOk(w: World, i: nat)
    requires i < |w.tables.info|
  {
    var id := w.tables.info[i];
    id != READY && id != DONE ==>
      && !w.phase.Exiting? && id > 0 && id in w.tables.workers
      && (|| w.tables.workers[id] == Worker(Ready, Job(w.phase, i))
          || (w.choice == Noted(i, id) && w.tables.workers[id].state.Free?))
  }

  /** What the scheduler has chosen stays as it was chosen. */
  ghost predicate ChoiceOk(w: World) {
    && (!w.choice.Looking? ==> !w.phase.Exiting? && w.choice.task < |w.tables.info|)
    && (w.choice.HasTask? || w.choice.HasBoth? ==> w.tables.info[w.choice.task] == READY)
    && (w.choice.Noted? ==> w.tables.info[w.choice.task] == w.choice.id)
    && (w.choice.HasBoth? || w.choice.Noted? ==>
          w.choice.id > 0 && w.choice.id in w.tables.workers && w.tables.workers[w.choice.id].state.Free?)
  }

  /** A worker that is ready has a task of the phase, and a worker is doing what it was given
      unless it was given up. */
  ghost predicate WorkerOk(w: World, id: int) {
    && (id in w.tables.workers ==>
          && id > 0
          && (w.tables.workers[id].state.Ready? ==>
                var job := w.tables.workers[id].job;
                job.Job? && job.phase == w.phase && job.task < |w.tables.info| && w.tables.info[job.task] == id))
    && (w.doing(id).Job? ==>
          && id in w.tables.workers
          && (w.tables.workers[id].state.Death? || w.tables.workers[id] == Worker(Ready, w.doing(id))))
  }

  ghost predicate Has(accepted: seq<Accepted>, phase: Phase, i: nat) {
    exists k :: 0 <= k < |accepted| && accepted[k].phase == phase && accepted[k].task == i
  }

  ghost predicate Once(accepted: seq<Accepted>) {
    forall k, l :: 0 <= k < l < |accepted| && accepted[k].phase == accepted[l].phase ==>
      accepted[k].task != accepted[l].task
  }

  /** A task counts as done exactly if a report of it was accepted. */
  ghost predicate DoneOk(w: World) {
    && (!w.phase.Exiting? ==>
          && |w.tables.info| == TasksOf(w, w.phase)
          && forall i: nat :: i < |w.tables.info| ==> (w.tables.info[i] == DONE <==> Has(w.accepted, w.phase, i)))
    && (w.phase.MapPhase? ==> forall k :: 0 <= k < |w.accepted| ==> w.accepted[k].phase.MapPhase?)
    && (!w.phase.MapPhase? ==> forall i: nat :: i < w.files ==> Has(w.accepted, MapPhase, i))
    && (w.phase.Exiting? ==> forall i: nat :: i < w.reduces ==> Has(w.accepted, ReducePhase, i))
    && (forall k :: 0 <= k < |w.accepted| ==>
          !w.accepted[k].phase.Exiting? && w.accepted[k].task < TasksOf(w, w.accepted[k].phase))
    && Once(w.accepted)
  }

  ghost predicate Inv(w: World) {
    && (forall i: nat :: i < |w.tables.info| ==> TaskOk(w, i))
    && (forall id :: WorkerOk(w, id))
    && ChoiceOk(w) && DoneOk(w)
  }

  lemma InitialInv(w: World)
    requires Initial(w)
    ensures Inv(w)
  {}

  // ----- what follows from it

  /** No worker that was not given up has two tasks. */
  lemma OneTaskEach(w: World, i: nat, j: nat)
    requires Inv(w) && i < |w.tables.info| && j < |w.tables.info|
    requires w.tables.info[i] == w.tables.info[j] > 0
    ensures i == j
  {
    assert TaskOk(w, i) && TaskOk(w, j);
  }

  /** A report that is accepted is about a task of the present phase, from the worker that the
      task was given to. */
  lemma AcceptedIsAssigned(w: World, id: int)
    requires Inv(w) && w.doing(id).Job? && !IsDead(w.tables, id)
    ensures w.doing(id).phase == w.phase && !w.phase.Exiting?
    ensures w.doing(id).task < |w.tables.info| && w.tables.info[w.doing(id).task] == id
  {
    assert WorkerOk(w, id);
    var i := w.doing(id).task;
    assert TaskOk(w, i);
  }

  // ----- what every step keeps

  lemma RegisterKeeps(w: World, id: int)
    requires Inv(w) && Enabled(w, Register(id))
    ensures Inv(Take(w, Register(id)))
  {
    hide DoneOk, Has;
    var w' := Take(w, Register(id));
    forall i: nat | i < |w'.tables.info|
      ensures TaskOk(w', i)
    {
      assert TaskOk(w, i);
    }
    forall x
      ensures WorkerOk(w', x)
    {
      assert WorkerOk(w, x);
    }
    SameDone(w, w');
  }

  lemma SameDone(w: World, w': World)
    requires DoneOk(w) && w'.accepted == w.accepted && w'.phase == w.phase && w'.files == w.files
    requires w'.reduces == w.reduces && |w'.tables.info| == |w.tables.info|
    requires forall i: nat :: i < |w.tables.info| ==> (w'.tables.info[i] == DONE <==> w.tables.info[i] == DONE)
    ensures DoneOk(w')
  {
    hide Has, Once;
  }

  lemma PickKeeps(w: World, step: Step)
    requires Inv(w) && Enabled(w, step) && (step.PickTask? || step.PickWorker? || step.PickNobody?)
    ensures Inv(Take(w, step))
  {
    hide DoneOk, Has;
    var w' := Take(w, step);
    forall i: nat | i < |w'.tables.info|
      ensures TaskOk(w', i)
    {
      assert TaskOk(w, i);
    }
    forall x
      ensures WorkerOk(w', x)
    {
      assert WorkerOk(w, x);
    }
    if step.PickWorker? {
      assert WorkerOk(w, step.id);
    }
    SameDone(w, w');
  }

  lemma NoteTaskKeeps(w: World)
    requires Inv(w) && Enabled(w, NoteTask)
    ensures Inv(Take(w, NoteTask))
  {
    hide DoneOk, Has;
    var w' := Take(w, NoteTask);
    forall i: nat | i < |w'.tables.info|
      ensures TaskOk(w', i)
    {
      assert TaskOk(w, i);
    }
    forall x
      ensures WorkerOk(w', x)
    {
      assert WorkerOk(w, x);
    }
    SameDone(w, w');
  }

  lemma NoteWorkerKeeps(w: World)
    requires Inv(w) && Enabled(w, NoteWorker)
    ensures Inv(Take(w, NoteWorker))
  {
    hide DoneOk, Has;
    var w' := Take(w, NoteWorker);
    forall i: nat | i < |w'.tables.info|
      ensures TaskOk(w', i)
    {
      assert TaskOk(w, i);
    }
    forall x
      ensures WorkerOk(w', x)
    {
      assert WorkerOk(w, x);
    }
    SameDone(w, w');
  }

  lemma DoingKeeps(w: World, step: Step)
    requires Inv(w) && Enabled(w, step) && (step.TakeJob? || step.GiveUp?)
    ensures Inv(Take(w, step))
  {
    hide DoneOk, Has;
    var w' := Take(w, step);
    forall i: nat | i < |w'.tables.info|
      ensures TaskOk(w', i)
    {
      assert TaskOk(w, i);
    }
    forall x
      ensures WorkerOk(w', x)
    {
      assert WorkerOk(w, x);
    }
    SameDone(w, w');
  }

  lemma LateKeeps(w: World, task: nat)
    requires Inv(w) && Enabled(w, Late(task))
    ensures Inv(Take(w, Late(task)))
  {
    hide DoneOk, Has;
    var w', id := Take(w, Late(task)), w.tables.info[task];
    assert TaskOk(w, task);
    forall i: nat | i < |w'.tables.info|
      ensures TaskOk(w', i)
    {
      assert TaskOk(w, i);
    }
    forall x
      ensures WorkerOk(w', x)
    {
      assert WorkerOk(w, x);
    }
    SameDone(w, w');
  }

  lemma HasMore(accepted: seq<Accepted>, a: Accepted, phase: Phase, i: nat)
    ensures Has(accepted + [a], phase, i) <==> Has(accepted, phase, i) || (a.phase == phase && a.task == i)
  {
    if Has(accepted, phase, i) {
      var k :| 0 <= k < |accepted| && accepted[k].phase == phase && accepted[k].task == i;
      assert (accepted + [a])[k] == accepted[k];
    }
    if a.phase == phase && a.task == i {
      assert (accepted + [a])[|accepted|] == a;
    }
  }

  lemma OnceMore(accepted: seq<Accepted>, a: Accepted)
    requires Once(accepted) && !Has(accepted, a.phase, a.task)
    ensures Once(accepted + [a])
  {}

  lemma ReportDone(w: World, id: int)
    requires Inv(w) && w.doing(id).Job? && !IsDead(w.tables, id)
    ensures DoneOk(Take(w, Report(id)))
  {
    hide TaskOk, WorkerOk, Has, Once;
    AcceptedIsAssigned(w, id);
    var w', job := Take(w, Report(id)), w.doing(id);
    var a := Accepted(job.phase, job.task, id);
    AboveZero(w, id);
    OnceMore(w.accepted, a);
    forall phase, i: nat
      ensures Has(w'.accepted, phase, i) <==> Has(w.accepted, phase, i) || (a.phase == phase && a.task == i)
    {
      HasMore(w.accepted, a, phase, i);
    }
  }

  lemma AboveZero(w: World, id: int)
    requires Inv(w) && w.doing(id).Job?
    ensures id > 0
  {
    assert WorkerOk(w, id);
  }

  lemma ReportKeeps(w: World, id: int)
    requires Inv(w) && Enabled(w, Report(id))
    ensures Inv(Take(w, Report(id)))
  {
    hide DoneOk, Has;
    var w' := Take(w, Report(id));
    if IsDead(w.tables, id) {
      DroppedReport(w, id);
    } else {
      ReportDone(w, id);
      ReportFrees(w, id);
    }
  }

  lemma ReportFrees(w: World, id: int)
    requires Inv(w) && w.doing(id).Job? && !IsDead(w.tables, id)
    ensures var w' := Take(w, Report(id));
            (forall i: nat :: i < |w'.tables.info| ==> TaskOk(w', i)) && (forall x :: WorkerOk(w', x)) && ChoiceOk(w')
  {
    hide DoneOk, Has;
    var w' := Take(w, Report(id));
    AcceptedIsAssigned(w, id);
    assert WorkerOk(w, id);
    forall i: nat | i < |w'.tables.info|
      ensures TaskOk(w', i)
    {
      assert TaskOk(w, i);
    }
    forall x
      ensures WorkerOk(w', x)
    {
      assert WorkerOk(w, x);
    }
  }

  lemma DroppedReport(w: World, id: int)
    requires Inv(w) && Enabled(w, Report(id)) && IsDead(w.tables, id)
    ensures Inv(Take(w, Report(id)))
  {
    hide DoneOk, Has;
    var w' := Take(w, Report(id));
    forall i: nat | i < |w'.tables.info|
      ensures TaskOk(w', i)
    {
      assert TaskOk(w, i);
    }
    forall x
      ensures WorkerOk(w', x)
    {
      assert WorkerOk(w, x);
    }
    SameDone(w, w');
  }

  lemma NextPhaseKeeps(w: World)
    requires Inv(w) && Enabled(w, NextPhase)
    ensures Inv(Take(w, NextPhase))
  {
    hide Has, Once;
    var w' := Take(w, NextPhase);
    forall x
      ensures WorkerOk(w', x)
    {
      assert WorkerOk(w, x);
    }
    if w.phase.MapPhase? {
      forall i: nat | i < w.reduces
        ensures !Has(w.accepted, ReducePhase, i)
      {
        OnlyMaps(w.accepted, i);
      }
    }
  }

  lemma OnlyMaps(accepted: seq<Accepted>, i: nat)
    requires forall k :: 0 <= k < |accepted| ==> accepted[k].phase.MapPhase?
    ensures !Has(accepted, ReducePhase, i)
  {}

  lemma StepKeeps(w: World, step: Step)
    requires Inv(w) && Enabled(w, step)
    ensures Inv(Take(w, step))
  {
    hide Inv, Enabled, Take;
    match step
    case Register(id) => RegisterKeeps(w, id);
    case PickTask(task) => PickKeeps(w, step);
    case PickWorker(id) => PickKeeps(w, step);
    case PickNobody => PickKeeps(w, step);
    case NoteTask => NoteTaskKeeps(w);
    case NoteWorker => NoteWorkerKeeps(w);
    case TakeJob(id) => DoingKeeps(w, step);
    case GiveUp(id) => DoingKeeps(w, step);
    case Report(id) => ReportKeeps(w, id);
    case Late(task) => LateKeeps(w, task);
    case NextPhase => NextPhaseKeeps(w);
  }

  ghost predicate Leads(w: World, steps: seq<Step>, last: World)
    decreases |steps|
  {
    if steps == [] then last == w
    else Enabled(w, steps[0]) && Leads(Take(w, steps[0]), steps[1..], last)
  }

  lemma {:induction false} RunsKeep(w: World, steps: seq<Step>, last: World)
    requires Inv(w) && Leads(w, steps, last)
    ensures Inv(last)
    decreases |steps|
  {
    hide Inv, Enabled, Take;
    if steps != [] {
      StepKeeps(w, steps[0]);
      RunsKeep(Take(w, steps[0]), steps[1..], last);
    }
  }

  /** In every run: no task is accepted twice, once the Reduce phase has begun every Map task has
      been accepted, and at the end every Reduce task too; and no live worker has two tasks. */
  lemma EachTaskOnce(first: World, steps: seq<Step>, w: World)
    requires Initial(first) && Leads(first, steps, w)
    ensures forall k, l :: 0 <= k < l < |w.accepted| && w.accepted[k].phase == w.accepted[l].phase ==>
              w.accepted[k].task != w.accepted[l].task
    ensures !w.phase.MapPhase? ==> forall i: nat :: i < w.files ==> Has(w.accepted, MapPhase, i)
    ensures w.phase.Exiting? ==> forall i: nat :: i < w.reduces ==> Has(w.accepted, ReducePhase, i)
    ensures var info := w.tables.info;
            forall i, j :: 0 <= i < |info| && 0 <= j < |info| && info[i] == info[j] > 0 ==> i == j
  {
    InitialInv(first);
    RunsKeep(first, steps, w);
    hide Leads, Has, TaskOk, WorkerOk;
    forall i, j | 0 <= i < |w.tables.info| && 0 <= j < |w.tables.info| && w.tables.info[i] == w.tables.info[j] > 0
      ensures i == j
    {
      OneTaskEach(w, i, j);
    }
  }

  /** In every run, whatever is accepted next is a task of the phase that is going on, assigned
      to the worker that reports it: a worker that still believes to be doing a Map task cannot
      finish a Reduce task. */
  lemma ReportsAreTimely(first: World, steps: seq<Step>, w: World, id: int)
    requires Initial(first) && Leads(first, steps, w) && w.doing(id).Job?
    requires OnFinish(w.tables, id, w.doing(id).task).1
    ensures w.doing(id).phase == w.phase
    ensures w.doing(id).task < |w.tables.info| && w.tables.info[w.doing(id).task] == id
  {
    InitialInv(first);
    RunsKeep(first, steps, w);
    AcceptedIsAssigned(w, id);
  }
}
