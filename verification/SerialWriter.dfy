// The serial hold writer: the Tk owner submits tasks and applies callbacks, one
// worker thread runs the tasks.  Steps of the two threads interleave freely; each
// queue operation and each test the owner makes is one step.
module SerialWriter {

  type Task = nat

  datatype Entry = Job(task: Task) | StopMark

  // Where the worker thread is between `tasks.get` and `tasks.task_done`.
  datatype Worker = Waiting | Got(task: Task) | Ran(task: Task, ok: bool) | Delivered(task: Task) | Stopping | Exited

  // What the owner is in the middle of.  Callbacks run inside the pump and may
  // submit or close again, so they leave the owner Free.
  datatype Owner = Free | SawNoTasks | Joining

  datatype Outcome = Outcome(task: Task, ok: bool)

  // `accepted`, `ran` and `called` are histories: submissions admitted, tasks
  // executed with how they ended, callbacks invoked with the outcome they were given.
  // Of the drain callbacks `asked` for, `drains` wait and `drained` were invoked.
  datatype Writer = Writer(
    capacity: nat, tasks: seq<Entry>, unfinished: int, results: seq<Outcome>, worker: Worker, owner: Owner,
    closing: bool, closed: bool, asked: nat, drains: nat, drained: nat,
    accepted: seq<Task>, ran: seq<Outcome>, called: seq<Outcome>)

  function New(capacity: nat): Writer {
    Writer(if capacity == 0 then 1 else capacity, [], 0, [], Waiting, Free, false, false, 0, 0, 0, [], [], [])
  }

  datatype Step =
    | Submit(task: Task)
    | Call                  // the pump takes one result and invokes its callback
    | PumpTest              // the pump, after its callbacks
    | CloseIdle
    | DrainThen
    | TestEmpty             // the second half of a test: is the result queue empty?
    | JoinReturns           // the join ended, by exit or by timeout
    | WorkerTakes
    | WorkerRuns(ok: bool)
    | WorkerDelivers
    | WorkerDone

  // The first half of a test: are there unfinished tasks?
  function TestTasks(s: Writer): Writer {
    if s.unfinished == 0 then s.(owner := SawNoTasks) else s
  }

  function OwnerStep(s: Writer, step: Step): Writer {
    match step
    case Submit(task) =>
      if !s.owner.Free? || s.closing || s.closed || |s.tasks| >= s.capacity then s
      else s.(tasks := s.tasks + [Job(task)], unfinished := s.unfinished + 1, accepted := s.accepted + [task])
    case Call =>
      if !s.owner.Free? || s.results == [] then s
      else s.(results := s.results[1..], called := s.called + [s.results[0]])
    case PumpTest =>
      if !s.owner.Free? || !s.closing || s.closed then s else TestTasks(s)
    case CloseIdle =>
      if !s.owner.Free? || s.closed then s else TestTasks(s.(closing := true))
    case DrainThen =>
      if !s.owner.Free? then s
      else if s.closed then s.(asked := s.asked + 1, drained := s.drained + 1)
      else TestTasks(s.(closing := true, asked := s.asked + 1, drains := s.drains + 1))
    case TestEmpty =>
      if !s.owner.SawNoTasks? then s
      else if s.results != [] || |s.tasks| >= s.capacity then s.(owner := Free)
      else s.(owner := Joining, tasks := s.tasks + [StopMark], unfinished := s.unfinished + 1)
    case JoinReturns =>
      if !s.owner.Joining? then s
      else if !s.worker.Exited? then s.(owner := Free)
      else s.(owner := Free, closed := true, drained := s.drained + s.drains, drains := 0)
    case _ => s
  }

  function WorkerStep(s: Writer, step: Step): Writer {
    match step
    case WorkerTakes =>
      if !s.worker.Waiting? || s.tasks == [] then s
      else s.(tasks := s.tasks[1..], worker := if s.tasks[0].Job? then Got(s.tasks[0].task) else Stopping)
    case WorkerRuns(ok) =>
      if s.worker.Got? then s.(worker := Ran(s.worker.task, ok), ran := s.ran + [Outcome(s.worker.task, ok)]) else s
    case WorkerDelivers =>
      if s.worker.Ran? then s.(worker := Delivered(s.worker.task), results := s.results + [Outcome(s.worker.task, s.worker.ok)]) else s
    case WorkerDone =>
      if s.worker.Delivered? then s.(worker := Waiting, unfinished := s.unfinished - 1)
      else if s.worker.Stopping? then s.(worker := Exited, unfinished := s.unfinished - 1)
      else s
    case _ => s
  }

  function Apply(s: Writer, step: Step): Writer {
    if step.WorkerTakes? || step.WorkerRuns? || step.WorkerDelivers? || step.WorkerDone? then WorkerStep(s, step)
    else OwnerStep(s, step)
  }

  function Run(s: Writer, steps: seq<Step>): Writer {
    if steps == [] then s else Apply(Run(s, steps[..|steps| - 1]), steps[|steps| - 1])
  }

  // ------------------------------------------------------------ invariant

  function Jobs(tasks: seq<Entry>): seq<Task> {
    if tasks == [] then []
    else Jobs(tasks[..|tasks| - 1]) + (if tasks[|tasks| - 1].Job? then [tasks[|tasks| - 1].task] else [])
  }

  function Tasks(results: seq<Outcome>): (r: seq<Task>)
    ensures |r| == |results|
  {
    seq(|results|, i requires 0 <= i < |results| => results[i].task)
  }

  // The task the worker holds and has not delivered.
  function InFlight(w: Worker): seq<Task> {
    if w.Got? || w.Ran? then [w.task] else []
  }

  predicate Busy(w: Worker) { !w.Waiting? && !w.Exited? }

  // No accepted task is left to run or to deliver.
  predicate Quiet(s: Writer) { s.closing && Jobs(s.tasks) == [] && InFlight(s.worker) == [] }

  // The worker was told to stop.
  predicate Told(s: Writer) { StopMark in s.tasks || s.worker.Stopping? || s.worker.Exited? }

  ghost predicate QueuesValid(s: Writer) {
    && s.accepted == Tasks(s.called) + Tasks(s.results) + InFlight(s.worker) + Jobs(s.tasks)
    && s.ran == s.called + s.results + (if s.worker.Ran? then [Outcome(s.worker.task, s.worker.ok)] else [])
    && s.unfinished == |s.tasks| + (if Busy(s.worker) then 1 else 0)
    && 1 <= s.capacity && |s.tasks| <= s.capacity
  }

  ghost predicate ClosingValid(s: Writer) {
    && (!s.owner.Free? || Told(s) ==> Quiet(s))
    && (s.owner.Joining? ==> s.results == [] && Told(s))
    && (s.owner.SawNoTasks? ==> s.unfinished == 0)
    && (StopMark in s.tasks ==> s.tasks == [StopMark] && !s.worker.Stopping? && (s.worker.Exited? ==> s.owner.Joining? || s.closed))
    && (s.closed ==> Quiet(s) && s.results == [] && s.worker.Exited? && s.owner.Free?)
    && s.asked == s.drains + s.drained && (if s.closed then s.drains == 0 else s.drained == 0)
  }

  ghost predicate Valid(s: Writer) { QueuesValid(s) && ClosingValid(s) }

  lemma {:induction false} JobsTail(tasks: seq<Entry>)
    requires tasks != []
    ensures Jobs(tasks) == (if tasks[0].Job? then [tasks[0].task] else []) + Jobs(tasks[1..])
  {
    var n := |tasks| - 1;
    if n > 0 {
      JobsTail(tasks[..n]);
      assert tasks[..n][1..] == tasks[1..][..n - 1];
    }
  }

  lemma JobsAppend(tasks: seq<Entry>, e: Entry)
    ensures Jobs(tasks + [e]) == Jobs(tasks) + (if e.Job? then [e.task] else [])
  {
    assert (tasks + [e])[..|tasks|] == tasks;
  }

  lemma SubmitKeeps(s: Writer, task: Task)
    requires Valid(s)
    ensures Valid(OwnerStep(s, Submit(task)))
  {
    JobsAppend(s.tasks, Job(task));
    var done := Tasks(s.called) + Tasks(s.results) + InFlight(s.worker);
    assert done + Jobs(s.tasks) + [task] == done + (Jobs(s.tasks) + [task]);
  }

  lemma HeadCalled(called: seq<Outcome>, results: seq<Outcome>)
    requires results != []
    ensures called + results == (called + [results[0]]) + results[1..]
    ensures Tasks(called) + Tasks(results) == Tasks(called + [results[0]]) + Tasks(results[1..])
  {
    assert Tasks(results) == [results[0].task] + Tasks(results[1..]);
    TaskDelivered(called, results[0]);
  }

  lemma CallKeeps(s: Writer)
    requires Valid(s)
    ensures Valid(OwnerStep(s, Call))
  {
    if s.results != [] {
      HeadCalled(s.called, s.results);
    }
  }

  // Steps that leave the queues and histories alone.
  lemma ControlKeeps(s: Writer, t: Writer)
    requires Valid(s) && ClosingValid(t) && t.capacity == s.capacity
    requires t.accepted == s.accepted && t.ran == s.ran && t.called == s.called && t.results == s.results
    requires t.tasks == s.tasks && t.unfinished == s.unfinished && t.worker == s.worker
    ensures Valid(t)
  {
  }

  // A stop mark is no job.
  lemma StopIsNoJob(tasks: seq<Entry>)
    ensures Jobs(tasks + [StopMark]) == Jobs(tasks)
  {
    JobsAppend(tasks, StopMark);
  }

  // The owner found both queues empty and asks the worker to stop.
  lemma StopKeeps(s: Writer)
    requires Valid(s) && s.owner.SawNoTasks? && s.results == []
    ensures Valid(s.(owner := Joining, tasks := s.tasks + [StopMark], unfinished := s.unfinished + 1))
  {
    var t := s.(owner := Joining, tasks := s.tasks + [StopMark], unfinished := s.unfinished + 1);
    assert Jobs(t.tasks) == Jobs(s.tasks) by {
      StopIsNoJob(s.tasks);
    }
    assert t.tasks[|s.tasks|] == StopMark;
  }

  lemma TestEmptyKeeps(s: Writer)
    requires Valid(s)
    ensures Valid(OwnerStep(s, TestEmpty))
  {
    if s.owner.SawNoTasks? {
      if s.results != [] || |s.tasks| >= s.capacity {
        ControlKeeps(s, s.(owner := Free));
      } else {
        StopKeeps(s);
      }
    }
  }

  lemma OwnerKeeps(s: Writer, step: Step)
    requires Valid(s)
    ensures Valid(OwnerStep(s, step))
  {
    match step {
      case Submit(task) => SubmitKeeps(s, task);
      case Call => CallKeeps(s);
      case TestEmpty => TestEmptyKeeps(s);
      case _ => ControlKeeps(s, OwnerStep(s, step));
    }
  }

  lemma TakesQueues(s: Writer)
    requires Valid(s) && s.worker.Waiting? && s.tasks != []
    ensures QueuesValid(WorkerStep(s, WorkerTakes))
  {
    JobsTail(s.tasks);
    var done := Tasks(s.called) + Tasks(s.results);
    assert done + InFlight(s.worker) == done;
    assert s.tasks[0].Job? ==> done + ([s.tasks[0].task] + Jobs(s.tasks[1..])) == done + [s.tasks[0].task] + Jobs(s.tasks[1..]);
    assert !s.tasks[0].Job? ==> Jobs(s.tasks) == Jobs(s.tasks[1..]);
  }

  lemma TakesKeeps(s: Writer)
    requires Valid(s)
    ensures Valid(WorkerStep(s, WorkerTakes))
  {
    if s.worker.Waiting? && s.tasks != [] {
      TakesQueues(s);
      JobsTail(s.tasks);
      assert StopMark in s.tasks[1..] ==> StopMark in s.tasks;
    }
  }

  lemma TaskDelivered(results: seq<Outcome>, o: Outcome)
    ensures Tasks(results + [o]) == Tasks(results) + [o.task]
  {
  }

  lemma DeliversKeeps(s: Writer)
    requires Valid(s)
    ensures Valid(WorkerStep(s, WorkerDelivers))
  {
    if s.worker.Ran? {
      var o := Outcome(s.worker.task, s.worker.ok);
      TaskDelivered(s.results, o);
      var done := Tasks(s.called) + Tasks(s.results);
      assert Tasks(s.called) + (Tasks(s.results) + [o.task]) == done + [o.task];
      assert done + [o.task] + [] == done + [o.task];
    }
  }

  lemma RunsKeeps(s: Writer, ok: bool)
    requires Valid(s)
    ensures Valid(WorkerStep(s, WorkerRuns(ok)))
  {
  }

  lemma DoneKeeps(s: Writer)
    requires Valid(s)
    ensures Valid(WorkerStep(s, WorkerDone))
  {
  }

  lemma WorkerKeeps(s: Writer, step: Step)
    requires Valid(s)
    ensures Valid(WorkerStep(s, step))
  {
    match step {
      case WorkerTakes => TakesKeeps(s);
      case WorkerRuns(ok) => RunsKeeps(s, ok);
      case WorkerDelivers => DeliversKeeps(s);
      case WorkerDone => DoneKeeps(s);
      case _ =>
    }
  }

  lemma {:induction false} RunValid(capacity: nat, steps: seq<Step>)
    ensures Valid(Run(New(capacity), steps))
  {
    if steps != [] {
      RunValid(capacity, steps[..|steps| - 1]);
      var s, step := Run(New(capacity), steps[..|steps| - 1]), steps[|steps| - 1];
      OwnerKeeps(s, step);
      WorkerKeeps(s, step);
    }
  }

  ghost predicate Prefix<T>(a: seq<T>, b: seq<T>) {
    |a| <= |b| && a == b[..|a|]
  }

  // ------------------------------------------------------------ results

  lemma TasksAppend(a: seq<Outcome>, b: seq<Outcome>)
    ensures Tasks(a + b) == Tasks(a) + Tasks(b)
  {
  }

  // In every interleaving tasks run in submission order and at most once each, and
  // callbacks are invoked in the order of the runs, each with the outcome of its run.
  lemma SubmissionOrder(capacity: nat, steps: seq<Step>)
    ensures var s := Run(New(capacity), steps); Prefix(s.called, s.ran) && Prefix(Tasks(s.ran), s.accepted)
  {
    RunValid(capacity, steps);
    var s := Run(New(capacity), steps);
    assert s.ran[..|s.called|] == s.called;
    TasksAppend(s.called, s.results);
    if s.worker.Ran? {
      TaskDelivered(s.called + s.results, Outcome(s.worker.task, s.worker.ok));
      assert s.accepted == Tasks(s.ran) + Jobs(s.tasks);
    } else {
      assert s.ran == s.called + s.results;
      assert s.accepted == Tasks(s.ran) + (InFlight(s.worker) + Jobs(s.tasks));
    }
  }

  // Closed, or any drain callback, means every accepted task was run and its outcome
  // called back, the worker is gone, and every drain asked for was called back once.
  lemma ClosedMeansDrained(capacity: nat, steps: seq<Step>)
    ensures var s := Run(New(capacity), steps);
            s.closed || s.drained > 0 ==>
              s.closed && Tasks(s.ran) == s.accepted && s.called == s.ran && s.worker.Exited? && s.drained == s.asked
  {
    RunValid(capacity, steps);
  }

  // The queue never holds more than its capacity.
  lemma QueueIsBounded(capacity: nat, steps: seq<Step>)
    ensures var s := Run(New(capacity), steps); |s.tasks| <= s.capacity == (if capacity == 0 then 1 else capacity)
  {
    RunValid(capacity, steps);
    CapacityStays(capacity, steps);
  }

  lemma {:induction false} CapacityStays(capacity: nat, steps: seq<Step>)
    ensures Run(New(capacity), steps).capacity == New(capacity).capacity
  {
    if steps != [] {
      CapacityStays(capacity, steps[..|steps| - 1]);
    }
  }

  // A submission is accepted exactly while the owner is free, the writer is neither
  // closing nor closed, and the queue has room; refused, it changes nothing.
  lemma SubmitExactly(s: Writer, task: Task)
    ensures var t := Apply(s, Submit(task));
            if s.owner.Free? && !s.closing && !s.closed && |s.tasks| < s.capacity
            then t.accepted == s.accepted + [task] && t.tasks == s.tasks + [Job(task)] else t == s
    ensures Apply(New(s.capacity), Submit(task)).accepted == [task]
  {
  }

  lemma ClosedStays(s: Writer, step: Step)
    requires Valid(s) && s.closed
    ensures var t := Apply(s, step); t == s.(asked := t.asked, drained := t.drained)
  {
  }

  // Closing is final: from then on only drain callbacks are counted.
  lemma {:induction false} ClosedIsFinal(capacity: nat, before: seq<Step>, after: seq<Step>)
    requires Run(New(capacity), before).closed
    ensures var s, t := Run(New(capacity), before), Run(New(capacity), before + after);
            t == s.(asked := t.asked, drained := t.drained)
  {
    if after == [] {
      assert before + after == before;
    } else {
      var n := |after| - 1;
      assert (before + after)[..|before + after| - 1] == before + after[..n];
      ClosedIsFinal(capacity, before, after[..n]);
      RunValid(capacity, before + after[..n]);
      ClosedStays(Run(New(capacity), before + after[..n]), after[n]);
    }
  }

  // ------------------------------------------------------------ closing can finish

  lemma {:induction false} RunExtends(s: Writer, a: seq<Step>, b: seq<Step>)
    ensures Run(s, a + b) == Run(Run(s, a), b)
  {
    if b == [] {
      assert a + b == a;
    } else {
      assert (a + b)[..|a + b| - 1] == a + b[..|b| - 1];
      RunExtends(s, a, b[..|b| - 1]);
    }
  }

  lemma StepKeeps(s: Writer, step: Step)
    requires Valid(s)
    ensures Valid(Apply(s, step))
  {
    OwnerKeeps(s, step);
    WorkerKeeps(s, step);
  }

  lemma OneStep(s: Writer, step: Step)
    requires Valid(s)
    ensures Run(s, [step]) == Apply(s, step) && Valid(Run(s, [step]))
  {
    assert [step][..0] == [];
    StepKeeps(s, step);
  }

  function Rank(w: Worker): nat {
    match w
    case Got(_) => 3
    case Ran(_, _) => 2
    case Delivered(_) => 1
    case Stopping => 1
    case _ => 0
  }

  predicate AtEase(s: Writer) { s.worker.Exited? || (s.worker.Waiting? && s.tasks == []) }

  function NextOf(w: Worker): Step {
    match w
    case Got(_) => WorkerRuns(true)
    case Ran(_, _) => WorkerDelivers
    case Delivered(_) => WorkerDone
    case Stopping => WorkerDone
    case _ => WorkerTakes
  }

  lemma WorkerAdvances(s: Writer)
    requires Valid(s) && !AtEase(s)
    ensures var t := Apply(s, NextOf(s.worker));
            4 * |t.tasks| + Rank(t.worker) < 4 * |s.tasks| + Rank(s.worker) && t.owner == s.owner && t.closed == s.closed
            && (s.owner.Joining? ==> t.results == s.results)
  {
  }

  // Left to itself the worker empties the queue, or exits when told.
  lemma {:induction false} WorkerFinishes(s: Writer) returns (steps: seq<Step>)
    requires Valid(s)
    ensures var t := Run(s, steps); Valid(t) && AtEase(t) && t.owner == s.owner && t.closed == s.closed
    decreases 4 * |s.tasks| + Rank(s.worker)
  {
    if AtEase(s) {
      steps := [];
    } else {
      var step := NextOf(s.worker);
      WorkerAdvances(s);
      OneStep(s, step);
      var rest := WorkerFinishes(Apply(s, step));
      RunExtends(s, [step], rest);
      steps := [step] + rest;
    }
  }

  // The pump calls back whatever was delivered.
  lemma {:induction false} PumpFinishes(s: Writer) returns (steps: seq<Step>)
    requires Valid(s) && AtEase(s) && s.owner.Free?
    ensures var t := Run(s, steps); Valid(t) && AtEase(t) && t.owner.Free? && t.results == [] && t.closed == s.closed && t.tasks == s.tasks
    decreases |s.results|
  {
    if s.results == [] {
      steps := [];
    } else {
      OneStep(s, Call);
      var rest := PumpFinishes(Apply(s, Call));
      RunExtends(s, [Call], rest);
      steps := [Call] + rest;
    }
  }

  // Once joining, the worker exits and the join returns.
  lemma JoinFinishes(s: Writer) returns (steps: seq<Step>)
    requires Valid(s) && s.owner.Joining?
    ensures Valid(Run(s, steps)) && Run(s, steps).closed
  {
    steps := WorkerFinishes(s);
    var t := Run(s, steps);
    assert t.worker.Exited?;
    OneStep(t, JoinReturns);
    RunExtends(s, steps, [JoinReturns]);
    steps := steps + [JoinReturns];
  }

  lemma NothingQueued(s: Writer)
    requires Valid(s) && AtEase(s) && s.owner.Free? && !s.closed
    ensures s.tasks == [] && s.unfinished == 0
  {
  }

  // With both queues empty the owner asks the worker to stop.
  lemma CloseJoins(s: Writer)
    requires Valid(s) && AtEase(s) && s.owner.Free? && !s.closed && s.results == []
    ensures var t := Run(s, [CloseIdle, TestEmpty]); Valid(t) && t.owner.Joining?
  {
    NothingQueued(s);
    OneStep(s, CloseIdle);
    OneStep(Apply(s, CloseIdle), TestEmpty);
    RunExtends(s, [CloseIdle], [TestEmpty]);
    assert [CloseIdle] + [TestEmpty] == [CloseIdle, TestEmpty];
  }

  lemma FreeFinishes(s: Writer) returns (steps: seq<Step>)
    requires Valid(s) && s.owner.Free? && !s.closed
    ensures Valid(Run(s, steps)) && Run(s, steps).closed
  {
    var work := WorkerFinishes(s);
    var a := Run(s, work);
    var pump := PumpFinishes(a);
    var b := Run(a, pump);
    CloseJoins(b);
    var tests := [CloseIdle, TestEmpty];
    var join := JoinFinishes(Run(b, tests));
    RunExtends(b, tests, join);
    RunExtends(a, pump, tests + join);
    RunExtends(s, work, pump + (tests + join));
    steps := work + (pump + (tests + join));
  }

  lemma TestFinishes(s: Writer) returns (steps: seq<Step>)
    requires Valid(s) && s.owner.SawNoTasks?
    ensures Valid(Run(s, steps)) && Run(s, steps).closed
  {
    OneStep(s, TestEmpty);
    var t := Apply(s, TestEmpty);
    if t.owner.Joining? {
      steps := JoinFinishes(t);
    } else {
      steps := FreeFinishes(t);
    }
    RunExtends(s, [TestEmpty], steps);
    steps := [TestEmpty] + steps;
  }

  lemma AnyFinishes(s: Writer) returns (steps: seq<Step>)
    requires Valid(s)
    ensures Valid(Run(s, steps)) && Run(s, steps).closed
  {
    if s.closed {
      steps := [];
    } else if s.owner.Joining? {
      steps := JoinFinishes(s);
    } else if s.owner.Free? {
      steps := FreeFinishes(s);
    } else {
      steps := TestFinishes(s);
    }
  }

  // From every state of every run, some schedule of the two threads closes the
  // writer, and with it runs and calls back everything accepted.
  lemma ClosingCanFinish(capacity: nat, before: seq<Step>) returns (after: seq<Step>)
    ensures var s := Run(New(capacity), before + after);
            s.closed && Tasks(s.ran) == s.accepted && s.called == s.ran && s.drained == s.asked
  {
    RunValid(capacity, before);
    after := AnyFinishes(Run(New(capacity), before));
    RunExtends(New(capacity), before, after);
    ClosedMeansDrained(capacity, before + after);
  }
}
