/**
 * The API's ready-time task queue (packages/api/src/queue.js): a
 * module-level min-heap of tasks ordered by readyAt, filled by Enqueue and
 * drained by workers that run a popped task only once its time has come.
 *
 * The heap package is modelled by what it guarantees: a multiset of tasks
 * whose pop yields one of minimal readyAt (which one among equals is left
 * open). Date.now() is the parameter `now`; sleeping and the concurrency of
 * the workers are not modelled, one loop iteration of one worker is.
 */
module Queue {
  import opened Wrappers

  /** The closure a task runs: the function it calls and the service and check it captured. */
  datatype Job = Job(fn: string, service: string, check: string)

  /** A task object; readyAt is None when the property is missing. */
  datatype Task = Task(readyAt: Option<int>, run: Job)

  /** What Enqueue is given: a bare function or a task object. */
  datatype Enqueued = FunctionTask(fn: Job) | ObjectTask(task: Task)

  /** JavaScript truthiness of a readyAt that is a number or missing. */
  predicate Truthy(readyAt: Option<int>) {
    readyAt.Some? && readyAt.value != 0
  }

  /** The task Enqueue stores (queue.js:11-22): a function becomes a task ready now; a falsy readyAt becomes now. */
  function Normalise(arg: Enqueued, now: int): (t: Task)
    ensures t.readyAt.Some?
    ensures arg.FunctionTask? ==> t == Task(Some(now), arg.fn)
    ensures arg.ObjectTask? ==> t.run == arg.task.run
    ensures arg.ObjectTask? ==> t.readyAt == (if Truthy(arg.task.readyAt) then arg.task.readyAt else Some(now))
    decreases if arg.FunctionTask? then 1 else 0
  {
    match arg
    case FunctionTask(fn) => Normalise(ObjectTask(Task(Some(now), fn)), now)
    case ObjectTask(task) => if !Truthy(task.readyAt) then task.(readyAt := Some(now)) else task
  }

  /** Enqueue(fn) stores exactly what Enqueue({readyAt: now, run: fn}) stores. */
  lemma FunctionIsTaskReadyNow(fn: Job, now: int)
    ensures Normalise(FunctionTask(fn), now) == Normalise(ObjectTask(Task(Some(now), fn)), now)
  {
  }

  /** The heap's key; every stored task has a readyAt. */
  function Key(t: Task): int {
    if t.readyAt.Some? then t.readyAt.value else 0
  }

  /** t is one of the tasks the heap may pop from m. */
  predicate IsMin(t: Task, m: multiset<Task>) {
    t in m && forall u | u in m :: Key(t) <= Key(u)
  }

  /** A task may run at `now` unless its readyAt is truthy and later (queue.js:36). */
  predicate Ready(t: Task, now: int) {
    !(Truthy(t.readyAt) && t.readyAt.value > now)
  }

  /** Every non-empty queue has a task the heap can pop. */
  lemma {:induction false} MinExists(m: multiset<Task>)
    requires |m| > 0
    ensures exists t :: IsMin(t, m)
    decreases |m|
  {
    var x :| x in m;
    var rest := m - multiset{x};
    if |rest| == 0 {
      assert m == multiset{x};
      assert IsMin(x, m);
    } else {
      MinExists(rest);
      var y :| IsMin(y, rest);
      if Key(x) <= Key(y) {
        assert IsMin(x, m);
      } else {
        assert IsMin(y, m);
      }
    }
  }

  /**
   * A worker that finds the earliest task not ready leaves nothing ready
   * behind: when every stored readyAt is truthy, no task in the queue may
   * run yet.
   */
  lemma PushBackSkipsNothing(t: Task, m: multiset<Task>, now: int)
    requires IsMin(t, m) && !Ready(t, now)
    requires forall u | u in m :: Truthy(u.readyAt)
    ensures forall u | u in m :: !Ready(u, now)
  {
  }

  /** What one worker iteration did. */
  datatype Step = Idle | PushedBack(task: Task) | Ran(task: Task)

  class TaskQueue {
    /** The heap's contents. */
    var tasks: multiset<Task>

    /** Every stored task has had its readyAt set by Enqueue. */
    ghost predicate Valid()
      reads this
    {
      forall t | t in tasks :: t.readyAt.Some?
    }

    constructor ()
      ensures tasks == multiset{} && Valid()
    {
      tasks := multiset{};
    }

    /** Enqueue (queue.js:11-25): exactly one task, normalised, is added. */
    method Enqueue(arg: Enqueued, now: int)
      requires Valid()
      modifies this
      ensures Valid()
      ensures tasks == old(tasks) + multiset{Normalise(arg, now)}
      decreases if arg.FunctionTask? then 1 else 0
    {
      if arg.FunctionTask? {
        Enqueue(ObjectTask(Task(Some(now), arg.fn)), now);
        return;
      }
      var task := arg.task;
      if !Truthy(task.readyAt) {
        task := task.(readyAt := Some(now));
      }
      tasks := tasks + multiset{task};
    }

    /**
     * One iteration of a PerformWork worker (queue.js:30-43): an empty
     * queue changes nothing; otherwise a task of minimal readyAt is popped,
     * and if its readyAt is truthy and after `now` it is pushed back, so
     * the queue holds what it held; else it is removed and run.
     */
    method WorkStep(now: int) returns (step: Step)
      requires Valid()
      modifies this
      ensures Valid()
      ensures |old(tasks)| == 0 <==> step.Idle?
      ensures step.Idle? || step.PushedBack? ==> tasks == old(tasks)
      ensures step.PushedBack? ==> IsMin(step.task, old(tasks)) && !Ready(step.task, now)
      ensures step.Ran? ==> && IsMin(step.task, old(tasks)) && Ready(step.task, now)
                            && tasks == old(tasks) - multiset{step.task}
    {
      if |tasks| == 0 {
        return Idle;                // sleep(100) and try again
      }
      MinExists(tasks);
      var task :| IsMin(task, tasks);
      tasks := tasks - multiset{task};
      if Truthy(task.readyAt) && task.readyAt.value > now {
        tasks := tasks + multiset{task};
        return PushedBack(task);    // sleep(100) and try again
      }
      return Ran(task);             // await task.run()
    }
  }

  /** A task that runs has readyAt at or before `now`, or a falsy readyAt. */
  lemma RanOnlyWhenDue(t: Task, now: int)
    requires Ready(t, now) && t.readyAt.Some?
    ensures t.readyAt.value <= now || t.readyAt.value == 0
  {
  }
}
