/** The thread pool behind the web server: a FIFO queue of tasks, the list of
    pending job ids and the map of finished results, with each worker's run
    loop taken one atomic iteration at a time. */
module Pool {
  import opened Values

  const StatesMean := "states_mean"

  /** The pandas group-by-and-mean that the states_mean task runs over the
      loaded dataset. It is a parameter: this model does not look inside it. */
  type Aggregation = Payload -> map<string, real>

  /** `handleTask(data, type, state)`: the log line at its top reads
      `data['question']` for every task type, so a body without that field
      raises KeyError whatever the type; only states_mean computes a result,
      every other type falls through and returns None. `state` is never used. */
  function HandleTask(data: Payload, taskType: string, state: Option<string>, statesMean: Aggregation): (r: Result<Value>)
    ensures r.Raise? <==> "question" !in data
    ensures r.Raise? ==> r.error == KeyError("question")
    ensures r.Ok? && taskType != StatesMean ==> r.value == NoneValue
    ensures r.Ok? && taskType == StatesMean ==> r.value == MeanTable(statesMean(data))
    ensures r.Ok? ==> !EqualsTrue(r.value)
  {
    if "question" !in data then Raise(KeyError("question"))
    else if taskType == StatesMean then Ok(MeanTable(statesMean(data)))
    else Ok(NoneValue)
  }

  datatype Task = Task(jobId: int, taskType: string, data: Payload)

  /** `Task.execute`: runs the handler on the task's own body and type, with
      the body's 'state' field (None when absent) as the state argument. */
  function Execute(task: Task, statesMean: Aggregation): (r: Result<Value>)
    ensures r.Raise? <==> "question" !in task.data
    ensures r.Ok? && task.taskType != StatesMean ==> r.value == NoneValue
    ensures r.Ok? && task.taskType == StatesMean ==> r.value == MeanTable(statesMean(task.data))
    ensures r.Ok? ==> r.value.NoneValue? || r.value.MeanTable?
  {
    HandleTask(task.data, task.taskType, Get(task.data, "state"), statesMean)
  }

  /** Python's `list.remove(x)`: drops the first occurrence of `x`, or raises
      ValueError (here: None) when there is none. */
  function RemoveFirst(s: seq<int>, x: int): (r: Option<seq<int>>)
    ensures r.None? <==> x !in s
    ensures r.Some? ==> |r.value| == |s| - 1
  {
    if s == [] then None
    else if s[0] == x then
      assert s == [s[0]] + s[1..];
      Some(s[1..])
    else
      match RemoveFirst(s[1..], x)
      case None => None
      case Some(t) =>
        assert s == [s[0]] + s[1..];
        Some([s[0]] + t)
  }

  lemma {:induction false} RemoveFirstSplit(a: seq<int>, x: int, b: seq<int>)
    requires x !in a
    ensures RemoveFirst(a + [x] + b, x) == Some(a + b)
  {
    var s := a + [x] + b;
    if a == [] {
      assert s[0] == x && s[1..] == b && a + b == b;
    } else {
      assert s[0] == a[0] && a[0] != x;
      assert s[1..] == a[1..] + [x] + b;
      RemoveFirstSplit(a[1..], x, b);
      assert RemoveFirst(s[1..], x) == Some(a[1..] + b);
      assert [a[0]] + (a[1..] + b) == a + b;
    }
  }

  /** `list.remove` takes away exactly one occurrence of the id. */
  lemma {:induction false} RemoveFirstCount(s: seq<int>, x: int)
    requires x in s
    ensures RemoveFirst(s, x).Some?
    ensures multiset(RemoveFirst(s, x).value) == multiset(s) - multiset{x}
  {
    assert s == [s[0]] + s[1..];
    if s[0] != x {
      RemoveFirstCount(s[1..], x);
    }
  }

  function Ids(ts: seq<Task>): (r: seq<int>)
    ensures |r| == |ts|
    ensures forall i :: 0 <= i < |ts| ==> r[i] == ts[i].jobId
  {
    seq(|ts|, i requires 0 <= i < |ts| => ts[i].jobId)
  }

  predicate Increasing(s: seq<int>) {
    forall i, j :: 0 <= i < j < |s| ==> s[i] < s[j]
  }

  /** The bookkeeping that the queue, the pending list and the done map share. */
  datatype PoolState = PoolState(tasks: seq<Task>, pendingTasks: seq<int>, doneTasks: map<int, Value>)

  /** The pool's invariant. `abandoned` lists, oldest first, the jobs whose
      worker raised after taking them off the queue: they stay pending for
      good. Apart from them the pending list is the queue's ids in queue order;
      ids are strictly increasing; no id is both pending and done; and every
      stored result is one the handler can return. */
  ghost predicate Inv(s: PoolState, abandoned: seq<int>) {
    && s.pendingTasks == abandoned + Ids(s.tasks)
    && Increasing(s.pendingTasks)
    && (forall id :: id in s.doneTasks ==> id !in s.pendingTasks)
    && (forall id :: id in s.doneTasks ==> s.doneTasks[id].NoneValue? || s.doneTasks[id].MeanTable?)
  }

  /** An id that may be handed to `add_task` without breaking the invariant:
      larger than every pending id and not already done. */
  predicate IsNewId(s: PoolState, jobId: int) {
    && (forall id :: id in s.pendingTasks ==> id < jobId)
    && jobId !in s.doneTasks
  }

  /** The state after `add_task(data, job_id, task_type)`. */
  function AfterAdd(s: PoolState, data: Payload, jobId: int, taskType: string): (r: PoolState)
    ensures |r.tasks| == |s.tasks| + 1 && r.tasks[..|s.tasks|] == s.tasks
    ensures r.tasks[|s.tasks|] == Task(jobId, taskType, data)
    ensures Ids(r.tasks) == Ids(s.tasks) + [jobId]
    ensures r.pendingTasks == s.pendingTasks + [jobId]
    ensures r.doneTasks == s.doneTasks
  {
    s.(tasks := s.tasks + [Task(jobId, taskType, data)], pendingTasks := s.pendingTasks + [jobId])
  }

  lemma AddKeepsInv(s: PoolState, abandoned: seq<int>, data: Payload, jobId: int, taskType: string)
    requires Inv(s, abandoned) && IsNewId(s, jobId)
    ensures Inv(AfterAdd(s, data, jobId, taskType), abandoned)
    ensures Ids(AfterAdd(s, data, jobId, taskType).tasks) == Ids(s.tasks) + [jobId]
  {
    var t := AfterAdd(s, data, jobId, taskType);
    assert Ids(t.tasks) == Ids(s.tasks) + [jobId];
    assert t.pendingTasks == abandoned + Ids(t.tasks);
    forall i, j | 0 <= i < j < |t.pendingTasks| ensures t.pendingTasks[i] < t.pendingTasks[j] {
      if j == |s.pendingTasks| {
        assert t.pendingTasks[i] == s.pendingTasks[i];
        assert s.pendingTasks[i] in s.pendingTasks;
      }
    }
  }

  /** What one iteration of a worker's inner loop did. */
  datatype StepOutcome =
    | Idle                                 // the queue was empty
    | Completed(task: Task, result: Value)  // result stored, id no longer pending
    | Crashed(task: Task, error: PyError)   // the exception ended the worker thread

  /** One iteration of `TaskRunner.run`'s inner loop: if the queue is not
      empty, take its oldest task, execute it, store the result under the
      task's id and remove the id from the pending list. An exception from the
      handler ends the worker with the task taken but nothing recorded;
      `list.remove` raising ends it after the result is stored. */
  function AfterStep(s: PoolState, statesMean: Aggregation): (r: (StepOutcome, PoolState))
    ensures r.0.Idle? <==> s.tasks == []
    ensures r.0.Idle? ==> r.1 == s
    ensures !r.0.Idle? ==> r.0.task == s.tasks[0] && r.1.tasks == s.tasks[1..]
    ensures r.0.Completed? ==>
      && Execute(s.tasks[0], statesMean) == Ok(r.0.result)
      && r.1.doneTasks == s.doneTasks[r.0.task.jobId := r.0.result]
      && RemoveFirst(s.pendingTasks, r.0.task.jobId) == Some(r.1.pendingTasks)
    ensures s.tasks != [] && Execute(s.tasks[0], statesMean).Raise? ==>
      r == (Crashed(s.tasks[0], Execute(s.tasks[0], statesMean).error), s.(tasks := s.tasks[1..]))
    ensures r.0.Crashed? && Execute(s.tasks[0], statesMean).Ok? ==>
      && s.tasks[0].jobId !in s.pendingTasks
      && r.0.error == ValueError("list.remove(x): x not in list")
      && r.1.pendingTasks == s.pendingTasks
      && r.1.doneTasks == s.doneTasks[s.tasks[0].jobId := Execute(s.tasks[0], statesMean).value]
  {
    if s.tasks == [] then (Idle, s)
    else
      var task := s.tasks[0];
      match Execute(task, statesMean)
      case Raise(e) => (Crashed(task, e), s.(tasks := s.tasks[1..]))
      case Ok(result) =>
        var done := s.doneTasks[task.jobId := result];
        match RemoveFirst(s.pendingTasks, task.jobId)
        case None =>
          (Crashed(task, ValueError("list.remove(x): x not in list")), PoolState(s.tasks[1..], s.pendingTasks, done))
        case Some(pending) => (Completed(task, result), PoolState(s.tasks[1..], pending, done))
  }

  /** The abandoned ids after a step with the given outcome. */
  function Abandon(abandoned: seq<int>, outcome: StepOutcome): seq<int> {
    if outcome.Crashed? then abandoned + [outcome.task.jobId] else abandoned
  }

  lemma IdsTail(ts: seq<Task>)
    requires ts != []
    ensures Ids(ts) == [ts[0].jobId] + Ids(ts[1..])
  {
  }

  /** Removing one element from a strictly increasing sequence keeps it
      strictly increasing, and that element occurs nowhere else in it. */
  lemma IncreasingRemove(a: seq<int>, x: int, b: seq<int>)
    requires Increasing(a + [x] + b)
    ensures Increasing(a + b)
    ensures x !in a && x !in a + b
    ensures forall y :: y in a + b ==> y in a + [x] + b
  {
    var s := a + [x] + b;
    var r := a + b;
    forall i, j | 0 <= i < j < |r| ensures r[i] < r[j] {
      var i' := if i < |a| then i else i + 1;
      var j' := if j < |a| then j else j + 1;
      assert r[i] == s[i'] && r[j] == s[j'];
    }
    forall i | 0 <= i < |a| ensures a[i] != x {
      assert a[i] == s[i] && s[|a|] == x;
    }
    forall i | 0 <= i < |r| ensures r[i] != x {
      var i' := if i < |a| then i else i + 1;
      assert r[i] == s[i'] && s[|a|] == x;
    }
  }

  /** A worker step on a valid pool: on an empty queue it does nothing;
      otherwise it takes the FRONT task, the queue loses exactly that task,
      and either the task's handler returns and the step completes (that
      result is stored under a key that was not done before, every other done
      entry is kept, and its id leaves the pending list) or the handler raises
      KeyError, the step crashes and nothing else changes. The invariant is
      kept. */
  lemma {:induction false} StepKeepsInv(s: PoolState, abandoned: seq<int>, statesMean: Aggregation)
    requires Inv(s, abandoned)
    ensures var (outcome, t) := AfterStep(s, statesMean);
      && Inv(t, Abandon(abandoned, outcome))
      && (s.tasks == [] <==> outcome.Idle?)
      && (outcome.Idle? ==> t == s)
      && (!outcome.Idle? ==> outcome.task == s.tasks[0] && t.tasks == s.tasks[1..])
      && (s.tasks != [] ==> (outcome.Crashed? <==> Execute(s.tasks[0], statesMean).Raise?))
      && (outcome.Completed? ==> Execute(s.tasks[0], statesMean) == Ok(outcome.result))
      && (outcome.Crashed? ==>
            && outcome.error == KeyError("question")
            && t.pendingTasks == s.pendingTasks
            && t.doneTasks == s.doneTasks)
      && (outcome.Completed? ==>
            && outcome.task.jobId !in s.doneTasks
            && t.doneTasks == s.doneTasks[outcome.task.jobId := outcome.result]
            && t.pendingTasks == abandoned + Ids(s.tasks[1..]))
  {
    if s.tasks != [] {
      var task := s.tasks[0];
      var rest := Ids(s.tasks[1..]);
      IdsTail(s.tasks);
      assert s.pendingTasks == abandoned + [task.jobId] + rest;
      IncreasingRemove(abandoned, task.jobId, rest);
      RemoveFirstSplit(abandoned, task.jobId, rest);
    }
  }

  /** The front of the queue holds its oldest job: every task behind it has
      a larger id, so a step always starts the earliest submission. */
  lemma FrontIsOldest(s: PoolState, abandoned: seq<int>)
    requires Inv(s, abandoned) && s.tasks != []
    ensures forall i :: 0 < i < |s.tasks| ==> s.tasks[0].jobId < s.tasks[i].jobId
  {
    forall i | 0 < i < |s.tasks| ensures s.tasks[0].jobId < s.tasks[i].jobId {
      assert s.pendingTasks[|abandoned|] == s.tasks[0].jobId;
      assert s.pendingTasks[|abandoned| + i] == s.tasks[i].jobId;
    }
  }

  /** The ids of the tasks started by `n` successive worker steps, in the
      order the steps took them off the queue. */
  function StartedIds(s: PoolState, n: nat, statesMean: Aggregation): seq<int>
    decreases n
  {
    if n == 0 then []
    else
      var (outcome, t) := AfterStep(s, statesMean);
      if outcome.Idle? then [] else [outcome.task.jobId] + StartedIds(t, n - 1, statesMean)
  }

  /** FIFO: whatever the tasks' outcomes, `n` worker steps start exactly the
      first `n` queued tasks, in queue order. */
  lemma {:induction false} StepsStartInQueueOrder(s: PoolState, n: nat, statesMean: Aggregation)
    ensures StartedIds(s, n, statesMean) == Ids(s.tasks)[..if n < |s.tasks| then n else |s.tasks|]
    decreases n
  {
    if n > 0 && s.tasks != [] {
      var (outcome, t) := AfterStep(s, statesMean);
      assert t.tasks == s.tasks[1..];
      StepsStartInQueueOrder(t, n - 1, statesMean);
      IdsTail(s.tasks);
    }
  }

  /** A thread of the pool. `started` is Python's "start() was called";
      `alive` is "run() has not ended" (it ends only by an exception). */
  class TaskRunner {
    var started: bool
    var alive: bool

    constructor ()
      ensures !started && !alive
    {
      started, alive := false, false;
    }

    /** `Thread.start()`: a thread can be started only once; a second call
        raises RuntimeError and changes nothing. */
    method Start() returns (error: Option<PyError>)
      modifies this
      ensures old(started) ==>
        error == Some(RuntimeError("threads can only be started once")) && started == old(started) && alive == old(alive)
      ensures !old(started) ==> error == None && started && alive
    {
      if started {
        error := Some(RuntimeError("threads can only be started once"));
      } else {
        started, alive := true, true;
        error := None;
      }
    }
  }

  predicate Distinct<T(==)>(s: seq<T>) {
    forall i, j :: 0 <= i < j < |s| ==> s[i] != s[j]
  }

  function Max0(n: int): nat {
    if n < 0 then 0 else n
  }

  class ThreadPool {
    var tasks: seq<Task>
    var doneTasks: map<int, Value>
    var pendingTasks: seq<int>
    var threads: seq<TaskRunner>
    var numThreads: int
    /** Set to 0 by the constructor and never read. */
    var jobId: int
    ghost var abandoned: seq<int>

    function State(): PoolState
      reads this
    {
      PoolState(tasks, pendingTasks, doneTasks)
    }

    ghost predicate Valid()
      reads this
    {
      Inv(State(), abandoned) && Distinct(threads)
    }

    /** `ThreadPool.__init__`: the thread count is TP_NUM_OF_THREADS when
        the environment defines it, the CPU count otherwise, and that many
        runners are built (none when the count is not positive). */
    constructor (tpNumOfThreads: Option<int>, cpuCount: nat)
      ensures Valid()
      ensures numThreads == if tpNumOfThreads.Some? then tpNumOfThreads.value else cpuCount
      ensures |threads| == Max0(numThreads)
      ensures forall r :: r in threads ==> fresh(r) && !r.started && !r.alive
      ensures tasks == [] && pendingTasks == [] && doneTasks == map[] && jobId == 0
    {
      tasks, doneTasks, pendingTasks, threads := [], map[], [], [];
      jobId := 0;
      abandoned := [];
      if tpNumOfThreads.Some? {
        numThreads := tpNumOfThreads.value;
      } else {
        numThreads := cpuCount;
      }
      new;
      var i := 0;
      while i < numThreads
        invariant |threads| == Max0(i) && (numThreads >= 0 ==> i <= numThreads) && (numThreads < 0 ==> i == 0)
        invariant Distinct(threads)
        invariant forall r :: r in threads ==> fresh(r) && !r.started && !r.alive
        invariant numThreads == if tpNumOfThreads.Some? then tpNumOfThreads.value else cpuCount
        invariant tasks == [] && pendingTasks == [] && doneTasks == map[] && jobId == 0 && abandoned == []
      {
        var runner := new TaskRunner();
        threads := threads + [runner];
        i := i + 1;
      }
    }

    ghost function FirstStarted(): (k: nat)
      reads this, set r | r in threads
      ensures k <= |threads|
      ensures forall i :: 0 <= i < k ==> !threads[i].started
      ensures k < |threads| ==> threads[k].started
    {
      FirstStartedFrom(0)
    }

    ghost function FirstStartedFrom(from: nat): (k: nat)
      requires from <= |threads|
      reads this, set r | r in threads
      ensures from <= k <= |threads|
      ensures forall i :: from <= i < k ==> !threads[i].started
      ensures k < |threads| ==> threads[k].started
      decreases |threads| - from
    {
      if from == |threads| || threads[from].started then from else FirstStartedFrom(from + 1)
    }

    /** `start`: starts the threads in order. A thread started before makes
        `Thread.start` raise, which stops the loop there: the threads ahead
        of it are started and the rest are untouched. */
    method Start() returns (error: Option<PyError>)
      requires Valid()
      modifies set r | r in threads
      ensures threads == old(threads)
      ensures error.None? <==> old(FirstStarted()) == |threads|
      ensures error.Some? ==> error.value == RuntimeError("threads can only be started once")
      ensures forall i :: 0 <= i < old(FirstStarted()) ==> threads[i].started && threads[i].alive
      ensures forall i :: old(FirstStarted()) <= i < |threads| ==>
        threads[i].started == old(threads[i].started) && threads[i].alive == old(threads[i].alive)
    {
      ghost var k := FirstStarted();
      var i := 0;
      error := None;
      while i < |threads|
        invariant 0 <= i <= k && error == None
        invariant forall j :: 0 <= j < k ==> !old(threads[j].started)
        invariant k < |threads| ==> old(threads[k].started)
        invariant forall j :: 0 <= j < i ==> threads[j].started && threads[j].alive
        invariant forall j :: i <= j < |threads| ==>
          threads[j].started == old(threads[j].started) && threads[j].alive == old(threads[j].alive)
      {
        error := threads[i].Start();
        if error.Some? {
          return;
        }
        i := i + 1;
      }
    }

    /** `add_task`: the new task goes to the back of the queue and its id to
        the back of the pending list; nothing else changes. The invariant is
        kept when the id is new. */
    method AddTask(data: Payload, jobId: int, taskType: string)
      modifies this
      ensures State() == AfterAdd(old(State()), data, jobId, taskType)
      ensures tasks == old(tasks) + [Task(jobId, taskType, data)]
      ensures pendingTasks == old(pendingTasks) + [jobId]
      ensures doneTasks == old(doneTasks)
      ensures threads == old(threads) && numThreads == old(numThreads) && this.jobId == old(this.jobId)
      ensures abandoned == old(abandoned)
      ensures old(Valid()) && IsNewId(old(State()), jobId) ==> Valid()
    {
      ghost var s := State();
      var task := Task(jobId, taskType, data);
      tasks := tasks + [task];
      pendingTasks := pendingTasks + [jobId];
      if old(Valid()) && IsNewId(s, jobId) {
        AddKeepsInv(s, abandoned, data, jobId, taskType);
      }
    }

    /** One iteration of a live worker's inner loop, taken atomically. A
        handler exception ends the worker: the runner is no longer alive and
        the task's id stays pending. */
    method RunStep(runner: TaskRunner, statesMean: Aggregation) returns (outcome: StepOutcome)
      requires Valid() && runner in threads && runner.alive
      modifies this, runner
      ensures (outcome, State()) == AfterStep(old(State()), statesMean)
      ensures abandoned == Abandon(old(abandoned), outcome)
      ensures runner.alive == !outcome.Crashed? && runner.started == old(runner.started)
      ensures threads == old(threads) && numThreads == old(numThreads) && jobId == old(jobId)
      ensures Valid()
    {
      ghost var s := State();
      StepKeepsInv(s, abandoned, statesMean);
      if tasks == [] {
        return Idle;
      }
      var task := tasks[0];
      tasks := tasks[1..];
      var result := Execute(task, statesMean);
      if result.Raise? {
        outcome := Crashed(task, result.error);
        runner.alive := false;
        abandoned := abandoned + [task.jobId];
        return;
      }
      doneTasks := doneTasks[task.jobId := result.value];
      var removed := RemoveFirst(pendingTasks, task.jobId);
      pendingTasks := removed.value;
      outcome := Completed(task, result.value);
    }
  }
}
