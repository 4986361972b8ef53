/** The web server's job routes: the submit handlers that hand out job ids and
    queue tasks on the pool, the status query, and the index page. */
module Routes {
  import opened Values
  import opened Pool

  /** The submit routes, one per aggregation (`/api/states_mean`, ...). */
  datatype Endpoint =
    | StatesMeanRequest
    | StateMeanRequest
    | Best5Request
    | Worst5Request
    | GlobalMeanRequest
    | DiffFromMeanRequest
    | StateDiffFromMeanRequest
    | MeanByCategoryRequest
    | StateMeanByCategoryRequest

  /** The fixed task type each submit route passes to `add_task`. Only the
      states_mean route asks for the one type the handler computes. */
  function Kind(e: Endpoint): (kind: string)
    ensures kind == StatesMean <==> e == StatesMeanRequest
  {
    match e
    case StatesMeanRequest => "states_mean"
    case StateMeanRequest => "state_mean"
    case Best5Request => "best5"
    case Worst5Request => "worst5"
    case GlobalMeanRequest => "global_mean"
    case DiffFromMeanRequest => "diff_from_mean"
    case StateDiffFromMeanRequest => "state_diff_from_mean"
    case MeanByCategoryRequest => "mean_by_category"
    case StateMeanByCategoryRequest => "state_mean_by_category"
  }

  /** Distinct routes queue distinct task types. */
  lemma KindInjective(e1: Endpoint, e2: Endpoint)
    ensures Kind(e1) == Kind(e2) ==> e1 == e2
  {
  }

  /** The JSON body of a status reply. */
  datatype Response =
    | ErrorResponse(reason: string)
    | DoneResponse(data: Value)
    | RunningResponse

  /** `get_response`, as written: an id with no entry in the done map is
      invalid, even one that was handed out and is still pending; an entry
      that compares equal to True is reported done with that entry as data;
      any other entry is reported running. */
  function GetResponse(doneTasks: map<int, Value>, jobId: int): (r: Response)
    ensures r.ErrorResponse? <==> jobId !in doneTasks
    ensures r.ErrorResponse? ==> r.reason == "Invalid job_id"
    ensures r.DoneResponse? <==> jobId in doneTasks && EqualsTrue(doneTasks[jobId])
    ensures r.DoneResponse? ==> r.data == doneTasks[jobId]
  {
    if jobId !in doneTasks then ErrorResponse("Invalid job_id")
    else if EqualsTrue(doneTasks[jobId]) then DoneResponse(doneTasks[jobId])
    else RunningResponse
  }

  /** The status decision the handler evidently means: a job with an entry in
      the done map is done, and its data is the stored result. */
  function GetResponseIntended(doneTasks: map<int, Value>, jobId: int): (r: Response)
    ensures r.ErrorResponse? <==> jobId !in doneTasks
    ensures r.ErrorResponse? ==> r.reason == "Invalid job_id"
    ensures jobId in doneTasks ==> r == DoneResponse(doneTasks[jobId])
  {
    if jobId !in doneTasks then ErrorResponse("Invalid job_id")
    else DoneResponse(doneTasks[jobId])
  }

  /** The state the routes share: the server's counter and the pool's
      bookkeeping. */
  datatype ServerState = ServerState(jobCounter: int, pool: PoolState)

  /** The pool invariant, and every id the pool knows of was handed out
      before the counter's current value. */
  ghost predicate ServerInv(s: ServerState, abandoned: seq<int>) {
    && Inv(s.pool, abandoned)
    && (forall id :: id in s.pool.pendingTasks ==> id < s.jobCounter)
    && (forall id :: id in s.pool.doneTasks ==> id < s.jobCounter)
  }

  /** A submit handler: returns the counter as the job id, increments the
      counter and queues one task of the route's type under that id. */
  function AfterSubmit(s: ServerState, e: Endpoint, data: Payload): (r: (int, ServerState))
    ensures r.0 == s.jobCounter && r.1.jobCounter == s.jobCounter + 1
    ensures r.1.pool.tasks == s.pool.tasks + [Task(r.0, Kind(e), data)]
    ensures r.1.pool.pendingTasks == s.pool.pendingTasks + [r.0]
    ensures r.1.pool.doneTasks == s.pool.doneTasks
  {
    (s.jobCounter, ServerState(s.jobCounter + 1, AfterAdd(s.pool, data, s.jobCounter, Kind(e))))
  }

  lemma SubmitKeepsInv(s: ServerState, abandoned: seq<int>, e: Endpoint, data: Payload)
    requires ServerInv(s, abandoned)
    ensures ServerInv(AfterSubmit(s, e, data).1, abandoned)
  {
    AddKeepsInv(s.pool, abandoned, data, s.jobCounter, Kind(e));
  }

  /** A worker step leaves the counter alone and keeps the server invariant. */
  lemma StepKeepsServerInv(s: ServerState, abandoned: seq<int>, statesMean: Aggregation)
    requires ServerInv(s, abandoned)
    ensures var (outcome, t) := AfterStep(s.pool, statesMean);
      ServerInv(ServerState(s.jobCounter, t), Abandon(abandoned, outcome))
  {
    StepKeepsInv(s.pool, abandoned, statesMean);
    var (outcome, t) := AfterStep(s.pool, statesMean);
    if outcome.Completed? {
      IdsTail(s.pool.tasks);
      assert forall id :: id in t.pendingTasks ==> id in s.pool.pendingTasks;
      assert outcome.task.jobId in s.pool.pendingTasks by {
        assert s.pool.pendingTasks[|abandoned|] == outcome.task.jobId;
      }
    }
  }

  datatype Request = Request(endpoint: Endpoint, data: Payload)

  /** A series of submissions, one after the other: the final state and the
      job ids the callers received, in order. */
  function SubmitAll(s: ServerState, reqs: seq<Request>): (ServerState, seq<int>)
    decreases |reqs|
  {
    if reqs == [] then (s, [])
    else
      var (jobId, s1) := AfterSubmit(s, reqs[0].endpoint, reqs[0].data);
      var (t, ids) := SubmitAll(s1, reqs[1..]);
      (t, [jobId] + ids)
  }

  /** The tasks that the submissions `reqs` queue when the counter starts at
      `first`. */
  function Enqueued(first: int, reqs: seq<Request>): seq<Task> {
    seq(|reqs|, i requires 0 <= i < |reqs| => Task(first + i, Kind(reqs[i].endpoint), reqs[i].data))
  }

  /** Successive submissions, whatever their routes, receive the consecutive
      ids counter, counter + 1, ..., so distinct and strictly increasing, and
      the counter ends up past the last of them. */
  lemma {:induction false} SubmitAllIds(s: ServerState, reqs: seq<Request>)
    ensures var (t, ids) := SubmitAll(s, reqs);
      && |ids| == |reqs|
      && (forall i :: 0 <= i < |ids| ==> ids[i] == s.jobCounter + i)
      && Increasing(ids)
      && t.jobCounter == s.jobCounter + |reqs|
    decreases |reqs|
  {
    if reqs != [] {
      var (jobId, s1) := AfterSubmit(s, reqs[0].endpoint, reqs[0].data);
      SubmitAllIds(s1, reqs[1..]);
      var (t, ids) := SubmitAll(s1, reqs[1..]);
      var all := [jobId] + ids;
      assert SubmitAll(s, reqs) == (t, all);
      forall i | 0 < i < |all| ensures all[i] == s.jobCounter + i {
        assert all[i] == ids[i - 1];
      }
    }
  }

  lemma EnqueuedCons(first: int, reqs: seq<Request>)
    requires reqs != []
    ensures Enqueued(first, reqs) == [Task(first, Kind(reqs[0].endpoint), reqs[0].data)] + Enqueued(first + 1, reqs[1..])
  {
  }

  /** Each of a series of submissions queues exactly one task, carrying its
      id and its route's type, in submission order. */
  lemma {:induction false} SubmitAllTasks(s: ServerState, reqs: seq<Request>)
    ensures SubmitAll(s, reqs).0.pool.tasks == s.pool.tasks + Enqueued(s.jobCounter, reqs)
    decreases |reqs|
  {
    if reqs != [] {
      var (jobId, s1) := AfterSubmit(s, reqs[0].endpoint, reqs[0].data);
      SubmitAllTasks(s1, reqs[1..]);
      assert SubmitAll(s, reqs).0 == SubmitAll(s1, reqs[1..]).0;
      EnqueuedCons(s.jobCounter, reqs);
      var first := Task(jobId, Kind(reqs[0].endpoint), reqs[0].data);
      assert s1.pool.tasks == s.pool.tasks + [first];
      assert s.pool.tasks + ([first] + Enqueued(s1.jobCounter, reqs[1..])) == (s.pool.tasks + [first]) + Enqueued(s1.jobCounter, reqs[1..]);
    }
  }

  /** A series of submissions extends the pending list by the ids handed
      out, in the same order, and makes nothing done. */
  lemma {:induction false} SubmitAllPending(s: ServerState, reqs: seq<Request>)
    ensures var (t, ids) := SubmitAll(s, reqs);
      && t.pool.pendingTasks == s.pool.pendingTasks + ids
      && t.pool.doneTasks == s.pool.doneTasks
    decreases |reqs|
  {
    if reqs != [] {
      var (jobId, s1) := AfterSubmit(s, reqs[0].endpoint, reqs[0].data);
      SubmitAllPending(s1, reqs[1..]);
      var (t, ids) := SubmitAll(s1, reqs[1..]);
      assert SubmitAll(s, reqs) == (t, [jobId] + ids);
      assert s.pool.pendingTasks + ([jobId] + ids) == (s.pool.pendingTasks + [jobId]) + ids;
    }
  }

  /** A job that has been handed out but not finished (still queued, or
      abandoned by a crashed worker) is reported as an invalid id. */
  lemma PendingIsInvalid(s: PoolState, abandoned: seq<int>, jobId: int)
    requires Inv(s, abandoned) && jobId in s.pendingTasks
    ensures GetResponse(s.doneTasks, jobId) == ErrorResponse("Invalid job_id")
  {
  }

  /** As written, the status query never reports a job done: every stored
      result is None or a dictionary, and neither compares equal to True. */
  lemma AsWrittenNeverDone(s: PoolState, abandoned: seq<int>, jobId: int)
    requires Inv(s, abandoned)
    ensures !GetResponse(s.doneTasks, jobId).DoneResponse?
    ensures jobId in s.doneTasks ==> GetResponse(s.doneTasks, jobId) == RunningResponse
  {
  }

  /** Right after a worker completes a job, the status query as written
      reports it running, while the intended decision reports it done with
      the result the worker stored. */
  lemma CompletedJobStatus(s: PoolState, abandoned: seq<int>, statesMean: Aggregation)
    requires Inv(s, abandoned)
    ensures var (outcome, t) := AfterStep(s, statesMean);
      outcome.Completed? ==>
        && GetResponse(t.doneTasks, outcome.task.jobId) == RunningResponse
        && GetResponseIntended(t.doneTasks, outcome.task.jobId) == DoneResponse(outcome.result)
  {
  }

  const Greeting := "Hello, World!\n Interact with the webserver using one of the defined routes:\n"

  function Paragraph(route: string): string {
    "<p>" + route + "</p>"
  }

  /** One `<p>` paragraph per route, in route order. */
  function Paragraphs(routes: seq<string>): string {
    if routes == [] then "" else Paragraph(routes[0]) + Paragraphs(routes[1..])
  }

  lemma {:induction false} ParagraphsAppend(a: seq<string>, b: seq<string>)
    ensures Paragraphs(a + b) == Paragraphs(a) + Paragraphs(b)
  {
    if a == [] {
      assert a + b == b;
    } else {
      assert (a + b)[1..] == a[1..] + b;
      ParagraphsAppend(a[1..], b);
    }
  }

  /** The web server: its job counter and its pool. Its construction is not
      part of this model; the constructor takes the pool and the counter's
      first value. */
  class WebServer {
    var jobCounter: int
    const tasksRunner: ThreadPool

    ghost function State(): ServerState
      reads this, tasksRunner
    {
      ServerState(jobCounter, tasksRunner.State())
    }

    ghost predicate Valid()
      reads this, tasksRunner
    {
      tasksRunner.Valid() && ServerInv(State(), tasksRunner.abandoned)
    }

    constructor (tasksRunner: ThreadPool, jobCounter: int)
      requires tasksRunner.Valid()
      requires forall id :: id in tasksRunner.pendingTasks ==> id < jobCounter
      requires forall id :: id in tasksRunner.doneTasks ==> id < jobCounter
      ensures Valid()
      ensures this.tasksRunner == tasksRunner && this.jobCounter == jobCounter
    {
      this.tasksRunner := tasksRunner;
      this.jobCounter := jobCounter;
    }

    /** Any of the submit handlers: the caller gets the counter's value as
        its job id, the counter goes up by one, and the pool receives one
        task with that id and the route's type. */
    method Submit(endpoint: Endpoint, data: Payload) returns (jobId: int)
      requires Valid()
      modifies this, tasksRunner
      ensures Valid()
      ensures (jobId, State()) == AfterSubmit(old(State()), endpoint, data)
      ensures jobId == old(jobCounter) && jobCounter == old(jobCounter) + 1
      ensures tasksRunner.tasks == old(tasksRunner.tasks) + [Task(jobId, Kind(endpoint), data)]
      ensures tasksRunner.pendingTasks == old(tasksRunner.pendingTasks) + [jobId]
      ensures tasksRunner.doneTasks == old(tasksRunner.doneTasks)
      ensures tasksRunner.threads == old(tasksRunner.threads) && tasksRunner.abandoned == old(tasksRunner.abandoned)
      ensures tasksRunner.numThreads == old(tasksRunner.numThreads) && tasksRunner.jobId == old(tasksRunner.jobId)
    {
      ghost var s := State();
      SubmitKeepsInv(s, tasksRunner.abandoned, endpoint, data);
      jobId := jobCounter;
      jobCounter := jobCounter + 1;
      tasksRunner.AddTask(data, jobId, Kind(endpoint));
    }

    /** `get_response`: a pure read of the done map; it changes nothing. */
    method GetResults(jobId: int) returns (r: Response)
      ensures r == GetResponse(tasksRunner.doneTasks, jobId)
    {
      r := GetResponse(tasksRunner.doneTasks, jobId);
    }
  }

  /** `index`: the greeting followed by one paragraph per route, built up in
      a loop in route order. */
  method Index(routes: seq<string>) returns (msg: string)
    ensures msg == Greeting + Paragraphs(routes)
  {
    msg := Greeting;
    var paragraphs := "";
    for i := 0 to |routes|
      invariant paragraphs == Paragraphs(routes[..i])
    {
      ParagraphsAppend(routes[..i], [routes[i]]);
      assert routes[..i + 1] == routes[..i] + [routes[i]];
      assert Paragraphs([routes[i]]) == Paragraph(routes[i]);
      paragraphs := paragraphs + Paragraph(routes[i]);
    }
    assert routes[..|routes|] == routes;
    msg := msg + paragraphs;
  }
}
