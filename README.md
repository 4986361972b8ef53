# Job bookkeeping of the Flask statistics web server

The web server takes aggregation requests over a nutrition/obesity dataset.
Each request is answered at once with a job id. The work goes to a pool of
runner threads, and callers poll a status route for the outcome. This project
models that bookkeeping as a sequential state machine. Each thread's work is
taken one atomic step at a time.

- `values.dfy`, module `Values`: the Python values involved. These are request
  bodies, stored results and exceptions. A stored result is only ever None or
  the location-to-mean dictionary. Booleans and numbers are there only to
  define Python's `== True` comparison.
- `task_runner.dfy`, module `Pool` (`app/task_runner.py`):
  - `handleTask`, `Task.execute` and `list.remove` as functions;
  - the pool's shared bookkeeping as a value `PoolState`, with its invariant
    `Inv`;
  - `AfterAdd` and `AfterStep`, the state after `add_task` and after one
    iteration of a runner's inner loop;
  - the classes `TaskRunner` and `ThreadPool`. Their methods change the
    queue, the pending list, the done map and the runners in place, and
    each method is proved against the functions above.
- `routes.dfy`, module `Routes` (`app/routes.py`):
  - the nine submit routes, as one `Endpoint` datatype and the `Submit`
    method of class `WebServer`;
  - the status decision `get_response`, both as written and as evidently
    intended;
  - the `index` page;
  - lemmas about submissions in series, and about the status reported for
    pending and completed jobs.

The pool's invariant says four things:
- The pending list is the ids of the abandoned jobs followed by the queue's
  ids, in queue order. A job is abandoned when its runner raised after taking
  it off the queue.
- Pending ids are strictly increasing.
- No id is both pending and done.
- Every stored result is one the handler can return.

`add_task` keeps the invariant for any new id. Every submit route passes one,
because ids come from the counter. A worker step keeps it too.

The code has no Pending, Running or Failed status of its own, no per-job
result file and no shutdown policy. The model follows the code.

## Model

| member | source | states |
|---|---|---|
| Values.EqualsTrue | app/routes.py:35 | Python's `== True` holds exactly for True, the integer 1 and the float 1.0. None and dictionaries never compare equal to True. |
| Values.Get | app/task_runner.py:32 | `data.get(key, None)`: None exactly when the key is absent, otherwise the key's value. |
| Pool.HandleTask | app/task_runner.py:11-22 | Raises KeyError('question') exactly when the body has no 'question' field, whatever the type. That is the log line's lookup. Otherwise states_mean yields the aggregation's table and every other type yields None. No result compares equal to True. |
| Pool.Execute | app/task_runner.py:30-32 | The handler runs on the task's own body and type. Raising, None for other types and the table for states_mean depend on the task alone. The result is always None or a table. |
| Pool.RemoveFirst | app/task_runner.py:103 | `list.remove`: fails exactly when the id is absent. Otherwise the list is one shorter. |
| Pool.RemoveFirstCount | app/task_runner.py:103 | When the id is present, `list.remove` succeeds and takes away exactly one occurrence of it. |
| Pool.RemoveFirstSplit | app/task_runner.py:103 | Removing x from a + [x] + b, with x not in a, gives a + b. |
| Pool.AfterAdd | app/task_runner.py:65-68 | `add_task`: the queue keeps its old tasks and gains the new task with that id, type and body at the back. The queue's ids and the pending list gain the id at the back. The done map is unchanged. |
| Pool.AddKeepsInv | app/task_runner.py:65-68 | Appending a task with a new id to the back of the queue, and the id to the back of the pending list, keeps the pool invariant. The queue's ids gain the new id at the back. |
| Pool.AfterStep | app/task_runner.py:91-103 | One inner-loop iteration. It is idle, changing nothing, exactly when the queue is empty. Otherwise it takes the front task and the queue loses just that task. If the handler returns, the result is stored under the task's id and the id is removed from the pending list. If the handler raises, only the queue changes and the runner stops with that error. If the handler returns but the id is not pending, `list.remove` raises ValueError after the result is stored, and the pending list stays as it was. |
| Pool.StepKeepsInv | app/task_runner.py:91-103 | A worker step does nothing on an empty queue. Otherwise it takes the front task and the queue loses just that task. If the task completes, its result is stored under an id that was not done before, the other done entries are kept, and the id leaves the pending list. Otherwise the handler raised KeyError and the pending list and done map are unchanged. The step crashes exactly when `Task.execute` raises, and a completed step stores exactly what `Task.execute` returned. The invariant is kept. |
| Pool.FrontIsOldest | app/task_runner.py:91-92 | The front task has a smaller id than every task behind it, so a step starts the oldest submission. |
| Pool.StepsStartInQueueOrder | app/task_runner.py:90-93 | n successive steps start exactly the first n queued tasks, in queue order, whatever their outcomes (FIFO). |
| Pool.TaskRunner.constructor | app/task_runner.py:79-86 | A new runner is neither started nor alive. The queue, lock, done map and pending list it shares are the pool's own, which the model holds once in `ThreadPool`. |
| Pool.TaskRunner.Start | app/task_runner.py:61-63 | `Thread.start`: the first call makes the runner started and alive. A second call raises RuntimeError and changes nothing. |
| Pool.ThreadPool.constructor | app/task_runner.py:35-59 | The thread count is TP_NUM_OF_THREADS when defined, otherwise the CPU count. Exactly that many fresh, unstarted runners are built, or none when the count is not positive. The queue, pending list and done map start empty. |
| Pool.ThreadPool.Start | app/task_runner.py:61-63 | Starts the runners in order and creates none. It succeeds exactly when no runner was started before. Otherwise it stops at the first one that was, with the runners ahead of it started and the rest untouched. |
| Pool.ThreadPool.AddTask | app/task_runner.py:65-68 | The task goes to the back of the queue and its id to the back of the pending list. The done map, the threads and the counter field are unchanged. The invariant is kept for a new id. |
| Pool.ThreadPool.RunStep | app/task_runner.py:91-103 | One inner-loop iteration of a live runner, equal to `AfterStep` on the old state. A raised exception leaves the runner dead and its job abandoned. The invariant is kept. |
| Routes.Kind | app/routes.py:42-185 | The task type each submit route hands to the pool. Only the states_mean route asks for the type the handler computes. |
| Routes.KindInjective | app/routes.py:42-185 | Distinct routes queue distinct task types. |
| Routes.GetResponse | app/routes.py:27-40 | An id not in the done map gets "Invalid job_id". An entry equal to True is reported done, with that entry as data. Any other entry is reported running. |
| Routes.GetResponseIntended | app/routes.py:34-37 | Corrected decision: an id not in the done map is invalid. An id in it is done, with its stored result as data. |
| Routes.AfterSubmit | app/routes.py:50-54 | A submit handler: the id is the counter's old value and the counter grows by one. The queue gains one task with that id, the route's type and the body. The pending list gains the id. The done map is unchanged. |
| Routes.SubmitKeepsInv | app/routes.py:50-54 | Returning the counter as the id, incrementing it and adding the task keeps the pool invariant. It also keeps every known id below the counter. |
| Routes.StepKeepsServerInv | app/task_runner.py:101-103 | A worker step keeps the pool invariant and keeps every known id below the counter. |
| Routes.SubmitAllIds | app/routes.py:42-185 | Successive submissions, on any mix of routes, receive counter, counter + 1, ... as ids, one per submission, so the ids are distinct and strictly increasing. The counter ends higher by the number of submissions. |
| Routes.SubmitAllTasks | app/routes.py:42-185 | Successive submissions queue one task each, with its id, its route's type and its body, behind the old queue and in submission order. |
| Routes.SubmitAllPending | app/routes.py:42-185 | Successive submissions append their ids to the pending list in order. The done map is unchanged. |
| Routes.PendingIsInvalid | app/routes.py:29-32 | An id that was issued and is still pending, queued or abandoned, is reported as "Invalid job_id". |
| Routes.AsWrittenNeverDone | app/routes.py:35-40 | As written, no job is ever reported done. Every id in the done map is reported running. |
| Routes.CompletedJobStatus | app/routes.py:35-40 | Just after a worker completes a job, the handler as written reports it running. The corrected decision reports it done with the stored result. |
| Routes.ParagraphsAppend | app/routes.py:196-197 | The paragraphs of a + b are those of a followed by those of b. |
| Routes.WebServer.Submit | app/routes.py:42-185 | Any submit handler. The id returned is the counter before the call, and the counter afterwards is one larger. The pool's queue gains exactly one task with that id and the route's type, and the pending list gains the id. The done map, the threads, the thread count and the pool's own job id field are unchanged, and the server invariant is kept. |
| Routes.WebServer.GetResults | app/routes.py:27-40 | The status route gives the decision of `GetResponse` on the pool's done map. It has no modifies clause, so it changes nothing. |
| Routes.Index | app/routes.py:188-200 | The page is the greeting followed by `<p>r</p>` for each route r, in route order. |

## Left out

- Threads, the lock, the `Event`s and `Queue.task_done` (app/task_runner.py:70-111) are left out. Their point is concurrency. Each inner-loop iteration is one atomic step. The queue's emptiness test and `get` are separate calls in the source, so two runners can race between them, and the model does not capture that.
- The counter update in the submit routes (app/routes.py:50-51) reads `job_counter` and then increments it, with no lock. Two concurrent requests can read the same value and receive the same id. Each submission is one atomic step in the model, so ids are always distinct here.
- `add_task` (app/task_runner.py:67-68) puts the task on the queue before it appends the id to the pending list, with no lock. A runner can take the task and reach `pendingTasks.remove` (app/task_runner.py:103) in between. The remove then raises ValueError and the runner dies, and once the append runs the id is both done and pending. `AfterStep` models that branch. `Inv` excludes it only because `AddTask` is one atomic step in the model.
- The outer `while not shutdown_event.is_set()` loop is modelled only as repeated steps.
- `shutdown` and `graceful_shutdown` on both classes are left out. The pool sets its own event, which no runner reads, and then joins runners whose loops never end. The runner's `graceful_shutdown` waits on an event that is cleared and set around each task.
- The pandas computation in the states_mean branch is a parameter `statesMean` of the handler. The model does not look inside it, and any exception it could raise is not modelled.
- The `DataIngestor` CSV load is left out. It is file I/O through a module that is not part of this model.
- Flask plumbing is left out: `request.json`, `jsonify`, route decorators, `post_endpoint`'s echo, and `get_defined_routes`' walk over `url_map`. `Index` takes the route strings as a parameter.
- `int(job_id)` on the URL segment is left out. The status query takes an integer, so the ValueError for a non-numeric segment is not modelled.
- The environment value is taken already parsed, as an optional integer, so `int()` failing on it is not modelled.
- `os.cpu_count()` returning None is not modelled.
- The logger calls are left out.
- Request bodies are objects with string fields. A body that is not a JSON object, for which `data.get` raises, is not modelled.
- The routes read `webserver.tasks_runner.done_tasks` and call `get_task_result`. The pool defines neither: its map is `doneTasks`, and it has no such method. The model reads both as the done map and lookup in it.
- The web server object and its counter's first value come from app/__init__.py, which is not part of this model. `WebServer`'s constructor takes the pool and the first counter value.
- Pool.ThreadPool.AddTask: the invariant is promised only for a new id, one above every pending id and not already done. The routes pass only such ids. With a duplicate id the state update is still modelled, but the pending list would no longer mirror the queue.

## Findings

| source | as written | input that shows it | evidently intended | confidence | as-written member | corrected member |
|---|---|---|---|---|---|---|
| app/routes.py:35-37 | reports "done" only when the stored result compares equal to `True`, but the handler stores either None or a location-to-mean dictionary | submit to /api/best5 with body {"question": "Q1"}; after a worker step stores None under the id, the status query answers "running", and it does so forever | a job whose id is in the done map is done, and the reply carries its stored result | not executed; high | Routes.CompletedJobStatus | Routes.GetResponseIntended |

`WebServer.GetResults` keeps the handler's decision as written. `CompletedJobStatus` and `AsWrittenNeverDone` show where it differs from the corrected decision.
