/** The HTTP front of the job queue (engine/task_api.py): submission is
    guarded by the registry, status is passed through, and the registry is
    listed in sorted order. Routing and request parsing are not modelled. */
module TaskApi {
  import opened Json
  import Order
  import TaskRunner

  /** The answer to `POST /engine/tasks/submit`. */
  datatype SubmitResponse =
    | Accepted(jobId: TaskRunner.JobId)        // {'ok': True, 'job_id': id}
    | HttpError(statusCode: int, detail: string)

  /** `task.args or {}` for a request body whose `args` is a mapping or null. */
  function RequestArgs(args: Option<map<string, Value>>): (r: Value)
    ensures args.Some? ==> r == Object(args.value)
    ensures args.None? ==> r == Object(map[])
  {
    Object(if args.Some? then args.value else map[])
  }

  /** `submit_task`: an unregistered name is refused with HTTP 400 before
      anything is created; a registered one is submitted exactly once. */
  method SubmitTask(runner: TaskRunner.Runner, name: string, args: Option<map<string, Value>>)
      returns (resp: SubmitResponse)
    requires runner.Valid()
    modifies runner
    ensures runner.Valid()
    ensures runner.tasks == old(runner.tasks)
    ensures name !in old(runner.tasks) ==>
      resp == HttpError(400, TaskRunner.UnknownTask(name)) &&
      runner.jobs == old(runner.jobs) && runner.queue == old(runner.queue)
    ensures name in old(runner.tasks) ==>
      resp.Accepted? && resp.jobId !in old(runner.jobs) &&
      runner.jobs == old(runner.jobs)[resp.jobId := TaskRunner.Job(
        name, RequestArgs(args), TaskRunner.Queued, None, None, None, None)] &&
      runner.queue == old(runner.queue) + [resp.jobId]
  {
    if name !in runner.tasks {
      return HttpError(400, TaskRunner.UnknownTask(name));
    }
    var payload := RequestArgs(args);
    var id := runner.Submit(name, Some(payload));
    assert TaskRunner.ArgsOrEmpty(Some(payload)) == payload;
    resp := Accepted(id);
  }

  /** `get_status`: exactly what the queue's `status` answers. */
  function GetStatus(runner: TaskRunner.Runner, id: TaskRunner.JobId): (r: TaskRunner.Lookup)
    reads runner
    ensures id !in runner.jobs ==> r == TaskRunner.Unknown
    ensures id in runner.jobs ==> r == TaskRunner.Known(runner.jobs[id])
  {
    runner.Status(id)
  }

  /** `list_tasks`: the registered names, each once, in ascending order. */
  ghost function ListTasks(runner: TaskRunner.Runner): (available: seq<string>)
    reads runner
    ensures Order.StrictlySorted(available)
    ensures |available| == |runner.tasks.Keys|
    ensures forall n :: n in available <==> n in runner.tasks
  {
    Order.SortedList(runner.tasks.Keys)
  }

  lemma BuiltinNamesSorted()
    ensures Order.StrictlySorted(["build_dashboard", "compute_kpis", "dispatch_alerts", "http_get", "sleep"])
  {
    var xs := ["build_dashboard", "compute_kpis", "dispatch_alerts", "http_get", "sleep"];
    assert xs[0][0] == 'b' && xs[1][0] == 'c' && xs[2][0] == 'd' && xs[3][0] == 'h' && xs[4][0] == 's';
    assert Order.Chained(xs);
    Order.ChainedIsSorted(xs);
  }

  /** After import, the listing is exactly the five built-ins in order. */
  lemma BuiltinListing(runner: TaskRunner.Runner)
    requires runner.tasks.Keys == TaskRunner.BuiltinNames()
    ensures ListTasks(runner) ==
      ["build_dashboard", "compute_kpis", "dispatch_alerts", "http_get", "sleep"]
  {
    var expected := ["build_dashboard", "compute_kpis", "dispatch_alerts", "http_get", "sleep"];
    BuiltinNamesSorted();
    assert forall n :: n in expected <==> n in TaskRunner.BuiltinNames();
    Order.SortedUnique(ListTasks(runner), expected);
  }
}
