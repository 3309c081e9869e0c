/** The engine's job queue (engine/task_runner.py): a registry of named
    operations, a map of job records and a FIFO of job ids. A worker takes the
    id at the head of the FIFO and drives its record to `done` or `failed`;
    here that worker body is one atomic `Step`. */
module TaskRunner {
  import opened Json

  /** Job ids. The source draws a random UUID; the model issues a counter,
      which gives the property the source relies on: a new id is fresh. */
  type JobId = nat

  /** A reading of the process clock (`time.time()`), supplied by the caller. */
  type Time = int

  datatype Status = Queued | Running | Done | Failed

  /** How an operation is invoked: `fn(**args)` for a mapping, `fn(args)` otherwise. */
  datatype Call = Keywords(kwargs: map<string, Value>) | Positional(arg: Value)

  /** What an invocation produced: its return value, or `str(e)` of what it raised. */
  datatype Outcome = Returned(value: Value) | Raised(message: string)

  /** A registered operation. The two built-ins whose bodies are plain Python
      are modelled; every other callable (the subprocess-running workspace
      operations, a real HTTP fetch, anything passed to `register`) is foreign
      and is known by a tag, its outcome supplied by the caller's `World`. */
  datatype Operation = Sleep | HttpGetWithoutRequests | Foreign(tag: string)

  /** The outcomes of the foreign callables. */
  type World = (string, Call) -> Outcome

  /** A job record: the dict stored in `_JOBS`. */
  datatype Job = Job(
    name: string,
    args: Value,
    status: Status,
    result: Option<Value>,
    error: Option<string>,
    startedAt: Option<Time>,
    finishedAt: Option<Time>)

  /** What `status(job_id)` answers: the record, or the `{'status': 'unknown'}` sentinel. */
  datatype Lookup = Known(job: Job) | Unknown

  /** A record as `submit` creates it: queued, with nothing filled in yet. */
  predicate Pristine(job: Job)
  {
    job.status == Queued && job.result == None && job.error == None &&
    job.startedAt == None && job.finishedAt == None
  }

  predicate Terminal(s: Status)
  {
    s == Done || s == Failed
  }

  /** `args or {}`: a missing or falsy payload is stored as the empty mapping. */
  function ArgsOrEmpty(args: Option<Value>): (r: Value)
    ensures args.Some? && Truthy(args.value) ==> r == args.value
    ensures args.None? || !Truthy(args.value) ==> r == Object(map[])
    ensures Truthy(r) || r == Object(map[])
  {
    if args.Some? && Truthy(args.value) then args.value else Object(map[])
  }

  /** The call the worker makes with a stored payload. */
  function CallFor(args: Value): (c: Call)
    ensures args.Object? <==> c.Keywords?
    ensures args.Object? ==> c == Keywords(args.fields)
    ensures !args.Object? ==> c == Positional(args)
  {
    match args
    case Object(m) => Keywords(m)
    case _ => Positional(args)
  }

  /** The error text of a job whose name is not registered. */
  function UnknownTask(name: string): string
  {
    "Unknown task: " + name
  }

  /** Invoking a registered operation. */
  function Invoke(op: Operation, call: Call, world: World): (r: Outcome)
    ensures op == Sleep ==> r == TaskSleep(call)
    ensures op == HttpGetWithoutRequests ==> r == HttpGetFallback(call)
    ensures op.Foreign? ==> r == world(op.tag, call)
  {
    match op
    case Sleep => TaskSleep(call)
    case HttpGetWithoutRequests => HttpGetFallback(call)
    case Foreign(tag) => world(tag, call)
  }

  /** What one worker pass does to a job record, given the operation the
      registry holds for its name (`None` when the name is not registered). */
  function RunJob(job: Job, op: Option<Operation>, world: World, startedAt: Time, finishedAt: Time): (r: Job)
    ensures r.name == job.name && r.args == job.args
    ensures Terminal(r.status) && r.finishedAt == Some(finishedAt)
    // an unregistered name fails before the record is marked running
    ensures op.None? ==>
      r.status == Failed && r.error == Some(UnknownTask(job.name)) &&
      r.result == job.result && r.startedAt == job.startedAt
    ensures op.Some? ==> r.startedAt == Some(startedAt)
    ensures op.Some? && Invoke(op.value, CallFor(job.args), world).Returned? ==>
      r.status == Done && r.result == Some(Invoke(op.value, CallFor(job.args), world).value) && r.error == job.error
    ensures op.Some? && Invoke(op.value, CallFor(job.args), world).Raised? ==>
      r.status == Failed && r.error == Some(Invoke(op.value, CallFor(job.args), world).message) && r.result == job.result
  {
    match op
    case None =>
      job.(error := Some(UnknownTask(job.name)), status := Failed, finishedAt := Some(finishedAt))
    case Some(fn) =>
      var running := job.(status := Running, startedAt := Some(startedAt));
      match Invoke(fn, CallFor(job.args), world)
      case Returned(v) => running.(result := Some(v), status := Done, finishedAt := Some(finishedAt))
      case Raised(e) => running.(error := Some(e), status := Failed, finishedAt := Some(finishedAt))
  }

  // ---------------------------------------------------------------------
  // Built-in operations

  predicate AllDigits(ds: string)
  {
    forall k :: 0 <= k < |ds| ==> IsDigit(ds[k])
  }

  /** Python's `int(s)` for text: surrounding white space, an optional sign,
      then one or more ASCII digits. */
  function ParseInt(s: string): (r: Option<int>)
    ensures r.Some? ==> Strip(s, PySpace) != ""
  {
    var t := Strip(s, PySpace);
    if |t| > 0 && (t[0] == '-' || t[0] == '+') then
      var ds := t[1..];
      if |ds| > 0 && AllDigits(ds) then Some(if t[0] == '-' then -(DecimalValue(ds) as int) else DecimalValue(ds) as int)
      else None
    else if |t| > 0 && AllDigits(t) then Some(DecimalValue(t))
    else None
  }

  /** Python's `int(v)` on a decoded value: truncation toward zero for a float. */
  function PyInt(v: Value): (r: Option<int>)
    ensures v.Int? ==> r == Some(v.i)
    ensures v.Null? || v.Array? || v.Object? ==> r == None
  {
    match v
    case Int(i) => Some(i)
    case Bool(b) => Some(if b then 1 else 0)
    case Float(x) => Some(if x >= 0.0 then x.Floor else -((-x).Floor))
    case Str(s) => ParseInt(s)
    case _ => None
  }

  /** The whole number of seconds `task_sleep(seconds=1)` computes from a call,
      or `None` when the call does not bind or `int(seconds)` raises. */
  function SleepSeconds(call: Call): (r: Option<int>)
    ensures call == Keywords(map[]) ==> r == Some(1)
    ensures call.Keywords? && "seconds" in call.kwargs && call.kwargs.Keys <= {"seconds"} ==>
      r == PyInt(call.kwargs["seconds"])
    ensures call.Keywords? && !(call.kwargs.Keys <= {"seconds"}) ==> r == None
  {
    match call
    case Keywords(kw) =>
      if kw.Keys <= {"seconds"} then PyInt(Get(kw, "seconds", Int(1))) else None
    case Positional(v) => PyInt(v)
  }

  /** `time.sleep` turns its argument into a signed 64-bit count of
      nanoseconds before anything else, and raises `OverflowError` when the
      count does not fit. */
  const NanosPerSecond := 1_000_000_000
  const MinTimestamp := -0x8000_0000_0000_0000
  const MaxTimestamp := 0x7FFF_FFFF_FFFF_FFFF
  const TimestampOverflow := "timestamp too large to convert to C _PyTime_t"
  const NegativeSleep := "sleep length must be non-negative"

  predicate FitsTimestamp(seconds: int)
  {
    MinTimestamp <= seconds * NanosPerSecond <= MaxTimestamp
  }

  /** `task_sleep`: sleeps and reports `{'slept': n}`; it raises when the
      arguments do not bind, when `int(seconds)` fails, when the length
      overflows the timestamp `time.sleep` converts it to, and for a
      negative length, in that order. */
  function TaskSleep(call: Call): (r: Outcome)
    ensures r.Returned? <==>
      SleepSeconds(call).Some? && SleepSeconds(call).value >= 0 && FitsTimestamp(SleepSeconds(call).value)
    ensures r.Returned? ==> r.value == Object(map["slept" := Int(SleepSeconds(call).value)])
    ensures SleepSeconds(call).Some? && !FitsTimestamp(SleepSeconds(call).value) ==>
      r == Raised(TimestampOverflow)
    ensures SleepSeconds(call).Some? && FitsTimestamp(SleepSeconds(call).value) && SleepSeconds(call).value < 0 ==>
      r == Raised(NegativeSleep)
  {
    match SleepSeconds(call)
    case None => Raised("task_sleep() arguments do not give an integer number of seconds")
    case Some(n) =>
      if !FitsTimestamp(n) then Raised(TimestampOverflow)
      else if n < 0 then Raised(NegativeSleep)
      else Returned(Object(map["slept" := Int(n)]))
  }

  const MissingUrl := "task_http_get() missing 1 required positional argument: 'url'"

  /** `task_http_get(url, timeout=10)` as defined when `requests` cannot be
      imported: it returns an explanatory result instead of fetching. */
  function HttpGetFallback(call: Call): (r: Outcome)
    ensures r.Returned? ==> r.value == Object(map["error" := Str("requests not installed")])
    ensures call.Positional? ==> r.Returned?
    ensures call.Keywords? ==>
      (r.Returned? <==> "url" in call.kwargs && call.kwargs.Keys <= {"url", "timeout"})
    ensures call.Keywords? && call.kwargs.Keys <= {"timeout"} ==> r == Raised(MissingUrl)
  {
    match call
    case Positional(_) => Returned(Object(map["error" := Str("requests not installed")]))
    case Keywords(kw) =>
      if !(kw.Keys <= {"url", "timeout"}) then Raised("task_http_get() got an unexpected keyword argument")
      else if "url" !in kw then Raised(MissingUrl)
      else Returned(Object(map["error" := Str("requests not installed")]))
  }

  /** The names registered when the module is imported. */
  function BuiltinNames(): set<string>
  {
    {"sleep", "http_get", "compute_kpis", "build_dashboard", "dispatch_alerts"}
  }

  // ---------------------------------------------------------------------
  // The queue

  /** The queue at rest: every record is either queued and waiting in the
      FIFO exactly once, or terminal; ids already issued are below `nextId`. */
  ghost predicate AtRest(jobs: map<JobId, Job>, queue: seq<JobId>, nextId: nat)
  {
    (forall id :: id in jobs ==> id < nextId) &&
    (forall i :: 0 <= i < |queue| ==> queue[i] in jobs) &&
    (forall i, j :: 0 <= i < j < |queue| ==> queue[i] != queue[j]) &&
    (forall id :: id in jobs ==> (id in queue <==> jobs[id].status == Queued)) &&
    (forall id :: id in jobs && jobs[id].status == Queued ==> Pristine(jobs[id])) &&
    (forall id :: id in jobs ==> jobs[id].status != Running)
  }

  /** Submitting keeps the queue at rest: the fresh id gets a pristine record
      and joins the tail of the FIFO. */
  lemma SubmitKeepsAtRest(jobs: map<JobId, Job>, queue: seq<JobId>, nextId: nat, job: Job)
    requires AtRest(jobs, queue, nextId)
    requires Pristine(job)
    ensures nextId !in jobs
    ensures AtRest(jobs[nextId := job], queue + [nextId], nextId + 1)
  {
    assert nextId !in queue;
  }

  /** Finishing the head of the FIFO keeps the queue at rest: its record
      becomes terminal and it leaves the FIFO. */
  lemma StepKeepsAtRest(jobs: map<JobId, Job>, queue: seq<JobId>, nextId: nat, job: Job)
    requires AtRest(jobs, queue, nextId)
    requires queue != [] && Terminal(job.status)
    ensures AtRest(jobs[queue[0] := job], queue[1..], nextId)
  {
    var id := queue[0];
    assert forall other :: other in queue[1..] ==> other != id && other in queue;
  }

  class Runner {
    /** `_TASKS`: operation name to operation. */
    var tasks: map<string, Operation>
    /** `_JOBS`: job id to job record. */
    var jobs: map<JobId, Job>
    /** `_Q`: ids waiting for a worker, head first. */
    var queue: seq<JobId>
    /** The next id to issue. */
    var nextId: nat

    /** The runner's state is at rest between operations. */
    ghost predicate Valid()
      reads this
    {
      AtRest(jobs, queue, nextId)
    }

    /** Module import: the registry holds the five built-ins, nothing is
        queued. `http_get` is the real fetch when `requests` can be imported and
        the explanatory fallback otherwise; the three workspace operations run
        external scripts. */
    constructor (requestsInstalled: bool)
      ensures Valid()
      ensures tasks.Keys == BuiltinNames()
      ensures tasks["sleep"] == Sleep
      ensures tasks["http_get"] == (if requestsInstalled then Foreign("http_get") else HttpGetWithoutRequests)
      ensures tasks["compute_kpis"] == Foreign("compute_kpis")
      ensures tasks["build_dashboard"] == Foreign("build_dashboard")
      ensures tasks["dispatch_alerts"] == Foreign("dispatch_alerts")
      ensures jobs == map[] && queue == []
    {
      var fetch := if requestsInstalled then Foreign("http_get") else HttpGetWithoutRequests;
      var builtins := map["sleep" := Sleep, "http_get" := fetch];
      tasks := builtins["compute_kpis" := Foreign("compute_kpis")]
                       ["build_dashboard" := Foreign("build_dashboard")]
                       ["dispatch_alerts" := Foreign("dispatch_alerts")];
      jobs := map[];
      queue := [];
      nextId := 0;
    }

    /** `register(name, fn)`: adds or replaces exactly one registry entry. */
    method Register(name: string, fn: Operation)
      requires Valid()
      modifies this
      ensures Valid()
      ensures tasks == old(tasks)[name := fn]
      ensures jobs == old(jobs) && queue == old(queue) && nextId == old(nextId)
    {
      tasks := tasks[name := fn];
    }

    /** `submit(name, args)`: any name is accepted; a fresh id gets a queued
        record holding `args or {}` and is appended to the FIFO. */
    method Submit(name: string, args: Option<Value>) returns (id: JobId)
      requires Valid()
      modifies this
      ensures Valid()
      ensures id !in old(jobs)
      ensures jobs == old(jobs)[id := Job(name, ArgsOrEmpty(args), Queued, None, None, None, None)]
      ensures queue == old(queue) + [id]
      ensures tasks == old(tasks)
    {
      id := nextId;
      var job := Job(name, ArgsOrEmpty(args), Queued, None, None, None, None);
      SubmitKeepsAtRest(jobs, queue, nextId, job);
      nextId := nextId + 1;
      jobs := jobs[id := job];
      queue := queue + [id];
    }

    /** `status(job_id)`: the record, or the `unknown` sentinel for an id
        never submitted. */
    function Status(id: JobId): (r: Lookup)
      reads this
      ensures r.Unknown? <==> id !in jobs
      ensures id in jobs ==> r == Known(jobs[id])
    {
      if id in jobs then Known(jobs[id]) else Unknown
    }

    /** One pass of `Worker.run`: take the id at the head of the FIFO, look its
        name up in the registry and write the finished record back. Nothing
        happens when the FIFO is empty (a worker would wait). Every other record
        and the rest of the FIFO are left as they were. */
    method Step(world: World, startedAt: Time, finishedAt: Time) returns (processed: Option<JobId>)
      requires Valid()
      modifies this
      ensures Valid()
      ensures tasks == old(tasks)
      ensures old(queue) == [] ==> processed == None && jobs == old(jobs) && queue == old(queue)
      ensures old(queue) != [] ==>
        var id := old(queue)[0];
        var job := old(jobs)[id];
        var op := if job.name in old(tasks) then Some(old(tasks)[job.name]) else None;
        processed == Some(id) && queue == old(queue)[1..] &&
        jobs == old(jobs)[id := RunJob(job, op, world, startedAt, finishedAt)]
    {
      if queue == [] {
        return None;
      }
      var id := queue[0];
      ghost var waiting := queue;
      queue := queue[1..];
      var job := jobs[id];
      ghost var before := job;
      if job.name !in tasks {
        job := job.(error := Some(UnknownTask(job.name)));
        job := job.(status := Failed);
        job := job.(finishedAt := Some(finishedAt));
      } else {
        var fn := tasks[job.name];
        job := job.(status := Running);
        job := job.(startedAt := Some(startedAt));
        var outcome := Invoke(fn, CallFor(job.args), world);
        match outcome {
          case Returned(v) =>
            job := job.(result := Some(v));
            job := job.(status := Done);
            job := job.(finishedAt := Some(finishedAt));
          case Raised(e) =>
            job := job.(error := Some(e));
            job := job.(status := Failed);
            job := job.(finishedAt := Some(finishedAt));
        }
      }
      assert job == RunJob(before, if before.name in tasks then Some(tasks[before.name]) else None,
                           world, startedAt, finishedAt);
      StepKeepsAtRest(jobs, waiting, nextId, job);
      jobs := jobs[id := job];
      processed := Some(id);
    }
  }

  /** The documented example: `sleep` with `{seconds: 0}` finishes `done`
      with result `{slept: 0}` and no error. */
  lemma SleepZeroFinishesDone(job: Job, world: World, t0: Time, t1: Time)
    requires job.name == "sleep" && job.args == Object(map["seconds" := Int(0)])
    requires Pristine(job)
    ensures var r := RunJob(job, Some(Sleep), world, t0, t1);
      r.status == Done && r.result == Some(Object(map["slept" := Int(0)])) && r.error == None
  {
    var call := CallFor(job.args);
    assert call == Keywords(map["seconds" := Int(0)]);
    assert call.kwargs.Keys == {"seconds"};
    assert SleepSeconds(call) == Some(0);
  }

  /** `sleep` with ten billion seconds fails: `time.sleep` cannot hold that
      many nanoseconds, so the job records the overflow and never sleeps. */
  lemma HugeSleepFails(job: Job, world: World, t0: Time, t1: Time)
    requires job.name == "sleep" && job.args == Object(map["seconds" := Int(10_000_000_000)])
    requires Pristine(job)
    ensures var r := RunJob(job, Some(Sleep), world, t0, t1);
      r.status == Failed && r.error == Some(TimestampOverflow) && r.result == None
  {
    var call := CallFor(job.args);
    assert call == Keywords(map["seconds" := Int(10_000_000_000)]);
    assert call.kwargs.Keys == {"seconds"};
    assert SleepSeconds(call) == Some(10_000_000_000);
  }

  /** A falsy positional payload is not passed on: `args or {}` turns it into
      the empty mapping, so the operation is called with no arguments. */
  lemma FalsyPayloadCallsWithoutArguments(v: Value)
    requires !Truthy(v)
    ensures CallFor(ArgsOrEmpty(Some(v))) == Keywords(map[])
  {
  }
}
