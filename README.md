# Workspace engine and tools: a Dafny model

This project models the parts of the Viss|AI workspace that make decisions:

- **The engine's job queue** (`engine/task_runner.py`). It holds a registry of named operations, a map of job records and a first-in-first-out queue of job ids. A worker takes the job id at the head of the queue and drives that job's record to `done` or `failed`.
- **The HTTP interface for submitting tasks** in front of the queue (`engine/task_api.py`).
- **Four command-line tools:**
  - The *preflight* validator checks the command-centre document, the run-manifest schema and the output directories. When the files are missing it can fall back to another base directory.
  - The *doctor report viewer* picks the newest doctor report and prints one page of it.
  - The *living profile* store is a JSON object of settings edited one key at a time.
  - The *alert dispatcher* honours quiet hours, then dispatches the alerts of an outbox file and clears it.
- **The chat server** (`project/src/server.js`). It keeps an in-memory, per-session history of question/answer exchanges and answers with an echo or with an OpenAI completion.

There is one Dafny module per source file, plus two shared modules:

- `Json` (`json.dfy`) holds the decoded JSON value and `Option`. It also holds Python's truthiness, path joining, decimal digits, and white-space stripping (`str.strip()` and JavaScript's `trim()`).
- `Order` (`order.dfy`) holds Python's string order and the ascending listing `sorted` gives for a set of names.

Stateful code is modelled as state:

- The job queue is the class `TaskRunner.Runner`. Its fields are the registry map, the job map and the queue sequence. `Register`, `Submit` and the worker pass `Step` are methods that modify the object. Each ties its new state to the old one, and all of them preserve the invariant `Valid`, which says the queue is at rest (`AtRest`).
- The chat server is the class `ChatServer.Server`, whose field is its history map. `Chat` is specified by the pure transition `Respond`, and the append-only lemmas are proved about `Respond`.
- Loops in the source are methods with loops:
  - the preflight fallback search and directory creation;
  - reading the outbox;
  - the alert dispatch loop.

  The fallback search, the directory loop and the outbox reader are each proved equal to a specification function, and the properties are proved about that function. The dispatch loop's contract states directly when it completes and what it counts.

The file system, the clock, time zones, JSON decoding, the OpenAI call and the storage query are parameters.

Where the documented design and the code disagree, the model follows the code. Two such places:

- **Unknown task names.** The worker raises before it marks the record `running` (engine/task_runner.py:16-19). So a job with an unknown name goes from `queued` straight to `failed`, with no start time. The documented design describes `queued→running→failed`.
- **Submission.** The documented design says submission never rejects a name. That is true of `submit` itself. The HTTP route `submit_task` does refuse unregistered names with status 400.

## Model

| member | source | states |
|---|---|---|
| TaskRunner.ArgsOrEmpty | engine/task_runner.py:107 | `args or {}`: a truthy payload is stored as given; a missing or falsy one becomes the empty mapping |
| TaskRunner.CallFor | engine/task_runner.py:20 | a mapping payload is passed as keywords, exactly when it is an object; any other payload is passed as one positional value |
| TaskRunner.Invoke | engine/task_runner.py:20 | the built-in `sleep` and the `http_get` fallback run their modelled bodies; every other operation's outcome is the caller-supplied world's |
| TaskRunner.RunJob | engine/task_runner.py:13-23 | a worker pass always ends in `done` or `failed` with the finish time set. For an unregistered name: `failed` with error `Unknown task: <name>`, never started, result untouched. If the operation returns: `done` with that result and no error. If it raises: `failed` with the message, result untouched |
| TaskRunner.PyInt | engine/task_runner.py:31 | `int(v)` on a decoded value: an integer is itself; null, lists and objects raise |
| TaskRunner.ParseInt | engine/task_runner.py:31 | `int(s)` on text succeeds only on non-blank text (optional sign, ASCII digits, surrounding white space) |
| TaskRunner.SleepSeconds | engine/task_runner.py:30-31 | `task_sleep` called with no arguments sleeps 1 second; with only `seconds`, `int(seconds)` of it; any other keyword does not bind |
| TaskRunner.TaskSleep | engine/task_runner.py:30-31 | returns exactly when the seconds are an integer n >= 0 whose count of nanoseconds fits a signed 64-bit timestamp, and the result is `{'slept': n}`; a length outside that range raises the overflow, and a negative one in range raises `sleep length must be non-negative` |
| TaskRunner.HttpGetFallback | engine/task_runner.py:38-40 | without `requests`, the result is always `{'error': 'requests not installed'}`; keyword calls bind exactly when `url` is given and nothing but `url`/`timeout`, and a call with at most `timeout` raises Python's missing-argument message for `url` |
| TaskRunner.Runner.constructor | engine/task_runner.py:33-42 | after import the registry holds exactly the five built-ins of lines 42 and 96-100, with `http_get` depending on whether `requests` imports; no jobs and an empty queue |
| TaskRunner.Runner.Register | engine/task_runner.py:102-103 | adds or overwrites exactly one registry entry; jobs and queue unchanged |
| TaskRunner.Runner.Submit | engine/task_runner.py:105-109 | a fresh id gets a pristine `queued` record holding `args or {}`, and the id is appended to the tail of the queue; registry unchanged |
| TaskRunner.Runner.Status | engine/task_runner.py:111-112 | the record of a known id; the `unknown` sentinel exactly for an id never submitted |
| TaskRunner.Runner.Step | engine/task_runner.py:10-25 | removes exactly the head id, writes back only that job's record as `RunJob` gives it, and leaves the rest of the queue, every other record and the registry unchanged; an empty queue changes nothing |
| TaskRunner.SubmitKeepsAtRest | engine/task_runner.py:105-109 | submitting keeps the queue at rest: the new id was never issued, its record is pristine and `queued`, and it waits in the queue exactly once |
| TaskRunner.StepKeepsAtRest | engine/task_runner.py:10-25 | finishing the head job keeps the queue at rest: its record becomes terminal and it leaves the queue, so every queued record is still waiting exactly once and no record is left `running` |
| TaskRunner.SleepZeroFinishesDone | engine/task_runner.py:30-31 | `sleep` with `{seconds: 0}` finishes `done` with result `{slept: 0}` and no error |
| TaskRunner.HugeSleepFails | engine/task_runner.py:30-31 | `sleep` with `{seconds: 10**10}` finishes `failed` with the timestamp overflow and no result |
| TaskRunner.FalsyPayloadCallsWithoutArguments | engine/task_runner.py:107 | a falsy payload leads to a call with no arguments at all |
| TaskApi.RequestArgs | engine/task_api.py:15 | `task.args or {}` for a body whose `args` is a mapping or null |
| TaskApi.SubmitTask | engine/task_api.py:12-16 | an unregistered name gets HTTP 400 `Unknown task: <name>` and creates no record and no queue entry; a registered name is submitted once, giving a fresh id, a queued record and one queue entry |
| TaskApi.GetStatus | engine/task_api.py:18-20 | passes `status` through, including the `unknown` sentinel |
| TaskApi.ListTasks | engine/task_api.py:22-24 | the registered names, each exactly once, in ascending order |
| TaskApi.BuiltinListing | engine/task_api.py:22-24 | right after import the listing is `build_dashboard, compute_kpis, dispatch_alerts, http_get, sleep` |
| Order.SortedList | engine/task_api.py:24 | `sorted` of a set of names: same names, same count, strictly ascending |
| Order.SortedUnique | engine/task_api.py:24 | two strictly ascending listings of the same names are equal, so the sorted listing is unique |
| Order.LastIsGreatest | mirror_mnt_data_doctor_viewer.py:89 | the last element of a sorted listing is its greatest name |
| Json.Strip | mirror_mnt_data_living_profile.py:42 | `str.strip()` / `trim()`: a contiguous part of the input with no white space at either end, empty exactly when the input is blank; only white space lies before and after it |
| Json.Truthy | engine/task_runner.py:107 | Python truthiness of a decoded value: false exactly for `None`, `False`, `0`, `0.0`, `""`, `[]` and `{}` |
| Json.JoinPath | mirror_mnt_data_doctor_viewer.py:38 | `base / name`: the base, one separator and the name; the name alone for an empty base |
| Preflight.Reroot | mirror_mnt_data_preflight_lite.py:162-167 | all five paths are re-rooted under the new base; lane and time zone are kept |
| Preflight.Default | mirror_mnt_data_preflight_lite.py:80-90 | `PreflightConfig.default(base)`: base (or `/mnt/data`), `tool.md` and schema under it, `_out`, `_out/doctor`, `_out/apply`, lane `A_FAST`, time zone `Europe/Vilnius` |
| Preflight.Candidates | mirror_mnt_data_preflight_lite.py:148-157 | the fallback search starts at `/mnt/data` |
| Preflight.FirstWithBoth | mirror_mnt_data_preflight_lite.py:158-161 | the position of the first candidate holding both files; no earlier candidate holds both; `None` when none does |
| Preflight.FallbackResult | mirror_mnt_data_preflight_lite.py:141-176 | nothing changes when fallback is disabled or both files exist, or when no candidate qualifies. Otherwise the config is re-rooted under the first qualifying base, with exactly one `BASE_FALLBACK` warning added. Only warnings are ever added |
| Preflight.TryFallbackBase | mirror_mnt_data_preflight_lite.py:141-176 | the in-place candidate loop computes exactly `FallbackResult` |
| Preflight.ToolIssues | mirror_mnt_data_preflight_lite.py:194-211 | at most one error; `MISSING_TOOL_MD` when absent, `EMPTY_TOOL_MD` when present but not a non-empty file, nothing exactly when it is a non-empty file |
| Preflight.SchemaIssues | mirror_mnt_data_preflight_lite.py:212-233 | `MISSING_SCHEMA` when absent whatever the flag; when present, nothing without validation, and with validation nothing exactly when it parses; `SCHEMA_INVALID_JSON` only under validation |
| Preflight.MakeDirs | mirror_mnt_data_preflight_lite.py:234-238 | existing entries are kept; every new entry is a directory among the output dirs; every output dir whose creation does not fail ends up present |
| Preflight.DirIssues | mirror_mnt_data_preflight_lite.py:234-247 | at most one issue per output dir, and every issue is a `MKDIR_FAILED` error |
| Preflight.FailedDirs | mirror_mnt_data_preflight_lite.py:234-247 | one `MKDIR_FAILED` error, in order, per output dir absent at the start whose creation fails; none when no such dir exists |
| Preflight.DirIssuesAgainstInitial | mirror_mnt_data_preflight_lite.py:234-247 | checking each dir after the earlier ones were created gives the same issues as judging all against the initial file system |
| Preflight.CreateDirs | mirror_mnt_data_preflight_lite.py:234-247 | the directory loop leaves the file system of `MakeDirs` and the issues of `DirIssues` |
| Preflight.ReportOf | mirror_mnt_data_preflight_lite.py:179-268 | `ok` iff no issue is an error, so the fallback warning never makes it false. The issues are the fallback's followed by the checks on the re-rooted config. At most one of the two tool.md codes appears, and no `SCHEMA_INVALID_JSON` without validation |
| Preflight.CodesOfReport | mirror_mnt_data_preflight_lite.py:194-248 | counting over the whole list: the warning-only prefix does not affect `ok`, the tool.md codes are exclusive, and schema parsing is reported only under validation |
| Preflight.WarningsKeepNoErrors | mirror_mnt_data_preflight_lite.py:248 | warnings placed before a list of issues do not change whether the list holds an error |
| Preflight.Preflight | mirror_mnt_data_preflight_lite.py:179-268 | `preflight` returns `ReportOf`, leaves the config re-rooted as the fallback decides and the file system with the output dirs created |
| Preflight.ExitCode | mirror_mnt_data_preflight_lite.py:302-303 | exit 0 iff `ok` or soft-fail, else 1 |
| Preflight.MainConfig | mirror_mnt_data_preflight_lite.py:383-384 | the default config for `--base` with `--lane` and `--tz` applied |
| Preflight.RunPreflight | mirror_mnt_data_preflight_lite.py:379-407 | `main` reports `ReportOf` with fallback unless `--no-fallback` and validation unless `--no-validate-schema`; exit 0 iff the report is ok or `--strict` is off, and 1 for a failing report under `--strict` |
| DoctorViewer.AtLeastOne | mirror_mnt_data_doctor_viewer.py:53-56 | a page number or page size below 1 is read as 1, others unchanged |
| DoctorViewer.PageItems | mirror_mnt_data_doctor_viewer.py:52-59 | at most `page_size` items, empty past the end, a full page whenever the list reaches its end |
| DoctorViewer.ItemOnItsPage | mirror_mnt_data_doctor_viewer.py:57-59 | item `i` is at position `i % size` of page `i / size + 1`: the page is the contiguous slice |
| DoctorViewer.FirstPagesArePrefix | mirror_mnt_data_doctor_viewer.py:57-59 | pages 1..n read in turn are exactly the first `n * size` items, without gaps or repeats |
| DoctorViewer.ReportListing | mirror_mnt_data_doctor_viewer.py:38-39 | the `doctor-*.json` and `doctor-*.json.gz` names of a listing, strictly ascending |
| DoctorViewer.FindReports | mirror_mnt_data_doctor_viewer.py:34-39 | `[]` for a missing directory; otherwise the sorted report names joined to the directory |
| DoctorViewer.Latest | mirror_mnt_data_doctor_viewer.py:88-89 | `None` exactly when no name is a report name; otherwise a report name of the listing that is greatest among them |
| DoctorViewer.LatestReport | mirror_mnt_data_doctor_viewer.py:85-89 | `None` exactly when the directory is missing or holds no report name; otherwise the directory joined to its greatest report name |
| DoctorViewer.LatestIsLastFound | mirror_mnt_data_doctor_viewer.py:88-89 | the pick is `reports[-1]` of `find_reports`, and `None` when that is empty |
| DoctorViewer.LoadJson | mirror_mnt_data_doctor_viewer.py:42-49 | gzip decoding exactly when the name ends in `.gz`; a directory fails to load |
| DoctorViewer.SelectSource | mirror_mnt_data_doctor_viewer.py:85-89 | a non-empty `--file` wins; otherwise the latest report of `--dir` |
| DoctorViewer.Paged | mirror_mnt_data_doctor_viewer.py:130-132 | `len` and `page_items` succeed exactly on a list or a string, with the full length |
| DoctorViewer.PageOf | mirror_mnt_data_doctor_viewer.py:121-135 | raises exactly when `issues` or `files` (default `[]`) is neither list nor string; otherwise exit 0 with a page naming the file, whose totals and items are `len` and `page_items` of each and whose header fields default to `null` |
| DoctorViewer.ViewerMain | mirror_mnt_data_doctor_viewer.py:76-135 | exit 0 exactly for a page or for an empty selection under `--ok-if-empty`, else 1. Nothing selected gives `empty` with `ok` equal to the flag. A missing path gives `NotFound` and exit 1; a path that fails to load gives `LoadFailed` and exit 1; a loaded value that is not an object raises. A loaded object gives exactly `PageOf` of it, so it is a page with exit 0 unless its `issues` or `files` is neither list nor string. A page names the selected file, its totals and items are `len` and `page_items` of the report's `issues` and `files` (default `[]`), and its header fields are the report's (default `null`). A crash happens only after a successful load |
| DoctorViewer.CountsIgnorePage | mirror_mnt_data_doctor_viewer.py:121-135 | `issues_total` and `files_total` are the same whatever page and page size are asked for |
| DoctorViewer.ScriptStatus | mirror_mnt_data_doctor_viewer.py:186-191 | the swallowed `SystemExit` makes the process status 0 whenever `main` returns |
| DoctorViewer.EmptyDirectoryCase | mirror_mnt_data_doctor_viewer.py:145-151 | an empty directory exits 1, and 0 with `--ok-if-empty` |
| DoctorViewer.SampleIsPicked | mirror_mnt_data_doctor_viewer.py:165-168 | the lone gzip sample is the report `--last` picks |
| DoctorViewer.GzipReportCase | mirror_mnt_data_doctor_viewer.py:153-170 | the selftest's gzip report, with its `ok`, `ts`, `base_dir`, `lane` and `timezone` header, shows page 1 of size 1 with that header, both totals 1 and exit 0 |
| DoctorViewer.CorruptReportCase | mirror_mnt_data_doctor_viewer.py:172-179 | a report that does not decode exits 1 with a load error |
| LivingProfile.LoadProfile | mirror_mnt_data_living_profile.py:37-45 | `{}` for a missing, unreadable, blank or undecodable file; otherwise what it decodes to |
| LivingProfile.Coerce | mirror_mnt_data_living_profile.py:55-63 | the decoded value when the raw text is JSON, else the raw string |
| LivingProfile.ProfileMain | mirror_mnt_data_living_profile.py:76-110 | `show` exits 0 with the loaded profile and writes nothing. `set`/`dry_run` exit 2 exactly when the key is empty or missing or the value is missing, and then write nothing. Only `set` writes, and only the profile path, with the dump of the saved object. A non-object profile raises |
| LivingProfile.DryRunPreviewsSet | mirror_mnt_data_living_profile.py:94-105 | the `dry_run` preview equals what `set` saves: the old object with only that key rebound to the coerced value; `dry_run` leaves the files unchanged |
| LivingProfile.SavedLoadsBack | mirror_mnt_data_living_profile.py:103-104 | after `set`, loading the file gives back exactly the object `set` saved, for a codec that reads back what it writes |
| LivingProfile.SetThenShow | mirror_mnt_data_living_profile.py:103-104 | after `set`, `show` has the key bound to the coerced value and every other key as before, for a codec that reads back what it writes |
| LivingProfile.SetIsIdempotent | mirror_mnt_data_living_profile.py:103-104 | setting the same key and value twice leaves the same file as once |
| LivingProfile.ScriptEntrySuppress | mirror_mnt_data_living_profile.py:115-129 | the integer code `main` returned, instead of raising |
| LivingProfile.MissingFileAndMissingArguments | mirror_mnt_data_living_profile.py:139-167 | `show` on a missing file exits 0 with `{}`; `set` without key and value exits 2, writes nothing, and the entry point returns 0 and 2 |
| LivingProfile.PlainStringPersists | mirror_mnt_data_living_profile.py:153-160 | a value that is not JSON is stored as that string and read back as it |
| AlertDispatch.ParseTime | data/tools/alert_dispatch.py:41-42 | a parsed bound is a whole second within one day |
| AlertDispatch.ParseFormatted | data/tools/alert_dispatch.py:41-42 | every well-formed `HH`, `HH:MM` or `HH:MM:SS` with hours up to 23 and minutes and seconds up to 59 parses to its microseconds since midnight |
| AlertDispatch.ParsedIsFormatted | data/tools/alert_dispatch.py:41-42 | every accepted text is such a formatted time, with fields in range, and its value is read from its hour, minute and second |
| AlertDispatch.SwappedWindowIsComplement | data/tools/alert_dispatch.py:45-48 | for distinct ends, the window and its swap split the day: an overnight window is the complement of the daytime one |
| AlertDispatch.EqualEndsNeverQuiet | data/tools/alert_dispatch.py:47-48 | `start == end` is never quiet |
| AlertDispatch.InWindow | data/tools/alert_dispatch.py:45-48 | a daytime window (start <= end) is quiet exactly from start up to end; an overnight window is quiet exactly outside end up to start |
| AlertDispatch.LoadConfig | data/tools/alert_dispatch.py:17-26 | the built-in default when the file is missing, else its decoded content |
| AlertDispatch.IsQuietHours | data/tools/alert_dispatch.py:29-51 | raises exactly when the config or its `quiet_hours` is not an object. Otherwise quiet iff the zone is known, both bounds parse and the zone's time lies in the window. Any failure inside the `try` means not quiet |
| AlertDispatch.DefaultQuietHours | data/tools/alert_dispatch.py:19-23 | the default config is quiet from 22:00 to 07:00 Vilnius time when that zone is known |
| AlertDispatch.LineAlert | data/tools/alert_dispatch.py:61-67 | a line contributes at most one alert, and none when blank |
| AlertDispatch.Kept | data/tools/alert_dispatch.py:61-67 | never more alerts than lines |
| AlertDispatch.KeptOfBlank | data/tools/alert_dispatch.py:62-63 | an outbox of blank lines yields no alerts |
| AlertDispatch.KeptOfValid | data/tools/alert_dispatch.py:61-65 | when every line is non-blank valid JSON, the alerts are the decoded lines, one per line, in order |
| AlertDispatch.KeptConcat | data/tools/alert_dispatch.py:61-67 | the alerts kept from two runs of lines are those of each, in order |
| AlertDispatch.LoadAlerts | data/tools/alert_dispatch.py:54-69 | `[]` for a missing outbox; `None` (the open or the read raises) for an unreadable one; otherwise exactly the non-blank lines that decode, in file order |
| AlertDispatch.DispatchAlert | data/tools/alert_dispatch.py:72-102 | returns exactly when the config, its channels and the alert are objects and the change is a number, and then always returns true |
| AlertDispatch.DispatchAll | data/tools/alert_dispatch.py:152-155 | completes exactly when every alert is dispatchable, and then the count equals the number of alerts |
| AlertDispatch.AlertMain | data/tools/alert_dispatch.py:111-164 | returns 0 whenever it returns; an undecodable config raises. Without `--flush`, quiet hours return before the outbox is read, and a failing quiet check raises. Past that check: an unreadable outbox raises; an empty queue reports no alerts; a non-empty queue of dispatchable alerts reports their number and the dry-run flag; one alert that is not dispatchable raises. The outbox is cleared exactly when a run that is not a dry run dispatched something, and a crash clears nothing |
| ChatServer.Echo | project/src/server.js:114 | the echo reply is `Hello! You asked: "` followed by the question verbatim and a closing quote |
| ChatServer.Reply | project/src/server.js:113-147 | without a client, or when the call throws, the answer is the echo. With a non-blank first-choice text it is that text trimmed. It is never empty |
| ChatServer.Respond | project/src/server.js:96-169 | a request missing `question` or `session_identifier` is refused with 400 and leaves the map unchanged. A valid one adds its session if absent and appends exactly one `{question, answer, timestamp}`; every other session is unchanged. Mode is `openai` iff a client exists; `usage` is present only when a client returned it |
| ChatServer.Server.constructor | project/src/server.js:13-19 | a client exists iff its environment variables are non-empty; the history starts empty |
| ChatServer.Server.Chat | project/src/server.js:96-169 | the handler's response and new history map are those of `Respond` |
| ChatServer.HistoryOf | project/src/server.js:172-193 | 400 exactly without a session identifier; otherwise the session's exchanges, empty for an unknown session, with `count` equal to their number |
| ChatServer.ChatThenHistory | project/src/server.js:158-188 | after a valid chat, the session's history has one more entry: the old list followed by the exchange just answered |
| ChatServer.ReplayAppends | project/src/server.js:107-111 | after any sequence of requests, taken in the order their handlers finish, each session holds its old list followed by exactly the exchanges of the accepted requests addressed to it, in that order |
| ChatServer.CountIsAcceptedRequests | project/src/server.js:182-188 | from an empty map, a session's reported count is the number of accepted requests for it |
| ChatServer.ParseIntReadsDigits | project/src/server.js:78 | `parseInt` of a digit run followed by a non-digit is the run's value |
| ChatServer.ParseInt | project/src/server.js:78 | `parseInt(text, 10)` gives a number exactly when, after leading white space, the text starts with a digit or with a sign followed by a digit; blank text gives NaN |
| ChatServer.ParseIntReadsNegative | project/src/server.js:78 | the same behind a minus sign gives the negated value |
| ChatServer.ParseIntNegates | project/src/server.js:78 | a minus sign in front of text that starts with digits negates the value read |
| ChatServer.ParseIntSkipsSpace | project/src/server.js:78 | leading white space does not change what `parseInt` reads |
| ChatServer.ProofLimit | project/src/server.js:78 | 5 when absent and never above 20. It is NaN exactly when the text holds no number. A number up to 20 passes unchanged, negatives included; larger ones become 20 |
| ChatServer.ProofLimitOfDigits | project/src/server.js:78 | a limit written in digits is that number capped at 20 |
| ChatServer.ProofMessages | project/src/server.js:72-93 | without a storage client, 500 `supabase_not_configured` before anything else. Otherwise 200 exactly when the query returns rows, with `data ?? []`. A reported query error gives `db_error` with its message; a thrown query gives 500 `internal_error` with the thrown detail |

## Left out

- Threads and the blocking queue of `engine/task_runner.py`: the two daemon workers are one atomic `Step`. The source relies on the queue for mutual exclusion, which a sequential model has by construction.
- The bodies of `http_get` with `requests`, `compute_kpis`, `build_dashboard` and `dispatch_alerts`: they do network and subprocess I/O, and their outcomes come from the `World` parameter. `time.sleep` itself is not modelled, only its result shape.
- TaskRunner.Runner.Submit: job ids are a counter instead of `uuid4`. Only freshness matters to the queue.
- TaskRunner.TaskSleep: the stored error text is Python's own for a negative length and for the timestamp overflow (in the wording of Python 3.12), and `TaskRunner.HttpGetFallback`'s is Python's for a missing `url`. For a keyword that does not bind, Python names that keyword, and for a failing `int(seconds)` it quotes the value; the model stores a fixed text for both, because a map of keywords has no order and the model has no `repr`.
- TaskRunner.ParseInt: Python's `int` also accepts underscores between digits and non-ASCII digits, and these are not modelled. The contract states only that blank text never parses.
- The FastAPI routing and Pydantic request validation of `engine/task_api.py`: HTTP 422 for a malformed body is not modelled.
- Preflight messages, hints, `summary`, `ts_utc`, the `--summary` and `--gzip` output and `--self-test` are not modelled. They are formatting and I/O.
- `Path.resolve()` of the fallback candidates and path normalisation: paths are their text, and `/` joins them.
- Preflight `mkdir(parents=True)`: creating a directory does not add its missing parents as entries. Whether a creation fails is an input.
- The doctor viewer's `--last` and `--pretty` flags and its JSON printing are not modelled. `--last` changes nothing in the code.
- The doctor viewer's `selftest` runner: its three cases are stated as lemmas, not executed.
- The living profile's `selftest` action is not modelled. Only cases 1, 3, 4 and 12 become lemmas.
- The living profile's message texts and `--pretty` are not modelled.
- LivingProfile.ProfileMain: `dict(data)` in `dry_run` succeeds on a list of key/value pairs. The model raises for every non-object profile.
- `save_profile`'s temporary file, `ensure_parent` and write failures: a save is one update of the file map.
- The living profile's JSON text format: decoding and encoding are an abstract codec. `SetThenShow` and `SetIsIdempotent` assume the codec reads back what it writes.
- AlertDispatch.ParseTime: `time.fromisoformat` accepts forms other than `HH`, `HH:MM` and `HH:MM:SS`, such as fractions of a second, `HHMM` and UTC offsets. The model rejects them.
- `pytz` and `datetime.now`: the set of known zones and the zone's local time of day are inputs.
- The printed alert text and the `--verbose` and `--data-dir` options are not modelled.
- Formatting a non-finite float is not modelled: the JSON value type has no NaN or infinities.
- server.js `/healthz`, `/version` and `/mode` are not modelled; they return constants.
- The request logging, CORS headers, static files and `app.listen` of server.js are not modelled.
- The OpenAI request parameters and logging are not modelled. A completion whose content is not a string is treated as a thrown call.
- Request body fields in server.js: only string fields are modelled. A non-string truthy `question` or `session_identifier` is not modelled, nor a repeated `limit` query parameter.
- The emptiness checks in `/api/chat` use JavaScript falsiness: an empty string counts as missing.
- The storage query behind `/proof/messages`, including its ordering and how it treats a NaN or negative limit: the query is a parameter.
- The HTTP 500 `catch` branches of `/api/chat` and `/api/history`: nothing in the modelled code can throw there.
- ChatServer.Server.Chat: the handler is one atomic step. In the source, with an OpenAI client, the handler fetches the session's list (server.js:107-111), awaits the completion (server.js:124) and only then pushes the exchange (server.js:158). Concurrent requests to one session therefore append in the order their completions finish, and a history read during the await does not yet see the pending exchange.
- ChatServer.ReplayAppends: the order of the replayed requests is the order in which their handlers finish, not the order in which they arrive.
- ChatServer.ParseInt: JavaScript numbers lose precision beyond 2^53. The model uses unbounded integers, which changes nothing after the cap at 20 except for huge negative limits.
