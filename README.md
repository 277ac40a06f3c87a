# Job handle and table schema of the Treasure Data Python client

This project models the client-side `Job` handle of `tdclient/job_model.py` and
the small `Schema` container beside it, and proves properties of the model.

A `Job` handle knows a job's id, engine type and query. It also stores the last
snapshot of the job the service sent: status, result, priority, URLs and so on.
It talks to the service through a client.

- **Status predicates.** `finished()`, `success()`, `error()`, `killed()`,
  `queued()` and `running()` each make a cheap `job_status` poll first, but
  only while the stored status is not terminal (success, error or killed).
  They then compare the stored status.
- **`status()`.** It does a full `show_job` refresh only when the job has a
  query and the `finished()` poll left it unfinished.
- **`kill()`.** It sends the kill request and then refreshes.
- **`result()` and `result_format(fmt)`.** They refuse with a `ValueError`
  unless the job succeeded. Otherwise they refresh, then return the rows
  embedded in the snapshot, or else fetch them from the service.
- **`wait()`.** It polls `finished()`. Between polls it sleeps one interval
  while a timeout allows. When the job finishes it refreshes once; when the
  time runs out it raises `RuntimeError("timeout")`.
- **The `priority` property.** It shows the label of the five-entry priority
  table, or Python's `str()` of the stored value.

Modules:

- **`Options`** (options.dfy): `Option`, `Outcome` and the two exception
  kinds.
- **`Snapshots`** (snapshots.dfy): the six statuses, the terminal ones, and
  the snapshot record. Every field is an `Option`, and `None` stands for a
  key the service's dictionary does not have.
- **`Service`** (service.dfy): the client as an abstract service.
  - Every remote call is appended to a call log.
  - The answer to a call is fixed in advance by the position the call takes in
    that log: `Replies` is a set of functions from that position to an answer.
  - Because of this, a property can name exactly which answer a handle
    operation used.
- **`JobSpec`** (job_spec.dfy): the handle as a pure state machine. A
  `Machine` is a snapshot paired with the call log, and each handle
  operation is a function from the machine before the call to the machine
  after it. The module's lemmas state what a run of handle operations does.
- **`JobModel`** (job.dfy): the class `Job`, whose methods update the
  snapshot field and the client's call log in place.
  - Each method is proved to move exactly as the matching `JobSpec` function
    says, and the `ensures` states that step.
  - It also holds an abstract `Clock` that only moves by sleeping, and
    `wait()`.
- **`Priorities`** (priorities.dfy):
  - the priority table;
  - Python's `str()` of an integer, with its inverse;
  - the label and the proof that it loses no information.
- **`Schemas`** (schemas.dfy): the class `Schema` with its append-only field
  list.

Two behaviours of `status()` that follow from the code
(tdclient/job_model.py:239-241):

- **Without a query it makes no call.** `query is not None` is tested first,
  and Python's `and` does not evaluate `finished()` when that test fails.
- **No refresh when the poll sees the end.** When the progress poll inside
  `finished()` is the one that sees a terminal status, `finished()` returns
  true and no `show_job` refresh follows. The other snapshot fields stay as
  the last refresh left them. `JobSpec.StatusOf` states exactly when a
  `show_job` call is made and what state the handle ends in.

## Model

| member | source | states |
|---|---|---|
| Schemas.Schema.constructor | tdclient/job_model.py:34-36 | a missing field list gives an empty schema; a given list is kept as is |
| Schemas.Schema.AddField | tdclient/job_model.py:45-49 | exactly one field is appended at the end; every earlier field keeps its place |
| JobModel.Job.constructor | tdclient/job_model.py:71-76 | the identity (client, id, type, query) is stored and the keyword arguments become the snapshot |
| JobModel.Job.Feed | tdclient/job_model.py:78-94 | every field of the snapshot is replaced at once; a missing dictionary leaves every field None |
| JobModel.Job.Update | tdclient/job_model.py:96-100 | one show_job call is logged, and its answer becomes the whole snapshot |
| Service.Client.ShowJob | tdclient/job_model.py:99 | the call is appended to the log and answered by the reply at its log position |
| JobSpec.Progress | tdclient/job_model.py:106-110 | a terminal status: nothing changes and no call is made; otherwise one job_status call, its answer becomes the status, and every other field is untouched |
| JobModel.Job.UpdateProgress | tdclient/job_model.py:106-110 | the handle moves as JobSpec.Progress, stated both as that step and field by field |
| Service.Client.JobStatus | tdclient/job_model.py:110 | the call is appended to the log and answered by the reply at its log position |
| JobSpec.ProgressIdempotent | tdclient/job_model.py:106-110 | a second poll right after one that reached a terminal status changes nothing |
| Priorities.NatString | tdclient/job_model.py:163 | the decimal digits of a natural number, all digits and with no leading zero |
| Priorities.DecimalString | tdclient/job_model.py:163 | str() of an int starts with a minus sign exactly when the int is negative, else with a digit |
| Priorities.NatStringRoundTrip | tdclient/job_model.py:163 | the digits of a natural number read back to that number |
| Priorities.DecimalRoundTrip | tdclient/job_model.py:163 | str() of any int reads back to the same int |
| Priorities.PriorityLabel | tdclient/job_model.py:159-163 | the five table keys show their labels -2 VERY LOW, -1 LOW, 0 NORMAL, 1 HIGH, 2 VERY HIGH; a missing priority shows "None"; any other value shows its str() |
| Priorities.PriorityLabelRoundTrip | tdclient/job_model.py:159-163 | every label reads back to the stored priority that produced it |
| Priorities.PriorityLabelInjective | tdclient/job_model.py:63-69 | distinct stored priorities never share a label, neither among the five table labels nor between a label and a str() fallback |
| JobModel.Job.Priority | tdclient/job_model.py:154-163 | the `priority` property is the label Priorities.PriorityLabel gives for the stored priority, and that label reads back to the stored priority |
| JobModel.Tick | tdclient/job_model.py:203-209 | wait()'s check expires exactly when a timeout is given and the elapsed time has reached it; otherwise the clock moves one interval |
| JobModel.Job.AwaitFinish | tdclient/job_model.py:201-209 | the loop: an already-finished job is not polled; otherwise the handle is in state Polled after sleeps + 1 polls, every answer before the last was unfinished, every timeout check before the last passed, and the loop stopped on a terminal status exactly when it did not expire |
| JobModel.Job.Wait | tdclient/job_model.py:193-210 | the clock moved by sleeps times the interval; with no timeout it returns normally; a normal return means the last poll was terminal and one update followed; a timeout error means the elapsed time reached the timeout while unfinished and no update followed |
| JobSpec.PolledShape | tdclient/job_model.py:202-204 | n + 1 polls of an unfinished job append n + 1 job_status calls and keep only the last answer as status; no other field changes |
| JobSpec.PolledNext | tdclient/job_model.py:202-204 | an unfinished last poll extends the run of unfinished answers by one |
| JobSpec.WaitCalls | tdclient/job_model.py:202-210 | a successful wait after n sleeps made n + 1 job_status calls and then one show_job call, and holds that show_job answer |
| JobSpec.SleptIsProduct | tdclient/job_model.py:204 | n sleeps of a fixed interval take n times the interval |
| JobSpec.EachTimeoutCheckPassed | tdclient/job_model.py:203 | when the last timeout check passed, each earlier check, made after fewer sleeps, passed too |
| JobSpec.Kill | tdclient/job_model.py:212-219 | a kill call and then a show_job call are logged; the handle holds the show_job answer and returns the kill answer |
| JobModel.Job.Kill | tdclient/job_model.py:212-219 | the handle moves as JobSpec.Kill and returns its answer |
| Service.Client.Kill | tdclient/job_model.py:217 | the call is appended to the log and answered by the reply at its log position |
| JobSpec.StatusOf | tdclient/job_model.py:235-241 | returns the status the handle then holds; without a query or with a terminal status it makes no call and changes nothing; with a query, a poll that sees a terminal status leaves the handle as that poll left it; otherwise exactly one job_status call and one show_job call are logged and the snapshot becomes that show_job answer |
| JobModel.Job.Status | tdclient/job_model.py:235-241 | the handle moves as JobSpec.StatusOf and returns its status |
| JobSpec.FetchResult | tdclient/job_model.py:250-281 | a "result is not ready" error exactly when the polled status is not success, and then no refresh or fetch; otherwise one refresh, then the embedded rows or else the rows of one fetch call |
| JobModel.Job.Fetch | tdclient/job_model.py:250-281 | the handle moves as JobSpec.FetchResult and returns its outcome |
| JobModel.Job.Result | tdclient/job_model.py:250-263 | result(): JobSpec.FetchResult with the plain row fetch |
| JobModel.Job.ResultFormat | tdclient/job_model.py:265-281 | result_format(fmt): JobSpec.FetchResult with the fetch in format fmt |
| Service.Client.JobResultEach | tdclient/job_model.py:259 | the call is appended to the log and answered by the reply at its log position |
| Service.Client.JobResultFormatEach | tdclient/job_model.py:277 | the call is appended to the log and answered by the reply at its log position for that format |
| JobSpec.QueriesConsistent | tdclient/job_model.py:283-323 | finished is exactly success or error or killed; at most one of the five single-status predicates holds; some predicate holds exactly when the status is known and not booting |
| JobModel.Job.Ask | tdclient/job_model.py:283-323 | one progress poll, then the predicate's comparison on the status it leaves |
| JobModel.Job.Finished | tdclient/job_model.py:283-288 | true exactly when the status after the poll is terminal |
| JobModel.Job.Success | tdclient/job_model.py:290-295 | true exactly when the status after the poll is success |
| JobModel.Job.Error | tdclient/job_model.py:297-302 | true exactly when the status after the poll is error |
| JobModel.Job.Killed | tdclient/job_model.py:304-309 | true exactly when the status after the poll is killed |
| JobModel.Job.Queued | tdclient/job_model.py:311-316 | true exactly when the status after the poll is queued |
| JobModel.Job.Running | tdclient/job_model.py:318-323 | true exactly when the status after the poll is running |
| JobSpec.FinishedJobIsSilent | tdclient/job_model.py:283-323 | once the status is terminal, any run of predicates and status() calls makes no call, changes nothing, and answers from that status |
| JobSpec.TerminalStatusIsFinal | tdclient/job_model.py:106-110 | once a prefix of a run leaves a terminal status, the rest of the run leaves the handle exactly there |

## Left out

- The HTTP service behind the client is left out. The client is an abstract
  service whose answers are fixed in advance by call position. Transport
  errors and the service's own exceptions are not modelled.
- `time.time()` and `time.sleep()` become the abstract `Clock`. It moves only
  by sleeping, so the time the remote calls take is not modelled.
- Floating-point timeouts and intervals become integers.
- A negative `wait_interval`, which makes Python's `time.sleep` raise, is not
  modelled: the interval is a natural number.
- JobModel.Job.Wait: models only runs of `wait()` that end. Its requires
  `WaitEnds` holds when at least one of these is true:
  - the job is already finished;
  - a timeout is given and either the interval is positive or the timeout is
    at most 0, so that the first check already fails;
  - some later `job_status` answer is terminal.

  Two runs on a job that never finishes are left out:
  - a `wait()` without a timeout loops forever in Python and has no
    counterpart here;
  - a `wait()` with a positive timeout and interval 0 ends in Python only
    because real time passes during the remote calls, which the `Clock` does
    not model.
- The `wait_callback` and `callback` arguments of `wait()` are left out. They
  are calls into code the handle cannot see.
- `result()` and `result_format(fmt)` are generators in Python. The model
  returns the whole row sequence and raises the "result is not ready" error
  at the call, not at the first `next()`.
- `_update_status()` is left out. It is a deprecated alias of `update()` that
  only adds a `warnings.warn`.
- The plain read-only properties are left out: `id`, `job_id`, `type`,
  `result_size`, `result_url`, `result_schema`, `retry_limit`, `org_name`,
  `db_name`, `debug`, `records`, `query` and `url`. Each returns one stored
  field, and the fields are the model's state.
- Python's `Schema(fields)` keeps the caller's list object, so `add_field`
  also extends the caller's list. The model holds the fields as a value and
  does not capture that aliasing.
- Statuses are the six the service reports. An unknown status string the
  service might send is not modelled.
- Python compares `_priority` with the table keys by equality and hash, so
  `True`, `False`, `1.0` and similar values would also find a label. The
  model's stored priority is an integer or None.
- The inherited `Model` base class (tdclient/model.py) is not part of this
  model. Only the client reference it stores is kept.
- `update()` replaces the status with whatever `show_job` reports, even after
  a terminal status. The model keeps that behaviour, so a terminal status is
  final only across polls and predicates (`JobSpec.FinishedJobIsSilent`), not
  across `update()`, `kill()` or `result()`.
