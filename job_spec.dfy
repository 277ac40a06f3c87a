/** The job handle as a pure state machine. A Machine pairs the handle's
    snapshot with the service's call log; each function below is one handle
    operation, taking the machine before the call to the machine after it
    (and to what the operation returns). The class Job in module JobModel is
    proved to follow these functions step by step. */
module JobSpec {
  import opened Options
  import opened Snapshots
  import opened Service

  /** What does not change during the handle's life: its job id, its query
      and the service's answers. */
  datatype Env = Env(id: JobId, query: Option<string>, replies: Replies)

  datatype Machine = Machine(snap: Snapshot, log: seq<Call>)

  /** update(): one show_job call; its answer replaces the whole snapshot. */
  function Update(e: Env, m: Machine): Machine {
    Machine(e.replies.show(|m.log|), m.log + [ShowJobCall(e.id)])
  }

  /** _update_progress(): asks job_status only while the status is not terminal. */
  function Progress(e: Env, m: Machine): (r: Machine)
    ensures Terminal(m.snap.status) ==> r == m
    ensures !Terminal(m.snap.status) ==>
              r.log == m.log + [JobStatusCall(e.id)] && r.snap.status == Some(e.replies.status(|m.log|))
    ensures r.snap.(status := m.snap.status) == m.snap
  {
    if !Terminal(m.snap.status) then
      Machine(m.snap.(status := Some(e.replies.status(|m.log|))), m.log + [JobStatusCall(e.id)])
    else
      m
  }

  /** The six status predicates of the handle. */
  datatype Query = AskFinished | AskSuccess | AskError | AskKilled | AskQueued | AskRunning

  /** The comparison each predicate makes after its progress poll. */
  predicate Holds(q: Query, s: Option<Status>) {
    match q
    case AskFinished => Terminal(s)
    case AskSuccess => s == Some(Success)
    case AskError => s == Some(Error)
    case AskKilled => s == Some(Killed)
    case AskQueued => s == Some(Queued)
    case AskRunning => s == Some(Running)
  }

  /** finished(), success(), error(), killed(), queued(), running(). */
  function Ask(e: Env, m: Machine, q: Query): (Machine, bool) {
    var p := Progress(e, m);
    (p, Holds(q, p.snap.status))
  }

  /** status(): a full refresh only when the job has a query and the
      finished() poll leaves it unfinished. Python's `and` does not evaluate
      finished() at all for a job without a query. */
  function StatusOf(e: Env, m: Machine): (r: (Machine, Option<Status>))
    ensures r.1 == r.0.snap.status
    ensures e.query.None? ==> r.0 == m
    ensures Terminal(m.snap.status) ==> r.0 == m
    ensures |m.log| <= |r.0.log|
    ensures ShowJobCall(e.id) in r.0.log[|m.log|..] <==> e.query.Some? && !Terminal(Progress(e, m).snap.status)
    ensures e.query.Some? && Terminal(Progress(e, m).snap.status) ==> r.0 == Progress(e, m)
    ensures e.query.Some? && !Terminal(Progress(e, m).snap.status) ==>
              r.0.log == m.log + [JobStatusCall(e.id), ShowJobCall(e.id)] &&
              r.0.snap == e.replies.show(|m.log| + 1)
  {
    if e.query.Some? then
      var (p, finished) := Ask(e, m, AskFinished);
      var u := if !finished then Update(e, p) else p;
      assert u.log[|m.log|..] == u.log[|m.log|..|p.log|] + u.log[|p.log|..];
      (u, u.snap.status)
    else
      (m, m.snap.status)
  }

  /** kill(): the kill request, then a full refresh; returns the kill answer. */
  function Kill(e: Env, m: Machine): (r: (Machine, Option<Status>))
    ensures r.0.log == m.log + [KillCall(e.id), ShowJobCall(e.id)]
    ensures r.1 == e.replies.kill(|m.log|)
    ensures r.0.snap == e.replies.show(|m.log| + 1)
  {
    var requested := Machine(m.snap, m.log + [KillCall(e.id)]);
    (Update(e, requested), e.replies.kill(|m.log|))
  }

  /** The paginated fetch result() (format None) or result_format(fmt) uses. */
  function FetchCall(id: JobId, format: Option<string>): Call {
    if format.None? then ResultEachCall(id) else ResultFormatEachCall(id, format.value)
  }

  function FetchedRows(r: Replies, position: nat, format: Option<string>): seq<Row> {
    if format.None? then r.rows(position) else r.formatRows(position, format.value)
  }

  const NotReady: Failure := ValueError("result is not ready")

  /** result() and result_format(fmt), with the rows the generator would yield. */
  function FetchResult(e: Env, m: Machine, format: Option<string>): (r: (Machine, Outcome<seq<Row>>))
    ensures r.1.Err? <==> Progress(e, m).snap.status != Some(Success)
    ensures r.1.Err? ==> r.1.error == NotReady && r.0 == Progress(e, m)
    ensures r.1.Ok? ==> r.0.snap == e.replies.show(|Progress(e, m).log|)
    ensures r.1.Ok? && r.0.snap.result.Some? ==>
              r.1.value == r.0.snap.result.value && r.0.log == Progress(e, m).log + [ShowJobCall(e.id)]
    ensures r.1.Ok? && r.0.snap.result.None? ==>
              r.1.value == FetchedRows(e.replies, |Progress(e, m).log| + 1, format) &&
              r.0.log == Progress(e, m).log + [ShowJobCall(e.id), FetchCall(e.id, format)]
  {
    var (p, ok) := Ask(e, m, AskSuccess);
    if !ok then
      (p, Err(NotReady))
    else
      var u := Update(e, p);
      if u.snap.result.None? then
        (Machine(u.snap, u.log + [FetchCall(e.id, format)]), Ok(FetchedRows(e.replies, |u.log|, format)))
      else
        (u, Ok(u.snap.result.value))
  }

  /** A second progress poll right after one that reached a terminal status
      changes nothing and calls nothing. */
  lemma ProgressIdempotent(e: Env, m: Machine)
    requires Terminal(Progress(e, m).snap.status)
    ensures Progress(e, Progress(e, m)) == Progress(e, m)
  {
  }

  /** The predicates agree on one polled status: finished is exactly
      success-or-error-or-killed, at most one of the five single-status
      predicates holds, and a booting (or not yet known) job satisfies none. */
  lemma QueriesConsistent(s: Option<Status>)
    ensures Holds(AskFinished, s) <==> Holds(AskSuccess, s) || Holds(AskError, s) || Holds(AskKilled, s)
    ensures forall q1, q2 :: q1 != AskFinished && q2 != AskFinished && Holds(q1, s) && Holds(q2, s) ==> q1 == q2
    ensures (exists q :: Holds(q, s)) <==> s.Some? && s.value != Booting
  {
    if s.Some? {
      match s.value
      case Queued => assert Holds(AskQueued, s);
      case Running => assert Holds(AskRunning, s);
      case Success => assert Holds(AskSuccess, s);
      case Error => assert Holds(AskError, s);
      case Killed => assert Holds(AskKilled, s);
      case Booting =>
    }
  }

  /** A read of the handle a caller can make: a status predicate or status(). */
  datatype Probe = Check(q: Query) | ReadStatus

  datatype Answer = Flag(b: bool) | Reported(s: Option<Status>)

  function Step(e: Env, m: Machine, p: Probe): (Machine, Answer) {
    match p
    case Check(q) => var (m1, b) := Ask(e, m, q); (m1, Flag(b))
    case ReadStatus => var (m1, s) := StatusOf(e, m); (m1, Reported(s))
  }

  /** Makes the probes one after another, collecting their answers. */
  function Run(e: Env, m: Machine, ps: seq<Probe>): (Machine, seq<Answer>)
    decreases |ps|
  {
    if ps == [] then (m, [])
    else
      var (m1, a) := Step(e, m, ps[0]);
      var (m2, rest) := Run(e, m1, ps[1..]);
      (m2, [a] + rest)
  }

  /** The answer a probe gives when the status is s and no call is made. */
  function Expected(p: Probe, s: Option<Status>): Answer {
    match p
    case Check(q) => Flag(Holds(q, s))
    case ReadStatus => Reported(s)
  }

  /** Once the status is terminal, any run of predicates and status() calls
      makes no remote call, changes nothing, and answers from that status. */
  lemma {:induction false} FinishedJobIsSilent(e: Env, m: Machine, ps: seq<Probe>)
    requires Terminal(m.snap.status)
    ensures Run(e, m, ps).0 == m
    ensures |Run(e, m, ps).1| == |ps|
    ensures forall i :: 0 <= i < |ps| ==> Run(e, m, ps).1[i] == Expected(ps[i], m.snap.status)
    decreases |ps|
  {
    if ps != [] {
      assert Step(e, m, ps[0]) == (m, Expected(ps[0], m.snap.status));
      FinishedJobIsSilent(e, m, ps[1..]);
      var rest := Run(e, m, ps[1..]).1;
      assert Run(e, m, ps).1 == [Expected(ps[0], m.snap.status)] + rest;
      forall i | 1 <= i < |ps|
        ensures Run(e, m, ps).1[i] == Expected(ps[i], m.snap.status)
      {
        assert ps[1..][i - 1] == ps[i];
      }
    }
  }

  /** Running a sequence of probes is running its first i probes, then the rest. */
  lemma {:induction false} RunSplit(e: Env, m: Machine, ps: seq<Probe>, i: nat)
    requires i <= |ps|
    ensures Run(e, m, ps).0 == Run(e, Run(e, m, ps[..i]).0, ps[i..]).0
    decreases i
  {
    if i > 0 {
      var m1 := Step(e, m, ps[0]).0;
      assert ps[..i][1..] == ps[1..][..i - 1];
      assert ps[1..][i - 1..] == ps[i..];
      RunSplit(e, m1, ps[1..], i - 1);
    } else {
      assert ps[..0] == [] && ps[0..] == ps;
    }
  }

  /** A terminal status never changes: once the first i probes leave the
      handle in a terminal status, the remaining probes leave it exactly there. */
  lemma TerminalStatusIsFinal(e: Env, m: Machine, ps: seq<Probe>, i: nat)
    requires i <= |ps|
    requires Terminal(Run(e, m, ps[..i]).0.snap.status)
    ensures Run(e, m, ps).0 == Run(e, m, ps[..i]).0
  {
    RunSplit(e, m, ps, i);
    FinishedJobIsSilent(e, Run(e, m, ps[..i]).0, ps[i..]);
  }

  /** The calls a run of polls of job id makes. */
  function Polls(id: JobId, n: nat): (calls: seq<Call>)
    ensures |calls| == n && forall i :: 0 <= i < n ==> calls[i] == JobStatusCall(id)
  {
    seq(n, _ => JobStatusCall(id))
  }

  lemma PollsSnoc(id: JobId, n: nat)
    ensures Polls(id, n) + [JobStatusCall(id)] == Polls(id, n + 1)
  {
  }

  /** The job_status answers at positions from, ..., from + n - 1 are all unfinished. */
  ghost predicate PolledUnfinished(r: Replies, from: nat, n: nat) {
    forall k :: from <= k < from + n ==> r.status(k) !in FinishedStatus
  }

  /** The time n sleeps of the given interval take, added one sleep at a time. */
  function Slept(n: nat, interval: nat): nat {
    if n == 0 then 0 else Slept(n - 1, interval) + interval
  }

  lemma {:induction false} SleptIsProduct(n: nat, interval: nat)
    ensures Slept(n, interval) == n * interval
  {
    if n > 0 {
      SleptIsProduct(n - 1, interval);
    }
  }

  /** wait()'s timeout check passed at each of its first n checks. The j-th
      check is made after j sleeps, and the elapsed time only grows, so this
      is the last of them passing. */
  predicate TimeoutChecksPassed(timeout: Option<int>, interval: nat, n: nat) {
    n == 0 || timeout.None? || Slept(n - 1, interval) < timeout.value
  }

  lemma EachTimeoutCheckPassed(timeout: Option<int>, interval: nat, n: nat, j: nat)
    requires TimeoutChecksPassed(timeout, interval, n) && j < n
    ensures timeout.None? || j * interval < timeout.value
  {
    SleptMonotone(j, n - 1, interval);
    SleptIsProduct(j, interval);
  }

  lemma {:induction false} SleptMonotone(a: nat, b: nat, interval: nat)
    requires a <= b
    ensures Slept(a, interval) <= Slept(b, interval)
    decreases b - a
  {
    if a < b {
      SleptMonotone(a, b - 1, interval);
    }
  }

  /** The machine after n + 1 progress polls of m, as wait()'s loop makes them. */
  function Polled(e: Env, m: Machine, n: nat): Machine
    decreases n
  {
    if n == 0 then Progress(e, m) else Progress(e, Polled(e, m, n - 1))
  }

  /** From an unfinished machine, while every answer before the last was
      unfinished, the polls append n + 1 job_status calls and the status is
      the last answer; every other field is untouched. */
  lemma {:induction false} PolledShape(e: Env, m: Machine, n: nat)
    requires !Terminal(m.snap.status)
    requires PolledUnfinished(e.replies, |m.log|, n)
    ensures Polled(e, m, n).log == m.log + Polls(e.id, n + 1)
    ensures Polled(e, m, n).snap == m.snap.(status := Some(e.replies.status(|m.log| + n)))
    decreases n
  {
    if n > 0 {
      PolledShape(e, m, n - 1);
      PollsSnoc(e.id, n);
    } else {
      assert Polls(e.id, 1) == [JobStatusCall(e.id)];
    }
  }

  /** One more poll keeps the earlier answers unfinished when the last was. */
  lemma PolledNext(e: Env, m: Machine, n: nat)
    requires !Terminal(m.snap.status)
    requires PolledUnfinished(e.replies, |m.log|, n)
    requires !Terminal(Polled(e, m, n).snap.status)
    ensures PolledUnfinished(e.replies, |m.log|, n + 1)
  {
    PolledShape(e, m, n);
  }

  /** A wait() that returns normally from an unfinished machine after n
      sleeps made n + 1 job_status calls and then one show_job call, and
      holds what that show_job returned. */
  lemma WaitCalls(e: Env, m: Machine, n: nat)
    requires !Terminal(m.snap.status)
    requires PolledUnfinished(e.replies, |m.log|, n)
    ensures Update(e, Polled(e, m, n)).log == m.log + Polls(e.id, n + 1) + [ShowJobCall(e.id)]
    ensures Update(e, Polled(e, m, n)).snap == e.replies.show(|m.log| + n + 1)
  {
    PolledShape(e, m, n);
  }
}
