/** The job handle: a fixed identity, the snapshot it last received, and the
    client it asks. Every method is proved to do what the matching function
    of JobSpec says, on the pair (snapshot, client call log). */
module JobModel {
  import opened Options
  import Snapshots
  import Service
  import JobSpec
  import Priorities

  /** An abstract clock that only moves forward: sleeping is its only change. */
  class Clock {
    var now: int

    constructor (start: int)
      ensures now == start
    {
      now := start;
    }

    method Time() returns (t: int)
      ensures t == now
    {
      t := now;
    }

    method Sleep(seconds: nat)
      modifies this
      ensures now == old(now) + seconds
    {
      now := now + seconds;
    }
  }

  /** Python's abs() on the elapsed time. */
  function Abs(x: int): int {
    if x < 0 then -x else x
  }

  /** One timeout check of wait(), made after `sleeps` sleeps: with no
      timeout, or while the elapsed time is below it, sleeps one interval;
      otherwise reports expiry and does not sleep. */
  method Tick(timeout: Option<int>, interval: nat, clock: Clock, startedAt: int, ghost sleeps: nat)
    returns (expired: bool)
    requires clock.now == startedAt + JobSpec.Slept(sleeps, interval)
    modifies clock
    ensures expired <==> timeout.Some? && timeout.value <= JobSpec.Slept(sleeps, interval)
    ensures expired ==> clock.now == old(clock.now)
    ensures !expired ==>
              clock.now == startedAt + JobSpec.Slept(sleeps + 1, interval) &&
              JobSpec.TimeoutChecksPassed(timeout, interval, sleeps + 1) &&
              (timeout.Some? ==> JobSpec.Slept(sleeps, interval) < timeout.value)
  {
    var now := clock.Time();
    JobSpec.SleptIsProduct(sleeps, interval);
    if timeout.None? || Abs(now - startedAt) < timeout.value {
      clock.Sleep(interval);
      expired := false;
    } else {
      expired := true;
    }
  }

  class Job {
    const client: Service.Client
    const jobId: Service.JobId
    const jobType: string
    const query: Option<string>
    var snap: Snapshots.Snapshot

    function Env(): JobSpec.Env {
      JobSpec.Env(jobId, query, client.replies)
    }

    function State(): JobSpec.Machine
      reads this, client
    {
      JobSpec.Machine(snap, client.log)
    }

    /** Job(client, job_id, type, query, **kwargs): the identity is stored and
        the keyword arguments are fed as the first snapshot. */
    constructor (client: Service.Client, jobId: Service.JobId, jobType: string, query: Option<string>,
                 data: Snapshots.Snapshot)
      ensures this.client == client && this.jobId == jobId
      ensures this.jobType == jobType && this.query == query
      ensures snap == data
    {
      this.client := client;
      this.jobId := jobId;
      this.jobType := jobType;
      this.query := query;
      snap := Snapshots.EmptySnapshot;
      new;
      Feed(Some(data));
    }

    /** _feed(data): replaces every snapshot field at once; a missing
        dictionary leaves every field None. The identity is not touched. */
    method Feed(data: Option<Snapshots.Snapshot>)
      modifies this
      ensures data.None? ==> snap == Snapshots.EmptySnapshot
      ensures data.Some? ==> snap == data.value
    {
      snap := if data.None? then Snapshots.EmptySnapshot else data.value;
    }

    /** update(): one show_job call whose answer is fed. */
    method Update()
      modifies this, client
      ensures client.log == old(client.log) + [Service.ShowJobCall(jobId)]
      ensures snap == client.replies.show(|old(client.log)|)
      ensures State() == JobSpec.Update(Env(), old(State()))
    {
      var data := client.ShowJob(jobId);
      Feed(Some(data));
    }

    /** _update_progress(). */
    method UpdateProgress()
      modifies this, client
      ensures State() == JobSpec.Progress(Env(), old(State()))
      ensures Snapshots.Terminal(old(snap.status)) ==> snap == old(snap) && client.log == old(client.log)
      ensures !Snapshots.Terminal(old(snap.status)) ==>
                snap == old(snap).(status := Some(client.replies.status(|old(client.log)|))) &&
                client.log == old(client.log) + [Service.JobStatusCall(jobId)]
    {
      if snap.status.None? || snap.status.value !in Snapshots.FinishedStatus {
        var s := client.JobStatus(jobId);
        snap := snap.(status := Some(s));
      }
    }

    /** The predicates: a progress poll, then a comparison of the status. */
    method Ask(q: JobSpec.Query) returns (b: bool)
      modifies this, client
      ensures b <==> JobSpec.Holds(q, snap.status)
      ensures (State(), b) == JobSpec.Ask(Env(), old(State()), q)
      ensures Snapshots.Terminal(old(snap.status)) ==> snap == old(snap) && client.log == old(client.log)
      ensures !Snapshots.Terminal(old(snap.status)) ==>
                snap == old(snap).(status := Some(client.replies.status(|old(client.log)|))) &&
                client.log == old(client.log) + [Service.JobStatusCall(jobId)]
    {
      UpdateProgress();
      b := JobSpec.Holds(q, snap.status);
    }

    method Finished() returns (b: bool)
      modifies this, client
      ensures b <==> Snapshots.Terminal(snap.status)
      ensures (State(), b) == JobSpec.Ask(Env(), old(State()), JobSpec.AskFinished)
      ensures Snapshots.Terminal(old(snap.status)) ==> snap == old(snap) && client.log == old(client.log)
      ensures !Snapshots.Terminal(old(snap.status)) ==>
                snap == old(snap).(status := Some(client.replies.status(|old(client.log)|))) &&
                client.log == old(client.log) + [Service.JobStatusCall(jobId)]
    {
      b := Ask(JobSpec.AskFinished);
    }

    method Success() returns (b: bool)
      modifies this, client
      ensures b <==> snap.status == Some(Snapshots.Success)
      ensures (State(), b) == JobSpec.Ask(Env(), old(State()), JobSpec.AskSuccess)
    {
      b := Ask(JobSpec.AskSuccess);
    }

    method Error() returns (b: bool)
      modifies this, client
      ensures b <==> snap.status == Some(Snapshots.Error)
      ensures (State(), b) == JobSpec.Ask(Env(), old(State()), JobSpec.AskError)
    {
      b := Ask(JobSpec.AskError);
    }

    method Killed() returns (b: bool)
      modifies this, client
      ensures b <==> snap.status == Some(Snapshots.Killed)
      ensures (State(), b) == JobSpec.Ask(Env(), old(State()), JobSpec.AskKilled)
    {
      b := Ask(JobSpec.AskKilled);
    }

    method Queued() returns (b: bool)
      modifies this, client
      ensures b <==> snap.status == Some(Snapshots.Queued)
      ensures (State(), b) == JobSpec.Ask(Env(), old(State()), JobSpec.AskQueued)
    {
      b := Ask(JobSpec.AskQueued);
    }

    method Running() returns (b: bool)
      modifies this, client
      ensures b <==> snap.status == Some(Snapshots.Running)
      ensures (State(), b) == JobSpec.Ask(Env(), old(State()), JobSpec.AskRunning)
    {
      b := Ask(JobSpec.AskRunning);
    }

    /** status(). */
    method Status() returns (s: Option<Snapshots.Status>)
      modifies this, client
      ensures (State(), s) == JobSpec.StatusOf(Env(), old(State()))
    {
      if query.Some? {
        var finished := Finished();
        if !finished {
          Update();
        }
      }
      s := snap.status;
    }

    /** kill(). */
    method Kill() returns (response: Option<Snapshots.Status>)
      modifies this, client
      ensures (State(), response) == JobSpec.Kill(Env(), old(State()))
    {
      response := client.Kill(jobId);
      Update();
    }

    /** Shared body of result() and result_format(fmt). */
    method Fetch(format: Option<string>) returns (r: Outcome<seq<Snapshots.Row>>)
      modifies this, client
      ensures (State(), r) == JobSpec.FetchResult(Env(), old(State()), format)
    {
      var ok := Success();
      if !ok {
        r := Err(JobSpec.NotReady);
        return;
      }
      Update();
      if snap.result.None? {
        var rows;
        if format.None? {
          rows := client.JobResultEach(jobId);
        } else {
          rows := client.JobResultFormatEach(jobId, format.value);
        }
        r := Ok(rows);
      } else {
        r := Ok(snap.result.value);
      }
    }

    /** result(). */
    method Result() returns (r: Outcome<seq<Snapshots.Row>>)
      modifies this, client
      ensures (State(), r) == JobSpec.FetchResult(Env(), old(State()), None)
    {
      r := Fetch(None);
    }

    /** result_format(fmt). */
    method ResultFormat(fmt: string) returns (r: Outcome<seq<Snapshots.Row>>)
      modifies this, client
      ensures (State(), r) == JobSpec.FetchResult(Env(), old(State()), Some(fmt))
    {
      r := Fetch(Some(fmt));
    }

    /** The `priority` property. */
    function Priority(): (shown: string)
      reads this
      ensures shown == Priorities.PriorityLabel(snap.priority)
      ensures Priorities.ParsePriorityLabel(shown) == Some(snap.priority)
    {
      Priorities.PriorityLabelRoundTrip(snap.priority);
      Priorities.PriorityLabel(snap.priority)
    }

    /** The runs of wait() that end: the job is already finished, or a
        timeout is given and either every sleep moves the clock or it has
        expired at the first check, or some later job_status answer is
        terminal. */
    ghost predicate WaitEnds(timeout: Option<int>, waitInterval: nat)
      reads this, client
    {
      || Snapshots.Terminal(snap.status)
      || (timeout.Some? && (waitInterval > 0 || timeout.value <= 0))
      || exists k: nat :: |client.log| <= k && client.replies.status(k) in Snapshots.FinishedStatus
    }

    /** The loop of wait(): polls finished(), sleeping one interval between
        polls while the timeout allows, and reports whether the timeout
        stopped it. The ghost result counts the sleeps; the ghost argument k
        is a later job_status answer that is terminal, when neither of the
        other two reasons for the loop to end holds. */
    method AwaitFinish(timeout: Option<int>, waitInterval: nat, clock: Clock, ghost k: nat)
      returns (expired: bool, ghost sleeps: nat)
      requires || Snapshots.Terminal(snap.status)
               || (timeout.Some? && (waitInterval > 0 || timeout.value <= 0))
               || (|client.log| <= k && client.replies.status(k) in Snapshots.FinishedStatus)
      modifies this, client, clock
      ensures clock.now == old(clock.now) + JobSpec.Slept(sleeps, waitInterval)
      ensures timeout.None? ==> !expired
      // already finished: no poll, no sleep
      ensures Snapshots.Terminal(old(snap.status)) ==> !expired && sleeps == 0 && State() == old(State())
      // otherwise sleeps + 1 polls, every one but the last unfinished, every timeout check but the last passed
      ensures !Snapshots.Terminal(old(snap.status)) ==>
                State() == JobSpec.Polled(Env(), old(State()), sleeps) &&
                JobSpec.PolledUnfinished(client.replies, |old(client.log)|, sleeps) &&
                JobSpec.TimeoutChecksPassed(timeout, waitInterval, sleeps) &&
                (Snapshots.Terminal(snap.status) <==> !expired)
      ensures expired ==> timeout.Some? && timeout.value <= JobSpec.Slept(sleeps, waitInterval)
    {
      var startedAt := clock.Time();
      ghost var m0 := State();
      ghost var byTime := timeout.Some? && (waitInterval > 0 || timeout.value <= 0);
      sleeps := 0;
      expired := false;
      var finished := Finished();
      if finished {
        return;
      }
      while !finished
        invariant clock.now == startedAt + JobSpec.Slept(sleeps, waitInterval)
        invariant State() == JobSpec.Polled(Env(), m0, sleeps)
        invariant finished <==> Snapshots.Terminal(snap.status)
        invariant JobSpec.PolledUnfinished(client.replies, |m0.log|, sleeps)
        invariant JobSpec.TimeoutChecksPassed(timeout, waitInterval, sleeps)
        invariant !byTime ==> |m0.log| + sleeps <= k && client.replies.status(k) in Snapshots.FinishedStatus
        decreases if byTime then timeout.value - JobSpec.Slept(sleeps, waitInterval) else k - |m0.log| - sleeps
      {
        expired := Tick(timeout, waitInterval, clock, startedAt, sleeps);
        if expired {
          return;
        }
        JobSpec.PolledNext(Env(), m0, sleeps);
        sleeps := sleeps + 1;
        finished := Finished();
      }
    }

    /** wait(timeout, wait_interval): the loop, then the timeout error or
        one final update. The ghost result counts the sleeps. */
    method Wait(timeout: Option<int>, waitInterval: nat, clock: Clock) returns (r: Outcome<()>, ghost sleeps: nat)
      requires WaitEnds(timeout, waitInterval)
      modifies this, client, clock
      ensures clock.now == old(clock.now) + sleeps * waitInterval
      ensures timeout.None? ==> r.Ok?
      // already finished: no poll, no sleep, one final update
      ensures Snapshots.Terminal(old(snap.status)) ==>
                r.Ok? && sleeps == 0 && State() == JobSpec.Update(Env(), old(State()))
      // every poll but the last saw an unfinished job, and every timeout check passed
      ensures !Snapshots.Terminal(old(snap.status)) ==>
                JobSpec.PolledUnfinished(client.replies, |old(client.log)|, sleeps) &&
                JobSpec.TimeoutChecksPassed(timeout, waitInterval, sleeps)
      // returns once finished() is true, then updates once
      ensures !Snapshots.Terminal(old(snap.status)) && r.Ok? ==>
                Snapshots.Terminal(JobSpec.Polled(Env(), old(State()), sleeps).snap.status) &&
                State() == JobSpec.Update(Env(), JobSpec.Polled(Env(), old(State()), sleeps))
      // the timeout: the elapsed time reached it while the job was unfinished; no sleep after that
      ensures r.Err? ==>
                r.error == RuntimeError("timeout") && timeout.Some? && timeout.value <= sleeps * waitInterval &&
                !Snapshots.Terminal(old(snap.status)) &&
                !Snapshots.Terminal(JobSpec.Polled(Env(), old(State()), sleeps).snap.status) &&
                State() == JobSpec.Polled(Env(), old(State()), sleeps)
    {
      ghost var k: nat := 0;
      if !Snapshots.Terminal(snap.status) && !(timeout.Some? && (waitInterval > 0 || timeout.value <= 0)) {
        k :| |client.log| <= k && client.replies.status(k) in Snapshots.FinishedStatus;
      }
      var expired;
      expired, sleeps := AwaitFinish(timeout, waitInterval, clock, k);
      JobSpec.SleptIsProduct(sleeps, waitInterval);
      if expired {
        r := Err(RuntimeError("timeout"));
        return;
      }
      Update();
      r := Ok(());
    }
  }
}
