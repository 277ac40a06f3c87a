/** The client the job handle talks to, as an abstract service: every call is
    appended to a call log, and the answer to a call is fixed in advance by
    the position the call takes in that log. */
module Service {
  import opened Options
  import opened Snapshots

  type JobId = string

  /** The remote calls the job handle can make. */
  datatype Call =
    | JobStatusCall(id: JobId)
    | ShowJobCall(id: JobId)
    | KillCall(id: JobId)
    | ResultEachCall(id: JobId)
    | ResultFormatEachCall(id: JobId, format: string)

  /** The service's answers, by position of the call in the log: job_status,
      show_job, kill (the status the job had when killed), job_result_each
      and job_result_format_each. */
  datatype Replies = Replies(
    status: nat -> Status,
    show: nat -> Snapshot,
    kill: nat -> Option<Status>,
    rows: nat -> seq<Row>,
    formatRows: (nat, string) -> seq<Row>)

  class Client {
    const replies: Replies
    var log: seq<Call>

    constructor (replies: Replies)
      ensures this.replies == replies && log == []
    {
      this.replies := replies;
      log := [];
    }

    method JobStatus(id: JobId) returns (s: Status)
      modifies this
      ensures log == old(log) + [JobStatusCall(id)]
      ensures s == replies.status(|old(log)|)
    {
      s := replies.status(|log|);
      log := log + [JobStatusCall(id)];
    }

    method ShowJob(id: JobId) returns (data: Snapshot)
      modifies this
      ensures log == old(log) + [ShowJobCall(id)]
      ensures data == replies.show(|old(log)|)
    {
      data := replies.show(|log|);
      log := log + [ShowJobCall(id)];
    }

    method Kill(id: JobId) returns (response: Option<Status>)
      modifies this
      ensures log == old(log) + [KillCall(id)]
      ensures response == replies.kill(|old(log)|)
    {
      response := replies.kill(|log|);
      log := log + [KillCall(id)];
    }

    method JobResultEach(id: JobId) returns (rows: seq<Row>)
      modifies this
      ensures log == old(log) + [ResultEachCall(id)]
      ensures rows == replies.rows(|old(log)|)
    {
      rows := replies.rows(|log|);
      log := log + [ResultEachCall(id)];
    }

    method JobResultFormatEach(id: JobId, format: string) returns (rows: seq<Row>)
      modifies this
      ensures log == old(log) + [ResultFormatEachCall(id, format)]
      ensures rows == replies.formatRows(|old(log)|, format)
    {
      rows := replies.formatRows(|log|, format);
      log := log + [ResultFormatEachCall(id, format)];
    }
  }
}
