/** The last-known server state of a job as the handle stores it. */
module Snapshots {
  import opened Options

  /** The job statuses the service reports. */
  datatype Status = Queued | Booting | Running | Success | Error | Killed

  /** FINISHED_STATUS: the terminal statuses. */
  const FinishedStatus: seq<Status> := [Success, Error, Killed]

  /** `status in FINISHED_STATUS`, where a missing status (None) is not terminal. */
  predicate Terminal(s: Option<Status>) {
    s.Some? && s.value in FinishedStatus
  }

  /** A result row, its cells as text. */
  type Row = seq<string>

  /** One [name, type] pair of the Hive result schema. */
  datatype Column = Column(name: string, columnType: string)

  /** The fields a show_job response (or the constructor's keyword arguments)
      can carry; None stands for a key the response does not have. */
  datatype Snapshot = Snapshot(
    url: Option<string>,
    status: Option<Status>,
    debug: Option<map<string, string>>,
    startAt: Option<string>,
    endAt: Option<string>,
    cpuTime: Option<int>,
    result: Option<seq<Row>>,
    resultSize: Option<int>,
    resultUrl: Option<string>,
    hiveResultSchema: Option<seq<Column>>,
    priority: Option<int>,
    retryLimit: Option<int>,
    orgName: Option<string>,
    dbName: Option<string>,
    records: Option<int>)

  /** What feeding an empty dictionary leaves: every field None. */
  const EmptySnapshot: Snapshot :=
    Snapshot(None, None, None, None, None, None, None, None, None, None, None, None, None, None, None)
}
