/**
 * Which statement last wrote each column. The columns of a row are read off the
 * history of its task: nobody's report is ever mixed into somebody else's.
 */
module RowHistory {
  import opened Wrappers
  import opened WorkQueue
  import opened TaskTable

  /** The columns that several statements write. */
  datatype Column = RunAt | LastError | DiedAt | Lease

  predicate Writes(stmt: Statement, column: Column) {
    match KindOf(stmt)
    case Inserted => true
    case Claimed => column == Lease
    case Reaped => column == Lease
    case Failed => column == Lease || column == LastError || column == if stmt.MarkDead? then DiedAt else RunAt
    case Requeued => column != Lease
    case Deleted => false
    case Completed => false
  }

  /** The last statement that affected the task and wrote the column. */
  function LastWriter(log: Log, id: TaskId, column: Column): Option<Statement> {
    if log == [] then None
    else
      var front, last := log[..|log| - 1], log[|log| - 1];
      if Affects(last, id, RowAfter(front, id)) && Writes(last, column) then Some(last)
      else LastWriter(front, id, column)
  }

  /** When the row is due, and until when it is leased. */
  predicate TellsTimes(row: Row, log: Log, id: TaskId) {
    var due, lease := LastWriter(log, id, RunAt), LastWriter(log, id, Lease);
    && due.Some? && lease.Some?
    && (match due.value
        case Insert(_, _, runAt, _, _) => row.runAt == runAt
        case Reschedule(_, _, _, runAt) => row.runAt == runAt
        case RequeueDead(_, _, at) => row.runAt == at
        case _ => false)
    && row.leaseExpiresAt == if lease.value.ClaimRow? then Some(lease.value.lease) else None
  }

  /** What failed last, and when the row died. */
  predicate TellsReports(row: Row, log: Log, id: TaskId) {
    var error, died := LastWriter(log, id, LastError), LastWriter(log, id, DiedAt);
    && error.Some? && died.Some?
    && row.lastError == (if error.value.Reschedule? || error.value.MarkDead? then error.value.error else "")
    && row.diedAt == if died.value.MarkDead? then Some(died.value.at) else None
  }

  /**
   * In every run a row is due when its last schedule said, and leased for as long
   * as its last claim said, if nothing ended the lease since.
   */
  lemma {:induction false} TimesTellHistory(log: Log, id: TaskId)
    requires RowAfter(log, id).Some?
    ensures TellsTimes(RowAfter(log, id).value, log, id)
  {
    var front := log[..|log| - 1];
    if RowAfter(front, id).Some? {
      TimesTellHistory(front, id);
    }
  }

  /**
   * It carries the error of its last failure, and the time of its death, if
   * neither was wiped by a requeue since.
   */
  lemma {:induction false} ReportsTellHistory(log: Log, id: TaskId)
    requires RowAfter(log, id).Some?
    ensures TellsReports(RowAfter(log, id).value, log, id)
  {
    var front := log[..|log| - 1];
    if RowAfter(front, id).Some? {
      ReportsTellHistory(front, id);
    }
  }

  /** A dead row was killed by the report of the claim it then carried. */
  lemma {:induction false} DeadRowWasReported(log: Log, id: TaskId)
    requires RowAfter(log, id).Some? && RowAfter(log, id).value.status == Dead
    ensures var row, report := RowAfter(log, id).value, LastWriter(log, id, DiedAt);
            && row.diedAt.Some? && report.Some?
            && report.value == MarkDead(id, row.attempts, row.lastError, row.diedAt.value)
            && LastWriter(log, id, LastError) == report
  {
    var front, last := log[..|log| - 1], log[|log| - 1];
    RowsAreWellShaped(log, id);
    if !Affects(last, id, RowAfter(front, id)) {
      DeadRowWasReported(front, id);
    }
  }
}
