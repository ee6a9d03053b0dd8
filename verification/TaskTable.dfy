/**
 * The task table shared by the gorm and postgres backends. Each SQL statement
 * is one atomic step that keeps, rewrites or removes every row independently of
 * the others, so a statement is given by its effect on a single row, and the
 * table after a run is the replay of the statements executed so far.
 *
 * Nothing here assumes who issues a statement or how stale its arguments are.
 */
module TaskTable {
  import opened Wrappers
  import opened WorkQueue

  datatype Status = Pending | Running | Dead

  /**
   * A row of the table. The last field is not a column: it counts the requeues
   * of the task, and no WHERE clause reads it.
   */
  datatype Row = Row(
    queue: string,
    status: Status,
    runAt: int,
    attempts: nat,
    maxRetries: nat,
    enqueuedAt: int,
    lastError: string,
    diedAt: Option<int>,
    leaseExpiresAt: Option<int>,
    epoch: nat)

  type Table = map<TaskId, Row>

  /** The statements of both backends, with the arguments bound at the call. */
  datatype Statement =
    | Insert(id: TaskId, queue: string, runAt: int, maxRetries: nat, enqueuedAt: int)
    | ClaimRow(id: TaskId, attempts: nat, lease: int)
    | ReapExpired(queue: string, at: int)
    | Reschedule(id: TaskId, attempts: nat, error: string, runAt: int)
    | MarkDead(id: TaskId, attempts: nat, error: string, at: int)
    | RequeueDead(id: TaskId, queue: string, at: int)
    | DeleteDead(id: TaskId, queue: string)
    | DeleteDone(id: TaskId)

  /** What a statement does to a row it affects. */
  datatype Kind = Inserted | Claimed | Reaped | Failed | Requeued | Deleted | Completed

  function KindOf(stmt: Statement): Kind {
    match stmt
    case Insert(_, _, _, _, _) => Inserted
    case ClaimRow(_, _, _) => Claimed
    case ReapExpired(_, _) => Reaped
    case Reschedule(_, _, _, _) => Failed
    case MarkDead(_, _, _, _) => Failed
    case RequeueDead(_, _, _) => Requeued
    case DeleteDead(_, _) => Deleted
    case DeleteDone(_) => Completed
  }

  /** The WHERE clause; a primary key makes Insert affect absent rows only. */
  predicate Affects(stmt: Statement, id: TaskId, row: Option<Row>) {
    match stmt
    case Insert(k, _, _, _, _) => k == id && row.None?
    case ClaimRow(k, attempts, _) =>
      k == id && row.Some? && row.value.status == Pending && row.value.attempts == attempts
    case ReapExpired(queue, at) =>
      row.Some? && row.value.queue == queue && row.value.status == Running
      && row.value.leaseExpiresAt.Some? && row.value.leaseExpiresAt.value < at
    case Reschedule(k, attempts, _, _) =>
      k == id && row.Some? && row.value.status == Running && row.value.attempts == attempts
    case MarkDead(k, attempts, _, _) =>
      k == id && row.Some? && row.value.status == Running && row.value.attempts == attempts
    case RequeueDead(k, queue, _) =>
      k == id && row.Some? && row.value.queue == queue && row.value.status == Dead
    case DeleteDead(k, queue) =>
      k == id && row.Some? && row.value.queue == queue && row.value.status == Dead
    case DeleteDone(k) => k == id && row.Some?
  }

  /** The row a statement leaves behind when it affects this one. */
  function Rewrite(stmt: Statement, id: TaskId, row: Option<Row>): Option<Row>
    requires Affects(stmt, id, row)
  {
    match stmt
    case Insert(_, queue, runAt, maxRetries, enqueuedAt) =>
      Some(Row(queue, Pending, runAt, 0, maxRetries, enqueuedAt, "", None, None, 0))
    case ClaimRow(_, _, lease) =>
      Some(row.value.(status := Running, attempts := row.value.attempts + 1, leaseExpiresAt := Some(lease)))
    case ReapExpired(_, _) =>
      Some(row.value.(status := Pending, leaseExpiresAt := None))
    case Reschedule(_, _, error, runAt) =>
      Some(row.value.(status := Pending, runAt := runAt, lastError := error, leaseExpiresAt := None))
    case MarkDead(_, _, error, at) =>
      Some(row.value.(status := Dead, lastError := error, diedAt := Some(at), leaseExpiresAt := None))
    case RequeueDead(_, _, at) =>
      Some(row.value.(status := Pending, attempts := 0, lastError := "", diedAt := None, runAt := at,
                      epoch := row.value.epoch + 1))
    case DeleteDead(_, _) => None
    case DeleteDone(_) => None
  }

  function ApplyRow(stmt: Statement, id: TaskId, row: Option<Row>): Option<Row> {
    if Affects(stmt, id, row) then Rewrite(stmt, id, row) else row
  }

  function Lookup(table: Table, id: TaskId): Option<Row> {
    if id in table then Some(table[id]) else None
  }

  function Touched(stmt: Statement): set<TaskId> {
    if stmt.Insert? then {stmt.id} else {}
  }

  /** One statement over the whole table. */
  function Apply(stmt: Statement, table: Table): (table': Table)
    ensures forall id {:trigger id in table'} {:trigger Lookup(table', id)} ::
              Lookup(table', id) == ApplyRow(stmt, id, Lookup(table, id))
  {
    map id | id in table.Keys + Touched(stmt) && ApplyRow(stmt, id, Lookup(table, id)).Some?
      :: ApplyRow(stmt, id, Lookup(table, id)).value
  }

  lemma SameLookups(a: Table, b: Table)
    requires forall id :: Lookup(a, id) == Lookup(b, id)
    ensures a == b
  {
    forall id ensures id in a <==> id in b {
      assert Lookup(a, id) == Lookup(b, id);
    }
    assert a.Keys == b.Keys;
    forall id | id in a ensures a[id] == b[id] {
      assert Lookup(a, id) == Lookup(b, id);
    }
  }

  /** A statement that names one task is one map update. */
  lemma ApplyOne(stmt: Statement, table: Table)
    requires !stmt.ReapExpired?
    ensures var row := ApplyRow(stmt, stmt.id, Lookup(table, stmt.id));
            Apply(stmt, table) == if row.None? then table - {stmt.id} else table[stmt.id := row.value]
  {
    var row := ApplyRow(stmt, stmt.id, Lookup(table, stmt.id));
    var table' := if row.None? then table - {stmt.id} else table[stmt.id := row.value];
    forall id ensures Lookup(Apply(stmt, table), id) == Lookup(table', id) {
      assert Lookup(Apply(stmt, table), id) == ApplyRow(stmt, id, Lookup(table, id));
    }
    SameLookups(Apply(stmt, table), table');
  }

  /** A statement that affects no row leaves the table as it is. */
  lemma ApplyNone(stmt: Statement, table: Table)
    requires forall id :: !Affects(stmt, id, Lookup(table, id))
    ensures Apply(stmt, table) == table
  {
    forall id ensures Lookup(Apply(stmt, table), id) == Lookup(table, id) {
      assert Lookup(Apply(stmt, table), id) == ApplyRow(stmt, id, Lookup(table, id));
    }
    SameLookups(Apply(stmt, table), table);
  }

  type Log = seq<Statement>

  /** The row of one task after a run. */
  function RowAfter(log: Log, id: TaskId): Option<Row> {
    if log == [] then None else ApplyRow(log[|log| - 1], id, RowAfter(log[..|log| - 1], id))
  }

  /** Statements in the order in which they reach a table. */
  function ApplyAll(stmts: Log, table: Table): Table {
    if stmts == [] then table else Apply(stmts[|stmts| - 1], ApplyAll(stmts[..|stmts| - 1], table))
  }

  function Replay(log: Log): Table {
    ApplyAll(log, map[])
  }

  lemma {:induction false} ApplyAllAppends(a: Log, b: Log, table: Table)
    ensures ApplyAll(a + b, table) == ApplyAll(b, ApplyAll(a, table))
  {
    if b == [] {
      assert a + b == a;
    } else {
      assert (a + b)[..|a + b| - 1] == a + b[..|b| - 1];
      ApplyAllAppends(a, b[..|b| - 1], table);
    }
  }

  lemma {:induction false} ReplayRow(log: Log, id: TaskId)
    ensures Lookup(Replay(log), id) == RowAfter(log, id)
  {
    if log != [] {
      ReplayRow(log[..|log| - 1], id);
    }
  }

  // ---------- Row life cycle ----------

  /** What holds of every row a run can produce. */
  predicate WellShaped(row: Row) {
    && (row.leaseExpiresAt.Some? <==> row.status == Running)
    && (row.diedAt.Some? <==> row.status == Dead)
    && (row.status == Running ==> row.attempts > 0)
    && (row.status == Dead ==> row.attempts > 0)
  }

  /** A statement's effect keeps the shape of a row. */
  lemma ApplyKeepsShape(stmt: Statement, id: TaskId, row: Option<Row>)
    requires row.Some? ==> WellShaped(row.value)
    ensures ApplyRow(stmt, id, row).Some? ==> WellShaped(ApplyRow(stmt, id, row).value)
  {
  }

  lemma {:induction false} RowsAreWellShaped(log: Log, id: TaskId)
    ensures RowAfter(log, id).Some? ==> WellShaped(RowAfter(log, id).value)
  {
    if log != [] {
      RowsAreWellShaped(log[..|log| - 1], id);
      ApplyKeepsShape(log[|log| - 1], id, RowAfter(log[..|log| - 1], id));
    }
  }

  /**
   * A total order on the states of a row: by requeue, then by attempt, then
   * running before pending before dead.
   */
  function Phase(status: Status): nat {
    match status case Running => 0 case Pending => 1 case Dead => 2
  }

  predicate Before(a: Row, b: Row) {
    || a.epoch < b.epoch
    || (a.epoch == b.epoch && a.attempts < b.attempts)
    || (a.epoch == b.epoch && a.attempts == b.attempts && Phase(a.status) < Phase(b.status))
  }

  predicate SameTask(a: Row, b: Row) {
    a.queue == b.queue && a.maxRetries == b.maxRetries && a.enqueuedAt == b.enqueuedAt
  }

  /** b is a, or a later state of the row that a was. */
  predicate Later(a: Row, b: Row) {
    SameTask(a, b) && (a == b || Before(a, b))
  }

  predicate LaterOrGone(a: Row, b: Option<Row>) {
    b.None? || Later(a, b.value)
  }

  /**
   * Every statement that affects a row moves it forward, so no state of a row
   * ever comes back. In particular an epoch, an attempt and a status together
   * identify one state of the row.
   */
  lemma Advances(stmt: Statement, id: TaskId, row: Row)
    requires WellShaped(row)
    ensures LaterOrGone(row, ApplyRow(stmt, id, Some(row)))
    ensures Affects(stmt, id, Some(row)) && ApplyRow(stmt, id, Some(row)).Some? ==>
              Before(row, ApplyRow(stmt, id, Some(row)).value)
  {
  }

  /** The row with this snapshot is still exactly as it was then. */
  lemma SameStateSameRow(a: Row, b: Row)
    requires Later(a, b) && a.epoch == b.epoch && a.attempts == b.attempts && a.status == b.status
    ensures a == b
  {
  }

  lemma LaterTransitive(a: Row, b: Row, c: Option<Row>)
    requires Later(a, b) && LaterOrGone(b, c)
    ensures LaterOrGone(a, c)
  {
  }

  // ---------- Counting what happened to one task ----------

  /** How often statements of one kind affected the task in this run. */
  function Count(log: Log, id: TaskId, kind: Kind): nat {
    if log == [] then 0
    else
      var front, last := log[..|log| - 1], log[|log| - 1];
      Count(front, id, kind) + if KindOf(last) == kind && Affects(last, id, RowAfter(front, id)) then 1 else 0
  }

  /** The same, counting only what came after the last requeue of the task. */
  function Recent(log: Log, id: TaskId, kind: Kind): nat {
    if log == [] then 0
    else
      var front, last := log[..|log| - 1], log[|log| - 1];
      var hit := Affects(last, id, RowAfter(front, id));
      if hit && KindOf(last) == Requeued then 0
      else Recent(front, id, kind) + if hit && KindOf(last) == kind then 1 else 0
  }

  /** The attempt numbers that claimants of the task saw since its last requeue. */
  function ClaimNumbers(log: Log, id: TaskId): seq<nat> {
    if log == [] then []
    else
      var front, last := log[..|log| - 1], log[|log| - 1];
      var hit := Affects(last, id, RowAfter(front, id));
      if hit && last.RequeueDead? then []
      else if hit && last.ClaimRow? then ClaimNumbers(front, id) + [last.attempts + 1]
      else ClaimNumbers(front, id)
  }

  /**
   * What the issuers of a log owe one task: its identifier is used for one
   * Insert only, and a failure report that affects the row chooses between retry
   * and death by the row's own budget.
   */
  ghost predicate Lawful(log: Log, id: TaskId) {
    log == [] ||
    var front, last := log[..|log| - 1], log[|log| - 1];
    Lawful(front, id) && LawfulNext(front, last, id)
  }

  ghost predicate LawfulNext(log: Log, stmt: Statement, id: TaskId) {
    var row := RowAfter(log, id);
    && (stmt.Insert? && stmt.id == id ==> Count(log, id, Inserted) == 0)
    && (stmt.Reschedule? && Affects(stmt, id, row) ==> stmt.attempts <= row.value.maxRetries)
    && (stmt.MarkDead? && Affects(stmt, id, row) ==> stmt.attempts > row.value.maxRetries)
  }

  lemma {:induction false} PresentWasInserted(log: Log, id: TaskId)
    ensures RowAfter(log, id).Some? ==> Count(log, id, Inserted) > 0
  {
    if log != [] {
      PresentWasInserted(log[..|log| - 1], id);
    }
  }

  /**
   * Attempt accounting, for every run whatever its interleaving: a row's
   * attempts are the failures and reaps since its last requeue, plus the claim
   * in progress; its epoch is the number of requeues; and the claims since the
   * last requeue carried the numbers 1, 2, 3, ... without gap or repetition.
   */
  lemma AttemptsAccounted(log: Log, id: TaskId)
    requires RowAfter(log, id).Some?
    requires Count(log, id, Inserted) <= 1
    ensures var row := RowAfter(log, id).value;
            && row.attempts == Recent(log, id, Failed) + Recent(log, id, Reaped)
                               + (if row.status == Running then 1 else 0)
            && row.attempts == Recent(log, id, Claimed)
            && row.epoch == Count(log, id, Requeued)
            && ClaimNumbers(log, id) == seq(row.attempts, i => i + 1)
  {
    FailuresAccounted(log, id);
    ClaimsAccounted(log, id);
    ClaimsNumbered(log, id);
  }

  lemma {:induction false} FailuresAccounted(log: Log, id: TaskId)
    requires RowAfter(log, id).Some?
    requires Count(log, id, Inserted) <= 1
    ensures RowAfter(log, id).value.attempts ==
            Recent(log, id, Failed) + Recent(log, id, Reaped)
            + if RowAfter(log, id).value.status == Running then 1 else 0
  {
    var front, last := log[..|log| - 1], log[|log| - 1];
    if RowAfter(front, id).Some? {
      FailuresAccounted(front, id);
    } else {
      assert last.Insert?;
      NeverInserted(front, id);
    }
  }

  lemma {:induction false} ClaimsAccounted(log: Log, id: TaskId)
    requires RowAfter(log, id).Some?
    requires Count(log, id, Inserted) <= 1
    ensures RowAfter(log, id).value.attempts == Recent(log, id, Claimed)
    ensures RowAfter(log, id).value.epoch == Count(log, id, Requeued)
  {
    var front, last := log[..|log| - 1], log[|log| - 1];
    if RowAfter(front, id).Some? {
      ClaimsAccounted(front, id);
    } else {
      assert last.Insert?;
      NeverInserted(front, id);
    }
  }

  lemma {:induction false} ClaimsNumbered(log: Log, id: TaskId)
    requires RowAfter(log, id).Some?
    requires Count(log, id, Inserted) <= 1
    ensures ClaimNumbers(log, id) == seq(RowAfter(log, id).value.attempts, i => i + 1)
  {
    var front, last := log[..|log| - 1], log[|log| - 1];
    if RowAfter(front, id).Some? {
      ClaimsNumbered(front, id);
    } else {
      assert last.Insert?;
      NeverInserted(front, id);
    }
  }

  lemma {:induction false} NeverInserted(log: Log, id: TaskId)
    requires Count(log, id, Inserted) == 0
    ensures RowAfter(log, id).None? && ClaimNumbers(log, id) == []
    ensures forall kind :: Count(log, id, kind) == 0 && Recent(log, id, kind) == 0
  {
    if log != [] {
      var front, last := log[..|log| - 1], log[|log| - 1];
      NeverInserted(front, id);
      assert !Affects(last, id, RowAfter(front, id));
      forall kind ensures Count(log, id, kind) == 0 && Recent(log, id, kind) == 0 {
        assert Count(front, id, kind) == 0 && Recent(front, id, kind) == 0;
      }
    }
  }

  // ---------- The retry budget ----------

  /** The retries granted by the Insert that created the task. */
  function Budget(log: Log, id: TaskId): nat {
    if log == [] then 0
    else
      var front, last := log[..|log| - 1], log[|log| - 1];
      if last.Insert? && Affects(last, id, RowAfter(front, id)) then last.maxRetries else Budget(front, id)
  }

  lemma {:induction false} BudgetIsColumn(log: Log, id: TaskId)
    requires RowAfter(log, id).Some?
    ensures RowAfter(log, id).value.maxRetries == Budget(log, id)
  {
    var front := log[..|log| - 1];
    if RowAfter(front, id).Some? {
      BudgetIsColumn(front, id);
    }
  }

  lemma {:induction false} AtMostOneInsert(log: Log, id: TaskId)
    requires Lawful(log, id)
    ensures Count(log, id, Inserted) <= 1
  {
    if log != [] {
      AtMostOneInsert(log[..|log| - 1], id);
    }
  }

  /**
   * Since its last requeue a task that is not dead has failed at most
   * maxRetries times. A dead task has made maxRetries + 1 attempts, plus one for
   * each lease that expired on the way; without reaps it died on attempt
   * maxRetries + 1 exactly.
   */
  lemma {:induction false} DiesOnBudget(log: Log, id: TaskId)
    requires Lawful(log, id) && RowAfter(log, id).Some?
    ensures var row := RowAfter(log, id).value;
            var reaps := Recent(log, id, Reaped);
            && (row.status != Dead ==> Recent(log, id, Failed) <= row.maxRetries)
            && (row.status == Dead ==> row.maxRetries + 1 <= row.attempts)
            && row.attempts <= row.maxRetries + 1 + reaps
            && (row.status == Dead && reaps == 0 ==> row.attempts == row.maxRetries + 1)
  {
    var front, last := log[..|log| - 1], log[|log| - 1];
    AtMostOneInsert(log, id);
    AttemptsAccounted(log, id);
    if RowAfter(front, id).Some? {
      AtMostOneInsert(front, id);
      AttemptsAccounted(front, id);
      DiesOnBudget(front, id);
    } else {
      NeverInserted(front, id);
    }
  }

  lemma OneMoreEpoch(m: int, r: int)
    ensures (m + 1) * (r + 1) == (m + 1) * r + (m + 1)
  {
  }

  /**
   * Over a whole run a task is claimed at most (maxRetries + 1) times for each
   * of its 1 + requeues lives, plus once for every lease that expired. The first
   * bound is the same one with the current life taken exactly.
   */
  lemma {:induction false} ClaimsBounded(log: Log, id: TaskId)
    requires Lawful(log, id)
    ensures RowAfter(log, id).Some? ==>
              Count(log, id, Claimed) - RowAfter(log, id).value.attempts
              <= (Budget(log, id) + 1) * Count(log, id, Requeued)
                 + Count(log, id, Reaped) - Recent(log, id, Reaped)
    ensures Count(log, id, Claimed)
            <= (Budget(log, id) + 1) * (1 + Count(log, id, Requeued)) + Count(log, id, Reaped)
  {
    if log != [] {
      var front, last := log[..|log| - 1], log[|log| - 1];
      ClaimsBounded(front, id);
      OneMoreEpoch(Budget(log, id), Count(log, id, Requeued));
      OneMoreEpoch(Budget(log, id), Count(front, id, Requeued));
      if RowAfter(front, id).Some? {
        DiesOnBudget(front, id);
        BudgetIsColumn(front, id);
      } else if Affects(last, id, None) {
        NeverInserted(front, id);
      }
      if RowAfter(log, id).Some? {
        DiesOnBudget(log, id);
        BudgetIsColumn(log, id);
      }
    }
  }

  // ---------- Leaving the table ----------

  /** A row leaves the table only through a completion or a dead-letter delete. */
  lemma RemovedOnlyBy(stmt: Statement, id: TaskId, row: Row)
    ensures ApplyRow(stmt, id, Some(row)).None? <==>
              || stmt == DeleteDone(id)
              || (stmt == DeleteDead(id, row.queue) && row.status == Dead)
  {
  }

  /**
   * Once gone, a task stays gone, and nothing ever happens to it again: no later
   * statement claims, reschedules, reaps or revives it, however stale its issuer.
   */
  lemma {:induction false} GoneForGood(log: Log, more: Log, id: TaskId)
    requires Lawful(log + more, id)
    requires RowAfter(log, id).None? && Count(log, id, Inserted) > 0
    ensures RowAfter(log + more, id).None?
    ensures forall kind :: Count(log + more, id, kind) == Count(log, id, kind)
  {
    if more == [] {
      assert log + more == log;
    } else {
      var init := more[..|more| - 1];
      assert (log + more)[..|log + more| - 1] == log + init;
      GoneForGood(log, init, id);
      assert !Affects(more[|more| - 1], id, RowAfter(log + init, id));
      forall kind ensures Count(log + more, id, kind) == Count(log, id, kind) {
        assert Count(log + init, id, kind) == Count(log, id, kind);
      }
    }
  }

  /** A row only moves forward over any continuation of a run. */
  lemma {:induction false} OnlyForward(log: Log, more: Log, id: TaskId)
    requires Lawful(log + more, id)
    requires RowAfter(log, id).Some?
    ensures LaterOrGone(RowAfter(log, id).value, RowAfter(log + more, id))
  {
    if more == [] {
      assert log + more == log;
    } else {
      var init := more[..|more| - 1];
      assert (log + more)[..|log + more| - 1] == log + init;
      OnlyForward(log, init, id);
      RowsAreWellShaped(log + init, id);
      if RowAfter(log + init, id).Some? {
        Advances(more[|more| - 1], id, RowAfter(log + init, id).value);
      } else {
        PresentWasInserted(log, id);
        StillCounted(log, init, id, Inserted);
      }
    }
  }

  lemma {:induction false} StillCounted(log: Log, more: Log, id: TaskId, kind: Kind)
    ensures Count(log, id, kind) <= Count(log + more, id, kind)
  {
    if more == [] {
      assert log + more == log;
    } else {
      assert (log + more)[..|log + more| - 1] == log + more[..|more| - 1];
      StillCounted(log, more[..|more| - 1], id, kind);
    }
  }
}
