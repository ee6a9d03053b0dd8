/**
 * The SQL statements of the database backends, executed on the rows one by one,
 * each proved to have the effect that TaskTable gives it.
 */
module TableStatements {
  import opened Wrappers
  import opened WorkQueue
  import opened TaskTable
  import opened Scheduling
  import Lease
  import RetryBackoff

  /** An earliest row of a set, in the order of the queries. */
  method Earliest(rows: Table, ids: set<TaskId>) returns (id: TaskId)
    requires ids != {} && ids <= rows.Keys
    ensures id in ids && forall k :: k in ids ==> NotAfter(rows[id], rows[k])
    ensures forall k :: k in ids ==>
              || rows[id].runAt < rows[k].runAt
              || (rows[id].runAt == rows[k].runAt && rows[id].enqueuedAt <= rows[k].enqueuedAt)
  {
    id :| id in ids;
    var todo := ids - {id};
    while todo != {}
      invariant todo <= ids && id in ids
      invariant forall k :: k in ids && k !in todo ==> NotAfter(rows[id], rows[k])
      decreases todo
    {
      var k :| k in todo;
      if !NotAfter(rows[id], rows[k]) {
        id := k;
      }
      todo := todo - {k};
    }
  }

  /** SELECT ... ORDER BY run_at, enqueued_at LIMIT 5. */
  method FindCandidates(rows: Table, queue: string, now: int) returns (cands: seq<Candidate>)
    ensures IsWindow(rows, queue, now, cands)
  {
    var due := set id | id in rows && Due(rows[id], queue, now);
    cands := [];
    while due != {} && |cands| < WINDOW
      invariant |cands| <= WINDOW
      invariant forall id :: id in due ==> id in rows && Due(rows[id], queue, now)
      invariant forall i :: 0 <= i < |cands| ==>
                  && cands[i].id in rows && rows[cands[i].id] == cands[i].row && Due(cands[i].row, queue, now)
                  && cands[i].id !in due
      invariant forall i, j :: 0 <= i < j < |cands| ==>
                  cands[i].id != cands[j].id && NotAfter(cands[i].row, cands[j].row)
      invariant forall i, id :: 0 <= i < |cands| && id in due ==> NotAfter(cands[i].row, rows[id])
      invariant forall id :: id in rows && Due(rows[id], queue, now) && id !in due ==>
                  exists i :: 0 <= i < |cands| && cands[i].id == id
      decreases due
    {
      var id := Earliest(rows, due);
      ghost var before := cands;
      cands := cands + [Candidate(id, rows[id])];
      due := due - {id};
      assert forall i :: 0 <= i < |before| ==> cands[i] == before[i];
      assert cands[|before|].id == id;
    }
  }

  /** SELECT run_at ... ORDER BY run_at LIMIT 1: the first pending row, due or not. */
  method NextRunAt(rows: Table, queue: string) returns (first: Option<int>)
    ensures IsFirst(rows, queue, first)
    ensures first.None? ==> forall k :: k in rows ==> !(rows[k].queue == queue && rows[k].status == Pending)
    ensures first.Some? ==> exists k :: k in rows && rows[k].queue == queue && rows[k].status == Pending
                                        && rows[k].runAt == first.value
    ensures first.Some? ==> forall k :: k in rows && rows[k].queue == queue && rows[k].status == Pending ==>
                                        first.value <= rows[k].runAt
  {
    var pending := set k | k in rows && PendingIn(rows[k], queue);
    if pending == {} {
      first := None;
      assert forall k :: k in rows ==> k !in pending;
    } else {
      var k := Earliest(rows, pending);
      first := Some(rows[k].runAt);
    }
  }

  /**
   * How long a claim that found nothing says to sleep from the instant until: the
   * poll interval when no pending row is due before its end, and otherwise up to
   * the first pending row, but at least a millisecond.
   */
  method SleepTime(rows: Table, queue: string, until: int, poll: int) returns (wait: int)
    ensures exists first :: IsFirst(rows, queue, first) && wait == WaitFor(first, until, poll)
    ensures SleepsFor(rows, queue, until, poll, wait)
  {
    var first := NextRunAt(rows, queue);
    wait := poll;
    if first.Some? {
      ghost var k :| k in rows && PendingIn(rows[k], queue) && rows[k].runAt == first.value;
      assert IsEarliestPending(rows, queue, k);
      var remaining := first.value - until;
      if remaining < poll {
        wait := if remaining < MILLISECOND then MILLISECOND else remaining;
      }
    }
    assert IsFirst(rows, queue, first) && wait == WaitFor(first, until, poll);
  }

  /** UPDATE ... WHERE queue = ? AND status = 'running' AND lease_expires_at < ?. */
  method Reap(rows: Table, queue: string, now: int) returns (rows': Table, affected: nat)
    ensures rows' == Apply(ReapExpired(queue, now), rows)
    ensures rows'.Keys == rows.Keys
    ensures forall k :: k in rows ==>
              rows'[k] == if rows[k].queue == queue && rows[k].status == Running
                             && rows[k].leaseExpiresAt.Some? && rows[k].leaseExpiresAt.value < now
                          then rows[k].(status := Pending, leaseExpiresAt := None) else rows[k]
    ensures affected > 0 <==> exists id :: Affects(ReapExpired(queue, now), id, Lookup(rows, id))
  {
    var expired := set id | id in rows && Affects(ReapExpired(queue, now), id, Lookup(rows, id));
    if expired != {} {
      var id :| id in expired;
      assert Affects(ReapExpired(queue, now), id, Lookup(rows, id));
      assert |expired| > 0;
    }
    assert forall id :: Affects(ReapExpired(queue, now), id, Lookup(rows, id)) ==> id in expired;
    affected := |expired|;
    rows' := rows;
    var todo := expired;
    while todo != {}
      invariant todo <= expired && rows'.Keys == rows.Keys
      invariant forall id :: id in rows ==>
                  rows'[id] == if id in expired && id !in todo
                               then ApplyRow(ReapExpired(queue, now), id, Some(rows[id])).value else rows[id]
      decreases todo
    {
      var id :| id in todo;
      rows' := rows'[id := rows'[id].(status := Pending, leaseExpiresAt := None)];
      todo := todo - {id};
    }
    forall id ensures Lookup(rows', id) == Lookup(Apply(ReapExpired(queue, now), rows), id) {
      assert Lookup(Apply(ReapExpired(queue, now), rows), id)
          == ApplyRow(ReapExpired(queue, now), id, Lookup(rows, id));
    }
    SameLookups(rows', Apply(ReapExpired(queue, now), rows));
  }

  /** Statements of other workers reach the table. */
  method Rivals(rows: Table, stmts: Log) returns (rows': Table)
    ensures rows' == ApplyAll(stmts, rows)
  {
    rows' := rows;
    for i := 0 to |stmts|
      invariant rows' == ApplyAll(stmts[..i], rows)
    {
      assert stmts[..i + 1][..i] == stmts[..i];
      rows' := Apply(stmts[i], rows');
    }
    assert stmts[..|stmts|] == stmts;
  }

  /** The two UPDATEs of a failed attempt, guarded by status and attempts. */
  method GuardedReschedule(rows: Table, id: TaskId, attempts: nat, error: string, runAt: int) returns (rows': Table)
    ensures rows' == Apply(Reschedule(id, attempts, error, runAt), rows)
    ensures rows' == if id in rows && rows[id].status == Running && rows[id].attempts == attempts
                     then rows[id := rows[id].(status := Pending, runAt := runAt, lastError := error,
                                               leaseExpiresAt := None)]
                     else rows
  {
    rows' := rows;
    ApplyOne(Reschedule(id, attempts, error, runAt), rows);
    if id in rows && rows[id].status == Running && rows[id].attempts == attempts {
      rows' := rows[id := rows[id].(status := Pending, runAt := runAt, lastError := error, leaseExpiresAt := None)];
    } else {
      ApplyNone(Reschedule(id, attempts, error, runAt), rows);
    }
  }

  method GuardedDeath(rows: Table, id: TaskId, attempts: nat, error: string, at: int) returns (rows': Table)
    ensures rows' == Apply(MarkDead(id, attempts, error, at), rows)
    ensures rows' == if id in rows && rows[id].status == Running && rows[id].attempts == attempts
                     then rows[id := rows[id].(status := Dead, lastError := error, diedAt := Some(at),
                                               leaseExpiresAt := None)]
                     else rows
  {
    rows' := rows;
    ApplyOne(MarkDead(id, attempts, error, at), rows);
    if id in rows && rows[id].status == Running && rows[id].attempts == attempts {
      rows' := rows[id := rows[id].(status := Dead, lastError := error, diedAt := Some(at), leaseExpiresAt := None)];
    } else {
      ApplyNone(MarkDead(id, attempts, error, at), rows);
    }
  }

  /**
   * Ends one delivery attempt of the record a worker claimed. broadcast says
   * whether the local workers are woken: after every retry, even one that its
   * guard turned into nothing.
   */
  method Settle(rows: Table, record: Candidate, result: Lease.Result) returns (rows': Table, broadcast: bool)
    requires record.row.attempts < 0x8000_0000_0000_0000
    ensures rows' == Apply(Lease.FinishStatement(record.id, record.row, result), rows)
    ensures rows' ==
            if result.Success? then rows - {record.id}
            else if record.id !in rows || rows[record.id].status != Running
                    || rows[record.id].attempts != record.row.attempts then rows
            else if record.row.attempts <= record.row.maxRetries then
              rows[record.id := rows[record.id].(
                status := Pending, lastError := result.error, leaseExpiresAt := None,
                runAt := result.at + RetryBackoff.Delay(result.base, result.max, record.row.attempts))]
            else
              rows[record.id := rows[record.id].(
                status := Dead, lastError := result.error, leaseExpiresAt := None, diedAt := Some(result.at))]
    ensures broadcast <==> result.Failure? && record.row.attempts <= record.row.maxRetries
  {
    broadcast := false;
    match result {
      case Success =>
        ApplyOne(DeleteDone(record.id), rows);
        rows' := rows - {record.id};
      case Failure(error, at, base, max) =>
        if record.row.attempts > record.row.maxRetries {
          rows' := GuardedDeath(rows, record.id, record.row.attempts, error, at);
        } else {
          var delay, _ := RetryBackoff.Compute(base, max, record.row.attempts as RetryBackoff.int64);
          rows' := GuardedReschedule(rows, record.id, record.row.attempts, error, at + delay as int);
          broadcast := true;
        }
    }
  }

  /** The UPDATE of a requeue; no row affected means the task is not a dead one of the queue. */
  method Revive(rows: Table, queue: string, id: TaskId, now: int) returns (rows': Table, outcome: Outcome)
    ensures rows' == Apply(RequeueDead(id, queue, now), rows)
    ensures outcome == Ok <==> id in rows && rows[id].queue == queue && rows[id].status == Dead
    ensures rows' == if outcome == Ok
                     then rows[id := rows[id].(status := Pending, attempts := 0, lastError := "", diedAt := None,
                                               runAt := now, epoch := rows[id].epoch + 1)]
                     else rows
  {
    ApplyOne(RequeueDead(id, queue, now), rows);
    if id !in rows || rows[id].queue != queue || rows[id].status != Dead {
      ApplyNone(RequeueDead(id, queue, now), rows);
      return rows, ErrTaskNotFound;
    }
    rows' := rows[id := rows[id].(status := Pending, attempts := 0, lastError := "", diedAt := None, runAt := now,
                                  epoch := rows[id].epoch + 1)];
    return rows', Ok;
  }

  method Discard(rows: Table, queue: string, id: TaskId) returns (rows': Table, outcome: Outcome)
    ensures rows' == Apply(DeleteDead(id, queue), rows)
    ensures rows' == if outcome == Ok then rows - {id} else rows
    ensures outcome == Ok <==> id in rows && rows[id].queue == queue && rows[id].status == Dead
  {
    ApplyOne(DeleteDead(id, queue), rows);
    if id in rows && rows[id].queue == queue && rows[id].status == Dead {
      return rows - {id}, Ok;
    }
    ApplyNone(DeleteDead(id, queue), rows);
    return rows, ErrTaskNotFound;
  }
}
