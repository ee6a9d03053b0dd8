/**
 * The gorm backend as it runs: SQL statements on the shared table, the candidate
 * loop of a claim, and the wake channels of the process.
 */
module GormQueue {
  import opened Wrappers
  import opened WorkQueue
  import opened TaskTable
  import opened Scheduling
  import Lease
  import RetryBackoff
  import opened TableStatements
  import opened WakeChannels

  /**
   * The candidate loop from candidate i on, when the statements rivals[i] reach
   * the table just before candidate i is tried.
   */
  function Race(table: Table, cands: seq<Candidate>, lease: int, rivals: seq<Log>, i: nat)
    : (r: (Table, Option<Candidate>))
    requires i <= |cands| && |rivals| == |cands|
    ensures r.1.Some? ==> r.1.value.row.attempts > 0
    decreases |cands| - i
  {
    if i == |cands| then (table, None)
    else
      var stmt := ClaimRow(cands[i].id, cands[i].row.attempts, lease);
      var before := ApplyAll(rivals[i], table);
      if Affects(stmt, cands[i].id, Lookup(before, cands[i].id))
      then (Apply(stmt, before), Some(Candidate(cands[i].id, Lease.Won(cands[i].row, lease))))
      else Race(before, cands, lease, rivals, i + 1)
  }

  /**
   * Without rivals the optimistic loop is the atomic claim of the postgres
   * backend: it takes a row that FOR UPDATE SKIP LOCKED could select with nothing
   * locked, or nothing when nothing is due, and returns the row as it left it.
   */
  lemma UnrivalledRace(table: Table, queue: string, at: int, cands: seq<Candidate>, lease: int, rivals: seq<Log>)
    requires IsWindow(table, queue, at, cands) && |rivals| == |cands|
    requires forall i :: 0 <= i < |rivals| ==> rivals[i] == []
    ensures var (table', won) := Race(table, cands, lease, rivals, 0);
            if won.None? then table' == table && forall k :: k in table ==> !Due(table[k], queue, at)
            else
              && IsNext(table, queue, at, {}, won.value.id)
              && table' == Apply(ClaimRow(won.value.id, table[won.value.id].attempts, lease), table)
              && Lookup(table', won.value.id) == Some(won.value.row)
  {
    WindowHead(table, queue, at, cands);
  }

  /** The table after a race is what others did to it, and then the winning claim, if any. */
  ghost predicate RaceOutcome(table: Table, others: Log, lease: int, result: (Table, Option<Candidate>)) {
    var before := ApplyAll(others, table);
    if result.1.None? then result.0 == before
    else
      var won := result.1.value;
      && won.row.attempts > 0
      && Affects(ClaimRow(won.id, won.row.attempts - 1, lease), won.id, Lookup(before, won.id))
      && result.0 == Apply(ClaimRow(won.id, won.row.attempts - 1, lease), before)
  }

  /**
   * However the rivals interfere, the loop claims at most one row, and last: the
   * final table is the rivals' statements followed by the winning UPDATE.
   */
  lemma {:induction false} RaceClaimsOnce(table: Table, cands: seq<Candidate>, lease: int, rivals: seq<Log>, i: nat)
    requires i <= |cands| && |rivals| == |cands|
    ensures exists others :: RaceOutcome(table, others, lease, Race(table, cands, lease, rivals, i))
    decreases |cands| - i
  {
    var result := Race(table, cands, lease, rivals, i);
    var others: Log := [];
    if i < |cands| {
      var stmt := ClaimRow(cands[i].id, cands[i].row.attempts, lease);
      var before := ApplyAll(rivals[i], table);
      if Affects(stmt, cands[i].id, Lookup(before, cands[i].id)) {
        others := rivals[i];
        assert result == (Apply(stmt, before), Some(Candidate(cands[i].id, Lease.Won(cands[i].row, lease))));
      } else {
        RaceClaimsOnce(before, cands, lease, rivals, i + 1);
        assert result == Race(before, cands, lease, rivals, i + 1);
        var rest :| RaceOutcome(before, rest, lease, result);
        ApplyAllAppends(rivals[i], rest, table);
        others := rivals[i] + rest;
      }
    }
    assert RaceOutcome(table, others, lease, result);
  }

  /** Candidate j was won: it is running, one attempt further, under the lease, and the record says the same. */
  predicate IsWonAt(table: Table, cands: seq<Candidate>, lease: int, won: Candidate, j: int) {
    && 0 <= j < |cands| && won.id == cands[j].id
    && won.row == cands[j].row.(status := Running, attempts := cands[j].row.attempts + 1, leaseExpiresAt := Some(lease))
    && won.id in table && table[won.id].status == Running
    && table[won.id].attempts == won.row.attempts && table[won.id].leaseExpiresAt == Some(lease)
  }

  ghost predicate IsWon(table: Table, cands: seq<Candidate>, lease: int, won: Candidate) {
    exists j :: IsWonAt(table, cands, lease, won, j)
  }

  /** What a race wins is one of its candidates, one attempt further, and the table says so. */
  lemma {:induction false} RaceWinsCandidate(table: Table, cands: seq<Candidate>, lease: int, rivals: seq<Log>, i: nat)
    requires i <= |cands| && |rivals| == |cands|
    ensures var (table', won) := Race(table, cands, lease, rivals, i);
            won.Some? ==> IsWon(table', cands, lease, won.value)
    decreases |cands| - i
  {
    if i < |cands| {
      var c := cands[i];
      var stmt := ClaimRow(c.id, c.row.attempts, lease);
      var before := ApplyAll(rivals[i], table);
      if Affects(stmt, c.id, Lookup(before, c.id)) {
        assert Lookup(Apply(stmt, before), c.id) == ApplyRow(stmt, c.id, Lookup(before, c.id));
        assert IsWonAt(Apply(stmt, before), cands, lease, Candidate(c.id, Lease.Won(c.row, lease)), i);
      } else {
        RaceWinsCandidate(before, cands, lease, rivals, i + 1);
      }
    }
  }

  class GormWorkQueue {
    var rows: Table
    const pollInterval: int
    const leaseDuration: nat
    const wake: Waker

    constructor (pollInterval: int, leaseDuration: nat)
      ensures rows == map[] && wake.Valid() && fresh(wake) && fresh(wake.made) && wake.Gens() == map[]
      ensures this.pollInterval == pollInterval && this.leaseDuration == leaseDuration
    {
      rows := map[];
      this.pollInterval := pollInterval;
      this.leaseDuration := leaseDuration;
      wake := new Waker();
    }

    method Enqueue(id: TaskId, queue: string, runAt: int, maxRetries: nat, now: int)
      requires id !in rows && wake.Valid()
      modifies `rows, wake, wake.made
      ensures rows == Apply(Insert(id, queue, runAt, maxRetries, now), old(rows))
      ensures rows == old(rows)[id := Row(queue := queue, status := Pending, runAt := runAt, attempts := 0,
                                          maxRetries := maxRetries, enqueuedAt := now, lastError := "",
                                          diedAt := None, leaseExpiresAt := None, epoch := 0)]
      ensures wake.Valid() && fresh(wake.made - old(wake.made)) && wake.Gens() == Broadcast(old(wake.Gens()), queue)
    {
      ApplyOne(Insert(id, queue, runAt, maxRetries, now), rows);
      rows := rows[id := Row(queue, Pending, runAt, 0, maxRetries, now, "", None, None, 0)];
      wake.BroadcastLocal(queue);
    }

    method ReapExpiredLeases(queue: string, now: int) returns (affected: nat)
      modifies `rows
      ensures rows == Apply(ReapExpired(queue, now), old(rows)) && rows.Keys == old(rows).Keys
      ensures forall k :: k in old(rows) ==>
                rows[k] == if old(rows)[k].queue == queue && old(rows)[k].status == Running
                              && old(rows)[k].leaseExpiresAt.Some? && old(rows)[k].leaseExpiresAt.value < now
                           then old(rows)[k].(status := Pending, leaseExpiresAt := None) else old(rows)[k]
      ensures affected > 0 <==> exists id :: Affects(ReapExpired(queue, now), id, Lookup(old(rows), id))
    {
      rows, affected := Reap(rows, queue, now);
    }

    /** UPDATE ... WHERE id = ? AND status = 'pending' AND attempts = ?. */
    method GuardedClaim(id: TaskId, attempts: nat, lease: int) returns (affected: bool)
      modifies `rows
      ensures affected <==> Affects(ClaimRow(id, attempts, lease), id, Lookup(old(rows), id))
      ensures rows == Apply(ClaimRow(id, attempts, lease), old(rows))
      ensures affected <==> id in old(rows) && old(rows)[id].status == Pending && old(rows)[id].attempts == attempts
      ensures rows == if affected
                      then old(rows)[id := old(rows)[id].(status := Running, attempts := attempts + 1,
                                                          leaseExpiresAt := Some(lease))]
                      else old(rows)
    {
      ApplyOne(ClaimRow(id, attempts, lease), rows);
      affected := id in rows && rows[id].status == Pending && rows[id].attempts == attempts;
      if affected {
        rows := rows[id := rows[id].(status := Running, attempts := attempts + 1, leaseExpiresAt := Some(lease))];
      } else {
        ApplyNone(ClaimRow(id, attempts, lease), rows);
      }
    }

    /** The candidate loop: rivals[i] holds what reaches the table before candidate i is tried. */
    method TryCandidates(cands: seq<Candidate>, lease: int, rivals: seq<Log>) returns (claimed: Option<Candidate>)
      requires |rivals| == |cands|
      modifies `rows
      ensures (rows, claimed) == Race(old(rows), cands, lease, rivals, 0)
      ensures claimed.Some? ==> IsWon(rows, cands, lease, claimed.value)
    {
      RaceWinsCandidate(rows, cands, lease, rivals, 0);
      var i := 0;
      while i < |cands|
        invariant 0 <= i <= |cands|
        invariant Race(old(rows), cands, lease, rivals, 0) == Race(rows, cands, lease, rivals, i)
      {
        var c := cands[i];
        rows := Rivals(rows, rivals[i]);
        ghost var before := rows;
        var affected := GuardedClaim(c.id, c.row.attempts, lease);
        if affected {
          return Some(Candidate(c.id, c.row.(status := Running, attempts := c.row.attempts + 1,
                                             leaseExpiresAt := Some(lease))));
        }
        ApplyNone(ClaimRow(c.id, c.row.attempts, lease), before);
        i := i + 1;
      }
      return None;
    }

    /** The first half of a claim: read the window, and try its candidates. */
    method TryWindow(queue: string, now: int, rivals: seq<Log>)
      returns (claimed: Option<Candidate>, cands: seq<Candidate>)
      requires |rivals| == WINDOW
      modifies `rows
      ensures IsWindow(old(rows), queue, now, cands)
      ensures (rows, claimed) == Race(old(rows), cands, now + leaseDuration, rivals[..|cands|], 0)
      ensures claimed.Some? ==> IsWon(rows, cands, now + leaseDuration, claimed.value)
    {
      cands := FindCandidates(rows, queue, now);
      claimed := TryCandidates(cands, now + leaseDuration, rivals[..|cands|]);
    }

    /**
     * A claim under arbitrary interference: it claims a row or says how long to
     * sleep; late holds what reaches the table before the query for the next due row.
     */
    method Claim(queue: string, now: int, until: int, rivals: seq<Log>, late: Log)
      returns (claimed: Option<Candidate>, wait: int, cands: seq<Candidate>)
      requires |rivals| == WINDOW
      modifies `rows
      ensures IsWindow(old(rows), queue, now, cands)
      ensures var (raced, won) := Race(old(rows), cands, now + leaseDuration, rivals[..|cands|], 0);
              claimed == won && rows == if won.Some? then raced else ApplyAll(late, raced)
      ensures claimed.Some? ==> IsWon(rows, cands, now + leaseDuration, claimed.value)
      ensures claimed.None? ==>
                exists first :: IsFirst(rows, queue, first) && wait == WaitFor(first, until, pollInterval)
      ensures claimed.None? ==> SleepsFor(rows, queue, until, pollInterval, wait)
    {
      claimed, cands := TryWindow(queue, now, rivals);
      wait := 0;
      if claimed.None? {
        rows := Rivals(rows, late);
        wait := SleepTime(rows, queue, until, pollInterval);
      }
    }

    /** Ends one delivery attempt of the record this worker claimed. */
    method Complete(record: Candidate, result: Lease.Result)
      requires wake.Valid() && record.row.attempts < 0x8000_0000_0000_0000
      modifies `rows, wake, wake.made
      ensures rows == Apply(Lease.FinishStatement(record.id, record.row, result), old(rows))
      ensures rows ==
              if result.Success? then old(rows) - {record.id}
              else if record.id !in old(rows) || old(rows)[record.id].status != Running
                      || old(rows)[record.id].attempts != record.row.attempts then old(rows)
              else if record.row.attempts <= record.row.maxRetries then
                old(rows)[record.id := old(rows)[record.id].(
                  status := Pending, lastError := result.error, leaseExpiresAt := None,
                  runAt := result.at + RetryBackoff.Delay(result.base, result.max, record.row.attempts))]
              else
                old(rows)[record.id := old(rows)[record.id].(
                  status := Dead, lastError := result.error, leaseExpiresAt := None, diedAt := Some(result.at))]
      ensures wake.Valid() && fresh(wake.made - old(wake.made))
      ensures wake.Gens() == if result.Failure? && record.row.attempts <= record.row.maxRetries
                           then Broadcast(old(wake.Gens()), record.row.queue) else old(wake.Gens())
    {
      var broadcast;
      rows, broadcast := Settle(rows, record, result);
      if broadcast {
        wake.BroadcastLocal(record.row.queue);
      }
    }

    method RequeueDeadTask(queue: string, id: TaskId, now: int) returns (outcome: Outcome)
      requires wake.Valid()
      modifies `rows, wake, wake.made
      ensures rows == Apply(RequeueDead(id, queue, now), old(rows))
      ensures outcome == Ok <==> id in old(rows) && old(rows)[id].queue == queue && old(rows)[id].status == Dead
      ensures rows == if outcome == Ok
                      then old(rows)[id := old(rows)[id].(status := Pending, attempts := 0, lastError := "",
                                                          diedAt := None, runAt := now,
                                                          epoch := old(rows)[id].epoch + 1)]
                      else old(rows)
      ensures wake.Valid() && fresh(wake.made - old(wake.made))
      ensures wake.Gens() == if outcome == Ok then Broadcast(old(wake.Gens()), queue) else old(wake.Gens())
    {
      rows, outcome := Revive(rows, queue, id, now);
      if outcome == Ok {
        wake.BroadcastLocal(queue);
      }
    }

    method DeleteDeadTask(queue: string, id: TaskId) returns (outcome: Outcome)
      modifies `rows
      ensures rows == Apply(DeleteDead(id, queue), old(rows))
      ensures rows == if outcome == Ok then old(rows) - {id} else old(rows)
      ensures outcome == Ok <==> id in old(rows) && old(rows)[id].queue == queue && old(rows)[id].status == Dead
    {
      rows, outcome := Discard(rows, queue, id);
    }
  }
}
