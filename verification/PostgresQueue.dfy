/**
 * The postgres backend as it runs: claims are a single statement, and an
 * operation that other processes must hear of commits a NOTIFY with its row.
 */
module PostgresQueue {
  import opened Wrappers
  import opened WorkQueue
  import opened TaskTable
  import opened Scheduling
  import Lease
  import RetryBackoff
  import opened TableStatements
  import opened WakeChannels
  import Wakeups

  class PostgresWorkQueue {
    var rows: Table
    var notified: seq<string>   // the payloads of committed NOTIFYs, in order
    const pollInterval: int
    const leaseDuration: nat
    const wake: Waker

    constructor (pollInterval: int, leaseDuration: nat)
      ensures rows == map[] && notified == [] && wake.Valid() && fresh(wake) && fresh(wake.made) && wake.Gens() == map[]
      ensures this.pollInterval == pollInterval && this.leaseDuration == leaseDuration
    {
      rows, notified := map[], [];
      this.pollInterval := pollInterval;
      this.leaseDuration := leaseDuration;
      wake := new Waker();
    }

    /** Nobody is woken when the transaction fails. */
    method Enqueue(id: TaskId, queue: string, runAt: int, maxRetries: nat, now: int, commits: bool)
      requires id !in rows && wake.Valid()
      modifies `rows, `notified, wake, wake.made
      ensures rows == if commits then Apply(Insert(id, queue, runAt, maxRetries, now), old(rows)) else old(rows)
      ensures commits ==>
                rows == old(rows)[id := Row(queue := queue, status := Pending, runAt := runAt, attempts := 0,
                                            maxRetries := maxRetries, enqueuedAt := now, lastError := "",
                                            diedAt := None, leaseExpiresAt := None, epoch := 0)]
      ensures notified == if commits then old(notified) + [queue] else old(notified)
      ensures wake.Valid() && fresh(wake.made - old(wake.made))
      ensures wake.Gens() == if commits then Broadcast(old(wake.Gens()), queue) else old(wake.Gens())
    {
      if commits {
        ApplyOne(Insert(id, queue, runAt, maxRetries, now), rows);
        rows := rows[id := Row(queue, Pending, runAt, 0, maxRetries, now, "", None, None, 0)];
        notified := notified + [queue];
        wake.BroadcastLocal(queue);
      }
    }

    /**
     * One UPDATE takes the first due row that no other claim has locked, however
     * many workers compete; rivals holds what reaches the table between that
     * statement and the query for the next due row.
     */
    method Claim(queue: string, now: int, until: int, locked: set<TaskId>, rivals: Log)
      returns (claimed: Option<Candidate>, wait: int)
      modifies `rows
      ensures claimed.Some? ==>
                && IsNext(old(rows), queue, now, locked, claimed.value.id)
                && claimed.value.id in old(rows) && claimed.value.id !in locked
                && var row := old(rows)[claimed.value.id];
                && row.queue == queue && row.status == Pending && row.runAt <= now
                && (forall k :: k in old(rows) && k !in locked && old(rows)[k].queue == queue
                                && old(rows)[k].status == Pending && old(rows)[k].runAt <= now ==>
                      || row.runAt < old(rows)[k].runAt
                      || (row.runAt == old(rows)[k].runAt && row.enqueuedAt <= old(rows)[k].enqueuedAt))
                && claimed.value.row == row.(status := Running, attempts := row.attempts + 1,
                                             leaseExpiresAt := Some(now + leaseDuration))
                && rows == old(rows)[claimed.value.id := claimed.value.row]
                && claimed.value.row == Lease.Won(old(rows)[claimed.value.id], now + leaseDuration)
                && rows == Apply(ClaimRow(claimed.value.id, old(rows)[claimed.value.id].attempts, now + leaseDuration),
                                 old(rows))
                && Lookup(rows, claimed.value.id) == Some(claimed.value.row)
      ensures claimed.None? ==>
                && (forall k :: k in old(rows) && Due(old(rows)[k], queue, now) ==> k in locked)
                && rows == ApplyAll(rivals, old(rows))
                && exists first :: IsFirst(rows, queue, first) && wait == WaitFor(first, until, pollInterval)
      ensures claimed.None? ==> SleepsFor(rows, queue, until, pollInterval, wait)
    {
      var due := set id | id in rows && id !in locked && Due(rows[id], queue, now);
      if due != {} {
        var id := Earliest(rows, due);
        ApplyOne(ClaimRow(id, rows[id].attempts, now + leaseDuration), rows);
        assert forall k :: k in rows && k !in locked && Due(rows[k], queue, now) ==> k in due;
        rows := rows[id := rows[id].(status := Running, attempts := rows[id].attempts + 1,
                                     leaseExpiresAt := Some(now + leaseDuration))];
        return Some(Candidate(id, rows[id])), 0;
      }
      assert forall k :: k in rows && k !in locked && Due(rows[k], queue, now) ==> k in due;
      rows := Rivals(rows, rivals);
      wait := SleepTime(rows, queue, until, pollInterval);
      return None, wait;
    }

    /** A NOTIFY follows when a row was recovered, in a statement of its own that can fail. */
    method ReapExpiredLeases(queue: string, now: int, notifyFails: bool)
      modifies `rows, `notified
      ensures rows == Apply(ReapExpired(queue, now), old(rows)) && rows.Keys == old(rows).Keys
      ensures forall k :: k in old(rows) ==>
                rows[k] == if old(rows)[k].queue == queue && old(rows)[k].status == Running
                              && old(rows)[k].leaseExpiresAt.Some? && old(rows)[k].leaseExpiresAt.value < now
                           then old(rows)[k].(status := Pending, leaseExpiresAt := None) else old(rows)[k]
      ensures notified == if !notifyFails && (exists id :: Affects(ReapExpired(queue, now), id, Lookup(old(rows), id)))
                          then old(notified) + [queue] else old(notified)
    {
      var affected;
      rows, affected := Reap(rows, queue, now);
      if affected > 0 && !notifyFails {
        notified := notified + [queue];
      }
    }

    /** A retry wakes the workers of this process only. */
    method Complete(record: Candidate, result: Lease.Result)
      requires wake.Valid() && record.row.attempts < 0x8000_0000_0000_0000
      modifies `rows, wake, wake.made
      ensures rows == Apply(Lease.FinishStatement(record.id, record.row, result), old(rows))
      ensures rows ==
              if result.Success? then old(rows) - {record.id}
              else if record.id !in old(rows) || old(rows)[record.id].status != Running
                      || old(rows)[record.id].attempts != record.row.attempts then old(rows)
              else if record.row.attempts <= record.row.maxRetries then
                old(rows)[record.id := old(rows)[record.id].(
                  status := Pending, lastError := result.error, leaseExpiresAt := None,
                  runAt := result.at + RetryBackoff.Delay(result.base, result.max, record.row.attempts))]
              else
                old(rows)[record.id := old(rows)[record.id].(
                  status := Dead, lastError := result.error, leaseExpiresAt := None, diedAt := Some(result.at))]
      ensures wake.Valid() && fresh(wake.made - old(wake.made))
      ensures wake.Gens() == if result.Failure? && record.row.attempts <= record.row.maxRetries
                           then Broadcast(old(wake.Gens()), record.row.queue) else old(wake.Gens())
    {
      var broadcast;
      rows, broadcast := Settle(rows, record, result);
      if broadcast {
        wake.BroadcastLocal(record.row.queue);
      }
    }

    /** None is a failed transaction; neither it nor a task that is not found wakes anybody. */
    method RequeueDeadTask(queue: string, id: TaskId, now: int, commits: bool) returns (outcome: Option<Outcome>)
      requires wake.Valid()
      modifies `rows, `notified, wake, wake.made
      ensures rows == if commits then Apply(RequeueDead(id, queue, now), old(rows)) else old(rows)
      ensures outcome.None? <==> !commits
      ensures outcome == Some(Ok) <==>
                commits && id in old(rows) && old(rows)[id].queue == queue && old(rows)[id].status == Dead
      ensures rows == if outcome == Some(Ok)
                      then old(rows)[id := old(rows)[id].(status := Pending, attempts := 0, lastError := "",
                                                          diedAt := None, runAt := now,
                                                          epoch := old(rows)[id].epoch + 1)]
                      else old(rows)
      ensures wake.Valid() && fresh(wake.made - old(wake.made))
      ensures notified == if outcome == Some(Ok) then old(notified) + [queue] else old(notified)
      ensures wake.Gens() == if outcome == Some(Ok) then Broadcast(old(wake.Gens()), queue) else old(wake.Gens())
    {
      if !commits {
        return None;
      }
      var result;
      rows, result := Revive(rows, queue, id, now);
      if result == Ok {
        notified := notified + [queue];
        wake.BroadcastLocal(queue);
      }
      return Some(result);
    }

    method DeleteDeadTask(queue: string, id: TaskId) returns (outcome: Outcome)
      modifies `rows
      ensures rows == Apply(DeleteDead(id, queue), old(rows))
      ensures rows == if outcome == Ok then old(rows) - {id} else old(rows)
      ensures outcome == Ok <==> id in old(rows) && old(rows)[id].queue == queue && old(rows)[id].status == Dead
    {
      rows, outcome := Discard(rows, queue, id);
    }

    /** The listener's callback: an empty payload wakes every queue. */
    method OnWake(payload: string)
      requires wake.Valid()
      modifies wake, wake.made
      ensures wake.Valid() && fresh(wake.made - old(wake.made)) && old(wake.made) <= wake.made
      ensures wake.Gens() == Wakeups.OnWake(old(wake.Gens()), payload)
      ensures forall ch :: ch in old(wake.made) ==>
                (ch.closed <==> old(ch.closed) || payload == "" || ch.queue == payload)
    {
      if payload == "" {
        wake.BroadcastAll();
      } else {
        wake.BroadcastLocal(payload);
      }
    }
  }
}
