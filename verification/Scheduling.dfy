/**
 * Which rows a claim may take, and in what order: the WHERE and ORDER BY of the
 * candidate query and of the single-statement claim.
 */
module Scheduling {
  import opened Wrappers
  import opened WorkQueue
  import opened TaskTable

  /** The gorm backend reads at most this many candidates at a time. */
  const WINDOW: nat := 5

  datatype Candidate = Candidate(id: TaskId, row: Row)

  predicate Due(row: Row, queue: string, at: int) {
    row.queue == queue && row.status == Pending && row.runAt <= at
  }

  /** ORDER BY run_at, enqueued_at; rows that tie may come in either order. */
  predicate NotAfter(a: Row, b: Row) {
    a.runAt < b.runAt || (a.runAt == b.runAt && a.enqueuedAt <= b.enqueuedAt)
  }

  /** What FOR UPDATE SKIP LOCKED ... LIMIT 1 may select. */
  predicate IsNext(table: Table, queue: string, at: int, locked: set<TaskId>, id: TaskId) {
    && id in table && id !in locked && Due(table[id], queue, at)
    && forall k :: k in table && k !in locked && Due(table[k], queue, at) ==> NotAfter(table[id], table[k])
  }

  /** What the candidate query may return: a sorted prefix of the due rows. */
  ghost predicate IsWindow(table: Table, queue: string, at: int, cands: seq<Candidate>) {
    && |cands| <= WINDOW
    && (forall i :: 0 <= i < |cands| ==>
          cands[i].id in table && table[cands[i].id] == cands[i].row && Due(cands[i].row, queue, at))
    && (forall i, j :: 0 <= i < j < |cands| ==>
          cands[i].id != cands[j].id && NotAfter(cands[i].row, cands[j].row))
    && (forall k :: k in table && Due(table[k], queue, at) && (forall i :: 0 <= i < |cands| ==> cands[i].id != k) ==>
          |cands| == WINDOW && forall i :: 0 <= i < |cands| ==> NotAfter(cands[i].row, table[k]))
  }

  /**
   * The head of the window is what the single-statement claim selects when
   * nothing is locked, and the window is empty only when nothing is due.
   */
  lemma WindowHead(table: Table, queue: string, at: int, cands: seq<Candidate>)
    requires IsWindow(table, queue, at, cands)
    ensures cands != [] ==> IsNext(table, queue, at, {}, cands[0].id)
    ensures cands == [] <==> forall k :: k in table ==> !Due(table[k], queue, at)
  {
  }

  /**
   * What it means to be a window, column by column: at most five due rows, in order,
   * and no due row left out but for lack of room.
   */
  lemma WindowByColumns(table: Table, queue: string, at: int, cands: seq<Candidate>)
    ensures IsWindow(table, queue, at, cands) <==>
              && (forall i :: 0 <= i < |cands| ==>
                    && cands[i].id in table && cands[i].row == table[cands[i].id]
                    && cands[i].row.queue == queue && cands[i].row.status == Pending && cands[i].row.runAt <= at)
              && (forall i, j :: 0 <= i < j < |cands| ==>
                    && cands[i].id != cands[j].id
                    && (|| cands[i].row.runAt < cands[j].row.runAt
                        || (cands[i].row.runAt == cands[j].row.runAt
                            && cands[i].row.enqueuedAt <= cands[j].row.enqueuedAt)))
              && |cands| <= 5
              && (forall k :: && k in table && table[k].queue == queue
                              && table[k].status == Pending && table[k].runAt <= at ==>
                    || (exists i :: 0 <= i < |cands| && cands[i].id == k)
                    || (|cands| == 5
                        && forall i :: 0 <= i < |cands| ==>
                             || cands[i].row.runAt < table[k].runAt
                             || (cands[i].row.runAt == table[k].runAt
                                 && cands[i].row.enqueuedAt <= table[k].enqueuedAt)))
  {
  }

  // ---------- How long to sleep ----------

  /** Durations are counts of nanoseconds. */
  const MILLISECOND: int := 1_000_000

  predicate PendingIn(row: Row, queue: string) { row.queue == queue && row.status == Pending }

  /** The result of the next-due query: the least run_at among the pending rows. */
  ghost predicate IsFirst(table: Table, queue: string, first: Option<int>) {
    && (first.None? ==> forall id :: id in table ==> !PendingIn(table[id], queue))
    && (first.Some? ==>
          && (exists id :: id in table && PendingIn(table[id], queue) && table[id].runAt == first.value)
          && (forall id :: id in table && PendingIn(table[id], queue) ==> first.value <= table[id].runAt))
  }

  /** How long a claim that found nothing tells its worker to sleep. */
  function WaitFor(first: Option<int>, at: int, poll: int): int {
    if first.Some? && first.value - at < poll
    then if first.value - at < MILLISECOND then MILLISECOND else first.value - at
    else poll
  }

  /**
   * The wait of a claim that found nothing: the poll interval when no pending row
   * of the queue is due before its end, and otherwise up to the first pending row,
   * but at least a millisecond.
   */
  ghost predicate SleepsFor(table: Table, queue: string, until: int, poll: int, wait: int) {
    if forall k :: k in table && table[k].queue == queue && table[k].status == Pending ==>
                     until + poll <= table[k].runAt
    then wait == poll
    else exists k :: && IsEarliestPending(table, queue, k) && table[k].runAt < until + poll
                     && wait == if table[k].runAt - until < 1_000_000 then 1_000_000 else table[k].runAt - until
  }

  predicate IsEarliestPending(table: Table, queue: string, id: TaskId) {
    && id in table && table[id].queue == queue && table[id].status == Pending
    && forall k :: k in table && table[k].queue == queue && table[k].status == Pending ==>
                     table[id].runAt <= table[k].runAt
  }
}
