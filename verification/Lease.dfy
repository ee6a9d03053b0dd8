/**
 * The lease protocol: any number of workers, in any number of processes, race on
 * one table. Every SQL statement is one step, and between two statements of one
 * worker anything may happen. A worker keeps what it read: a list of candidate
 * rows while it tries them one after the other, and the record it claimed while
 * its handler runs.
 */
module Lease {
  import opened Wrappers
  import opened WorkQueue
  import opened TaskTable
  import opened Scheduling
  import RetryBackoff

  type WorkerId = nat

  /**
   * Trying is inside the candidate loop of a gorm claim, about to try
   * candidates[next]. Holding is between a won claim and its completion: local
   * is the record in the worker's memory; claimed, the row as the UPDATE left
   * it, is bookkeeping of the model.
   */
  datatype Worker =
    | Idle
    | Trying(queue: string, at: int, candidates: seq<Candidate>, next: nat)
    | Holding(id: TaskId, claimed: Row, local: Row)

  datatype State = State(now: int, log: Log, table: Table, workers: map<WorkerId, Worker>)

  datatype Result =
    | Success
    | Failure(error: string, at: int, base: RetryBackoff.int64, max: RetryBackoff.int64)

  datatype Step =
    | Tick(to: int)
    | Enqueue(id: TaskId, queue: string, runAt: int, maxRetries: nat, enqueuedAt: int)
    | ReadCandidates(w: WorkerId, queue: string, at: int, candidates: seq<Candidate>)
    | TryCandidate(w: WorkerId, duration: nat)
    | GiveUp(w: WorkerId)
    | ClaimNext(w: WorkerId, queue: string, at: int, duration: nat, locked: set<TaskId>, id: TaskId)
    | Finish(w: WorkerId, result: Result)
    | Abandon(w: WorkerId) // a crash, or a database error that ended the claim or the completion
    | Reap(queue: string, at: int)
    | Requeue(id: TaskId, queue: string, at: int)
    | Discard(id: TaskId, queue: string)

  function WorkerOf(s: State, w: WorkerId): Worker {
    if w in s.workers then s.workers[w] else Idle
  }

  function Exec(s: State, stmt: Statement): State {
    s.(log := s.log + [stmt], table := Apply(stmt, s.table))
  }

  function Put(s: State, w: WorkerId, worker: Worker): State {
    s.(workers := s.workers[w := worker])
  }

  /** The statement by which a worker ends a delivery attempt. */
  function FinishStatement(id: TaskId, local: Row, result: Result): Statement {
    match result
    case Success => DeleteDone(id)
    case Failure(error, at, base, max) =>
      if local.attempts > local.maxRetries then MarkDead(id, local.attempts, error, at)
      else Reschedule(id, local.attempts, error, at + RetryBackoff.Delay(base, max, local.attempts))
  }

  /** The record as the winning worker updates its own copy. */
  function Won(row: Row, lease: int): Row {
    row.(status := Running, attempts := row.attempts + 1, leaseExpiresAt := Some(lease))
  }

  ghost predicate Enabled(s: State, step: Step) {
    match step
    case Tick(to) => s.now <= to
    case Enqueue(id, _, _, _, enqueuedAt) => Count(s.log, id, Inserted) == 0 && enqueuedAt <= s.now
    case ReadCandidates(w, queue, at, candidates) =>
      WorkerOf(s, w).Idle? && at <= s.now && IsWindow(s.table, queue, at, candidates)
    case TryCandidate(w, _) => WorkerOf(s, w).Trying? && WorkerOf(s, w).next < |WorkerOf(s, w).candidates|
    case GiveUp(w) => WorkerOf(s, w).Trying? && WorkerOf(s, w).next == |WorkerOf(s, w).candidates|
    case ClaimNext(w, queue, at, _, locked, id) =>
      WorkerOf(s, w).Idle? && at <= s.now && IsNext(s.table, queue, at, locked, id)
    case Finish(w, result) => WorkerOf(s, w).Holding? && (result.Failure? ==> result.at <= s.now)
    case Abandon(w) => true
    case Reap(_, at) => at <= s.now
    case Requeue(_, _, at) => at <= s.now
    case Discard(_, _) => true
  }

  ghost function Next(s: State, step: Step): State
    requires Enabled(s, step)
  {
    match step
    case Tick(to) => s.(now := to)
    case Enqueue(id, queue, runAt, maxRetries, enqueuedAt) =>
      Exec(s, Insert(id, queue, runAt, maxRetries, enqueuedAt))
    case ReadCandidates(w, queue, at, candidates) => Put(s, w, Trying(queue, at, candidates, 0))
    case TryCandidate(w, duration) =>
      var worker := WorkerOf(s, w);
      var c := worker.candidates[worker.next];
      var stmt := ClaimRow(c.id, c.row.attempts, worker.at + duration);
      var affected := Affects(stmt, c.id, Lookup(s.table, c.id));
      var s' := Exec(s, stmt);
      if affected then Put(s', w, Holding(c.id, s'.table[c.id], Won(c.row, worker.at + duration)))
      else Put(s', w, worker.(next := worker.next + 1))
    case GiveUp(w) => Put(s, w, Idle)
    case ClaimNext(w, _, at, duration, _, id) =>
      var s' := Exec(s, ClaimRow(id, s.table[id].attempts, at + duration));
      Put(s', w, Holding(id, s'.table[id], s'.table[id]))
    case Finish(w, result) =>
      var worker := WorkerOf(s, w);
      Put(Exec(s, FinishStatement(worker.id, worker.local, result)), w, Idle)
    case Abandon(w) => Put(s, w, Idle)
    case Reap(queue, at) => Exec(s, ReapExpired(queue, at))
    case Requeue(id, queue, at) => Exec(s, RequeueDead(id, queue, at))
    case Discard(id, queue) => Exec(s, DeleteDead(id, queue))
  }

  function Start(now: int): State { State(now, [], map[], map[]) }

  /** No worker still holds a record of the task. */
  ghost predicate Unheld(s: State, id: TaskId) {
    forall w :: WorkerOf(s, w).Holding? ==> WorkerOf(s, w).id != id
  }

  /** A caller is careful when it requeues only tasks no worker still holds. */
  ghost predicate CarefulStep(s: State, step: Step) {
    step.Requeue? ==> Unheld(s, step.id)
  }

  /** The state a run leads to, if each of its steps was possible. */
  ghost function Run(s: State, steps: seq<Step>, careful: bool): Option<State> {
    if steps == [] then Some(s)
    else
      var r := Run(s, steps[..|steps| - 1], careful);
      var last := steps[|steps| - 1];
      if r.Some? && Enabled(r.value, last) && (careful ==> CarefulStep(r.value, last)) then Some(Next(r.value, last))
      else None
  }

  // ---------- What every run keeps ----------

  /** row was read from the table under this id, earlier or just now. */
  ghost predicate Snapshot(s: State, id: TaskId, row: Row) {
    Count(s.log, id, Inserted) > 0 && LaterOrGone(row, Lookup(s.table, id))
  }

  /** The candidate's row is still claimable at the attempt it was read with. */
  predicate StillOpen(s: State, c: Candidate) {
    && c.id in s.table && s.table[c.id].status == Pending
    && s.table[c.id].attempts == c.row.attempts && s.table[c.id].epoch == c.row.epoch
  }

  ghost predicate WorkerOk(s: State, worker: Worker) {
    match worker
    case Idle => true
    case Trying(queue, at, candidates, next) =>
      && at <= s.now && next <= |candidates|
      && (forall i :: 0 <= i < |candidates| ==>
            Snapshot(s, candidates[i].id, candidates[i].row) && Due(candidates[i].row, queue, at))
      && (forall i :: 0 <= i < next ==> !StillOpen(s, candidates[i]))
    case Holding(id, claimed, local) =>
      && Snapshot(s, id, claimed) && claimed.status == Running && claimed.attempts > 0 && claimed.leaseExpiresAt.Some?
      && SameTask(local, claimed) && local.attempts == claimed.attempts
      && local.leaseExpiresAt == claimed.leaseExpiresAt && local.status == Running
      && (local.epoch == claimed.epoch ==> local == claimed)
  }

  ghost predicate Core(s: State) {
    && s.table == Replay(s.log)
    && (forall id :: Lawful(s.log, id))
    && (forall w :: WorkerOk(s, WorkerOf(s, w)))
    && (forall v, w :: v != w && WorkerOf(s, v).Holding? && WorkerOf(s, w).Holding?
                       && WorkerOf(s, v).id == WorkerOf(s, w).id ==>
                       WorkerOf(s, v).claimed != WorkerOf(s, w).claimed)
  }

  lemma RowIsShaped(s: State, id: TaskId)
    requires Core(s)
    ensures id in s.table ==> WellShaped(s.table[id])
    ensures id in s.table ==> Count(s.log, id, Inserted) > 0
    ensures Lookup(s.table, id) == RowAfter(s.log, id)
  {
    ReplayRow(s.log, id);
    RowsAreWellShaped(s.log, id);
    PresentWasInserted(s.log, id);
  }

  lemma ExecKeepsSnapshot(s: State, stmt: Statement, id: TaskId, row: Row)
    requires Core(s) && LawfulNext(s.log, stmt, id) && Snapshot(s, id, row)
    ensures Snapshot(Exec(s, stmt), id, row)
    ensures row.status == Pending && !StillOpen(s, Candidate(id, row)) ==>
              !StillOpen(Exec(s, stmt), Candidate(id, row))
  {
    RowIsShaped(s, id);
    StillCounted(s.log, [stmt], id, Inserted);
    assert (s.log + [stmt])[..|s.log|] == s.log;
    assert Lookup(Exec(s, stmt).table, id) == ApplyRow(stmt, id, Lookup(s.table, id));
    if id in s.table {
      Advances(stmt, id, s.table[id]);
      LaterTransitive(row, s.table[id], ApplyRow(stmt, id, Some(s.table[id])));
    }
  }

  lemma ExecKeepsWorker(s: State, stmt: Statement, worker: Worker)
    requires Core(s) && (forall id :: LawfulNext(s.log, stmt, id)) && WorkerOk(s, worker)
    ensures WorkerOk(Exec(s, stmt), worker)
  {
    match worker {
      case Idle =>
      case Trying(_, _, candidates, next) =>
        forall i | 0 <= i < |candidates|
          ensures Snapshot(Exec(s, stmt), candidates[i].id, candidates[i].row)
          ensures i < next ==> !StillOpen(Exec(s, stmt), candidates[i])
        {
          ExecKeepsSnapshot(s, stmt, candidates[i].id, candidates[i].row);
        }
      case Holding(id, claimed, _) =>
        ExecKeepsSnapshot(s, stmt, id, claimed);
    }
  }

  /** A statement whose arguments are lawful leaves every worker's copies consistent. */
  lemma ExecKeepsCore(s: State, stmt: Statement)
    requires Core(s) && forall id :: LawfulNext(s.log, stmt, id)
    ensures Core(Exec(s, stmt))
  {
    var s' := Exec(s, stmt);
    assert s'.log[..|s'.log| - 1] == s.log;
    forall w ensures WorkerOk(s', WorkerOf(s', w)) {
      ExecKeepsWorker(s, stmt, WorkerOf(s, w));
      assert WorkerOf(s', w) == WorkerOf(s, w);
    }
    forall v, w | v != w && WorkerOf(s', v).Holding? && WorkerOf(s', w).Holding?
                  && WorkerOf(s', v).id == WorkerOf(s', w).id
      ensures WorkerOf(s', v).claimed != WorkerOf(s', w).claimed
    {
      assert WorkerOf(s, v) == WorkerOf(s', v) && WorkerOf(s, w) == WorkerOf(s', w);
    }
  }

  lemma PutKeepsCore(s: State, w: WorkerId, worker: Worker)
    requires Core(s) && WorkerOk(s, worker)
    requires worker.Holding? ==>
               forall v :: v != w && WorkerOf(s, v).Holding? && WorkerOf(s, v).id == worker.id ==>
                           WorkerOf(s, v).claimed != worker.claimed
    ensures Core(Put(s, w, worker))
  {
    var s' := Put(s, w, worker);
    assert forall v :: v != w ==> WorkerOf(s', v) == WorkerOf(s, v);
    assert WorkerOf(s', w) == worker;
    forall v ensures WorkerOk(s', WorkerOf(s', v)) {
      var x := WorkerOf(s', v);
      assert WorkerOk(s, x);
      if x.Trying? {
        assert forall i :: 0 <= i < |x.candidates| ==> Snapshot(s, x.candidates[i].id, x.candidates[i].row);
        assert forall i :: 0 <= i < x.next ==> !StillOpen(s, x.candidates[i]);
      }
    }
  }

  // ---------- Single steps ----------

  /**
   * A claim that wins: the row was pending at the attempt the claimant expected,
   * so no earlier claim of the task was on the row it leaves behind.
   */
  lemma ClaimKeepsCore(s: State, w: WorkerId, id: TaskId, lease: int, local: Row)
    requires Core(s) && id in s.table && s.table[id].status == Pending
    requires SameTask(local, s.table[id]) && local.attempts == s.table[id].attempts + 1
    requires local.leaseExpiresAt == Some(lease) && local.status == Running
    requires local.epoch == s.table[id].epoch ==> local == Won(s.table[id], lease)
    ensures var s' := Exec(s, ClaimRow(id, s.table[id].attempts, lease));
            && id in s'.table && s'.table[id] == Won(s.table[id], lease)
            && Core(Put(s', w, Holding(id, s'.table[id], local)))
  {
    var stmt := ClaimRow(id, s.table[id].attempts, lease);
    var s' := Exec(s, stmt);
    RowIsShaped(s, id);
    ExecKeepsCore(s, stmt);
    assert Lookup(s'.table, id) == ApplyRow(stmt, id, Lookup(s.table, id));
    RowIsShaped(s', id);
    forall v | WorkerOf(s', v).Holding? && WorkerOf(s', v).id == id
      ensures WorkerOf(s', v).claimed != s'.table[id]
    {
      assert WorkerOf(s', v) == WorkerOf(s, v) && WorkerOk(s, WorkerOf(s, v));
    }
    PutKeepsCore(s', w, Holding(id, s'.table[id], local));
  }

  /** A candidate that lost its row: the guard failed, and it cannot come back. */
  lemma LostCandidate(s: State, w: WorkerId, worker: Worker, stmt: Statement)
    requires Core(s) && WorkerOf(s, w) == worker && worker.Trying? && worker.next < |worker.candidates|
    requires !StillOpen(s, worker.candidates[worker.next]) && stmt.ClaimRow?
    ensures Core(Put(Exec(s, stmt), w, worker.(next := worker.next + 1)))
  {
    var c := worker.candidates[worker.next];
    assert WorkerOk(s, worker);
    assert Snapshot(s, c.id, c.row) && Due(c.row, worker.queue, worker.at);
    ExecKeepsCore(s, stmt);
    ExecKeepsSnapshot(s, stmt, c.id, c.row);
    assert !StillOpen(Exec(s, stmt), c) by { assert c == Candidate(c.id, c.row); }
    PassedCandidate(Exec(s, stmt), w, worker);
  }

  lemma PassedCandidate(s: State, w: WorkerId, worker: Worker)
    requires Core(s) && WorkerOf(s, w) == worker && worker.Trying? && worker.next < |worker.candidates|
    requires !StillOpen(s, worker.candidates[worker.next])
    ensures Core(Put(s, w, worker.(next := worker.next + 1)))
  {
    var worker' := worker.(next := worker.next + 1);
    assert WorkerOk(s, worker);
    forall i | 0 <= i < worker'.next
      ensures !StillOpen(s, worker'.candidates[i])
    {
      assert i < worker.next ==> !StillOpen(s, worker.candidates[i]);
    }
    assert WorkerOk(s, worker');
    PutKeepsCore(s, w, worker');
  }

  lemma TryKeepsCore(s: State, w: WorkerId, duration: nat)
    requires Core(s) && Enabled(s, TryCandidate(w, duration))
    ensures Core(Next(s, TryCandidate(w, duration)))
  {
    var worker := WorkerOf(s, w);
    var c := worker.candidates[worker.next];
    assert WorkerOk(s, worker);
    assert Snapshot(s, c.id, c.row) && Due(c.row, worker.queue, worker.at);
    if Affects(ClaimRow(c.id, c.row.attempts, worker.at + duration), c.id, Lookup(s.table, c.id)) {
      if c.row.epoch == s.table[c.id].epoch {
        SameStateSameRow(c.row, s.table[c.id]);
      }
      ClaimKeepsCore(s, w, c.id, worker.at + duration, Won(c.row, worker.at + duration));
    } else {
      LostCandidate(s, w, worker, ClaimRow(c.id, c.row.attempts, worker.at + duration));
    }
  }

  lemma FinishKeepsCore(s: State, w: WorkerId, result: Result)
    requires Core(s) && Enabled(s, Finish(w, result))
    ensures Core(Next(s, Finish(w, result)))
  {
    var worker := WorkerOf(s, w);
    var stmt := FinishStatement(worker.id, worker.local, result);
    assert WorkerOk(s, worker);
    RowIsShaped(s, worker.id);
    ExecKeepsCore(s, stmt);
    PutKeepsCore(Exec(s, stmt), w, Idle);
  }

  lemma ReadKeepsCore(s: State, w: WorkerId, queue: string, at: int, candidates: seq<Candidate>)
    requires Core(s) && Enabled(s, ReadCandidates(w, queue, at, candidates))
    ensures Core(Next(s, ReadCandidates(w, queue, at, candidates)))
  {
    forall i | 0 <= i < |candidates|
      ensures Snapshot(s, candidates[i].id, candidates[i].row) && Due(candidates[i].row, queue, at)
    {
      RowIsShaped(s, candidates[i].id);
      assert candidates[i].id in s.table;
    }
    PutKeepsCore(s, w, Trying(queue, at, candidates, 0));
  }

  lemma TickKeepsCore(s: State, to: int)
    requires Core(s) && s.now <= to
    ensures Core(s.(now := to))
  {
    var s' := s.(now := to);
    forall w ensures WorkerOk(s', WorkerOf(s', w)) {
      var x := WorkerOf(s', w);
      assert WorkerOf(s, w) == x && WorkerOk(s, x);
      if x.Trying? {
        assert forall i :: 0 <= i < |x.candidates| ==> Snapshot(s, x.candidates[i].id, x.candidates[i].row);
        assert forall i :: 0 <= i < x.next ==> !StillOpen(s, x.candidates[i]);
      }
    }
    forall v, w | v != w && WorkerOf(s', v).Holding? && WorkerOf(s', w).Holding?
                  && WorkerOf(s', v).id == WorkerOf(s', w).id
      ensures WorkerOf(s', v).claimed != WorkerOf(s', w).claimed
    {
      assert WorkerOf(s, v) == WorkerOf(s', v) && WorkerOf(s, w) == WorkerOf(s', w);
    }
  }

  lemma StepKeepsCore(s: State, step: Step)
    requires Core(s) && Enabled(s, step)
    ensures Core(Next(s, step))
  {
    match step {
      case Tick(to) => TickKeepsCore(s, to);
      case Enqueue(id, queue, runAt, maxRetries, enqueuedAt) =>
        ExecKeepsCore(s, Insert(id, queue, runAt, maxRetries, enqueuedAt));
      case ReadCandidates(w, queue, at, candidates) => ReadKeepsCore(s, w, queue, at, candidates);
      case TryCandidate(w, duration) => TryKeepsCore(s, w, duration);
      case GiveUp(w) => PutKeepsCore(s, w, Idle);
      case ClaimNext(w, _, at, duration, _, id) =>
        ClaimKeepsCore(s, w, id, at + duration, Won(s.table[id], at + duration));
      case Finish(w, result) => FinishKeepsCore(s, w, result);
      case Abandon(w) => PutKeepsCore(s, w, Idle);
      case Reap(queue, at) => ExecKeepsCore(s, ReapExpired(queue, at));
      case Requeue(id, queue, at) => ExecKeepsCore(s, RequeueDead(id, queue, at));
      case Discard(id, queue) => ExecKeepsCore(s, DeleteDead(id, queue));
    }
  }

  /** Every interleaving keeps table, log and every worker's stale copies consistent. */
  lemma {:induction false} CoreAlways(now: int, steps: seq<Step>, careful: bool)
    requires Run(Start(now), steps, careful).Some?
    ensures Core(Run(Start(now), steps, careful).value)
  {
    if steps != [] {
      var init := steps[..|steps| - 1];
      CoreAlways(now, init, careful);
      StepKeepsCore(Run(Start(now), init, careful).value, steps[|steps| - 1]);
    }
  }

  // ---------- Lease exclusivity ----------

  predicate Live(claimed: Row, now: int) {
    claimed.leaseExpiresAt.Some? && now <= claimed.leaseExpiresAt.value
  }

  /** No two workers hold one task with unexpired leases. */
  ghost predicate Exclusive(s: State) {
    forall v, w :: v != w && WorkerOf(s, v).Holding? && WorkerOf(s, w).Holding?
                   && WorkerOf(s, v).id == WorkerOf(s, w).id ==>
                   !(Live(WorkerOf(s, v).claimed, s.now) && Live(WorkerOf(s, w).claimed, s.now))
  }

  /** Under an unexpired lease the row is still exactly as its holder claimed it. */
  ghost predicate LeaseKept(s: State, w: WorkerId) {
    var worker := WorkerOf(s, w);
    worker.Holding? && worker.id in s.table ==>
      && s.table[worker.id].epoch == worker.claimed.epoch
      && (Live(worker.claimed, s.now) ==> s.table[worker.id] == worker.claimed)
  }

  ghost predicate Leases(s: State) {
    Exclusive(s) && forall w :: LeaseKept(s, w)
  }

  /**
   * A statement that neither requeues a held task, nor reaps early, nor reports
   * for a live claim of another worker keeps every holder's lease.
   */
  lemma ExecKeepsLeases(s: State, stmt: Statement, b: WorkerId)
    requires Core(s) && Leases(s)
    requires stmt.RequeueDead? ==> Unheld(s, stmt.id)
    requires stmt.ReapExpired? ==> stmt.at <= s.now
    requires stmt.Reschedule? || stmt.MarkDead? ==>
               && WorkerOf(s, b).Holding? && WorkerOf(s, b).id == stmt.id
               && WorkerOf(s, b).claimed.attempts == stmt.attempts
    requires forall id :: LawfulNext(s.log, stmt, id)
    ensures Exclusive(Exec(s, stmt))
    ensures forall w :: w != b || !(stmt.Reschedule? || stmt.MarkDead?) ==> LeaseKept(Exec(s, stmt), w)
  {
    var s' := Exec(s, stmt);
    assert forall w :: WorkerOf(s', w) == WorkerOf(s, w);
    forall w | w != b || !(stmt.Reschedule? || stmt.MarkDead?)
      ensures LeaseKept(s', w)
    {
      var worker := WorkerOf(s, w);
      if worker.Holding? {
        assert LeaseKept(s, w) && WorkerOk(s, worker) && LawfulNext(s.log, stmt, worker.id);
        assert Lookup(s'.table, worker.id) == ApplyRow(stmt, worker.id, Lookup(s.table, worker.id));
        RowIsShaped(s, worker.id);
        if (stmt.Reschedule? || stmt.MarkDead?) && Affects(stmt, worker.id, Lookup(s.table, worker.id)) {
          assert LeaseKept(s, b) && WorkerOk(s, WorkerOf(s, b));
          SameStateSameRow(WorkerOf(s, b).claimed, s.table[worker.id]);
        }
      }
    }
  }

  lemma PutIdleKeepsLeases(s: State, w: WorkerId, worker: Worker)
    requires !worker.Holding? && Exclusive(s) && forall v :: v != w ==> LeaseKept(s, v)
    ensures Leases(Put(s, w, worker))
  {
    var s' := Put(s, w, worker);
    forall v ensures v != w ==> WorkerOf(s', v) == WorkerOf(s, v)
             ensures LeaseKept(s', v)
    {
      assert v != w ==> LeaseKept(s, v);
    }
  }

  lemma ClaimKeepsLeases(s: State, w: WorkerId, id: TaskId, lease: int, local: Row)
    requires Core(s) && Leases(s) && id in s.table && s.table[id].status == Pending
    requires !WorkerOf(s, w).Holding?
    ensures var s' := Exec(s, ClaimRow(id, s.table[id].attempts, lease));
            id in s'.table && Leases(Put(s', w, Holding(id, s'.table[id], local)))
  {
    var stmt := ClaimRow(id, s.table[id].attempts, lease);
    var s1 := Exec(s, stmt);
    assert Lookup(s1.table, id) == ApplyRow(stmt, id, Lookup(s.table, id));
    ExecKeepsLeases(s, stmt, w);
    var s' := Put(s1, w, Holding(id, s1.table[id], local));
    forall v
      ensures v != w ==> WorkerOf(s', v) == WorkerOf(s, v)
      ensures LeaseKept(s', v)
      ensures v != w && WorkerOf(s, v).Holding? && WorkerOf(s, v).id == id ==> !Live(WorkerOf(s, v).claimed, s.now)
    {
      assert LeaseKept(s, v) && LeaseKept(s1, v) && WorkerOk(s, WorkerOf(s, v));
    }
  }

  lemma TryKeepsLeases(s: State, w: WorkerId, duration: nat)
    requires Core(s) && Leases(s) && Enabled(s, TryCandidate(w, duration))
    ensures Leases(Next(s, TryCandidate(w, duration)))
  {
    var worker := WorkerOf(s, w);
    var c := worker.candidates[worker.next];
    var stmt := ClaimRow(c.id, c.row.attempts, worker.at + duration);
    if Affects(stmt, c.id, Lookup(s.table, c.id)) {
      ClaimKeepsLeases(s, w, c.id, worker.at + duration, Won(c.row, worker.at + duration));
    } else {
      ExecKeepsLeases(s, stmt, w);
      PutIdleKeepsLeases(Exec(s, stmt), w, worker.(next := worker.next + 1));
    }
  }

  lemma FinishKeepsLeases(s: State, w: WorkerId, result: Result)
    requires Core(s) && Leases(s) && Enabled(s, Finish(w, result))
    ensures Leases(Next(s, Finish(w, result)))
  {
    var worker := WorkerOf(s, w);
    var stmt := FinishStatement(worker.id, worker.local, result);
    assert WorkerOk(s, worker);
    RowIsShaped(s, worker.id);
    ExecKeepsLeases(s, stmt, w);
    PutIdleKeepsLeases(Exec(s, stmt), w, Idle);
  }

  lemma TickKeepsLeases(s: State, to: int)
    requires Leases(s) && s.now <= to
    ensures Leases(s.(now := to))
  {
    var s' := s.(now := to);
    forall w
      ensures WorkerOf(s', w) == WorkerOf(s, w)
      ensures LeaseKept(s', w)
    {
      assert LeaseKept(s, w);
    }
  }

  lemma ClaimNextKeepsLeases(s: State, step: Step)
    requires Core(s) && Leases(s) && Enabled(s, step) && step.ClaimNext?
    ensures Leases(Next(s, step))
  {
    var s1 := Exec(s, ClaimRow(step.id, s.table[step.id].attempts, step.at + step.duration));
    assert Lookup(s1.table, step.id).Some?;
    ClaimKeepsLeases(s, step.w, step.id, step.at + step.duration, s1.table[step.id]);
  }

  lemma StepKeepsLeases(s: State, step: Step)
    requires Core(s) && Leases(s) && Enabled(s, step) && CarefulStep(s, step)
    ensures Leases(Next(s, step))
  {
    match step {
      case Tick(to) => TickKeepsLeases(s, to);
      case Enqueue(id, queue, runAt, maxRetries, enqueuedAt) =>
        ExecKeepsLeases(s, Insert(id, queue, runAt, maxRetries, enqueuedAt), 0);
      case ReadCandidates(w, queue, at, candidates) => PutIdleKeepsLeases(s, w, Trying(queue, at, candidates, 0));
      case TryCandidate(w, duration) => TryKeepsLeases(s, w, duration);
      case GiveUp(w) => PutIdleKeepsLeases(s, w, Idle);
      case ClaimNext(_, _, _, _, _, _) => ClaimNextKeepsLeases(s, step);
      case Finish(w, result) => FinishKeepsLeases(s, w, result);
      case Abandon(w) => PutIdleKeepsLeases(s, w, Idle);
      case Reap(queue, at) => ExecKeepsLeases(s, ReapExpired(queue, at), 0);
      case Requeue(id, queue, at) => ExecKeepsLeases(s, RequeueDead(id, queue, at), 0);
      case Discard(id, queue) => ExecKeepsLeases(s, DeleteDead(id, queue), 0);
    }
  }

  /**
   * Lease exclusivity, over every interleaving of claims of both kinds, reports,
   * reaps, crashes and deletes, as long as nobody requeues a task that a worker
   * still holds: no two workers hold one task with unexpired leases.
   */
  lemma {:induction false} ExclusiveAlways(now: int, steps: seq<Step>)
    requires Run(Start(now), steps, true).Some?
    ensures Exclusive(Run(Start(now), steps, true).value)
    ensures forall w :: LeaseKept(Run(Start(now), steps, true).value, w)
  {
    if steps != [] {
      var init := steps[..|steps| - 1];
      ExclusiveAlways(now, init);
      CoreAlways(now, init, true);
      StepKeepsLeases(Run(Start(now), init, true).value, steps[|steps| - 1]);
    }
  }

  // ---------- What a report can do ----------

  /**
   * In every run, a failure report changes the task's row exactly when the row
   * is still the claim being reported, or is running at the same attempt number
   * after a later requeue.
   */
  lemma ReportAffects(s: State, w: WorkerId, result: Result)
    requires Core(s) && Enabled(s, Finish(w, result)) && result.Failure?
    ensures var worker := WorkerOf(s, w);
            Affects(FinishStatement(worker.id, worker.local, result), worker.id, Lookup(s.table, worker.id)) <==>
              && worker.id in s.table
              && (|| s.table[worker.id] == worker.claimed
                  || (&& s.table[worker.id].status == Running
                      && s.table[worker.id].attempts == worker.claimed.attempts
                      && s.table[worker.id].epoch > worker.claimed.epoch))
  {
  }

  /**
   * In a careful run, a holder that was superseded changes nothing: unless the
   * row is still exactly as this worker claimed it, its failure report leaves
   * the whole table as it is.
   */
  lemma SupersededReportIsNoOp(now: int, steps: seq<Step>, w: WorkerId, result: Result)
    requires Run(Start(now), steps, true).Some?
    requires Enabled(Run(Start(now), steps, true).value, Finish(w, result)) && result.Failure?
    ensures var s := Run(Start(now), steps, true).value;
            var worker := WorkerOf(s, w);
            Next(s, Finish(w, result)).table == s.table <==> Lookup(s.table, worker.id) != Some(worker.claimed)
  {
    var s := Run(Start(now), steps, true).value;
    var worker := WorkerOf(s, w);
    CoreAlways(now, steps, true);
    ExclusiveAlways(now, steps);
    ReportAffects(s, w, result);
    assert LeaseKept(s, w);
    var stmt := FinishStatement(worker.id, worker.local, result);
    var table' := Apply(stmt, s.table);
    assert Lookup(table', worker.id) == ApplyRow(stmt, worker.id, Lookup(s.table, worker.id));
    if !Affects(stmt, worker.id, Lookup(s.table, worker.id)) {
      forall id ensures Lookup(table', id) == Lookup(s.table, id) {
        assert Lookup(table', id) == ApplyRow(stmt, id, Lookup(s.table, id));
      }
      SameLookups(table', s.table);
    } else {
      assert WorkerOk(s, worker);
      assert Lookup(table', worker.id) != Lookup(s.table, worker.id);
    }
  }

  /**
   * Without that care a report by another holder of the task spares a claim that
   * stands in the table if and only if it reports a failure, of another attempt
   * number: the guard knows no requeues, and a success has no guard at all.
   */
  lemma ReportSparesIff(s: State, w: WorkerId, v: WorkerId, result: Result)
    requires Core(s) && Enabled(s, Finish(w, result)) && v != w
    requires WorkerOf(s, v).Holding? && WorkerOf(s, v).id == WorkerOf(s, w).id
    requires Lookup(s.table, WorkerOf(s, v).id) == Some(WorkerOf(s, v).claimed)
    ensures var s' := Next(s, Finish(w, result));
            Lookup(s'.table, WorkerOf(s, v).id) == Some(WorkerOf(s, v).claimed) <==>
            result.Failure? && WorkerOf(s, w).local.attempts != WorkerOf(s, v).local.attempts
  {
  }

  // ---------- Optimistic claims refine atomic claims ----------

  /** A row still pending at the snapshot's attempts, in the same life, is the snapshot. */
  lemma OpenRowIsTheSnapshot(s: State, c: Candidate)
    requires Core(s) && Snapshot(s, c.id, c.row) && c.row.status == Pending && c.id in s.table
    requires s.table[c.id].status == Pending && s.table[c.id].attempts == c.row.attempts
    ensures s.table[c.id].epoch == Count(s.log, c.id, Requeued)
    ensures s.table[c.id].epoch == c.row.epoch ==> s.table[c.id] == c.row
  {
    RowIsShaped(s, c.id);
    AtMostOneInsert(s.log, c.id);
    AttemptsAccounted(s.log, c.id);
    if s.table[c.id].epoch == c.row.epoch {
      SameStateSameRow(c.row, s.table[c.id]);
    }
  }

  /**
   * A winning guarded UPDATE takes the very row that was read if and only if the
   * task was not requeued since: then it is still pending, and due at the time the
   * worker took for its query, although the UPDATE does not look at run_at. Every
   * candidate tried before it was not pending at its attempt any more. The record
   * the worker goes on with is the row it left in the table.
   */
  lemma WinnerWasDue(s: State, w: WorkerId, duration: nat)
    requires Core(s) && Enabled(s, TryCandidate(w, duration))
    ensures var worker := WorkerOf(s, w);
            var c := worker.candidates[worker.next];
            var s' := Next(s, TryCandidate(w, duration));
            WorkerOf(s', w).Holding? ==>
              && c.id in s.table && s.table[c.id].status == Pending
              && (s.table[c.id] == c.row <==> Count(s.log, c.id, Requeued) == c.row.epoch)
              && (Count(s.log, c.id, Requeued) == c.row.epoch ==>
                    && Due(s.table[c.id], worker.queue, worker.at)
                    && WorkerOf(s', w).local == s'.table[c.id])
              && WorkerOf(s', w).local.attempts == s'.table[c.id].attempts
    ensures forall i :: 0 <= i < WorkerOf(s, w).next ==> !StillOpen(s, WorkerOf(s, w).candidates[i])
  {
    var worker := WorkerOf(s, w);
    var c := worker.candidates[worker.next];
    var stmt := ClaimRow(c.id, c.row.attempts, worker.at + duration);
    assert WorkerOk(s, worker);
    assert Snapshot(s, c.id, c.row) && Due(c.row, worker.queue, worker.at);
    assert Lookup(Apply(stmt, s.table), c.id) == ApplyRow(stmt, c.id, Lookup(s.table, c.id));
    if Affects(stmt, c.id, Lookup(s.table, c.id)) {
      OpenRowIsTheSnapshot(s, c);
    }
  }

  // ---------- Accounting over every run ----------

  /**
   * Whatever the interleaving, and even if held tasks are requeued: attempts,
   * failures and reaps add up, and the claims of each life are numbered without
   * gap or repetition.
   */
  lemma AccountedAlways(now: int, steps: seq<Step>, id: TaskId)
    requires Run(Start(now), steps, false).Some?
    requires id in Run(Start(now), steps, false).value.table
    ensures var s := Run(Start(now), steps, false).value;
            var row := s.table[id];
            && WellShaped(row)
            && row.attempts == Recent(s.log, id, Kind.Failed) + Recent(s.log, id, Reaped)
                               + (if row.status == Running then 1 else 0)
            && ClaimNumbers(s.log, id) == seq(row.attempts, i => i + 1)
  {
    CoreAlways(now, steps, false);
    var s := Run(Start(now), steps, false).value;
    RowIsShaped(s, id);
    AtMostOneInsert(s.log, id);
    AttemptsAccounted(s.log, id);
  }

  /**
   * In every run a task, present or gone, is claimed no more often than its
   * budget, its requeues and its expired leases allow; and a dead row has used
   * its budget up, exactly if no lease expired.
   */
  lemma BudgetAlways(now: int, steps: seq<Step>, id: TaskId)
    requires Run(Start(now), steps, false).Some?
    ensures var s := Run(Start(now), steps, false).value;
            && Count(s.log, id, Claimed)
               <= (Budget(s.log, id) + 1) * (1 + Count(s.log, id, Requeued)) + Count(s.log, id, Reaped)
            && (id in s.table && s.table[id].status == Dead ==>
                  && s.table[id].maxRetries + 1 <= s.table[id].attempts
                  && (Recent(s.log, id, Reaped) == 0 ==> s.table[id].attempts == s.table[id].maxRetries + 1))
  {
    CoreAlways(now, steps, false);
    var s := Run(Start(now), steps, false).value;
    ClaimsBounded(s.log, id);
    RowIsShaped(s, id);
    if id in s.table {
      DiesOnBudget(s.log, id);
    }
  }
}
