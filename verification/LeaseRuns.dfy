/**
 * How runs of the lease protocol execute statements, how they are put together,
 * and what a worker that nobody hinders can bring about.
 */
module LeaseRuns {
  import opened Wrappers
  import opened WorkQueue
  import opened TaskTable
  import opened Scheduling
  import opened Lease

  // ---------- Runs execute statements ----------

  /** The statement that a step sends to the table, if any. */
  function StatementOf(s: State, step: Step): Option<Statement>
    requires step.TryCandidate? ==>
               WorkerOf(s, step.w).Trying? && WorkerOf(s, step.w).next < |WorkerOf(s, step.w).candidates|
    requires step.ClaimNext? ==> step.id in s.table
    requires step.Finish? ==> WorkerOf(s, step.w).Holding?
  {
    match step
    case Tick(_) => None
    case Enqueue(id, queue, runAt, maxRetries, enqueuedAt) => Some(Insert(id, queue, runAt, maxRetries, enqueuedAt))
    case ReadCandidates(_, _, _, _) => None
    case TryCandidate(w, duration) =>
      var worker := WorkerOf(s, w);
      var c := worker.candidates[worker.next];
      Some(ClaimRow(c.id, c.row.attempts, worker.at + duration))
    case GiveUp(_) => None
    case ClaimNext(_, _, at, duration, _, id) => Some(ClaimRow(id, s.table[id].attempts, at + duration))
    case Finish(w, result) => Some(FinishStatement(WorkerOf(s, w).id, WorkerOf(s, w).local, result))
    case Abandon(_) => None
    case Reap(queue, at) => Some(ReapExpired(queue, at))
    case Requeue(id, queue, at) => Some(RequeueDead(id, queue, at))
    case Discard(id, queue) => Some(DeleteDead(id, queue))
  }

  lemma StepExecutes(s: State, step: Step)
    requires Enabled(s, step)
    ensures var s' := Next(s, step);
            match StatementOf(s, step)
            case None => s'.log == s.log && s'.table == s.table
            case Some(stmt) => s'.log == s.log + [stmt] && s'.table == Apply(stmt, s.table) && s'.now == s.now
  {
  }

  /** The statements that a step or a run from s to s' added to the log account for the table. */
  ghost predicate Executes(s: State, s': State) {
    && |s.log| <= |s'.log| && s'.log[..|s.log|] == s.log
    && s'.table == ApplyAll(s'.log[|s.log|..], s.table)
    && s.now <= s'.now
  }

  lemma ExecutesOneMore(s: State, m: State, step: Step)
    requires Executes(s, m) && Enabled(m, step)
    ensures Executes(s, Next(m, step))
  {
    StepExecutes(m, step);
    var s' := Next(m, step);
    if StatementOf(m, step).Some? {
      var tail := s'.log[|s.log|..];
      assert tail == m.log[|s.log|..] + [StatementOf(m, step).value];
      assert tail[..|tail| - 1] == m.log[|s.log|..];
    }
  }

  /** A run's table is the table it started from with the run's statements applied. */
  lemma {:induction false} RunExecutes(s: State, steps: seq<Step>, careful: bool)
    requires Run(s, steps, careful).Some?
    ensures Executes(s, Run(s, steps, careful).value)
  {
    if steps != [] {
      RunExecutes(s, steps[..|steps| - 1], careful);
      ExecutesOneMore(s, Run(s, steps[..|steps| - 1], careful).value, steps[|steps| - 1]);
    }
  }

  lemma StepIsLawful(s: State, step: Step, id: TaskId)
    requires Core(s) && Enabled(s, step) && StatementOf(s, step).Some?
    ensures LawfulNext(s.log, StatementOf(s, step).value, id)
  {
    StepExecutes(s, step);
    assert Core(Next(s, step)) by { StepKeepsCore(s, step); }
    assert Lawful(Next(s, step).log, id) && Next(s, step).log[..|s.log|] == s.log;
  }

  lemma {:induction false} RunsKeepCore(s: State, steps: seq<Step>, careful: bool)
    requires Core(s) && Run(s, steps, careful).Some?
    ensures Core(Run(s, steps, careful).value)
  {
    if steps != [] {
      RunsKeepCore(s, steps[..|steps| - 1], careful);
      StepKeepsCore(Run(s, steps[..|steps| - 1], careful).value, steps[|steps| - 1]);
    }
  }

  /** A claim of the postgres backend is one step: its worker holds the row as it left it. */
  lemma AtomicClaimIsAStep(s: State, w: WorkerId, queue: string, at: int, duration: nat, locked: set<TaskId>,
                           id: TaskId)
    requires Enabled(s, ClaimNext(w, queue, at, duration, locked, id))
    ensures var s' := Next(s, ClaimNext(w, queue, at, duration, locked, id));
            var row := s.table[id].(status := Running, attempts := s.table[id].attempts + 1,
                                    leaseExpiresAt := Some(at + duration));
            s'.table == s.table[id := row] && WorkerOf(s', w) == Holding(id, row, row)
  {
    ApplyOne(ClaimRow(id, s.table[id].attempts, at + duration), s.table);
  }

  // ---------- Leaving the table ----------

  /** The step by which a task leaves the table: its handler returned nil, or it was dead and deleted. */
  ghost predicate TakesOut(s: State, step: Step, id: TaskId) {
    && id in s.table
    && match step
       case Finish(w, Success) => WorkerOf(s, w).Holding? && WorkerOf(s, w).id == id
       case Discard(k, queue) => k == id && s.table[id].queue == queue && s.table[id].status == Dead
       case _ => false
  }

  lemma LeavesIff(s: State, step: Step, id: TaskId)
    requires Enabled(s, step) && id in s.table
    ensures id !in Next(s, step).table <==> TakesOut(s, step, id)
  {
    StepExecutes(s, step);
    if StatementOf(s, step).Some? {
      var stmt := StatementOf(s, step).value;
      RemovedOnlyBy(stmt, id, s.table[id]);
      assert Lookup(Apply(stmt, s.table), id) == ApplyRow(stmt, id, Some(s.table[id]));
    }
  }

  lemma RowFromLog(s: State, id: TaskId)
    requires Core(s)
    ensures Lawful(s.log, id) && (id in s.table <==> RowAfter(s.log, id).Some?)
  {
    ReplayRow(s.log, id);
  }

  lemma GoneStaysGone(s: State, steps: seq<Step>, careful: bool, id: TaskId)
    requires Core(s) && Run(s, steps, careful).Some? && id !in s.table && Count(s.log, id, Inserted) > 0
    ensures id !in Run(s, steps, careful).value.table
  {
    var s' := Run(s, steps, careful).value;
    assert Core(s') by { RunsKeepCore(s, steps, careful); }
    assert Executes(s, s') by { RunExecutes(s, steps, careful); }
    GoneInLog(s, s', s'.log[|s.log|..], id);
  }

  lemma GoneInLog(s: State, s': State, sent: Log, id: TaskId)
    requires Core(s) && Core(s') && id !in s.table && Count(s.log, id, Inserted) > 0
    requires |s.log| <= |s'.log| && s'.log[..|s.log|] == s.log && sent == s'.log[|s.log|..]
    ensures id !in s'.table
  {
    RowFromLog(s, id);
    RowFromLog(s', id);
    assert s'.log == s.log + sent;
    GoneForGood(s.log, sent, id);
  }

  /**
   * In every run, a task that was enqueued and is not in the table any more left
   * it by one step: a worker's handler had returned nil for it, or it was dead and
   * was deleted on request.
   */
  lemma {:induction false} LeftByHandlerOrDelete(now: int, steps: seq<Step>, careful: bool, id: TaskId)
    requires Run(Start(now), steps, careful).Some?
    requires var s := Run(Start(now), steps, careful).value; Count(s.log, id, Inserted) > 0 && id !in s.table
    ensures exists k :: && 0 <= k < |steps| && Run(Start(now), steps[..k], careful).Some?
                        && TakesOut(Run(Start(now), steps[..k], careful).value, steps[k], id)
  {
    var n := |steps| - 1;
    var s := Run(Start(now), steps[..n], careful).value;
    if id in s.table {
      LeavesIff(s, steps[n], id);
    } else {
      StepExecutes(s, steps[n]);
      var s' := Next(s, steps[n]);
      assert s'.log == s.log || s'.log[..|s'.log| - 1] == s.log;
      if StatementOf(s, steps[n]).Some? {
        var stmt := StatementOf(s, steps[n]).value;
        assert Lookup(Apply(stmt, s.table), id) == ApplyRow(stmt, id, None);
        CoreAlways(now, steps[..n], careful);
        ReplayRow(s.log, id);
        assert !Affects(stmt, id, RowAfter(s.log, id));
      }
      LeftByHandlerOrDelete(now, steps[..n], careful, id);
      var k :| && 0 <= k < n && Run(Start(now), steps[..n][..k], careful).Some?
               && TakesOut(Run(Start(now), steps[..n][..k], careful).value, steps[..n][k], id);
      assert steps[..n][..k] == steps[..k];
    }
  }

  // ---------- Putting runs together ----------

  lemma Extend(s0: State, steps: seq<Step>, careful: bool, s: State, step: Step) returns (steps': seq<Step>, s': State)
    requires Run(s0, steps, careful) == Some(s) && Enabled(s, step) && (careful ==> CarefulStep(s, step))
    ensures s' == Next(s, step) && steps' == steps + [step] && Run(s0, steps', careful) == Some(s')
  {
    s', steps' := Next(s, step), steps + [step];
    assert steps'[..|steps'| - 1] == steps;
  }

  lemma {:induction false} RunAppends(s0: State, a: seq<Step>, b: seq<Step>, careful: bool)
    requires Run(s0, a, careful).Some?
    ensures Run(s0, a + b, careful) == Run(Run(s0, a, careful).value, b, careful)
  {
    if b == [] {
      assert a + b == a;
    } else {
      RunAppends(s0, a, b[..|b| - 1], careful);
      assert (a + b)[..|a + b| - 1] == a + b[..|b| - 1];
    }
  }

  // ---------- What an unhindered worker can do ----------

  /** Every other row is due when it was. */
  ghost predicate OthersKeepTimes(s: State, s': State, id: TaskId) {
    forall k :: k != id && k in s'.table ==> k in s.table && s'.table[k].runAt == s.table[k].runAt
  }

  lemma StepKeepsTimes(s: State, step: Step, id: TaskId)
    requires Enabled(s, step)
    requires StatementOf(s, step).Some? && !StatementOf(s, step).value.ReapExpired? ==>
               StatementOf(s, step).value.id == id
    ensures OthersKeepTimes(s, Next(s, step), id)
  {
    StepExecutes(s, step);
    if StatementOf(s, step).Some? {
      var stmt := StatementOf(s, step).value;
      forall k | k != id && k in Next(s, step).table
        ensures k in s.table && Next(s, step).table[k].runAt == s.table[k].runAt
      {
        assert Lookup(Apply(stmt, s.table), k) == ApplyRow(stmt, k, Lookup(s.table, k));
      }
    }
  }

  /** The task is ready for a claim, and worker v is there to make it. */
  ghost predicate Ready(s: State, id: TaskId, v: WorkerId, row: Row) {
    WorkerOf(s, v).Idle? && Lookup(s.table, id) == Some(row) && Due(row, row.queue, s.now)
  }

  /** Worker v claims this task, whatever else is due. */
  lemma ClaimIt(s0: State, steps: seq<Step>, careful: bool, s: State, id: TaskId, v: WorkerId, row: Row, duration: nat)
    returns (steps': seq<Step>, s': State)
    requires Run(s0, steps, careful) == Some(s) && Ready(s, id, v, row)
    ensures Run(s0, steps', careful) == Some(s') && s'.now == s.now && OthersKeepTimes(s, s', id)
    ensures Lookup(s'.table, id) == Some(Won(row, s.now + duration))
    ensures WorkerOf(s', v) == Holding(id, Won(row, s.now + duration), Won(row, s.now + duration))
    ensures forall u :: u != v ==> WorkerOf(s', u) == WorkerOf(s, u)
  {
    var others := s.table.Keys - {id};
    assert IsNext(s.table, row.queue, s.now, others, id);
    steps', s' := Extend(s0, steps, careful, s, ClaimNext(v, row.queue, s.now, duration, others, id));
    StepKeepsTimes(s, ClaimNext(v, row.queue, s.now, duration, others, id), id);
    var stmt := ClaimRow(id, row.attempts, s.now + duration);
    assert Lookup(Apply(stmt, s.table), id) == ApplyRow(stmt, id, Some(row));
  }

  /** Worker v claims the task and crashes; the lease runs out and is reaped. */
  lemma LoseOneAttempt(s0: State, steps: seq<Step>, careful: bool, s: State, id: TaskId, v: WorkerId, row: Row)
    returns (steps': seq<Step>, s': State)
    requires Run(s0, steps, careful) == Some(s) && Ready(s, id, v, row) && row.leaseExpiresAt == None
    ensures Run(s0, steps', careful) == Some(s') && Ready(s', id, v, row.(attempts := row.attempts + 1))
    ensures OthersKeepTimes(s, s', id) && s.now <= s'.now
    ensures forall u :: u != v ==> WorkerOf(s', u) == WorkerOf(s, u)
  {
    steps', s' := ClaimIt(s0, steps, careful, s, id, v, row, 0);
    steps', s' := Extend(s0, steps', careful, s', Abandon(v));
    steps', s' := Extend(s0, steps', careful, s', Tick(s.now + 1));
    var before := s';
    StepKeepsTimes(before, Reap(row.queue, s.now + 1), id);
    steps', s' := Extend(s0, steps', careful, s', Reap(row.queue, s.now + 1));
    var stmt := ReapExpired(row.queue, s.now + 1);
    assert Lookup(Apply(stmt, before.table), id) == ApplyRow(stmt, id, Lookup(before.table, id));
  }

  lemma {:induction false} LoseAttempts(s0: State, steps: seq<Step>, careful: bool, s: State, id: TaskId,
                                        v: WorkerId, row: Row, n: nat)
    returns (steps': seq<Step>, s': State)
    requires Run(s0, steps, careful) == Some(s) && Ready(s, id, v, row) && row.leaseExpiresAt == None
    ensures Run(s0, steps', careful) == Some(s') && Ready(s', id, v, row.(attempts := row.attempts + n))
    ensures OthersKeepTimes(s, s', id) && s.now <= s'.now
    ensures forall u :: u != v ==> WorkerOf(s', u) == WorkerOf(s, u)
    decreases n
  {
    if n == 0 {
      steps', s' := steps, s;
    } else {
      steps', s' := LoseOneAttempt(s0, steps, careful, s, id, v, row);
      var middle := s';
      steps', s' := LoseAttempts(s0, steps', careful, s', id, v, row.(attempts := row.attempts + 1), n - 1);
    }
  }
}
