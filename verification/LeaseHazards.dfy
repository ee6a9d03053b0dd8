/**
 * Two runs of the lease protocol that show what the attempts guard cannot see:
 * requeueing resets the attempt number, so a number from before a requeue can
 * match again after it.
 */
module LeaseHazards {
  import opened Wrappers
  import opened WorkQueue
  import opened TaskTable
  import opened Scheduling
  import opened Lease
  import opened LeaseRuns
  import RetryBackoff

  /** A state whose table holds task 0 and nothing else. */
  ghost predicate OneTask(s: State, row: Row) {
    s.table == map[0 := row]
  }

  lemma OneTaskExec(s: State, row: Row, stmt: Statement)
    requires OneTask(s, row) && !stmt.Insert? && ApplyRow(stmt, 0, Some(row)).Some?
    ensures OneTask(Exec(s, stmt), ApplyRow(stmt, 0, Some(row)).value)
  {
  }

  lemma Started(maxRetries: nat) returns (steps: seq<Step>, s: State)
    ensures Run(Start(0), steps, false) == Some(s)
    ensures OneTask(s, Row("q", Pending, 0, 0, maxRetries, 0, "", None, None, 0))
    ensures s.now == 0 && s.workers == map[]
  {
    steps, s := Extend(Start(0), [], false, Start(0), Enqueue(0, "q", 0, maxRetries, 0));
    assert Lookup(s.table, 0).Some?;
    forall id ensures id in s.table <==> id == 0 {
      assert Lookup(s.table, id) == ApplyRow(Insert(0, "q", 0, maxRetries, 0), id, Lookup(map[], id));
    }
    assert s.table.Keys == {0};
  }

  lemma ClaimOnly(s0: State, steps: seq<Step>, s: State, row: Row, w: WorkerId)
    returns (steps': seq<Step>, s': State)
    requires Run(s0, steps, false) == Some(s) && OneTask(s, row)
    requires WorkerOf(s, w).Idle? && Due(row, "q", s.now)
    ensures Run(s0, steps', false) == Some(s')
    ensures OneTask(s', Won(row, s.now + 5)) && s'.now == s.now
    ensures s'.workers == s.workers[w := Holding(0, Won(row, s.now + 5), Won(row, s.now + 5))]
  {
    steps', s' := Extend(s0, steps, false, s, ClaimNext(w, "q", s.now, 5, {}, 0));
    OneTaskExec(s, row, ClaimRow(0, row.attempts, s.now + 5));
  }

  lemma ReportFailure(s0: State, steps: seq<Step>, s: State, row: Row, w: WorkerId, delay: RetryBackoff.int64)
    returns (steps': seq<Step>, s': State)
    requires Run(s0, steps, false) == Some(s) && OneTask(s, row) && row.status == Running && delay > 0
    requires WorkerOf(s, w).Holding? && WorkerOf(s, w).id == 0
    requires WorkerOf(s, w).local.attempts == row.attempts && WorkerOf(s, w).local.maxRetries == row.maxRetries
    ensures Run(s0, steps', false) == Some(s') && s'.now == s.now
    ensures OneTask(s', if row.attempts > row.maxRetries
                        then row.(status := Dead, lastError := "e", diedAt := Some(s.now), leaseExpiresAt := None)
                        else row.(status := Pending, lastError := "e",
                                  runAt := s.now + RetryBackoff.Delay(delay, delay, row.attempts),
                                  leaseExpiresAt := None))
    ensures s'.workers == s.workers[w := Idle]
  {
    var result := Failure("e", s.now, delay, delay);
    steps', s' := Extend(s0, steps, false, s, Finish(w, result));
    OneTaskExec(s, row, FinishStatement(0, WorkerOf(s, w).local, result));
  }

  /** With equal base and cap every delay is that constant. */
  lemma ConstantDelay(d: RetryBackoff.int64, attempt: nat)
    requires d > 0
    ensures RetryBackoff.Delay(d, d, attempt) == d as int
  {
    RetryBackoff.DelayMonotone(d, d, 0, attempt);
  }

  lemma RequeueOnly(s0: State, steps: seq<Step>, s: State, row: Row) returns (steps': seq<Step>, s': State)
    requires Run(s0, steps, false) == Some(s) && OneTask(s, row) && row.status == Dead && row.queue == "q"
    ensures Run(s0, steps', false) == Some(s') && s'.now == s.now && s'.workers == s.workers
    ensures OneTask(s', row.(status := Pending, attempts := 0, lastError := "", diedAt := None, runAt := s.now,
                             epoch := row.epoch + 1))
  {
    steps', s' := Extend(s0, steps, false, s, Requeue(0, "q", s.now));
    OneTaskExec(s, row, RequeueDead(0, "q", s.now));
  }

  /** Worker v holds the task under a live lease, while w holds it from before, at the same attempt. */
  ghost predicate Confused(s: State, v: WorkerId, w: WorkerId) {
    && v != w && WorkerOf(s, v).Holding? && WorkerOf(s, w).Holding?
    && WorkerOf(s, v).id == WorkerOf(s, w).id
    && Lookup(s.table, WorkerOf(s, v).id) == Some(WorkerOf(s, v).claimed)
    && WorkerOf(s, v).claimed.leaseExpiresAt.Some? && s.now + 1 <= WorkerOf(s, v).claimed.leaseExpiresAt.value
    && WorkerOf(s, v).local.attempts == WorkerOf(s, w).local.attempts
    && WorkerOf(s, w).local.attempts <= WorkerOf(s, w).local.maxRetries
  }

  /**
   * From every such state exclusivity can end: w reports its failure,
   * the clock ticks, and an idle worker claims the task v is still working on.
   */
  lemma ConfusionEndsExclusivity(s: State, v: WorkerId, w: WorkerId, x: WorkerId)
    requires Core(s) && Confused(s, v, w) && WorkerOf(s, x).Idle?
    ensures exists more :: Run(s, more, true).Some? && !Exclusive(Run(s, more, true).value)
  {
    var id, claimed := WorkerOf(s, v).id, WorkerOf(s, v).claimed;
    assert WorkerOk(s, WorkerOf(s, v)) && WorkerOk(s, WorkerOf(s, w));
    var stmt := FinishStatement(id, WorkerOf(s, w).local, Failure("e", s.now, 1, 1));
    ConstantDelay(1, WorkerOf(s, w).local.attempts);
    var more, s' := Extend(s, [], true, s, Finish(w, Failure("e", s.now, 1, 1)));
    assert Lookup(Apply(stmt, s.table), id) == ApplyRow(stmt, id, Some(claimed));
    more, s' := Extend(s, more, true, s', Tick(s.now + 1));
    var row := s'.table[id];
    assert WorkerOf(s', v) == WorkerOf(s, v) && WorkerOf(s', x) == WorkerOf(s, x);
    var before := s';
    more, s' := ClaimIt(s, more, true, s', id, x, row, 1);
    assert WorkerOf(s', v) == WorkerOf(before, v);
    assert Live(WorkerOf(s', v).claimed, s'.now) && Live(WorkerOf(s', x).claimed, s'.now);
  }

  /** Worker 0 holds attempt 1 under an expired lease, and the task is dead. */
  lemma ReachDeadButHeld() returns (steps: seq<Step>, s: State, row: Row)
    ensures Run(Start(0), steps, false) == Some(s) && OneTask(s, row)
    ensures row.status == Dead && row.queue == "q" && row.maxRetries == 1 && s.now == 6
    ensures WorkerOf(s, 0).Holding? && WorkerOf(s, 0).id == 0 && WorkerOf(s, 0).local.attempts == 1
    ensures WorkerOf(s, 0).local.maxRetries == 1 && WorkerOf(s, 1).Idle? && WorkerOf(s, 2).Idle?
  {
    var s0 := Start(0);
    steps, s := Started(1);
    row := s.table[0];
    steps, s := ClaimOnly(s0, steps, s, row, 0);
    row := s.table[0];
    steps, s := Extend(s0, steps, false, s, Tick(6));
    OneTaskExec(s, row, ReapExpired("q", 6));
    steps, s := Extend(s0, steps, false, s, Reap("q", 6));
    row := s.table[0];
    steps, s := ClaimOnly(s0, steps, s, row, 1);
    row := s.table[0];
    steps, s := ReportFailure(s0, steps, s, row, 1, 1);
    row := s.table[0];
  }

  /**
   * Such a state is one requeue away from a run that nobody meant to be unusual:
   * worker 0 lost its lease on attempt 1, worker 1 failed attempt 2, the task died
   * and is requeued while worker 0 is still busy, and worker 1 claims attempt 1 of
   * the new life.
   */
  lemma RequeueOfHeldTaskBreaksExclusivity()
    ensures exists steps, more :: && Run(Start(0), steps, false).Some?
              && Run(Run(Start(0), steps, false).value, more, true).Some?
              && !Exclusive(Run(Run(Start(0), steps, false).value, more, true).value)
  {
    var steps, s, row := ReachDeadButHeld();
    steps, s := RequeueOnly(Start(0), steps, s, row);
    row := s.table[0];
    var steps', s' := ClaimOnly(Start(0), steps, s, row, 1);
    assert WorkerOf(s', 0) == WorkerOf(s, 0) && WorkerOf(s', 2) == WorkerOf(s, 2);
    assert Lookup(s'.table, 0) == Some(WorkerOf(s', 1).claimed);
    assert Confused(s', 1, 0);
    CoreAlways(0, steps', false);
    ConfusionEndsExclusivity(s', 1, 0, 2);
  }

  lemma OneCandidate(s: State, row: Row, at: int)
    requires OneTask(s, row) && Due(row, "q", at)
    ensures IsWindow(s.table, "q", at, [Candidate(0, row)])
  {
    var cands := [Candidate(0, row)];
    assert cands[0].id == 0;
  }

  /** One worker fails the last attempt of a life and the first of the next. */
  lemma NextLife(s0: State, steps: seq<Step>, s: State, row: Row, w: WorkerId, delay: RetryBackoff.int64)
    returns (steps': seq<Step>, s': State)
    requires Run(s0, steps, false) == Some(s) && OneTask(s, row) && WorkerOf(s, w).Idle? && delay > 0
    requires Due(row, "q", s.now) && row.attempts == row.maxRetries == 1
    ensures Run(s0, steps', false) == Some(s') && s'.now == s.now
    ensures forall v :: WorkerOf(s', v) == WorkerOf(s, v)
    ensures exists row' :: OneTask(s', row') && row'.status == Pending && row'.attempts == 1
                           && row'.runAt == s.now + delay as int
  {
    steps', s' := ClaimOnly(s0, steps, s, row, w);
    var r := s'.table[0];
    steps', s' := ReportFailure(s0, steps', s', r, w, delay);
    r := s'.table[0];
    steps', s' := RequeueOnly(s0, steps', s', r);
    r := s'.table[0];
    steps', s' := ClaimOnly(s0, steps', s', r, w);
    r := s'.table[0];
    ConstantDelay(delay, 1);
    steps', s' := ReportFailure(s0, steps', s', r, w, delay);
    assert OneTask(s', s'.table[0]);
  }

  /**
   * A candidate read before a requeue can win a task long before it is due: it
   * was read at attempt 1, and wins at attempt 1 of the next life, whose retry is
   * scheduled 1000 ticks later.
   */
  lemma StaleCandidateClaimsEarly()
    ensures exists steps, w ::
              && Run(Start(0), steps, false).Some?
              && (var s := Run(Start(0), steps, false).value;
                  WorkerOf(s, w).Holding? && 0 in s.table && s.table[0].status == Running
                  && s.now + 1000 <= s.table[0].runAt)
  {
    var s0 := Start(0);
    var steps, s := Started(1);
    var r := s.table[0];
    steps, s := ClaimOnly(s0, steps, s, r, 1);
    r := s.table[0];
    ConstantDelay(1, 1);
    steps, s := ReportFailure(s0, steps, s, r, 1, 1);
    steps, s := Extend(s0, steps, false, s, Tick(1));
    r := s.table[0];
    OneCandidate(s, r, 1);
    steps, s := Extend(s0, steps, false, s, ReadCandidates(0, "q", 1, [Candidate(0, r)]));
    var read := WorkerOf(s, 0);
    steps, s := NextLife(s0, steps, s, r, 1, 1000);
    assert WorkerOf(s, 0) == read;
    r := s.table[0];
    OneTaskExec(s, r, ClaimRow(0, 1, 6));
    steps, s := Extend(s0, steps, false, s, TryCandidate(0, 5));
    assert WorkerOf(s, 0).Holding? && s.table[0].runAt == 1001;
  }
}
