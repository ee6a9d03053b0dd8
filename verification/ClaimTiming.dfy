/**
 * When exactly a guarded claim can win a task ahead of its run_at. The claim
 * looks at status and attempts only, so a candidate read before a requeue can
 * match a retry that is scheduled for later.
 */
module ClaimTiming {
  import opened Wrappers
  import opened WorkQueue
  import opened TaskTable
  import opened Scheduling
  import opened Lease
  import opened LeaseRuns
  import RetryBackoff

  /** Worker w is about to try a candidate. */
  predicate IsTrying(s: State, w: WorkerId) {
    WorkerOf(s, w).Trying? && WorkerOf(s, w).next < |WorkerOf(s, w).candidates|
  }

  function CandidateOf(s: State, w: WorkerId): Candidate
    requires IsTrying(s, w)
  {
    WorkerOf(s, w).candidates[WorkerOf(s, w).next]
  }

  /** If w tries its candidate now, it wins a task that is not due yet. */
  predicate WinsEarly(s: State, w: WorkerId) {
    && IsTrying(s, w)
    && var c := CandidateOf(s, w);
    && c.id in s.table && s.table[c.id].status == Pending && s.table[c.id].attempts == c.row.attempts
    && s.now < s.table[c.id].runAt
  }

  /** What a worker can read off its candidate: nothing of this task is ever scheduled for later at this attempt. */
  predicate NeverPostponed(c: Candidate) {
    c.row.attempts == 0 || c.row.maxRetries == 0
  }

  // ---------- Candidates that cannot win early ----------

  /** A requeued task is due, until a retry postpones it. */
  predicate Punctual(row: Row, now: int) {
    row.epoch > 0 && (row.attempts == 0 || row.maxRetries == 0) ==> row.runAt <= now
  }

  ghost predicate RequeuedAreDue(s: State) {
    forall id :: id in s.table ==> Punctual(s.table[id], s.now)
  }

  lemma StatementKeepsPunctual(s: State, stmt: Statement, id: TaskId)
    requires Core(s) && RequeuedAreDue(s) && LawfulNext(s.log, stmt, id) && (stmt.RequeueDead? ==> stmt.at <= s.now)
    ensures var row := ApplyRow(stmt, id, Lookup(s.table, id)); row.Some? ==> Punctual(row.value, s.now)
  {
    RowIsShaped(s, id);
  }

  lemma StepKeepsDue(s: State, step: Step)
    requires Core(s) && RequeuedAreDue(s) && Enabled(s, step)
    ensures RequeuedAreDue(Next(s, step))
  {
    var s' := Next(s, step);
    StepExecutes(s, step);
    if StatementOf(s, step).Some? {
      var stmt := StatementOf(s, step).value;
      forall id | id in s'.table
        ensures Punctual(s'.table[id], s'.now)
      {
        assert LawfulNext(s.log, stmt, id) by { StepIsLawful(s, step, id); }
        StatementKeepsPunctual(s, stmt, id);
        assert Lookup(s'.table, id) == ApplyRow(stmt, id, Lookup(s.table, id));
      }
    }
  }

  lemma {:induction false} RunsKeepDue(s: State, steps: seq<Step>, careful: bool)
    requires Core(s) && RequeuedAreDue(s) && Run(s, steps, careful).Some?
    ensures RequeuedAreDue(Run(s, steps, careful).value)
  {
    if steps != [] {
      RunsKeepDue(s, steps[..|steps| - 1], careful);
      RunsKeepCore(s, steps[..|steps| - 1], careful);
      StepKeepsDue(Run(s, steps[..|steps| - 1], careful).value, steps[|steps| - 1]);
    }
  }

  /** Such a candidate is due when it wins, requeued or not. */
  lemma NeverPostponedIsDue(s: State, w: WorkerId)
    requires Core(s) && RequeuedAreDue(s) && IsTrying(s, w) && NeverPostponed(CandidateOf(s, w))
    ensures !WinsEarly(s, w)
  {
    var worker, c := WorkerOf(s, w), CandidateOf(s, w);
    assert WorkerOk(s, worker);
    assert Snapshot(s, c.id, c.row) && Due(c.row, worker.queue, worker.at);
    if c.id in s.table && s.table[c.id].status == Pending && s.table[c.id].attempts == c.row.attempts {
      OpenRowIsTheSnapshot(s, c);
    }
  }

  // ---------- Reaching a postponed retry at any attempt ----------

  function Later(a: int, b: int): int { if a < b then b else a }

  /** What happens to task id leaves alone whoever is in a candidate loop, and when other rows are due. */
  ghost predicate Aside(s: State, s': State, id: TaskId) {
    && s.now <= s'.now && OthersKeepTimes(s, s', id)
    && forall u :: WorkerOf(s, u).Trying? ==> WorkerOf(s', u) == WorkerOf(s, u)
  }

  /** The row is pending at this attempt, in the queue and with the budget of an earlier state. */
  ghost predicate PendingAt(s: State, id: TaskId, row: Row, attempts: nat) {
    && id in s.table && s.table[id].status == Pending && s.table[id].attempts == attempts
    && s.table[id].leaseExpiresAt == None && SameTask(s.table[id], row)
  }

  /** Every worker that holds the task crashes. */
  lemma {:induction false} Release(s0: State, steps: seq<Step>, careful: bool, s: State, id: TaskId,
                                   todo: set<WorkerId>)
    returns (steps': seq<Step>, s': State)
    requires Run(s0, steps, careful) == Some(s)
    requires forall u :: WorkerOf(s, u).Holding? && WorkerOf(s, u).id == id ==> u in todo
    ensures Run(s0, steps', careful) == Some(s') && s'.table == s.table && Aside(s, s', id) && Unheld(s', id)
    decreases todo
  {
    if todo == {} {
      steps', s' := steps, s;
    } else {
      var u :| u in todo;
      steps', s' := steps, s;
      if WorkerOf(s, u).Holding? {
        steps', s' := Extend(s0, steps, careful, s, Abandon(u));
      }
      steps', s' := Release(s0, steps', careful, s', id, todo - {u});
    }
  }

  /** A running row whose worker crashed is pending again once its lease ran out. */
  lemma Recover(s0: State, steps: seq<Step>, careful: bool, s: State, id: TaskId) returns (steps': seq<Step>, s': State)
    requires Run(s0, steps, careful) == Some(s) && Core(s) && Unheld(s, id)
    requires id in s.table && s.table[id].status == Running
    ensures Run(s0, steps', careful) == Some(s') && Aside(s, s', id) && Unheld(s', id)
    ensures PendingAt(s', id, s.table[id], s.table[id].attempts) && s'.table[id].runAt == s.table[id].runAt
    ensures s.table[id].leaseExpiresAt.Some? && (s.table[id].leaseExpiresAt.value < s.now ==> s'.now == s.now)
  {
    RowIsShaped(s, id);
    var row := s.table[id];
    var at := Later(s.now, row.leaseExpiresAt.value + 1);
    steps', s' := Extend(s0, steps, careful, s, Tick(at));
    var ticked := s';
    StepKeepsTimes(ticked, Reap(row.queue, at), id);
    steps', s' := Extend(s0, steps', careful, ticked, Reap(row.queue, at));
    assert Lookup(s'.table, id) == ApplyRow(ReapExpired(row.queue, at), id, Some(row));
    assert forall u :: WorkerOf(s', u) == WorkerOf(s, u);
  }

  /** A worker reports a failure of the task it holds. */
  lemma Fail(s0: State, steps: seq<Step>, careful: bool, s: State, id: TaskId, v: WorkerId, row: Row)
    returns (steps': seq<Step>, s': State)
    requires Run(s0, steps, careful) == Some(s) && WorkerOf(s, v) == Holding(id, row, row)
    requires Lookup(s.table, id) == Some(row) && row.status == Running
    requires forall u :: u != v && WorkerOf(s, u).Holding? ==> WorkerOf(s, u).id != id
    ensures Run(s0, steps', careful) == Some(s') && s'.now == s.now && Aside(s, s', id) && Unheld(s', id)
    ensures if row.attempts > row.maxRetries
            then id in s'.table && s'.table[id].status == Dead && SameTask(s'.table[id], row)
            else PendingAt(s', id, row, row.attempts) && s.now < s'.table[id].runAt
  {
    var result := Failure("e", s.now, 1, 1);
    RetryBackoff.DelayMonotone(1, 1, 0, row.attempts);
    StepKeepsTimes(s, Finish(v, result), id);
    steps', s' := Extend(s0, steps, careful, s, Finish(v, result));
    var stmt := FinishStatement(id, row, result);
    assert Lookup(s'.table, id) == ApplyRow(stmt, id, Some(row));
    assert forall u :: WorkerOf(s', u) == if u == v then Idle else WorkerOf(s, u);
  }

  /**
   * From a pending row that is due, a fresh worker loses n attempts, claims the
   * next one and fails it.
   */
  lemma FailAfter(s0: State, steps: seq<Step>, careful: bool, s: State, id: TaskId, n: nat)
    returns (steps': seq<Step>, s': State)
    requires Run(s0, steps, careful) == Some(s) && Unheld(s, id) && id in s.table
    requires PendingAt(s, id, s.table[id], s.table[id].attempts) && s.table[id].runAt <= s.now
    ensures Run(s0, steps', careful) == Some(s') && Aside(s, s', id) && Unheld(s', id)
    ensures var row := s.table[id];
            if row.attempts + n >= row.maxRetries
            then id in s'.table && s'.table[id].status == Dead && SameTask(s'.table[id], row)
            else PendingAt(s', id, row, row.attempts + n + 1) && s'.now < s'.table[id].runAt
  {
    var row := s.table[id];
    var v := SomeUnused(s.workers.Keys);
    assert Ready(s, id, v, row);
    steps', s' := LoseAttempts(s0, steps, careful, s, id, v, row, n);
    var lost := s';
    steps', s' := ClaimIt(s0, steps', careful, lost, id, v, row.(attempts := row.attempts + n), 0);
    var claimed := s';
    steps', s' := Fail(s0, steps', careful, claimed, id, v, claimed.table[id]);
  }

  lemma WaitUntil(s0: State, steps: seq<Step>, careful: bool, s: State, id: TaskId, at: int)
    returns (steps': seq<Step>, s': State)
    requires Run(s0, steps, careful) == Some(s) && Unheld(s, id)
    ensures Run(s0, steps', careful) == Some(s') && Aside(s, s', id) && Unheld(s', id)
    ensures s'.table == s.table && at <= s'.now
  {
    steps', s' := Extend(s0, steps, careful, s, Tick(Later(s.now, at)));
    assert forall u :: WorkerOf(s', u) == WorkerOf(s, u);
  }

  /** A pending task can be made to die. */
  lemma Exhaust(s0: State, steps: seq<Step>, careful: bool, s: State, id: TaskId) returns (steps': seq<Step>, s': State)
    requires Run(s0, steps, careful) == Some(s) && id in s.table && Unheld(s, id)
    requires PendingAt(s, id, s.table[id], s.table[id].attempts)
    ensures Run(s0, steps', careful) == Some(s') && Aside(s, s', id) && Unheld(s', id)
    ensures id in s'.table && s'.table[id].status == Dead && SameTask(s'.table[id], s.table[id])
  {
    steps', s' := WaitUntil(s0, steps, careful, s, id, s.table[id].runAt);
    var due := s';
    steps', s' := FailAfter(s0, steps', careful, due, id, s.table[id].maxRetries);
  }

  /** Whatever its row is like, a task can be made to die with nobody holding it. */
  lemma Bury(s0: State, steps: seq<Step>, careful: bool, s: State, id: TaskId) returns (steps': seq<Step>, s': State)
    requires Core(s0) && Run(s0, steps, careful) == Some(s) && id in s.table && Unheld(s, id)
    ensures Run(s0, steps', careful) == Some(s') && Aside(s, s', id) && Unheld(s', id)
    ensures id in s'.table && s'.table[id].status == Dead && SameTask(s'.table[id], s.table[id])
  {
    assert Core(s) && WellShaped(s.table[id]) by {
      RunsKeepCore(s0, steps, careful);
      RowIsShaped(s, id);
    }
    steps', s' := steps, s;
    if s.table[id].status == Running {
      steps', s' := Recover(s0, steps, careful, s, id);
    }
    if s'.table[id].status == Pending {
      var pending := s';
      steps', s' := Exhaust(s0, steps', careful, pending, id);
    }
  }

  /** It can be made to start a new life, due since any instant up to now. */
  lemma NewLife(s0: State, steps: seq<Step>, careful: bool, s: State, id: TaskId, at: int)
    returns (steps': seq<Step>, s': State)
    requires Core(s0) && Run(s0, steps, careful) == Some(s) && id in s.table && at <= s.now
    ensures Run(s0, steps', careful) == Some(s') && Aside(s, s', id) && Unheld(s', id)
    ensures PendingAt(s', id, s.table[id], 0) && s'.table[id].runAt == at
  {
    steps', s' := Release(s0, steps, careful, s, id, s.workers.Keys);
    steps', s' := Bury(s0, steps', careful, s', id);
    var dead := s';
    var row := dead.table[id];
    RunsKeepCore(s0, steps', careful);
    RowIsShaped(dead, id);
    StepKeepsTimes(dead, Requeue(id, row.queue, at), id);
    steps', s' := Extend(s0, steps', careful, dead, Requeue(id, row.queue, at));
    assert Lookup(s'.table, id) == ApplyRow(RequeueDead(id, row.queue, at), id, Some(row));
    assert forall u :: WorkerOf(s', u) == WorkerOf(dead, u);
  }

  lemma {:induction false} EarlierThanAll(table: Table, ids: set<TaskId>, now: int) returns (at: int)
    requires ids <= table.Keys
    ensures at < now && forall k :: k in ids ==> at < table[k].runAt
    decreases ids
  {
    if ids == {} {
      at := now - 1;
    } else {
      var k :| k in ids;
      at := EarlierThanAll(table, ids - {k}, now);
      at := if at < table[k].runAt then at else table[k].runAt - 1;
      assert forall j :: j in ids ==> j == k || j in ids - {k};
    }
  }

  /** A fresh worker x reads the task as its only candidate, pending at this attempt. */
  lemma ReadAt(s0: State, steps: seq<Step>, careful: bool, s: State, id: TaskId, attempts: nat)
    returns (steps': seq<Step>, s': State, x: WorkerId)
    requires Core(s0) && Run(s0, steps, careful) == Some(s) && id in s.table
    ensures Run(s0, steps', careful) == Some(s') && Aside(s, s', id)
    ensures id in s'.table && SameTask(s'.table[id], s.table[id])
    ensures IsTrying(s', x) && CandidateOf(s', x) == Candidate(id, s'.table[id])
    ensures s'.table[id].attempts == attempts && WorkerOf(s', x).at < s'.now && !WorkerOf(s, x).Trying?
  {
    var at := EarlierThanAll(s.table, s.table.Keys, s.now);
    steps', s' := NewLife(s0, steps, careful, s, id, at);
    var young := s';
    x := SomeUnused(s.workers.Keys + young.workers.Keys);
    assert Ready(young, id, x, young.table[id]);
    steps', s' := LoseAttempts(s0, steps', careful, young, id, x, young.table[id], attempts);
    var lost := s';
    var cands := [Candidate(id, lost.table[id])];
    assert IsWindow(lost.table, lost.table[id].queue, at, cands) by {
      assert cands[0].id == id;
    }
    steps', s' := Extend(s0, steps', careful, lost, ReadCandidates(x, lost.table[id].queue, at, cands));
    assert forall u :: u != x ==> WorkerOf(s', u) == WorkerOf(young, u);
  }

  /** x wins its candidate, crashes, and its lease is reaped: one attempt more, and run_at as it was. */
  lemma WinAndCrash(s0: State, steps: seq<Step>, careful: bool, s: State, id: TaskId, x: WorkerId)
    returns (steps': seq<Step>, s': State)
    requires Core(s0) && Run(s0, steps, careful) == Some(s) && IsTrying(s, x) && CandidateOf(s, x).id == id
    requires PendingAt(s, id, CandidateOf(s, x).row, CandidateOf(s, x).row.attempts)
    requires WorkerOf(s, x).at < s.now && Unheld(s, id)
    ensures Run(s0, steps', careful) == Some(s') && s'.now == s.now && Unheld(s', id)
    ensures forall u :: u != x && WorkerOf(s, u).Trying? ==> WorkerOf(s', u) == WorkerOf(s, u)
    ensures PendingAt(s', id, s.table[id], s.table[id].attempts + 1) && s'.table[id].runAt == s.table[id].runAt
    ensures OthersKeepTimes(s, s', id)
  {
    StepKeepsTimes(s, TryCandidate(x, 0), id);
    steps', s' := Extend(s0, steps, careful, s, TryCandidate(x, 0));
    assert Lookup(s'.table, id)
        == ApplyRow(ClaimRow(id, CandidateOf(s, x).row.attempts, WorkerOf(s, x).at), id, Some(s.table[id]));
    steps', s' := Extend(s0, steps', careful, s', Abandon(x));
    var crashed := s';
    assert forall u :: u != x ==> WorkerOf(crashed, u) == WorkerOf(s, u);
    assert Core(crashed) by { RunsKeepCore(s0, steps', careful); }
    steps', s' := Recover(s0, steps', careful, crashed, id);
  }

  /** The task waits for a retry at this attempt that is due later. */
  ghost predicate Postponed(s: State, id: TaskId, attempts: nat) {
    && id in s.table && PendingAt(s, id, s.table[id], attempts) && s.now < s.table[id].runAt
  }

  /**
   * A task with retries can be made to wait at any attempt above 0 while it is
   * not due: within its budget by failing there; beyond it, through workers that
   * win a life too late, one for each attempt.
   */
  lemma {:induction false} Postpone(s0: State, steps: seq<Step>, careful: bool, s: State, id: TaskId, attempts: nat)
    returns (steps': seq<Step>, s': State)
    requires Core(s0) && Run(s0, steps, careful) == Some(s) && id in s.table
    requires 1 <= attempts && 1 <= s.table[id].maxRetries
    ensures Run(s0, steps', careful) == Some(s') && Aside(s, s', id) && Unheld(s', id)
    ensures Postponed(s', id, attempts) && SameTask(s'.table[id], s.table[id])
    decreases attempts
  {
    if attempts <= s.table[id].maxRetries {
      steps', s' := NewLife(s0, steps, careful, s, id, s.now);
      var young := s';
      steps', s' := FailAfter(s0, steps', careful, young, id, attempts - 1);
    } else {
      var read, failed, x;
      steps', read, x := ReadAt(s0, steps, careful, s, id, attempts - 1);
      steps', failed := Postpone(s0, steps', careful, read, id, attempts - 1);
      steps', s' := WinAndCrash(s0, steps', careful, failed, id, x);
    }
  }

  /**
   * The exact condition, in careful runs and in all others. In a state that a run
   * can reach, a worker is about to try a candidate. Whatever happens in between,
   * that try wins no task ahead of its run_at, if and only if the candidate was
   * read before any attempt, or its task has no retries, or the task is gone.
   */
  lemma TryIsNeverEarlyIff(now: int, steps: seq<Step>, careful: bool, w: WorkerId)
    requires Run(Start(now), steps, careful).Some? && IsTrying(Run(Start(now), steps, careful).value, w)
    ensures var s := Run(Start(now), steps, careful).value;
            var c := CandidateOf(s, w);
            NeverPostponed(c) || c.id !in s.table <==>
            forall more {:trigger Run(s, more, careful)} ::
              Run(s, more, careful).Some? && WorkerOf(Run(s, more, careful).value, w) == WorkerOf(s, w) ==>
              !WinsEarly(Run(s, more, careful).value, w)
  {
    var s := Run(Start(now), steps, careful).value;
    var c := CandidateOf(s, w);
    CoreAlways(now, steps, careful);
    if NeverPostponed(c) || c.id !in s.table {
      forall more | Run(s, more, careful).Some? && WorkerOf(Run(s, more, careful).value, w) == WorkerOf(s, w)
        ensures !WinsEarly(Run(s, more, careful).value, w)
      {
        StaysPunctual(now, steps, careful, w, more);
      }
    } else {
      var more := FindsEarlyWin(s, careful, w);
    }
  }

  lemma StaysPunctual(now: int, steps: seq<Step>, careful: bool, w: WorkerId, more: seq<Step>)
    requires Run(Start(now), steps, careful).Some? && IsTrying(Run(Start(now), steps, careful).value, w)
    requires var s := Run(Start(now), steps, careful).value;
             && (NeverPostponed(CandidateOf(s, w)) || CandidateOf(s, w).id !in s.table)
             && Run(s, more, careful).Some? && WorkerOf(Run(s, more, careful).value, w) == WorkerOf(s, w)
    ensures !WinsEarly(Run(Run(Start(now), steps, careful).value, more, careful).value, w)
  {
    var s := Run(Start(now), steps, careful).value;
    var s', c := Run(s, more, careful).value, CandidateOf(s, w);
    CoreAlways(now, steps, careful);
    RunsKeepDue(Start(now), steps, careful);
    RunsKeepCore(s, more, careful);
    RunsKeepDue(s, more, careful);
    if NeverPostponed(c) {
      NeverPostponedIsDue(s', w);
    } else {
      assert WorkerOk(s, WorkerOf(s, w)) && Snapshot(s, c.id, c.row);
      GoneStaysGone(s, more, careful, c.id);
    }
  }

  lemma FindsEarlyWin(s: State, careful: bool, w: WorkerId) returns (more: seq<Step>)
    requires Core(s) && IsTrying(s, w) && !NeverPostponed(CandidateOf(s, w)) && CandidateOf(s, w).id in s.table
    ensures Run(s, more, careful).Some? && WorkerOf(Run(s, more, careful).value, w) == WorkerOf(s, w)
    ensures WinsEarly(Run(s, more, careful).value, w)
  {
    var c := CandidateOf(s, w);
    assert WorkerOk(s, WorkerOf(s, w)) && Snapshot(s, c.id, c.row);
    var s';
    more, s' := Postpone(s, [], careful, s, c.id, c.row.attempts);
  }
}
