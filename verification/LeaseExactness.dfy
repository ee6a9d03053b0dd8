/**
 * When exactly it is safe to requeue a dead task: the lease guarantee survives
 * every further careful run if and only if no worker still holds a record of the
 * task.
 */
module LeaseExactness {
  import opened Wrappers
  import opened WorkQueue
  import opened TaskTable
  import opened Scheduling
  import opened Lease
  import opened LeaseRuns

  /** Whoever holds an unexpired lease finds the row as it claimed it, or finished. */
  ghost predicate Honoured(s: State) {
    forall w :: WorkerOf(s, w).Holding? && WorkerOf(s, w).id in s.table && Live(WorkerOf(s, w).claimed, s.now) ==>
                s.table[WorkerOf(s, w).id] == WorkerOf(s, w).claimed
  }

  lemma LeasesAreHonoured(s: State)
    requires Leases(s)
    ensures Honoured(s)
  {
    forall w | WorkerOf(s, w).Holding? && WorkerOf(s, w).id in s.table && Live(WorkerOf(s, w).claimed, s.now)
      ensures s.table[WorkerOf(s, w).id] == WorkerOf(s, w).claimed
    {
      assert LeaseKept(s, w);
    }
  }

  /** From any consistent state, careful runs keep the leases. */
  lemma {:induction false} CarefulRunsKeepLeases(s: State, more: seq<Step>)
    requires Core(s) && Leases(s) && Run(s, more, true).Some?
    ensures Core(Run(s, more, true).value) && Leases(Run(s, more, true).value)
  {
    if more != [] {
      var init := more[..|more| - 1];
      CarefulRunsKeepLeases(s, init);
      StepKeepsCore(Run(s, init, true).value, more[|more| - 1]);
      StepKeepsLeases(Run(s, init, true).value, more[|more| - 1]);
    }
  }

  /** v claims attempt k under a lease that w's report of attempt k then ignores. */
  lemma ReportIgnoresLease(s0: State, steps: seq<Step>, s: State, id: TaskId, v: WorkerId, w: WorkerId, row: Row)
    returns (steps': seq<Step>, s': State)
    requires Run(s0, steps, true) == Some(s) && Ready(s, id, v, row) && v != w
    requires WorkerOf(s, w).Holding? && WorkerOf(s, w).id == id && WorkerOf(s, w).local.attempts == row.attempts + 1
    ensures Run(s0, steps', true) == Some(s') && !Honoured(s')
  {
    steps', s' := ClaimIt(s0, steps, true, s, id, v, row, 0);
    var held, before := WorkerOf(s', v), s';
    assert WorkerOf(s', w) == WorkerOf(s, w);
    var result := Failure("e", s'.now, 1, 1);
    var report := FinishStatement(id, WorkerOf(s, w).local, result);
    steps', s' := Extend(s0, steps', true, s', Finish(w, result));
    assert Lookup(Apply(report, before.table), id) == ApplyRow(report, id, Lookup(before.table, id));
    assert WorkerOf(s', v) == held && Live(held.claimed, s'.now);
  }

  /**
   * If some worker w still holds the task when it is requeued, a fresh worker v
   * can bring it back to w's attempt number and hold it there; then w's report
   * takes the task away from under v's unexpired lease.
   */
  lemma HeldRequeueIsNotHonoured(s: State, id: TaskId, at: int, w: WorkerId)
    requires Core(s) && id in s.table && s.table[id].status == Dead && at <= s.now
    requires WorkerOf(s, w).Holding? && WorkerOf(s, w).id == id
    ensures exists more ::
              && Run(Next(s, Requeue(id, s.table[id].queue, at)), more, true).Some?
              && !Honoured(Run(Next(s, Requeue(id, s.table[id].queue, at)), more, true).value)
  {
    var s0 := Next(s, Requeue(id, s.table[id].queue, at));
    RowIsShaped(s, id);
    assert WorkerOk(s, WorkerOf(s, w));
    var v := SomeUnused(s.workers.Keys);
    var stmt := RequeueDead(id, s.table[id].queue, at);
    assert Lookup(Apply(stmt, s.table), id) == ApplyRow(stmt, id, Some(s.table[id]));
    var row, k := s0.table[id], WorkerOf(s, w).local.attempts;
    var more, s' := LoseAttempts(s0, [], true, s0, id, v, row, k - 1);
    more, s' := ReportIgnoresLease(s0, more, s', id, v, w, row.(attempts := k - 1));
  }

  /**
   * The exact condition. In a state where the leases are in order, requeueing a
   * dead task leaves every further careful run honouring all unexpired leases if
   * and only if no worker still holds a record of that task.
   */
  lemma RequeueHonouredIff(s: State, id: TaskId, at: int)
    requires Core(s) && Leases(s) && id in s.table && s.table[id].status == Dead && at <= s.now
    ensures Unheld(s, id) <==>
            forall more {:trigger Run(Next(s, Requeue(id, s.table[id].queue, at)), more, true)} ::
              Run(Next(s, Requeue(id, s.table[id].queue, at)), more, true).Some? ==>
              Honoured(Run(Next(s, Requeue(id, s.table[id].queue, at)), more, true).value)
  {
    var step := Requeue(id, s.table[id].queue, at);
    if Unheld(s, id) {
      StepKeepsCore(s, step);
      StepKeepsLeases(s, step);
      forall more | Run(Next(s, step), more, true).Some?
        ensures Honoured(Run(Next(s, step), more, true).value)
      {
        CarefulRunsKeepLeases(Next(s, step), more);
        LeasesAreHonoured(Run(Next(s, step), more, true).value);
      }
    } else {
      var w :| WorkerOf(s, w).Holding? && WorkerOf(s, w).id == id;
      HeldRequeueIsNotHonoured(s, id, at, w);
    }
  }
}
