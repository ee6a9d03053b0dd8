/**
 * When exactly a requeue leaves leases exclusive. A worker that still holds the
 * task with no retries left can kill or delete it under another worker's lease,
 * but it cannot set it free for a second one; any other holder can.
 */
module LeaseExclusivity {
  import opened Wrappers
  import opened WorkQueue
  import opened TaskTable
  import opened Lease
  import opened LeaseRuns
  import LeaseHazards

  /** A holder whose failure report can only bury the task. */
  predicate Spent(worker: Worker) {
    worker.Holding? && worker.local.attempts > worker.local.maxRetries
  }

  /**
   * An unexpired lease stands in the table, or its task was buried under it; a
   * record from before a requeue is expired and spent.
   */
  ghost predicate Harmless(s: State, w: WorkerId) {
    var worker := WorkerOf(s, w);
    worker.Holding? && worker.id in s.table ==>
      var row := s.table[worker.id];
      if row.epoch == worker.claimed.epoch
      then Live(worker.claimed, s.now) ==> row == worker.claimed || row.status == Dead
      else !Live(worker.claimed, s.now) && Spent(worker)
  }

  ghost predicate AllHarmless(s: State) {
    forall w :: Harmless(s, w)
  }

  /** A harmless holder of a row that can be claimed has an expired lease. */
  ghost predicate Guarded(s: State) {
    Exclusive(s) && AllHarmless(s)
  }

  /** A statement of worker b, or of nobody, does no harm to any other holder. */
  lemma ExecKeepsHarmless(s: State, s': State, stmt: Statement, b: WorkerId, w: WorkerId)
    requires Core(s) && AllHarmless(s) && Core(s') && s'.log == s.log + [stmt] && s'.table == Apply(stmt, s.table)
    requires s'.now == s.now && WorkerOf(s', w) == WorkerOf(s, w)
    requires stmt.RequeueDead? ==> Unheld(s, stmt.id)
    requires stmt.ReapExpired? ==> stmt.at <= s.now
    requires stmt.Reschedule? || stmt.MarkDead? ==>
               && w != b && WorkerOf(s, b).Holding? && WorkerOf(s, b).id == stmt.id
               && WorkerOf(s, b).local.attempts == stmt.attempts
               && (stmt.Reschedule? ==> !Spent(WorkerOf(s, b)))
    ensures Harmless(s', w)
  {
    var worker := WorkerOf(s, w);
    if worker.Holding? {
      assert Harmless(s, w) && Harmless(s, b) && WorkerOk(s, worker);
      assert Lookup(s'.table, worker.id) == ApplyRow(stmt, worker.id, Lookup(s.table, worker.id));
      RowIsShaped(s, worker.id);
      assert s'.log[..|s.log|] == s.log;
      assert Lawful(s'.log, worker.id) && LawfulNext(s.log, stmt, worker.id);
      if stmt.Reschedule? && Affects(stmt, worker.id, Lookup(s.table, worker.id)) {
        assert WorkerOk(s, WorkerOf(s, b));
        SameStateSameRow(WorkerOf(s, b).claimed, s.table[worker.id]);
      }
    }
  }

  /** The worker whose record a step makes, changes or drops. */
  function ActorOf(step: Step): Option<WorkerId> {
    match step
    case ReadCandidates(w, _, _, _) => Some(w)
    case TryCandidate(w, _) => Some(w)
    case GiveUp(w) => Some(w)
    case ClaimNext(w, _, _, _, _, _) => Some(w)
    case Finish(w, _) => Some(w)
    case Abandon(w) => Some(w)
    case _ => None
  }

  lemma OthersKeepRecords(s: State, step: Step, w: WorkerId)
    requires Enabled(s, step) && ActorOf(step) != Some(w)
    ensures WorkerOf(Next(s, step), w) == WorkerOf(s, w)
  {
  }

  /** Whoever holds a record after a step that acts for it has just won the row. */
  lemma ActorHoldsItsRow(s: State, step: Step, w: WorkerId)
    requires Core(s) && Enabled(s, step) && ActorOf(step) == Some(w) && WorkerOf(Next(s, step), w).Holding?
    ensures var worker := WorkerOf(Next(s, step), w);
            && worker.id in s.table && s.table[worker.id].status == Pending && !WorkerOf(s, w).Holding?
            && Lookup(Next(s, step).table, worker.id) == Some(worker.claimed)
  {
    var stmt := StatementOf(s, step).value;
    var id := WorkerOf(Next(s, step), w).id;
    assert Lookup(Apply(stmt, s.table), id) == ApplyRow(stmt, id, Lookup(s.table, id));
  }

  /** Failure reports come from holders, and only a holder with retries left reschedules. */
  lemma ReportIsActors(s: State, step: Step)
    requires Enabled(s, step) && StatementOf(s, step).Some?
    ensures var stmt := StatementOf(s, step).value;
            stmt.Reschedule? || stmt.MarkDead? ==>
              && ActorOf(step).Some?
              && var b := WorkerOf(s, ActorOf(step).value);
                 && b.Holding? && b.id == stmt.id && b.local.attempts == stmt.attempts
                 && (stmt.Reschedule? ==> !Spent(b))
  {
  }

  lemma ActorIsHarmless(s: State, step: Step, w: WorkerId)
    requires Core(s) && Enabled(s, step) && ActorOf(step) == Some(w)
    ensures Harmless(Next(s, step), w)
  {
    if WorkerOf(Next(s, step), w).Holding? {
      ActorHoldsItsRow(s, step, w);
    }
  }

  lemma OtherStaysHarmless(s: State, step: Step, w: WorkerId)
    requires Core(s) && AllHarmless(s) && Enabled(s, step) && CarefulStep(s, step) && ActorOf(step) != Some(w)
    requires StatementOf(s, step).Some?
    ensures Harmless(Next(s, step), w)
  {
    assert Core(Next(s, step)) by { StepKeepsCore(s, step); }
    StepExecutes(s, step);
    OthersKeepRecords(s, step, w);
    ReportIsActors(s, step);
    var b := if ActorOf(step).Some? then ActorOf(step).value else w;
    ExecKeepsHarmless(s, Next(s, step), StatementOf(s, step).value, b, w);
  }

  lemma IdleStepKeepsHarmless(s: State, step: Step, w: WorkerId)
    requires Harmless(s, w) && Enabled(s, step) && ActorOf(step) != Some(w) && StatementOf(s, step).None?
    ensures Harmless(Next(s, step), w)
  {
    OthersKeepRecords(s, step, w);
    assert s.now <= Next(s, step).now;
    assert Next(s, step).table == s.table;
  }

  lemma StepKeepsHarmless(s: State, step: Step, w: WorkerId)
    requires Core(s) && AllHarmless(s) && Enabled(s, step) && CarefulStep(s, step)
    ensures Harmless(Next(s, step), w)
  {
    if ActorOf(step) == Some(w) {
      ActorIsHarmless(s, step, w);
    } else if StatementOf(s, step).Some? {
      OtherStaysHarmless(s, step, w);
    } else {
      assert Harmless(s, w);
      IdleStepKeepsHarmless(s, step, w);
    }
  }

  /** A row that can be claimed has no holder with an unexpired lease. */
  lemma PendingHasNoLease(s: State, v: WorkerId)
    requires Core(s) && Harmless(s, v) && WorkerOf(s, v).Holding?
    requires WorkerOf(s, v).id in s.table && s.table[WorkerOf(s, v).id].status == Pending
    ensures !Live(WorkerOf(s, v).claimed, s.now)
  {
    assert WorkerOk(s, WorkerOf(s, v));
  }

  lemma StepKeepsExclusive(s: State, step: Step)
    requires Core(s) && Guarded(s) && Enabled(s, step)
    ensures Exclusive(Next(s, step))
  {
    var s' := Next(s, step);
    forall v, w | v != w && WorkerOf(s', v).Holding? && WorkerOf(s', w).Holding?
                  && WorkerOf(s', v).id == WorkerOf(s', w).id
      ensures !(Live(WorkerOf(s', v).claimed, s'.now) && Live(WorkerOf(s', w).claimed, s'.now))
    {
      if ActorOf(step) == Some(v) || ActorOf(step) == Some(w) {
        var actor, other := if ActorOf(step) == Some(v) then v else w, if ActorOf(step) == Some(v) then w else v;
        ActorHoldsItsRow(s, step, actor);
        OthersKeepRecords(s, step, other);
        assert Harmless(s, other);
        PendingHasNoLease(s, other);
        assert s.now <= s'.now;
      } else {
        OthersKeepRecords(s, step, v);
        OthersKeepRecords(s, step, w);
      }
    }
  }

  lemma {:induction false} CarefulRunsStayGuarded(s: State, more: seq<Step>)
    requires Core(s) && Guarded(s) && Run(s, more, true).Some?
    ensures Guarded(Run(s, more, true).value)
  {
    if more != [] {
      var init, last := more[..|more| - 1], more[|more| - 1];
      CarefulRunsStayGuarded(s, init);
      RunsKeepCore(s, init, true);
      var middle := Run(s, init, true).value;
      StepKeepsExclusive(middle, last);
      forall w ensures Harmless(Next(middle, last), w) {
        StepKeepsHarmless(middle, last, w);
      }
    }
  }

  // ---------- The exact condition ----------

  /** No worker that still holds the task could set it free for another claim. */
  ghost predicate OnlySpentHolders(s: State, id: TaskId) {
    forall w :: WorkerOf(s, w).Holding? && WorkerOf(s, w).id == id ==> Spent(WorkerOf(s, w))
  }

  /** The requeue itself does no harm when all holders are spent. */
  lemma RequeueIsGuarded(s: State, id: TaskId, queue: string, at: int)
    requires Core(s) && Leases(s) && OnlySpentHolders(s, id)
    requires id in s.table && s.table[id].status == Dead && s.table[id].queue == queue
    ensures Guarded(Exec(s, RequeueDead(id, queue, at)))
  {
    var s' := Exec(s, RequeueDead(id, queue, at));
    forall w ensures WorkerOf(s', w) == WorkerOf(s, w) && Harmless(s', w) {
      var worker := WorkerOf(s, w);
      assert LeaseKept(s, w);
      if worker.Holding? {
        assert WorkerOk(s, worker);
        assert Lookup(s'.table, worker.id)
            == ApplyRow(RequeueDead(id, queue, at), worker.id, Lookup(s.table, worker.id));
      }
    }
  }

  /** From a holder with retries left, a fresh worker and one more reach two unexpired leases. */
  lemma FreeingHolderEndsExclusivity(s: State, id: TaskId, at: int, w: WorkerId) returns (more: seq<Step>)
    requires Core(s) && id in s.table && s.table[id].status == Dead && at <= s.now
    requires WorkerOf(s, w).Holding? && WorkerOf(s, w).id == id && !Spent(WorkerOf(s, w))
    ensures Run(Next(s, Requeue(id, s.table[id].queue, at)), more, true).Some?
    ensures !Exclusive(Run(Next(s, Requeue(id, s.table[id].queue, at)), more, true).value)
  {
    var step := Requeue(id, s.table[id].queue, at);
    var s0 := Next(s, step);
    StepKeepsCore(s, step);
    RowIsShaped(s, id);
    assert WorkerOk(s, WorkerOf(s, w));
    var v := SomeUnused(s.workers.Keys);
    var stmt := RequeueDead(id, s.table[id].queue, at);
    assert Lookup(Apply(stmt, s.table), id) == ApplyRow(stmt, id, Some(s.table[id]));
    var row, k := s0.table[id], WorkerOf(s, w).local.attempts;
    var steps, s1 := LoseAttempts(s0, [], true, s0, id, v, row, k - 1);
    steps, s1 := ClaimIt(s0, steps, true, s1, id, v, row.(attempts := k - 1), 1);
    assert WorkerOf(s1, v + 1) == WorkerOf(s, v + 1) == Idle;
    RunsKeepCore(s0, steps, true);
    assert LeaseHazards.Confused(s1, v, w);
    LeaseHazards.ConfusionEndsExclusivity(s1, v, w, v + 1);
    var rest :| Run(s1, rest, true).Some? && !Exclusive(Run(s1, rest, true).value);
    RunAppends(s0, steps, rest, true);
    more := steps + rest;
  }

  /**
   * The exact condition. In a state where the leases are in order, requeueing a
   * dead task leaves every further careful run exclusive if and only if each
   * worker that still holds a record of it has used up its retries.
   */
  lemma RequeueExclusiveIff(s: State, id: TaskId, at: int)
    requires Core(s) && Leases(s) && id in s.table && s.table[id].status == Dead && at <= s.now
    ensures OnlySpentHolders(s, id) <==>
            forall more {:trigger Run(Next(s, Requeue(id, s.table[id].queue, at)), more, true)} ::
              Run(Next(s, Requeue(id, s.table[id].queue, at)), more, true).Some? ==>
              Exclusive(Run(Next(s, Requeue(id, s.table[id].queue, at)), more, true).value)
  {
    var step := Requeue(id, s.table[id].queue, at);
    if OnlySpentHolders(s, id) {
      StepKeepsCore(s, step);
      RequeueIsGuarded(s, id, s.table[id].queue, at);
      forall more | Run(Next(s, step), more, true).Some?
        ensures Exclusive(Run(Next(s, step), more, true).value)
      {
        CarefulRunsStayGuarded(Next(s, step), more);
      }
    } else {
      var w :| WorkerOf(s, w).Holding? && WorkerOf(s, w).id == id && !Spent(WorkerOf(s, w));
      var more := FreeingHolderEndsExclusivity(s, id, at, w);
    }
  }
}
