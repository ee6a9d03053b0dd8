/**
 * When tasks of the in-memory backend are due: every task that waits or runs
 * carries the time that its last enqueue, failure or requeue set, and no task is
 * delivered before it.
 */
module MemoryTimes {
  import opened Wrappers
  import opened WorkQueue
  import opened MemoryHeap
  import opened MemoryQueue
  import opened MemoryRuns
  import RetryBackoff

  /** The time that a step sets for a task, if it schedules that task. */
  function SetBy(s: State, step: Step, id: TaskId): Option<int>
    requires Enabled(s, step)
  {
    match step
    case Enqueue(k, _, _, runAt) => if k == id then Some(runAt) else None
    case FailFlight(i, _, base, max) =>
      var t := s.flights[i];
      if t.id == id && t.attempts <= t.maxRetries then Some(s.now + RetryBackoff.Delay(base, max, t.attempts)) else None
    case RequeueDead(k) =>
      if k == id && exists t :: t in s.q.dead && t.id == id then Some(s.now) else None
    case _ => None
  }

  /** The time that was set last in a run. */
  ghost function LastSet(now: int, name: string, steps: seq<Step>, id: TaskId): Option<int>
    requires Run(Start(now, name), steps).Some?
  {
    if steps == [] then None
    else
      var init := steps[..|steps| - 1];
      var t := SetBy(Run(Start(now, name), init).value, steps[|steps| - 1], id);
      if t.Some? then t else LastSet(now, name, init, id)
  }

  /** The task as a waiting or running one of the state. */
  predicate WaitsOrRuns(s: State, t: Task) {
    t in s.flights || exists x :: x in s.q.pending && x.task == t
  }

  lemma {:induction false} OnlyPending(items: seq<Item>, x: Item, y: Item)
    requires x in items && y in items && x.task.id == y.task.id && PendingCopies(items, x.task.id) <= 1
    ensures x == y
  {
    if items[0].task.id == x.task.id {
      NoPendingCopies(items[1..], x.task.id);
    } else {
      OnlyPending(items[1..], x, y);
    }
  }

  lemma {:induction false} SomeCopy(tasks: seq<Task>, t: Task)
    requires t in tasks
    ensures Copies(tasks, t.id) >= 1
  {
    if tasks[0] != t {
      SomeCopy(tasks[1..], t);
    }
  }

  lemma {:induction false} SomePendingCopy(items: seq<Item>, x: Item)
    requires x in items
    ensures PendingCopies(items, x.task.id) >= 1
  {
    if items[0] != x {
      SomePendingCopy(items[1..], x);
    }
  }

  /** A task that waits is the only one of its identifier that waits or runs. */
  lemma OnlyOneWaits(s: State, x: Item, t: Task)
    requires Conserved(s) && x in s.q.pending && WaitsOrRuns(s, t) && t.id == x.task.id
    ensures t == x.task
  {
    assert Occurrences(s, t.id) == if t.id in s.enqueued then 1 else 0;
    SomePendingCopy(s.q.pending, x);
    if t in s.flights {
      SomeCopy(s.flights, t);
    } else {
      var y :| y in s.q.pending && y.task == t;
      OnlyPending(s.q.pending, x, y);
    }
  }

  /** A step that schedules a task puts it on the heap with that time. */
  lemma SetIsPushed(s: State, step: Step, id: TaskId) returns (x: Item)
    requires Enabled(s, step) && SetBy(s, step, id).Some?
    ensures x in Next(s, step).q.pending && x.task.id == id && SetBy(s, step, id) == Some(x.task.runAt)
  {
    match step {
      case Enqueue(k, maxRetries, enqueuedAt, runAt) =>
        x := Item(Task(k, s.name, 0, maxRetries, enqueuedAt, runAt, "", None), s.q.number + 1);
        InsertAdds(s.q.pending, x);
      case FailFlight(i, _, base, max) =>
        x := Item(Retried(s.flights[i], s.now, base, max), s.q.number + 1);
        InsertAdds(s.q.pending, x);
      case RequeueDead(k) =>
        var i := IndexOf(s.q.dead, k);
        x := Item(Revived(s.q.dead[i], s.now), s.q.number + 1);
        InsertAdds(s.q.pending, x);
    }
  }

  lemma PushKeepsOthers(q: Queue, task: Task, x: Item)
    requires x in Push(q, task).pending && x.task.id != task.id
    ensures x in q.pending
  {
    InsertAdds(q.pending, Item(task, q.number + 1));
  }

  /** A step that does not schedule a waiting task leaves it waiting as it was. */
  lemma WaitedBefore(s: State, step: Step, x: Item)
    requires Enabled(s, step) && SetBy(s, step, x.task.id).None? && x in Next(s, step).q.pending
    ensures x in s.q.pending
  {
    match step {
      case Enqueue(k, maxRetries, enqueuedAt, runAt) =>
        PushKeepsOthers(s.q, Task(k, s.name, 0, maxRetries, enqueuedAt, runAt, "", None), x);
      case FailFlight(i, _, base, max) =>
        if s.flights[i].attempts <= s.flights[i].maxRetries {
          PushKeepsOthers(s.q, Retried(s.flights[i], s.now, base, max), x);
        }
      case RequeueDead(k) =>
        var i := IndexOf(s.q.dead, k);
        if i < |s.q.dead| {
          PushKeepsOthers(s.q.(dead := Without(s.q.dead, i)), Revived(s.q.dead[i], s.now), x);
        }
      case _ =>
    }
  }

  /** Whatever runs after a step ran before it, or was the head of the queue. */
  lemma RanBefore(s: State, step: Step, t: Task)
    requires Enabled(s, step) && t in Next(s, step).flights
    ensures t in s.flights
            || (s.q.pending != [] && s.q.pending[0].task.id == t.id && s.q.pending[0].task.runAt == t.runAt)
  {
  }

  /** A step that does not schedule a task leaves its time alone. */
  lemma UnsetIsOld(s: State, step: Step, t: Task) returns (was: Task)
    requires Enabled(s, step) && SetBy(s, step, t.id).None? && WaitsOrRuns(Next(s, step), t)
    ensures WaitsOrRuns(s, was) && was.id == t.id && was.runAt == t.runAt
  {
    was := t;
    if t in Next(s, step).flights {
      RanBefore(s, step, t);
      if t !in s.flights {
        was := s.q.pending[0].task;
        assert s.q.pending[0] in s.q.pending;
      }
    } else {
      var x :| x in Next(s, step).q.pending && x.task == t;
      WaitedBefore(s, step, x);
    }
  }

  /**
   * In every run, whatever waits or runs carries the time that was set last for it:
   * by its enqueue, its last failure, with the delay of the attempt that failed, or
   * its last requeue.
   */
  lemma {:induction false} RunAtIsLastSet(now: int, name: string, steps: seq<Step>, t: Task)
    requires Run(Start(now, name), steps).Some? && WaitsOrRuns(Run(Start(now, name), steps).value, t)
    ensures LastSet(now, name, steps, t.id) == Some(t.runAt)
  {
    if steps != [] {
      var init, last := steps[..|steps| - 1], steps[|steps| - 1];
      var s := Run(Start(now, name), init).value;
      if SetBy(s, last, t.id).Some? {
        var x := SetIsPushed(s, last, t.id);
        InvAlways(now, name, steps);
        OnlyOneWaits(Next(s, last), x, t);
      } else {
        var was := UnsetIsOld(s, last, t);
        RunAtIsLastSet(now, name, init, was);
      }
    }
  }

  /** So a claim delivers no task before the time that was set last for it. */
  lemma NoDeliveryIsEarly(now: int, name: string, steps: seq<Step>, w: WorkerId)
    requires Run(Start(now, name), steps).Some?
    requires var s := Run(Start(now, name), steps).value;
             Enabled(s, ClaimNext(w)) && |Next(s, ClaimNext(w)).flights| > |s.flights|
    ensures var s := Run(Start(now, name), steps).value;
            var flights := Next(s, ClaimNext(w)).flights;
            var due := LastSet(now, name, steps, flights[|flights| - 1].id);
            due.Some? && due.value <= s.now
  {
    var s := Run(Start(now, name), steps).value;
    assert s.q.pending[0] in s.q.pending;
    RunAtIsLastSet(now, name, steps, s.q.pending[0].task);
  }
}
