/**
 * Runs of the in-memory backend: enqueues, claims, completions and dead-letter
 * operations of any number of goroutines, each atomic under the mutex, with
 * workers that park between a claim that delivered nothing and their wakeup.
 */
module MemoryRuns {
  import opened Wrappers
  import opened WorkQueue
  import opened MemoryHeap
  import opened MemoryQueue
  import RetryBackoff

  type WorkerId = nat

  /**
   * A worker whose claim delivered nothing: it keeps the channel it captured and
   * the RunAt it saw at the head, none if the heap was empty. Its timer starts
   * later.
   */
  datatype Waiter =
    | Looking(generation: nat, saw: Option<int>, at: int)
    | Parked(generation: nat, saw: Option<int>, at: int, started: int, deadline: int)

  /** What a task went through, in order. */
  datatype Event =
    | Delivery(id: TaskId, attempts: nat)
    | Revival(id: TaskId)

  /**
   * flights are the tasks whose handler is running; succeeded and deleted keep
   * the tasks that left the queue.
   */
  datatype State = State(
    now: int,
    name: string,
    q: Queue,
    flights: seq<Task>,
    succeeded: seq<Task>,
    deleted: seq<Task>,
    enqueued: set<TaskId>,
    waiters: map<WorkerId, Waiter>,
    log: seq<Event>)

  datatype Step =
    | Tick(to: int)
    | Enqueue(id: TaskId, maxRetries: nat, enqueuedAt: int, runAt: int)
    | ClaimNext(w: WorkerId)
    | Park(w: WorkerId)
    | Unpark(w: WorkerId)
    | Succeed(i: nat)
    | FailFlight(i: nat, error: string, base: RetryBackoff.int64, max: RetryBackoff.int64)
    | RequeueDead(id: TaskId)
    | DeleteDead(id: TaskId)

  predicate Enabled(s: State, step: Step) {
    match step
    case Tick(to) => s.now <= to
    case Enqueue(id, _, enqueuedAt, _) => id !in s.enqueued && enqueuedAt <= s.now
    case ClaimNext(w) => w !in s.waiters
    case Park(w) => w in s.waiters && s.waiters[w].Looking?
    case Unpark(w) =>
      w in s.waiters && s.waiters[w].Parked?
      && (s.waiters[w].generation < s.q.generation || s.waiters[w].deadline <= s.now)
    case Succeed(i) => i < |s.flights|
    case FailFlight(i, _, _, _) => i < |s.flights|
    case RequeueDead(_) => true
    case DeleteDead(_) => true
  }

  function Next(s: State, step: Step): State
    requires Enabled(s, step)
  {
    match step
    case Tick(to) => s.(now := to)
    case Enqueue(id, maxRetries, enqueuedAt, runAt) =>
      s.(q := Push(s.q, Task(id, s.name, 0, maxRetries, enqueuedAt, runAt, "", None)), enqueued := s.enqueued + {id})
    case ClaimNext(w) =>
      var (r, q) := Claim(s.q, s.now);
      (match r
       case Empty => s.(waiters := s.waiters[w := Looking(q.generation, None, s.now)])
       case NotDue(runAt) => s.(waiters := s.waiters[w := Looking(q.generation, Some(runAt), s.now)])
       case Delivered(task) =>
         s.(q := q, flights := s.flights + [task], log := s.log + [Delivery(task.id, task.attempts)]))
    case Park(w) =>
      var x := s.waiters[w];
      s.(waiters := s.waiters[w := Parked(x.generation, x.saw, x.at, s.now, s.now + WaitOf(x.saw, x.at))])
    case Unpark(w) => s.(waiters := s.waiters - {w})
    case Succeed(i) => s.(flights := Without(s.flights, i), succeeded := s.succeeded + [s.flights[i]])
    case FailFlight(i, error, base, max) =>
      s.(flights := Without(s.flights, i), q := Fail(s.q, s.flights[i], error, s.now, base, max))
    case RequeueDead(id) =>
      var (outcome, q) := Requeue(s.q, id, s.now);
      if outcome == Ok then s.(q := q, log := s.log + [Revival(id)]) else s
    case DeleteDead(id) =>
      var (outcome, q) := Delete(s.q, id);
      if outcome == Ok then s.(q := q, deleted := s.deleted + [s.q.dead[IndexOf(s.q.dead, id)]]) else s
  }

  function Start(now: int, name: string): State {
    State(now, name, Queue([], 0, [], 0), [], [], [], {}, map[], [])
  }

  ghost function Run(s: State, steps: seq<Step>): Option<State> {
    if steps == [] then Some(s)
    else
      var r := Run(s, steps[..|steps| - 1]);
      if r.Some? && Enabled(r.value, steps[|steps| - 1]) then Some(Next(r.value, steps[|steps| - 1])) else None
  }

  // ---------- Counting occurrences ----------

  function Copies(tasks: seq<Task>, id: TaskId): nat {
    if tasks == [] then 0 else (if tasks[0].id == id then 1 else 0) + Copies(tasks[1..], id)
  }

  function PendingCopies(items: seq<Item>, id: TaskId): nat {
    if items == [] then 0 else (if items[0].task.id == id then 1 else 0) + PendingCopies(items[1..], id)
  }

  /** How often a task occurs anywhere. */
  function Occurrences(s: State, id: TaskId): nat {
    PendingCopies(s.q.pending, id) + Copies(s.flights, id) + Copies(s.q.dead, id)
    + Copies(s.succeeded, id) + Copies(s.deleted, id)
  }

  lemma {:induction false} CopiesConcat(a: seq<Task>, b: seq<Task>, id: TaskId)
    ensures Copies(a + b, id) == Copies(a, id) + Copies(b, id)
  {
    if a == [] {
      assert a + b == b;
    } else {
      assert (a + b)[1..] == a[1..] + b;
      CopiesConcat(a[1..], b, id);
    }
  }

  lemma CopiesAppend(a: seq<Task>, t: Task, id: TaskId)
    ensures Copies(a + [t], id) == Copies(a, id) + if t.id == id then 1 else 0
  {
    CopiesConcat(a, [t], id);
  }

  lemma CopiesWithout(a: seq<Task>, i: nat, id: TaskId)
    requires i < |a|
    ensures Copies(Without(a, i), id) == Copies(a, id) - if a[i].id == id then 1 else 0
  {
    assert a == a[..i] + ([a[i]] + a[i + 1..]);
    CopiesConcat(a[..i], [a[i]] + a[i + 1..], id);
    CopiesConcat([a[i]], a[i + 1..], id);
    CopiesConcat(a[..i], a[i + 1..], id);
  }

  lemma {:induction false} PendingInsert(q: seq<Item>, x: Item, id: TaskId)
    ensures PendingCopies(InsertSorted(q, x), id) == PendingCopies(q, id) + if x.task.id == id then 1 else 0
  {
    if q != [] && !Less(x, q[0]) {
      PendingInsert(q[1..], x, id);
    }
  }

  lemma {:induction false} NoCopies(a: seq<Task>, id: TaskId)
    requires Copies(a, id) == 0
    ensures forall t :: t in a ==> t.id != id
  {
    if a != [] {
      NoCopies(a[1..], id);
      assert forall t :: t in a ==> t == a[0] || t in a[1..];
    }
  }

  lemma {:induction false} NoPendingCopies(items: seq<Item>, id: TaskId)
    requires PendingCopies(items, id) == 0
    ensures forall x :: x in items ==> x.task.id != id
  {
    if items != [] {
      NoPendingCopies(items[1..], id);
      assert forall x :: x in items ==> x == items[0] || x in items[1..];
    }
  }

  // ---------- Conservation ----------

  /** Every enqueued task is in exactly one place, once; nothing else is anywhere. */
  ghost predicate Conserved(s: State) {
    forall id :: Occurrences(s, id) == if id in s.enqueued then 1 else 0
  }

  lemma StepConserves(s: State, step: Step)
    requires Conserved(s) && Enabled(s, step)
    ensures Conserved(Next(s, step))
  {
    var s' := Next(s, step);
    forall id ensures Occurrences(s', id) == if id in s'.enqueued then 1 else 0 {
      assert Occurrences(s, id) == if id in s.enqueued then 1 else 0;
      OccurrencesAfter(s, step, id);
    }
  }

  lemma PushOccurrences(q: Queue, task: Task, id: TaskId)
    ensures PendingCopies(Push(q, task).pending, id) == PendingCopies(q.pending, id) + if task.id == id then 1 else 0
  {
    PendingInsert(q.pending, Item(task, q.number + 1), id);
  }

  lemma FailOccurrences(s: State, i: nat, error: string, base: RetryBackoff.int64, max: RetryBackoff.int64, id: TaskId)
    requires i < |s.flights|
    ensures Occurrences(Next(s, FailFlight(i, error, base, max)), id) == Occurrences(s, id)
  {
    var t := s.flights[i];
    CopiesWithout(s.flights, i, id);
    if t.attempts > t.maxRetries {
      CopiesAppend(s.q.dead, Died(t, error, s.now), id);
    } else {
      PushOccurrences(s.q, Retried(t, s.now, base, max), id);
    }
  }

  lemma DeadOccurrences(s: State, step: Step, id: TaskId)
    requires step.RequeueDead? || step.DeleteDead?
    ensures Occurrences(Next(s, step), id) == Occurrences(s, id)
  {
    var i := IndexOf(s.q.dead, step.id);
    if i < |s.q.dead| {
      CopiesWithout(s.q.dead, i, id);
      if step.RequeueDead? {
        PushOccurrences(s.q.(dead := Without(s.q.dead, i)), Revived(s.q.dead[i], s.now), id);
      } else {
        CopiesAppend(s.deleted, s.q.dead[i], id);
      }
    }
  }

  /** Only Enqueue changes how often a task occurs. */
  lemma OccurrencesAfter(s: State, step: Step, id: TaskId)
    requires Enabled(s, step)
    ensures Occurrences(Next(s, step), id) == Occurrences(s, id) + if step.Enqueue? && step.id == id then 1 else 0
  {
    match step {
      case Enqueue(k, maxRetries, enqueuedAt, runAt) =>
        PushOccurrences(s.q, Task(k, s.name, 0, maxRetries, enqueuedAt, runAt, "", None), id);
      case ClaimNext(_) =>
        var (r, _) := Claim(s.q, s.now);
        if r.Delivered? {
          CopiesAppend(s.flights, r.task, id);
        }
      case Succeed(i) =>
        CopiesWithout(s.flights, i, id);
        CopiesAppend(s.succeeded, s.flights[i], id);
      case FailFlight(i, error, base, max) => FailOccurrences(s, i, error, base, max, id);
      case RequeueDead(_) => DeadOccurrences(s, step, id);
      case DeleteDead(_) => DeadOccurrences(s, step, id);
      case Tick(_) =>
      case Park(_) =>
      case Unpark(_) =>
    }
  }

  // ---------- The retry budget ----------

  /** The attempt numbers delivered for the task since it was enqueued or last requeued. */
  function Numbers(log: seq<Event>, id: TaskId): seq<nat> {
    if log == [] then []
    else
      var front, last := log[..|log| - 1], log[|log| - 1];
      if last.id != id then Numbers(front, id)
      else if last.Revival? then []
      else Numbers(front, id) + [last.attempts]
  }

  function UpTo(k: nat): seq<nat> { seq(k, i => i + 1) }

  /** The task's attempts are what was delivered: 1, 2, ..., up to the count. */
  predicate Told(s: State, t: Task) {
    t.queue == s.name && t.attempts <= t.maxRetries + 1 && Numbers(s.log, t.id) == UpTo(t.attempts)
  }

  predicate PendingOk(s: State, t: Task) { Told(s, t) && t.attempts <= t.maxRetries && t.diedAt == None }

  predicate FlightOk(s: State, t: Task) { Told(s, t) && t.attempts >= 1 && t.diedAt == None }

  predicate DeadOk(s: State, t: Task) {
    Told(s, t) && t.attempts == t.maxRetries + 1 && t.diedAt.Some? && t.diedAt.value <= s.now
  }

  predicate DeletedOk(s: State, t: Task) { Told(s, t) && t.attempts == t.maxRetries + 1 }

  ghost predicate Budgeted(s: State) {
    && (forall x :: x in s.q.pending ==> PendingOk(s, x.task))
    && (forall t :: t in s.flights ==> FlightOk(s, t))
    && (forall t :: t in s.q.dead ==> DeadOk(s, t))
    && (forall t :: t in s.succeeded ==> FlightOk(s, t))
    && (forall t :: t in s.deleted ==> DeletedOk(s, t))
    && (forall id :: id !in s.enqueued ==> Numbers(s.log, id) == [])
  }

  predicate DiedBefore(a: Task, b: Task) {
    a.diedAt.Some? && b.diedAt.Some? ==> a.diedAt.value <= b.diedAt.value
  }

  /** Dead letters are listed in the order in which the tasks died. */
  ghost predicate OldestFirst(s: State) {
    forall i, j :: 0 <= i < j < |s.q.dead| ==> DiedBefore(s.q.dead[i], s.q.dead[j])
  }

  // ---------- Wakeups ----------

  /**
   * A worker with an open channel has not missed anything: it saw an empty heap
   * and the heap is still empty, or nothing pending is due before what it saw.
   */
  ghost predicate NothingMissed(s: State, x: Waiter) {
    && x.generation <= s.q.generation
    && x.at <= s.now
    && (x.generation == s.q.generation ==>
          if x.saw.None? then s.q.pending == []
          else forall i :: 0 <= i < |s.q.pending| ==> x.saw.value <= s.q.pending[i].task.runAt)
    && (x.Parked? ==> x.at <= x.started && x.deadline == x.started + WaitOf(x.saw, x.at))
  }

  ghost predicate Awake(s: State) {
    Ordered(s.q) && forall w :: w in s.waiters ==> NothingMissed(s, s.waiters[w])
  }

  /** A step that does not broadcast only shrinks the pending queue. */
  lemma SilentStepsShrink(s: State, step: Step)
    requires Enabled(s, step) && Next(s, step).q.generation == s.q.generation
    ensures Next(s, step).q.pending == s.q.pending
            || (s.q.pending != [] && Next(s, step).q.pending == s.q.pending[1..])
  {
  }

  lemma StepKeepsOrdered(s: State, step: Step)
    requires Ordered(s.q) && Enabled(s, step)
    ensures Ordered(Next(s, step).q) && s.q.generation <= Next(s, step).q.generation
  {
    match step {
      case Enqueue(k, maxRetries, enqueuedAt, runAt) =>
        PushKeepsOrdered(s.q, Task(k, s.name, 0, maxRetries, enqueuedAt, runAt, "", None));
      case FailFlight(i, _, base, max) => PushKeepsOrdered(s.q, Retried(s.flights[i], s.now, base, max));
      case RequeueDead(k) =>
        var i := IndexOf(s.q.dead, k);
        if i < |s.q.dead| {
          PushKeepsOrdered(s.q.(dead := Without(s.q.dead, i)), Revived(s.q.dead[i], s.now));
        }
      case ClaimNext(_) =>
      case Tick(_) =>
      case Park(_) =>
      case Unpark(_) =>
      case Succeed(_) =>
      case DeleteDead(_) =>
    }
  }

  lemma StepKeepsAwake(s: State, step: Step)
    requires Awake(s) && Enabled(s, step)
    ensures Awake(Next(s, step))
  {
    var s' := Next(s, step);
    StepKeepsOrdered(s, step);
    ClaimIsLeast(s.q, s.now);
    if s'.q.generation == s.q.generation {
      SilentStepsShrink(s, step);
    }
    forall w | w in s'.waiters
      ensures NothingMissed(s', s'.waiters[w])
    {
      if w in s.waiters {
        assert NothingMissed(s, s.waiters[w]);
      }
    }
  }

  // ---------- The invariant of every run ----------

  ghost predicate Inv(s: State) {
    Conserved(s) && Budgeted(s) && OldestFirst(s) && Awake(s)
  }

  /** Nothing outside the given places has this identifier. */
  ghost predicate NowhereElse(s: State, id: TaskId) {
    && (forall x :: x in s.q.pending ==> x.task.id != id)
    && (forall t :: t in s.flights + s.q.dead + s.succeeded + s.deleted ==> t.id != id)
  }

  lemma AbsentEverywhere(s: State, id: TaskId)
    requires Occurrences(s, id) == 0
    ensures NowhereElse(s, id)
  {
    NoPendingCopies(s.q.pending, id);
    NoCopies(s.flights, id);
    NoCopies(s.q.dead, id);
    NoCopies(s.succeeded, id);
    NoCopies(s.deleted, id);
  }

  /** An event of a task that is taken out of s leaves what the others were told. */
  lemma OthersStillBudgeted(s: State, event: Event)
    requires Budgeted(s) && NowhereElse(s, event.id) && event.id in s.enqueued
    ensures Budgeted(s.(log := s.log + [event]))
  {
  }

  lemma ToldOneMore(s: State, t: Task)
    requires PendingOk(s, t)
    ensures Numbers(s.log + [Delivery(t.id, t.attempts + 1)], t.id) == UpTo(t.attempts + 1)
  {
  }

  /** The head of the queue is the only copy of its task. */
  lemma HeadIsOnlyCopy(s: State)
    requires Conserved(s) && s.q.pending != []
    ensures s.q.pending[0].task.id in s.enqueued
    ensures NowhereElse(s.(q := s.q.(pending := s.q.pending[1..])), s.q.pending[0].task.id)
  {
    var id := s.q.pending[0].task.id;
    assert s.q.pending[0] in s.q.pending;
    assert Occurrences(s, id) == if id in s.enqueued then 1 else 0;
    AbsentEverywhere(s.(q := s.q.(pending := s.q.pending[1..])), id);
  }

  lemma DeliveryKeepsBudget(s: State, w: WorkerId)
    requires Conserved(s) && Budgeted(s) && Enabled(s, ClaimNext(w)) && Claim(s.q, s.now).0.Delivered?
    ensures Budgeted(Next(s, ClaimNext(w)))
  {
    var head := s.q.pending[0];
    var task := Claim(s.q, s.now).0.task;
    var out := s.(q := s.q.(pending := s.q.pending[1..]));
    HeadIsOnlyCopy(s);
    OthersStillBudgeted(out, Delivery(task.id, task.attempts));
    var told := out.(log := out.log + [Delivery(task.id, task.attempts)]);
    assert FlightOk(told, task) by {
      assert head in s.q.pending;
      ToldOneMore(s, head.task);
    }
    assert Next(s, ClaimNext(w)) == told.(flights := told.flights + [task]);
  }

  lemma RevivalKeepsBudget(s: State, id: TaskId)
    requires Conserved(s) && Budgeted(s) && IndexOf(s.q.dead, id) < |s.q.dead|
    ensures Budgeted(Next(s, RequeueDead(id)))
  {
    var i := IndexOf(s.q.dead, id);
    var task := s.q.dead[i];
    var out := s.(q := s.q.(dead := Without(s.q.dead, i)));
    assert Budgeted(out) by { WithoutIsSubset(s.q.dead, i); }
    assert Occurrences(s, id) == if id in s.enqueued then 1 else 0;
    CopiesWithout(s.q.dead, i, id);
    AbsentEverywhere(out, id);
    OthersStillBudgeted(out, Revival(id));
    var told := out.(log := out.log + [Revival(id)]);
    assert PendingOk(told, Revived(task, s.now)) by {
      assert task in s.q.dead;
      assert Numbers(told.log, id) == [] == UpTo(0);
    }
    PushedIsBudgeted(told, Revived(task, s.now));
    assert Next(s, RequeueDead(id)) == told.(q := Push(told.q, Revived(task, s.now)));
  }

  lemma WithoutIsSubset(a: seq<Task>, i: nat)
    requires i < |a|
    ensures forall t :: t in Without(a, i) ==> t in a
  {
  }

  lemma PushedIsBudgeted(s: State, task: Task)
    requires Budgeted(s) && PendingOk(s, task)
    ensures Budgeted(s.(q := Push(s.q, task)))
  {
    InsertAdds(s.q.pending, Item(task, s.q.number + 1));
    var s' := s.(q := Push(s.q, task));
    assert forall t :: Told(s, t) <==> Told(s', t);
  }

  lemma FailureKeepsBudget(s: State, i: nat, error: string, base: RetryBackoff.int64, max: RetryBackoff.int64)
    requires Budgeted(s) && i < |s.flights|
    ensures Budgeted(Next(s, FailFlight(i, error, base, max)))
  {
    var task := s.flights[i];
    assert task in s.flights && FlightOk(s, task);
    WithoutIsSubset(s.flights, i);
    var out := s.(flights := Without(s.flights, i));
    assert forall t :: Told(s, t) <==> Told(out, t);
    if task.attempts > task.maxRetries {
      assert DeadOk(out, Died(task, error, s.now));
    } else {
      PushedIsBudgeted(out, Retried(task, s.now, base, max));
    }
  }

  lemma StepKeepsBudget(s: State, step: Step)
    requires Conserved(s) && Budgeted(s) && Enabled(s, step)
    ensures Budgeted(Next(s, step))
  {
    var s' := Next(s, step);
    match step {
      case Enqueue(id, maxRetries, enqueuedAt, runAt) =>
        var task := Task(id, s.name, 0, maxRetries, enqueuedAt, runAt, "", None);
        assert PendingOk(s, task);
        PushedIsBudgeted(s, task);
      case ClaimNext(w) =>
        if Claim(s.q, s.now).0.Delivered? {
          DeliveryKeepsBudget(s, w);
        }
      case Succeed(i) =>
        WithoutIsSubset(s.flights, i);
        assert s.flights[i] in s.flights;
      case FailFlight(i, error, base, max) => FailureKeepsBudget(s, i, error, base, max);
      case RequeueDead(id) =>
        if IndexOf(s.q.dead, id) < |s.q.dead| {
          RevivalKeepsBudget(s, id);
        }
      case DeleteDead(id) =>
        var i := IndexOf(s.q.dead, id);
        if i < |s.q.dead| {
          WithoutIsSubset(s.q.dead, i);
          assert s.q.dead[i] in s.q.dead;
        }
      case Tick(_) =>
      case Park(_) =>
      case Unpark(_) =>
    }
  }

  lemma StepKeepsOldestFirst(s: State, step: Step)
    requires Budgeted(s) && OldestFirst(s) && Enabled(s, step)
    ensures OldestFirst(Next(s, step))
  {
    match step {
      case FailFlight(i, error, _, _) =>
        var task := s.flights[i];
        if task.attempts > task.maxRetries {
          forall j | 0 <= j < |s.q.dead| ensures DeadOk(s, s.q.dead[j]) {
            assert s.q.dead[j] in s.q.dead;
          }
        }
      case RequeueDead(id) => RemovalKeepsOldestFirst(s, id);
      case DeleteDead(id) => RemovalKeepsOldestFirst(s, id);
      case _ =>
    }
  }

  lemma RemovalKeepsOldestFirst(s: State, id: TaskId)
    requires OldestFirst(s)
    ensures var i := IndexOf(s.q.dead, id); i < |s.q.dead| ==>
              OldestFirst(s.(q := s.q.(dead := Without(s.q.dead, i))))
  {
  }

  /** The dead tasks with another identifier, in order. */
  function Others(dead: seq<Task>, id: TaskId): seq<Task> {
    if dead == [] then [] else (if dead[0].id == id then [] else [dead[0]]) + Others(dead[1..], id)
  }

  /** Removing in place the first match drops exactly that task and keeps the order of all others. */
  lemma {:induction false} RemovalIsExact(dead: seq<Task>, id: TaskId)
    requires Copies(dead, id) <= 1
    ensures Others(dead, id) ==
            if IndexOf(dead, id) < |dead| then Without(dead, IndexOf(dead, id)) else dead
  {
    if dead != [] {
      if dead[0].id == id {
        NoneToRemove(dead[1..], id);
      } else {
        RemovalIsExact(dead[1..], id);
        var i := IndexOf(dead[1..], id);
        if i < |dead[1..]| {
          assert Without(dead, i + 1) == [dead[0]] + Without(dead[1..], i);
        }
      }
    }
  }

  lemma {:induction false} NoneToRemove(dead: seq<Task>, id: TaskId)
    requires Copies(dead, id) == 0
    ensures Others(dead, id) == dead
  {
    if dead != [] {
      NoneToRemove(dead[1..], id);
    }
  }

  lemma StepKeepsInv(s: State, step: Step)
    requires Inv(s) && Enabled(s, step)
    ensures Inv(Next(s, step))
  {
    StepConserves(s, step);
    StepKeepsBudget(s, step);
    StepKeepsOldestFirst(s, step);
    StepKeepsAwake(s, step);
  }

  lemma {:induction false} InvAlways(now: int, name: string, steps: seq<Step>)
    requires Run(Start(now, name), steps).Some?
    ensures Inv(Run(Start(now, name), steps).value)
  {
    if steps != [] {
      InvAlways(now, name, steps[..|steps| - 1]);
      StepKeepsInv(Run(Start(now, name), steps[..|steps| - 1]).value, steps[|steps| - 1]);
    }
  }

  /**
   * Conservation: in every run each enqueued task is in exactly one of pending,
   * in flight, dead, succeeded and deleted, exactly once; nothing else is
   * anywhere.
   */
  lemma TasksAreConserved(now: int, name: string, steps: seq<Step>, id: TaskId)
    requires Run(Start(now, name), steps).Some?
    ensures var s := Run(Start(now, name), steps).value;
            Occurrences(s, id) == if id in s.enqueued then 1 else 0
  {
    InvAlways(now, name, steps);
    var s := Run(Start(now, name), steps).value;
    assert Conserved(s);
  }

  /** Every task still carries the name of the queue it was enqueued to. */
  lemma TasksStayInQueue(now: int, name: string, steps: seq<Step>, t: Task)
    requires Run(Start(now, name), steps).Some?
    requires var s := Run(Start(now, name), steps).value;
             || t in s.flights || t in s.q.dead || t in s.succeeded || t in s.deleted
             || exists x :: x in s.q.pending && x.task == t
    ensures t.queue == name
  {
    InvAlways(now, name, steps);
    NameStays(now, name, steps);
    var s := Run(Start(now, name), steps).value;
    assert Budgeted(s);
  }

  lemma {:induction false} NameStays(now: int, name: string, steps: seq<Step>)
    requires Run(Start(now, name), steps).Some?
    ensures Run(Start(now, name), steps).value.name == name
  {
    if steps != [] {
      NameStays(now, name, steps[..|steps| - 1]);
    }
  }

  /**
   * The retry budget: since it was enqueued or last requeued, a task was
   * delivered with attempts 1, 2, ..., k in this order, k at most maxRetries + 1;
   * whatever waits for another delivery has budget left, and whatever is dead has
   * used it up exactly. Dead tasks are listed oldest first.
   */
  lemma DeliveriesFollowBudget(now: int, name: string, steps: seq<Step>, t: Task)
    requires Run(Start(now, name), steps).Some?
    ensures var s := Run(Start(now, name), steps).value;
            && (t in s.flights + s.q.dead + s.succeeded + s.deleted || (exists x :: x in s.q.pending && x.task == t) ==>
                  Numbers(s.log, t.id) == UpTo(t.attempts) && t.attempts <= t.maxRetries + 1)
            && ((exists x :: x in s.q.pending && x.task == t) ==> t.attempts <= t.maxRetries)
            && (t in s.q.dead ==> t.attempts == t.maxRetries + 1)
            && OldestFirst(s)
  {
    InvAlways(now, name, steps);
  }

  /**
   * No lost wakeup: a parked worker whose channel is still open either saw an
   * empty heap and the heap is still empty, or its timer fires by the RunAt of
   * every pending task, late only by the time it took to start the timer.
   */
  lemma NoLostWakeup(now: int, name: string, steps: seq<Step>, w: WorkerId)
    requires Run(Start(now, name), steps).Some?
    requires var s := Run(Start(now, name), steps).value; w in s.waiters && s.waiters[w].Parked?
    ensures var s := Run(Start(now, name), steps).value;
            var x := s.waiters[w];
            || x.generation < s.q.generation
            || (x.saw.None? && s.q.pending == [])
            || (x.saw.Some? && forall i :: 0 <= i < |s.q.pending| ==>
                  && x.saw.value <= s.q.pending[i].task.runAt
                  && x.deadline <= s.q.pending[i].task.runAt + (x.started - x.at))
  {
    InvAlways(now, name, steps);
    var s := Run(Start(now, name), steps).value;
    assert NothingMissed(s, s.waiters[w]);
  }
}
