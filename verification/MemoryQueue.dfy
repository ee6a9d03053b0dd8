/**
 * One queue of the in-memory backend: the operations under its mutex, first on
 * values and then as methods on the heap, the dead slice and the counters.
 */
module MemoryQueue {
  import opened Wrappers
  import opened WorkQueue
  import opened MemoryHeap
  import RetryBackoff
  import DeadListing

  /**
   * pending is the heap's content in order; number counts pushes; generation
   * counts broadcasts, so a channel captured at generation g is closed as soon as
   * the generation is greater.
   */
  datatype Queue = Queue(pending: seq<Item>, number: nat, dead: seq<Task>, generation: nat)

  datatype ClaimResult =
    | Empty
    | NotDue(runAt: int)
    | Delivered(task: Task)

  function Push(q: Queue, task: Task): Queue {
    Queue(InsertSorted(q.pending, Item(task, q.number + 1)), q.number + 1, q.dead, q.generation + 1)
  }

  function Claim(q: Queue, now: int): (ClaimResult, Queue) {
    if q.pending == [] then (Empty, q)
    else
      var next := q.pending[0].task;
      if next.runAt > now then (NotDue(next.runAt), q)
      else (Delivered(next.(attempts := next.attempts + 1)), q.(pending := q.pending[1..]))
  }

  function Retried(task: Task, now: int, base: RetryBackoff.int64, max: RetryBackoff.int64): Task {
    task.(runAt := now + RetryBackoff.Delay(base, max, task.attempts))
  }

  function Died(task: Task, error: string, now: int): Task {
    task.(lastError := error, diedAt := Some(now))
  }

  function Revived(task: Task, now: int): Task {
    task.(attempts := 0, lastError := "", diedAt := None, runAt := now)
  }

  function Fail(q: Queue, task: Task, error: string, now: int, base: RetryBackoff.int64, max: RetryBackoff.int64): Queue
  {
    if task.attempts > task.maxRetries then q.(dead := q.dead + [Died(task, error, now)])
    else Push(q, Retried(task, now, base, max))
  }

  /** The position of the first dead task with this identifier, or the length. */
  function IndexOf(dead: seq<Task>, id: TaskId): (i: nat)
    ensures i <= |dead|
    ensures i < |dead| ==> dead[i].id == id
    ensures forall j :: 0 <= j < i ==> dead[j].id != id
  {
    if dead == [] || dead[0].id == id then 0 else 1 + IndexOf(dead[1..], id)
  }

  /** The dead task at i is the first with this identifier. */
  predicate IsFirstOf(dead: seq<Task>, id: TaskId, i: int) {
    0 <= i < |dead| && dead[i].id == id && forall j :: 0 <= j < i ==> dead[j].id != id
  }

  /** The list without the element at i; the others keep their order. */
  function Without(dead: seq<Task>, i: nat): seq<Task>
    requires i < |dead|
  {
    dead[..i] + dead[i + 1..]
  }

  function Requeue(q: Queue, id: TaskId, now: int): (Outcome, Queue) {
    var i := IndexOf(q.dead, id);
    if i == |q.dead| then (ErrTaskNotFound, q)
    else (Ok, Push(q.(dead := Without(q.dead, i)), Revived(q.dead[i], now)))
  }

  function Delete(q: Queue, id: TaskId): (Outcome, Queue) {
    var i := IndexOf(q.dead, id);
    if i == |q.dead| then (ErrTaskNotFound, q) else (Ok, q.(dead := Without(q.dead, i)))
  }

  /** The pushes so far used exactly the numbers up to number. */
  ghost predicate InOrder(pending: seq<Item>, number: nat) {
    Sorted(pending) && forall i :: 0 <= i < |pending| ==> pending[i].number <= number
  }

  ghost predicate Ordered(q: Queue) {
    InOrder(q.pending, q.number)
  }

  lemma InsertKeepsInOrder(pending: seq<Item>, number: nat, task: Task)
    requires InOrder(pending, number)
    ensures Fresh(pending, number + 1) && InOrder(InsertSorted(pending, Item(task, number + 1)), number + 1)
  {
    var x := Item(task, number + 1);
    InsertKeepsSorted(pending, x);
    InsertAdds(pending, x);
    var r := InsertSorted(pending, x);
    forall i | 0 <= i < |r| ensures r[i].number <= number + 1 {
      assert r[i] in r;
    }
  }

  lemma PushKeepsOrdered(q: Queue, task: Task)
    requires Ordered(q)
    ensures Ordered(Push(q, task))
  {
    InsertKeepsInOrder(q.pending, q.number, task);
  }

  /** The task that is pushed is the task that waits, under the next number. */
  lemma PushAdds(q: Queue, task: Task)
    ensures multiset(Push(q, task).pending) == multiset(q.pending) + multiset{Item(task, Push(q, task).number)}
    ensures Push(q, task).number == q.number + 1
  {
    InsertAdds(q.pending, Item(task, q.number + 1));
  }

  /**
   * A claim delivers a task exactly when one is due, and then the one with the
   * least (RunAt, push number): no pending task is due earlier, and none with the
   * same RunAt was pushed before it.
   */
  lemma ClaimIsLeast(q: Queue, now: int)
    requires Ordered(q)
    ensures var (r, q') := Claim(q, now);
            && (r.Delivered? <==> exists i :: 0 <= i < |q.pending| && q.pending[i].task.runAt <= now)
            && (r.Delivered? ==>
                  && r.task == q.pending[0].task.(attempts := q.pending[0].task.attempts + 1)
                  && q'.pending == q.pending[1..]
                  && forall i :: 0 < i < |q.pending| ==>
                       || q.pending[0].task.runAt < q.pending[i].task.runAt
                       || (q.pending[0].task.runAt == q.pending[i].task.runAt
                          && q.pending[0].number < q.pending[i].number))
            && (r.NotDue? ==> now < r.runAt && forall i :: 0 <= i < |q.pending| ==> r.runAt <= q.pending[i].task.runAt)
            && (r.Empty? <==> q.pending == [])
  {
  }

  /** How long a worker waits on an empty queue: one minute. */
  const IDLE_WAIT: int := 60 * RetryBackoff.SECOND as int

  function WaitOf(saw: Option<int>, at: int): int {
    if saw.None? then IDLE_WAIT else saw.value - at
  }

  class QueueState {
    const pending: PendingHeap
    var number: nat
    var dead: seq<Task>
    var generation: nat

    ghost function Value(): Queue
      reads this, pending
    {
      Queue(pending.queue, number, dead, generation)
    }

    ghost predicate Valid()
      reads this, pending, pending.items
    {
      pending.Valid() && Ordered(Value())
    }

    constructor ()
      ensures Valid() && fresh(pending) && fresh(pending.items) && Value() == Queue([], 0, [], 0)
    {
      pending := new PendingHeap();
      number, dead, generation := 0, [], 0;
    }

    /** Closes the notify channel and puts a new one in its place. */
    method Broadcast()
      requires Valid()
      modifies `generation
      ensures Valid() && generation == old(generation) + 1
      ensures Value() == old(Value()).(generation := generation)
    {
      generation := generation + 1;
    }

    method PushTask(task: Task)
      requires Valid()
      modifies this, pending, pending.items
      ensures Valid() && Value() == Push(old(Value()), task)
      ensures multiset(pending.queue) == multiset(old(pending.queue)) + multiset{Item(task, number)}
      ensures number == old(number) + 1 && generation == old(generation) + 1
      ensures dead == old(dead)
      ensures pending.items == old(pending.items) || fresh(pending.items)
    {
      ghost var before := Value();
      PushAdds(before, task);
      PushItem(task);
      Broadcast();
      assert Value() == Push(before, task);
    }

    method PushItem(task: Task)
      requires Valid()
      modifies `number, pending, pending.items
      ensures Valid() && number == old(number) + 1
      ensures pending.queue == InsertSorted(old(pending.queue), Item(task, number))
      ensures pending.items == old(pending.items) || fresh(pending.items)
    {
      InsertKeepsInOrder(pending.queue, number, task);
      number := number + 1;
      pending.Push(Item(task, number));
    }

    method Enqueue(id: TaskId, name: string, maxRetries: nat, now: int, runAt: int) returns (copy: Task)
      requires Valid()
      modifies this, pending, pending.items
      ensures Valid() && Value() == Push(old(Value()), copy)
      ensures copy == Task(id := id, queue := name, attempts := 0, maxRetries := maxRetries, enqueuedAt := now,
                           runAt := runAt, lastError := "", diedAt := None)
      ensures multiset(pending.queue) == multiset(old(pending.queue)) + multiset{Item(copy, number)}
      ensures number == old(number) + 1 && generation == old(generation) + 1
      ensures dead == old(dead)
      ensures pending.items == old(pending.items) || fresh(pending.items)
    {
      copy := Task(id, name, 0, maxRetries, now, runAt, "", None);
      PushTask(copy);
    }

    /** The wait, and the channel of the generation, are for a worker that gets no task. */
    method ClaimTask(now: int) returns (result: ClaimResult, wait: int, channel: nat)
      requires Valid()
      modifies pending, pending.items
      ensures Valid() && (result, Value()) == Claim(old(Value()), now)
      ensures old(pending.queue) == [] ==>
                result == Empty && wait == 60 * RetryBackoff.SECOND as int && pending.queue == old(pending.queue)
      ensures old(pending.queue) != [] ==>
                var head := old(pending.queue)[0].task;
                if now < head.runAt
                then result == NotDue(head.runAt) && wait == head.runAt - now && pending.queue == old(pending.queue)
                else result == Delivered(head.(attempts := head.attempts + 1)) && wait == 0
                     && pending.queue == old(pending.queue)[1..]
      ensures !result.Delivered? ==> wait == WaitOf(if result.NotDue? then Some(result.runAt) else None, now)
      ensures channel == generation
      ensures pending.items == old(pending.items)
    {
      channel := generation;
      result, wait := Look(now);
      if result.Delivered? {
        var head := TakeHead();
      }
    }

    /** What a claim will say, before it takes anything. */
    method Look(now: int) returns (result: ClaimResult, wait: int)
      requires Valid()
      ensures result == Claim(Value(), now).0
      ensures pending.queue == [] ==> result == Empty && wait == IDLE_WAIT
      ensures pending.queue != [] ==>
                var head := pending.queue[0].task;
                if now < head.runAt then result == NotDue(head.runAt) && wait == head.runAt - now
                else result == Delivered(head.(attempts := head.attempts + 1)) && wait == 0
    {
      var empty := pending.IsEmpty();
      if empty {
        return Empty, IDLE_WAIT;
      }
      var next := pending.Peek();
      if next.task.runAt > now {
        return NotDue(next.task.runAt), next.task.runAt - now;
      }
      return Delivered(next.task.(attempts := next.task.attempts + 1)), 0;
    }

    method TakeHead() returns (head: Item)
      requires Valid() && pending.queue != []
      modifies pending, pending.items
      ensures Valid() && head == old(pending.queue)[0] && pending.queue == old(pending.queue)[1..]
      ensures pending.items == old(pending.items)
    {
      head := pending.Pop();
    }

    method Bury(task: Task, error: string, now: int)
      requires Valid()
      modifies `dead
      ensures Valid() && Value() == old(Value()).(dead := old(dead) + [Died(task, error, now)])
      ensures dead == old(dead) + [task.(lastError := error, diedAt := Some(now))]
    {
      dead := dead + [task.(lastError := error, diedAt := Some(now))];
      assert Ordered(old(Value()));
    }

    method Retry(task: Task, now: int, base: RetryBackoff.int64, max: RetryBackoff.int64)
      requires Valid() && task.attempts < 0x8000_0000_0000_0000
      modifies this, pending, pending.items
      ensures Valid() && Value() == Push(old(Value()), Retried(task, now, base, max))
      ensures multiset(pending.queue) == multiset(old(pending.queue))
                + multiset{Item(task.(runAt := now + RetryBackoff.Delay(base, max, task.attempts)), number)}
      ensures number == old(number) + 1 && generation == old(generation) + 1 && dead == old(dead)
      ensures pending.items == old(pending.items) || fresh(pending.items)
    {
      var delay, _ := RetryBackoff.Compute(base, max, task.attempts as RetryBackoff.int64);
      var retry := task.(runAt := now + delay as int);
      assert retry == Retried(task, now, base, max);
      PushTask(retry);
    }

    method Complete(task: Task, failure: Option<string>, now: int, base: RetryBackoff.int64, max: RetryBackoff.int64)
      requires Valid() && task.attempts < 0x8000_0000_0000_0000
      modifies this, pending, pending.items
      ensures Valid()
      ensures Value() == if failure.None? then old(Value()) else Fail(old(Value()), task, failure.value, now, base, max)
      ensures failure.None? || task.attempts > task.maxRetries ==>
                pending.queue == old(pending.queue) && number == old(number) && generation == old(generation)
      ensures failure.None? || task.attempts <= task.maxRetries ==> dead == old(dead)
      ensures failure.Some? && task.attempts > task.maxRetries ==>
                dead == old(dead) + [task.(lastError := failure.value, diedAt := Some(now))]
      ensures failure.Some? && task.attempts <= task.maxRetries ==>
                && multiset(pending.queue) == multiset(old(pending.queue))
                     + multiset{Item(task.(runAt := now + RetryBackoff.Delay(base, max, task.attempts)), number)}
                && number == old(number) + 1 && generation == old(generation) + 1
      ensures pending.items == old(pending.items) || fresh(pending.items)
    {
      if failure.None? {
        return;
      }
      if task.attempts > task.maxRetries {
        Bury(task, failure.value, now);
      } else {
        Retry(task, now, base, max);
      }
    }

    /** The loop over the dead slice. */
    method Find(id: TaskId) returns (i: nat)
      ensures i == IndexOf(dead, id)
    {
      i := 0;
      while i < |dead|
        invariant 0 <= i <= |dead|
        invariant IndexOf(dead, id) == i + IndexOf(dead[i..], id)
      {
        if dead[i].id == id {
          return;
        }
        assert dead[i..][1..] == dead[i + 1..];
        i := i + 1;
      }
    }

    /** Removes the dead task at i in place. */
    method Unlist(id: TaskId, i: nat) returns (task: Task)
      requires Valid() && i == IndexOf(dead, id) && i < |dead|
      modifies `dead
      ensures Valid() && task == old(dead)[i] && IsFirstOf(old(dead), id, i)
      ensures dead == old(dead)[..i] + old(dead)[i + 1..] && Value() == old(Value()).(dead := dead)
    {
      task := dead[i];
      dead := dead[..i] + dead[i + 1..];
    }

    method RequeueDeadTask(id: TaskId, now: int) returns (outcome: Outcome)
      requires Valid()
      modifies this, pending, pending.items
      ensures Valid() && (outcome, Value()) == Requeue(old(Value()), id, now)
      ensures outcome == ErrTaskNotFound <==> forall i :: 0 <= i < |old(dead)| ==> old(dead)[i].id != id
      ensures outcome == ErrTaskNotFound ==>
                dead == old(dead) && pending.queue == old(pending.queue) && generation == old(generation)
      ensures outcome == Ok ==>
                exists i :: && IsFirstOf(old(dead), id, i)
                            && dead == old(dead)[..i] + old(dead)[i + 1..]
                            && multiset(pending.queue) == multiset(old(pending.queue)) + multiset{
                                 Item(old(dead)[i].(attempts := 0, lastError := "", diedAt := None, runAt := now),
                                      number)}
                            && number == old(number) + 1 && generation == old(generation) + 1
      ensures pending.items == old(pending.items) || fresh(pending.items)
    {
      var i := Find(id);
      if i == |dead| {
        return ErrTaskNotFound;
      }
      var task := Unlist(id, i);
      PushTask(task.(attempts := 0, lastError := "", diedAt := None, runAt := now));
      return Ok;
    }

    method DeleteDeadTask(id: TaskId) returns (outcome: Outcome)
      requires Valid()
      modifies `dead
      ensures Valid() && (outcome, Value()) == Delete(old(Value()), id)
      ensures outcome == ErrTaskNotFound <==> forall i :: 0 <= i < |old(dead)| ==> old(dead)[i].id != id
      ensures outcome == ErrTaskNotFound ==> dead == old(dead)
      ensures outcome == Ok ==>
                exists i :: && IsFirstOf(old(dead), id, i)
                            && dead == old(dead)[..i] + old(dead)[i + 1..]
    {
      var i := Find(id);
      if i == |dead| {
        return ErrTaskNotFound;
      }
      var task := Unlist(id, i);
      return Ok;
    }

    method ListDeadTasks(limit: RetryBackoff.int64, offset: RetryBackoff.int64)
      returns (listed: DeadListing.Listed<Task>)
      requires |dead| <= DeadListing.MAX_INT64
      ensures listed == DeadListing.Panic <==> DeadListing.Overflows(|dead|, limit, offset)
      ensures listed != DeadListing.Panic ==>
                listed == DeadListing.Tasks(DeadListing.Page(dead, offset as int, limit as int))
    {
      listed := DeadListing.SlicePage(dead, limit, offset);
    }
  }
}
