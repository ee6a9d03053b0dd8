/**
 * The two JetStream streams of a queue, and the operations on them. Bodies of
 * messages are tasks; retry bookkeeping is in the body, not in delivery counts.
 */
module NatsStreams {
  import opened Wrappers
  import opened WorkQueue
  import RetryBackoff

  type Seq = nat

  /** The deduplication ID of a retry names the task and the attempt, not the requeue. */
  datatype MsgId = MsgId(id: TaskId, attempts: nat)

  /** A stored message; gen is bookkeeping: the requeues of the task accepted before it. */
  datatype Entry = Entry(task: Task, gen: nat)

  datatype Rank = Rank(gen: nat, attempts: nat)

  predicate Below(a: Rank, b: Rank) {
    a.gen < b.gen || (a.gen == b.gen && a.attempts < b.attempts)
  }

  function RankOf(e: Entry): Rank { Rank(e.gen, e.task.attempts) }

  /**
   * tasks has work-queue retention, dead keeps its entries until deleted. window
   * holds the message IDs the server still remembers, with the gen at which each
   * was accepted. gens counts accepted requeues, top is the greatest rank ever
   * accepted for a task; no operation depends on these two.
   */
  datatype Streams = Streams(
    tasks: map<Seq, Entry>,
    dead: map<Seq, Entry>,
    next: Seq,
    window: map<MsgId, nat>,
    gens: map<TaskId, nat>,
    top: map<TaskId, Rank>)

  function GenOf(st: Streams, id: TaskId): nat {
    if id in st.gens then st.gens[id] else 0
  }

  function Raised(st: Streams, e: Entry): map<TaskId, Rank> {
    if e.task.id in st.top && !Below(st.top[e.task.id], RankOf(e)) then st.top
    else st.top[e.task.id := RankOf(e)]
  }

  function AcceptTask(st: Streams, task: Task): Streams {
    var e := Entry(task, GenOf(st, task.id));
    st.(tasks := st.tasks[st.next := e], next := st.next + 1, top := Raised(st, e))
  }

  function AcceptDead(st: Streams, task: Task): Streams {
    var e := Entry(task, GenOf(st, task.id));
    st.(dead := st.dead[st.next := e], next := st.next + 1, top := Raised(st, e))
  }

  /** A publish that carries a message ID: the server drops it if it remembers the ID. */
  function PublishOnce(st: Streams, task: Task): Streams {
    var key := MsgId(task.id, task.attempts);
    if key in st.window then st
    else AcceptTask(st.(window := st.window[key := GenOf(st, task.id)]), task)
  }

  /** The publish of a requeue carries no message ID. */
  function PublishRequeued(st: Streams, task: Task): Streams {
    AcceptTask(st.(gens := st.gens[task.id := GenOf(st, task.id) + 1]), task)
  }

  function Acked(st: Streams, q: Seq): Streams { st.(tasks := st.tasks - {q}) }

  function Removed(st: Streams, q: Seq): Streams { st.(dead := st.dead - {q}) }

  /** The task as the failed attempt leaves it in memory. */
  function Dying(task: Task, error: string, now: int): Task {
    task.(attempts := task.attempts + 1, lastError := error, diedAt := Some(now))
  }

  function Retrying(task: Task, error: string, now: int, base: RetryBackoff.int64, max: RetryBackoff.int64): Task {
    task.(attempts := task.attempts + 1, lastError := error,
          runAt := now + RetryBackoff.Delay(base, max, task.attempts + 1))
  }

  /** What a failed attempt publishes before it acknowledges the message it came from. */
  function HandOff(st: Streams, task: Task, error: string, now: int, base: RetryBackoff.int64, max: RetryBackoff.int64)
    : Streams
  {
    if task.attempts + 1 > task.maxRetries then AcceptDead(st, Dying(task, error, now))
    else PublishOnce(st, Retrying(task, error, now, base, max))
  }

  function Reset(task: Task, now: int): Task {
    task.(attempts := 0, lastError := "", diedAt := None, runAt := now)
  }

  // ---------- The operations of one process ----------

  /** Faults of the network, one flag a request: a failed request has no effect. */
  datatype Faults = Faults(publish: bool, ack: bool)

  datatype Handled = Postponed | LeftForRedelivery | Finished

  /** What handling one delivery does to the streams when nothing interferes. */
  function HandledStreams(st: Streams, q: Seq, body: Task, now: int, failure: Option<string>, faults: Faults,
                          base: RetryBackoff.int64, max: RetryBackoff.int64): Streams
  {
    if now < body.runAt then st
    else if failure.None? then if faults.ack then st else Acked(st, q)
    else if faults.publish then st
    else
      var handed := HandOff(st, body, failure.value, now, base, max);
      if faults.ack then handed else Acked(handed, q)
  }

  /** The server and the two streams of a queue, without the bookkeeping of the model. */
  class Broker {
    var tasks: map<Seq, Task>
    var dead: map<Seq, Task>
    var next: Seq
    var window: set<MsgId>
    ghost var model: Streams

    ghost predicate Valid()
      reads this
    {
      && tasks == (map q | q in model.tasks :: model.tasks[q].task)
      && dead == (map q | q in model.dead :: model.dead[q].task)
      && next == model.next && window == model.window.Keys
    }

    constructor ()
      ensures Valid() && model == Streams(map[], map[], 0, map[], map[], map[])
    {
      tasks, dead, next, window := map[], map[], 0, {};
      model := Streams(map[], map[], 0, map[], map[], map[]);
    }

    /** Publishes to the tasks subject, with or without a message ID. */
    method PublishTask(task: Task, msgId: Option<MsgId>, ghost requeue: bool)
      requires Valid()
      requires msgId == if requeue then None else Some(MsgId(task.id, task.attempts))
      modifies this
      ensures Valid() && model == if requeue then PublishRequeued(old(model), task) else PublishOnce(old(model), task)
      ensures dead == old(dead)
      ensures if msgId.Some? && msgId.value in old(window)
              then tasks == old(tasks) && next == old(next) && window == old(window)
              else && tasks == old(tasks)[old(next) := task] && next == old(next) + 1
                   && window == if msgId.Some? then old(window) + {msgId.value} else old(window)
    {
      if msgId.Some? && msgId.value in window {
        return;
      }
      model := if requeue then PublishRequeued(model, task) else PublishOnce(model, task);
      if msgId.Some? {
        window := window + {msgId.value};
      }
      tasks := tasks[next := task];
      next := next + 1;
    }

    method PublishDead(task: Task)
      requires Valid()
      modifies this
      ensures Valid() && model == AcceptDead(old(model), task)
      ensures dead == old(dead)[old(next) := task] && next == old(next) + 1
      ensures tasks == old(tasks) && window == old(window)
    {
      model := AcceptDead(model, task);
      dead := dead[next := task];
      next := next + 1;
    }

    method Ack(q: Seq)
      requires Valid()
      modifies this
      ensures Valid() && model == Acked(old(model), q)
      ensures tasks == old(tasks) - {q} && dead == old(dead) && next == old(next) && window == old(window)
    {
      model := Acked(model, q);
      tasks := tasks - {q};
    }

    method DeleteMsg(q: Seq) returns (outcome: Outcome)
      requires Valid()
      modifies this
      ensures Valid() && model == Removed(old(model), q)
      ensures dead == old(dead) - {q} && tasks == old(tasks) && next == old(next) && window == old(window)
      ensures outcome == Ok <==> q in old(dead)
    {
      outcome := if q in dead then Ok else ErrTaskNotFound;
      model := Removed(model, q);
      dead := dead - {q};
    }

    /** None is a publish that failed; otherwise the task as the caller gets it is the one stored. */
    method Enqueue(id: TaskId, queue: string, maxRetries: nat, now: int, runAt: int, fails: bool)
      returns (task: Option<Task>)
      requires Valid()
      modifies this
      ensures Valid() && dead == old(dead)
      ensures task == if fails then None
                      else Some(Task(id := id, queue := queue, attempts := 0, maxRetries := maxRetries,
                                     enqueuedAt := now, runAt := runAt, lastError := "", diedAt := None))
      ensures model == if task.None? then old(model) else PublishOnce(old(model), task.value)
      ensures task.None? || MsgId(id, 0) in old(window) ==>
                tasks == old(tasks) && next == old(next) && window == old(window)
      ensures task.Some? && MsgId(id, 0) !in old(window) ==>
                && tasks == old(tasks)[old(next) := task.value] && next == old(next) + 1
                && window == old(window) + {MsgId(id, 0)}
    {
      if fails {
        return None;
      }
      var t := Task(id, queue, 0, maxRetries, now, runAt, "", None);
      PublishTask(t, Some(MsgId(id, 0)), false);
      return Some(t);
    }

    /** Publishes the retry of a task whose attempt has been counted. */
    method PublishRetry(ghost body: Task, task: Task, error: string, now: int,
                        base: RetryBackoff.int64, max: RetryBackoff.int64)
      requires Valid() && task == body.(attempts := body.attempts + 1) && task.attempts < 0x8000_0000_0000_0000
      modifies this
      ensures Valid() && model == PublishOnce(old(model), Retrying(body, error, now, base, max))
      ensures dead == old(dead) && window == old(window) + {MsgId(task.id, task.attempts)}
      ensures MsgId(task.id, task.attempts) in old(window) ==> tasks == old(tasks) && next == old(next)
      ensures MsgId(task.id, task.attempts) !in old(window) ==>
                && next == old(next) + 1
                && tasks == old(tasks)[old(next) := task.(lastError := error,
                                         runAt := now + RetryBackoff.Delay(base, max, task.attempts))]
    {
      var delay, _ := RetryBackoff.Compute(base, max, task.attempts as RetryBackoff.int64);
      var retry := task.(lastError := error, runAt := now + delay as int);
      assert retry == Retrying(body, error, now, base, max);
      PublishTask(retry, Some(MsgId(retry.id, retry.attempts)), false);
    }

    /** One delivery of message q, whose body was read when it was delivered. */
    method HandleMsg(q: Seq, body: Task, now: int, failure: Option<string>, faults: Faults,
                     base: RetryBackoff.int64, max: RetryBackoff.int64)
      returns (handled: Handled)
      requires Valid() && body.attempts + 1 < 0x8000_0000_0000_0000
      modifies this
      ensures Valid() && model == HandledStreams(old(model), q, body, now, failure, faults, base, max)
      ensures now < body.runAt || (failure.Some? && faults.publish) ==>
                tasks == old(tasks) && dead == old(dead) && next == old(next) && window == old(window)
      ensures body.runAt <= now && failure.None? ==>
                && tasks == (if faults.ack then old(tasks) else old(tasks) - {q})
                && dead == old(dead) && next == old(next) && window == old(window)
      ensures body.runAt <= now && failure.Some? && !faults.publish && body.attempts >= body.maxRetries ==>
                && dead == old(dead)[old(next) := body.(attempts := body.attempts + 1, lastError := failure.value,
                                                        diedAt := Some(now))]
                && tasks == (if faults.ack then old(tasks) else old(tasks) - {q})
                && next == old(next) + 1 && window == old(window)
      ensures body.runAt <= now && failure.Some? && !faults.publish && body.attempts < body.maxRetries ==>
                var key := MsgId(body.id, body.attempts + 1);
                var retry := body.(attempts := body.attempts + 1, lastError := failure.value,
                                   runAt := now + RetryBackoff.Delay(base, max, body.attempts + 1));
                var stored := if key in old(window) then old(tasks) else old(tasks)[old(next) := retry];
                && tasks == (if faults.ack then stored else stored - {q})
                && dead == old(dead) && window == old(window) + {key}
                && next == if key in old(window) then old(next) else old(next) + 1
      ensures handled == Postponed <==> now < body.runAt
      ensures handled == LeftForRedelivery <==> body.runAt <= now && failure.Some? && faults.publish
      ensures handled == Finished && !faults.ack ==> q !in tasks
    {
      if body.runAt > now {
        return Postponed;
      }
      var task := body.(attempts := body.attempts + 1);
      if failure.None? {
        if !faults.ack {
          Ack(q);
        }
        return Finished;
      }
      if faults.publish {
        return LeftForRedelivery;
      }
      if task.attempts > task.maxRetries {
        PublishDead(task.(lastError := failure.value, diedAt := Some(now)));
      } else {
        PublishRetry(body, task, failure.value, now, base, max);
      }
      if !faults.ack {
        Ack(q);
      }
      return Finished;
    }

    /**
     * found is the dead entry the scan located, if any. Publish first, then delete; None is an
     * error of one of the two requests, and not found means that the entry was gone by then.
     */
    method RequeueDeadTask(found: Option<(Seq, Task)>, now: int, faults: Faults) returns (outcome: Option<Outcome>)
      requires Valid()
      modifies this
      ensures Valid()
      ensures found.None? ==> outcome == Some(ErrTaskNotFound) && model == old(model)
      ensures found.Some? && faults.publish ==> outcome == None && model == old(model)
      ensures found.Some? && !faults.publish ==>
                model == var st := PublishRequeued(old(model), Reset(found.value.1, now));
                         if faults.ack then st else Removed(st, found.value.0)
      ensures found.None? || faults.publish ==>
                tasks == old(tasks) && dead == old(dead) && next == old(next) && window == old(window)
      ensures found.Some? && !faults.publish ==>
                && tasks == old(tasks)[old(next) := found.value.1.(attempts := 0, lastError := "", diedAt := None,
                                                                   runAt := now)]
                && next == old(next) + 1 && window == old(window)
                && dead == if faults.ack then old(dead) else old(dead) - {found.value.0}
      ensures found.Some? ==> (outcome == None <==> faults.publish || faults.ack)
      ensures outcome == Some(Ok) <==>
                found.Some? && !faults.publish && !faults.ack && found.value.0 in old(dead)
    {
      if found.None? {
        return Some(ErrTaskNotFound);
      }
      if faults.publish {
        return None;
      }
      var task := found.value.1.(attempts := 0, lastError := "", diedAt := None, runAt := now);
      PublishTask(task, None, true);
      if faults.ack {
        return None;
      }
      var deleted := DeleteMsg(found.value.0);
      return Some(deleted);
    }
  }
}
