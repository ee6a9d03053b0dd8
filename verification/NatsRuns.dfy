/**
 * Runs of the JetStream backend: any message that is not acknowledged can be
 * delivered again at any time, to any number of workers at once; every worker
 * and every operator can stop between any two of its requests; the server can
 * forget message IDs.
 */
module NatsRuns {
  import opened Wrappers
  import opened WorkQueue
  import opened NatsStreams
  import RetryBackoff

  type JobId = nat

  /** One delivery: the message's body was copied; the handler has yet to run, or has run. */
  datatype Job =
    | Delivered(q: Seq, e: Entry)
    | Succeeded(q: Seq, e: Entry)
    | Failed(q: Seq, e: Entry, error: string)
    | HandedOff(q: Seq, e: Entry)

  /** A requeue or a deletion of the dead entry that a scan found. */
  datatype Op =
    | Found(q: Seq, e: Entry)
    | Republished(q: Seq, e: Entry)

  /** accepted maps the tasks that Enqueue accepted to their retry budgets. */
  datatype State = State(
    now: int,
    st: Streams,
    jobs: map<JobId, Job>,
    ops: map<JobId, Op>,
    accepted: map<TaskId, nat>,
    done: set<TaskId>,
    deleted: set<TaskId>)

  datatype Step =
    | Tick(to: int)
    | Enqueue(task: Task)
    | Deliver(j: JobId, q: Seq)
    | Postpone(j: JobId)
    | HandlerOk(j: JobId)
    | HandlerErr(j: JobId, error: string)
    | Publish(j: JobId, base: RetryBackoff.int64, max: RetryBackoff.int64)
    | Ack(j: JobId)
    | DropJob(j: JobId)   // a crash, or a request that failed
    | FindDead(k: JobId, q: Seq)
    | Republish(k: JobId)
    | RemoveRequeued(k: JobId)
    | DeleteDead(k: JobId)
    | DropOp(k: JobId)
    | Forget(key: MsgId)

  predicate Enabled(s: State, step: Step) {
    match step
    case Tick(to) => s.now <= to
    case Enqueue(task) => task.id !in s.accepted && task.attempts == 0
    case Deliver(j, q) => j !in s.jobs && q in s.st.tasks
    case Postpone(j) => j in s.jobs && s.jobs[j].Delivered? && s.now < s.jobs[j].e.task.runAt
    case HandlerOk(j) => j in s.jobs && s.jobs[j].Delivered? && s.jobs[j].e.task.runAt <= s.now
    case HandlerErr(j, _) => j in s.jobs && s.jobs[j].Delivered? && s.jobs[j].e.task.runAt <= s.now
    case Publish(j, _, _) => j in s.jobs && s.jobs[j].Failed?
    case Ack(j) => j in s.jobs && (s.jobs[j].Succeeded? || s.jobs[j].HandedOff?)
    case DropJob(_) => true
    case FindDead(k, q) => k !in s.ops && q in s.st.dead
    case Republish(k) => k in s.ops && s.ops[k].Found?
    case RemoveRequeued(k) => k in s.ops && s.ops[k].Republished?
    case DeleteDead(k) => k in s.ops && s.ops[k].Found?
    case DropOp(_) => true
    case Forget(_) => true
  }

  function Next(s: State, step: Step): State
    requires Enabled(s, step)
  {
    match step
    case Tick(to) => s.(now := to)
    case Enqueue(task) => s.(st := PublishOnce(s.st, task), accepted := s.accepted[task.id := task.maxRetries])
    case Deliver(j, q) => s.(jobs := s.jobs[j := Delivered(q, s.st.tasks[q])])
    case Postpone(j) => s.(jobs := s.jobs - {j})
    case HandlerOk(j) =>
      s.(jobs := s.jobs[j := Succeeded(s.jobs[j].q, s.jobs[j].e)], done := s.done + {s.jobs[j].e.task.id})
    case HandlerErr(j, error) => s.(jobs := s.jobs[j := Failed(s.jobs[j].q, s.jobs[j].e, error)])
    case Publish(j, base, max) =>
      s.(st := HandOff(s.st, s.jobs[j].e.task, s.jobs[j].error, s.now, base, max),
         jobs := s.jobs[j := HandedOff(s.jobs[j].q, s.jobs[j].e)])
    case Ack(j) => s.(st := Acked(s.st, s.jobs[j].q), jobs := s.jobs - {j})
    case DropJob(j) => s.(jobs := s.jobs - {j})
    case FindDead(k, q) => s.(ops := s.ops[k := Found(q, s.st.dead[q])])
    case Republish(k) =>
      s.(st := PublishRequeued(s.st, Reset(s.ops[k].e.task, s.now)),
         ops := s.ops[k := Republished(s.ops[k].q, s.ops[k].e)])
    case RemoveRequeued(k) => s.(st := Removed(s.st, s.ops[k].q), ops := s.ops - {k})
    case DeleteDead(k) =>
      s.(st := Removed(s.st, s.ops[k].q), ops := s.ops - {k},
         deleted := if s.ops[k].q in s.st.dead then s.deleted + {s.ops[k].e.task.id} else s.deleted)
    case DropOp(k) => s.(ops := s.ops - {k})
    case Forget(key) => s.(st := s.st.(window := s.st.window - {key}))
  }

  function Start(now: int): State {
    State(now, Streams(map[], map[], 0, map[], map[], map[]), map[], map[], map[], {}, {})
  }

  /** The server remembers no retry of the task: its deduplication window has passed. */
  predicate WindowClear(st: Streams, id: TaskId) {
    forall key :: key in st.window && key.id == id ==> key.attempts == 0
  }

  /** The server drops the retry that a failed attempt publishes. */
  predicate Suppressed(s: State, job: Job) {
    && job.e.task.attempts + 1 <= job.e.task.maxRetries
    && MsgId(job.e.task.id, job.e.task.attempts + 1) in s.st.window
  }

  /**
   * Which steps a run may take. AnyStep: all. WindowPassed: one task is requeued
   * only when the window has passed for it. TrueDuplicates: of one task, a retry is
   * dropped only as a duplicate of one that was accepted after as many requeues as
   * the copy it came from, or more. What happens to other tasks is free.
   */
  datatype Rule = AnyStep | WindowPassed(of: TaskId) | TrueDuplicates(of: TaskId)

  predicate Allowed(s: State, step: Step, rule: Rule)
    requires Enabled(s, step)
  {
    match rule
    case AnyStep => true
    case WindowPassed(id) => step.Republish? && s.ops[step.k].e.task.id == id ==> WindowClear(s.st, id)
    case TrueDuplicates(id) =>
      step.Publish? && s.jobs[step.j].e.task.id == id && Suppressed(s, s.jobs[step.j]) ==>
        var e := s.jobs[step.j].e;
        e.gen <= s.st.window[MsgId(e.task.id, e.task.attempts + 1)]
  }

  ghost function Run(s: State, steps: seq<Step>, rule: Rule): Option<State> {
    if steps == [] then Some(s)
    else
      var r := Run(s, steps[..|steps| - 1], rule);
      var last := steps[|steps| - 1];
      if r.Some? && Enabled(r.value, last) && Allowed(r.value, last, rule) then Some(Next(r.value, last))
      else None
  }

  // ---------- What every run keeps ----------

  ghost predicate EntryOk(s: State, e: Entry) {
    && e.task.id in s.accepted && s.accepted[e.task.id] == e.task.maxRetries && e.task.id in s.st.top
    && !Below(s.st.top[e.task.id], RankOf(e)) && e.gen <= GenOf(s.st, e.task.id)
  }

  ghost predicate TaskEntryOk(s: State, e: Entry) {
    EntryOk(s, e) && e.task.attempts <= e.task.maxRetries
  }

  ghost predicate DeadEntryOk(s: State, e: Entry) {
    EntryOk(s, e) && e.task.attempts == e.task.maxRetries + 1
  }

  /** Sequence numbers are never reused, so a copy is of the message it names. */
  ghost predicate JobOk(s: State, job: Job) {
    && job.q < s.st.next && TaskEntryOk(s, job.e)
    && (job.q in s.st.tasks ==> s.st.tasks[job.q] == job.e)
    && (job.Succeeded? ==> job.e.task.id in s.done)
  }

  ghost predicate OpOk(s: State, op: Op) {
    && op.q < s.st.next && DeadEntryOk(s, op.e)
    && (op.q in s.st.dead ==> s.st.dead[op.q] == op.e)
    && (op.Republished? ==> Below(RankOf(op.e), s.st.top[op.e.task.id]))
  }

  ghost predicate StreamsOk(s: State) {
    && (forall q :: q in s.st.tasks ==> q < s.st.next && TaskEntryOk(s, s.st.tasks[q]))
    && (forall q :: q in s.st.dead ==> q < s.st.next && DeadEntryOk(s, s.st.dead[q]))
  }

  ghost predicate CopiesOk(s: State) {
    && (forall j :: j in s.jobs ==> JobOk(s, s.jobs[j]))
    && (forall k :: k in s.ops ==> OpOk(s, s.ops[k]))
  }

  ghost predicate KeyOk(s: State, key: MsgId)
    requires key in s.st.window
  {
    && key.id in s.accepted && key.attempts <= s.accepted[key.id]
    && key.id in s.st.top && s.st.window[key] <= GenOf(s.st, key.id)
    && !Below(s.st.top[key.id], Rank(s.st.window[key], key.attempts))
  }

  ghost predicate BookOk(s: State) {
    && (forall id :: id in s.accepted <==> id in s.st.top)
    && (forall id :: id in s.st.top ==> s.st.top[id].gen <= GenOf(s.st, id))
    && (forall key :: key in s.st.window ==> KeyOk(s, key))
  }

  /** What holds in every run. */
  ghost predicate Core(s: State) {
    StreamsOk(s) && CopiesOk(s) && BookOk(s)
  }

  // ---------- No task is lost ----------

  predicate LiveAt(s: State, id: TaskId, q: Seq) {
    q in s.st.tasks && s.st.tasks[q].task.id == id
  }

  predicate DeadAt(s: State, id: TaskId, q: Seq) {
    q in s.st.dead && s.st.dead[q].task.id == id
  }

  /** The task is in a stream, or was handled, or was deleted on request. */
  ghost predicate Covered(s: State, id: TaskId) {
    id in s.done || id in s.deleted || (exists q :: LiveAt(s, id, q)) || (exists q :: DeadAt(s, id, q))
  }

  /** Stronger: its most advanced copy is still in a stream. */
  ghost predicate TopCovered(s: State, id: TaskId) {
    || id in s.done || id in s.deleted
    || (id in s.st.top && exists q :: LiveAt(s, id, q) && RankOf(s.st.tasks[q]) == s.st.top[id])
    || (id in s.st.top && exists q :: DeadAt(s, id, q) && RankOf(s.st.dead[q]) == s.st.top[id])
  }

  /** The copy a worker is about to acknowledge is no longer the most advanced one. */
  ghost predicate Superseded(s: State, e: Entry) {
    e.task.id in s.st.top && Below(RankOf(e), s.st.top[e.task.id])
  }

  ghost predicate HandOffsSuperseded(s: State, id: TaskId) {
    forall j :: j in s.jobs && s.jobs[j].HandedOff? && s.jobs[j].e.task.id == id ==> Superseded(s, s.jobs[j].e)
  }

  ghost predicate Kept(s: State, id: TaskId) {
    id in s.accepted ==> TopCovered(s, id)
  }

  ghost predicate Safe(s: State, id: TaskId) {
    HandOffsSuperseded(s, id) && Kept(s, id)
  }

  // ---------- Accepting a message ----------

  /** The ranks of a task only grow. */
  ghost predicate Grows(a: Streams, b: Streams) {
    && a.next <= b.next
    && (forall id :: id in a.top ==> id in b.top && !Below(b.top[id], a.top[id]))
    && (forall id :: GenOf(a, id) <= GenOf(b, id))
  }

  ghost predicate Keeps(a: map<TaskId, nat>, b: map<TaskId, nat>) {
    forall id :: id in a ==> id in b && b[id] == a[id]
  }

  lemma EntryStaysOk(s: State, s': State, e: Entry)
    requires EntryOk(s, e) && Grows(s.st, s'.st) && Keeps(s.accepted, s'.accepted)
    ensures EntryOk(s', e)
  {
  }

  /** A step that accepts at most one message, or removes some, and changes one job or op. */
  ghost predicate Evolves(s: State, s': State) {
    && Grows(s.st, s'.st) && Keeps(s.accepted, s'.accepted) && s.done <= s'.done && s.deleted <= s'.deleted
    && (forall q :: q in s'.st.tasks && q < s.st.next ==> q in s.st.tasks && s'.st.tasks[q] == s.st.tasks[q])
    && (forall q :: q in s'.st.dead && q < s.st.next ==> q in s.st.dead && s'.st.dead[q] == s.st.dead[q])
  }

  lemma JobStaysOk(s: State, s': State, job: Job)
    requires JobOk(s, job) && Evolves(s, s')
    ensures JobOk(s', job)
  {
  }

  lemma OpStaysOk(s: State, s': State, op: Op)
    requires OpOk(s, op) && Evolves(s, s')
    ensures OpOk(s', op)
  {
  }

  /** Accepting a message: the counters and the window may change for its task only. */
  ghost predicate Accepting(s: State, s': State, st: Streams, task: Task, toDead: bool) {
    && st == s.st.(gens := st.gens, window := st.window)
    && (st.gens == s.st.gens || st.gens == s.st.gens[task.id := GenOf(s.st, task.id) + 1])
    && s'.st == (if toDead then AcceptDead(st, task) else AcceptTask(st, task))
    && s'.accepted == s.accepted[task.id := task.maxRetries]
    && (task.id in s.accepted ==> s.accepted[task.id] == task.maxRetries)
    && s'.done == s.done && s'.deleted == s.deleted
  }

  lemma AcceptEvolves(s: State, s': State, st: Streams, task: Task, toDead: bool)
    requires StreamsOk(s) && Accepting(s, s', st, task, toDead)
    ensures Evolves(s, s')
    ensures task.id in s'.st.top && !Below(s'.st.top[task.id], Rank(GenOf(st, task.id), task.attempts))
  {
  }

  lemma AcceptKeepsStreams(s: State, s': State, st: Streams, task: Task, toDead: bool)
    requires StreamsOk(s) && Accepting(s, s', st, task, toDead)
    requires if toDead then task.attempts == task.maxRetries + 1 else task.attempts <= task.maxRetries
    ensures StreamsOk(s')
  {
    AcceptEvolves(s, s', st, task, toDead);
    forall q | q in s'.st.tasks ensures q < s'.st.next && TaskEntryOk(s', s'.st.tasks[q]) {
      if q in s.st.tasks {
        EntryStaysOk(s, s', s.st.tasks[q]);
      }
    }
    forall q | q in s'.st.dead ensures q < s'.st.next && DeadEntryOk(s', s'.st.dead[q]) {
      if q in s.st.dead {
        EntryStaysOk(s, s', s.st.dead[q]);
      }
    }
  }

  lemma AcceptKeepsKey(s: State, s': State, st: Streams, task: Task, toDead: bool, key: MsgId)
    requires StreamsOk(s) && Accepting(s, s', st, task, toDead) && key in st.window
    requires task.id in s'.st.top && !Below(s'.st.top[task.id], Rank(GenOf(st, task.id), task.attempts))
    requires if key in s.st.window && st.window[key] == s.st.window[key] then KeyOk(s, key)
             else key == MsgId(task.id, task.attempts) && st.window[key] == GenOf(st, task.id)
                  && task.attempts <= task.maxRetries
    ensures KeyOk(s', key)
  {
  }

  lemma AcceptKeepsBook(s: State, s': State, st: Streams, task: Task, toDead: bool)
    requires StreamsOk(s) && BookOk(s) && Accepting(s, s', st, task, toDead)
    requires st.window == s.st.window || st.window == s.st.window[MsgId(task.id, task.attempts) := GenOf(st, task.id)]
    requires st.window == s.st.window || task.attempts <= task.maxRetries
    ensures BookOk(s')
  {
    AcceptEvolves(s, s', st, task, toDead);
    forall id | id in s'.st.top ensures s'.st.top[id].gen <= GenOf(s'.st, id) {
      assert GenOf(s.st, id) <= GenOf(s'.st, id);
    }
    forall key | key in s'.st.window ensures KeyOk(s', key) {
      assert key in s.st.window ==> KeyOk(s, key);
      AcceptKeepsKey(s, s', st, task, toDead, key);
    }
  }

  /** Workers and operators that do nothing keep consistent copies. */
  lemma CopiesStayOk(s: State, s': State)
    requires CopiesOk(s) && Evolves(s, s')
    requires forall j :: j in s'.jobs ==> (j in s.jobs && s'.jobs[j] == s.jobs[j]) || JobOk(s', s'.jobs[j])
    requires forall k :: k in s'.ops ==> (k in s.ops && s'.ops[k] == s.ops[k]) || OpOk(s', s'.ops[k])
    ensures CopiesOk(s')
  {
    forall j | j in s'.jobs ensures JobOk(s', s'.jobs[j]) {
      if j in s.jobs && s'.jobs[j] == s.jobs[j] {
        JobStaysOk(s, s', s.jobs[j]);
      }
    }
    forall k | k in s'.ops ensures OpOk(s', s'.ops[k]) {
      if k in s.ops && s'.ops[k] == s.ops[k] {
        OpStaysOk(s, s', s.ops[k]);
      }
    }
  }

  /** A step that accepts nothing: messages may go, the window may shrink. */
  ghost predicate OnlyRemoves(s: State, s': State) {
    && s'.st.gens == s.st.gens && s'.st.top == s.st.top && s'.st.next == s.st.next
    && s'.accepted == s.accepted && s.done <= s'.done && s.deleted <= s'.deleted
    && (forall q :: q in s'.st.tasks ==> q in s.st.tasks && s'.st.tasks[q] == s.st.tasks[q])
    && (forall q :: q in s'.st.dead ==> q in s.st.dead && s'.st.dead[q] == s.st.dead[q])
    && (forall key :: key in s'.st.window ==> key in s.st.window && s'.st.window[key] == s.st.window[key])
  }

  lemma RemovalKeepsBook(s: State, s': State)
    requires BookOk(s) && OnlyRemoves(s, s')
    ensures BookOk(s')
  {
  }

  lemma RemovalKeepsStreams(s: State, s': State)
    requires StreamsOk(s) && OnlyRemoves(s, s')
    ensures StreamsOk(s')
  {
  }

  lemma QuietKeepsCore(s: State, s': State)
    requires Core(s) && OnlyRemoves(s, s')
    requires forall j :: j in s'.jobs ==> (j in s.jobs && s'.jobs[j] == s.jobs[j]) || JobOk(s', s'.jobs[j])
    requires forall k :: k in s'.ops ==> (k in s.ops && s'.ops[k] == s.ops[k]) || OpOk(s', s'.ops[k])
    ensures Core(s') && Evolves(s, s')
  {
    RemovalKeepsBook(s, s');
    RemovalKeepsStreams(s, s');
    assert Evolves(s, s');
    CopiesStayOk(s, s');
  }

  /** What a hand-off sends: the streams as the server prepares them, and the message. */
  datatype Outgoing = Outgoing(st: Streams, task: Task, toDead: bool)

  function OutgoingOf(s: State, job: Job, base: RetryBackoff.int64, max: RetryBackoff.int64): Outgoing
    requires job.Failed?
  {
    var task := job.e.task;
    if task.attempts + 1 > task.maxRetries then Outgoing(s.st, Dying(task, job.error, s.now), true)
    else
      var retrying := Retrying(task, job.error, s.now, base, max);
      Outgoing(s.st.(window := s.st.window[MsgId(task.id, task.attempts + 1) := GenOf(s.st, task.id)]), retrying, false)
  }

  /** A hand-off is either dropped by the server or accepted as one more message. */
  lemma PublishShape(s: State, j: JobId, base: RetryBackoff.int64, max: RetryBackoff.int64)
    requires Enabled(s, Publish(j, base, max)) && JobOk(s, s.jobs[j])
    ensures var s' := Next(s, Publish(j, base, max));
            var out := OutgoingOf(s, s.jobs[j], base, max);
            && out.task.id == s.jobs[j].e.task.id && out.task.attempts == s.jobs[j].e.task.attempts + 1
            && (if out.toDead then out.task.attempts == out.task.maxRetries + 1
                else out.task.attempts <= out.task.maxRetries)
            && (out.st.window == s.st.window
                || (!out.toDead
                    && out.st.window
                       == s.st.window[MsgId(out.task.id, out.task.attempts) := GenOf(out.st, out.task.id)]))
            && (if Suppressed(s, s.jobs[j]) then s'.st == s.st else Accepting(s, s', out.st, out.task, out.toDead))
  {
  }

  lemma PublishKeepsCore(s: State, j: JobId, base: RetryBackoff.int64, max: RetryBackoff.int64)
    requires Core(s) && Enabled(s, Publish(j, base, max))
    ensures var s' := Next(s, Publish(j, base, max)); Core(s') && Evolves(s, s')
  {
    var s' := Next(s, Publish(j, base, max));
    var job := HandedOff(s.jobs[j].q, s.jobs[j].e);
    assert JobOk(s, s.jobs[j]) && JobOk(s, job);
    PublishShape(s, j, base, max);
    if Suppressed(s, s.jobs[j]) {
      JobSameStreams(s, s', job);
      QuietKeepsCore(s, s');
    } else {
      var out := OutgoingOf(s, s.jobs[j], base, max);
      AcceptAll(s, s', out.st, out.task, out.toDead);
      JobStaysOk(s, s', job);
      CopiesStayOk(s, s');
    }
  }

  lemma JobSameStreams(s: State, s': State, job: Job)
    requires JobOk(s, job) && s'.st == s.st && s'.accepted == s.accepted && s'.done == s.done
    ensures JobOk(s', job)
  {
  }

  lemma AcceptAll(s: State, s': State, st: Streams, task: Task, toDead: bool)
    requires StreamsOk(s) && BookOk(s) && Accepting(s, s', st, task, toDead)
    requires if toDead then task.attempts == task.maxRetries + 1 else task.attempts <= task.maxRetries
    requires st.window == s.st.window
             || (!toDead && st.window == s.st.window[MsgId(task.id, task.attempts) := GenOf(st, task.id)])
    ensures StreamsOk(s') && BookOk(s') && Evolves(s, s')
    ensures task.id in s'.st.top && !Below(s'.st.top[task.id], Rank(GenOf(st, task.id), task.attempts))
  {
    AcceptEvolves(s, s', st, task, toDead);
    AcceptKeepsStreams(s, s', st, task, toDead);
    AcceptKeepsBook(s, s', st, task, toDead);
  }

  lemma EnqueueKeepsCore(s: State, task: Task)
    requires Core(s) && Enabled(s, Enqueue(task))
    ensures var s' := Next(s, Enqueue(task)); Core(s') && Evolves(s, s')
  {
    var s' := Next(s, Enqueue(task));
    AcceptAll(s, s', s.st.(window := s.st.window[MsgId(task.id, 0) := GenOf(s.st, task.id)]), task, false);
    CopiesStayOk(s, s');
  }

  lemma RepublishKeepsCore(s: State, k: JobId)
    requires Core(s) && Enabled(s, Republish(k))
    ensures var s' := Next(s, Republish(k)); Core(s') && Evolves(s, s')
  {
    var s' := Next(s, Republish(k));
    var e := s.ops[k].e;
    assert OpOk(s, s.ops[k]);
    AcceptAll(s, s', s.st.(gens := s.st.gens[e.task.id := GenOf(s.st, e.task.id) + 1]), Reset(e.task, s.now), false);
    OpStaysOk(s, s', s.ops[k]);
    CopiesStayOk(s, s');
  }

  lemma JobStepKeepsCore(s: State, step: Step)
    requires Core(s) && Enabled(s, step)
    requires step.Deliver? || step.Postpone? || step.HandlerOk? || step.HandlerErr? || step.Ack? || step.DropJob?
    ensures Core(Next(s, step)) && Evolves(s, Next(s, step))
  {
    var s' := Next(s, step);
    if step.HandlerOk? || step.HandlerErr? {
      assert JobOk(s, s.jobs[step.j]);
    }
    QuietKeepsCore(s, s');
  }

  lemma StepKeepsCore(s: State, step: Step)
    requires Core(s) && Enabled(s, step)
    ensures Core(Next(s, step)) && Evolves(s, Next(s, step))
  {
    match step {
      case Enqueue(task) => EnqueueKeepsCore(s, task);
      case Publish(j, base, max) => PublishKeepsCore(s, j, base, max);
      case Republish(k) => RepublishKeepsCore(s, k);
      case Deliver(_, _) => JobStepKeepsCore(s, step);
      case Postpone(_) => JobStepKeepsCore(s, step);
      case HandlerOk(_) => JobStepKeepsCore(s, step);
      case HandlerErr(_, _) => JobStepKeepsCore(s, step);
      case Ack(_) => JobStepKeepsCore(s, step);
      case DropJob(_) => JobStepKeepsCore(s, step);
      case _ => QuietKeepsCore(s, Next(s, step));
    }
  }

  // ---------- Keeping the most advanced copy ----------

  /** Accepting a message covers its task if it is the most advanced, and uncovers nobody. */
  lemma AcceptKeepsCovered(s: State, s': State, st: Streams, task: Task, toDead: bool, id: TaskId)
    requires StreamsOk(s) && BookOk(s) && Accepting(s, s', st, task, toDead)
    requires id in s.accepted ==> TopCovered(s, id)
    requires id in s'.accepted
    ensures TopCovered(s', id)
  {
    var q := s.st.next;
    if id == task.id && s'.st.top[id] == Rank(GenOf(st, id), task.attempts) {
      assert if toDead then DeadAt(s', id, q) else LiveAt(s', id, q);
    } else {
      assert id in s.accepted && s'.st.top[id] == s.st.top[id];
      if r :| LiveAt(s, id, r) && RankOf(s.st.tasks[r]) == s.st.top[id] {
        assert LiveAt(s', id, r) && RankOf(s'.st.tasks[r]) == s'.st.top[id];
      } else if r :| DeadAt(s, id, r) && RankOf(s.st.dead[r]) == s.st.top[id] {
        assert DeadAt(s', id, r) && RankOf(s'.st.dead[r]) == s'.st.top[id];
      }
    }
  }

  /** A step that accepts nothing and removes only copies that are superseded or settled. */
  lemma QuietKeepsCovered(s: State, s': State, id: TaskId)
    requires TopCovered(s, id) && s'.st.top == s.st.top && s.done <= s'.done && s.deleted <= s'.deleted
    requires id in s.st.top
    requires forall q :: LiveAt(s, id, q) && id !in s'.done && RankOf(s.st.tasks[q]) == s.st.top[id] ==>
                         q in s'.st.tasks && s'.st.tasks[q] == s.st.tasks[q]
    requires forall q :: DeadAt(s, id, q) && id !in s'.deleted && RankOf(s.st.dead[q]) == s.st.top[id] ==>
                         q in s'.st.dead && s'.st.dead[q] == s.st.dead[q]
    ensures TopCovered(s', id)
  {
  }

  /** After a hand-off, accepted or suppressed, the copy it came from is superseded. */
  lemma HandOffSupersedes(s: State, j: JobId, base: RetryBackoff.int64, max: RetryBackoff.int64, id: TaskId)
    requires Enabled(s, Publish(j, base, max)) && Allowed(s, Publish(j, base, max), TrueDuplicates(id))
    requires s.jobs[j].e.task.id == id
    requires StreamsOk(s) && BookOk(s) && JobOk(s, s.jobs[j])
    ensures Superseded(Next(s, Publish(j, base, max)), s.jobs[j].e)
  {
    PublishShape(s, j, base, max);
    if Suppressed(s, s.jobs[j]) {
      assert KeyOk(s, MsgId(s.jobs[j].e.task.id, s.jobs[j].e.task.attempts + 1));
    } else {
      var out := OutgoingOf(s, s.jobs[j], base, max);
      AcceptEvolves(s, Next(s, Publish(j, base, max)), out.st, out.task, out.toDead);
    }
  }

  lemma HandOffsStaySuperseded(s: State, s': State, id: TaskId)
    requires HandOffsSuperseded(s, id) && Evolves(s, s')
    requires forall i :: i in s'.jobs && s'.jobs[i].HandedOff? && s'.jobs[i].e.task.id == id ==>
                         (i in s.jobs && s'.jobs[i] == s.jobs[i]) || Superseded(s', s'.jobs[i].e)
    ensures HandOffsSuperseded(s', id)
  {
  }

  lemma AcceptKeepsKept(s: State, s': State, id: TaskId, st: Streams, task: Task, toDead: bool)
    requires StreamsOk(s) && BookOk(s) && Kept(s, id) && Accepting(s, s', st, task, toDead)
    ensures Kept(s', id)
  {
    if id in s'.accepted {
      AcceptKeepsCovered(s, s', st, task, toDead, id);
    }
  }

  lemma PublishKeepsCovered(s: State, j: JobId, base: RetryBackoff.int64, max: RetryBackoff.int64, id: TaskId)
    requires Enabled(s, Publish(j, base, max)) && Kept(s, id)
    requires StreamsOk(s) && BookOk(s) && JobOk(s, s.jobs[j])
    ensures Kept(Next(s, Publish(j, base, max)), id)
  {
    var s' := Next(s, Publish(j, base, max));
    PublishShape(s, j, base, max);
    if Suppressed(s, s.jobs[j]) {
      if id in s'.accepted {
        QuietKeepsCovered(s, s', id);
      }
    } else {
      var out := OutgoingOf(s, s.jobs[j], base, max);
      AcceptKeepsKept(s, s', id, out.st, out.task, out.toDead);
    }
  }

  lemma PublishKeepsHandOffs(s: State, j: JobId, base: RetryBackoff.int64, max: RetryBackoff.int64, id: TaskId)
    requires Core(s) && HandOffsSuperseded(s, id)
    requires Enabled(s, Publish(j, base, max)) && Allowed(s, Publish(j, base, max), TrueDuplicates(id))
    ensures HandOffsSuperseded(Next(s, Publish(j, base, max)), id)
  {
    assert JobOk(s, s.jobs[j]);
    PublishKeepsCore(s, j, base, max);
    if s.jobs[j].e.task.id == id {
      HandOffSupersedes(s, j, base, max, id);
    }
    HandOffsStaySuperseded(s, Next(s, Publish(j, base, max)), id);
  }

  lemma PublishKeepsSafe(s: State, j: JobId, base: RetryBackoff.int64, max: RetryBackoff.int64, id: TaskId)
    requires Core(s) && Safe(s, id)
    requires Enabled(s, Publish(j, base, max)) && Allowed(s, Publish(j, base, max), TrueDuplicates(id))
    ensures Safe(Next(s, Publish(j, base, max)), id)
  {
    assert JobOk(s, s.jobs[j]);
    PublishKeepsHandOffs(s, j, base, max, id);
    PublishKeepsCovered(s, j, base, max, id);
  }

  lemma EnqueueKeepsSafe(s: State, task: Task, id: TaskId)
    requires Core(s) && Safe(s, id) && Enabled(s, Enqueue(task))
    ensures Safe(Next(s, Enqueue(task)), id)
  {
    var s' := Next(s, Enqueue(task));
    EnqueueKeepsCore(s, task);
    HandOffsStaySuperseded(s, s', id);
    AcceptKeepsKept(s, s', id, s.st.(window := s.st.window[MsgId(task.id, 0) := GenOf(s.st, task.id)]), task, false);
  }

  lemma RepublishKeepsCovered(s: State, k: JobId, id: TaskId)
    requires Core(s) && Kept(s, id) && Enabled(s, Republish(k))
    ensures Kept(Next(s, Republish(k)), id)
  {
    var e := s.ops[k].e;
    assert OpOk(s, s.ops[k]);
    assert s.accepted[e.task.id := e.task.maxRetries] == s.accepted;
    AcceptKeepsKept(s, Next(s, Republish(k)), id, s.st.(gens := s.st.gens[e.task.id := GenOf(s.st, e.task.id) + 1]),
                          Reset(e.task, s.now), false);
  }

  lemma RepublishKeepsSafe(s: State, k: JobId, id: TaskId)
    requires Core(s) && Safe(s, id) && Enabled(s, Republish(k))
    ensures Safe(Next(s, Republish(k)), id)
  {
    RepublishKeepsCore(s, k);
    RepublishKeepsCovered(s, k, id);
    HandOffsStaySuperseded(s, Next(s, Republish(k)), id);
  }

  lemma AckKeepsCovered(s: State, j: JobId, id: TaskId)
    requires Core(s) && Safe(s, id) && Enabled(s, Ack(j)) && id in s.accepted
    ensures TopCovered(Next(s, Ack(j)), id)
  {
    assert JobOk(s, s.jobs[j]) && TopCovered(s, id);
    QuietKeepsCovered(s, Next(s, Ack(j)), id);
  }

  lemma RemovalKeepsCovered(s: State, step: Step, id: TaskId)
    requires Core(s) && Kept(s, id) && Enabled(s, step)
    requires (step.RemoveRequeued? || step.DeleteDead?) && id in s.accepted
    ensures TopCovered(Next(s, step), id)
  {
    assert OpOk(s, s.ops[step.k]) && TopCovered(s, id);
    QuietKeepsCovered(s, Next(s, step), id);
  }

  predicate Quiet(step: Step) { !step.Enqueue? && !step.Publish? && !step.Republish? }

  lemma QuietStepKeepsCovered(s: State, step: Step, id: TaskId)
    requires Core(s) && Safe(s, id) && Enabled(s, step) && Quiet(step) && id in s.accepted
    ensures TopCovered(Next(s, step), id)
  {
    if step.Ack? {
      AckKeepsCovered(s, step.j, id);
    } else if step.RemoveRequeued? || step.DeleteDead? {
      RemovalKeepsCovered(s, step, id);
    } else {
      QuietKeepsCovered(s, Next(s, step), id);
    }
  }

  /** Acknowledging, deleting and everything that only reads. */
  lemma QuietStepKeepsSafe(s: State, step: Step, id: TaskId)
    requires Core(s) && Safe(s, id) && Enabled(s, step) && Quiet(step)
    ensures Safe(Next(s, step), id)
  {
    var s' := Next(s, step);
    assert Evolves(s, s') by { StepKeepsCore(s, step); }
    HandOffsStaySuperseded(s, s', id);
    if id in s'.accepted {
      QuietStepKeepsCovered(s, step, id);
    }
  }

  lemma StepKeepsSafe(s: State, step: Step, id: TaskId)
    requires Core(s) && Safe(s, id) && Enabled(s, step) && Allowed(s, step, TrueDuplicates(id))
    ensures Safe(Next(s, step), id)
  {
    match step {
      case Enqueue(task) => EnqueueKeepsSafe(s, task, id);
      case Publish(j, base, max) => PublishKeepsSafe(s, j, base, max, id);
      case Republish(k) => RepublishKeepsSafe(s, k, id);
      case _ => QuietStepKeepsSafe(s, step, id);
    }
  }

  lemma EvolvesTransitive(a: State, b: State, c: State)
    requires Evolves(a, b) && Evolves(b, c)
    ensures Evolves(a, c)
  {
  }

  lemma {:induction false} RunsKeepCore(s: State, more: seq<Step>, rule: Rule)
    requires Core(s) && Run(s, more, rule).Some?
    ensures Core(Run(s, more, rule).value) && Evolves(s, Run(s, more, rule).value)
  {
    if more != [] {
      var init := more[..|more| - 1];
      RunsKeepCore(s, init, rule);
      var middle := Run(s, init, rule).value;
      StepKeepsCore(middle, more[|more| - 1]);
      EvolvesTransitive(s, middle, Next(middle, more[|more| - 1]));
    }
  }

  lemma {:induction false} RunsKeepSafe(s: State, more: seq<Step>, id: TaskId)
    requires Core(s) && Safe(s, id) && Run(s, more, TrueDuplicates(id)).Some?
    ensures Safe(Run(s, more, TrueDuplicates(id)).value, id)
  {
    if more != [] {
      var init := more[..|more| - 1];
      RunsKeepSafe(s, init, id);
      RunsKeepCore(s, init, TrueDuplicates(id));
      StepKeepsSafe(Run(s, init, TrueDuplicates(id)).value, more[|more| - 1], id);
    }
  }

  /**
   * No loss: if an Enqueue accepted a task, and the server drops only true
   * duplicates of it, then in every run, whatever crashes, redeliveries, repeated
   * hand-offs and failed requests it contains, the task is still in one of the
   * streams, or a handler returned nil for it, or its dead entry was deleted on
   * request. Even its most advanced copy is there.
   */
  lemma NoTaskIsLost(now: int, steps: seq<Step>, id: TaskId)
    requires Run(Start(now), steps, TrueDuplicates(id)).Some?
    ensures var s := Run(Start(now), steps, TrueDuplicates(id)).value;
            id in s.accepted ==> Covered(s, id) && TopCovered(s, id)
  {
    RunsKeepSafe(Start(now), steps, id);
    var s := Run(Start(now), steps, TrueDuplicates(id)).value;
    if id in s.accepted {
      assert TopCovered(s, id);
    }
  }

  /**
   * The budget under redelivery, in every run: however often messages are
   * delivered again, duplicated or postponed, whatever waits in the tasks stream
   * has an attempt left, and whatever is dead has used exactly maxRetries + 1.
   */
  lemma BudgetAlways(now: int, steps: seq<Step>, q: Seq)
    requires Run(Start(now), steps, AnyStep).Some?
    ensures var st := Run(Start(now), steps, AnyStep).value.st;
            && (q in st.tasks ==> st.tasks[q].task.attempts <= st.tasks[q].task.maxRetries)
            && (q in st.dead ==> st.dead[q].task.attempts == st.dead[q].task.maxRetries + 1)
  {
    RunsKeepCore(Start(now), steps, AnyStep);
  }

  // ---------- What a caller can do about it ----------

  /** A remembered retry was accepted after the last requeue of its task. */
  ghost predicate WindowCurrent(st: Streams, id: TaskId) {
    forall key :: key in st.window && key.id == id && key.attempts > 0 ==> st.window[key] == GenOf(st, id)
  }

  lemma PublishKeepsWindow(s: State, j: JobId, base: RetryBackoff.int64, max: RetryBackoff.int64, id: TaskId)
    requires Enabled(s, Publish(j, base, max)) && WindowCurrent(s.st, id)
    ensures WindowCurrent(Next(s, Publish(j, base, max)).st, id)
  {
  }

  lemma RepublishKeepsWindow(s: State, k: JobId, id: TaskId)
    requires Enabled(s, Republish(k)) && Allowed(s, Republish(k), WindowPassed(id)) && WindowCurrent(s.st, id)
    ensures WindowCurrent(Next(s, Republish(k)).st, id)
  {
  }

  lemma StepKeepsWindow(s: State, step: Step, id: TaskId)
    requires Enabled(s, step) && Allowed(s, step, WindowPassed(id)) && WindowCurrent(s.st, id)
    ensures WindowCurrent(Next(s, step).st, id)
  {
    match step {
      case Publish(j, base, max) => PublishKeepsWindow(s, j, base, max, id);
      case Republish(k) => RepublishKeepsWindow(s, k, id);
      case _ =>
    }
  }

  /** When its requeues wait for the window, the server drops nothing but true duplicates of a task. */
  lemma {:induction false} WaitingMakesDuplicatesTrue(s: State, more: seq<Step>, id: TaskId)
    requires Core(s) && WindowCurrent(s.st, id) && Run(s, more, WindowPassed(id)).Some?
    ensures Run(s, more, TrueDuplicates(id)) == Run(s, more, WindowPassed(id))
    ensures WindowCurrent(Run(s, more, WindowPassed(id)).value.st, id)
  {
    if more != [] {
      var init, last := more[..|more| - 1], more[|more| - 1];
      WaitingMakesDuplicatesTrue(s, init, id);
      var middle := Run(s, init, WindowPassed(id)).value;
      assert Core(middle) by { RunsKeepCore(s, init, WindowPassed(id)); }
      assert last.Publish? ==> JobOk(middle, middle.jobs[last.j]);
      StepKeepsWindow(middle, last, id);
    }
  }

  /** So a task whose requeues all wait is not lost. */
  lemma WaitingLosesNoTask(now: int, steps: seq<Step>, id: TaskId)
    requires Run(Start(now), steps, WindowPassed(id)).Some?
    ensures var s := Run(Start(now), steps, WindowPassed(id)).value;
            id in s.accepted ==> Covered(s, id)
  {
    WaitingMakesDuplicatesTrue(Start(now), steps, id);
    NoTaskIsLost(now, steps, id);
  }
}
