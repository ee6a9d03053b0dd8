/**
 * Cross-process wakeups of the postgres backend. Several processes share the
 * table; each has its wake channels, one LISTEN connection and its workers. A
 * NOTIFY reaches the connections that listen when it commits, and is delivered
 * later; a connection can drop at any time and lose what was in transit.
 */
module Wakeups {
  import opened Wrappers
  import opened WorkQueue
  import opened TaskTable
  import opened Scheduling
  import opened WakeChannels

  type ProcessId = nat
  type WorkerId = nat

  /** Subscribed is between LISTEN and the wake-all that follows it. */
  datatype Listener = Disconnected | Subscribed | Live

  /**
   * A worker captures its channel, claims, asks for the first run_at when the
   * claim found nothing, computes how long to wait, reaps, and starts its timer.
   * The instants at which it did so stay in its state.
   */
  datatype Worker =
    | Busy
    | Watching(queue: string, gen: nat)
    | Checked(queue: string, gen: nat, first: Option<int>)
    | Resting(queue: string, gen: nat, first: Option<int>, computed: int, wait: int)
    | Asleep(queue: string, gen: nat, first: Option<int>, computed: int, started: int, deadline: int)

  datatype Process = Process(
    gens: Generations,
    owed: seq<string>,   // local broadcasts that committed operations have yet to run
    inbox: seq<string>,  // notifications in transit to the connection
    listener: Listener,
    poll: int,
    workers: map<WorkerId, Worker>)

  /** How a pending row became pending last. */
  datatype Origin = Announced | Retried(p: ProcessId) | Recovered

  datatype State = State(now: int, table: Table, origin: map<TaskId, Origin>, procs: map<ProcessId, Process>)

  datatype Step =
    | Tick(to: int)
    | StartProcess(p: ProcessId, poll: int)
    | CrashProcess(p: ProcessId)
    | Commit(p: ProcessId, stmt: Statement)      // Enqueue, RequeueDeadTask: row and NOTIFY in one transaction
    | Retry(p: ProcessId, stmt: Statement, queue: string)
    | Recover(stmt: Statement)                   // reap
    | AnnounceRecovery(queue: string)            // the NOTIFY after a reap
    | Other(stmt: Statement)                     // claims, completions, deaths, deletes
    | RunBroadcast(p: ProcessId, i: nat)
    | Connect(p: ProcessId)
    | WakeEverything(p: ProcessId)
    | Disconnect(p: ProcessId)
    | Deliver(p: ProcessId)
    | Capture(p: ProcessId, w: WorkerId, queue: string)
    | Check(p: ProcessId, w: WorkerId, first: Option<int>)
    | Compute(p: ProcessId, w: WorkerId)
    | StartTimer(p: ProcessId, w: WorkerId)
    | Wake(p: ProcessId, w: WorkerId)
    | Work(p: ProcessId, w: WorkerId)

  function WorkerOf(proc: Process, w: WorkerId): Worker {
    if w in proc.workers then proc.workers[w] else Busy
  }

  /** A committed NOTIFY goes to every connection that listens at that moment. */
  function Notified(proc: Process, queue: string): Process {
    if proc.listener == Disconnected then proc else proc.(inbox := proc.inbox + [queue])
  }

  function NotifyAll(procs: map<ProcessId, Process>, queue: string): map<ProcessId, Process> {
    map p | p in procs :: Notified(procs[p], queue)
  }

  /** The handler of a notification; the empty payload wakes every queue. */
  function OnWake(gens: Generations, payload: string): Generations {
    if payload == "" then BroadcastEvery(gens) else Broadcast(gens, payload)
  }

  function PutWorker(s: State, p: ProcessId, w: WorkerId, worker: Worker): State
    requires p in s.procs
  {
    s.(procs := s.procs[p := s.procs[p].(workers := s.procs[p].workers[w := worker])])
  }

  function Mark(s: State, stmt: Statement, origin: Origin): map<TaskId, Origin> {
    map id | id in s.origin.Keys + Apply(stmt, s.table).Keys
      :: if Affects(stmt, id, Lookup(s.table, id)) then origin
         else if id in s.origin then s.origin[id] else Recovered
  }

  function QueueOf(stmt: Statement): string
    requires stmt.Insert? || stmt.RequeueDead?
  {
    stmt.queue
  }

  ghost predicate Enabled(s: State, step: Step) {
    match step
    case Tick(to) => s.now <= to
    case StartProcess(p, _) => p !in s.procs
    case CrashProcess(p) => p in s.procs
    case Commit(p, stmt) =>
      p in s.procs && (stmt.Insert? || stmt.RequeueDead?) && Affects(stmt, stmt.id, Lookup(s.table, stmt.id))
    case Retry(p, stmt, queue) =>
      p in s.procs && stmt.Reschedule? && (stmt.id in s.table ==> s.table[stmt.id].queue == queue)
    case Recover(stmt) => stmt.ReapExpired?
    case AnnounceRecovery(_) => true
    case Other(stmt) => stmt.ClaimRow? || stmt.MarkDead? || stmt.DeleteDead? || stmt.DeleteDone?
    case RunBroadcast(p, i) => p in s.procs && i < |s.procs[p].owed|
    case Connect(p) => p in s.procs && s.procs[p].listener == Disconnected
    case WakeEverything(p) => p in s.procs && s.procs[p].listener == Subscribed
    case Disconnect(p) => p in s.procs
    case Deliver(p) => p in s.procs && s.procs[p].listener == Live && s.procs[p].inbox != []
    case Capture(p, w, _) => p in s.procs && WorkerOf(s.procs[p], w).Busy?
    case Check(p, w, first) =>
      p in s.procs && WorkerOf(s.procs[p], w).Watching? && IsFirst(s.table, WorkerOf(s.procs[p], w).queue, first)
    case Compute(p, w) => p in s.procs && WorkerOf(s.procs[p], w).Checked?
    case StartTimer(p, w) => p in s.procs && WorkerOf(s.procs[p], w).Resting?
    case Wake(p, w) =>
      p in s.procs && WorkerOf(s.procs[p], w).Asleep?
      && (var worker := WorkerOf(s.procs[p], w);
          Closed(s.procs[p].gens, worker.queue, worker.gen) || worker.deadline <= s.now)
    case Work(p, w) => p in s.procs && WorkerOf(s.procs[p], w).Watching?
  }

  function Next(s: State, step: Step): State
    requires Enabled(s, step)
  {
    match step
    case Tick(to) => s.(now := to)
    case StartProcess(p, poll) => s.(procs := s.procs[p := Process(map[], [], [], Disconnected, poll, map[])])
    case CrashProcess(p) => s.(procs := s.procs - {p})
    case Commit(p, stmt) =>
      var procs := NotifyAll(s.procs, QueueOf(stmt));
      s.(table := Apply(stmt, s.table), origin := Mark(s, stmt, Announced),
         procs := procs[p := procs[p].(owed := procs[p].owed + [QueueOf(stmt)])])
    case Retry(p, stmt, queue) =>
      s.(table := Apply(stmt, s.table), origin := Mark(s, stmt, Retried(p)),
         procs := s.procs[p := s.procs[p].(owed := s.procs[p].owed + [queue])])
    case Recover(stmt) => s.(table := Apply(stmt, s.table), origin := Mark(s, stmt, Recovered))
    case AnnounceRecovery(queue) => s.(procs := NotifyAll(s.procs, queue))
    case Other(stmt) => s.(table := Apply(stmt, s.table))
    case RunBroadcast(p, i) =>
      var proc := s.procs[p];
      s.(procs := s.procs[p := proc.(gens := Broadcast(proc.gens, proc.owed[i]),
                                     owed := proc.owed[..i] + proc.owed[i + 1..])])
    case Connect(p) => s.(procs := s.procs[p := s.procs[p].(listener := Subscribed, inbox := [])])
    case WakeEverything(p) =>
      s.(procs := s.procs[p := s.procs[p].(listener := Live, gens := BroadcastEvery(s.procs[p].gens))])
    case Disconnect(p) => s.(procs := s.procs[p := s.procs[p].(listener := Disconnected, inbox := [])])
    case Deliver(p) =>
      var proc := s.procs[p];
      s.(procs := s.procs[p := proc.(gens := OnWake(proc.gens, proc.inbox[0]), inbox := proc.inbox[1..])])
    case Capture(p, w, queue) =>
      var (gen, gens) := Captured(s.procs[p].gens, queue);
      PutWorker(s.(procs := s.procs[p := s.procs[p].(gens := gens)]), p, w, Watching(queue, gen))
    case Check(p, w, first) =>
      var worker := WorkerOf(s.procs[p], w);
      PutWorker(s, p, w, Checked(worker.queue, worker.gen, first))
    case Compute(p, w) =>
      var worker := WorkerOf(s.procs[p], w);
      PutWorker(s, p, w, Resting(worker.queue, worker.gen, worker.first, s.now,
                                 WaitFor(worker.first, s.now, s.procs[p].poll)))
    case StartTimer(p, w) =>
      var worker := WorkerOf(s.procs[p], w);
      PutWorker(s, p, w, Asleep(worker.queue, worker.gen, worker.first, worker.computed, s.now, s.now + worker.wait))
    case Wake(p, w) => PutWorker(s, p, w, Busy)
    case Work(p, w) => PutWorker(s, p, w, Busy)
  }

  /** The state a run leads to, if each of its steps was possible. */
  ghost function Run(s: State, steps: seq<Step>): Option<State> {
    if steps == [] then Some(s)
    else
      var r := Run(s, steps[..|steps| - 1]);
      if r.Some? && Enabled(r.value, steps[|steps| - 1]) then Some(Next(r.value, steps[|steps| - 1])) else None
  }

  function Start(now: int): State { State(now, map[], map[], map[]) }

  // ---------- The invariant ----------

  /** Something that will close the channels of the queue is still to come. */
  predicate BroadcastOwed(proc: Process, queue: string) {
    queue in proc.owed || queue in proc.inbox || "" in proc.inbox || proc.listener != Live
  }

  /** The rows whose arrival the workers of process p must not miss. */
  predicate Expected(s: State, p: ProcessId, id: TaskId, queue: string) {
    && id in s.table && PendingIn(s.table[id], queue)
    && id in s.origin && (s.origin[id] == Announced || s.origin[id] == Retried(p))
  }

  predicate HasLooked(worker: Worker) { worker.Checked? || worker.Resting? || worker.Asleep? }

  /** The row was seen by the worker's query, or the worker is being woken for it. */
  predicate Accounted(s: State, p: ProcessId, worker: Worker, id: TaskId)
    requires p in s.procs && HasLooked(worker) && id in s.table
  {
    || Closed(s.procs[p].gens, worker.queue, worker.gen)
    || BroadcastOwed(s.procs[p], worker.queue)
    || (worker.first.Some? && worker.first.value <= s.table[id].runAt)
  }

  ghost predicate WorkerOk(s: State, p: ProcessId, worker: Worker)
    requires p in s.procs
  {
    && (!worker.Busy? ==> worker.queue in s.procs[p].gens && worker.gen <= s.procs[p].gens[worker.queue])
    && (HasLooked(worker) ==> forall id :: Expected(s, p, id, worker.queue) ==> Accounted(s, p, worker, id))
    && (worker.Resting? ==>
          && worker.computed <= s.now
          && worker.wait == WaitFor(worker.first, worker.computed, s.procs[p].poll))
    && (worker.Asleep? ==>
          && worker.computed <= worker.started
          && worker.deadline == worker.started + WaitFor(worker.first, worker.computed, s.procs[p].poll))
  }

  ghost predicate Inv(s: State) {
    && (forall p, w :: p in s.procs ==> WorkerOk(s, p, WorkerOf(s.procs[p], w)))
    && (forall id :: id in s.table ==> id in s.origin)
  }

  /** Rows only become pending, or change their run_at, through four statements. */
  lemma PendingBefore(stmt: Statement, table: Table, id: TaskId)
    requires id in Apply(stmt, table) && Apply(stmt, table)[id].status == Pending
    ensures || (id in table && table[id] == Apply(stmt, table)[id])
            || (Affects(stmt, id, Lookup(table, id))
                && (stmt.Insert? || stmt.RequeueDead? || stmt.Reschedule? || stmt.ReapExpired?))
  {
  }

  /** A process is at least as awake: nothing owed is lost without a channel being closed. */
  ghost predicate Wakier(a: Process, b: Process) {
    && a.poll == b.poll
    && (forall q :: q in a.gens ==> q in b.gens && a.gens[q] <= b.gens[q])
    && (forall q, gen: nat :: q in a.gens && gen <= a.gens[q] && BroadcastOwed(a, q) ==>
                         BroadcastOwed(b, q) || Closed(b.gens, q, gen))
  }

  /** A worker that does nothing stays accounted for when its process gets no less awake. */
  lemma KeepWorker(s: State, s': State, p: ProcessId, worker: Worker)
    requires p in s.procs && p in s'.procs && WorkerOk(s, p, worker) && Wakier(s.procs[p], s'.procs[p])
    requires s.now <= s'.now
    requires HasLooked(worker) ==>
               forall id :: Expected(s', p, id, worker.queue) ==>
                 || (Expected(s, p, id, worker.queue) && s'.table[id].runAt == s.table[id].runAt)
                 || BroadcastOwed(s'.procs[p], worker.queue)
    ensures WorkerOk(s', p, worker)
  {
  }

  // ---------- Steps of the channels and the connection ----------

  lemma NotifiedWakier(proc: Process, queue: string)
    ensures Wakier(proc, Notified(proc, queue))
    ensures BroadcastOwed(Notified(proc, queue), queue)
  {
  }

  lemma OwedWakier(proc: Process, queue: string)
    ensures Wakier(proc, proc.(owed := proc.owed + [queue]))
    ensures BroadcastOwed(proc.(owed := proc.owed + [queue]), queue)
  {
  }

  lemma RunBroadcastWakier(proc: Process, i: nat)
    requires i < |proc.owed|
    ensures Wakier(proc, proc.(gens := Broadcast(proc.gens, proc.owed[i]), owed := proc.owed[..i] + proc.owed[i + 1..]))
  {
  }

  lemma DeliverWakier(proc: Process)
    requires proc.inbox != []
    ensures Wakier(proc, proc.(gens := OnWake(proc.gens, proc.inbox[0]), inbox := proc.inbox[1..]))
  {
  }

  lemma WakeEverythingWakier(proc: Process)
    requires proc.listener == Subscribed
    ensures Wakier(proc, proc.(listener := Live, gens := BroadcastEvery(proc.gens)))
  {
  }

  /** Only process p changes, and it gets no less awake; the table stays. */
  lemma ProcessStep(s: State, s': State, p: ProcessId)
    requires Inv(s) && p in s.procs && p in s'.procs && s' == s.(procs := s.procs[p := s'.procs[p]])
    requires Wakier(s.procs[p], s'.procs[p]) && s'.procs[p].workers == s.procs[p].workers
    ensures Inv(s')
  {
    forall r, w | r in s'.procs
      ensures WorkerOk(s', r, WorkerOf(s'.procs[r], w))
    {
      assert WorkerOk(s, r, WorkerOf(s.procs[r], w));
      KeepWorker(s, s', r, WorkerOf(s.procs[r], w));
    }
  }

  /** One worker of p moves on; nothing else changes. */
  lemma WorkerStep(s: State, p: ProcessId, w: WorkerId, worker: Worker)
    requires Inv(s) && p in s.procs && WorkerOk(s, p, worker)
    ensures Inv(PutWorker(s, p, w, worker))
  {
    var s' := PutWorker(s, p, w, worker);
    forall r, v | r in s'.procs
      ensures WorkerOk(s', r, WorkerOf(s'.procs[r], v))
    {
      var x := if r == p && v == w then worker else WorkerOf(s.procs[r], v);
      assert WorkerOf(s'.procs[r], v) == x && WorkerOk(s, r, x);
      KeepWorker(s, s', r, x);
    }
  }

  // ---------- Steps of the table ----------

  /**
   * A statement reaches the table. Processes only get more awake, and wherever a
   * row arrives that the workers of a process must not miss, a broadcast for its
   * queue is owed there.
   */
  lemma StatementStep(s: State, s': State, stmt: Statement, origin: Origin)
    requires Inv(s) && s'.table == Apply(stmt, s.table) && s'.now == s.now && s'.procs.Keys == s.procs.Keys
    requires s'.origin == Mark(s, stmt, origin)
             || (s'.origin == s.origin && !stmt.Reschedule?
                 && KindOf(stmt) in {Claimed, Failed, Deleted, Completed})
    requires forall r :: r in s.procs ==> Wakier(s.procs[r], s'.procs[r]) && s'.procs[r].workers == s.procs[r].workers
    requires forall r, id :: r in s.procs && Affects(stmt, id, Lookup(s.table, id)) && id in s'.table
                             && s'.table[id].status == Pending && (origin == Announced || origin == Retried(r)) ==>
                             BroadcastOwed(s'.procs[r], s'.table[id].queue)
    ensures Inv(s')
  {
    forall r, w | r in s'.procs
      ensures WorkerOk(s', r, WorkerOf(s'.procs[r], w))
    {
      var worker := WorkerOf(s.procs[r], w);
      assert WorkerOk(s, r, worker);
      if HasLooked(worker) {
        forall id | Expected(s', r, id, worker.queue)
          ensures (Expected(s, r, id, worker.queue) && s'.table[id].runAt == s.table[id].runAt)
                  || BroadcastOwed(s'.procs[r], worker.queue)
        {
          PendingBefore(stmt, s.table, id);
        }
      }
      KeepWorker(s, s', r, worker);
    }
    forall id | id in s'.table ensures id in s'.origin {
      assert Lookup(s'.table, id) == ApplyRow(stmt, id, Lookup(s.table, id));
    }
  }

  lemma CommitStep(s: State, p: ProcessId, stmt: Statement)
    requires Inv(s) && Enabled(s, Commit(p, stmt))
    ensures Inv(Next(s, Commit(p, stmt)))
  {
    var s' := Next(s, Commit(p, stmt));
    forall r | r in s.procs
      ensures Wakier(s.procs[r], s'.procs[r]) && s'.procs[r].workers == s.procs[r].workers
      ensures BroadcastOwed(s'.procs[r], QueueOf(stmt))
    {
      NotifiedWakier(s.procs[r], QueueOf(stmt));
      OwedWakier(Notified(s.procs[r], QueueOf(stmt)), QueueOf(stmt));
    }
    forall id | Affects(stmt, id, Lookup(s.table, id)) && id in s'.table
      ensures s'.table[id].queue == QueueOf(stmt)
    {
      assert Lookup(s'.table, id) == ApplyRow(stmt, id, Lookup(s.table, id));
    }
    StatementStep(s, s', stmt, Announced);
  }

  lemma RetryStep(s: State, p: ProcessId, stmt: Statement, queue: string)
    requires Inv(s) && Enabled(s, Retry(p, stmt, queue))
    ensures Inv(Next(s, Retry(p, stmt, queue)))
  {
    var s' := Next(s, Retry(p, stmt, queue));
    OwedWakier(s.procs[p], queue);
    forall id | Affects(stmt, id, Lookup(s.table, id)) && id in s'.table
      ensures s'.table[id].queue == queue
    {
      assert Lookup(s'.table, id) == ApplyRow(stmt, id, Lookup(s.table, id));
    }
    StatementStep(s, s', stmt, Retried(p));
  }

  lemma AnnounceStep(s: State, queue: string)
    requires Inv(s)
    ensures Inv(s.(procs := NotifyAll(s.procs, queue)))
  {
    var s' := s.(procs := NotifyAll(s.procs, queue));
    forall r, w | r in s'.procs
      ensures WorkerOk(s', r, WorkerOf(s'.procs[r], w))
    {
      assert WorkerOk(s, r, WorkerOf(s.procs[r], w));
      NotifiedWakier(s.procs[r], queue);
      KeepWorker(s, s', r, WorkerOf(s.procs[r], w));
    }
  }

  lemma CaptureStep(s: State, p: ProcessId, w: WorkerId, queue: string)
    requires Inv(s) && Enabled(s, Capture(p, w, queue))
    ensures Inv(Next(s, Capture(p, w, queue)))
  {
    var (gen, gens) := Captured(s.procs[p].gens, queue);
    var s1 := s.(procs := s.procs[p := s.procs[p].(gens := gens)]);
    ProcessStep(s, s1, p);
    WorkerStep(s1, p, w, Watching(queue, gen));
  }

  lemma CheckStep(s: State, p: ProcessId, w: WorkerId, first: Option<int>)
    requires Inv(s) && Enabled(s, Check(p, w, first))
    ensures Inv(Next(s, Check(p, w, first)))
  {
    var worker := WorkerOf(s.procs[p], w);
    assert WorkerOk(s, p, worker);
    WorkerStep(s, p, w, Checked(worker.queue, worker.gen, first));
  }

  lemma ComputeStep(s: State, p: ProcessId, w: WorkerId)
    requires Inv(s) && Enabled(s, Compute(p, w))
    ensures Inv(Next(s, Compute(p, w)))
  {
    var worker := WorkerOf(s.procs[p], w);
    assert WorkerOk(s, p, worker);
    var worker' := Resting(worker.queue, worker.gen, worker.first, s.now,
                           WaitFor(worker.first, s.now, s.procs[p].poll));
    forall id | Expected(s, p, id, worker'.queue) ensures Accounted(s, p, worker', id) {
      assert Accounted(s, p, worker, id);
    }
    WorkerStep(s, p, w, worker');
  }

  lemma TimerStep(s: State, p: ProcessId, w: WorkerId)
    requires Inv(s) && Enabled(s, StartTimer(p, w))
    ensures Inv(Next(s, StartTimer(p, w)))
  {
    var worker := WorkerOf(s.procs[p], w);
    assert WorkerOk(s, p, worker);
    var worker' := Asleep(worker.queue, worker.gen, worker.first, worker.computed, s.now, s.now + worker.wait);
    forall id | Expected(s, p, id, worker'.queue) ensures Accounted(s, p, worker', id) {
      assert Accounted(s, p, worker, id);
    }
    WorkerStep(s, p, w, worker');
  }

  lemma TickStep(s: State, to: int)
    requires Inv(s) && s.now <= to
    ensures Inv(s.(now := to))
  {
    var s' := s.(now := to);
    forall r, w | r in s'.procs
      ensures WorkerOk(s', r, WorkerOf(s'.procs[r], w))
    {
      assert WorkerOk(s, r, WorkerOf(s.procs[r], w));
      KeepWorker(s, s', r, WorkerOf(s.procs[r], w));
    }
  }

  lemma ProcessesComeAndGo(s: State, s': State)
    requires Inv(s) && s' == s.(procs := s'.procs)
    requires forall r :: r in s'.procs ==> (r in s.procs && s'.procs[r] == s.procs[r]) || s'.procs[r].workers == map[]
    ensures Inv(s')
  {
    forall r, w | r in s'.procs
      ensures WorkerOk(s', r, WorkerOf(s'.procs[r], w))
    {
      if r in s.procs && s'.procs[r] == s.procs[r] {
        assert WorkerOk(s, r, WorkerOf(s.procs[r], w));
        KeepWorker(s, s', r, WorkerOf(s.procs[r], w));
      }
    }
  }

  lemma StepKeepsInv(s: State, step: Step)
    requires Inv(s) && Enabled(s, step)
    ensures Inv(Next(s, step))
  {
    match step {
      case Tick(to) => TickStep(s, to);
      case StartProcess(p, poll) => ProcessesComeAndGo(s, Next(s, step));
      case CrashProcess(p) => ProcessesComeAndGo(s, Next(s, step));
      case Commit(p, stmt) => CommitStep(s, p, stmt);
      case Retry(p, stmt, queue) => RetryStep(s, p, stmt, queue);
      case Recover(stmt) => StatementStep(s, Next(s, step), stmt, Recovered);
      case AnnounceRecovery(queue) => AnnounceStep(s, queue);
      case Other(stmt) => StatementStep(s, Next(s, step), stmt, Recovered);
      case RunBroadcast(p, i) =>
        RunBroadcastWakier(s.procs[p], i);
        ProcessStep(s, Next(s, step), p);
      case Connect(p) => ProcessStep(s, Next(s, step), p);
      case WakeEverything(p) =>
        WakeEverythingWakier(s.procs[p]);
        ProcessStep(s, Next(s, step), p);
      case Disconnect(p) => ProcessStep(s, Next(s, step), p);
      case Deliver(p) =>
        DeliverWakier(s.procs[p]);
        ProcessStep(s, Next(s, step), p);
      case Capture(p, w, queue) => CaptureStep(s, p, w, queue);
      case Check(p, w, first) => CheckStep(s, p, w, first);
      case Compute(p, w) => ComputeStep(s, p, w);
      case StartTimer(p, w) => TimerStep(s, p, w);
      case Wake(p, w) => WorkerStep(s, p, w, Busy);
      case Work(p, w) => WorkerStep(s, p, w, Busy);
    }
  }

  lemma {:induction false} InvAlways(now: int, steps: seq<Step>)
    requires Run(Start(now), steps).Some?
    ensures Inv(Run(Start(now), steps).value)
  {
    if steps != [] {
      InvAlways(now, steps[..|steps| - 1]);
      StepKeepsInv(Run(Start(now), steps[..|steps| - 1]).value, steps[|steps| - 1]);
    }
  }

  // ---------- No wakeup is lost ----------

  function Max(a: int, b: int): int { if a < b then b else a }

  /**
   * In every run, for every worker that sleeps after an error-free claim and
   * every pending row of its queue that an Enqueue or RequeueDeadTask of any
   * process, or a retry of its own process, put there: the worker's channel is
   * closed, or something that will close it is still owed to its process, or its
   * timer fires by the row's run_at. The timer may lag by the time between
   * computing the wait and starting the timer, and never waits less than a
   * millisecond.
   */
  lemma NoLostWakeup(now: int, steps: seq<Step>, p: ProcessId, w: WorkerId, id: TaskId)
    requires Run(Start(now), steps).Some?
    requires var s := Run(Start(now), steps).value;
             && p in s.procs && WorkerOf(s.procs[p], w).Asleep?
             && Expected(s, p, id, WorkerOf(s.procs[p], w).queue)
    ensures var s := Run(Start(now), steps).value;
            var worker := WorkerOf(s.procs[p], w);
            || Closed(s.procs[p].gens, worker.queue, worker.gen)
            || BroadcastOwed(s.procs[p], worker.queue)
            || worker.deadline <= Max(s.table[id].runAt + (worker.started - worker.computed),
                                      worker.started + MILLISECOND)
  {
    InvAlways(now, steps);
    var s := Run(Start(now), steps).value;
    var worker := WorkerOf(s.procs[p], w);
    assert WorkerOk(s, p, worker) && Accounted(s, p, worker, id);
  }

  /** The safety net: whatever was missed, no worker sleeps past its poll interval. */
  lemma PollBoundsSleep(now: int, steps: seq<Step>, p: ProcessId, w: WorkerId)
    requires Run(Start(now), steps).Some?
    requires var s := Run(Start(now), steps).value; p in s.procs && WorkerOf(s.procs[p], w).Asleep?
    ensures var s := Run(Start(now), steps).value;
            var worker := WorkerOf(s.procs[p], w);
            worker.deadline <= worker.started + Max(s.procs[p].poll, MILLISECOND)
  {
    InvAlways(now, steps);
    assert WorkerOk(Run(Start(now), steps).value, p, WorkerOf(Run(Start(now), steps).value.procs[p], w));
  }

  /** A closed channel, or a deadline that has passed, lets the worker go on. */
  lemma ClosedChannelWakes(s: State, p: ProcessId, w: WorkerId)
    requires Inv(s) && p in s.procs && WorkerOf(s.procs[p], w).Asleep?
    ensures var worker := WorkerOf(s.procs[p], w);
            && (Enabled(s, Wake(p, w)) <==>
                  Closed(s.procs[p].gens, worker.queue, worker.gen) || worker.deadline <= s.now)
            && (s.procs[p].listener == Subscribed ==> Enabled(Next(s, WakeEverything(p)), Wake(p, w)))
            && (forall i :: 0 <= i < |s.procs[p].owed| && s.procs[p].owed[i] == worker.queue ==>
                  Enabled(Next(s, RunBroadcast(p, i)), Wake(p, w)))
            && (s.procs[p].listener == Live && s.procs[p].inbox != [] && s.procs[p].inbox[0] in {worker.queue, ""} ==>
                  Enabled(Next(s, Deliver(p)), Wake(p, w)))
  {
  }
}
