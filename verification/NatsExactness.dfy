/**
 * When exactly it is safe to requeue a dead task on JetStream: the task survives
 * every further run whose requeues wait for the window if and only if the server
 * remembers no retry of it.
 */
module NatsExactness {
  import opened Wrappers
  import opened WorkQueue
  import opened NatsStreams
  import opened NatsRuns
  import RetryBackoff

  lemma Extend(s0: State, steps: seq<Step>, rule: Rule, s: State, step: Step) returns (steps': seq<Step>, s': State)
    requires Run(s0, steps, rule) == Some(s) && Enabled(s, step) && !step.Republish? && !rule.TrueDuplicates?
    ensures s' == Next(s, step) && steps' == steps + [step] && Run(s0, steps', rule) == Some(s')
  {
    s', steps' := Next(s, step), steps + [step];
    assert steps'[..|steps'| - 1] == steps;
  }

  /** State s once worker j has handled its delivery as HandleMsg does. */
  function HandledBy(s: State, j: JobId, failure: Option<string>, faults: Faults,
                     base: RetryBackoff.int64, max: RetryBackoff.int64): State
    requires j in s.jobs
  {
    var job := s.jobs[j];
    s.(st := HandledStreams(s.st, job.q, job.e.task, s.now, failure, faults, base, max),
       jobs := s.jobs - {j},
       done := if job.e.task.runAt <= s.now && failure.None? then s.done + {job.e.task.id} else s.done)
  }

  /** After the hand-off: the message is acknowledged, unless that request fails. */
  lemma EndOfHandOff(s0: State, steps: seq<Step>, rule: Rule, s: State, j: JobId, ackFails: bool)
    returns (steps': seq<Step>, s': State)
    requires Run(s0, steps, rule) == Some(s) && !rule.TrueDuplicates? && j in s.jobs && s.jobs[j].HandedOff?
    ensures s' == s.(st := if ackFails then s.st else Acked(s.st, s.jobs[j].q), jobs := s.jobs - {j})
    ensures Run(s0, steps', rule) == Some(s')
  {
    steps', s' := Extend(s0, steps, rule, s, if ackFails then DropJob(j) else Ack(j));
  }

  lemma PublishingIsARun(s0: State, steps: seq<Step>, rule: Rule, s: State, j: JobId, ackFails: bool,
                         base: RetryBackoff.int64, max: RetryBackoff.int64, handed: Streams)
    returns (steps': seq<Step>, s': State)
    requires Run(s0, steps, rule) == Some(s) && !rule.TrueDuplicates? && j in s.jobs && s.jobs[j].Failed?
    requires handed == HandOff(s.st, s.jobs[j].e.task, s.jobs[j].error, s.now, base, max)
    ensures s' == s.(st := if ackFails then handed else Acked(handed, s.jobs[j].q), jobs := s.jobs - {j})
    ensures Run(s0, steps', rule) == Some(s')
  {
    var published;
    steps', published := Extend(s0, steps, rule, s, Publish(j, base, max));
    steps', s' := EndOfHandOff(s0, steps', rule, published, j, ackFails);
    assert s'.jobs == s.jobs - {j};
  }

  lemma FailingIsARun(s0: State, steps: seq<Step>, rule: Rule, s: State, j: JobId, error: string,
                      faults: Faults, base: RetryBackoff.int64, max: RetryBackoff.int64)
    returns (steps': seq<Step>, s': State)
    requires Run(s0, steps, rule) == Some(s) && !rule.TrueDuplicates? && j in s.jobs && s.jobs[j].Delivered?
    requires s.jobs[j].e.task.runAt <= s.now
    ensures s' == HandledBy(s, j, Some(error), faults, base, max) && Run(s0, steps', rule) == Some(s')
  {
    var failed;
    steps', failed := Extend(s0, steps, rule, s, HandlerErr(j, error));
    if faults.publish {
      steps', s' := Extend(s0, steps', rule, failed, DropJob(j));
    } else {
      var handed := HandOff(s.st, s.jobs[j].e.task, error, s.now, base, max);
      steps', s' := PublishingIsARun(s0, steps', rule, failed, j, faults.ack, base, max, handed);
    }
    assert s'.jobs == s.jobs - {j};
  }

  /** What HandleMsg does to the streams is a run of single steps, whatever fails on the way. */
  lemma HandlingIsARun(s0: State, steps: seq<Step>, rule: Rule, s: State, j: JobId, failure: Option<string>,
                       faults: Faults, base: RetryBackoff.int64, max: RetryBackoff.int64)
    returns (steps': seq<Step>, s': State)
    requires Run(s0, steps, rule) == Some(s) && !rule.TrueDuplicates? && j in s.jobs && s.jobs[j].Delivered?
    ensures s' == HandledBy(s, j, failure, faults, base, max) && Run(s0, steps', rule) == Some(s')
  {
    if s.now < s.jobs[j].e.task.runAt {
      steps', s' := Extend(s0, steps, rule, s, Postpone(j));
    } else if failure.Some? {
      steps', s' := FailingIsARun(s0, steps, rule, s, j, failure.value, faults, base, max);
    } else {
      steps', s' := Extend(s0, steps, rule, s, HandlerOk(j));
      steps', s' := Extend(s0, steps', rule, s', if faults.ack then DropJob(j) else Ack(j));
    }
    assert s'.jobs == s.jobs - {j};
  }

  function Later(a: int, b: int): int { if a < b then b else a }

  /** What is left of state s after message q was delivered once more and failed. */
  function FailedOnce(s: State, q: Seq): State
    requires q in s.st.tasks
  {
    var task := s.st.tasks[q].task;
    var at := Later(s.now, task.runAt);
    s.(now := at, st := Acked(HandOff(s.st, task, "e", at, 1, 1), q))
  }

  /** Nothing prevents a message from being delivered, failing, and being handed off. */
  lemma FailOnce(s0: State, steps: seq<Step>, rule: Rule, s: State, q: Seq) returns (steps': seq<Step>, s': State)
    requires Run(s0, steps, rule) == Some(s) && q in s.st.tasks && !rule.TrueDuplicates?
    ensures s' == FailedOnce(s, q) && Run(s0, steps', rule) == Some(s')
  {
    var j := SomeUnused(s.jobs.Keys);
    assert j !in s.jobs;
    steps', s' := Extend(s0, steps, rule, s, Deliver(j, q));
    steps', s' := Extend(s0, steps', rule, s', Tick(Later(s.now, s.st.tasks[q].task.runAt)));
    steps', s' := HandlingIsARun(s0, steps', rule, s', j, Some("e"), Faults(false, false), 1, 1);
    assert s'.jobs == s.jobs;
  }

  // ---------- Copies that keep a task ----------

  /** A worker that handed this message off has yet to acknowledge it. */
  ghost predicate AboutToGo(s: State, q: Seq) {
    exists j :: j in s.jobs && s.jobs[j].HandedOff? && s.jobs[j].q == q
  }

  /** An operator that requeued this dead entry has yet to delete it. */
  ghost predicate AboutToBeRemoved(s: State, q: Seq) {
    exists k :: k in s.ops && s.ops[k].Republished? && s.ops[k].q == q
  }

  /** No retry of the task that the server remembers is beyond this attempt. */
  predicate AheadOfWindow(st: Streams, id: TaskId, attempts: nat) {
    forall key :: key in st.window && key.id == id ==> key.attempts <= attempts
  }

  /** A waiting message whose next retry the server cannot take for a duplicate. */
  ghost predicate Anchor(s: State, id: TaskId, q: Seq) {
    LiveAt(s, id, q) && !AboutToGo(s, q) && AheadOfWindow(s.st, id, s.st.tasks[q].task.attempts)
  }

  ghost predicate DeadAnchor(s: State, id: TaskId, q: Seq) {
    DeadAt(s, id, q) && !AboutToBeRemoved(s, q)
  }

  ghost predicate Secure(s: State, id: TaskId) {
    || id in s.done || id in s.deleted
    || (exists q :: Anchor(s, id, q)) || (exists q :: DeadAnchor(s, id, q))
  }

  lemma CopyIsAccepted(s: State, id: TaskId, q: Seq)
    requires Core(s) && (LiveAt(s, id, q) || DeadAt(s, id, q))
    ensures id in s.accepted && q < s.st.next
  {
    assert q in s.st.tasks && LiveAt(s, id, q) ==> TaskEntryOk(s, s.st.tasks[q]);
    assert q in s.st.dead && DeadAt(s, id, q) ==> DeadEntryOk(s, s.st.dead[q]);
  }

  /** A new message stored under the next sequence number has nobody about to remove it. */
  lemma NewMessageIsFree(s: State, s': State)
    requires Core(s)
    requires forall j :: j in s'.jobs && s'.jobs[j].HandedOff? ==>
                           exists i :: i in s.jobs && s.jobs[i].q == s'.jobs[j].q
    requires forall k :: k in s'.ops && s'.ops[k].Republished? ==>
                           exists i :: i in s.ops && s.ops[i].q == s'.ops[k].q
    ensures !AboutToGo(s', s.st.next) && !AboutToBeRemoved(s', s.st.next)
  {
    forall i | i in s.jobs ensures s.jobs[i].q < s.st.next {
      assert JobOk(s, s.jobs[i]);
    }
    forall i | i in s.ops ensures s.ops[i].q < s.st.next {
      assert OpOk(s, s.ops[i]);
    }
  }

  /** A retry that the server does not drop, or a death, is an anchor once it is stored. */
  lemma PublishMakesAnchor(s: State, j: JobId, base: RetryBackoff.int64, max: RetryBackoff.int64, id: TaskId)
    requires Core(s) && Enabled(s, Publish(j, base, max)) && s.jobs[j].e.task.id == id
    requires AheadOfWindow(s.st, id, s.jobs[j].e.task.attempts)
    ensures Secure(Next(s, Publish(j, base, max)), id)
  {
    var s', task := Next(s, Publish(j, base, max)), s.jobs[j].e.task;
    NewMessageIsFree(s, s');
    assert !Suppressed(s, s.jobs[j]);
    assert if task.attempts + 1 > task.maxRetries then DeadAnchor(s', id, s.st.next) else Anchor(s', id, s.st.next);
  }

  lemma PublishLeavesAnchor(s: State, j: JobId, base: RetryBackoff.int64, max: RetryBackoff.int64, id: TaskId, q: Seq)
    requires Core(s) && Enabled(s, Publish(j, base, max)) && Anchor(s, id, q) && s.jobs[j].q != q
    requires s.jobs[j].e.task.id != id || s.jobs[j].e.task.attempts < s.st.tasks[q].task.attempts
    ensures Anchor(Next(s, Publish(j, base, max)), id, q)
  {
    var s' := Next(s, Publish(j, base, max));
    CopyIsAccepted(s, id, q);
    assert AboutToGo(s', q) ==> AboutToGo(s, q);
  }

  /** A failed attempt that is handed off: an anchor stays, or the new message is one. */
  lemma PublishKeepsAnchor(s: State, j: JobId, base: RetryBackoff.int64, max: RetryBackoff.int64, id: TaskId, q: Seq)
    requires Core(s) && Enabled(s, Publish(j, base, max)) && Anchor(s, id, q)
    ensures Secure(Next(s, Publish(j, base, max)), id)
  {
    var job := s.jobs[j];
    assert JobOk(s, job);
    if job.e.task.id == id && s.st.tasks[q].task.attempts <= job.e.task.attempts {
      PublishMakesAnchor(s, j, base, max, id);
    } else {
      PublishLeavesAnchor(s, j, base, max, id, q);
    }
  }

  lemma PublishKeepsDeadAnchor(s: State, j: JobId, base: RetryBackoff.int64, max: RetryBackoff.int64, id: TaskId,
                               q: Seq)
    requires Core(s) && Enabled(s, Publish(j, base, max)) && DeadAnchor(s, id, q)
    ensures DeadAnchor(Next(s, Publish(j, base, max)), id, q)
  {
    CopyIsAccepted(s, id, q);
  }

  /** A requeue that waited leaves a new anchor; one of another task leaves the old one. */
  lemma RepublishKeepsSecure(s: State, k: JobId, id: TaskId)
    requires Core(s) && Secure(s, id) && Enabled(s, Republish(k)) && Allowed(s, Republish(k), WindowPassed(id))
    ensures Secure(Next(s, Republish(k)), id)
  {
    var s' := Next(s, Republish(k));
    assert OpOk(s, s.ops[k]);
    if s.ops[k].e.task.id == id {
      NewMessageIsFree(s, s');
      assert Anchor(s', id, s.st.next);
    } else if q :| Anchor(s, id, q) {
      CopyIsAccepted(s, id, q);
      assert Anchor(s', id, q);
    } else if q :| DeadAnchor(s, id, q) {
      CopyIsAccepted(s, id, q);
      assert DeadAnchor(s', id, q);
    }
  }

  /** A step that accepts nothing removes an anchor only when its task is settled by it. */
  lemma QuietKeepsAnchor(s: State, step: Step, id: TaskId, q: Seq)
    requires Core(s) && Enabled(s, step) && Quiet(step) && Anchor(s, id, q)
    ensures Secure(Next(s, step), id)
  {
    var s' := Next(s, step);
    if step.Ack? && s.jobs[step.j].q == q {
      assert JobOk(s, s.jobs[step.j]) && s.jobs[step.j].Succeeded?;
    } else {
      assert AboutToGo(s', q) ==> AboutToGo(s, q);
      assert Anchor(s', id, q);
    }
  }

  lemma QuietKeepsDeadAnchor(s: State, step: Step, id: TaskId, q: Seq)
    requires Core(s) && Enabled(s, step) && Quiet(step) && DeadAnchor(s, id, q)
    ensures Secure(Next(s, step), id)
  {
    var s' := Next(s, step);
    if (step.RemoveRequeued? || step.DeleteDead?) && s.ops[step.k].q == q {
      assert OpOk(s, s.ops[step.k]) && step.DeleteDead?;
    } else {
      assert AboutToBeRemoved(s', q) ==> AboutToBeRemoved(s, q);
      assert DeadAnchor(s', id, q);
    }
  }

  lemma EnqueueKeepsSecure(s: State, task: Task, id: TaskId)
    requires Core(s) && Secure(s, id) && Enabled(s, Enqueue(task))
    ensures Secure(Next(s, Enqueue(task)), id)
  {
    var s' := Next(s, Enqueue(task));
    if q :| Anchor(s, id, q) {
      CopyIsAccepted(s, id, q);
      assert Anchor(s', id, q);
    } else if q :| DeadAnchor(s, id, q) {
      CopyIsAccepted(s, id, q);
      assert DeadAnchor(s', id, q);
    }
  }

  lemma StepKeepsSecure(s: State, step: Step, id: TaskId)
    requires Core(s) && Secure(s, id) && Enabled(s, step) && Allowed(s, step, WindowPassed(id))
    ensures Secure(Next(s, step), id)
  {
    if id in s.done || id in s.deleted {
      assert Evolves(s, Next(s, step)) by { StepKeepsCore(s, step); }
    } else if step.Enqueue? {
      EnqueueKeepsSecure(s, step.task, id);
    } else if step.Republish? {
      RepublishKeepsSecure(s, step.k, id);
    } else if q :| Anchor(s, id, q) {
      if step.Publish? {
        PublishKeepsAnchor(s, step.j, step.base, step.max, id, q);
      } else {
        QuietKeepsAnchor(s, step, id, q);
      }
    } else if q :| DeadAnchor(s, id, q) {
      if step.Publish? {
        PublishKeepsDeadAnchor(s, step.j, step.base, step.max, id, q);
      } else {
        QuietKeepsDeadAnchor(s, step, id, q);
      }
    }
  }

  lemma {:induction false} RunsKeepSecure(s: State, more: seq<Step>, id: TaskId)
    requires Core(s) && Secure(s, id) && Run(s, more, WindowPassed(id)).Some?
    ensures Secure(Run(s, more, WindowPassed(id)).value, id)
  {
    if more != [] {
      var init := more[..|more| - 1];
      RunsKeepSecure(s, init, id);
      RunsKeepCore(s, init, WindowPassed(id));
      StepKeepsSecure(Run(s, init, WindowPassed(id)).value, more[|more| - 1], id);
    }
  }

  // ---------- Losing a task that nothing keeps ----------

  function Lives(s: State, id: TaskId): set<Seq> { set q | q in s.st.tasks && s.st.tasks[q].task.id == id }

  function Deads(s: State, id: TaskId): set<Seq> { set q | q in s.st.dead && s.st.dead[q].task.id == id }

  /** Every copy of the task is about to go, or below an attempt the server remembers. */
  ghost predicate Doomed(s: State, id: TaskId) {
    && id !in s.done && id !in s.deleted
    && (forall q :: q in Deads(s, id) ==> AboutToBeRemoved(s, q))
    && (forall q :: q in Lives(s, id) ==> AboutToGo(s, q) || !AheadOfWindow(s.st, id, s.st.tasks[q].task.attempts))
  }

  lemma InsecureIsDoomed(s: State, id: TaskId)
    requires !Secure(s, id)
    ensures Doomed(s, id)
  {
    forall q | q in Deads(s, id) ensures AboutToBeRemoved(s, q) {
      assert !DeadAnchor(s, id, q);
    }
    forall q | q in Lives(s, id)
      ensures AboutToGo(s, q) || !AheadOfWindow(s.st, id, s.st.tasks[q].task.attempts)
    {
      assert !Anchor(s, id, q);
    }
  }

  /** The operators finish the requeues they began. */
  lemma {:induction false} RemoveDead(s0: State, steps: seq<Step>, rule: Rule, s: State, id: TaskId)
    returns (steps': seq<Step>, s': State)
    requires Run(s0, steps, rule) == Some(s) && !rule.TrueDuplicates? && Doomed(s, id)
    ensures Run(s0, steps', rule) == Some(s') && Doomed(s', id) && Deads(s', id) == {}
    decreases Deads(s, id)
  {
    steps', s' := steps, s;
    if Deads(s, id) != {} {
      var q :| q in Deads(s, id);
      assert AboutToBeRemoved(s, q);
      var k :| k in s.ops && s.ops[k].Republished? && s.ops[k].q == q;
      steps', s' := Extend(s0, steps, rule, s, RemoveRequeued(k));
      var removed := s';
      RemovalKeepsDoom(s, k, id);
      steps', s' := RemoveDead(s0, steps', rule, removed, id);
    }
  }

  lemma RemovalKeepsDoom(s: State, k: JobId, id: TaskId)
    requires Doomed(s, id) && Enabled(s, RemoveRequeued(k)) && s.ops[k].q in Deads(s, id)
    ensures var s' := Next(s, RemoveRequeued(k)); Doomed(s', id) && Deads(s', id) < Deads(s, id)
  {
    var s' := Next(s, RemoveRequeued(k));
    assert s.ops[k].q !in Deads(s', id);
    forall q | q in Deads(s', id) ensures q in Deads(s, id) && AboutToBeRemoved(s', q) {
      assert AboutToBeRemoved(s, q);
      var i :| i in s.ops && s.ops[i].Republished? && s.ops[i].q == q;
      assert i in s'.ops && s'.ops[i] == s.ops[i];
    }
    forall q | q in Lives(s', id)
      ensures AboutToGo(s', q) || !AheadOfWindow(s'.st, id, s'.st.tasks[q].task.attempts)
    {
      assert q in Lives(s, id);
    }
  }

  lemma AckKeepsDoom(s: State, j: JobId, id: TaskId)
    requires Doomed(s, id) && Enabled(s, Ack(j)) && s.jobs[j].HandedOff? && s.jobs[j].q in Lives(s, id)
    requires Deads(s, id) == {}
    ensures var s' := Next(s, Ack(j)); Doomed(s', id) && Lives(s', id) < Lives(s, id) && Deads(s', id) == {}
  {
    var s' := Next(s, Ack(j));
    assert s.jobs[j].q !in Lives(s', id);
    forall q | q in Lives(s', id)
      ensures q in Lives(s, id)
      ensures AboutToGo(s', q) || !AheadOfWindow(s'.st, id, s'.st.tasks[q].task.attempts)
    {
      assert q in Lives(s, id);
      if AboutToGo(s, q) {
        var i :| i in s.jobs && s.jobs[i].HandedOff? && s.jobs[i].q == q;
        assert i in s'.jobs && s'.jobs[i] == s.jobs[i];
      }
    }
  }

  lemma RememberedWithinBudget(s: State, q: Seq, b: nat)
    requires Core(s) && q in s.st.tasks && MsgId(s.st.tasks[q].task.id, b) in s.st.window
    ensures b <= s.st.tasks[q].task.maxRetries && s.st.next !in s.st.tasks
  {
    assert KeyOk(s, MsgId(s.st.tasks[q].task.id, b)) && TaskEntryOk(s, s.st.tasks[q]);
  }

  /** A failure within the budget: the message goes, and its retry is dropped or stored. */
  lemma FailureWithinBudget(s: State, q: Seq)
    requires q in s.st.tasks && s.st.tasks[q].task.attempts < s.st.tasks[q].task.maxRetries
    requires s.st.next !in s.st.tasks
    ensures var e, st' := s.st.tasks[q], FailedOnce(s, q).st;
            var key := MsgId(e.task.id, e.task.attempts + 1);
            && st'.dead == s.st.dead
            && if key in s.st.window then st'.tasks == s.st.tasks - {q} && st'.window == s.st.window
               else && st'.tasks.Keys == s.st.tasks.Keys - {q} + {s.st.next}
                    && (forall r :: r in st'.tasks && r != s.st.next ==> st'.tasks[r] == s.st.tasks[r])
                    && st'.tasks[s.st.next].task.id == e.task.id
                    && st'.tasks[s.st.next].task.attempts == e.task.attempts + 1
                    && st'.window.Keys == s.st.window.Keys + {key}
  {
  }

  /** One more failure of a copy below a remembered attempt: it is gone, or one attempt further. */
  lemma OneFailure(s: State, id: TaskId, q: Seq, b: nat, s': State)
    requires Core(s) && Doomed(s, id) && q in Lives(s, id) && Deads(s, id) == {} && s' == FailedOnce(s, q)
    requires MsgId(id, b) in s.st.window && s.st.tasks[q].task.attempts < b
    ensures Doomed(s', id) && Deads(s', id) == {} && MsgId(id, b) in s'.st.window
    ensures if MsgId(id, s.st.tasks[q].task.attempts + 1) in s.st.window then Lives(s', id) == Lives(s, id) - {q}
            else && Lives(s', id) == Lives(s, id) - {q} + {s.st.next} && s.st.next !in Lives(s, id)
                 && s'.st.tasks[s.st.next].task.attempts == s.st.tasks[q].task.attempts + 1 < b
  {
    RememberedWithinBudget(s, q, b);
    FailureWithinBudget(s, q);
    FailureKeepsLives(s, id, q, b, s');
    FailureKeepsDoom(s, id, q, b, s');
  }

  lemma FailureKeepsLives(s: State, id: TaskId, q: Seq, b: nat, s': State)
    requires q in Lives(s, id) && MsgId(id, b) in s.st.window && s.st.tasks[q].task.attempts < b
    requires s.st.next !in s.st.tasks
    requires var key, st' := MsgId(id, s.st.tasks[q].task.attempts + 1), s'.st;
             if key in s.st.window then st'.tasks == s.st.tasks - {q}
             else && st'.tasks.Keys == s.st.tasks.Keys - {q} + {s.st.next}
                  && (forall r :: r in st'.tasks && r != s.st.next ==> st'.tasks[r] == s.st.tasks[r])
                  && st'.tasks[s.st.next].task.id == id
                  && st'.tasks[s.st.next].task.attempts == s.st.tasks[q].task.attempts + 1
    ensures if MsgId(id, s.st.tasks[q].task.attempts + 1) in s.st.window then Lives(s', id) == Lives(s, id) - {q}
            else && Lives(s', id) == Lives(s, id) - {q} + {s.st.next} && s.st.next !in Lives(s, id)
                 && s'.st.tasks[s.st.next].task.attempts == s.st.tasks[q].task.attempts + 1 < b
  {
    assert s.st.tasks[q].task.attempts + 1 == b ==> MsgId(id, s.st.tasks[q].task.attempts + 1) in s.st.window;
  }

  lemma FailureKeepsDoom(s: State, id: TaskId, q: Seq, b: nat, s': State)
    requires Doomed(s, id) && Deads(s, id) == {} && q in Lives(s, id)
    requires s'.jobs == s.jobs && s'.done == s.done && s'.deleted == s.deleted && s'.st.dead == s.st.dead
    requires s.st.window.Keys <= s'.st.window.Keys && MsgId(id, b) in s.st.window
    requires forall r :: r in s'.st.tasks ==>
               || (r in s.st.tasks && s'.st.tasks[r] == s.st.tasks[r])
               || s'.st.tasks[r].task.attempts < b
    ensures Doomed(s', id) && Deads(s', id) == {}
  {
    forall r | r in Lives(s', id)
      ensures AboutToGo(s', r) || !AheadOfWindow(s'.st, id, s'.st.tasks[r].task.attempts)
    {
      assert MsgId(id, b) in s'.st.window;
      if r in s.st.tasks && s'.st.tasks[r] == s.st.tasks[r] {
        assert r in Lives(s, id) && (AboutToGo(s, r) ==> AboutToGo(s', r));
      }
    }
    assert Deads(s', id) == Deads(s, id);
  }

  /** A copy below a remembered attempt catches up with it, and its hand-off is dropped. */
  lemma {:induction false} RememberedRetryLoses(s0: State, steps: seq<Step>, rule: Rule, s: State, id: TaskId, q: Seq,
                                                b: nat)
    returns (steps': seq<Step>, s': State)
    requires Core(s0) && Run(s0, steps, rule) == Some(s) && !rule.TrueDuplicates?
    requires Doomed(s, id) && Deads(s, id) == {} && q in Lives(s, id)
    requires MsgId(id, b) in s.st.window && s.st.tasks[q].task.attempts < b
    ensures Run(s0, steps', rule) == Some(s') && Doomed(s', id) && Deads(s', id) == {}
    ensures Lives(s', id) == Lives(s, id) - {q}
    decreases b - s.st.tasks[q].task.attempts
  {
    assert Core(s) by { RunsKeepCore(s0, steps, rule); }
    steps', s' := FailOnce(s0, steps, rule, s, q);
    OneFailure(s, id, q, b, s');
    if MsgId(id, s.st.tasks[q].task.attempts + 1) !in s.st.window {
      var failed := s';
      steps', s' := RememberedRetryLoses(s0, steps', rule, failed, id, s.st.next, b);
    }
  }

  /** One copy after the other goes. */
  lemma {:induction false} LoseAll(s0: State, steps: seq<Step>, rule: Rule, s: State, id: TaskId)
    returns (steps': seq<Step>, s': State)
    requires Core(s0) && Run(s0, steps, rule) == Some(s) && !rule.TrueDuplicates?
    requires Doomed(s, id) && Deads(s, id) == {}
    ensures Run(s0, steps', rule) == Some(s') && !Covered(s', id)
    decreases Lives(s, id)
  {
    steps', s' := steps, s;
    if Lives(s, id) != {} {
      var q :| q in Lives(s, id);
      if AboutToGo(s, q) {
        var j :| j in s.jobs && s.jobs[j].HandedOff? && s.jobs[j].q == q;
        AckKeepsDoom(s, j, id);
        steps', s' := Extend(s0, steps, rule, s, Ack(j));
      } else {
        assert !AheadOfWindow(s.st, id, s.st.tasks[q].task.attempts);
        var key :| key in s.st.window && key.id == id && s.st.tasks[q].task.attempts < key.attempts;
        steps', s' := RememberedRetryLoses(s0, steps, rule, s, id, q, key.attempts);
      }
      var fewer := s';
      assert q !in Lives(fewer, id);
      steps', s' := LoseAll(s0, steps', rule, fewer, id);
    } else {
      assert forall q :: LiveAt(s, id, q) ==> q in Lives(s, id);
      assert forall q :: DeadAt(s, id, q) ==> q in Deads(s, id);
    }
  }

  // ---------- The exact conditions ----------

  lemma SecureIsCovered(s: State, id: TaskId)
    requires Secure(s, id)
    ensures Covered(s, id)
  {
    if q :| Anchor(s, id, q) {
      assert LiveAt(s, id, q);
    } else if q :| DeadAnchor(s, id, q) {
      assert DeadAt(s, id, q);
    }
  }

  /**
   * When exactly a task can still be lost. From any state that a run can reach, all
   * further runs in which the requeues of this task wait for the window keep it, if
   * and only if it is settled, or waits in a message that nobody is about to
   * acknowledge and whose retries the server cannot take for duplicates, or is dead
   * in an entry that nobody is about to delete after a requeue.
   */
  lemma KeptIffSecure(s: State, id: TaskId)
    requires Core(s)
    ensures Secure(s, id) <==>
            forall more {:trigger Run(s, more, WindowPassed(id))} ::
              Run(s, more, WindowPassed(id)).Some? ==> Covered(Run(s, more, WindowPassed(id)).value, id)
  {
    if Secure(s, id) {
      forall more | Run(s, more, WindowPassed(id)).Some?
        ensures Covered(Run(s, more, WindowPassed(id)).value, id)
      {
        RunsKeepSecure(s, more, id);
        SecureIsCovered(Run(s, more, WindowPassed(id)).value, id);
      }
    } else {
      InsecureIsDoomed(s, id);
      var steps, s1 := RemoveDead(s, [], WindowPassed(id), s, id);
      var more, end := LoseAll(s, steps, WindowPassed(id), s1, id);
    }
  }

  /** The entry that operation k found is still there and is all that is left of its task. */
  ghost predicate OnlyDeadCopy(s: State, k: JobId) {
    && k in s.ops && s.ops[k].Found? && s.ops[k].q in s.st.dead
    && var id := s.ops[k].e.task.id;
    && id !in s.done && id !in s.deleted
    && (forall r :: !LiveAt(s, id, r))
    && (forall r :: DeadAt(s, id, r) ==> r == s.ops[k].q)
  }

  lemma RequeueOfOnlyCopy(s: State, k: JobId)
    requires Core(s) && OnlyDeadCopy(s, k)
    ensures Secure(Next(s, Republish(k)), s.ops[k].e.task.id) <==> WindowClear(s.st, s.ops[k].e.task.id)
  {
    var id, s' := s.ops[k].e.task.id, Next(s, Republish(k));
    assert OpOk(s, s.ops[k]);
    NewMessageIsFree(s, s');
    if WindowClear(s.st, id) {
      assert Anchor(s', id, s.st.next);
    } else {
      forall q ensures !Anchor(s', id, q) {
        assert LiveAt(s', id, q) && q != s.st.next ==> LiveAt(s, id, q);
      }
      forall q ensures !DeadAnchor(s', id, q) {
        assert DeadAt(s', id, q) ==> DeadAt(s, id, q);
        assert k in s'.ops && s'.ops[k].Republished? && s'.ops[k].q == s.ops[k].q;
      }
    }
  }

  /**
   * In particular, requeueing the only copy of a dead task keeps it in all further
   * runs in which its requeues wait for the window, if and only if this one waited:
   * the server has forgotten every retry of the task.
   */
  lemma RequeueKeepsTaskIff(s: State, k: JobId)
    requires Core(s) && OnlyDeadCopy(s, k)
    ensures var id := s.ops[k].e.task.id;
            WindowClear(s.st, id) <==>
            forall more {:trigger Run(Next(s, Republish(k)), more, WindowPassed(id))} ::
              Run(Next(s, Republish(k)), more, WindowPassed(id)).Some? ==>
              Covered(Run(Next(s, Republish(k)), more, WindowPassed(id)).value, id)
  {
    assert Core(Next(s, Republish(k))) by { StepKeepsCore(s, Republish(k)); }
    RequeueOfOnlyCopy(s, k);
    KeptIffSecure(Next(s, Republish(k)), s.ops[k].e.task.id);
  }

  lemma Requeue(s0: State, steps: seq<Step>, s: State, q: Seq) returns (steps': seq<Step>, s': State)
    requires Run(s0, steps, AnyStep) == Some(s) && q in s.st.dead
    ensures Run(s0, steps', AnyStep) == Some(s')
    ensures s' == s.(st := Removed(PublishRequeued(s.st, Reset(s.st.dead[q].task, s.now)), q))
  {
    var k := SomeUnused(s.ops.Keys);
    assert k !in s.ops;
    steps', s' := Extend(s0, steps, AnyStep, s, FindDead(k, q));
    var found := s';
    assert (steps' + [Republish(k)])[..|steps'|] == steps';
    steps', s' := steps' + [Republish(k)], Next(found, Republish(k));
    steps', s' := Extend(s0, steps', AnyStep, s', RemoveRequeued(k));
    assert s'.ops == s.ops;
  }

  /** A task with one retry fails twice and dies. */
  lemma Die(s0: State) returns (steps: seq<Step>, s: State)
    requires s0 == Start(0)
    ensures Run(s0, steps, AnyStep) == Some(s) && 0 in s.accepted && 0 !in s.done && 0 !in s.deleted
    ensures MsgId(0, 1) in s.st.window && s.st.tasks == map[] && s.st.dead.Keys == {2} && s.st.next == 3
    ensures s.st.dead[2].task.id == 0 && s.st.dead[2].task.maxRetries == 1
  {
    var task := Task(0, "q", 0, 1, 0, 0, "", None);
    steps, s := Extend(s0, [], AnyStep, s0, Enqueue(task));
    assert s.st.tasks == map[0 := Entry(task, 0)] && s.st.window == map[MsgId(0, 0) := 0] && s.st.next == 1;
    steps, s := FailOnce(s0, steps, AnyStep, s, 0);
    assert s.st.tasks.Keys == {1} && MsgId(0, 1) in s.st.window && s.st.next == 2;
    steps, s := FailOnce(s0, steps, AnyStep, s, 1);
    assert s.st.tasks.Keys == {};
  }

  /**
   * A run that loses a task: it fails twice and dies, is requeued while the server
   * still remembers its first retry, and fails again. Its retry is dropped as a
   * duplicate, and the message it came from is acknowledged.
   */
  lemma RequeueInsideWindowLosesTask()
    ensures exists steps :: Run(Start(0), steps, AnyStep).Some?
                            && var s := Run(Start(0), steps, AnyStep).value;
                               0 in s.accepted && !Covered(s, 0)
  {
    var s0 := Start(0);
    var steps, s := Die(s0);
    steps, s := Requeue(s0, steps, s, 2);
    assert 3 in s.st.tasks && s.st.dead == map[];
    steps, s := FailOnce(s0, steps, AnyStep, s, 3);
    assert s.st.tasks == map[] && s.st.dead == map[];
  }
}
