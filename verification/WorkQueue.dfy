/** The task that every backend hands to its handlers. */
module WorkQueue {
  import opened Wrappers

  /** Identifiers are assigned on Enqueue and never used again. */
  type TaskId = nat

  datatype Task = Task(
    id: TaskId,
    queue: string,
    attempts: nat,
    maxRetries: nat,
    enqueuedAt: int,
    runAt: int,
    lastError: string,
    diedAt: Option<int>)
}
