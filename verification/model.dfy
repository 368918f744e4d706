/** The entities of pkg/model and the constants of pkg/consts. Times are Unix seconds. */
module Model {

  datatype Option<+T> = None | Some(value: T)

  type Id = string

  // The seven values of TaskStatus.
  datatype Status = Pending | Ready | Dispatched | Running | Success | Retry | Dead

  predicate Terminal(s: Status) { s == Success || s == Dead }

  // A job with one of these statuses still waits for a scheduler to pick it up from a queue.
  predicate Queued(s: Status) { s == Pending || s == Ready || s == Retry }

  datatype Task = Task(
    id: Id, name: string, callbackURL: string, triggerTime: int, priority: string,
    retryCount: int, maxRetry: int, timeout: int, payload: string, enqueueAt: int)

  // The message body published to RabbitMQ: a Task without EnqueueAt.
  datatype TaskCommand = TaskCommand(
    id: Id, name: string, callbackURL: string, triggerTime: int, priority: string,
    retryCount: int, maxRetry: int, timeout: int, payload: string)

  // The task_state hash. Fields never written read back as "" or 0.
  datatype StateRecord = StateRecord(
    name: string, callbackURL: string, status: Status,
    retryCount: int, maxRetry: int, triggerTime: int, updatedAt: int)

  // The dead_detail hash.
  datatype DeadRecord = DeadRecord(name: string, callbackURL: string, retryCount: int, error: string, deadAt: int)

  const PRIORITY_HIGH := "High"
  const PRIORITY_MEDIUM := "Medium"
  const PRIORITY_LOW := "Low"
  const DEFAULT_MAX_RETRY := 3
  const DEFAULT_TIMEOUT := 30

  function CommandOf(t: Task): TaskCommand {
    TaskCommand(t.id, t.name, t.callbackURL, t.triggerTime, t.priority,
                t.retryCount, t.maxRetry, t.timeout, t.payload)
  }

  function RecordOf(t: Task, status: Status, now: int): StateRecord {
    StateRecord(t.name, t.callbackURL, status, t.retryCount, t.maxRetry, t.triggerTime, now)
  }

  // One line of the execution log.
  datatype JobLog = JobLog(
    jobID: Id, name: string, callbackURL: string, status: int, costMs: int, retry: int, errorMsg: string,
    createdAt: int)
}
