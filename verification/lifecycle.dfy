/** Every scheduler instance, submitter, recovery loop and executor, interleaved over the shared keys.
    A step is one Redis command or script, one broker operation, one callback, or one reading of state that
    decides what to write next. Any number of each may be under way at once, and any may stop at any point. */
module Lifecycle {
  import opened Model
  import opened Redis
  import opened Fsm
  import opened DedupeKeys
  import Backoff
  import Executor
  import Scheduler
  import Service

  // Something under way.
  datatype Actor =
    | Writing(id: Id, todo: seq<Cmd>)                               // commands of one job still to run
    | Firing(event: Event, task: Task, seen: Status, now: int)      // Fire between GetState and the CAS
    | Publishing(task: Task)                                        // executeTask between the CAS and its end
    | Handling(cmd: TaskCommand, todo: seq<Cmd>, called: bool)      // a handler that won its dedupe key
    // A recovery between its reading of the record, from which it could rebuild the task, and of the detail.
    | Recovering(id: Id, rebuilt: Task, since: int, monitor: bool)

  // fetched, parsed and local hold what the fetcher and the heaps ever held: a step may take any of it, more
  // than once, which covers every order of pops and steals. msgs holds every command the broker ever accepted:
  // each may be delivered again at any time. listed holds what RecoverStaleTasks' scans found, with their time, and
  // stale what MonitorStaleStates' scans found, with the clock reading they were made for: a loop may come to any of
  // it at any later time. start is the clock at the beginning.
  // The fields after nextId record what happened: PENDING writes and TRIGGERs per job; by actor, the task each
  // successful DISPATCH was for and the command each callback was made for; the winner of each dedupe key; when
  // a job's active entry was last written; and the jobs whose last status write was cut short.
  datatype World = World(
    db: Db, start: int, clock: int, dedupe: map<string, int>,
    fetched: set<(Id, int)>, parsed: set<Task>, local: set<Task>, msgs: set<TaskCommand>,
    listed: set<(Id, int)>, stale: set<(Id, int)>,
    actors: map<nat, Actor>, nextId: nat,
    pendingWrites: map<Id, nat>, triggers: map<Id, nat>, dispatched: map<nat, Task>, calls: map<nat, TaskCommand>,
    won: map<string, nat>, touched: map<Id, int>, dirty: set<Id>)

  datatype Step =
    | Tick(seconds: nat)
    | Submit(task: Task)                     // one task of SubmitJob or BatchSubmitJobs
    | ScanActive                             // RecoverStaleTasks lists the active jobs
    | ScanStale(now: int)                    // MonitorStaleStates lists those unchanged for two minutes at now
    | Recover(id: Id, scan: int, now: int)   // RecoverStaleTasks reads the record of a listed job
    | Monitor(id: Id, now: int)              // MonitorStaleStates does
    | ReadDetail(a: nat, detailOk: bool)     // either reads the detail and decides what to write
    | ReturnJob(id: Id)                      // one job of a pending recovery
    | Clean(id: Id)                          // one job of the cleaner
    | RunFetch                               // the Lua script
    | Parse(id: Id, score: int)
    | Age(task: Task)
    | BeginTrigger(task: Task)
    | BeginDispatch(task: Task)
    | RunCas(a: nat)
    | Publish(a: nat, delivered: bool, ok: bool, nanos: nat, jitter: nat)
    | Deliver(cmd: TaskCommand)              // the handler's SETNX, answered
    | DeliverUnanswered(cmd: TaskCommand)    // the SETNX ran but its answer was lost: the message is requeued
    | Run(a: nat)                            // the next command of a pipeline
    | Restamp(a: nat)                        // a status write, or Fire before its CAS, reads the clock
    | Call(a: nat)
    | CallSucceeded(a: nat)
    | CallFailed(a: nat, reach: nat, error: string, nanos: nat, jitter: nat)  // saving got as far as reach
    | Skip(a: nat)                           // a handler's status write fails and is only logged
    | Drop(a: nat)                           // a crash, or a Redis error that ends the operation

  function Count(m: map<Id, nat>, j: Id): nat { if j in m then m[j] else 0 }

  function NowNs(w: World, nanos: nat): int { w.clock * Backoff.SECOND + nanos }

  // The commands an actor still has to run; while there are any, it is in the middle of its job's keys.
  function Todo(x: Actor): seq<Cmd> {
    match x
    case Writing(_, todo) => todo
    case Firing(_, _, _, _) => []
    case Publishing(task) => [ZRemPending(task.id)]
    case Handling(_, todo, _) => todo
    case Recovering(_, _, _, _) => []
  }

  function JobOf(x: Actor): Id {
    match x
    case Writing(id, _) => id
    case Firing(_, task, _, _) => task.id
    case Publishing(task) => task.id
    case Handling(cmd, _, _) => cmd.id
    case Recovering(id, _, _, _) => id
  }

  function WithTodo(x: Actor, todo: seq<Cmd>): Actor {
    match x
    case Writing(id, _) => Writing(id, todo)
    case Handling(cmd, _, called) => Handling(cmd, todo, called)
    case _ => x
  }

  function StatusWritten(c: Cmd): Status
    requires c.HSetState? || c.HSetStatus?
  {
    if c.HSetState? then c.rec.status else c.status
  }

  function StampOf(c: Cmd): int
    requires c.HSetState? || c.HSetStatus?
  {
    if c.HSetState? then c.rec.updatedAt else c.now
  }

  // A whole status write with its index entries, about to begin.
  predicate AtStatusWrite(todo: seq<Cmd>) {
    todo != [] && (todo[0].HSetState? || todo[0].HSetStatus?)
    && todo[1..] == IndexCmds(todo[0].id, StatusWritten(todo[0]), StampOf(todo[0]))
  }

  function Stamped(c: Cmd, now: int): Cmd {
    match c
    case HSetState(id, rec) => HSetState(id, rec.(updatedAt := now))
    case HSetStatus(id, status, _) => HSetStatus(id, status, now)
    case ZAddActive(id, _) => ZAddActive(id, now)
    case ZAddTerminal(id, _) => ZAddTerminal(id, now)
    case _ => c
  }

  function StampedAll(cs: seq<Cmd>, now: int): (r: seq<Cmd>)
    ensures |r| == |cs|
  {
    seq(|cs|, k requires 0 <= k < |cs| => Stamped(cs[k], now))
  }

  function Restamped(x: Actor, now: int): Actor {
    if x.Firing? then x.(now := now) else WithTodo(x, StampedAll(Todo(x), now))
  }

  // Commands that leave a job's status and index entries alone.
  predicate QueueOnly(cs: seq<Cmd>) {
    forall k :: 0 <= k < |cs| ==> cs[k].ZAddGlobal? || cs[k].ZRemPending?
  }

  predicate Is(w: World, a: nat) { a in w.actors }

  predicate Enabled(w: World, step: Step) {
    match step
    case Tick(_) => true
    case Submit(task) => Service.Submittable(task)
    case ScanActive => true
    case ScanStale(now) => now <= w.clock
    case Recover(id, scan, now) => (id, scan) in w.listed && scan <= now <= w.clock && !Fresh(w.db, id, now)
    case Monitor(id, now) => (id, now) in w.stale && InFlight(w.db, id)
    case ReadDetail(a, _) => Is(w, a) && w.actors[a].Recovering?
    case ReturnJob(id) => id in InRange(w.db.pending, w.clock)
    case Clean(id) => id in InRange(w.db.terminal, w.clock - 3600)
    case RunFetch => true
    case Parse(id, score) => (id, score) in w.fetched && id in w.db.detail
    case Age(task) => task in w.parsed && Scheduler.Ages(task, w.clock)
    case BeginTrigger(task) => task in w.parsed
    case BeginDispatch(task) => task in w.local
    case RunCas(a) => Is(w, a) && w.actors[a].Firing?
    case Publish(a, delivered, ok, nanos, jitter) =>
      Is(w, a) && w.actors[a].Publishing? && (ok ==> delivered) && nanos < Backoff.SECOND && jitter < 500
    case Deliver(cmd) => cmd in w.msgs
    case DeliverUnanswered(cmd) => cmd in w.msgs
    case Run(a) => Is(w, a) && (w.actors[a].Writing? || w.actors[a].Handling?) && Todo(w.actors[a]) != []
    case Restamp(a) => Is(w, a) && (w.actors[a].Firing? || AtStatusWrite(Todo(w.actors[a])))
    case Call(a) => Is(w, a) && w.actors[a].Handling? && w.actors[a].todo == [] && !w.actors[a].called
    case CallSucceeded(a) => Is(w, a) && w.actors[a].Handling? && w.actors[a].todo == [] && w.actors[a].called
    case CallFailed(a, _, _, nanos, jitter) =>
      && Is(w, a) && w.actors[a].Handling? && w.actors[a].todo == [] && w.actors[a].called
      && nanos < Backoff.SECOND && jitter < 500
    case Skip(a) => Is(w, a) && w.actors[a].Handling?
    case Drop(a) => Is(w, a)
  }

  // ---- What a step does, component by component ----

  // The operations that begin, each under a new number.
  predicate Begins(w: World, step: Step) {
    || step.Submit? || step.Recover? || step.Monitor? || step.ReturnJob? || step.Clean?
    || step.BeginTrigger? || step.BeginDispatch?
    || (step.Deliver? && Executor.KeyFree(w.dedupe, step.cmd, w.clock))
  }

  function Begun(w: World, step: Step): Actor
    requires Enabled(w, step) && Begins(w, step)
  {
    match step
    case Submit(task) => Writing(task.id, SubmitCmds(Service.Normalised(task, w.clock), w.clock))
    case Recover(id, _, now) => Recovering(id, Rebuilt(w.db, id), now, false)
    case Monitor(id, now) => Recovering(id, Rebuilt(w.db, id), now, true)
    case ReturnJob(id) => Writing(id, ReturnCmds(id, w.clock))
    case Clean(id) => Writing(id, CleanCmds(id))
    case BeginTrigger(task) => Firing(Trigger, task, StatusOf(w.db, task.id), w.clock)
    case BeginDispatch(task) => Firing(Dispatch, task, StatusOf(w.db, task.id), w.clock)
    case Deliver(cmd) => Handling(cmd, UpdateStateCmds(cmd.id, Running, w.clock), false)
  }

  // The operations that go on.
  predicate GoesOn(step: Step) {
    || step.RunCas? || step.Publish? || step.Run? || step.Restamp? || step.Call?
    || step.CallSucceeded? || step.CallFailed? || step.Skip? || step.Drop? || step.ReadDetail?
  }

  // The CAS of Fire takes effect.
  predicate CasWins(w: World, a: nat)
    requires a in w.actors && w.actors[a].Firing?
  {
    var x := w.actors[a];
    Target(x.seen, x.event).Some? && CasMatches(w.db, x.task.id, x.seen)
  }

  // The task a recovery writes back, with the detail as it is now.
  function Rescued(db: Db, x: Actor, ok: bool): Task
    requires x.Recovering?
  {
    var found := DetailOr(db, x.id, ok, x.rebuilt);
    if x.monitor then Monitored(found, x.since) else Recovered(found, x.rebuilt, x.since)
  }

  function FailureCmds(cmd: TaskCommand, error: string, now: int, nowNs: int, jitter: nat, reach: nat): seq<Cmd>
    requires jitter < 500
  {
    if cmd.retryCount + 1 > cmd.maxRetry
    then DeadCmds(cmd.(retryCount := cmd.retryCount + 1), error, now, reach)
    else RetryCmds(Executor.RetryTask(cmd, nowNs, jitter), now, reach)
  }

  // The operation after the step, unless it ended.
  function After(w: World, step: Step): Option<Actor>
    requires Enabled(w, step) && GoesOn(step)
  {
    var x := w.actors[step.a];
    match step
    case RunCas(_) => if CasWins(w, step.a) && x.event != Trigger then Some(Publishing(x.task)) else None
    case Publish(_, _, ok, _, _) => if ok then Some(Writing(x.task.id, Todo(x))) else None
    case Run(_) => Some(WithTodo(x, Todo(x)[1..]))
    case Restamp(_) => Some(Restamped(x, w.clock))
    case Call(_) => Some(x.(called := true))
    case CallSucceeded(_) => Some(Writing(x.cmd.id, UpdateStateCmds(x.cmd.id, Success, w.clock)))
    case CallFailed(_, reach, error, nanos, jitter) =>
      Some(Writing(x.cmd.id, FailureCmds(x.cmd, error, w.clock, NowNs(w, nanos), jitter, reach)))
    case ReadDetail(_, ok) => Some(Writing(x.id, RecoverCmds(Rescued(w.db, x, ok), w.clock)))
    case Skip(_) => Some(x.(todo := []))
    case Drop(_) => None
  }

  function NextActors(w: World, step: Step): map<nat, Actor>
    requires Enabled(w, step)
  {
    if Begins(w, step) then w.actors[w.nextId := Begun(w, step)]
    else if !GoesOn(step) then w.actors
    else if After(w, step).Some? then w.actors[step.a := After(w, step).value]
    else w.actors - {step.a}
  }

  function NextDb(w: World, step: Step): Db
    requires Enabled(w, step)
  {
    if step.Run? then Apply(w.db, Todo(w.actors[step.a])[0])
    else if step.RunCas? && CasWins(w, step.a) then
      var x := w.actors[step.a];
      Cas(w.db, x.task, x.seen, Target(x.seen, x.event).value, x.now)
    else if step.RunFetch? then Fetch(w.db, w.clock + Scheduler.PRELOAD_SECONDS)
    else if step.Age? then Apply(w.db, HSetDetail(step.task.id, Scheduler.Aged(step.task, w.clock)))
    else w.db
  }

  // SETNX marks the key whether or not the answer arrives.
  function NextDedupe(w: World, step: Step): map<string, int> {
    if step.Deliver? || step.DeliverUnanswered? then Executor.Mark(w.dedupe, step.cmd, w.clock) else w.dedupe
  }

  function NextFetched(w: World, step: Step): set<(Id, int)> {
    if !step.RunFetch? then w.fetched
    else w.fetched + set j | j in InRange(w.db.global, w.clock + Scheduler.PRELOAD_SECONDS) :: (j, w.db.global[j])
  }

  function NextListed(w: World, step: Step): set<(Id, int)> {
    if step.ScanActive? then w.listed + set j | j in w.db.active && 0 <= w.db.active[j] :: (j, w.clock)
    else w.listed
  }

  function NextStale(w: World, step: Step): set<(Id, int)> {
    if step.ScanStale? then w.stale + set j | j in InRange(w.db.active, step.now - STALE_SECONDS) :: (j, step.now)
    else w.stale
  }

  function NextParsed(w: World, step: Step): set<Task>
    requires Enabled(w, step)
  {
    if step.Parse? then w.parsed + {w.db.detail[step.id].(triggerTime := step.score)}
    else if step.Age? then w.parsed + {Scheduler.Aged(step.task, w.clock)}
    else w.parsed
  }

  function NextLocal(w: World, step: Step): set<Task>
    requires Enabled(w, step)
  {
    if step.RunCas? && CasWins(w, step.a) && w.actors[step.a].event == Trigger then w.local + {w.actors[step.a].task}
    else if step.Publish? && !step.ok then
      w.local + {Scheduler.Again(w.actors[step.a].task, NowNs(w, step.nanos), step.jitter)}
    else w.local
  }

  function NextMsgs(w: World, step: Step): set<TaskCommand>
    requires Enabled(w, step)
  {
    if step.Publish? && step.delivered then w.msgs + {CommandOf(w.actors[step.a].task)} else w.msgs
  }

  function NextPendingWrites(w: World, step: Step): map<Id, nat>
    requires Enabled(w, step)
  {
    if !step.Run? then w.pendingWrites
    else
      var c := Todo(w.actors[step.a])[0];
      if c.HSetState? && c.rec.status == Pending then w.pendingWrites[c.id := Count(w.pendingWrites, c.id) + 1]
      else w.pendingWrites
  }

  function NextTriggers(w: World, step: Step): map<Id, nat>
    requires Enabled(w, step)
  {
    if step.RunCas? && CasWins(w, step.a) && w.actors[step.a].event == Trigger
    then w.triggers[w.actors[step.a].task.id := Count(w.triggers, w.actors[step.a].task.id) + 1]
    else w.triggers
  }

  function NextDispatched(w: World, step: Step): map<nat, Task>
    requires Enabled(w, step)
  {
    if step.RunCas? && CasWins(w, step.a) && w.actors[step.a].event != Trigger
    then w.dispatched[step.a := w.actors[step.a].task]
    else w.dispatched
  }

  function NextCalls(w: World, step: Step): map<nat, TaskCommand>
    requires Enabled(w, step)
  {
    if step.Call? then w.calls[step.a := w.actors[step.a].cmd] else w.calls
  }

  function NextWon(w: World, step: Step): map<string, nat> {
    if step.Deliver? && Begins(w, step) then w.won[Key(step.cmd.id, step.cmd.triggerTime) := w.nextId] else w.won
  }

  function NextTouched(w: World, step: Step): map<Id, int>
    requires Enabled(w, step)
  {
    if step.Run? && Todo(w.actors[step.a])[0].ZAddActive? then w.touched[Todo(w.actors[step.a])[0].id := w.clock]
    else if step.RunCas? && CasWins(w, step.a) then w.touched[w.actors[step.a].task.id := w.clock]
    else w.touched
  }

  // A status write that begins, or a CAS, mends its job's index entries; one that is cut short spoils them.
  function NextDirty(w: World, step: Step): set<Id>
    requires Enabled(w, step)
  {
    if Begins(w, step) then
      if QueueOnly(Todo(Begun(w, step))) then w.dirty else w.dirty - {JobOf(Begun(w, step))}
    else if step.RunCas? && CasWins(w, step.a) then w.dirty - {w.actors[step.a].task.id}
    else if step.CallSucceeded? || step.CallFailed? || step.ReadDetail? then w.dirty - {JobOf(w.actors[step.a])}
    else if (step.Skip? || step.Drop?) && !QueueOnly(Todo(w.actors[step.a])) then w.dirty + {JobOf(w.actors[step.a])}
    else w.dirty
  }

  function Do(w: World, step: Step): World
    requires Enabled(w, step)
  {
    World(NextDb(w, step), w.start, if step.Tick? then w.clock + step.seconds else w.clock, NextDedupe(w, step),
          NextFetched(w, step), NextParsed(w, step), NextLocal(w, step), NextMsgs(w, step),
          NextListed(w, step), NextStale(w, step),
          NextActors(w, step), if Begins(w, step) then w.nextId + 1 else w.nextId,
          NextPendingWrites(w, step), NextTriggers(w, step), NextDispatched(w, step), NextCalls(w, step),
          NextWon(w, step), NextTouched(w, step), NextDirty(w, step))
  }

  // An empty Redis, an empty broker and nothing under way.
  predicate Init(w: World) {
    w == World(EMPTY, w.clock, w.clock, map[], {}, {}, {}, {}, {}, {}, map[], 0,
               map[], map[], map[], map[], map[], map[], {})
  }

  // Steps from any world.
  predicate IsPath(ws: seq<World>, steps: seq<Step>) {
    && |ws| == |steps| + 1
    && forall k {:trigger steps[k]} :: 0 <= k < |steps| ==> Enabled(ws[k], steps[k]) && ws[k + 1] == Do(ws[k], steps[k])
  }

  predicate IsRun(ws: seq<World>, steps: seq<Step>) { IsPath(ws, steps) && Init(ws[0]) }
}
