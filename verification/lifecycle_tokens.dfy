/** No job is dispatched, or called back, more often than it was made PENDING: in every interleaving, with
    concurrent Fires, unconditional status writes, several scheduler instances and redelivered messages. */
module LifecycleTokens {
  import opened Model
  import opened Redis
  import opened Fsm
  import opened DedupeKeys
  import opened Lifecycle
  import Executor
  import Service

  // The unconditional writes of the program never make a job READY, make it PENDING only by a full record, and
  // keep details under their own ids.
  predicate Legal(c: Cmd, id: Id) {
    && c.id == id
    && (c.HSetState? ==> c.rec.status == Pending)
    && (c.HSetStatus? ==> c.status != Pending && c.status != Ready)
    && (c.HSetDetail? ==> c.task.id == id)
  }

  predicate AllLegal(cs: seq<Cmd>, id: Id) {
    forall k :: 0 <= k < |cs| ==> Legal(cs[k], id)
  }

  predicate ActorOk(a: nat, x: Actor, dispatched: map<nat, Task>) {
    && AllLegal(Todo(x), JobOf(x))
    && (x.Firing? ==> (x.event == Trigger || x.event == Dispatch) && a !in dispatched)
    && (x.Publishing? ==> a in dispatched && dispatched[a] == x.task)
    && (x.Recovering? ==> x.rebuilt.id == x.id)
  }

  ghost predicate ActorsOk(w: World) {
    && WellKeyed(w.db)
    && (forall a :: a in w.actors ==> a < w.nextId && ActorOk(a, w.actors[a], w.dispatched))
    && (forall a :: a in w.dispatched ==> a < w.nextId)
  }

  lemma SubmitIsLegal(t: Task, now: int)
    ensures AllLegal(SubmitCmds(t, now), t.id) && AllLegal(RecoverCmds(t, now), t.id)
  {
  }

  lemma OtherBlocksAreLegal(id: Id, now: int)
    ensures AllLegal(ReturnCmds(id, now), id) && AllLegal(CleanCmds(id), id)
    ensures AllLegal(UpdateStateCmds(id, Running, now), id) && AllLegal(UpdateStateCmds(id, Success, now), id)
  {
  }

  lemma FailureIsLegal(cmd: TaskCommand, error: string, now: int, nowNs: int, jitter: nat, reach: nat)
    requires jitter < 500
    ensures AllLegal(FailureCmds(cmd, error, now, nowNs, jitter, reach), cmd.id)
  {
    if cmd.retryCount + 1 > cmd.maxRetry {
      SavingIsLegal(BuryCmds(cmd.(retryCount := cmd.retryCount + 1), error, now), [], Dead, cmd.id, now, reach);
      var saving := Prefix(BuryCmds(cmd.(retryCount := cmd.retryCount + 1), error, now), reach);
      assert saving + [] == saving;
    } else {
      var t := Executor.RetryTask(cmd, nowNs, jitter);
      SavingIsLegal(SaveDetailCmds(t, now), [ZAddGlobal(t.id, t.triggerTime)], Retry, cmd.id, now, reach);
    }
  }

  lemma SavingIsLegal(saving: seq<Cmd>, queuing: seq<Cmd>, status: Status, id: Id, now: int, reach: nat)
    requires AllLegal(saving, id) && AllLegal(queuing, id) && status != Pending && status != Ready
    ensures AllLegal(Prefix(saving, reach) + queuing + UpdateStateCmds(id, status, now), id)
  {
  }

  lemma BegunIsOk(w: World, step: Step)
    requires Enabled(w, step) && Begins(w, step) && WellKeyed(w.db)
    requires forall a :: a in w.dispatched ==> a < w.nextId
    ensures ActorOk(w.nextId, Begun(w, step), w.dispatched)
  {
    match step {
      case Submit(task) => SubmitIsLegal(Service.Normalised(task, w.clock), w.clock);
      case Recover(id, scan, now) =>
      case Monitor(id, now) =>
      case ReturnJob(id) => OtherBlocksAreLegal(id, w.clock);
      case Clean(id) => OtherBlocksAreLegal(id, w.clock);
      case BeginTrigger(task) =>
      case BeginDispatch(task) =>
      case Deliver(cmd) => OtherBlocksAreLegal(cmd.id, w.clock);
    }
  }

  lemma RestampedIsOk(a: nat, x: Actor, now: int, dispatched: map<nat, Task>)
    requires ActorOk(a, x, dispatched) && (x.Firing? || AtStatusWrite(Todo(x)))
    ensures ActorOk(a, Restamped(x, now), dispatched)
  {
  }

  lemma RestIsOk(a: nat, x: Actor, dispatched: map<nat, Task>)
    requires ActorOk(a, x, dispatched) && Todo(x) != [] && (x.Writing? || x.Handling?)
    ensures ActorOk(a, WithTodo(x, Todo(x)[1..]), dispatched)
  {
  }

  lemma AfterIsOk(w: World, step: Step)
    requires WellKeyed(w.db) && Enabled(w, step) && GoesOn(step) && ActorOk(step.a, w.actors[step.a], w.dispatched)
    ensures After(w, step).Some? ==> ActorOk(step.a, After(w, step).value, NextDispatched(w, step))
  {
    var x := w.actors[step.a];
    if step.Restamp? {
      RestampedIsOk(step.a, x, w.clock, w.dispatched);
    } else if step.CallFailed? {
      FailureIsLegal(x.cmd, step.error, w.clock, NowNs(w, step.nanos), step.jitter, step.reach);
    } else if step.CallSucceeded? {
      OtherBlocksAreLegal(x.cmd.id, w.clock);
    } else if step.Run? {
      RestIsOk(step.a, x, w.dispatched);
    } else if step.ReadDetail? {
      SubmitIsLegal(Rescued(w.db, x, step.detailOk), w.clock);
    }
  }

  lemma StepKeepsKeys(w: World, step: Step)
    requires ActorsOk(w) && Enabled(w, step)
    ensures WellKeyed(NextDb(w, step))
  {
  }

  // The operations of a step's outcome: at most one entry is new or changed.
  lemma NextActorsAreOk(w: World, step: Step, a: nat)
    requires ActorsOk(w) && Enabled(w, step) && a in NextActors(w, step)
    ensures a <= w.nextId && (a == w.nextId ==> Begins(w, step))
    ensures ActorOk(a, NextActors(w, step)[a], NextDispatched(w, step))
  {
    if Begins(w, step) && a == w.nextId {
      BegunIsOk(w, step);
    } else if GoesOn(step) && a == step.a {
      AfterIsOk(w, step);
    } else {
      OtherStaysOk(w, step, a);
    }
  }

  lemma OtherStaysOk(w: World, step: Step, a: nat)
    requires ActorsOk(w) && Enabled(w, step) && a in NextActors(w, step)
    requires !(Begins(w, step) && a == w.nextId) && !(GoesOn(step) && a == step.a)
    ensures a < w.nextId && ActorOk(a, NextActors(w, step)[a], NextDispatched(w, step))
  {
    assert NextActors(w, step)[a] == w.actors[a];
  }

  lemma StepKeepsActors(w: World, step: Step)
    requires ActorsOk(w) && Enabled(w, step)
    ensures ActorsOk(Do(w, step))
  {
    StepKeepsKeys(w, step);
    forall a | a in NextActors(w, step)
      ensures a <= w.nextId && (a == w.nextId ==> Begins(w, step))
      ensures ActorOk(a, NextActors(w, step)[a], NextDispatched(w, step))
    {
      NextActorsAreOk(w, step, a);
    }
  }

  // ---- Tokens: DISPATCH within TRIGGER within PENDING ----

  predicate StatusIs(db: Db, j: Id, s: Status) { j in db.state && db.state[j].status == s }

  function ForJob(dispatched: map<nat, Task>, j: Id): set<nat> {
    set a | a in dispatched && dispatched[a].id == j
  }

  predicate Tokens(db: Db, dispatches: nat, triggers: nat, pendingWrites: nat, j: Id) {
    && dispatches + (if StatusIs(db, j, Ready) then 1 else 0) <= triggers
    && triggers + (if StatusIs(db, j, Pending) then 1 else 0) <= pendingWrites
  }

  lemma CommandKeepsTokens(db: Db, c: Cmd, id: Id, d: nat, t: nat, p: nat, j: Id)
    requires Legal(c, id) && Tokens(db, d, t, p, j)
    ensures Tokens(Apply(db, c), d, t, if c.HSetState? && c.id == j then p + 1 else p, j)
  {
  }

  lemma TriggerKeepsTokens(db: Db, task: Task, now: int, d: nat, t: nat, p: nat, j: Id)
    requires CasMatches(db, task.id, Pending) && Tokens(db, d, t, p, j)
    ensures Tokens(Cas(db, task, Pending, Ready, now), d, if task.id == j then t + 1 else t, p, j)
  {
  }

  lemma DispatchKeepsTokens(db: Db, task: Task, now: int, d: nat, t: nat, p: nat, j: Id)
    requires CasMatches(db, task.id, Ready) && Tokens(db, d, t, p, j)
    ensures Tokens(Cas(db, task, Ready, Dispatched, now), if task.id == j then d + 1 else d, t, p, j)
  {
  }

  predicate TokensAt(w: World, j: Id) {
    Tokens(w.db, |ForJob(w.dispatched, j)|, Count(w.triggers, j), Count(w.pendingWrites, j), j)
  }

  lemma NewDispatch(dispatched: map<nat, Task>, a: nat, task: Task, j: Id)
    requires a !in dispatched
    ensures |ForJob(dispatched[a := task], j)| == |ForJob(dispatched, j)| + if task.id == j then 1 else 0
  {
    var after := ForJob(dispatched[a := task], j);
    assert after == ForJob(dispatched, j) + if task.id == j then {a} else {};
  }

  // The counters of job j after a step.
  predicate TokensAfter(w: World, step: Step, j: Id)
    requires Enabled(w, step)
  {
    Tokens(NextDb(w, step), |ForJob(NextDispatched(w, step), j)|, Count(NextTriggers(w, step), j),
           Count(NextPendingWrites(w, step), j), j)
  }

  lemma CasKeepsTokens(w: World, step: Step, j: Id)
    requires ActorsOk(w) && Enabled(w, step) && TokensAt(w, j) && step.RunCas? && CasWins(w, step.a)
    ensures TokensAfter(w, step, j)
  {
    var d, t, p := |ForJob(w.dispatched, j)|, Count(w.triggers, j), Count(w.pendingWrites, j);
    var x := w.actors[step.a];
    assert ActorOk(step.a, x, w.dispatched);
    TriggerAndDispatchSources(x.seen);
    if x.event == Trigger {
      TriggerKeepsTokens(w.db, x.task, x.now, d, t, p, j);
    } else {
      DispatchKeepsTokens(w.db, x.task, x.now, d, t, p, j);
      NewDispatch(w.dispatched, step.a, x.task, j);
    }
  }

  lemma StepKeepsTokens(w: World, step: Step, j: Id)
    requires ActorsOk(w) && Enabled(w, step) && TokensAt(w, j)
    ensures TokensAfter(w, step, j)
  {
    if step.Run? {
      var x := w.actors[step.a];
      assert ActorOk(step.a, x, w.dispatched);
      CommandKeepsTokens(w.db, Todo(x)[0], JobOf(x), |ForJob(w.dispatched, j)|, Count(w.triggers, j),
                         Count(w.pendingWrites, j), j);
    } else if step.RunCas? && CasWins(w, step.a) {
      CasKeepsTokens(w, step, j);
    }
  }

  lemma {:induction false} RunKeepsActors(ws: seq<World>, steps: seq<Step>, k: nat)
    requires IsRun(ws, steps) && k < |ws|
    ensures ActorsOk(ws[k])
  {
    if k > 0 {
      RunKeepsActors(ws, steps, k - 1);
      StepKeepsActors(ws[k - 1], steps[k - 1]);
    }
  }

  lemma {:induction false} TokensHold(ws: seq<World>, steps: seq<Step>, k: nat, j: Id)
    requires IsRun(ws, steps) && k < |ws|
    ensures TokensAt(ws[k], j)
  {
    if k > 0 {
      TokensHold(ws, steps, k - 1, j);
      RunKeepsActors(ws, steps, k - 1);
      StepKeepsTokens(ws[k - 1], steps[k - 1], j);
    } else {
      assert ForJob(ws[0].dispatched, j) == {};
    }
  }

  // Each DISPATCH uses up a TRIGGER and each TRIGGER a PENDING write, so a job that is READY or PENDING has
  // at most one more dispatch coming.
  lemma DispatchesAreBounded(ws: seq<World>, steps: seq<Step>, k: nat, j: Id)
    requires IsRun(ws, steps) && k < |ws|
    ensures |ForJob(ws[k].dispatched, j)| <= Count(ws[k].triggers, j) <= Count(ws[k].pendingWrites, j)
    ensures |ForJob(ws[k].dispatched, j)| + (if StatusIs(ws[k].db, j, Ready) then 1 else 0)
      + (if StatusIs(ws[k].db, j, Pending) then 1 else 0) <= Count(ws[k].pendingWrites, j)
  {
    TokensHold(ws, steps, k, j);
  }

  // ---- What it takes to be dispatched again ----

  // What a step can do to the status of job j and to its record of TRIGGERs, PENDING writes and dispatches.
  datatype Track = Track(ready: bool, pending: bool, triggers: nat, pendingWrites: nat, dispatched: set<nat>)

  function TrackOf(db: Db, triggers: map<Id, nat>, pendingWrites: map<Id, nat>, dispatched: map<nat, Task>, j: Id): Track {
    Track(StatusIs(db, j, Ready), StatusIs(db, j, Pending), Count(triggers, j), Count(pendingWrites, j),
          ForJob(dispatched, j))
  }

  function At(w: World, j: Id): Track { TrackOf(w.db, w.triggers, w.pendingWrites, w.dispatched, j) }

  // READY comes from a TRIGGER, a TRIGGER from PENDING, PENDING from a PENDING write, a dispatch from READY.
  predicate Moves(a: Track, b: Track) {
    && a.triggers <= b.triggers && a.pendingWrites <= b.pendingWrites
    && (b.ready ==> a.ready || b.triggers > a.triggers)
    && (b.triggers > a.triggers ==> a.pending)
    && (b.pending ==> a.pending || b.pendingWrites > a.pendingWrites)
    && (b.dispatched != a.dispatched ==> a.ready)
  }

  lemma CommandMoves(db: Db, c: Cmd, id: Id, j: Id)
    requires Legal(c, id)
    ensures StatusIs(Apply(db, c), j, Ready) ==> StatusIs(db, j, Ready)
    ensures StatusIs(Apply(db, c), j, Pending) ==> StatusIs(db, j, Pending) || (c.HSetState? && c.id == j)
  {
  }

  lemma CasMoves(db: Db, task: Task, from: Status, to: Status, now: int, j: Id, s: Status)
    requires CasMatches(db, task.id, from) && !Terminal(to)
    ensures StatusIs(Cas(db, task, from, to, now), j, s) <==> if task.id == j then s == to else StatusIs(db, j, s)
  {
  }

  lemma CasStepMoves(w: World, step: Step, j: Id)
    requires ActorsOk(w) && Enabled(w, step) && step.RunCas? && CasWins(w, step.a)
    ensures Moves(At(w, j), TrackOf(NextDb(w, step), NextTriggers(w, step), NextPendingWrites(w, step),
                                    NextDispatched(w, step), j))
  {
    var x := w.actors[step.a];
    assert ActorOk(step.a, x, w.dispatched);
    TriggerAndDispatchSources(x.seen);
    var to := Target(x.seen, x.event).value;
    CasMoves(w.db, x.task, x.seen, to, x.now, j, Ready);
    CasMoves(w.db, x.task, x.seen, to, x.now, j, Pending);
  }

  lemma StepMoves(w: World, step: Step, j: Id)
    requires ActorsOk(w) && Enabled(w, step)
    ensures Moves(At(w, j), TrackOf(NextDb(w, step), NextTriggers(w, step), NextPendingWrites(w, step),
                                    NextDispatched(w, step), j))
  {
    if step.Run? {
      var x := w.actors[step.a];
      assert Legal(Todo(x)[0], JobOf(x));
      CommandMoves(w.db, Todo(x)[0], JobOf(x), j);
    } else if step.RunCas? && CasWins(w, step.a) {
      CasStepMoves(w, step, j);
    }
  }

  ghost predicate IsTrack(ts: seq<Track>) {
    forall k :: 0 <= k < |ts| - 1 ==> Moves(ts[k], ts[k + 1])
  }

  lemma {:induction false} WithoutTrigger(ts: seq<Track>, k: nat, m: nat)
    requires IsTrack(ts) && k <= m < |ts| && !ts[k].ready
    ensures ts[k].triggers <= ts[m].triggers
    ensures ts[k].triggers == ts[m].triggers ==> !ts[m].ready && ts[m].dispatched == ts[k].dispatched
    decreases m
  {
    if k < m {
      WithoutTrigger(ts, k, m - 1);
      assert Moves(ts[m - 1], ts[m - 1 + 1]);
    }
  }

  lemma {:induction false} WithoutPendingWrite(ts: seq<Track>, k: nat, m: nat)
    requires IsTrack(ts) && k <= m < |ts| && !ts[k].ready && !ts[k].pending
    ensures ts[k].pendingWrites <= ts[m].pendingWrites
    ensures ts[k].pendingWrites == ts[m].pendingWrites ==> ts[m] == ts[k]
    decreases m
  {
    if k < m {
      WithoutPendingWrite(ts, k, m - 1);
      assert Moves(ts[m - 1], ts[m - 1 + 1]);
    }
  }

  ghost function Tracked(ws: seq<World>, j: Id): seq<Track> { seq(|ws|, k requires 0 <= k < |ws| => At(ws[k], j)) }

  lemma RunMoves(ws: seq<World>, steps: seq<Step>, k: nat, j: Id)
    requires IsRun(ws, steps) && k < |steps|
    ensures Moves(At(ws[k], j), At(ws[k + 1], j))
  {
    RunKeepsActors(ws, steps, k);
    StepMoves(ws[k], steps[k], j);
  }

  lemma RunIsTracked(ws: seq<World>, steps: seq<Step>, j: Id)
    requires IsRun(ws, steps)
    ensures IsTrack(Tracked(ws, j))
  {
    var ts := Tracked(ws, j);
    forall k | 0 <= k < |ts| - 1 ensures Moves(ts[k], ts[k + 1]) {
      RunMoves(ws, steps, k, j);
    }
  }

  // A job that is not READY is not dispatched before it is triggered again. In particular a task pushed back
  // after a failed publish, whose job is DISPATCHED by then, is skipped however often it is popped.
  lemma NoDispatchWithoutTrigger(ws: seq<World>, steps: seq<Step>, k: nat, m: nat, j: Id)
    requires IsRun(ws, steps) && k <= m < |ws| && !StatusIs(ws[k].db, j, Ready)
    requires Count(ws[m].triggers, j) == Count(ws[k].triggers, j)
    ensures !StatusIs(ws[m].db, j, Ready) && ForJob(ws[m].dispatched, j) == ForJob(ws[k].dispatched, j)
  {
    RunIsTracked(ws, steps, j);
    WithoutTrigger(Tracked(ws, j), k, m);
  }

  // A job that failed and is to be retried, is in flight or has ended is neither triggered nor dispatched before
  // a submission or a recovery loop writes PENDING again, however often the fetcher and the pending recovery
  // move it between the queues. So a RETRY job is not run again by having been queued for its retry.
  lemma RetryWaitsForPendingWrite(ws: seq<World>, steps: seq<Step>, k: nat, m: nat, j: Id)
    requires IsRun(ws, steps) && k <= m < |ws| && !StatusIs(ws[k].db, j, Pending) && !StatusIs(ws[k].db, j, Ready)
    requires Count(ws[m].pendingWrites, j) == Count(ws[k].pendingWrites, j)
    ensures !StatusIs(ws[m].db, j, Pending) && !StatusIs(ws[m].db, j, Ready)
    ensures Count(ws[m].triggers, j) == Count(ws[k].triggers, j)
    ensures ForJob(ws[m].dispatched, j) == ForJob(ws[k].dispatched, j)
  {
    RunIsTracked(ws, steps, j);
    WithoutPendingWrite(Tracked(ws, j), k, m);
  }
}
