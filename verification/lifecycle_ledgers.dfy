/** What the records kept along a run count, in terms of the run's own steps and of the keys before and after them. */
module LifecycleLedgers {
  import opened Model
  import opened Redis
  import opened Fsm
  import opened Lifecycle
  import opened LifecycleTokens
  import opened LifecycleCallbacks

  // A command that writes a whole PENDING record of job j.
  predicate WritesPending(w: World, step: Step, j: Id) {
    && step.Run? && Is(w, step.a) && Todo(w.actors[step.a]) != []
    && var c := Todo(w.actors[step.a])[0];
    c.HSetState? && c.id == j && c.rec.status == Pending
  }

  // A CAS that moves job j from one status to another.
  predicate Moved(w: World, step: Step, n: World, j: Id, from: Status, to: Status) {
    step.RunCas? && StatusIs(w.db, j, from) && StatusIs(n.db, j, to)
  }

  predicate CallsBack(w: World, step: Step, j: Id) {
    step.Call? && Is(w, step.a) && w.actors[step.a].Handling? && w.actors[step.a].cmd.id == j
  }

  predicate MovedAt(ws: seq<World>, steps: seq<Step>, k: nat, j: Id, from: Status, to: Status)
    requires k < |steps| < |ws|
  {
    Moved(ws[k], steps[k], ws[k + 1], j, from, to)
  }

  // How many of the first n steps do so.
  function PendingSteps(ws: seq<World>, steps: seq<Step>, n: nat, j: Id): nat
    requires n <= |steps| < |ws|
  {
    if n == 0 then 0
    else PendingSteps(ws, steps, n - 1, j) + if WritesPending(ws[n - 1], steps[n - 1], j) then 1 else 0
  }

  function MovedSteps(ws: seq<World>, steps: seq<Step>, n: nat, j: Id, from: Status, to: Status): nat
    requires n <= |steps| < |ws|
  {
    if n == 0 then 0
    else MovedSteps(ws, steps, n - 1, j, from, to) + if MovedAt(ws, steps, n - 1, j, from, to) then 1 else 0
  }

  function CallSteps(ws: seq<World>, steps: seq<Step>, n: nat, j: Id): nat
    requires n <= |steps| < |ws|
  {
    if n == 0 then 0
    else CallSteps(ws, steps, n - 1, j) + if CallsBack(ws[n - 1], steps[n - 1], j) then 1 else 0
  }

  // ---- One step ----

  lemma PendingWriteCounts(w: World, step: Step, j: Id)
    requires Enabled(w, step)
    ensures Count(NextPendingWrites(w, step), j)
         == Count(w.pendingWrites, j) + if WritesPending(w, step, j) then 1 else 0
  {
  }

  // A CAS that wins moves its job; one that does not changes nothing.
  lemma CasMovesJob(w: World, step: Step, j: Id, from: Status, to: Status)
    requires ActorsOk(w) && Enabled(w, step) && step.RunCas? && from != to
    ensures StatusIs(w.db, j, from) && StatusIs(NextDb(w, step), j, to) <==>
      && CasWins(w, step.a) && w.actors[step.a].task.id == j
      && w.actors[step.a].seen == from && Target(from, w.actors[step.a].event) == Some(to)
  {
    var x := w.actors[step.a];
    assert ActorOk(step.a, x, w.dispatched);
    if CasWins(w, step.a) {
      TriggerAndDispatchSources(x.seen);
      CasMoves(w.db, x.task, x.seen, Target(x.seen, x.event).value, x.now, j, to);
    }
  }

  lemma TriggerCounts(w: World, step: Step, j: Id)
    requires ActorsOk(w) && Enabled(w, step)
    ensures Count(NextTriggers(w, step), j)
         == Count(w.triggers, j) + if Moved(w, step, Do(w, step), j, Pending, Ready) then 1 else 0
  {
    if step.RunCas? {
      assert ActorOk(step.a, w.actors[step.a], w.dispatched);
      CasMovesJob(w, step, j, Pending, Ready);
      TriggerAndDispatchSources(w.actors[step.a].seen);
    }
  }

  lemma DispatchCounts(w: World, step: Step, j: Id)
    requires ActorsOk(w) && Enabled(w, step)
    ensures |ForJob(NextDispatched(w, step), j)|
         == |ForJob(w.dispatched, j)| + if Moved(w, step, Do(w, step), j, Ready, Dispatched) then 1 else 0
  {
    if step.RunCas? {
      var x := w.actors[step.a];
      assert ActorOk(step.a, x, w.dispatched);
      CasMovesJob(w, step, j, Ready, Dispatched);
      TriggerAndDispatchSources(x.seen);
      if CasWins(w, step.a) && x.event != Trigger {
        NewDispatch(w.dispatched, step.a, x.task, j);
      }
    }
  }

  lemma CallCounts(w: World, step: Step, j: Id)
    requires Ledger(w) && Enabled(w, step)
    ensures |CallsFor(Do(w, step), j)| == |CallsFor(w, j)| + if CallsBack(w, step, j) then 1 else 0
  {
    if step.Call? {
      assert HandlerOk(step.a, w.actors[step.a], w.msgs, w.won, w.calls);
      NewCall(w, Do(w, step), step.a, w.actors[step.a].cmd, j);
    } else {
      assert CallsFor(Do(w, step), j) == CallsFor(w, j);
    }
  }

  lemma NewCall(w: World, n: World, a: nat, cmd: TaskCommand, j: Id)
    requires a !in w.calls && n.calls == w.calls[a := cmd]
    ensures |CallsFor(n, j)| == |CallsFor(w, j)| + if cmd.id == j then 1 else 0
  {
    assert CallsFor(n, j) == if cmd.id == j then CallsFor(w, j)[a := cmd.triggerTime] else CallsFor(w, j);
  }

  // ---- Runs ----

  lemma NothingIsCounted(w: World, j: Id)
    requires Init(w)
    ensures Count(w.pendingWrites, j) == 0 == Count(w.triggers, j)
    ensures |ForJob(w.dispatched, j)| == 0 == |CallsFor(w, j)|
  {
    assert ForJob(w.dispatched, j) == {} && CallsFor(w, j) == map[];
  }

  lemma RunCountsPending(ws: seq<World>, steps: seq<Step>, k: nat, j: Id)
    requires IsRun(ws, steps) && k < |steps|
    ensures Count(ws[k + 1].pendingWrites, j)
         == Count(ws[k].pendingWrites, j) + if WritesPending(ws[k], steps[k], j) then 1 else 0
  {
    PendingWriteCounts(ws[k], steps[k], j);
  }

  lemma RunCountsTriggers(ws: seq<World>, steps: seq<Step>, k: nat, j: Id)
    requires IsRun(ws, steps) && k < |steps|
    ensures Count(ws[k + 1].triggers, j)
         == Count(ws[k].triggers, j) + if MovedAt(ws, steps, k, j, Pending, Ready) then 1 else 0
  {
    RunKeepsActors(ws, steps, k);
    TriggerCounts(ws[k], steps[k], j);
  }

  lemma RunCountsDispatches(ws: seq<World>, steps: seq<Step>, k: nat, j: Id)
    requires IsRun(ws, steps) && k < |steps|
    ensures |ForJob(ws[k + 1].dispatched, j)|
         == |ForJob(ws[k].dispatched, j)| + if MovedAt(ws, steps, k, j, Ready, Dispatched) then 1 else 0
  {
    RunKeepsActors(ws, steps, k);
    DispatchCounts(ws[k], steps[k], j);
  }

  lemma RunCountsCalls(ws: seq<World>, steps: seq<Step>, k: nat, j: Id)
    requires IsRun(ws, steps) && k < |steps| && forall i :: 0 <= i < k ==> WithinTTL(ws[i])
    ensures |CallsFor(ws[k + 1], j)|
         == |CallsFor(ws[k], j)| + if CallsBack(ws[k], steps[k], j) then 1 else 0
  {
    LedgerHolds(ws, steps, k);
    CallCounts(ws[k], steps[k], j);
  }

  lemma {:induction false} PendingWritesAreCounted(ws: seq<World>, steps: seq<Step>, n: nat, j: Id)
    requires IsRun(ws, steps) && n < |ws|
    ensures Count(ws[n].pendingWrites, j) == PendingSteps(ws, steps, n, j)
  {
    if n > 0 {
      PendingWritesAreCounted(ws, steps, n - 1, j);
      RunCountsPending(ws, steps, n - 1, j);
    } else {
      NothingIsCounted(ws[0], j);
    }
  }

  lemma {:induction false} TriggersAreCounted(ws: seq<World>, steps: seq<Step>, n: nat, j: Id)
    requires IsRun(ws, steps) && n < |ws|
    ensures Count(ws[n].triggers, j) == MovedSteps(ws, steps, n, j, Pending, Ready)
  {
    if n > 0 {
      TriggersAreCounted(ws, steps, n - 1, j);
      RunCountsTriggers(ws, steps, n - 1, j);
    } else {
      NothingIsCounted(ws[0], j);
    }
  }

  lemma {:induction false} DispatchesAreCounted(ws: seq<World>, steps: seq<Step>, n: nat, j: Id)
    requires IsRun(ws, steps) && n < |ws|
    ensures |ForJob(ws[n].dispatched, j)| == MovedSteps(ws, steps, n, j, Ready, Dispatched)
  {
    if n > 0 {
      DispatchesAreCounted(ws, steps, n - 1, j);
      RunCountsDispatches(ws, steps, n - 1, j);
    } else {
      NothingIsCounted(ws[0], j);
    }
  }

  lemma {:induction false} CallsAreCounted(ws: seq<World>, steps: seq<Step>, n: nat, j: Id)
    requires IsRun(ws, steps) && n < |ws| && forall i :: 0 <= i < n ==> WithinTTL(ws[i])
    ensures |CallsFor(ws[n], j)| == CallSteps(ws, steps, n, j)
  {
    if n > 0 {
      CallsAreCounted(ws, steps, n - 1, j);
      RunCountsCalls(ws, steps, n - 1, j);
    } else {
      NothingIsCounted(ws[0], j);
    }
  }

  // End to end, in the steps of the run alone: a job is called back at most as often as a CAS moved it from READY to
  // DISPATCHED, that happens at most as often as one moved it from PENDING to READY, and that at most as often as
  // a PENDING record was written for it.
  lemma CallbackStepsAreBounded(ws: seq<World>, steps: seq<Step>, n: nat, j: Id)
    requires IsRun(ws, steps) && n < |ws| && forall i :: 0 <= i < n ==> WithinTTL(ws[i])
    ensures CallSteps(ws, steps, n, j) <= MovedSteps(ws, steps, n, j, Ready, Dispatched)
         <= MovedSteps(ws, steps, n, j, Pending, Ready) <= PendingSteps(ws, steps, n, j)
  {
    CallsAreCounted(ws, steps, n, j);
    DispatchesAreCounted(ws, steps, n, j);
    TriggersAreCounted(ws, steps, n, j);
    PendingWritesAreCounted(ws, steps, n, j);
    CallbacksAreBounded(ws, steps, n, j);
    DispatchesAreBounded(ws, steps, n, j);
  }
}
