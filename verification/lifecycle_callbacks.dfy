/** Callbacks, end to end: won dedupe keys inject into dispatches, which are bounded by PENDING writes. */
module LifecycleCallbacks {
  import opened Model
  import opened Redis
  import opened DedupeKeys
  import opened Lifecycle
  import opened LifecycleTokens
  import Executor
  import opened Sets

  ghost predicate Sent(m: TaskCommand, dispatched: map<nat, Task>) {
    exists a :: a in dispatched && CommandOf(dispatched[a]) == m
  }

  // Operation a won the key of a command that was published.
  predicate Earned(a: nat, cmd: TaskCommand, msgs: set<TaskCommand>, won: map<string, nat>) {
    var k := Key(cmd.id, cmd.triggerTime);
    cmd in msgs && k in won && won[k] == a
  }

  predicate HandlerOk(a: nat, x: Actor, msgs: set<TaskCommand>, won: map<string, nat>, calls: map<nat, TaskCommand>) {
    x.Handling? ==>
      Earned(a, x.cmd, msgs, won) && if x.called then a in calls && calls[a] == x.cmd else a !in calls
  }

  ghost predicate MsgsOk(w: World) {
    forall m :: m in w.msgs ==> Sent(m, w.dispatched)
  }

  // No key set in this run has expired yet while the clock is within the TTL of the start.
  ghost predicate KeysOk(w: World) {
    && w.start <= w.clock
    && (forall k :: k in w.won ==> k in w.dedupe && w.won[k] < w.nextId)
    && (forall k :: k in w.dedupe ==> w.dedupe[k] >= w.start + Executor.DEDUPE_TTL)
  }

  ghost predicate CallsOk(w: World) {
    && (forall a :: a in w.actors ==> HandlerOk(a, w.actors[a], w.msgs, w.won, w.calls))
    && (forall a :: a in w.calls ==> a < w.nextId && Earned(a, w.calls[a], w.msgs, w.won))
  }

  ghost predicate Ledger(w: World) {
    ActorsOk(w) && MsgsOk(w) && KeysOk(w) && CallsOk(w)
  }

  predicate WithinTTL(w: World) { w.clock < w.start + Executor.DEDUPE_TTL }

  lemma StepKeepsMsgs(w: World, step: Step)
    requires Ledger(w) && Enabled(w, step)
    ensures forall m :: m in NextMsgs(w, step) ==> Sent(m, NextDispatched(w, step))
  {
    forall m | m in NextMsgs(w, step) ensures Sent(m, NextDispatched(w, step)) {
      if m in w.msgs {
        var a :| a in w.dispatched && CommandOf(w.dispatched[a]) == m;
        assert step.RunCas? && w.actors[step.a].Firing? ==> ActorOk(step.a, w.actors[step.a], w.dispatched);
        assert a in NextDispatched(w, step) && CommandOf(NextDispatched(w, step)[a]) == m;
      } else {
        assert ActorOk(step.a, w.actors[step.a], w.dispatched);
        assert step.a in w.dispatched;
      }
    }
  }

  lemma StepKeepsKeys(w: World, step: Step)
    requires Ledger(w) && Enabled(w, step)
    ensures KeysOk(Do(w, step))
  {
  }

  lemma StepKeepsEarned(w: World, step: Step, a: nat, cmd: TaskCommand)
    requires Ledger(w) && Enabled(w, step) && WithinTTL(w) && Earned(a, cmd, w.msgs, w.won)
    ensures Earned(a, cmd, NextMsgs(w, step), NextWon(w, step))
  {
  }

  // A handler keeps its command, and has called back once it took the Call step.
  lemma HandlerGoesOn(w: World, step: Step)
    requires Enabled(w, step) && GoesOn(step) && After(w, step).Some? && After(w, step).value.Handling?
    ensures var x, y := w.actors[step.a], After(w, step).value;
      x.Handling? && y.cmd == x.cmd && (y.called <==> x.called || step.Call?)
  {
  }

  lemma AfterKeepsHandler(w: World, step: Step)
    requires Ledger(w) && Enabled(w, step) && WithinTTL(w) && GoesOn(step) && After(w, step).Some?
    ensures HandlerOk(step.a, After(w, step).value, NextMsgs(w, step), NextWon(w, step), NextCalls(w, step))
  {
    if After(w, step).value.Handling? {
      HandlerGoesOn(w, step);
      assert HandlerOk(step.a, w.actors[step.a], w.msgs, w.won, w.calls);
      StepKeepsEarned(w, step, step.a, w.actors[step.a].cmd);
    }
  }

  lemma BegunIsHandler(w: World, step: Step)
    requires Ledger(w) && Enabled(w, step) && Begins(w, step)
    ensures HandlerOk(w.nextId, Begun(w, step), NextMsgs(w, step), NextWon(w, step), NextCalls(w, step))
  {
    assert w.nextId !in w.calls;
  }

  lemma OthersKeepHandler(w: World, step: Step, a: nat)
    requires Ledger(w) && Enabled(w, step) && WithinTTL(w) && a in w.actors && !(GoesOn(step) && step.a == a)
    ensures HandlerOk(a, w.actors[a], NextMsgs(w, step), NextWon(w, step), NextCalls(w, step))
  {
    assert HandlerOk(a, w.actors[a], w.msgs, w.won, w.calls);
    if w.actors[a].Handling? {
      StepKeepsEarned(w, step, a, w.actors[a].cmd);
    }
  }

  lemma StepKeepsHandler(w: World, step: Step, a: nat)
    requires Ledger(w) && Enabled(w, step) && WithinTTL(w) && a in NextActors(w, step)
    ensures HandlerOk(a, NextActors(w, step)[a], NextMsgs(w, step), NextWon(w, step), NextCalls(w, step))
  {
    if GoesOn(step) && step.a == a {
      AfterKeepsHandler(w, step);
    } else if Begins(w, step) && a == w.nextId {
      BegunIsHandler(w, step);
    } else {
      OthersKeepHandler(w, step, a);
    }
  }

  lemma StepKeepsCall(w: World, step: Step, a: nat)
    requires Ledger(w) && Enabled(w, step) && WithinTTL(w) && a in NextCalls(w, step)
    ensures a < w.nextId && Earned(a, NextCalls(w, step)[a], NextMsgs(w, step), NextWon(w, step))
  {
  }

  lemma StepKeepsLedger(w: World, step: Step)
    requires Ledger(w) && Enabled(w, step) && WithinTTL(w)
    ensures Ledger(Do(w, step))
  {
    StepKeepsActors(w, step);
    StepKeepsMsgs(w, step);
    StepKeepsKeys(w, step);
    forall a | a in NextActors(w, step)
      ensures HandlerOk(a, NextActors(w, step)[a], NextMsgs(w, step), NextWon(w, step), NextCalls(w, step))
    {
      StepKeepsHandler(w, step, a);
    }
    forall a | a in NextCalls(w, step)
      ensures a < w.nextId && Earned(a, NextCalls(w, step)[a], NextMsgs(w, step), NextWon(w, step))
    {
      StepKeepsCall(w, step, a);
    }
  }

  lemma {:induction false} LedgerHolds(ws: seq<World>, steps: seq<Step>, k: nat)
    requires IsRun(ws, steps) && k < |ws| && forall i :: 0 <= i < k ==> WithinTTL(ws[i])
    ensures Ledger(ws[k])
  {
    if k > 0 {
      LedgerHolds(ws, steps, k - 1);
      StepKeepsLedger(ws[k - 1], steps[k - 1]);
    }
  }

  // ---- Counting ----

  lemma {:induction false} ValuesAtMostKeys(m: map<nat, int>)
    ensures |m.Values| <= |m.Keys|
    decreases |m|
  {
  }

  lemma {:induction false} InjectiveValues(m: map<nat, int>)
    requires forall a, b :: a in m && b in m && m[a] == m[b] ==> a == b
    ensures |m.Values| == |m.Keys|
    decreases |m|
  {
    if m.Keys != {} {
      var a :| a in m.Keys;
      var rest := m - {a};
      InjectiveValues(rest);
      assert m.Keys == rest.Keys + {a};
      assert m.Values == rest.Values + {m[a]};
    } else {
      assert m.Values == {};
    }
  }

  function CallsFor(w: World, j: Id): map<nat, int> {
    map a | a in w.calls && w.calls[a].id == j :: w.calls[a].triggerTime
  }

  function DispatchTimes(w: World, j: Id): map<nat, int> {
    map a | a in ForJob(w.dispatched, j) :: w.dispatched[a].triggerTime
  }

  // Different callbacks for a job were made for different trigger times, each of which was dispatched.
  lemma CallsInject(w: World, j: Id)
    requires Ledger(w)
    ensures |CallsFor(w, j)| <= |ForJob(w.dispatched, j)|
  {
    var c, d := CallsFor(w, j), DispatchTimes(w, j);
    forall a, b | a in c && b in c && c[a] == c[b] ensures a == b {
      assert Earned(a, w.calls[a], w.msgs, w.won) && Earned(b, w.calls[b], w.msgs, w.won);
    }
    InjectiveValues(c);
    forall t | t in c.Values ensures t in d.Values {
      var a :| a in c && c[a] == t;
      assert Earned(a, w.calls[a], w.msgs, w.won) && Sent(w.calls[a], w.dispatched);
      var p :| p in w.dispatched && CommandOf(w.dispatched[p]) == w.calls[a];
      assert p in d && d[p] == t;
    }
    SubsetCount(c.Values, d.Values);
    ValuesAtMostKeys(d);
    assert d.Keys == ForJob(w.dispatched, j);
  }

  // In a run shorter than the 24 h of the dedupe keys, however messages are redelivered and whoever races,
  // the callbacks made for a job never exceed the times it was made PENDING.
  lemma CallbacksAreBounded(ws: seq<World>, steps: seq<Step>, k: nat, j: Id)
    requires IsRun(ws, steps) && k < |ws| && forall i :: 0 <= i < k ==> WithinTTL(ws[i])
    ensures |CallsFor(ws[k], j)| <= |ForJob(ws[k].dispatched, j)| <= Count(ws[k].pendingWrites, j)
  {
    LedgerHolds(ws, steps, k);
    CallsInject(ws[k], j);
    DispatchesAreBounded(ws, steps, k, j);
  }

  // And no two of them carry the same trigger time.
  lemma CallbacksDiffer(ws: seq<World>, steps: seq<Step>, k: nat, a: nat, b: nat)
    requires IsRun(ws, steps) && k < |ws| && forall i :: 0 <= i < k ==> WithinTTL(ws[i])
    requires a in ws[k].calls && b in ws[k].calls && a != b && ws[k].calls[a].id == ws[k].calls[b].id
    ensures ws[k].calls[a].triggerTime != ws[k].calls[b].triggerTime
  {
    LedgerHolds(ws, steps, k);
    assert Earned(a, ws[k].calls[a], ws[k].msgs, ws[k].won) && Earned(b, ws[k].calls[b], ws[k].msgs, ws[k].won);
  }
}
