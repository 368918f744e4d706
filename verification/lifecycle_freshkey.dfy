/** How far dispatch runs ahead of the trigger time, and why a job recovered by the monitor is executed again
    under a dedupe key that no earlier dispatch of it has used. */
module LifecycleFreshKey {
  import opened Model
  import opened Redis
  import opened Fsm
  import opened DedupeKeys
  import opened Lifecycle
  import opened LifecycleTokens
  import Backoff
  import Executor
  import Scheduler

  const MAX_AHEAD := 31

  // Writes to the active index run at most lag seconds after the clock was read for them.
  predicate Timely(w: World, step: Step, lag: nat)
    requires Enabled(w, step)
  {
    && (step.Run? && Todo(w.actors[step.a])[0].ZAddActive? ==> Todo(w.actors[step.a])[0].score >= w.clock - lag)
    && (step.RunCas? ==> w.actors[step.a].now >= w.clock - lag)
  }

  ghost predicate NotAhead(tasks: set<Task>, clock: int, ahead: int) {
    forall t :: t in tasks ==> t.triggerTime <= clock + ahead
  }

  ghost predicate SourcesOk(w: World) {
    && (forall p :: p in w.fetched ==> p.1 <= w.clock + Scheduler.PRELOAD_SECONDS)
    && NotAhead(w.parsed, w.clock, Scheduler.PRELOAD_SECONDS)
    && NotAhead(w.local, w.clock, MAX_AHEAD)
    && (forall a :: a in w.actors && w.actors[a].Firing? ==> w.actors[a].task.triggerTime <= w.clock + MAX_AHEAD)
    && (forall a :: a in w.actors && w.actors[a].Publishing? ==> w.actors[a].task.triggerTime <= w.clock + MAX_AHEAD)
  }

  // A dispatch of a job is at most so far ahead of the last time its active entry was written.
  ghost predicate DispatchesOk(dispatched: map<nat, Task>, touched: map<Id, int>) {
    forall a :: a in dispatched ==>
      dispatched[a].id in touched && dispatched[a].triggerTime <= touched[dispatched[a].id] + MAX_AHEAD
  }

  // The active score trails that time by the lag at most.
  ghost predicate ScoresOk(db: Db, touched: map<Id, int>, clock: int, lag: nat) {
    forall j :: j in touched ==> touched[j] <= clock && (j in db.active ==> touched[j] - lag <= db.active[j])
  }

  ghost predicate Ahead(w: World, lag: nat) {
    SourcesOk(w) && DispatchesOk(w.dispatched, w.touched) && ScoresOk(w.db, w.touched, w.clock, lag)
  }

  function NextClock(w: World, step: Step): int {
    if step.Tick? then w.clock + step.seconds else w.clock
  }

  lemma StepKeepsPools(w: World, step: Step)
    requires SourcesOk(w) && Enabled(w, step)
    ensures forall p :: p in NextFetched(w, step) ==> p.1 <= NextClock(w, step) + Scheduler.PRELOAD_SECONDS
    ensures NotAhead(NextParsed(w, step), NextClock(w, step), Scheduler.PRELOAD_SECONDS)
  {
  }

  lemma StepKeepsLocal(w: World, step: Step)
    requires SourcesOk(w) && Enabled(w, step)
    ensures NotAhead(NextLocal(w, step), NextClock(w, step), MAX_AHEAD)
  {
  }

  lemma StepKeepsInHand(w: World, step: Step, a: nat)
    requires SourcesOk(w) && Enabled(w, step) && a in NextActors(w, step)
    ensures var x := NextActors(w, step)[a];
      x.Firing? || x.Publishing? ==> x.task.triggerTime <= NextClock(w, step) + MAX_AHEAD
  {
    if !(GoesOn(step) && step.a == a) && !(Begins(w, step) && a == w.nextId) {
      assert NextActors(w, step)[a] == w.actors[a];
    }
  }

  lemma StepKeepsSources(w: World, step: Step)
    requires SourcesOk(w) && Enabled(w, step)
    ensures SourcesOk(Do(w, step))
  {
    StepKeepsPools(w, step);
    StepKeepsLocal(w, step);
    forall a | a in NextActors(w, step)
      ensures var x := NextActors(w, step)[a];
        x.Firing? || x.Publishing? ==> x.task.triggerTime <= NextClock(w, step) + MAX_AHEAD
    {
      StepKeepsInHand(w, step, a);
    }
  }

  lemma StepKeepsDispatches(w: World, step: Step, lag: nat)
    requires Ahead(w, lag) && Enabled(w, step)
    ensures DispatchesOk(NextDispatched(w, step), NextTouched(w, step))
  {
  }

  lemma CommandKeepsScores(db: Db, c: Cmd, touched: map<Id, int>, clock: int, lag: nat)
    requires ScoresOk(db, touched, clock, lag) && (c.ZAddActive? ==> c.score >= clock - lag)
    ensures ScoresOk(Apply(db, c), if c.ZAddActive? then touched[c.id := clock] else touched, clock, lag)
  {
  }

  lemma CasKeepsScores(db: Db, task: Task, from: Status, to: Status, now: int, touched: map<Id, int>, clock: int, lag: nat)
    requires ScoresOk(db, touched, clock, lag) && now >= clock - lag
    requires CasMatches(db, task.id, from) && !Terminal(to)
    ensures ScoresOk(Cas(db, task, from, to, now), touched[task.id := clock], clock, lag)
  {
  }

  lemma StepKeepsScores(w: World, step: Step, lag: nat)
    requires Ahead(w, lag) && ActorsOk(w) && Enabled(w, step) && Timely(w, step, lag)
    ensures ScoresOk(NextDb(w, step), NextTouched(w, step), NextClock(w, step), lag)
  {
    if step.Run? {
      CommandKeepsScores(w.db, Todo(w.actors[step.a])[0], w.touched, w.clock, lag);
    } else if step.RunCas? && CasWins(w, step.a) {
      var x := w.actors[step.a];
      assert ActorOk(step.a, x, w.dispatched);
      TriggerAndDispatchSources(x.seen);
      CasKeepsScores(w.db, x.task, x.seen, Target(x.seen, x.event).value, x.now, w.touched, w.clock, lag);
    } else {
      assert NextDb(w, step).active == w.db.active;
    }
  }

  ghost predicate TimelyRun(ws: seq<World>, steps: seq<Step>, lag: nat) {
    IsRun(ws, steps) && forall k {:trigger steps[k]} :: 0 <= k < |steps| ==> Timely(ws[k], steps[k], lag)
  }

  lemma {:induction false} AheadHolds(ws: seq<World>, steps: seq<Step>, lag: nat, k: nat)
    requires TimelyRun(ws, steps, lag) && k < |ws|
    ensures Ahead(ws[k], lag)
  {
    if k > 0 {
      AheadHolds(ws, steps, lag, k - 1);
      RunKeepsActors(ws, steps, k - 1);
      StepKeepsSources(ws[k - 1], steps[k - 1]);
      StepKeepsDispatches(ws[k - 1], steps[k - 1], lag);
      StepKeepsScores(ws[k - 1], steps[k - 1], lag);
    }
  }

  // No job is dispatched more than 31 s before its trigger time.
  lemma DispatchIsNotFarAhead(ws: seq<World>, steps: seq<Step>, lag: nat, k: nat)
    requires TimelyRun(ws, steps, lag) && k < |steps| && steps[k].RunCas?
    ensures forall a :: a in ws[k + 1].dispatched && a !in ws[k].dispatched ==>
      ws[k + 1].dispatched[a].triggerTime <= ws[k].clock + MAX_AHEAD
  {
    AheadHolds(ws, steps, lag, k);
  }

  // ---- The key of a job the monitor puts back ----

  // The active entry of job j was two minutes old at the time now.
  predicate StaleAt(w: World, j: Id, now: int) { j in InRange(w.db.active, now - STALE_SECONDS) }

  ghost predicate WasStale(ws: seq<World>, k: nat, j: Id, now: int)
    requires k < |ws|
  {
    exists m :: 0 <= m <= k && StaleAt(ws[m], j, now)
  }

  // What the monitor works on was stale once: when it made its scan. It need not be any more.
  ghost predicate MonitorsOk(ws: seq<World>, k: nat)
    requires k < |ws|
  {
    && (forall p :: p in ws[k].stale ==> WasStale(ws, k, p.0, p.1))
    && (forall a :: a in ws[k].actors && ws[k].actors[a].Recovering? && ws[k].actors[a].monitor ==>
          WasStale(ws, k, ws[k].actors[a].id, ws[k].actors[a].since))
  }

  // The pool came from a scan, and a job the monitor works on from the pool.
  lemma PoolComesFromScan(w: World, step: Step)
    requires Enabled(w, step)
    ensures forall p :: p in NextStale(w, step) ==> p in w.stale || StaleAt(w, p.0, p.1)
  {
  }

  lemma MonitorComesFromPool(w: World, step: Step, a: nat)
    requires Enabled(w, step) && a in NextActors(w, step)
    requires NextActors(w, step)[a].Recovering? && NextActors(w, step)[a].monitor
    ensures || (a in w.actors && w.actors[a] == NextActors(w, step)[a])
            || (NextActors(w, step)[a].id, NextActors(w, step)[a].since) in w.stale
  {
  }

  lemma StaleStays(ws: seq<World>, k: nat, j: Id, now: int)
    requires 0 < k < |ws| && (WasStale(ws, k - 1, j, now) || StaleAt(ws[k - 1], j, now))
    ensures WasStale(ws, k, j, now)
  {
    var m :| 0 <= m <= k - 1 && StaleAt(ws[m], j, now);
  }

  lemma {:induction false} MonitorsFollowScans(ws: seq<World>, steps: seq<Step>, k: nat)
    requires IsRun(ws, steps) && k < |ws|
    ensures MonitorsOk(ws, k)
  {
    if k > 0 {
      MonitorsFollowScans(ws, steps, k - 1);
      var w, step := ws[k - 1], steps[k - 1];
      PoolComesFromScan(w, step);
      forall p | p in ws[k].stale ensures WasStale(ws, k, p.0, p.1) {
        StaleStays(ws, k, p.0, p.1);
      }
      forall a | a in ws[k].actors && ws[k].actors[a].Recovering? && ws[k].actors[a].monitor
        ensures WasStale(ws, k, ws[k].actors[a].id, ws[k].actors[a].since)
      {
        var x := ws[k].actors[a];
        MonitorComesFromPool(w, step, a);
        assert (x.id, x.since) in w.stale ==> WasStale(ws, k - 1, x.id, x.since);
        StaleStays(ws, k, x.id, x.since);
      }
    }
  }

  // Whoever dispatched a job once did so for good.
  lemma {:induction false} DispatchesStay(ws: seq<World>, steps: seq<Step>, m: nat, k: nat, d: nat)
    requires IsRun(ws, steps) && m <= k < |ws| && d in ws[m].dispatched
    ensures d in ws[k].dispatched && ws[k].dispatched[d] == ws[m].dispatched[d]
    decreases k
  {
    if m < k {
      DispatchesStay(ws, steps, m, k - 1, d);
      RunKeepsActors(ws, steps, k - 1);
      DispatchStays(ws[k - 1], steps[k - 1], d);
    }
  }

  lemma DispatchStays(w: World, step: Step, d: nat)
    requires ActorsOk(w) && Enabled(w, step) && d in w.dispatched
    ensures d in NextDispatched(w, step) && NextDispatched(w, step)[d] == w.dispatched[d]
  {
    if step.RunCas? {
      assert ActorOk(step.a, w.actors[step.a], w.dispatched);
    }
  }

  // No dispatch of the job before it was found stale had a trigger time as late as now.
  lemma StaleOutlivesDispatches(ws: seq<World>, steps: seq<Step>, lag: nat, m: nat, j: Id, now: int)
    requires TimelyRun(ws, steps, lag) && lag < 89 && m < |ws| && StaleAt(ws[m], j, now)
    ensures forall d :: d in ForJob(ws[m].dispatched, j) ==> ws[m].dispatched[d].triggerTime < now
  {
    AheadHolds(ws, steps, lag, m);
  }

  // The monitor's turn: it decides on job j, with the clock reading its scan was made for, due at this time.
  predicate Decides(ws: seq<World>, steps: seq<Step>, k: nat, j: Id, now: int, due: int)
    requires |ws| == |steps| + 1 && k < |steps|
  {
    && steps[k].ReadDetail? && steps[k].a in ws[k].actors && ws[k].actors[steps[k].a].Recovering?
    && ws[k].actors[steps[k].a].monitor && ws[k].actors[steps[k].a].id == j && ws[k].actors[steps[k].a].since == now
    && due == Rescued(ws[k].db, ws[k].actors[steps[k].a], steps[k].detailOk).triggerTime
  }

  // Dispatch d used the key that job j will have when it is due then.
  predicate UsedKey(w: World, j: Id, due: int, d: nat) {
    d in ForJob(w.dispatched, j) && Key(j, w.dispatched[d].triggerTime) == Key(j, due)
  }

  ghost predicate KeyIsUsed(w: World, j: Id, due: int) { exists d :: UsedKey(w, j, due, d) }

  // The monitor reads the record, and later the detail, without looking at the age again. If m is any moment up to
  // then at which the active entry still was stale, the time it writes back is later than every trigger time the job
  // was dispatched with until m. So its key is new if and only if no dispatch after m was for that very second;
  // in particular if there was none.
  lemma MonitoredKeyIsFreshIff(ws: seq<World>, steps: seq<Step>, lag: nat, m: nat, k: nat, j: Id, now: int, due: int)
    requires TimelyRun(ws, steps, lag) && lag < 89 && m <= k < |steps|
    requires Decides(ws, steps, k, j, now, due) && StaleAt(ws[m], j, now)
    ensures due >= now
    ensures forall d :: d in ForJob(ws[m].dispatched, j) ==> ws[m].dispatched[d].triggerTime < due
    ensures !KeyIsUsed(ws[k], j, due) <==>
      forall d :: d in ForJob(ws[k].dispatched, j) - ForJob(ws[m].dispatched, j) ==> ws[k].dispatched[d].triggerTime != due
    ensures ForJob(ws[k].dispatched, j) == ForJob(ws[m].dispatched, j) ==> !KeyIsUsed(ws[k], j, due)
  {
    StaleOutlivesDispatches(ws, steps, lag, m, j, now);
    forall d | d in ForJob(ws[k].dispatched, j)
      ensures UsedKey(ws[k], j, due, d) <==> ws[k].dispatched[d].triggerTime == due
      ensures d in ForJob(ws[m].dispatched, j) ==> ws[k].dispatched[d].triggerTime < due
    {
      if UsedKey(ws[k], j, due, d) {
        KeyInjective(j, ws[k].dispatched[d].triggerTime, j, due);
      }
      if d in ForJob(ws[m].dispatched, j) {
        DispatchesStay(ws, steps, m, k, d);
      }
    }
  }

  // Such a moment always exists: the scan.
  lemma MonitoredKeyIsFresh(ws: seq<World>, steps: seq<Step>, lag: nat, k: nat, j: Id, now: int, due: int) returns (m: nat)
    requires TimelyRun(ws, steps, lag) && lag < 89 && k < |steps| && Decides(ws, steps, k, j, now, due)
    ensures m <= k && StaleAt(ws[m], j, now) && due >= now
    ensures forall d :: d in ForJob(ws[m].dispatched, j) ==> ws[m].dispatched[d].triggerTime < due
    ensures !KeyIsUsed(ws[k], j, due) <==>
      forall d :: d in ForJob(ws[k].dispatched, j) - ForJob(ws[m].dispatched, j) ==> ws[k].dispatched[d].triggerTime != due
  {
    MonitorsFollowScans(ws, steps, k);
    assert WasStale(ws, k, j, now);
    m :| 0 <= m <= k && StaleAt(ws[m], j, now);
    MonitoredKeyIsFreshIff(ws, steps, lag, m, k, j, now, due);
  }
}
