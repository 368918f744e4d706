/** Runs that go wrong because operations on one job overlap: a job that no queue holds, and a job the monitor puts
    back under a dedupe key that is used up; and one that goes right. Each is built step by step, the first two from
    every world that allows them. */
module LifecycleOverlaps {
  import opened Model
  import opened Redis
  import opened Fsm
  import opened DedupeKeys
  import opened Lifecycle
  import opened LifecycleTokens
  import opened LifecycleCoverage
  import opened LifecycleFreshKey
  import Executor
  import Scheduler
  import Service

  // Steps from any world, without any lag.
  ghost predicate Walk(ws: seq<World>, steps: seq<Step>) {
    IsPath(ws, steps) && forall k {:trigger steps[k]} :: 0 <= k < |steps| ==> Timely(ws[k], steps[k], 0)
  }

  function Last(ws: seq<World>): World
    requires ws != []
  {
    ws[|ws| - 1]
  }

  lemma Extend(ws: seq<World>, steps: seq<Step>, step: Step) returns (ws': seq<World>, steps': seq<Step>)
    requires Walk(ws, steps) && Enabled(Last(ws), step) && Timely(Last(ws), step, 0)
    ensures Walk(ws', steps') && ws' == ws + [Do(Last(ws), step)] && steps' == steps + [step]
  {
    ws', steps' := ws + [Do(Last(ws), step)], steps + [step];
    forall k | 0 <= k < |steps'|
      ensures Enabled(ws'[k], steps'[k]) && ws'[k + 1] == Do(ws'[k], steps'[k]) && Timely(ws'[k], steps'[k], 0)
    {
      if k < |steps| {
        assert ws'[k] == ws[k] && ws'[k + 1] == ws[k + 1] && steps'[k] == steps[k];
      }
    }
  }

  // What running commands, firing and fetching leave as it was.
  predicate SameRest(w: World, n: World) {
    && n.start == w.start && n.clock == w.clock && n.listed == w.listed && n.stale == w.stale && n.dispatched == w.dispatched
    && n.dedupe == w.dedupe && n.calls == w.calls
  }

  // Operation a ran its next command.
  predicate AfterRun(w: World, n: World, a: nat)
    requires Is(w, a) && w.actors[a].Writing? && w.actors[a].todo != []
  {
    && SameRest(w, n) && n.nextId == w.nextId && n.db == Apply(w.db, w.actors[a].todo[0])
    && n.actors == w.actors[a := Writing(w.actors[a].id, w.actors[a].todo[1..])]
  }

  lemma RunWalk(ws: seq<World>, steps: seq<Step>, a: nat) returns (ws': seq<World>, steps': seq<Step>)
    requires Walk(ws, steps) && Is(Last(ws), a) && Last(ws).actors[a].Writing? && Last(ws).actors[a].todo != []
    requires var c := Last(ws).actors[a].todo[0]; c.ZAddActive? ==> c.score >= Last(ws).clock
    ensures Walk(ws', steps') && ws'[0] == ws[0] && AfterRun(Last(ws), Last(ws'), a)
  {
    ws', steps' := Extend(ws, steps, Run(a));
  }

  // Operation a ran all that was left.
  predicate AfterRunAll(w: World, n: World, a: nat)
    requires Is(w, a) && w.actors[a].Writing?
  {
    && SameRest(w, n) && n.nextId == w.nextId && n.db == ApplyAll(w.db, w.actors[a].todo)
    && n.actors == w.actors[a := Writing(w.actors[a].id, [])]
  }

  lemma {:induction false} RunAllWalk(ws: seq<World>, steps: seq<Step>, a: nat, todo: seq<Cmd>)
    returns (ws': seq<World>, steps': seq<Step>)
    requires Walk(ws, steps) && Is(Last(ws), a) && Last(ws).actors[a].Writing? && Last(ws).actors[a].todo == todo
    requires forall c :: c in todo && c.ZAddActive? ==> c.score >= Last(ws).clock
    ensures Walk(ws', steps') && ws'[0] == ws[0] && AfterRunAll(Last(ws), Last(ws'), a)
    decreases |todo|
  {
    if todo == [] {
      ws', steps' := ws, steps;
      assert Last(ws).actors == Last(ws).actors[a := Writing(Last(ws).actors[a].id, [])];
    } else {
      assert todo[0] in todo;
      var ws1, steps1 := RunWalk(ws, steps, a);
      ws', steps' := RunAllWalk(ws1, steps1, a, todo[1..]);
    }
  }

  // Job t was submitted by an operation of its own.
  predicate AfterSubmit(w: World, n: World, t: Task) {
    SameRest(w, n) && n.nextId == w.nextId + 1 && n.db == Service.Submitted(w.db, t, w.clock)
  }

  lemma SubmitWalk(ws: seq<World>, steps: seq<Step>, t: Task) returns (ws': seq<World>, steps': seq<Step>)
    requires Walk(ws, steps) && Service.Submittable(t)
    ensures Walk(ws', steps') && ws'[0] == ws[0] && AfterSubmit(Last(ws), Last(ws'), t)
  {
    var w := Last(ws);
    var ws1, steps1 := Extend(ws, steps, Submit(t));
    ws', steps' := RunAllWalk(ws1, steps1, w.nextId, SubmitCmds(Service.Normalised(t, w.clock), w.clock));
  }

  // The fetch script ran, and found job j.
  predicate AfterFetch(w: World, n: World, j: Id)
    requires j in w.db.global
  {
    && SameRest(w, n) && n.nextId == w.nextId && n.actors == w.actors
    && n.db == Fetch(w.db, w.clock + Scheduler.PRELOAD_SECONDS) && (j, w.db.global[j]) in n.fetched
  }

  predicate Due(w: World, j: Id) { j in InRange(w.db.global, w.clock + Scheduler.PRELOAD_SECONDS) }

  lemma FetchIsOneStep(w: World, j: Id)
    requires Due(w, j)
    ensures AfterFetch(w, Do(w, RunFetch), j)
  {
  }

  lemma FetchWalk(ws: seq<World>, steps: seq<Step>, j: Id) returns (ws': seq<World>, steps': seq<Step>)
    requires Walk(ws, steps) && Due(Last(ws), j)
    ensures Walk(ws', steps') && ws'[0] == ws[0] && AfterFetch(Last(ws), Last(ws'), j)
  {
    FetchIsOneStep(Last(ws), j);
    ws', steps' := Extend(ws, steps, RunFetch);
  }

  // A fetched job was parsed and triggered.
  predicate AfterTrigger(w: World, n: World, task: Task) {
    && SameRest(w, n) && n.nextId == w.nextId + 1 && n.db == Cas(w.db, task, Pending, Ready, w.clock) && task in n.local
  }

  lemma TriggerWalk(ws: seq<World>, steps: seq<Step>, j: Id, score: int) returns (ws': seq<World>, steps': seq<Step>)
    requires Walk(ws, steps) && (j, score) in Last(ws).fetched && CasMatches(Last(ws).db, j, Pending)
    requires j in Last(ws).db.detail && Last(ws).db.detail[j].id == j
    ensures Walk(ws', steps') && ws'[0] == ws[0]
    ensures AfterTrigger(Last(ws), Last(ws'), Last(ws).db.detail[j].(triggerTime := score))
  {
    var w := Last(ws);
    var task := w.db.detail[j].(triggerTime := score);
    var ws1, steps1 := Extend(ws, steps, Parse(j, score));
    var ws2, steps2 := Extend(ws1, steps1, BeginTrigger(task));
    assert Last(ws2).actors[w.nextId] == Firing(Trigger, task, Pending, w.clock);
    ws', steps' := Extend(ws2, steps2, RunCas(w.nextId));
  }

  // Operation a has dispatched the task and is about to publish it.
  predicate AtPublish(n: World, a: nat, task: Task) {
    a in n.dispatched && n.dispatched[a] == task && a in n.actors && n.actors[a] == Publishing(task)
  }

  predicate AfterDispatch(w: World, n: World, task: Task) {
    && n.clock == w.clock && n.stale == w.stale && n.dedupe == w.dedupe && n.nextId == w.nextId + 1
    && n.db == Cas(w.db, task, Ready, Dispatched, w.clock) && AtPublish(n, w.nextId, task)
  }

  lemma DispatchWalk(ws: seq<World>, steps: seq<Step>, task: Task) returns (ws': seq<World>, steps': seq<Step>)
    requires Walk(ws, steps) && task in Last(ws).local && CasMatches(Last(ws).db, task.id, Ready)
    ensures Walk(ws', steps') && ws'[0] == ws[0] && AfterDispatch(Last(ws), Last(ws'), task)
  {
    var w := Last(ws);
    var ws1, steps1 := Extend(ws, steps, BeginDispatch(task));
    assert Last(ws1).actors[w.nextId] == Firing(Dispatch, task, Ready, w.clock);
    ws', steps' := Extend(ws1, steps1, RunCas(w.nextId));
  }

  // A PENDING job that is due and has its detail.
  predicate Launchable(w: World, j: Id) {
    Due(w, j) && CasMatches(w.db, j, Pending) && j in w.db.detail && w.db.detail[j].id == j
  }

  predicate AfterLaunch(w: World, n: World, j: Id, a: nat)
    requires Launchable(w, j)
  {
    && n.clock == w.clock && n.stale == w.stale && n.dedupe == w.dedupe && InFlight(n.db, j) && n.db.detail == w.db.detail
    && AtPublish(n, a, w.db.detail[j].(triggerTime := w.db.global[j]))
  }

  // It is fetched, triggered and dispatched.
  lemma LaunchWalk(ws: seq<World>, steps: seq<Step>, j: Id) returns (ws': seq<World>, steps': seq<Step>, a: nat)
    requires Walk(ws, steps) && Launchable(Last(ws), j)
    ensures Walk(ws', steps') && ws'[0] == ws[0] && AfterLaunch(Last(ws), Last(ws'), j, a)
  {
    var w := Last(ws);
    var task := w.db.detail[j].(triggerTime := w.db.global[j]);
    LaunchedIsInFlight(w.db, w.clock + Scheduler.PRELOAD_SECONDS, task, w.clock);
    var ws1, steps1 := FetchWalk(ws, steps, j);
    var ws2, steps2 := TriggerWalk(ws1, steps1, j, w.db.global[j]);
    a := Last(ws2).nextId;
    ws', steps' := DispatchWalk(ws2, steps2, task);
  }

  lemma LaunchedIsInFlight(db: Db, max: int, task: Task, now: int)
    requires CasMatches(db, task.id, Pending)
    ensures var fetched := Fetch(db, max);
      var ready := Cas(fetched, task, Pending, Ready, now);
      var gone := Cas(ready, task, Ready, Dispatched, now);
      && CasMatches(fetched, task.id, Pending) && fetched.detail == db.detail
      && CasMatches(ready, task.id, Ready) && ready.detail == db.detail
      && InFlight(gone, task.id) && gone.detail == db.detail
  {
  }

  // ---- The monitor's key ----

  // A job in the monitor's scan that is dispatched before its turn, for a second that has not passed since the
  // monitor read the clock, is put back for the same second.
  lemma MonitorRepeatsKey(ws: seq<World>, steps: seq<Step>, j: Id, now: int) returns (ws': seq<World>, steps': seq<Step>)
    requires Walk(ws, steps) && (j, now) in Last(ws).stale && Launchable(Last(ws), j)
    requires Last(ws).db.global[j] == Last(ws).db.detail[j].triggerTime >= now
    ensures Walk(ws', steps') && ws'[0] == ws[0] && steps' != []
    ensures var k, due := |steps'| - 1, Last(ws).db.global[j];
      Decides(ws', steps', k, j, now, due) && KeyIsUsed(ws'[k], j, due)
  {
    var ws1, steps1, d := LaunchWalk(ws, steps, j);
    var a := Last(ws1).nextId;
    var ws2, steps2 := Extend(ws1, steps1, Monitor(j, now));
    ws', steps' := Extend(ws2, steps2, ReadDetail(a, true));
    assert ws'[|steps2|] == Last(ws2);
    assert UsedKey(Last(ws2), j, Last(ws).db.global[j], d);
  }

  // It happens from the start, without any lag: a job submitted two minutes and a second ahead.
  lemma MonitorCanRepeatKey(w0: World, t: Task) returns (ws: seq<World>, steps: seq<Step>)
    requires Init(w0) && Service.Submittable(t) && t.triggerTime == w0.clock + 121 && w0.clock >= Service.RELATIVE_LIMIT
    ensures TimelyRun(ws, steps, 0) && ws[0] == w0 && steps != []
    ensures Decides(ws, steps, |steps| - 1, t.id, w0.clock + 120, t.triggerTime)
    ensures KeyIsUsed(ws[|steps| - 1], t.id, t.triggerTime)
  {
    var now := w0.clock + 120;
    var ws1, steps1 := SubmitWalk([w0], [], t);
    Service.SubmittedIsPending(w0.db, t, w0.clock);
    var d := Last(ws1).db;
    assert ViewOf(d, t.id).global == Some(t.triggerTime) && ViewOf(d, t.id).active == Some(w0.clock);
    assert Get(d.state, t.id).Some? && Get(d.detail, t.id).Some?;
    var ws2, steps2 := Extend(ws1, steps1, Tick(120));
    var ws3, steps3 := Extend(ws2, steps2, ScanStale(now));
    ws, steps := MonitorRepeatsKey(ws3, steps3, t.id, now);
  }

  // ---- Queue coverage ----

  // Operation b ran its command c, which queued job j, and the job was fetched at once.
  predicate AfterRunAndFetch(w: World, n: World, b: nat, c: Cmd)
    requires Is(w, b) && w.actors[b].Writing? && w.actors[b].todo != []
  {
    && SameRest(w, n) && n.db == Fetch(Apply(w.db, c), w.clock + Scheduler.PRELOAD_SECONDS)
    && n.actors == w.actors[b := Writing(w.actors[b].id, w.actors[b].todo[1..])]
  }

  lemma RunAndFetchWalk(ws: seq<World>, steps: seq<Step>, b: nat, c: Cmd) returns (ws': seq<World>, steps': seq<Step>)
    requires Walk(ws, steps) && Is(Last(ws), b) && Last(ws).actors[b].Writing?
    requires Last(ws).actors[b].todo != [] && Last(ws).actors[b].todo[0] == c
    requires c.ZAddGlobal? && 0 <= c.score <= Last(ws).clock + Scheduler.PRELOAD_SECONDS
    ensures Walk(ws', steps') && ws'[0] == ws[0] && AfterRunAndFetch(Last(ws), Last(ws'), b, c)
  {
    var ws1, steps1 := RunWalk(ws, steps, b);
    assert Due(Last(ws1), c.id);
    ws', steps' := FetchWalk(ws1, steps1, c.id);
  }

  // The fetch script between the two commands of a pending recovery loses the job from both queues.
  lemma FetchInsideReturnUncovers(ws: seq<World>, steps: seq<Step>, j: Id) returns (ws': seq<World>, steps': seq<Step>)
    requires Walk(ws, steps) && j in InRange(Last(ws).db.pending, Last(ws).clock)
    requires j in Last(ws).db.state && Queued(Last(ws).db.state[j].status)
    ensures Walk(ws', steps') && ws'[0] == ws[0] && !Covered(ViewOf(Last(ws').db, j))
  {
    var w := Last(ws);
    var cs := ReturnCmds(j, w.clock);
    var ws1, steps1 := Extend(ws, steps, ReturnJob(j));
    assert Last(ws1).actors[w.nextId] == Writing(j, cs) && Last(ws1).db == w.db;
    var ws2, steps2 := RunAndFetchWalk(ws1, steps1, w.nextId, cs[0]);
    ws', steps' := RunWalk(ws2, steps2, w.nextId);
    InterruptedReturnUncovers(w.db, j, w.clock);
  }

  lemma InterruptedReturnUncovers(db: Db, j: Id, now: int)
    requires j in db.state && Queued(db.state[j].status) && 0 <= now
    ensures var cs := ReturnCmds(j, now);
      var fetched := Fetch(Apply(db, cs[0]), now + Scheduler.PRELOAD_SECONDS);
      !Covered(ViewOf(Apply(fetched, cs[1]), j))
  {
    var cs := ReturnCmds(j, now);
    var added := Apply(db, cs[0]);
    ApplyIsLocal(db, cs[0], j);
    FetchMoves(added, now + Scheduler.PRELOAD_SECONDS, j);
    ApplyIsLocal(Fetch(added, now + Scheduler.PRELOAD_SECONDS), cs[1], j);
    assert ViewOf(db, j).state == Some(db.state[j]);
  }

  // So does executeTask's ZREM when the job is submitted again, and fetched, between its CAS and that ZREM.
  lemma ResubmitInsideDispatchUncovers(ws: seq<World>, steps: seq<Step>, a: nat, t: Task)
    returns (ws': seq<World>, steps': seq<Step>)
    requires Walk(ws, steps) && Is(Last(ws), a) && a < Last(ws).nextId
    requires Last(ws).actors[a].Publishing? && Last(ws).actors[a].task.id == t.id
    requires Service.Submittable(t)
    requires 0 <= Service.Normalised(t, Last(ws).clock).triggerTime <= Last(ws).clock + Scheduler.PRELOAD_SECONDS
    ensures Walk(ws', steps') && ws'[0] == ws[0] && !Covered(ViewOf(Last(ws').db, t.id))
  {
    var w := Last(ws);
    var n := Service.Normalised(t, w.clock);
    var ws1, steps1 := BeginSubmitWalk(ws, steps, t, a);
    ws', steps' := InterruptedWalk(ws1, steps1, a, w.nextId, n);
    InterruptedDispatchUncovers(w.db, n, w.clock);
  }

  // Operation a is about to publish a task of the job, and b to write a submission of it.
  predicate Crossing(w: World, a: nat, b: nat, n: Task) {
    && a != b && Is(w, a) && Is(w, b) && w.actors[a].Publishing? && w.actors[a].task.id == n.id
    && w.actors[b] == Writing(n.id, SubmitCmds(n, w.clock))
  }

  lemma BeginSubmitWalk(ws: seq<World>, steps: seq<Step>, t: Task, a: nat) returns (ws': seq<World>, steps': seq<Step>)
    requires Walk(ws, steps) && Service.Submittable(t) && Is(Last(ws), a) && a < Last(ws).nextId
    requires Last(ws).actors[a].Publishing? && Last(ws).actors[a].task.id == t.id
    ensures Walk(ws', steps') && ws'[0] == ws[0] && SameRest(Last(ws), Last(ws')) && Last(ws').db == Last(ws).db
    ensures Crossing(Last(ws'), a, Last(ws).nextId, Service.Normalised(t, Last(ws).clock))
  {
    ws', steps' := Extend(ws, steps, Submit(t));
  }

  // The keys when the submission's first command, a fetch and the dispatch's ZREM precede the rest of the submission.
  function Interrupted(db: Db, n: Task, now: int): Db {
    var cs := SubmitCmds(n, now);
    ApplyAll(Apply(Fetch(Apply(db, cs[0]), now + Scheduler.PRELOAD_SECONDS), ZRemPending(n.id)), cs[1..])
  }

  // The ZREM has run as well; the rest of the submission has not.
  predicate HalfWay(w: World, m: World, b: nat, n: Task) {
    var cs := SubmitCmds(n, w.clock);
    && SameRest(w, m) && Is(m, b) && m.actors[b] == Writing(n.id, cs[1..])
    && m.db == Apply(Fetch(Apply(w.db, cs[0]), w.clock + Scheduler.PRELOAD_SECONDS), ZRemPending(n.id))
  }

  lemma HalfWalk(ws: seq<World>, steps: seq<Step>, a: nat, b: nat, n: Task)
    returns (ws': seq<World>, steps': seq<Step>)
    requires Walk(ws, steps) && Crossing(Last(ws), a, b, n)
    requires 0 <= n.triggerTime <= Last(ws).clock + Scheduler.PRELOAD_SECONDS
    ensures Walk(ws', steps') && ws'[0] == ws[0] && HalfWay(Last(ws), Last(ws'), b, n)
  {
    var ws1, steps1 := RunAndFetchWalk(ws, steps, b, SubmitCmds(n, Last(ws).clock)[0]);
    ws', steps' := PublishWalk(ws1, steps1, a);
  }

  lemma InterruptedWalk(ws: seq<World>, steps: seq<Step>, a: nat, b: nat, n: Task)
    returns (ws': seq<World>, steps': seq<Step>)
    requires Walk(ws, steps) && Crossing(Last(ws), a, b, n)
    requires 0 <= n.triggerTime <= Last(ws).clock + Scheduler.PRELOAD_SECONDS
    ensures Walk(ws', steps') && ws'[0] == ws[0]
    ensures Last(ws').db == Interrupted(Last(ws).db, n, Last(ws).clock)
  {
    var ws1, steps1 := HalfWalk(ws, steps, a, b, n);
    ws', steps' := RunAllWalk(ws1, steps1, b, SubmitCmds(n, Last(ws).clock)[1..]);
  }

  // executeTask published and took the job off pending.
  predicate AfterPublish(w: World, n: World, a: nat, j: Id) {
    SameRest(w, n) && n.db == Apply(w.db, ZRemPending(j)) && n.actors == w.actors[a := Writing(j, [])]
  }

  lemma PublishWalk(ws: seq<World>, steps: seq<Step>, a: nat) returns (ws': seq<World>, steps': seq<Step>)
    requires Walk(ws, steps) && Is(Last(ws), a) && Last(ws).actors[a].Publishing?
    ensures Walk(ws', steps') && ws'[0] == ws[0] && AfterPublish(Last(ws), Last(ws'), a, Last(ws).actors[a].task.id)
  {
    var j := Last(ws).actors[a].task.id;
    var ws1, steps1 := Extend(ws, steps, Publish(a, true, true, 0, 0));
    assert Last(ws1).actors[a] == Writing(j, [ZRemPending(j)]);
    ws', steps' := RunWalk(ws1, steps1, a);
    assert [ZRemPending(j)][1..] == [];
  }

  lemma InterruptedDispatchUncovers(db: Db, t: Task, now: int)
    requires 0 <= t.triggerTime <= now + Scheduler.PRELOAD_SECONDS
    ensures !Covered(ViewOf(Interrupted(db, t, now), t.id))
  {
    var cs := SubmitCmds(t, now);
    var added := Apply(db, cs[0]);
    var fetched := Fetch(added, now + Scheduler.PRELOAD_SECONDS);
    var removed := Apply(fetched, ZRemPending(t.id));
    ApplyIsLocal(db, cs[0], t.id);
    FetchMoves(added, now + Scheduler.PRELOAD_SECONDS, t.id);
    ApplyIsLocal(fetched, ZRemPending(t.id), t.id);
    var d1 := Apply(removed, cs[1]);
    var d2 := Apply(d1, cs[2]);
    var d3 := Apply(d2, cs[3]);
    ApplyIsLocal(removed, cs[1], t.id);
    ApplyIsLocal(d1, cs[2], t.id);
    ApplyIsLocal(d2, cs[3], t.id);
    assert cs[1..] == [cs[1], cs[2], cs[3]] && cs[1..][1..] == [cs[2], cs[3]] && cs[1..][1..][1..] == [cs[3]];
    assert [cs[3]][1..] == [];
    assert ApplyAll(d2, [cs[3]]) == d3;
    assert ApplyAll(d1, [cs[2], cs[3]]) == d3;
    assert ApplyAll(removed, cs[1..]) == d3;
  }

  // Both happen from the start, to a job submitted once or twice.
  lemma JobsCanBeUncovered(w0: World, t: Task)
    returns (ws: seq<World>, steps: seq<Step>, ws': seq<World>, steps': seq<Step>)
    requires Init(w0) && Service.Submittable(t) && t.triggerTime == w0.clock >= Service.RELATIVE_LIMIT
    ensures IsRun(ws, steps) && ws[0] == w0 && !Covered(ViewOf(Last(ws).db, t.id))
    ensures IsRun(ws', steps') && ws'[0] == w0 && !Covered(ViewOf(Last(ws').db, t.id))
  {
    var ws1, steps1 := SubmitWalk([w0], [], t);
    Service.SubmittedIsPending(w0.db, t, w0.clock);
    var d := Last(ws1).db;
    assert ViewOf(d, t.id).global == Some(w0.clock) && Get(d.state, t.id).Some? && Get(d.detail, t.id).Some?;
    var ws2, steps2 := FetchWalk(ws1, steps1, t.id);
    FetchMoves(d, w0.clock + Scheduler.PRELOAD_SECONDS, t.id);
    assert Get(Last(ws2).db.pending, t.id) == Some(w0.clock) && Get(Last(ws2).db.state, t.id) == Get(d.state, t.id);
    ws, steps := FetchInsideReturnUncovers(ws2, steps2, t.id);
    var ws3, steps3, a := LaunchWalk(ws1, steps1, t.id);
    RunKeepsActors(ws3, steps3, |steps3|);
    ws', steps' := ResubmitInsideDispatchUncovers(ws3, steps3, a, t);
  }

  // ---- And the way it is meant to go ----

  // The command was published, and its job taken off pending.
  lemma DeliverableWalk(ws: seq<World>, steps: seq<Step>, a: nat) returns (ws': seq<World>, steps': seq<Step>)
    requires Walk(ws, steps) && Is(Last(ws), a) && Last(ws).actors[a].Publishing?
    ensures Walk(ws', steps') && ws'[0] == ws[0] && CommandOf(Last(ws).actors[a].task) in Last(ws').msgs
    ensures Last(ws').dedupe == Last(ws).dedupe && Last(ws').clock == Last(ws).clock
    ensures Last(ws').db == Apply(Last(ws).db, ZRemPending(Last(ws).actors[a].task.id))
  {
    var ws1, steps1 := Extend(ws, steps, Publish(a, true, true, 0, 0));
    assert Last(ws1).actors[a] == Writing(Last(ws).actors[a].task.id, [ZRemPending(Last(ws).actors[a].task.id)]);
    ws', steps' := Extend(ws1, steps1, Run(a));
  }

  // A delivered command with a free key is marked RUNNING.
  lemma HandleWalk(ws: seq<World>, steps: seq<Step>, cmd: TaskCommand) returns (ws': seq<World>, steps': seq<Step>, h: nat)
    requires Walk(ws, steps) && cmd in Last(ws).msgs && Executor.KeyFree(Last(ws).dedupe, cmd, Last(ws).clock)
    ensures Walk(ws', steps') && ws'[0] == ws[0] && Last(ws').clock == Last(ws).clock
    ensures Is(Last(ws'), h) && Last(ws').actors[h] == Handling(cmd, [], false)
  {
    var w := Last(ws);
    h := w.nextId;
    var cs := UpdateStateCmds(cmd.id, Running, w.clock);
    var ws1, steps1 := Extend(ws, steps, Deliver(cmd));
    assert Last(ws1).actors[h] == Handling(cmd, cs, false);
    var ws2, steps2 := Extend(ws1, steps1, Run(h));
    assert Last(ws2).actors[h] == Handling(cmd, cs[1..], false);
    ws', steps' := Extend(ws2, steps2, Run(h));
    assert cs[1..][1..] == [];
  }

  lemma SucceedWalk(ws: seq<World>, steps: seq<Step>, h: nat) returns (ws': seq<World>, steps': seq<Step>)
    requires Walk(ws, steps) && Is(Last(ws), h) && Last(ws).actors[h].Handling?
    requires Last(ws).actors[h].todo == [] && !Last(ws).actors[h].called
    ensures Walk(ws', steps') && ws'[0] == ws[0]
    ensures StatusIs(Last(ws').db, Last(ws).actors[h].cmd.id, Success)
    ensures h in Last(ws').calls && Last(ws').calls[h] == Last(ws).actors[h].cmd
  {
    var cmd := Last(ws).actors[h].cmd;
    var cs := UpdateStateCmds(cmd.id, Success, Last(ws).clock);
    var ws1, steps1 := Extend(ws, steps, Call(h));
    assert Last(ws1).calls[h] == cmd && Last(ws1).actors[h] == Handling(cmd, [], true);
    var ws2, steps2 := Extend(ws1, steps1, CallSucceeded(h));
    assert Last(ws2).actors[h] == Writing(cmd.id, cs) && Last(ws2).calls == Last(ws1).calls;
    ws', steps' := RunAllWalk(ws2, steps2, h, cs);
    UpdateRecords(Last(ws2).db, cmd.id, Success, Last(ws).clock);
  }

  // A job submitted as due can be fetched, dispatched, delivered, called back and recorded as a SUCCESS.
  lemma JobCanSucceed(w0: World, t: Task) returns (ws: seq<World>, steps: seq<Step>)
    requires Init(w0) && Service.Submittable(t) && t.triggerTime == w0.clock >= Service.RELATIVE_LIMIT
    ensures TimelyRun(ws, steps, 0) && ws[0] == w0 && StatusIs(Last(ws).db, t.id, Success)
    ensures exists h :: h in Last(ws).calls && Last(ws).calls[h].id == t.id
  {
    var ws1, steps1 := SubmitWalk([w0], [], t);
    Service.SubmittedIsPending(w0.db, t, w0.clock);
    var d := Last(ws1).db;
    assert ViewOf(d, t.id).global == Some(w0.clock) && Get(d.state, t.id).Some? && Get(d.detail, t.id).Some?;
    var ws2, steps2, a := LaunchWalk(ws1, steps1, t.id);
    var ws3, steps3 := DeliverableWalk(ws2, steps2, a);
    var ws4, steps4, h := HandleWalk(ws3, steps3, CommandOf(Last(ws2).actors[a].task));
    ws, steps := SucceedWalk(ws4, steps4, h);
  }
}
