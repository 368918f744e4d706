/** Queue coverage and index agreement: what the keys of one job say about each other when the pipelines on that
    job do not overlap, also when any of them stops half way; and what goes wrong when they overlap. */
module LifecycleCoverage {
  import opened Model
  import opened Redis
  import opened Fsm
  import opened Lifecycle
  import opened LifecycleTokens
  import Scheduler
  import Executor
  import Service

  // A job that waits for the scheduler is in a queue the scheduler looks at.
  predicate Covered(v: View) {
    v.state.Some? && Queued(v.state.value.status) ==> v.global.Some? || v.pending.Some?
  }

  // The indexes say what the record says.
  predicate Agrees(v: View) {
    v.state.Some? ==>
      if Terminal(v.state.value.status) then v.active.None? && v.terminal.Some?
      else v.active == Some(v.state.value.updatedAt)
  }

  // From here on, running todo keeps the job covered at every point and leaves the indexes in agreement.
  predicate Good(v: View, todo: seq<Cmd>, clean: bool)
    decreases |todo|
  {
    Covered(v) && if todo == [] then clean ==> Agrees(v) else Good(ApplyView(v, todo[0]), todo[1..], clean)
  }

  // ---- Each pipeline is good wherever its job is covered ----

  lemma GoodNext(v: View, todo: seq<Cmd>, clean: bool, c: Cmd, rest: seq<Cmd>)
    requires todo == [c] + rest && Covered(v) && Good(ApplyView(v, c), rest, clean)
    ensures Good(v, todo, clean)
  {
  }

  lemma IndexIsGood(v: View, id: Id, status: Status, now: int)
    requires Covered(v) && v.state.Some? && v.state.value.status == status && v.state.value.updatedAt == now
    ensures Good(v, IndexCmds(id, status, now), true)
  {
  }

  // A status write is good if the job is queued already whenever the new status needs it to be.
  lemma StatusWriteIsGood(v: View, todo: seq<Cmd>)
    requires AtStatusWrite(todo) && Covered(v)
    requires Queued(StatusWritten(todo[0])) ==> v.global.Some? || v.pending.Some?
    ensures Good(v, todo, true)
  {
    var u := ApplyView(v, todo[0]);
    IndexIsGood(u, todo[0].id, StatusWritten(todo[0]), StampOf(todo[0]));
    GoodNext(v, todo, true, todo[0], todo[1..]);
  }

  lemma SubmitIsGood(v: View, t: Task, now: int)
    requires Covered(v)
    ensures Good(v, SubmitCmds(t, now), true)
  {
    var cs := SubmitCmds(t, now);
    var v1 := ApplyView(v, cs[0]);
    var v2 := ApplyView(v1, cs[1]);
    var v3 := ApplyView(v2, cs[2]);
    GoodNext(v3, [cs[3]], true, cs[3], []);
    GoodNext(v2, [cs[2], cs[3]], true, cs[2], [cs[3]]);
    GoodNext(v1, [cs[1], cs[2], cs[3]], true, cs[1], [cs[2], cs[3]]);
    GoodNext(v, cs, true, cs[0], [cs[1], cs[2], cs[3]]);
  }

  lemma RecoverIsGood(v: View, t: Task, now: int)
    requires Covered(v)
    ensures Good(v, RecoverCmds(t, now), true)
  {
    var save := SaveStateCmds(t, Pending, now);
    assert save[1..] == IndexCmds(t.id, Pending, now);
    StatusWriteIsGood(ApplyView(v, RecoverCmds(t, now)[0]), save);
    GoodNext(v, RecoverCmds(t, now), true, RecoverCmds(t, now)[0], save);
  }

  lemma ReturnIsGood(v: View, id: Id, now: int, clean: bool)
    requires Good(v, [], clean)
    ensures Good(v, ReturnCmds(id, now), clean)
  {
  }

  lemma CleanIsGood(v: View, id: Id)
    requires Covered(v)
    ensures Good(v, CleanCmds(id), true)
  {
    var cs := CleanCmds(id);
    var v1 := ApplyView(v, cs[0]);
    var v2 := ApplyView(v1, cs[1]);
    GoodNext(v2, [cs[2]], true, cs[2], []);
    GoodNext(v1, [cs[1], cs[2]], true, cs[1], [cs[2]]);
    GoodNext(v, cs, true, cs[0], [cs[1], cs[2]]);
  }

  lemma UpdateIsGood(v: View, id: Id, status: Status, now: int)
    requires Covered(v) && (Queued(status) ==> v.global.Some?)
    ensures Good(v, UpdateStateCmds(id, status, now), true)
  {
    assert UpdateStateCmds(id, status, now)[1..] == IndexCmds(id, status, now);
    StatusWriteIsGood(v, UpdateStateCmds(id, status, now));
  }

  // Whatever part of a saving pipeline comes first, a retry is queued before its status is written.
  lemma SavingIsGood(v: View, saving: seq<Cmd>, rest: seq<Cmd>)
    requires |saving| <= 2 && Covered(v)
    requires forall c :: c in saving ==> c.HSetDetail? || c.ZAddActive? || c.HSetDeadDetail? || c.ZAddDead?
    requires forall u: View :: Covered(u) ==> Good(u, rest, true)
    ensures Good(v, saving + rest, true)
  {
    if saving == [] {
      assert saving + rest == rest;
    } else {
      var u := ApplyView(v, saving[0]);
      assert saving[0] in saving;
      if |saving| == 2 {
        assert saving[1] in saving;
        GoodNext(u, [saving[1]] + rest, true, saving[1], rest);
        assert saving + rest == [saving[0]] + ([saving[1]] + rest);
        GoodNext(v, saving + rest, true, saving[0], [saving[1]] + rest);
      } else {
        assert saving + rest == [saving[0]] + rest;
        GoodNext(v, saving + rest, true, saving[0], rest);
      }
    }
  }

  lemma DeathIsGood(v: View, cmd: TaskCommand, error: string, now: int, reach: nat)
    requires Covered(v)
    ensures Good(v, DeadCmds(cmd, error, now, reach), true)
  {
    var rest := UpdateStateCmds(cmd.id, Dead, now);
    forall u: View | Covered(u) ensures Good(u, rest, true) {
      UpdateIsGood(u, cmd.id, Dead, now);
    }
    SavingIsGood(v, Prefix(BuryCmds(cmd, error, now), reach), rest);
  }

  lemma RetryIsGood(v: View, t: Task, now: int, reach: nat)
    requires Covered(v)
    ensures Good(v, RetryCmds(t, now, reach), true)
  {
    var add, update := ZAddGlobal(t.id, t.triggerTime), UpdateStateCmds(t.id, Retry, now);
    forall u: View | Covered(u) ensures Good(u, [add] + update, true) {
      UpdateIsGood(ApplyView(u, add), t.id, Retry, now);
      GoodNext(u, [add] + update, true, add, update);
    }
    SavingIsGood(v, Prefix(SaveDetailCmds(t, now), reach), [add] + update);
    assert Prefix(SaveDetailCmds(t, now), reach) + [add] + update
        == Prefix(SaveDetailCmds(t, now), reach) + ([add] + update);
  }

  lemma FailureIsGood(v: View, cmd: TaskCommand, error: string, now: int, nowNs: int, jitter: nat, reach: nat)
    requires jitter < 500 && Covered(v)
    ensures Good(v, FailureCmds(cmd, error, now, nowNs, jitter, reach), true)
  {
    if cmd.retryCount + 1 > cmd.maxRetry {
      DeathIsGood(v, cmd.(retryCount := cmd.retryCount + 1), error, now, reach);
    } else {
      RetryIsGood(v, Executor.RetryTask(cmd, nowNs, jitter), now, reach);
    }
  }

  // ---- What stopping, restamping and the scripts do ----

  lemma {:induction false} CuttingIsGood(v: View, todo: seq<Cmd>, clean: bool)
    requires Good(v, todo, clean)
    ensures Good(v, [], false)
    ensures QueueOnly(todo) ==> Good(v, [], clean)
    decreases |todo|
  {
    if todo != [] && QueueOnly(todo) {
      assert QueueOnly(todo[1..]) by {
        assert forall k :: 0 <= k < |todo| - 1 ==> todo[1..][k] == todo[k + 1];
      }
      CuttingIsGood(ApplyView(v, todo[0]), todo[1..], clean);
    }
  }

  lemma RestampedIsGood(v: View, todo: seq<Cmd>, clean: bool, now: int)
    requires Good(v, todo, clean) && AtStatusWrite(todo)
    ensures Good(v, StampedAll(todo, now), true)
  {
    var s := StampedAll(todo, now);
    var id, status := todo[0].id, StatusWritten(todo[0]);
    assert Covered(ApplyView(v, todo[0]));
    assert forall k :: 0 <= k < |todo| - 1 ==> s[1..][k] == Stamped(todo[1..][k], now);
    assert s[1..] == IndexCmds(id, status, now);
    StatusWriteIsGood(v, s);
  }

  lemma CasView(db: Db, task: Task, from: Status, to: Status, now: int, j: Id)
    requires CasMatches(db, task.id, from) && !Terminal(to)
    ensures ViewOf(Cas(db, task, from, to, now), j) ==
      if j != task.id then ViewOf(db, j)
      else ViewOf(db, j).(active := Some(now), state := Some(RecordOf(task, to, now)))
  {
  }

  lemma TriggeredIsGood(db: Db, task: Task, now: int)
    requires CasMatches(db, task.id, Pending) && Covered(ViewOf(db, task.id))
    ensures Good(ViewOf(Cas(db, task, Pending, Ready, now), task.id), [], true)
  {
    CasView(db, task, Pending, Ready, now, task.id);
  }

  lemma DispatchedIsGood(db: Db, task: Task, now: int)
    requires CasMatches(db, task.id, Ready)
    ensures Good(ViewOf(Cas(db, task, Ready, Dispatched, now), task.id), [ZRemPending(task.id)], true)
  {
  }

  // ---- Runs in which pipelines on one job do not overlap ----

  // Operation a is in the middle of job j's keys.
  predicate Busy(actors: map<nat, Actor>, a: nat, j: Id) {
    a in actors && Todo(actors[a]) != [] && JobOf(actors[a]) == j
  }

  // The step writes keys of job j, other than by going on with what its operation holds already.
  predicate Touches(w: World, step: Step, j: Id)
    requires Enabled(w, step)
  {
    || (Begins(w, step) && Todo(Begun(w, step)) != [] && JobOf(Begun(w, step)) == j)
    || (step.RunFetch? && j in InRange(w.db.global, w.clock + Scheduler.PRELOAD_SECONDS))
    || (step.RunCas? && CasWins(w, step.a) && w.actors[step.a].task.id == j)
    || ((step.CallSucceeded? || step.CallFailed? || step.ReadDetail?) && JobOf(w.actors[step.a]) == j)
  }

  // Nobody else is busy with a job the step writes to.
  ghost predicate Serial(w: World, step: Step)
    requires Enabled(w, step)
  {
    forall a, j :: Busy(w.actors, a, j) ==> !Touches(w, step, j)
  }

  ghost predicate JobOk(db: Db, actors: map<nat, Actor>, dirty: set<Id>, j: Id) {
    && (forall a, b :: Busy(actors, a, j) && Busy(actors, b, j) ==> a == b)
    && (forall a :: Busy(actors, a, j) ==> Good(ViewOf(db, j), Todo(actors[a]), j !in dirty))
    && ((forall a :: !Busy(actors, a, j)) ==> Good(ViewOf(db, j), [], j !in dirty))
  }

  function TodoOf(actors: map<nat, Actor>, a: nat): seq<Cmd> {
    if a in actors then Todo(actors[a]) else []
  }

  ghost predicate SameBut(actors: map<nat, Actor>, actors': map<nat, Actor>, a: nat) {
    forall b :: b != a ==> (b in actors' <==> b in actors) && (b in actors ==> actors'[b] == actors[b])
  }

  // Only operation a can be busy with j, before and after the change.
  lemma OneOperationChanged(db: Db, actors: map<nat, Actor>, dirty: set<Id>, j: Id,
                            db': Db, actors': map<nat, Actor>, dirty': set<Id>, a: nat)
    requires JobOk(db, actors, dirty, j)
    requires forall b :: b != a ==> !Busy(actors, b, j)
    requires SameBut(actors, actors', a)
    requires a in actors' && Todo(actors'[a]) != [] ==> JobOf(actors'[a]) == j
    requires Good(ViewOf(db', j), TodoOf(actors', a), j !in dirty')
    ensures JobOk(db', actors', dirty', j)
  {
    forall b | Busy(actors', b, j) ensures b == a {
      assert b != a ==> Busy(actors, b, j);
    }
    if Busy(actors', a, j) {
      assert TodoOf(actors', a) == Todo(actors'[a]);
    } else {
      assert TodoOf(actors', a) == [];
    }
  }

  // The step has nothing to do with j, or leaves what its operation still has to do there.
  lemma OtherJobUnchanged(db: Db, actors: map<nat, Actor>, dirty: set<Id>, j: Id,
                          db': Db, actors': map<nat, Actor>, dirty': set<Id>, a: nat)
    requires JobOk(db, actors, dirty, j)
    requires ViewOf(db', j) == ViewOf(db, j) && (j in dirty' <==> j in dirty)
    requires SameBut(actors, actors', a)
    requires Busy(actors', a, j) <==> Busy(actors, a, j)
    requires Busy(actors, a, j) ==> TodoOf(actors', a) == TodoOf(actors, a)
    ensures JobOk(db', actors', dirty', j)
  {
    assert forall b :: Busy(actors', b, j) <==> Busy(actors, b, j);
    assert forall b :: Busy(actors', b, j) ==> TodoOf(actors', b) == TodoOf(actors, b);
  }

  ghost predicate JobIsOk(w: World, j: Id) { JobOk(w.db, w.actors, w.dirty, j) }

  lemma {:induction false} GoodWeakens(v: View, todo: seq<Cmd>, clean: bool)
    requires Good(v, todo, true)
    ensures Good(v, todo, clean)
    decreases |todo|
  {
    if todo != [] {
      GoodWeakens(ApplyView(v, todo[0]), todo[1..], clean);
    }
  }

  lemma BegunIsGood(w: World, step: Step)
    requires ActorsOk(w) && Enabled(w, step) && Begins(w, step)
    requires var j := JobOf(Begun(w, step)); Good(ViewOf(w.db, j), [], j !in w.dirty)
    ensures var x := Begun(w, step); Good(ViewOf(w.db, JobOf(x)), Todo(x), JobOf(x) !in NextDirty(w, step))
  {
    var x := Begun(w, step);
    var v := ViewOf(w.db, JobOf(x));
    match step {
      case Submit(task) => SubmitIsGood(v, Service.Normalised(task, w.clock), w.clock);
      case Recover(id, scan, now) =>
      case Monitor(id, now) =>
      case ReturnJob(id) => ReturnIsGood(v, id, w.clock, id !in w.dirty);
      case Clean(id) => CleanIsGood(v, id);
      case BeginTrigger(task) =>
      case BeginDispatch(task) =>
      case Deliver(cmd) => UpdateIsGood(v, cmd.id, Running, w.clock);
    }
    GoodOrQueueOnly(w, step);
  }

  // Of the operations that begin with commands to run, only the pending recovery has no status write.
  lemma GoodOrQueueOnly(w: World, step: Step)
    requires Enabled(w, step) && Begins(w, step)
    ensures var x := Begun(w, step);
      QueueOnly(Todo(x)) <==>
        step.ReturnJob? || step.BeginTrigger? || step.BeginDispatch? || step.Recover? || step.Monitor?
  {
    var todo := Todo(Begun(w, step));
    match step {
      case Submit(task) => assert todo[1].HSetDetail?;
      case Recover(id, scan, now) =>
      case Monitor(id, now) =>
      case ReturnJob(id) =>
      case Clean(id) => assert todo[0].DelState?;
      case BeginTrigger(task) =>
      case BeginDispatch(task) =>
      case Deliver(cmd) => assert todo[0].HSetStatus?;
    }
  }

  // The operation a step is about.
  function Who(w: World, step: Step): nat { if GoesOn(step) then step.a else w.nextId }

  lemma StepChangesOne(w: World, step: Step)
    requires Enabled(w, step)
    ensures SameBut(w.actors, NextActors(w, step), Who(w, step))
  {
  }

  lemma BeginOnJob(w: World, step: Step)
    requires ActorsOk(w) && Enabled(w, step) && Serial(w, step) && Begins(w, step) && Todo(Begun(w, step)) != []
    requires JobIsOk(w, JobOf(Begun(w, step)))
    ensures JobOk(w.db, NextActors(w, step), NextDirty(w, step), JobOf(Begun(w, step)))
  {
    var x := Begun(w, step);
    assert Touches(w, step, JobOf(x));
    BegunIsGood(w, step);
    NewOperation(w.db, w.actors, w.dirty, x, NextDirty(w, step), w.nextId);
  }

  lemma NewOperation(db: Db, actors: map<nat, Actor>, dirty: set<Id>, x: Actor, dirty': set<Id>, a: nat)
    requires JobOk(db, actors, dirty, JobOf(x)) && forall b :: !Busy(actors, b, JobOf(x))
    requires Good(ViewOf(db, JobOf(x)), Todo(x), JobOf(x) !in dirty')
    ensures JobOk(db, actors[a := x], dirty', JobOf(x))
  {
    OneOperationChanged(db, actors, dirty, JobOf(x), db, actors[a := x], dirty', a);
  }

  lemma BeginKeepsJob(w: World, step: Step, j: Id)
    requires ActorsOk(w) && JobIsOk(w, j) && Enabled(w, step) && Serial(w, step) && Begins(w, step)
    ensures JobOk(w.db, NextActors(w, step), NextDirty(w, step), j)
  {
    if Todo(Begun(w, step)) != [] && JobOf(Begun(w, step)) == j {
      BeginOnJob(w, step);
    } else {
      GoodOrQueueOnly(w, step);
      StepChangesOne(w, step);
      OtherJobUnchanged(w.db, w.actors, w.dirty, j, w.db, NextActors(w, step), NextDirty(w, step), w.nextId);
    }
  }

  // The steps that replace what an operation has to do on its job, nobody being busy there.
  lemma ReplaceOnJob(w: World, step: Step)
    requires ActorsOk(w) && Enabled(w, step) && Serial(w, step)
    requires (step.RunCas? && CasWins(w, step.a)) || step.CallSucceeded? || step.CallFailed? || step.ReadDetail?
    requires JobIsOk(w, JobOf(w.actors[step.a]))
    ensures JobOk(NextDb(w, step), NextActors(w, step), NextDirty(w, step), JobOf(w.actors[step.a]))
  {
    var x, j := w.actors[step.a], JobOf(w.actors[step.a]);
    assert Touches(w, step, j);
    assert Good(ViewOf(w.db, j), [], j !in w.dirty);
    ReplacementIsGood(w, step);
    StepChangesOne(w, step);
    OneOperationChanged(w.db, w.actors, w.dirty, j, NextDb(w, step), NextActors(w, step), NextDirty(w, step), step.a);
  }

  lemma ReplacementIsGood(w: World, step: Step)
    requires ActorsOk(w) && Enabled(w, step)
    requires (step.RunCas? && CasWins(w, step.a)) || step.CallSucceeded? || step.CallFailed? || step.ReadDetail?
    requires Covered(ViewOf(w.db, JobOf(w.actors[step.a])))
    ensures var j := JobOf(w.actors[step.a]);
      Good(ViewOf(NextDb(w, step), j), TodoOf(NextActors(w, step), step.a), j !in NextDirty(w, step))
      && (step.a in NextActors(w, step) ==> JobOf(NextActors(w, step)[step.a]) == j)
  {
    var x := w.actors[step.a];
    var v := ViewOf(w.db, JobOf(x));
    assert ActorOk(step.a, x, w.dispatched);
    if step.CallSucceeded? {
      UpdateIsGood(v, x.cmd.id, Success, w.clock);
    } else if step.CallFailed? {
      FailureIsGood(v, x.cmd, step.error, w.clock, NowNs(w, step.nanos), step.jitter, step.reach);
    } else if step.ReadDetail? {
      RecoverIsGood(v, Rescued(w.db, x, step.detailOk), w.clock);
    } else if x.event == Trigger {
      TriggeredIsGood(w.db, x.task, x.now);
    } else {
      DispatchedIsGood(w.db, x.task, x.now);
    }
  }

  lemma RunIsGood(db: Db, j: Id, todo: seq<Cmd>, clean: bool)
    requires todo != [] && todo[0].id == j && Good(ViewOf(db, j), todo, clean)
    ensures Good(ViewOf(Apply(db, todo[0]), j), todo[1..], clean)
  {
    ApplyIsLocal(db, todo[0], j);
  }

  // The steps by which a busy operation goes on, or stops.
  lemma ContinuationIsGood(w: World, step: Step)
    requires ActorsOk(w) && Enabled(w, step) && (step.Run? || step.Restamp? || step.Publish? || step.Skip? || step.Drop?)
    requires Todo(w.actors[step.a]) != []
    requires var x := w.actors[step.a]; Good(ViewOf(w.db, JobOf(x)), Todo(x), JobOf(x) !in w.dirty)
    ensures var j := JobOf(w.actors[step.a]);
      Good(ViewOf(NextDb(w, step), j), TodoOf(NextActors(w, step), step.a), j !in NextDirty(w, step))
      && (step.a in NextActors(w, step) ==> JobOf(NextActors(w, step)[step.a]) == j)
  {
    var x := w.actors[step.a];
    var v := ViewOf(w.db, JobOf(x));
    assert ActorOk(step.a, x, w.dispatched);
    if step.Run? {
      assert Legal(Todo(x)[0], JobOf(x));
      RunIsGood(w.db, JobOf(x), Todo(x), JobOf(x) !in w.dirty);
    } else if step.Restamp? {
      RestampedIsGood(v, Todo(x), JobOf(x) !in w.dirty, w.clock);
      GoodWeakens(v, StampedAll(Todo(x), w.clock), JobOf(x) !in w.dirty);
    } else {
      CuttingIsGood(v, Todo(x), JobOf(x) !in w.dirty);
    }
  }

  lemma ContinueOnJob(w: World, step: Step)
    requires ActorsOk(w) && Enabled(w, step) && (step.Run? || step.Restamp? || step.Publish? || step.Skip? || step.Drop?)
    requires Todo(w.actors[step.a]) != [] && JobIsOk(w, JobOf(w.actors[step.a]))
    ensures JobOk(NextDb(w, step), NextActors(w, step), NextDirty(w, step), JobOf(w.actors[step.a]))
  {
    var j := JobOf(w.actors[step.a]);
    assert Busy(w.actors, step.a, j);
    ContinuationIsGood(w, step);
    StepChangesOne(w, step);
    OneOperationChanged(w.db, w.actors, w.dirty, j, NextDb(w, step), NextActors(w, step), NextDirty(w, step), step.a);
  }

  // A step on another job, or one that changes nothing of this job's keys.
  predicate Idle(w: World, step: Step, j: Id)
    requires Enabled(w, step) && GoesOn(step)
  {
    var x := w.actors[step.a];
    JobOf(x) != j || step.Call? || (step.RunCas? && !CasWins(w, step.a))
    || (Todo(x) == [] && (step.Restamp? || step.Skip? || step.Drop?))
  }

  lemma IdleLeavesView(w: World, step: Step, j: Id)
    requires ActorsOk(w) && Enabled(w, step) && GoesOn(step) && Idle(w, step, j)
    ensures ViewOf(NextDb(w, step), j) == ViewOf(w.db, j) && (j in NextDirty(w, step) <==> j in w.dirty)
  {
    var x := w.actors[step.a];
    assert ActorOk(step.a, x, w.dispatched);
    if step.Run? {
      assert Legal(Todo(x)[0], JobOf(x));
      ApplyIsLocal(w.db, Todo(x)[0], j);
    } else if step.RunCas? && CasWins(w, step.a) {
      TriggerAndDispatchSources(x.seen);
      CasView(w.db, x.task, x.seen, Target(x.seen, x.event).value, x.now, j);
    }
  }

  lemma IdleLeavesBusy(w: World, step: Step, j: Id)
    requires ActorsOk(w) && Enabled(w, step) && GoesOn(step) && Idle(w, step, j)
    ensures Busy(NextActors(w, step), step.a, j) <==> Busy(w.actors, step.a, j)
    ensures Busy(w.actors, step.a, j) ==> TodoOf(NextActors(w, step), step.a) == TodoOf(w.actors, step.a)
  {
  }

  lemma GoingOnKeepsJob(w: World, step: Step, j: Id)
    requires ActorsOk(w) && JobIsOk(w, j) && Enabled(w, step) && Serial(w, step) && GoesOn(step)
    ensures JobOk(NextDb(w, step), NextActors(w, step), NextDirty(w, step), j)
  {
    if Idle(w, step, j) {
      IdleLeavesView(w, step, j);
      IdleLeavesBusy(w, step, j);
      StepChangesOne(w, step);
      OtherJobUnchanged(w.db, w.actors, w.dirty, j, NextDb(w, step), NextActors(w, step), NextDirty(w, step), step.a);
    } else if step.RunCas? || step.CallSucceeded? || step.CallFailed? || step.ReadDetail? {
      ReplaceOnJob(w, step);
    } else {
      ContinueOnJob(w, step);
    }
  }

  lemma FetchKeepsJob(w: World, step: Step, j: Id)
    requires ActorsOk(w) && JobIsOk(w, j) && Enabled(w, step) && Serial(w, step) && step.RunFetch?
    ensures JobOk(NextDb(w, step), w.actors, w.dirty, j)
  {
  }

  lemma StepKeepsJob(w: World, step: Step, j: Id)
    requires ActorsOk(w) && JobIsOk(w, j) && Enabled(w, step) && Serial(w, step)
    ensures JobOk(NextDb(w, step), NextActors(w, step), NextDirty(w, step), j)
  {
    if Begins(w, step) {
      BeginKeepsJob(w, step, j);
    } else if GoesOn(step) {
      GoingOnKeepsJob(w, step, j);
    } else if step.RunFetch? {
      FetchKeepsJob(w, step, j);
    } else {
      OthersLeaveJob(w, step, j);
    }
  }

  lemma OthersLeaveJob(w: World, step: Step, j: Id)
    requires Enabled(w, step) && !Begins(w, step) && !GoesOn(step) && !step.RunFetch?
    ensures ViewOf(NextDb(w, step), j) == ViewOf(w.db, j) && NextActors(w, step) == w.actors && NextDirty(w, step) == w.dirty
  {
  }

  lemma StepKeepsJobOk(w: World, step: Step, j: Id)
    requires ActorsOk(w) && JobIsOk(w, j) && Enabled(w, step) && Serial(w, step)
    ensures JobIsOk(Do(w, step), j)
  {
    StepKeepsJob(w, step, j);
  }

  ghost predicate SerialRun(ws: seq<World>, steps: seq<Step>) {
    IsRun(ws, steps) && forall k {:trigger steps[k]} :: 0 <= k < |steps| ==> Serial(ws[k], steps[k])
  }

  lemma {:induction false} JobsStayOk(ws: seq<World>, steps: seq<Step>, k: nat, j: Id)
    requires SerialRun(ws, steps) && k < |ws|
    ensures JobIsOk(ws[k], j)
  {
    if k > 0 {
      JobsStayOk(ws, steps, k - 1, j);
      RunKeepsActors(ws, steps, k - 1);
      StepKeepsJobOk(ws[k - 1], steps[k - 1], j);
    }
  }

  // Every job whose record says PENDING, READY or RETRY is in global or pending, at every point of every run
  // whose pipelines do not overlap on one job, wherever operations crash or lose their connection.
  lemma QueuesCoverJobs(ws: seq<World>, steps: seq<Step>, k: nat, j: Id)
    requires SerialRun(ws, steps) && k < |ws|
    ensures Covered(ViewOf(ws[k].db, j))
  {
    JobsStayOk(ws, steps, k, j);
    if a :| Busy(ws[k].actors, a, j) {
      assert Good(ViewOf(ws[k].db, j), Todo(ws[k].actors[a]), j !in ws[k].dirty);
    }
  }

  // Between pipelines, a job whose last status write was not cut short is indexed as its record says.
  lemma IndexesAgree(ws: seq<World>, steps: seq<Step>, k: nat, j: Id)
    requires SerialRun(ws, steps) && k < |ws| && j !in ws[k].dirty && forall a :: !Busy(ws[k].actors, a, j)
    ensures Agrees(ViewOf(ws[k].db, j))
  {
    JobsStayOk(ws, steps, k, j);
  }

  // So the monitor's scan of the active index by score finds what a scan of all records would.
  lemma StaleScanIsExact(ws: seq<World>, steps: seq<Step>, k: nat, threshold: int, ids: seq<Id>, j: Id)
    requires SerialRun(ws, steps) && k < |ws| && j !in ws[k].dirty && forall a :: !Busy(ws[k].actors, a, j)
    requires IsScan(ws[k].db.active, threshold, 1000, ids) && |InRange(ws[k].db.active, threshold)| <= 1000
    ensures var db := ws[k].db;
      (j in ids && InFlight(db, j)) <==> (InFlight(db, j) && 0 <= db.state[j].updatedAt <= threshold)
  {
    IndexesAgree(ws, steps, k, j);
    ScanIsComplete(ws[k].db.active, threshold, 1000, ids);
    assert InFlight(ws[k].db, j) ==> Get(ws[k].db.active, j) == Some(ws[k].db.state[j].updatedAt);
  }

  // ---- When pipelines do overlap ----

  // The commands that can uncover a job: taking it off pending while global lacks it, and a queued status
  // written while it is in neither.
  predicate Uncovers(v: View, c: Cmd) {
    || (c.ZRemPending? && v.global.None? && v.state.Some? && Queued(v.state.value.status))
    || ((c.HSetState? || c.HSetStatus?) && Queued(StatusWritten(c)) && v.global.None? && v.pending.None?)
  }

  // So coverage survives a command exactly when this guard does not hold just before it.
  lemma CoverageSurvivesIff(db: Db, c: Cmd)
    requires Covered(ViewOf(db, c.id))
    ensures Covered(ViewOf(Apply(db, c), c.id)) <==> !Uncovers(ViewOf(db, c.id), c)
  {
  }

  // The step runs a command that uncovers job j.
  predicate StepUncovers(w: World, step: Step, j: Id) {
    && step.Run? && Is(w, step.a) && Todo(w.actors[step.a]) != []
    && JobOf(w.actors[step.a]) == j && Uncovers(ViewOf(w.db, j), Todo(w.actors[step.a])[0])
  }

  lemma RunCommandCovers(w: World, step: Step, j: Id)
    requires ActorsOk(w) && Enabled(w, step) && step.Run? && Covered(ViewOf(w.db, j))
    ensures Covered(ViewOf(NextDb(w, step), j)) <==> !StepUncovers(w, step, j)
  {
    var x := w.actors[step.a];
    assert ActorOk(step.a, x, w.dispatched);
    assert Legal(Todo(x)[0], JobOf(x));
    ApplyIsLocal(w.db, Todo(x)[0], j);
    if JobOf(x) == j {
      CoverageSurvivesIff(w.db, Todo(x)[0]);
    }
  }

  lemma CasCovers(w: World, step: Step, j: Id)
    requires ActorsOk(w) && Enabled(w, step) && step.RunCas? && CasWins(w, step.a) && Covered(ViewOf(w.db, j))
    ensures Covered(ViewOf(NextDb(w, step), j))
  {
    var x := w.actors[step.a];
    assert ActorOk(step.a, x, w.dispatched);
    TriggerAndDispatchSources(x.seen);
    CasView(w.db, x.task, x.seen, Target(x.seen, x.event).value, x.now, j);
  }

  // Neither the CAS nor the fetch script ever uncovers a job; a command does exactly under the guard.
  lemma StepCoversIff(w: World, step: Step, j: Id)
    requires ActorsOk(w) && Enabled(w, step) && Covered(ViewOf(w.db, j))
    ensures Covered(ViewOf(NextDb(w, step), j)) <==> !StepUncovers(w, step, j)
  {
    if step.Run? {
      RunCommandCovers(w, step, j);
    } else if step.RunCas? && CasWins(w, step.a) {
      CasCovers(w, step, j);
    } else if step.RunFetch? {
      FetchMoves(w.db, w.clock + Scheduler.PRELOAD_SECONDS, j);
    } else {
      assert ViewOf(NextDb(w, step), j) == ViewOf(w.db, j);
    }
  }

  ghost predicate CoveredUntil(ws: seq<World>, n: nat, j: Id)
    requires n < |ws|
  {
    forall k :: 0 <= k <= n ==> Covered(ViewOf(ws[k].db, j))
  }

  ghost predicate UncoveredBefore(ws: seq<World>, steps: seq<Step>, n: nat, j: Id)
    requires n <= |steps| < |ws|
  {
    exists k :: 0 <= k < n && StepUncovers(ws[k], steps[k], j)
  }

  lemma OneMoreStep(ws: seq<World>, steps: seq<Step>, n: nat, j: Id)
    requires n < |steps| < |ws|
    ensures CoveredUntil(ws, n + 1, j) <==> CoveredUntil(ws, n, j) && Covered(ViewOf(ws[n + 1].db, j))
    ensures UncoveredBefore(ws, steps, n + 1, j) <==> UncoveredBefore(ws, steps, n, j) || StepUncovers(ws[n], steps[n], j)
  {
  }

  // In every run, whatever overlaps: a job is covered all along if and only if no command took it off pending, or
  // made it PENDING or RETRY, at a moment when nothing else had it queued.
  lemma {:induction false} CoveredIff(ws: seq<World>, steps: seq<Step>, n: nat, j: Id)
    requires IsRun(ws, steps) && n < |ws|
    ensures CoveredUntil(ws, n, j) <==> !UncoveredBefore(ws, steps, n, j)
  {
    if n > 0 {
      CoveredIff(ws, steps, n - 1, j);
      RunCoversIff(ws, steps, n - 1, j);
      OneMoreStep(ws, steps, n - 1, j);
    } else {
      StartsCovered(ws[0], j);
    }
  }

  lemma StartsCovered(w: World, j: Id)
    requires Init(w)
    ensures Covered(ViewOf(w.db, j))
  {
  }

  lemma RunCoversIff(ws: seq<World>, steps: seq<Step>, k: nat, j: Id)
    requires IsRun(ws, steps) && k < |steps|
    ensures Covered(ViewOf(ws[k].db, j)) ==>
      (Covered(ViewOf(ws[k + 1].db, j)) <==> !StepUncovers(ws[k], steps[k], j))
  {
    RunKeepsActors(ws, steps, k);
    if Covered(ViewOf(ws[k].db, j)) {
      StepCoversIff(ws[k], steps[k], j);
    }
  }
}
