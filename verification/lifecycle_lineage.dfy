/** Where the commands of a run come from: each ends a retry lineage that began with a submission. */
module LifecycleLineage {
  import opened Model
  import opened Redis
  import opened Fsm
  import opened Executor
  import opened Lifecycle
  import Scheduler
  import Service

  // The ways a task is made, before it is carried from queue to queue.
  datatype Origin = Submission(task: Task, now: int) | Failure(cmd: TaskCommand, nowNs: int, jitter: nat)

  function Source(o: Origin): Task
    requires o.Failure? ==> o.jitter < 500
  {
    match o
    case Submission(task, now) => Service.Normalised(task, now)
    case Failure(cmd, nowNs, jitter) => RetryTask(cmd, nowNs, jitter)
  }

  // The command of a task that was submitted, not yet of a retry.
  ghost predicate FirstRun(m: TaskCommand) {
    exists t: Task, now: int, hops: seq<Hop> ::
      Service.Submittable(t) && m == CommandOf(Carried(Service.Normalised(t, now), hops))
  }

  // These commands, all published, lead from a submission to m.
  ghost predicate LeadsTo(cs: seq<TaskCommand>, m: TaskCommand, msgs: set<TaskCommand>) {
    cs != [] && Lineage(cs) && FirstRun(cs[0]) && cs[|cs| - 1] == m && forall c :: c in cs ==> c in msgs
  }

  ghost predicate Descended(m: TaskCommand, msgs: set<TaskCommand>) { exists cs :: LeadsTo(cs, m, msgs) }

  ghost predicate Genuine(o: Origin, msgs: set<TaskCommand>) {
    match o
    case Submission(task, _) => Service.Submittable(task)
    case Failure(cmd, _, jitter) => jitter < 500 && cmd.retryCount < cmd.maxRetry && Descended(cmd, msgs)
  }

  ghost predicate Sourced(t: Task, msgs: set<TaskCommand>) {
    exists o: Origin, hops: seq<Hop> :: Genuine(o, msgs) && t == Carried(Source(o), hops)
  }

  lemma StaysDescended(m: TaskCommand, msgs: set<TaskCommand>, more: set<TaskCommand>)
    requires msgs <= more && Descended(m, msgs)
    ensures Descended(m, more)
  {
    var cs :| LeadsTo(cs, m, msgs);
    assert LeadsTo(cs, m, more);
  }

  lemma StaysSourced(t: Task, msgs: set<TaskCommand>, more: set<TaskCommand>)
    requires msgs <= more && Sourced(t, msgs)
    ensures Sourced(t, more)
  {
    var o: Origin, hops: seq<Hop> :| Genuine(o, msgs) && t == Carried(Source(o), hops);
    if o.Failure? {
      StaysDescended(o.cmd, msgs, more);
    }
    assert Genuine(o, more);
  }

  lemma MadeIsSourced(o: Origin, msgs: set<TaskCommand>)
    requires Genuine(o, msgs)
    ensures Sourced(Source(o), msgs)
  {
    assert Carried(Source(o), []) == Source(o);
  }

  lemma HoppedIsSourced(t: Task, h: Hop, msgs: set<TaskCommand>)
    requires Sourced(t, msgs)
    ensures Sourced(Hopped(t, h), msgs)
  {
    var o: Origin, hops: seq<Hop> :| Genuine(o, msgs) && t == Carried(Source(o), hops);
    assert (hops + [h])[..|hops + [h]| - 1] == hops;
    assert Carried(Source(o), hops + [h]) == Hopped(t, h);
  }

  // Publishing a task adds its command to the lineage of the task's origin.
  lemma PublishedIsDescended(t: Task, msgs: set<TaskCommand>)
    requires Sourced(t, msgs)
    ensures Descended(CommandOf(t), msgs + {CommandOf(t)})
  {
    var o: Origin, hops: seq<Hop> :| Genuine(o, msgs) && t == Carried(Source(o), hops);
    var m := CommandOf(t);
    if o.Submission? {
      assert LeadsTo([m], m, msgs + {m});
    } else {
      var cs :| LeadsTo(cs, o.cmd, msgs);
      assert Retries(o.cmd, m);
      assert Lineage(cs + [m]);
      assert (cs + [m])[0] == cs[0];
      assert LeadsTo(cs + [m], m, msgs + {m});
    }
  }

  // ---- What every step keeps ----

  ghost predicate CommandsSourced(cs: seq<Cmd>, msgs: set<TaskCommand>) {
    forall c :: c in cs && c.HSetDetail? ==> Sourced(c.task, msgs)
  }

  ghost predicate ActorSourced(x: Actor, msgs: set<TaskCommand>) {
    && (x.Firing? || x.Publishing? ==> Sourced(x.task, msgs))
    && (x.Handling? ==> Descended(x.cmd, msgs))
    && CommandsSourced(Todo(x), msgs)
  }

  ghost predicate AllSourced(tasks: set<Task>, msgs: set<TaskCommand>) { forall t :: t in tasks ==> Sourced(t, msgs) }

  ghost predicate DetailsSourced(db: Db, msgs: set<TaskCommand>) {
    forall j :: j in db.detail ==> Sourced(db.detail[j], msgs)
  }

  ghost predicate WorldSourced(w: World) {
    && DetailsSourced(w.db, w.msgs) && AllSourced(w.parsed, w.msgs) && AllSourced(w.local, w.msgs)
    && (forall a :: a in w.actors ==> ActorSourced(w.actors[a], w.msgs))
    && (forall m :: m in w.msgs ==> Descended(m, w.msgs))
  }

  lemma StepKeepsParsed(w: World, step: Step)
    requires WorldSourced(w) && Enabled(w, step)
    ensures AllSourced(NextParsed(w, step), w.msgs)
  {
    if step.Parse? {
      HoppedIsSourced(w.db.detail[step.id], Rescored(step.score), w.msgs);
    } else if step.Age? {
      HoppedIsSourced(step.task, MaybeAged(w.clock), w.msgs);
    }
  }

  lemma StepKeepsLocal(w: World, step: Step)
    requires WorldSourced(w) && Enabled(w, step)
    ensures AllSourced(NextLocal(w, step), w.msgs)
  {
    if step.RunCas? {
      assert ActorSourced(w.actors[step.a], w.msgs);
    } else if step.Publish? {
      assert ActorSourced(w.actors[step.a], w.msgs);
      HoppedIsSourced(w.actors[step.a].task, PublishFailed(NowNs(w, step.nanos), step.jitter), w.msgs);
    }
  }

  lemma StepKeepsDetails(w: World, step: Step)
    requires WorldSourced(w) && Enabled(w, step)
    ensures DetailsSourced(NextDb(w, step), w.msgs)
  {
    if step.Run? {
      var todo := Todo(w.actors[step.a]);
      assert ActorSourced(w.actors[step.a], w.msgs) && todo[0] in todo;
    } else if step.Age? {
      HoppedIsSourced(step.task, MaybeAged(w.clock), w.msgs);
    }
  }

  lemma BegunIsSourced(w: World, step: Step)
    requires WorldSourced(w) && Enabled(w, step) && Begins(w, step)
    ensures ActorSourced(Begun(w, step), w.msgs)
  {
    if step.Submit? {
      MadeIsSourced(Submission(step.task, w.clock), w.msgs);
    }
  }

  lemma FailureIsSourced(cmd: TaskCommand, error: string, now: int, nowNs: int, jitter: nat, reach: nat,
                         msgs: set<TaskCommand>)
    requires jitter < 500 && Descended(cmd, msgs)
    ensures CommandsSourced(FailureCmds(cmd, error, now, nowNs, jitter, reach), msgs)
  {
    if cmd.retryCount + 1 <= cmd.maxRetry {
      MadeIsSourced(Failure(cmd, nowNs, jitter), msgs);
    }
  }

  lemma RestampedIsSourced(cs: seq<Cmd>, now: int, msgs: set<TaskCommand>)
    requires CommandsSourced(cs, msgs)
    ensures CommandsSourced(StampedAll(cs, now), msgs)
  {
    forall c | c in StampedAll(cs, now) && c.HSetDetail? ensures Sourced(c.task, msgs) {
      var k :| 0 <= k < |cs| && StampedAll(cs, now)[k] == c;
      assert cs[k] in cs && Stamped(cs[k], now) == c;
    }
  }

  lemma AfterIsSourced(w: World, step: Step)
    requires WorldSourced(w) && Enabled(w, step) && GoesOn(step) && After(w, step).Some?
    ensures ActorSourced(After(w, step).value, w.msgs)
  {
    var x := w.actors[step.a];
    assert ActorSourced(x, w.msgs);
    if step.Restamp? {
      RestampedIsSourced(Todo(x), w.clock, w.msgs);
    } else if step.CallFailed? {
      FailureIsSourced(x.cmd, step.error, w.clock, NowNs(w, step.nanos), step.jitter, step.reach, w.msgs);
    }
  }

  lemma StepKeepsActor(w: World, step: Step, a: nat)
    requires WorldSourced(w) && Enabled(w, step) && a in NextActors(w, step)
    ensures ActorSourced(NextActors(w, step)[a], w.msgs)
  {
    if Begins(w, step) && a == w.nextId {
      BegunIsSourced(w, step);
    } else if GoesOn(step) && a == step.a {
      AfterIsSourced(w, step);
    } else {
      assert NextActors(w, step)[a] == w.actors[a];
    }
  }

  lemma StepKeepsMessages(w: World, step: Step, m: TaskCommand)
    requires WorldSourced(w) && Enabled(w, step) && m in NextMsgs(w, step)
    ensures w.msgs <= NextMsgs(w, step) && Descended(m, NextMsgs(w, step))
  {
    if m in w.msgs {
      StaysDescended(m, w.msgs, NextMsgs(w, step));
    } else {
      assert ActorSourced(w.actors[step.a], w.msgs);
      PublishedIsDescended(w.actors[step.a].task, w.msgs);
    }
  }

  lemma ActorStaysSourced(x: Actor, msgs: set<TaskCommand>, more: set<TaskCommand>)
    requires msgs <= more && ActorSourced(x, msgs)
    ensures ActorSourced(x, more)
  {
    if x.Firing? || x.Publishing? {
      StaysSourced(x.task, msgs, more);
    } else if x.Handling? {
      StaysDescended(x.cmd, msgs, more);
    }
    forall c | c in Todo(x) && c.HSetDetail? ensures Sourced(c.task, more) {
      StaysSourced(c.task, msgs, more);
    }
  }

  lemma TasksStaySourced(db: Db, tasks: set<Task>, msgs: set<TaskCommand>, more: set<TaskCommand>)
    requires msgs <= more && DetailsSourced(db, msgs) && AllSourced(tasks, msgs)
    ensures DetailsSourced(db, more) && AllSourced(tasks, more)
  {
    forall j | j in db.detail ensures Sourced(db.detail[j], more) {
      StaysSourced(db.detail[j], msgs, more);
    }
    forall t | t in tasks ensures Sourced(t, more) {
      StaysSourced(t, msgs, more);
    }
  }

  lemma StepKeepsSourced(w: World, step: Step)
    requires WorldSourced(w) && Enabled(w, step)
    ensures WorldSourced(Do(w, step))
  {
    StepKeepsParsed(w, step);
    StepKeepsLocal(w, step);
    StepKeepsDetails(w, step);
    forall m | m in NextMsgs(w, step) ensures Descended(m, NextMsgs(w, step)) {
      StepKeepsMessages(w, step, m);
    }
    assert w.msgs <= NextMsgs(w, step);
    TasksStaySourced(NextDb(w, step), NextParsed(w, step), w.msgs, NextMsgs(w, step));
    TasksStaySourced(NextDb(w, step), NextLocal(w, step), w.msgs, NextMsgs(w, step));
    forall a | a in NextActors(w, step) ensures ActorSourced(NextActors(w, step)[a], NextMsgs(w, step)) {
      StepKeepsActor(w, step, a);
      ActorStaysSourced(NextActors(w, step)[a], w.msgs, NextMsgs(w, step));
    }
  }

  lemma {:induction false} RunIsSourced(ws: seq<World>, steps: seq<Step>, k: nat)
    requires IsRun(ws, steps) && k < |ws|
    ensures WorldSourced(ws[k])
  {
    if k > 0 {
      RunIsSourced(ws, steps, k - 1);
      StepKeepsSourced(ws[k - 1], steps[k - 1]);
    }
  }

  // In every run each published command ends a lineage of published commands that began with a submission. The
  // lineage has at most MaxRetry - r0 + 1 commands, if the job was first run within its budget.
  lemma CommandsDescend(ws: seq<World>, steps: seq<Step>, k: nat, m: TaskCommand) returns (cs: seq<TaskCommand>)
    requires IsRun(ws, steps) && k < |ws| && m in ws[k].msgs
    ensures LeadsTo(cs, m, ws[k].msgs)
    ensures m.maxRetry == cs[0].maxRetry && m.retryCount >= cs[0].retryCount + |cs| - 1
    ensures cs[0].retryCount <= cs[0].maxRetry ==> |cs| <= m.maxRetry - cs[0].retryCount + 1
  {
    RunIsSourced(ws, steps, k);
    cs :| LeadsTo(cs, m, ws[k].msgs);
    LineageCountsUp(cs, |cs| - 1);
    if cs[0].retryCount <= cs[0].maxRetry {
      LineageTerminates(cs);
    }
  }

  // A failure lengthens the lineage exactly if its detail got saved. Otherwise the job is queued with the detail
  // of before, so its next command counts no more attempts than the one that failed.
  lemma FailureCountsIff(db: Db, cmd: TaskCommand, error: string, now: int, nowNs: int, jitter: nat, reach: nat)
    requires jitter < 500 && cmd.retryCount < cmd.maxRetry
    ensures var after := ApplyAll(db, FailureCmds(cmd, error, now, nowNs, jitter, reach));
      Get(after.detail, cmd.id) == if reach >= 1 then Some(RetryTask(cmd, nowNs, jitter)) else Get(db.detail, cmd.id)
  {
    var t := RetryTask(cmd, nowNs, jitter);
    var save, add, update := SaveDetailCmds(t, now), [ZAddGlobal(t.id, t.triggerTime)], UpdateStateCmds(t.id, Retry, now);
    var start := if reach == 0 then db else Apply(db, save[0]);
    var rest := Prefix(save[1..], if reach == 0 then 0 else reach - 1);
    if reach == 0 {
      RestKeepsDetail(db, add + update, cmd.id);
      assert Prefix(save, reach) + add + update == add + update;
    } else {
      RestKeepsDetail(start, rest + add + update, cmd.id);
      assert Prefix(save, reach) + add + update == [save[0]] + (rest + add + update);
      assert ([save[0]] + (rest + add + update))[1..] == rest + add + update;
    }
  }

  lemma {:induction false} RestKeepsDetail(db: Db, cs: seq<Cmd>, j: Id)
    requires forall c :: c in cs ==> !c.HSetDetail? && !c.DelDetail?
    ensures Get(ApplyAll(db, cs).detail, j) == Get(db.detail, j)
    decreases |cs|
  {
    if cs != [] {
      assert cs[0] in cs;
      ApplyKeepsDetail(db, cs[0], j);
      RestKeepsDetail(Apply(db, cs[0]), cs[1..], j);
    }
  }
}
