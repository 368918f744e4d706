/** The operations of Lifecycle are those of the methods, cut into their commands, through every fault. */
module LifecycleRefinement {
  import opened Model
  import opened Redis
  import opened Fsm
  import opened Lifecycle
  import Executor
  import Scheduler

  lemma StepsConcat(db: Db, a: seq<Cmd>, b: seq<Cmd>, na: Net, nb: Net)
    ensures Executor.Step(Executor.Step(db, a, na), b, nb) == ApplyAll(db, Prefix(a, na.reach) + Prefix(b, nb.reach))
  {
    ApplyAllConcat(db, Prefix(a, na.reach), Prefix(b, nb.reach));
  }

  // How many of a recovery's commands run: no status write follows a queue write that is not known to have run.
  function RecoveryReach(net: JobNet): nat {
    if net.add.reach == 0 then 0 else if !net.add.answered then 1 else 1 + net.save.reach
  }

  lemma RecoveryRunsItsCommands(db: Db, j: Id, task: Task, net: JobNet)
    requires task.id == j
    ensures Requeued(db, j, task, net).0 == ApplyAll(db, Prefix(RecoverCmds(task, net.saveAt), RecoveryReach(net)))
  {
    var add, save := [ZAddGlobal(j, task.triggerTime)], SaveStateCmds(task, Pending, net.saveAt);
    if net.add.reach >= 1 && net.add.answered {
      ApplyAllConcat(db, add, Prefix(save, net.save.reach));
      assert Prefix(add + save, 1 + net.save.reach) == add + Prefix(save, net.save.reach);
    } else {
      assert Prefix(add + save, RecoveryReach(net)) == Prefix(add, net.add.reach);
    }
  }

  // A round of either recovery loop is what a Recover or Monitor step begins and ReadDetail decides, when nobody
  // else writes in between.
  lemma RoundsRunTheirCommands(db: Db, j: Id, now: int, net: JobNet)
    requires WellKeyed(db) && net.read
    ensures var x := Recovering(j, Rebuilt(db, j), now, false);
      RecoverOne(db, j, now, net).0 == if Fresh(db, j, now) then db
        else ApplyAll(db, Prefix(RecoverCmds(Rescued(db, x, net.detail), net.saveAt), RecoveryReach(net)))
    ensures var x := Recovering(j, Rebuilt(db, j), now, true);
      MonitorOne(db, j, now, net).0 == if !InFlight(db, j) then db
        else ApplyAll(db, Prefix(RecoverCmds(Rescued(db, x, net.detail), net.saveAt), RecoveryReach(net)))
  {
    RecoveryRunsItsCommands(db, j, RecoveredTask(db, j, now, net.detail), net);
    RecoveryRunsItsCommands(db, j, MonitoredTask(db, j, now, net.detail), net);
  }

  // The fetch step moves exactly the jobs due within a second.
  lemma FetchTakesDue(w: World, j: Id)
    requires j in w.db.global
    ensures var due := 0 <= w.db.global[j] <= w.clock + 1;
      && (j in NextDb(w, RunFetch).global <==> !due)
      && (due ==> j in NextDb(w, RunFetch).pending && NextDb(w, RunFetch).pending[j] == w.db.global[j])
      && (due ==> (j, w.db.global[j]) in NextFetched(w, RunFetch))
  {
    FetchMoves(w.db, w.clock + 1, j);
    var v := ViewOf(NextDb(w, RunFetch), j);
    assert v.global == Get(NextDb(w, RunFetch).global, j) && v.pending == Get(NextDb(w, RunFetch).pending, j);
  }

  // The step that parses a member is parseTasks on that member.
  lemma ParseIsParsed(w: World, j: Id, score: int)
    requires Enabled(w, Parse(j, score))
    ensures NextParsed(w, Parse(j, score)) == w.parsed + set t | t in Scheduler.Parsed(w.db, [(j, score)])
  {
    assert [(j, score)][..0] == [];
    assert Scheduler.Parsed(w.db, []) == [];
    assert Scheduler.Parsed(w.db, [(j, score)]) == [w.db.detail[j].(triggerTime := score)];
  }

  // How far saveDeadTask gets: the list entry is not written after a hash that is not known to be.
  function BuryReach(e: Executor.Env): nat {
    if e.deadDetail.reach == 0 then 0
    else if !e.deadDetail.answered || e.dead.reach == 0 then 1
    else 2
  }

  // What the handler makes of the callback's failure: where its saving stops, and how many commands run in all.
  function SavingReach(cmd: TaskCommand, e: Executor.Env): nat {
    if cmd.retryCount + 1 > cmd.maxRetry then BuryReach(e) else if e.save.reach >= 2 then 2 else e.save.reach
  }

  function FailureReach(cmd: TaskCommand, e: Executor.Env): nat {
    var saving := SavingReach(cmd, e);
    if cmd.retryCount + 1 > cmd.maxRetry then saving + e.finish.reach
    else if e.add.reach == 0 then saving
    else if !e.add.answered then saving + 1
    else saving + 1 + e.finish.reach
  }

  lemma DeathRunsItsCommands(db: Db, cmd: TaskCommand, e: Executor.Env)
    requires cmd.id != ""
    ensures Executor.AfterDeath(db, cmd, e)
         == ApplyAll(db, Prefix(DeadCmds(cmd, e.error, e.now, BuryReach(e)), BuryReach(e) + e.finish.reach))
  {
    var cs, update := BuryCmds(cmd, e.error, e.now), UpdateStateCmds(cmd.id, Dead, e.now);
    StepsConcat(db, [cs[0]], [cs[1]], e.deadDetail, e.dead);
    var bury := Prefix(cs, BuryReach(e));
    assert cs == [cs[0]] + [cs[1]] && cs[..1] == [cs[0]] && cs[..0] == [];
    assert ApplyAll(db, []) == db;
    assert Executor.Buried(db, cmd, e) == ApplyAll(db, bury);
    ApplyAllConcat(db, bury, Prefix(update, e.finish.reach));
    assert Prefix(bury + update, BuryReach(e) + e.finish.reach) == bury + Prefix(update, e.finish.reach);
  }

  lemma RetryRunsItsCommands(db: Db, keys: Executor.Keys, cmd: TaskCommand, e: Executor.Env)
    requires e.jitter < 500 && cmd.id != "" && cmd.retryCount + 1 <= cmd.maxRetry
    ensures Executor.AfterFailure(db, keys, cmd, e).db
         == ApplyAll(db, Prefix(FailureCmds(cmd, e.error, e.now, e.nowNs, e.jitter, SavingReach(cmd, e)),
                                FailureReach(cmd, e)))
  {
    var task := Executor.RetryTask(cmd, e.nowNs, e.jitter);
    var add := [ZAddGlobal(task.id, task.triggerTime)];
    var update := UpdateStateCmds(cmd.id, Retry, e.now);
    var save := Prefix(SaveDetailCmds(task, e.now), e.save.reach);
    var n := |save|;
    assert SavingReach(cmd, e) == n && save == Prefix(SaveDetailCmds(task, e.now), n);
    StepsConcat(db, SaveDetailCmds(task, e.now), add, e.save, e.add);
    if Executor.Done(e.add) {
      ApplyAllConcat(db, save + add, Prefix(update, e.finish.reach));
      assert Prefix(save + add + update, n + 1 + e.finish.reach) == save + add + Prefix(update, e.finish.reach);
    } else {
      assert Prefix(save + add + update, FailureReach(cmd, e)) == save + Prefix(add, e.add.reach);
    }
  }

  lemma FailureRunsItsCommands(db: Db, keys: Executor.Keys, cmd: TaskCommand, e: Executor.Env)
    requires e.jitter < 500 && cmd.id != ""
    ensures Executor.AfterFailure(db, keys, cmd, e).db
         == ApplyAll(db, Prefix(FailureCmds(cmd, e.error, e.now, e.nowNs, e.jitter, SavingReach(cmd, e)),
                                FailureReach(cmd, e)))
  {
    if cmd.retryCount + 1 > cmd.maxRetry {
      DeathRunsItsCommands(db, cmd.(retryCount := cmd.retryCount + 1), e);
    } else {
      RetryRunsItsCommands(db, keys, cmd, e);
    }
  }

  // The handler that won its key, through every fault: what it gets done of its RUNNING write, then of one of
  // its three endings.
  lemma HandlerRunsItsCommands(db: Db, keys: Executor.Keys, cmd: TaskCommand, e: Executor.Env)
    requires Executor.Proper(e, cmd) && Executor.KeyFree(keys, cmd, e.now) && cmd.id != ""
    requires e.setNx.reach >= 1 && e.setNx.answered
    ensures var running := Prefix(UpdateStateCmds(cmd.id, Running, e.now), e.running.reach);
      var failure := FailureCmds(cmd, e.error, e.now, e.nowNs, e.jitter, SavingReach(cmd, e));
      var ending := if e.callbackOk then Prefix(UpdateStateCmds(cmd.id, Success, e.now), e.finish.reach)
                    else Prefix(failure, FailureReach(cmd, e));
      Executor.Handle(db, keys, cmd, e).db == ApplyAll(db, running + ending)
  {
    var running := UpdateStateCmds(cmd.id, Running, e.now);
    if e.callbackOk {
      StepsConcat(db, running, UpdateStateCmds(cmd.id, Success, e.now), e.running, e.finish);
    } else {
      var failure := FailureCmds(cmd, e.error, e.now, e.nowNs, e.jitter, SavingReach(cmd, e));
      FailureRunsItsCommands(Executor.Step(db, running, e.running), Executor.Mark(keys, cmd, e.now), cmd, e);
      ApplyAllConcat(db, Prefix(running, e.running.reach), Prefix(failure, FailureReach(cmd, e)));
    }
  }
}
