/** The executor's handling of one delivered command (consumer.go). */
module Executor {
  import opened Model
  import opened Redis
  import opened DedupeKeys
  import Backoff
  import Scheduler

  const DEDUPE_TTL := 86400

  // Keys set by SetNX, with the second at which they expire.
  type Keys = map<string, int>

  predicate KeyFree(keys: Keys, cmd: TaskCommand, now: int) {
    var k := Key(cmd.id, cmd.triggerTime);
    k !in keys || keys[k] <= now
  }

  function Mark(keys: Keys, cmd: TaskCommand, now: int): Keys {
    if KeyFree(keys, cmd, now) then keys[Key(cmd.id, cmd.triggerTime) := now + DEDUPE_TTL] else keys
  }

  class DedupeStore {
    var keys: Keys

    constructor ()
      ensures keys == map[]
    {
      keys := map[];
    }
  }

  // Everything the handler does not decide: the clock, each call's fate, and the callback's outcome.
  datatype Env = Env(now: int, nowNs: int, jitter: nat, setNx: Net, running: Net, callbackOk: bool,
                     save: Net, add: Net, deadDetail: Net, dead: Net, error: string, finish: Net)

  predicate Proper(e: Env, cmd: TaskCommand) {
    e.jitter < 500 && (e.callbackOk ==> cmd.callbackURL != "")
  }

  datatype Reply = Ack | NackRequeue

  // called: the HTTP request was made. reply: what the broker is told.
  datatype Handled = Handled(db: Db, keys: Keys, called: bool, reply: Reply)

  // updateTaskState refuses an empty id.
  function StatusCmds(id: Id, status: Status, now: int): seq<Cmd> {
    if id == "" then [] else UpdateStateCmds(id, status, now)
  }

  // The task written back for a retry: the command with one more attempt, and no enqueue time.
  function RetryTask(cmd: TaskCommand, nowNs: int, jitter: nat): Task
    requires jitter < 500
  {
    var retry := cmd.retryCount + 1;
    Task(cmd.id, cmd.name, cmd.callbackURL, Backoff.RetryAt(nowNs, retry, jitter), cmd.priority,
         retry, cmd.maxRetry, cmd.timeout, cmd.payload, 0)
  }

  function Step(db: Db, cs: seq<Cmd>, net: Net): Db { ApplyAll(db, Prefix(cs, net.reach)) }

  predicate Done(net: Net) { net.reach >= 1 && net.answered }

  // saveDeadTask: the list entry is written only once the hash is known to be.
  function Buried(db: Db, cmd: TaskCommand, e: Env): Db {
    var cs := BuryCmds(cmd, e.error, e.now);
    var detailed := Step(db, [cs[0]], e.deadDetail);
    if Done(e.deadDetail) then Step(detailed, [cs[1]], e.dead) else detailed
  }

  // handleTaskDead: DEAD is written in any case.
  function AfterDeath(db: Db, cmd: TaskCommand, e: Env): Db {
    Step(Buried(db, cmd, e), StatusCmds(cmd.id, Dead, e.now), e.finish)
  }

  function AfterFailure(db: Db, keys: Keys, cmd: TaskCommand, e: Env): Handled
    requires e.jitter < 500
  {
    var called := cmd.callbackURL != "";
    if cmd.retryCount + 1 > cmd.maxRetry then
      Handled(AfterDeath(db, cmd.(retryCount := cmd.retryCount + 1), e), keys, called, Ack)
    else
      var task := RetryTask(cmd, e.nowNs, e.jitter);
      var saved := Step(db, SaveDetailCmds(task, e.now), e.save);
      var queued := Step(saved, [ZAddGlobal(task.id, task.triggerTime)], e.add);
      if Done(e.add)
      then Handled(Step(queued, StatusCmds(cmd.id, Retry, e.now), e.finish), keys, called, Ack)
      else Handled(queued, keys, called, NackRequeue)
  }

  function Handle(db: Db, keys: Keys, cmd: TaskCommand, e: Env): Handled
    requires Proper(e, cmd)
  {
    var marked := if e.setNx.reach >= 1 then Mark(keys, cmd, e.now) else keys;
    if e.setNx.reach < 1 || !e.setNx.answered then Handled(db, marked, false, NackRequeue)
    else if !KeyFree(keys, cmd, e.now) then Handled(db, marked, false, Ack)
    else
      var running := Step(db, StatusCmds(cmd.id, Running, e.now), e.running);
      if e.callbackOk
      then Handled(Step(running, StatusCmds(cmd.id, Success, e.now), e.finish), marked, true, Ack)
      else AfterFailure(running, marked, cmd, e)
  }

  // A key that was free is set for 24 hours; nothing else changes.
  lemma MarkMeans(keys: Keys, cmd: TaskCommand, now: int, k: string)
    ensures var mine := "flash_job:exec_dedupe:" + cmd.id + ":" + IntString(cmd.triggerTime);
      Get(Mark(keys, cmd, now), k) ==
        if k == mine && (k !in keys || keys[k] <= now) then Some(now + 24 * 60 * 60) else Get(keys, k)
  {
  }

  // ---- What the handler leaves behind when Redis answers ----

  predicate NoFault(e: Env) {
    && e.setNx.reach >= 1 && e.setNx.answered && Done(e.add) && Done(e.deadDetail) && e.dead.reach >= 1
    && e.running.reach >= 3 && e.save.reach >= 2 && e.finish.reach >= 3
  }

  lemma SucceededIsRecorded(db: Db, keys: Keys, cmd: TaskCommand, e: Env)
    requires Proper(e, cmd) && NoFault(e) && KeyFree(keys, cmd, e.now) && cmd.id != "" && e.callbackOk
    ensures var r := Handle(db, keys, cmd, e);
      && r.called && r.reply == Ack && r.keys == Mark(keys, cmd, e.now)
      && Recorded(db, r.db, cmd.id, Success, e.now) && RestUntouched(db, r.db) && OthersUntouched(db, r.db, cmd.id)
  {
    var mid := Step(db, StatusCmds(cmd.id, Running, e.now), e.running);
    var end := Step(mid, StatusCmds(cmd.id, Success, e.now), e.finish);
    UpdateRecords(db, cmd.id, Running, e.now);
    UpdateRecords(mid, cmd.id, Success, e.now);
    RecordedTwice(db, mid, end, cmd.id, Running, Success, e.now, e.now);
    OthersUntouchedTwice(db, mid, end, cmd.id);
  }

  // The dead job is listed with what it was and why it failed.
  predicate Listed(r: Db, cmd: TaskCommand, error: string, now: int) {
    && cmd.id in r.dead && r.dead[cmd.id] == now && cmd.id in r.deadDetail
    && var d := r.deadDetail[cmd.id];
    && d.name == cmd.name && d.callbackURL == cmd.callbackURL && d.retryCount == cmd.retryCount + 1
    && d.error == error && d.deadAt == now
  }

  lemma BuryingLists(db: Db, cmd: TaskCommand, e: Env)
    requires NoFault(e)
    ensures var r := Buried(db, cmd.(retryCount := cmd.retryCount + 1), e);
      && Listed(r, cmd, e.error, e.now) && OthersUntouched(db, r, cmd.id)
      && r == db.(dead := r.dead, deadDetail := r.deadDetail)
  {
    var cs := BuryCmds(cmd.(retryCount := cmd.retryCount + 1), e.error, e.now);
    ApplyOne(db, cs[0]);
    ApplyOne(Apply(db, cs[0]), cs[1]);
  }

  lemma DeathIsRecorded(db: Db, keys: Keys, cmd: TaskCommand, e: Env)
    requires Proper(e, cmd) && NoFault(e) && KeyFree(keys, cmd, e.now) && cmd.id != "" && !e.callbackOk
    requires cmd.retryCount + 1 > cmd.maxRetry
    ensures var r := Handle(db, keys, cmd, e);
      && (r.called <==> cmd.callbackURL != "") && r.reply == Ack && r.keys == Mark(keys, cmd, e.now)
      && Recorded(db, r.db, cmd.id, Dead, e.now) && OthersUntouched(db, r.db, cmd.id)
      && Listed(r.db, cmd, e.error, e.now)
      && r.db.global == db.global && r.db.pending == db.pending && r.db.detail == db.detail
  {
    var mid := Step(db, StatusCmds(cmd.id, Running, e.now), e.running);
    var buried := Buried(mid, cmd.(retryCount := cmd.retryCount + 1), e);
    var end := Step(buried, StatusCmds(cmd.id, Dead, e.now), e.finish);
    UpdateRecords(db, cmd.id, Running, e.now);
    BuryingLists(mid, cmd, e);
    UpdateRecords(buried, cmd.id, Dead, e.now);
    assert Recorded(mid, end, cmd.id, Dead, e.now);
    RecordedTwice(db, mid, end, cmd.id, Running, Dead, e.now, e.now);
    OthersUntouchedTwice(db, mid, buried, cmd.id);
    OthersUntouchedTwice(db, buried, end, cmd.id);
  }

  // The task saved for a retry is the command's, with one more attempt, due at the end of the delay.
  predicate SavedForRetry(t: Task, cmd: TaskCommand, due: int) {
    && t.id == cmd.id && t.name == cmd.name && t.callbackURL == cmd.callbackURL && t.payload == cmd.payload
    && t.priority == cmd.priority && t.timeout == cmd.timeout && t.maxRetry == cmd.maxRetry
    && t.retryCount == cmd.retryCount + 1 && t.triggerTime == due && t.enqueueAt == 0
  }

  lemma RetryTaskMeans(cmd: TaskCommand, nowNs: int, jitter: nat)
    requires jitter < 500
    ensures SavedForRetry(RetryTask(cmd, nowNs, jitter), cmd, Backoff.RetryAt(nowNs, cmd.retryCount + 1, jitter))
  {
  }

  // Publishing and retrying a task loses nothing but its enqueue time.
  lemma RetryCarries(t: Task, nowNs: int, jitter: nat)
    requires jitter < 500
    ensures RetryTask(CommandOf(t), nowNs, jitter) ==
      t.(retryCount := t.retryCount + 1, triggerTime := Backoff.RetryAt(nowNs, t.retryCount + 1, jitter), enqueueAt := 0)
    ensures var c := CommandOf(t);
      && c.id == t.id && c.name == t.name && c.callbackURL == t.callbackURL && c.triggerTime == t.triggerTime
      && c.priority == t.priority && c.retryCount == t.retryCount && c.maxRetry == t.maxRetry
      && c.timeout == t.timeout && c.payload == t.payload
  {
  }

  // The job waits in global, with its detail saved.
  predicate QueuedForRetry(r: Db, cmd: TaskCommand, due: int) {
    && cmd.id in r.global && r.global[cmd.id] == due
    && cmd.id in r.detail && SavedForRetry(r.detail[cmd.id], cmd, due)
  }

  lemma SavingQueues(db: Db, cmd: TaskCommand, t: Task, e: Env)
    requires NoFault(e) && SavedForRetry(t, cmd, t.triggerTime)
    ensures var r := Step(Step(db, SaveDetailCmds(t, e.now), e.save), [ZAddGlobal(t.id, t.triggerTime)], e.add);
      && QueuedForRetry(r, cmd, t.triggerTime) && OthersUntouched(db, r, cmd.id)
      && r == db.(detail := r.detail, active := r.active, global := r.global)
  {
    var cs := SaveDetailCmds(t, e.now);
    ApplyTwo(db, cs[0], cs[1]);
    ApplyOne(Apply(Apply(db, cs[0]), cs[1]), ZAddGlobal(t.id, t.triggerTime));
  }

  lemma SameRecordBefore(a: Db, b: Db, c: Db, id: Id, status: Status, now: int)
    requires Recorded(b, c, id, status, now) && a.state == b.state && a.terminal == b.terminal
    ensures Recorded(a, c, id, status, now)
  {
  }

  lemma FailureIsQueued(db: Db, keys: Keys, cmd: TaskCommand, e: Env)
    requires e.jitter < 500 && NoFault(e) && cmd.id != "" && cmd.retryCount + 1 <= cmd.maxRetry
    ensures var r := AfterFailure(db, keys, cmd, e);
      && (r.called <==> cmd.callbackURL != "") && r.reply == Ack && r.keys == keys
      && Recorded(db, r.db, cmd.id, Retry, e.now) && OthersUntouched(db, r.db, cmd.id)
      && QueuedForRetry(r.db, cmd, Backoff.RetryAt(e.nowNs, cmd.retryCount + 1, e.jitter))
      && r.db.pending == db.pending && r.db.dead == db.dead && r.db.deadDetail == db.deadDetail
  {
    var task := RetryTask(cmd, e.nowNs, e.jitter);
    var queued := Step(Step(db, SaveDetailCmds(task, e.now), e.save), [ZAddGlobal(task.id, task.triggerTime)], e.add);
    var end := Step(queued, StatusCmds(cmd.id, Retry, e.now), e.finish);
    RetryTaskMeans(cmd, e.nowNs, e.jitter);
    SavingQueues(db, cmd, task, e);
    UpdateRecords(queued, cmd.id, Retry, e.now);
    SameRecordBefore(db, queued, end, cmd.id, Retry, e.now);
    OthersUntouchedTwice(db, queued, end, cmd.id);
    assert AfterFailure(db, keys, cmd, e) == Handled(end, keys, cmd.callbackURL != "", Ack);
  }

  lemma RetryIsRecorded(db: Db, keys: Keys, cmd: TaskCommand, e: Env)
    requires Proper(e, cmd) && NoFault(e) && KeyFree(keys, cmd, e.now) && cmd.id != "" && !e.callbackOk
    requires cmd.retryCount + 1 <= cmd.maxRetry
    ensures var r := Handle(db, keys, cmd, e);
      && (r.called <==> cmd.callbackURL != "") && r.reply == Ack && r.keys == Mark(keys, cmd, e.now)
      && Recorded(db, r.db, cmd.id, Retry, e.now) && OthersUntouched(db, r.db, cmd.id)
      && QueuedForRetry(r.db, cmd, Backoff.RetryAt(e.nowNs, cmd.retryCount + 1, e.jitter))
      && r.db.pending == db.pending && r.db.dead == db.dead && r.db.deadDetail == db.deadDetail
  {
    var mid := Step(db, StatusCmds(cmd.id, Running, e.now), e.running);
    UpdateRecords(db, cmd.id, Running, e.now);
    FailureIsQueued(mid, Mark(keys, cmd, e.now), cmd, e);
    RecordedTwice(db, mid, Handle(db, keys, cmd, e).db, cmd.id, Running, Retry, e.now, e.now);
    OthersUntouchedTwice(db, mid, Handle(db, keys, cmd, e).db, cmd.id);
  }

  method CheckAndMarkIdempotency(dedupe: DedupeStore, cmd: TaskCommand, now: int, net: Net)
    returns (duplicate: bool, failed: bool)
    modifies dedupe
    ensures dedupe.keys == if net.reach >= 1 then Mark(old(dedupe.keys), cmd, now) else old(dedupe.keys)
    ensures failed <==> net.reach < 1 || !net.answered
    ensures !failed ==> (duplicate <==> !KeyFree(old(dedupe.keys), cmd, now))
  {
    duplicate := !KeyFree(dedupe.keys, cmd, now);
    if net.reach >= 1 {
      dedupe.keys := Mark(dedupe.keys, cmd, now);
    }
    failed := net.reach < 1 || !net.answered;
  }

  method UpdateTaskState(store: Store, id: Id, status: Status, now: int, net: Net) returns (ok: bool)
    modifies store
    ensures store.Contents() == Step(old(store.Contents()), StatusCmds(id, status, now), net)
    ensures id == "" ==> !ok && store.Contents() == old(store.Contents())
    ensures id != "" && net.reach >= 3 ==>
      && Recorded(old(store.Contents()), store.Contents(), id, status, now)
      && RestUntouched(old(store.Contents()), store.Contents())
      && OthersUntouched(old(store.Contents()), store.Contents(), id)
  {
    UpdateRecords(store.Contents(), id, status, now);
    if id == "" {
      return false;
    }
    ok := store.Exec(UpdateStateCmds(id, status, now), net);
  }

  method HandleTaskDead(store: Store, cmd: TaskCommand, e: Env)
    modifies store
    ensures store.Contents() == AfterDeath(old(store.Contents()), cmd, e)
  {
    var cs := BuryCmds(cmd, e.error, e.now);
    var detailed := store.Exec([cs[0]], e.deadDetail);
    if detailed {
      var _ := store.Exec([cs[1]], e.dead);
    }
    var _ := UpdateTaskState(store, cmd.id, Dead, e.now, e.finish);
  }

  method HandleTask(store: Store, dedupe: DedupeStore, cmd: TaskCommand, e: Env) returns (called: bool, reply: Reply)
    requires Proper(e, cmd)
    modifies store, dedupe
    ensures Handled(store.Contents(), dedupe.keys, called, reply)
         == Handle(old(store.Contents()), old(dedupe.keys), cmd, e)
  {
    var duplicate, failed := CheckAndMarkIdempotency(dedupe, cmd, e.now, e.setNx);
    if failed {
      return false, NackRequeue;
    }
    if duplicate {
      return false, Ack;
    }
    var _ := UpdateTaskState(store, cmd.id, Running, e.now, e.running);
    if e.callbackOk {
      var _ := UpdateTaskState(store, cmd.id, Success, e.now, e.finish);
      return true, Ack;
    }
    called := cmd.callbackURL != "";
    var retry := cmd.(retryCount := cmd.retryCount + 1);
    if retry.retryCount > retry.maxRetry {
      HandleTaskDead(store, retry, e);
      return called, Ack;
    }
    var task := RetryTask(cmd, e.nowNs, e.jitter);
    var _ := store.Exec(SaveDetailCmds(task, e.now), e.save);
    var queued := store.Exec([ZAddGlobal(task.id, task.triggerTime)], e.add);
    if !queued {
      return called, NackRequeue;
    }
    var _ := UpdateTaskState(store, cmd.id, Retry, e.now, e.finish);
    return called, Ack;
  }

  // ---- What the handler promises, and does not ----

  lemma CommandKeepsGlobal(db: Db, c: Cmd)
    requires !c.ZAddGlobal?
    ensures Apply(db, c).global == db.global
  {
  }

  lemma {:induction false} StatusKeepsGlobal(db: Db, cs: seq<Cmd>)
    requires forall c :: c in cs ==> !c.ZAddGlobal?
    ensures ApplyAll(db, cs).global == db.global
    decreases |cs|
  {
    if cs != [] {
      assert cs[0] in cs;
      CommandKeepsGlobal(db, cs[0]);
      StatusKeepsGlobal(Apply(db, cs[0]), cs[1..]);
    }
  }

  // When a message is acknowledged, and when its URL is called, whatever fails. A message is acknowledged when it is a
  // duplicate, succeeded, died, or is known to be queued again; otherwise it is requeued.
  lemma AckedIff(db: Db, keys: Keys, cmd: TaskCommand, e: Env)
    requires Proper(e, cmd)
    ensures var first := e.setNx.reach >= 1 && e.setNx.answered;
      var free := KeyFree(keys, cmd, e.now);
      && (Handle(db, keys, cmd, e).reply == Ack <==>
            first && (!free || e.callbackOk || cmd.retryCount >= cmd.maxRetry || (e.add.reach >= 1 && e.add.answered)))
      && (Handle(db, keys, cmd, e).called <==> first && free && cmd.callbackURL != "")
      && (!(first && free) ==> Handle(db, keys, cmd, e).db == db)
      && Handle(db, keys, cmd, e).keys == if e.setNx.reach >= 1 then Mark(keys, cmd, e.now) else keys
  {
  }

  // An acknowledged failure with attempts left is back in the global queue, at the backoff time.
  lemma AckedRetryIsQueued(db: Db, keys: Keys, cmd: TaskCommand, e: Env)
    requires Proper(e, cmd) && !e.callbackOk && KeyFree(keys, cmd, e.now) && cmd.retryCount < cmd.maxRetry
    requires e.setNx.reach >= 1 && e.setNx.answered && Handle(db, keys, cmd, e).reply == Ack
    ensures Get(Handle(db, keys, cmd, e).db.global, cmd.id)
         == Some(Backoff.RetryAt(e.nowNs, cmd.retryCount + 1, e.jitter))
  {
    var task := RetryTask(cmd, e.nowNs, e.jitter);
    var running := Step(db, StatusCmds(cmd.id, Running, e.now), e.running);
    var saved := Step(running, SaveDetailCmds(task, e.now), e.save);
    var add := ZAddGlobal(task.id, task.triggerTime);
    assert Prefix([add], e.add.reach) == [add] && [add][1..] == [];
    assert ApplyAll(saved, [add]) == Apply(saved, add);
    StatusKeepsGlobal(Apply(saved, add), Prefix(StatusCmds(cmd.id, Retry, e.now), e.finish.reach));
  }

  // A redelivered command runs exactly when the first attempt's SETNX never reached Redis. So the fallback for a
  // failed re-queue, and a SETNX that timed out after running, requeue a message that will only be thrown away.
  lemma RequeuedRunsIffUnmarked(db: Db, keys: Keys, cmd: TaskCommand, e: Env, db2: Db, e2: Env)
    requires Proper(e, cmd) && Proper(e2, cmd) && KeyFree(keys, cmd, e.now) && cmd.callbackURL != ""
    requires Handle(db, keys, cmd, e).reply == NackRequeue
    requires e.now <= e2.now < e.now + DEDUPE_TTL && e2.setNx.reach >= 1 && e2.setNx.answered
    ensures var first := Handle(db, keys, cmd, e); var second := Handle(db2, first.keys, cmd, e2);
      && (second.called <==> e.setNx.reach == 0)
      && (e.setNx.reach > 0 ==> second == Handled(db2, first.keys, false, Ack))
  {
  }

  // A retry forgets when the job was queued: it never ages, and precedes its peers of equal rank.
  lemma RetryNeverAges(cmd: TaskCommand, nowNs: int, jitter: nat, now: int, score: int)
    requires jitter < 500
    ensures !Scheduler.Ages(RetryTask(cmd, nowNs, jitter).(triggerTime := score), now)
  {
  }

  // The retry has the dedupe key of the command that failed.
  predicate KeyRepeats(cmd: TaskCommand, nowNs: int, jitter: nat)
    requires jitter < 500
  {
    Key(cmd.id, RetryTask(cmd, nowNs, jitter).triggerTime) == Key(cmd.id, cmd.triggerTime)
  }

  // A delay that starts at nowNs ends within this second.
  predicate DelayEndsIn(nowNs: int, delay: int, second: int) {
    second * Backoff.SECOND <= nowNs + delay < (second + 1) * Backoff.SECOND
  }

  // The key repeats exactly when the failure and its whole delay end within the trigger second, for every attempt.
  lemma KeyRepeatsIff(cmd: TaskCommand, nowNs: int, jitter: nat)
    requires jitter < 500 && cmd.retryCount >= 0
    ensures KeyRepeats(cmd, nowNs, jitter) <==>
      DelayEndsIn(nowNs, Backoff.Base(cmd.retryCount + 1) + jitter * 1_000_000, cmd.triggerTime)
  {
    var t := RetryTask(cmd, nowNs, jitter).triggerTime;
    if Key(cmd.id, t) == Key(cmd.id, cmd.triggerTime) {
      KeyInjective(cmd.id, t, cmd.id, cmd.triggerTime);
    }
    Backoff.SecondOf(nowNs + Backoff.Base(cmd.retryCount + 1) + jitter * 1_000_000, cmd.triggerTime);
  }

  // Whatever the jitter, the key is new exactly when the delay before jitter ends after the trigger second, or so
  // long before it that the largest jitter, 499 ms, does not reach it.
  predicate KeyIsSafe(cmd: TaskCommand, nowNs: int, delay: int) {
    || nowNs + delay >= (cmd.triggerTime + 1) * Backoff.SECOND
    || nowNs + delay + 499_000_000 < cmd.triggerTime * Backoff.SECOND
  }

  lemma KeyIsNewIff(cmd: TaskCommand, nowNs: int)
    requires cmd.retryCount >= 0
    ensures (forall jitter: nat :: jitter < 500 ==> !KeyRepeats(cmd, nowNs, jitter))
       <==> KeyIsSafe(cmd, nowNs, Backoff.Base(cmd.retryCount + 1))
  {
    var until := nowNs + Backoff.Base(cmd.retryCount + 1);
    forall jitter: nat | jitter < 500
      ensures KeyRepeats(cmd, nowNs, jitter) <==> DelayEndsIn(until, jitter * 1_000_000, cmd.triggerTime)
    {
      KeyRepeatsIff(cmd, nowNs, jitter);
    }
    if !KeyIsSafe(cmd, nowNs, Backoff.Base(cmd.retryCount + 1)) {
      var short := cmd.triggerTime * Backoff.SECOND - until;
      var jitter: nat := if short <= 0 then 0 else (short + 999_999) / 1_000_000;
      assert DelayEndsIn(until, jitter * 1_000_000, cmd.triggerTime);
      assert KeyRepeats(cmd, nowNs, jitter);
    }
  }

  // For the attempts whose backoff is the promised one, that delay is 1, 2, 4, 8, 16 or 30 s. So a callback that
  // fails in its trigger second or later always gets a new key then.
  lemma PromisedKeyIsNewIff(cmd: TaskCommand, nowNs: int)
    requires 0 <= cmd.retryCount < 34 || Backoff.SignFree(cmd.retryCount + 1)
    ensures (forall jitter: nat :: jitter < 500 ==> !KeyRepeats(cmd, nowNs, jitter))
       <==> KeyIsSafe(cmd, nowNs, Backoff.Promised(cmd.retryCount + 1))
    ensures nowNs >= cmd.triggerTime * Backoff.SECOND ==> KeyIsSafe(cmd, nowNs, Backoff.Promised(cmd.retryCount + 1))
  {
    KeyIsNewIff(cmd, nowNs);
    Backoff.BackoffIsAsPromised(cmd.retryCount + 1);
  }

  // From the 56th attempt on nothing is left of the delay: a failure in the trigger second, or up to 499 ms
  // before it, can repeat the key, and without jitter one in the trigger second always does.
  lemma SpentKeyIsNewIff(cmd: TaskCommand, nowNs: int)
    requires cmd.retryCount >= 55
    ensures (forall jitter: nat :: jitter < 500 ==> !KeyRepeats(cmd, nowNs, jitter)) <==> KeyIsSafe(cmd, nowNs, 0)
    ensures KeyRepeats(cmd, nowNs, 0) <==> DelayEndsIn(nowNs, 0, cmd.triggerTime)
  {
    Backoff.HugeRetry(cmd.retryCount + 1);
    KeyIsNewIff(cmd, nowNs);
    KeyRepeatsIff(cmd, nowNs, 0);
  }

  // A retried command whose own key is free runs if and only if the failed one did not have the same key.
  lemma RetryRunsIff(db: Db, keys: Keys, cmd: TaskCommand, e: Env, db2: Db, e2: Env)
    requires Proper(e, cmd) && KeyFree(keys, cmd, e.now) && e.setNx.reach >= 1 && cmd.callbackURL != ""
    requires var again := CommandOf(RetryTask(cmd, e.nowNs, e.jitter));
      Proper(e2, again) && KeyFree(keys, again, e2.now) && e2.setNx.reach >= 1 && e2.setNx.answered
    requires e.now <= e2.now < e.now + DEDUPE_TTL && cmd.retryCount >= 0
    ensures var again := CommandOf(RetryTask(cmd, e.nowNs, e.jitter)); var after := Handle(db, keys, cmd, e).keys;
      && (Handle(db2, after, again, e2).called <==> !KeyRepeats(cmd, e.nowNs, e.jitter))
      && (KeyRepeats(cmd, e.nowNs, e.jitter) ==> Handle(db2, after, again, e2) == Handled(db2, after, false, Ack))
  {
    assert Handle(db, keys, cmd, e).keys == Mark(keys, cmd, e.now);
  }

  // ---- Retry lineages ----

  // What happens to a saved task until it is published.
  datatype Hop = Rescored(score: int) | MaybeAged(now: int) | PublishFailed(nowNs: int, jitter: nat)

  function Hopped(t: Task, h: Hop): Task {
    match h
    case Rescored(score) => t.(triggerTime := score)
    case MaybeAged(now) => Scheduler.Aged(t, now)
    case PublishFailed(nowNs, jitter) => if jitter < 500 then Scheduler.Again(t, nowNs, jitter) else t
  }

  function Carried(t: Task, hops: seq<Hop>): Task {
    if hops == [] then t else Hopped(Carried(t, hops[..|hops| - 1]), hops[|hops| - 1])
  }

  lemma {:induction false} CarriedKeepsBudget(t: Task, hops: seq<Hop>)
    ensures var c := Carried(t, hops); c.id == t.id && c.maxRetry == t.maxRetry && c.retryCount >= t.retryCount
    decreases |hops|
  {
    if hops != [] {
      CarriedKeepsBudget(t, hops[..|hops| - 1]);
    }
  }

  // b was published from the detail that the failure of a saved.
  ghost predicate Retries(a: TaskCommand, b: TaskCommand) {
    a.retryCount < a.maxRetry &&
    exists nowNs: int, jitter: nat, hops: seq<Hop> ::
      jitter < 500 && b == CommandOf(Carried(RetryTask(a, nowNs, jitter), hops))
  }

  ghost predicate Lineage(cs: seq<TaskCommand>) {
    forall k :: 0 <= k < |cs| - 1 ==> Retries(cs[k], cs[k + 1])
  }

  lemma {:induction false} LineageCountsUp(cs: seq<TaskCommand>, k: nat)
    requires Lineage(cs) && k < |cs|
    ensures cs[k].id == cs[0].id && cs[k].maxRetry == cs[0].maxRetry && cs[k].retryCount >= cs[0].retryCount + k
    decreases k
  {
    if k > 0 {
      LineageCountsUp(cs, k - 1);
      assert Retries(cs[k - 1], cs[k]);
      var nowNs: int, jitter: nat, hops: seq<Hop> :|
        jitter < 500 && cs[k] == CommandOf(Carried(RetryTask(cs[k - 1], nowNs, jitter), hops));
      CarriedKeepsBudget(RetryTask(cs[k - 1], nowNs, jitter), hops);
    }
  }

  // A job first run with r0 attempts used is run at most MaxRetry - r0 + 1 times before it is dead.
  lemma LineageTerminates(cs: seq<TaskCommand>)
    requires Lineage(cs) && cs != [] && cs[0].retryCount <= cs[0].maxRetry
    ensures |cs| <= cs[0].maxRetry - cs[0].retryCount + 1
  {
    if |cs| >= 2 {
      LineageCountsUp(cs, |cs| - 2);
      assert Retries(cs[|cs| - 2], cs[|cs| - 1]);
    }
  }
}
