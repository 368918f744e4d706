/** The scheduler loops of scheduler.go, and executeTask of p.go, over the shared keys. */
module Scheduler {
  import opened Model
  import opened QueueSpec
  import opened Redis
  import opened Fsm
  import Backoff
  import Processor

  const PRELOAD_SECONDS := 1
  const AGING_SECONDS := 300

  // ---- fetcherLoop, after the Lua script ----

  // parseTasks: a due member becomes its saved task, due at its score; without a detail it is skipped.
  function Parsed(db: Db, items: seq<(Id, int)>): seq<Task> {
    if items == [] then []
    else
      var (j, score) := items[|items| - 1];
      Parsed(db, items[..|items| - 1]) + if j in db.detail then [db.detail[j].(triggerTime := score)] else []
  }

  method ParseTasks(store: Store, items: seq<(Id, int)>) returns (tasks: seq<Task>)
    ensures tasks == Parsed(store.Contents(), items)
  {
    tasks := [];
    for k := 0 to |items|
      invariant tasks == Parsed(store.Contents(), items[..k])
    {
      assert items[..k + 1][..k] == items[..k];
      var (j, score) := items[k];
      if j in store.detail {
        tasks := tasks + [store.detail[j].(triggerTime := score)];
      }
    }
    assert items[..|items|] == items;
  }

  // The members before the k-th that have a detail.
  function KnownBefore(db: Db, items: seq<(Id, int)>, k: nat): set<nat>
    requires k <= |items|
  {
    set m: nat | m < k && items[m].0 in db.detail
  }

  lemma KnownInFront(db: Db, items: seq<(Id, int)>, n: nat, k: nat)
    requires k <= n <= |items|
    ensures KnownBefore(db, items[..n], k) == KnownBefore(db, items, k)
  {
    assert forall m: nat :: m < k ==> items[..n][m] == items[m];
  }

  lemma KnownOneMore(db: Db, items: seq<(Id, int)>, n: nat)
    requires n < |items|
    ensures |KnownBefore(db, items, n + 1)| == |KnownBefore(db, items, n)| + if items[n].0 in db.detail then 1 else 0
  {
    assert KnownBefore(db, items, n + 1) == KnownBefore(db, items, n) + if items[n].0 in db.detail then {n} else {};
  }

  // Exactly the members with a detail are parsed.
  lemma {:induction false} ParsedCounts(db: Db, items: seq<(Id, int)>)
    ensures |Parsed(db, items)| == |KnownBefore(db, items, |items|)|
    decreases |items|
  {
    if items != [] {
      var n := |items| - 1;
      ParsedCounts(db, items[..n]);
      KnownInFront(db, items, n, n);
      KnownOneMore(db, items, n);
    } else {
      assert KnownBefore(db, items, 0) == {};
    }
  }

  // They are parsed in order: each is its saved task, due at its score.
  lemma {:induction false} ParsedMeans(db: Db, items: seq<(Id, int)>, k: nat)
    requires k < |items| && items[k].0 in db.detail
    ensures var at := |KnownBefore(db, items, k)|;
      at < |Parsed(db, items)| && Parsed(db, items)[at] == db.detail[items[k].0].(triggerTime := items[k].1)
    decreases |items|
  {
    var n := |items| - 1;
    KnownInFront(db, items, n, k);
    if k < n {
      ParsedMeans(db, items[..n], k);
    } else {
      ParsedCounts(db, items[..n]);
    }
  }

  predicate Ages(t: Task, now: int) {
    t.priority == PRIORITY_LOW && t.enqueueAt > 0 && now - t.enqueueAt > AGING_SECONDS
  }

  function Aged(t: Task, now: int): Task {
    if Ages(t, now) then t.(priority := PRIORITY_HIGH) else t
  }

  // A Low task that was enqueued more than five minutes ago becomes High; nothing else about a task changes.
  lemma AgedMeans(t: Task, now: int)
    ensures Aged(t, now) == t.(priority := Aged(t, now).priority)
    ensures t.priority == "Low" && t.enqueueAt > 0 && now - t.enqueueAt > 5 * 60 ==> Aged(t, now).priority == "High"
    ensures !(t.priority == "Low" && t.enqueueAt > 0 && now - t.enqueueAt > 5 * 60) ==> Aged(t, now) == t
  {
  }

  // The saved details follow, and nothing else is written.
  lemma {:induction false} AgingWritesDetails(db: Db, tasks: seq<Task>, now: int)
    ensures var r := ApplyAll(db, AgeCmds(tasks, now)); r == db.(detail := r.detail)
    decreases |tasks|
  {
    if tasks != [] {
      AgingWritesDetails(db, tasks[..|tasks| - 1], now);
      LastIsAged(db, tasks, now);
    }
  }

  lemma LastIsAged(db: Db, tasks: seq<Task>, now: int)
    requires tasks != []
    ensures var n := |tasks| - 1; var before := ApplyAll(db, AgeCmds(tasks[..n], now));
      ApplyAll(db, AgeCmds(tasks, now)) ==
        if Aged(tasks[n], now) != tasks[n] then before.(detail := before.detail[tasks[n].id := Aged(tasks[n], now)])
        else before
  {
    var n := |tasks| - 1;
    var c := HSetDetail(tasks[n].id, Aged(tasks[n], now));
    if Ages(tasks[n], now) {
      ApplyAllConcat(db, AgeCmds(tasks[..n], now), [c]);
      ApplyOne(ApplyAll(db, AgeCmds(tasks[..n], now)), c);
    } else {
      assert AgeCmds(tasks[..n], now) + [] == AgeCmds(tasks[..n], now);
    }
  }

  ghost predicate NoneAges(tasks: seq<Task>, from: nat, j: Id, now: int) {
    forall m :: from <= m < |tasks| && tasks[m].id == j ==> Aged(tasks[m], now) == tasks[m]
  }

  // A job none of whose tasks is aged keeps its detail; otherwise it gets the last aged one.
  lemma {:induction false} AgingSaves(db: Db, tasks: seq<Task>, now: int, k: nat)
    requires k < |tasks| && Aged(tasks[k], now) != tasks[k] && NoneAges(tasks, k + 1, tasks[k].id, now)
    ensures Get(ApplyAll(db, AgeCmds(tasks, now)).detail, tasks[k].id) == Some(Aged(tasks[k], now))
    decreases |tasks|
  {
    var n := |tasks| - 1;
    LastIsAged(db, tasks, now);
    if k < n {
      assert NoneAges(tasks[..n], k + 1, tasks[k].id, now);
      AgingSaves(db, tasks[..n], now, k);
    }
  }

  lemma {:induction false} AgingSpares(db: Db, tasks: seq<Task>, now: int, j: Id)
    requires NoneAges(tasks, 0, j, now)
    ensures Get(ApplyAll(db, AgeCmds(tasks, now)).detail, j) == Get(db.detail, j)
    decreases |tasks|
  {
    if tasks != [] {
      LastIsAged(db, tasks, now);
      assert NoneAges(tasks[..|tasks| - 1], 0, j, now);
      AgingSpares(db, tasks[..|tasks| - 1], now, j);
    }
  }

  // Aging moves a task ahead of its peers of the same second and behind none.
  lemma AgingOnlyPromotes(t: Task, x: Task, now: int)
    ensures Less(t, x) ==> Less(Aged(t, now), x)
    ensures Less(x, Aged(t, now)) ==> Less(x, t)
    ensures Ages(t, now) && x.triggerTime == t.triggerTime && x.priority == PRIORITY_MEDIUM ==> Less(Aged(t, now), x)
  {
  }

  function AgeCmds(tasks: seq<Task>, now: int): seq<Cmd> {
    if tasks == [] then []
    else
      var t := tasks[|tasks| - 1];
      AgeCmds(tasks[..|tasks| - 1], now) + if Ages(t, now) then [HSetDetail(t.id, Aged(t, now))] else []
  }

  method ApplyAging(store: Store, tasks: array<Task>, now: int, net: Net)
    modifies store, tasks
    ensures forall k :: 0 <= k < tasks.Length ==> tasks[k] == Aged(old(tasks[k]), now)
    ensures store.Contents() == ApplyAll(old(store.Contents()), Prefix(AgeCmds(old(tasks[..]), now), net.reach))
  {
    ghost var before := tasks[..];
    var pipe := [];
    for k := 0 to tasks.Length
      invariant forall i :: 0 <= i < tasks.Length ==> tasks[i] == if i < k then Aged(before[i], now) else before[i]
      invariant pipe == AgeCmds(before[..k], now) && unchanged(store)
    {
      assert before[..k + 1][..k] == before[..k];
      if Ages(tasks[k], now) {
        tasks[k] := tasks[k].(priority := PRIORITY_HIGH);
        pipe := pipe + [HSetDetail(tasks[k].id, tasks[k])];
      }
    }
    assert before[..tasks.Length] == before;
    var _ := store.Exec(pipe, net);
  }

  // balanceTasks: TRIGGER each task and hand those that fired to the P's in turn.
  datatype Balance = Balance(db: Db, q0: multiset<Task>, q1: multiset<Task>)

  function BalanceOne(b: Balance, t: Task, n: nat, now: int, net: FireNet): Balance {
    var fires := Answered(net) && CasMatches(b.db, t.id, Pending);
    Balance(if Runs(net) then Cas(b.db, t, Pending, Ready, now) else b.db,
            if fires && n % 2 == 0 then b.q0 + multiset{t} else b.q0,
            if fires && n % 2 != 0 then b.q1 + multiset{t} else b.q1)
  }

  // The clock and the network as each round finds them.
  type Rounds = seq<(int, FireNet)>

  function BalanceAll(b: Balance, tasks: seq<Task>, rounds: Rounds): Balance
    requires |rounds| == |tasks|
  {
    if tasks == [] then b
    else
      var n := |tasks| - 1;
      BalanceOne(BalanceAll(b, tasks[..n], rounds[..n]), tasks[n], n, rounds[n].0, rounds[n].1)
  }

  lemma BalanceOneMore(b: Balance, tasks: seq<Task>, rounds: Rounds, k: nat)
    requires |rounds| == |tasks| && k < |tasks|
    ensures BalanceAll(b, tasks[..k + 1], rounds[..k + 1])
      == BalanceOne(BalanceAll(b, tasks[..k], rounds[..k]), tasks[k], k, rounds[k].0, rounds[k].1)
  {
    assert tasks[..k + 1][..k] == tasks[..k] && rounds[..k + 1][..k] == rounds[..k];
  }

  // A job of the batch is left PENDING exactly if Redis ran none of its CASes. So one listed twice is handed over
  // once at most: no second CAS finds it PENDING.
  lemma {:induction false} BalanceLeavesPendingIff(b: Balance, tasks: seq<Task>, rounds: Rounds, j: Id)
    requires |rounds| == |tasks|
    ensures CasMatches(BalanceAll(b, tasks, rounds).db, j, Pending) <==>
      CasMatches(b.db, j, Pending) && forall k :: 0 <= k < |tasks| && tasks[k].id == j ==> !Runs(rounds[k].1)
    decreases |tasks|
  {
    if tasks != [] {
      var n := |tasks| - 1;
      var before := BalanceAll(b, tasks[..n], rounds[..n]);
      BalanceLeavesPendingIff(b, tasks[..n], rounds[..n], j);
      RoundLeavesPendingIff(before, tasks[n], n, rounds[n].0, rounds[n].1, j);
      assert (forall k :: 0 <= k < |tasks| && tasks[k].id == j ==> !Runs(rounds[k].1)) <==>
        (forall k :: 0 <= k < n && tasks[..n][k].id == j ==> !Runs(rounds[..n][k].1))
        && (tasks[n].id == j ==> !Runs(rounds[n].1));
    }
  }

  lemma RoundLeavesPendingIff(b: Balance, t: Task, n: nat, now: int, net: FireNet, j: Id)
    ensures CasMatches(BalanceOne(b, t, n, now, net).db, j, Pending) <==>
      CasMatches(b.db, j, Pending) && (t.id == j ==> !Runs(net))
  {
    TriggerLeavesPending(b.db, t, now, j);
  }

  lemma TriggerLeavesPending(db: Db, t: Task, now: int, j: Id)
    ensures CasMatches(Cas(db, t, Pending, Ready, now), j, Pending) <==> CasMatches(db, j, Pending) && t.id != j
  {
  }

  // Round k finds its job PENDING as it was at the start: no earlier round of the job ran its CAS.
  ghost predicate FindsPending(db: Db, tasks: seq<Task>, rounds: Rounds, k: nat)
    requires |rounds| == |tasks| && k < |tasks|
  {
    && tasks[k].id in db.state && db.state[tasks[k].id].status == Pending
    && forall m :: 0 <= m < k && tasks[m].id == tasks[k].id ==> !Runs(rounds[m].1)
  }

  // Round k hands its task over: it finds the job PENDING and hears that its CAS ran.
  ghost predicate HandsOver(db: Db, tasks: seq<Task>, rounds: Rounds, k: nat)
    requires |rounds| == |tasks| && k < |tasks|
  {
    rounds[k].1.read && rounds[k].1.cas.reach >= 1 && rounds[k].1.cas.answered && FindsPending(db, tasks, rounds, k)
  }

  // How often task t is handed to the P of this parity.
  ghost function Handed(db: Db, tasks: seq<Task>, rounds: Rounds, parity: nat, t: Task): set<nat>
    requires |rounds| == |tasks|
  {
    set k: nat | k < |tasks| && k % 2 == parity && tasks[k] == t && HandsOver(db, tasks, rounds, k)
  }

  lemma HandsOverInFront(db: Db, tasks: seq<Task>, rounds: Rounds, n: nat, k: nat)
    requires |rounds| == |tasks| && k < n <= |tasks|
    ensures FindsPending(db, tasks, rounds, k) <==> FindsPending(db, tasks[..n], rounds[..n], k)
    ensures HandsOver(db, tasks, rounds, k) <==> HandsOver(db, tasks[..n], rounds[..n], k)
  {
    assert forall m: nat :: m <= k ==> tasks[..n][m] == tasks[m] && rounds[..n][m] == rounds[m];
  }

  lemma HandedOneMore(db: Db, tasks: seq<Task>, rounds: Rounds, parity: nat, t: Task)
    requires |rounds| == |tasks| > 0
    ensures var n := |tasks| - 1;
      |Handed(db, tasks, rounds, parity, t)| == |Handed(db, tasks[..n], rounds[..n], parity, t)|
        + if n % 2 == parity && tasks[n] == t && HandsOver(db, tasks, rounds, n) then 1 else 0
  {
    var n := |tasks| - 1;
    forall k: nat | k < n ensures HandsOver(db, tasks, rounds, k) <==> HandsOver(db, tasks[..n], rounds[..n], k) {
      HandsOverInFront(db, tasks, rounds, n, k);
    }
    var before := Handed(db, tasks[..n], rounds[..n], parity, t);
    assert Handed(db, tasks, rounds, parity, t)
        == before + if n % 2 == parity && tasks[n] == t && HandsOver(db, tasks, rounds, n) then {n} else {};
    assert n !in before;
  }

  // The tasks handed over, and no others, are in the queues, on the even rounds in that of P0 and on the odd ones in
  // that of P1.
  lemma {:induction false} BalanceHandsOver(b: Balance, tasks: seq<Task>, rounds: Rounds, t: Task)
    requires |rounds| == |tasks|
    ensures var r := BalanceAll(b, tasks, rounds);
      && r.q0[t] == b.q0[t] + |Handed(b.db, tasks, rounds, 0, t)|
      && r.q1[t] == b.q1[t] + |Handed(b.db, tasks, rounds, 1, t)|
    decreases |tasks|
  {
    if tasks != [] {
      var n := |tasks| - 1;
      BalanceHandsOver(b, tasks[..n], rounds[..n], t);
      BalanceLeavesPendingIff(b, tasks[..n], rounds[..n], tasks[n].id);
      HandedOneMore(b.db, tasks, rounds, 0, t);
      HandedOneMore(b.db, tasks, rounds, 1, t);
      LastFindsPending(b, tasks, rounds);
    } else {
      assert Handed(b.db, tasks, rounds, 0, t) == {} == Handed(b.db, tasks, rounds, 1, t);
    }
  }

  lemma LastFindsPending(b: Balance, tasks: seq<Task>, rounds: Rounds)
    requires |rounds| == |tasks| > 0
    ensures var n := |tasks| - 1;
      CasMatches(BalanceAll(b, tasks[..n], rounds[..n]).db, tasks[n].id, Pending) <==> FindsPending(b.db, tasks, rounds, n)
  {
    var n := |tasks| - 1;
    BalanceLeavesPendingIff(b, tasks[..n], rounds[..n], tasks[n].id);
    assert forall k :: 0 <= k < n ==> tasks[..n][k] == tasks[k] && rounds[..n][k] == rounds[k];
  }

  // The job is READY with this task and time.
  predicate Triggered(r: Db, t: Task, now: int) {
    FromTask(r, t, Ready, now) && t.id in r.active && r.active[t.id] == now
  }

  lemma RoundTriggers(b: Balance, t: Task, n: nat, now: int, net: FireNet)
    requires Runs(net) && CasMatches(b.db, t.id, Pending)
    ensures Triggered(BalanceOne(b, t, n, now, net).db, t, now)
  {
    CasRecords(b.db, t, Pending, Ready, now);
  }

  lemma RoundKeepsTriggered(b: Balance, t: Task, n: nat, now: int, net: FireNet, u: Task, at: int)
    requires Triggered(b.db, u, at)
    ensures Triggered(BalanceOne(b, t, n, now, net).db, u, at)
  {
  }

  // The job of a round that finds it PENDING and whose CAS runs is READY with the round's task and time.
  lemma {:induction false} BalanceTriggers(b: Balance, tasks: seq<Task>, rounds: Rounds, k: nat)
    requires |rounds| == |tasks| && k < |tasks| && FindsPending(b.db, tasks, rounds, k)
    requires rounds[k].1.read && rounds[k].1.cas.reach >= 1
    ensures Triggered(BalanceAll(b, tasks, rounds).db, tasks[k], rounds[k].0)
    decreases |tasks|
  {
    var n := |tasks| - 1;
    var before := BalanceAll(b, tasks[..n], rounds[..n]);
    if k < n {
      HandsOverInFront(b.db, tasks, rounds, n, k);
      BalanceTriggers(b, tasks[..n], rounds[..n], k);
      RoundKeepsTriggered(before, tasks[n], n, rounds[n].0, rounds[n].1, tasks[k], rounds[k].0);
    } else {
      LastFindsPending(b, tasks, rounds);
      RoundTriggers(before, tasks[n], n, rounds[n].0, rounds[n].1);
    }
  }

  // Without faults, and with each job PENDING and listed once, every task is handed over.
  lemma AllAreHandedOver(db: Db, tasks: seq<Task>, rounds: Rounds, k: nat)
    requires |rounds| == |tasks| && k < |tasks|
    requires forall i, m :: 0 <= i < m < |tasks| ==> tasks[i].id != tasks[m].id
    requires tasks[k].id in db.state && db.state[tasks[k].id].status == Pending && Answered(rounds[k].1)
    ensures HandsOver(db, tasks, rounds, k)
  {
  }

  // Two P's that share no memory.
  ghost predicate Separate(p: Processor.P, q: Processor.P)
    reads p.localQueue, q.localQueue, p.localQueue.data, q.localQueue.data
  {
    && p.Ready() && q.Ready()
    && p != q && p.localQueue != q.localQueue && p.localQueue.data != q.localQueue.data
  }

  method BalanceTasks(store: Store, tasks: seq<Task>, rounds: Rounds, p0: Processor.P, p1: Processor.P)
    requires |rounds| == |tasks| && Separate(p0, p1)
    modifies store, p0`wakeCh, p1`wakeCh, p0.localQueue, p0.localQueue.data, p1.localQueue, p1.localQueue.data
    ensures Separate(p0, p1)
    ensures Balance(store.Contents(), p0.Queue(), p1.Queue())
      == BalanceAll(old(Balance(store.Contents(), p0.Queue(), p1.Queue())), tasks, rounds)
    ensures forall t :: p0.Queue()[t] == old(p0.Queue())[t] + |Handed(old(store.Contents()), tasks, rounds, 0, t)|
    ensures forall t :: p1.Queue()[t] == old(p1.Queue())[t] + |Handed(old(store.Contents()), tasks, rounds, 1, t)|
  {
    ghost var start := Balance(store.Contents(), p0.Queue(), p1.Queue());
    for k := 0 to |tasks|
      invariant Separate(p0, p1)
      invariant p0.localQueue.data == old(p0.localQueue.data) || fresh(p0.localQueue.data)
      invariant p1.localQueue.data == old(p1.localQueue.data) || fresh(p1.localQueue.data)
      invariant Balance(store.Contents(), p0.Queue(), p1.Queue()) == BalanceAll(start, tasks[..k], rounds[..k])
    {
      BalanceOneMore(start, tasks, rounds, k);
      BalanceRound(store, tasks[k], k, rounds[k].0, rounds[k].1, p0, p1);
    }
    assert tasks[..|tasks|] == tasks && rounds[..|tasks|] == rounds;
    forall t
      ensures p0.Queue()[t] == start.q0[t] + |Handed(start.db, tasks, rounds, 0, t)|
      ensures p1.Queue()[t] == start.q1[t] + |Handed(start.db, tasks, rounds, 1, t)|
    {
      BalanceHandsOver(start, tasks, rounds, t);
    }
  }

  // One round of balanceTasks' loop.
  method BalanceRound(store: Store, task: Task, n: nat, now: int, net: FireNet, p0: Processor.P, p1: Processor.P)
    requires Separate(p0, p1)
    modifies store, p0`wakeCh, p1`wakeCh, p0.localQueue, p0.localQueue.data, p1.localQueue, p1.localQueue.data
    ensures Separate(p0, p1)
    ensures p0.localQueue.data == old(p0.localQueue.data) || fresh(p0.localQueue.data)
    ensures p1.localQueue.data == old(p1.localQueue.data) || fresh(p1.localQueue.data)
    ensures Balance(store.Contents(), p0.Queue(), p1.Queue())
      == BalanceOne(old(Balance(store.Contents(), p0.Queue(), p1.Queue())), task, n, now, net)
  {
    var r := Fire(store, Trigger, task, now, net);
    TriggerAndDispatchSources(StatusOf(old(store.Contents()), task.id));
    if r.Fired? {
      if n % 2 == 0 {
        p0.Push(task);
      } else {
        p1.Push(task);
      }
    }
  }

  // ---- executeTask ----

  // The task pushed back after a failed publish.
  function Again(task: Task, nowNs: int, jitter: nat): Task
    requires jitter < 500
  {
    var retry := task.retryCount + 1;
    task.(retryCount := retry, triggerTime := Backoff.RetryAt(nowNs, retry, jitter))
  }

  // One attempt more, due at the end of the delay; nothing else about the task changes.
  lemma AgainMeans(t: Task, nowNs: int, jitter: nat)
    requires jitter < 500
    ensures var again := Again(t, nowNs, jitter);
      && again.retryCount == t.retryCount + 1
      && again.triggerTime == Backoff.RetryAt(nowNs, t.retryCount + 1, jitter)
      && again == t.(retryCount := again.retryCount, triggerTime := again.triggerTime)
  {
  }

  datatype Executed = Skipped | Published(command: TaskCommand) | PushedBack

  // A DISPATCH whose answer is lost leaves the job DISPATCHED and unpublished.
  method ExecuteTask(store: Store, p: Processor.P, task: Task, now: int, fire: FireNet, publishOk: bool,
                     nowNs: int, jitter: nat, net: Net) returns (r: Executed)
    requires p.Ready() && jitter < 500
    modifies store, p`wakeCh, p.localQueue, p.localQueue.data
    ensures p.Ready()
    ensures r.Skipped? <==> !Answered(fire) || !CasMatches(old(store.Contents()), task.id, Ready)
    ensures r.Skipped? ==> p.Queue() == old(p.Queue())
    ensures !r.Published? ==>
      store.Contents() == if Runs(fire) then Cas(old(store.Contents()), task, Ready, Dispatched, now)
                          else old(store.Contents())
    ensures r.Published? ==> publishOk && r.command == CommandOf(task) && p.Queue() == old(p.Queue())
    ensures r.Published? ==>
      store.Contents() == ApplyAll(Cas(old(store.Contents()), task, Ready, Dispatched, now),
                                   Prefix([ZRemPending(task.id)], net.reach))
    ensures r.PushedBack? ==> !publishOk && p.wakeCh
    ensures r.PushedBack? ==> p.Queue() == old(p.Queue()) + multiset{Again(task, nowNs, jitter)}
  {
    var fired := Fire(store, Dispatch, task, now, fire);
    TriggerAndDispatchSources(StatusOf(old(store.Contents()), task.id));
    if !fired.Fired? {
      return Skipped;
    }
    if !publishOk {
      p.Push(Again(task, nowNs, jitter));
      return PushedBack;
    }
    var _ := store.Exec([ZRemPending(task.id)], net);
    return Published(CommandOf(task));
  }

  // ---- recoverPendingTasks and recoverStalePendingLoop ----

  function ReturnAllCmds(ids: seq<Id>, now: int): seq<Cmd> {
    if ids == [] then [] else ReturnAllCmds(ids[..|ids| - 1], now) + ReturnCmds(ids[|ids| - 1], now)
  }

  // One pipeline puts the members found back into global, due now. Both loops do this; they differ in the
  // range of their scan: up to now at takeover, up to two minutes ago later.
  method ReturnPending(store: Store, ids: seq<Id>, now: int, net: Net) returns (ok: bool)
    modifies store
    ensures store.Contents() == ApplyAll(old(store.Contents()), Prefix(ReturnAllCmds(ids, now), net.reach))
    ensures ok <==> ids == [] || (net.reach >= |ReturnAllCmds(ids, now)| && net.answered)
  {
    if |ids| == 0 {
      return true;
    }
    var pipe := [];
    for k := 0 to |ids|
      invariant pipe == ReturnAllCmds(ids[..k], now)
    {
      assert ids[..k + 1][..k] == ids[..k];
      pipe := pipe + ReturnCmds(ids[k], now);
    }
    assert ids[..|ids|] == ids;
    ok := store.Exec(pipe, net);
  }
}
