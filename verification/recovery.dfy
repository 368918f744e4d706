/** What a takeover leaves behind: recoverPendingTasks, then RecoverStaleTasks (scheduler.go:125-134). */
module Recovery {
  import opened Model
  import opened Redis
  import opened Fsm
  import opened Scheduler

  // The job is in one of the two queues.
  predicate InQueue(db: Db, j: Id) { j in db.global || j in db.pending }

  // ---- No queue entry is lost, whatever fails ----

  lemma CommandKeepsQueues(db: Db, c: Cmd, j: Id)
    requires InQueue(db, j) && !c.ZRemPending?
    ensures InQueue(Apply(db, c), j)
  {
  }

  lemma {:induction false} CommandsKeepQueues(db: Db, cs: seq<Cmd>, j: Id)
    requires InQueue(db, j) && forall c :: c in cs ==> !c.ZRemPending?
    ensures InQueue(ApplyAll(db, cs), j)
    decreases |cs|
  {
    if cs != [] {
      assert cs[0] in cs;
      CommandKeepsQueues(db, cs[0], j);
      CommandsKeepQueues(Apply(db, cs[0]), cs[1..], j);
    }
  }

  lemma RequeuedKeepsQueues(db: Db, j: Id, task: Task, net: JobNet, k: Id)
    requires InQueue(db, k)
    ensures InQueue(Requeued(db, j, task, net).0, k)
  {
    var add, save := Prefix([ZAddGlobal(j, task.triggerTime)], net.add.reach),
                     Prefix(SaveStateCmds(task, Pending, net.saveAt), net.save.reach);
    CommandsKeepQueues(db, add, k);
    CommandsKeepQueues(ApplyAll(db, add), save, k);
  }

  lemma {:induction false} RecoverKeepsQueues(db: Db, ids: seq<Id>, now: int, nets: seq<JobNet>, k: Id)
    requires |nets| == |ids| && InQueue(db, k)
    ensures InQueue(RecoverAll(db, ids, now, nets).0, k)
    decreases |ids|
  {
    if ids != [] {
      var n := |ids| - 1;
      RecoverKeepsQueues(db, ids[..n], now, nets[..n], k);
      var before := RecoverAll(db, ids[..n], now, nets[..n]).0;
      RequeuedKeepsQueues(before, ids[n], RecoveredTask(before, ids[n], now, nets[n].detail), nets[n], k);
    }
  }

  lemma {:induction false} MonitorKeepsQueues(db: Db, ids: seq<Id>, now: int, nets: seq<JobNet>, k: Id)
    requires |nets| == |ids| && InQueue(db, k)
    ensures InQueue(MonitorAll(db, ids, now, nets).0, k)
    decreases |ids|
  {
    if ids != [] {
      var n := |ids| - 1;
      MonitorKeepsQueues(db, ids[..n], now, nets[..n], k);
      var before := MonitorAll(db, ids[..n], now, nets[..n]).0;
      RequeuedKeepsQueues(before, ids[n], MonitoredTask(before, ids[n], now, nets[n].detail), nets[n], k);
    }
  }

  // The pending pipeline adds to global before it removes, so it may stop anywhere.
  lemma {:induction false} ReturnKeepsQueues(db: Db, ids: seq<Id>, now: int, reach: nat, k: Id)
    requires InQueue(db, k)
    ensures InQueue(ApplyAll(db, Prefix(ReturnAllCmds(ids, now), reach)), k)
    decreases |ids|
  {
    if ids != [] {
      var n := |ids| - 1;
      var front, last := ReturnAllCmds(ids[..n], now), ReturnCmds(ids[n], now);
      ReturnKeepsQueues(db, ids[..n], now, reach, k);
      if reach > |front| {
        var tail := Prefix(last, reach - |front|);
        assert Prefix(front + last, reach) == front + tail;
        assert Prefix(front, reach) == front;
        ApplyAllConcat(db, front, tail);
        ReturnOneKeepsQueues(ApplyAll(db, front), ids[n], now, reach - |front|, k);
      } else {
        assert Prefix(front + last, reach) == Prefix(front, reach);
      }
    }
  }

  lemma ReturnOneKeepsQueues(db: Db, j: Id, now: int, reach: nat, k: Id)
    requires InQueue(db, k)
    ensures InQueue(ApplyAll(db, Prefix(ReturnCmds(j, now), reach)), k)
  {
    var cs := ReturnCmds(j, now);
    var added := Apply(db, cs[0]);
    assert cs[1..] == [cs[1]] && cs[..1] == [cs[0]] && [cs[0]][1..] == [] && cs[..0] == [];
    assert ApplyAll(db, cs[..1]) == added;
    assert ApplyAll(added, [cs[1]]) == Apply(added, cs[1]);
  }

  // ---- Without failures, takeover recovery is complete ----

  predicate NoFault(net: JobNet) {
    net.read && net.detail && net.add.reach >= 1 && net.add.answered && net.save.reach >= 2
  }

  predicate Requeueable(db: Db, j: Id) {
    j in db.global && j in db.state && db.state[j].status == Pending
  }

  // What requeuing does to the keys of its job and of others.
  lemma RequeuedEffect(db: Db, j: Id, t: Task, net: JobNet)
    requires NoFault(net) && t.id == j
    ensures var r := Requeued(db, j, t, net).0;
      && r.detail == db.detail
      && (forall k :: k != j ==> ViewOf(r, k) == ViewOf(db, k))
      && ViewOf(r, j) == View(Some(t.triggerTime), Get(db.pending, j), Some(net.saveAt), Get(db.terminal, j),
                              Some(RecordOf(t, Pending, net.saveAt)))
  {
    var save := SaveStateCmds(t, Pending, net.saveAt);
    var d1 := Apply(db, ZAddGlobal(j, t.triggerTime));
    var d2 := Apply(d1, save[0]);
    var d3 := Apply(d2, save[1]);
    assert [ZAddGlobal(j, t.triggerTime)][1..] == [];
    assert ApplyAll(db, [ZAddGlobal(j, t.triggerTime)]) == d1;
    assert save == [save[0], save[1]] && save[1..] == [save[1]] && [save[1]][1..] == [];
    assert ApplyAll(d2, [save[1]]) == d3;
    assert ApplyAll(d1, save) == d3;
  }

  // Records, indexes and detail decide what recovery does with a job.
  lemma SameViewSameJob(a: Db, b: Db, j: Id, now: int)
    requires ViewOf(a, j) == ViewOf(b, j) && a.detail == b.detail
    ensures InFlight(a, j) <==> InFlight(b, j)
    ensures Fresh(a, j, now) <==> Fresh(b, j, now)
    ensures Requeueable(a, j) <==> Requeueable(b, j)
    ensures MonitoredTask(a, j, now, true) == MonitoredTask(b, j, now, true)
    ensures Get(a.global, j) == Get(b.global, j)
  {
    assert Get(a.state, j) == Get(b.state, j) && Get(a.global, j) == Get(b.global, j);
  }

  lemma RecoverOneEffect(db: Db, i: Id, now: int, net: JobNet, j: Id)
    requires NoFault(net) && WellKeyed(db)
    ensures var r := RecoverOne(db, i, now, net).0;
      && r.detail == db.detail
      && (j != i || Fresh(db, j, now) ==> ViewOf(r, j) == ViewOf(db, j))
      && (j == i && !Fresh(db, j, now) ==> Requeueable(r, j))
  {
    RequeuedEffect(db, i, RecoveredTask(db, i, now, true), net);
    assert !Fresh(db, i, now) ==> Get(RecoverOne(db, i, now, net).0.state, i).Some?;
    assert !Fresh(db, i, now) ==> Get(RecoverOne(db, i, now, net).0.global, i).Some?;
  }

  // A recovery changes exactly the scanned jobs that are not fresh when their turn comes, and makes them PENDING.
  lemma {:induction false} RecoverAllEffect(db: Db, ids: seq<Id>, now: int, nets: seq<JobNet>, j: Id)
    requires |nets| == |ids| && WellKeyed(db) && forall n :: n in nets ==> NoFault(n)
    ensures var r := RecoverAll(db, ids, now, nets).0;
      && r.detail == db.detail
      && (j !in ids || Fresh(db, j, now) ==> ViewOf(r, j) == ViewOf(db, j))
      && (j in ids && !Fresh(db, j, now) ==> Requeueable(r, j))
    decreases |ids|
  {
    if ids != [] {
      var n := |ids| - 1;
      RecoverAllEffect(db, ids[..n], now, nets[..n], j);
      var before := RecoverAll(db, ids[..n], now, nets[..n]).0;
      var r := RecoverOne(before, ids[n], now, nets[n]).0;
      RecoverOneEffect(before, ids[n], now, nets[n], j);
      assert j in ids <==> j in ids[..n] || j == ids[n];
      if j !in ids[..n] || Fresh(db, j, now) {
        SameViewSameJob(before, db, j, now);
      } else if Fresh(before, j, now) || j != ids[n] {
        SameViewSameJob(r, before, j, now);
      }
    }
  }

  // So a job that ended between the scan and its turn is run again: it stays ended if and only if the scan
  // did not list it.
  lemma EndedStaysEndedIff(db: Db, ids: seq<Id>, now: int, nets: seq<JobNet>, j: Id)
    requires |nets| == |ids| && WellKeyed(db) && forall n :: n in nets ==> NoFault(n)
    requires j in db.state && Terminal(db.state[j].status)
    ensures var r := RecoverAll(db, ids, now, nets).0;
      && (j in r.state && Terminal(r.state[j].status) <==> j !in ids)
      && (j in ids ==> Requeueable(r, j))
  {
    RecoverAllEffect(db, ids, now, nets, j);
    assert Get(db.state, j) == ViewOf(db, j).state;
  }

  // j is PENDING and due at the time the monitor gives it.
  predicate Monitored(r: Db, j: Id, due: int) { Requeueable(r, j) && r.global[j] == due }

  lemma MonitorOneEffect(db: Db, i: Id, now: int, net: JobNet, j: Id)
    requires NoFault(net) && WellKeyed(db)
    ensures var r := MonitorOne(db, i, now, net).0;
      && r.detail == db.detail
      && (j != i || !InFlight(db, j) ==> ViewOf(r, j) == ViewOf(db, j))
      && (j == i && InFlight(db, j) ==> Monitored(r, j, MonitoredTask(db, j, now, true).triggerTime))
  {
    RequeuedEffect(db, i, MonitoredTask(db, i, now, true), net);
    var r := MonitorOne(db, i, now, net).0;
    assert InFlight(db, i) ==> Get(r.state, i).Some? && Get(r.global, i).Some?;
  }

  // The monitor makes exactly the in-flight jobs of its scan PENDING, due no earlier than now.
  lemma {:induction false} MonitorAllEffect(db: Db, ids: seq<Id>, now: int, nets: seq<JobNet>, j: Id)
    requires |nets| == |ids| && WellKeyed(db) && forall n :: n in nets ==> NoFault(n)
    ensures var r, due := MonitorAll(db, ids, now, nets).0, MonitoredTask(db, j, now, true).triggerTime;
      && r.detail == db.detail && due >= now
      && (j !in ids || !InFlight(db, j) ==> ViewOf(r, j) == ViewOf(db, j))
      && (j in ids && InFlight(db, j) ==> Monitored(r, j, due))
    decreases |ids|
  {
    if ids != [] {
      var n := |ids| - 1;
      MonitorAllEffect(db, ids[..n], now, nets[..n], j);
      var before := MonitorAll(db, ids[..n], now, nets[..n]).0;
      var r := MonitorOne(before, ids[n], now, nets[n]).0;
      MonitorOneEffect(before, ids[n], now, nets[n], j);
      assert j in ids <==> j in ids[..n] || j == ids[n];
      if j !in ids[..n] || !InFlight(db, j) {
        SameViewSameJob(before, db, j, now);
      } else {
        assert !InFlight(before, j);
        SameViewSameJob(r, before, j, now);
      }
    }
  }

  // ---- The time and the fields that recovery restores ----

  // The recorded trigger time, as it reads: 0 when nothing is recorded.
  function WasDue(db: Db, j: Id): int { if j in db.state then db.state[j].triggerTime else 0 }

  // Job j is queued for this time, and its record says so: PENDING since it was saved, with the fields of the saved
  // detail, or of the old record and the default budget when the detail is lost.
  predicate Restored(db: Db, r: Db, j: Id, due: int, savedAt: int) {
    && j in r.global && r.global[j] == due && j in r.active && r.active[j] == savedAt
    && Get(r.pending, j) == Get(db.pending, j) && Get(r.terminal, j) == Get(db.terminal, j)
    && j in r.state
    && var rec := r.state[j];
    && rec.status == Pending && rec.updatedAt == savedAt && rec.triggerTime == due
    && if j in db.detail then
         var t := db.detail[j];
         && rec.name == t.name && rec.callbackURL == t.callbackURL
         && rec.retryCount == t.retryCount && rec.maxRetry == t.maxRetry
       else
         && rec.name == (if j in db.state then db.state[j].name else "")
         && rec.callbackURL == (if j in db.state then db.state[j].callbackURL else "")
         && rec.retryCount == 0 && rec.maxRetry == 3
  }

  lemma SameViewRestored(db: Db, a: Db, b: Db, j: Id, due: int, savedAt: int)
    requires ViewOf(a, j) == ViewOf(b, j) && Restored(db, a, j, due, savedAt)
    ensures Restored(db, b, j, due, savedAt)
  {
    assert Get(a.state, j) == Get(b.state, j) && Get(a.global, j) == Get(b.global, j);
    assert Get(a.active, j) == Get(b.active, j);
  }

  lemma SameViewRestores(a: Db, b: Db, r: Db, j: Id, due: int, savedAt: int)
    requires ViewOf(a, j) == ViewOf(b, j) && a.detail == b.detail && Restored(a, r, j, due, savedAt)
    ensures Restored(b, r, j, due, savedAt) && WasDue(a, j) == WasDue(b, j)
  {
    assert Get(a.state, j) == Get(b.state, j);
  }

  // A time that has passed becomes now; one that has not is kept.
  function RecoveredDue(db: Db, j: Id, now: int): int {
    if WasDue(db, j) < now then now else if j in db.detail then db.detail[j].triggerTime else WasDue(db, j)
  }

  function MonitoredDue(db: Db, j: Id, now: int): int {
    var found := if j in db.detail then db.detail[j].triggerTime else WasDue(db, j);
    if found < now then now else found
  }

  lemma RecoverOneRestores(db: Db, j: Id, now: int, net: JobNet)
    requires NoFault(net) && WellKeyed(db) && !Fresh(db, j, now)
    ensures Restored(db, RecoverOne(db, j, now, net).0, j, RecoveredDue(db, j, now), net.saveAt)
  {
    RequeuedEffect(db, j, RecoveredTask(db, j, now, true), net);
    var v := ViewOf(RecoverOne(db, j, now, net).0, j);
    assert v.state.Some? && v.global.Some? && v.active.Some?;
  }

  lemma MonitorOneRestores(db: Db, j: Id, now: int, net: JobNet)
    requires NoFault(net) && WellKeyed(db) && InFlight(db, j)
    ensures Restored(db, MonitorOne(db, j, now, net).0, j, MonitoredDue(db, j, now), net.saveAt)
  {
    RequeuedEffect(db, j, MonitoredTask(db, j, now, true), net);
    var v := ViewOf(MonitorOne(db, j, now, net).0, j);
    assert v.state.Some? && v.global.Some? && v.active.Some?;
  }

  ghost predicate Distinct(ids: seq<Id>) { forall i, k :: 0 <= i < k < |ids| ==> ids[i] != ids[k] }

  // In flight and changed less than two minutes ago.
  predicate Young(db: Db, j: Id, now: int) {
    && j in db.state && (db.state[j].status == Dispatched || db.state[j].status == Running)
    && db.state[j].updatedAt > now - 120
  }

  // Through every fault: a round counts when it read a job to recover and knows it queued; it writes nothing for
  // any other job it read, and no status before it knows of the queue.
  lemma RecoverRoundMeans(db: Db, j: Id, now: int, net: JobNet)
    ensures var (r, done) := RecoverOne(db, j, now, net);
      && (done <==> net.read && !Young(db, j, now) && net.add.reach >= 1 && net.add.answered)
      && (!net.read || Young(db, j, now) ==> r == db)
      && (!done ==> r == db.(global := r.global))
  {
    QueuingWritesGlobal(db, j, RecoveredTask(db, j, now, net.detail).triggerTime, net.add.reach);
  }

  lemma MonitorRoundMeans(db: Db, j: Id, now: int, net: JobNet)
    ensures var (r, done) := MonitorOne(db, j, now, net);
      && (done <==> net.read && Moving(db, j) && net.add.reach >= 1 && net.add.answered)
      && (!net.read || !Moving(db, j) ==> r == db)
      && (!done ==> r == db.(global := r.global))
  {
    QueuingWritesGlobal(db, j, MonitoredTask(db, j, now, net.detail).triggerTime, net.add.reach);
  }

  lemma QueuingWritesGlobal(db: Db, j: Id, score: int, reach: nat)
    ensures var r := ApplyAll(db, Prefix([ZAddGlobal(j, score)], reach)); r == db.(global := r.global)
  {
    if reach >= 1 {
      ApplyOne(db, ZAddGlobal(j, score));
    }
  }

  // A detail that cannot be read counts as lost.
  lemma UnreadDetailIsLost(db: Db, j: Id, now: int, net: JobNet)
    requires NoFault(net)
    ensures var lost := db.(detail := db.detail - {j});
      && ViewOf(RecoverOne(db, j, now, net.(detail := false)).0, j) == ViewOf(RecoverOne(lost, j, now, net).0, j)
      && ViewOf(MonitorOne(db, j, now, net.(detail := false)).0, j) == ViewOf(MonitorOne(lost, j, now, net).0, j)
  {
    var lost := db.(detail := db.detail - {j});
    assert RecoveredTask(db, j, now, false) == RecoveredTask(lost, j, now, true);
    assert MonitoredTask(db, j, now, false) == MonitoredTask(lost, j, now, true);
    RequeuedKeepsView(db, lost, j, RecoveredTask(lost, j, now, true), net);
    RequeuedKeepsView(db, lost, j, MonitoredTask(lost, j, now, true), net);
  }

  lemma RequeuedKeepsView(a: Db, b: Db, j: Id, t: Task, net: JobNet)
    requires NoFault(net) && t.id == j && ViewOf(a, j) == ViewOf(b, j)
    ensures ViewOf(Requeued(a, j, t, net).0, j) == ViewOf(Requeued(b, j, t, net).0, j)
    ensures Requeued(a, j, t, net.(detail := false)) == Requeued(a, j, t, net)
  {
    RequeuedEffect(a, j, t, net);
    RequeuedEffect(b, j, t, net);
    assert Get(a.pending, j) == ViewOf(a, j).pending == Get(b.pending, j);
    assert Get(a.terminal, j) == ViewOf(a, j).terminal == Get(b.terminal, j);
  }

  // Without faults a takeover queues every scanned job that is not young for its recorded time, or for now if that
  // has passed.
  lemma {:induction false} RecoverRestores(db: Db, ids: seq<Id>, now: int, nets: seq<JobNet>, k: nat)
    requires |nets| == |ids| && WellKeyed(db) && (forall n :: n in nets ==> NoFault(n)) && Distinct(ids)
    requires k < |ids| && !Young(db, ids[k], now)
    ensures var j := ids[k];
      Restored(db, RecoverAll(db, ids, now, nets).0, j,
               if WasDue(db, j) < now then now else if j in db.detail then db.detail[j].triggerTime else WasDue(db, j),
               nets[k].saveAt)
    decreases |ids|
  {
    var j, n := ids[k], |ids| - 1;
    var before := RecoverAll(db, ids[..n], now, nets[..n]).0;
    var r := RecoverOne(before, ids[n], now, nets[n]).0;
    RecoverAllEffect(db, ids[..n], now, nets[..n], j);
    RecoverOneEffect(before, ids[n], now, nets[n], j);
    if k < n {
      RecoverRestores(db, ids[..n], now, nets[..n], k);
      SameViewRestored(db, before, r, j, RecoveredDue(db, j, now), nets[k].saveAt);
    } else {
      SameViewSameJob(before, db, j, now);
      RecoverOneRestores(before, j, now, nets[n]);
      SameViewRestores(before, db, r, j, RecoveredDue(before, j, now), nets[n].saveAt);
    }
  }

  // The monitor queues every in-flight job of its scan for the time of its detail, or for now if that has passed.
  lemma {:induction false} MonitorRestores(db: Db, ids: seq<Id>, now: int, nets: seq<JobNet>, k: nat)
    requires |nets| == |ids| && WellKeyed(db) && (forall n :: n in nets ==> NoFault(n)) && Distinct(ids)
    requires k < |ids| && ids[k] in db.state
    requires db.state[ids[k]].status == Dispatched || db.state[ids[k]].status == Running
    ensures var j := ids[k];
      var found := if j in db.detail then db.detail[j].triggerTime else db.state[j].triggerTime;
      Restored(db, MonitorAll(db, ids, now, nets).0, j, if found < now then now else found, nets[k].saveAt)
    decreases |ids|
  {
    var j, n := ids[k], |ids| - 1;
    var before := MonitorAll(db, ids[..n], now, nets[..n]).0;
    var r := MonitorOne(before, ids[n], now, nets[n]).0;
    MonitorAllEffect(db, ids[..n], now, nets[..n], j);
    MonitorOneEffect(before, ids[n], now, nets[n], j);
    if k < n {
      MonitorRestores(db, ids[..n], now, nets[..n], k);
      SameViewRestored(db, before, r, j, MonitoredDue(db, j, now), nets[k].saveAt);
    } else {
      SameViewSameJob(before, db, j, now);
      MonitorOneRestores(before, j, now, nets[n]);
      SameViewRestores(before, db, r, j, MonitoredDue(before, j, now), nets[n].saveAt);
    }
  }

  function Settled(db: Db, ids: seq<Id>, now: int): set<nat> { set k: nat | k < |ids| && !Young(db, ids[k], now) }

  lemma SettledOneMore(db: Db, ids: seq<Id>, now: int)
    requires ids != []
    ensures var n := |ids| - 1;
      |Settled(db, ids, now)| == |Settled(db, ids[..n], now)| + if Young(db, ids[n], now) then 0 else 1
  {
    var n := |ids| - 1;
    assert Settled(db, ids, now) == Settled(db, ids[..n], now) + if Young(db, ids[n], now) then {} else {n};
  }

  // The count a recovery reports is that of the scanned jobs that are not young.
  lemma {:induction false} RecoverCounts(db: Db, ids: seq<Id>, now: int, nets: seq<JobNet>)
    requires |nets| == |ids| && WellKeyed(db) && forall n :: n in nets ==> NoFault(n)
    ensures RecoverAll(db, ids, now, nets).1 == |Settled(db, ids, now)|
    decreases |ids|
  {
    if ids != [] {
      var n := |ids| - 1;
      RecoverCounts(db, ids[..n], now, nets[..n]);
      LastIsCounted(db, ids, now, nets);
      SettledOneMore(db, ids, now);
    }
  }

  lemma LastIsCounted(db: Db, ids: seq<Id>, now: int, nets: seq<JobNet>)
    requires |nets| == |ids| > 0 && WellKeyed(db) && forall n :: n in nets ==> NoFault(n)
    ensures var n := |ids| - 1;
      RecoverAll(db, ids, now, nets).1
        == RecoverAll(db, ids[..n], now, nets[..n]).1 + if Young(db, ids[n], now) then 0 else 1
  {
    var n := |ids| - 1;
    var before := RecoverAll(db, ids[..n], now, nets[..n]).0;
    RecoverAllEffect(db, ids[..n], now, nets[..n], ids[n]);
    if ids[n] !in ids[..n] || Fresh(db, ids[n], now) {
      SameViewSameJob(before, db, ids[n], now);
    }
    assert nets[n] in nets;
    assert RecoverOne(before, ids[n], now, nets[n]).1 <==> !Young(db, ids[n], now);
  }

  predicate Moving(db: Db, j: Id) {
    j in db.state && (db.state[j].status == Dispatched || db.state[j].status == Running)
  }

  function MovingOnes(db: Db, ids: seq<Id>): set<nat> { set k: nat | k < |ids| && Moving(db, ids[k]) }

  lemma MovingOneMore(db: Db, ids: seq<Id>)
    requires ids != []
    ensures var n := |ids| - 1;
      |MovingOnes(db, ids)| == |MovingOnes(db, ids[..n])| + if Moving(db, ids[n]) then 1 else 0
  {
    var n := |ids| - 1;
    assert MovingOnes(db, ids) == MovingOnes(db, ids[..n]) + if Moving(db, ids[n]) then {n} else {};
  }

  // And that of the monitor, of the jobs in flight.
  lemma {:induction false} MonitorCounts(db: Db, ids: seq<Id>, now: int, nets: seq<JobNet>)
    requires |nets| == |ids| && WellKeyed(db) && (forall n :: n in nets ==> NoFault(n)) && Distinct(ids)
    ensures MonitorAll(db, ids, now, nets).1 == |MovingOnes(db, ids)|
    decreases |ids|
  {
    if ids != [] {
      var n := |ids| - 1;
      MonitorCounts(db, ids[..n], now, nets[..n]);
      LastIsMonitored(db, ids, now, nets);
      MovingOneMore(db, ids);
    }
  }

  lemma LastIsMonitored(db: Db, ids: seq<Id>, now: int, nets: seq<JobNet>)
    requires |nets| == |ids| > 0 && WellKeyed(db) && (forall n :: n in nets ==> NoFault(n)) && Distinct(ids)
    ensures var n := |ids| - 1;
      MonitorAll(db, ids, now, nets).1 == MonitorAll(db, ids[..n], now, nets[..n]).1 + if Moving(db, ids[n]) then 1 else 0
  {
    var n := |ids| - 1;
    var before := MonitorAll(db, ids[..n], now, nets[..n]).0;
    MonitorAllEffect(db, ids[..n], now, nets[..n], ids[n]);
    SameViewSameJob(before, db, ids[n], now);
    assert nets[n] in nets;
    assert MonitorOne(before, ids[n], now, nets[n]).1 <==> Moving(db, ids[n]);
  }

  // Without faults the pending pipeline puts every member it found back into global, due now, and takes it off
  // pending; it touches nothing else.
  lemma {:induction false} ReturnRestores(db: Db, ids: seq<Id>, now: int, j: Id)
    ensures var r := ApplyAll(db, ReturnAllCmds(ids, now));
      && Get(r.global, j) == (if j in ids then Some(now) else Get(db.global, j))
      && Get(r.pending, j) == (if j in ids then None else Get(db.pending, j))
      && r.active == db.active && r.terminal == db.terminal && r.state == db.state && r.detail == db.detail
    decreases |ids|
  {
    if ids != [] {
      var n := |ids| - 1;
      var before := ApplyAll(db, ReturnAllCmds(ids[..n], now));
      var cs := ReturnCmds(ids[n], now);
      ReturnRestores(db, ids[..n], now, j);
      ApplyAllConcat(db, ReturnAllCmds(ids[..n], now), cs);
      assert cs == [cs[0], cs[1]];
      ApplyTwo(before, cs[0], cs[1]);
      assert j in ids <==> j in ids[..n] || j == ids[n];
    }
  }

  // The keys after both parts of a takeover, as the two methods leave them.
  function AfterTakeover(db: Db, pendingIds: seq<Id>, now0: int, net: Net,
                         activeIds: seq<Id>, now: int, nets: seq<JobNet>): Db
    requires |nets| == |activeIds|
  {
    RecoverAll(ApplyAll(db, Prefix(ReturnAllCmds(pendingIds, now0), net.reach)), activeIds, now, nets).0
  }

  // Whatever fails on the way, no job leaves the queues.
  lemma TakeoverKeepsQueues(db: Db, pendingIds: seq<Id>, now0: int, net: Net,
                            activeIds: seq<Id>, now: int, nets: seq<JobNet>, k: Id)
    requires |nets| == |activeIds| && InQueue(db, k)
    ensures InQueue(AfterTakeover(db, pendingIds, now0, net, activeIds, now, nets), k)
  {
    ReturnKeepsQueues(db, pendingIds, now0, net.reach, k);
    RecoverKeepsQueues(ApplyAll(db, Prefix(ReturnAllCmds(pendingIds, now0), net.reach)), activeIds, now, nets, k);
  }

  predicate SameButQueues(a: Db, b: Db) {
    a.active == b.active && a.terminal == b.terminal && a.state == b.state && a.detail == b.detail
  }

  lemma QueueCommandTouchesQueuesOnly(db: Db, c: Cmd)
    requires c.ZAddGlobal? || c.ZRemPending?
    ensures SameButQueues(Apply(db, c), db)
  {
  }

  lemma {:induction false} ReturnTouchesQueuesOnly(db: Db, cs: seq<Cmd>)
    requires forall c :: c in cs ==> c.ZAddGlobal? || c.ZRemPending?
    ensures SameButQueues(ApplyAll(db, cs), db)
    decreases |cs|
  {
    if cs != [] {
      assert cs[0] in cs;
      QueueCommandTouchesQueuesOnly(db, cs[0]);
      ReturnTouchesQueuesOnly(Apply(db, cs[0]), cs[1..]);
    }
  }

  lemma {:induction false} ReturnAllHasQueueCommands(ids: seq<Id>, now: int)
    ensures forall c :: c in ReturnAllCmds(ids, now) ==> c.ZAddGlobal? || c.ZRemPending?
    decreases |ids|
  {
    if ids != [] {
      ReturnAllHasQueueCommands(ids[..|ids| - 1], now);
    }
  }

  // With at most 10000 active jobs and no Redis error while recovering, every active job is afterwards in
  // flight and less than two minutes old, or in the global queue and PENDING.
  lemma TakeoverIsComplete(db: Db, pendingIds: seq<Id>, now0: int, net: Net,
                           activeIds: seq<Id>, max: int, now: int, nets: seq<JobNet>, j: Id)
    requires |nets| == |activeIds| && WellKeyed(db) && forall n :: n in nets ==> NoFault(n)
    requires (forall k :: k in db.active ==> 0 <= db.active[k] <= max) && |db.active| <= 10000
    requires IsScan(db.active, max, 10000, activeIds)
    ensures var r := AfterTakeover(db, pendingIds, now0, net, activeIds, now, nets);
      j in r.active ==> Fresh(r, j, now) || Requeueable(r, j)
  {
    var cs := Prefix(ReturnAllCmds(pendingIds, now0), net.reach);
    ReturnAllHasQueueCommands(pendingIds, now0);
    ReturnTouchesQueuesOnly(db, cs);
    assert InRange(db.active, max) == db.active.Keys;
    ScanIsComplete(db.active, max, 10000, activeIds);
    RecoverAllEffect(ApplyAll(db, cs), activeIds, now, nets, j);
  }
}
