/** The state machine of fsm.go: its transitions, Fire, and the three loops that repair or clean job states. */
module Fsm {
  import opened Model
  import opened Redis

  datatype Event = Trigger | Dispatch | Start | Succeed | Fail | TryAgain

  datatype Transition = Transition(from: Status, event: Event, to: Status)

  const TRANSITIONS: set<Transition> := {
    Transition(Pending, Trigger, Ready),
    Transition(Ready, Dispatch, Dispatched),
    Transition(Dispatched, Start, Running),
    Transition(Running, Succeed, Success),
    Transition(Running, Fail, Retry),
    Transition(Retry, TryAgain, Ready),
    Transition(Retry, Fail, Dead)
  }

  // The one status an event leads to, if any.
  function Target(from: Status, event: Event): Option<Status> {
    match (from, event)
    case (Pending, Trigger) => Some(Ready)
    case (Ready, Dispatch) => Some(Dispatched)
    case (Dispatched, Start) => Some(Running)
    case (Running, Succeed) => Some(Success)
    case (Running, Fail) => Some(Retry)
    case (Retry, TryAgain) => Some(Ready)
    case (Retry, Fail) => Some(Dead)
    case _ => None
  }

  // findTransition walks the table in no particular order; the answer does not depend on it.
  method FindTransition(from: Status, event: Event) returns (to: Option<Status>)
    ensures to == Target(from, event)
  {
    var left := TRANSITIONS;
    while left != {}
      invariant left <= TRANSITIONS
      invariant forall t :: t in TRANSITIONS - left ==> t.from != from || t.event != event
      decreases left
    {
      var t :| t in left;
      if t.from == from && t.event == event {
        return Some(t.to);
      }
      left := left - {t};
    }
    assert forall t :: t in TRANSITIONS ==> t.from != from || t.event != event;
    TableIsTotal(from, event);
    return None;
  }

  lemma TableIsTotal(from: Status, event: Event)
    ensures Target(from, event).Some? <==> exists t :: t in TRANSITIONS && t.from == from && t.event == event
  {
  }

  // Only PENDING can be triggered and only READY can be dispatched.
  lemma TriggerAndDispatchSources(from: Status)
    ensures Target(from, Trigger).Some? <==> from == Pending
    ensures Target(from, Dispatch).Some? <==> from == Ready
  {
  }

  datatype FireResult = Fired(to: Status) | Illegal(current: Status) | Conflict | Failed

  // Whether GetState was answered, and how the CAS fared.
  datatype FireNet = FireNet(read: bool, cas: Net)

  // The CAS runs; its answer arrives as well.
  predicate Runs(net: FireNet) { net.read && net.cas.reach >= 1 }

  predicate Answered(net: FireNet) { Runs(net) && net.cas.answered }

  // Fire when nobody else writes between its read and its CAS; Lifecycle interleaves the two. A CAS whose answer
  // is lost takes effect all the same.
  method Fire(store: Store, event: Event, task: Task, now: int, net: FireNet) returns (r: FireResult)
    modifies store
    ensures var db, current := old(store.Contents()), StatusOf(old(store.Contents()), task.id);
      var target := Target(current, event);
      && (r.Illegal? <==> net.read && target.None?)
      && (r.Failed? <==> !net.read || (target.Some? && !Answered(net)))
      && (r.Conflict? <==> Answered(net) && task.id !in db.state && event == Trigger)
      && (r.Fired? <==> Answered(net) && task.id in db.state && target.Some?)
      && (r.Fired? ==> target == Some(r.to))
      && store.Contents() == if Runs(net) && target.Some? then Cas(db, task, current, target.value, now) else db
  {
    if !net.read {
      return Failed;
    }
    var current := StatusOf(store.Contents(), task.id);
    var target := FindTransition(current, event);
    if target.None? {
      return Illegal(current);
    }
    var done := false;
    if net.cas.reach >= 1 {
      done := store.RunCas(task, current, target.value, now);
    }
    if net.cas.reach < 1 || !net.cas.answered {
      return Failed;
    }
    return if done then Fired(target.value) else Conflict;
  }

  const STALE_SECONDS := 120

  // Every detail is kept under its own job id.
  predicate WellKeyed(db: Db) {
    forall j :: j in db.detail ==> db.detail[j].id == j
  }

  // What can go wrong for one job of a recovery loop, and when saveState reads the clock.
  datatype JobNet = JobNet(read: bool, detail: bool, add: Net, save: Net, saveAt: int)

  // The fallback when the detail is lost.
  function Rebuilt(db: Db, j: Id): Task {
    var rec := if j in db.state then db.state[j] else StateRecord("", "", Pending, 0, 0, 0, 0);
    Task(j, rec.name, rec.callbackURL, rec.triggerTime, PRIORITY_LOW, 0, DEFAULT_MAX_RETRY, DEFAULT_TIMEOUT, "", 0)
  }

  function DetailOr(db: Db, j: Id, ok: bool, rebuilt: Task): Task {
    if ok && j in db.detail then db.detail[j] else rebuilt
  }

  function RecoveredTask(db: Db, j: Id, now: int, ok: bool): Task {
    Recovered(DetailOr(db, j, ok, Rebuilt(db, j)), Rebuilt(db, j), now)
  }

  function MonitoredTask(db: Db, j: Id, now: int, ok: bool): Task {
    Monitored(DetailOr(db, j, ok, Rebuilt(db, j)), now)
  }

  predicate InFlight(db: Db, j: Id) {
    j in db.state && (db.state[j].status == Dispatched || db.state[j].status == Running)
  }

  // RecoverStaleTasks leaves a job alone when it is in flight and changed less than two minutes ago.
  predicate Fresh(db: Db, j: Id, now: int) {
    InFlight(db, j) && now - db.state[j].updatedAt < STALE_SECONDS
  }

  // It moves the trigger time up to now when the recorded one has passed.
  function Recovered(found: Task, rebuilt: Task, now: int): Task {
    if rebuilt.triggerTime < now then found.(triggerTime := now) else found
  }

  // MonitorStaleStates looks at the trigger time it found instead.
  function Monitored(found: Task, now: int): Task {
    if found.triggerTime < now then found.(triggerTime := now) else found
  }

  // Back into the global queue first, then PENDING.
  function Requeued(db: Db, j: Id, task: Task, net: JobNet): (Db, bool) {
    var added := ApplyAll(db, Prefix([ZAddGlobal(j, task.triggerTime)], net.add.reach));
    if net.add.reach >= 1 && net.add.answered
    then (ApplyAll(added, Prefix(SaveStateCmds(task, Pending, net.saveAt), net.save.reach)), true)
    else (added, false)
  }

  function RecoverOne(db: Db, j: Id, now: int, net: JobNet): (Db, bool) {
    if !net.read || Fresh(db, j, now) then (db, false)
    else Requeued(db, j, RecoveredTask(db, j, now, net.detail), net)
  }

  function MonitorOne(db: Db, j: Id, now: int, net: JobNet): (Db, bool) {
    if !net.read || !InFlight(db, j) then (db, false)
    else Requeued(db, j, MonitoredTask(db, j, now, net.detail), net)
  }

  function RecoverAll(db: Db, ids: seq<Id>, now: int, nets: seq<JobNet>): (Db, nat)
    requires |nets| == |ids|
  {
    if ids == [] then (db, 0)
    else
      var n := |ids| - 1;
      var (before, count) := RecoverAll(db, ids[..n], now, nets[..n]);
      var (after, done) := RecoverOne(before, ids[n], now, nets[n]);
      (after, if done then count + 1 else count)
  }

  function MonitorAll(db: Db, ids: seq<Id>, now: int, nets: seq<JobNet>): (Db, nat)
    requires |nets| == |ids|
  {
    if ids == [] then (db, 0)
    else
      var n := |ids| - 1;
      var (before, count) := MonitorAll(db, ids[..n], now, nets[..n]);
      var (after, done) := MonitorOne(before, ids[n], now, nets[n]);
      (after, if done then count + 1 else count)
  }

  method SaveState(store: Store, task: Task, status: Status, now: int, net: Net) returns (ok: bool)
    modifies store
    ensures store.Contents() == ApplyAll(old(store.Contents()), Prefix(SaveStateCmds(task, status, now), net.reach))
    ensures ok <==> net.reach >= |SaveStateCmds(task, status, now)| && net.answered
  {
    ok := store.Exec(SaveStateCmds(task, status, now), net);
  }

  method Requeue(store: Store, j: Id, task: Task, net: JobNet) returns (done: bool)
    modifies store
    ensures (store.Contents(), done) == Requeued(old(store.Contents()), j, task, net)
  {
    done := store.Exec([ZAddGlobal(j, task.triggerTime)], net.add);
    if done {
      var _ := SaveState(store, task, Pending, net.saveAt, net.save);
    }
  }

  // The body of RecoverStaleTasks' loop.
  method RecoverJob(store: Store, j: Id, now: int, net: JobNet) returns (done: bool)
    modifies store
    ensures (store.Contents(), done) == RecoverOne(old(store.Contents()), j, now, net)
  {
    var db := store.Contents();
    if !net.read || Fresh(db, j, now) {
      return false;
    }
    var task := DetailOr(db, j, net.detail, Rebuilt(db, j));
    if Rebuilt(db, j).triggerTime < now {
      task := task.(triggerTime := now);
    }
    done := Requeue(store, j, task, net);
  }

  // The body of MonitorStaleStates' loop.
  method MonitorJob(store: Store, j: Id, now: int, net: JobNet) returns (done: bool)
    modifies store
    ensures (store.Contents(), done) == MonitorOne(old(store.Contents()), j, now, net)
  {
    var db := store.Contents();
    if !net.read || !InFlight(db, j) {
      return false;
    }
    var task := DetailOr(db, j, net.detail, Rebuilt(db, j));
    if task.triggerTime < now {
      task := task.(triggerTime := now);
    }
    done := Requeue(store, j, task, net);
  }

  method RecoverStaleTasks(store: Store, ids: seq<Id>, now: int, nets: seq<JobNet>) returns (recovered: nat)
    requires |nets| == |ids|
    modifies store
    ensures (store.Contents(), recovered) == RecoverAll(old(store.Contents()), ids, now, nets)
  {
    recovered := 0;
    for k := 0 to |ids|
      invariant (store.Contents(), recovered) == RecoverAll(old(store.Contents()), ids[..k], now, nets[..k])
    {
      assert ids[..k + 1][..k] == ids[..k] && nets[..k + 1][..k] == nets[..k];
      var done := RecoverJob(store, ids[k], now, nets[k]);
      if done {
        recovered := recovered + 1;
      }
    }
    assert ids[..|ids|] == ids && nets[..|ids|] == nets;
  }

  method MonitorStaleStates(store: Store, ids: seq<Id>, now: int, nets: seq<JobNet>) returns (recovered: nat)
    requires |nets| == |ids|
    modifies store
    ensures (store.Contents(), recovered) == MonitorAll(old(store.Contents()), ids, now, nets)
  {
    recovered := 0;
    for k := 0 to |ids|
      invariant (store.Contents(), recovered) == MonitorAll(old(store.Contents()), ids[..k], now, nets[..k])
    {
      assert ids[..k + 1][..k] == ids[..k] && nets[..k + 1][..k] == nets[..k];
      var done := MonitorJob(store, ids[k], now, nets[k]);
      if done {
        recovered := recovered + 1;
      }
    }
    assert ids[..|ids|] == ids && nets[..|ids|] == nets;
  }

  // CleanTerminalStates sends one pipeline for all the jobs of its scan.
  function CleanAllCmds(ids: seq<Id>): seq<Cmd> {
    if ids == [] then [] else CleanAllCmds(ids[..|ids| - 1]) + CleanCmds(ids[|ids| - 1])
  }

  method CleanTerminalStates(store: Store, ids: seq<Id>, net: Net) returns (r: Option<nat>)
    modifies store
    ensures store.Contents() == ApplyAll(old(store.Contents()), Prefix(CleanAllCmds(ids), net.reach))
    ensures r == if ids == [] || (net.reach >= |CleanAllCmds(ids)| && net.answered) then Some(|ids|) else None
  {
    var pipe := [];
    for k := 0 to |ids|
      invariant pipe == CleanAllCmds(ids[..k])
    {
      assert ids[..k + 1][..k] == ids[..k];
      pipe := pipe + CleanCmds(ids[k]);
    }
    assert ids[..|ids|] == ids;
    if |ids| == 0 {
      return Some(0);
    }
    var ok := store.Exec(pipe, net);
    r := if ok then Some(|ids|) else None;
  }
}
