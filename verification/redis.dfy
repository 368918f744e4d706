/** The Redis keys the scheduler and the executors share, as plain maps, and the commands written to them. */
module Redis {
  import opened Model

  // global, pending, active, terminal and dead are sorted sets: member to score.
  datatype Db = Db(
    global: map<Id, int>, pending: map<Id, int>, active: map<Id, int>, terminal: map<Id, int>,
    dead: map<Id, int>, deadDetail: map<Id, DeadRecord>, state: map<Id, StateRecord>, detail: map<Id, Task>)

  const EMPTY: Db := Db(map[], map[], map[], map[], map[], map[], map[], map[])

  // Redis runs these one at a time; a pipeline is a sequence of them, between which other clients may get in.
  datatype Cmd =
    | ZAddGlobal(id: Id, score: int)
    | ZRemPending(id: Id)
    | ZAddActive(id: Id, score: int)
    | ZRemActive(id: Id)
    | ZAddTerminal(id: Id, score: int)
    | ZRemTerminal(id: Id)
    | ZAddDead(id: Id, score: int)
    | HSetDeadDetail(id: Id, dead: DeadRecord)
    | HSetState(id: Id, rec: StateRecord)
    | HSetStatus(id: Id, status: Status, now: int)
    | DelState(id: Id)
    | HSetDetail(id: Id, task: Task)
    | DelDetail(id: Id)

  // HSET of status and updated_at alone: the other fields stay, or stay unset.
  function WithStatus(rec: Option<StateRecord>, status: Status, now: int): StateRecord {
    if rec.Some? then rec.value.(status := status, updatedAt := now)
    else StateRecord("", "", status, 0, 0, 0, now)
  }

  function Get<K, V>(m: map<K, V>, k: K): Option<V> {
    if k in m then Some(m[k]) else None
  }

  function Apply(db: Db, c: Cmd): Db {
    match c
    case ZAddGlobal(id, score) => db.(global := db.global[id := score])
    case ZRemPending(id) => db.(pending := db.pending - {id})
    case ZAddActive(id, score) => db.(active := db.active[id := score])
    case ZRemActive(id) => db.(active := db.active - {id})
    case ZAddTerminal(id, score) => db.(terminal := db.terminal[id := score])
    case ZRemTerminal(id) => db.(terminal := db.terminal - {id})
    case ZAddDead(id, score) => db.(dead := db.dead[id := score])
    case HSetDeadDetail(id, dead) => db.(deadDetail := db.deadDetail[id := dead])
    case HSetState(id, rec) => db.(state := db.state[id := rec])
    case HSetStatus(id, status, now) => db.(state := db.state[id := WithStatus(Get(db.state, id), status, now)])
    case DelState(id) => db.(state := db.state - {id})
    case HSetDetail(id, task) => db.(detail := db.detail[id := task])
    case DelDetail(id) => db.(detail := db.detail - {id})
  }

  function ApplyAll(db: Db, cs: seq<Cmd>): Db
    decreases |cs|
  {
    if cs == [] then db else ApplyAll(Apply(db, cs[0]), cs[1..])
  }

  lemma {:induction false} ApplyAllConcat(db: Db, a: seq<Cmd>, b: seq<Cmd>)
    ensures ApplyAll(db, a + b) == ApplyAll(ApplyAll(db, a), b)
    decreases |a|
  {
    if a == [] {
      assert a + b == b;
    } else {
      assert (a + b)[1..] == a[1..] + b;
      ApplyAllConcat(Apply(db, a[0]), a[1..], b);
    }
  }

  // A saved detail is what is read back, whatever other jobs and other keys go through in between.
  lemma {:induction false} SavedDetailIsRead(db: Db, t: Task, now: int, cs: seq<Cmd>)
    requires forall c :: c in cs && c.id == t.id ==> !c.HSetDetail? && !c.DelDetail?
    ensures Get(ApplyAll(db, SaveDetailCmds(t, now) + cs).detail, t.id) == Some(t)
    decreases |cs|
  {
    var save := SaveDetailCmds(t, now);
    if cs == [] {
      assert save[1..] == [save[1]] && save[1..][1..] == [];
      assert ApplyAll(Apply(db, save[0]), save[1..]) == Apply(Apply(db, save[0]), save[1]);
      assert save + cs == save;
    } else {
      var n := |cs| - 1;
      SavedDetailIsRead(db, t, now, cs[..n]);
      ApplyAllConcat(db, save + cs[..n], [cs[n]]);
      assert (save + cs[..n]) + [cs[n]] == save + cs;
      assert [cs[n]][1..] == [] && cs[n] in cs;
      ApplyKeepsDetail(ApplyAll(db, save + cs[..n]), cs[n], t.id);
    }
  }

  // Saving a detail makes the job active as well, and writes nothing else.
  lemma SavingMeans(db: Db, t: Task, now: int)
    ensures ApplyAll(db, SaveDetailCmds(t, now)) == db.(detail := db.detail[t.id := t], active := db.active[t.id := now])
  {
    var cs := SaveDetailCmds(t, now);
    ApplyTwo(db, cs[0], cs[1]);
  }

  lemma ApplyKeepsDetail(db: Db, c: Cmd, j: Id)
    requires c.id == j ==> !c.HSetDetail? && !c.DelDetail?
    ensures Get(Apply(db, c).detail, j) == Get(db.detail, j)
  {
  }

  // What the keys say about one job.
  datatype View = View(
    global: Option<int>, pending: Option<int>, active: Option<int>, terminal: Option<int>,
    state: Option<StateRecord>)

  function ViewOf(db: Db, j: Id): View {
    View(Get(db.global, j), Get(db.pending, j), Get(db.active, j), Get(db.terminal, j), Get(db.state, j))
  }

  function ApplyView(v: View, c: Cmd): View {
    match c
    case ZAddGlobal(_, score) => v.(global := Some(score))
    case ZRemPending(_) => v.(pending := None)
    case ZAddActive(_, score) => v.(active := Some(score))
    case ZRemActive(_) => v.(active := None)
    case ZAddTerminal(_, score) => v.(terminal := Some(score))
    case ZRemTerminal(_) => v.(terminal := None)
    case ZAddDead(_, _) => v
    case HSetDeadDetail(_, _) => v
    case HSetState(_, rec) => v.(state := Some(rec))
    case HSetStatus(_, status, now) => v.(state := Some(WithStatus(v.state, status, now)))
    case DelState(_) => v.(state := None)
    case HSetDetail(_, _) => v
    case DelDetail(_) => v
  }

  // A command changes what the keys say about its own job only.
  lemma ApplyIsLocal(db: Db, c: Cmd, j: Id)
    ensures ViewOf(Apply(db, c), j) == if c.id == j then ApplyView(ViewOf(db, j), c) else ViewOf(db, j)
  {
  }

  // What a status write is for: the record has this status since now, its other fields as before, or unset if there
  // was no record; a job that ended is terminal since now and not active, any other is active since now.
  predicate Recorded(before: Db, after: Db, id: Id, status: Status, now: int) {
    && id in after.state && after.state[id].status == status && after.state[id].updatedAt == now
    && (id in before.state ==> after.state[id] == before.state[id].(status := status, updatedAt := now))
    && (id !in before.state ==> after.state[id] == StateRecord("", "", status, 0, 0, 0, now))
    && (if status == Success || status == Dead
        then id !in after.active && id in after.terminal && after.terminal[id] == now
        else id in after.active && after.active[id] == now && Get(after.terminal, id) == Get(before.terminal, id))
  }

  // Queues, details and dead jobs are as they were.
  predicate RestUntouched(before: Db, after: Db) {
    && after.global == before.global && after.pending == before.pending && after.detail == before.detail
    && after.dead == before.dead && after.deadDetail == before.deadDetail
  }

  ghost predicate OthersUntouched(before: Db, after: Db, id: Id) {
    forall j :: j != id ==>
      && ViewOf(after, j) == ViewOf(before, j) && Get(after.detail, j) == Get(before.detail, j)
      && Get(after.dead, j) == Get(before.dead, j) && Get(after.deadDetail, j) == Get(before.deadDetail, j)
  }

  lemma ApplyOne(db: Db, c: Cmd)
    ensures ApplyAll(db, [c]) == Apply(db, c)
  {
    assert [c][1..] == [];
  }

  lemma ApplyTwo(db: Db, c: Cmd, d: Cmd)
    ensures ApplyAll(db, [c, d]) == Apply(Apply(db, c), d)
  {
    assert [c, d][1..] == [d];
    ApplyOne(Apply(db, c), d);
  }

  lemma ApplyThree(db: Db, c: Cmd, d: Cmd, e: Cmd)
    ensures ApplyAll(db, [c, d, e]) == Apply(Apply(Apply(db, c), d), e)
  {
    assert [c, d, e][1..] == [d, e];
    ApplyTwo(Apply(db, c), d, e);
  }

  lemma UpdateRecords(db: Db, id: Id, status: Status, now: int)
    ensures var r := ApplyAll(db, UpdateStateCmds(id, status, now));
      Recorded(db, r, id, status, now) && RestUntouched(db, r) && OthersUntouched(db, r, id)
  {
    var cs := UpdateStateCmds(id, status, now);
    if status == Success || status == Dead {
      assert cs == [cs[0], cs[1], cs[2]];
      ApplyThree(db, cs[0], cs[1], cs[2]);
    } else {
      assert cs == [cs[0], cs[1]];
      ApplyTwo(db, cs[0], cs[1]);
    }
  }

  // Two status writes leave what the second says.
  lemma RecordedTwice(a: Db, b: Db, c: Db, id: Id, first: Status, second: Status, t1: int, t2: int)
    requires Recorded(a, b, id, first, t1) && Recorded(b, c, id, second, t2) && first != Success && first != Dead
    ensures Recorded(a, c, id, second, t2)
  {
  }

  lemma OthersUntouchedTwice(a: Db, b: Db, c: Db, id: Id)
    requires OthersUntouched(a, b, id) && OthersUntouched(b, c, id)
    ensures OthersUntouched(a, c, id)
  {
  }

  // A CAS that succeeds writes the whole record and the index entry of its status.
  lemma CasRecords(db: Db, t: Task, from: Status, to: Status, now: int)
    requires CasMatches(db, t.id, from)
    ensures var r := Cas(db, t, from, to, now);
      && RestUntouched(db, r) && OthersUntouched(db, r, t.id) && Recorded(db.(state := r.state), r, t.id, to, now)
      && FromTask(r, t, to, now)
  {
  }

  // The record holds the task's own fields.
  predicate FromTask(r: Db, t: Task, status: Status, now: int) {
    && t.id in r.state
    && var rec := r.state[t.id];
    && rec.name == t.name && rec.callbackURL == t.callbackURL && rec.status == status && rec.updatedAt == now
    && rec.retryCount == t.retryCount && rec.maxRetry == t.maxRetry && rec.triggerTime == t.triggerTime
  }

  // The status read by GetState: a job without a record counts as PENDING.
  function StatusOf(db: Db, j: Id): Status {
    if j in db.state then db.state[j].status else Pending
  }

  // casScript: all or nothing, in one step. A missing record matches no expected status.
  predicate CasMatches(db: Db, j: Id, expected: Status) {
    j in db.state && db.state[j].status == expected
  }

  function Cas(db: Db, task: Task, expected: Status, target: Status, now: int): Db {
    if !CasMatches(db, task.id, expected) then db
    else
      var written := db.(state := db.state[task.id := RecordOf(task, target, now)]);
      if Terminal(target)
      then written.(active := db.active - {task.id}, terminal := db.terminal[task.id := now])
      else written.(active := db.active[task.id := now])
  }

  // The members a ZRANGEBYSCORE from 0 to max finds.
  function InRange(z: map<Id, int>, max: int): set<Id> {
    set j | j in z && 0 <= z[j] <= max
  }

  function MoveToPending(db: Db, due: set<Id>): Db
    requires due <= db.global.Keys
  {
    db.(global := db.global - due, pending := db.pending + (map j | j in due :: db.global[j]))
  }

  function MoveOne(db: Db, id: Id): Db
    requires id in db.global
  {
    db.(pending := db.pending[id := db.global[id]], global := db.global - {id})
  }

  lemma MoveOneMore(db: Db, moved: set<Id>, id: Id)
    requires moved <= db.global.Keys && id in db.global && id !in moved
    ensures id in MoveToPending(db, moved).global && MoveToPending(db, moved).global[id] == db.global[id]
    ensures MoveOne(MoveToPending(db, moved), id) == MoveToPending(db, moved + {id})
  {
  }

  // fetchExpiredScript: the due members move from global to pending with their scores.
  function Fetch(db: Db, max: int): Db {
    MoveToPending(db, InRange(db.global, max))
  }

  lemma FetchMoves(db: Db, max: int, j: Id)
    ensures ViewOf(Fetch(db, max), j) ==
      if j in db.global && 0 <= db.global[j] <= max
      then ViewOf(db, j).(global := None, pending := Some(db.global[j]))
      else ViewOf(db, j)
    ensures Fetch(db, max) == db.(global := Fetch(db, max).global, pending := Fetch(db, max).pending)
  {
  }

  // A scan with a limit, as ZRANGEBYSCORE ... LIMIT 0 cap answers it: the lowest scores first.
  ghost predicate IsScan(z: map<Id, int>, max: int, cap: nat, ids: seq<Id>) {
    && (forall i, k :: 0 <= i < k < |ids| ==> ids[i] != ids[k])
    && (forall j :: j in ids ==> j in InRange(z, max))
    && |ids| <= cap
    && (|ids| < cap ==> forall j :: j in InRange(z, max) ==> j in ids)
    && (forall j, k :: j in InRange(z, max) && j !in ids && k in ids ==> z[k] <= z[j])
  }

  // With at most cap members in range, the scan is complete.
  lemma ScanIsComplete(z: map<Id, int>, max: int, cap: nat, ids: seq<Id>)
    requires IsScan(z, max, cap, ids) && |InRange(z, max)| <= cap
    ensures forall j :: j in InRange(z, max) <==> j in ids
  {
    var found := set j | j in ids;
    DistinctCount(ids);
    if |ids| == cap {
      SubsetOfSameSize(found, InRange(z, max));
    }
  }

  lemma {:induction false} DistinctCount(ids: seq<Id>)
    requires forall i, k :: 0 <= i < k < |ids| ==> ids[i] != ids[k]
    ensures |set j | j in ids| == |ids|
    decreases |ids|
  {
    if ids != [] {
      var rest := ids[1..];
      DistinctCount(rest);
      assert (set j | j in ids) == {ids[0]} + set j | j in rest;
    }
  }

  lemma {:induction false} SubsetOfSameSize(a: set<Id>, b: set<Id>)
    requires a <= b && |a| >= |b|
    ensures a == b
    decreases |a|
  {
    if a != {} {
      var x :| x in a;
      SubsetOfSameSize(a - {x}, b - {x});
      assert a == (a - {x}) + {x} && b == (b - {x}) + {x};
    } else {
      assert |b| == 0;
    }
  }

  // ---- The pipelines of the program, as command sequences ----

  // Index and status agree: the tail of every status write.
  function IndexCmds(id: Id, status: Status, now: int): seq<Cmd> {
    if Terminal(status) then [ZRemActive(id), ZAddTerminal(id, now)] else [ZAddActive(id, now)]
  }

  // saveState of the FSM.
  function SaveStateCmds(task: Task, status: Status, now: int): seq<Cmd> {
    [HSetState(task.id, RecordOf(task, status, now))] + IndexCmds(task.id, status, now)
  }

  // updateTaskState of the executor.
  function UpdateStateCmds(id: Id, status: Status, now: int): seq<Cmd> {
    [HSetStatus(id, status, now)] + IndexCmds(id, status, now)
  }

  function SubmitCmds(task: Task, now: int): seq<Cmd> {
    [ZAddGlobal(task.id, task.triggerTime), HSetDetail(task.id, task), ZAddActive(task.id, now),
     HSetState(task.id, RecordOf(task, Pending, now))]
  }

  // One job of RecoverStaleTasks or MonitorStaleStates.
  function RecoverCmds(task: Task, now: int): seq<Cmd> {
    [ZAddGlobal(task.id, task.triggerTime)] + SaveStateCmds(task, Pending, now)
  }

  // One job of recoverPendingTasks or recoverStalePendingLoop.
  function ReturnCmds(id: Id, now: int): seq<Cmd> {
    [ZAddGlobal(id, now), ZRemPending(id)]
  }

  // SaveTaskDetail.
  function SaveDetailCmds(task: Task, now: int): seq<Cmd> {
    [HSetDetail(task.id, task), ZAddActive(task.id, now)]
  }

  // The executor's retry, of which SaveTaskDetail got as far as reach.
  function RetryCmds(task: Task, now: int, reach: nat): seq<Cmd> {
    Prefix(SaveDetailCmds(task, now), reach) + [ZAddGlobal(task.id, task.triggerTime)]
      + UpdateStateCmds(task.id, Retry, now)
  }

  // saveDeadTask of the executor.
  function BuryCmds(cmd: TaskCommand, error: string, now: int): seq<Cmd> {
    [HSetDeadDetail(cmd.id, DeadRecord(cmd.name, cmd.callbackURL, cmd.retryCount, error, now)), ZAddDead(cmd.id, now)]
  }

  // The end of a job's attempts, of which saveDeadTask got as far as reach.
  function DeadCmds(cmd: TaskCommand, error: string, now: int, reach: nat): seq<Cmd> {
    Prefix(BuryCmds(cmd, error, now), reach) + UpdateStateCmds(cmd.id, Dead, now)
  }

  // One job of CleanTerminalStates.
  function CleanCmds(id: Id): seq<Cmd> {
    [DelState(id), DelDetail(id), ZRemTerminal(id)]
  }

  // ---- The store the program talks to ----

  // How far a pipeline gets before the connection fails, and whether the client learns that it succeeded.
  datatype Net = Net(reach: nat, answered: bool)

  function Prefix(cs: seq<Cmd>, reach: nat): seq<Cmd> {
    if reach < |cs| then cs[..reach] else cs
  }

  class Store {
    var global: map<Id, int>
    var pending: map<Id, int>
    var active: map<Id, int>
    var terminal: map<Id, int>
    var dead: map<Id, int>
    var deadDetail: map<Id, DeadRecord>
    var state: map<Id, StateRecord>
    var detail: map<Id, Task>

    function Contents(): Db
      reads this
    {
      Db(global, pending, active, terminal, dead, deadDetail, state, detail)
    }

    constructor ()
      ensures Contents() == EMPTY
    {
      global, pending, active, terminal, dead := map[], map[], map[], map[], map[];
      deadDetail, state, detail := map[], map[], map[];
    }

    method Run(c: Cmd)
      modifies this
      ensures Contents() == Apply(old(Contents()), c)
    {
      match c
      case ZAddGlobal(id, score) => global := global[id := score];
      case ZRemPending(id) => pending := pending - {id};
      case ZAddActive(id, score) => active := active[id := score];
      case ZRemActive(id) => active := active - {id};
      case ZAddTerminal(id, score) => terminal := terminal[id := score];
      case ZRemTerminal(id) => terminal := terminal - {id};
      case ZAddDead(id, score) => dead := dead[id := score];
      case HSetDeadDetail(id, record) => deadDetail := deadDetail[id := record];
      case HSetState(id, rec) => state := state[id := rec];
      case HSetStatus(id, status, now) => state := state[id := WithStatus(Get(state, id), status, now)];
      case DelState(id) => state := state - {id};
      case HSetDetail(id, task) => detail := detail[id := task];
      case DelDetail(id) => detail := detail - {id};
    }

    // pipe.Exec: on an error an unknown prefix has run.
    method Exec(cs: seq<Cmd>, net: Net) returns (ok: bool)
      modifies this
      ensures Contents() == ApplyAll(old(Contents()), Prefix(cs, net.reach))
      ensures ok <==> net.reach >= |cs| && net.answered
    {
      var todo := Prefix(cs, net.reach);
      ghost var goal := ApplyAll(Contents(), todo);
      while todo != []
        invariant ApplyAll(Contents(), todo) == goal
        decreases |todo|
      {
        Run(todo[0]);
        todo := todo[1..];
      }
      ok := net.reach >= |cs| && net.answered;
    }

    // casScript.
    method RunCas(task: Task, expected: Status, target: Status, now: int) returns (done: bool)
      modifies this
      ensures done <==> CasMatches(old(Contents()), task.id, expected)
      ensures Contents() == Cas(old(Contents()), task, expected, target, now)
    {
      if task.id !in state || state[task.id].status != expected {
        return false;
      }
      state := state[task.id := RecordOf(task, target, now)];
      if Terminal(target) {
        active := active - {task.id};
        terminal := terminal[task.id := now];
      } else {
        active := active[task.id := now];
      }
      return true;
    }

    method ZMove(id: Id) returns (score: int)
      requires id in global
      modifies this
      ensures Contents() == MoveOne(old(Contents()), id) && score == old(global)[id]
    {
      score := global[id];
      pending := pending[id := score];
      global := global - {id};
    }

    // fetchExpiredScript, on the members its ZRANGEBYSCORE found.
    method RunFetch(max: int, ids: seq<Id>) returns (items: seq<(Id, int)>)
      requires IsScan(global, max, |ids| + 1, ids)
      modifies this
      ensures Contents() == Fetch(old(Contents()), max)
      ensures |items| == |ids|
      ensures forall k :: 0 <= k < |ids| ==> ids[k] in old(global) && items[k] == (ids[k], old(global)[ids[k]])
    {
      items := [];
      ghost var before := Contents();
      ghost var due, moved: set<Id> := InRange(before.global, max), {};
      assert forall i :: 0 <= i < |ids| ==> ids[i] in ids;
      for k := 0 to |ids|
        invariant |items| == k && moved <= due && Contents() == MoveToPending(before, moved)
        invariant forall i :: 0 <= i < k ==> ids[i] in moved && items[i] == (ids[i], before.global[ids[i]])
        invariant forall i :: k <= i < |ids| ==> ids[i] !in moved
      {
        var id := ids[k];
        assert id in due && id !in moved;
        MoveOneMore(before, moved, id);
        var score := ZMove(id);
        items := items + [(id, score)];
        moved := moved + {id};
      }
      assert moved == due;
    }
  }
}
