/** Job submission of job_service.go. */
module Service {
  import opened Model
  import opened Redis

  const DEFAULT_DELAY := 5
  const RELATIVE_LIMIT := 1_000_000_000

  datatype Error = IdRequired | CallbackRequired | NoValidTasks | PipelineFailed

  datatype Result<T> = Ok(value: T) | Err(error: Error)

  predicate Submittable(t: Task) { t.id != "" && t.callbackURL != "" }

  // Defaults filled in, and the trigger time made absolute: none means in five seconds, and a small number
  // is seconds from now.
  function Normalised(t: Task, now: int): Task {
    t.(priority := if t.priority == "" then PRIORITY_LOW else t.priority,
       maxRetry := if t.maxRetry == 0 then DEFAULT_MAX_RETRY else t.maxRetry,
       timeout := if t.timeout == 0 then DEFAULT_TIMEOUT else t.timeout,
       triggerTime := if t.triggerTime <= 0 then now + DEFAULT_DELAY
                      else if t.triggerTime < RELATIVE_LIMIT then now + t.triggerTime
                      else t.triggerTime,
       enqueueAt := now)
  }

  // What a submission makes of a task: each default where the field is empty or 0, five seconds from now without a
  // trigger time, a trigger below 10^9 counted from now, and the enqueue time.
  predicate NormalForm(t: Task, n: Task, now: int) {
    && n == t.(priority := n.priority, maxRetry := n.maxRetry, timeout := n.timeout, triggerTime := n.triggerTime,
               enqueueAt := now)
    && n.priority == (if t.priority == "" then "Low" else t.priority)
    && n.maxRetry == (if t.maxRetry == 0 then 3 else t.maxRetry)
    && n.timeout == (if t.timeout == 0 then 30 else t.timeout)
    && (t.triggerTime <= 0 ==> n.triggerTime == now + 5)
    && (0 < t.triggerTime < 1_000_000_000 ==> n.triggerTime == now + t.triggerTime)
    && (t.triggerTime >= 1_000_000_000 ==> n.triggerTime == t.triggerTime)
  }

  lemma NormalisedMeans(t: Task, now: int)
    ensures NormalForm(t, Normalised(t, now), now)
  {
  }

  // A trigger time that came out absolute is left alone when the task is submitted again.
  lemma NormalisedIsStable(t: Task, now: int, later: int)
    requires now >= RELATIVE_LIMIT
    ensures var n := Normalised(t, now);
      n.triggerTime >= RELATIVE_LIMIT && Normalised(n, later) == n.(enqueueAt := later)
  {
  }

  // The keys after one submission that meets no Redis error.
  function Submitted(db: Db, t: Task, now: int): Db {
    if Submittable(t) then ApplyAll(db, SubmitCmds(Normalised(t, now), now)) else db
  }

  method Normalise(t: Task, now: int) returns (n: Task)
    ensures n == Normalised(t, now)
  {
    n := t;
    if n.priority == "" {
      n := n.(priority := PRIORITY_LOW);
    }
    if n.maxRetry == 0 {
      n := n.(maxRetry := DEFAULT_MAX_RETRY);
    }
    if n.timeout == 0 {
      n := n.(timeout := DEFAULT_TIMEOUT);
    }
    if n.triggerTime <= 0 {
      n := n.(triggerTime := now + DEFAULT_DELAY);
    } else if n.triggerTime < RELATIVE_LIMIT {
      n := n.(triggerTime := now + n.triggerTime);
    }
    n := n.(enqueueAt := now);
  }

  method SubmitJob(store: Store, t: Task, now: int, net: Net) returns (r: Result<Task>)
    modifies store
    ensures t.id == "" ==> r == Err(IdRequired)
    ensures t.id != "" && t.callbackURL == "" ==> r == Err(CallbackRequired)
    ensures !Submittable(t) ==> store.Contents() == old(store.Contents())
    ensures Submittable(t) ==> r == (if net.reach >= 4 && net.answered then Ok(Normalised(t, now)) else Err(PipelineFailed))
    ensures Submittable(t) ==>
      store.Contents() == ApplyAll(old(store.Contents()), Prefix(SubmitCmds(Normalised(t, now), now), net.reach))
    ensures r.Ok? ==> store.Contents() == Submitted(old(store.Contents()), t, now)
  {
    if t.id == "" {
      return Err(IdRequired);
    }
    if t.callbackURL == "" {
      return Err(CallbackRequired);
    }
    var n := Normalise(t, now);
    var ok := store.Exec(SubmitCmds(n, now), net);
    r := if ok then Ok(n) else Err(PipelineFailed);
  }

  // What BatchSubmitJobs leaves in its argument, sends, and counts.
  function BatchNormalised(ts: seq<Task>, now: int): (r: seq<Task>)
    ensures |r| == |ts|
  {
    seq(|ts|, k requires 0 <= k < |ts| => if Submittable(ts[k]) then Normalised(ts[k], now) else ts[k])
  }

  function BatchCmds(ts: seq<Task>, now: int): seq<Cmd> {
    if ts == [] then []
    else
      var t := ts[|ts| - 1];
      BatchCmds(ts[..|ts| - 1], now) + if Submittable(t) then SubmitCmds(Normalised(t, now), now) else []
  }

  function BatchCount(ts: seq<Task>): nat {
    if ts == [] then 0 else BatchCount(ts[..|ts| - 1]) + if Submittable(ts[|ts| - 1]) then 1 else 0
  }

  // A batch leaves each task it sends in normal form, and the others as they were.
  lemma BatchNormalisesEach(ts: seq<Task>, now: int, k: nat)
    requires k < |ts|
    ensures ts[k].id != "" && ts[k].callbackURL != "" ==> NormalForm(ts[k], BatchNormalised(ts, now)[k], now)
    ensures ts[k].id == "" || ts[k].callbackURL == "" ==> BatchNormalised(ts, now)[k] == ts[k]
  {
  }

  method BatchSubmitJobs(store: Store, tasks: array<Task>, now: int, net: Net) returns (r: Result<nat>)
    modifies store, tasks
    ensures tasks[..] == BatchNormalised(old(tasks[..]), now)
    ensures r == if tasks.Length == 0 then Ok(0)
                 else if BatchCount(old(tasks[..])) == 0 then Err(NoValidTasks)
                 else if net.reach >= |BatchCmds(old(tasks[..]), now)| && net.answered then Ok(BatchCount(old(tasks[..])))
                 else Err(PipelineFailed)
    ensures store.Contents() == ApplyAll(old(store.Contents()), Prefix(BatchCmds(old(tasks[..]), now), net.reach))
  {
    ghost var ts := tasks[..];
    if tasks.Length == 0 {
      return Ok(0);
    }
    var pipe, count := [], 0;
    for k := 0 to tasks.Length
      invariant unchanged(store)
      invariant forall i :: 0 <= i < tasks.Length ==> tasks[i] == if i < k then BatchNormalised(ts, now)[i] else ts[i]
      invariant pipe == BatchCmds(ts[..k], now) && count == BatchCount(ts[..k])
    {
      assert ts[..k + 1][..k] == ts[..k];
      if tasks[k].id == "" || tasks[k].callbackURL == "" {
        continue;
      }
      tasks[k] := Normalise(tasks[k], now);
      pipe := pipe + SubmitCmds(tasks[k], now);
      count := count + 1;
    }
    assert ts[..tasks.Length] == ts;
    if count == 0 {
      NothingToSend(ts, now);
      return Err(NoValidTasks);
    }
    var ok := store.Exec(pipe, net);
    r := if ok then Ok(count) else Err(PipelineFailed);
  }

  lemma {:induction false} NothingToSend(ts: seq<Task>, now: int)
    requires BatchCount(ts) == 0
    ensures BatchCmds(ts, now) == []
    decreases |ts|
  {
    if ts != [] {
      NothingToSend(ts[..|ts| - 1], now);
    }
  }

  // Submitting the tasks one by one, in order, at one clock reading.
  function SubmitEach(db: Db, ts: seq<Task>, now: int): Db {
    if ts == [] then db else Submitted(SubmitEach(db, ts[..|ts| - 1], now), ts[|ts| - 1], now)
  }

  // The one pipeline of a batch has the effect of the single submissions, duplicate ids included.
  lemma {:induction false} BatchRefinesSingles(db: Db, ts: seq<Task>, now: int)
    ensures ApplyAll(db, BatchCmds(ts, now)) == SubmitEach(db, ts, now)
    decreases |ts|
  {
    if ts != [] {
      var n := |ts| - 1;
      BatchRefinesSingles(db, ts[..n], now);
      ApplyAllConcat(db, BatchCmds(ts[..n], now), if Submittable(ts[n]) then SubmitCmds(Normalised(ts[n], now), now) else []);
    }
  }

  // The count is the number of tasks that a single submission would accept.
  lemma {:induction false} BatchCountsSubmittable(ts: seq<Task>)
    ensures BatchCount(ts) == |set k | 0 <= k < |ts| && Submittable(ts[k])|
    decreases |ts|
  {
    if ts != [] {
      var n := |ts| - 1;
      BatchCountsSubmittable(ts[..n]);
      var before := set k | 0 <= k < n && Submittable(ts[..n][k]);
      assert (set k | 0 <= k < |ts| && Submittable(ts[k])) == before + if Submittable(ts[n]) then {n} else {};
    }
  }

  // After its single submission a job is due in the global queue, PENDING, active and with its detail saved.
  lemma SubmittedIsPending(db: Db, t: Task, now: int)
    requires Submittable(t)
    ensures var r, n := Submitted(db, t, now), Normalised(t, now);
      && ViewOf(r, t.id) == View(Some(n.triggerTime), Get(db.pending, t.id), Some(now), Get(db.terminal, t.id),
                                 Some(RecordOf(n, Pending, now)))
      && Get(r.detail, t.id) == Some(n)
      && forall j :: j != t.id ==> ViewOf(r, j) == ViewOf(db, j) && Get(r.detail, j) == Get(db.detail, j)
  {
    var cs := SubmitCmds(Normalised(t, now), now);
    var d1 := Apply(db, cs[0]);
    var d2 := Apply(d1, cs[1]);
    var d3 := Apply(d2, cs[2]);
    var d4 := Apply(d3, cs[3]);
    assert cs[1..] == [cs[1], cs[2], cs[3]] && cs[1..][1..] == [cs[2], cs[3]] && cs[1..][1..][1..] == [cs[3]];
    assert ApplyAll(d3, [cs[3]]) == ApplyAll(d4, []);
    assert ApplyAll(d2, [cs[2], cs[3]]) == d4;
    assert ApplyAll(d1, cs[1..]) == d4;
    assert Submitted(db, t, now) == d4;
  }

  // In the task's own terms: it waits in global for its normalised trigger, is PENDING and active since now, its
  // record and detail hold its fields, and every other key and job is as it was.
  lemma SubmittedMeans(db: Db, t: Task, now: int)
    requires t.id != "" && t.callbackURL != ""
    ensures var r := Submitted(db, t, now);
      && t.id in r.detail && NormalForm(t, r.detail[t.id], now) && FromTask(r, r.detail[t.id], Pending, now)
      && t.id in r.global && r.global[t.id] == r.detail[t.id].triggerTime && t.id in r.active && r.active[t.id] == now
      && r.pending == db.pending && r.terminal == db.terminal && r.dead == db.dead && r.deadDetail == db.deadDetail
      && OthersUntouched(db, r, t.id)
  {
    var n := Normalised(t, now);
    var cs := SubmitCmds(n, now);
    assert cs == [cs[0], cs[1]] + [cs[2], cs[3]];
    ApplyAllConcat(db, [cs[0], cs[1]], [cs[2], cs[3]]);
    ApplyTwo(db, cs[0], cs[1]);
    ApplyTwo(Apply(Apply(db, cs[0]), cs[1]), cs[2], cs[3]);
  }
}
