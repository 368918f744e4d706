/** Scheduler instances competing for the lock, with requests that take time to run and to be answered. */
module LeaseRun {
  import opened Model
  import opened LeaderElection

  datatype Phase =
    | Standby
    | Acquiring(sent: int, ran: Option<bool>)   // SETNX sent; ran holds its answer once Redis executed it
    | Leading(next: int)                        // renewLoop waits for the tick at next
    | Renewing(sent: int, ran: Option<bool>)

  // base is the time the ticker was started. lease records until when the last SETNX or EXPIRE that
  // succeeded for this instance holds, and is cleared by Release.
  datatype Instance = Instance(phase: Phase, isLeader: bool, base: int, lease: int)

  datatype State = State(all: seq<Instance>, lock: Option<Lock>, clock: int)

  datatype Step =
    | SendAcquire(i: nat)
    | RunAcquire(i: nat)
    | AcquireReply(i: nat)
    | SendRenew(i: nat)
    | RunRenew(i: nat)
    | RenewReply(i: nat)
    | Fail(i: nat)           // the call returns an error, or the context ends
    | LateAcquire(i: nat)    // Redis executes a request whose caller has given up
    | LateRenew(i: nat)
    | Stop(i: nat)           // Release
    | Tick(ms: nat)

  // The first tick after time t of a ticker started at base.
  function NextTick(base: int, t: int): int {
    base + RENEW_INTERVAL * ((t - base) / RENEW_INTERVAL + 1)
  }

  // It is later than t by 3 s at most, and a whole number of 3 s after base.
  lemma NextTickMeans(base: int, t: int)
    ensures t < NextTick(base, t) <= t + 3000 && (NextTick(base, t) - base) % 3000 == 0
  {
  }

  // Time cannot pass the point where instance p must act: replies take at most delay, ticks are not missed.
  predicate Patient(p: Instance, until: int, delay: int) {
    match p.phase
    case Standby => true
    case Acquiring(sent, _) => until <= sent + delay
    case Leading(next) => until <= next
    case Renewing(sent, _) => until <= sent + delay
  }

  ghost predicate Enabled(s: State, step: Step, delay: int) {
    (step.Tick? || step.i < |s.all|) &&
    match step
    case SendAcquire(i) => s.all[i].phase.Standby?
    case RunAcquire(i) => s.all[i].phase.Acquiring? && s.all[i].phase.ran.None?
    case AcquireReply(i) => s.all[i].phase.Acquiring? && s.all[i].phase.ran.Some?
    case SendRenew(i) => s.all[i].phase.Leading? && s.all[i].phase.next <= s.clock
    case RunRenew(i) => s.all[i].phase.Renewing? && s.all[i].phase.ran.None?
    case RenewReply(i) => s.all[i].phase.Renewing? && s.all[i].phase.ran.Some?
    case Fail(i) => !s.all[i].phase.Standby?
    case LateAcquire(i) => true
    case LateRenew(i) => true
    case Stop(i) => s.all[i].isLeader
    case Tick(ms) => forall p :: p in s.all ==> Patient(p, s.clock + ms, delay)
  }

  function Set(s: State, i: nat, p: Instance): State
    requires i < |s.all|
  {
    s.(all := s.all[i := p])
  }

  // Redis executes a request of instance i; on success the lease is renewed.
  function Execute(s: State, i: nat, p: Instance, r: (Option<Lock>, bool)): State
    requires i < |s.all|
  {
    Set(s, i, if r.1 then p.(lease := s.clock + LOCK_TTL) else p).(lock := r.0)
  }

  ghost function Do(s: State, step: Step, delay: int): State
    requires Enabled(s, step, delay)
  {
    match step
    case SendAcquire(i) => Set(s, i, s.all[i].(phase := Acquiring(s.clock, None)))
    case RunAcquire(i) =>
      var r := SetNX(s.lock, i, s.clock);
      Execute(s, i, s.all[i].(phase := Acquiring(s.all[i].phase.sent, Some(r.1))), r)
    case AcquireReply(i) =>
      if s.all[i].phase.ran.value
      then Set(s, i, s.all[i].(phase := Leading(s.clock + RENEW_INTERVAL), isLeader := true, base := s.clock))
      else Set(s, i, s.all[i].(phase := Standby))
    case SendRenew(i) => Set(s, i, s.all[i].(phase := Renewing(s.clock, None)))
    case RunRenew(i) =>
      var r := Renew(s.lock, i, s.clock);
      Execute(s, i, s.all[i].(phase := Renewing(s.all[i].phase.sent, Some(r.1))), r)
    case RenewReply(i) =>
      if s.all[i].phase.ran.value then
        var tick := NextTick(s.all[i].base, s.all[i].phase.sent);
        Set(s, i, s.all[i].(phase := Leading(if s.clock > tick then s.clock else tick)))
      else Set(s, i, s.all[i].(phase := Standby, isLeader := false))
    case Fail(i) => Set(s, i, s.all[i].(phase := Standby, isLeader := false))
    case LateAcquire(i) => Execute(s, i, s.all[i], SetNX(s.lock, i, s.clock))
    case LateRenew(i) => Execute(s, i, s.all[i], Renew(s.lock, i, s.clock))
    case Stop(i) => Set(s, i, s.all[i].(isLeader := false, lease := s.clock)).(lock := Release(s.lock, i, s.clock))
    case Tick(ms) => s.(clock := s.clock + ms)
  }

  predicate Init(s: State) {
    s.lock == None && forall i :: 0 <= i < |s.all| ==> s.all[i] == Instance(Standby, false, s.clock, s.clock)
  }

  ghost predicate Run(states: seq<State>, steps: seq<Step>, delay: int) {
    && |states| == |steps| + 1
    && forall k :: 0 <= k < |steps| ==>
         Enabled(states[k], steps[k], delay) && states[k + 1] == Do(states[k], steps[k], delay)
  }

  // Whatever the delays: an unexpired lease that was not released is the recorded one.
  predicate LeaseRecorded(s: State, i: nat)
    requires i < |s.all|
  {
    s.clock < s.all[i].lease ==> s.lock == Some(Lock(i, s.all[i].lease))
  }

  lemma StepKeepsLeases(s: State, step: Step, delay: int)
    requires Enabled(s, step, delay) && forall i :: 0 <= i < |s.all| ==> LeaseRecorded(s, i)
    ensures var n := Do(s, step, delay); |n.all| == |s.all| && forall i :: 0 <= i < |n.all| ==> LeaseRecorded(n, i)
  {
    var n := Do(s, step, delay);
    forall i | 0 <= i < |n.all| ensures LeaseRecorded(n, i) {
      assert LeaseRecorded(s, i);
      if !step.Tick? {
        assert LeaseRecorded(s, step.i);
      }
    }
  }

  lemma {:induction false} LeasesAreRecorded(states: seq<State>, steps: seq<Step>, delay: int, k: nat)
    requires Run(states, steps, delay) && Init(states[0]) && k < |states|
    ensures |states[k].all| == |states[0].all|
    ensures forall i :: 0 <= i < |states[k].all| ==> LeaseRecorded(states[k], i)
  {
    if k > 0 {
      LeasesAreRecorded(states, steps, delay, k - 1);
      StepKeepsLeases(states[k - 1], steps[k - 1], delay);
    }
  }

  lemma LeasesExclude(states: seq<State>, steps: seq<Step>, delay: int, k: nat, i: nat, j: nat)
    requires Run(states, steps, delay) && Init(states[0]) && k < |states|
    requires i < |states[k].all| && j < |states[k].all| && i != j
    ensures !(states[k].clock < states[k].all[i].lease && states[k].clock < states[k].all[j].lease)
  {
    LeasesAreRecorded(states, steps, delay, k);
    assert LeaseRecorded(states[k], i) && LeaseRecorded(states[k], j);
  }

  // The lock is recorded for instance i beyond time t.
  predicate HeldBeyond(s: State, i: nat, t: int) {
    s.lock.Some? && s.lock.value.owner == i && t < s.lock.value.expiry
  }

  predicate ExpiryInReach(s: State) {
    s.lock.Some? ==> s.lock.value.expiry <= s.clock + LOCK_TTL
  }

  // What each phase knows about the lock when replies take at most delay.
  predicate Timely(s: State, i: nat, delay: int)
    requires i < |s.all|
  {
    var p := s.all[i];
    && Patient(p, s.clock, delay)
    && (p.isLeader ==> p.phase.Leading? || p.phase.Renewing?)
    && (p.phase.Acquiring? ==> p.phase.sent <= s.clock)
    && (p.phase.Renewing? ==> p.phase.sent <= s.clock && p.base <= p.phase.sent)
    && (p.phase.Leading? ==> p.base <= p.phase.next)
    && (p.phase.Acquiring? && p.phase.ran.Some? && p.phase.ran.value ==> HeldBeyond(s, i, p.phase.sent + LOCK_TTL - 1))
    && (p.isLeader && p.phase.Leading? ==> HeldBeyond(s, i, p.phase.next + delay))
    && (p.isLeader && p.phase.Renewing? && p.phase.ran.None? ==> HeldBeyond(s, i, p.phase.sent + delay))
    && (p.isLeader && p.phase.Renewing? && p.phase.ran.Some? ==>
          p.phase.ran.value && HeldBeyond(s, i, p.phase.sent + LOCK_TTL - 1))
  }

  predicate AllTimely(s: State, delay: int) {
    ExpiryInReach(s) && forall i :: 0 <= i < |s.all| ==> Timely(s, i, delay)
  }

  // What other instances and the passing of time do to the lock of a leader, or of one about to be.
  lemma LockOutlivesOthers(s: State, step: Step, delay: int, i: nat, t: int)
    requires Enabled(s, step, delay) && i < |s.all| && s.clock <= t && HeldBeyond(s, i, t) && ExpiryInReach(s)
    requires !step.Tick? && step.i == i ==> !step.Stop?
    ensures HeldBeyond(Do(s, step, delay), i, t)
  {
  }

  lemma StepKeepsTimely(s: State, step: Step, delay: int, i: nat)
    requires Enabled(s, step, delay) && i < |s.all| && Timely(s, i, delay) && ExpiryInReach(s) && 0 <= delay < 3500
    ensures Timely(Do(s, step, delay), i, delay)
  {
    var p := s.all[i];
    if step.Tick? {
      assert p in s.all;
    } else if step.i == i {
      OwnStepKeepsTimely(s, step, delay);
    } else if p.phase.Acquiring? && p.phase.ran.Some? && p.phase.ran.value {
      LockOutlivesOthers(s, step, delay, i, p.phase.sent + LOCK_TTL - 1);
    } else if p.isLeader && p.phase.Leading? {
      LockOutlivesOthers(s, step, delay, i, p.phase.next + delay);
    } else if p.isLeader && p.phase.ran.None? {
      LockOutlivesOthers(s, step, delay, i, p.phase.sent + delay);
    } else if p.isLeader {
      LockOutlivesOthers(s, step, delay, i, p.phase.sent + LOCK_TTL - 1);
    }
  }

  lemma OwnStepKeepsTimely(s: State, step: Step, delay: int)
    requires !step.Tick? && Enabled(s, step, delay) && Timely(s, step.i, delay) && ExpiryInReach(s) && 0 <= delay < 3500
    ensures Timely(Do(s, step, delay), step.i, delay)
  {
  }

  lemma {:induction false} RunIsTimely(states: seq<State>, steps: seq<Step>, delay: int, k: nat)
    requires Run(states, steps, delay) && Init(states[0]) && k < |states| && 0 <= delay < 3500
    ensures |states[k].all| == |states[0].all| && AllTimely(states[k], delay)
  {
    if k > 0 {
      RunIsTimely(states, steps, delay, k - 1);
      forall i | 0 <= i < |states[k].all| ensures Timely(states[k], i, delay) {
        assert Timely(states[k - 1], i, delay);
        StepKeepsTimely(states[k - 1], steps[k - 1], delay, i);
      }
    }
  }

  predicate AtMostOneLeader(s: State) {
    forall i, j :: 0 <= i < |s.all| && 0 <= j < |s.all| && s.all[i].isLeader && s.all[j].isLeader ==> i == j
  }

  lemma TimelyLeaderHolds(s: State, i: nat, delay: int)
    requires i < |s.all| && Timely(s, i, delay) && s.all[i].isLeader && 0 <= delay < 3500
    ensures Holds(s.lock, i, s.clock)
  {
  }

  // With replies within 3.5 s, a leader's lock is always live, so flag and lock agree and there is one leader.
  lemma LeaderHoldsLock(states: seq<State>, steps: seq<Step>, delay: int, k: nat, i: nat)
    requires Run(states, steps, delay) && Init(states[0]) && k < |states| && 0 <= delay < 3500
    requires i < |states[k].all| && states[k].all[i].isLeader
    ensures Holds(states[k].lock, i, states[k].clock) && AtMostOneLeader(states[k])
  {
    RunIsTimely(states, steps, delay, k);
    forall j | 0 <= j < |states[k].all| && states[k].all[j].isLeader ensures Holds(states[k].lock, j, states[k].clock) {
      TimelyLeaderHolds(states[k], j, delay);
    }
  }

  lemma RunsConcat(first: seq<State>, steps: seq<Step>, second: seq<State>, more: seq<Step>, delay: int)
    requires Run(first, steps, delay) && Run(second, more, delay) && first[|steps|] == second[0]
    ensures Run(first + second[1..], steps + more, delay)
    ensures (first + second[1..])[|steps + more|] == second[|more|]
  {
    var states := first + second[1..];
    assert forall k :: 0 <= k <= |more| ==> states[|steps| + k] == second[k];
    assert forall k :: 0 <= k < |steps| ==> (steps + more)[k] == steps[k];
    assert forall k :: |steps| <= k < |steps| + |more| ==> (steps + more)[k] == more[k - |steps|];
    forall k | 0 <= k < |steps + more|
      ensures Enabled(states[k], (steps + more)[k], delay) && states[k + 1] == Do(states[k], (steps + more)[k], delay)
    {
      if k >= |steps| {
        var m := k - |steps|;
        assert states[k] == second[m] && states[k + 1] == second[m + 1];
      }
    }
  }

  // Instance 0 hears of its lock 3.5 s after it was granted and starts its ticker only then.
  lemma SlowLeader(s0: State, delay: int) returns (states: seq<State>, steps: seq<Step>)
    requires Init(s0) && |s0.all| >= 1 && delay >= 3500
    ensures Run(states, steps, delay) && states[0] == s0
    ensures var s := states[|steps|];
      && s.clock == s0.clock + 6500 && s.lock == Some(Lock(0, s0.clock + 10000))
      && (exists p :: s.all == s0.all[0 := p] && p.isLeader && p.phase == Leading(s.clock))
  {
    var s1 := Do(s0, SendAcquire(0), delay);
    var s2 := Do(s1, RunAcquire(0), delay);
    var s3 := Do(s2, Tick(3500), delay);
    var s4 := Do(s3, AcquireReply(0), delay);
    var s5 := Do(s4, Tick(3000), delay);
    states, steps := [s0, s1, s2, s3, s4, s5], [SendAcquire(0), RunAcquire(0), Tick(3500), AcquireReply(0), Tick(3000)];
    assert s5.all == s0.all[0 := s5.all[0]];
  }

  // Its first renewal is still on its way when the lock runs out, and instance 1 takes it.
  lemma SecondLeader(s0: State, delay: int) returns (states: seq<State>, steps: seq<Step>)
    requires |s0.all| >= 2 && delay >= 3500 && s0.lock == Some(Lock(0, s0.clock + 3500))
    requires s0.all[0].isLeader && s0.all[0].phase == Leading(s0.clock)
    requires forall i :: 1 <= i < |s0.all| ==> s0.all[i].phase == Standby && !s0.all[i].isLeader
    ensures Run(states, steps, delay) && states[0] == s0 && !AtMostOneLeader(states[|steps|])
  {
    var s1 := Do(s0, SendRenew(0), delay);
    var s2 := Do(s1, Tick(3500), delay);
    var s3 := Do(s2, SendAcquire(1), delay);
    var s4 := Do(s3, RunAcquire(1), delay);
    var s5 := Do(s4, AcquireReply(1), delay);
    states, steps := [s0, s1, s2, s3, s4, s5], [SendRenew(0), Tick(3500), SendAcquire(1), RunAcquire(1), AcquireReply(1)];
    assert s5.all[0].isLeader && s5.all[1].isLeader;
  }

  // At 3.5 s and above, two flags can be up at once.
  lemma TwoLeadersRun(s0: State, delay: int) returns (states: seq<State>, steps: seq<Step>)
    requires Init(s0) && |s0.all| >= 2 && delay >= 3500
    ensures Run(states, steps, delay) && states[0] == s0 && !AtMostOneLeader(states[|steps|])
  {
    var first, opening := SlowLeader(s0, delay);
    var second, ending := SecondLeader(first[|opening|], delay);
    RunsConcat(first, opening, second, ending, delay);
    states, steps := first + second[1..], opening + ending;
  }

  // The exact tolerance of the 10 s lock renewed every 3 s: half of what is left of the TTL after one interval.
  lemma ExclusionIffRepliesWithin3500(s0: State, delay: int)
    requires Init(s0) && |s0.all| >= 2 && 0 <= delay
    ensures delay < 3500 <==>
      forall states: seq<State>, steps: seq<Step> ::
        Run(states, steps, delay) && states[0] == s0 ==> AtMostOneLeader(states[|steps|])
  {
    if delay < 3500 {
      forall states: seq<State>, steps: seq<Step> | Run(states, steps, delay) && states[0] == s0
        ensures AtMostOneLeader(states[|steps|])
      {
        RunIsTimely(states, steps, delay, |steps|);
        var s := states[|steps|];
        forall i | 0 <= i < |s.all| && s.all[i].isLeader ensures AtMostOneLeader(s) {
          LeaderHoldsLock(states, steps, delay, |steps|, i);
        }
      }
    } else {
      var states, steps := TwoLeadersRun(s0, delay);
    }
  }
}
