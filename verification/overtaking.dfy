/** How long a task can wait in a P's queue, counted in pops. */
module Overtaking {
  import opened Model
  import opened QueueSpec
  import opened ProcessorRun

  // The tasks that are not ordered after t: those a queue may pop while t waits.
  ghost function NotAfter(q: multiset<Task>, t: Task): (r: multiset<Task>)
    ensures forall x :: r[x] == if Less(t, x) then 0 else q[x]
    decreases |q|
  {
    if q == multiset{} then multiset{}
    else
      var x :| x in q;
      NotAfter(q - multiset{x}, t) + if Less(t, x) then multiset{} else multiset{x}
  }

  lemma NotAfterSum(q: multiset<Task>, a: multiset<Task>, t: Task)
    ensures NotAfter(q + a, t) == NotAfter(q, t) + NotAfter(a, t)
  {
  }

  lemma LaterTriggersAreAfter(a: multiset<Task>, t: Task)
    requires forall x :: x in a ==> x.triggerTime > t.triggerTime
    ensures NotAfter(a, t) == multiset{}
  {
  }

  predicate PopsFrom(step: Step, i: nat) {
    step.Local? && step.i == i && (step.a.ScheduleLocal? || step.a.Pop?)
  }

  ghost function Pops(steps: seq<Step>, i: nat): nat {
    if steps == [] then 0
    else Pops(steps[..|steps| - 1], i) + if PopsFrom(steps[|steps| - 1], i) then 1 else 0
  }

  lemma {:induction false} PopsMeans(steps: seq<Step>, i: nat)
    ensures Pops(steps, i) == |PopSteps(steps, i)|
    decreases |steps|
  {
    if steps != [] {
      var n := |steps| - 1;
      PopsMeans(steps[..n], i);
      assert PopSteps(steps, i) == PopSteps(steps[..n], i) + if PopsFrom(steps[n], i) then {n} else {};
    } else {
      assert PopSteps(steps, i) == {};
    }
  }

  // The steps by which P i takes a task from its own queue.
  function PopSteps(steps: seq<Step>, i: nat): set<nat> {
    set k: nat | k < |steps| && steps[k].Local? && steps[k].i == i && (steps[k].a.ScheduleLocal? || steps[k].a.Pop?)
  }

  // The tasks a step adds to queue i.
  function Arrival(s: State, step: Step, i: nat): multiset<Task> {
    if step.Deliver? && step.i == i then multiset(step.tasks)
    else if step.Local? && step.i == i && step.a.Requeue? then PushedAgain(s.P(i), step.a)
    else if step.Local? && step.i == i && step.a.PushStolen? && s.P(i).pc.PushingStolen? && s.P(i).pc.batch != [] then
      multiset(s.P(i).pc.batch[1..])
    else multiset{}
  }

  ghost function Arrivals(states: seq<State>, steps: seq<Step>, i: nat): multiset<Task>
    requires |states| == |steps| + 1
    decreases |steps|
  {
    var n := |steps|;
    if n == 0 then multiset{}
    else Arrivals(states[..n], steps[..n - 1], i) + Arrival(states[n - 1], steps[n - 1], i)
  }

  // A step pops a least task of queue i, removes some others, or adds its arrivals.
  ghost predicate QueueEffect(q: multiset<Task>, step: Step, i: nat, arrival: multiset<Task>, r: multiset<Task>) {
    if PopsFrom(step, i) then PopSpec(q, step.a.t, r)
    else if step.Steal? && step.i != i then r <= q
    else r == q + arrival
  }

  lemma ActHasQueueEffect(s: State, step: Step, i: nat)
    requires Enabled(s, step) && i < 2 && step.Local? && step.i == i
    ensures QueueEffect(s.P(i).queue, step, i, Arrival(s, step, i), NextQueue(s.P(i), step.a))
  {
  }

  lemma HasQueueEffect(s: State, step: Step, i: nat)
    requires Enabled(s, step) && i < 2
    ensures QueueEffect(s.P(i).queue, step, i, Arrival(s, step, i), Do(s, step).P(i).queue)
  {
    if step.Local? && step.i == i {
      ActHasQueueEffect(s, step, i);
    } else if step.Steal? && step.i != i {
      assert step.stolen == [] || step.left <= s.P(i).queue;
    } else {
      assert s.P(i).queue + multiset{} == s.P(i).queue;
    }
  }

  // The tasks a step takes from queue i, by a pop or a theft.
  function Departure(s: State, step: Step, i: nat): multiset<Task> {
    if PopsFrom(step, i) then multiset{step.a.t}
    else if step.Steal? && step.i != i then multiset(step.stolen)
    else multiset{}
  }

  ghost function Departures(states: seq<State>, steps: seq<Step>, i: nat): multiset<Task>
    requires |states| == |steps| + 1
    decreases |steps|
  {
    var n := |steps|;
    if n == 0 then multiset{}
    else Departures(states[..n], steps[..n - 1], i) + Departure(states[n - 1], steps[n - 1], i)
  }

  lemma StepIsBalanced(s: State, step: Step, i: nat, t: Task)
    requires Enabled(s, step) && i < 2
    ensures Balanced(s, step, Do(s, step), i, t)
  {
    HasQueueEffect(s, step, i);
    if step.Steal? && step.i != i {
      assert step.stolen == [] ==> Do(s, step).P(i).queue == s.P(i).queue;
      assert step.stolen == [] ==> multiset(step.stolen) == multiset{};
    }
  }

  ghost predicate Balanced(s: State, step: Step, n: State, i: nat, t: Task) {
    s.P(i).queue[t] + Arrival(s, step, i)[t] == n.P(i).queue[t] + Departure(s, step, i)[t]
  }

  lemma {:induction false} BalancesAdd(states: seq<State>, steps: seq<Step>, i: nat, t: Task)
    requires |states| == |steps| + 1
    requires forall k :: 0 <= k < |steps| ==> Balanced(states[k], steps[k], states[k + 1], i, t)
    ensures states[0].P(i).queue[t] + Arrivals(states, steps, i)[t]
         == states[|steps|].P(i).queue[t] + Departures(states, steps, i)[t]
    decreases |steps|
  {
    var n := |steps|;
    if n > 0 {
      BalancesAdd(states[..n], steps[..n - 1], i, t);
      assert Balanced(states[n - 1], steps[n - 1], states[n], i, t);
    }
  }

  // Arrivals are exactly what comes into the queue: with what was there, they are what left and what is there now.
  lemma ArrivalsMean(states: seq<State>, steps: seq<Step>, i: nat)
    requires Run(states, steps) && i < 2
    ensures states[0].P(i).queue + Arrivals(states, steps, i) == states[|steps|].P(i).queue + Departures(states, steps, i)
  {
    forall t ensures (states[0].P(i).queue + Arrivals(states, steps, i))[t]
                  == (states[|steps|].P(i).queue + Departures(states, steps, i))[t]
    {
      forall k | 0 <= k < |steps| ensures Balanced(states[k], steps[k], states[k + 1], i, t) {
        StepIsBalanced(states[k], steps[k], i, t);
      }
      BalancesAdd(states, steps, i, t);
    }
  }

  lemma PopCounts(q: multiset<Task>, x: Task, r: multiset<Task>, t: Task)
    requires PopSpec(q, x, r) && t in q
    ensures |NotAfter(r, t)| + 1 == |NotAfter(q, t)|
  {
    assert q == r + multiset{x};
    NotAfterSum(r, multiset{x}, t);
    assert NotAfter(multiset{x}, t) == multiset{x};
  }

  lemma TheftCounts(q: multiset<Task>, r: multiset<Task>, t: Task)
    requires r <= q
    ensures |NotAfter(r, t)| <= |NotAfter(q, t)|
  {
    assert q == r + (q - r);
    NotAfterSum(r, q - r, t);
  }

  // What a step does to queue i, seen from a task that stays.
  ghost predicate StepBound(s: State, step: Step, n: State, i: nat, t: Task) {
    |NotAfter(n.P(i).queue, t)| + (if PopsFrom(step, i) then 1 else 0)
      <= |NotAfter(s.P(i).queue, t)| + |NotAfter(Arrival(s, step, i), t)|
  }

  lemma StepIsBounded(s: State, step: Step, i: nat, t: Task)
    requires Enabled(s, step) && i < 2 && t in s.P(i).queue
    ensures StepBound(s, step, Do(s, step), i, t)
  {
    HasQueueEffect(s, step, i);
    var q, r := s.P(i).queue, Do(s, step).P(i).queue;
    if PopsFrom(step, i) {
      PopCounts(q, step.a.t, r, t);
    } else if step.Steal? && step.i != i {
      TheftCounts(q, r, t);
    } else {
      NotAfterSum(q, Arrival(s, step, i), t);
    }
  }

  lemma {:induction false} BoundsAdd(states: seq<State>, steps: seq<Step>, i: nat, t: Task)
    requires |states| == |steps| + 1
    requires forall k :: 0 <= k < |steps| ==> StepBound(states[k], steps[k], states[k + 1], i, t)
    ensures Pops(steps, i) + |NotAfter(states[|steps|].P(i).queue, t)|
         <= |NotAfter(states[0].P(i).queue, t)| + |NotAfter(Arrivals(states, steps, i), t)|
    decreases |steps|
  {
    var n := |steps|;
    if n > 0 {
      var before := Arrivals(states[..n], steps[..n - 1], i);
      BoundsAdd(states[..n], steps[..n - 1], i, t);
      assert StepBound(states[n - 1], steps[n - 1], states[n], i, t);
      NotAfterSum(before, Arrival(states[n - 1], steps[n - 1], i), t);
    }
  }

  // While t waits in a queue, the queue is popped at most once for each other task not ordered after t
  // that was there at the start or arrived since. Tasks with a later trigger do not count, whatever
  // their priority, and stealing from the queue never raises the count.
  lemma BoundedOvertaking(states: seq<State>, steps: seq<Step>, i: nat, t: Task)
    requires Run(states, steps) && i < 2 && forall k :: 0 <= k < |states| ==> t in states[k].P(i).queue
    ensures Pops(steps, i) < |NotAfter(states[0].P(i).queue, t)| + |NotAfter(Arrivals(states, steps, i), t)|
  {
    forall k | 0 <= k < |steps| ensures StepBound(states[k], steps[k], states[k + 1], i, t) {
      StepIsBounded(states[k], steps[k], i, t);
    }
    BoundsAdd(states, steps, i, t);
    assert t in NotAfter(states[|steps|].P(i).queue, t);
  }
}
