/** When the pop after the due check yields a task that is not due: only after a theft that took every due task, which
    is one from a queue of which no more than half was due. */
module EarlyPop {
  import opened Model
  import opened QueueSpec
  import opened ProcessorRun

  // The tasks triggered by this time.
  ghost function DueBy(q: multiset<Task>, until: int): (r: multiset<Task>)
    ensures forall x :: r[x] == if x.triggerTime <= until then q[x] else 0
    decreases |q|
  {
    if q == multiset{} then multiset{}
    else
      var x :| x in q;
      DueBy(q - multiset{x}, until) + if x.triggerTime <= until then multiset{x} else multiset{}
  }

  lemma {:induction false} SubBagCount(a: multiset<Task>, b: multiset<Task>)
    requires a <= b
    ensures |a| <= |b|
  {
    assert b == a + (b - a);
  }

  ghost predicate AllLater(q: multiset<Task>, until: int) { forall x :: x in q ==> x.triggerTime > until }

  // A theft leaves nothing that is due exactly if no more than half of the queue, rounded down, was.
  lemma TheftTakesAllDueIff(q: multiset<Task>, stolen: seq<Task>, left: multiset<Task>, until: int)
    requires StealSpec(q, stolen, left)
    ensures AllLater(left, until) <==> |DueBy(q, until)| <= |q| / 2
  {
    var due, taken := DueBy(q, until), multiset(stolen);
    if AllLater(left, until) {
      forall x ensures due[x] <= taken[x] {
        assert q[x] == left[x] + taken[x];
        assert x in left ==> x.triggerTime > until;
      }
      SubBagCount(due, taken);
    } else {
      var x :| x in left && x.triggerTime <= until;
      forall y ensures (taken + multiset{x})[y] <= due[y] {
        assert q[y] == left[y] + taken[y];
        if y in stolen {
          assert !Less(x, y);
        }
      }
      SubBagCount(taken + multiset{x}, due);
      assert |taken + multiset{x}| == |taken| + 1;
    }
  }

  // P i is robbed.
  predicate Robs(step: Step, i: nat) { step.Steal? && step.i != i && step.stolen != [] }

  // The next pop of a P that decided to pop, after a theft from any queue: whatever task it is, it is early if and
  // only if no more than half of the queue was due, and due otherwise.
  lemma PopAfterTheftIsEarlyIff(s: State, i: nat, theft: Step, t: Task)
    requires Enabled(s, theft) && i < 2 && Robs(theft, i) && s.P(i).pc == Popping
    requires Enabled(Do(s, theft), Local(i, Pop(t)))
    ensures t.triggerTime > s.clock <==> |DueBy(s.P(i).queue, s.clock)| <= |s.P(i).queue| / 2
  {
    RobbedKeepsLeft(s, i, theft, t);
    TheftTakesAllDueIff(s.P(i).queue, theft.stolen, theft.left, s.clock);
    PopIsEarlyIff(theft.left, t, s.clock);
  }

  lemma RobbedKeepsLeft(s: State, i: nat, theft: Step, t: Task)
    requires Enabled(s, theft) && i < 2 && Robs(theft, i) && Enabled(Do(s, theft), Local(i, Pop(t)))
    ensures t in theft.left && NoneBefore(theft.left, t) && StealSpec(s.P(i).queue, theft.stolen, theft.left)
  {
    assert Do(s, theft).P(i).queue == theft.left;
  }

  lemma PopIsEarlyIff(q: multiset<Task>, t: Task, clock: int)
    requires t in q && NoneBefore(q, t)
    ensures t.triggerTime > clock <==> AllLater(q, clock)
  {
    forall x | x in q ensures t.triggerTime <= x.triggerTime {
      assert !Less(x, t);
    }
  }

  // And such a pop is possible after every theft.
  lemma PopAfterTheftIsPossible(s: State, i: nat, theft: Step) returns (t: Task)
    requires Enabled(s, theft) && i < 2 && Robs(theft, i) && s.P(i).pc == Popping
    ensures Enabled(Do(s, theft), Local(i, Pop(t)))
  {
    assert |theft.left| > 0;
    t := SomeLeast(theft.left);
    assert Do(s, theft).P(i).queue == theft.left && Do(s, theft).P(i).pc == Popping;
  }

  lemma {:induction false} SomeLeast(q: multiset<Task>) returns (t: Task)
    requires |q| > 0
    ensures t in q && NoneBefore(q, t)
    decreases |q|
  {
    var x :| x in q;
    var rest := q - multiset{x};
    t := x;
    if |rest| > 0 {
      var u := SomeLeast(rest);
      if Less(u, x) {
        t := u;
      }
      forall y | y in q ensures !Less(y, t) {
        assert y == x || y in rest;
        LessIsStrictWeakOrder(y, u, x);
        LessIsStrictWeakOrder(x, u, x);
      }
    } else {
      assert q == rest + multiset{x};
    }
  }

  // ---- Over runs ----

  // By when a task counts as due for a P that has looked: the trigger of the task seen, then the clock.
  function Deadline(p: Proc, clock: int): int { if p.pc.Found? then p.pc.top.triggerTime else clock }

  predicate HasLooked(p: Proc) { p.pc.Found? || p.pc == Popping }

  // The step takes all that was due by the deadline from a P that has looked.
  ghost predicate Empties(s: State, step: Step, i: nat)
    requires i < 2
  {
    && Robs(step, i) && HasLooked(s.P(i))
    && |DueBy(s.P(i).queue, Deadline(s.P(i), s.clock))| <= |s.P(i).queue| / 2
  }

  // Since P i last looked, a theft emptied it of due tasks before step k.
  ghost predicate Emptied(states: seq<State>, steps: seq<Step>, i: nat, k: nat)
    requires |states| == |steps| + 1 && i < 2 && k <= |steps|
  {
    exists m :: 0 <= m < k && Empties(states[m], steps[m], i) && NoLook(steps, i, m, k)
  }

  ghost predicate NoLook(steps: seq<Step>, i: nat, m: nat, k: nat)
    requires m < k <= |steps|
  {
    forall l :: m < l < k ==> !(steps[l].Local? && steps[l].i == i && steps[l].a.PeekTask?)
  }

  ghost predicate DueOrEmptied(states: seq<State>, steps: seq<Step>, i: nat, k: nat)
    requires |states| == |steps| + 1 && i < 2 && k <= |steps|
  {
    var p := states[k].P(i);
    HasLooked(p) ==> !AllLater(p.queue, Deadline(p, states[k].clock)) || Emptied(states, steps, i, k)
  }

  // A P that has looked keeps a due task but for a theft that empties it.
  lemma StepKeepsDue(s: State, step: Step, i: nat)
    requires Enabled(s, step) && i < 2 && HasLooked(Do(s, step).P(i)) && !Empties(s, step, i)
    requires HasLooked(s.P(i)) ==> !AllLater(s.P(i).queue, Deadline(s.P(i), s.clock))
    ensures !AllLater(Do(s, step).P(i).queue, Deadline(Do(s, step).P(i), Do(s, step).clock))
  {
    var p, q := s.P(i), Do(s, step).P(i);
    if step.Local? && step.i == i {
      OwnStepKeepsDue(p, s.clock, step.a);
    } else {
      var x :| x in p.queue && x.triggerTime <= Deadline(p, s.clock);
      if Robs(step, i) {
        TheftTakesAllDueIff(p.queue, step.stolen, step.left, Deadline(p, s.clock));
      } else {
        assert x in q.queue;
      }
    }
  }

  lemma OwnStepKeepsDue(p: Proc, clock: int, a: Action)
    requires Can(p, clock, a) && HasLooked(Act(p, clock, a))
    requires HasLooked(p) ==> !AllLater(p.queue, Deadline(p, clock))
    ensures !AllLater(Act(p, clock, a).queue, Deadline(Act(p, clock, a), clock))
  {
    assert a.PeekTask? || a.CheckDue?;
  }

  lemma StepLeavesEmptied(states: seq<State>, steps: seq<Step>, i: nat, k: nat)
    requires |states| == |steps| + 1 && i < 2 && k < |steps|
    requires Emptied(states, steps, i, k) && !(steps[k].Local? && steps[k].i == i && steps[k].a.PeekTask?)
    ensures Emptied(states, steps, i, k + 1)
  {
    var m :| 0 <= m < k && Empties(states[m], steps[m], i) && NoLook(steps, i, m, k);
    StillNoLook(steps, i, m, k);
  }

  lemma StillNoLook(steps: seq<Step>, i: nat, m: nat, k: nat)
    requires m < k < |steps| && NoLook(steps, i, m, k)
    requires !(steps[k].Local? && steps[k].i == i && steps[k].a.PeekTask?)
    ensures NoLook(steps, i, m, k + 1)
  {
  }

  lemma {:induction false} RunKeepsDueOrEmptied(states: seq<State>, steps: seq<Step>, i: nat, k: nat)
    requires Run(states, steps) && Init(states[0]) && i < 2 && k <= |steps|
    ensures DueOrEmptied(states, steps, i, k)
    decreases k
  {
    if k > 0 && HasLooked(states[k].P(i)) {
      RunKeepsDueOrEmptied(states, steps, i, k - 1);
      var s, step := states[k - 1], steps[k - 1];
      if Empties(s, step, i) {
        assert NoLook(steps, i, k - 1, k);
        assert Emptied(states, steps, i, k);
      } else if HasLooked(s.P(i)) && AllLater(s.P(i).queue, Deadline(s.P(i), s.clock)) {
        LookComesFromTop(s, step, i);
        StepLeavesEmptied(states, steps, i, k - 1);
      } else {
        StepKeepsDue(s, step, i);
      }
    }
  }

  lemma LookComesFromTop(s: State, step: Step, i: nat)
    requires Enabled(s, step) && i < 2 && HasLooked(s.P(i))
    ensures !(step.Local? && step.i == i && step.a.PeekTask?)
  {
  }

  // In every run, a pop is of a task that is due unless, since the P looked at the top of its queue, a theft took
  // every task that was due: one from a queue of which no more than half was.
  lemma EarlyPopFollowsTheft(states: seq<State>, steps: seq<Step>, k: nat, i: nat, t: Task)
    requires Run(states, steps) && Init(states[0]) && k < |steps| && i < 2 && steps[k] == Local(i, Pop(t))
    ensures t.triggerTime <= states[k].clock || Emptied(states, steps, i, k)
  {
    RunKeepsDueOrEmptied(states, steps, i, k);
    PopIsEarlyIff(states[k].P(i).queue, t, states[k].clock);
  }
}
