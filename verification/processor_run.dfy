/** The loops P.Run of the two P's of p.go, interleaved with each other and with the goroutines that push
    to them. A step is one critical section of a P's mutex, one operation on a wake channel, or one decision. */
module ProcessorRun {
  import opened Model
  import opened QueueSpec

  datatype Pc =
    | Top                                // at the head of the loop
    | Looking                            // peekTop saw nothing: schedule() is about to take the lock
    | Stealing                           // schedule() saw an empty queue
    | Idle                               // blocked until woken
    | PushingStolen(batch: seq<Task>)    // holds a stolen half
    | WakingStolen(first: Task)          // pushed all but the first stolen task, about to call wake()
    | Found(top: Task)                   // peekTop saw this task
    | Popping                            // the task seen was due; about to pop without looking again
    | Timed(top: Task)                   // blocked until the trigger time of top, or woken
    | Executing(task: Task)
    | Requeuing(task: Task)              // publish failed, about to push the task again
    | WakingSelf
    | Stopped
    | Panicked                           // heap.Pop on an empty queue

  // robbed records whether another P stole from this queue since the last peekTop.
  datatype Proc = Proc(pc: Pc, queue: multiset<Task>, wake: bool, robbed: bool)

  // What one P does by itself.
  datatype Action =
    | PeekEmpty
    | PeekTask(top: Task)
    | ScheduleLocal(t: Task)
    | ScheduleEmpty
    | PushStolen
    | WakeStolen
    | IdleWake
    | CheckDue
    | Pop(t: Task)
    | PopNothing
    | TimerFires
    | TimedWake
    | Finish                     // executeTask returns
    | PublishFails(again: Task)  // executeTask rewrites the task and is about to push it again
    | Requeue
    | WakeSelf
    | Stop
    | Restart                    // a new term of leadership

  ghost predicate Can(p: Proc, clock: int, a: Action) {
    match a
    case PeekEmpty => p.pc == Top && p.queue == multiset{}
    case PeekTask(top) => p.pc == Top && top in p.queue && NoneBefore(p.queue, top)
    case ScheduleLocal(t) => p.pc == Looking && t in p.queue && NoneBefore(p.queue, t)
    case ScheduleEmpty => p.pc == Looking && p.queue == multiset{}
    case PushStolen => p.pc.PushingStolen? && p.pc.batch != []
    case WakeStolen => p.pc.WakingStolen?
    case IdleWake => p.pc == Idle && p.wake
    case CheckDue => p.pc.Found?
    case Pop(t) => p.pc == Popping && t in p.queue && NoneBefore(p.queue, t)
    case PopNothing => p.pc == Popping && p.queue == multiset{}
    case TimerFires => p.pc.Timed? && p.pc.top.triggerTime <= clock
    case TimedWake => p.pc.Timed? && p.wake
    case Finish => p.pc.Executing?
    case PublishFails(again) => p.pc.Executing? && again.id == p.pc.task.id
    case Requeue => p.pc.Requeuing?
    case WakeSelf => p.pc == WakingSelf
    case Stop => p.pc == Top || p.pc == Idle || p.pc.Timed?
    case Restart => p.pc == Stopped
  }

  function NextPc(p: Proc, clock: int, a: Action): Pc {
    match a
    case PeekEmpty => Looking
    case PeekTask(top) => Found(top)
    case ScheduleLocal(t) => Executing(t)
    case ScheduleEmpty => Stealing
    case PushStolen => if p.pc.PushingStolen? && p.pc.batch != [] then WakingStolen(p.pc.batch[0]) else p.pc
    case WakeStolen => if p.pc.WakingStolen? then Executing(p.pc.first) else p.pc
    case IdleWake => Top
    case CheckDue =>
      if !p.pc.Found? then p.pc
      else if p.pc.top.triggerTime <= clock then Popping
      else Timed(p.pc.top)
    case Pop(t) => Executing(t)
    case PopNothing => Panicked
    case TimerFires => Top
    case TimedWake => Top
    case Finish => Top
    case PublishFails(again) => Requeuing(again)
    case Requeue => WakingSelf
    case WakeSelf => Top
    case Stop => Stopped
    case Restart => Top
  }

  function NextQueue(p: Proc, a: Action): multiset<Task> {
    if a.ScheduleLocal? || a.Pop? then p.queue - multiset{a.t}
    else if a.PushStolen? && p.pc.PushingStolen? && p.pc.batch != [] then p.queue + multiset(p.pc.batch[1..])
    else if a.Requeue? && p.pc.Requeuing? then p.queue + multiset{p.pc.task}
    else p.queue
  }

  function NextWake(p: Proc, a: Action): bool {
    if a.WakeStolen? || a.WakeSelf? then true
    else if a.IdleWake? || a.TimedWake? then false
    else p.wake
  }

  function Act(p: Proc, clock: int, a: Action): Proc {
    Proc(NextPc(p, clock, a), NextQueue(p, a), NextWake(p, a), p.robbed && !a.PeekTask?)
  }

  // Tasks an action hands to executeTask, and tasks it pushes again.
  function Taken(p: Proc, a: Action): multiset<Task> {
    if a.ScheduleLocal? || a.Pop? then multiset{a.t}
    else if a.WakeStolen? then InHand(p.pc)
    else multiset{}
  }

  function PushedAgain(p: Proc, a: Action): multiset<Task> {
    if a.Requeue? && p.pc.Requeuing? then multiset{p.pc.task} else multiset{}
  }

  // Stolen tasks that are in no queue.
  function InHand(pc: Pc): multiset<Task> {
    if pc.PushingStolen? then multiset(pc.batch)
    else if pc.WakingStolen? then multiset{pc.first}
    else multiset{}
  }

  // waking holds a target for each outside pusher that is between its unlock and its wake().
  // pushed and taken record every task pushed from outside or again, and every task given to executeTask.
  datatype State = State(p0: Proc, p1: Proc, waking: multiset<nat>, clock: int,
                         pushed: multiset<Task>, taken: multiset<Task>)
  {
    function P(i: nat): Proc { if i == 0 then p0 else p1 }

    function WithP(i: nat, p: Proc): State { if i == 0 then this.(p0 := p) else this.(p1 := p) }
  }

  datatype Step =
    | Deliver(i: nat, tasks: seq<Task>)  // Push or PushBatch by another goroutine, up to the unlock
    | Wake(i: nat)                       // that goroutine's wake()
    | Tick(seconds: nat)
    | Steal(i: nat, stolen: seq<Task>, left: multiset<Task>)
    | Local(i: nat, a: Action)

  function Other(i: nat): nat { if i == 0 then 1 else 0 }

  ghost predicate Enabled(s: State, step: Step) {
    match step
    case Deliver(i, _) => i < 2
    case Wake(i) => i < 2 && i in s.waking
    case Tick(_) => true
    case Steal(i, stolen, left) => i < 2 && s.P(i).pc == Stealing && StealSpec(s.P(Other(i)).queue, stolen, left)
    case Local(i, a) => i < 2 && Can(s.P(i), s.clock, a)
  }

  function Do(s: State, step: Step): State {
    match step
    case Deliver(i, tasks) =>
      s.WithP(i, s.P(i).(queue := s.P(i).queue + multiset(tasks)))
       .(waking := s.waking + multiset{i}, pushed := s.pushed + multiset(tasks))
    case Wake(i) => s.WithP(i, s.P(i).(wake := true)).(waking := s.waking - multiset{i})
    case Tick(seconds) => s.(clock := s.clock + seconds)
    case Steal(i, stolen, left) =>
      if stolen == [] then s.WithP(i, s.P(i).(pc := Idle))
      else s.WithP(i, s.P(i).(pc := PushingStolen(stolen)))
            .WithP(Other(i), s.P(Other(i)).(queue := left, robbed := true))
    case Local(i, a) =>
      s.WithP(i, Act(s.P(i), s.clock, a))
       .(pushed := s.pushed + PushedAgain(s.P(i), a), taken := s.taken + Taken(s.P(i), a))
  }

  // Two new P's.
  predicate Init(s: State) {
    && s.p0 == Proc(Top, multiset{}, false, false) && s.p1 == s.p0
    && s.waking == multiset{} && s.pushed == multiset{} && s.taken == multiset{}
  }

  ghost predicate Run(states: seq<State>, steps: seq<Step>) {
    && |states| == |steps| + 1
    && forall k :: 0 <= k < |steps| ==> Enabled(states[k], steps[k]) && states[k + 1] == Do(states[k], steps[k])
  }

  // What a P that is waiting, or that has decided to wait, has overlooked.
  ghost predicate Overlooked(p: Proc) {
    || ((p.pc == Stealing || p.pc == Idle) && p.queue != multiset{})
    || ((p.pc.Found? || p.pc.Timed?) && exists x :: x in p.queue && x.triggerTime < p.pc.top.triggerTime)
  }

  ghost predicate Attentive(p: Proc, coming: bool) {
    Overlooked(p) ==> p.wake || coming
  }

  ghost predicate Sound(p: Proc, clock: int) {
    && !p.pc.Panicked?
    && (p.pc.PushingStolen? ==> p.pc.batch != [])
    && (p.pc.Found? || p.pc == Popping ==> p.queue != multiset{})
    && (p.pc.Found? && !p.robbed ==> p.pc.top in p.queue)
    && (p.pc == Popping && !p.robbed ==> exists x :: x in p.queue && x.triggerTime <= clock)
  }

  // Copies of a task that are in a P's queue or in its hands.
  function Holds(p: Proc, t: Task): nat {
    p.queue[t] + InHand(p.pc)[t]
  }

  // Every copy of t pushed is in a queue, in a thief's hands, or was given to executeTask: once.
  predicate ConservedTask(s: State, t: Task) {
    s.pushed[t] == Holds(s.p0, t) + Holds(s.p1, t) + s.taken[t]
  }

  ghost predicate Watch(s: State, i: nat) {
    Attentive(s.P(i), i in s.waking) && Sound(s.P(i), s.clock)
  }

  ghost predicate Inv(s: State) {
    && (forall t :: ConservedTask(s, t))
    && Watch(s, 0) && Watch(s, 1)
  }

  lemma HeadAndTail(b: seq<Task>)
    requires b != []
    ensures multiset(b) == multiset{b[0]} + multiset(b[1..])
  {
    assert b == [b[0]] + b[1..];
  }

  // An action moves tasks but neither makes nor loses a copy of t.
  predicate Balanced(p: Proc, clock: int, a: Action, t: Task) {
    Holds(Act(p, clock, a), t) + Taken(p, a)[t] == Holds(p, t) + PushedAgain(p, a)[t]
  }

  lemma PopIsBalanced(p: Proc, clock: int, a: Action, t: Task)
    requires (a.ScheduleLocal? || a.Pop?) && Can(p, clock, a)
    ensures Balanced(p, clock, a, t)
  {
  }

  lemma PushStolenIsBalanced(p: Proc, clock: int, t: Task)
    requires Can(p, clock, PushStolen)
    ensures Balanced(p, clock, PushStolen, t)
  {
    HeadAndTail(p.pc.batch);
  }

  lemma RequeueIsBalanced(p: Proc, clock: int, t: Task)
    requires Can(p, clock, Requeue)
    ensures Balanced(p, clock, Requeue, t)
  {
  }

  lemma RestIsBalanced(p: Proc, clock: int, a: Action, t: Task)
    requires !a.ScheduleLocal? && !a.Pop? && !a.PushStolen? && !a.Requeue? && Can(p, clock, a)
    ensures Balanced(p, clock, a, t)
  {
  }

  lemma ActIsBalanced(p: Proc, clock: int, a: Action, t: Task)
    requires Can(p, clock, a)
    ensures Balanced(p, clock, a, t)
  {
    if a.ScheduleLocal? || a.Pop? {
      PopIsBalanced(p, clock, a, t);
    } else if a.PushStolen? {
      PushStolenIsBalanced(p, clock, t);
    } else if a.Requeue? {
      RequeueIsBalanced(p, clock, t);
    } else {
      RestIsBalanced(p, clock, a, t);
    }
  }

  lemma StealIsBalanced(before: multiset<Task>, stolen: seq<Task>, left: multiset<Task>, t: Task)
    requires StealSpec(before, stolen, left)
    ensures before[t] == left[t] + multiset(stolen)[t]
    ensures stolen == [] ==> left == before
    ensures before != multiset{} ==> left != multiset{} && forall x :: x in left ==> x in before
  {
  }

  lemma ActKeepsSound(p: Proc, clock: int, a: Action)
    requires Sound(p, clock) && Can(p, clock, a)
    ensures Sound(Act(p, clock, a), clock)
  {
  }

  lemma ActKeepsAttentive(p: Proc, coming: bool, clock: int, a: Action)
    requires Attentive(p, coming) && Sound(p, clock) && Can(p, clock, a)
    ensures Attentive(Act(p, clock, a), coming)
  {
    if a.PeekTask? {
      NothingIsDueBefore(p.queue, a.top);
    } else if !a.CheckDue? && !a.ScheduleEmpty? {
      RestOverlooksNothing(p, clock, a);
    }
  }

  lemma NothingIsDueBefore(q: multiset<Task>, top: Task)
    requires NoneBefore(q, top)
    ensures forall x :: x in q ==> top.triggerTime <= x.triggerTime
  {
  }

  lemma RestOverlooksNothing(p: Proc, clock: int, a: Action)
    requires Can(p, clock, a) && !a.PeekTask? && !a.CheckDue? && !a.ScheduleEmpty?
    ensures !Overlooked(Act(p, clock, a))
  {
    var pc := NextPc(p, clock, a);
    assert !pc.Found? && !pc.Timed? && !pc.Stealing? && !pc.Idle?;
  }

  // A victim keeps a task, and misses nothing new.
  lemma RobbedStaysSound(p: Proc, coming: bool, clock: int, stolen: seq<Task>, left: multiset<Task>)
    requires Attentive(p, coming) && Sound(p, clock) && StealSpec(p.queue, stolen, left)
    ensures Attentive(p.(queue := left, robbed := true), coming) && Sound(p.(queue := left, robbed := true), clock)
  {
  }

  // P i becomes q, having pushed and taken these tasks.
  lemma BalancedKeepsTask(s: State, i: nat, q: Proc, again: multiset<Task>, taken: multiset<Task>, t: Task)
    requires ConservedTask(s, t) && i < 2 && Holds(q, t) + taken[t] == Holds(s.P(i), t) + again[t]
    ensures ConservedTask(s.WithP(i, q).(pushed := s.pushed + again, taken := s.taken + taken), t)
  {
  }

  lemma StealKeepsTask(s: State, i: nat, stolen: seq<Task>, left: multiset<Task>, t: Task)
    requires ConservedTask(s, t) && Enabled(s, Steal(i, stolen, left))
    ensures ConservedTask(Do(s, Steal(i, stolen, left)), t)
  {
    StealIsBalanced(s.P(Other(i)).queue, stolen, left, t);
  }

  lemma StepKeepsTask(s: State, step: Step, t: Task)
    requires ConservedTask(s, t) && Enabled(s, step)
    ensures ConservedTask(Do(s, step), t)
  {
    match step
    case Local(i, a) =>
      ActIsBalanced(s.P(i), s.clock, a, t);
      BalancedKeepsTask(s, i, Act(s.P(i), s.clock, a), PushedAgain(s.P(i), a), Taken(s.P(i), a), t);
    case Steal(i, stolen, left) => StealKeepsTask(s, i, stolen, left, t);
    case Deliver(i, tasks) =>
      BalancedKeepsTask(s, i, s.P(i).(queue := s.P(i).queue + multiset(tasks)), multiset(tasks), multiset{}, t);
      assert s.taken + multiset{} == s.taken;
    case Wake(i) =>
    case Tick(seconds) =>
  }

  // A thief that finds nothing goes idle with an empty queue, or with a wake-up on its way.
  lemma ThiefStaysWatchful(p: Proc, coming: bool, clock: int, stolen: seq<Task>)
    requires Attentive(p, coming) && p.pc == Stealing
    ensures var q := p.(pc := if stolen == [] then Idle else PushingStolen(stolen)); Attentive(q, coming) && Sound(q, clock)
  {
  }

  lemma BothAreWatchful(s: State, i: nat, q: Proc, r: Proc)
    requires i < 2 && Attentive(q, i in s.waking) && Sound(q, s.clock)
    requires Attentive(r, Other(i) in s.waking) && Sound(r, s.clock)
    ensures var n := s.WithP(i, q).WithP(Other(i), r); Watch(n, 0) && Watch(n, 1)
  {
  }

  lemma StealKeepsWatch(s: State, i: nat, stolen: seq<Task>, left: multiset<Task>)
    requires Watch(s, 0) && Watch(s, 1) && Enabled(s, Steal(i, stolen, left))
    ensures var n := Do(s, Steal(i, stolen, left)); Watch(n, 0) && Watch(n, 1)
  {
    var p, v := s.P(i), Other(i);
    assert Watch(s, i) && Watch(s, v);
    ThiefStaysWatchful(p, i in s.waking, s.clock, stolen);
    if stolen == [] {
      BothAreWatchful(s, i, p.(pc := Idle), s.P(v));
    } else {
      RobbedStaysSound(s.P(v), v in s.waking, s.clock, stolen, left);
      BothAreWatchful(s, i, p.(pc := PushingStolen(stolen)), s.P(v).(queue := left, robbed := true));
    }
  }

  lemma DeliverKeepsWatch(s: State, i: nat, tasks: seq<Task>)
    requires Watch(s, 0) && Watch(s, 1) && Enabled(s, Deliver(i, tasks))
    ensures Watch(Do(s, Deliver(i, tasks)), 0) && Watch(Do(s, Deliver(i, tasks)), 1)
  {
    assert Watch(s, i) && Watch(s, Other(i));
    PushedStaysSound(s.P(i), s.clock, multiset(tasks));
    var n := s.(waking := s.waking + multiset{i});
    BothAreWatchful(n, i, s.P(i).(queue := s.P(i).queue + multiset(tasks)), s.P(Other(i)));
  }

  lemma PushedStaysSound(p: Proc, clock: int, more: multiset<Task>)
    requires Sound(p, clock)
    ensures Sound(p.(queue := p.queue + more), clock)
  {
  }

  lemma WakeOrTickKeepsWatch(s: State, step: Step)
    requires Watch(s, 0) && Watch(s, 1) && Enabled(s, step) && (step.Wake? || step.Tick?)
    ensures Watch(Do(s, step), 0) && Watch(Do(s, step), 1)
  {
  }

  lemma SoundKeepsWatch(s: State, i: nat, q: Proc, again: multiset<Task>, taken: multiset<Task>)
    requires Watch(s, 0) && Watch(s, 1) && i < 2 && Attentive(q, i in s.waking) && Sound(q, s.clock)
    ensures var n := s.WithP(i, q).(pushed := s.pushed + again, taken := s.taken + taken);
      Watch(n, 0) && Watch(n, 1)
  {
  }

  lemma StepKeepsWatch(s: State, step: Step)
    requires Watch(s, 0) && Watch(s, 1) && Enabled(s, step)
    ensures Watch(Do(s, step), 0) && Watch(Do(s, step), 1)
  {
    if step.Local? {
      var i, a := step.i, step.a;
      ActKeepsSound(s.P(i), s.clock, a);
      ActKeepsAttentive(s.P(i), i in s.waking, s.clock, a);
      SoundKeepsWatch(s, i, Act(s.P(i), s.clock, a), PushedAgain(s.P(i), a), Taken(s.P(i), a));
    } else if step.Steal? {
      StealKeepsWatch(s, step.i, step.stolen, step.left);
    } else if step.Deliver? {
      DeliverKeepsWatch(s, step.i, step.tasks);
    } else {
      WakeOrTickKeepsWatch(s, step);
    }
  }

  lemma StepKeepsInv(s: State, step: Step)
    requires Inv(s) && Enabled(s, step)
    ensures Inv(Do(s, step))
  {
    forall t ensures ConservedTask(Do(s, step), t) {
      StepKeepsTask(s, step, t);
    }
    StepKeepsWatch(s, step);
  }

  lemma {:induction false} RunKeepsInv(states: seq<State>, steps: seq<Step>, k: nat)
    requires Run(states, steps) && Init(states[0]) && k < |states|
    ensures Inv(states[k])
  {
    if k > 0 {
      RunKeepsInv(states, steps, k - 1);
      StepKeepsInv(states[k - 1], steps[k - 1]);
    }
  }

  // A P that waits although its queue holds work, or holds a task due before the one it timed for,
  // has a full wake slot or a pusher that is about to fill it.
  lemma NoLostWakeup(states: seq<State>, steps: seq<Step>, k: nat, i: nat)
    requires Run(states, steps) && Init(states[0]) && k < |states| && i < 2
    ensures var p := states[k].P(i);
      && (p.pc == Idle && p.queue != multiset{} ==> p.wake || i in states[k].waking)
      && (p.pc.Timed? && (exists x :: x in p.queue && x.triggerTime < p.pc.top.triggerTime)
          ==> p.wake || i in states[k].waking)
  {
    RunKeepsInv(states, steps, k);
  }

  // Run pops without looking again, but never from an empty queue: stealing leaves at least one task.
  lemma NeverPopsEmpty(states: seq<State>, steps: seq<Step>, k: nat, i: nat)
    requires Run(states, steps) && Init(states[0]) && k < |states| && i < 2
    ensures states[k].P(i).pc != Panicked && !Enabled(states[k], Local(i, PopNothing))
  {
    RunKeepsInv(states, steps, k);
  }

  // No task is lost or doubled, whatever the two P's steal from each other.
  lemma TasksAreConserved(states: seq<State>, steps: seq<Step>, k: nat)
    requires Run(states, steps) && Init(states[0]) && k < |states|
    ensures var s := states[k];
      s.pushed == s.p0.queue + s.p1.queue + InHand(s.p0.pc) + InHand(s.p1.pc) + s.taken
  {
    RunKeepsInv(states, steps, k);
    var s := states[k];
    forall t ensures s.pushed[t] == (s.p0.queue + s.p1.queue + InHand(s.p0.pc) + InHand(s.p1.pc) + s.taken)[t] {
      assert ConservedTask(s, t);
    }
  }

  // The pop after the due check yields a due task unless the other P stole from the queue in between.
  lemma PopIsDueUnlessRobbed(states: seq<State>, steps: seq<Step>, k: nat, i: nat, t: Task)
    requires Run(states, steps) && Init(states[0]) && k < |steps| && steps[k] == Local(i, Pop(t))
    requires !states[k].P(i).robbed
    ensures t.triggerTime <= states[k].clock
  {
    RunKeepsInv(states, steps, k);
  }
}
