/** The logger's goroutines: callers of AddLog, the ticker, two workers, and StopLogStorage. */
module LogRun {
  import opened Model
  import opened LogBuffers

  datatype Phase =
    | Serving
    | Flushing       // StopLogStorage flushed the buffer
    | Stopping       // stopCh is closed, wg.Wait
    | Draining       // every goroutine is gone, flushQueue is closed
    | Stopped

  // A worker waits, writes a batch, or is gone.
  datatype Worker = Waiting | Busy(batch: seq<JobLog>) | Gone

  // added, written and lost record what AddLog was given, what reached the file, and what an error kept out.
  datatype State = State(buf: Buffers, w0: Worker, w1: Worker, ticking: bool, phase: Phase,
                         added: seq<JobLog>, written: seq<JobLog>, lost: seq<JobLog>)
  {
    function Work(i: nat): Worker { if i == 0 then w0 else w1 }

    function WithWork(i: nat, w: Worker): State { if i == 0 then this.(w0 := w) else this.(w1 := w) }
  }

  // mask says which entries of a batch reach the file.
  datatype Step =
    | Add(e: JobLog)
    | TickerFlush
    | Take(i: nat)
    | Write(i: nat, mask: seq<bool>)
    | StopFlush
    | CloseStopCh
    | WorkerExits(i: nat)
    | TickerExits
    | CloseQueue
    | Drain(mask: seq<bool>)
    | Finish

  function Pick(batch: seq<JobLog>, mask: seq<bool>, which: bool): seq<JobLog>
    requires |mask| == |batch|
  {
    if batch == [] then []
    else (if mask[0] == which then [batch[0]] else []) + Pick(batch[1..], mask[1..], which)
  }

  predicate Enabled(s: State, step: Step) {
    match step
    case Add(_) => s.phase == Serving
    case TickerFlush => s.ticking
    case Take(i) => i < 2 && s.Work(i) == Waiting && s.buf.queue != []
    case Write(i, mask) => i < 2 && s.Work(i).Busy? && |mask| == |s.Work(i).batch|
    case StopFlush => s.phase == Serving
    case CloseStopCh => s.phase == Flushing
    case WorkerExits(i) => i < 2 && s.Work(i) == Waiting && s.phase == Stopping
    case TickerExits => s.ticking && s.phase == Stopping
    case CloseQueue => s.phase == Stopping && s.w0 == Gone && s.w1 == Gone && !s.ticking
    case Drain(mask) => s.phase == Draining && s.buf.queue != [] && |mask| == |s.buf.queue[0]|
    case Finish => s.phase == Draining && s.buf.queue == []
  }

  function Wrote(s: State, batch: seq<JobLog>, mask: seq<bool>): State
    requires |mask| == |batch|
  {
    s.(written := s.written + Pick(batch, mask, true), lost := s.lost + Pick(batch, mask, false))
  }

  function Do(s: State, step: Step): State
    requires Enabled(s, step)
  {
    match step
    case Add(e) => s.(buf := Added(s.buf, e), added := s.added + [e])
    case TickerFlush => s.(buf := Flushed(s.buf))
    case Take(i) => s.WithWork(i, Busy(s.buf.queue[0])).(buf := s.buf.(queue := s.buf.queue[1..]))
    case Write(i, mask) => Wrote(s.WithWork(i, Waiting), s.Work(i).batch, mask)
    case StopFlush => s.(buf := Flushed(s.buf), phase := Flushing)
    case CloseStopCh => s.(phase := Stopping)
    case WorkerExits(i) => s.WithWork(i, Gone)
    case TickerExits => s.(ticking := false)
    case CloseQueue => s.(phase := Draining)
    case Drain(mask) => Wrote(s.(buf := s.buf.(queue := s.buf.queue[1..])), s.buf.queue[0], mask)
    case Finish => s.(phase := Stopped)
  }

  predicate Init(s: State) {
    s == State(Buffers([], [], []), Waiting, Waiting, true, Serving, [], [], [])
  }

  ghost predicate Run(states: seq<State>, steps: seq<Step>) {
    && |states| == |steps| + 1 && Init(states[0])
    && forall k :: 0 <= k < |steps| ==> Enabled(states[k], steps[k]) && states[k + 1] == Do(states[k], steps[k])
  }

  // ---- Counting one entry ----

  function Count(s: seq<JobLog>, e: JobLog): nat {
    if s == [] then 0 else (if s[0] == e then 1 else 0) + Count(s[1..], e)
  }

  function CountAll(q: seq<seq<JobLog>>, e: JobLog): nat {
    if q == [] then 0 else Count(q[0], e) + CountAll(q[1..], e)
  }

  lemma {:induction false} CountAppend(a: seq<JobLog>, b: seq<JobLog>, e: JobLog)
    ensures Count(a + b, e) == Count(a, e) + Count(b, e)
    decreases |a|
  {
    if a == [] {
      assert a + b == b;
    } else {
      assert (a + b)[1..] == a[1..] + b;
      CountAppend(a[1..], b, e);
    }
  }

  lemma {:induction false} CountAllAppend(q: seq<seq<JobLog>>, b: seq<JobLog>, e: JobLog)
    ensures CountAll(q + [b], e) == CountAll(q, e) + Count(b, e)
    decreases |q|
  {
    if q == [] {
      assert q + [b] == [b];
      assert [b][1..] == [];
    } else {
      assert (q + [b])[1..] == q[1..] + [b];
      CountAllAppend(q[1..], b, e);
    }
  }

  lemma {:induction false} PickSplits(batch: seq<JobLog>, mask: seq<bool>, e: JobLog)
    requires |mask| == |batch|
    ensures Count(batch, e) == Count(Pick(batch, mask, true), e) + Count(Pick(batch, mask, false), e)
    decreases |batch|
  {
    if batch != [] {
      PickSplits(batch[1..], mask[1..], e);
      CountAppend(if mask[0] then [batch[0]] else [], Pick(batch[1..], mask[1..], true), e);
      CountAppend(if mask[0] then [] else [batch[0]], Pick(batch[1..], mask[1..], false), e);
      assert [batch[0]][1..] == [];
    }
  }

  lemma {:induction false} PickAll(batch: seq<JobLog>, mask: seq<bool>)
    requires |mask| == |batch| && forall k :: 0 <= k < |mask| ==> mask[k]
    ensures Pick(batch, mask, false) == [] && Pick(batch, mask, true) == batch
    decreases |batch|
  {
    if batch != [] {
      PickAll(batch[1..], mask[1..]);
    }
  }

  function InWork(w: Worker, e: JobLog): nat {
    if w.Busy? then Count(w.batch, e) else 0
  }

  function InBuffers(b: Buffers, e: JobLog): nat {
    Count(b.buffer, e) + CountAll(b.queue, e) + CountAll(b.dropped, e)
  }

  // Every copy of e that was added is somewhere, once.
  predicate Conserved(s: State, e: JobLog) {
    Count(s.added, e) == InBuffers(s.buf, e) + InWork(s.w0, e) + InWork(s.w1, e) + Count(s.written, e) + Count(s.lost, e)
  }

  lemma FlushKeepsEntries(b: Buffers, e: JobLog)
    ensures InBuffers(Flushed(b), e) == InBuffers(b, e)
  {
    CountAllAppend(b.queue, b.buffer, e);
    CountAllAppend(b.dropped, b.buffer, e);
  }

  lemma AddKeepsEntries(b: Buffers, x: JobLog, e: JobLog)
    ensures InBuffers(Added(b, x), e) == InBuffers(b, e) + Count([x], e)
  {
    CountAppend(b.buffer, [x], e);
    FlushKeepsEntries(b.(buffer := b.buffer + [x]), e);
  }

  lemma WriteKeepsEntries(s: State, batch: seq<JobLog>, mask: seq<bool>, e: JobLog)
    requires |mask| == |batch|
    ensures var n := Wrote(s, batch, mask);
      Count(n.written, e) + Count(n.lost, e) == Count(s.written, e) + Count(s.lost, e) + Count(batch, e)
  {
    PickSplits(batch, mask, e);
    CountAppend(s.written, Pick(batch, mask, true), e);
    CountAppend(s.lost, Pick(batch, mask, false), e);
  }

  lemma BufferStepKeepsEntries(s: State, step: Step, e: JobLog)
    requires Conserved(s, e) && Enabled(s, step) && (step.Add? || step.TickerFlush? || step.StopFlush?)
    ensures Conserved(Do(s, step), e)
  {
    FlushKeepsEntries(s.buf, e);
    if step.Add? {
      AddKeepsEntries(s.buf, step.e, e);
      CountAppend(s.added, [step.e], e);
    }
  }

  lemma TakeKeepsEntries(s: State, i: nat, e: JobLog)
    requires Conserved(s, e) && Enabled(s, Take(i))
    ensures Conserved(Do(s, Take(i)), e)
  {
    assert CountAll(s.buf.queue, e) == Count(s.buf.queue[0], e) + CountAll(s.buf.queue[1..], e);
  }

  lemma WriteStepKeepsEntries(s: State, i: nat, mask: seq<bool>, e: JobLog)
    requires Conserved(s, e) && Enabled(s, Write(i, mask))
    ensures Conserved(Do(s, Write(i, mask)), e)
  {
    WriteKeepsEntries(s.WithWork(i, Waiting), s.Work(i).batch, mask, e);
  }

  lemma DrainKeepsEntries(s: State, mask: seq<bool>, e: JobLog)
    requires Conserved(s, e) && Enabled(s, Drain(mask))
    ensures Conserved(Do(s, Drain(mask)), e)
  {
    WriteKeepsEntries(s.(buf := s.buf.(queue := s.buf.queue[1..])), s.buf.queue[0], mask, e);
  }

  lemma StepKeepsEntries(s: State, step: Step, e: JobLog)
    requires Conserved(s, e) && Enabled(s, step)
    ensures Conserved(Do(s, step), e)
  {
    if step.Add? || step.TickerFlush? || step.StopFlush? {
      BufferStepKeepsEntries(s, step, e);
    } else if step.Take? {
      TakeKeepsEntries(s, step.i, e);
    } else if step.Write? {
      WriteStepKeepsEntries(s, step.i, step.mask, e);
    } else if step.Drain? {
      DrainKeepsEntries(s, step.mask, e);
    }
  }

  // The buffer stays below a batch, the queue within its capacity; once the stop begins, nothing is buffered.
  predicate Tidy(s: State) {
    && InBounds(s.buf)
    && (s.phase != Serving ==> s.buf.buffer == [])
    && (s.phase == Draining || s.phase == Stopped ==> s.w0 == Gone && s.w1 == Gone && !s.ticking)
    && (s.phase == Stopped ==> s.buf.queue == [])
  }

  lemma StepKeepsTidy(s: State, step: Step)
    requires Tidy(s) && Enabled(s, step)
    ensures Tidy(Do(s, step))
  {
  }

  // No system call failed and no entry failed to marshal.
  ghost predicate Faultless(steps: seq<Step>) {
    forall k, m :: 0 <= k < |steps| && (steps[k].Write? || steps[k].Drain?) && 0 <= m < |steps[k].mask| ==> steps[k].mask[m]
  }

  lemma {:induction false} EntriesAreConserved(states: seq<State>, steps: seq<Step>, k: nat, e: JobLog)
    requires Run(states, steps) && k < |states|
    ensures Conserved(states[k], e) && Tidy(states[k])
  {
    if k > 0 {
      EntriesAreConserved(states, steps, k - 1, e);
      StepKeepsEntries(states[k - 1], steps[k - 1], e);
      StepKeepsTidy(states[k - 1], steps[k - 1]);
    }
  }

  lemma FaultlessStepLosesNothing(s: State, step: Step)
    requires Enabled(s, step) && s.lost == []
    requires step.Write? || step.Drain? ==> forall m :: 0 <= m < |step.mask| ==> step.mask[m]
    ensures Do(s, step).lost == []
  {
    if step.Write? {
      PickAll(s.Work(step.i).batch, step.mask);
    } else if step.Drain? {
      PickAll(s.buf.queue[0], step.mask);
    }
  }

  lemma {:induction false} NothingIsLost(states: seq<State>, steps: seq<Step>, k: nat)
    requires Run(states, steps) && Faultless(steps) && k < |states|
    ensures states[k].lost == []
  {
    if k > 0 {
      NothingIsLost(states, steps, k - 1);
      FaultlessStepLosesNothing(states[k - 1], steps[k - 1]);
    }
  }

  // After StopLogStorage, without errors, every entry was written or was in a batch that found the queue full.
  lemma StopLosesOnlyDropped(states: seq<State>, steps: seq<Step>, e: JobLog)
    requires Run(states, steps) && Faultless(steps) && states[|steps|].phase == Stopped
    ensures Count(states[|steps|].added, e)
         == Count(states[|steps|].written, e) + CountAll(states[|steps|].buf.dropped, e)
  {
    EntriesAreConserved(states, steps, |steps|, e);
    NothingIsLost(states, steps, |steps|);
  }

  // ---- What is dropped ----

  // The entries that a step finds in the buffer, with the one it adds.
  function Gathered(s: State, step: Step): seq<JobLog> {
    s.buf.buffer + if step.Add? then [step.e] else []
  }

  // The step flushes: a tick, the stop, or the entry that completes a batch of 100.
  predicate Flushes(s: State, step: Step) {
    step.TickerFlush? || step.StopFlush? || (step.Add? && |s.buf.buffer| >= 99)
  }

  // A flush of something meets a full queue.
  predicate Drops(s: State, step: Step) { Flushes(s, step) && Gathered(s, step) != [] && |s.buf.queue| == 256 }

  // A batch is dropped only by a flush that meets a full queue, and is then all that was buffered; any other flush
  // queues all that was buffered.
  lemma DropsOnlyWhenFull(s: State, step: Step)
    requires Tidy(s) && Enabled(s, step)
    ensures Do(s, step).buf.dropped == if Drops(s, step) then s.buf.dropped + [Gathered(s, step)] else s.buf.dropped
    ensures Flushes(s, step) ==> |Gathered(s, step)| <= 100 && Do(s, step).buf.buffer == []
    ensures Flushes(s, step) && Gathered(s, step) != [] && !Drops(s, step) ==>
      Do(s, step).buf.queue == s.buf.queue + [Gathered(s, step)]
    ensures !Flushes(s, step) ==> Do(s, step).buf.buffer == Gathered(s, step)
  {
    assert s.buf.buffer + [] == s.buf.buffer;
  }

  ghost predicate DropsBefore(states: seq<State>, steps: seq<Step>, k: nat)
    requires k <= |steps| && |states| == |steps| + 1
  {
    exists m :: 0 <= m < k && Drops(states[m], steps[m])
  }

  lemma {:induction false} DroppedIffFull(states: seq<State>, steps: seq<Step>, k: nat)
    requires Run(states, steps) && k < |states|
    ensures DropsBefore(states, steps, k) <==> states[k].buf.dropped != []
    ensures forall b :: b in states[k].buf.dropped ==> b != []
  {
    if k > 0 {
      DroppedIffFull(states, steps, k - 1);
      RunIsTidy(states, steps, k - 1);
      DropsOnlyWhenFull(states[k - 1], steps[k - 1]);
      assert DropsBefore(states, steps, k) <==> DropsBefore(states, steps, k - 1) || Drops(states[k - 1], steps[k - 1]);
    }
  }

  lemma {:induction false} RunIsTidy(states: seq<State>, steps: seq<Step>, k: nat)
    requires Run(states, steps) && k < |states|
    ensures Tidy(states[k])
  {
    if k > 0 {
      RunIsTidy(states, steps, k - 1);
      StepKeepsTidy(states[k - 1], steps[k - 1]);
    }
  }

  lemma FirstIsCounted(q: seq<seq<JobLog>>)
    requires q != [] && q[0] != []
    ensures CountAll(q, q[0][0]) > 0
  {
  }

  // After the stop of a run without errors, every entry was written if and only if no flush met a full queue.
  lemma AllWrittenIffNeverFull(states: seq<State>, steps: seq<Step>)
    requires Run(states, steps) && Faultless(steps) && states[|steps|].phase == Stopped
    ensures (forall e :: Count(states[|steps|].added, e) == Count(states[|steps|].written, e))
       <==> !DropsBefore(states, steps, |steps|)
    ensures (forall k :: 0 <= k < |states| ==> |states[k].buf.queue| < 256) ==> !DropsBefore(states, steps, |steps|)
  {
    var n := states[|steps|];
    DroppedIffFull(states, steps, |steps|);
    forall e ensures Count(n.added, e) == Count(n.written, e) + CountAll(n.buf.dropped, e) {
      StopLosesOnlyDropped(states, steps, e);
    }
    if n.buf.dropped != [] {
      assert n.buf.dropped[0] in n.buf.dropped;
      FirstIsCounted(n.buf.dropped);
      assert Count(n.added, n.buf.dropped[0][0]) != Count(n.written, n.buf.dropped[0][0]);
    }
  }

  // ---- The stop does come to its end ----

  function AtStop(e: JobLog, w0: Worker, w1: Worker, ticking: bool, phase: Phase): State {
    State(Buffers([], [[e]], []), w0, w1, ticking, phase, [e], [], [])
  }

  function Stage(e: JobLog, k: nat): State {
    if k == 0 then State(Buffers([], [], []), Waiting, Waiting, true, Serving, [], [], [])
    else if k == 1 then State(Buffers([e], [], []), Waiting, Waiting, true, Serving, [e], [], [])
    else if k == 2 then AtStop(e, Waiting, Waiting, true, Flushing)
    else if k == 3 then AtStop(e, Waiting, Waiting, true, Stopping)
    else if k == 4 then AtStop(e, Gone, Waiting, true, Stopping)
    else if k == 5 then AtStop(e, Gone, Gone, true, Stopping)
    else if k == 6 then AtStop(e, Gone, Gone, false, Stopping)
    else if k == 7 then AtStop(e, Gone, Gone, false, Draining)
    else State(Buffers([], [], []), Gone, Gone, false, if k == 8 then Draining else Stopped, [e], [e], [])
  }

  function StageStep(e: JobLog, k: nat): Step {
    if k == 0 then Add(e)
    else if k == 1 then StopFlush
    else if k == 2 then CloseStopCh
    else if k == 3 then WorkerExits(0)
    else if k == 4 then WorkerExits(1)
    else if k == 5 then TickerExits
    else if k == 6 then CloseQueue
    else if k == 7 then Drain([true])
    else Finish
  }

  lemma NextStage(e: JobLog, k: nat)
    requires k < 9
    ensures Enabled(Stage(e, k), StageStep(e, k)) && Stage(e, k + 1) == Do(Stage(e, k), StageStep(e, k))
  {
    if k == 7 {
      PickAll([e], [true]);
      assert [[e]][1..] == [];
    }
  }

  // An entry that was buffered when the stop began is written on the way.
  lemma StopIsReached(e: JobLog) returns (states: seq<State>, steps: seq<Step>)
    ensures Run(states, steps) && Faultless(steps) && states[|steps|].phase == Stopped
    ensures states[|steps|].added == [e] == states[|steps|].written
  {
    states, steps := seq(10, k requires 0 <= k => Stage(e, k)), seq(9, k requires 0 <= k => StageStep(e, k));
    forall k | 0 <= k < 9 ensures Enabled(states[k], steps[k]) && states[k + 1] == Do(states[k], steps[k]) {
      NextStage(e, k);
    }
  }
}
