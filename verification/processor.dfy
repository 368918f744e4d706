/** A P of p.go: a local queue under a mutex and a one-slot wake channel. Each method is one critical
    section, or a critical section followed by the wake-up. */
module Processor {
  import opened Model
  import opened QueueSpec
  import opened Heap

  class P {
    const id: nat
    const localQueue: TaskHeap
    var wakeCh: bool // the one slot of the channel

    ghost predicate Ready()
      reads localQueue, localQueue.data
    {
      localQueue.Ordered()
    }

    ghost function Queue(): multiset<Task>
      reads localQueue, localQueue.data
      requires Ready()
    {
      localQueue.Tasks()
    }

    constructor (id: nat)
      ensures Ready() && Queue() == multiset{} && !wakeCh && this.id == id
      ensures fresh(localQueue) && fresh(localQueue.data)
    {
      this.id := id;
      this.localQueue := new TaskHeap();
      this.wakeCh := false;
    }

    method Wake()
      modifies `wakeCh
      ensures wakeCh
    {
      if !wakeCh {
        wakeCh := true;
      }
    }

    method Push(task: Task)
      requires Ready()
      modifies `wakeCh, localQueue, localQueue.data
      ensures Ready() && wakeCh && Queue() == old(Queue()) + multiset{task}
      ensures localQueue.data == old(localQueue.data) || fresh(localQueue.data)
    {
      localQueue.HeapPush(task);
      Wake();
    }

    method PushBatch(tasks: seq<Task>)
      requires Ready()
      modifies `wakeCh, localQueue, localQueue.data
      ensures Ready() && wakeCh && Queue() == old(Queue()) + multiset(tasks)
      ensures localQueue.data == old(localQueue.data) || fresh(localQueue.data)
    {
      for i := 0 to |tasks|
        invariant Ready() && Queue() == old(Queue()) + multiset(tasks[..i])
        invariant localQueue.data == old(localQueue.data) || fresh(localQueue.data)
      {
        assert tasks[..i + 1] == tasks[..i] + [tasks[i]];
        localQueue.HeapPush(tasks[i]);
      }
      assert tasks[..|tasks|] == tasks;
      Wake();
    }

    method PeekTop() returns (top: Option<Task>)
      requires Ready()
      ensures top.None? <==> Queue() == multiset{}
      ensures top.Some? ==> top.value in Queue() && NoneBefore(Queue(), top.value)
    {
      top := localQueue.Peek();
    }

    method LocalLen() returns (n: nat)
      requires Ready()
      ensures n == |Queue()|
    {
      n := localQueue.Len();
    }

    method StealHalf() returns (stolen: seq<Task>)
      requires Ready()
      modifies localQueue, localQueue.data
      ensures Ready() && localQueue.data == old(localQueue.data)
      ensures StealSpec(old(Queue()), stolen, Queue())
    {
      var len := localQueue.Len();
      var n := len / 2;
      if n == 0 {
        return [];
      }
      stolen := [];
      for i := 0 to n
        invariant Ready() && localQueue.data == old(localQueue.data)
        invariant |stolen| == i && localQueue.size == len - i
        invariant old(Queue()) == Queue() + multiset(stolen)
        invariant Sorted(stolen) && forall x :: x in stolen ==> NoneBefore(Queue(), x)
      {
        ghost var left := Queue();
        var task := localQueue.HeapPop();
        StealOneMore(left, stolen, task, Queue());
        stolen := stolen + [task];
      }
    }

    // schedule(): the local queue first, then half of another P's queue.
    method Schedule(ps: seq<P>) returns (task: Option<Task>, ghost stolen: seq<Task>, ghost victim: P)
      requires this in ps && AllReady(ps)
      modifies `wakeCh, Queues(ps), Arrays(ps)
      ensures AllReady(ps) && victim in ps
      ensures forall p :: p in ps && p != this && p != victim ==> p.Queue() == old(p.Queue())
      ensures old(Queue()) != multiset{} ==>
        task.Some? && PopSpec(old(Queue()), task.value, Queue()) && victim == this && stolen == []
      ensures task.None? ==> victim == this && forall p :: p in ps ==> p.Queue() == old(p.Queue())
      ensures task.None? ==> old(Queue()) == multiset{} && forall p :: p in ps && p != this ==> |p.Queue()| < 2
      ensures old(Queue()) == multiset{} && task.Some? ==>
        && victim != this && stolen != [] && task.value == stolen[0]
        && StealSpec(old(victim.Queue()), stolen, victim.Queue()) && Queue() == multiset(stolen[1..])
    {
      stolen, victim := [], this;
      if localQueue.size > 0 {
        var t := TakeLocal(ps);
        task := Some(t);
      } else {
        var half;
        half, victim := WorkSteal(ps, this);
        stolen := half;
        if |half| > 0 {
          PushRest(ps, half[1..]);
          task := Some(half[0]);
        } else {
          task := None;
        }
      }
    }

    // The two critical sections of schedule(): the other queues stay as they are.
    method TakeLocal(ghost ps: seq<P>) returns (t: Task)
      requires this in ps && AllReady(ps) && localQueue.size > 0
      modifies localQueue, localQueue.data
      ensures AllReady(ps) && PopSpec(old(Queue()), t, Queue())
      ensures forall p :: p in ps && p != this ==> p.Queue() == old(p.Queue())
    {
      t := localQueue.HeapPop();
    }

    method PushRest(ghost ps: seq<P>, rest: seq<Task>)
      requires this in ps && AllReady(ps)
      modifies `wakeCh, localQueue, localQueue.data
      ensures AllReady(ps) && Queue() == old(Queue()) + multiset(rest)
      ensures forall p :: p in ps && p != this ==> p.Queue() == old(p.Queue())
    {
      PushBatch(rest);
    }
  }

  // One round of workSteal's loop: the other queues stay as they are.
  method StealFrom(ps: seq<P>, v: P) returns (stolen: seq<Task>)
    requires v in ps && AllReady(ps)
    modifies v.localQueue, v.localQueue.data
    ensures v.Ready() && v.localQueue.data == old(v.localQueue.data)
    ensures StealSpec(old(v.Queue()), stolen, v.Queue())
    ensures stolen == [] ==> |v.Queue()| < 2 && v.Queue() == old(v.Queue())
    ensures forall p :: p in ps && p != v ==> p.Ready() && p.Queue() == old(p.Queue())
    ensures forall p :: p in ps && p != v ==> p.localQueue.data == old(p.localQueue.data)
  {
    stolen := v.StealHalf();
  }

  // workSteal(): half of the first other P that has at least two tasks.
  method WorkSteal(ps: seq<P>, thief: P) returns (stolen: seq<Task>, ghost victim: P)
    requires thief in ps && AllReady(ps)
    modifies Queues(ps), Arrays(ps)
    ensures AllReady(ps) && victim in ps && thief.localQueue.data == old(thief.localQueue.data)
    ensures forall p :: p in ps && p != victim ==> p.Queue() == old(p.Queue())
    ensures stolen == [] ==> victim == thief && thief.Queue() == old(thief.Queue())
    ensures stolen == [] ==> forall p :: p in ps && p != thief ==> |p.Queue()| < 2
    ensures stolen != [] ==> victim != thief && StealSpec(old(victim.Queue()), stolen, victim.Queue())
  {
    for i := 0 to |ps|
      invariant AllReady(ps) && forall p :: p in ps ==> p.Queue() == old(p.Queue())
      invariant forall p :: p in ps ==> p.localQueue.data == old(p.localQueue.data)
      invariant forall k :: 0 <= k < i && ps[k] != thief ==> |ps[k].Queue()| < 2
    {
      var v := ps[i];
      if v.id != thief.id {
        stolen := StealFrom(ps, v);
        if |stolen| > 0 {
          return stolen, v;
        }
      }
    }
    return [], thief;
  }

  // The P's of one scheduler have ids of their own and share no memory.
  ghost predicate Apart(ps: seq<P>)
    reads ps, Queues(ps)
  {
    forall p, q :: p in ps && q in ps && p != q ==>
      p.id != q.id && p.localQueue != q.localQueue && p.localQueue.data != q.localQueue.data
  }

  ghost predicate AllReady(ps: seq<P>)
    reads ps, Queues(ps), Arrays(ps)
  {
    Apart(ps) && forall p :: p in ps ==> p.Ready()
  }

  ghost function Queues(ps: seq<P>): set<object> { set p | p in ps :: p.localQueue }

  ghost function Arrays(ps: seq<P>): set<object>
    reads Queues(ps)
  {
    set p | p in ps :: p.localQueue.data
  }
}
