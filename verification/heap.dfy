/** TaskHeap: the slice behind a P's local queue, as an array with a length that grows by append. */
module Heap {
  import opened Model
  import opened QueueSpec

  class TaskHeap {
    var data: array<Task>
    var size: nat

    ghost predicate Valid()
      reads this
    {
      size <= data.Length
    }

    ghost function Contents(): (s: seq<Task>)
      reads this, data
      requires Valid()
      ensures |s| == size
    {
      data[..size]
    }

    ghost function Tasks(): multiset<Task>
      reads this, data
      requires Valid()
    {
      multiset(Contents())
    }

    // What every operation on a P's queue finds and leaves.
    ghost predicate Ordered()
      reads this, data
    {
      Valid() && IsHeap(Contents())
    }

    constructor ()
      ensures Ordered() && Contents() == [] && fresh(data)
    {
      data := new Task[0];
      size := 0;
    }

    method Len() returns (n: nat)
      requires Valid()
      ensures n == |Contents()|
    {
      n := size;
    }

    method Peek() returns (top: Option<Task>)
      requires Ordered()
      ensures size == 0 ==> top == None
      ensures size > 0 ==> top.Some? && top.value in Tasks() && NoneBefore(Tasks(), top.value)
    {
      if size == 0 {
        return None;
      }
      RootPrecedesAll(Contents());
      assert Contents()[0] in Tasks();
      return Some(data[0]);
    }

    method Swap(i: nat, j: nat)
      requires Valid() && i < size && j < size
      modifies data
      ensures Contents() == Swapped(old(Contents()), i, j)
      ensures data[size..] == old(data[size..])
    {
      data[i], data[j] := data[j], data[i];
    }

    // heap.Interface's Push: append, growing the backing array when it is full.
    method Append(x: Task)
      requires Valid()
      modifies this, data
      ensures Valid() && (data == old(data) || fresh(data))
      ensures Contents() == old(Contents()) + [x]
    {
      if size == data.Length {
        var grown := new Task[2 * size + 1];
        forall k | 0 <= k < size {
          grown[k] := data[k];
        }
        data := grown;
      }
      data[size] := x;
      size := size + 1;
    }

    // heap.Interface's Pop: cut off the last element, keeping the array.
    method RemoveLast() returns (x: Task)
      requires Valid() && size > 0
      modifies `size
      ensures Valid() && x == old(Contents())[old(size) - 1]
      ensures Contents() == old(Contents())[..old(size) - 1]
    {
      size := size - 1;
      x := data[size];
    }

    // container/heap's up.
    method Up(start: nat)
      requires Valid() && RisingAt(Contents(), start)
      modifies data
      ensures Ordered() && Tasks() == old(Tasks())
    {
      var j: nat := start;
      while j > 0
        invariant Valid() && RisingAt(Contents(), j) && Tasks() == old(Tasks())
      {
        var i := (j - 1) / 2;
        assert Child(i, j);
        if !Less(data[j], data[i]) {
          break;
        }
        RiseStep(Contents(), i, j);
        SwapKeepsTasks(Contents(), i, j);
        Swap(i, j);
        j := i;
      }
    }

    // container/heap's down, on the first n elements.
    method Down(start: nat, n: nat)
      requires Valid() && n <= size && SinkingAt(Contents(), start, n)
      modifies data
      ensures IsHeap(Contents()[..n]) && Contents()[n..] == old(Contents()[n..])
      ensures Tasks() == old(Tasks())
    {
      var i := start;
      while 2 * i + 1 < n
        invariant Valid() && SinkingAt(Contents(), i, n) && Tasks() == old(Tasks())
        invariant Contents()[n..] == old(Contents()[n..])
        decreases n - i
      {
        var j := 2 * i + 1;
        if j + 1 < n && Less(data[j + 1], data[j]) {
          j := j + 1;
        }
        assert j == LeastChild(Contents(), i, n);
        if !Less(data[j], data[i]) {
          break;
        }
        SinkStep(Contents(), i, n);
        SwapKeepsTasks(Contents(), i, j);
        Swap(i, j);
        i := j;
      }
      SinkDone(Contents(), i, n);
    }

    // heap.Push.
    method HeapPush(x: Task)
      requires Ordered()
      modifies this, data
      ensures Ordered() && (data == old(data) || fresh(data))
      ensures Tasks() == old(Tasks()) + multiset{x}
    {
      Append(x);
      Up(size - 1);
    }

    // heap.Pop.
    method HeapPop() returns (x: Task)
      requires Ordered() && size > 0
      modifies this, data
      ensures Ordered() && data == old(data) && size == old(size) - 1
      ensures PopSpec(old(Tasks()), x, Tasks())
    {
      ghost var c := Contents();
      var n := size - 1;
      RootPrecedesAll(c);
      SwapKeepsTasks(c, 0, n);
      SinkStart(c);
      Swap(0, n);
      Down(0, n);
      ghost var d := Contents();
      assert d == d[..n] + [c[0]];
      x := RemoveLast();
      assert Contents() == d[..n];
    }
  }
}
