/** The logger's buffer and flush queue (buffer.go), on values and as the object that reuses one array. */
module LogBuffers {
  import opened Model

  const BATCH_SIZE := 100
  const QUEUE_SIZE := 256

  // dropped collects the batches that found the queue full.
  datatype Buffers = Buffers(buffer: seq<JobLog>, queue: seq<seq<JobLog>>, dropped: seq<seq<JobLog>>)

  // flushLocked
  function Flushed(b: Buffers): Buffers {
    if b.buffer == [] then b
    else if |b.queue| < QUEUE_SIZE then Buffers([], b.queue + [b.buffer], b.dropped)
    else Buffers([], b.queue, b.dropped + [b.buffer])
  }

  // AddLog
  function Added(b: Buffers, e: JobLog): Buffers {
    var c := b.(buffer := b.buffer + [e]);
    if |c.buffer| >= BATCH_SIZE then Flushed(c) else c
  }

  predicate InBounds(b: Buffers) { |b.buffer| < BATCH_SIZE && |b.queue| <= QUEUE_SIZE }

  class LogBuffer {
    const buffer: array<JobLog>     // the backing array, reused after every flush
    var len: nat
    var flushQueue: seq<array<JobLog>>
    ghost var dropped: seq<seq<JobLog>>

    // Queued batches live in arrays of their own.
    ghost predicate Valid()
      reads this
    {
      && buffer.Length == BATCH_SIZE && len <= BATCH_SIZE
      && forall k :: 0 <= k < |flushQueue| ==> flushQueue[k] != buffer
    }

    ghost function Queued(): seq<seq<JobLog>>
      reads this, flushQueue
    {
      seq(|flushQueue|, k requires 0 <= k < |flushQueue| reads this, flushQueue => flushQueue[k][..])
    }

    ghost function Contents(): Buffers
      reads this, buffer, flushQueue
      requires Valid()
    {
      Buffers(buffer[..len], Queued(), dropped)
    }

    constructor ()
      ensures Valid() && Contents() == Buffers([], [], [])
      ensures fresh(buffer)
    {
      buffer := new JobLog[BATCH_SIZE];
      len, flushQueue, dropped := 0, [], [];
    }

    method FlushLocked()
      requires Valid()
      modifies `len, `flushQueue, `dropped
      ensures Valid() && Contents() == Flushed(old(Contents()))
      ensures old(flushQueue) <= flushQueue && len == 0
      ensures old(len) == 0 ==> flushQueue == old(flushQueue) && dropped == old(dropped)
      ensures 0 < old(len) && |old(flushQueue)| < 256 ==> dropped == old(dropped)
      ensures 0 < old(len) && |old(flushQueue)| < 256 ==> Queued() == old(Queued()) + [old(buffer[..len])]
      ensures 0 < old(len) && |old(flushQueue)| >= 256 ==> flushQueue == old(flushQueue)
      ensures 0 < old(len) && |old(flushQueue)| >= 256 ==> dropped == old(dropped) + [old(buffer[..len])]
    {
      if len == 0 {
        return;
      }
      var batch := new JobLog[len];
      for k := 0 to len
        invariant Valid() && unchanged(this) && batch != buffer
        invariant forall i :: 0 <= i < k ==> batch[i] == buffer[i]
        invariant forall q :: 0 <= q < |flushQueue| ==> flushQueue[q] != batch && flushQueue[q][..] == old(Queued())[q]
      {
        batch[k] := buffer[k];
      }
      assert batch[..] == buffer[..len];
      len := 0;
      if |flushQueue| < QUEUE_SIZE {
        flushQueue := flushQueue + [batch];
        assert Queued() == old(Queued()) + [batch[..]];
      } else {
        dropped := dropped + [batch[..]];
        assert Queued() == old(Queued());
      }
    }

    // Entries go into the reused array; no queued batch changes.
    method AddLog(e: JobLog)
      requires Valid() && len < BATCH_SIZE
      modifies `len, `flushQueue, `dropped, buffer
      ensures Valid() && len < BATCH_SIZE && Contents() == Added(old(Contents()), e)
      ensures old(len) < 99 ==> buffer[..len] == old(buffer[..len]) + [e] && flushQueue == old(flushQueue)
      ensures old(len) == 99 ==> len == 0
      ensures old(len) < 99 || |old(flushQueue)| < 256 ==> dropped == old(dropped)
      ensures old(len) == 99 && |old(flushQueue)| < 256 ==> Queued() == old(Queued()) + [old(buffer[..len]) + [e]]
      ensures old(len) == 99 && |old(flushQueue)| >= 256 ==> dropped == old(dropped) + [old(buffer[..len]) + [e]]
      ensures old(flushQueue) <= flushQueue
      ensures forall a :: a in old(flushQueue) ==> a[..] == old(a[..])
    {
      buffer[len] := e;
      len := len + 1;
      assert buffer[..len] == old(buffer[..len]) + [e];
      assert Queued() == old(Queued());
      if len >= BATCH_SIZE {
        FlushLocked();
      }
    }

    // A worker takes the oldest batch.
    method Receive() returns (batch: array<JobLog>)
      requires Valid() && flushQueue != []
      modifies `flushQueue
      ensures Valid() && batch != buffer && batch[..] == old(Queued())[0]
      ensures Contents() == old(Contents()).(queue := old(Queued())[1..])
    {
      batch := flushQueue[0];
      flushQueue := flushQueue[1..];
      assert Queued() == old(Queued())[1..];
    }
  }
}
