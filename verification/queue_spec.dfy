/** The scheduling order of heap.go, and what a priority queue of tasks promises, on values. */
module QueueSpec {
  import opened Model

  function PriorityRank(p: string): int {
    if p == PRIORITY_HIGH then 3
    else if p == PRIORITY_MEDIUM then 2
    else if p == PRIORITY_LOW then 1
    else 0
  }

  // Trigger time, then priority, then enqueue time.
  predicate Less(a: Task, b: Task) {
    if a.triggerTime != b.triggerTime then a.triggerTime < b.triggerTime
    else if PriorityRank(a.priority) != PriorityRank(b.priority) then
      PriorityRank(a.priority) > PriorityRank(b.priority)
    else a.enqueueAt < b.enqueueAt
  }

  lemma LessIsStrictWeakOrder(a: Task, b: Task, c: Task)
    ensures !Less(a, a)
    ensures Less(a, b) && Less(b, c) ==> Less(a, c)
    ensures Less(a, c) ==> Less(a, b) || Less(b, c)
  {
  }

  // High before Medium before Low before any other string.
  predicate Outranks(p: string, q: string) {
    || (p == "High" && q != "High")
    || (p == "Medium" && q != "High" && q != "Medium")
    || (p == "Low" && q != "High" && q != "Medium" && q != "Low")
  }

  // The order by its three keys: an earlier trigger; at the same trigger a priority that outranks the other; and where
  // neither outranks the other, an earlier enqueue time.
  lemma LessMeans(a: Task, b: Task)
    ensures Less(a, b) <==>
      || a.triggerTime < b.triggerTime
      || (a.triggerTime == b.triggerTime && Outranks(a.priority, b.priority))
      || (a.triggerTime == b.triggerTime && !Outranks(a.priority, b.priority) && !Outranks(b.priority, a.priority)
          && a.enqueueAt < b.enqueueAt)
  {
  }

  // So a popped task has the least trigger; no queued task of its second outranks it, and none of equal priority was
  // enqueued earlier.
  lemma PopMeans(before: multiset<Task>, t: Task, after: multiset<Task>, x: Task)
    requires PopSpec(before, t, after) && x in before
    ensures t.triggerTime <= x.triggerTime
    ensures t.triggerTime == x.triggerTime ==> !Outranks(x.priority, t.priority)
    ensures t.triggerTime == x.triggerTime && t.priority == x.priority ==> t.enqueueAt <= x.enqueueAt
  {
    LessMeans(x, t);
  }

  ghost predicate Sorted(s: seq<Task>) {
    forall i, j :: 0 <= i < j < |s| ==> !Less(s[j], s[i])
  }

  ghost predicate NoneBefore(q: multiset<Task>, t: Task) {
    forall x :: x in q ==> !Less(x, t)
  }

  // One pop: some least task leaves.
  ghost predicate PopSpec(before: multiset<Task>, t: Task, after: multiset<Task>) {
    t in before && NoneBefore(before, t) && after == before - multiset{t}
  }

  // One steal: the first half leaves in order, rounded down.
  ghost predicate StealSpec(before: multiset<Task>, stolen: seq<Task>, after: multiset<Task>) {
    && |stolen| == |before| / 2
    && before == after + multiset(stolen)
    && Sorted(stolen)
    && forall x :: x in stolen ==> NoneBefore(after, x)
  }

  // Popping one more least task keeps a steal in order.
  lemma StealOneMore(left: multiset<Task>, stolen: seq<Task>, t: Task, rest: multiset<Task>)
    requires PopSpec(left, t, rest)
    requires Sorted(stolen) && forall x :: x in stolen ==> NoneBefore(left, x)
    ensures Sorted(stolen + [t]) && forall x :: x in stolen + [t] ==> NoneBefore(rest, x)
    ensures left + multiset(stolen) == rest + multiset(stolen + [t])
  {
    assert forall k :: 0 <= k < |stolen| ==> stolen[k] in stolen;
    assert forall y :: y in rest ==> y in left;
  }

  // k is one of the two children of p in the array layout of a binary heap.
  predicate Child(p: nat, k: nat) { k == 2 * p + 1 || k == 2 * p + 2 }

  ghost predicate IsHeap(c: seq<Task>) {
    forall p: nat, k: nat :: k < |c| && Child(p, k) ==> !Less(c[k], c[p])
  }

  lemma {:induction false} RootIsLeast(c: seq<Task>, k: nat)
    requires IsHeap(c) && k < |c|
    ensures !Less(c[k], c[0])
    decreases k
  {
    if k > 0 {
      var p := (k - 1) / 2;
      assert Child(p, k);
      RootIsLeast(c, p);
      LessIsStrictWeakOrder(c[k], c[p], c[0]);
    }
  }

  lemma RootPrecedesAll(c: seq<Task>)
    requires IsHeap(c) && |c| > 0
    ensures c[0] in multiset(c) && NoneBefore(multiset(c), c[0])
  {
    forall x | x in multiset(c) ensures !Less(x, c[0]) {
      var k :| 0 <= k < |c| && c[k] == x;
      RootIsLeast(c, k);
    }
  }

  function Swapped(c: seq<Task>, i: nat, j: nat): seq<Task>
    requires i < |c| && j < |c|
  {
    c[i := c[j]][j := c[i]]
  }

  lemma SwapKeepsTasks(c: seq<Task>, i: nat, j: nat)
    requires i < |c| && j < |c|
    ensures multiset(Swapped(c, i, j)) == multiset(c)
  {
  }

  // A heap but for the edge above j; the children of j are in order with j's parent.
  ghost predicate RisingAt(c: seq<Task>, j: nat) {
    && j < |c|
    && (forall p: nat, k: nat :: k < |c| && k != j && Child(p, k) ==> !Less(c[k], c[p]))
    && (forall p: nat, k: nat :: k < |c| && Child(p, j) && Child(j, k) ==> !Less(c[k], c[p]))
  }

  lemma RiseStep(c: seq<Task>, p: nat, j: nat)
    requires RisingAt(c, j) && Child(p, j) && Less(c[j], c[p])
    ensures RisingAt(Swapped(c, p, j), p)
  {
  }

  // The first n tasks are a heap but for the edges below i, whose children are in order with i's parent.
  ghost predicate SinkingAt(c: seq<Task>, i: nat, n: nat) {
    && n <= |c|
    && (forall p: nat, k: nat :: k < n && p != i && Child(p, k) ==> !Less(c[k], c[p]))
    && (forall p: nat, k: nat :: k < n && Child(p, i) && Child(i, k) ==> !Less(c[k], c[p]))
  }

  // The child that container/heap's down compares with i.
  function LeastChild(c: seq<Task>, i: nat, n: nat): (j: nat)
    requires n <= |c| && 2 * i + 1 < n
    ensures i < j < n && Child(i, j)
    ensures forall k: nat :: k < n && Child(i, k) ==> !Less(c[k], c[j])
  {
    if 2 * i + 2 < n && Less(c[2 * i + 2], c[2 * i + 1]) then 2 * i + 2 else 2 * i + 1
  }

  lemma SinkStep(c: seq<Task>, i: nat, n: nat)
    requires SinkingAt(c, i, n) && 2 * i + 1 < n && Less(c[LeastChild(c, i, n)], c[i])
    ensures SinkingAt(Swapped(c, i, LeastChild(c, i, n)), LeastChild(c, i, n), n)
    ensures Swapped(c, i, LeastChild(c, i, n))[n..] == c[n..]
  {
  }

  lemma SinkDone(c: seq<Task>, i: nat, n: nat)
    requires SinkingAt(c, i, n)
    requires 2 * i + 1 < n ==> !Less(c[LeastChild(c, i, n)], c[i])
    ensures IsHeap(c[..n])
  {
  }

  lemma SinkStart(c: seq<Task>)
    requires IsHeap(c) && |c| > 0
    ensures SinkingAt(Swapped(c, 0, |c| - 1), 0, |c| - 1)
    ensures Swapped(c, 0, |c| - 1)[|c| - 1..] == [c[0]]
  {
  }
}
