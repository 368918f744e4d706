/** The lock key of leader.go and its three operations. Times are milliseconds. */
module LeaderElection {
  import opened Model

  const LOCK_TTL := 10000
  const RENEW_INTERVAL := 3000

  datatype Lock = Lock(owner: nat, expiry: int)

  // What Redis sees of the key at a given time: nothing once the TTL has run out.
  function Live(lock: Option<Lock>, now: int): Option<Lock> {
    if lock.Some? && now < lock.value.expiry then lock else None
  }

  predicate Holds(lock: Option<Lock>, me: nat, now: int) {
    Live(lock, now).Some? && lock.value.owner == me
  }

  // SET key me NX EX 10.
  function SetNX(lock: Option<Lock>, me: nat, now: int): (Option<Lock>, bool) {
    if Live(lock, now).None? then (Some(Lock(me, now + LOCK_TTL)), true) else (lock, false)
  }

  // renewScript.
  function Renew(lock: Option<Lock>, me: nat, now: int): (Option<Lock>, bool) {
    if Holds(lock, me, now) then (Some(Lock(me, now + LOCK_TTL)), true) else (lock, false)
  }

  // releaseScript.
  function Release(lock: Option<Lock>, me: nat, now: int): Option<Lock> {
    if Holds(lock, me, now) then None else lock
  }

  // No operation of one instance touches a lock that another one holds.
  lemma OthersCannotTouch(lock: Option<Lock>, owner: nat, me: nat, now: int)
    requires Holds(lock, owner, now) && me != owner
    ensures SetNX(lock, me, now) == (lock, false)
    ensures Renew(lock, me, now) == (lock, false)
    ensures Release(lock, me, now) == lock
  {
  }

  class LockKey {
    var lock: Option<Lock>

    constructor ()
      ensures lock == None
    {
      lock := None;
    }
  }

  // Whether Redis ran a request, and whether its answer arrived in time.
  datatype Call = Call(ran: bool, answered: bool)

  predicate Known(call: Call) { call.ran && call.answered }

  // One scheduler instance. Each call finds Redis at some time now.
  class Elector {
    const instanceID: nat
    var isLeader: bool

    constructor (instanceID: nat)
      ensures this.instanceID == instanceID && !isLeader
    {
      this.instanceID := instanceID;
      isLeader := false;
    }

    // tryAcquire and the assignment in WaitForLeadership. A lock taken without an answer is not used.
    method TryAcquire(key: LockKey, now: int, call: Call) returns (acquired: bool)
      modifies key, `isLeader
      ensures acquired <==> Known(call) && Live(old(key.lock), now).None?
      ensures key.lock ==
        if call.ran && Live(old(key.lock), now).None? then Some(Lock(instanceID, now + LOCK_TTL)) else old(key.lock)
      ensures isLeader == (old(isLeader) || acquired)
    {
      acquired := false;
      if call.ran {
        var (lock, ok) := SetNX(key.lock, instanceID, now);
        key.lock := lock;
        acquired := ok && call.answered;
      }
      if acquired {
        isLeader := true;
      }
    }

    // WaitForLeadership's loop: calls until one succeeds or the context ends.
    method WaitForLeadership(key: LockKey, times: seq<int>, calls: seq<Call>) returns (leads: bool, tries: nat)
      requires |times| == |calls|
      modifies key, `isLeader
      ensures tries <= |calls| && (leads ==> tries > 0 && Known(calls[tries - 1]))
      ensures leads ==> isLeader && key.lock == Some(Lock(instanceID, times[tries - 1] + LOCK_TTL))
      ensures !leads ==> tries == |calls| && isLeader == old(isLeader)
    {
      leads, tries := false, 0;
      while tries < |calls| && !leads
        invariant tries <= |calls| && (leads ==> tries > 0 && Known(calls[tries - 1]))
        invariant leads ==> isLeader && key.lock == Some(Lock(instanceID, times[tries - 1] + LOCK_TTL))
        invariant !leads ==> isLeader == old(isLeader)
        decreases |calls| - tries, !leads
      {
        leads := TryAcquire(key, times[tries], calls[tries]);
        tries := tries + 1;
      }
    }

    // One round of renewLoop; false means that the loop closed lostCh and ended.
    method RenewOnce(key: LockKey, now: int, call: Call) returns (kept: bool)
      modifies key, `isLeader
      ensures kept <==> Known(call) && Holds(old(key.lock), instanceID, now)
      ensures key.lock ==
        if call.ran && Holds(old(key.lock), instanceID, now) then Some(Lock(instanceID, now + LOCK_TTL))
        else old(key.lock)
      ensures isLeader == (old(isLeader) && kept)
    {
      kept := false;
      if call.ran {
        var (lock, ok) := Renew(key.lock, instanceID, now);
        key.lock := lock;
        kept := ok && call.answered;
      }
      if !kept {
        isLeader := false;
      }
    }

    // Release. The flag stays up when the answer is lost, although the lock may be gone.
    method ReleaseLock(key: LockKey, now: int, call: Call)
      modifies key, `isLeader
      ensures isLeader == (old(isLeader) && !Known(call))
      ensures key.lock ==
        if old(isLeader) && call.ran && Holds(old(key.lock), instanceID, now) then None else old(key.lock)
    {
      if isLeader {
        if call.ran {
          key.lock := Release(key.lock, instanceID, now);
        }
        if call.ran && call.answered {
          isLeader := false;
        }
      }
    }
  }
}
