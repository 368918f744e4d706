/** What the hourly cleaner does to jobs that were submitted again after they ended. */
module Cleaner {
  import opened Model
  import opened Redis
  import opened Fsm
  import Scheduler
  import Service

  lemma CleanOneEffect(db: Db, id: Id, j: Id)
    ensures var r := ApplyAll(db, CleanCmds(id));
      ViewOf(r, j) == (if j == id then ViewOf(db, j).(state := None, terminal := None) else ViewOf(db, j))
      && Get(r.detail, j) == (if j == id then None else Get(db.detail, j))
  {
    var cs := CleanCmds(id);
    var d1 := Apply(db, cs[0]);
    var d2 := Apply(d1, cs[1]);
    assert cs[1..] == [cs[1], cs[2]] && cs[1..][1..] == [cs[2]] && [cs[2]][1..] == [];
    assert ApplyAll(d2, [cs[2]]) == ApplyAll(Apply(d2, cs[2]), []);
    assert ApplyAll(d1, cs[1..]) == Apply(d2, cs[2]);
    assert ApplyAll(db, cs) == Apply(d2, cs[2]);
  }

  lemma {:induction false} CleanAllEffect(db: Db, ids: seq<Id>, j: Id)
    ensures var r := ApplyAll(db, CleanAllCmds(ids));
      ViewOf(r, j) == (if j in ids then ViewOf(db, j).(state := None, terminal := None) else ViewOf(db, j))
      && Get(r.detail, j) == (if j in ids then None else Get(db.detail, j))
    decreases |ids|
  {
    if ids != [] {
      var n := |ids| - 1;
      CleanAllEffect(db, ids[..n], j);
      ApplyAllConcat(db, CleanAllCmds(ids[..n]), CleanCmds(ids[n]));
      CleanOneEffect(ApplyAll(db, CleanAllCmds(ids[..n])), ids[n], j);
      assert j in ids <==> j in ids[..n] || j == ids[n];
    }
  }

  predicate Live(db: Db, j: Id) { j in db.state && !Terminal(db.state[j].status) }

  // A cleaning round spares every live job exactly when none of them is still listed as terminal.
  lemma CleanerSparesLiveIff(db: Db, before: int, ids: seq<Id>)
    requires IsScan(db.terminal, before, 1000, ids) && |InRange(db.terminal, before)| <= 1000
    ensures (forall j :: Live(db, j) ==> Live(ApplyAll(db, CleanAllCmds(ids)), j))
       <==> (forall j :: j in InRange(db.terminal, before) ==> !Live(db, j))
  {
    ScanIsComplete(db.terminal, before, 1000, ids);
    var r := ApplyAll(db, CleanAllCmds(ids));
    forall j ensures Live(r, j) <==> Live(db, j) && j !in InRange(db.terminal, before) {
      CleanAllEffect(db, ids, j);
      assert Get(r.state, j) == if j in ids then None else Get(db.state, j);
    }
  }

  // Submitting a job again does not take it off the terminal list. So a job that ended before the cleaner's
  // threshold and was submitted again loses its record and its detail, while its queue entry stays:
  // no CAS on it can succeed and the fetcher finds no task for it.
  lemma ResubmittedJobIsWiped(db: Db, t: Task, now: int, before: int, ids: seq<Id>)
    requires Service.Submittable(t) && t.id in InRange(db.terminal, before)
    requires var d := Service.Submitted(db, t, now);
      IsScan(d.terminal, before, 1000, ids) && |InRange(d.terminal, before)| <= 1000
    ensures var d := Service.Submitted(db, t, now); var r := ApplyAll(d, CleanAllCmds(ids));
      && Live(d, t.id) && t.id in d.global
      && t.id in r.global && t.id !in r.state
      && (forall s :: !CasMatches(r, t.id, s))
      && forall score :: Scheduler.Parsed(r, [(t.id, score)]) == []
  {
    var d := Service.Submitted(db, t, now);
    var r := ApplyAll(d, CleanAllCmds(ids));
    Service.SubmittedIsPending(db, t, now);
    assert Get(d.terminal, t.id) == Get(db.terminal, t.id);
    ScanIsComplete(d.terminal, before, 1000, ids);
    CleanAllEffect(d, ids, t.id);
    assert ViewOf(r, t.id).global == Some(Service.Normalised(t, now).triggerTime);
    assert Get(r.state, t.id) == None && Get(r.detail, t.id) == None && Get(r.global, t.id).Some?;
    forall score ensures Scheduler.Parsed(r, [(t.id, score)]) == [] {
      var items := [(t.id, score)];
      assert items[..|items| - 1] == [];
    }
  }
}
