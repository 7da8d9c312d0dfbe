/**
 What one status sweep achieves on stores that nobody else touches meanwhile: from whatever state
 crashes, failed links, failed cancels or bulk deletes left behind.
 */
module Recovery {

  import opened Sequences
  import opened Records
  import opened Invariant
  import opened Passes

  /** Every unfinished record of the model names an entry that is still in the queue. */
  ghost predicate Settled(v: Views, live: set<QueueId>, model: string) {
    forall id :: id in v.db && v.db[id].model == model && (v.db[id].status == Pending || v.db[id].status == Running) ==>
      id in v.cache && v.db[id].queueId.Some? && v.db[id].queueId.value in live
  }

  /** The records whose status differs. */
  function Changed(v: Views, w: Views): set<TaskId> {
    set id | id in v.db && id in w.db && v.db[id].status != w.db[id].status
  }

  function FailedCopy(m: map<TaskId, Record>, doomed: set<TaskId>): map<TaskId, Record> {
    map id | id in m :: if id in doomed then Overlay(m[id], MarkFailed("Unknown failure")) else m[id]
  }

  /** Both views with all records of a set failed. */
  function FailAll(v: Views, doomed: set<TaskId>): Views {
    Views(FailedCopy(v.cache, doomed), FailedCopy(v.db, doomed))
  }

  function DoomedAmong(v: Views, seen: set<QueueId>, ids: seq<TaskId>, status: Status): set<TaskId> {
    set id | id in ids && Doomed(v, seen, id, status)
  }

  lemma CheckOneFails(v: Views, seen: set<QueueId>, doomed: set<TaskId>, id: TaskId, status: Status)
    requires id !in doomed
    ensures CheckOne(FailAll(v, doomed), seen, id, status, Outcome(true, true)) ==
            if Doomed(v, seen, id, status) then (FailAll(v, doomed + {id}), 1) else (FailAll(v, doomed), 0)
  {
    var w := FailAll(v, doomed);
    var u := MarkFailed("Unknown failure");
    if Doomed(v, seen, id, status) {
      assert FailAll(v, doomed + {id}).db == Change(w.db, id, u);
      assert FailAll(v, doomed + {id}).cache == Change(w.cache, id, u);
    }
  }

  lemma DoomedSnoc(v: Views, seen: set<QueueId>, ids: seq<TaskId>, status: Status)
    requires ids != []
    ensures DoomedAmong(v, seen, ids, status) ==
            DoomedAmong(v, seen, Front(ids), status) + (if Doomed(v, seen, Last(ids), status) then {Last(ids)} else {})
  {
    assert ids == Front(ids) + [Last(ids)];
  }

  lemma NoDupFront(ids: seq<TaskId>)
    requires NoDup(ids) && ids != []
    ensures NoDup(Front(ids)) && Last(ids) !in Front(ids)
  {
  }

  /** What a pass with every call granted comes to. */
  ghost predicate PassFails(v: Views, seen: set<QueueId>, ids: seq<TaskId>, status: Status, os: seq<Outcome>)
    requires |os| == |ids|
  {
    var doomed := DoomedAmong(v, seen, ids, status);
    CheckAll(v, seen, ids, status, os) == (FailAll(v, doomed), |doomed|)
  }

  lemma CheckAllStep(v: Views, seen: set<QueueId>, ids: seq<TaskId>, status: Status, os: seq<Outcome>)
    requires ids != [] && |os| == |ids| && Last(os) == Outcome(true, true)
    requires Last(ids) !in Front(ids)
    requires PassFails(v, seen, Front(ids), status, Front(os))
    ensures PassFails(v, seen, ids, status, os)
  {
    var doomed := DoomedAmong(v, seen, Front(ids), status);
    CheckOneFails(v, seen, doomed, Last(ids), status);
    var (v2, n2) := CheckOne(FailAll(v, doomed), seen, Last(ids), status, Last(os));
    assert CheckAll(v, seen, ids, status, os) == (v2, |doomed| + n2);
    DoomedSnoc(v, seen, ids, status);
    assert doomed + {} == doomed;
  }

  /** With every call granted, a pass over distinct ids fails exactly the doomed ones and counts them. */
  lemma {:induction false} CheckAllFails(v: Views, seen: set<QueueId>, ids: seq<TaskId>, status: Status,
                                         os: seq<Outcome>)
    requires NoDup(ids) && |os| == |ids| && AllGranted(os)
    ensures PassFails(v, seen, ids, status, os)
    decreases |ids|
  {
    if ids == [] {
      assert FailAll(v, {}) == v;
      assert DoomedAmong(v, seen, ids, status) == {};
    } else {
      NoDupFront(ids);
      CheckAllFails(v, seen, Front(ids), status, Front(os));
      CheckAllStep(v, seen, ids, status, os);
    }
  }

  lemma FailTwice(v: Views, d1: set<TaskId>, d2: set<TaskId>)
    requires d1 !! d2
    ensures FailAll(FailAll(v, d1), d2) == FailAll(v, d1 + d2)
  {
  }

  /** Failing some records does not change the verdict on others. */
  lemma VerdictsStay(v: Views, seen: set<QueueId>, failed: set<TaskId>, ids: seq<TaskId>, status: Status)
    requires forall id :: id in ids ==> id !in failed
    ensures DoomedAmong(FailAll(v, failed), seen, ids, status) == DoomedAmong(v, seen, ids, status)
  {
    forall id | id in ids
      ensures Doomed(FailAll(v, failed), seen, id, status) <==> Doomed(v, seen, id, status)
    {
      assert id in v.cache ==> FailAll(v, failed).cache[id] == v.cache[id];
    }
  }

  lemma TwoPasses(v: Views, seen: set<QueueId>, model: string, pending: seq<TaskId>, running: seq<TaskId>,
                  os: seq<Outcome>, ps: seq<Outcome>)
    requires IsListing(v.db, model, Pending, pending) && IsListing(v.db, model, Running, running)
    requires |os| == |pending| && |ps| == |running| && AllGranted(os) && AllGranted(ps)
    ensures var d1, d2 := DoomedAmong(v, seen, pending, Pending), DoomedAmong(v, seen, running, Running);
            SweepAll(v, seen, pending, running, os, ps) == (FailAll(v, d1 + d2), |d1 + d2|)
  {
    var d1, d2 := DoomedAmong(v, seen, pending, Pending), DoomedAmong(v, seen, running, Running);
    ListingsApart(v.db, model, pending, running);
    CheckAllFails(v, seen, pending, Pending, os);
    CheckAllFails(FailAll(v, d1), seen, running, Running, ps);
    VerdictsStay(v, seen, d1, running, Running);
    FailTwice(v, d1, d2);
  }

  lemma ListingsApart(db: map<TaskId, Record>, model: string, pending: seq<TaskId>, running: seq<TaskId>)
    requires IsListing(db, model, Pending, pending) && IsListing(db, model, Running, running)
    ensures forall id :: id in running ==> id !in pending
  {
    forall id | id in running ensures id !in pending {
      assert db[id].status == Running;
    }
  }

  /** What a sweep is to achieve: `w` is `v` with all hopeless records failed, and `n` counts them. */
  ghost predicate Recovered(v: Views, w: Views, n: nat, seen: set<QueueId>, model: string) {
    && Settled(w, seen, model)
    && n == |Changed(v, w)|
    && w.db.Keys == v.db.Keys
    && ViewsOk(w)
    && (forall id :: id in v.db && id !in Changed(v, w) ==> w.db[id] == v.db[id])
    && (forall id :: id in Changed(v, w) ==> w.db[id].status == Failed && v.db[id].model == model)
  }

  lemma FailingRecovers(v: Views, seen: set<QueueId>, model: string, doomed: set<TaskId>)
    requires ViewsOk(v)
    requires forall id :: id in doomed <==>
               && id in v.db && v.db[id].model == model && (v.db[id].status == Pending || v.db[id].status == Running)
               && Doomed(v, seen, id, v.db[id].status)
    ensures Recovered(v, FailAll(v, doomed), |doomed|, seen, model)
  {
    var w := FailAll(v, doomed);
    assert Changed(v, w) == doomed;
    forall id | id in w.db && w.db[id].model == model && (w.db[id].status == Pending || w.db[id].status == Running)
      ensures id in w.cache && w.db[id].queueId.Some? && w.db[id].queueId.value in seen
    {
      assert id !in doomed;
    }
  }

  /** One sweep leaves only linked work unfinished and reports exactly what it changed. */
  lemma RecoveryIsComplete(v: Views, seen: set<QueueId>, model: string, pending: seq<TaskId>, running: seq<TaskId>,
                           os: seq<Outcome>, ps: seq<Outcome>)
    requires ViewsOk(v)
    requires IsListing(v.db, model, Pending, pending) && IsListing(v.db, model, Running, running)
    requires |os| == |pending| && |ps| == |running| && AllGranted(os) && AllGranted(ps)
    ensures var (w, n) := SweepAll(v, seen, pending, running, os, ps);
            Recovered(v, w, n, seen, model)
  {
    TwoPasses(v, seen, model, pending, running, os, ps);
    var doomed := DoomedAmong(v, seen, pending, Pending) + DoomedAmong(v, seen, running, Running);
    FailingRecovers(v, seen, model, doomed);
  }

  /** A sweep over settled records does nothing. */
  lemma RecoveryIsIdempotent(v: Views, seen: set<QueueId>, model: string, pending: seq<TaskId>, running: seq<TaskId>,
                             os: seq<Outcome>, ps: seq<Outcome>)
    requires ViewsOk(v) && Settled(v, seen, model)
    requires IsListing(v.db, model, Pending, pending) && IsListing(v.db, model, Running, running)
    requires |os| == |pending| && |ps| == |running| && AllGranted(os) && AllGranted(ps)
    ensures SweepAll(v, seen, pending, running, os, ps) == (v, 0)
  {
    TwoPasses(v, seen, model, pending, running, os, ps);
    assert DoomedAmong(v, seen, pending, Pending) == {};
    assert DoomedAmong(v, seen, running, Running) == {};
    assert FailAll(v, {}) == v;
  }

  /** A sweep right after a granted sweep finds nothing to do, whatever order its listings come in. */
  lemma SecondSweepIsIdle(v: Views, seen: set<QueueId>, model: string,
                          pending: seq<TaskId>, running: seq<TaskId>, os: seq<Outcome>, ps: seq<Outcome>,
                          pending': seq<TaskId>, running': seq<TaskId>, os': seq<Outcome>, ps': seq<Outcome>)
    requires ViewsOk(v)
    requires IsListing(v.db, model, Pending, pending) && IsListing(v.db, model, Running, running)
    requires |os| == |pending| && |ps| == |running| && AllGranted(os) && AllGranted(ps)
    requires var w := SweepAll(v, seen, pending, running, os, ps).0;
             IsListing(w.db, model, Pending, pending') && IsListing(w.db, model, Running, running')
    requires |os'| == |pending'| && |ps'| == |running'| && AllGranted(os') && AllGranted(ps')
    ensures var w := SweepAll(v, seen, pending, running, os, ps).0;
            SweepAll(w, seen, pending', running', os', ps') == (w, 0)
  {
    var w := SweepAll(v, seen, pending, running, os, ps).0;
    RecoveryIsComplete(v, seen, model, pending, running, os, ps);
    RecoveryIsIdempotent(w, seen, model, pending', running', os', ps');
  }

}
