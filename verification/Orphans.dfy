/** A bulk deletion leaves records behind that name no entry; the next status sweep fails them. */
module Orphans {

  import opened Wrappers
  import opened Sequences
  import opened Records
  import opened Queues
  import opened Invariant
  import opened Passes
  import opened Recovery
  import opened Housekeeping

  predicate Unfinished(v: Views, model: string, id: TaskId) {
    && id in v.db && v.db[id].model == model
    && (v.db[id].status == Pending || v.db[id].status == Running)
  }

  /** The record is unfinished, and either it has expired or its entry, if it names one, can no longer run. */
  predicate Stranded(v: Views, queue: Queue, model: string, id: TaskId) {
    && Unfinished(v, model, id)
    && (id !in v.cache || v.db[id].queueId.None? || v.db[id].queueId.value !in LiveSet(queue))
  }

  /** With every call granted, the entry of every listed task is gone unless a worker holds it. */
  lemma {:induction false} BulkStrands(v: Views, queue: Queue, ids: seq<TaskId>, os: seq<Outcome>,
                                       id: TaskId, q: QueueId)
    requires |os| == |ids| && AllGranted(os) && id in ids
    requires id in v.cache && v.cache[id].queueId == Some(q) && !(q in queue && queue[q].place.InActive?)
    ensures q !in BulkAll(v, queue, ids, os)
    decreases |ids|
  {
    BulkConserves(v, queue, Front(ids), Front(os));
    assert ids == Front(ids) + [Last(ids)];
    if id in Front(ids) {
      BulkStrands(v, queue, Front(ids), Front(os), id, q);
    } else {
      assert os[|os| - 1] == Outcome(true, true);
    }
  }

  ghost predicate FailedInDb(v: Views, id: TaskId) {
    id in v.db && v.db[id].status == Failed
  }

  /** Whatever deletions have left in the queue, a granted sweep fails the stranded records and no other. */
  lemma SweepFailsStranded(v: Views, queue: Queue, model: string, pending: seq<TaskId>, running: seq<TaskId>,
                           ps: seq<Outcome>, rs: seq<Outcome>)
    requires ViewsOk(v)
    requires IsListing(v.db, model, Pending, pending) && IsListing(v.db, model, Running, running)
    requires |ps| == |pending| && |rs| == |running| && AllGranted(ps) && AllGranted(rs)
    ensures var (w, n) := SweepAll(v, LiveSet(queue), pending, running, ps, rs);
            forall id :: Unfinished(v, model, id) ==> (FailedInDb(w, id) <==> Stranded(v, queue, model, id))
  {
    TwoPasses(v, LiveSet(queue), model, pending, running, ps, rs);
    forall id | Unfinished(v, model, id)
      ensures Doomed(v, LiveSet(queue), id, v.db[id].status) <==> Stranded(v, queue, model, id)
    {
      assert id in v.cache ==> v.cache[id].queueId == v.db[id].queueId;
    }
  }

  /** A listed task whose entry no worker holds is failed by a bulk deletion and a sweep, all calls granted. */
  lemma BulkThenSweepFails(v: Views, queue: Queue, model: string, pending: seq<TaskId>, running: seq<TaskId>,
                           os: seq<Outcome>, ps: seq<Outcome>, rs: seq<Outcome>, id: TaskId)
    requires ViewsOk(v)
    requires IsListing(v.db, model, Pending, pending) && IsListing(v.db, model, Running, running)
    requires |os| == |ps| == |pending| && |rs| == |running| && AllGranted(os) && AllGranted(ps) && AllGranted(rs)
    requires id in pending
    requires id in v.cache && v.cache[id].queueId.Some? ==> v.cache[id].queueId.value !in ActiveSet(queue)
    ensures var rest := BulkAll(v, queue, pending, os);
            var (w, n) := SweepAll(v, LiveSet(rest), pending, running, ps, rs);
            FailedInDb(w, id)
  {
    var rest := BulkAll(v, queue, pending, os);
    if id in v.cache && v.cache[id].queueId.Some? {
      BulkStrands(v, queue, pending, os, id, v.cache[id].queueId.value);
    }
    assert Stranded(v, rest, model, id);
    SweepFailsStranded(v, rest, model, pending, running, ps, rs);
  }

}
