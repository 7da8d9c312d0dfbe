/**
 What the loops do for any pattern of call outcomes, record by record and entry by entry: which
 record ends how, which entry goes and which stays.
 */
module Itemized {

  import opened Wrappers
  import opened Sequences
  import opened Records
  import opened Queues
  import opened Passes
  import opened Housekeeping

  /** The record after it was failed with this error, and after nothing else. */
  function Failing(r: Record, errorInfo: string): Record {
    r.(status := Failed, errorInfo := errorInfo)
  }

  ghost predicate SameKeys(v: Views, w: Views) {
    w.cache.Keys == v.cache.Keys && w.db.Keys == v.db.Keys
  }

  // ---------- the status sweep ----------

  predicate Unread(v: Views, id: TaskId, o: Outcome) {
    !o.first || id !in v.cache
  }

  /** The record still has the status it was listed under, and names no entry that was seen. */
  predicate Abandoned(r: Record, seen: set<QueueId>, status: Status) {
    r.status == status && !(r.queueId.Some? && r.queueId.value in seen)
  }

  /** The sweep counts a task when it cannot read its record or finds it abandoned, whatever its write comes to. */
  predicate Counted(v: Views, seen: set<QueueId>, id: TaskId, status: Status, o: Outcome) {
    Unread(v, id, o) || Abandoned(v.cache[id], seen, status)
  }

  /** The cached record is failed when read, abandoned and written; the database's when counted and written. */
  ghost predicate CheckedAs(v: Views, w: Views, seen: set<QueueId>, id: TaskId, status: Status, o: Outcome) {
    && (id in v.cache ==>
          && id in w.cache
          && var hit := o.first && o.second && Abandoned(v.cache[id], seen, status);
             w.cache[id] == if hit then Failing(v.cache[id], "Unknown failure") else v.cache[id])
    && (id in v.db ==>
          && id in w.db
          && var hit := o.second && Counted(v, seen, id, status, o);
             w.db[id] == if hit then Failing(v.db[id], "Unknown failure") else v.db[id])
  }

  ghost predicate SameRecord(v: Views, w: Views, id: TaskId) {
    && (id in v.cache <==> id in w.cache) && (id in v.cache ==> w.cache[id] == v.cache[id])
    && (id in v.db <==> id in w.db) && (id in v.db ==> w.db[id] == v.db[id])
  }

  function CountedAmong(v: Views, seen: set<QueueId>, ids: seq<TaskId>, status: Status, os: seq<Outcome>): set<TaskId>
    requires |os| == |ids|
  {
    set i | 0 <= i < |ids| && Counted(v, seen, ids[i], status, os[i]) :: ids[i]
  }

  lemma CheckOneItemized(v: Views, seen: set<QueueId>, id: TaskId, status: Status, o: Outcome)
    ensures var (w, n) := CheckOne(v, seen, id, status, o);
            && SameKeys(v, w) && CheckedAs(v, w, seen, id, status, o)
            && (forall i :: i != id ==> SameRecord(v, w, i))
            && n == if Counted(v, seen, id, status, o) then 1 else 0
  {
  }

  lemma CountedSnoc(v: Views, seen: set<QueueId>, ids: seq<TaskId>, status: Status, os: seq<Outcome>)
    requires ids != [] && |os| == |ids|
    ensures CountedAmong(v, seen, ids, status, os) ==
            CountedAmong(v, seen, Front(ids), status, Front(os))
            + (if Counted(v, seen, Last(ids), status, Last(os)) then {Last(ids)} else {})
  {
    var front := CountedAmong(v, seen, Front(ids), status, Front(os));
    forall id | id in CountedAmong(v, seen, ids, status, os)
      ensures id in front + (if Counted(v, seen, Last(ids), status, Last(os)) then {Last(ids)} else {})
    {
      var i :| 0 <= i < |ids| && Counted(v, seen, ids[i], status, os[i]) && ids[i] == id;
      assert i < |ids| - 1 ==> Front(ids)[i] == id && Front(os)[i] == os[i];
    }
    forall id | id in front ensures id in CountedAmong(v, seen, ids, status, os) {
      var i :| 0 <= i < |ids| - 1 && Counted(v, seen, Front(ids)[i], status, Front(os)[i]) && Front(ids)[i] == id;
      assert ids[i] == id && os[i] == Front(os)[i];
    }
  }

  /** Distinct tasks, checked under any outcomes. */
  ghost predicate Checked(v: Views, w: Views, seen: set<QueueId>, ids: seq<TaskId>, status: Status, os: seq<Outcome>)
    requires |os| == |ids|
  {
    && SameKeys(v, w)
    && (forall i :: 0 <= i < |ids| ==> CheckedAs(v, w, seen, ids[i], status, os[i]))
    && (forall id :: id !in ids ==> SameRecord(v, w, id))
  }

  lemma CheckedSnoc(v: Views, v1: Views, w: Views, seen: set<QueueId>, ids: seq<TaskId>, status: Status,
                    os: seq<Outcome>)
    requires ids != [] && |os| == |ids| && NoDup(ids)
    requires Checked(v, v1, seen, Front(ids), status, Front(os))
    requires SameKeys(v1, w) && CheckedAs(v, w, seen, Last(ids), status, Last(os))
    requires forall id :: id != Last(ids) ==> SameRecord(v1, w, id)
    ensures Checked(v, w, seen, ids, status, os)
  {
    forall i | 0 <= i < |ids| ensures CheckedAs(v, w, seen, ids[i], status, os[i]) {
      if i < |ids| - 1 {
        assert CheckedAs(v, v1, seen, Front(ids)[i], status, Front(os)[i]);
        assert SameRecord(v1, w, ids[i]);
      }
    }
    forall id | id !in ids ensures SameRecord(v, w, id) {
      assert Last(ids) in ids;
      assert id !in Front(ids);
      assert SameRecord(v, v1, id) && SameRecord(v1, w, id);
    }
  }

  lemma LastIsFresh(v: Views, v1: Views, seen: set<QueueId>, ids: seq<TaskId>, status: Status, os: seq<Outcome>)
    requires ids != [] && |os| == |ids| && NoDup(ids)
    requires Checked(v, v1, seen, Front(ids), status, Front(os))
    ensures SameRecord(v, v1, Last(ids))
    ensures Last(ids) !in CountedAmong(v, seen, Front(ids), status, Front(os))
    ensures Counted(v, seen, Last(ids), status, Last(os)) <==> Counted(v1, seen, Last(ids), status, Last(os))
  {
    assert Last(ids) !in Front(ids);
  }

  lemma CheckAgain(v: Views, v1: Views, w: Views, seen: set<QueueId>, id: TaskId, status: Status, o: Outcome)
    requires SameRecord(v, v1, id) && CheckedAs(v1, w, seen, id, status, o)
    ensures CheckedAs(v, w, seen, id, status, o)
  {
  }

  /** The loop of the status sweep: each record as `CheckedAs` says, and the number of tasks counted. */
  lemma {:induction false} CheckItemized(v: Views, seen: set<QueueId>, ids: seq<TaskId>, status: Status,
                                         os: seq<Outcome>)
    requires NoDup(ids) && |os| == |ids|
    ensures var (w, n) := CheckAll(v, seen, ids, status, os);
            Checked(v, w, seen, ids, status, os) && n == |CountedAmong(v, seen, ids, status, os)|
    decreases |ids|
  {
    if ids != [] {
      var front, last, o := Front(ids), Last(ids), Last(os);
      assert NoDup(front);
      CheckItemized(v, seen, front, status, Front(os));
      var (v1, n1) := CheckAll(v, seen, front, status, Front(os));
      var (w, n2) := CheckOne(v1, seen, last, status, o);
      assert CheckAll(v, seen, ids, status, os) == (w, n1 + n2);
      CheckOneItemized(v1, seen, last, status, o);
      LastIsFresh(v, v1, seen, ids, status, os);
      CheckAgain(v, v1, w, seen, last, status, o);
      CheckedSnoc(v, v1, w, seen, ids, status, os);
      CountedSnoc(v, seen, ids, status, os);
    }
  }

  /** A sweep over both listings, record by record. */
  ghost predicate Swept(v: Views, w: Views, n: nat, seen: set<QueueId>, pending: seq<TaskId>, running: seq<TaskId>,
                        os: seq<Outcome>, ps: seq<Outcome>)
    requires |os| == |pending| && |ps| == |running|
  {
    && SameKeys(v, w)
    && (forall i :: 0 <= i < |pending| ==> CheckedAs(v, w, seen, pending[i], Pending, os[i]))
    && (forall i :: 0 <= i < |running| ==> CheckedAs(v, w, seen, running[i], Running, ps[i]))
    && (forall id :: id !in pending && id !in running ==> SameRecord(v, w, id))
    && n == |CountedAmong(v, seen, pending, Pending, os)| + |CountedAmong(v, seen, running, Running, ps)|
  }

  lemma CheckedStays(v: Views, v1: Views, w: Views, seen: set<QueueId>, id: TaskId, status: Status, o: Outcome)
    requires CheckedAs(v, v1, seen, id, status, o) && SameRecord(v1, w, id)
    ensures CheckedAs(v, w, seen, id, status, o)
  {
  }

  lemma CountedStays(v: Views, v1: Views, seen: set<QueueId>, ids: seq<TaskId>, status: Status, os: seq<Outcome>)
    requires |os| == |ids| && forall id :: id in ids ==> SameRecord(v, v1, id)
    ensures CountedAmong(v, seen, ids, status, os) == CountedAmong(v1, seen, ids, status, os)
  {
    forall i | 0 <= i < |ids|
      ensures Counted(v, seen, ids[i], status, os[i]) <==> Counted(v1, seen, ids[i], status, os[i])
    {
      assert SameRecord(v, v1, ids[i]);
    }
  }

  /** The whole status sweep, for any outcomes of its calls. */
  lemma SweepItemized(v: Views, seen: set<QueueId>, pending: seq<TaskId>, running: seq<TaskId>,
                      os: seq<Outcome>, ps: seq<Outcome>)
    requires NoDup(pending) && NoDup(running) && forall id :: id in running ==> id !in pending
    requires |os| == |pending| && |ps| == |running|
    ensures var (w, n) := SweepAll(v, seen, pending, running, os, ps); Swept(v, w, n, seen, pending, running, os, ps)
  {
    CheckItemized(v, seen, pending, Pending, os);
    var v1 := CheckAll(v, seen, pending, Pending, os).0;
    CheckItemized(v1, seen, running, Running, ps);
    var w := CheckAll(v1, seen, running, Running, ps).0;
    CountedStays(v, v1, seen, running, Running, ps);
    forall i | 0 <= i < |pending| ensures CheckedAs(v, w, seen, pending[i], Pending, os[i]) {
      CheckedStays(v, v1, w, seen, pending[i], Pending, os[i]);
    }
    forall i | 0 <= i < |running| ensures CheckedAs(v, w, seen, running[i], Running, ps[i]) {
      CheckAgain(v, v1, w, seen, running[i], Running, ps[i]);
    }
  }

  // ---------- marks of the archive and the shutdown sweep ----------

  /** Some update for the task was granted. */
  ghost predicate Marks(items: seq<TaskInfo>, os: seq<Outcome>, id: TaskId)
    requires |os| == |items|
  {
    exists i :: 0 <= i < |items| && items[i].payload == Some(id) && os[i].first
  }

  /** Exactly the cached records of items whose update was granted are failed, in both views. */
  ghost predicate MarkedAs(v: Views, w: Views, items: seq<TaskInfo>, os: seq<Outcome>, errorInfo: string)
    requires |os| == |items|
  {
    && SameKeys(v, w)
    && (forall id :: id in v.cache ==>
          w.cache[id] == if Marks(items, os, id) then Failing(v.cache[id], errorInfo) else v.cache[id])
    && (forall id :: id in v.db ==>
          w.db[id] == if id in v.cache && Marks(items, os, id) then Failing(v.db[id], errorInfo) else v.db[id])
  }

  ghost predicate DistinctEntries(items: seq<TaskInfo>) {
    forall i, j :: 0 <= i < j < |items| ==> items[i].q != items[j].q
  }

  lemma MarksSnoc(items: seq<TaskInfo>, os: seq<Outcome>, id: TaskId)
    requires items != [] && |os| == |items|
    ensures Marks(items, os, id) <==>
              Marks(Front(items), Front(os), id) || (Last(items).payload == Some(id) && Last(os).first)
  {
    if Marks(Front(items), Front(os), id) {
      var i :| 0 <= i < |Front(items)| && Front(items)[i].payload == Some(id) && Front(os)[i].first;
      assert items[i].payload == Some(id) && os[i].first;
    }
    if Last(items).payload == Some(id) && Last(os).first {
      assert items[|items| - 1].payload == Some(id) && os[|items| - 1].first;
    }
    if Marks(items, os, id) {
      var i :| 0 <= i < |items| && items[i].payload == Some(id) && os[i].first;
      assert i < |items| - 1 ==> Front(items)[i] == items[i] && Front(os)[i] == os[i];
    }
  }

  /** One record after an update that failed it or did not. */
  ghost predicate MarkedIf(v: Views, w: Views, id: TaskId, hit: bool, errorInfo: string) {
    && (id in v.cache ==> id in w.cache && w.cache[id] == if hit then Failing(v.cache[id], errorInfo) else v.cache[id])
    && (id in v.db ==> id in w.db && w.db[id] == if hit then Failing(v.db[id], errorInfo) else v.db[id])
  }

  function AfterMark(v: Views, item: TaskInfo, o: Outcome, errorInfo: string): Views {
    if item.payload.None? then v else Updated(v, o.first, item.payload.value, MarkFailed(errorInfo))
  }

  predicate Hits(v: Views, item: TaskInfo, o: Outcome, id: TaskId) {
    item.payload == Some(id) && o.first && id in v.cache
  }

  lemma AfterMarkIs(v: Views, item: TaskInfo, o: Outcome, errorInfo: string)
    requires errorInfo != ""
    ensures var w := AfterMark(v, item, o, errorInfo);
            SameKeys(v, w) && forall id: TaskId :: MarkedIf(v, w, id, Hits(v, item, o, id), errorInfo)
  {
  }

  lemma OneMoreMark(v: Views, v1: Views, items: seq<TaskInfo>, os: seq<Outcome>, errorInfo: string)
    requires items != [] && |os| == |items| && errorInfo != ""
    requires MarkedAs(v, v1, Front(items), Front(os), errorInfo)
    ensures MarkedAs(v, AfterMark(v1, Last(items), Last(os), errorInfo), items, os, errorInfo)
  {
    AfterMarkIs(v1, Last(items), Last(os), errorInfo);
    MarksAdd(v, v1, AfterMark(v1, Last(items), Last(os), errorInfo), items, os, errorInfo);
  }

  lemma MarksAdd(v: Views, v1: Views, w: Views, items: seq<TaskInfo>, os: seq<Outcome>, errorInfo: string)
    requires items != [] && |os| == |items|
    requires MarkedAs(v, v1, Front(items), Front(os), errorInfo) && SameKeys(v1, w)
    requires forall id: TaskId :: MarkedIf(v1, w, id, Hits(v1, Last(items), Last(os), id), errorInfo)
    ensures MarkedAs(v, w, items, os, errorInfo)
  {
    forall id: TaskId | id in v.cache
      ensures w.cache[id] == if Marks(items, os, id) then Failing(v.cache[id], errorInfo) else v.cache[id]
    {
      MarksSnoc(items, os, id);
      assert MarkedIf(v1, w, id, Hits(v1, Last(items), Last(os), id), errorInfo);
    }
    forall id: TaskId | id in v.db
      ensures w.db[id] == if id in v.cache && Marks(items, os, id) then Failing(v.db[id], errorInfo) else v.db[id]
    {
      MarksSnoc(items, os, id);
      assert MarkedIf(v1, w, id, Hits(v1, Last(items), Last(os), id), errorInfo);
    }
  }

  /** The entry of every item is gone if it could be deleted and its deletion was asked for and granted. */
  ghost predicate DroppedAs(queue: Queue, rest: Queue, items: seq<TaskInfo>, drops: seq<bool>)
    requires |drops| == |items|
  {
    && (forall q :: q in rest ==> q in queue && rest[q] == queue[q])
    && (forall q :: q in queue && q !in Qs(items) ==> q in rest)
    && (forall i :: 0 <= i < |items| && items[i].q in queue ==>
          (items[i].q in rest <==> queue[items[i].q].place.InActive? || !drops[i]))
  }

  lemma OneMoreDrop(queue: Queue, queue1: Queue, items: seq<TaskInfo>, drops: seq<bool>)
    requires items != [] && |drops| == |items| && DistinctEntries(items)
    requires DroppedAs(queue, queue1, Front(items), Front(drops))
    ensures DroppedAs(queue, Deleted(queue1, Last(drops), Last(items).q), items, drops)
  {
    var q, rest := Last(items).q, Deleted(queue1, Last(drops), Last(items).q);
    ItemsSnoc(items);
    assert q !in Qs(Front(items));
    forall i | 0 <= i < |items| && items[i].q in queue
      ensures items[i].q in rest <==> queue[items[i].q].place.InActive? || !drops[i]
    {
      if i < |items| - 1 {
        assert items[i] == Front(items)[i] && drops[i] == Front(drops)[i];
      }
    }
  }

  // ---------- the archive sweep ----------

  /** The deletion of an archived entry is asked for and granted; twelve hours are 43200 seconds. */
  predicate ArchiveDrops(v: Views, item: TaskInfo, o: Outcome, now: int) {
    && item.payload.Some?
    && ((o.first && item.payload.value in v.cache) || now - item.failedAt >= 43200)
    && o.second
  }

  function ArchiveDropped(v: Views, items: seq<TaskInfo>, os: seq<Outcome>, nows: seq<int>): seq<bool>
    requires |os| == |nows| == |items|
  {
    seq(|items|, i requires 0 <= i < |items| => ArchiveDrops(v, items[i], os[i], nows[i]))
  }

  /**
   The archive loop: a record is failed exactly when its update was granted, and an archived entry
   stays exactly when its payload does not parse, its update was refused less than twelve hours after
   its failure, or its deletion was refused.
   */
  lemma {:induction false} ArchiveItemized(st: Stores, items: seq<TaskInfo>, os: seq<Outcome>, nows: seq<int>)
    requires |os| == |nows| == |items| && DistinctEntries(items)
    ensures var t := ArchiveAll(st, items, os, nows);
            && MarkedAs(st.views, t.views, items, os, "failed due to system errors")
            && DroppedAs(st.queue, t.queue, items, ArchiveDropped(st.views, items, os, nows))
    decreases |items|
  {
    if items != [] {
      ArchiveItemized(st, Front(items), Front(os), Front(nows));
      var s1 := ArchiveAll(st, Front(items), Front(os), Front(nows));
      var drops := ArchiveDropped(st.views, items, os, nows);
      assert Front(drops) == ArchiveDropped(st.views, Front(items), Front(os), Front(nows));
      OneMoreMark(st.views, s1.views, items, os, "failed due to system errors");
      OneMoreDrop(st.queue, s1.queue, items, drops);
      var t := ArchiveAll(st, items, os, nows);
      assert t == ArchiveOne(s1, Last(items), Last(os), Last(nows));
    }
  }

  // ---------- the shutdown sweep ----------

  function ShutDropped(items: seq<TaskInfo>, os: seq<Outcome>): seq<bool>
    requires |os| == |items|
  {
    seq(|items|, i requires 0 <= i < |items| => items[i].payload.Some? && os[i].second)
  }

  /** The shutdown loop: whether an entry goes does not depend on whether its record could be marked. */
  lemma {:induction false} ShutItemized(st: Stores, items: seq<TaskInfo>, os: seq<Outcome>)
    requires |os| == |items| && DistinctEntries(items)
    ensures var t := ShutAll(st, items, os);
            && MarkedAs(st.views, t.views, items, os, "the task queue was closed")
            && DroppedAs(st.queue, t.queue, items, ShutDropped(items, os))
    decreases |items|
  {
    if items != [] {
      ShutItemized(st, Front(items), Front(os));
      var s1 := ShutAll(st, Front(items), Front(os));
      var drops := ShutDropped(items, os);
      assert Front(drops) == ShutDropped(Front(items), Front(os));
      OneMoreMark(st.views, s1.views, items, os, "the task queue was closed");
      OneMoreDrop(st.queue, s1.queue, items, drops);
      var t := ShutAll(st, items, os);
      assert t == ShutOne(s1, Last(items), Last(os));
    }
  }

  // ---------- bulk deletion ----------

  /** Some listed task's cached record names the entry, and both calls for it were granted. */
  ghost predicate Named(v: Views, ids: seq<TaskId>, os: seq<Outcome>, q: QueueId)
    requires |os| == |ids|
  {
    exists i :: 0 <= i < |ids| && ids[i] in v.cache && v.cache[ids[i]].queueId == Some(q)
                && os[i] == Outcome(true, true)
  }

  lemma NamedSnoc(v: Views, ids: seq<TaskId>, os: seq<Outcome>, q: QueueId)
    requires ids != [] && |os| == |ids|
    ensures Named(v, ids, os, q) <==>
              || Named(v, Front(ids), Front(os), q)
              || (Last(ids) in v.cache && v.cache[Last(ids)].queueId == Some(q) && Last(os) == Outcome(true, true))
  {
    if Named(v, Front(ids), Front(os), q) {
      var i :| 0 <= i < |Front(ids)| && Front(ids)[i] in v.cache && v.cache[Front(ids)[i]].queueId == Some(q)
               && Front(os)[i] == Outcome(true, true);
      assert ids[i] == Front(ids)[i] && os[i] == Front(os)[i];
    }
    if Last(ids) in v.cache && v.cache[Last(ids)].queueId == Some(q) && Last(os) == Outcome(true, true) {
      assert ids[|ids| - 1] == Last(ids) && os[|ids| - 1] == Last(os);
    }
    if Named(v, ids, os, q) {
      var i :| 0 <= i < |ids| && ids[i] in v.cache && v.cache[ids[i]].queueId == Some(q)
               && os[i] == Outcome(true, true);
      assert i < |ids| - 1 ==> Front(ids)[i] == ids[i] && Front(os)[i] == os[i];
    }
  }

  /** The bulk loop: an entry is gone if and only if no worker holds it and a listed record named it, calls granted. */
  lemma {:induction false} BulkItemized(v: Views, queue: Queue, ids: seq<TaskId>, os: seq<Outcome>)
    requires |os| == |ids|
    ensures var rest := BulkAll(v, queue, ids, os);
            && (forall q :: q in rest ==> q in queue && rest[q] == queue[q])
            && (forall q :: q in queue ==> (q !in rest <==> !queue[q].place.InActive? && Named(v, ids, os, q)))
    decreases |ids|
  {
    if ids != [] {
      BulkItemized(v, queue, Front(ids), Front(os));
      var before, rest := BulkAll(v, queue, Front(ids), Front(os)), BulkAll(v, queue, ids, os);
      forall q | q in queue ensures q !in rest <==> !queue[q].place.InActive? && Named(v, ids, os, q) {
        NamedSnoc(v, ids, os, q);
      }
    }
  }

}
