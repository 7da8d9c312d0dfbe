/**
 What one uninterrupted pass of each sweep does to the stores, call outcome by call outcome.
 The methods of the agent are proved against these folds and the protocol runs them.
 */
module Passes {

  import opened Sequences
  import opened Records
  import opened Queues
  import opened Protocol
  import opened Journals

  datatype Stores = Stores(views: Views, queue: Queue)

  /** How the two calls made for one item went; the second is not made on every branch. */
  datatype Outcome = Outcome(first: bool, second: bool)

  /** Every call that the services may grant is granted. */
  predicate AllGranted(os: seq<Outcome>) {
    forall i :: 0 <= i < |os| ==> os[i] == Outcome(true, true)
  }

  /** A failed or refused update leaves the records alone. */
  function Updated(v: Views, ok: bool, id: TaskId, u: Update): Views {
    if ok && Accepts(v, id) then Put(v, id, u) else v
  }

  function Deleted(queue: Queue, ok: bool, q: QueueId): Queue {
    if ok && CanDelete(queue, q) then queue - {q} else queue
  }

  // ---------- the status sweep ----------

  /** A task whose record the sweep takes for lost: expired, or suspect. */
  predicate Doomed(v: Views, seen: set<QueueId>, id: TaskId, status: Status) {
    id !in v.cache || Suspect(v.cache[id], seen, status)
  }

  function CheckOne(v: Views, seen: set<QueueId>, id: TaskId, status: Status, o: Outcome): (Views, nat) {
    if !o.first || id !in v.cache then
      (if o.second then PutDb(v, id, MarkFailed("Unknown failure")) else v, 1)
    else if Suspect(v.cache[id], seen, status) then
      (Updated(v, o.second, id, MarkFailed("Unknown failure")), 1)
    else (v, 0)
  }

  function CheckAll(v: Views, seen: set<QueueId>, ids: seq<TaskId>, status: Status, os: seq<Outcome>): (Views, nat)
    requires |os| == |ids|
  {
    if ids == [] then (v, 0)
    else
      var (v1, n1) := CheckAll(v, seen, Front(ids), status, Front(os));
      var (v2, n2) := CheckOne(v1, seen, Last(ids), status, Last(os));
      (v2, n1 + n2)
  }

  /** What a sweep with both listings did: first the pending tasks, then the running ones. */
  function SweepAll(v: Views, seen: set<QueueId>, pending: seq<TaskId>, running: seq<TaskId>,
                    os: seq<Outcome>, ps: seq<Outcome>): (Views, nat)
    requires |os| == |pending| && |ps| == |running|
  {
    var (v1, n1) := CheckAll(v, seen, pending, Pending, os);
    var (v2, n2) := CheckAll(v1, seen, running, Running, ps);
    (v2, n1 + n2)
  }

  /** The calls for one task: its record is read and, if it is lost, failed. */
  function CheckOneLog(log: Log, v: Views, seen: set<QueueId>, id: TaskId, status: Status, o: Outcome): Log {
    var got, u := o.first && id in v.cache, MarkFailed("Unknown failure");
    var read := Then(log, ReadRecord(id, got));
    if !got then Then(read, WriteDatabase(id, u, o.second))
    else if Suspect(v.cache[id], seen, status) then Then(read, WriteRecord(id, u, o.second))
    else read
  }

  function CheckAllLog(log: Log, v: Views, seen: set<QueueId>, ids: seq<TaskId>, status: Status, os: seq<Outcome>): Log
    requires |os| == |ids|
  {
    if ids == [] then log
    else
      var v1 := CheckAll(v, seen, Front(ids), status, Front(os)).0;
      CheckOneLog(CheckAllLog(log, v, seen, Front(ids), status, Front(os)), v1, seen, Last(ids), status, Last(os))
  }

  /** What a list call is answered with: a page, or nothing after an error. */
  datatype Scanned = Page(page: seq<QueueId>) | NoPage

  function Found(x: Scanned): set<QueueId> {
    if x.Page? then Elems(x.page) else {}
  }

  /** The answers to the four list calls of a sweep. */
  ghost predicate FourAnswers(queue: Queue, limit: nat, xs: seq<Scanned>) {
    |xs| == 4 && forall i: nat :: i < 4 && xs[i].Page? ==> IsPage(queue, i, limit, xs[i].page)
  }

  /** The entries in the first answers. */
  function SeenIn(xs: seq<Scanned>, n: nat): set<QueueId>
    requires n <= |xs|
  {
    if n == 0 then {} else SeenIn(xs, n - 1) + Found(xs[n - 1])
  }

  lemma {:induction false} SeenInFirst(xs: seq<Scanned>, x: Scanned, n: nat)
    requires n <= |xs|
    ensures SeenIn(xs + [x], n) == SeenIn(xs, n)
    decreases n
  {
    if n > 0 {
      SeenInFirst(xs, x, n - 1);
    }
  }

  function ScanCall(list: nat, x: Scanned): ServiceCall {
    ListEntries(list, x.Page?, if x.Page? then x.page else [])
  }

  /** The first list calls, in the order of the lists. */
  function ScanLog(log: Log, xs: seq<Scanned>, n: nat): Log
    requires n <= |xs|
  {
    if n == 0 then log
    else
      Then(ScanLog(log, xs, n - 1), ScanCall(n - 1, xs[n - 1]))
  }

  /** The calls of both loops over listed tasks: pending tasks first. */
  function CheckBothLog(log: Log, v: Views, seen: set<QueueId>, pending: seq<TaskId>, running: seq<TaskId>,
                        os: seq<Outcome>, ps: seq<Outcome>): Log
    requires |os| == |pending| && |ps| == |running|
  {
    var v1 := CheckAll(v, seen, pending, Pending, os).0;
    CheckAllLog(CheckAllLog(log, v, seen, pending, Pending, os), v1, seen, running, Running, ps)
  }

  /** The calls before that: two listings of records, the wait if they found any, and the four lists. */
  function ListLog(log: Log, model: string, xs: seq<Scanned>, pending: seq<TaskId>, running: seq<TaskId>): Log
    requires |xs| == 4
  {
    var listed := Then(Then(log, ListRecords(model, Pending, pending)), ListRecords(model, Running, running));
    ScanLog(if pending == [] && running == [] then listed else Then(listed, Pause), xs, 4)
  }

  /** All calls of a sweep. */
  function SweepLog(log: Log, v: Views, model: string, xs: seq<Scanned>, pending: seq<TaskId>, running: seq<TaskId>,
                    os: seq<Outcome>, ps: seq<Outcome>): Log
    requires |xs| == 4 && |os| == |pending| && |ps| == |running|
  {
    CheckBothLog(ListLog(log, model, xs, pending, running), v, SeenIn(xs, 4), pending, running, os, ps)
  }

  // ---------- the archive sweep ----------

  function ArchiveOne(st: Stores, item: TaskInfo, o: Outcome, now: int): Stores {
    if item.payload.None? then st
    else if !(o.first && Accepts(st.views, item.payload.value)) && now < item.failedAt + TWELVE_HOURS then st
    else Stores(Updated(st.views, o.first, item.payload.value, MarkFailed("failed due to system errors")),
                Deleted(st.queue, o.second, item.q))
  }

  function ArchiveAll(st: Stores, items: seq<TaskInfo>, os: seq<Outcome>, nows: seq<int>): Stores
    requires |os| == |nows| == |items|
  {
    if items == [] then st
    else ArchiveOne(ArchiveAll(st, Front(items), Front(os), Front(nows)), Last(items), Last(os), Last(nows))
  }

  /** The calls for one entry: its record is failed first, and the entry dropped after that or after twelve hours. */
  function ArchiveOneLog(log: Log, st: Stores, item: TaskInfo, o: Outcome, now: int): Log {
    if item.payload.None? then log
    else
      var id := item.payload.value;
      var ok := o.first && Accepts(st.views, id);
      var marked := Then(log, WriteRecord(id, MarkFailed("failed due to system errors"), ok));
      if !ok && now < item.failedAt + TWELVE_HOURS then marked
      else Then(marked, DropEntry(item.q, o.second && CanDelete(st.queue, item.q)))
  }

  function ArchiveAllLog(log: Log, st: Stores, items: seq<TaskInfo>, os: seq<Outcome>, nows: seq<int>): Log
    requires |os| == |nows| == |items|
  {
    if items == [] then log
    else
      ArchiveOneLog(ArchiveAllLog(log, st, Front(items), Front(os), Front(nows)),
                    ArchiveAll(st, Front(items), Front(os), Front(nows)), Last(items), Last(os), Last(nows))
  }

  // ---------- the shutdown sweep ----------

  function ShutOne(st: Stores, item: TaskInfo, o: Outcome): Stores {
    if item.payload.None? then st
    else Stores(Updated(st.views, o.first, item.payload.value, MarkFailed("the task queue was closed")),
                Deleted(st.queue, o.second, item.q))
  }

  function ShutAll(st: Stores, items: seq<TaskInfo>, os: seq<Outcome>): Stores
    requires |os| == |items|
  {
    if items == [] then st
    else ShutOne(ShutAll(st, Front(items), Front(os)), Last(items), Last(os))
  }

  /** The calls for one entry: its record is failed first and the entry dropped after that, come what may. */
  function ShutOneLog(log: Log, st: Stores, item: TaskInfo, o: Outcome): Log {
    if item.payload.None? then log
    else
      var id := item.payload.value;
      var mark := WriteRecord(id, MarkFailed("the task queue was closed"), o.first && Accepts(st.views, id));
      Then(Then(log, mark), DropEntry(item.q, o.second && CanDelete(st.queue, item.q)))
  }

  function ShutAllLog(log: Log, st: Stores, items: seq<TaskInfo>, os: seq<Outcome>): Log
    requires |os| == |items|
  {
    if items == [] then log
    else
      ShutOneLog(ShutAllLog(log, st, Front(items), Front(os)), ShutAll(st, Front(items), Front(os)),
                 Last(items), Last(os))
  }

  // ---------- bulk deletion ----------

  function BulkOne(v: Views, queue: Queue, id: TaskId, o: Outcome): Queue {
    if o.first && id in v.cache && v.cache[id].queueId.Some? then Deleted(queue, o.second, v.cache[id].queueId.value)
    else queue
  }

  function BulkAll(v: Views, queue: Queue, ids: seq<TaskId>, os: seq<Outcome>): Queue
    requires |os| == |ids|
  {
    if ids == [] then queue
    else BulkOne(v, BulkAll(v, queue, Front(ids), Front(os)), Last(ids), Last(os))
  }

  /** The calls for one task: its record is read and, if it names an entry, that entry dropped. */
  function BulkOneLog(log: Log, v: Views, queue: Queue, id: TaskId, o: Outcome): Log {
    var got := o.first && id in v.cache;
    var read := Then(log, ReadRecord(id, got));
    if got && v.cache[id].queueId.Some? then
      var q := v.cache[id].queueId.value;
      Then(read, DropEntry(q, o.second && CanDelete(queue, q)))
    else read
  }

  function BulkAllLog(log: Log, v: Views, queue: Queue, ids: seq<TaskId>, os: seq<Outcome>): Log
    requires |os| == |ids|
  {
    if ids == [] then log
    else
      BulkOneLog(BulkAllLog(log, v, queue, Front(ids), Front(os)), v, BulkAll(v, queue, Front(ids), Front(os)),
                 Last(ids), Last(os))
  }

}
