/** What passes of the archive sweep, the shutdown sweep and the bulk deletion conserve and achieve. */
module Housekeeping {

  import opened Wrappers
  import opened Sequences
  import opened Records
  import opened Queues
  import opened Protocol
  import opened Passes

  function Qs(items: seq<TaskInfo>): set<QueueId> {
    set i | 0 <= i < |items| :: items[i].q
  }

  function Tasks(items: seq<TaskInfo>): set<TaskId> {
    set i | 0 <= i < |items| && items[i].payload.Some? :: items[i].payload.value
  }

  /** The records are as before, except that some records of `tasks` are failed now. */
  ghost predicate OnlyFails(v: Views, w: Views, tasks: set<TaskId>) {
    && w.db.Keys == v.db.Keys && w.cache.Keys == v.cache.Keys
    && (forall id :: id in v.db ==> w.db[id] == v.db[id] || (id in tasks && w.db[id].status == Failed))
    && (forall id :: id in v.cache ==> w.cache[id] == v.cache[id] || (id in tasks && w.cache[id].status == Failed))
  }

  /** The entries are as before, except that some that may be deleted are gone. */
  ghost predicate OnlyDeletes(queue: Queue, rest: Queue, qs: set<QueueId>) {
    && (forall q :: q in rest ==> q in queue && rest[q] == queue[q])
    && (forall q :: q in queue && q !in rest ==> q in qs && !queue[q].place.InActive?)
  }

  ghost predicate MarkedFailed(v: Views, id: TaskId) {
    id in v.cache && v.cache[id].status == Failed
  }

  lemma UpdateOnlyFails(v: Views, w: Views, tasks: set<TaskId>, ok: bool, id: TaskId, u: Update)
    requires OnlyFails(v, w, tasks) && u.status == Some(Failed)
    ensures OnlyFails(v, Updated(w, ok, id, u), tasks + {id})
    ensures forall i :: MarkedFailed(w, i) ==> MarkedFailed(Updated(w, ok, id, u), i)
    ensures ok && Accepts(w, id) ==> MarkedFailed(Updated(w, ok, id, u), id)
  {
  }

  lemma DeleteOnlyDeletes(queue: Queue, rest: Queue, qs: set<QueueId>, ok: bool, q: QueueId)
    requires OnlyDeletes(queue, rest, qs)
    ensures OnlyDeletes(queue, Deleted(rest, ok, q), qs + {q})
  {
  }

  lemma ItemsSnoc(items: seq<TaskInfo>)
    requires items != []
    ensures Qs(items) == Qs(Front(items)) + {Last(items).q}
    ensures Tasks(items) ==
            Tasks(Front(items)) + (if Last(items).payload.Some? then {Last(items).payload.value} else {})
  {
    var front := Front(items);
    forall q | q in Qs(items) ensures q in Qs(front) + {Last(items).q} {
      var i :| 0 <= i < |items| && items[i].q == q;
      assert i < |front| ==> front[i].q == q;
    }
    forall q | q in Qs(front) + {Last(items).q} ensures q in Qs(items) {
      if q in Qs(front) {
        var i :| 0 <= i < |front| && front[i].q == q;
        assert items[i].q == q;
      }
    }
    forall id | id in Tasks(items)
      ensures id in Tasks(front) + (if Last(items).payload.Some? then {Last(items).payload.value} else {})
    {
      var i :| 0 <= i < |items| && items[i].payload == Some(id);
      assert i < |front| ==> front[i].payload == Some(id);
    }
    forall id | id in Tasks(front) ensures id in Tasks(items) {
      var i :| 0 <= i < |front| && front[i].payload == Some(id);
      assert items[i].payload == Some(id);
    }
  }

  // ---------- the archive sweep ----------

  /** Some item stands for the entry, and its record is failed or the item failed long ago. */
  ghost predicate Accounted(w: Views, items: seq<TaskInfo>, nows: seq<int>, q: QueueId)
    requires |nows| == |items|
  {
    exists i :: 0 <= i < |items| && items[i].q == q && items[i].payload.Some?
                && (MarkedFailed(w, items[i].payload.value) || nows[i] >= items[i].failedAt + TWELVE_HOURS)
  }

  lemma AccountedStays(v: Views, w: Views, items: seq<TaskInfo>, nows: seq<int>, q: QueueId)
    requires items != [] && |nows| == |items|
    requires Accounted(v, Front(items), Front(nows), q)
    requires forall i :: MarkedFailed(v, i) ==> MarkedFailed(w, i)
    ensures Accounted(w, items, nows, q)
  {
    var i :| 0 <= i < |Front(items)| && Front(items)[i].q == q && Front(items)[i].payload.Some?
             && (MarkedFailed(v, Front(items)[i].payload.value)
                 || Front(nows)[i] >= Front(items)[i].failedAt + TWELVE_HOURS);
    assert items[i] == Front(items)[i] && nows[i] == Front(nows)[i];
  }

  lemma ArchiveOneAccounts(st: Stores, items: seq<TaskInfo>, nows: seq<int>, o: Outcome)
    requires items != [] && |nows| == |items|
    ensures var t := ArchiveOne(st, Last(items), o, Last(nows));
            && (forall q :: q in st.queue && q !in t.queue ==> Accounted(t.views, items, nows, q))
            && (forall i :: MarkedFailed(st.views, i) ==> MarkedFailed(t.views, i))
  {
    var item, t := Last(items), ArchiveOne(st, Last(items), o, Last(nows));
    if item.payload.Some? {
      UpdateOnlyFails(st.views, st.views, {}, o.first, item.payload.value, MarkFailed("failed due to system errors"));
    }
    forall q | q in st.queue && q !in t.queue ensures Accounted(t.views, items, nows, q) {
      assert items[|items| - 1].q == q;
    }
  }

  /**
   Whatever calls fail: an entry that the archive sweep removes either had its record set to failed
   or failed at least twelve hours ago; records change only to failed, and only those of items.
   */
  lemma {:induction false} ArchiveLosesNothing(st: Stores, items: seq<TaskInfo>, os: seq<Outcome>, nows: seq<int>)
    requires |os| == |nows| == |items|
    ensures var t := ArchiveAll(st, items, os, nows);
            && OnlyFails(st.views, t.views, Tasks(items))
            && OnlyDeletes(st.queue, t.queue, Qs(items))
            && (forall q :: q in st.queue && q !in t.queue ==> Accounted(t.views, items, nows, q))
    decreases |items|
  {
    if items != [] {
      ArchiveLosesNothing(st, Front(items), Front(os), Front(nows));
      var s1 := ArchiveAll(st, Front(items), Front(os), Front(nows));
      var item, o := Last(items), Last(os);
      var t := ArchiveOne(s1, item, o, Last(nows));
      ItemsSnoc(items);
      ArchiveOneAccounts(s1, items, nows, o);
      if item.payload.Some? {
        var u := MarkFailed("failed due to system errors");
        UpdateOnlyFails(st.views, s1.views, Tasks(Front(items)), o.first, item.payload.value, u);
        DeleteOnlyDeletes(st.queue, s1.queue, Qs(Front(items)), o.second, item.q);
      }
      forall q | q in st.queue && q !in t.queue ensures Accounted(t.views, items, nows, q) {
        if q !in s1.queue {
          AccountedStays(s1.views, t.views, items, nows, q);
        }
      }
    }
  }

  /** Every item parses, and either its record is there to be failed or it failed twelve hours ago. */
  ghost predicate AllDue(v: Views, items: seq<TaskInfo>, nows: seq<int>)
    requires |nows| == |items|
  {
    forall i :: 0 <= i < |items| ==>
      items[i].payload.Some? && (items[i].payload.value in v.cache || nows[i] - items[i].failedAt >= 43200)
  }

  /** With every call granted, the archive sweep removes exactly the entries it listed, if they are due. */
  lemma {:induction false} ArchiveClears(st: Stores, items: seq<TaskInfo>, os: seq<Outcome>, nows: seq<int>)
    requires |os| == |nows| == |items| && AllGranted(os) && AllDue(st.views, items, nows)
    requires forall q :: q in Qs(items) ==> CanDelete(st.queue, q)
    ensures var t := ArchiveAll(st, items, os, nows);
            && t.queue == st.queue - Qs(items)
            && t.views.cache.Keys == st.views.cache.Keys
            && (forall id :: id in Tasks(items) && id in st.views.cache ==> MarkedFailed(t.views, id))
    decreases |items|
  {
    if items != [] {
      ItemsSnoc(items);
      ArchiveClears(st, Front(items), Front(os), Front(nows));
      var s1 := ArchiveAll(st, Front(items), Front(os), Front(nows));
      var item := Last(items);
      assert items[|items| - 1] == item && os[|items| - 1] == Outcome(true, true);
      UpdateOnlyFails(s1.views, s1.views, {}, true, item.payload.value, MarkFailed("failed due to system errors"));
      var t := ArchiveOne(s1, item, Last(os), Last(nows));
      assert t.queue == s1.queue - {item.q};
      assert s1.queue - {item.q} == st.queue - Qs(items);
    }
  }

  /** One granted pass of the archive sweep over a page that is due, expired records that failed long ago included. */
  ghost predicate ArchivePassed(st: Stores, t: Stores, limit: nat) {
    exists page, os, nows ::
      && IsPage(st.queue, 4, limit, page)
      && |os| == |nows| == |page| && AllGranted(os)
      && AllDue(st.views, Infos(st.queue, page), nows)
      && t == ArchiveAll(st, Infos(st.queue, page), os, nows)
  }

  function Min(a: int, b: int): int {
    if a < b then a else b
  }

  lemma PageSize(queue: Queue, list: nat, limit: nat, page: seq<QueueId>)
    requires IsPage(queue, list, limit, page)
    ensures |page| == Min(|OnList(queue, list)|, limit)
    ensures |OnList(queue, list) - Elems(page)| == |OnList(queue, list)| - |page|
  {
    var got := Elems(page);
    NoDupSize(page);
    assert got <= OnList(queue, list);
    assert OnList(queue, list) == got + (OnList(queue, list) - got);
    SubsetSize(got, OnList(queue, list));
    if |page| < limit {
      assert got == OnList(queue, list);
    }
  }

  lemma InfosQs(queue: Queue, page: seq<QueueId>)
    requires forall q :: q in page ==> q in queue
    ensures Qs(Infos(queue, page)) == Elems(page)
  {
    var infos := Infos(queue, page);
    forall q | q in page ensures q in Qs(infos) {
      var i :| 0 <= i < |page| && page[i] == q;
      assert infos[i].q == q;
    }
  }

  /** Without a page of one list, the queue keeps everything else. */
  lemma PageGone(queue: Queue, list: nat, limit: nat, page: seq<QueueId>, gone: set<QueueId>)
    requires IsPage(queue, list, limit, page)
    requires forall q :: q in OnList(queue, list) ==> (q in gone <==> q in page)
    ensures |OnList(queue - gone, list)| == |OnList(queue, list)| - |page|
    ensures |page| == Min(|OnList(queue, list)|, limit)
  {
    PageSize(queue, list, limit, page);
    assert OnList(queue - gone, list) == OnList(queue, list) - Elems(page);
  }

  lemma OnePassShrinks(st: Stores, limit: nat, page: seq<QueueId>, os: seq<Outcome>, nows: seq<int>)
    requires IsPage(st.queue, 4, limit, page)
    requires |os| == |nows| == |page| && AllGranted(os) && AllDue(st.views, Infos(st.queue, page), nows)
    ensures var t := ArchiveAll(st, Infos(st.queue, page), os, nows);
            |OnList(t.queue, 4)| == |OnList(st.queue, 4)| - Min(|OnList(st.queue, 4)|, limit)
  {
    assert forall q :: q in page ==> CanDelete(st.queue, q);
    InfosQs(st.queue, page);
    ArchiveClears(st, Infos(st.queue, page), os, nows);
    assert ArchiveAll(st, Infos(st.queue, page), os, nows).queue == st.queue - Elems(page);
    PageGone(st.queue, 4, limit, page, Elems(page));
  }

  lemma ArchivePassShrinks(st: Stores, t: Stores, limit: nat)
    requires ArchivePassed(st, t, limit)
    ensures |OnList(t.queue, 4)| == |OnList(st.queue, 4)| - Min(|OnList(st.queue, 4)|, limit)
  {
    var page, os, nows :| IsPage(st.queue, 4, limit, page) && |os| == |nows| == |page| && AllGranted(os)
      && AllDue(st.views, Infos(st.queue, page), nows) && t == ArchiveAll(st, Infos(st.queue, page), os, nows);
    OnePassShrinks(st, limit, page, os, nows);
  }

  lemma MinSteps(n: nat, k: nat, limit: nat)
    requires k > 0
    ensures var rest := n - Min(n, (k - 1) * limit);
            rest - Min(rest, limit) == n - Min(n, k * limit)
  {
    assert k * limit == (k - 1) * limit + limit;
  }

  /** `k` granted passes remove exactly min(n, k * limit) of n archived entries. */
  lemma {:induction false} ArchivePassesDrain(sts: seq<Stores>, k: nat, limit: nat)
    requires |sts| > k
    requires forall i :: 0 <= i < k ==> ArchivePassed(sts[i], sts[i + 1], limit)
    ensures |OnList(sts[k].queue, 4)| == |OnList(sts[0].queue, 4)| - Min(|OnList(sts[0].queue, 4)|, k * limit)
    decreases k
  {
    if k > 0 {
      ArchivePassesDrain(sts, k - 1, limit);
      ArchivePassShrinks(sts[k - 1], sts[k], limit);
      MinSteps(|OnList(sts[0].queue, 4)|, k, limit);
    }
  }

  // ---------- the shutdown sweep ----------

  /** With every call granted, the shutdown sweep removes what it listed and fails its records. */
  lemma {:induction false} ShutdownClears(st: Stores, items: seq<TaskInfo>, os: seq<Outcome>)
    requires |os| == |items| && AllGranted(os)
    requires forall i :: 0 <= i < |items| ==> items[i].payload.Some?
    requires forall q :: q in Qs(items) ==> CanDelete(st.queue, q)
    ensures var t := ShutAll(st, items, os);
            && t.queue == st.queue - Qs(items)
            && OnlyFails(st.views, t.views, Tasks(items))
            && (forall id :: id in Tasks(items) && id in st.views.cache ==> MarkedFailed(t.views, id))
    decreases |items|
  {
    if items != [] {
      ItemsSnoc(items);
      assert forall i :: 0 <= i < |Front(items)| ==> Front(items)[i] == items[i];
      ShutdownClears(st, Front(items), Front(os));
      var s1 := ShutAll(st, Front(items), Front(os));
      var item := Last(items);
      assert items[|items| - 1] == item && os[|items| - 1] == Outcome(true, true);
      var u := MarkFailed("the task queue was closed");
      UpdateOnlyFails(st.views, s1.views, Tasks(Front(items)), true, item.payload.value, u);
      var t := ShutOne(s1, item, Last(os));
      assert t.queue == s1.queue - {item.q} || item.q !in s1.queue;
      assert t.queue == st.queue - Qs(items);
    }
  }

  function ThreePages(pages: seq<seq<QueueId>>): seq<QueueId>
    requires |pages| == 3
  {
    pages[0] + pages[1] + pages[2]
  }

  lemma DisjointSizes<T>(a: set<T>, b: set<T>, c: set<T>)
    requires a !! b && a !! c && b !! c
    ensures |a + b + c| == |a| + |b| + |c|
  {
    assert a + b !! c;
  }

  lemma WaitingLists(queue: Queue)
    ensures WaitingSet(queue) == OnList(queue, 0) + OnList(queue, 1) + OnList(queue, 2)
    ensures |WaitingSet(queue)| == |OnList(queue, 0)| + |OnList(queue, 1)| + |OnList(queue, 2)|
  {
    assert WaitingSet(queue) == OnList(queue, 0) + OnList(queue, 1) + OnList(queue, 2);
    DisjointSizes(OnList(queue, 0), OnList(queue, 1), OnList(queue, 2));
  }

  lemma PageApart(queue: Queue, limit: nat, pages: seq<seq<QueueId>>, i: nat)
    requires |pages| == 3 && i < 3
    requires IsPage(queue, 0, limit, pages[0]) && IsPage(queue, 1, limit, pages[1]) && IsPage(queue, 2, limit, pages[2])
    ensures |OnList(queue - Elems(ThreePages(pages)), i)| == |OnList(queue, i)| - |pages[i]|
    ensures |pages[i]| == Min(|OnList(queue, i)|, limit)
  {
    var gone := Elems(ThreePages(pages));
    assert forall q :: q in gone <==> q in pages[0] || q in pages[1] || q in pages[2];
    PageGone(queue, i, limit, pages[i], gone);
  }

  lemma RemainderCount(queue: Queue, limit: nat, pages: seq<seq<QueueId>>)
    requires |pages| == 3
    requires IsPage(queue, 0, limit, pages[0]) && IsPage(queue, 1, limit, pages[1]) && IsPage(queue, 2, limit, pages[2])
    ensures var rest := queue - Elems(ThreePages(pages));
            && |WaitingSet(rest)| == |WaitingSet(queue)| - |pages[0]| - |pages[1]| - |pages[2]|
            && |WaitingSet(rest)| <= |WaitingSet(queue)| - Min(|WaitingSet(queue)|, limit)
  {
    PageApart(queue, limit, pages, 0);
    PageApart(queue, limit, pages, 1);
    PageApart(queue, limit, pages, 2);
    WaitingLists(queue);
    WaitingLists(queue - Elems(ThreePages(pages)));
  }

  /**
   A quiescent shutdown with every call granted: exactly the listed entries are gone and their
   records failed, active entries stay, and of all waiting entries at most those beyond one page
   remain.
   */
  lemma ShutdownLeavesRemainder(st: Stores, limit: nat, pages: seq<seq<QueueId>>, os: seq<Outcome>)
    requires |pages| == 3 && forall i: nat :: i < 3 ==> IsPage(st.queue, i, limit, pages[i])
    requires |os| == |ThreePages(pages)| && AllGranted(os)
    requires forall q :: q in ThreePages(pages) ==> q in st.queue && st.queue[q].payload.Some?
    ensures var items := Infos(st.queue, ThreePages(pages));
            var t := ShutAll(st, items, os);
            && t.queue == st.queue - Elems(ThreePages(pages))
            && OnlyFails(st.views, t.views, Tasks(items))
            && (forall id :: id in Tasks(items) && id in st.views.cache ==> MarkedFailed(t.views, id))
            && ActiveSet(t.queue) == ActiveSet(st.queue)
            && |WaitingSet(t.queue)| == |WaitingSet(st.queue)| - |pages[0]| - |pages[1]| - |pages[2]|
            && |WaitingSet(t.queue)| <= |WaitingSet(st.queue)| - Min(|WaitingSet(st.queue)|, limit)
  {
    var ids := ThreePages(pages);
    InfosQs(st.queue, ids);
    forall q | q in ids ensures CanDelete(st.queue, q) {
      assert q in pages[0] || q in pages[1] || q in pages[2];
    }
    assert forall i :: 0 <= i < |ids| ==> ids[i] in ids;
    ShutdownClears(st, Infos(st.queue, ids), os);
    RemainderCount(st.queue, limit, pages);
    assert ActiveSet(st.queue - Elems(ids)) == ActiveSet(st.queue);
  }

  // ---------- bulk deletion ----------

  /** How many deletions succeeded. */
  function BulkCount(v: Views, queue: Queue, ids: seq<TaskId>, os: seq<Outcome>): nat
    requires |os| == |ids|
  {
    if ids == [] then 0
    else
      var before := BulkAll(v, queue, Front(ids), Front(os));
      BulkCount(v, queue, Front(ids), Front(os)) + (if BulkOne(v, before, Last(ids), Last(os)) != before then 1 else 0)
  }

  lemma DeletedSize(queue: Queue, ok: bool, q: QueueId)
    ensures |Deleted(queue, ok, q)| == |queue| - (if Deleted(queue, ok, q) != queue then 1 else 0)
    ensures ActiveSet(Deleted(queue, ok, q)) == ActiveSet(queue)
  {
    if ok && CanDelete(queue, q) {
      assert (queue - {q}).Keys == queue.Keys - {q};
      assert q !in (queue - {q});
    }
  }

  /** For any listed ids and any failures the count is the drop in size, and active entries stay. */
  lemma {:induction false} BulkConserves(v: Views, queue: Queue, ids: seq<TaskId>, os: seq<Outcome>)
    requires |os| == |ids|
    ensures var rest := BulkAll(v, queue, ids, os);
            && |rest| + BulkCount(v, queue, ids, os) == |queue|
            && BulkCount(v, queue, ids, os) <= |ids|
            && (forall q :: q in rest ==> q in queue && rest[q] == queue[q])
            && ActiveSet(rest) == ActiveSet(queue)
    decreases |ids|
  {
    if ids != [] {
      BulkConserves(v, queue, Front(ids), Front(os));
      var before := BulkAll(v, queue, Front(ids), Front(os));
      if Last(os).first && Last(ids) in v.cache && v.cache[Last(ids)].queueId.Some? {
        DeletedSize(before, Last(os).second, v.cache[Last(ids)].queueId.value);
      }
    }
  }

}
