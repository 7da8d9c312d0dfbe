/** The sweeps, loop by loop and call by call. */
module Sweepers {

  import opened Sequences
  import opened Records
  import opened Queues
  import opened Protocol
  import opened Invariant
  import opened Passes
  import opened Recovery
  import opened Housekeeping
  import opened Itemized
  import opened Journals
  import opened Services

  /** The page of a list call, or nothing after an error. */
  ghost predicate Listed(queue: Queue, list: nat, limit: nat, page: seq<QueueId>, certain: bool) {
    IsPage(queue, list, limit, page) || (!certain && page == [])
  }

  /** The entries that list calls returned, in order. */
  method InfosOf(distributor: Distributor, page: seq<QueueId>) returns (tasks: seq<TaskInfo>)
    requires forall q :: q in page ==> q in distributor.queue
    ensures tasks == Infos(distributor.queue, page)
  {
    tasks := [];
    for i := 0 to |page|
      invariant tasks == Infos(distributor.queue, page)[..i]
    {
      assert page[i] in page;
      tasks := tasks + [InfoOf(distributor.queue, page[i])];
    }
  }

  lemma ArchiveAllGrows(st: Stores, items: seq<TaskInfo>, os: seq<Outcome>, nows: seq<int>, o: Outcome, now: int)
    requires |os| == |nows| < |items|
    ensures var before := ArchiveAll(st, items[..|os|], os, nows);
            && ArchiveAll(st, items[..|os| + 1], os + [o], nows + [now]) == ArchiveOne(before, items[|os|], o, now)
            && forall log :: ArchiveAllLog(log, st, items[..|os| + 1], os + [o], nows + [now]) ==
                 ArchiveOneLog(ArchiveAllLog(log, st, items[..|os|], os, nows), before, items[|os|], o, now)
  {
    assert Front(items[..|os| + 1]) == items[..|os|] && Front(os + [o]) == os && Front(nows + [now]) == nows;
  }

  lemma DistinctInfos(queue: Queue, page: seq<QueueId>)
    requires NoDup(page) && forall q :: q in page ==> q in queue
    ensures DistinctEntries(Infos(queue, page))
  {
  }

  /** One turn of the archive loop. */
  method ArchiveTask(task: TaskInfo, now: int, distributor: Distributor, webhook: Webhook) returns (ghost o: Outcome)
    requires distributor.journal == webhook.journal
    modifies webhook`views, distributor`queue, webhook.journal
    ensures Stores(webhook.views, distributor.queue) ==
            ArchiveOne(old(Stores(webhook.views, distributor.queue)), task, o, now)
    ensures webhook.reliable && distributor.reliable ==> o == Outcome(true, true)
    ensures webhook.journal.log ==
            ArchiveOneLog(old(webhook.journal.log), old(Stores(webhook.views, distributor.queue)), task, o, now)
  {
    o := Outcome(true, true);
    if task.payload.None? {
      return;
    }
    var updated := webhook.UpdateTaskInfo(task.payload.value, MarkFailed("failed due to system errors"));
    o := Outcome(webhook.reliable || updated, true);
    if !updated && now < task.failedAt + TWELVE_HOURS {
      return;
    }
    var deleted := distributor.DeleteTask(task.q);
    o := Outcome(webhook.reliable || updated, distributor.reliable || deleted);
  }

  /** What an archive sweep over these items comes to, item by item. */
  ghost predicate Archived(st: Stores, t: Stores, items: seq<TaskInfo>, os: seq<Outcome>, nows: seq<int>)
    requires |os| == |nows| == |items|
  {
    && t == ArchiveAll(st, items, os, nows)
    && OnlyFails(st.views, t.views, Tasks(items))
    && MarkedAs(st.views, t.views, items, os, "failed due to system errors")
    && DroppedAs(st.queue, t.queue, items, ArchiveDropped(st.views, items, os, nows))
    && (forall q :: q in st.queue && q !in t.queue ==> q in Qs(items) && Accounted(t.views, items, nows, q))
  }

  /** The loop of the archive sweep over the entries it listed. */
  method ArchiveTasks(tasks: seq<TaskInfo>, distributor: Distributor, webhook: Webhook)
    returns (ghost os: seq<Outcome>, ghost nows: seq<int>)
    requires distributor.journal == webhook.journal && DistinctEntries(tasks)
    modifies webhook`views, distributor`queue, webhook.journal
    ensures |os| == |nows| == |tasks|
    ensures Archived(old(Stores(webhook.views, distributor.queue)), Stores(webhook.views, distributor.queue),
                     tasks, os, nows)
    ensures webhook.reliable && distributor.reliable ==> AllGranted(os)
    ensures webhook.journal.log ==
            ArchiveAllLog(old(webhook.journal.log), old(Stores(webhook.views, distributor.queue)), tasks, os, nows)
  {
    ghost var st0, log0 := Stores(webhook.views, distributor.queue), webhook.journal.log;
    os, nows := [], [];
    for i := 0 to |tasks|
      invariant |os| == |nows| == i
      invariant Stores(webhook.views, distributor.queue) == ArchiveAll(st0, tasks[..i], os, nows)
      invariant webhook.journal.log == ArchiveAllLog(log0, st0, tasks[..i], os, nows)
      invariant webhook.reliable && distributor.reliable ==> AllGranted(os)
    {
      var now: int := *;
      ghost var o := ArchiveTask(tasks[i], now, distributor, webhook);
      ArchiveAllGrows(st0, tasks, os, nows, o, now);
      os, nows := os + [o], nows + [now];
    }
    assert tasks[..|tasks|] == tasks;
    ArchiveLosesNothing(st0, tasks, os, nows);
    ArchiveItemized(st0, tasks, os, nows);
  }

  /**
   Marks the records of archived entries as failed and removes the entries.  Whatever calls fail,
   a removed entry has its record failed now or failed twelve hours ago, and no other record differs;
   and a listed entry stays only if its payload does not parse, its update was refused less than
   twelve hours after its failure, or its deletion was refused.
   */
  method CheckArchivedTasks(distributor: Distributor, webhook: Webhook)
    returns (ghost answered: bool, ghost page: seq<QueueId>, ghost os: seq<Outcome>, ghost nows: seq<int>)
    requires distributor.journal == webhook.journal
    modifies webhook`views, distributor`queue, webhook.journal
    ensures Listed(old(distributor.queue), 4, distributor.limit, page, distributor.reliable)
    ensures forall q :: q in page ==> q in old(distributor.queue)
    ensures |os| == |nows| == |page|
    ensures webhook.reliable && distributor.reliable ==> AllGranted(os)
    ensures Archived(old(Stores(webhook.views, distributor.queue)), Stores(webhook.views, distributor.queue),
                     Infos(old(distributor.queue), page), os, nows)
    ensures webhook.journal.log ==
            ArchiveAllLog(Then(old(webhook.journal.log), ListEntries(4, answered, page)),
                          old(Stores(webhook.views, distributor.queue)), Infos(old(distributor.queue), page), os, nows)
  {
    answered, page := false, [];
    var ids, ok := distributor.ListTasks(4);
    answered, page := ok, ids;
    var tasks := InfosOf(distributor, ids);
    DistinctInfos(distributor.queue, ids);
    os, nows := ArchiveTasks(tasks, distributor, webhook);
  }

  lemma ShutAllGrows(st: Stores, items: seq<TaskInfo>, os: seq<Outcome>, o: Outcome)
    requires |os| < |items|
    ensures var before := ShutAll(st, items[..|os|], os);
            && ShutAll(st, items[..|os| + 1], os + [o]) == ShutOne(before, items[|os|], o)
            && forall log :: ShutAllLog(log, st, items[..|os| + 1], os + [o]) ==
                 ShutOneLog(ShutAllLog(log, st, items[..|os|], os), before, items[|os|], o)
  {
    assert Front(items[..|os| + 1]) == items[..|os|] && Front(os + [o]) == os;
  }

  /** One turn of the shutdown loop: marks first and deletes after that, whatever the mark came to. */
  method CloseTask(task: TaskInfo, distributor: Distributor, webhook: Webhook) returns (ghost o: Outcome)
    requires distributor.journal == webhook.journal
    modifies webhook`views, distributor`queue, webhook.journal
    ensures Stores(webhook.views, distributor.queue) == ShutOne(old(Stores(webhook.views, distributor.queue)), task, o)
    ensures webhook.reliable && distributor.reliable ==> o == Outcome(true, true)
    ensures webhook.journal.log ==
            ShutOneLog(old(webhook.journal.log), old(Stores(webhook.views, distributor.queue)), task, o)
  {
    o := Outcome(true, true);
    if task.payload.None? {
      return;
    }
    var updated := webhook.UpdateTaskInfo(task.payload.value, MarkFailed("the task queue was closed"));
    var deleted := distributor.DeleteTask(task.q);
    o := Outcome(webhook.reliable || updated, distributor.reliable || deleted);
  }

  /** What a shutdown sweep over these items comes to, item by item. */
  ghost predicate Closed(st: Stores, t: Stores, items: seq<TaskInfo>, os: seq<Outcome>)
    requires |os| == |items|
  {
    && t == ShutAll(st, items, os)
    && MarkedAs(st.views, t.views, items, os, "the task queue was closed")
    && DroppedAs(st.queue, t.queue, items, ShutDropped(items, os))
  }

  /** The loop of the shutdown sweep over the entries it listed. */
  method CloseTasks(tasks: seq<TaskInfo>, distributor: Distributor, webhook: Webhook) returns (ghost os: seq<Outcome>)
    requires distributor.journal == webhook.journal && DistinctEntries(tasks)
    modifies webhook`views, distributor`queue, webhook.journal
    ensures |os| == |tasks|
    ensures Closed(old(Stores(webhook.views, distributor.queue)), Stores(webhook.views, distributor.queue), tasks, os)
    ensures webhook.reliable && distributor.reliable ==> AllGranted(os)
    ensures webhook.journal.log ==
            ShutAllLog(old(webhook.journal.log), old(Stores(webhook.views, distributor.queue)), tasks, os)
  {
    ghost var st0, log0 := Stores(webhook.views, distributor.queue), webhook.journal.log;
    os := [];
    for i := 0 to |tasks|
      invariant |os| == i
      invariant Stores(webhook.views, distributor.queue) == ShutAll(st0, tasks[..i], os)
      invariant webhook.journal.log == ShutAllLog(log0, st0, tasks[..i], os)
      invariant webhook.reliable && distributor.reliable ==> AllGranted(os)
    {
      ghost var o := CloseTask(tasks[i], distributor, webhook);
      ShutAllGrows(st0, tasks, os, o);
      os := os + [o];
    }
    assert tasks[..|tasks|] == tasks;
    ShutItemized(st0, tasks, os);
  }

  /** What a shutdown sweep with every call granted comes to. */
  ghost predicate ShutDown(st: Stores, t: Stores, limit: nat, pages: seq<seq<QueueId>>)
    requires |pages| == 3 && forall q :: q in ThreePages(pages) ==> q in st.queue
  {
    && t.queue == st.queue - Elems(ThreePages(pages))
    && OnlyFails(st.views, t.views, Tasks(Infos(st.queue, ThreePages(pages))))
    && (forall id :: id in Tasks(Infos(st.queue, ThreePages(pages))) && id in st.views.cache ==>
          MarkedFailed(t.views, id))
    && ActiveSet(t.queue) == ActiveSet(st.queue)
    && |WaitingSet(t.queue)| <= |WaitingSet(st.queue)| - Min(|WaitingSet(st.queue)|, limit)
  }

  /** No entry is on two lists. */
  lemma PagesAreDistinct(queue: Queue, limit: nat, pages: seq<seq<QueueId>>)
    requires |pages| == 3 && forall i :: 0 <= i < 3 ==> Listed(queue, i, limit, pages[i], false)
    ensures forall q :: q in ThreePages(pages) ==> q in queue
    ensures DistinctEntries(Infos(queue, ThreePages(pages)))
  {
    PageIsOn(queue, 0, limit, pages[0]);
    PageIsOn(queue, 1, limit, pages[1]);
    PageIsOn(queue, 2, limit, pages[2]);
    NoDupOfTwo(pages[0], pages[1]);
    NoDupOfTwo(pages[0] + pages[1], pages[2]);
    DistinctInfos(queue, ThreePages(pages));
  }

  lemma PageIsOn(queue: Queue, list: nat, limit: nat, page: seq<QueueId>)
    requires Listed(queue, list, limit, page, false)
    ensures NoDup(page) && forall q :: q in page ==> q in OnList(queue, list)
  {
  }

  lemma NoDupOfTwo(xs: seq<QueueId>, ys: seq<QueueId>)
    requires NoDup(xs) && NoDup(ys) && forall x :: x in xs ==> x !in ys
    ensures NoDup(xs + ys)
  {
    forall i, j | 0 <= i < j < |xs + ys| ensures (xs + ys)[i] != (xs + ys)[j] {
      assert i < |xs| ==> (xs + ys)[i] in xs;
      assert j >= |xs| ==> (xs + ys)[j] in ys;
    }
  }

  /** The three list calls, in the order of the lists. */
  ghost function ThreeLists(log: Log, answered: seq<bool>, pages: seq<seq<QueueId>>): Log
    requires |answered| == |pages| == 3
  {
    Then(Then(Then(log, ListEntries(0, answered[0], pages[0])), ListEntries(1, answered[1], pages[1])),
         ListEntries(2, answered[2], pages[2]))
  }

  /** The entries that the three list calls of the shutdown sweep return. */
  method ListWaiting(distributor: Distributor)
    returns (tasks: seq<TaskInfo>, ghost pages: seq<seq<QueueId>>, ghost answered: seq<bool>)
    modifies distributor.journal
    ensures |pages| == |answered| == 3
    ensures forall i :: 0 <= i < 3 ==> Listed(distributor.queue, i, distributor.limit, pages[i], distributor.reliable)
    ensures forall q :: q in ThreePages(pages) ==> q in distributor.queue
    ensures tasks == Infos(distributor.queue, ThreePages(pages)) && DistinctEntries(tasks)
    ensures distributor.journal.log == ThreeLists(old(distributor.journal.log), answered, pages)
  {
    var scheduled, ok0 := distributor.ListTasks(0);
    var pending, ok1 := distributor.ListTasks(1);
    var retry, ok2 := distributor.ListTasks(2);
    pages, answered := [scheduled, pending, retry], [ok0, ok1, ok2];
    PagesAreDistinct(distributor.queue, distributor.limit, pages);
    tasks := InfosOf(distributor, scheduled + pending + retry);
  }

  /**
   Marks the records of all waiting entries as failed and removes the entries.  When every call is
   granted and every payload parses, exactly the listed entries go and what remains waiting is what
   did not fit the pages.
   */
  method ShutdownDistributor(distributor: Distributor, webhook: Webhook)
    returns (ghost pages: seq<seq<QueueId>>, ghost answered: seq<bool>, ghost os: seq<Outcome>)
    requires distributor.journal == webhook.journal
    modifies webhook`views, distributor`queue, webhook.journal
    ensures |pages| == |answered| == 3
    ensures forall i :: 0 <= i < 3 ==>
              Listed(old(distributor.queue), i, distributor.limit, pages[i], distributor.reliable)
    ensures forall q :: q in ThreePages(pages) ==> q in old(distributor.queue)
    ensures |os| == |ThreePages(pages)|
    ensures Closed(old(Stores(webhook.views, distributor.queue)), Stores(webhook.views, distributor.queue),
                   Infos(old(distributor.queue), ThreePages(pages)), os)
    ensures webhook.reliable && distributor.reliable
            && (forall q :: q in WaitingSet(old(distributor.queue)) ==> old(distributor.queue)[q].payload.Some?) ==>
              ShutDown(old(Stores(webhook.views, distributor.queue)), Stores(webhook.views, distributor.queue),
                       distributor.limit, pages)
    ensures webhook.journal.log ==
            ShutAllLog(ThreeLists(old(webhook.journal.log), answered, pages),
                       old(Stores(webhook.views, distributor.queue)),
                       Infos(old(distributor.queue), ThreePages(pages)), os)
  {
    ghost var st0 := Stores(webhook.views, distributor.queue);
    var tasks;
    tasks, pages, answered := ListWaiting(distributor);
    os := CloseTasks(tasks, distributor, webhook);
    if webhook.reliable && distributor.reliable
       && (forall q :: q in WaitingSet(st0.queue) ==> st0.queue[q].payload.Some?) {
      QuietShutdown(st0, distributor.limit, pages, os);
    }
  }

  lemma QuietShutdown(st: Stores, limit: nat, pages: seq<seq<QueueId>>, os: seq<Outcome>)
    requires |pages| == 3 && forall i: nat :: i < 3 ==> IsPage(st.queue, i, limit, pages[i])
    requires forall q :: q in WaitingSet(st.queue) ==> st.queue[q].payload.Some?
    requires |os| == |ThreePages(pages)| && AllGranted(os)
    ensures forall q :: q in ThreePages(pages) ==> q in st.queue
    ensures ShutDown(st, ShutAll(st, Infos(st.queue, ThreePages(pages)), os), limit, pages)
  {
    ListedParse(st.queue, limit, pages);
    ShutdownLeavesRemainder(st, limit, pages, os);
  }

  lemma ListedParse(queue: Queue, limit: nat, pages: seq<seq<QueueId>>)
    requires |pages| == 3 && forall i: nat :: i < 3 ==> IsPage(queue, i, limit, pages[i])
    requires forall q :: q in WaitingSet(queue) ==> queue[q].payload.Some?
    ensures forall q :: q in ThreePages(pages) ==> q in queue && queue[q].payload.Some?
  {
    forall q | q in ThreePages(pages) ensures q in WaitingSet(queue) {
      assert q in pages[0] || q in pages[1] || q in pages[2];
    }
  }

  /** The union of what the four list calls are answered with. */
  method ListUnfinishedTasks(distributor: Distributor) returns (tasks: seq<TaskInfo>, ghost xs: seq<Scanned>)
    modifies distributor.journal
    ensures FourAnswers(distributor.queue, distributor.limit, xs)
    ensures distributor.journal.log == ScanLog(old(distributor.journal.log), xs, 4)
    ensures (set info | info in tasks :: info.q) == SeenIn(xs, 4)
    ensures distributor.reliable ==> forall i :: 0 <= i < 4 ==> xs[i].Page?
    ensures forall info :: info in tasks ==> info.q in LiveSet(distributor.queue)
    ensures distributor.reliable
            && ListsFit(distributor.queue, distributor.limit) ==>
              (set info | info in tasks :: info.q) == LiveSet(distributor.queue)
  {
    var ids: seq<QueueId> := [];
    ghost var log0 := distributor.journal.log;
    xs := [];
    for list := 0 to 4
      invariant |xs| == list && Elems(ids) == SeenIn(xs, list)
      invariant distributor.journal.log == ScanLog(log0, xs, list)
      invariant forall i: nat :: i < list && xs[i].Page? ==> IsPage(distributor.queue, i, distributor.limit, xs[i].page)
      invariant distributor.reliable ==> forall i :: 0 <= i < list ==> xs[i].Page?
    {
      var page, ok := distributor.ListTasks(list);
      ghost var x := if ok then Page(page) else NoPage;
      SeenInFirst(xs, x, list);
      ScanLogFirst(log0, xs, x, list);
      assert Elems(ids + page) == Elems(ids) + Found(x);
      ids, xs := ids + page, xs + [x];
    }
    SeenIsLive(distributor.queue, distributor.limit, xs, 4);
    if distributor.reliable
       && ListsFit(distributor.queue, distributor.limit) {
      SeenIsAll(distributor.queue, distributor.limit, xs);
    }
    assert forall q :: q in ids ==> q in Elems(ids);
    tasks := InfosOf(distributor, ids);
    InfosName(distributor.queue, ids);
    assert forall info :: info in tasks ==> info.q in (set i | i in tasks :: i.q);
  }

  lemma {:induction false} ScanLogFirst(log: Log, xs: seq<Scanned>, x: Scanned, n: nat)
    requires n <= |xs|
    ensures ScanLog(log, xs + [x], n) == ScanLog(log, xs, n)
    decreases n
  {
    if n > 0 {
      ScanLogFirst(log, xs, x, n - 1);
    }
  }

  lemma {:induction false} SeenIsLive(queue: Queue, limit: nat, xs: seq<Scanned>, n: nat)
    requires FourAnswers(queue, limit, xs) && n <= 4
    ensures SeenIn(xs, n) <= LiveSet(queue)
    decreases n
  {
    if n > 0 {
      SeenIsLive(queue, limit, xs, n - 1);
    }
  }

  lemma {:induction false} SeenHas(xs: seq<Scanned>, n: nat, i: nat, q: QueueId)
    requires i < n <= |xs| && q in Found(xs[i])
    ensures q in SeenIn(xs, n)
    decreases n
  {
    if i < n - 1 {
      SeenHas(xs, n - 1, i, q);
    }
  }

  /** Four answered calls whose lists fit their page show every live entry. */
  lemma SeenIsAll(queue: Queue, limit: nat, xs: seq<Scanned>)
    requires FourAnswers(queue, limit, xs) && forall i :: 0 <= i < 4 ==> xs[i].Page?
    requires ListsFit(queue, limit)
    ensures SeenIn(xs, 4) == LiveSet(queue)
  {
    SeenIsLive(queue, limit, xs, 4);
    forall q | q in LiveSet(queue) ensures q in SeenIn(xs, 4) {
      var list := Rank(queue[q].place);
      PageCovers(queue, list, limit, xs[list].page);
      assert q in OnList(queue, list);
      SeenHas(xs, 4, list, q);
    }
  }

  lemma InfosName(queue: Queue, ids: seq<QueueId>)
    requires forall q :: q in ids ==> q in queue
    ensures (set info | info in Infos(queue, ids) :: info.q) == Elems(ids)
  {
    var infos := Infos(queue, ids);
    forall q | q in ids ensures q in (set info | info in infos :: info.q) {
      var i :| 0 <= i < |ids| && ids[i] == q;
      assert infos[i] in infos;
    }
  }

  lemma CheckAllGrows(v: Views, seen: set<QueueId>, ids: seq<TaskId>, status: Status, os: seq<Outcome>, o: Outcome)
    requires |os| < |ids|
    ensures var (v1, n1) := CheckAll(v, seen, ids[..|os|], status, os);
            var (v2, n2) := CheckOne(v1, seen, ids[|os|], status, o);
            && CheckAll(v, seen, ids[..|os| + 1], status, os + [o]) == (v2, n1 + n2)
            && forall log :: CheckAllLog(log, v, seen, ids[..|os| + 1], status, os + [o]) ==
                 CheckOneLog(CheckAllLog(log, v, seen, ids[..|os|], status, os), v1, seen, ids[|os|], status, o)
  {
    assert Front(ids[..|os| + 1]) == ids[..|os|] && Front(os + [o]) == os;
  }

  /** One turn of the loop: a task is counted and failed if its record cannot be read or nobody works on it. */
  method CheckTask(id: TaskId, unfinished: seq<QueueId>, status: Status, webhook: Webhook)
    returns (failed: nat, ghost o: Outcome)
    modifies webhook`views, webhook.journal
    ensures (webhook.views, failed) == CheckOne(old(webhook.views), Elems(unfinished), id, status, o)
    ensures webhook.reliable ==> o == Outcome(true, true)
    ensures webhook.journal.log ==
            CheckOneLog(old(webhook.journal.log), old(webhook.views), Elems(unfinished), id, status, o)
  {
    failed, o := 0, Outcome(true, true);
    var task := webhook.GetTaskInfoObject(id);
    if task.None? {
      var written := webhook.UpdateDatabase(id, MarkFailed("Unknown failure"));
      failed, o := 1, Outcome(webhook.reliable, written);
      return;
    }
    if (task.value.queueId.None? || task.value.queueId.value !in unfinished) && task.value.status == status {
      var written := webhook.UpdateTaskInfo(id, MarkFailed("Unknown failure"));
      failed, o := 1, Outcome(true, written);
    }
  }

  /** Checks listed tasks one by one against the entries seen in the queue. */
  method CheckListed(taskIDs: seq<TaskId>, unfinished: seq<QueueId>, status: Status, webhook: Webhook)
    returns (numFailedTasks: nat, ghost os: seq<Outcome>)
    requires NoDup(taskIDs)
    modifies webhook`views, webhook.journal
    ensures |os| == |taskIDs|
    ensures (webhook.views, numFailedTasks) == CheckAll(old(webhook.views), Elems(unfinished), taskIDs, status, os)
    ensures Checked(old(webhook.views), webhook.views, Elems(unfinished), taskIDs, status, os)
    ensures numFailedTasks == |CountedAmong(old(webhook.views), Elems(unfinished), taskIDs, status, os)|
    ensures webhook.reliable ==> AllGranted(os)
    ensures webhook.journal.log ==
            CheckAllLog(old(webhook.journal.log), old(webhook.views), Elems(unfinished), taskIDs, status, os)
  {
    ghost var v0, seen, log0 := webhook.views, Elems(unfinished), webhook.journal.log;
    numFailedTasks, os := 0, [];
    for i := 0 to |taskIDs|
      invariant |os| == i
      invariant (webhook.views, numFailedTasks) == CheckAll(v0, seen, taskIDs[..i], status, os)
      invariant webhook.journal.log == CheckAllLog(log0, v0, seen, taskIDs[..i], status, os)
      invariant webhook.reliable ==> AllGranted(os)
    {
      var failed, o := CheckTask(taskIDs[i], unfinished, status, webhook);
      CheckAllGrows(v0, seen, taskIDs, status, os, o);
      numFailedTasks, os := numFailedTasks + failed, os + [o];
    }
    assert taskIDs[..|taskIDs|] == taskIDs;
    CheckItemized(v0, seen, taskIDs, status, os);
  }

  lemma {:induction false} NothingSeen(xs: seq<Scanned>, n: nat)
    requires n <= |xs| && forall x :: x in xs ==> x.NoPage?
    ensures SeenIn(xs, n) == {}
    decreases n
  {
    if n > 0 {
      NothingSeen(xs, n - 1);
      assert xs[n - 1] in xs;
    }
  }

  /** The ids of listed entries, collected one by one. */
  method QueueIDs(tasks: seq<TaskInfo>) returns (ids: seq<QueueId>)
    ensures Elems(ids) == set info | info in tasks :: info.q
  {
    ids := [];
    for i := 0 to |tasks|
      invariant ids == seq(i, j requires 0 <= j < |tasks| => tasks[j].q)
    {
      ids := ids + [tasks[i].q];
    }
    forall info | info in tasks ensures info.q in ids {
      var j :| 0 <= j < |tasks| && tasks[j] == info;
      assert ids[j] == info.q;
    }
  }

  /** The loops over both listings: pending tasks first. */
  method CheckBoth(pendingTaskIDs: seq<TaskId>, runningTaskIDs: seq<TaskId>, unfinished: seq<QueueId>, webhook: Webhook)
    returns (numFailedTasks: nat, ghost os: seq<Outcome>, ghost ps: seq<Outcome>)
    requires NoDup(pendingTaskIDs) && NoDup(runningTaskIDs)
    requires forall id :: id in runningTaskIDs ==> id !in pendingTaskIDs
    modifies webhook`views, webhook.journal
    ensures |os| == |pendingTaskIDs| && |ps| == |runningTaskIDs|
    ensures (webhook.views, numFailedTasks) ==
            SweepAll(old(webhook.views), Elems(unfinished), pendingTaskIDs, runningTaskIDs, os, ps)
    ensures Swept(old(webhook.views), webhook.views, numFailedTasks, Elems(unfinished),
                  pendingTaskIDs, runningTaskIDs, os, ps)
    ensures webhook.reliable ==> AllGranted(os) && AllGranted(ps)
    ensures webhook.journal.log == CheckBothLog(old(webhook.journal.log), old(webhook.views), Elems(unfinished),
                                                pendingTaskIDs, runningTaskIDs, os, ps)
  {
    ghost var v0 := webhook.views;
    var n0, n1;
    n0, os := CheckListed(pendingTaskIDs, unfinished, Pending, webhook);
    n1, ps := CheckListed(runningTaskIDs, unfinished, Running, webhook);
    numFailedTasks := n0 + n1;
    SweepItemized(v0, Elems(unfinished), pendingTaskIDs, runningTaskIDs, os, ps);
  }

  /** The first half of the sweep: the records are listed, then the wait, then the queue is listed. */
  method ListWork(modelName: string, distributor: Distributor, webhook: Webhook)
    returns (pendingTaskIDs: seq<TaskId>, runningTaskIDs: seq<TaskId>, unfinishedQueueIDs: seq<QueueId>,
             ghost xs: seq<Scanned>)
    requires distributor.journal == webhook.journal
    modifies webhook.journal
    ensures pendingTaskIDs == [] || IsListing(webhook.views.db, modelName, Pending, pendingTaskIDs)
    ensures runningTaskIDs == [] || IsListing(webhook.views.db, modelName, Running, runningTaskIDs)
    ensures NoDup(pendingTaskIDs) && NoDup(runningTaskIDs)
    ensures forall id :: id in runningTaskIDs ==> id !in pendingTaskIDs
    ensures webhook.reliable ==>
              && IsListing(webhook.views.db, modelName, Pending, pendingTaskIDs)
              && IsListing(webhook.views.db, modelName, Running, runningTaskIDs)
    ensures FourAnswers(distributor.queue, distributor.limit, xs) && SeenIn(xs, 4) <= LiveSet(distributor.queue)
    ensures Elems(unfinishedQueueIDs) == SeenIn(xs, 4)
    ensures distributor.reliable && ListsFit(distributor.queue, distributor.limit) ==>
              SeenIn(xs, 4) == LiveSet(distributor.queue)
    ensures webhook.journal.log ==
            ListLog(old(webhook.journal.log), modelName, xs, pendingTaskIDs, runningTaskIDs)
  {
    var ok;
    pendingTaskIDs, ok := webhook.GetTaskIDByModelStatus(modelName, Pending);
    runningTaskIDs, ok := webhook.GetTaskIDByModelStatus(modelName, Running);
    if |pendingTaskIDs| > 0 || |runningTaskIDs| > 0 {
      webhook.journal.Wait();
    }
    var unfinishedTasks;
    unfinishedTasks, xs := ListUnfinishedTasks(distributor);
    SeenIsLive(distributor.queue, distributor.limit, xs, 4);
    unfinishedQueueIDs := QueueIDs(unfinishedTasks);
    AnswersApart(webhook.views.db, modelName, pendingTaskIDs, runningTaskIDs);
  }

  /** What a sweep with every call granted and every list complete comes to. */
  ghost predicate SettlesAll(v: Views, w: Views, n: nat, live: set<QueueId>, model: string) {
    && ViewsOk(w) && Settled(w, live, model) && n == |Changed(v, w)|
    && (Settled(v, live, model) ==> n == 0 && w == v)
  }

  ghost predicate ListsFit(queue: Queue, limit: nat) {
    forall list: nat :: list < 4 ==> |OnList(queue, list)| <= limit
  }

  /**
   Fails the tasks that the database holds for unfinished but that nobody works on.  With services
   that grant what they can and lists that fit their page, the sweep is complete: what is left
   pending or running is linked to a live entry, the number returned is the number of records
   changed, and a sweep after a complete sweep returns 0 and changes nothing.  Whatever the calls are
   answered with, `Swept` says what becomes of each record and what is counted, and the calls are made
   in the order of `SweepLog`: the records are listed before the wait, the wait is over before the
   queue is listed, and the queue is listed before any record is read.
   */
  method CheckTaskStatus(modelName: string, distributor: Distributor, webhook: Webhook)
    returns (numFailedTasks: nat, ghost pending: seq<TaskId>, ghost running: seq<TaskId>, ghost xs: seq<Scanned>,
             ghost os: seq<Outcome>, ghost ps: seq<Outcome>)
    requires distributor.journal == webhook.journal
    modifies webhook`views, webhook.journal
    ensures pending == [] || IsListing(old(webhook.views).db, modelName, Pending, pending)
    ensures running == [] || IsListing(old(webhook.views).db, modelName, Running, running)
    ensures FourAnswers(distributor.queue, distributor.limit, xs) && SeenIn(xs, 4) <= LiveSet(distributor.queue)
    ensures |os| == |pending| && |ps| == |running|
    ensures (webhook.views, numFailedTasks) == SweepAll(old(webhook.views), SeenIn(xs, 4), pending, running, os, ps)
    ensures Swept(old(webhook.views), webhook.views, numFailedTasks, SeenIn(xs, 4), pending, running, os, ps)
    ensures modelName != "" ==>
              webhook.journal.log ==
              SweepLog(old(webhook.journal.log), old(webhook.views), modelName, xs, pending, running, os, ps)
    ensures modelName == "" ==>
              && numFailedTasks == 0 && webhook.views == old(webhook.views)
              && webhook.journal.log == old(webhook.journal.log)
    ensures modelName != "" && webhook.reliable ==>
              && IsListing(old(webhook.views).db, modelName, Pending, pending)
              && IsListing(old(webhook.views).db, modelName, Running, running)
              && AllGranted(os) && AllGranted(ps)
    ensures modelName != "" && distributor.reliable && ListsFit(distributor.queue, distributor.limit) ==>
              SeenIn(xs, 4) == LiveSet(distributor.queue)
    ensures modelName != "" && webhook.reliable && distributor.reliable && ViewsOk(old(webhook.views))
            && ListsFit(distributor.queue, distributor.limit) ==>
              SettlesAll(old(webhook.views), webhook.views, numFailedTasks, LiveSet(distributor.queue), modelName)
  {
    numFailedTasks, pending, running, os, ps := 0, [], [], [], [];
    xs := [NoPage, NoPage, NoPage, NoPage];
    if modelName == "" {
      NothingToSweep(webhook.views, xs);
      return;
    }
    ghost var v := webhook.views;
    var pendingTaskIDs, runningTaskIDs, unfinishedQueueIDs;
    pendingTaskIDs, runningTaskIDs, unfinishedQueueIDs, xs := ListWork(modelName, distributor, webhook);
    pending, running := pendingTaskIDs, runningTaskIDs;
    numFailedTasks, os, ps := CheckBoth(pendingTaskIDs, runningTaskIDs, unfinishedQueueIDs, webhook);
    SweepMaySettle(v, SeenIn(xs, 4), modelName, pending, running, os, ps, webhook.reliable);
  }

  /** Under reliable services the sweep settles everything. */
  lemma SweepMaySettle(v: Views, seen: set<QueueId>, model: string, pending: seq<TaskId>, running: seq<TaskId>,
                       os: seq<Outcome>, ps: seq<Outcome>, reliable: bool)
    requires |os| == |pending| && |ps| == |running|
    requires reliable ==> IsListing(v.db, model, Pending, pending) && IsListing(v.db, model, Running, running)
    requires reliable ==> AllGranted(os) && AllGranted(ps)
    ensures var (w, n) := SweepAll(v, seen, pending, running, os, ps);
            reliable && ViewsOk(v) ==> SettlesAll(v, w, n, seen, model)
  {
    if reliable && ViewsOk(v) {
      SweepSettles(v, seen, model, pending, running, os, ps);
    }
  }

  lemma NothingToSweep(v: Views, xs: seq<Scanned>)
    requires xs == [NoPage, NoPage, NoPage, NoPage]
    ensures SeenIn(xs, 4) == {}
    ensures SweepAll(v, SeenIn(xs, 4), [], [], [], []) == (v, 0) && Swept(v, v, 0, SeenIn(xs, 4), [], [], [], [])
  {
    NothingSeen(xs, 4);
    SweepItemized(v, {}, [], [], [], []);
  }

  lemma AnswersApart(db: map<TaskId, Record>, model: string, pending: seq<TaskId>, running: seq<TaskId>)
    requires pending == [] || IsListing(db, model, Pending, pending)
    requires running == [] || IsListing(db, model, Running, running)
    ensures NoDup(pending) && NoDup(running) && forall id :: id in running ==> id !in pending
  {
    if pending != [] && running != [] {
      ListingsApart(db, model, pending, running);
    }
  }

  lemma SweepSettles(v: Views, seen: set<QueueId>, model: string, pending: seq<TaskId>, running: seq<TaskId>,
                     os: seq<Outcome>, ps: seq<Outcome>)
    requires ViewsOk(v)
    requires IsListing(v.db, model, Pending, pending) && IsListing(v.db, model, Running, running)
    requires |os| == |pending| && |ps| == |running| && AllGranted(os) && AllGranted(ps)
    ensures var (w, n) := SweepAll(v, seen, pending, running, os, ps);
            SettlesAll(v, w, n, seen, model)
  {
    RecoveryIsComplete(v, seen, model, pending, running, os, ps);
    if Settled(v, seen, model) {
      RecoveryIsIdempotent(v, seen, model, pending, running, os, ps);
    }
  }

  /** The periodic check comes round again with nothing in between: it finds nothing left to do. */
  method CheckTwice(modelName: string, distributor: Distributor, webhook: Webhook) returns (first: nat, second: nat)
    requires ViewsOk(webhook.views) && webhook.reliable && distributor.reliable
    requires ListsFit(distributor.queue, distributor.limit)
    requires distributor.journal == webhook.journal
    modifies webhook`views, webhook.journal
    ensures modelName != "" ==> first == |Changed(old(webhook.views), webhook.views)|
    ensures second == 0
  {
    ghost var pending, running, xs, os, ps;
    first, pending, running, xs, os, ps := CheckTaskStatus(modelName, distributor, webhook);
    second, pending, running, xs, os, ps := CheckTaskStatus(modelName, distributor, webhook);
  }

}
