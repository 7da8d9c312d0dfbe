/**
 `succeeded` is absorbing as long as no entry is handed back whose record already says so, the
 shutdown sweep only marks tasks whose entry is still owed a report, and the status sweep only acts
 on sound verdicts.
 */
module Absorption {

  import opened Wrappers
  import opened Records
  import opened Queues
  import opened Protocol
  import opened Invariant
  import opened Evolution
  import opened Reachable

  /** Ordinary updates reach a record through the cache, so a success is in danger while it is cached. */
  predicate CachedSuccess(v: Views, id: TaskId) {
    SucceededIn(v.cache, id)
  }

  /** An entry without a worker, or with a live one that has not yet had its report accepted. */
  predicate Unreported(p: Place) {
    p != InActive(Finished) && p != InActive(Lost)
  }

  /** Where the entry of a listed item is now, or nowhere. */
  function Whereabouts(s: State, item: TaskInfo): Option<Place> {
    if item.q in s.queue && s.queue[item.q].payload == item.payload then Some(s.queue[item.q].place) else None
  }

  /** The entry of a listed item is still there, and no worker of it has reported or died. */
  predicate Owed(s: State, item: TaskInfo) {
    Whereabouts(s, item).Some? && Unreported(Whereabouts(s, item).value)
  }

  /** Every step but those that can undo a success. */
  ghost predicate Calm(s: State, t: Step)
    requires Enabled(s, t)
  {
    match t
    case OfQueue(q, w) => w.Recover? || w.Requeue? ==> !HandsBackSuccess(s, q)
    case OfActor(a, Shutdown(ShutMark(_))) => s.actors[a].items[0].payload.Some? ==> Owed(s, s.actors[a].items[0])
    case OfActor(a, Sweep(Fail(_))) => s.actors[a].sound
    case OfActor(a, Sweep(Bury(_))) => s.actors[a].job.gone
    case _ => true
  }

  /** The record of the entry's task says `succeeded` already. */
  predicate HandsBackSuccess(s: State, q: QueueId)
    requires q in s.queue
  {
    s.queue[q].payload.Some? && CachedSuccess(s.views, s.queue[q].payload.value)
  }

  ghost predicate CalmRun(s: State, ts: seq<Step>)
    requires Legal(s, ts)
    decreases |ts|
  {
    ts != [] ==> Calm(s, ts[0]) && CalmRun(Do(s, ts[0]), ts[1..])
  }

  lemma CalmOf1(s: State, t: Step)
    requires Enabled(s, t) && Calm(s, t)
    ensures Legal(s, [t]) && CalmRun(s, [t])
  {
    assert [t][1..] == [];
    assert CalmRun(Do(s, t), []);
  }

  lemma {:induction false} CalmJoin(s: State, ts: seq<Step>, us: seq<Step>)
    requires Legal(s, ts) && CalmRun(s, ts) && Legal(Run(s, ts), us) && CalmRun(Run(s, ts), us)
    ensures Legal(s, ts + us) && CalmRun(s, ts + us)
    decreases |ts|
  {
    if ts == [] {
      assert ts + us == us;
    } else {
      assert (ts + us)[0] == ts[0] && (ts + us)[1..] == ts[1..] + us;
      CalmJoin(Do(s, ts[0]), ts[1..], us);
    }
  }

  ghost predicate EntryCalm(s: State, q: QueueId)
    requires q in s.queue
  {
    Unreported(s.queue[q].place) && s.queue[q].payload.Some? ==> !CachedSuccess(s.views, s.queue[q].payload.value)
  }

  ghost predicate HandlerCalm(s: State, id: TaskId)
    requires id in s.handlers
  {
    var h := s.handlers[id];
    (h.Created? || h.RollingBack? || h.SyncCreated? || h.SyncAnswered?) ==> !CachedSuccess(s.views, id)
  }

  ghost predicate ItemsCalm(s: State, items: seq<TaskInfo>) {
    forall item :: item in items && item.payload.Some? ==> !CachedSuccess(s.views, item.payload.value)
  }

  ghost predicate ActorCalm(s: State, x: Actor) {
    match x
    case CancelDeleted(id) => !CachedSuccess(s.views, id)
    case Archiving(items) => ItemsCalm(s, items)
    case ArchiveDeleting(_, _, _, items) => ItemsCalm(s, items)
    case _ => true
  }

  ghost predicate CalmInv(s: State) {
    && (forall q :: q in s.queue ==> EntryCalm(s, q))
    && (forall id :: id in s.handlers ==> HandlerCalm(s, id))
    && (forall a :: a in s.actors ==> ActorCalm(s, s.actors[a]))
  }

  /** Nothing about the record changes, except that it may come to name its entry. */
  predicate Kept(r: Record, r': Record) {
    r' == r.(queueId := r'.queueId) && (r.queueId.Some? ==> r' == r)
  }

  /** No success is lost or altered, except that a cached copy may expire. */
  ghost predicate KeepsSuccess(s: State, t: State) {
    forall id ::
      && (SucceededIn(s.views.db, id) ==> id in t.views.db && Kept(s.views.db[id], t.views.db[id]))
      && (SucceededIn(s.views.cache, id) && id in t.views.cache ==> Kept(s.views.cache[id], t.views.cache[id]))
  }

  lemma PutKeepsSuccess(s: State, t: State, ok: bool, id: TaskId, u: Update)
    requires ViewsOk(s.views) && t.views == TryPut(s, ok, id, u).views
    requires !CachedSuccess(s.views, id)
    ensures KeepsSuccess(s, t)
  {
  }

  lemma LinkKeepsSuccess(s: State, t: State, ok: bool, id: TaskId, q: QueueId)
    requires ViewsOk(s.views) && t.views == TryPut(s, ok, id, LinkTo(q)).views
    requires id in s.views.cache ==> s.views.cache[id].queueId.None?
    ensures KeepsSuccess(s, t)
  {
  }

  lemma CreateKeepsSuccess(s: State, t: State, id: TaskId)
    requires ViewsOk(s.views) && id !in s.views.db
    requires t.views == s.views || exists r :: t.views == Create(s.views, id, r)
    ensures KeepsSuccess(s, t)
  {
  }

  lemma SameKeepsSuccess(s: State, t: State)
    requires t.views == s.views
    ensures KeepsSuccess(s, t)
  {
  }

  lemma HandlerKeepsSuccess(s: State, id: TaskId, h: HandlerStep)
    requires Inv(s) && CalmInv(s) && HandlerEnabled(s, id, h)
    ensures KeepsSuccess(s, DoHandler(s, id, h))
  {
    var t := DoHandler(s, id, h);
    assert id in s.handlers ==> HandlerOk(s, id) && HandlerCalm(s, id);
    match h {
      case RollBack(ok) => PutKeepsSuccess(s, t, ok, id, MarkFailed("task queue failed"));
      case Link(ok) => LinkKeepsSuccess(s, t, ok, id, s.handlers[id].q);
      case SyncWrite(ok) => PutKeepsSuccess(s, t, ok, id, s.handlers[id].report);
      case SyncCreate(_, _) =>
        RecordsAreKnown(s);
        CreateKeepsSuccess(s, t, id);
      case CreateTask(_, _, _) => CreateKeepsSuccess(s, t, id);
      case _ => SameKeepsSuccess(s, t);
    }
  }

  lemma QueueKeepsSuccess(s: State, q: QueueId, w: QueueStep)
    requires Inv(s) && CalmInv(s) && QueueEnabled(s, q, w)
    ensures KeepsSuccess(s, DoQueue(s, q, w))
  {
    var t, e := DoQueue(s, q, w), s.queue[q];
    assert EntryOk(s, q) && EntryCalm(s, q);
    match w {
      case Announce(ok, _) => PutKeepsSuccess(s, t, ok, e.payload.value, Mark(Running));
      case Report(ok, _) => PutKeepsSuccess(s, t, ok, e.payload.value, e.place.pc.report);
      case _ => SameKeepsSuccess(s, t);
    }
  }

  lemma ActorKeepsSuccess(s: State, a: nat, x: ActorStep)
    requires Inv(s) && CalmInv(s) && ActorEnabled(s, a, x) && Calm(s, OfActor(a, x))
    ensures KeepsSuccess(s, DoActor(s, a, x))
  {
    var t := DoActor(s, a, x);
    assert a in s.actors ==> ActorOk(s, s.actors[a]) && ActorCalm(s, s.actors[a]);
    match x {
      case Cancel(CancelMark(ok)) => PutKeepsSuccess(s, t, ok, s.actors[a].id, Mark(Canceled));
      case Sweep(w) => SweepKeepsSuccess(s, a, w);
      case Archive(v) => ArchiveKeepsSuccess(s, a, v);
      case Shutdown(ShutMark(ok)) => ShutMarkKeepsSuccess(s, a, ok);
      case _ => SameKeepsSuccess(s, t);
    }
  }

  lemma SweepKeepsSuccess(s: State, a: nat, w: SweepStep)
    requires Inv(s) && SweepEnabled(s, a, w) && Calm(s, OfActor(a, Sweep(w)))
    ensures KeepsSuccess(s, DoSweep(s, a, w))
  {
    var t := DoSweep(s, a, w);
    assert a in s.actors ==> ActorOk(s, s.actors[a]);
    match w {
      case Fail(ok) => PutKeepsSuccess(s, t, ok, s.actors[a].job.id, MarkFailed("Unknown failure"));
      case Bury(ok) =>
        assert Gone(s, s.actors[a].job.id);
      case _ => SameKeepsSuccess(s, t);
    }
  }

  lemma ArchiveKeepsSuccess(s: State, a: nat, v: ArchiveStep)
    requires Inv(s) && CalmInv(s) && ArchiveEnabled(s, a, v)
    ensures KeepsSuccess(s, DoArchive(s, a, v))
  {
    var t := DoArchive(s, a, v);
    if t.views == s.views {
      SameKeepsSuccess(s, t);
    } else {
      assert ActorCalm(s, s.actors[a]);
      var item := s.actors[a].items[0];
      PutKeepsSuccess(s, t, v.ok, item.payload.value, MarkFailed("failed due to system errors"));
    }
  }

  lemma ShutMarkKeepsSuccess(s: State, a: nat, ok: bool)
    requires Inv(s) && CalmInv(s) && ActorEnabled(s, a, Shutdown(ShutMark(ok)))
    requires Calm(s, OfActor(a, Shutdown(ShutMark(ok))))
    ensures KeepsSuccess(s, DoShut(s, a, ShutMark(ok)))
  {
    var t, item := DoShut(s, a, ShutMark(ok)), s.actors[a].items[0];
    if item.payload.Some? {
      assert EntryCalm(s, item.q);
      PutKeepsSuccess(s, t, ok, item.payload.value, MarkFailed("the task queue was closed"));
    } else {
      SameKeepsSuccess(s, t);
    }
  }

  lemma StepKeepsSuccess(s: State, t: Step)
    requires Inv(s) && CalmInv(s) && Enabled(s, t) && Calm(s, t)
    ensures KeepsSuccess(s, Do(s, t))
  {
    match t {
      case OfHandler(id, h) => HandlerKeepsSuccess(s, id, h);
      case OfQueue(q, w) => QueueKeepsSuccess(s, q, w);
      case OfActor(a, x) => ActorKeepsSuccess(s, a, x);
      case Expiry(id) =>
    }
  }

  // ---------- the calm part of the invariant is kept ----------

  /** Nothing new has succeeded. */
  ghost predicate NoNewSuccess(s: State, t: State) {
    forall id :: CachedSuccess(t.views, id) ==> CachedSuccess(s.views, id)
  }

  lemma BystanderCalm(s: State, t: State, x: Actor)
    requires NoNewSuccess(s, t) && ActorCalm(s, x)
    ensures ActorCalm(t, x)
  {
  }

  /** A success falls on a task that no cancel or archive sweep has in hand. */
  lemma WorkLeavesActorsCalm(s: State, t: State, x: Actor, id: TaskId)
    requires ActorOk(s, x) && ActorCalm(s, x)
    requires forall i :: CachedSuccess(t.views, i) ==> CachedSuccess(s.views, i) || i == id
    requires CachedSuccess(t.views, id) ==> CachedSuccess(s.views, id) || !Quiet(s, id)
    ensures ActorCalm(t, x)
  {
  }

  /** At most one task newly succeeds. */
  ghost predicate OnlySuccess(s: State, t: State, id: TaskId) {
    forall i :: CachedSuccess(t.views, i) ==> CachedSuccess(s.views, i) || i == id
  }

  lemma PutAddsOneSuccess(s: State, t: State, ok: bool, id: TaskId, u: Update)
    requires t.views == TryPut(s, ok, id, u).views
    ensures OnlySuccess(s, t, id)
    ensures u.status != Some(Succeeded) ==> NoNewSuccess(s, t)
  {
  }

  lemma HandlerAddsOneSuccess(s: State, id: TaskId, h: HandlerStep)
    requires Inv(s) && HandlerEnabled(s, id, h)
    ensures OnlySuccess(s, DoHandler(s, id, h), id)
    ensures !h.SyncWrite? ==> NoNewSuccess(s, DoHandler(s, id, h))
  {
    var t := DoHandler(s, id, h);
    match h {
      case RollBack(ok) => PutAddsOneSuccess(s, t, ok, id, MarkFailed("task queue failed"));
      case Link(ok) => PutAddsOneSuccess(s, t, ok, id, LinkTo(s.handlers[id].q));
      case SyncWrite(ok) => PutAddsOneSuccess(s, t, ok, id, s.handlers[id].report);
      case _ =>
    }
  }

  lemma HandlerEntriesCalm(s: State, id: TaskId, h: HandlerStep)
    requires Inv(s) && CalmInv(s) && HandlerEnabled(s, id, h)
    requires OnlySuccess(s, DoHandler(s, id, h), id)
    requires !h.SyncWrite? ==> NoNewSuccess(s, DoHandler(s, id, h))
    ensures var t := DoHandler(s, id, h); forall q :: q in t.queue ==> EntryCalm(t, q)
  {
    var t := DoHandler(s, id, h);
    assert id in s.handlers ==> HandlerCalm(s, id);
    HandlerEvolvesQueue(s, id, h);
    forall q | q in t.queue ensures EntryCalm(t, q) {
      if q in s.queue {
        assert t.queue[q] == s.queue[q];
        assert EntryOk(s, q) && EntryCalm(s, q);
      }
    }
  }

  lemma OwnHandlerCalm(s: State, id: TaskId, h: HandlerStep)
    requires Inv(s) && CalmInv(s) && HandlerEnabled(s, id, h)
    requires !h.SyncWrite? ==> NoNewSuccess(s, DoHandler(s, id, h))
    ensures var t := DoHandler(s, id, h); id in t.handlers ==> HandlerCalm(t, id)
  {
    assert id in s.handlers ==> HandlerOk(s, id) && HandlerCalm(s, id);
    RecordsAreKnown(s);
  }

  lemma HandlersCalm(s: State, id: TaskId, h: HandlerStep)
    requires Inv(s) && CalmInv(s) && HandlerEnabled(s, id, h)
    requires OnlySuccess(s, DoHandler(s, id, h), id)
    requires !h.SyncWrite? ==> NoNewSuccess(s, DoHandler(s, id, h))
    ensures var t := DoHandler(s, id, h); forall i :: i in t.handlers ==> HandlerCalm(t, i)
  {
    var t := DoHandler(s, id, h);
    OtherHandlersStay(s, id, h);
    forall i | i in t.handlers ensures HandlerCalm(t, i) {
      if i == id {
        OwnHandlerCalm(s, id, h);
      } else {
        assert HandlerCalm(s, i);
      }
    }
  }

  lemma HandlerKeepsCalm(s: State, id: TaskId, h: HandlerStep)
    requires Inv(s) && CalmInv(s) && HandlerEnabled(s, id, h)
    ensures CalmInv(DoHandler(s, id, h))
  {
    var t := DoHandler(s, id, h);
    HandlerFrame(s, id, h);
    HandlerAddsOneSuccess(s, id, h);
    HandlerEntriesCalm(s, id, h);
    HandlersCalm(s, id, h);
    forall a | a in t.actors ensures ActorCalm(t, t.actors[a]) {
      assert ActorCalm(s, s.actors[a]);
      WorkLeavesActorsCalm(s, t, t.actors[a], id);
    }
  }

  lemma QueueAddsOneSuccess(s: State, q: QueueId, w: QueueStep)
    requires Inv(s) && QueueEnabled(s, q, w)
    ensures s.queue[q].payload.Some? && OnlySuccess(s, DoQueue(s, q, w), s.queue[q].payload.value)
    ensures !w.Report? ==> NoNewSuccess(s, DoQueue(s, q, w))
  {
    var t, e := DoQueue(s, q, w), s.queue[q];
    assert EntryOk(s, q);
    match w {
      case Announce(ok, _) => PutAddsOneSuccess(s, t, ok, e.payload.value, Mark(Running));
      case Report(ok, _) => PutAddsOneSuccess(s, t, ok, e.payload.value, e.place.pc.report);
      case _ => assert t.views == s.views;
    }
  }

  /** The entry that moves is calm afterwards if its step is. */
  lemma OwnEntryCalm(s: State, q: QueueId, w: QueueStep)
    requires CalmInv(s) && QueueEnabled(s, q, w) && Calm(s, OfQueue(q, w)) && !w.Return?
    requires !w.Report? ==> NoNewSuccess(s, DoQueue(s, q, w))
    ensures q in DoQueue(s, q, w).queue && EntryCalm(DoQueue(s, q, w), q)
  {
    assert EntryCalm(s, q);
  }

  lemma QueueEntriesCalm(s: State, q: QueueId, w: QueueStep)
    requires Inv(s) && CalmInv(s) && QueueEnabled(s, q, w) && Calm(s, OfQueue(q, w))
    requires s.queue[q].payload.Some? && OnlySuccess(s, DoQueue(s, q, w), s.queue[q].payload.value)
    requires !w.Report? ==> NoNewSuccess(s, DoQueue(s, q, w))
    ensures var t := DoQueue(s, q, w); forall p :: p in t.queue ==> EntryCalm(t, p)
  {
    var t := DoQueue(s, q, w);
    OtherEntriesStay(s, q, w);
    forall p | p in t.queue ensures EntryCalm(t, p) {
      if p == q {
        OwnEntryCalm(s, q, w);
      } else {
        assert EntryCalm(s, p);
      }
    }
  }

  lemma QueueKeepsCalm(s: State, q: QueueId, w: QueueStep)
    requires Inv(s) && CalmInv(s) && QueueEnabled(s, q, w) && Calm(s, OfQueue(q, w))
    ensures CalmInv(DoQueue(s, q, w))
  {
    var t := DoQueue(s, q, w);
    QueueFrame(s, q, w);
    QueueAddsOneSuccess(s, q, w);
    QueueEntriesCalm(s, q, w);
    var id := s.queue[q].payload.value;
    assert EntryOk(s, q) && Carries(s, q, id);
    forall a | a in t.actors ensures ActorCalm(t, t.actors[a]) {
      assert ActorCalm(s, s.actors[a]);
      WorkLeavesActorsCalm(s, t, t.actors[a], id);
    }
    forall i | i in t.handlers ensures HandlerCalm(t, i) {
      assert i in s.handlers && HandlerCalm(s, i);
    }
  }

  lemma MeddlingIsNoSuccess(s: State, t: State)
    requires Meddles(s, t)
    ensures NoNewSuccess(s, t)
  {
  }

  lemma CancelActsCalm(s: State, a: nat, c: CancelStep)
    requires Inv(s) && CalmInv(s) && CancelEnabled(s, a, c)
    ensures var t := DoCancel(s, a, c); a in t.actors ==> ActorCalm(t, t.actors[a])
  {
    if c.CancelDelete? {
      var CancelGot(id, q) := s.actors[a];
      assert ActorOk(s, s.actors[a]);
      assert TaskOk(s, id);
      assert q in s.queue ==> EntryCalm(s, q);
    }
  }

  lemma ArchivedAreCalm(s: State, page: seq<QueueId>)
    requires CalmInv(s) && forall q :: q in page ==> q in s.queue && s.queue[q].place.InArchived?
    ensures ItemsCalm(s, Infos(s.queue, page))
  {
    forall item | item in Infos(s.queue, page) && item.payload.Some?
      ensures !CachedSuccess(s.views, item.payload.value)
    {
      var i :| 0 <= i < |page| && item == Infos(s.queue, page)[i];
      assert page[i] in page && EntryCalm(s, page[i]);
    }
  }

  lemma ArchiveItemsCalm(s: State, a: nat, v: ArchiveStep)
    requires CalmInv(s) && ArchiveEnabled(s, a, v)
    ensures ActorCalm(s, DoArchive(s, a, v).actors[a])
  {
    if v.ArchiveList? {
      ArchivedAreCalm(s, v.page);
    } else {
      assert ActorCalm(s, s.actors[a]);
    }
  }

  lemma ArchiveActsCalm(s: State, a: nat, v: ArchiveStep)
    requires CalmInv(s) && ArchiveEnabled(s, a, v)
    ensures var t := DoArchive(s, a, v); a in t.actors ==> ActorCalm(t, t.actors[a])
  {
    var t := DoArchive(s, a, v);
    ArchiveItemsCalm(s, a, v);
    assert NoNewSuccess(s, t) by {
      ArchiveMeddles(s, a, v);
      MeddlingIsNoSuccess(s, t);
    }
    BystanderCalm(s, t, t.actors[a]);
  }

  lemma ActorKeepsCalm(s: State, a: nat, x: ActorStep)
    requires Inv(s) && CalmInv(s) && ActorEnabled(s, a, x)
    ensures CalmInv(DoActor(s, a, x))
  {
    var t := DoActor(s, a, x);
    ActorMeddles(s, a, x);
    MeddlingIsNoSuccess(s, t);
    forall b | b in t.actors ensures ActorCalm(t, t.actors[b]) {
      if b != a {
        ActorFrame(s, a, x);
        BystanderCalm(s, t, s.actors[b]);
      } else {
        ActorStaysCalm(s, a, x);
      }
    }
    assert forall q :: q in t.queue ==> EntryCalm(s, q);
    assert forall i :: i in t.handlers ==> HandlerCalm(s, i);
  }

  lemma ShutActsCalm(s: State, a: nat, z: ShutStep)
    requires ShutEnabled(s, a, z)
    ensures var t := DoShut(s, a, z); a in t.actors ==> ActorCalm(t, t.actors[a])
  {
  }

  lemma SweepActsCalm(s: State, a: nat, w: SweepStep)
    requires SweepEnabled(s, a, w)
    ensures var t := DoSweep(s, a, w); a in t.actors ==> ActorCalm(t, t.actors[a])
  {
  }

  lemma ActorStaysCalm(s: State, a: nat, x: ActorStep)
    requires Inv(s) && CalmInv(s) && ActorEnabled(s, a, x)
    ensures var t := DoActor(s, a, x); a in t.actors ==> ActorCalm(t, t.actors[a])
  {
    match x {
      case Cancel(c) => CancelActsCalm(s, a, c);
      case Archive(v) => ArchiveActsCalm(s, a, v);
      case Sweep(w) => SweepActsCalm(s, a, w);
      case Shutdown(z) => ShutActsCalm(s, a, z);
      case _ =>
    }
  }

  lemma StepKeepsCalm(s: State, t: Step)
    requires Inv(s) && CalmInv(s) && Enabled(s, t) && Calm(s, t)
    ensures CalmInv(Do(s, t))
  {
    match t {
      case OfHandler(id, h) => HandlerKeepsCalm(s, id, h);
      case OfQueue(q, w) => QueueKeepsCalm(s, q, w);
      case OfActor(a, x) => ActorKeepsCalm(s, a, x);
      case Expiry(id) =>
        ExpiryMeddles(s, id);
        var s' := Do(s, t);
        MeddlingIsNoSuccess(s, s');
        forall b | b in s'.actors ensures ActorCalm(s', s'.actors[b]) {
          BystanderCalm(s, s', s.actors[b]);
        }
        assert forall q :: q in s'.queue ==> EntryCalm(s, q);
        assert forall i :: i in s'.handlers ==> HandlerCalm(s, i);
    }
  }

  lemma {:induction false} CalmRunKeepsCalm(s: State, ts: seq<Step>)
    requires Inv(s) && CalmInv(s) && Legal(s, ts) && CalmRun(s, ts)
    ensures Inv(Run(s, ts)) && CalmInv(Run(s, ts))
    decreases |ts|
  {
    if ts != [] {
      StepKeepsInv(s, ts[0]);
      StepKeepsCalm(s, ts[0]);
      CalmRunKeepsCalm(Do(s, ts[0]), ts[1..]);
    }
  }

  /** What is kept of the successes of one task over a run. */
  ghost predicate Lasts(s: State, t: State, id: TaskId) {
    && (SucceededIn(s.views.db, id) ==> id in t.views.db && Kept(s.views.db[id], t.views.db[id]))
    && (SucceededIn(s.views.cache, id) && id in t.views.cache ==> Kept(s.views.cache[id], t.views.cache[id]))
  }

  lemma {:induction false} SuccessLasts(s: State, us: seq<Step>, id: TaskId)
    requires Inv(s) && CalmInv(s) && Legal(s, us) && CalmRun(s, us)
    ensures Lasts(s, Run(s, us), id)
    decreases |us|
  {
    if us != [] {
      var s1 := Do(s, us[0]);
      StepKeepsSuccess(s, us[0]);
      StepKeepsInv(s, us[0]);
      StepKeepsCalm(s, us[0]);
      SuccessLasts(s1, us[1..], id);
      if SucceededIn(s.views.cache, id) && id !in s1.views.cache {
        assert CacheOk(s, id);
        StepEvolves(s, us[0]);
        NeverCachedAgain(s1, us[1..], id);
      }
    }
  }

  ghost predicate CacheOk(s: State, id: TaskId) {
    id in s.views.cache ==> id in s.views.db
  }

  lemma {:induction false} NeverCachedAgain(s: State, us: seq<Step>, id: TaskId)
    requires Inv(s) && Legal(s, us) && id in s.views.db && id !in s.views.cache
    ensures id !in Run(s, us).views.cache
    decreases |us|
  {
    if us != [] {
      StepKeepsInv(s, us[0]);
      StepEvolves(s, us[0]);
      NeverCachedAgain(Do(s, us[0]), us[1..], id);
    }
  }

  /**
   Over all calm runs, no later step changes the record of a task that succeeded, in either view,
   except for a link that was still under way; the cached copy may expire.
   */
  lemma SucceededIsAbsorbing(limit: nat, ts: seq<Step>, us: seq<Step>, id: TaskId)
    requires Legal(Init(limit), ts) && CalmRun(Init(limit), ts)
    requires Legal(Run(Init(limit), ts), us) && CalmRun(Run(Init(limit), ts), us)
    ensures var s, t := Run(Init(limit), ts), Run(Run(Init(limit), ts), us);
            && Lasts(s, t, id)
            && (SucceededIn(s.views.db, id) && s.views.db[id].queueId.Some? ==> t.views.db[id] == s.views.db[id])
  {
    CalmRunKeepsCalm(Init(limit), ts);
    SuccessLasts(Run(Init(limit), ts), us, id);
  }

}
