/**
 Once nothing new arrives and no worker server hands tasks back on shutdown, every step uses up
 something: all runs are finite, and a number read off the state bounds their length.
 */
module Draining {

  import opened Wrappers
  import opened Records
  import opened Queues
  import opened Protocol
  import opened Invariant

  // ---------- sums over maps ----------

  ghost function Sum<V>(m: map<nat, V>, w: V -> nat): nat
    decreases |m|
  {
    if m == map[] then 0
    else
      var k :| k in m;
      assert (m - {k}).Keys == m.Keys - {k};
      w(m[k]) + Sum(m - {k}, w)
  }

  lemma {:induction false} SumTakes<V>(m: map<nat, V>, w: V -> nat, k: nat)
    requires k in m
    ensures Sum(m, w) == w(m[k]) + Sum(m - {k}, w)
    decreases |m|
  {
    var j :| j in m && Sum(m, w) == w(m[j]) + Sum(m - {j}, w);
    assert (m - {j}).Keys == m.Keys - {j} && (m - {k}).Keys == m.Keys - {k};
    if j != k {
      SumTakes(m - {j}, w, k);
      SumTakes(m - {k}, w, j);
      assert m - {j} - {k} == m - {k} - {j};
    }
  }

  lemma SumSets<V>(m: map<nat, V>, w: V -> nat, k: nat, v: V)
    ensures Sum(m[k := v], w) + (if k in m then w(m[k]) else 0) == Sum(m, w) + w(v)
  {
    SumTakes(m[k := v], w, k);
    assert m[k := v] - {k} == m - {k};
    if k in m {
      SumTakes(m, w, k);
    } else {
      assert m - {k} == m;
    }
  }

  // ---------- what is left to do ----------

  function StageWeight(p: Place): nat {
    match p
    case InScheduled => 8
    case InRetry => 8
    case InPending => 7
    case InArchived => 1
    case InActive(pc) =>
      match pc
      case Fetched => 6
      case Announced => 5
      case Answered(_) => 4
      case Finished => 3
      case Lost => 2
  }

  /** Attempts left count before the stage of the current one. */
  function EntryWeight(e: Entry): nat {
    StageWeight(e.place) + (if e.retried < MAX_RETRY && Live(e.place) then 8 * (MAX_RETRY - e.retried) else 0)
  }

  function HandlerWeight(h: Handler): nat {
    match h
    case Admitted => 20
    case Created => 18
    case Enqueued(_) => 2
    case RollingBack => 1
    case Unlinking(_) => 1
    case SyncCreated => 2
    case SyncAnswered(_) => 1
  }

  function ActorWeight(x: Actor): nat {
    match x
    case CancelGot(_, _) => 2
    case CancelDeleted(_) => 1
    case Bulk(ids) => 1 + 2 * |ids|
    case BulkGot(_, ids) => 2 + 2 * |ids|
    case SweepListed(_, _) => 1
    case SweepWaiting(jobs) => 6 + 2 * |jobs|
    case SweepScanning(jobs, list, _, _) => (if list < 4 then 5 - list else 2) + 2 * |jobs|
    case SweepChecking(jobs, _) => 1 + 2 * |jobs|
    case SweepFailing(_, _, jobs, _) => 2 + 2 * |jobs|
    case SweepBurying(_, jobs, _) => 2 + 2 * |jobs|
    case Archiving(items) => 1 + 2 * |items|
    case ArchiveDeleting(_, _, _, items) => 2 + 2 * |items|
    case ShutScanning(_, _) => 1
    case ShutMarking(items) => 1 + 2 * |items|
    case ShutDeleting(_, items) => 2 + 2 * |items|
  }

  ghost function Measure(s: State): nat {
    Sum(s.queue, EntryWeight) + Sum(s.handlers, HandlerWeight) + Sum(s.actors, ActorWeight) + |s.views.cache|
  }

  /** New requests, new sweeps and their listings, and tasks handed back on shutdown. */
  predicate Arrival(t: Step) {
    match t
    case OfHandler(_, h) => h.Admit? || h.SyncCreate?
    case OfQueue(_, w) => w.Requeue?
    case OfActor(_, Cancel(c)) => c.CancelGet?
    case OfActor(_, BulkDeletion(b)) => b.BulkList?
    case OfActor(_, Sweep(w)) => w.ListPending? || w.ListRunning?
    case OfActor(_, Archive(v)) => v.ArchiveList?
    case OfActor(_, Shutdown(z)) => z.ShutStart? || z.ShutScan?
    case _ => false
  }

  // ---------- every other step uses something up ----------

  /** The record cache keeps its size under updates. */
  lemma PutKeepsSize(v: Views, id: TaskId, u: Update)
    ensures |Put(v, id, u).cache| == |v.cache|
  {
    assert Put(v, id, u).cache.Keys == v.cache.Keys;
  }

  lemma TryPutKeepsMeasure(s: State, ok: bool, id: TaskId, u: Update)
    ensures Measure(TryPut(s, ok, id, u)) == Measure(s)
  {
    PutKeepsSize(s.views, id, u);
  }

  lemma DropUses(s: State, id: TaskId)
    requires id in s.handlers
    ensures Measure(DropHandler(s, id)) == Measure(s) - HandlerWeight(s.handlers[id])
  {
    SumTakes(s.handlers, HandlerWeight, id);
  }

  lemma TryDeleteUses(s: State, ok: bool, q: QueueId)
    ensures Measure(TryDelete(s, ok, q)) <= Measure(s)
  {
    if q in s.queue {
      SumTakes(s.queue, EntryWeight, q);
    }
  }

  lemma EnqueueUses(s: State, id: TaskId, ok: bool)
    requires Core(s) && HandlerEnabled(s, id, Enqueue(ok))
    ensures Measure(DoHandler(s, id, Enqueue(ok))) < Measure(s)
  {
    assert s.nextQueue in s.queue ==> EntryOk(s, s.nextQueue);
    SumSets(s.queue, EntryWeight, s.nextQueue, Entry(Some(id), InPending, 0, 0));
    SumSets(s.handlers, HandlerWeight, id, if ok then Enqueued(s.nextQueue) else RollingBack);
  }

  lemma LinkUses(s: State, id: TaskId, ok: bool)
    requires HandlerEnabled(s, id, Link(ok))
    ensures Measure(DoHandler(s, id, Link(ok))) < Measure(s)
  {
    var q := s.handlers[id].q;
    PutKeepsSize(s.views, id, LinkTo(q));
    SumTakes(s.handlers, HandlerWeight, id);
    SumSets(s.handlers, HandlerWeight, id, Unlinking(q));
  }

  lemma WriteUses(s: State, id: TaskId, ok: bool, u: Update)
    requires id in s.handlers
    ensures Measure(DropHandler(TryPut(s, ok, id, u), id)) < Measure(s)
  {
    TryPutKeepsMeasure(s, ok, id, u);
    DropUses(TryPut(s, ok, id, u), id);
  }

  lemma UnlinkUses(s: State, id: TaskId, ok: bool)
    requires HandlerEnabled(s, id, Unlink(ok))
    ensures Measure(DoHandler(s, id, Unlink(ok))) < Measure(s)
  {
    TryDeleteUses(s, ok, s.handlers[id].q);
    DropUses(TryDelete(s, ok, s.handlers[id].q), id);
  }

  lemma SyncPredictUses(s: State, id: TaskId, p: Prediction)
    requires HandlerEnabled(s, id, SyncPredict(p))
    ensures Measure(DoHandler(s, id, SyncPredict(p))) < Measure(s)
  {
    DropUses(s, id);
    if !p.Panic? {
      SumSets(s.handlers, HandlerWeight, id, SyncAnswered(ReportOf(p)));
    }
  }

  lemma HandlerUses(s: State, id: TaskId, h: HandlerStep)
    requires Core(s) && HandlerEnabled(s, id, h) && !Arrival(OfHandler(id, h))
    ensures Measure(DoHandler(s, id, h)) < Measure(s)
  {
    match h {
      case CreateTask(_, _, _) => CreateUses(s, id, h);
      case Enqueue(ok) => EnqueueUses(s, id, ok);
      case RollBack(ok) => WriteUses(s, id, ok, MarkFailed("task queue failed"));
      case Link(ok) => LinkUses(s, id, ok);
      case Unlink(ok) => UnlinkUses(s, id, ok);
      case SyncPredict(p) => SyncPredictUses(s, id, p);
      case SyncWrite(ok) => WriteUses(s, id, ok, s.handlers[id].report);
      case HandlerCrash => DropUses(s, id);
      case _ =>
    }
  }

  lemma CreateUses(s: State, id: TaskId, h: HandlerStep)
    requires HandlerEnabled(s, id, h) && h.CreateTask?
    ensures Measure(DoHandler(s, id, h)) < Measure(s)
  {
    SumTakes(s.handlers, HandlerWeight, id);
    SumSets(s.handlers, HandlerWeight, id, Created);
    var r := NewRecord(h.model, Pending);
    assert Create(s.views, id, r).cache.Keys == s.views.cache.Keys + {id};
  }

  lemma MoveUses(s: State, t: State, q: QueueId)
    requires q in s.queue && q in t.queue
    requires t == s.(queue := s.queue[q := t.queue[q]], views := t.views, hist := t.hist)
    requires |t.views.cache| == |s.views.cache|
    requires EntryWeight(t.queue[q]) < EntryWeight(s.queue[q])
    ensures Measure(t) < Measure(s)
  {
    SumSets(s.queue, EntryWeight, q, t.queue[q]);
  }

  /** A step that leaves the entry in the queue. */
  lemma EntryUses(s: State, q: QueueId, w: QueueStep)
    requires QueueEnabled(s, q, w) && !w.Requeue? && !w.Return?
    ensures var t := DoQueue(s, q, w);
            && q in t.queue && t == s.(queue := s.queue[q := t.queue[q]], views := t.views, hist := t.hist)
            && EntryWeight(t.queue[q]) < EntryWeight(s.queue[q])
  {
  }

  lemma QueueKeepsCacheSize(s: State, q: QueueId, w: QueueStep)
    requires QueueEnabled(s, q, w)
    ensures |DoQueue(s, q, w).views.cache| == |s.views.cache|
  {
    var e := s.queue[q];
    if e.payload.Some? {
      PutKeepsSize(s.views, e.payload.value, Mark(Running));
      if w.Report? {
        PutKeepsSize(s.views, e.payload.value, e.place.pc.report);
      }
    }
  }

  lemma QueueUses(s: State, q: QueueId, w: QueueStep)
    requires QueueEnabled(s, q, w) && !w.Requeue?
    ensures Measure(DoQueue(s, q, w)) < Measure(s)
  {
    if w.Return? {
      SumTakes(s.queue, EntryWeight, q);
    } else {
      EntryUses(s, q, w);
      QueueKeepsCacheSize(s, q, w);
      MoveUses(s, DoQueue(s, q, w), q);
    }
  }

  /** An actor moves on; the stores lose nothing but entries and expired copies. */
  lemma BecomeUses(s: State, s1: State, a: nat, x: Actor)
    requires a in s.actors && s1 == s.(queue := s1.queue, views := s1.views) && Measure(s1) <= Measure(s)
    requires ActorWeight(x) < ActorWeight(s.actors[a])
    ensures Measure(Become(s1, a, x)) < Measure(s)
  {
    SumSets(s.actors, ActorWeight, a, x);
  }

  lemma DropActorUses(s: State, a: nat)
    requires a in s.actors
    ensures Measure(DropActor(s, a)) < Measure(s)
  {
    SumTakes(s.actors, ActorWeight, a);
  }

  lemma CancelUses(s: State, a: nat, c: CancelStep)
    requires CancelEnabled(s, a, c) && !c.CancelGet?
    ensures Measure(DoCancel(s, a, c)) < Measure(s)
  {
    match c {
      case CancelDelete(ok) =>
        TryDeleteUses(s, ok, s.actors[a].q);
        BecomeUses(s, TryDelete(s, ok, s.actors[a].q), a, CancelDeleted(s.actors[a].id));
        DropActorUses(s, a);
      case CancelMark(ok) =>
        TryPutKeepsMeasure(s, ok, s.actors[a].id, Mark(Canceled));
        DropActorUses(TryPut(s, ok, s.actors[a].id, Mark(Canceled)), a);
      case _ =>
    }
  }

  lemma BulkUses(s: State, a: nat, b: BulkStep)
    requires BulkEnabled(s, a, b) && !b.BulkList?
    ensures Measure(DoBulk(s, a, b)) < Measure(s)
  {
    var t := DoBulk(s, a, b);
    if b.BulkDelete? {
      TryDeleteUses(s, b.ok, s.actors[a].q);
      BecomeUses(s, TryDelete(s, b.ok, s.actors[a].q), a, t.actors[a]);
    } else {
      BecomeUses(s, s, a, t.actors[a]);
    }
  }

  /** What a sweep's step does: it writes at most one record, and goes on with less to do. */
  lemma SweepMoves(s: State, a: nat, w: SweepStep)
    requires SweepEnabled(s, a, w) && !w.ListPending? && !w.ListRunning?
    ensures var t := DoSweep(s, a, w);
            && a in t.actors && t == Become(s.(views := t.views), a, t.actors[a])
            && ActorWeight(t.actors[a]) < ActorWeight(s.actors[a])
            && t.views.cache.Keys == s.views.cache.Keys
  {
  }

  lemma SweepUses(s: State, a: nat, w: SweepStep)
    requires SweepEnabled(s, a, w) && !w.ListPending? && !w.ListRunning?
    ensures Measure(DoSweep(s, a, w)) < Measure(s)
  {
    var t := DoSweep(s, a, w);
    SweepMoves(s, a, w);
    SameSize(s.views.cache, t.views.cache);
    BecomeUses(s, s.(views := t.views), a, t.actors[a]);
  }

  lemma SameSize<V>(m: map<nat, V>, n: map<nat, V>)
    requires m.Keys == n.Keys
    ensures |m| == |n|
  {
    assert |m| == |m.Keys| && |n| == |n.Keys|;
  }

  /** Marking a listed item: one record at most is written, and there is less to do. */
  lemma ArchiveMarkMoves(s: State, a: nat, ok: bool, now: int)
    requires ArchiveEnabled(s, a, ArchiveMark(ok, now))
    ensures var t := DoArchive(s, a, ArchiveMark(ok, now));
            && a in t.actors && t == Become(s.(views := t.views), a, t.actors[a])
            && ActorWeight(t.actors[a]) < ActorWeight(s.actors[a])
            && t.views.cache.Keys == s.views.cache.Keys
  {
  }

  lemma ArchiveUses(s: State, a: nat, v: ArchiveStep)
    requires ArchiveEnabled(s, a, v) && !v.ArchiveList?
    ensures Measure(DoArchive(s, a, v)) < Measure(s)
  {
    var t := DoArchive(s, a, v);
    match v {
      case ArchiveDelete(ok) =>
        TryDeleteUses(s, ok, s.actors[a].item.q);
        BecomeUses(s, TryDelete(s, ok, s.actors[a].item.q), a, Archiving(s.actors[a].items));
      case ArchiveMark(ok, now) =>
        ArchiveMarkMoves(s, a, ok, now);
        SameSize(s.views.cache, t.views.cache);
        BecomeUses(s, s.(views := t.views), a, t.actors[a]);
      case _ =>
    }
  }

  lemma ShutMarkMoves(s: State, a: nat, ok: bool)
    requires ShutEnabled(s, a, ShutMark(ok))
    ensures var t := DoShut(s, a, ShutMark(ok));
            && a in t.actors && t == Become(s.(views := t.views), a, t.actors[a])
            && ActorWeight(t.actors[a]) < ActorWeight(s.actors[a])
            && t.views.cache.Keys == s.views.cache.Keys
  {
  }

  lemma ShutUses(s: State, a: nat, z: ShutStep)
    requires ShutEnabled(s, a, z) && !z.ShutStart? && !z.ShutScan?
    ensures Measure(DoShut(s, a, z)) < Measure(s)
  {
    var t := DoShut(s, a, z);
    match z {
      case ShutDelete(ok) =>
        TryDeleteUses(s, ok, s.actors[a].q);
        BecomeUses(s, TryDelete(s, ok, s.actors[a].q), a, ShutMarking(s.actors[a].items));
      case ShutMark(ok) =>
        ShutMarkMoves(s, a, ok);
        SameSize(s.views.cache, t.views.cache);
        BecomeUses(s, s.(views := t.views), a, t.actors[a]);
      case _ =>
    }
  }

  lemma StepUses(s: State, t: Step)
    requires Core(s) && Enabled(s, t) && !Arrival(t)
    ensures Measure(Do(s, t)) < Measure(s)
  {
    match t {
      case OfHandler(id, h) => HandlerUses(s, id, h);
      case OfQueue(q, w) => QueueUses(s, q, w);
      case OfActor(a, Cancel(c)) => CancelUses(s, a, c);
      case OfActor(a, BulkDeletion(b)) => BulkUses(s, a, b);
      case OfActor(a, Sweep(w)) => SweepUses(s, a, w);
      case OfActor(a, Archive(v)) => ArchiveUses(s, a, v);
      case OfActor(a, Shutdown(z)) => ShutUses(s, a, z);
      case OfActor(a, Crash) => DropActorUses(s, a);
      case Expiry(id) =>
        assert (s.views.cache - {id}).Keys == s.views.cache.Keys - {id};
    }
  }

  lemma {:induction false} DrainingIsBounded(s: State, us: seq<Step>)
    requires Core(s) && Legal(s, us) && forall t :: t in us ==> !Arrival(t)
    ensures |us| <= Measure(s) - Measure(Run(s, us))
    decreases |us|
  {
    if us != [] {
      StepUses(s, us[0]);
      StepKeepsCore(s, us[0]);
      DrainingIsBounded(Do(s, us[0]), us[1..]);
    }
  }

  /** From every reachable state, a run without arrivals ends after at most `Measure` steps. */
  lemma DrainingTerminates(limit: nat, ts: seq<Step>, us: seq<Step>)
    requires Legal(Init(limit), ts) && Legal(Run(Init(limit), ts), us)
    requires forall t :: t in us ==> !Arrival(t)
    ensures |us| <= Measure(Run(Init(limit), ts))
  {
    CoreAlong(Init(limit), ts);
    DrainingIsBounded(Run(Init(limit), ts), us);
  }

  lemma {:induction false} CoreAlong(s: State, ts: seq<Step>)
    requires Core(s) && Legal(s, ts)
    ensures Core(Run(s, ts))
    decreases |ts|
  {
    if ts != [] {
      StepKeepsCore(s, ts[0]);
      CoreAlong(Do(s, ts[0]), ts[1..]);
    }
  }

  // ---------- however many sweeps and cancels keep coming ----------

  /** New requests, and tasks handed back on shutdown. */
  predicate NewWork(t: Step) {
    (t.OfHandler? && (t.h.Admit? || t.h.SyncCreate?)) || (t.OfQueue? && t.w.Requeue?)
  }

  /** Steps of HTTP handlers, workers and the queue. */
  predicate IsWork(t: Step) {
    t.OfHandler? || t.OfQueue?
  }

  ghost function WorkMeasure(s: State): nat {
    Sum(s.queue, EntryWeight) + Sum(s.handlers, HandlerWeight)
  }

  function WorkSteps(us: seq<Step>): nat {
    if us == [] then 0 else (if IsWork(us[0]) then 1 else 0) + WorkSteps(us[1..])
  }

  /** Handlers and workers leave the other actors and the cache's keys alone. */
  lemma WorkKeepsRest(s: State, t: Step)
    requires Enabled(s, t) && IsWork(t)
    ensures Do(s, t).actors == s.actors && Do(s, t).views.cache.Keys >= s.views.cache.Keys
  {
    match t {
      case OfHandler(id, h) => HandlerKeepsRest(s, id, h);
      case OfQueue(q, w) => QueueKeepsRest(s, q, w);
    }
  }

  lemma HandlerKeepsRest(s: State, id: TaskId, h: HandlerStep)
    requires HandlerEnabled(s, id, h)
    ensures DoHandler(s, id, h).actors == s.actors && DoHandler(s, id, h).views.cache.Keys >= s.views.cache.Keys
  {
  }

  lemma QueueKeepsRest(s: State, q: QueueId, w: QueueStep)
    requires QueueEnabled(s, q, w)
    ensures DoQueue(s, q, w).actors == s.actors && DoQueue(s, q, w).views.cache.Keys == s.views.cache.Keys
  {
  }

  lemma WorkUses(s: State, t: Step)
    requires Core(s) && Enabled(s, t) && IsWork(t) && !NewWork(t)
    ensures WorkMeasure(Do(s, t)) < WorkMeasure(s)
  {
    var s' := Do(s, t);
    assert !Arrival(t);
    StepUses(s, t);
    WorkKeepsRest(s, t);
    SubsetSize(s.views.cache.Keys, s'.views.cache.Keys);
    assert |s.views.cache| == |s.views.cache.Keys| && |s'.views.cache| == |s'.views.cache.Keys|;
  }

  /** Fewer entries weigh no more. */
  lemma {:induction false} SumShrinks<V>(m: map<nat, V>, n: map<nat, V>, w: V -> nat)
    requires forall k :: k in n ==> k in m && n[k] == m[k]
    ensures Sum(n, w) <= Sum(m, w)
    decreases |n|
  {
    if n != map[] {
      var k :| k in n;
      SumTakes(n, w, k);
      SumTakes(m, w, k);
      assert (n - {k}).Keys == n.Keys - {k};
      SumShrinks(m - {k}, n - {k}, w);
    }
  }

  lemma MeddlingAddsNoWork(s: State, t: State)
    requires Meddles(s, t)
    ensures WorkMeasure(t) <= WorkMeasure(s)
  {
    SumShrinks(s.queue, t.queue, EntryWeight);
  }

  lemma OthersAddNoWork(s: State, t: Step)
    requires Enabled(s, t) && !IsWork(t)
    ensures WorkMeasure(Do(s, t)) <= WorkMeasure(s)
  {
    match t {
      case OfActor(a, x) => ActorMeddles(s, a, x);
      case Expiry(id) => ExpiryMeddles(s, id);
    }
    MeddlingAddsNoWork(s, Do(s, t));
  }

  lemma {:induction false} WorkIsUsedUp(s: State, us: seq<Step>)
    requires Core(s) && Legal(s, us) && forall t :: t in us ==> !NewWork(t)
    ensures WorkSteps(us) + WorkMeasure(Run(s, us)) <= WorkMeasure(s)
    decreases |us|
  {
    if us != [] {
      assert us[0] in us;
      if IsWork(us[0]) {
        WorkUses(s, us[0]);
      } else {
        OthersAddNoWork(s, us[0]);
      }
      StepKeepsCore(s, us[0]);
      WorkIsUsedUp(Do(s, us[0]), us[1..]);
    }
  }

  /**
   From every reachable state: however many cancels, bulk deletions and sweeps come, once no new
   request is admitted and no worker server hands tasks back, handlers, workers and the queue take at
   most as many steps as their entries and handlers weigh.
   */
  lemma WorkDrains(limit: nat, ts: seq<Step>, us: seq<Step>)
    requires Legal(Init(limit), ts) && Legal(Run(Init(limit), ts), us)
    requires forall t :: t in us ==> !NewWork(t)
    ensures WorkSteps(us) <= WorkMeasure(Run(Init(limit), ts))
  {
    CoreAlong(Init(limit), ts);
    WorkIsUsedUp(Run(Init(limit), ts), us);
  }

}
