/**
 What holds in every reachable state of the protocol: entries and records agree on who belongs
 to whom.  Two relations carry the proofs: `Meddles` covers all a cancel, a bulk delete or a
 sweep can do to the stores, and `Evolves` what any step at all can do.
 */
module Invariant {

  import opened Wrappers
  import opened Records
  import opened Queues
  import opened Protocol

  ghost predicate Carries(s: State, q: QueueId, id: TaskId) {
    q in s.queue && s.queue[q].payload == Some(id)
  }

  // ---------- the invariant ----------

  ghost predicate IsReport(u: Update) {
    u.queueId.None? && (u.status == Some(Succeeded) || u.status == Some(Failed))
  }

  ghost predicate EntryOk(s: State, q: QueueId)
    requires q in s.queue
  {
    var e := s.queue[q];
    && q < s.nextQueue
    && e.payload.Some?
    && e.payload.value in s.views.db
    && (e.payload.value in s.handlers ==>
          s.handlers[e.payload.value] == Enqueued(q) || s.handlers[e.payload.value] == Unlinking(q))
    && (s.views.db[e.payload.value].queueId.Some? ==> s.views.db[e.payload.value].queueId.value == q)
    && (e.place.InActive? && e.place.pc.Answered? ==> IsReport(e.place.pc.report))
  }

  ghost predicate TaskOk(s: State, id: TaskId)
    requires id in s.views.db
  {
    var queueId := s.views.db[id].queueId;
    && id < |s.hist|
    && (queueId.Some? ==>
          && queueId.value < s.nextQueue
          && id !in s.handlers
          && (queueId.value in s.queue ==> s.queue[queueId.value].payload == Some(id)))
  }

  /** The views differ at most in a `failed` that only the database has. */
  ghost predicate ViewsOk(v: Views) {
    forall id :: id in v.cache ==>
      && id in v.db
      && v.cache[id].queueId == v.db[id].queueId
      && v.cache[id].model == v.db[id].model
      && (v.cache[id].status == v.db[id].status || v.db[id].status == Failed)
  }

  ghost predicate HandlerOk(s: State, id: TaskId)
    requires id in s.handlers
  {
    && id < |s.hist|
    && (s.handlers[id].Admitted? <==> id !in s.views.db)
    && (id in s.views.db ==> s.views.db[id].queueId.None?)
    && match s.handlers[id]
       case Enqueued(q) => q < s.nextQueue && (q in s.queue ==> s.queue[q].payload == Some(id))
       case Unlinking(q) => q < s.nextQueue && (q in s.queue ==> s.queue[q].payload == Some(id))
       case SyncAnswered(u) => IsReport(u)
       case _ => true
  }

  ghost predicate OneEntry(queue: Queue) {
    forall p, q :: p in queue && q in queue && queue[p].payload == queue[q].payload ==> p == q
  }

  ghost predicate Core(s: State) {
    && (forall q :: q in s.queue ==> EntryOk(s, q))
    && (forall id :: id in s.views.db ==> TaskOk(s, id))
    && ViewsOk(s.views)
    && (forall id :: id in s.handlers ==> HandlerOk(s, id))
    && OneEntry(s.queue)
  }

  /** Task ids that were not given out have no record. */
  lemma RecordsAreKnown(s: State)
    requires Core(s)
    ensures forall id :: id in s.views.db || id in s.views.cache ==> id < |s.hist|
  {
    assert forall id :: id in s.views.db ==> TaskOk(s, id);
  }

  /** Nor a handler. */
  lemma HandlersAreKnown(s: State)
    requires Core(s)
    ensures forall id :: id in s.handlers ==> id < |s.hist|
  {
    assert forall id :: id in s.handlers ==> HandlerOk(s, id);
  }

  // ---------- what cancels, bulk deletes and sweeps do to the stores ----------

  ghost predicate Spoiled(before: Record, after: Record) {
    && after.queueId == before.queueId
    && after.model == before.model
    && (after.status == before.status || after.status == Failed || after.status == Canceled)
  }

  ghost predicate Meddles(s: State, t: State) {
    && t.limit == s.limit && t.handlers == s.handlers && t.hist == s.hist && t.nextQueue == s.nextQueue
    && (forall q :: q in t.queue ==> q in s.queue && t.queue[q] == s.queue[q])
    && (forall q :: q in s.queue && q !in t.queue ==> !s.queue[q].place.InActive?)
    && t.views.db.Keys == s.views.db.Keys
    && t.views.cache.Keys <= s.views.cache.Keys
    && (forall id :: id in s.views.db ==> Spoiled(s.views.db[id], t.views.db[id]))
    && (forall id :: id in t.views.cache ==> Spoiled(s.views.cache[id], t.views.cache[id]))
    && (forall id :: id in s.views.db && id !in s.views.cache ==>
          t.views.db[id].status == s.views.db[id].status || t.views.db[id].status == Failed)
    && (ViewsOk(s.views) ==> ViewsOk(t.views))
  }

  lemma UntouchedMeddles(s: State, t: State)
    requires t == s.(actors := t.actors)
    ensures Meddles(s, t)
  {
  }

  lemma PutMeddles(s: State, t: State, ok: bool, id: TaskId, u: Update)
    requires u.queueId.None? && (u.status == Some(Failed) || u.status == Some(Canceled))
    requires t == TryPut(s, ok, id, u).(actors := t.actors)
    ensures Meddles(s, t)
  {
  }

  lemma BuryMeddles(s: State, t: State, id: TaskId, u: Update)
    requires u.queueId.None? && u.status == Some(Failed)
    requires t == s.(views := PutDb(s.views, id, u), actors := t.actors)
    ensures Meddles(s, t)
  {
  }

  lemma DeleteMeddles(s: State, t: State, ok: bool, q: QueueId)
    requires t == TryDelete(s, ok, q).(actors := t.actors)
    ensures Meddles(s, t)
  {
  }

  lemma CancelMeddles(s: State, a: nat, c: CancelStep)
    requires CancelEnabled(s, a, c)
    ensures Meddles(s, DoCancel(s, a, c))
  {
    var t := DoCancel(s, a, c);
    match c {
      case CancelGet(_, _) => UntouchedMeddles(s, t);
      case CancelDelete(ok) => DeleteMeddles(s, t, ok, s.actors[a].q);
      case CancelMark(ok) => PutMeddles(s, t, ok, s.actors[a].id, Mark(Canceled));
    }
  }

  lemma BulkMeddles(s: State, a: nat, b: BulkStep)
    requires BulkEnabled(s, a, b)
    ensures Meddles(s, DoBulk(s, a, b))
  {
    var t := DoBulk(s, a, b);
    if b.BulkDelete? {
      DeleteMeddles(s, t, b.ok, s.actors[a].q);
    } else {
      UntouchedMeddles(s, t);
    }
  }

  lemma SweepMeddles(s: State, a: nat, w: SweepStep)
    requires SweepEnabled(s, a, w)
    ensures Meddles(s, DoSweep(s, a, w))
  {
    var t := DoSweep(s, a, w);
    if w.Fail? {
      PutMeddles(s, t, w.ok, s.actors[a].job.id, MarkFailed("Unknown failure"));
    } else if w.Bury? && w.ok {
      BuryMeddles(s, t, s.actors[a].job.id, MarkFailed("Unknown failure"));
    } else {
      UntouchedMeddles(s, t);
    }
  }

  lemma ArchiveMeddles(s: State, a: nat, v: ArchiveStep)
    requires ArchiveEnabled(s, a, v)
    ensures Meddles(s, DoArchive(s, a, v))
  {
    var t := DoArchive(s, a, v);
    if v.ArchiveDelete? {
      DeleteMeddles(s, t, v.ok, s.actors[a].item.q);
    } else if t.views == s.views {
      UntouchedMeddles(s, t);
    } else {
      PutMeddles(s, t, v.ok, s.actors[a].items[0].payload.value, MarkFailed("failed due to system errors"));
    }
  }

  lemma ShutMeddles(s: State, a: nat, z: ShutStep)
    requires ShutEnabled(s, a, z)
    ensures Meddles(s, DoShut(s, a, z))
  {
    var t := DoShut(s, a, z);
    if z.ShutDelete? {
      DeleteMeddles(s, t, z.ok, s.actors[a].q);
    } else if t.views == s.views {
      UntouchedMeddles(s, t);
    } else {
      PutMeddles(s, t, z.ok, s.actors[a].items[0].payload.value, MarkFailed("the task queue was closed"));
    }
  }

  lemma ActorMeddles(s: State, a: nat, x: ActorStep)
    requires ActorEnabled(s, a, x)
    ensures Meddles(s, DoActor(s, a, x))
  {
    match x {
      case Cancel(c) => CancelMeddles(s, a, c);
      case BulkDeletion(b) => BulkMeddles(s, a, b);
      case Sweep(w) => SweepMeddles(s, a, w);
      case Archive(v) => ArchiveMeddles(s, a, v);
      case Shutdown(z) => ShutMeddles(s, a, z);
      case Crash => UntouchedMeddles(s, DropActor(s, a));
    }
  }

  lemma ExpiryMeddles(s: State, id: TaskId)
    requires id in s.views.cache
    ensures Meddles(s, Do(s, Expiry(id)))
  {
  }

  lemma MeddlingKeepsCore(s: State, t: State)
    requires Core(s) && Meddles(s, t)
    ensures Core(t)
  {
  }

  // ---------- the invariant is kept ----------

  lemma DropKeepsCore(s: State, id: TaskId)
    requires Core(s)
    ensures Core(DropHandler(s, id))
  {
  }

  lemma PutKeepsCore(s: State, ok: bool, id: TaskId, u: Update)
    requires Core(s) && u.queueId.None?
    ensures Core(TryPut(s, ok, id, u))
  {
  }

  lemma DeleteKeepsCore(s: State, q: QueueId)
    requires Core(s)
    ensures Core(Remove(s, q))
  {
  }

  lemma CreateKeepsCore(s: State, id: TaskId, r: Record, h: Handler)
    requires Core(s)
    requires id < |s.hist| && id !in s.views.db
    requires r.queueId.None? && (h.Created? || h.SyncCreated?)
    ensures Core(s.(views := Create(s.views, id, r), handlers := s.handlers[id := h]))
  {
    var t := s.(views := Create(s.views, id, r), handlers := s.handlers[id := h]);
    forall q | q in t.queue ensures EntryOk(t, q) {
      assert EntryOk(s, q);
    }
    forall i | i in t.views.db ensures TaskOk(t, i) {
      assert i != id ==> TaskOk(s, i);
    }
    forall i | i in t.handlers ensures HandlerOk(t, i) {
      assert i != id ==> HandlerOk(s, i);
    }
  }

  lemma EnqueueKeepsCore(s: State, id: TaskId)
    requires Core(s) && HandlerAt(s, id, Created)
    ensures Core(DoHandler(s, id, Enqueue(true)))
  {
    var t := DoHandler(s, id, Enqueue(true));
    assert HandlerOk(s, id);
    forall q | q in t.queue ensures EntryOk(t, q) {
      assert q != s.nextQueue ==> EntryOk(s, q);
    }
    forall i | i in t.views.db ensures TaskOk(t, i) {
      assert TaskOk(s, i);
    }
    forall i | i in t.handlers ensures HandlerOk(t, i) {
      assert HandlerOk(s, i);
    }
    forall q | q in s.queue ensures s.queue[q].payload != Some(id) {
      assert EntryOk(s, q);
    }
  }

  lemma LinkKeepsCore(s: State, id: TaskId, q: QueueId)
    requires Core(s) && HandlerAt(s, id, Enqueued(q)) && id in s.views.cache
    ensures Core(DoHandler(s, id, Link(true)))
  {
    var t := DoHandler(s, id, Link(true));
    assert HandlerOk(s, id) && TaskOk(s, id);
    forall p | p in t.queue ensures EntryOk(t, p) {
      assert EntryOk(s, p);
    }
    forall i | i in t.views.db ensures TaskOk(t, i) {
      assert TaskOk(s, i);
    }
    forall i | i in t.handlers ensures HandlerOk(t, i) {
      assert HandlerOk(s, i);
    }
  }

  /** A handler moves on without touching the stores. */
  lemma HandlerMoveKeepsCore(s: State, id: TaskId, h: Handler)
    requires Core(s) && id in s.handlers
    requires match h
             case Unlinking(q) => s.handlers[id] == Enqueued(q)
             case RollingBack => s.handlers[id] == Created
             case SyncAnswered(u) => s.handlers[id] == SyncCreated && IsReport(u)
             case _ => false
    ensures Core(s.(handlers := s.handlers[id := h]))
  {
    var t := s.(handlers := s.handlers[id := h]);
    forall p | p in t.queue ensures EntryOk(t, p) {
      assert EntryOk(s, p);
    }
    forall i | i in t.views.db ensures TaskOk(t, i) {
      assert TaskOk(s, i);
    }
    forall i | i in t.handlers ensures HandlerOk(t, i) {
      assert HandlerOk(s, i);
    }
  }

  lemma GrowKeepsCore(s: State, hist: seq<Hist>)
    requires Core(s) && |hist| >= |s.hist|
    ensures Core(s.(hist := hist))
  {
  }

  lemma AdmitKeepsCore(s: State, id: TaskId, infoOk: bool)
    requires Core(s) && id == |s.hist|
    ensures Core(DoHandler(s, id, Admit(infoOk)))
  {
    var t := DoHandler(s, id, Admit(infoOk));
    if t != s {
      GrowKeepsCore(s, t.hist);
      forall q | q in t.queue ensures EntryOk(t, q) {
        assert EntryOk(s, q) && TaskOk(s, s.queue[q].payload.value);
      }
      forall i | i in t.views.db ensures TaskOk(t, i) {
        assert TaskOk(s, i);
      }
      forall i | i in t.handlers ensures HandlerOk(t, i) {
        assert i != id ==> HandlerOk(s, i);
      }
    }
  }

  lemma NewRecordKeepsCore(s: State, id: TaskId, h: HandlerStep)
    requires Core(s) && HandlerEnabled(s, id, h) && (h.CreateTask? || h.SyncCreate?)
    ensures Core(DoHandler(s, id, h))
  {
    match h {
      case SyncCreate(ok, model) =>
        if ok {
          GrowKeepsCore(s, s.hist + [Hist([], 0)]);
          assert forall i :: i in s.views.db ==> TaskOk(s, i);
          CreateKeepsCore(s.(hist := s.hist + [Hist([], 0)]), id, NewRecord(model, Running), SyncCreated);
        }
      case CreateTask(ok, parsed, model) =>
        if ok {
          assert HandlerOk(s, id);
          CreateKeepsCore(s, id, NewRecord(model, Pending), Created);
          var t := s.(views := Create(s.views, id, NewRecord(model, Pending)), handlers := s.handlers[id := Created]);
          DropKeepsCore(t, id);
          assert DropHandler(t, id).handlers == s.handlers - {id};
        } else {
          DropKeepsCore(s, id);
        }
      case _ =>
    }
  }

  lemma HandlerKeepsCore(s: State, id: TaskId, h: HandlerStep)
    requires Core(s) && HandlerEnabled(s, id, h)
    ensures Core(DoHandler(s, id, h))
  {
    match h {
      case Admit(infoOk) => AdmitKeepsCore(s, id, infoOk);
      case SyncCreate(_, _) => NewRecordKeepsCore(s, id, h);
      case CreateTask(_, _, _) => NewRecordKeepsCore(s, id, h);
      case Enqueue(ok) =>
        if ok {
          EnqueueKeepsCore(s, id);
        } else {
          HandlerMoveKeepsCore(s, id, RollingBack);
        }
      case RollBack(ok) =>
        PutKeepsCore(s, ok, id, MarkFailed("task queue failed"));
        DropKeepsCore(TryPut(s, ok, id, MarkFailed("task queue failed")), id);
      case Link(ok) =>
        var q := s.handlers[id].q;
        if ok && Accepts(s.views, id) {
          LinkKeepsCore(s, id, q);
        } else {
          HandlerMoveKeepsCore(s, id, Unlinking(q));
        }
      case Unlink(ok) =>
        DeleteKeepsCore(s, s.handlers[id].q);
        DropKeepsCore(TryDelete(s, ok, s.handlers[id].q), id);
      case SyncPredict(p) =>
        if p.Panic? {
          DropKeepsCore(s, id);
        } else {
          HandlerMoveKeepsCore(s, id, SyncAnswered(ReportOf(p)));
        }
      case SyncWrite(ok) =>
        assert HandlerOk(s, id);
        PutKeepsCore(s, ok, id, s.handlers[id].report);
        DropKeepsCore(TryPut(s, ok, id, s.handlers[id].report), id);
      case HandlerCrash => DropKeepsCore(s, id);
    }
  }

  lemma MoveKeepsCore(s: State, q: QueueId, e: Entry, events: seq<Event>, backs: nat)
    requires Core(s) && q in s.queue && e.payload == s.queue[q].payload
    requires e.place.InActive? && e.place.pc.Answered? ==> IsReport(e.place.pc.report)
    ensures Core(Move(s, q, e, events, backs))
  {
    var t := Move(s, q, e, events, backs);
    forall p | p in t.queue ensures EntryOk(t, p) {
      assert EntryOk(s, p);
    }
    forall i | i in t.views.db ensures TaskOk(t, i) {
      assert TaskOk(s, i);
    }
    forall i | i in t.handlers ensures HandlerOk(t, i) {
      assert HandlerOk(s, i);
    }
  }

  lemma QueueKeepsCore(s: State, q: QueueId, w: QueueStep)
    requires Core(s) && QueueEnabled(s, q, w)
    ensures Core(DoQueue(s, q, w))
  {
    var e := s.queue[q];
    assert EntryOk(s, q);
    var t := DoQueue(s, q, w);
    match w {
      case Announce(ok, now) =>
        var s1 := TryPut(s, ok, e.payload.value, Mark(Running));
        PutKeepsCore(s, ok, e.payload.value, Mark(Running));
        if ok && Accepts(s.views, e.payload.value) {
          MoveKeepsCore(s1, q, t.queue[q], [Wrote(Running)], 0);
        } else {
          MoveKeepsCore(s, q, t.queue[q], [Refused(Running)], 1);
        }
      case Report(ok, now) =>
        var u := e.place.pc.report;
        var s1 := TryPut(s, ok, e.payload.value, u);
        PutKeepsCore(s, ok, e.payload.value, u);
        if ok && Accepts(s.views, e.payload.value) {
          MoveKeepsCore(s1, q, t.queue[q], [Wrote(u.status.value)], 0);
        } else {
          MoveKeepsCore(s, q, t.queue[q], [Refused(u.status.value)], 1);
        }
      case Return => DeleteKeepsCore(s, q);
      case Forward => MoveKeepsCore(s, q, t.queue[q], [], if e.place.InRetry? then 1 else 0);
      case Pop => MoveKeepsCore(s, q, t.queue[q], [], 0);
      case Call(p, now) =>
        var events := if p.Panic? then [Called, Panicked] else [Called];
        MoveKeepsCore(s, q, t.queue[q], events, if p.Panic? then 1 else 0);
      case WorkerCrash => MoveKeepsCore(s, q, t.queue[q], [Died], 0);
      case Recover(now) => MoveKeepsCore(s, q, t.queue[q], [], 1);
      case Requeue => MoveKeepsCore(s, q, t.queue[q], [], 1);
    }
  }

  lemma StepKeepsCore(s: State, t: Step)
    requires Core(s) && Enabled(s, t)
    ensures Core(Do(s, t))
  {
    match t {
      case OfHandler(id, h) => HandlerKeepsCore(s, id, h);
      case OfQueue(q, w) => QueueKeepsCore(s, q, w);
      case OfActor(a, x) =>
        ActorMeddles(s, a, x);
        MeddlingKeepsCore(s, Do(s, t));
      case Expiry(id) =>
        ExpiryMeddles(s, id);
        MeddlingKeepsCore(s, Do(s, t));
    }
  }

}
