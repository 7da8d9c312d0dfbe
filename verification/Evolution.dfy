/**
 What any step may do to a task, and what every actor may rely on between two of its calls
 whatever the others do meanwhile.
 */
module Evolution {

  import opened Wrappers
  import opened Records
  import opened Queues
  import opened Protocol
  import opened Invariant

  // ---------- one step, seen by a bystander ----------

  ghost predicate Busy(s: State, id: TaskId) {
    || (exists q :: Carries(s, q, id) && s.queue[q].place.InActive?)
    || (id in s.handlers && s.handlers[id].SyncAnswered?)
  }

  /** The handler has nothing left to do but to name, roll back or withdraw its entry. */
  ghost predicate PastEnqueue(h: Handler) {
    h.Enqueued? || h.Unlinking? || h.RollingBack?
  }

  /** Entries keep their task, never come back from the archive, and move backwards only on record. */
  ghost predicate Descends(s: State, t: State, q: QueueId)
    requires q in s.queue && q in t.queue
  {
    var e, f := s.queue[q], t.queue[q];
    && f.payload == e.payload
    && (Live(f.place) ==>
          && Live(e.place)
          && (Rank(f.place) >= Rank(e.place)
              || (e.payload.Some? && Backs(t, e.payload.value) > Backs(s, e.payload.value))))
  }

  ghost predicate NewEntry(s: State, e: Entry) {
    e.payload.Some? && HandlerAt(s, e.payload.value, Created)
  }

  ghost predicate QueueEvolves(s: State, t: State) {
    forall q :: q in t.queue ==> if q in s.queue then Descends(s, t, q) else NewEntry(s, t.queue[q])
  }

  ghost predicate HandlersEvolve(s: State, t: State) {
    && |t.hist| >= |s.hist|
    && (forall id :: id in t.handlers ==>
          if id in s.handlers then PastEnqueue(s.handlers[id]) ==> PastEnqueue(t.handlers[id])
          else id >= |s.hist|)
  }

  ghost predicate ViewsEvolve(s: State, t: State) {
    && (forall id :: id in s.views.db ==>
          && id in t.views.db
          && (s.views.db[id].queueId.Some? ==> t.views.db[id].queueId == s.views.db[id].queueId))
    && (forall id :: id in s.views.db && id !in s.views.cache ==>
          && id !in t.views.cache
          && (t.views.db[id].status == s.views.db[id].status || t.views.db[id].status == Failed))
    && (forall id :: HasSucceeded(t.views, id) && !HasSucceeded(s.views, id) ==> Busy(s, id))
  }

  ghost predicate Evolves(s: State, t: State) {
    && QueueEvolves(s, t)
    && HandlersEvolve(s, t)
    && ViewsEvolve(s, t)
    && (forall id {:trigger Backs(t, id)} :: Backs(t, id) >= Backs(s, id))
  }

  lemma MeddlingAddsNoSuccess(s: State, t: State, id: TaskId)
    requires Meddles(s, t) && HasSucceeded(t.views, id)
    ensures HasSucceeded(s.views, id)
  {
    if SucceededIn(t.views.cache, id) {
      assert Spoiled(s.views.cache[id], t.views.cache[id]);
    } else {
      assert Spoiled(s.views.db[id], t.views.db[id]);
    }
  }

  lemma MeddlingEvolvesViews(s: State, t: State)
    requires ViewsOk(s.views) && Meddles(s, t)
    ensures ViewsEvolve(s, t)
  {
    forall id | HasSucceeded(t.views, id) ensures HasSucceeded(s.views, id) {
      MeddlingAddsNoSuccess(s, t, id);
    }
  }

  lemma MeddlingEvolves(s: State, t: State)
    requires Core(s) && Meddles(s, t)
    ensures Evolves(s, t)
  {
    MeddlingEvolvesViews(s, t);
    assert QueueEvolves(s, t) && HandlersEvolve(s, t);
  }

  lemma PutEvolves(s: State, t: State, ok: bool, id: TaskId, u: Update)
    requires Core(s) && t.views == TryPut(s, ok, id, u).views
    requires u.queueId.Some? ==> id in s.views.db && s.views.db[id].queueId.None?
    requires u.status == Some(Succeeded) ==> Busy(s, id)
    ensures ViewsEvolve(s, t)
  {
  }

  lemma CreateEvolves(s: State, t: State, id: TaskId, r: Record)
    requires Core(s) && t.views == Create(s.views, id, r) && id !in s.views.db && r.status != Succeeded
    ensures ViewsEvolve(s, t)
  {
  }

  lemma HandlerEvolvesViews(s: State, id: TaskId, h: HandlerStep)
    requires Core(s) && HandlerEnabled(s, id, h)
    ensures ViewsEvolve(s, DoHandler(s, id, h))
  {
    var t := DoHandler(s, id, h);
    assert id in s.handlers ==> HandlerOk(s, id);
    match h {
      case SyncCreate(ok, model) =>
        RecordsAreKnown(s);
        if ok {
          CreateEvolves(s, t, id, NewRecord(model, Running));
        }
      case CreateTask(ok, _, model) =>
        if ok {
          CreateEvolves(s, t, id, NewRecord(model, Pending));
        }
      case RollBack(ok) => PutEvolves(s, t, ok, id, MarkFailed("task queue failed"));
      case Link(ok) => PutEvolves(s, t, ok, id, LinkTo(s.handlers[id].q));
      case SyncWrite(ok) =>
        assert Busy(s, id);
        PutEvolves(s, t, ok, id, s.handlers[id].report);
      case _ => assert t.views == s.views;
    }
  }

  lemma HandlerEvolvesQueue(s: State, id: TaskId, h: HandlerStep)
    requires Core(s) && HandlerEnabled(s, id, h)
    ensures QueueEvolves(s, DoHandler(s, id, h))
  {
    var t := DoHandler(s, id, h);
    if h.Enqueue? && h.ok {
      assert forall q :: q in s.queue ==> EntryOk(s, q);
    } else {
      assert forall q :: q in t.queue ==> q in s.queue && t.queue[q] == s.queue[q];
    }
  }

  lemma HandlerEvolvesHandlers(s: State, id: TaskId, h: HandlerStep)
    requires Core(s) && HandlerEnabled(s, id, h)
    ensures var t := DoHandler(s, id, h);
            HandlersEvolve(s, t) && (forall i {:trigger Backs(t, i)} :: Backs(t, i) == Backs(s, i))
  {
    HandlersAreKnown(s);
  }

  lemma HandlerEvolves(s: State, id: TaskId, h: HandlerStep)
    requires Core(s) && HandlerEnabled(s, id, h)
    ensures Evolves(s, DoHandler(s, id, h))
  {
    HandlerEvolvesViews(s, id, h);
    HandlerEvolvesQueue(s, id, h);
    HandlerEvolvesHandlers(s, id, h);
  }

  lemma MoveEvolves(s: State, t: State, s1: State, q: QueueId, e: Entry, events: seq<Event>, backs: nat)
    requires Core(s) && q in s.queue && s1 == s.(views := s1.views) && t == Move(s1, q, e, events, backs)
    requires e.payload == s.queue[q].payload
    requires Live(e.place) ==> Live(s.queue[q].place) && (backs > 0 || Rank(e.place) >= Rank(s.queue[q].place))
    ensures QueueEvolves(s, t) && HandlersEvolve(s, t)
    ensures forall id {:trigger Backs(t, id)} :: Backs(t, id) >= Backs(s, id)
  {
    assert EntryOk(s, q) && TaskOk(s, s.queue[q].payload.value);
    assert Backs(t, e.payload.value) == Backs(s, e.payload.value) + backs;
    assert Descends(s, t, q);
  }

  lemma QueueEvolvesViews(s: State, q: QueueId, w: QueueStep)
    requires Core(s) && QueueEnabled(s, q, w)
    ensures ViewsEvolve(s, DoQueue(s, q, w))
  {
    assert EntryOk(s, q);
    var t, e := DoQueue(s, q, w), s.queue[q];
    match w {
      case Announce(ok, _) => PutEvolves(s, t, ok, e.payload.value, Mark(Running));
      case Report(ok, _) =>
        assert Carries(s, q, e.payload.value);
        assert Busy(s, e.payload.value);
        PutEvolves(s, t, ok, e.payload.value, e.place.pc.report);
      case _ => assert t.views == s.views;
    }
  }

  lemma EntryEvolves(s: State, q: QueueId, w: QueueStep)
    requires Core(s) && QueueEnabled(s, q, w) && !w.Return?
    ensures var t := DoQueue(s, q, w);
            && QueueEvolves(s, t) && HandlersEvolve(s, t)
            && (forall id {:trigger Backs(t, id)} :: Backs(t, id) >= Backs(s, id))
  {
    assert EntryOk(s, q);
    var t, e := DoQueue(s, q, w), s.queue[q];
    var s1 := s.(views := t.views);
    match w {
      case Forward => MoveEvolves(s, t, s1, q, t.queue[q], [], if e.place.InRetry? then 1 else 0);
      case Pop => MoveEvolves(s, t, s1, q, t.queue[q], [], 0);
      case Announce(ok, _) =>
        if ok && Accepts(s.views, e.payload.value) {
          MoveEvolves(s, t, s1, q, t.queue[q], [Wrote(Running)], 0);
        } else {
          MoveEvolves(s, t, s1, q, t.queue[q], [Refused(Running)], 1);
        }
      case Call(p, _) =>
        var events := if p.Panic? then [Called, Panicked] else [Called];
        MoveEvolves(s, t, s1, q, t.queue[q], events, if p.Panic? then 1 else 0);
      case Report(ok, _) =>
        if ok && Accepts(s.views, e.payload.value) {
          MoveEvolves(s, t, s1, q, t.queue[q], [Wrote(e.place.pc.report.status.value)], 0);
        } else {
          MoveEvolves(s, t, s1, q, t.queue[q], [Refused(e.place.pc.report.status.value)], 1);
        }
      case WorkerCrash => MoveEvolves(s, t, s1, q, t.queue[q], [Died], 0);
      case Recover(_) => MoveEvolves(s, t, s1, q, t.queue[q], [], 1);
      case Requeue => MoveEvolves(s, t, s1, q, t.queue[q], [], 1);
    }
  }

  lemma QueueStepEvolves(s: State, q: QueueId, w: QueueStep)
    requires Core(s) && QueueEnabled(s, q, w)
    ensures Evolves(s, DoQueue(s, q, w))
  {
    QueueEvolvesViews(s, q, w);
    if !w.Return? {
      EntryEvolves(s, q, w);
    }
  }

  lemma StepEvolves(s: State, t: Step)
    requires Core(s) && Enabled(s, t)
    ensures Evolves(s, Do(s, t))
  {
    match t {
      case OfHandler(id, h) => HandlerEvolves(s, id, h);
      case OfQueue(q, w) => QueueStepEvolves(s, q, w);
      case OfActor(a, x) =>
        ActorMeddles(s, a, x);
        MeddlingEvolves(s, Do(s, t));
      case Expiry(id) =>
        ExpiryMeddles(s, id);
        MeddlingEvolves(s, Do(s, t));
    }
  }

  // ---------- what stays true of a task ----------

  /** No entry can run the task any more, and its HTTP handler can neither enqueue nor finish it. */
  ghost predicate Quiet(s: State, id: TaskId) {
    && id in s.views.db
    && (forall q :: Carries(s, q, id) ==> s.queue[q].place.InArchived?)
    && (id in s.handlers ==> PastEnqueue(s.handlers[id]))
  }

  /** Quiet, and without success. */
  ghost predicate Spent(s: State, id: TaskId) {
    Quiet(s, id) && !HasSucceeded(s.views, id)
  }

  lemma QuietStays(s: State, t: State, id: TaskId)
    requires Core(s) && Evolves(s, t) && Quiet(s, id)
    ensures Quiet(t, id)
  {
    assert TaskOk(s, id);
    forall q | Carries(t, q, id) ensures t.queue[q].place.InArchived? {
      if q in s.queue {
        assert Descends(s, t, q);
        assert Carries(s, q, id);
      }
    }
  }

  lemma SpentStays(s: State, t: State, id: TaskId)
    requires Core(s) && Evolves(s, t) && Spent(s, id)
    ensures Spent(t, id)
  {
    QuietStays(s, t, id);
  }

  // ---------- what an actor relies on ----------

  /** Listed with its cached copy already gone: no ordinary update reaches the record any more. */
  ghost predicate Gone(s: State, id: TaskId) {
    id in s.views.db && id !in s.views.cache && s.views.db[id].status != Succeeded
  }

  ghost predicate JobKnown(s: State, job: Job) {
    && job.id in s.views.db
    && (job.gone ==> Gone(s, job.id))
    && (job.status == Pending || job.status == Running)
  }

  /** Part of the way through the lists, every live entry of the task was seen or is still ahead. */
  ghost predicate JobScanned(s: State, job: Job, list: nat, seen: set<QueueId>, whole: bool) {
    && job.backs <= Backs(s, job.id)
    && (job.settled ==> job.id !in s.handlers)
    && (job.settled && whole && Backs(s, job.id) == job.backs ==>
          forall q :: Carries(s, q, job.id) && Live(s.queue[q].place) ==>
            q in seen || Rank(s.queue[q].place) >= list)
  }

  ghost predicate JobCovered(s: State, job: Job, seen: set<QueueId>) {
    job.covered ==>
      && job.id !in s.handlers
      && (forall q :: Carries(s, q, job.id) && Live(s.queue[q].place) ==> q in seen)
  }

  ghost predicate Items(s: State, items: seq<TaskInfo>) {
    forall item :: item in items && item.payload.Some? ==> Quiet(s, item.payload.value)
  }

  ghost predicate ActorOk(s: State, x: Actor) {
    match x
    case CancelGot(id, q) => id in s.views.db && s.views.db[id].queueId == Some(q)
    case CancelDeleted(id) => Quiet(s, id)
    case SweepListed(_, jobs) => forall job :: job in jobs ==> JobKnown(s, job)
    case SweepWaiting(jobs) => forall job :: job in jobs ==> JobKnown(s, job)
    case SweepScanning(jobs, list, seen, whole) =>
      forall job :: job in jobs ==> JobKnown(s, job) && JobScanned(s, job, list, seen, whole)
    case SweepChecking(jobs, seen) =>
      forall job :: job in jobs ==> JobKnown(s, job) && JobCovered(s, job, seen)
    case SweepFailing(job, sound, jobs, seen) =>
      && JobKnown(s, job)
      && (sound ==> Spent(s, job.id))
      && (forall job :: job in jobs ==> JobKnown(s, job) && JobCovered(s, job, seen))
    case SweepBurying(job, jobs, seen) =>
      && JobKnown(s, job)
      && (forall job :: job in jobs ==> JobKnown(s, job) && JobCovered(s, job, seen))
    case Archiving(items) => Items(s, items)
    case ArchiveDeleting(_, _, _, items) => Items(s, items)
    case _ => true
  }

  ghost predicate Inv(s: State) {
    Core(s) && forall a :: a in s.actors ==> ActorOk(s, s.actors[a])
  }

  lemma JobStays(s: State, t: State, job: Job)
    requires Core(s) && Evolves(s, t) && JobKnown(s, job)
    ensures JobKnown(t, job)
  {
  }

  lemma ScannedStays(s: State, t: State, job: Job, list: nat, seen: set<QueueId>, whole: bool)
    requires Core(s) && Evolves(s, t) && JobKnown(s, job) && JobScanned(s, job, list, seen, whole)
    ensures JobScanned(t, job, list, seen, whole)
  {
    assert TaskOk(s, job.id);
    assert Backs(t, job.id) >= Backs(s, job.id);
    if job.settled && whole && Backs(t, job.id) == job.backs {
      forall q | Carries(t, q, job.id) && Live(t.queue[q].place)
        ensures q in seen || Rank(t.queue[q].place) >= list
      {
        if q in s.queue {
          assert Descends(s, t, q);
          assert Carries(s, q, job.id);
        }
      }
    }
  }

  lemma CoveredStays(s: State, t: State, job: Job, seen: set<QueueId>)
    requires Core(s) && Evolves(s, t) && JobKnown(s, job) && JobCovered(s, job, seen)
    ensures JobCovered(t, job, seen)
  {
    assert TaskOk(s, job.id);
    if job.covered {
      forall q | Carries(t, q, job.id) && Live(t.queue[q].place) ensures q in seen {
        if q in s.queue {
          assert Descends(s, t, q);
          assert Carries(s, q, job.id);
        }
      }
    }
  }

  lemma JobsStay(s: State, t: State, jobs: seq<Job>, seen: set<QueueId>)
    requires Core(s) && Evolves(s, t)
    requires forall job :: job in jobs ==> JobKnown(s, job) && JobCovered(s, job, seen)
    ensures forall job :: job in jobs ==> JobKnown(t, job) && JobCovered(t, job, seen)
  {
    forall job | job in jobs ensures JobKnown(t, job) && JobCovered(t, job, seen) {
      JobStays(s, t, job);
      CoveredStays(s, t, job, seen);
    }
  }

  lemma ItemsStay(s: State, t: State, items: seq<TaskInfo>)
    requires Core(s) && Evolves(s, t) && Items(s, items)
    ensures Items(t, items)
  {
    forall item | item in items && item.payload.Some? ensures Quiet(t, item.payload.value) {
      QuietStays(s, t, item.payload.value);
    }
  }

  /** Whatever an actor relies on survives every step of the others. */
  lemma ActorStays(s: State, t: State, x: Actor)
    requires Core(s) && Evolves(s, t) && ActorOk(s, x)
    ensures ActorOk(t, x)
  {
    match x {
      case CancelGot(id, q) =>
      case CancelDeleted(id) => QuietStays(s, t, id);
      case SweepListed(_, jobs) =>
        forall job | job in jobs ensures JobKnown(t, job) { JobStays(s, t, job); }
      case SweepWaiting(jobs) =>
        forall job | job in jobs ensures JobKnown(t, job) { JobStays(s, t, job); }
      case SweepScanning(jobs, list, seen, whole) =>
        forall job | job in jobs ensures JobKnown(t, job) && JobScanned(t, job, list, seen, whole) {
          JobStays(s, t, job);
          ScannedStays(s, t, job, list, seen, whole);
        }
      case SweepChecking(jobs, seen) => JobsStay(s, t, jobs, seen);
      case SweepFailing(job, sound, jobs, seen) =>
        JobStays(s, t, job);
        JobsStay(s, t, jobs, seen);
        if sound {
          SpentStays(s, t, job.id);
        }
      case SweepBurying(job, jobs, seen) =>
        JobStays(s, t, job);
        JobsStay(s, t, jobs, seen);
      case Archiving(items) => ItemsStay(s, t, items);
      case ArchiveDeleting(_, _, _, items) => ItemsStay(s, t, items);
      case _ =>
    }
  }

}
