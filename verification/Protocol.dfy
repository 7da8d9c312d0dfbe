/**
 The life of a prediction task as a transition system.  Every call to the webhook or to the task
 queue is one atomic step that may fail, every actor may die between two of its calls, and the
 steps of all actors interleave freely.
 */
module Protocol {

  import opened Wrappers
  import opened Records
  import opened Queues

  /** What befell a task and its workers, as its history tells it. */
  datatype Event = Wrote(status: Status) | Refused(status: Status) | Called | Panicked | Died

  /** `backs` counts the moves of the task's entry against the order in which lists are read. */
  datatype Hist = Hist(events: seq<Event>, backs: nat)

  /** The HTTP handler that creates a task: `asyncPredict` or the synchronous `predict`. */
  datatype Handler =
    | Admitted                      // the queue had room
    | Created                       // the record exists
    | Enqueued(q: QueueId)          // the entry exists, the record does not name it yet
    | RollingBack                   // the queue refused the task
    | Unlinking(q: QueueId)         // the record could not be made to name the entry
    | SyncCreated
    | SyncAnswered(report: Update)

  /**
   A task that a status sweep has listed.  The last four fields record how the sweep came by it:
   the cached copy was already gone when it was listed, its HTTP handler had ended when the wait
   ended, the backward moves of its entry until then, and whether the listing missed nothing of it.
   */
  datatype Job = Job(id: TaskId, status: Status, gone: bool, settled: bool, backs: nat, covered: bool)

  /**
   Where an actor stands.  Before its deletion the archive sweep remembers whether its update was
   accepted and what its clock said.
   */
  datatype Actor =
    | CancelGot(id: TaskId, q: QueueId)
    | CancelDeleted(id: TaskId)
    | Bulk(ids: seq<TaskId>)
    | BulkGot(q: QueueId, ids: seq<TaskId>)
    | SweepListed(model: string, jobs: seq<Job>)
    | SweepWaiting(jobs: seq<Job>)
    | SweepScanning(jobs: seq<Job>, list: nat, seen: set<QueueId>, whole: bool)
    | SweepChecking(jobs: seq<Job>, seen: set<QueueId>)
    | SweepFailing(job: Job, sound: bool, jobs: seq<Job>, seen: set<QueueId>)
    | SweepBurying(job: Job, jobs: seq<Job>, seen: set<QueueId>)
    | Archiving(items: seq<TaskInfo>)
    | ArchiveDeleting(item: TaskInfo, marked: bool, now: int, items: seq<TaskInfo>)
    | ShutScanning(list: nat, items: seq<TaskInfo>)
    | ShutMarking(items: seq<TaskInfo>)
    | ShutDeleting(q: QueueId, items: seq<TaskInfo>)

  datatype State = State(
    limit: nat,                       // MAX_QUEUE_SIZE
    views: Views,
    queue: Queue,
    nextQueue: nat,                   // queue ids below this one have been given out
    handlers: map<TaskId, Handler>,
    hist: seq<Hist>,                  // one entry for every task id given out
    actors: map<nat, Actor>)

  datatype HandlerStep =
    | Admit(infoOk: bool)
    | CreateTask(ok: bool, parsed: bool, model: string)
    | Enqueue(ok: bool)
    | RollBack(ok: bool)
    | Link(ok: bool)
    | Unlink(ok: bool)
    | SyncCreate(ok: bool, model: string)
    | SyncPredict(p: Prediction)
    | SyncWrite(ok: bool)
    | HandlerCrash

  datatype QueueStep =
    | Forward
    | Pop
    | Announce(ok: bool, now: int)
    | Call(p: Prediction, now: int)
    | Report(ok: bool, now: int)
    | Return
    | WorkerCrash
    | Recover(now: int)               // the lease of a dead worker runs out
    | Requeue                         // a worker server shutting down hands its task back

  datatype CancelStep =
    | CancelGet(id: TaskId, ok: bool)
    | CancelDelete(ok: bool)
    | CancelMark(ok: bool)

  datatype BulkStep =
    | BulkList(model: string, ids: seq<TaskId>)
    | BulkGet(ok: bool)
    | BulkDelete(ok: bool)

  datatype SweepStep =
    | ListPending(model: string, ids: seq<TaskId>)
    | ListRunning(ids: seq<TaskId>)
    | Wait
    | Scan(ok: bool, page: seq<QueueId>)
    | Get(ok: bool)
    | Fail(ok: bool)
    | Bury(ok: bool)

  datatype ArchiveStep =
    | ArchiveList(page: seq<QueueId>)
    | ArchiveMark(ok: bool, now: int)
    | ArchiveDelete(ok: bool)

  datatype ShutStep =
    | ShutStart
    | ShutScan(ok: bool, page: seq<QueueId>)
    | ShutMark(ok: bool)
    | ShutDelete(ok: bool)

  datatype ActorStep =
    | Cancel(c: CancelStep)
    | BulkDeletion(b: BulkStep)
    | Sweep(w: SweepStep)
    | Archive(v: ArchiveStep)
    | Shutdown(z: ShutStep)
    | Crash

  datatype Step =
    | OfHandler(id: TaskId, h: HandlerStep)
    | OfQueue(q: QueueId, w: QueueStep)
    | OfActor(a: nat, x: ActorStep)
    | Expiry(id: TaskId)

  function Init(limit: nat): State {
    State(limit, Views(map[], map[]), map[], 0, map[], [], map[])
  }

  // ---------- pieces shared by the steps ----------

  function Note(hist: seq<Hist>, payload: Option<TaskId>, events: seq<Event>, backs: nat): seq<Hist> {
    if payload.Some? && payload.value < |hist| then
      var h := hist[payload.value];
      hist[payload.value := Hist(h.events + events, h.backs + backs)]
    else hist
  }

  function Backs(s: State, id: TaskId): nat {
    if id < |s.hist| then s.hist[id].backs else 0
  }

  predicate HandlerAt(s: State, id: TaskId, h: Handler) {
    id in s.handlers && s.handlers[id] == h
  }

  function DropHandler(s: State, id: TaskId): State {
    s.(handlers := s.handlers - {id})
  }

  function DropActor(s: State, a: nat): State {
    s.(actors := s.actors - {a})
  }

  function Become(s: State, a: nat, x: Actor): State {
    s.(actors := s.actors[a := x])
  }

  function Remove(s: State, q: QueueId): State {
    s.(queue := s.queue - {q})
  }

  function TryPut(s: State, ok: bool, id: TaskId, u: Update): State {
    if ok && Accepts(s.views, id) then s.(views := Put(s.views, id, u)) else s
  }

  function TryDelete(s: State, ok: bool, q: QueueId): State {
    if ok && CanDelete(s.queue, q) then Remove(s, q) else s
  }

  // ---------- HTTP handlers ----------

  predicate HandlerEnabled(s: State, id: TaskId, h: HandlerStep) {
    match h
    case Admit(_) => id == |s.hist|
    case SyncCreate(_, _) => id == |s.hist|
    case CreateTask(_, _, _) => HandlerAt(s, id, Admitted)
    case Enqueue(_) => HandlerAt(s, id, Created)
    case RollBack(_) => HandlerAt(s, id, RollingBack)
    case Link(_) => id in s.handlers && s.handlers[id].Enqueued?
    case Unlink(_) => id in s.handlers && s.handlers[id].Unlinking?
    case SyncPredict(_) => HandlerAt(s, id, SyncCreated)
    case SyncWrite(_) => id in s.handlers && s.handlers[id].SyncAnswered?
    case HandlerCrash => id in s.handlers
  }

  function DoHandler(s: State, id: TaskId, h: HandlerStep): State
    requires HandlerEnabled(s, id, h)
  {
    match h
    case Admit(infoOk) =>
      if infoOk && |WaitingSet(s.queue)| >= s.limit then s
      else s.(handlers := s.handlers[id := Admitted], hist := s.hist + [Hist([], 0)])
    case SyncCreate(ok, model) =>
      if !ok then s
      else s.(views := Create(s.views, id, NewRecord(model, Running)),
              handlers := s.handlers[id := SyncCreated],
              hist := s.hist + [Hist([], 0)])
    case CreateTask(ok, parsed, model) =>
      if !ok then DropHandler(s, id)
      else
        var s1 := s.(views := Create(s.views, id, NewRecord(model, Pending)));
        if parsed then s1.(handlers := s.handlers[id := Created]) else DropHandler(s1, id)
    case Enqueue(ok) =>
      if !ok then s.(handlers := s.handlers[id := RollingBack])
      else s.(queue := s.queue[s.nextQueue := Entry(Some(id), InPending, 0, 0)],
              nextQueue := s.nextQueue + 1,
              handlers := s.handlers[id := Enqueued(s.nextQueue)])
    case RollBack(ok) =>
      DropHandler(TryPut(s, ok, id, MarkFailed("task queue failed")), id)
    case Link(ok) =>
      var q := s.handlers[id].q;
      if ok && Accepts(s.views, id) then DropHandler(s.(views := Put(s.views, id, LinkTo(q))), id)
      else s.(handlers := s.handlers[id := Unlinking(q)])
    case Unlink(ok) =>
      DropHandler(TryDelete(s, ok, s.handlers[id].q), id)
    case SyncPredict(p) =>
      if p.Panic? then DropHandler(s, id)
      else s.(handlers := s.handlers[id := SyncAnswered(ReportOf(p))])
    case SyncWrite(ok) =>
      DropHandler(TryPut(s, ok, id, s.handlers[id].report), id)
    case HandlerCrash =>
      DropHandler(s, id)
  }

  // ---------- the queue and its workers ----------

  predicate QueueEnabled(s: State, q: QueueId, w: QueueStep) {
    && q in s.queue
    && var place := s.queue[q].place;
       match w
       case Forward => place.InScheduled? || place.InRetry?
       case Pop => place.InPending?
       case Announce(_, _) => place == InActive(Fetched)
       case Call(_, _) => place == InActive(Announced) && s.queue[q].payload.Some?
       case Report(_, _) => place.InActive? && place.pc.Answered? && s.queue[q].payload.Some?
       case Return => place == InActive(Finished)
       case WorkerCrash => place.InActive? && place.pc != Lost
       case Recover(_) => place == InActive(Lost)
       case Requeue => place.InActive?
  }

  function Move(s: State, q: QueueId, e: Entry, events: seq<Event>, backs: nat): State {
    s.(queue := s.queue[q := e], hist := Note(s.hist, e.payload, events, backs))
  }

  function DoQueue(s: State, q: QueueId, w: QueueStep): State
    requires QueueEnabled(s, q, w)
  {
    var e := s.queue[q];
    match w
    case Forward => Move(s, q, e.(place := InPending), [], if e.place.InRetry? then 1 else 0)
    case Pop => Move(s, q, e.(place := InActive(Fetched)), [], 0)
    case Announce(ok, now) =>
      if e.payload.None? then Move(s, q, e.(place := InArchived, failedAt := now), [], 0)
      else if ok && Accepts(s.views, e.payload.value) then
        Move(s.(views := Put(s.views, e.payload.value, Mark(Running))),
             q, e.(place := InActive(Announced)), [Wrote(Running)], 0)
      else Move(s, q, Fails(e, now), [Refused(Running)], 1)
    case Call(p, now) =>
      if p.Panic? then Move(s, q, Fails(e, now), [Called, Panicked], 1)
      else Move(s, q, e.(place := InActive(Answered(ReportOf(p)))), [Called], 0)
    case Report(ok, now) =>
      var u := e.place.pc.report;
      var status := if u.status.Some? then u.status.value else Failed;
      if ok && Accepts(s.views, e.payload.value) then
        Move(s.(views := Put(s.views, e.payload.value, u)),
             q, e.(place := InActive(Finished)), [Wrote(status)], 0)
      else Move(s, q, Fails(e, now), [Refused(status)], 1)
    case Return => Remove(s, q)
    case WorkerCrash => Move(s, q, e.(place := InActive(Lost)), [Died], 0)
    case Recover(now) => Move(s, q, Fails(e, now), [], 1)
    case Requeue => Move(s, q, e.(place := InPending), [], 1)
  }

  // ---------- cancels, bulk deletes and sweeps ----------

  /** What a status sweep takes for a task that nobody works on any more. */
  predicate Suspect(r: Record, seen: set<QueueId>, status: Status) {
    && (r.queueId.None? || r.queueId.value !in seen)
    && r.status == status
  }

  /** Some entry that can still run carries the task although its record does not name the entry. */
  predicate Orphaned(s: State, id: TaskId) {
    exists q :: q in s.queue && Live(s.queue[q].place) && s.queue[q].payload == Some(id)
                && !(id in s.views.db && s.views.db[id].queueId == Some(q))
  }

  function JobsOf(s: State, ids: seq<TaskId>, status: Status): seq<Job> {
    seq(|ids|, i requires 0 <= i < |ids| => Job(ids[i], status, ids[i] !in s.views.cache, false, 0, false))
  }

  function Settle(s: State, jobs: seq<Job>): seq<Job> {
    seq(|jobs|, i requires 0 <= i < |jobs| =>
      jobs[i].(settled := jobs[i].id !in s.handlers, backs := Backs(s, jobs[i].id)))
  }

  function Confirm(s: State, jobs: seq<Job>, whole: bool): seq<Job> {
    seq(|jobs|, i requires 0 <= i < |jobs| =>
      jobs[i].(covered := jobs[i].settled && whole && Backs(s, jobs[i].id) == jobs[i].backs))
  }

  function Infos(queue: Queue, page: seq<QueueId>): seq<TaskInfo>
    requires forall q :: q in page ==> q in queue
  {
    seq(|page|, i requires 0 <= i < |page| => InfoOf(queue, page[i]))
  }

  predicate At(s: State, a: nat) {
    a in s.actors
  }

  predicate CancelEnabled(s: State, a: nat, c: CancelStep) {
    match c
    case CancelGet(_, _) => !At(s, a)
    case CancelDelete(_) => At(s, a) && s.actors[a].CancelGot?
    case CancelMark(_) => At(s, a) && s.actors[a].CancelDeleted?
  }

  function DoCancel(s: State, a: nat, c: CancelStep): State
    requires CancelEnabled(s, a, c)
  {
    match c
    case CancelGet(id, ok) =>
      if ok && id in s.views.cache && s.views.cache[id].queueId.Some?
      then Become(s, a, CancelGot(id, s.views.cache[id].queueId.value))
      else s
    case CancelDelete(ok) =>
      var CancelGot(id, q) := s.actors[a];
      if ok && CanDelete(s.queue, q) then Become(Remove(s, q), a, CancelDeleted(id)) else DropActor(s, a)
    case CancelMark(ok) =>
      DropActor(TryPut(s, ok, s.actors[a].id, Mark(Canceled)), a)
  }

  ghost predicate BulkEnabled(s: State, a: nat, b: BulkStep) {
    match b
    case BulkList(model, ids) => !At(s, a) && (ids == [] || IsListing(s.views.db, model, Pending, ids))
    case BulkGet(_) => At(s, a) && s.actors[a].Bulk? && s.actors[a].ids != []
    case BulkDelete(_) => At(s, a) && s.actors[a].BulkGot?
  }

  ghost function DoBulk(s: State, a: nat, b: BulkStep): State
    requires BulkEnabled(s, a, b)
  {
    match b
    case BulkList(_, ids) => Become(s, a, Bulk(ids))
    case BulkGet(ok) =>
      var ids := s.actors[a].ids;
      if ok && ids[0] in s.views.cache && s.views.cache[ids[0]].queueId.Some?
      then Become(s, a, BulkGot(s.views.cache[ids[0]].queueId.value, ids[1..]))
      else Become(s, a, Bulk(ids[1..]))
    case BulkDelete(ok) =>
      var BulkGot(q, ids) := s.actors[a];
      Become(TryDelete(s, ok, q), a, Bulk(ids))
  }

  ghost predicate SweepEnabled(s: State, a: nat, w: SweepStep) {
    match w
    case ListPending(model, ids) =>
      !At(s, a) && model != "" && (ids == [] || IsListing(s.views.db, model, Pending, ids))
    case ListRunning(ids) =>
      && At(s, a) && s.actors[a].SweepListed?
      && (ids == [] || IsListing(s.views.db, s.actors[a].model, Running, ids))
    case Wait => At(s, a) && s.actors[a].SweepWaiting?
    case Scan(ok, page) =>
      At(s, a) && s.actors[a].SweepScanning? && (ok ==> IsPage(s.queue, s.actors[a].list, s.limit, page))
    case Get(_) => At(s, a) && s.actors[a].SweepChecking? && s.actors[a].jobs != []
    case Fail(_) => At(s, a) && s.actors[a].SweepFailing?
    case Bury(_) => At(s, a) && s.actors[a].SweepBurying?
  }

  ghost function DoSweep(s: State, a: nat, w: SweepStep): State
    requires SweepEnabled(s, a, w)
  {
    match w
    case ListPending(model, ids) => Become(s, a, SweepListed(model, JobsOf(s, ids, Pending)))
    case ListRunning(ids) => Become(s, a, SweepWaiting(s.actors[a].jobs + JobsOf(s, ids, Running)))
    case Wait => Become(s, a, SweepScanning(Settle(s, s.actors[a].jobs), 0, {}, true))
    case Scan(ok, page) =>
      var SweepScanning(jobs, list, seen, whole) := s.actors[a];
      var seen' := if ok then seen + Elems(page) else seen;
      var whole' := whole && ok && Covers(s.queue, list, page);
      if list < 3 then Become(s, a, SweepScanning(jobs, list + 1, seen', whole'))
      else Become(s, a, SweepChecking(Confirm(s, jobs, whole'), seen'))
    case Get(ok) =>
      var SweepChecking(jobs, seen) := s.actors[a];
      var job := jobs[0];
      if !ok || job.id !in s.views.cache then Become(s, a, SweepBurying(job, jobs[1..], seen))
      else if Suspect(s.views.cache[job.id], seen, job.status) then
        Become(s, a, SweepFailing(job, job.covered && !Orphaned(s, job.id), jobs[1..], seen))
      else Become(s, a, SweepChecking(jobs[1..], seen))
    case Fail(ok) =>
      var SweepFailing(job, _, jobs, seen) := s.actors[a];
      Become(TryPut(s, ok, job.id, MarkFailed("Unknown failure")), a, SweepChecking(jobs, seen))
    case Bury(ok) =>
      var SweepBurying(job, jobs, seen) := s.actors[a];
      Become(if ok then s.(views := PutDb(s.views, job.id, MarkFailed("Unknown failure"))) else s,
             a, SweepChecking(jobs, seen))
  }

  ghost predicate ArchiveEnabled(s: State, a: nat, v: ArchiveStep) {
    match v
    case ArchiveList(page) => !At(s, a) && IsPage(s.queue, 4, s.limit, page)
    case ArchiveMark(_, _) => At(s, a) && s.actors[a].Archiving? && s.actors[a].items != []
    case ArchiveDelete(_) => At(s, a) && s.actors[a].ArchiveDeleting?
  }

  ghost function DoArchive(s: State, a: nat, v: ArchiveStep): State
    requires ArchiveEnabled(s, a, v)
  {
    match v
    case ArchiveList(page) => Become(s, a, Archiving(Infos(s.queue, page)))
    case ArchiveMark(ok, now) =>
      var items := s.actors[a].items;
      var item := items[0];
      if item.payload.None? then Become(s, a, Archiving(items[1..]))
      else if !(ok && Accepts(s.views, item.payload.value)) && now < item.failedAt + TWELVE_HOURS then
        Become(s, a, Archiving(items[1..]))
      else
        Become(TryPut(s, ok, item.payload.value, MarkFailed("failed due to system errors")),
               a, ArchiveDeleting(item, ok && Accepts(s.views, item.payload.value), now, items[1..]))
    case ArchiveDelete(ok) =>
      var ArchiveDeleting(item, _, _, items) := s.actors[a];
      Become(TryDelete(s, ok, item.q), a, Archiving(items))
  }

  ghost predicate ShutEnabled(s: State, a: nat, z: ShutStep) {
    match z
    case ShutStart => !At(s, a)
    case ShutScan(ok, page) =>
      At(s, a) && s.actors[a].ShutScanning? && (ok ==> IsPage(s.queue, s.actors[a].list, s.limit, page))
    case ShutMark(_) => At(s, a) && s.actors[a].ShutMarking? && s.actors[a].items != []
    case ShutDelete(_) => At(s, a) && s.actors[a].ShutDeleting?
  }

  ghost function DoShut(s: State, a: nat, z: ShutStep): State
    requires ShutEnabled(s, a, z)
  {
    match z
    case ShutStart => Become(s, a, ShutScanning(0, []))
    case ShutScan(ok, page) =>
      var ShutScanning(list, items) := s.actors[a];
      var items' := if ok then items + Infos(s.queue, page) else items;
      if list < 2 then Become(s, a, ShutScanning(list + 1, items')) else Become(s, a, ShutMarking(items'))
    case ShutMark(ok) =>
      var items := s.actors[a].items;
      var item := items[0];
      if item.payload.None? then Become(s, a, ShutMarking(items[1..]))
      else Become(TryPut(s, ok, item.payload.value, MarkFailed("the task queue was closed")),
                  a, ShutDeleting(item.q, items[1..]))
    case ShutDelete(ok) =>
      var ShutDeleting(q, items) := s.actors[a];
      Become(TryDelete(s, ok, q), a, ShutMarking(items))
  }

  ghost predicate ActorEnabled(s: State, a: nat, x: ActorStep) {
    match x
    case Cancel(c) => CancelEnabled(s, a, c)
    case BulkDeletion(b) => BulkEnabled(s, a, b)
    case Sweep(w) => SweepEnabled(s, a, w)
    case Archive(v) => ArchiveEnabled(s, a, v)
    case Shutdown(z) => ShutEnabled(s, a, z)
    case Crash => At(s, a)
  }

  ghost function DoActor(s: State, a: nat, x: ActorStep): State
    requires ActorEnabled(s, a, x)
  {
    match x
    case Cancel(c) => DoCancel(s, a, c)
    case BulkDeletion(b) => DoBulk(s, a, b)
    case Sweep(w) => DoSweep(s, a, w)
    case Archive(v) => DoArchive(s, a, v)
    case Shutdown(z) => DoShut(s, a, z)
    case Crash => DropActor(s, a)
  }

  // ---------- runs ----------

  ghost predicate Enabled(s: State, t: Step) {
    match t
    case OfHandler(id, h) => HandlerEnabled(s, id, h)
    case OfQueue(q, w) => QueueEnabled(s, q, w)
    case OfActor(a, x) => ActorEnabled(s, a, x)
    case Expiry(id) => id in s.views.cache
  }

  ghost function Do(s: State, t: Step): State
    requires Enabled(s, t)
  {
    match t
    case OfHandler(id, h) => DoHandler(s, id, h)
    case OfQueue(q, w) => DoQueue(s, q, w)
    case OfActor(a, x) => DoActor(s, a, x)
    case Expiry(id) => s.(views := Expire(s.views, id))
  }

  /** Every step of the sequence is enabled when its turn comes. */
  ghost predicate Legal(s: State, ts: seq<Step>)
    decreases |ts|
  {
    ts == [] || (Enabled(s, ts[0]) && Legal(Do(s, ts[0]), ts[1..]))
  }

  ghost function Run(s: State, ts: seq<Step>): State
    requires Legal(s, ts)
    decreases |ts|
  {
    if ts == [] then s else Run(Do(s, ts[0]), ts[1..])
  }

}
