/** The calls that a run of the protocol makes: each step is one call to one service, or none. */
module Tracing {

  import opened Wrappers
  import opened Records
  import opened Queues
  import opened Journals
  import opened Protocol
  import opened Reachable

  function HandlerLog(log: Log, s: State, id: TaskId, h: HandlerStep): Log
    requires HandlerEnabled(s, id, h)
  {
    match h
    case Admit(infoOk) => Then(log, AskSize(infoOk))
    case CreateTask(ok, _, model) => Then(log, MakeRecord(id, NewRecord(model, Pending), ok))
    case Enqueue(ok) => Then(log, AddEntry(id, if ok then Some(s.nextQueue) else None))
    case RollBack(ok) =>
      Then(log, WriteRecord(id, MarkFailed("task queue failed"), ok && Accepts(s.views, id)))
    case Link(ok) => Then(log, WriteRecord(id, LinkTo(s.handlers[id].q), ok && Accepts(s.views, id)))
    case Unlink(ok) => Then(log, DropEntry(s.handlers[id].q, ok && CanDelete(s.queue, s.handlers[id].q)))
    case SyncCreate(ok, model) => Then(log, MakeRecord(id, NewRecord(model, Running), ok))
    case SyncPredict(_) => Then(log, RunPrediction(id))
    case SyncWrite(ok) => Then(log, WriteRecord(id, s.handlers[id].report, ok && Accepts(s.views, id)))
    case HandlerCrash => log
  }

  /** A worker's calls; an entry whose payload does not parse causes none, and moves inside the queue are none. */
  function QueueLog(log: Log, s: State, q: QueueId, w: QueueStep): Log
    requires QueueEnabled(s, q, w)
  {
    var e := s.queue[q];
    match w
    case Announce(ok, _) =>
      if e.payload.None? then log
      else Then(log, WriteRecord(e.payload.value, Mark(Running), ok && Accepts(s.views, e.payload.value)))
    case Call(_, _) => Then(log, RunPrediction(e.payload.value))
    case Report(ok, _) =>
      Then(log, WriteRecord(e.payload.value, e.place.pc.report, ok && Accepts(s.views, e.payload.value)))
    case _ => log
  }

  function CancelStepLog(log: Log, s: State, a: nat, c: CancelStep): Log
    requires CancelEnabled(s, a, c)
  {
    match c
    case CancelGet(id, ok) => Then(log, ReadRecord(id, ok && id in s.views.cache))
    case CancelDelete(ok) => Then(log, DropEntry(s.actors[a].q, ok && CanDelete(s.queue, s.actors[a].q)))
    case CancelMark(ok) =>
      Then(log, WriteRecord(s.actors[a].id, Mark(Canceled), ok && Accepts(s.views, s.actors[a].id)))
  }

  ghost function BulkStepLog(log: Log, s: State, a: nat, b: BulkStep): Log
    requires BulkEnabled(s, a, b)
  {
    match b
    case BulkList(model, ids) => Then(log, ListRecords(model, Pending, ids))
    case BulkGet(ok) => Then(log, ReadRecord(s.actors[a].ids[0], ok && s.actors[a].ids[0] in s.views.cache))
    case BulkDelete(ok) => Then(log, DropEntry(s.actors[a].q, ok && CanDelete(s.queue, s.actors[a].q)))
  }

  /** The wait is left out when nothing was listed. */
  ghost function SweepStepLog(log: Log, s: State, a: nat, w: SweepStep): Log
    requires SweepEnabled(s, a, w)
  {
    match w
    case ListPending(model, ids) => Then(log, ListRecords(model, Pending, ids))
    case ListRunning(ids) => Then(log, ListRecords(s.actors[a].model, Running, ids))
    case Wait => if s.actors[a].jobs == [] then log else Then(log, Pause)
    case Scan(ok, page) => Then(log, ListEntries(s.actors[a].list, ok, if ok then page else []))
    case Get(ok) => Then(log, ReadRecord(s.actors[a].jobs[0].id, ok && s.actors[a].jobs[0].id in s.views.cache))
    case Fail(ok) =>
      var id := s.actors[a].job.id;
      Then(log, WriteRecord(id, MarkFailed("Unknown failure"), ok && Accepts(s.views, id)))
    case Bury(ok) => Then(log, WriteDatabase(s.actors[a].job.id, MarkFailed("Unknown failure"), ok))
  }

  ghost function ArchiveStepLog(log: Log, s: State, a: nat, v: ArchiveStep): Log
    requires ArchiveEnabled(s, a, v)
  {
    match v
    case ArchiveList(page) => Then(log, ListEntries(4, true, page))
    case ArchiveMark(ok, _) =>
      var item := s.actors[a].items[0];
      if item.payload.None? then log
      else
        var id := item.payload.value;
        Then(log, WriteRecord(id, MarkFailed("failed due to system errors"), ok && Accepts(s.views, id)))
    case ArchiveDelete(ok) =>
      var q := s.actors[a].item.q;
      Then(log, DropEntry(q, ok && CanDelete(s.queue, q)))
  }

  ghost function ShutStepLog(log: Log, s: State, a: nat, z: ShutStep): Log
    requires ShutEnabled(s, a, z)
  {
    match z
    case ShutStart => log
    case ShutScan(ok, page) => Then(log, ListEntries(s.actors[a].list, ok, if ok then page else []))
    case ShutMark(ok) =>
      var item := s.actors[a].items[0];
      if item.payload.None? then log
      else
        var id := item.payload.value;
        Then(log, WriteRecord(id, MarkFailed("the task queue was closed"), ok && Accepts(s.views, id)))
    case ShutDelete(ok) => Then(log, DropEntry(s.actors[a].q, ok && CanDelete(s.queue, s.actors[a].q)))
  }

  ghost function ActorLog(log: Log, s: State, a: nat, x: ActorStep): Log
    requires ActorEnabled(s, a, x)
  {
    match x
    case Cancel(c) => CancelStepLog(log, s, a, c)
    case BulkDeletion(b) => BulkStepLog(log, s, a, b)
    case Sweep(w) => SweepStepLog(log, s, a, w)
    case Archive(v) => ArchiveStepLog(log, s, a, v)
    case Shutdown(z) => ShutStepLog(log, s, a, z)
    case Crash => log
  }

  ghost function StepLog(log: Log, s: State, t: Step): Log
    requires Enabled(s, t)
  {
    match t
    case OfHandler(id, h) => HandlerLog(log, s, id, h)
    case OfQueue(q, w) => QueueLog(log, s, q, w)
    case OfActor(a, x) => ActorLog(log, s, a, x)
    case Expiry(_) => log
  }

  /** The calls of a whole run, in order. */
  ghost function Trace(log: Log, s: State, ts: seq<Step>): Log
    requires Legal(s, ts)
    decreases |ts|
  {
    if ts == [] then log else Trace(StepLog(log, s, ts[0]), Do(s, ts[0]), ts[1..])
  }

  lemma {:induction false} TraceSplit(log: Log, s: State, ts: seq<Step>, us: seq<Step>)
    requires Legal(s, ts) && Legal(Run(s, ts), us)
    ensures Legal(s, ts + us) && Trace(log, s, ts + us) == Trace(Trace(log, s, ts), Run(s, ts), us)
    decreases |ts|
  {
    RunSplit(s, ts, us);
    if ts == [] {
      assert ts + us == us;
    } else {
      assert (ts + us)[1..] == ts[1..] + us && (ts + us)[0] == ts[0];
      TraceSplit(StepLog(log, s, ts[0]), Do(s, ts[0]), ts[1..], us);
    }
  }

  lemma TraceOf1(log: Log, s: State, t: Step)
    requires Enabled(s, t)
    ensures Legal(s, [t]) && Trace(log, s, [t]) == StepLog(log, s, t)
  {
    RunOf1(s, t);
    assert [t][1..] == [];
  }

}
