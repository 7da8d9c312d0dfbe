/** Once a cancel has deleted the entry of a task, nothing ever works on that task again. */
module CancelIsFinal {

  import opened Records
  import opened Queues
  import opened Protocol
  import opened Invariant
  import opened Evolution
  import opened Reachable

  /** Nothing a worker does befalls the task, and its status changes at most to failed or canceled. */
  ghost predicate Untouched(s: State, t: State, id: TaskId) {
    && id < |s.hist| && id < |t.hist| && t.hist[id].events == s.hist[id].events
    && id in s.views.db && id in t.views.db
    && (t.views.db[id].status == s.views.db[id].status
        || t.views.db[id].status == Failed || t.views.db[id].status == Canceled)
    && (id in t.views.cache ==>
          && id in s.views.cache
          && (t.views.cache[id].status == s.views.cache[id].status
              || t.views.cache[id].status == Failed || t.views.cache[id].status == Canceled))
  }

  /** The task's own handler can only roll back, link or withdraw. */
  lemma QuietOwnStep(s: State, h: HandlerStep, id: TaskId)
    requires Core(s) && HandlerEnabled(s, id, h) && Quiet(s, id)
    ensures Untouched(s, DoHandler(s, id, h), id)
  {
    assert TaskOk(s, id);
    assert h.RollBack? || h.Link? || h.Unlink? || h.HandlerCrash?;
  }

  /** The record is the same in both views. */
  ghost predicate SameRecord(v: Views, w: Views, id: TaskId) {
    && (id in w.db <==> id in v.db) && (id in v.db ==> w.db[id] == v.db[id])
    && (id in w.cache <==> id in v.cache) && (id in v.cache ==> w.cache[id] == v.cache[id])
  }

  lemma PutElsewhere(s: State, ok: bool, i: TaskId, u: Update, id: TaskId)
    requires i != id
    ensures SameRecord(s.views, TryPut(s, ok, i, u).views, id)
  {
  }

  lemma OtherHandlerWrites(s: State, i: TaskId, h: HandlerStep, id: TaskId)
    requires HandlerEnabled(s, i, h) && i != id
    ensures SameRecord(s.views, DoHandler(s, i, h).views, id)
  {
    match h {
      case RollBack(ok) => PutElsewhere(s, ok, i, MarkFailed("task queue failed"), id);
      case Link(ok) => PutElsewhere(s, ok, i, LinkTo(s.handlers[i].q), id);
      case SyncWrite(ok) => PutElsewhere(s, ok, i, s.handlers[i].report, id);
      case CreateTask(_, _, _) =>
      case SyncCreate(_, _) =>
      case _ => assert DoHandler(s, i, h).views == s.views;
    }
  }

  lemma OtherHandlerTells(s: State, i: TaskId, h: HandlerStep, id: TaskId)
    requires HandlerEnabled(s, i, h) && id < |s.hist|
    ensures var t := DoHandler(s, i, h); id < |t.hist| && t.hist[id] == s.hist[id]
  {
  }

  lemma QuietHandlerStep(s: State, i: TaskId, h: HandlerStep, id: TaskId)
    requires Core(s) && HandlerEnabled(s, i, h) && Quiet(s, id)
    ensures Untouched(s, DoHandler(s, i, h), id)
  {
    assert TaskOk(s, id);
    if i == id {
      QuietOwnStep(s, h, id);
    } else {
      OtherHandlerWrites(s, i, h, id);
      OtherHandlerTells(s, i, h, id);
    }
  }

  lemma OtherWorkerWrites(s: State, q: QueueId, w: QueueStep, id: TaskId)
    requires QueueEnabled(s, q, w) && s.queue[q].payload.Some? && s.queue[q].payload.value != id
    ensures SameRecord(s.views, DoQueue(s, q, w).views, id)
  {
    var i := s.queue[q].payload.value;
    match w {
      case Announce(ok, _) => PutElsewhere(s, ok, i, Mark(Running), id);
      case Report(ok, _) => PutElsewhere(s, ok, i, s.queue[q].place.pc.report, id);
      case _ => assert DoQueue(s, q, w).views == s.views;
    }
  }

  lemma OtherWorkerTells(s: State, q: QueueId, w: QueueStep, id: TaskId)
    requires QueueEnabled(s, q, w) && s.queue[q].payload.Some? && s.queue[q].payload.value != id && id < |s.hist|
    ensures var t := DoQueue(s, q, w); id < |t.hist| && t.hist[id] == s.hist[id]
  {
  }

  /** An archived entry does not move. */
  lemma QuietQueueStep(s: State, q: QueueId, w: QueueStep, id: TaskId)
    requires Core(s) && QueueEnabled(s, q, w) && Quiet(s, id)
    ensures Untouched(s, DoQueue(s, q, w), id)
  {
    assert TaskOk(s, id);
    assert EntryOk(s, q);
    assert !Carries(s, q, id);
    OtherWorkerWrites(s, q, w, id);
    OtherWorkerTells(s, q, w, id);
  }

  lemma QuietStep(s: State, t: Step, id: TaskId)
    requires Inv(s) && Enabled(s, t) && Quiet(s, id)
    ensures Untouched(s, Do(s, t), id)
  {
    assert TaskOk(s, id);
    match t {
      case OfHandler(i, h) => QuietHandlerStep(s, i, h, id);
      case OfQueue(q, w) => QuietQueueStep(s, q, w, id);
      case OfActor(a, x) => ActorMeddles(s, a, x);
      case Expiry(i) => ExpiryMeddles(s, i);
    }
  }

  lemma {:induction false} QuietForever(s: State, us: seq<Step>, id: TaskId)
    requires Inv(s) && Legal(s, us) && Quiet(s, id)
    ensures Untouched(s, Run(s, us), id)
    decreases |us|
  {
    if us == [] {
      assert TaskOk(s, id);
    } else {
      QuietStep(s, us[0], id);
      StepKeepsInv(s, us[0]);
      StepEvolves(s, us[0]);
      QuietStays(s, Do(s, us[0]), id);
      QuietForever(Do(s, us[0]), us[1..], id);
    }
  }

  /**
   After the deletion succeeded, and however the write of `canceled` ends: in every continuation
   the task is not predicted again, no worker writes to its record, and its status is the one it
   had, failed or canceled.
   */
  lemma SuccessfulDeleteIsFinal(limit: nat, ts: seq<Step>, a: nat, us: seq<Step>)
    requires Legal(Init(limit), ts)
    requires var s := Run(Init(limit), ts);
             && CancelEnabled(s, a, CancelDelete(true))
             && CanDelete(s.queue, s.actors[a].q)
             && Legal(DoCancel(s, a, CancelDelete(true)), us)
    ensures var s := Run(Init(limit), ts);
            Untouched(s, Run(DoCancel(s, a, CancelDelete(true)), us), s.actors[a].id)
  {
    RunKeepsInv(Init(limit), ts);
    var s := Run(Init(limit), ts);
    var c := OfActor(a, Cancel(CancelDelete(true)));
    var id := s.actors[a].id;
    assert ActorOk(s, s.actors[a]);
    StepKeepsInv(s, c);
    var t := Do(s, c);
    assert ActorOk(t, t.actors[a]);
    QuietForever(t, us, id);
  }

}
