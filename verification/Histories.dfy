/** What the steps of a run add to the histories of tasks. */
module Histories {

  import opened Wrappers
  import opened Records
  import opened Protocol
  import opened Invariant

  function EventsOf(s: State, id: TaskId): seq<Event> {
    if id < |s.hist| then s.hist[id].events else []
  }

  /** What a step on an entry adds to its task's history. */
  function EventsAdded(s: State, q: QueueId, w: QueueStep): seq<Event>
    requires QueueEnabled(s, q, w) && s.queue[q].payload.Some?
  {
    var accepted := Accepts(s.views, s.queue[q].payload.value);
    match w
    case Announce(ok, _) => [if ok && accepted then Wrote(Running) else Refused(Running)]
    case Call(p, _) => if p.Panic? then [Called, Panicked] else [Called]
    case Report(ok, _) =>
      var u := s.queue[q].place.pc.report;
      var status := if u.status.Some? then u.status.value else Failed;
      [if ok && accepted then Wrote(status) else Refused(status)]
    case WorkerCrash => [Died]
    case _ => []
  }

  /** How a step on an entry shows in its task's history and nowhere else. */
  ghost predicate HistoryGrows(s: State, t: State, id: TaskId, events: seq<Event>) {
    && (exists backs: nat :: t.hist == Note(s.hist, Some(id), events, backs))
    && t.handlers == s.handlers
  }

  lemma StepAddsEvents(s: State, q: QueueId, w: QueueStep)
    requires QueueEnabled(s, q, w) && s.queue[q].payload.Some? && !w.Return?
    ensures var t := DoQueue(s, q, w);
            && t.queue == s.queue[q := t.queue[q]] && t.queue[q].payload == s.queue[q].payload
            && HistoryGrows(s, t, s.queue[q].payload.value, EventsAdded(s, q, w))
  {
    var t, e := DoQueue(s, q, w), s.queue[q];
    var more := EventsAdded(s, q, w);
    assert t.hist == Note(s.hist, e.payload, more, 0) || t.hist == Note(s.hist, e.payload, more, 1);
  }

  lemma NotedEvents(s: State, t: State, id: TaskId, events: seq<Event>)
    requires HistoryGrows(s, t, id, events) && id < |s.hist|
    ensures EventsOf(t, id) == EventsOf(s, id) + events
    ensures forall i {:trigger EventsOf(t, i)} :: i != id ==> EventsOf(t, i) == EventsOf(s, i)
    ensures |t.hist| == |s.hist|
  {
  }

  /** What a step on an entry leaves in the state: one entry moved, one history grew. */
  ghost predicate StepNoted(s: State, t: State, q: QueueId, id: TaskId, more: seq<Event>) {
    && Carries(t, q, id) && t.queue == s.queue[q := t.queue[q]]
    && t.handlers == s.handlers && |t.hist| == |s.hist|
    && EventsOf(t, id) == EventsOf(s, id) + more
    && (forall i {:trigger EventsOf(t, i)} :: i != id ==> EventsOf(t, i) == EventsOf(s, i))
  }

  lemma StepNotes(s: State, q: QueueId, w: QueueStep, id: TaskId)
    requires Core(s) && Carries(s, q, id) && QueueEnabled(s, q, w) && !w.Return?
    ensures StepNoted(s, DoQueue(s, q, w), q, id, EventsAdded(s, q, w))
  {
    assert EntryOk(s, q) && TaskOk(s, id);
    StepAddsEvents(s, q, w);
    NotedEvents(s, DoQueue(s, q, w), id, EventsAdded(s, q, w));
  }

  /** Before its entry exists a task has no history. */
  ghost predicate Untold(s: State, id: TaskId) {
    && (id >= |s.hist| ==> id !in s.handlers)
    && (id in s.handlers && (s.handlers[id].Admitted? || s.handlers[id].Created?) ==> EventsOf(s, id) == [])
  }

  /** The task's own entry moves. */
  predicate OwnStep(s: State, t: Step, id: TaskId) {
    t.OfQueue? && !t.w.Return? && t.q in s.queue && s.queue[t.q].payload == Some(id)
  }

  /** Nothing of the task moves, except that its entry may come or go. */
  ghost predicate Unmoved(s: State, t: State, id: TaskId) {
    && EventsOf(t, id) == EventsOf(s, id)
    && (forall q :: Carries(t, q, id) ==>
          (Carries(s, q, id) && t.queue[q] == s.queue[q])
          || (t.queue[q].place.InPending? && t.queue[q].retried == 0 && EventsOf(s, id) == []))
  }

  lemma HandlerAddsNothing(s: State, i: TaskId, h: HandlerStep)
    requires HandlerEnabled(s, i, h) && h != Enqueue(true)
    ensures var t := DoHandler(s, i, h);
            && |t.hist| >= |s.hist| && (forall id {:trigger EventsOf(t, id)} :: EventsOf(t, id) == EventsOf(s, id))
            && (forall q :: q in t.queue ==> q in s.queue && t.queue[q] == s.queue[q])
            && (forall id :: id in t.handlers ==>
                  (id in s.handlers && (t.handlers[id].Admitted? || t.handlers[id].Created? ==>
                                          s.handlers[id].Admitted? || s.handlers[id].Created?))
                  || (id == |s.hist| && |t.hist| > |s.hist|))
  {
  }

  /** Only an accepted enqueue call adds an entry, for a task that has no history yet. */
  lemma EnqueueElsewhere(s: State, i: TaskId, id: TaskId)
    requires Core(s) && Untold(s, id) && HandlerEnabled(s, i, Enqueue(true))
    ensures var t := DoHandler(s, i, Enqueue(true)); Unmoved(s, t, id) && Untold(t, id)
  {
    var t := DoHandler(s, i, Enqueue(true));
    forall q | Carries(t, q, id) && q != s.nextQueue ensures Carries(s, q, id) && t.queue[q] == s.queue[q] {
    }
  }

  lemma HandlerElsewhere(s: State, i: TaskId, h: HandlerStep, id: TaskId)
    requires Core(s) && Untold(s, id) && HandlerEnabled(s, i, h)
    ensures var t := DoHandler(s, i, h); Unmoved(s, t, id) && Untold(t, id)
  {
    if h == Enqueue(true) {
      EnqueueElsewhere(s, i, id);
    } else {
      HandlerAddsNothing(s, i, h);
    }
  }

  lemma QueueElsewhere(s: State, q: QueueId, w: QueueStep, id: TaskId)
    requires Core(s) && Untold(s, id) && QueueEnabled(s, q, w) && !OwnStep(s, OfQueue(q, w), id)
    ensures var t := DoQueue(s, q, w); Unmoved(s, t, id) && Untold(t, id)
  {
    if !w.Return? {
      assert EntryOk(s, q);
      StepNotes(s, q, w, s.queue[q].payload.value);
    }
  }

  /** A step that is not one of the task's own entry leaves the task alone. */
  lemma StepElsewhere(s: State, t: Step, id: TaskId)
    requires Core(s) && Untold(s, id) && Enabled(s, t) && !OwnStep(s, t, id)
    ensures Unmoved(s, Do(s, t), id) && Untold(Do(s, t), id)
  {
    match t {
      case OfHandler(i, h) => HandlerElsewhere(s, i, h, id);
      case OfQueue(q, w) => QueueElsewhere(s, q, w, id);
      case OfActor(a, x) => ActorMeddles(s, a, x);
      case Expiry(_) =>
    }
  }

  /** The task's own entry moves and its history grows; no other entry carries the task. */
  lemma OwnStepNotes(s: State, q: QueueId, w: QueueStep, id: TaskId)
    requires Core(s) && Untold(s, id) && Carries(s, q, id) && QueueEnabled(s, q, w) && !w.Return?
    ensures var t := DoQueue(s, q, w);
            && EventsOf(t, id) == EventsOf(s, id) + EventsAdded(s, q, w)
            && (forall p :: Carries(t, p, id) ==> p == q)
            && Carries(t, q, id) && Untold(t, id)
  {
    StepNotes(s, q, w, id);
    assert EntryOk(s, q);
  }

}
