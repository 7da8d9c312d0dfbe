/**
 The queue size is read long before the task is enqueued, and workers hand tasks back without
 asking.  How far the queue can outgrow its limit, and that it can grow that far.
 */
module Admission {

  import opened Wrappers
  import opened Records
  import opened Queues
  import opened Protocol
  import opened Invariant
  import opened Evolution
  import opened Reachable

  /** The submissions between the size check and the enqueue call. */
  function Window(s: State): set<TaskId> {
    set id | id in s.handlers && (s.handlers[id].Admitted? || s.handlers[id].Created?)
  }

  function Load(s: State): nat {
    |WaitingSet(s.queue)| + |ActiveSet(s.queue)| + |Window(s)|
  }

  /** At most `workers` active entries, at most `window` submissions under way. */
  predicate Within(s: State, workers: nat, window: nat) {
    |ActiveSet(s.queue)| <= workers && |Window(s)| <= window
  }

  /** The size query errs only while there is no queue yet. */
  predicate HonestSize(s: State, t: Step) {
    t.OfHandler? && t.h == Admit(false) ==> WaitingSet(s.queue) == {}
  }

  ghost predicate Governed(s: State, ts: seq<Step>, workers: nat, window: nat)
    requires Legal(s, ts)
    decreases |ts|
  {
    && Within(s, workers, window)
    && (ts != [] ==> HonestSize(s, ts[0]) && Governed(Do(s, ts[0]), ts[1..], workers, window))
  }

  // ---------- the bound ----------

  lemma LiveCount(queue: Queue)
    ensures |LiveSet(queue)| == |WaitingSet(queue)| + |ActiveSet(queue)|
  {
    assert LiveSet(queue) == WaitingSet(queue) + ActiveSet(queue);
    assert WaitingSet(queue) !! ActiveSet(queue);
  }

  lemma EnqueueCount(s: State, id: TaskId)
    requires Core(s) && HandlerEnabled(s, id, Enqueue(true))
    ensures var t := DoHandler(s, id, Enqueue(true));
            && LiveSet(t.queue) == LiveSet(s.queue) + {s.nextQueue}
            && WaitingSet(t.queue) == WaitingSet(s.queue) + {s.nextQueue}
            && ActiveSet(t.queue) == ActiveSet(s.queue)
            && s.nextQueue !in s.queue
            && Window(t) == Window(s) - {id} && id in Window(s)
  {
    assert s.nextQueue in s.queue ==> EntryOk(s, s.nextQueue);
  }

  lemma HandlerWindow(s: State, id: TaskId, h: HandlerStep)
    requires HandlerEnabled(s, id, h) && !h.Admit?
    ensures Window(DoHandler(s, id, h)) <= Window(s)
  {
    OtherHandlersStay(s, id, h);
  }

  lemma WindowShrinks(s: State, t: Step)
    requires Enabled(s, t) && !(t.OfHandler? && t.h.Admit?)
    ensures Window(Do(s, t)) <= Window(s)
  {
    match t {
      case OfHandler(id, h) => HandlerWindow(s, id, h);
      case OfQueue(q, w) => OtherEntriesStay(s, q, w);
      case OfActor(a, x) => ActorMeddles(s, a, x);
      case Expiry(_) =>
    }
  }

  lemma NoNewEntries(s: State, t: Step)
    requires Enabled(s, t) && !(t.OfHandler? && t.h == Enqueue(true))
    ensures forall q :: q in Do(s, t).queue ==> q in s.queue
  {
    match t {
      case OfHandler(id, h) =>
      case OfQueue(q, w) =>
      case OfActor(a, x) => ActorMeddles(s, a, x);
      case Expiry(_) =>
    }
  }

  lemma LiveShrinks(s: State, t: Step)
    requires Core(s) && Enabled(s, t) && !(t.OfHandler? && t.h == Enqueue(true))
    ensures LiveSet(Do(s, t).queue) <= LiveSet(s.queue)
  {
    var s' := Do(s, t);
    NoNewEntries(s, t);
    assert QueueEvolves(s, s') by {
      StepEvolves(s, t);
    }
    forall q | q in LiveSet(s'.queue) ensures q in LiveSet(s.queue) {
      assert Descends(s, s', q);
    }
  }

  lemma LoadStep(s: State, t: Step, workers: nat, window: nat)
    requires Core(s) && Enabled(s, t) && s.limit > 0
    requires Within(Do(s, t), workers, window) && HonestSize(s, t)
    requires Load(s) <= s.limit - 1 + workers + window
    ensures Load(Do(s, t)) <= s.limit - 1 + workers + window
  {
    var s' := Do(s, t);
    LiveCount(s.queue);
    LiveCount(s'.queue);
    if t.OfHandler? && t.h == Enqueue(true) {
      EnqueueCount(s, t.id);
    } else {
      LiveShrinks(s, t);
      SubsetSize(LiveSet(s'.queue), LiveSet(s.queue));
      if t.OfHandler? && t.h.Admit? {
        if s' != s {
          assert WaitingSet(s'.queue) == WaitingSet(s.queue);
        }
      } else {
        WindowShrinks(s, t);
        SubsetSize(Window(s'), Window(s));
      }
    }
  }

  lemma {:induction false} LoadAlong(s: State, ts: seq<Step>, workers: nat, window: nat)
    requires Core(s) && s.limit > 0 && Legal(s, ts) && Governed(s, ts, workers, window)
    requires Load(s) <= s.limit - 1 + workers + window
    ensures Load(Run(s, ts)) <= s.limit - 1 + workers + window
    decreases |ts|
  {
    if ts != [] {
      StepKeepsCore(s, ts[0]);
      LimitStays(s, ts[0]);
      LoadStep(s, ts[0], workers, window);
      LoadAlong(Do(s, ts[0]), ts[1..], workers, window);
    }
  }

  /** Waiting, active and half-submitted tasks together never exceed limit - 1 + workers + window. */
  lemma QueueStaysBounded(limit: nat, ts: seq<Step>, workers: nat, window: nat)
    requires limit > 0 && Legal(Init(limit), ts) && Governed(Init(limit), ts, workers, window)
    ensures Load(Run(Init(limit), ts)) <= limit - 1 + workers + window
  {
    LoadAlong(Init(limit), ts, workers, window);
  }

  // ---------- the bound is attained ----------

  /** So many waiting tasks, fresh workers and submissions that just passed the check. */
  ghost predicate Counts(s: State, waiting: nat, active: nat, admitted: nat) {
    && |WaitingSet(s.queue)| == waiting
    && |ActiveSet(s.queue)| == active
    && |Window(s)| == admitted
    && (forall q :: q in ActiveSet(s.queue) ==> s.queue[q].place == InActive(Fetched) && s.queue[q].retried == 0)
    && (forall id :: id in Window(s) ==> s.handlers[id].Admitted?)
  }

  ghost predicate Shape(s: State, limit: nat, waiting: nat, active: nat, admitted: nat) {
    Core(s) && s.limit == limit && Counts(s, waiting, active, admitted)
  }

  lemma AdmitCounts(s: State, waiting: nat, active: nat, admitted: nat)
    requires Counts(s, waiting, active, admitted) && waiting < s.limit && |s.hist| !in s.handlers
    ensures Counts(DoHandler(s, |s.hist|, Admit(true)), waiting, active, admitted + 1)
    ensures |s.hist| in Window(DoHandler(s, |s.hist|, Admit(true)))
  {
    AdmitAdds(s);
  }

  lemma AdmitAdds(s: State)
    requires |WaitingSet(s.queue)| < s.limit && |s.hist| !in s.handlers
    ensures var s' := DoHandler(s, |s.hist|, Admit(true));
            && s'.queue == s.queue && s'.handlers == s.handlers[|s.hist| := Admitted]
            && Window(s') == Window(s) + {|s.hist|} && |s.hist| !in Window(s)
  {
  }

  lemma AdmitOne(s: State, limit: nat, waiting: nat, active: nat, admitted: nat)
    requires Shape(s, limit, waiting, active, admitted) && waiting < limit
    ensures var t := OfHandler(|s.hist|, Admit(true));
            && Enabled(s, t) && Shape(Do(s, t), limit, waiting, active, admitted + 1)
            && |s.hist| in Window(Do(s, t))
  {
    AdmitKeepsCore(s, |s.hist|, true);
    HandlersAreKnown(s);
    AdmitCounts(s, waiting, active, admitted);
  }

  lemma LandCounts(s: State, waiting: nat, active: nat, admitted: nat, id: TaskId)
    requires Counts(s, waiting, active, admitted) && id in Window(s) && s.nextQueue !in s.queue
    ensures var s1 := DoHandler(s, id, CreateTask(true, true, "m"));
            && ActiveSet(s1.queue) == ActiveSet(s.queue) && Window(s1) == Window(s)
            && Counts(DoHandler(s1, id, Enqueue(true)), waiting + 1, active, admitted - 1)
  {
    var s1 := DoHandler(s, id, CreateTask(true, true, "m"));
    assert Window(s1) == Window(s);
    EnqueueCounts(s1, waiting, active, admitted, id);
  }

  lemma EnqueueCounts(s: State, waiting: nat, active: nat, admitted: nat, id: TaskId)
    requires HandlerAt(s, id, Created) && s.nextQueue !in s.queue
    requires |WaitingSet(s.queue)| == waiting && |ActiveSet(s.queue)| == active && |Window(s)| == admitted
    requires forall q :: q in ActiveSet(s.queue) ==> s.queue[q].place == InActive(Fetched) && s.queue[q].retried == 0
    requires forall i :: i in Window(s) && i != id ==> s.handlers[i].Admitted?
    ensures admitted > 0 && Counts(DoHandler(s, id, Enqueue(true)), waiting + 1, active, admitted - 1)
  {
    var t := DoHandler(s, id, Enqueue(true));
    assert id in Window(s) && Window(t) == Window(s) - {id};
    assert WaitingSet(t.queue) == WaitingSet(s.queue) + {s.nextQueue};
    assert ActiveSet(t.queue) == ActiveSet(s.queue);
  }

  /** A submission that passed the check creates its record and enqueues. */
  lemma LandOne(s: State, limit: nat, waiting: nat, active: nat, admitted: nat, id: TaskId)
    requires Shape(s, limit, waiting, active, admitted) && id in Window(s)
    ensures var t := OfHandler(id, CreateTask(true, true, "m"));
            var u := OfHandler(id, Enqueue(true));
            && Enabled(s, t) && Enabled(Do(s, t), u)
            && ActiveSet(Do(s, t).queue) == ActiveSet(s.queue) && Window(Do(s, t)) == Window(s)
            && Shape(Do(Do(s, t), u), limit, waiting + 1, active, admitted - 1)
            && Do(Do(s, t), u).queue == s.queue[s.nextQueue := Entry(Some(id), InPending, 0, 0)]
  {
    var t := CreateTask(true, true, "m");
    assert s.nextQueue in s.queue ==> EntryOk(s, s.nextQueue);
    LandCounts(s, waiting, active, admitted, id);
    NewRecordKeepsCore(s, id, t);
    EnqueueKeepsCore(DoHandler(s, id, t), id);
  }

  lemma PopCounts(s: State, waiting: nat, active: nat, q: QueueId)
    requires Counts(s, waiting, active, 0) && q in s.queue
    requires s.queue[q].place.InPending? && s.queue[q].retried == 0
    ensures waiting > 0 && Counts(DoQueue(s, q, Pop), waiting - 1, active + 1, 0)
  {
    var s' := DoQueue(s, q, Pop);
    assert q in WaitingSet(s.queue);
    assert WaitingSet(s'.queue) == WaitingSet(s.queue) - {q};
    assert ActiveSet(s'.queue) == ActiveSet(s.queue) + {q};
    assert Window(s') == Window(s);
  }

  lemma PopOne(s: State, limit: nat, waiting: nat, active: nat, q: QueueId)
    requires Shape(s, limit, waiting, active, 0) && q in s.queue
    requires s.queue[q].place.InPending? && s.queue[q].retried == 0
    ensures var t := OfQueue(q, Pop);
            Enabled(s, t) && waiting > 0 && Shape(Do(s, t), limit, waiting - 1, active + 1, 0)
  {
    QueueKeepsCore(s, q, Pop);
    PopCounts(s, waiting, active, q);
  }

  lemma HandBackCounts(s: State, waiting: nat, active: nat, q: QueueId)
    requires Counts(s, waiting, active, 0) && q in ActiveSet(s.queue) && s.queue[q].payload.Some?
    ensures active > 0 && Counts(DoQueue(s, q, Announce(false, 0)), waiting + 1, active - 1, 0)
  {
    var s' := DoQueue(s, q, Announce(false, 0));
    assert WaitingSet(s'.queue) == WaitingSet(s.queue) + {q};
    assert ActiveSet(s'.queue) == ActiveSet(s.queue) - {q};
    assert Window(s') == Window(s);
  }

  /** A worker whose `running` write fails hands its task back to the waiting lists. */
  lemma HandBackOne(s: State, limit: nat, waiting: nat, active: nat, q: QueueId)
    requires Shape(s, limit, waiting, active, 0) && q in ActiveSet(s.queue)
    ensures var t := OfQueue(q, Announce(false, 0));
            Enabled(s, t) && active > 0 && Shape(Do(s, t), limit, waiting + 1, active - 1, 0)
  {
    assert EntryOk(s, q);
    QueueKeepsCore(s, q, Announce(false, 0));
    HandBackCounts(s, waiting, active, q);
  }

  /** Some governed run leads from `s` to a state with so many waiting tasks and nothing else under way. */
  ghost predicate Leads(s: State, workers: nat, window: nat, waiting: nat) {
    exists ts :: Legal(s, ts) && Governed(s, ts, workers, window) && Shape(Run(s, ts), s.limit, waiting, 0, 0)
  }

  /** Wherever a governed run can lead from `t`, one can lead from `s`. */
  ghost predicate Through(s: State, t: State, workers: nat, window: nat) {
    && t.limit == s.limit
    && (forall waiting: nat :: Leads(t, workers, window, waiting) ==> Leads(s, workers, window, waiting))
  }

  lemma StepThrough(s: State, t: Step, workers: nat, window: nat)
    requires Enabled(s, t) && HonestSize(s, t) && Within(s, workers, window) && Do(s, t).limit == s.limit
    ensures Through(s, Do(s, t), workers, window)
  {
    forall waiting: nat | Leads(Do(s, t), workers, window, waiting) ensures Leads(s, workers, window, waiting) {
      var ts :| Legal(Do(s, t), ts) && Governed(Do(s, t), ts, workers, window)
                && Shape(Run(Do(s, t), ts), s.limit, waiting, 0, 0);
      assert ([t] + ts)[0] == t && ([t] + ts)[1..] == ts;
      assert Legal(s, [t] + ts) && Governed(s, [t] + ts, workers, window);
    }
  }

  lemma HandBackThrough(s: State, workers: nat, window: nat, waiting: nat, active: nat) returns (t: State)
    requires Shape(s, s.limit, waiting, active, 0) && 0 < active <= workers
    ensures Through(s, t, workers, window) && Shape(t, s.limit, waiting + 1, active - 1, 0)
  {
    var q :| q in ActiveSet(s.queue);
    var step := OfQueue(q, Announce(false, 0));
    HandBackOne(s, s.limit, waiting, active, q);
    StepThrough(s, step, workers, window);
    t := Do(s, step);
  }

  lemma LandThrough(s: State, workers: nat, window: nat, waiting: nat, active: nat, admitted: nat, id: TaskId)
    returns (t: State, q: QueueId)
    requires Shape(s, s.limit, waiting, active, admitted) && active <= workers && admitted <= window && id in Window(s)
    ensures Through(s, t, workers, window) && admitted > 0 && Shape(t, s.limit, waiting + 1, active, admitted - 1)
    ensures q in t.queue && t.queue[q].place.InPending? && t.queue[q].retried == 0
  {
    var c, e := OfHandler(id, CreateTask(true, true, "m")), OfHandler(id, Enqueue(true));
    LandOne(s, s.limit, waiting, active, admitted, id);
    StepThrough(s, c, workers, window);
    StepThrough(Do(s, c), e, workers, window);
    q, t := s.nextQueue, Do(Do(s, c), e);
  }

  lemma AdmitThrough(s: State, workers: nat, window: nat, waiting: nat, active: nat, admitted: nat) returns (t: State)
    requires Shape(s, s.limit, waiting, active, admitted) && waiting < s.limit && active <= workers && admitted < window
    ensures Through(s, t, workers, window) && Shape(t, s.limit, waiting, active, admitted + 1)
    ensures |s.hist| in Window(t)
  {
    var step := OfHandler(|s.hist|, Admit(true));
    AdmitOne(s, s.limit, waiting, active, admitted);
    StepThrough(s, step, workers, window);
    t := Do(s, step);
  }

  /** One submission from the check to the queue. */
  lemma SubmitThrough(s: State, workers: nat, window: nat, waiting: nat, active: nat) returns (t: State, q: QueueId)
    requires Shape(s, s.limit, waiting, active, 0) && waiting < s.limit && active <= workers && window > 0
    ensures Through(s, t, workers, window) && Shape(t, s.limit, waiting + 1, active, 0)
    ensures q in t.queue && t.queue[q].place.InPending? && t.queue[q].retried == 0
  {
    var s1 := AdmitThrough(s, workers, window, waiting, active, 0);
    t, q := LandThrough(s1, workers, window, waiting, active, 1, |s.hist|);
  }

  /** A submission that a worker takes at once. */
  lemma OccupyThrough(s: State, workers: nat, window: nat, active: nat) returns (t: State)
    requires s.limit > 0 && Shape(s, s.limit, 0, active, 0) && active < workers && window > 0
    ensures Through(s, t, workers, window) && Shape(t, s.limit, 0, active + 1, 0)
  {
    var s2, q := SubmitThrough(s, workers, window, 0, active);
    PopOne(s2, s.limit, 1, active, q);
    StepThrough(s2, OfQueue(q, Pop), workers, window);
    t := Do(s2, OfQueue(q, Pop));
  }

  /** Workers hand back what they hold. */
  lemma {:induction false} HandBackAll(s: State, workers: nat, window: nat, waiting: nat, active: nat)
    requires Shape(s, s.limit, waiting, active, 0) && active <= workers
    ensures Leads(s, workers, window, waiting + active)
    decreases active
  {
    if active == 0 {
      assert Legal(s, []) && Governed(s, [], workers, window) && Run(s, []) == s;
    } else {
      var t := HandBackThrough(s, workers, window, waiting, active);
      HandBackAll(t, workers, window, waiting + 1, active - 1);
    }
  }

  /** Submissions that passed the check together all land. */
  lemma {:induction false} LandAll(s: State, workers: nat, window: nat, waiting: nat, active: nat, admitted: nat)
    requires Shape(s, s.limit, waiting, active, admitted) && active <= workers && admitted <= window
    ensures Leads(s, workers, window, waiting + admitted + active)
    decreases admitted
  {
    if admitted == 0 {
      HandBackAll(s, workers, window, waiting, active);
    } else {
      var id :| id in Window(s);
      var t, _ := LandThrough(s, workers, window, waiting, active, admitted, id);
      LandAll(t, workers, window, waiting + 1, active, admitted - 1);
    }
  }

  /** With one place left, as many submissions as the window holds pass the check. */
  lemma {:induction false} AdmitAll(s: State, workers: nat, window: nat, active: nat, admitted: nat)
    requires s.limit > 0 && Shape(s, s.limit, s.limit - 1, active, admitted) && active <= workers && admitted <= window
    ensures Leads(s, workers, window, s.limit - 1 + window + active)
    decreases window - admitted
  {
    if admitted == window {
      LandAll(s, workers, window, s.limit - 1, active, admitted);
    } else {
      var t := AdmitThrough(s, workers, window, s.limit - 1, active, admitted);
      AdmitAll(t, workers, window, active, admitted + 1);
    }
  }

  /** The queue fills up to one place short of the limit. */
  lemma {:induction false} Fill(s: State, workers: nat, window: nat, waiting: nat, active: nat)
    requires Shape(s, s.limit, waiting, active, 0) && waiting < s.limit && active <= workers && window > 0
    ensures Leads(s, workers, window, s.limit - 1 + window + active)
    decreases s.limit - waiting
  {
    if waiting == s.limit - 1 {
      AdmitAll(s, workers, window, active, 0);
    } else {
      var t, _ := SubmitThrough(s, workers, window, waiting, active);
      Fill(t, workers, window, waiting + 1, active);
    }
  }

  /** Every worker takes a task. */
  lemma {:induction false} Occupy(s: State, workers: nat, window: nat, active: nat)
    requires s.limit > 0 && Shape(s, s.limit, 0, active, 0) && active <= workers && window > 0
    ensures Leads(s, workers, window, s.limit - 1 + window + workers)
    decreases workers - active
  {
    if active == workers {
      Fill(s, workers, window, 0, active);
    } else {
      var t := OccupyThrough(s, workers, window, active);
      Occupy(t, workers, window, active + 1);
    }
  }

  /** For every configuration some run fills the waiting lists exactly up to the bound. */
  lemma BoundIsAttained(limit: nat, workers: nat, window: nat)
    requires limit > 0 && window > 0
    ensures exists ts :: Legal(Init(limit), ts) && Governed(Init(limit), ts, workers, window)
                         && |WaitingSet(Run(Init(limit), ts).queue)| == limit - 1 + workers + window
  {
    Occupy(Init(limit), workers, window, 0);
  }

}
