/**
 How often a task is predicted when workers may die at any point: an attempt that a dead worker
 leaves behind is an attempt lost, and only a worker server that shuts down gives one back.
 */
module Attempts {

  import opened Wrappers
  import opened Sequences
  import opened Records
  import opened Queues
  import opened Protocol
  import opened Invariant
  import opened Reachable
  import opened Histories
  import opened WorkBound
  import Counterexamples

  /** Every call comes right after an accepted `running`. */
  ghost predicate Prefaced(es: seq<Event>) {
    forall i :: 0 <= i < |es| && es[i].Called? ==> i > 0 && es[i - 1] == Wrote(Running)
  }

  /** The calls that an entry may have behind it. */
  function CallsUsed(e: Entry): nat {
    match e.place
    case InArchived => ATTEMPTS
    case InActive(pc) => if pc == Fetched || pc == Announced then e.retried else e.retried + 1
    case _ => e.retried
  }

  /** With so many of the task's calls given back by requeues. */
  ghost predicate EntryMetered(es: seq<Event>, e: Entry, back: nat) {
    && e.retried <= MAX_RETRY
    && Calls(es) <= CallsUsed(e) + back
    && (e.place == InActive(Announced) ==> es != [] && Last(es) == Wrote(Running))
  }

  /** The meter of one task. */
  ghost predicate Metered(s: State, id: TaskId, back: nat) {
    var es := EventsOf(s, id);
    && Untold(s, id)
    && Calls(es) <= ATTEMPTS + back && Prefaced(es)
    && (forall q :: Carries(s, q, id) ==> EntryMetered(es, s.queue[q], back))
  }

  /** How many steps of a run hand back the task's entry on a shutdown. */
  ghost function Requeues(s: State, ts: seq<Step>, id: TaskId): nat
    requires Legal(s, ts)
    decreases |ts|
  {
    if ts == [] then 0 else Given(s, ts[0], id) + Requeues(Do(s, ts[0]), ts[1..], id)
  }

  function Given(s: State, t: Step, id: TaskId): nat {
    if t.OfQueue? && t.w.Requeue? && t.q in s.queue && s.queue[t.q].payload == Some(id) then 1 else 0
  }

  lemma CallsOfNoted(es: seq<Event>, more: seq<Event>)
    requires |more| <= 2
    ensures Calls(es + more) == Calls(es) + (if more != [] && more[0].Called? then 1 else 0)
                                          + (if |more| == 2 && more[1].Called? then 1 else 0)
  {
    if more == [] {
      assert es + more == es;
    } else {
      assert Front(es + [more[0]]) == es;
      if |more| == 1 {
        assert es + more == es + [more[0]];
      } else {
        assert Front(es + more) == es + [more[0]];
      }
    }
  }

  /** An entry moves on with these events: calls are paid for, and only an announced entry calls. */
  ghost predicate Pays(e: Entry, f: Entry, more: seq<Event>, given: nat) {
    && f.retried <= MAX_RETRY && |more| <= 2
    && (|more| == 2 ==> !more[1].Called?)
    && CallsUsed(f) + given >= CallsUsed(e) + (if more != [] && more[0].Called? then 1 else 0)
    && (more != [] && more[0].Called? ==> e.place == InActive(Announced))
    && (f.place == InActive(Announced) ==> more == [Wrote(Running)])
  }

  lemma StepPays(s: State, q: QueueId, w: QueueStep)
    requires QueueEnabled(s, q, w) && EntryOk(s, q) && s.queue[q].retried <= MAX_RETRY && !w.Return?
    ensures Pays(s.queue[q], DoQueue(s, q, w).queue[q], EventsAdded(s, q, w), if w.Requeue? then 1 else 0)
  {
  }

  lemma PrefacedGoesOn(es: seq<Event>, more: seq<Event>)
    requires Prefaced(es) && |more| <= 2 && (|more| == 2 ==> !more[1].Called?)
    requires more != [] && more[0].Called? ==> es != [] && Last(es) == Wrote(Running)
    ensures Prefaced(es + more)
  {
    forall i | 0 <= i < |es + more| && (es + more)[i].Called?
      ensures i > 0 && (es + more)[i - 1] == Wrote(Running)
    {
      if i < |es| {
        assert es[i].Called?;
      } else {
        assert i == |es|;
      }
    }
  }

  lemma PaidIsMetered(es: seq<Event>, more: seq<Event>, e: Entry, f: Entry, back: nat, given: nat)
    requires EntryMetered(es, e, back) && Prefaced(es) && Pays(e, f, more, given)
    ensures EntryMetered(es + more, f, back + given) && Prefaced(es + more)
    ensures Calls(es + more) <= ATTEMPTS + back + given
  {
    CallsOfNoted(es, more);
    PrefacedGoesOn(es, more);
    if more != [] {
      assert Last(es + more) == Last(more);
    }
  }

  lemma OwnStepKeepsMetered(s: State, q: QueueId, w: QueueStep, id: TaskId, back: nat)
    requires Core(s) && Metered(s, id, back) && QueueEnabled(s, q, w) && OwnStep(s, OfQueue(q, w), id)
    ensures Metered(DoQueue(s, q, w), id, back + Given(s, OfQueue(q, w), id))
  {
    assert EntryOk(s, q) && Carries(s, q, id);
    var t, more, given := DoQueue(s, q, w), EventsAdded(s, q, w), Given(s, OfQueue(q, w), id);
    OwnStepNotes(s, q, w, id);
    StepPays(s, q, w);
    PaidIsMetered(EventsOf(s, id), more, s.queue[q], t.queue[q], back, given);
  }

  lemma StepKeepsMetered(s: State, t: Step, id: TaskId, back: nat)
    requires Core(s) && Metered(s, id, back) && Enabled(s, t)
    ensures Metered(Do(s, t), id, back + Given(s, t, id))
  {
    if OwnStep(s, t, id) {
      OwnStepKeepsMetered(s, t.q, t.w, id, back);
    } else {
      StepElsewhere(s, t, id);
    }
  }

  lemma {:induction false} RunKeepsMetered(s: State, ts: seq<Step>, id: TaskId, back: nat)
    requires Core(s) && Metered(s, id, back) && Legal(s, ts)
    ensures Metered(Run(s, ts), id, back + Requeues(s, ts, id))
    decreases |ts|
  {
    if ts != [] {
      StepKeepsCore(s, ts[0]);
      StepKeepsMetered(s, ts[0], id, back);
      RunKeepsMetered(Do(s, ts[0]), ts[1..], id, back + Given(s, ts[0], id));
    }
  }

  /**
   In every run, crashed and recovered workers included, a task is predicted at most twice plus once
   for every time a departing worker server handed its entry back, and every prediction follows an
   accepted `running` write.
   */
  lemma PredictionsAreBounded(limit: nat, ts: seq<Step>, id: TaskId)
    requires Legal(Init(limit), ts)
    ensures Calls(EventsOf(Run(Init(limit), ts), id)) <= 2 + Requeues(Init(limit), ts, id)
    ensures Prefaced(EventsOf(Run(Init(limit), ts), id))
  {
    RunKeepsMetered(Init(limit), ts, id, 0);
  }

  // ---------- the bound is attained ----------

  lemma {:induction false} RequeuesJoin(s: State, ts: seq<Step>, t: Step, id: TaskId)
    requires Legal(s, ts) && Enabled(Run(s, ts), t)
    ensures Legal(s, ts + [t]) && Requeues(s, ts + [t], id) == Requeues(s, ts, id) + Given(Run(s, ts), t, id)
    decreases |ts|
  {
    if ts == [] {
      RunOf1(s, t);
      assert [] + [t] == [t] && [t][1..] == [];
      assert Requeues(Do(s, t), [], id) == 0;
    } else {
      assert (ts + [t])[0] == ts[0] && (ts + [t])[1..] == ts[1..] + [t];
      RequeuesJoin(Do(s, ts[0]), ts[1..], t, id);
    }
  }

  /** A run after which task 0 has been predicted and handed back so often. */
  ghost predicate Counted(limit: nat, ts: seq<Step>, s: State, calls: nat, given: nat) {
    && Counterexamples.Leads(limit, ts, s)
    && Calls(EventsOf(s, 0)) == calls && Requeues(Init(limit), ts, 0) == given
  }

  /** Task 0 with its record and its entry, and nobody else about. */
  ghost predicate Alone(s: State, place: Place, retried: nat) {
    && Carries(s, 0, 0) && s.queue[0].place == place && s.queue[0].retried == retried
    && 0 in s.views.cache && |s.hist| == 1
  }

  lemma CallsAdded(s: State, q: QueueId, w: QueueStep)
    requires QueueEnabled(s, q, w) && s.queue[q].payload.Some?
    ensures var more := EventsAdded(s, q, w);
            && |more| <= 2 && (|more| == 2 ==> !more[1].Called?)
            && (more != [] && more[0].Called? <==> w.Call?)
  {
  }

  lemma CallCounts(s: State, w: QueueStep)
    requires Carries(s, 0, 0) && QueueEnabled(s, 0, w) && |s.hist| == 1 && !w.Return?
    ensures Calls(EventsOf(DoQueue(s, 0, w), 0)) == Calls(EventsOf(s, 0)) + (if w.Call? then 1 else 0)
  {
    StepAddsEvents(s, 0, w);
    NotedEvents(s, DoQueue(s, 0, w), 0, EventsAdded(s, 0, w));
    CallsAdded(s, 0, w);
    CallsOfNoted(EventsOf(s, 0), EventsAdded(s, 0, w));
  }

  /** One step on the entry of task 0. */
  lemma ThenCounted(limit: nat, ts: seq<Step>, s: State, w: QueueStep, calls: nat, given: nat)
    returns (us: seq<Step>, s': State)
    requires Counted(limit, ts, s, calls, given) && Carries(s, 0, 0) && QueueEnabled(s, 0, w)
    requires |s.hist| == 1 && !w.Return?
    ensures s' == DoQueue(s, 0, w)
    ensures Counted(limit, us, s', calls + (if w.Call? then 1 else 0), given + (if w.Requeue? then 1 else 0))
  {
    us, s' := Counterexamples.Then(limit, ts, s, OfQueue(0, w));
    RequeuesJoin(Init(limit), ts, OfQueue(0, w), 0);
    CallCounts(s, w);
  }

  lemma {:induction false} NoRequeues(s: State, ts: seq<Step>, id: TaskId)
    requires Legal(s, ts) && forall t :: t in ts ==> !t.OfQueue?
    ensures Requeues(s, ts, id) == 0
    decreases |ts|
  {
    if ts != [] {
      NoRequeues(Do(s, ts[0]), ts[1..], id);
    }
  }

  lemma Submitted(limit: nat) returns (ts: seq<Step>, s: State)
    requires limit > 0
    ensures Counted(limit, ts, s, 0, 0) && Alone(s, InPending, 0)
  {
    ts, s := Counterexamples.Linked0(limit);
    NoRequeues(Init(limit), ts, 0);
  }

  /** A worker takes the task and announces it. */
  lemma Begin(limit: nat, ts0: seq<Step>, s0: State, calls: nat, given: nat, retried: nat)
    returns (ts: seq<Step>, s: State)
    requires Counted(limit, ts0, s0, calls, given) && Alone(s0, InPending, retried)
    ensures Counted(limit, ts, s, calls, given) && Alone(s, InActive(Announced), retried)
  {
    ts, s := ThenCounted(limit, ts0, s0, Pop, calls, given);
    ts, s := ThenCounted(limit, ts, s, Announce(true, 0), calls, given);
  }

  /** So many times a worker server shuts down after the platform was called. */
  lemma {:induction false} HandBacks(limit: nat, k: nat) returns (ts: seq<Step>, s: State)
    requires limit > 0
    ensures Counted(limit, ts, s, k, k) && Alone(s, InPending, 0)
  {
    if k == 0 {
      ts, s := Submitted(limit);
    } else {
      ts, s := HandBacks(limit, k - 1);
      ts, s := Begin(limit, ts, s, k - 1, k - 1, 0);
      ts, s := ThenCounted(limit, ts, s, Call(Counterexamples.GOOD, 0), k - 1, k - 1);
      ts, s := ThenCounted(limit, ts, s, Requeue, k, k - 1);
    }
  }

  /** The platform is called. */
  lemma Ask(limit: nat, ts0: seq<Step>, s0: State, calls: nat, given: nat, retried: nat)
    returns (ts: seq<Step>, s: State)
    requires Counted(limit, ts0, s0, calls, given) && Alone(s0, InActive(Announced), retried)
    ensures Counted(limit, ts, s, calls + 1, given)
    ensures Alone(s, InActive(Answered(ReportOf(Counterexamples.GOOD))), retried)
  {
    ts, s := ThenCounted(limit, ts0, s0, Call(Counterexamples.GOOD, 0), calls, given);
  }

  /** The report is refused and the task retried. */
  lemma Lose(limit: nat, ts0: seq<Step>, s0: State, calls: nat, given: nat, u: Update)
    returns (ts: seq<Step>, s: State)
    requires Counted(limit, ts0, s0, calls, given) && Alone(s0, InActive(Answered(u)), 0)
    ensures Counted(limit, ts, s, calls, given) && Alone(s, InPending, 1)
  {
    ts, s := ThenCounted(limit, ts0, s0, Report(false, 0), calls, given);
    ts, s := ThenCounted(limit, ts, s, Forward, calls, given);
  }

  /** For every number of hand-backs some run uses up the bound. */
  lemma RequeuesAddUp(limit: nat, k: nat)
    requires limit > 0
    ensures exists ts :: Legal(Init(limit), ts) && Requeues(Init(limit), ts, 0) == k
                         && Calls(EventsOf(Run(Init(limit), ts), 0)) == 2 + k
  {
    var ts, s := HandBacks(limit, k);
    ts, s := Begin(limit, ts, s, k, k, 0);
    ts, s := Ask(limit, ts, s, k, k, 0);
    ts, s := Lose(limit, ts, s, k + 1, k, ReportOf(Counterexamples.GOOD));
    ts, s := Begin(limit, ts, s, k + 1, k, 1);
    ts, s := Ask(limit, ts, s, k + 1, k, 1);
    assert Counted(limit, ts, s, k + 2, k);
  }

}
