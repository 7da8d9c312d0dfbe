/**
 How often a task is predicted and what its workers may write: the language of a task's history
 when every entry may be retried once and no entry is handed out without costing an attempt.
 */
module WorkBound {

  import opened Sequences
  import opened Records
  import opened Queues
  import opened Protocol
  import opened Invariant
  import opened Evolution
  import opened Histories

  // ---------- the language ----------

  predicate Terminal(status: Status) {
    status == Succeeded || status == Failed
  }

  /** Where a history stands, with the number of attempts lost so far. */
  datatype Phase =
    | Idle(lost: nat)          // between two attempts
    | Begun(lost: nat)         // `running` was accepted
    | Asked(lost: nat)         // the platform was called
    | Won(lost: nat)           // the report was accepted
    | Illegal

  const ATTEMPTS: nat := MAX_RETRY + 1

  /** After an accepted report a worker may still die, and a re-issued task fail to be announced. */
  function After(p: Phase, e: Event): Phase {
    match p
    case Idle(n) =>
      if n >= ATTEMPTS then Illegal
      else if e == Wrote(Running) then Begun(n)
      else if e == Refused(Running) || e.Died? then Idle(n + 1)
      else Illegal
    case Begun(n) =>
      if e.Called? then Asked(n) else if e.Died? then Idle(n + 1) else Illegal
    case Asked(n) =>
      if e.Panicked? || e.Died? || (e.Refused? && Terminal(e.status)) then Idle(n + 1)
      else if e.Wrote? && Terminal(e.status) then Won(n)
      else Illegal
    case Won(n) =>
      if e.Died? || e == Refused(Running) then p else Illegal
    case Illegal => Illegal
  }

  function Story(es: seq<Event>): Phase {
    if es == [] then Idle(0) else After(Story(Front(es)), Last(es))
  }

  lemma StoryGoesOn(es: seq<Event>, e: Event)
    ensures Story(es + [e]) == After(Story(es), e)
  {
    assert Front(es + [e]) == es;
  }

  /** How often the platform was called. */
  function Calls(es: seq<Event>): nat {
    if es == [] then 0 else Calls(Front(es)) + (if Last(es).Called? then 1 else 0)
  }

  /** The statuses that workers had accepted. */
  function Accepted(es: seq<Event>): seq<Status> {
    if es == [] then []
    else Accepted(Front(es)) + (if Last(es).Wrote? then [Last(es).status] else [])
  }

  /** A prefix of: running, optionally running again, then one terminal status. */
  predicate WriteLanguage(ws: seq<Status>) {
    || ws == [] || ws == [Running] || ws == [Running, Running]
    || (|ws| == 2 && ws[0] == Running && Terminal(ws[1]))
    || (|ws| == 3 && ws[0] == Running && ws[1] == Running && Terminal(ws[2]))
  }

  /** All writes so far are `running`, one at most for every attempt begun. */
  predicate OnlyRunning(ws: seq<Status>, attempts: nat) {
    |ws| <= attempts && forall i :: 0 <= i < |ws| ==> ws[i] == Running
  }

  lemma {:induction false} LegalStoriesCount(es: seq<Event>)
    requires !Story(es).Illegal?
    ensures Story(es).lost <= ATTEMPTS && (!Story(es).Idle? ==> Story(es).lost < ATTEMPTS)
    ensures Calls(es) <= Story(es).lost + (if Story(es).Asked? || Story(es).Won? then 1 else 0)
    decreases |es|
  {
    if es != [] {
      LegalStoriesCount(Front(es));
    }
  }

  /** What was accepted by a phase: `running` only, until a terminal status at the end. */
  predicate AcceptedBy(p: Phase, ws: seq<Status>) {
    match p
    case Idle(n) => OnlyRunning(ws, n)
    case Begun(n) => ws != [] && OnlyRunning(ws, n + 1)
    case Asked(n) => ws != [] && OnlyRunning(ws, n + 1)
    case Won(n) => |ws| > 1 && Terminal(Last(ws)) && OnlyRunning(Front(ws), n + 1)
    case Illegal => true
  }

  lemma AcceptedGoesOn(p: Phase, ws: seq<Status>, e: Event)
    requires AcceptedBy(p, ws) && !p.Illegal?
    ensures AcceptedBy(After(p, e), ws + (if e.Wrote? then [e.status] else []))
  {
    if e.Wrote? {
      assert Front(ws + [e.status]) == ws;
    } else {
      assert ws + [] == ws;
    }
  }

  lemma {:induction false} LegalStoriesWrite(es: seq<Event>)
    requires !Story(es).Illegal?
    ensures AcceptedBy(Story(es), Accepted(es))
    decreases |es|
  {
    if es != [] {
      LegalStoriesWrite(Front(es));
      AcceptedGoesOn(Story(Front(es)), Accepted(Front(es)), Last(es));
    }
  }

  /** The report was refused, the client panicked, or the worker died. */
  predicate Loses(e: Event) {
    e.Refused? || e.Panicked? || e.Died?
  }

  /** Calls sit right after `running`, and one that has a successor call was lost. */
  ghost predicate WellPlaced(es: seq<Event>) {
    && (forall i :: 0 <= i < |es| && es[i].Called? ==> i > 0 && es[i - 1] == Wrote(Running))
    && (forall i :: 0 <= i < |es| - 1 && es[i].Called? && !Story(es).Won? ==> Loses(es[i + 1]))
    && (forall i, j :: 0 <= i < j < |es| && es[i].Called? && es[j].Called? ==> Loses(es[i + 1]))
    && (Story(es).Begun? ==> es != [] && Last(es) == Wrote(Running))
    && (es != [] && Last(es).Called? ==> Story(es).Asked?)
  }

  lemma {:induction false} LegalStoriesPlace(es: seq<Event>)
    requires !Story(es).Illegal?
    ensures WellPlaced(es)
    decreases |es|
  {
    if es != [] {
      var fs := Front(es);
      LegalStoriesPlace(fs);
      assert forall i :: 0 <= i < |fs| ==> es[i] == fs[i];
    }
  }

  /** The language bounds the work: two predictions at most, and a second one only after a loss. */
  lemma LanguageBoundsWork(es: seq<Event>)
    requires !Story(es).Illegal?
    ensures Calls(es) <= 2
    ensures WriteLanguage(Accepted(es))
    ensures WellPlaced(es)
  {
    LegalStoriesCount(es);
    LegalStoriesPlace(es);
    LegalStoriesWrite(es);
    var ws := Accepted(es);
    if Story(es).Won? {
      assert ws == Front(ws) + [Last(ws)];
    }
  }

  // ---------- histories and entries agree ----------

  /**
   What the history of a task says about its entry.  After an accepted report the entry may come
   round once more, but only while its cached record is gone.
   */
  predicate EntryTold(p: Phase, e: Entry, cached: bool) {
    match e.place
    case InArchived => p == Idle(ATTEMPTS) || p.Won?
    case InActive(pc) =>
      e.retried <= MAX_RETRY &&
      (match pc
       case Fetched => p == Idle(e.retried) || (p.Won? && !cached)
       case Announced => p == Begun(e.retried)
       case Answered(_) => p == Asked(e.retried)
       case Finished => p.Won?
       case Lost => p == Idle(e.retried + 1) || p.Won?)
    case _ => e.retried <= MAX_RETRY && (p == Idle(e.retried) || (p.Won? && !cached))
  }

  function PhaseOf(s: State, id: TaskId): Phase {
    Story(EventsOf(s, id))
  }

  /** The history of a task is legal and agrees with its entry. */
  ghost predicate TaleOk(s: State, id: TaskId) {
    && Untold(s, id) && !PhaseOf(s, id).Illegal?
    && (forall q :: Carries(s, q, id) ==> EntryTold(PhaseOf(s, id), s.queue[q], id in s.views.cache))
  }

  /** The last status that workers had accepted is a terminal one. */
  predicate Reported(es: seq<Event>) {
    Accepted(es) != [] && Terminal(Last(Accepted(es)))
  }

  /** A dead worker's entry comes back although its report was accepted, and can be announced again. */
  predicate Revives(s: State, t: Step, id: TaskId) {
    && OwnStep(s, t, id) && t.w.Recover?
    && Reported(EventsOf(s, id)) && s.queue[t.q].retried < MAX_RETRY && id in s.views.cache
  }

  /** A departing worker server hands back the task's own entry after its attempt has begun. */
  predicate HandsBack(s: State, t: Step, id: TaskId) {
    OwnStep(s, t, id) && t.w.Requeue? && s.queue[t.q].place != InActive(Fetched)
  }

  /** No step of the run does either. */
  ghost predicate Undisturbed(s: State, ts: seq<Step>, id: TaskId)
    requires Legal(s, ts)
    decreases |ts|
  {
    ts != [] ==>
      && !Revives(s, ts[0], id) && !HandsBack(s, ts[0], id)
      && Undisturbed(Do(s, ts[0]), ts[1..], id)
  }

  lemma StoryOfNoted(es: seq<Event>, more: seq<Event>)
    requires |more| <= 2
    ensures Story(es + more) == if more == [] then Story(es)
                                else if |more| == 1 then After(Story(es), more[0])
                                else After(After(Story(es), more[0]), more[1])
  {
    if more == [] {
      assert es + more == es;
    } else if |more| == 1 {
      assert es + more == es + [more[0]];
      StoryGoesOn(es, more[0]);
    } else {
      assert es + more == (es + [more[0]]) + [more[1]];
      StoryGoesOn(es, more[0]);
      StoryGoesOn(es + [more[0]], more[1]);
    }
  }

  /** An attempt begins, goes on and ends: the phase follows the entry. */
  lemma PhasesFollow(p: Phase, e: Entry, cached: bool, u: Update, status: Status, now: int)
    requires EntryTold(p, e, cached)
    ensures e.place == InActive(Fetched) && cached ==>
              EntryTold(After(p, Wrote(Running)), e.(place := InActive(Announced)), cached)
    ensures e.place == InActive(Fetched) ==> EntryTold(After(p, Refused(Running)), Fails(e, now), cached)
    ensures e.place == InActive(Announced) ==>
              && EntryTold(After(p, Called), e.(place := InActive(Answered(u))), cached)
              && EntryTold(After(After(p, Called), Panicked), Fails(e, now), cached)
    ensures e.place.InActive? && e.place.pc.Answered? && Terminal(status) ==>
              && EntryTold(After(p, Wrote(status)), e.(place := InActive(Finished)), cached)
              && EntryTold(After(p, Refused(status)), Fails(e, now), cached)
    ensures e.place.InActive? && e.place.pc != Lost ==>
              EntryTold(After(p, Died), e.(place := InActive(Lost)), cached)
    ensures e.place == InActive(Lost) && !(p.Won? && e.retried < MAX_RETRY && cached) ==>
              EntryTold(p, Fails(e, now), cached)
  {
  }

  /** What a step on its entry makes of the task's tale. */
  ghost predicate ToldAfter(s: State, q: QueueId, w: QueueStep)
    requires QueueEnabled(s, q, w) && EntryOk(s, q) && !w.Return?
  {
    var id, t := s.queue[q].payload.value, DoQueue(s, q, w);
    q in t.queue && EntryTold(Story(EventsOf(s, id) + EventsAdded(s, q, w)), t.queue[q], id in s.views.cache)
  }

  ghost predicate ToldNow(s: State, q: QueueId)
    requires q in s.queue && s.queue[q].payload.Some?
  {
    var id := s.queue[q].payload.value;
    EntryTold(PhaseOf(s, id), s.queue[q], id in s.views.cache)
  }

  lemma AnnounceIsTold(s: State, q: QueueId, ok: bool, now: int)
    requires QueueEnabled(s, q, Announce(ok, now)) && EntryOk(s, q) && ToldNow(s, q)
    ensures ToldAfter(s, q, Announce(ok, now))
  {
    var id := s.queue[q].payload.value;
    StoryOfNoted(EventsOf(s, id), EventsAdded(s, q, Announce(ok, now)));
    PhasesFollow(PhaseOf(s, id), s.queue[q], id in s.views.cache, Mark(Running), Failed, now);
  }

  lemma CallIsTold(s: State, q: QueueId, p: Prediction, now: int)
    requires QueueEnabled(s, q, Call(p, now)) && EntryOk(s, q) && ToldNow(s, q)
    ensures ToldAfter(s, q, Call(p, now))
  {
    var id := s.queue[q].payload.value;
    var u := if p.Panic? then Mark(Running) else ReportOf(p);
    StoryOfNoted(EventsOf(s, id), EventsAdded(s, q, Call(p, now)));
    PhasesFollow(PhaseOf(s, id), s.queue[q], id in s.views.cache, u, Failed, now);
  }

  lemma ReportIsTold(s: State, q: QueueId, ok: bool, now: int)
    requires QueueEnabled(s, q, Report(ok, now)) && EntryOk(s, q) && ToldNow(s, q)
    ensures ToldAfter(s, q, Report(ok, now))
  {
    var id, status := s.queue[q].payload.value, s.queue[q].place.pc.report.status.value;
    StoryOfNoted(EventsOf(s, id), EventsAdded(s, q, Report(ok, now)));
    PhasesFollow(PhaseOf(s, id), s.queue[q], id in s.views.cache, Mark(Running), status, now);
  }

  /** A phase is won exactly when the last accepted status is terminal. */
  lemma WonIsReported(es: seq<Event>)
    requires !Story(es).Illegal?
    ensures Story(es).Won? <==> Reported(es)
  {
    LegalStoriesWrite(es);
    if !Story(es).Won? && Accepted(es) != [] {
      assert Last(Accepted(es)) == Accepted(es)[|Accepted(es)| - 1] == Running;
    }
  }

  lemma LossIsTold(s: State, q: QueueId, w: QueueStep)
    requires QueueEnabled(s, q, w) && EntryOk(s, q) && ToldNow(s, q) && (w.WorkerCrash? || w.Recover?)
    requires !PhaseOf(s, s.queue[q].payload.value).Illegal?
    requires !Revives(s, OfQueue(q, w), s.queue[q].payload.value)
    ensures ToldAfter(s, q, w)
  {
    var id := s.queue[q].payload.value;
    StoryOfNoted(EventsOf(s, id), EventsAdded(s, q, w));
    WonIsReported(EventsOf(s, id));
    var now := if w.Recover? then w.now else 0;
    PhasesFollow(PhaseOf(s, id), s.queue[q], id in s.views.cache, Mark(Running), Failed, now);
  }

  lemma StepIsTold(s: State, q: QueueId, w: QueueStep)
    requires QueueEnabled(s, q, w) && EntryOk(s, q) && ToldNow(s, q) && !w.Return?
    requires w.Requeue? ==> s.queue[q].place == InActive(Fetched)
    requires !PhaseOf(s, s.queue[q].payload.value).Illegal?
    requires !Revives(s, OfQueue(q, w), s.queue[q].payload.value)
    ensures ToldAfter(s, q, w)
  {
    var es := EventsOf(s, s.queue[q].payload.value);
    match w {
      case Announce(ok, now) => AnnounceIsTold(s, q, ok, now);
      case Call(p, now) => CallIsTold(s, q, p, now);
      case Report(ok, now) => ReportIsTold(s, q, ok, now);
      case Forward => StoryOfNoted(es, []);
      case Pop => StoryOfNoted(es, []);
      case WorkerCrash => LossIsTold(s, q, w);
      case Recover(_) => LossIsTold(s, q, w);
      case Requeue => StoryOfNoted(es, []);
    }
  }

  /** An entry in some place has a legal history. */
  lemma ToldIsLegal(p: Phase, e: Entry, cached: bool)
    requires EntryTold(p, e, cached)
    ensures !p.Illegal?
  {
  }

  lemma WorkKeepsCached(s: State, q: QueueId, w: QueueStep)
    requires QueueEnabled(s, q, w)
    ensures DoQueue(s, q, w).views.cache.Keys == s.views.cache.Keys
  {
  }

  lemma OwnStepKeepsTale(s: State, q: QueueId, w: QueueStep, id: TaskId)
    requires Core(s) && TaleOk(s, id) && QueueEnabled(s, q, w) && OwnStep(s, OfQueue(q, w), id)
    requires !Revives(s, OfQueue(q, w), id) && !HandsBack(s, OfQueue(q, w), id)
    ensures TaleOk(DoQueue(s, q, w), id)
  {
    assert EntryOk(s, q) && Carries(s, q, id);
    OwnStepNotes(s, q, w, id);
    StepIsTold(s, q, w);
    WorkKeepsCached(s, q, w);
    ToldIsLegal(PhaseOf(DoQueue(s, q, w), id), DoQueue(s, q, w).queue[q], id in s.views.cache);
  }

  /** A record that has left the cache does not come back. */
  lemma ToldElsewhere(s: State, t: Step, id: TaskId)
    requires Core(s) && TaleOk(s, id) && Enabled(s, t) && !OwnStep(s, t, id)
    ensures TaleOk(Do(s, t), id)
  {
    var s' := Do(s, t);
    StepElsewhere(s, t, id);
    StepEvolves(s, t);
    forall q | Carries(s', q, id) ensures EntryTold(PhaseOf(s', id), s'.queue[q], id in s'.views.cache) {
      if Carries(s, q, id) && s'.queue[q] == s.queue[q] {
        assert EntryOk(s, q);
      }
    }
  }

  lemma StepKeepsTale(s: State, t: Step, id: TaskId)
    requires Core(s) && TaleOk(s, id) && Enabled(s, t) && !Revives(s, t, id) && !HandsBack(s, t, id)
    ensures TaleOk(Do(s, t), id)
  {
    if OwnStep(s, t, id) {
      OwnStepKeepsTale(s, t.q, t.w, id);
    } else {
      ToldElsewhere(s, t, id);
    }
  }

  lemma {:induction false} RunKeepsTale(s: State, ts: seq<Step>, id: TaskId)
    requires Core(s) && TaleOk(s, id) && Legal(s, ts) && Undisturbed(s, ts, id)
    ensures Core(Run(s, ts)) && TaleOk(Run(s, ts), id)
    decreases |ts|
  {
    if ts != [] {
      StepKeepsCore(s, ts[0]);
      StepKeepsTale(s, ts[0], id);
      RunKeepsTale(Do(s, ts[0]), ts[1..], id);
    }
  }

  /**
   Workers die and their tasks are recovered.  Unless the task's own entry is handed back on a
   shutdown in the middle of an attempt, or recovered after its report was accepted while it can still
   be announced, the task is predicted at most twice; every prediction follows an accepted `running`
   write of the same attempt; a second one means that the first attempt's report was refused, its
   client panicked or its worker died; and the accepted writes are a prefix of running, an optional
   second running, and one terminal status.
   */
  lemma WorkIsBounded(limit: nat, ts: seq<Step>, id: TaskId)
    requires Legal(Init(limit), ts) && Undisturbed(Init(limit), ts, id)
    ensures var es := EventsOf(Run(Init(limit), ts), id);
            Calls(es) <= 2 && WriteLanguage(Accepted(es)) && WellPlaced(es)
  {
    RunKeepsTale(Init(limit), ts, id);
    LanguageBoundsWork(EventsOf(Run(Init(limit), ts), id));
  }

  // ---------- exactly which recoveries leave the language ----------

  /** After the step some run, undisturbed itself, leaves the language. */
  ghost predicate CanLeave(s: State, w: Step, id: TaskId)
    requires Enabled(s, w)
  {
    exists us :: Leaves(Do(s, w), us, id)
  }

  ghost predicate Leaves(s: State, us: seq<Step>, id: TaskId) {
    Legal(s, us) && Undisturbed(s, us, id) && !WriteLanguage(Accepted(EventsOf(Run(s, us), id)))
  }

  lemma AcceptedOf1(es: seq<Event>, e: Event)
    ensures Accepted(es + [e]) == Accepted(es) + (if e.Wrote? then [e.status] else [])
  {
    assert Front(es + [e]) == es;
  }

  lemma OneUndisturbed(s: State, t: Step, us: seq<Step>, id: TaskId)
    requires Enabled(s, t) && !Revives(s, t, id) && !HandsBack(s, t, id)
    requires Legal(Do(s, t), us) && Undisturbed(Do(s, t), us, id)
    ensures Legal(s, [t] + us) && Undisturbed(s, [t] + us, id) && Run(s, [t] + us) == Run(Do(s, t), us)
  {
    assert ([t] + us)[0] == t && ([t] + us)[1..] == us;
  }

  /** A fetched entry is announced. */
  lemma AnnouncedAgain(s: State, q: QueueId, id: TaskId) returns (us: seq<Step>)
    requires Core(s) && Untold(s, id) && Carries(s, q, id) && id in s.views.cache
    requires s.queue[q].place == InActive(Fetched)
    ensures Legal(s, us) && Undisturbed(s, us, id)
    ensures Accepted(EventsOf(Run(s, us), id)) == Accepted(EventsOf(s, id)) + [Running]
  {
    var t := OfQueue(q, Announce(true, 0));
    us := [t] + [];
    OwnStepNotes(s, q, t.w, id);
    AcceptedOf1(EventsOf(s, id), Wrote(Running));
    assert Undisturbed(Do(s, t), [], id) && Legal(Do(s, t), []);
    OneUndisturbed(s, t, [], id);
  }

  /** A quiet step of the queue and then what follows. */
  lemma StepThenAnnounced(s: State, q: QueueId, w: QueueStep, id: TaskId, vs: seq<Step>) returns (us: seq<Step>)
    requires Core(s) && Untold(s, id) && Carries(s, q, id) && QueueEnabled(s, q, w) && (w.Pop? || w.Forward?)
    requires var t := DoQueue(s, q, w);
             && Legal(t, vs) && Undisturbed(t, vs, id)
             && Accepted(EventsOf(Run(t, vs), id)) == Accepted(EventsOf(t, id)) + [Running]
    ensures Legal(s, us) && Undisturbed(s, us, id)
    ensures Accepted(EventsOf(Run(s, us), id)) == Accepted(EventsOf(s, id)) + [Running]
  {
    OwnStepNotes(s, q, w, id);
    assert EventsOf(s, id) + [] == EventsOf(s, id);
    OneUndisturbed(s, OfQueue(q, w), vs, id);
    us := [OfQueue(q, w)] + vs;
  }

  /** A retried entry is forwarded, fetched and announced. */
  lemma RetriedAgain(s: State, q: QueueId, id: TaskId) returns (us: seq<Step>)
    requires Core(s) && Untold(s, id) && Carries(s, q, id) && id in s.views.cache && s.queue[q].place.InRetry?
    ensures Legal(s, us) && Undisturbed(s, us, id)
    ensures Accepted(EventsOf(Run(s, us), id)) == Accepted(EventsOf(s, id)) + [Running]
  {
    QueueKeepsCore(s, q, Forward);
    OwnStepNotes(s, q, Forward, id);
    var s1 := DoQueue(s, q, Forward);
    QueueKeepsCore(s1, q, Pop);
    OwnStepNotes(s1, q, Pop, id);
    us := AnnouncedAgain(DoQueue(s1, q, Pop), q, id);
    us := StepThenAnnounced(s1, q, Pop, id, us);
    us := StepThenAnnounced(s, q, Forward, id, us);
  }

  lemma NothingFollowsTerminal(ws: seq<Status>)
    requires ws != [] && Terminal(Last(ws))
    ensures !WriteLanguage(ws + [Running])
  {
    assert (ws + [Running])[|ws| - 1] == Last(ws);
  }

  /** The recovered entry waits for its next attempt. */
  lemma Revived(s: State, q: QueueId, now: int, id: TaskId)
    requires Core(s) && TaleOk(s, id) && QueueEnabled(s, q, Recover(now)) && Revives(s, OfQueue(q, Recover(now)), id)
    ensures var t := DoQueue(s, q, Recover(now));
            && Core(t) && Untold(t, id) && EventsOf(t, id) == EventsOf(s, id)
            && Carries(t, q, id) && t.queue[q].place.InRetry? && id in t.views.cache
  {
    assert Carries(s, q, id);
    QueueKeepsCore(s, q, Recover(now));
    OwnStepNotes(s, q, Recover(now), id);
    assert EventsOf(s, id) + [] == EventsOf(s, id);
  }

  lemma RevivalLeaves(s: State, q: QueueId, now: int, id: TaskId)
    requires Core(s) && TaleOk(s, id) && QueueEnabled(s, q, Recover(now)) && Revives(s, OfQueue(q, Recover(now)), id)
    ensures CanLeave(s, OfQueue(q, Recover(now)), id)
  {
    Revived(s, q, now, id);
    var us := RetriedAgain(DoQueue(s, q, Recover(now)), q, id);
    NothingFollowsTerminal(Accepted(EventsOf(s, id)));
    assert Leaves(Do(s, OfQueue(q, Recover(now))), us, id);
  }

  /**
   Some continuation of a recovery leaves the language if and only if the report of the dead worker
   had been accepted, an attempt is left, and the record is still cached.
   */
  lemma RecoveryLeavesIff(limit: nat, ts: seq<Step>, q: QueueId, now: int, id: TaskId)
    requires Legal(Init(limit), ts) && Undisturbed(Init(limit), ts, id)
    requires var s := Run(Init(limit), ts); Carries(s, q, id) && QueueEnabled(s, q, Recover(now))
    ensures var s := Run(Init(limit), ts);
            CanLeave(s, OfQueue(q, Recover(now)), id) <==>
              Reported(EventsOf(s, id)) && s.queue[q].retried < MAX_RETRY && id in s.views.cache
  {
    var s, w := Run(Init(limit), ts), OfQueue(q, Recover(now));
    RunKeepsTale(Init(limit), ts, id);
    if Revives(s, w, id) {
      RevivalLeaves(s, q, now, id);
    } else {
      forall us ensures !Leaves(Do(s, w), us, id) {
        if Legal(Do(s, w), us) && Undisturbed(Do(s, w), us, id) {
          OneUndisturbed(s, w, us, id);
          RunKeepsTale(s, [w] + us, id);
          LanguageBoundsWork(EventsOf(Run(s, [w] + us), id));
        }
      }
    }
  }

}
