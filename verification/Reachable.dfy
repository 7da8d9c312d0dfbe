/** The full invariant is inductive, so it holds in every state of every run. */
module Reachable {

  import opened Records
  import opened Queues
  import opened Protocol
  import opened Invariant
  import opened Evolution

  lemma CancelActs(s: State, a: nat, x: CancelStep)
    requires Inv(s) && CancelEnabled(s, a, x)
    ensures var t := DoCancel(s, a, x); a in t.actors ==> ActorOk(t, t.actors[a])
  {
    if x.CancelDelete? {
      var CancelGot(id, q) := s.actors[a];
      assert ActorOk(s, s.actors[a]);
      assert TaskOk(s, id);
      if x.ok && CanDelete(s.queue, q) {
        assert forall p :: Carries(s, p, id) ==> s.queue[p].payload == s.queue[q].payload;
      }
    }
  }

  lemma ListActs(s: State, t: State, ids: seq<TaskId>, model: string, status: Status)
    requires Core(s) && t == s.(actors := t.actors)
    requires status == Pending || status == Running
    requires ids == [] || IsListing(s.views.db, model, status, ids)
    ensures forall job :: job in JobsOf(s, ids, status) ==> JobKnown(t, job)
  {
    forall job | job in JobsOf(s, ids, status) ensures JobKnown(t, job) {
      assert job.id in ids;
    }
  }

  lemma WaitActs(s: State, a: nat)
    requires Inv(s) && SweepEnabled(s, a, Wait)
    ensures var t := DoSweep(s, a, Wait); ActorOk(t, t.actors[a])
  {
    var t := DoSweep(s, a, Wait);
    var jobs := s.actors[a].jobs;
    assert ActorOk(s, s.actors[a]);
    forall job | job in Settle(s, jobs)
      ensures JobKnown(t, job) && JobScanned(t, job, 0, {}, true)
    {
      var i :| 0 <= i < |jobs| && job == Settle(s, jobs)[i];
      assert JobKnown(s, jobs[i]);
      assert Backs(t, job.id) == Backs(s, job.id);
    }
  }

  lemma ScanActs(s: State, a: nat, ok: bool, page: seq<QueueId>)
    requires Inv(s) && SweepEnabled(s, a, Scan(ok, page)) && s.actors[a].list < 3
    ensures var t := DoSweep(s, a, Scan(ok, page)); ActorOk(t, t.actors[a])
  {
    var t := DoSweep(s, a, Scan(ok, page));
    var SweepScanning(jobs, list, seen, whole) := s.actors[a];
    var SweepScanning(_, _, seen', whole') := t.actors[a];
    assert ActorOk(s, s.actors[a]);
    forall job | job in jobs
      ensures JobKnown(t, job) && JobScanned(t, job, list + 1, seen', whole')
    {
      assert JobKnown(s, job) && JobScanned(s, job, list, seen, whole);
      assert Backs(t, job.id) == Backs(s, job.id);
      if job.settled && whole' && Backs(t, job.id) == job.backs {
        forall q | Carries(t, q, job.id) && Live(t.queue[q].place)
          ensures q in seen' || Rank(t.queue[q].place) >= list + 1
        {
          assert Carries(s, q, job.id);
          assert q in OnList(s.queue, list) ==> q in page;
        }
      }
    }
  }

  lemma LastScanActs(s: State, a: nat, ok: bool, page: seq<QueueId>)
    requires Inv(s) && SweepEnabled(s, a, Scan(ok, page)) && s.actors[a].list >= 3
    ensures var t := DoSweep(s, a, Scan(ok, page)); ActorOk(t, t.actors[a])
  {
    var t := DoSweep(s, a, Scan(ok, page));
    var SweepScanning(jobs, list, seen, whole) := s.actors[a];
    var SweepChecking(jobs', seen') := t.actors[a];
    assert ActorOk(s, s.actors[a]);
    forall job | job in jobs'
      ensures JobKnown(t, job) && JobCovered(t, job, seen')
    {
      var i :| 0 <= i < |jobs| && job == jobs'[i];
      assert JobKnown(s, jobs[i]) && JobScanned(s, jobs[i], list, seen, whole);
      if job.covered {
        forall q | Carries(t, q, job.id) && Live(t.queue[q].place) ensures q in seen' {
          assert Carries(s, q, job.id);
          assert q in OnList(s.queue, list) ==> q in page;
        }
      }
    }
  }

  lemma SuspectIsSpent(s: State, job: Job, seen: set<QueueId>)
    requires Core(s) && JobKnown(s, job) && JobCovered(s, job, seen)
    requires job.covered && !Orphaned(s, job.id)
    requires job.id in s.views.cache && Suspect(s.views.cache[job.id], seen, job.status)
    ensures Spent(s, job.id)
  {
    forall q | Carries(s, q, job.id) ensures s.queue[q].place.InArchived? {
      if Live(s.queue[q].place) {
        assert false;
      }
    }
  }

  lemma GetActs(s: State, a: nat, ok: bool)
    requires Inv(s) && SweepEnabled(s, a, Get(ok))
    ensures var t := DoSweep(s, a, Get(ok)); ActorOk(t, t.actors[a])
  {
    var t := DoSweep(s, a, Get(ok));
    var SweepChecking(jobs, seen) := s.actors[a];
    assert ActorOk(s, s.actors[a]);
    assert JobKnown(s, jobs[0]) && JobCovered(s, jobs[0], seen);
    if t.actors[a].SweepFailing? && t.actors[a].sound {
      SuspectIsSpent(s, jobs[0], seen);
    }
    StillOk(s, t, SweepChecking(jobs[1..], seen));
    if t.actors[a].SweepFailing? && t.actors[a].sound {
      StillOk(s, t, CancelDeleted(jobs[0].id));
    }
  }

  lemma StillOk(s: State, t: State, x: Actor)
    requires Core(s) && t == s.(actors := t.actors) && ActorOk(s, x)
    ensures ActorOk(t, x)
  {
    UntouchedMeddles(s, t);
    MeddlingEvolves(s, t);
    ActorStays(s, t, x);
  }

  lemma SweepListActs(s: State, a: nat, w: SweepStep)
    requires Inv(s) && SweepEnabled(s, a, w) && (w.ListPending? || w.ListRunning?)
    ensures var t := DoSweep(s, a, w); ActorOk(t, t.actors[a])
  {
    var t := DoSweep(s, a, w);
    match w {
      case ListPending(model, ids) => ListActs(s, t, ids, model, Pending);
      case ListRunning(ids) =>
        assert ActorOk(s, s.actors[a]);
        ListActs(s, t, ids, s.actors[a].model, Running);
        StillOk(s, t, SweepWaiting(s.actors[a].jobs));
      case _ =>
    }
  }

  lemma SweepWriteActs(s: State, a: nat, w: SweepStep)
    requires Inv(s) && SweepEnabled(s, a, w) && (w.Fail? || w.Bury?)
    ensures var t := DoSweep(s, a, w); ActorOk(t, t.actors[a])
  {
    var t := DoSweep(s, a, w);
    assert ActorOk(s, s.actors[a]);
    SweepMeddles(s, a, w);
    MeddlingEvolves(s, t);
    JobsStay(s, t, s.actors[a].jobs, s.actors[a].seen);
  }

  lemma SweepActs(s: State, a: nat, w: SweepStep)
    requires Inv(s) && SweepEnabled(s, a, w)
    ensures var t := DoSweep(s, a, w); a in t.actors ==> ActorOk(t, t.actors[a])
  {
    match w {
      case ListPending(_, _) => SweepListActs(s, a, w);
      case ListRunning(_) => SweepListActs(s, a, w);
      case Wait => WaitActs(s, a);
      case Scan(ok, page) =>
        if s.actors[a].list < 3 {
          ScanActs(s, a, ok, page);
        } else {
          LastScanActs(s, a, ok, page);
        }
      case Get(ok) => GetActs(s, a, ok);
      case _ => SweepWriteActs(s, a, w);
    }
  }

  lemma ArchiveListActs(s: State, a: nat, page: seq<QueueId>)
    requires Inv(s) && ArchiveEnabled(s, a, ArchiveList(page))
    ensures Items(s, Infos(s.queue, page))
  {
    forall item | item in Infos(s.queue, page) && item.payload.Some?
      ensures Quiet(s, item.payload.value)
    {
      var i :| 0 <= i < |page| && item == Infos(s.queue, page)[i];
      assert page[i] in page && page[i] in OnList(s.queue, 4);
      ArchivedIsQuiet(s, page[i]);
    }
  }

  lemma ArchiveActs(s: State, a: nat, v: ArchiveStep)
    requires Inv(s) && ArchiveEnabled(s, a, v)
    ensures var t := DoArchive(s, a, v); a in t.actors ==> ActorOk(t, t.actors[a])
  {
    var t := DoArchive(s, a, v);
    ArchiveMeddles(s, a, v);
    MeddlingEvolves(s, t);
    if v.ArchiveList? {
      ArchiveListActs(s, a, v.page);
    } else {
      assert ActorOk(s, s.actors[a]);
    }
    ItemsStay(s, t, t.actors[a].items);
  }

  lemma ArchivedIsQuiet(s: State, q: QueueId)
    requires Core(s) && q in s.queue && s.queue[q].place.InArchived?
    ensures s.queue[q].payload.Some? && Quiet(s, s.queue[q].payload.value)
  {
    assert EntryOk(s, q);
  }

  lemma BulkActs(s: State, a: nat, b: BulkStep)
    requires BulkEnabled(s, a, b)
    ensures var t := DoBulk(s, a, b); a in t.actors ==> ActorOk(t, t.actors[a])
  {
  }

  lemma ShutActs(s: State, a: nat, z: ShutStep)
    requires ShutEnabled(s, a, z)
    ensures var t := DoShut(s, a, z); a in t.actors ==> ActorOk(t, t.actors[a])
  {
  }

  lemma ActorActs(s: State, a: nat, x: ActorStep)
    requires Inv(s) && ActorEnabled(s, a, x)
    ensures var t := DoActor(s, a, x); a in t.actors ==> ActorOk(t, t.actors[a])
  {
    match x {
      case Cancel(c) => CancelActs(s, a, c);
      case BulkDeletion(b) => BulkActs(s, a, b);
      case Sweep(w) => SweepActs(s, a, w);
      case Archive(v) => ArchiveActs(s, a, v);
      case Shutdown(z) => ShutActs(s, a, z);
      case Crash =>
    }
  }

  ghost predicate OnlyActor(s: State, t: State, a: nat) {
    forall b :: b != a ==> (b in t.actors <==> b in s.actors) && (b in s.actors ==> t.actors[b] == s.actors[b])
  }

  lemma SweepFrame(s: State, a: nat, w: SweepStep)
    requires SweepEnabled(s, a, w)
    ensures OnlyActor(s, DoSweep(s, a, w), a)
  {
  }

  lemma ArchiveFrame(s: State, a: nat, v: ArchiveStep)
    requires ArchiveEnabled(s, a, v)
    ensures OnlyActor(s, DoArchive(s, a, v), a)
  {
  }

  lemma ShutFrame(s: State, a: nat, z: ShutStep)
    requires ShutEnabled(s, a, z)
    ensures OnlyActor(s, DoShut(s, a, z), a)
  {
  }

  lemma ActorFrame(s: State, a: nat, x: ActorStep)
    requires ActorEnabled(s, a, x)
    ensures OnlyActor(s, DoActor(s, a, x), a)
  {
    match x {
      case Sweep(w) => SweepFrame(s, a, w);
      case Archive(v) => ArchiveFrame(s, a, v);
      case Shutdown(z) => ShutFrame(s, a, z);
      case _ =>
    }
  }

  /** An actor's step leaves the other actors' program counters alone, every other step leaves all. */
  lemma OthersStand(s: State, t: Step, b: nat)
    requires Enabled(s, t)
    requires t.OfActor? ==> t.a != b
    ensures b in Do(s, t).actors <==> b in s.actors
    ensures b in s.actors ==> Do(s, t).actors[b] == s.actors[b]
  {
    match t {
      case OfActor(a, x) =>
        ActorFrame(s, a, x);
      case OfHandler(id, h) => HandlerFrame(s, id, h);
      case OfQueue(q, w) => QueueFrame(s, q, w);
      case Expiry(_) =>
    }
  }

  lemma HandlerFrame(s: State, id: TaskId, h: HandlerStep)
    requires HandlerEnabled(s, id, h)
    ensures DoHandler(s, id, h).actors == s.actors
  {
  }

  lemma QueueFrame(s: State, q: QueueId, w: QueueStep)
    requires QueueEnabled(s, q, w)
    ensures DoQueue(s, q, w).actors == s.actors
  {
  }

  /** A handler's step leaves the other handlers where they are. */
  lemma OtherHandlersStay(s: State, id: TaskId, h: HandlerStep)
    requires HandlerEnabled(s, id, h)
    ensures var t := DoHandler(s, id, h);
            forall i :: i in t.handlers && i != id ==> i in s.handlers && t.handlers[i] == s.handlers[i]
  {
  }

  /** A step on an entry leaves the other entries as they are. */
  lemma OtherEntriesStay(s: State, q: QueueId, w: QueueStep)
    requires QueueEnabled(s, q, w)
    ensures var t := DoQueue(s, q, w);
            && t.handlers == s.handlers
            && (w.Return? ==> q !in t.queue)
            && (forall p :: p in t.queue && p != q ==> p in s.queue && t.queue[p] == s.queue[p])
  {
  }

  /** Queue ids are not used twice, and archived entries stay as they are until they go. */
  lemma StepKeepsIds(s: State, t: Step)
    requires Core(s) && Enabled(s, t)
    ensures Do(s, t).nextQueue >= s.nextQueue
    ensures forall q :: q in Do(s, t).queue && q !in s.queue ==> q >= s.nextQueue
    ensures forall q :: q in Do(s, t).queue && q in s.queue && s.queue[q].place.InArchived? ==>
              Do(s, t).queue[q] == s.queue[q]
  {
    match t {
      case OfHandler(id, h) => HandlerKeepsIds(s, id, h);
      case OfQueue(q, w) => OtherEntriesStay(s, q, w);
      case OfActor(a, x) => ActorMeddles(s, a, x);
      case Expiry(_) =>
    }
  }

  lemma HandlerKeepsIds(s: State, id: TaskId, h: HandlerStep)
    requires HandlerEnabled(s, id, h)
    ensures DoHandler(s, id, h).nextQueue >= s.nextQueue
    ensures forall q :: q in DoHandler(s, id, h).queue && q !in s.queue ==> q == s.nextQueue
    ensures forall q :: q in DoHandler(s, id, h).queue && q in s.queue && s.queue[q].place.InArchived? ==>
              DoHandler(s, id, h).queue[q] == s.queue[q] || q == s.nextQueue
  {
  }

  lemma StepKeepsInv(s: State, t: Step)
    requires Inv(s) && Enabled(s, t)
    ensures Inv(Do(s, t))
  {
    var s' := Do(s, t);
    StepKeepsCore(s, t);
    StepEvolves(s, t);
    forall b | b in s'.actors ensures ActorOk(s', s'.actors[b]) {
      if t.OfActor? && t.a == b {
        ActorActs(s, t.a, t.x);
      } else {
        OthersStand(s, t, b);
        ActorStays(s, s', s.actors[b]);
      }
    }
  }

  lemma {:induction false} RunKeepsInv(s: State, ts: seq<Step>)
    requires Inv(s) && Legal(s, ts)
    ensures Inv(Run(s, ts))
    decreases |ts|
  {
    if ts != [] {
      StepKeepsInv(s, ts[0]);
      RunKeepsInv(Do(s, ts[0]), ts[1..]);
    }
  }

  /** Runs compose. */
  lemma {:induction false} RunSplit(s: State, ts: seq<Step>, us: seq<Step>)
    ensures Legal(s, ts + us) <==> Legal(s, ts) && Legal(Run(s, ts), us)
    ensures Legal(s, ts + us) ==> Run(s, ts + us) == Run(Run(s, ts), us)
    decreases |ts|
  {
    if ts == [] {
      assert ts + us == us;
    } else {
      assert (ts + us)[1..] == ts[1..] + us;
      if Enabled(s, ts[0]) {
        RunSplit(Do(s, ts[0]), ts[1..], us);
      }
    }
  }

  lemma RunOf1(s: State, t: Step)
    requires Enabled(s, t)
    ensures Legal(s, [t]) && Run(s, [t]) == Do(s, t)
  {
    assert [t][1..] == [];
    assert Run(Do(s, t), []) == Do(s, t);
  }

  /** None of the steps is this actor's. */
  predicate StepsOfOthers(us: seq<Step>, a: nat) {
    forall t: Step :: t in us && t.OfActor? ==> t.a != a
  }

  /** While only others move, an actor stays where it is. */
  lemma {:induction false} ActorWaits(s: State, us: seq<Step>, a: nat)
    requires Legal(s, us) && StepsOfOthers(us, a) && a in s.actors
    ensures a in Run(s, us).actors && Run(s, us).actors[a] == s.actors[a]
    decreases |us|
  {
    if us != [] {
      assert us[0] in us;
      OthersStand(s, us[0], a);
      ActorWaits(Do(s, us[0]), us[1..], a);
    }
  }

  lemma LimitStays(s: State, t: Step)
    requires Enabled(s, t)
    ensures Do(s, t).limit == s.limit
  {
    match t {
      case OfHandler(id, h) =>
      case OfQueue(q, w) =>
      case OfActor(a, x) => ActorMeddles(s, a, x);
      case Expiry(_) =>
    }
  }

  lemma {:induction false} LimitAlong(s: State, ts: seq<Step>)
    requires Legal(s, ts)
    ensures Run(s, ts).limit == s.limit
    decreases |ts|
  {
    if ts != [] {
      LimitStays(s, ts[0]);
      LimitAlong(Do(s, ts[0]), ts[1..]);
    }
  }

  // ---------- one live entry, one writer ----------

  /**
   In every state of every run an entry's task has a record, and two entries never carry the same
   task.  Since an entry has at most one worker, a record has at most one worker too.
   */
  lemma OneEntryPerTask(limit: nat, ts: seq<Step>, p: QueueId, q: QueueId)
    requires Legal(Init(limit), ts)
    ensures var s := Run(Init(limit), ts);
            && (p in s.queue ==> s.queue[p].payload.Some? && s.queue[p].payload.value in s.views.db)
            && (p in s.queue && q in s.queue && s.queue[p].payload == s.queue[q].payload ==> p == q)
  {
    RunKeepsInv(Init(limit), ts);
    var s := Run(Init(limit), ts);
    assert p in s.queue ==> EntryOk(s, p);
  }

  /** A record that names an entry names the one that carries its task, and no other does. */
  lemma LinkNamesItsEntry(limit: nat, ts: seq<Step>, id: TaskId, q: QueueId)
    requires Legal(Init(limit), ts)
    ensures var s := Run(Init(limit), ts);
            id in s.views.cache && s.views.cache[id].queueId.Some? && q in s.queue ==>
              (q == s.views.cache[id].queueId.value <==> Carries(s, q, id))
  {
    RunKeepsInv(Init(limit), ts);
    var s := Run(Init(limit), ts);
    if id in s.views.cache && q in s.queue {
      assert TaskOk(s, id) && EntryOk(s, q);
    }
  }

}
