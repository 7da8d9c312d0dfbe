/**
 The methods and the protocol speak of the same steps: what an uninterrupted sweep, cancel, bulk
 deletion, submission, synchronous prediction or worker's attempt does to the stores is what a run of
 its protocol steps does, and the run makes the same calls, with the same answers, in the same order.
 */
module Bridge {

  import opened Wrappers
  import opened Sequences
  import opened Records
  import opened Queues
  import opened Protocol
  import opened Invariant
  import opened Reachable
  import opened Journals
  import opened Tracing
  import opened Admission
  import opened Passes
  import opened Housekeeping
  import Handlers
  import Requests
  import Sweepers
  import opened Services

  predicate StepsOf(ts: seq<Step>, a: nat) {
    forall t: Step :: t in ts ==> t.OfActor? && t.a == a
  }

  predicate WorkOn(ts: seq<Step>, q: QueueId) {
    forall t: Step :: t in ts ==> t.OfQueue? && t.q == q
  }

  /** Some run of steps of one actor leads from one state to the other, making the calls from one log to the other. */
  ghost predicate ActorRuns(s: State, t: State, a: nat, log: Log, made: Log) {
    exists ts :: Legal(s, ts) && Run(s, ts) == t && StepsOf(ts, a) && Trace(log, s, ts) == made
  }

  lemma StandStill(s: State, a: nat, log: Log)
    ensures ActorRuns(s, s, a, log, log)
  {
    assert Legal(s, []) && Run(s, []) == s && Trace(log, s, []) == log;
  }

  lemma OneMore(s: State, t: State, a: nat, x: ActorStep, log: Log, made: Log)
    requires ActorRuns(s, t, a, log, made) && ActorEnabled(t, a, x)
    ensures ActorRuns(s, DoActor(t, a, x), a, log, ActorLog(made, t, a, x))
  {
    var ts :| Legal(s, ts) && Run(s, ts) == t && StepsOf(ts, a) && Trace(log, s, ts) == made;
    RunOf1(t, OfActor(a, x));
    TraceOf1(made, t, OfActor(a, x));
    RunSplit(s, ts, [OfActor(a, x)]);
    TraceSplit(log, s, ts, [OfActor(a, x)]);
  }

  lemma RunsOn(s: State, t: State, u: State, a: nat, log: Log, between: Log, made: Log)
    requires ActorRuns(s, t, a, log, between) && ActorRuns(t, u, a, between, made)
    ensures ActorRuns(s, u, a, log, made)
  {
    var ts :| Legal(s, ts) && Run(s, ts) == t && StepsOf(ts, a) && Trace(log, s, ts) == between;
    var us :| Legal(t, us) && Run(t, us) == u && StepsOf(us, a) && Trace(between, t, us) == made;
    RunSplit(s, ts, us);
    TraceSplit(log, s, ts, us);
  }

  /** The state with new stores and the actor moved on. */
  function With(s: State, st: Stores, a: nat, x: Actor): State {
    s.(views := st.views, queue := st.queue, actors := s.actors[a := x])
  }

  lemma WithTwice(s: State, st: Stores, a: nat, x: Actor, st': Stores, y: Actor)
    ensures With(With(s, st, a, x), st', a, y) == With(s, st', a, y)
  {
  }

  lemma BecomeTwice(s: State, a: nat, x: Actor, y: Actor)
    ensures Become(Become(s, a, x), a, y) == Become(s, a, y)
  {
  }

  lemma BecomeThenWith(s: State, a: nat, x: Actor, st: Stores, y: Actor)
    ensures With(Become(s, a, x), st, a, y) == With(s, st, a, y)
  {
  }

  // ---------- the status sweep ----------

  /** Reading one record. */
  lemma GetIsRun(s: State, a: nat, jobs: seq<Job>, seen: set<QueueId>, ok: bool, log: Log)
    requires a in s.actors && s.actors[a] == SweepChecking(jobs, seen) && jobs != []
    ensures var job, rest := jobs[0], jobs[1..];
            var got := ok && job.id in s.views.cache;
            var x := if !got then SweepBurying(job, rest, seen)
                     else if Suspect(s.views.cache[job.id], seen, job.status) then
                       SweepFailing(job, job.covered && !Orphaned(s, job.id), rest, seen)
                     else SweepChecking(rest, seen);
            ActorRuns(s, Become(s, a, x), a, log, Then(log, ReadRecord(job.id, got)))
  {
    StandStill(s, a, log);
    OneMore(s, s, a, Sweep(Get(ok)), log, log);
  }

  lemma BuryIsRun(s: State, a: nat, ok: bool, log: Log)
    requires a in s.actors && s.actors[a].SweepBurying?
    ensures var SweepBurying(job, jobs, seen) := s.actors[a];
            var v := if ok then PutDb(s.views, job.id, MarkFailed("Unknown failure")) else s.views;
            ActorRuns(s, With(s, Stores(v, s.queue), a, SweepChecking(jobs, seen)), a,
                      log, Then(log, WriteDatabase(job.id, MarkFailed("Unknown failure"), ok)))
  {
    StandStill(s, a, log);
    OneMore(s, s, a, Sweep(Bury(ok)), log, log);
    var SweepBurying(job, jobs, seen) := s.actors[a];
    var v := if ok then PutDb(s.views, job.id, MarkFailed("Unknown failure")) else s.views;
    assert DoSweep(s, a, Bury(ok)) == With(s, Stores(v, s.queue), a, SweepChecking(jobs, seen));
  }

  lemma FailIsRun(s: State, a: nat, ok: bool, log: Log)
    requires a in s.actors && s.actors[a].SweepFailing? && s.actors[a].job.id in s.views.cache
    ensures var SweepFailing(job, _, jobs, seen) := s.actors[a];
            var v := Updated(s.views, ok, job.id, MarkFailed("Unknown failure"));
            ActorRuns(s, With(s, Stores(v, s.queue), a, SweepChecking(jobs, seen)), a,
                      log, Then(log, WriteRecord(job.id, MarkFailed("Unknown failure"), ok)))
  {
    StandStill(s, a, log);
    OneMore(s, s, a, Sweep(Fail(ok)), log, log);
    var SweepFailing(job, _, jobs, seen) := s.actors[a];
    var v := Updated(s.views, ok, job.id, MarkFailed("Unknown failure"));
    assert DoSweep(s, a, Fail(ok)) == With(s, Stores(v, s.queue), a, SweepChecking(jobs, seen));
  }

  lemma CheckOneIsRun(s: State, a: nat, jobs: seq<Job>, seen: set<QueueId>, o: Outcome, log: Log)
    requires a in s.actors && s.actors[a] == SweepChecking(jobs, seen) && jobs != []
    ensures var v := CheckOne(s.views, seen, jobs[0].id, jobs[0].status, o).0;
            ActorRuns(s, With(s, Stores(v, s.queue), a, SweepChecking(jobs[1..], seen)), a,
                      log, CheckOneLog(log, s.views, seen, jobs[0].id, jobs[0].status, o))
  {
    var job, rest := jobs[0], jobs[1..];
    var got := o.first && job.id in s.views.cache;
    var read, made := Then(log, ReadRecord(job.id, got)), CheckOneLog(log, s.views, seen, job.id, job.status, o);
    GetIsRun(s, a, jobs, seen, o.first, log);
    var v := CheckOne(s.views, seen, job.id, job.status, o).0;
    var t := With(s, Stores(v, s.queue), a, SweepChecking(rest, seen));
    if !got {
      var x := SweepBurying(job, rest, seen);
      var s1 := Become(s, a, x);
      BuryIsRun(s1, a, o.second, read);
      BecomeThenWith(s, a, x, Stores(v, s.queue), SweepChecking(rest, seen));
      RunsOn(s, s1, t, a, log, read, made);
    } else if Suspect(s.views.cache[job.id], seen, job.status) {
      var x := SweepFailing(job, job.covered && !Orphaned(s, job.id), rest, seen);
      var s1 := Become(s, a, x);
      FailIsRun(s1, a, o.second, read);
      BecomeThenWith(s, a, x, Stores(v, s.queue), SweepChecking(rest, seen));
      RunsOn(s, s1, t, a, log, read, made);
    } else {
      assert Become(s, a, SweepChecking(rest, seen)) == t;
    }
  }

  /** The first jobs of a sweep are these tasks under this status. */
  predicate JobsFor(jobs: seq<Job>, ids: seq<TaskId>, status: Status) {
    |ids| <= |jobs| && forall i :: 0 <= i < |ids| ==> jobs[i].id == ids[i] && jobs[i].status == status
  }

  /** The loop over listed tasks, run without interruption, is a run of the sweep's steps. */
  lemma {:induction false} CheckAllIsRun(s: State, a: nat, jobs: seq<Job>, seen: set<QueueId>, ids: seq<TaskId>,
                                         status: Status, os: seq<Outcome>, log: Log)
    requires a in s.actors && s.actors[a] == SweepChecking(jobs, seen)
    requires JobsFor(jobs, ids, status) && |os| == |ids|
    ensures var v := CheckAll(s.views, seen, ids, status, os).0;
            ActorRuns(s, With(s, Stores(v, s.queue), a, SweepChecking(jobs[|ids|..], seen)), a,
                      log, CheckAllLog(log, s.views, seen, ids, status, os))
    decreases |ids|
  {
    if ids == [] {
      assert jobs[0..] == jobs;
      StandStill(s, a, log);
      assert With(s, Stores(s.views, s.queue), a, SweepChecking(jobs, seen)) == s;
    } else {
      var front := Front(ids);
      CheckAllIsRun(s, a, jobs, seen, front, status, Front(os), log);
      var between := CheckAllLog(log, s.views, seen, front, status, Front(os));
      var v1 := CheckAll(s.views, seen, front, status, Front(os)).0;
      var rest := jobs[|front|..];
      var s1 := With(s, Stores(v1, s.queue), a, SweepChecking(rest, seen));
      CheckOneIsRun(s1, a, rest, seen, Last(os), between);
      var v2 := CheckOne(v1, seen, rest[0].id, rest[0].status, Last(os)).0;
      assert rest[1..] == jobs[|ids|..];
      var x, y := SweepChecking(rest, seen), SweepChecking(rest[1..], seen);
      WithTwice(s, Stores(v1, s.queue), a, x, Stores(v2, s.queue), y);
      RunsOn(s, s1, With(s, Stores(v2, s.queue), a, SweepChecking(rest[1..], seen)), a,
             log, between, CheckAllLog(log, s.views, seen, ids, status, os));
    }
  }

  function ScanOf(x: Scanned): SweepStep {
    if x.Page? then Scan(true, x.page) else Scan(false, [])
  }

  lemma {:induction false} ScansAreRun(s: State, a: nat, jobs: seq<Job>, xs: seq<Scanned>, n: nat, log: Log)
    requires a in s.actors && s.actors[a] == SweepScanning(jobs, 0, {}, true)
    requires FourAnswers(s.queue, s.limit, xs) && n < 4
    ensures exists whole ::
              ActorRuns(s, Become(s, a, SweepScanning(jobs, n, SeenIn(xs, n), whole)), a, log, ScanLog(log, xs, n))
    decreases n
  {
    if n == 0 {
      StandStill(s, a, log);
      assert Become(s, a, SweepScanning(jobs, 0, SeenIn(xs, 0), true)) == s;
    } else {
      ScansAreRun(s, a, jobs, xs, n - 1, log);
      var made := ScanLog(log, xs, n - 1);
      var whole :|
        ActorRuns(s, Become(s, a, SweepScanning(jobs, n - 1, SeenIn(xs, n - 1), whole)), a, log, made);
      var x := SweepScanning(jobs, n - 1, SeenIn(xs, n - 1), whole);
      var s1 := Become(s, a, x);
      var whole' := OneScan(s1, a, xs[n - 1], made);
      var y := SweepScanning(jobs, n, SeenIn(xs, n), whole');
      var s2 := Become(s, a, y);
      BecomeTwice(s, a, x, y);
      RunsOn(s, s1, s2, a, log, made, ScanLog(log, xs, n));
    }
  }

  lemma OneScan(s: State, a: nat, x: Scanned, log: Log) returns (whole: bool)
    requires a in s.actors && s.actors[a].SweepScanning? && s.actors[a].list < 3
    requires x.Page? ==> IsPage(s.queue, s.actors[a].list, s.limit, x.page)
    ensures var SweepScanning(jobs, list, seen, _) := s.actors[a];
            ActorRuns(s, Become(s, a, SweepScanning(jobs, list + 1, seen + Found(x), whole)), a,
                      log, Then(log, ScanCall(list, x)))
  {
    whole := DoSweep(s, a, ScanOf(x)).actors[a].whole;
    assert s.actors[a].seen + {} == s.actors[a].seen;
    StandStill(s, a, log);
    OneMore(s, s, a, Sweep(ScanOf(x)), log, log);
  }

  /** What a listing by status is answered with: all of it, or nothing. */
  ghost predicate Answers(db: map<TaskId, Record>, model: string, status: Status, ids: seq<TaskId>) {
    ids == [] || IsListing(db, model, status, ids)
  }

  lemma ListPendingIsRun(s: State, a: nat, model: string, ids: seq<TaskId>, log: Log)
    requires a !in s.actors && model != "" && Answers(s.views.db, model, Pending, ids)
    ensures ActorRuns(s, Become(s, a, SweepListed(model, JobsOf(s, ids, Pending))), a,
                      log, Then(log, ListRecords(model, Pending, ids)))
  {
    StandStill(s, a, log);
    OneMore(s, s, a, Sweep(ListPending(model, ids)), log, log);
  }

  lemma ListRunningIsRun(s: State, a: nat, model: string, jobs: seq<Job>, ids: seq<TaskId>, log: Log)
    requires a in s.actors && s.actors[a] == SweepListed(model, jobs) && Answers(s.views.db, model, Running, ids)
    ensures ActorRuns(s, Become(s, a, SweepWaiting(jobs + JobsOf(s, ids, Running))), a,
                      log, Then(log, ListRecords(model, Running, ids)))
  {
    StandStill(s, a, log);
    OneMore(s, s, a, Sweep(ListRunning(ids)), log, log);
  }

  /** The wait is no call when nothing was listed. */
  lemma WaitIsRun(s: State, a: nat, jobs: seq<Job>, log: Log)
    requires a in s.actors && s.actors[a] == SweepWaiting(jobs)
    ensures ActorRuns(s, Become(s, a, SweepScanning(Settle(s, jobs), 0, {}, true)), a,
                      log, if jobs == [] then log else Then(log, Pause))
  {
    StandStill(s, a, log);
    OneMore(s, s, a, Sweep(Wait), log, log);
  }

  /** The calls of both listings. */
  function ListedLog(log: Log, model: string, pending: seq<TaskId>, running: seq<TaskId>): Log {
    Then(Then(log, ListRecords(model, Pending, pending)), ListRecords(model, Running, running))
  }

  /** Both listings without interruption. */
  lemma ListingsAreRun(s: State, a: nat, model: string, pending: seq<TaskId>, running: seq<TaskId>, log: Log)
    returns (jobs: seq<Job>)
    requires a !in s.actors && model != ""
    requires Answers(s.views.db, model, Pending, pending) && Answers(s.views.db, model, Running, running)
    ensures jobs == JobsOf(s, pending, Pending) + JobsOf(s, running, Running)
    ensures ActorRuns(s, Become(s, a, SweepWaiting(jobs)), a, log, ListedLog(log, model, pending, running))
  {
    ListPendingIsRun(s, a, model, pending, log);
    var first, made := JobsOf(s, pending, Pending), Then(log, ListRecords(model, Pending, pending));
    var s1 := Become(s, a, SweepListed(model, first));
    ListRunningIsRun(s1, a, model, first, running, made);
    jobs := first + JobsOf(s, running, Running);
    assert JobsOf(s1, running, Running) == JobsOf(s, running, Running);
    BecomeTwice(s, a, SweepListed(model, first), SweepWaiting(jobs));
    RunsOn(s, s1, Become(s, a, SweepWaiting(jobs)), a, log, made, ListedLog(log, model, pending, running));
  }

  /** The calls of both listings and of the wait. */
  function ListAndWaitLog(log: Log, model: string, pending: seq<TaskId>, running: seq<TaskId>): Log {
    var listed := ListedLog(log, model, pending, running);
    if pending == [] && running == [] then listed else Then(listed, Pause)
  }

  /** Listing and waiting without interruption. */
  lemma ListAndWaitIsRun(s: State, a: nat, model: string, pending: seq<TaskId>, running: seq<TaskId>, log: Log)
    returns (jobs: seq<Job>)
    requires a !in s.actors && model != ""
    requires Answers(s.views.db, model, Pending, pending) && Answers(s.views.db, model, Running, running)
    ensures JobsFor(jobs, pending, Pending) && |jobs| == |pending| + |running|
    ensures JobsFor(jobs[|pending|..], running, Running)
    ensures ActorRuns(s, Become(s, a, SweepScanning(jobs, 0, {}, true)), a,
                      log, ListAndWaitLog(log, model, pending, running))
  {
    var listed := ListingsAreRun(s, a, model, pending, running, log);
    var s1, made := Become(s, a, SweepWaiting(listed)), ListedLog(log, model, pending, running);
    WaitIsRun(s1, a, listed, made);
    jobs := Settle(s1, listed);
    var s2 := Become(s, a, SweepScanning(jobs, 0, {}, true));
    BecomeTwice(s, a, SweepWaiting(listed), SweepScanning(jobs, 0, {}, true));
    assert listed == [] <==> pending == [] && running == [];
    RunsOn(s, s1, s2, a, log, made, ListAndWaitLog(log, model, pending, running));
  }

  lemma FinalScan(s: State, a: nat, x: Scanned, log: Log) returns (jobs': seq<Job>)
    requires a in s.actors && s.actors[a].SweepScanning? && s.actors[a].list == 3
    requires x.Page? ==> IsPage(s.queue, 3, s.limit, x.page)
    ensures var SweepScanning(jobs, _, seen, _) := s.actors[a];
            && |jobs'| == |jobs|
            && (forall i :: 0 <= i < |jobs| ==> jobs'[i].id == jobs[i].id && jobs'[i].status == jobs[i].status)
            && ActorRuns(s, Become(s, a, SweepChecking(jobs', seen + Found(x))), a, log, Then(log, ScanCall(3, x)))
  {
    jobs' := DoSweep(s, a, ScanOf(x)).actors[a].jobs;
    assert s.actors[a].seen + {} == s.actors[a].seen;
    StandStill(s, a, log);
    OneMore(s, s, a, Sweep(ScanOf(x)), log, log);
  }

  /** The four list calls without interruption. */
  lemma FourScansAreRun(s: State, a: nat, jobs: seq<Job>, xs: seq<Scanned>, log: Log) returns (jobs': seq<Job>)
    requires a in s.actors && s.actors[a] == SweepScanning(jobs, 0, {}, true) && FourAnswers(s.queue, s.limit, xs)
    ensures |jobs'| == |jobs|
    ensures forall i :: 0 <= i < |jobs| ==> jobs'[i].id == jobs[i].id && jobs'[i].status == jobs[i].status
    ensures ActorRuns(s, Become(s, a, SweepChecking(jobs', SeenIn(xs, 4))), a, log, ScanLog(log, xs, 4))
  {
    ScansAreRun(s, a, jobs, xs, 3, log);
    var made := ScanLog(log, xs, 3);
    var whole :| ActorRuns(s, Become(s, a, SweepScanning(jobs, 3, SeenIn(xs, 3), whole)), a, log, made);
    var x := SweepScanning(jobs, 3, SeenIn(xs, 3), whole);
    var s1 := Become(s, a, x);
    jobs' := FinalScan(s1, a, xs[3], made);
    var s2 := Become(s, a, SweepChecking(jobs', SeenIn(xs, 4)));
    BecomeTwice(s, a, x, SweepChecking(jobs', SeenIn(xs, 4)));
    RunsOn(s, s1, s2, a, log, made, ScanLog(log, xs, 4));
  }

  /** Listing, waiting and the four list calls without interruption. */
  lemma PrepareIsRun(s: State, a: nat, model: string, pending: seq<TaskId>, running: seq<TaskId>, xs: seq<Scanned>,
                     log: Log)
    returns (jobs: seq<Job>)
    requires a !in s.actors && model != "" && FourAnswers(s.queue, s.limit, xs)
    requires Answers(s.views.db, model, Pending, pending) && Answers(s.views.db, model, Running, running)
    ensures JobsFor(jobs, pending, Pending) && |jobs| == |pending| + |running|
    ensures JobsFor(jobs[|pending|..], running, Running)
    ensures ActorRuns(s, Become(s, a, SweepChecking(jobs, SeenIn(xs, 4))), a,
                      log, ListLog(log, model, xs, pending, running))
  {
    var js := ListAndWaitIsRun(s, a, model, pending, running, log);
    var s1, waited := Become(s, a, SweepScanning(js, 0, {}, true)), ListAndWaitLog(log, model, pending, running);
    jobs := FourScansAreRun(s1, a, js, xs, waited);
    forall i | 0 <= i < |running|
      ensures jobs[|pending|..][i].id == running[i] && jobs[|pending|..][i].status == Running
    {
      assert jobs[|pending|..][i] == jobs[|pending| + i] && js[|pending|..][i] == js[|pending| + i];
    }
    var s2 := Become(s, a, SweepChecking(jobs, SeenIn(xs, 4)));
    BecomeTwice(s, a, SweepScanning(js, 0, {}, true), SweepChecking(jobs, SeenIn(xs, 4)));
    RunsOn(s, s1, s2, a, log, waited, ListLog(log, model, xs, pending, running));
  }

  /**
   A whole status sweep without interruption, whatever its calls are answered with, is a run, and
   leaves the records as `SweepAll` says; and the run makes exactly the calls of `SweepLog`, in that order.
   */
  lemma StatusSweepIsRun(s: State, a: nat, model: string, pending: seq<TaskId>, running: seq<TaskId>,
                         xs: seq<Scanned>, os: seq<Outcome>, ps: seq<Outcome>, log: Log)
    requires a !in s.actors && model != "" && FourAnswers(s.queue, s.limit, xs)
    requires Answers(s.views.db, model, Pending, pending) && Answers(s.views.db, model, Running, running)
    requires |os| == |pending| && |ps| == |running|
    ensures var seen := SeenIn(xs, 4);
            var v := SweepAll(s.views, seen, pending, running, os, ps).0;
            ActorRuns(s, With(s, Stores(v, s.queue), a, SweepChecking([], seen)), a,
                      log, SweepLog(log, s.views, model, xs, pending, running, os, ps))
  {
    var seen := SeenIn(xs, 4);
    var jobs := PrepareIsRun(s, a, model, pending, running, xs, log);
    var s1, listed := Become(s, a, SweepChecking(jobs, seen)), ListLog(log, model, xs, pending, running);
    ChecksAreRun(s1, a, jobs, seen, pending, running, os, ps, listed);
    var v := SweepAll(s.views, seen, pending, running, os, ps).0;
    var s2 := With(s, Stores(v, s.queue), a, SweepChecking([], seen));
    BecomeThenWith(s, a, SweepChecking(jobs, seen), Stores(v, s.queue), SweepChecking([], seen));
    RunsOn(s, s1, s2, a, log, listed, SweepLog(log, s.views, model, xs, pending, running, os, ps));
  }

  /** Every execution of the sweep's method is a run of the protocol, call by call, that leaves the same records. */
  method CheckAsRun(s: State, a: nat, modelName: string, distributor: Distributor, webhook: Webhook)
    returns (numFailedTasks: nat, ghost seen: set<QueueId>)
    requires webhook.views == s.views && distributor.queue == s.queue && distributor.limit == s.limit
    requires a !in s.actors && modelName != "" && distributor.journal == webhook.journal
    modifies webhook`views, webhook.journal
    ensures ActorRuns(s, With(s, Stores(webhook.views, distributor.queue), a, SweepChecking([], seen)), a,
                      old(webhook.journal.log), webhook.journal.log)
  {
    ghost var log := webhook.journal.log;
    ghost var pending, running, xs, os, ps;
    numFailedTasks, pending, running, xs, os, ps := Sweepers.CheckTaskStatus(modelName, distributor, webhook);
    seen := SeenIn(xs, 4);
    StatusSweepIsRun(s, a, modelName, pending, running, xs, os, ps, log);
  }

  /** Both loops over listed tasks without interruption. */
  lemma ChecksAreRun(s: State, a: nat, jobs: seq<Job>, seen: set<QueueId>, pending: seq<TaskId>, running: seq<TaskId>,
                     os: seq<Outcome>, ps: seq<Outcome>, log: Log)
    requires a in s.actors && s.actors[a] == SweepChecking(jobs, seen)
    requires JobsFor(jobs, pending, Pending) && |jobs| == |pending| + |running|
    requires JobsFor(jobs[|pending|..], running, Running)
    requires |os| == |pending| && |ps| == |running|
    ensures var v := SweepAll(s.views, seen, pending, running, os, ps).0;
            ActorRuns(s, With(s, Stores(v, s.queue), a, SweepChecking([], seen)), a,
                      log, CheckBothLog(log, s.views, seen, pending, running, os, ps))
  {
    CheckAllIsRun(s, a, jobs, seen, pending, Pending, os, log);
    var between := CheckAllLog(log, s.views, seen, pending, Pending, os);
    var v1 := CheckAll(s.views, seen, pending, Pending, os).0;
    var rest := jobs[|pending|..];
    var s1 := With(s, Stores(v1, s.queue), a, SweepChecking(rest, seen));
    CheckAllIsRun(s1, a, rest, seen, running, Running, ps, between);
    var v2 := CheckAll(v1, seen, running, Running, ps).0;
    assert rest[|running|..] == [];
    WithTwice(s, Stores(v1, s.queue), a, SweepChecking(rest, seen), Stores(v2, s.queue), SweepChecking([], seen));
    RunsOn(s, s1, With(s, Stores(v2, s.queue), a, SweepChecking([], seen)), a,
           log, between, CheckBothLog(log, s.views, seen, pending, running, os, ps));
  }

  // ---------- the other sweeps ----------

  /** The sweep takes no action for an item that does not parse, or that failed lately and cannot be marked. */
  predicate Skipped(v: Views, item: TaskInfo, ok: bool, now: int) {
    item.payload.None? || (!(ok && Accepts(v, item.payload.value)) && now < item.failedAt + TWELVE_HOURS)
  }

  lemma ArchiveSkips(s: State, a: nat, items: seq<TaskInfo>, o: Outcome, now: int)
    requires a in s.actors && s.actors[a] == Archiving(items) && items != [] && Skipped(s.views, items[0], o.first, now)
    ensures DoArchive(s, a, ArchiveMark(o.first, now)) ==
            With(s, ArchiveOne(Stores(s.views, s.queue), items[0], o, now), a, Archiving(items[1..]))
  {
  }

  /** The records after an item was marked. */
  function Marked(v: Views, item: TaskInfo, ok: bool): Views
    requires item.payload.Some?
  {
    Updated(v, ok, item.payload.value, MarkFailed("failed due to system errors"))
  }

  function Deleting(v: Views, items: seq<TaskInfo>, ok: bool, now: int): Actor
    requires items != [] && items[0].payload.Some?
  {
    ArchiveDeleting(items[0], ok && Accepts(v, items[0].payload.value), now, items[1..])
  }

  lemma ArchiveMarks(s: State, a: nat, items: seq<TaskInfo>, ok: bool, now: int)
    requires a in s.actors && s.actors[a] == Archiving(items) && items != [] && !Skipped(s.views, items[0], ok, now)
    ensures DoArchive(s, a, ArchiveMark(ok, now)) ==
            With(s, Stores(Marked(s.views, items[0], ok), s.queue), a, Deleting(s.views, items, ok, now))
  {
  }

  lemma ArchiveDrops(s: State, a: nat, ok: bool)
    requires a in s.actors && s.actors[a].ArchiveDeleting?
    ensures var x := s.actors[a];
            DoArchive(s, a, ArchiveDelete(ok)) ==
            With(s, Stores(s.views, Deleted(s.queue, ok, x.item.q)), a, Archiving(x.items))
  {
  }

  lemma ArchiveOneIsRun(s: State, a: nat, items: seq<TaskInfo>, o: Outcome, now: int, log: Log)
    requires a in s.actors && s.actors[a] == Archiving(items) && items != []
    ensures var st := Stores(s.views, s.queue);
            ActorRuns(s, With(s, ArchiveOne(st, items[0], o, now), a, Archiving(items[1..])), a,
                      log, ArchiveOneLog(log, st, items[0], o, now))
  {
    StandStill(s, a, log);
    OneMore(s, s, a, Archive(ArchiveMark(o.first, now)), log, log);
    var made := ArchiveStepLog(log, s, a, ArchiveMark(o.first, now));
    if Skipped(s.views, items[0], o.first, now) {
      ArchiveSkips(s, a, items, o, now);
    } else {
      ArchiveMarks(s, a, items, o.first, now);
      var x, st := Deleting(s.views, items, o.first, now), Stores(Marked(s.views, items[0], o.first), s.queue);
      var s1 := With(s, st, a, x);
      OneMore(s, s1, a, Archive(ArchiveDelete(o.second)), log, made);
      ArchiveDrops(s1, a, o.second);
      WithTwice(s, st, a, x, ArchiveOne(Stores(s.views, s.queue), items[0], o, now), Archiving(items[1..]));
    }
  }

  /** The loop of the archive sweep without interruption is a run of its steps. */
  lemma {:induction false} ArchiveAllIsRun(s: State, a: nat, all: seq<TaskInfo>, items: seq<TaskInfo>,
                                           os: seq<Outcome>, nows: seq<int>, log: Log)
    requires a in s.actors && s.actors[a] == Archiving(all) && items <= all && |os| == |nows| == |items|
    ensures var st := ArchiveAll(Stores(s.views, s.queue), items, os, nows);
            ActorRuns(s, With(s, st, a, Archiving(all[|items|..])), a,
                      log, ArchiveAllLog(log, Stores(s.views, s.queue), items, os, nows))
    decreases |items|
  {
    if items == [] {
      assert all[0..] == all;
      StandStill(s, a, log);
      assert With(s, Stores(s.views, s.queue), a, Archiving(all)) == s;
    } else {
      var front := Front(items);
      ArchiveAllIsRun(s, a, all, front, Front(os), Front(nows), log);
      var between := ArchiveAllLog(log, Stores(s.views, s.queue), front, Front(os), Front(nows));
      var st1 := ArchiveAll(Stores(s.views, s.queue), front, Front(os), Front(nows));
      var rest := all[|front|..];
      var s1 := With(s, st1, a, Archiving(rest));
      ArchiveOneIsRun(s1, a, rest, Last(os), Last(nows), between);
      var st2 := ArchiveOne(st1, rest[0], Last(os), Last(nows));
      assert rest[1..] == all[|items|..] && rest[0] == Last(items);
      WithTwice(s, st1, a, Archiving(rest), st2, Archiving(rest[1..]));
      RunsOn(s, s1, With(s, st2, a, Archiving(rest[1..])), a,
             log, between, ArchiveAllLog(log, Stores(s.views, s.queue), items, os, nows));
    }
  }

  lemma ShutOneSteps(s: State, a: nat, items: seq<TaskInfo>, o: Outcome)
    requires a in s.actors && s.actors[a] == ShutMarking(items) && items != []
    ensures var s1 := DoShut(s, a, ShutMark(o.first));
            With(s, ShutOne(Stores(s.views, s.queue), items[0], o), a, ShutMarking(items[1..])) ==
            if items[0].payload.Some? then DoShut(s1, a, ShutDelete(o.second)) else s1
  {
  }

  lemma ShutOneIsRun(s: State, a: nat, items: seq<TaskInfo>, o: Outcome, log: Log)
    requires a in s.actors && s.actors[a] == ShutMarking(items) && items != []
    ensures var st := Stores(s.views, s.queue);
            ActorRuns(s, With(s, ShutOne(st, items[0], o), a, ShutMarking(items[1..])), a,
                      log, ShutOneLog(log, st, items[0], o))
  {
    StandStill(s, a, log);
    OneMore(s, s, a, Shutdown(ShutMark(o.first)), log, log);
    var s1 := DoShut(s, a, ShutMark(o.first));
    if items[0].payload.Some? {
      OneMore(s, s1, a, Shutdown(ShutDelete(o.second)), log, ShutStepLog(log, s, a, ShutMark(o.first)));
    }
    ShutOneSteps(s, a, items, o);
  }

  /** The loop of the shutdown sweep without interruption is a run of its steps. */
  lemma {:induction false} ShutAllIsRun(s: State, a: nat, all: seq<TaskInfo>, items: seq<TaskInfo>, os: seq<Outcome>,
                                        log: Log)
    requires a in s.actors && s.actors[a] == ShutMarking(all) && items <= all && |os| == |items|
    ensures var st := Stores(s.views, s.queue);
            ActorRuns(s, With(s, ShutAll(st, items, os), a, ShutMarking(all[|items|..])), a,
                      log, ShutAllLog(log, st, items, os))
    decreases |items|
  {
    if items == [] {
      assert all[0..] == all;
      StandStill(s, a, log);
      assert With(s, Stores(s.views, s.queue), a, ShutMarking(all)) == s;
    } else {
      var front := Front(items);
      ShutAllIsRun(s, a, all, front, Front(os), log);
      var between := ShutAllLog(log, Stores(s.views, s.queue), front, Front(os));
      var st1 := ShutAll(Stores(s.views, s.queue), front, Front(os));
      var rest := all[|front|..];
      var s1 := With(s, st1, a, ShutMarking(rest));
      ShutOneIsRun(s1, a, rest, Last(os), between);
      var st2 := ShutOne(st1, rest[0], Last(os));
      assert rest[1..] == all[|items|..] && rest[0] == Last(items);
      WithTwice(s, st1, a, ShutMarking(rest), st2, ShutMarking(rest[1..]));
      RunsOn(s, s1, With(s, st2, a, ShutMarking(rest[1..])), a,
             log, between, ShutAllLog(log, Stores(s.views, s.queue), items, os));
    }
  }

  lemma BulkOneIsRun(s: State, a: nat, ids: seq<TaskId>, o: Outcome, log: Log)
    requires a in s.actors && s.actors[a] == Bulk(ids) && ids != []
    ensures ActorRuns(s, With(s, Stores(s.views, BulkOne(s.views, s.queue, ids[0], o)), a, Bulk(ids[1..])), a,
                      log, BulkOneLog(log, s.views, s.queue, ids[0], o))
  {
    StandStill(s, a, log);
    OneMore(s, s, a, BulkDeletion(BulkGet(o.first)), log, log);
    var s1 := DoBulk(s, a, BulkGet(o.first));
    var t := With(s, Stores(s.views, BulkOne(s.views, s.queue, ids[0], o)), a, Bulk(ids[1..]));
    if s1.actors[a].BulkGot? {
      OneMore(s, s1, a, BulkDeletion(BulkDelete(o.second)), log, BulkStepLog(log, s, a, BulkGet(o.first)));
      assert DoBulk(s1, a, BulkDelete(o.second)) == t;
    } else {
      assert s1 == t;
    }
  }

  /** The loop of the bulk deletion without interruption is a run of its steps. */
  lemma {:induction false} BulkAllIsRun(s: State, a: nat, all: seq<TaskId>, ids: seq<TaskId>, os: seq<Outcome>,
                                        log: Log)
    requires a in s.actors && s.actors[a] == Bulk(all) && ids <= all && |os| == |ids|
    ensures ActorRuns(s, With(s, Stores(s.views, BulkAll(s.views, s.queue, ids, os)), a, Bulk(all[|ids|..])), a,
                      log, BulkAllLog(log, s.views, s.queue, ids, os))
    decreases |ids|
  {
    if ids == [] {
      assert all[0..] == all;
      StandStill(s, a, log);
      assert With(s, Stores(s.views, s.queue), a, Bulk(all)) == s;
    } else {
      var front := Front(ids);
      BulkAllIsRun(s, a, all, front, Front(os), log);
      var between := BulkAllLog(log, s.views, s.queue, front, Front(os));
      var st1 := Stores(s.views, BulkAll(s.views, s.queue, front, Front(os)));
      var rest := all[|front|..];
      var s1 := With(s, st1, a, Bulk(rest));
      BulkOneIsRun(s1, a, rest, Last(os), between);
      var st2 := Stores(s.views, BulkOne(s.views, st1.queue, rest[0], Last(os)));
      assert rest[1..] == all[|ids|..] && rest[0] == Last(ids);
      WithTwice(s, st1, a, Bulk(rest), st2, Bulk(rest[1..]));
      RunsOn(s, s1, With(s, st2, a, Bulk(rest[1..])), a, log, between, BulkAllLog(log, s.views, s.queue, ids, os));
    }
  }

  // ---------- workers ----------

  /** Some run of steps on one entry leaves these records and this entry, and makes these calls. */
  ghost predicate WorkRuns(s: State, q: QueueId, w: Views, e: Entry, log: Log, made: Log) {
    exists ts :: Legal(s, ts) && WorkOn(ts, q) && Trace(log, s, ts) == made
                 && Run(s, ts).views == w && q in Run(s, ts).queue && Run(s, ts).queue[q] == e
  }

  /** The calls of an attempt whose `running` write was accepted. */
  function AttemptLog(log: Log, id: TaskId, p: Prediction, ok: bool): Log {
    var asked := Then(Then(log, WriteRecord(id, Mark(Running), true)), RunPrediction(id));
    if p.Panic? then asked else Then(asked, WriteRecord(id, ReportOf(p), ok))
  }

  /** The attempt goes on after `running` was accepted. */
  lemma AnnouncedAttemptIsRun(s: State, q: QueueId, p: Prediction, ok: bool, now: int, log: Log)
    requires q in s.queue && s.queue[q].place == InActive(Fetched)
    requires s.queue[q].payload.Some? && Accepts(s.views, s.queue[q].payload.value)
    ensures var e, v1 := s.queue[q], Put(s.views, s.queue[q].payload.value, Mark(Running));
            var made := AttemptLog(log, e.payload.value, p, ok);
            if p.Panic? then WorkRuns(s, q, v1, Fails(e, now), log, made)
            else if ok then
              WorkRuns(s, q, Put(v1, e.payload.value, ReportOf(p)), e.(place := InActive(Finished)), log, made)
            else WorkRuns(s, q, v1, Fails(e, now), log, made)
  {
    var a, c, d := OfQueue(q, Announce(true, now)), OfQueue(q, Call(p, now)), OfQueue(q, Report(ok, now));
    var s1 := DoQueue(s, q, Announce(true, now));
    var s2 := DoQueue(s1, q, Call(p, now));
    if p.Panic? {
      RunOf2(s, a, c, log);
      assert WorkOn([a, c], q) && Run(s, [a, c]) == s2;
    } else {
      RunOf3(s, a, c, d, log);
      assert WorkOn([a, c, d], q) && Run(s, [a, c, d]) == DoQueue(s2, q, Report(ok, now));
    }
  }

  /** Every outcome that the worker's handler may leave is the outcome of a run of its steps, call by call. */
  lemma AttemptIsRun(s: State, q: QueueId, p: Prediction, w: Views, r: Handlers.Return, now: int, log: Log, made: Log)
    requires q in s.queue && s.queue[q].place == InActive(Fetched) && s.queue[q].payload.Some?
    requires r != Handlers.SkipRetry && Handlers.AttemptLeft(s.views, w, s.queue[q].payload.value, p, r, log, made)
    ensures WorkRuns(s, q, w, if r.Done? then s.queue[q].(place := InActive(Finished)) else Fails(s.queue[q], now),
                     log, made)
  {
    if r.Error? && made == Then(log, WriteRecord(s.queue[q].payload.value, Mark(Running), false)) {
      var a := OfQueue(q, Announce(false, now));
      RunOf1(s, a);
      TraceOf1(log, s, a);
      assert WorkOn([a], q) && Run(s, [a]) == Do(s, a);
    } else {
      AnnouncedAttemptIsRun(s, q, p, r.Done?, now, log);
    }
  }

  lemma RunOf2(s: State, t: Step, u: Step, log: Log)
    requires Enabled(s, t) && Enabled(Do(s, t), u)
    ensures Legal(s, [t, u]) && Run(s, [t, u]) == Do(Do(s, t), u)
    ensures Trace(log, s, [t, u]) == StepLog(StepLog(log, s, t), Do(s, t), u)
  {
    RunOf1(Do(s, t), u);
    TraceOf1(StepLog(log, s, t), Do(s, t), u);
    assert [t, u][1..] == [u];
  }

  lemma RunOf3(s: State, t: Step, u: Step, v: Step, log: Log)
    requires Enabled(s, t) && Enabled(Do(s, t), u) && Enabled(Do(Do(s, t), u), v)
    ensures Legal(s, [t, u, v]) && Run(s, [t, u, v]) == Do(Do(Do(s, t), u), v)
    ensures Trace(log, s, [t, u, v]) ==
            StepLog(StepLog(StepLog(log, s, t), Do(s, t), u), Do(Do(s, t), u), v)
  {
    RunOf2(Do(s, t), u, v, StepLog(log, s, t));
    assert [t, u, v][1..] == [u, v];
  }

  // ---------- requests ----------

  predicate StepsFor(ts: seq<Step>, id: TaskId) {
    forall x: Step :: x in ts ==> x.OfHandler? && x.id == id
  }

  /** Some run of steps of one HTTP handler leads from one state to the other, making these calls. */
  ghost predicate HandlerRuns(s: State, t: State, id: TaskId, log: Log, made: Log) {
    exists ts :: Legal(s, ts) && Run(s, ts) == t && StepsFor(ts, id) && Trace(log, s, ts) == made
  }

  /** The handler is done, and these are the stores it leaves and the calls it made. */
  ghost predicate HandlerLeaves(s: State, id: TaskId, w: Views, rest: Queue, log: Log, made: Log) {
    exists t :: HandlerRuns(s, t, id, log, made) && t.views == w && t.queue == rest
                && t.handlers == s.handlers && t.actors == s.actors
  }

  lemma NoStep(s: State, id: TaskId, log: Log)
    ensures HandlerRuns(s, s, id, log, log)
  {
    assert Legal(s, []) && Run(s, []) == s && Trace(log, s, []) == log;
  }

  lemma OneMoreStep(s: State, t: State, id: TaskId, h: HandlerStep, log: Log, made: Log)
    requires HandlerRuns(s, t, id, log, made) && HandlerEnabled(t, id, h)
    ensures HandlerRuns(s, DoHandler(t, id, h), id, log, HandlerLog(made, t, id, h))
  {
    var ts :| Legal(s, ts) && Run(s, ts) == t && StepsFor(ts, id) && Trace(log, s, ts) == made;
    RunOf1(t, OfHandler(id, h));
    TraceOf1(made, t, OfHandler(id, h));
    RunSplit(s, ts, [OfHandler(id, h)]);
    TraceSplit(log, s, ts, [OfHandler(id, h)]);
  }

  /** The state after a submission's record was made. */
  function Begun(s: State, id: TaskId, model: string): State {
    s.(views := Create(s.views, id, NewRecord(model, Pending)), handlers := s.handlers[id := Created],
       hist := s.hist + [Hist([], 0)])
  }

  /** The calls up to the creation of the record. */
  function BegunLog(log: Log, id: TaskId, model: string, sized: bool, made: bool): Log {
    Then(Then(log, AskSize(sized)), MakeRecord(id, NewRecord(model, Pending), made))
  }

  lemma CreationIsRun(s: State, id: TaskId, model: string, sized: bool, log: Log)
    requires id == |s.hist| && !(sized && |WaitingSet(s.queue)| >= s.limit)
    ensures HandlerRuns(s, Begun(s, id, model), id, log, BegunLog(log, id, model, sized, true))
  {
    NoStep(s, id, log);
    OneMoreStep(s, s, id, Admit(sized), log, log);
    var s1 := DoHandler(s, id, Admit(sized));
    OneMoreStep(s, s1, id, CreateTask(true, true, model), log, Then(log, AskSize(sized)));
    assert DoHandler(s1, id, CreateTask(true, true, model)) == Begun(s, id, model);
  }

  /** What a submission leaves and which calls it makes. */
  ghost predicate SubmissionRuns(s: State, id: TaskId, model: string, c: Requests.SubmitCalls, log: Log) {
    var (w, rest, r) := Requests.Submit(s.views, s.queue, s.limit, id, model, c);
    HandlerLeaves(s, id, w, rest, log, Requests.SubmitLog(log, s.queue, s.limit, id, model, c))
  }

  /** A submission that ends before anything is enqueued. */
  lemma UnansweredIsRun(s: State, id: TaskId, model: string, c: Requests.SubmitCalls, log: Log)
    requires Core(s) && id == |s.hist| && !(c.sized && |WaitingSet(s.queue)| >= s.limit)
    requires !c.made || !c.answered
    ensures SubmissionRuns(s, id, model, c, log)
  {
    NoStep(s, id, log);
    OneMoreStep(s, s, id, Admit(c.sized), log, log);
    var s1 := DoHandler(s, id, Admit(c.sized));
    OneMoreStep(s, s1, id, CreateTask(c.made, false, model), log, Then(log, AskSize(c.sized)));
    var t := DoHandler(s1, id, CreateTask(c.made, false, model));
    HandlersAreKnown(s);
    assert t.handlers == s.handlers;
  }

  /** A submission whose enqueue call is refused. */
  lemma RefusedIsRun(s: State, id: TaskId, model: string, c: Requests.SubmitCalls, log: Log)
    requires Core(s) && id == |s.hist| && !(c.sized && |WaitingSet(s.queue)| >= s.limit)
    requires c.made && c.answered && c.entry.None?
    ensures SubmissionRuns(s, id, model, c, log)
  {
    CreationIsRun(s, id, model, c.sized, log);
    var s1, made := Begun(s, id, model), BegunLog(log, id, model, c.sized, true);
    OneMoreStep(s, s1, id, Enqueue(false), log, made);
    var s2 := DoHandler(s1, id, Enqueue(false));
    OneMoreStep(s, s2, id, RollBack(c.written), log, Then(made, AddEntry(id, None)));
    var t := DoHandler(s2, id, RollBack(c.written));
    HandlersAreKnown(s);
    assert t.handlers == s.handlers;
  }

  /** The state after a submission's task was enqueued. */
  function Filed(s: State, id: TaskId, model: string): State {
    Begun(s, id, model).(
      queue := s.queue[s.nextQueue := Entry(Some(id), InPending, 0, 0)],
      nextQueue := s.nextQueue + 1,
      handlers := s.handlers[id := Enqueued(s.nextQueue)])
  }

  /** The calls up to the enqueue call. */
  function FiledLog(log: Log, id: TaskId, model: string, sized: bool, q: QueueId): Log {
    Then(BegunLog(log, id, model, sized, true), AddEntry(id, Some(q)))
  }

  lemma FilingIsRun(s: State, id: TaskId, model: string, sized: bool, log: Log)
    requires id == |s.hist| && !(sized && |WaitingSet(s.queue)| >= s.limit)
    ensures HandlerRuns(s, Filed(s, id, model), id, log, FiledLog(log, id, model, sized, s.nextQueue))
  {
    CreationIsRun(s, id, model, sized, log);
    var s1 := Begun(s, id, model);
    OneMoreStep(s, s1, id, Enqueue(true), log, BegunLog(log, id, model, sized, true));
    assert DoHandler(s1, id, Enqueue(true)) == Filed(s, id, model);
  }

  /** A submission whose link is refused. */
  lemma UnlinkedIsRun(s: State, id: TaskId, model: string, c: Requests.SubmitCalls, log: Log)
    requires Core(s) && id == |s.hist| && !(c.sized && |WaitingSet(s.queue)| >= s.limit)
    requires c.made && c.answered && c.entry == Some(s.nextQueue) && !c.written
    ensures SubmissionRuns(s, id, model, c, log)
  {
    FilingIsRun(s, id, model, c.sized, log);
    var s1, made := Filed(s, id, model), FiledLog(log, id, model, c.sized, s.nextQueue);
    OneMoreStep(s, s1, id, Link(false), log, made);
    var s2 := DoHandler(s1, id, Link(false));
    OneMoreStep(s, s2, id, Unlink(c.withdrawn), log, Then(made, WriteRecord(id, LinkTo(s.nextQueue), false)));
    var t := DoHandler(s2, id, Unlink(c.withdrawn));
    HandlersAreKnown(s);
    assert t.handlers == s.handlers;
  }

  /** A submission whose task is enqueued and linked. */
  lemma LinkedIsRun(s: State, id: TaskId, model: string, c: Requests.SubmitCalls, log: Log)
    requires Core(s) && id == |s.hist| && !(c.sized && |WaitingSet(s.queue)| >= s.limit)
    requires c.made && c.answered && c.entry == Some(s.nextQueue) && c.written
    ensures SubmissionRuns(s, id, model, c, log)
  {
    FilingIsRun(s, id, model, c.sized, log);
    var s1 := Filed(s, id, model);
    OneMoreStep(s, s1, id, Link(true), log, FiledLog(log, id, model, c.sized, s.nextQueue));
    var t := DoHandler(s1, id, Link(true));
    HandlersAreKnown(s);
    assert t.handlers == s.handlers;
  }

  /** Whatever its calls are answered with, a submission without interruption is a run of its steps, call by call. */
  lemma SubmissionIsRun(s: State, id: TaskId, model: string, c: Requests.SubmitCalls, log: Log)
    requires Core(s) && id == |s.hist| && (c.entry.Some? ==> c.entry.value == s.nextQueue)
    ensures SubmissionRuns(s, id, model, c, log)
  {
    if c.sized && |WaitingSet(s.queue)| >= s.limit {
      NoStep(s, id, log);
      OneMoreStep(s, s, id, Admit(true), log, log);
    } else if !c.made || !c.answered {
      UnansweredIsRun(s, id, model, c, log);
    } else if c.entry.None? {
      RefusedIsRun(s, id, model, c, log);
    } else if c.written {
      LinkedIsRun(s, id, model, c, log);
    } else {
      UnlinkedIsRun(s, id, model, c, log);
    }
  }

  /** The state after the record of a synchronous prediction was made. */
  function Serving(s: State, id: TaskId, model: string): State {
    s.(views := Create(s.views, id, NewRecord(model, Running)), handlers := s.handlers[id := SyncCreated],
       hist := s.hist + [Hist([], 0)])
  }

  /** A prediction whose creation was answered goes on. */
  lemma ServingIsRun(s: State, id: TaskId, p: Prediction, written: bool, log: Log)
    requires HandlerAt(s, id, SyncCreated)
    ensures var asked := Then(log, RunPrediction(id));
            var ok := written && Accepts(s.views, id);
            if p.Panic? then HandlerRuns(s, DropHandler(s, id), id, log, asked)
            else HandlerRuns(s, DropHandler(TryPut(s, written, id, ReportOf(p)), id), id,
                             log, Then(asked, WriteRecord(id, ReportOf(p), ok)))
  {
    NoStep(s, id, log);
    OneMoreStep(s, s, id, SyncPredict(p), log, log);
    if !p.Panic? {
      var t := DoHandler(s, id, SyncPredict(p));
      OneMoreStep(s, t, id, SyncWrite(written), log, Then(log, RunPrediction(id)));
      assert DoHandler(t, id, SyncWrite(written)) == DropHandler(TryPut(s, written, id, ReportOf(p)), id);
    }
  }

  lemma HandlerRunsOn(s: State, t: State, u: State, id: TaskId, log: Log, between: Log, made: Log)
    requires HandlerRuns(s, t, id, log, between) && HandlerRuns(t, u, id, between, made)
    ensures HandlerRuns(s, u, id, log, made)
  {
    var ts :| Legal(s, ts) && Run(s, ts) == t && StepsFor(ts, id) && Trace(log, s, ts) == between;
    var us :| Legal(t, us) && Run(t, us) == u && StepsFor(us, id) && Trace(between, t, us) == made;
    RunSplit(s, ts, us);
    TraceSplit(log, s, ts, us);
  }

  lemma ServingBegins(s: State, id: TaskId, model: string, made: bool, log: Log)
    requires id == |s.hist|
    ensures HandlerRuns(s, if made then Serving(s, id, model) else s, id,
                        log, Then(log, MakeRecord(id, NewRecord(model, Running), made)))
  {
    NoStep(s, id, log);
    OneMoreStep(s, s, id, SyncCreate(made, model), log, log);
    assert DoHandler(s, id, SyncCreate(made, model)) == if made then Serving(s, id, model) else s;
  }

  /** So is a synchronous prediction; the last call of `ServeLog`, which reads the record back, is no step. */
  lemma PredictionIsRun(s: State, id: TaskId, model: string, p: Prediction, c: Requests.ServeCalls, log: Log)
    requires Core(s) && id == |s.hist|
    ensures var (w, r) := Requests.Serve(s.views, id, model, p, c);
            HandlerLeaves(s, id, w, s.queue, log, Requests.ToldLog(log, id, model, p, c))
  {
    ServingBegins(s, id, model, c.made, log);
    HandlersAreKnown(s);
    var begun := Then(log, MakeRecord(id, NewRecord(model, Running), c.made));
    if c.made {
      var t := Serving(s, id, model);
      if c.answered {
        ServingIsRun(t, id, p, c.written, begun);
        var u := DropHandler(if p.Panic? then t else TryPut(t, c.written, id, ReportOf(p)), id);
        HandlerRunsOn(s, t, u, id, log, begun, Requests.ToldLog(log, id, model, p, c));
        assert u.handlers == s.handlers;
      } else {
        OneMoreStep(s, t, id, HandlerCrash, log, begun);
        assert DropHandler(t, id).handlers == s.handlers;
      }
    }
  }

  /** What a cancel does once it has read the record. */
  lemma CancelGoesOn(s: State, a: nat, id: TaskId, q: QueueId, c: Requests.CancelCalls, log: Log)
    requires a in s.actors && s.actors[a] == CancelGot(id, q)
    ensures var gone := c.deleted && CanDelete(s.queue, q);
            var dropped := Then(log, DropEntry(q, gone));
            var mark := WriteRecord(id, Mark(Canceled), c.marked && Accepts(s.views, id));
            if gone then
              ActorRuns(s, DropActor(TryPut(Remove(s, q), c.marked, id, Mark(Canceled)), a), a,
                        log, Then(dropped, mark))
            else ActorRuns(s, DropActor(s, a), a, log, dropped)
  {
    StandStill(s, a, log);
    OneMore(s, s, a, Cancel(CancelDelete(c.deleted)), log, log);
    var t := DoCancel(s, a, CancelDelete(c.deleted));
    if c.deleted && CanDelete(s.queue, q) {
      OneMore(s, t, a, Cancel(CancelMark(c.marked)), log, Then(log, DropEntry(q, true)));
      assert DoCancel(t, a, CancelMark(c.marked)) == DropActor(TryPut(Remove(s, q), c.marked, id, Mark(Canceled)), a);
    }
  }

  lemma CancelBegins(s: State, a: nat, id: TaskId, got: bool, log: Log)
    requires a !in s.actors
    ensures var read := got && id in s.views.cache;
            var t := if read && s.views.cache[id].queueId.Some?
                     then Become(s, a, CancelGot(id, s.views.cache[id].queueId.value)) else s;
            ActorRuns(s, t, a, log, Then(log, ReadRecord(id, read)))
  {
    StandStill(s, a, log);
    OneMore(s, s, a, Cancel(CancelGet(id, got)), log, log);
  }

  /** Whatever its calls are answered with, a cancel without interruption is a run of its steps, call by call. */
  lemma CancelIsRun(s: State, a: nat, id: TaskId, c: Requests.CancelCalls, log: Log)
    requires a !in s.actors
    ensures var (w, rest, r) := Requests.CancelOf(s.views, s.queue, id, c);
            ActorRuns(s, s.(views := w, queue := rest), a, log, Requests.CancelLog(log, s.views, s.queue, id, c))
  {
    var (w, rest, r) := Requests.CancelOf(s.views, s.queue, id, c);
    var u := s.(views := w, queue := rest);
    var got := c.got && id in s.views.cache;
    var read := Then(log, ReadRecord(id, got));
    CancelBegins(s, a, id, c.got, log);
    if got && s.views.cache[id].queueId.Some? {
      var q := s.views.cache[id].queueId.value;
      var t := Become(s, a, CancelGot(id, q));
      CancelGoesOn(t, a, id, q, c, read);
      var v := if c.deleted && CanDelete(s.queue, q)
               then DropActor(TryPut(Remove(t, q), c.marked, id, Mark(Canceled)), a) else DropActor(t, a);
      assert v.actors == s.actors;
      assert v == u;
      RunsOn(s, t, u, a, log, read, Requests.CancelLog(log, s.views, s.queue, id, c));
    } else {
      assert u == s;
    }
  }

  // ---------- shutdown after admission ----------

  /** A quiescent shutdown in a governed state leaves fewer than workers + window tasks waiting. */
  lemma ShutdownAfterAdmission(limit: nat, ts: seq<Step>, workers: nat, window: nat,
                               pages: seq<seq<QueueId>>, os: seq<Outcome>)
    requires limit > 0 && workers + window > 0
    requires Legal(Init(limit), ts) && Governed(Init(limit), ts, workers, window)
    requires var s := Run(Init(limit), ts);
             && |pages| == 3 && (forall i: nat :: i < 3 ==> IsPage(s.queue, i, limit, pages[i]))
             && (forall q :: q in ThreePages(pages) ==> q in s.queue)
             && |os| == |ThreePages(pages)| && AllGranted(os)
    ensures var s := Run(Init(limit), ts);
            var t := ShutAll(Stores(s.views, s.queue), Infos(s.queue, ThreePages(pages)), os);
            |WaitingSet(t.queue)| <= workers + window - 1
  {
    var s := Run(Init(limit), ts);
    RunKeepsInv(Init(limit), ts);
    QueueStaysBounded(limit, ts, workers, window);
    forall q | q in ThreePages(pages) ensures s.queue[q].payload.Some? {
      assert EntryOk(s, q);
    }
    ShutdownLeavesRemainder(Stores(s.views, s.queue), limit, pages, os);
  }

}
