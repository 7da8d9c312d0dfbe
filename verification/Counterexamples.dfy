/**
 Runs that show that each premise of the safety theorems is needed.  They all concern task 0,
 whose entry is entry 0 of the queue, and actor 0.
 */
module Counterexamples {

  import opened Wrappers
  import opened Records
  import opened Queues
  import opened Protocol
  import opened Reachable
  import opened Absorption

  /** The whole state: task 0 with its record, its entry and at most one handler, and no actor. */
  ghost predicate Scene(s: State, limit: nat, status: Status, queueId: Option<QueueId>, place: Place, retried: nat,
                        handlers: map<TaskId, Handler>) {
    && s.limit == limit
    && s.views.cache.Keys == {0} && s.views.db.Keys == {0} && s.views.cache[0] == s.views.db[0]
    && s.views.db[0].status == status && s.views.db[0].queueId == queueId && s.views.db[0].model == "m"
    && s.queue.Keys == {0} && s.queue[0].payload == Some(0)
    && s.queue[0].place == place && s.queue[0].retried == retried
    && s.nextQueue == 1 && s.handlers == handlers && |s.hist| == 1 && s.actors == map[]
  }

  /** A run and the state it leads to. */
  ghost predicate Leads(limit: nat, ts: seq<Step>, s: State) {
    Legal(Init(limit), ts) && Run(Init(limit), ts) == s
  }

  /** The run comes through a state before its end. */
  ghost predicate Passes(limit: nat, ts: seq<Step>, before: State) {
    exists n: nat :: n < |ts| && Leads(limit, ts[..n], before)
  }

  /** The run consists of calm steps. */
  ghost predicate Calmly(limit: nat, ts: seq<Step>) {
    Legal(Init(limit), ts) && CalmRun(Init(limit), ts)
  }

  lemma Then(limit: nat, ts: seq<Step>, s: State, t: Step) returns (us: seq<Step>, s': State)
    requires Leads(limit, ts, s) && Enabled(s, t)
    ensures us == ts + [t] && s' == Do(s, t) && Leads(limit, us, s')
    ensures Calmly(limit, ts) && Calm(s, t) ==> Calmly(limit, us)
  {
    us, s' := ts + [t], Do(s, t);
    RunOf1(s, t);
    RunSplit(Init(limit), ts, [t]);
    if Calmly(limit, ts) && Calm(s, t) {
      CalmOf1(s, t);
      CalmJoin(Init(limit), ts, [t]);
    }
  }

  lemma Enqueued0(limit: nat) returns (ts: seq<Step>, s: State)
    requires limit > 0
    ensures Leads(limit, ts, s) && Calmly(limit, ts) && forall t :: t in ts ==> t.OfHandler?
    ensures Scene(s, limit, Pending, None, InPending, 0, map[0 := Enqueued(0)]) && s.hist[0].events == []
  {
    ts, s := [], Init(limit);
    assert WaitingSet(s.queue) == {};
    ts, s := Then(limit, ts, s, OfHandler(0, Admit(true)));
    ts, s := Then(limit, ts, s, OfHandler(0, CreateTask(true, true, "m")));
    ts, s := Then(limit, ts, s, OfHandler(0, Enqueue(true)));
  }

  lemma Linked0(limit: nat) returns (ts: seq<Step>, s: State)
    requires limit > 0
    ensures Leads(limit, ts, s) && Calmly(limit, ts) && forall t :: t in ts ==> t.OfHandler?
    ensures Scene(s, limit, Pending, Some(0), InPending, 0, map[]) && s.hist[0].events == []
  {
    ts, s := Enqueued0(limit);
    ts, s := Then(limit, ts, s, OfHandler(0, Link(true)));
  }

  /** A worker has announced the task. */
  lemma Announced0(limit: nat) returns (ts: seq<Step>, s: State)
    requires limit > 0
    ensures Leads(limit, ts, s) && Calmly(limit, ts)
    ensures Scene(s, limit, Running, Some(0), InActive(Announced), 0, map[]) && s.hist[0].events == [Wrote(Running)]
  {
    ts, s := Linked0(limit);
    ts, s := Then(limit, ts, s, OfQueue(0, Pop));
    ts, s := Then(limit, ts, s, OfQueue(0, Announce(true, 0)));
  }

  const GOOD: Prediction := Answer(map[])

  /** The prediction succeeds and its report is accepted; actors and handlers stay as they are. */
  lemma Succeed0(limit: nat, ts0: seq<Step>, s0: State) returns (ts: seq<Step>, s: State)
    requires Leads(limit, ts0, s0) && 0 in s0.queue && 0 in s0.views.cache && 0 in s0.views.db && |s0.hist| == 1
    requires s0.queue[0].payload == Some(0) && s0.queue[0].place == InActive(Announced)
    ensures Leads(limit, ts, s) && (Calmly(limit, ts0) ==> Calmly(limit, ts))
    ensures s.actors == s0.actors && s.handlers == s0.handlers && s.limit == s0.limit && s.nextQueue == s0.nextQueue
    ensures s.views.cache.Keys == s0.views.cache.Keys && s.views.db.Keys == s0.views.db.Keys
    ensures s.views.cache[0].status == Succeeded && s.views.db[0].status == Succeeded
    ensures s.views.db[0].queueId == s0.views.db[0].queueId
    ensures s.queue == s0.queue[0 := s0.queue[0].(place := InActive(Finished))]
  {
    ts, s := Then(limit, ts0, s0, OfQueue(0, Call(GOOD, 0)));
    ts, s := Then(limit, ts, s, OfQueue(0, Report(true, 0)));
    assert s.views.cache.Keys == s0.views.cache.Keys && s.views.db.Keys == s0.views.db.Keys;
  }

  /** A sweep lists task 0 under its status. */
  lemma ListOnly0(limit: nat, ts0: seq<Step>, s0: State) returns (ts: seq<Step>, s: State, job: Job)
    requires Leads(limit, ts0, s0) && s0.actors == map[] && s0.views.db.Keys == {0}
    requires s0.views.db[0].model == "m" && (s0.views.db[0].status == Pending || s0.views.db[0].status == Running)
    ensures Leads(limit, ts, s) && s == s0.(actors := map[0 := SweepWaiting([job])])
    ensures job.id == 0 && job.status == s0.views.db[0].status && (job.gone <==> 0 !in s0.views.cache)
  {
    var pending: seq<TaskId>, running: seq<TaskId> := [], [];
    if s0.views.db[0].status == Pending {
      pending := [0];
    } else {
      running := [0];
    }
    ts, s := Then(limit, ts0, s0, OfActor(0, Sweep(ListPending("m", pending))));
    ts, s := Then(limit, ts, s, OfActor(0, Sweep(ListRunning(running))));
    job := s.actors[0].jobs[0];
    assert s.actors[0].jobs == [job];
  }

  /** A sweep lists task 0 under its status and waits. */
  lemma List0(limit: nat, ts0: seq<Step>, s0: State) returns (ts: seq<Step>, s: State, job: Job)
    requires Leads(limit, ts0, s0) && s0.actors == map[] && s0.views.db.Keys == {0}
    requires s0.views.db[0].model == "m" && (s0.views.db[0].status == Pending || s0.views.db[0].status == Running)
    ensures Leads(limit, ts, s)
    ensures s == s0.(actors := map[0 := SweepScanning([job], 0, {}, true)])
    ensures job.id == 0 && job.status == s0.views.db[0].status && (job.settled <==> 0 !in s0.handlers)
    ensures job.backs == Backs(s0, 0) && (job.gone <==> 0 !in s0.views.cache)
  {
    ts, s, job := ListOnly0(limit, ts0, s0);
    ts, s := Then(limit, ts, s, OfActor(0, Sweep(Wait)));
    job := s.actors[0].jobs[0];
    assert s.actors[0].jobs == [job];
  }

  /** One list call of the sweep, answered in full. */
  lemma Scan0(limit: nat, ts0: seq<Step>, s0: State, job: Job, list: nat, seen: set<QueueId>, page: seq<QueueId>)
    returns (ts: seq<Step>, s: State)
    requires Leads(limit, ts0, s0) && list < 3 && s0.limit == limit > 0
    requires s0.actors == map[0 := SweepScanning([job], list, seen, true)]
    requires s0.queue.Keys <= {0}
    requires page == if 0 in s0.queue && Rank(s0.queue[0].place) == list then [0] else []
    ensures Leads(limit, ts, s)
    ensures s == s0.(actors := map[0 := SweepScanning([job], list + 1, seen + Elems(page), true)])
  {
    ts, s := Then(limit, ts0, s0, OfActor(0, Sweep(Scan(true, page))));
  }

  /** The last list call; the sweep starts to check. */
  lemma LastScan0(limit: nat, ts0: seq<Step>, s0: State, job: Job, seen: set<QueueId>, page: seq<QueueId>)
    returns (ts: seq<Step>, s: State, job': Job)
    requires Leads(limit, ts0, s0) && s0.limit == limit > 0
    requires s0.actors == map[0 := SweepScanning([job], 3, seen, true)]
    requires s0.queue.Keys <= {0}
    requires page == if 0 in s0.queue && Rank(s0.queue[0].place) == 3 then [0] else []
    ensures Leads(limit, ts, s)
    ensures s == s0.(actors := map[0 := SweepChecking([job'], seen + Elems(page))])
    ensures job' == job.(covered := job.settled && Backs(s0, job.id) == job.backs)
  {
    ts, s := Then(limit, ts0, s0, OfActor(0, Sweep(Scan(true, page))));
    job' := s.actors[0].jobs[0];
    assert s.actors[0].jobs == [job'];
  }

  /** All four list calls with nothing in between. */
  lemma ScanAll0(limit: nat, ts0: seq<Step>, s0: State, job: Job)
    returns (ts: seq<Step>, s: State, job': Job, seen: set<QueueId>)
    requires Leads(limit, ts0, s0) && s0.limit == limit > 0
    requires s0.actors == map[0 := SweepScanning([job], 0, {}, true)] && s0.queue.Keys <= {0}
    ensures Leads(limit, ts, s)
    ensures s == s0.(actors := map[0 := SweepChecking([job'], seen)])
    ensures job' == job.(covered := job.settled && Backs(s0, job.id) == job.backs)
    ensures 0 in seen <==> 0 in s0.queue && Live(s0.queue[0].place)
  {
    var pages: seq<seq<QueueId>> := seq(4, i => if 0 in s0.queue && Rank(s0.queue[0].place) == i then [0] else []);
    ts, s := Scan0(limit, ts0, s0, job, 0, {}, pages[0]);
    ts, s := Scan0(limit, ts, s, job, 1, s.actors[0].seen, pages[1]);
    ts, s := Scan0(limit, ts, s, job, 2, s.actors[0].seen, pages[2]);
    ts, s, job' := LastScan0(limit, ts, s, job, s.actors[0].seen, pages[3]);
    seen := s.actors[0].seen;
  }

  /** The sweep finds task 0 suspect and fails it. */
  lemma Fail0(limit: nat, ts0: seq<Step>, s0: State, job: Job, seen: set<QueueId>) returns (ts: seq<Step>, s: State)
    requires Leads(limit, ts0, s0) && s0.actors == map[0 := SweepChecking([job], seen)] && job.id == 0
    requires 0 in s0.views.cache && 0 in s0.views.db && Suspect(s0.views.cache[0], seen, job.status)
    ensures Leads(limit, ts, s) && s.queue == s0.queue
    ensures 0 in s.views.cache && s.views.cache[0].status == Failed
    ensures s.views.cache[0].queueId == s0.views.cache[0].queueId
  {
    ts, s := Then(limit, ts0, s0, OfActor(0, Sweep(Get(true))));
    ts, s := Then(limit, ts, s, OfActor(0, Sweep(Fail(true))));
  }

  // ---------- the status sweep ----------

  /** Without the wait: the task is enqueued and linked after the lists were read. */
  lemma ImpatientSweep(limit: nat) returns (ts: seq<Step>, s: State)
    requires limit > 0
    ensures Leads(limit, ts, s) && 0 in s.views.cache && 0 in s.queue
    ensures s.views.cache[0].status == Failed && s.views.cache[0].queueId == Some(0)
    ensures s.queue[0].payload == Some(0) && s.queue[0].place.InPending?
  {
    var job, seen;
    ts, s := [], Init(limit);
    assert WaitingSet(s.queue) == {};
    ts, s := Then(limit, ts, s, OfHandler(0, Admit(true)));
    ts, s := Then(limit, ts, s, OfHandler(0, CreateTask(true, true, "m")));
    ts, s, job := List0(limit, ts, s);
    ts, s, job, seen := ScanAll0(limit, ts, s, job);
    ts, s := Then(limit, ts, s, OfHandler(0, Enqueue(true)));
    ts, s := Then(limit, ts, s, OfHandler(0, Link(true)));
    ts, s := Fail0(limit, ts, s, job, seen);
  }

  /** A retried task moves back to the pending list between two list calls and is missed by both. */
  lemma Missed0(limit: nat) returns (ts: seq<Step>, s: State, job: Job)
    requires limit > 0
    ensures Leads(limit, ts, s) && s.actors == map[0 := SweepChecking([job], {})]
    ensures job.id == 0 && job.status == Pending
    ensures Scene(s.(actors := map[]), limit, Pending, Some(0), InPending, 1, map[])
  {
    ts, s := Linked0(limit);
    ts, s := Then(limit, ts, s, OfQueue(0, Pop));
    ts, s := Then(limit, ts, s, OfQueue(0, Announce(false, 0)));
    ts, s, job := List0(limit, ts, s);
    ts, s := Scan0(limit, ts, s, job, 0, {}, []);
    ts, s := Scan0(limit, ts, s, job, 1, s.actors[0].seen, []);
    ts, s := Then(limit, ts, s, OfQueue(0, Forward));
    ts, s := Scan0(limit, ts, s, job, 2, s.actors[0].seen, []);
    ts, s, job := LastScan0(limit, ts, s, job, s.actors[0].seen, []);
  }

  /** The sweep fails the task that it missed. */
  lemma MissedByTheListing(limit: nat) returns (ts: seq<Step>, s: State)
    requires limit > 0
    ensures Leads(limit, ts, s) && 0 in s.views.cache && 0 in s.queue
    ensures s.views.cache[0].status == Failed && s.views.cache[0].queueId == Some(0)
    ensures s.queue[0].payload == Some(0) && s.queue[0].place.InPending?
  {
    var job;
    ts, s, job := Missed0(limit);
    ts, s := Fail0(limit, ts, s, job, {});
  }

  /** Or, if it cannot read the record, buries it, although no seen entry carries it. */
  lemma MissedAndBuried(limit: nat) returns (ts: seq<Step>, s: State, before: State)
    requires limit > 0
    ensures Leads(limit, ts, s) && Passes(limit, ts, before)
    ensures 0 in before.actors && before.actors[0].SweepBurying? && before.actors[0].seen == {}
    ensures 0 in s.views.db && s.views.db[0].status == Failed && s.views.db[0].queueId == Some(0)
    ensures 0 in s.queue && s.queue[0].payload == Some(0) && s.queue[0].place.InPending?
  {
    var job;
    ts, s, job := Missed0(limit);
    ts, s := Then(limit, ts, s, OfActor(0, Sweep(Get(false))));
    ts, s, before := Finale(limit, ts, s, OfActor(0, Sweep(Bury(true))));
  }

  /** The link write failed while a worker held the entry: a success is overwritten. */
  lemma OrphanOverwritten(limit: nat) returns (ts: seq<Step>, s: State, before: State)
    requires limit > 0
    ensures Leads(limit, ts, s) && 0 in s.views.cache && 0 in before.views.cache
    ensures Passes(limit, ts, before)
    ensures before.views.cache[0].status == Succeeded && s.views.cache[0].status == Failed
  {
    var job, seen;
    ts, s := Enqueued0(limit);
    ts, s := Then(limit, ts, s, OfQueue(0, Pop));
    ts, s := Then(limit, ts, s, OfQueue(0, Announce(true, 0)));
    ts, s := Then(limit, ts, s, OfHandler(0, Link(false)));
    ts, s := Then(limit, ts, s, OfHandler(0, Unlink(true)));
    ts, s, job := List0(limit, ts, s);
    ts, s, job, seen := ScanAll0(limit, ts, s, job);
    ts, s := Then(limit, ts, s, OfActor(0, Sweep(Get(true))));
    ts, s := Succeed0(limit, ts, s);
    var t := OfActor(0, Sweep(Fail(true)));
    ts, s, before := Finale(limit, ts, s, t);
  }

  /** The last step of a run, with the run that it prolongs. */
  lemma Finale(limit: nat, ts0: seq<Step>, s0: State, t: Step) returns (ts: seq<Step>, s: State, before: State)
    requires Leads(limit, ts0, s0) && Enabled(s0, t)
    ensures Leads(limit, ts, s) && s == Do(s0, t) && before == s0
    ensures Passes(limit, ts, before)
  {
    before := s0;
    ts, s := Then(limit, ts0, s0, t);
    assert ts[..|ts0|] == ts0;
  }

  /** One failed read: the database says `failed` while a worker holds the task. */
  lemma TransientErrorBuries(limit: nat) returns (ts: seq<Step>, s: State)
    requires limit > 0
    ensures Leads(limit, ts, s) && 0 in s.views.cache && 0 in s.views.db && 0 in s.queue
    ensures s.views.db[0].status == Failed && s.views.cache[0].status == Running
    ensures s.queue[0] == s.queue[0].(payload := Some(0), place := InActive(Announced))
  {
    var job, seen;
    ts, s := Announced0(limit);
    ts, s, job := List0(limit, ts, s);
    ts, s, job, seen := ScanAll0(limit, ts, s, job);
    ts, s := Then(limit, ts, s, OfActor(0, Sweep(Get(false))));
    ts, s := Then(limit, ts, s, OfActor(0, Sweep(Bury(true))));
  }

  /** The cached copy was gone when the task was listed, and still a worker holds the linked task that is buried. */
  lemma ExpiredRunnerBuried(limit: nat) returns (ts: seq<Step>, s: State, before: State)
    requires limit > 0
    ensures Leads(limit, ts, s) && Passes(limit, ts, before)
    ensures 0 in before.actors && before.actors[0].SweepBurying? && before.actors[0].job.gone
    ensures 0 in s.views.db && s.views.db[0].status == Failed && s.views.db[0].queueId == Some(0)
    ensures 0 in s.queue && s.queue[0].payload == Some(0) && s.queue[0].place == InActive(Announced)
  {
    var job, seen;
    ts, s := Announced0(limit);
    ts, s := Then(limit, ts, s, Expiry(0));
    ts, s, job := List0(limit, ts, s);
    ts, s, job, seen := ScanAll0(limit, ts, s, job);
    ts, s := Then(limit, ts, s, OfActor(0, Sweep(Get(true))));
    ts, s, before := Finale(limit, ts, s, OfActor(0, Sweep(Bury(true))));
  }

  /** A record that succeeds and expires after it was listed: the database loses the success. */
  lemma ExpiredSuccessBuried(limit: nat) returns (ts: seq<Step>, s: State, before: State)
    requires limit > 0
    ensures Leads(limit, ts, s) && 0 in s.views.db && 0 in before.views.db
    ensures Passes(limit, ts, before)
    ensures before.views.db[0].status == Succeeded && s.views.db[0].status == Failed
  {
    var job, seen;
    ts, s := Announced0(limit);
    ts, s, job := List0(limit, ts, s);
    ts, s, job, seen := ScanAll0(limit, ts, s, job);
    ts, s := Succeed0(limit, ts, s);
    ts, s := Then(limit, ts, s, Expiry(0));
    ts, s := Then(limit, ts, s, OfActor(0, Sweep(Get(true))));
    ts, s, before := Finale(limit, ts, s, OfActor(0, Sweep(Bury(true))));
  }

  // ---------- shutdown and dead workers ----------

  lemma ShutScan0(limit: nat, ts0: seq<Step>, s0: State, list: nat, items: seq<TaskInfo>)
    returns (ts: seq<Step>, s: State)
    requires Leads(limit, ts0, s0) && s0.limit == limit > 0 && list <= 2
    requires s0.actors == map[0 := ShutScanning(list, items)] && s0.queue.Keys == {0}
    ensures Leads(limit, ts, s) && (Calmly(limit, ts0) ==> Calmly(limit, ts))
    ensures var found := if Rank(s0.queue[0].place) == list then [InfoOf(s0.queue, 0)] else [];
            var x := if list < 2 then ShutScanning(list + 1, items + found) else ShutMarking(items + found);
            s == s0.(actors := map[0 := x])
  {
    var page := if Rank(s0.queue[0].place) == list then [0] else [];
    assert Infos(s0.queue, page) == if Rank(s0.queue[0].place) == list then [InfoOf(s0.queue, 0)] else [];
    ts, s := Then(limit, ts0, s0, OfActor(0, Shutdown(ShutScan(true, page))));
  }

  /** The shutdown sweep has listed the pending task. */
  lemma ShutListed0(limit: nat) returns (ts: seq<Step>, s: State, item: TaskInfo)
    requires limit > 0
    ensures Leads(limit, ts, s) && Calmly(limit, ts) && s.actors == map[0 := ShutMarking([item])]
    ensures item.q == 0 && item.payload == Some(0)
    ensures Scene(s.(actors := map[]), limit, Pending, Some(0), InPending, 0, map[])
  {
    ts, s := Linked0(limit);
    item := InfoOf(s.queue, 0);
    ts, s := Then(limit, ts, s, OfActor(0, Shutdown(ShutStart)));
    ts, s := ShutScan0(limit, ts, s, 0, []);
    ts, s := ShutScan0(limit, ts, s, 1, s.actors[0].items);
    ts, s := ShutScan0(limit, ts, s, 2, s.actors[0].items);
    assert s.actors[0].items == [item];
  }

  /** The shutdown sweep listed the task while it waited, and a worker has had its report accepted since. */
  lemma ShutReported0(limit: nat) returns (ts: seq<Step>, s: State, item: TaskInfo)
    requires limit > 0
    ensures Leads(limit, ts, s) && Calmly(limit, ts) && s.actors == map[0 := ShutMarking([item])]
    ensures item.q == 0 && item.payload == Some(0) && s.queue.Keys == {0} && s.queue[0].payload == Some(0)
    ensures s.queue[0].place == InActive(Finished) && 0 in s.views.cache && s.views.cache[0].status == Succeeded
  {
    ts, s, item := ShutListed0(limit);
    ts, s := Then(limit, ts, s, OfQueue(0, Pop));
    ts, s := Then(limit, ts, s, OfQueue(0, Announce(true, 0)));
    ts, s := Succeed0(limit, ts, s);
  }

  /** The shutdown sweep runs while workers run: it fails a task that has succeeded meanwhile. */
  lemma ShutdownOverwritesSuccess(limit: nat) returns (ts: seq<Step>, s: State, before: State)
    requires limit > 0
    ensures Leads(limit, ts, s) && 0 in s.views.cache && 0 in before.views.cache
    ensures Passes(limit, ts, before)
    ensures before.views.cache[0].status == Succeeded && s.views.cache[0].status == Failed
  {
    var item;
    ts, s, item := ShutReported0(limit);
    ts, s, before := Finale(limit, ts, s, OfActor(0, Shutdown(ShutMark(true))));
  }

  /** A worker dies after its report and its task becomes pending again. */
  lemma Reissued0(limit: nat) returns (ts: seq<Step>, s: State)
    requires limit > 0
    ensures Leads(limit, ts, s) && s.queue.Keys == {0} && s.queue[0].payload == Some(0) && s.queue[0].place.InPending?
    ensures 0 in s.views.cache && s.views.cache[0].status == Succeeded
  {
    ts, s := Announced0(limit);
    ts, s := Succeed0(limit, ts, s);
    ts, s := Then(limit, ts, s, OfQueue(0, WorkerCrash));
    ts, s := Then(limit, ts, s, OfQueue(0, Recover(0)));
    ts, s := Then(limit, ts, s, OfQueue(0, Forward));
  }

  /** A worker dies between its last write and its return: the task runs again. */
  lemma RecoveryUndoesSuccess(limit: nat) returns (ts: seq<Step>, s: State, before: State)
    requires limit > 0
    ensures Leads(limit, ts, s) && 0 in s.views.cache && 0 in before.views.cache
    ensures Passes(limit, ts, before)
    ensures before.views.cache[0].status == Succeeded && s.views.cache[0].status == Running
  {
    ts, s := Reissued0(limit);
    ts, s := Then(limit, ts, s, OfQueue(0, Pop));
    ts, s, before := Finale(limit, ts, s, OfQueue(0, Announce(true, 0)));
  }

  /** When the link write fails and the entry is withdrawn, no step marks the record: it stays pending. */
  lemma FailedLinkLeavesPending(limit: nat) returns (ts: seq<Step>, s: State)
    requires limit > 0
    ensures Leads(limit, ts, s)
    ensures s.queue == map[] && s.handlers == map[] && s.actors == map[]
    ensures 0 in s.views.db && s.views.db[0].status == Pending && s.views.db[0].queueId == None
  {
    ts, s := Enqueued0(limit);
    ts, s := Then(limit, ts, s, OfHandler(0, Link(false)));
    ts, s := Then(limit, ts, s, OfHandler(0, Unlink(true)));
  }

}
