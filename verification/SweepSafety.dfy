/**
 When the status sweep may be trusted: what it is about to fail is not running, will not run and
 has not succeeded, whatever cancels, workers, retries, crashes and other sweeps did meanwhile.
 */
module SweepSafety {

  import opened Wrappers
  import opened Records
  import opened Queues
  import opened Protocol
  import opened Invariant
  import opened Evolution
  import opened Reachable

  /** Some entry that can still run carries the task. */
  ghost predicate InQueue(s: State, id: TaskId) {
    exists q :: Carries(s, q, id) && Live(s.queue[q].place)
  }

  /**
   The decision of the sweep, exactly.  The HTTP handler of the task had ended when the wait was
   over and the listing missed nothing of it (`covered`).  Then a task that the sweep decides to
   fail is still in the queue if and only if its record does not name its entry.
   */
  lemma VerdictIsWrongIffOrphaned(limit: nat, ts: seq<Step>, a: nat)
    requires Legal(Init(limit), ts)
    requires var s := Run(Init(limit), ts);
             && SweepEnabled(s, a, Get(true))
             && var job := s.actors[a].jobs[0];
                && job.covered
                && job.id in s.views.cache
                && Suspect(s.views.cache[job.id], s.actors[a].seen, job.status)
    ensures var s := Run(Init(limit), ts);
            var id := s.actors[a].jobs[0].id;
            && (InQueue(s, id) <==> Orphaned(s, id))
            && (s.views.cache[id].queueId.Some? ==> !Orphaned(s, id))
            && !HasSucceeded(s.views, id)
            && var x := DoSweep(s, a, Get(true)).actors[a];
               x.SweepFailing? && x.job.id == id && (x.sound <==> !InQueue(s, id))
  {
    RunKeepsInv(Init(limit), ts);
    var s := Run(Init(limit), ts);
    var job := s.actors[a].jobs[0];
    assert ActorOk(s, s.actors[a]);
    assert JobKnown(s, job) && JobCovered(s, job, s.actors[a].seen);
    if Orphaned(s, job.id) {
      var q :| q in s.queue && Live(s.queue[q].place) && s.queue[q].payload == Some(job.id)
                && s.views.db[job.id].queueId != Some(q);
      assert EntryOk(s, q) && Carries(s, q, job.id);
    } else {
      SuspectIsSpent(s, job, s.actors[a].seen);
    }
  }

  /**
   From a sound verdict to the write any number of steps of the others may pass.  When the sweep
   finally writes `failed`, the task is in no list but the archive, its HTTP handler cannot
   enqueue it, neither view says `succeeded`, and this stays so in every continuation.
   */
  lemma StatusSweepIsSafe(limit: nat, ts: seq<Step>, a: nat, ok: bool, us: seq<Step>)
    requires Legal(Init(limit), ts)
    requires var s := Run(Init(limit), ts);
             && SweepEnabled(s, a, Fail(ok)) && s.actors[a].sound
             && Legal(DoSweep(s, a, Fail(ok)), us)
    ensures var s := Run(Init(limit), ts);
            var id := s.actors[a].job.id;
            var t := Run(DoSweep(s, a, Fail(ok)), us);
            && !InQueue(s, id) && !HasSucceeded(s.views, id)
            && !InQueue(t, id) && !HasSucceeded(t.views, id)
  {
    RunKeepsInv(Init(limit), ts);
    var s := Run(Init(limit), ts);
    assert ActorOk(s, s.actors[a]);
    var w := OfActor(a, Sweep(Fail(ok)));
    StepKeepsInv(s, w);
    StepEvolves(s, w);
    SpentStays(s, Do(s, w), s.actors[a].job.id);
    SpentForever(Do(s, w), us, s.actors[a].job.id);
  }

  /**
   From the read to the write, with no reference to what the model remembers: a suspect task whose
   record names an entry is failed only when it is in no list but the archive and has not succeeded,
   however many steps others take in between, and this stays so.
   */
  lemma LinkedTasksAreSafe(limit: nat, ts: seq<Step>, a: nat, us: seq<Step>, ok: bool, vs: seq<Step>)
    requires Legal(Init(limit), ts)
    requires var s := Run(Init(limit), ts);
             && SweepEnabled(s, a, Get(true))
             && var job := s.actors[a].jobs[0];
                && job.covered
                && job.id in s.views.cache && s.views.cache[job.id].queueId.Some?
                && Suspect(s.views.cache[job.id], s.actors[a].seen, job.status)
                && var s1 := DoSweep(s, a, Get(true));
                   Legal(s1, us) && StepsOfOthers(us, a)
    ensures var s := Run(Init(limit), ts);
            var id, t := s.actors[a].jobs[0].id, Run(DoSweep(s, a, Get(true)), us);
            && SweepEnabled(t, a, Fail(ok)) && t.actors[a].job.id == id
            && !InQueue(t, id) && !HasSucceeded(t.views, id)
            && (Legal(DoSweep(t, a, Fail(ok)), vs) ==>
                  var u := Run(DoSweep(t, a, Fail(ok)), vs);
                  !InQueue(u, id) && !HasSucceeded(u.views, id))
  {
    var s := Run(Init(limit), ts);
    var get := OfActor(a, Sweep(Get(true)));
    VerdictIsWrongIffOrphaned(limit, ts, a);
    ActorWaits(Do(s, get), us, a);
    RunOf1(s, get);
    RunSplit(s, [get], us);
    RunSplit(Init(limit), ts, [get] + us);
    var t := Run(Do(s, get), us);
    if Legal(DoSweep(t, a, Fail(ok)), vs) {
      StatusSweepIsSafe(limit, ts + ([get] + us), a, ok, vs);
    } else {
      StatusSweepIsSafe(limit, ts + ([get] + us), a, ok, []);
    }
  }

  lemma {:induction false} SpentForever(s: State, us: seq<Step>, id: TaskId)
    requires Inv(s) && Legal(s, us) && Spent(s, id)
    ensures Spent(Run(s, us), id)
    decreases |us|
  {
    if us != [] {
      StepKeepsInv(s, us[0]);
      StepEvolves(s, us[0]);
      SpentStays(s, Do(s, us[0]), id);
      SpentForever(Do(s, us[0]), us[1..], id);
    }
  }

  /**
   The branch for expired records writes `failed` into the database without looking at what it
   says.  If the cached copy was already gone when the task was listed, the database does not say
   `succeeded` at that moment and no ordinary update can make it.
   */
  lemma BurialIsSafe(limit: nat, ts: seq<Step>, a: nat, ok: bool)
    requires Legal(Init(limit), ts)
    requires var s := Run(Init(limit), ts); SweepEnabled(s, a, Bury(ok)) && s.actors[a].job.gone
    ensures var s := Run(Init(limit), ts);
            var id := s.actors[a].job.id;
            && id in s.views.db && s.views.db[id].status != Succeeded
            && !Accepts(s.views, id)
  {
    RunKeepsInv(Init(limit), ts);
    var s := Run(Init(limit), ts);
    assert ActorOk(s, s.actors[a]);
  }

}
