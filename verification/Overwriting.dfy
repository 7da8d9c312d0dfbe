/**
 The branch of the status sweep for suspect tasks: between the read and the write others may move.
 Exactly when the write can overwrite a success.
 */
module Overwriting {

  import opened Wrappers
  import opened Records
  import opened Queues
  import opened Protocol
  import opened Invariant
  import opened Evolution
  import opened Reachable
  import opened SweepSafety
  import opened Successes

  /** The sweep has read a listed task that its listing missed nothing of, and takes it for lost. */
  ghost predicate FindsSuspect(s: State, a: nat) {
    && SweepEnabled(s, a, Get(true))
    && var job := s.actors[a].jobs[0];
       && job.covered && job.id in s.views.cache
       && Suspect(s.views.cache[job.id], s.actors[a].seen, job.status)
  }

  /** The sweep's next step turns a success of both views into a failure. */
  ghost predicate Overwrites(s: State, a: nat, id: TaskId) {
    && Succeeds(s, id) && SweepEnabled(s, a, Fail(true))
    && var t := DoSweep(s, a, Fail(true));
       && id in t.views.db && t.views.db[id].status == Failed
       && id in t.views.cache && t.views.cache[id].status == Failed
  }

  lemma FailingOverwrites(s: State, a: nat)
    requires a in s.actors && s.actors[a].SweepFailing? && Succeeds(s, s.actors[a].job.id)
    ensures Overwrites(s, a, s.actors[a].job.id)
  {
  }

  /** While others move the sweep still stands before its write. */
  lemma FailureFollows(s: State, a: nat, us: seq<Step>)
    requires FindsSuspect(s, a) && Legal(DoSweep(s, a, Get(true)), us) && StepsOfOthers(us, a)
    ensures var t := Run(DoSweep(s, a, Get(true)), us);
            a in t.actors && t.actors[a].SweepFailing? && t.actors[a].job.id == s.actors[a].jobs[0].id
  {
    ActorWaits(DoSweep(s, a, Get(true)), us, a);
  }

  /** Without an orphan nothing can succeed any more, whoever moves. */
  lemma SoundStaysSound(s: State, a: nat, us: seq<Step>)
    requires Inv(s) && FindsSuspect(s, a) && !Orphaned(s, s.actors[a].jobs[0].id)
    requires Legal(DoSweep(s, a, Get(true)), us)
    ensures !HasSucceeded(Run(DoSweep(s, a, Get(true)), us).views, s.actors[a].jobs[0].id)
  {
    var job, get := s.actors[a].jobs[0], OfActor(a, Sweep(Get(true)));
    assert ActorOk(s, s.actors[a]);
    assert JobKnown(s, job) && JobCovered(s, job, s.actors[a].seen);
    SuspectIsSpent(s, job, s.actors[a].seen);
    StepKeepsInv(s, get);
    StepEvolves(s, get);
    SpentStays(s, Do(s, get), job.id);
    SpentForever(Do(s, get), us, job.id);
  }

  lemma OrphanSucceeds(s: State, a: nat)
    requires Inv(s) && FindsSuspect(s, a) && Orphaned(s, s.actors[a].jobs[0].id)
    ensures CanSucceed(DoSweep(s, a, Get(true)), a, s.actors[a].jobs[0].id)
  {
    var id, get := s.actors[a].jobs[0].id, OfActor(a, Sweep(Get(true)));
    var q :| q in s.queue && Live(s.queue[q].place) && s.queue[q].payload == Some(id)
             && !(id in s.views.db && s.views.db[id].queueId == Some(q));
    StepKeepsCore(s, get);
    assert Carries(Do(s, get), q, id);
    LiveSucceeds(Do(s, get), a, q, id);
  }

  /**
   Between the read and the write steps of others can bring a success for the sweep to overwrite if
   and only if some entry that can still run carries the task without being named by its record.
   */
  lemma FailLosesSuccessIff(limit: nat, ts: seq<Step>, a: nat)
    requires Legal(Init(limit), ts) && FindsSuspect(Run(Init(limit), ts), a)
    ensures var s := Run(Init(limit), ts);
            var id, s1 := s.actors[a].jobs[0].id, DoSweep(s, a, Get(true));
            (exists us :: Legal(s1, us) && StepsOfOthers(us, a) && Overwrites(Run(s1, us), a, id)) <==> Orphaned(s, id)
  {
    var s := Run(Init(limit), ts);
    var id, s1 := s.actors[a].jobs[0].id, DoSweep(s, a, Get(true));
    RunKeepsInv(Init(limit), ts);
    if Orphaned(s, id) {
      OrphanSucceeds(s, a);
      var us :| Legal(s1, us) && StepsOfOthers(us, a) && Succeeds(Run(s1, us), id);
      FailureFollows(s, a, us);
      FailingOverwrites(Run(s1, us), a);
    } else {
      forall us | Legal(s1, us) ensures !HasSucceeded(Run(s1, us).views, id) {
        SoundStaysSound(s, a, us);
      }
    }
  }

}
