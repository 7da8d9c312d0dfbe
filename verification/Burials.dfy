/**
 The branch of the status sweep for records that cannot be read: it writes `failed` into the
 database without looking at what it says.  Exactly when this hits a task that is still in the
 queue, and exactly when it can lose a success.
 */
module Burials {

  import opened Records
  import opened Queues
  import opened Protocol
  import opened Invariant
  import opened Evolution
  import opened Reachable
  import opened SweepSafety
  import CancelIsFinal
  import opened Successes

  /** The sweep reads the record of a listed task, in vain. */
  ghost predicate ReadsInVain(s: State, a: nat, ok: bool) {
    && SweepEnabled(s, a, Get(ok))
    && s.actors[a].jobs[0].covered
    && (!ok || s.actors[a].jobs[0].id !in s.views.cache)
  }

  /** An entry the sweep has seen still carries the task and can run. */
  ghost predicate SeenAlive(s: State, a: nat, id: TaskId)
    requires a in s.actors && s.actors[a].SweepChecking?
  {
    exists q :: q in s.actors[a].seen && Carries(s, q, id) && Live(s.queue[q].place)
  }

  lemma CoveredIsSeen(s: State, a: nat, ok: bool)
    requires Inv(s) && ReadsInVain(s, a, ok)
    ensures var id := s.actors[a].jobs[0].id;
            && id in s.views.db
            && (InQueue(s, id) <==> SeenAlive(s, a, id))
            && (!InQueue(s, id) ==> Quiet(s, id))
  {
    var job := s.actors[a].jobs[0];
    assert ActorOk(s, s.actors[a]);
    assert JobKnown(s, job) && JobCovered(s, job, s.actors[a].seen);
    if !InQueue(s, job.id) {
      forall q | Carries(s, q, job.id) ensures s.queue[q].place.InArchived? {
        assert !Live(s.queue[q].place);
      }
    }
  }

  /**
   A burial right after the read, exactly: it fails a task that is still in the queue if and only
   if an entry that the sweep has seen still carries it.  Whether the cached copy was gone when the
   task was listed makes no difference.
   */
  lemma BurialIsWrongIffSeenAlive(limit: nat, ts: seq<Step>, a: nat, ok: bool)
    requires Legal(Init(limit), ts) && ReadsInVain(Run(Init(limit), ts), a, ok)
    ensures var s := Run(Init(limit), ts);
            var id, s1 := s.actors[a].jobs[0].id, DoSweep(s, a, Get(ok));
            && SweepEnabled(s1, a, Bury(true))
            && var t := DoSweep(s1, a, Bury(true));
               && id in t.views.db && t.views.db[id].status == Failed
               && (InQueue(t, id) <==> SeenAlive(s, a, id))
  {
    var s := Run(Init(limit), ts);
    RunKeepsInv(Init(limit), ts);
    CoveredIsSeen(s, a, ok);
    var id := s.actors[a].jobs[0].id;
    var t := DoSweep(DoSweep(s, a, Get(ok)), a, Bury(true));
    assert t.queue == s.queue;
    assert InQueue(t, id) <==> InQueue(s, id) by {
      assert forall q :: Carries(t, q, id) <==> Carries(s, q, id);
    }
  }

  /** When no seen entry carried the task at the read, none can run it at the burial or ever after. */
  lemma BurialStaysRight(limit: nat, ts: seq<Step>, a: nat, ok: bool, us: seq<Step>)
    requires Legal(Init(limit), ts) && ReadsInVain(Run(Init(limit), ts), a, ok)
    requires var s := Run(Init(limit), ts);
             !SeenAlive(s, a, s.actors[a].jobs[0].id) && Legal(DoSweep(s, a, Get(ok)), us)
    ensures var s := Run(Init(limit), ts);
            var id, t := s.actors[a].jobs[0].id, Run(DoSweep(s, a, Get(ok)), us);
            && !InQueue(t, id)
            && (SucceededIn(t.views.db, id) ==> SucceededIn(s.views.db, id))
  {
    var s := Run(Init(limit), ts);
    RunKeepsInv(Init(limit), ts);
    CoveredIsSeen(s, a, ok);
    var id := s.actors[a].jobs[0].id;
    QuietAfter(s, OfActor(a, Sweep(Get(ok))), us, id);
  }

  lemma QuietAfter(s: State, w: Step, us: seq<Step>, id: TaskId)
    requires Inv(s) && Quiet(s, id) && Enabled(s, w) && Legal(Do(s, w), us)
    ensures var t := Run(Do(s, w), us);
            !InQueue(t, id) && (SucceededIn(t.views.db, id) ==> SucceededIn(s.views.db, id))
  {
    assert Legal(s, [w] + us) && Run(s, [w] + us) == Run(Do(s, w), us) by {
      assert ([w] + us)[0] == w && ([w] + us)[1..] == us;
    }
    CancelIsFinal.QuietForever(s, [w] + us, id);
    QuietRuns(s, [w] + us, id);
  }

  lemma {:induction false} QuietRuns(s: State, us: seq<Step>, id: TaskId)
    requires Inv(s) && Legal(s, us) && Quiet(s, id)
    ensures Quiet(Run(s, us), id)
    decreases |us|
  {
    if us != [] {
      StepKeepsInv(s, us[0]);
      StepEvolves(s, us[0]);
      QuietStays(s, Do(s, us[0]), id);
      QuietRuns(Do(s, us[0]), us[1..], id);
    }
  }

  // ---------- successes ----------

  /** The sweep's next step fails the task in the database. */
  ghost predicate BuriesNext(s: State, a: nat, id: TaskId) {
    && SweepEnabled(s, a, Bury(true))
    && var t := DoSweep(s, a, Bury(true));
       id in t.views.db && t.views.db[id].status == Failed
  }

  lemma BuryingBuries(s: State, a: nat)
    requires Inv(s) && a in s.actors && s.actors[a].SweepBurying?
    ensures BuriesNext(s, a, s.actors[a].job.id)
  {
    assert ActorOk(s, s.actors[a]);
  }

  lemma BurialFollows(s: State, a: nat, ok: bool, us: seq<Step>)
    requires Inv(s) && ReadsInVain(s, a, ok)
    requires Legal(DoSweep(s, a, Get(ok)), us) && StepsOfOthers(us, a)
    ensures BuriesNext(Run(DoSweep(s, a, Get(ok)), us), a, s.actors[a].jobs[0].id)
  {
    var get := OfActor(a, Sweep(Get(ok)));
    StepKeepsInv(s, get);
    var s1 := Do(s, get);
    assert s1.actors[a].SweepBurying? && s1.actors[a].job == s.actors[a].jobs[0];
    RunKeepsInv(s1, us);
    ActorWaits(s1, us, a);
    BuryingBuries(Run(s1, us), a);
  }

  lemma {:induction false} UncachedGainsNothing(s: State, us: seq<Step>, id: TaskId)
    requires Inv(s) && Legal(s, us) && id in s.views.db && id !in s.views.cache
    ensures SucceededIn(Run(s, us).views.db, id) ==> SucceededIn(s.views.db, id)
    decreases |us|
  {
    if us != [] {
      StepKeepsInv(s, us[0]);
      StepEvolves(s, us[0]);
      UncachedGainsNothing(Do(s, us[0]), us[1..], id);
    }
  }

  /**
   Between the read and the burial others may move.  The burial can then overwrite a success if and
   only if the database says `succeeded` at the read already, or an entry that the sweep has seen
   still carries the task and its cached copy is there, so that the read failed for another reason.
   */
  lemma BurialLosesSuccessIff(limit: nat, ts: seq<Step>, a: nat, ok: bool)
    requires Legal(Init(limit), ts) && ReadsInVain(Run(Init(limit), ts), a, ok)
    ensures var s := Run(Init(limit), ts);
            var id := s.actors[a].jobs[0].id;
            && (CanSucceedInDb(DoSweep(s, a, Get(ok)), a, id) <==>
                  SucceededIn(s.views.db, id) || (SeenAlive(s, a, id) && id in s.views.cache))
            && (forall us :: Legal(DoSweep(s, a, Get(ok)), us) && StepsOfOthers(us, a) ==>
                  BuriesNext(Run(DoSweep(s, a, Get(ok)), us), a, id))
  {
    var s := Run(Init(limit), ts);
    var id, get := s.actors[a].jobs[0].id, OfActor(a, Sweep(Get(ok)));
    var s1 := Do(s, get);
    RunKeepsInv(Init(limit), ts);
    CoveredIsSeen(s, a, ok);
    StepKeepsInv(s, get);
    forall us | Legal(s1, us) && StepsOfOthers(us, a) ensures BuriesNext(Run(s1, us), a, id) {
      BurialFollows(s, a, ok, us);
    }
    if SucceededIn(s.views.db, id) {
      assert Legal(s1, []) && SucceededIn(Run(s1, []).views.db, id);
    } else if SeenAlive(s, a, id) && id in s.views.cache {
      var q :| q in s.actors[a].seen && Carries(s, q, id) && Live(s.queue[q].place);
      assert Carries(s1, q, id);
      LiveSucceeds(s1, a, q, id);
    } else {
      forall us | Legal(s1, us) ensures !SucceededIn(Run(s1, us).views.db, id) {
        if SeenAlive(s, a, id) {
          UncachedGainsNothing(s1, us, id);
        } else {
          QuietAfter(s, get, us, id);
        }
      }
    }
  }

}
