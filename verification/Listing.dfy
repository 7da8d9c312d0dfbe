/** Four list calls that are not atomic, with any steps of others in between: what they cannot miss. */
module Listing {

  import opened Wrappers
  import opened Records
  import opened Queues
  import opened Protocol
  import opened Invariant
  import opened Evolution
  import opened Reachable

  /** All that the actor does is to read list after list. */
  predicate OnlyScans(us: seq<Step>, a: nat) {
    forall t: Step :: t in us && t.OfActor? && t.a == a ==> t.x.Sweep? && t.x.w.Scan?
  }

  ghost predicate ScansList(s: State, a: nat, list: nat) {
    a in s.actors && s.actors[a].SweepScanning? && s.actors[a].list == list
  }

  /**
   What is known of an entry part of the way through the lists: if it can still run and made no
   backward move since the first list call, it was seen or is on a list still to be read.
   */
  ghost predicate Caught(s: State, a: nat, q: QueueId, id: TaskId, backs: nat) {
    && q < s.nextQueue && backs <= Backs(s, id)
    && (q in s.queue ==> s.queue[q].payload == Some(id))
    && a in s.actors
    && (s.actors[a].SweepScanning? && s.actors[a].whole
        && q in s.queue && Live(s.queue[q].place) && Backs(s, id) == backs ==>
          q in s.actors[a].seen || Rank(s.queue[q].place) >= s.actors[a].list)
  }

  lemma ScanCatches(s: State, a: nat, ok: bool, page: seq<QueueId>, q: QueueId, id: TaskId, backs: nat)
    requires Caught(s, a, q, id, backs) && SweepEnabled(s, a, Scan(ok, page))
    ensures Caught(DoSweep(s, a, Scan(ok, page)), a, q, id, backs)
  {
    var t := DoSweep(s, a, Scan(ok, page));
    assert Backs(t, id) == Backs(s, id);
    if q in s.queue && Rank(s.queue[q].place) == s.actors[a].list {
      assert q in OnList(s.queue, s.actors[a].list);
    }
  }

  lemma OthersLetCatch(s: State, t: Step, a: nat, q: QueueId, id: TaskId, backs: nat)
    requires Core(s) && Enabled(s, t) && (t.OfActor? ==> t.a != a) && Caught(s, a, q, id, backs)
    ensures Caught(Do(s, t), a, q, id, backs)
  {
    var s' := Do(s, t);
    OthersStand(s, t, a);
    StepKeepsIds(s, t);
    StepEvolves(s, t);
    assert Backs(s', id) >= Backs(s, id);
    if q in s'.queue {
      assert Descends(s, s', q);
    }
  }

  lemma {:induction false} CaughtAlong(s: State, us: seq<Step>, a: nat, q: QueueId, id: TaskId, backs: nat)
    requires Inv(s) && Legal(s, us) && OnlyScans(us, a) && Caught(s, a, q, id, backs)
    ensures Inv(Run(s, us)) && Caught(Run(s, us), a, q, id, backs)
    decreases |us|
  {
    if us != [] {
      var t := us[0];
      assert t in us;
      StepKeepsInv(s, t);
      if t.OfActor? && t.a == a {
        ScanCatches(s, a, t.x.w.ok, t.x.w.page, q, id, backs);
      } else {
        OthersLetCatch(s, t, a, q, id, backs);
      }
      CaughtAlong(Do(s, t), us[1..], a, q, id, backs);
    }
  }

  /**
   Whatever was listed for, whoever's entry it is: an entry that is there when the first list is
   read, and can still run when the last one has been, is among the entries returned, if every call
   answered with all of its list and the entry made no move against the order scheduled, pending,
   retry, active in between.
   */
  lemma ListingMissesNothing(limit: nat, ts: seq<Step>, a: nat, us: seq<Step>, page: seq<QueueId>,
                             q: QueueId, id: TaskId)
    requires Legal(Init(limit), ts)
    requires var s := Run(Init(limit), ts);
             && ScansList(s, a, 0) && Carries(s, q, id)
             && Legal(s, us) && OnlyScans(us, a)
             && var t := Run(s, us);
                && ScansList(t, a, 3) && t.actors[a].whole && Covers(t.queue, 3, page)
                && q in t.queue && Live(t.queue[q].place) && Backs(t, id) == Backs(s, id)
    ensures var t := Run(Run(Init(limit), ts), us);
            q in t.actors[a].seen || q in page
  {
    var s := Run(Init(limit), ts);
    RunKeepsInv(Init(limit), ts);
    assert EntryOk(s, q);
    CaughtAlong(s, us, a, q, id, Backs(s, id));
    var t := Run(s, us);
    assert Rank(t.queue[q].place) >= 3 ==> q in OnList(t.queue, 3);
  }

  // ---------- the tasks of a sweep ----------

  /** The wait has just ended: where the sweep's tasks stand is noted. */
  ghost predicate Settled(s: State, jobs: seq<Job>) {
    forall job :: job in jobs ==> job.backs == Backs(s, job.id) && (job.settled ==> job.id !in s.handlers)
  }

  /** A run that ends with a sweep part of the way through the lists has a moment when it began to read them. */
  ghost predicate BeganAt(limit: nat, ts: seq<Step>, a: nat, n: nat) {
    && n <= |ts| && Legal(Init(limit), ts) && Legal(Init(limit), ts[..n])
    && a in Run(Init(limit), ts).actors && Run(Init(limit), ts).actors[a].SweepScanning?
    && var s, t := Run(Init(limit), ts[..n]), Run(Init(limit), ts);
       && ScansList(s, a, 0) && s.actors[a].jobs == t.actors[a].jobs && Settled(s, s.actors[a].jobs)
       && Legal(s, ts[n..]) && Run(s, ts[n..]) == t && OnlyScans(ts[n..], a)
  }

  lemma BeganNow(limit: nat, ts: seq<Step>, a: nat)
    requires Legal(Init(limit), ts)
    requires var s := Run(Init(limit), ts); ScansList(s, a, 0) && Settled(s, s.actors[a].jobs)
    ensures BeganAt(limit, ts, a, |ts|)
  {
    assert ts[..|ts|] == ts && ts[|ts|..] == [];
  }

  lemma BeganEarlier(limit: nat, ts: seq<Step>, t: Step, a: nat, n: nat)
    requires BeganAt(limit, ts, a, n) && Enabled(Run(Init(limit), ts), t)
    requires t.OfActor? && t.a == a ==> t.x.Sweep? && t.x.w.Scan?
    requires var s, s' := Run(Init(limit), ts), Do(Run(Init(limit), ts), t);
             a in s'.actors && s'.actors[a].SweepScanning? && s'.actors[a].jobs == s.actors[a].jobs
    ensures BeganAt(limit, ts + [t], a, n)
  {
    var s0 := Run(Init(limit), ts[..n]);
    RunOf1(Run(Init(limit), ts), t);
    RunSplit(Init(limit), ts, [t]);
    RunSplit(s0, ts[n..], [t]);
    assert (ts + [t])[..n] == ts[..n] && (ts + [t])[n..] == ts[n..] + [t];
  }

  lemma WaitBegins(s: State, a: nat)
    requires SweepEnabled(s, a, Wait)
    ensures var t := DoSweep(s, a, Wait); ScansList(t, a, 0) && Settled(t, t.actors[a].jobs)
  {
    var t := DoSweep(s, a, Wait);
    forall job | job in t.actors[a].jobs
      ensures job.backs == Backs(t, job.id) && (job.settled ==> job.id !in t.handlers)
    {
      assert Backs(t, job.id) == Backs(s, job.id);
    }
  }

  /** What brings an actor to a place within the lists. */
  lemma IntoScanning(s: State, t: Step, a: nat)
    requires Enabled(s, t) && a in Do(s, t).actors && Do(s, t).actors[a].SweepScanning?
    ensures t.OfActor? && t.a == a ==> t.x == Sweep(Wait) || (t.x.Sweep? && t.x.w.Scan?)
    ensures !(t.OfActor? && t.a == a && t.x == Sweep(Wait)) ==>
              a in s.actors && s.actors[a].SweepScanning? && s.actors[a].jobs == Do(s, t).actors[a].jobs
  {
    if t.OfActor? && t.a == a {
    } else {
      OthersStand(s, t, a);
    }
  }

  lemma {:induction false} ListingBegan(limit: nat, ts: seq<Step>, a: nat) returns (n: nat)
    requires Legal(Init(limit), ts)
    requires a in Run(Init(limit), ts).actors && Run(Init(limit), ts).actors[a].SweepScanning?
    ensures BeganAt(limit, ts, a, n)
    decreases |ts|
  {
    if ts != [] {
      var front, t := ts[..|ts| - 1], ts[|ts| - 1];
      assert ts == front + [t];
      RunSplit(Init(limit), front, [t]);
      var s := Run(Init(limit), front);
      RunOf1(s, t);
      IntoScanning(s, t, a);
      if t.OfActor? && t.a == a && t.x == Sweep(Wait) {
        WaitBegins(s, a);
        BeganNow(limit, ts, a);
        n := |ts|;
      } else {
        n := ListingBegan(limit, front, a);
        BeganEarlier(limit, front, t, a, n);
      }
    }
  }

  /** A task whose handler had ended gets no new entry. */
  lemma {:induction false} NoNewEntry(s: State, us: seq<Step>, q: QueueId, id: TaskId)
    requires Inv(s) && Legal(s, us) && id < |s.hist| && id !in s.handlers
    requires Carries(Run(s, us), q, id) && Live(Run(s, us).queue[q].place)
    ensures Carries(s, q, id) && Live(s.queue[q].place)
    decreases |us|
  {
    if us != [] {
      StepKeepsInv(s, us[0]);
      StepEvolves(s, us[0]);
      NoNewEntry(Do(s, us[0]), us[1..], q, id);
      if q in s.queue {
        assert Descends(s, Do(s, us[0]), q);
      }
    }
  }

  /**
   The sweep's own tasks, with no reference to where the listing began: every live entry of a listed
   task whose handler had ended with the wait is among the entries seen.
   */
  lemma ListedTasksAreSeen(limit: nat, ts: seq<Step>, a: nat, ok: bool, page: seq<QueueId>, i: nat, q: QueueId)
    requires Legal(Init(limit), ts)
    requires var s := Run(Init(limit), ts);
             && SweepEnabled(s, a, Scan(ok, page))
             && s.actors[a].list == 3
             && i < |s.actors[a].jobs|
             && var job := s.actors[a].jobs[i];
                && s.actors[a].whole && ok && Covers(s.queue, 3, page)
                && job.settled && Backs(s, job.id) == job.backs
                && Carries(s, q, job.id) && Live(s.queue[q].place)
    ensures var s := Run(Init(limit), ts);
            q in s.actors[a].seen || q in page
  {
    var t := Run(Init(limit), ts);
    var job := t.actors[a].jobs[i];
    var n := ListingBegan(limit, ts, a);
    var s := Run(Init(limit), ts[..n]);
    RunKeepsInv(Init(limit), ts[..n]);
    assert job in s.actors[a].jobs;
    assert ActorOk(s, s.actors[a]) && JobKnown(s, job) && TaskOk(s, job.id);
    NoNewEntry(s, ts[n..], q, job.id);
    ListingMissesNothing(limit, ts[..n], a, ts[n..], page, q, job.id);
  }

}
