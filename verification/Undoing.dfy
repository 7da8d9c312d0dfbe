/** Exactly when handing an entry back, and marking a task on shutdown, can undo a success. */
module Undoing {

  import opened Wrappers
  import opened Records
  import opened Queues
  import opened Protocol
  import opened Invariant
  import opened Evolution
  import opened Reachable
  import opened Absorption
  import Counterexamples

  // ---------- pages and actors that exist ----------

  /** Any part of a set, as long as asked for or as large as the set. */
  lemma {:induction false} Enumerate(on: set<QueueId>, n: nat) returns (page: seq<QueueId>)
    ensures NoDup(page) && |page| <= n
    ensures forall q :: q in page ==> q in on
    ensures |page| < n ==> forall q :: q in on ==> q in page
    decreases on
  {
    if n == 0 || on == {} {
      page := [];
    } else {
      var q :| q in on;
      var rest := Enumerate(on - {q}, n - 1);
      page := [q] + rest;
    }
  }

  /** Some page of a list starts with a given entry. */
  lemma PageFrom(queue: Queue, list: nat, limit: nat, q: QueueId) returns (page: seq<QueueId>)
    requires limit > 0 && q in OnList(queue, list)
    ensures IsPage(queue, list, limit, page) && page != [] && page[0] == q
  {
    var rest := Enumerate(OnList(queue, list) - {q}, limit - 1);
    page := [q] + rest;
  }

  lemma {:induction false} FreshKey(keys: set<nat>) returns (a: nat)
    ensures forall k :: k in keys ==> k < a
    decreases keys
  {
    if k :| k in keys {
      var b := FreshKey(keys - {k});
      a := if k < b then b else k + 1;
      forall j | j in keys ensures j < a {
        assert j == k || j in keys - {k};
      }
    } else {
      a := 0;
    }
  }

  // ---------- entries that are handed back ----------

  /** A success that one state has and the other has not. */
  ghost predicate Undone(s: State, t: State, id: TaskId) {
    || (SucceededIn(s.views.db, id) && !SucceededIn(t.views.db, id))
    || (SucceededIn(s.views.cache, id) && id in t.views.cache && !SucceededIn(t.views.cache, id))
  }

  /** After the step, some calm run undoes a success of the task. */
  ghost predicate CanUndo(s: State, w: Step, id: TaskId)
    requires Enabled(s, w)
  {
    exists us :: Legal(Do(s, w), us) && CalmRun(Do(s, w), us) && Undone(s, Run(Do(s, w), us), id)
  }

  lemma CalmOf2(s: State, t: Step, u: Step)
    requires Enabled(s, t) && Calm(s, t) && Enabled(Do(s, t), u) && Calm(Do(s, t), u)
    ensures Legal(s, [t, u]) && CalmRun(s, [t, u]) && Run(s, [t, u]) == Do(Do(s, t), u)
  {
    CalmOf1(Do(s, t), u);
    RunOf1(Do(s, t), u);
    assert [t, u][1..] == [u];
  }

  /** A pending entry is taken and announced. */
  lemma PendingUndoes(s: State, q: QueueId, id: TaskId) returns (us: seq<Step>)
    requires Carries(s, q, id) && s.queue[q].place.InPending? && id in s.views.cache
    ensures Legal(s, us) && CalmRun(s, us)
    ensures id in Run(s, us).views.cache && Run(s, us).views.cache[id].status == Running
  {
    us := [OfQueue(q, Pop), OfQueue(q, Announce(true, 0))];
    CalmOf2(s, us[0], us[1]);
  }

  /** A retried entry becomes pending first. */
  lemma RetryUndoes(s: State, q: QueueId, id: TaskId) returns (us: seq<Step>)
    requires Carries(s, q, id) && s.queue[q].place.InRetry? && id in s.views.cache
    ensures Legal(s, us) && CalmRun(s, us)
    ensures id in Run(s, us).views.cache && Run(s, us).views.cache[id].status == Running
  {
    var t := OfQueue(q, Forward);
    CalmOf1(s, t);
    RunOf1(s, t);
    var vs := PendingUndoes(Do(s, t), q, id);
    CalmJoin(s, [t], vs);
    RunSplit(s, [t], vs);
    us := [t] + vs;
  }

  /** An archived entry is found by the archive sweep. */
  lemma ArchiveUndoes(s: State, q: QueueId, id: TaskId) returns (us: seq<Step>)
    requires s.limit > 0 && Carries(s, q, id) && s.queue[q].place.InArchived? && id in s.views.cache
    ensures Legal(s, us) && CalmRun(s, us)
    ensures id in Run(s, us).views.cache && Run(s, us).views.cache[id].status == Failed
  {
    var page := PageFrom(s.queue, 4, s.limit, q);
    var a := FreshKey(s.actors.Keys);
    us := [OfActor(a, Archive(ArchiveList(page))), OfActor(a, Archive(ArchiveMark(true, 0)))];
    CalmOf2(s, us[0], us[1]);
  }

  lemma HandBackUndoes(s: State, q: QueueId, w: QueueStep, id: TaskId)
    requires s.limit > 0 && Carries(s, q, id) && QueueEnabled(s, q, w) && (w.Recover? || w.Requeue?)
    requires CachedSuccess(s.views, id)
    ensures CanUndo(s, OfQueue(q, w), id)
  {
    var t := DoQueue(s, q, w);
    var us;
    if t.queue[q].place.InPending? {
      us := PendingUndoes(t, q, id);
    } else if t.queue[q].place.InRetry? {
      us := RetryUndoes(t, q, id);
    } else {
      us := ArchiveUndoes(t, q, id);
    }
    assert Undone(s, Run(Do(s, OfQueue(q, w)), us), id);
  }

  lemma HandBackSpares(s: State, q: QueueId, w: QueueStep, id: TaskId, us: seq<Step>)
    requires Inv(s) && CalmInv(s) && Carries(s, q, id) && QueueEnabled(s, q, w)
    requires !CachedSuccess(s.views, id)
    requires Legal(DoQueue(s, q, w), us) && CalmRun(DoQueue(s, q, w), us)
    ensures !Undone(s, Run(DoQueue(s, q, w), us), id)
  {
    var t := OfQueue(q, w);
    CalmOf1(s, t);
    RunOf1(s, t);
    CalmJoin(s, [t], us);
    RunSplit(s, [t], us);
    SuccessLasts(s, [t] + us, id);
  }

  /**
   A dead worker's task is handed out again, or a departing worker server hands its task back.
   Some calm continuation undoes a success of the task if and only if the cached record says
   `succeeded` at this moment.
   */
  lemma HandBackUndoesIff(limit: nat, ts: seq<Step>, q: QueueId, w: QueueStep, id: TaskId)
    requires limit > 0 && Legal(Init(limit), ts) && CalmRun(Init(limit), ts)
    requires var s := Run(Init(limit), ts);
             Carries(s, q, id) && QueueEnabled(s, q, w) && (w.Recover? || w.Requeue?)
    ensures var s := Run(Init(limit), ts);
            CanUndo(s, OfQueue(q, w), id) <==> CachedSuccess(s.views, id)
  {
    var s := Run(Init(limit), ts);
    CalmRunKeepsCalm(Init(limit), ts);
    LimitAlong(Init(limit), ts);
    if CachedSuccess(s.views, id) {
      HandBackUndoes(s, q, w, id);
    } else {
      forall us | Legal(DoQueue(s, q, w), us) && CalmRun(DoQueue(s, q, w), us)
        ensures !Undone(s, Run(DoQueue(s, q, w), us), id)
      {
        HandBackSpares(s, q, w, id, us);
      }
    }
  }

  // ---------- the shutdown sweep ----------

  /** In some calm run the shutdown sweep fails a success while the entry it listed is at `place`. */
  ghost predicate MarkLoses(limit: nat, ts: seq<Step>, a: nat, place: Option<Place>) {
    && Legal(Init(limit), ts) && CalmRun(Init(limit), ts)
    && var s := Run(Init(limit), ts);
       && ShutEnabled(s, a, ShutMark(true))
       && var item := s.actors[a].items[0];
          && item.payload.Some? && Whereabouts(s, item) == place
          && Undone(s, DoShut(s, a, ShutMark(true)), item.payload.value)
  }

  /** The entry is gone, its report was accepted already, or its worker has died, before or after that. */
  predicate Lapsed(place: Option<Place>) {
    place.None? || place == Some(InActive(Finished)) || place == Some(InActive(Lost))
  }

  lemma MarkLosesOnlyLapsed(limit: nat, ts: seq<Step>, a: nat, place: Option<Place>)
    requires MarkLoses(limit, ts, a, place)
    ensures Lapsed(place)
  {
    var s := Run(Init(limit), ts);
    CalmRunKeepsCalm(Init(limit), ts);
    if !Lapsed(place) {
      ShutMarkKeepsSuccess(s, a, true);
    }
  }

  lemma LapsedLoses(limit: nat, place: Option<Place>) returns (ts: seq<Step>)
    requires limit > 0 && Lapsed(place)
    ensures MarkLoses(limit, ts, 0, place)
  {
    var s, item;
    ts, s, item := Counterexamples.ShutReported0(limit);
    if place.None? {
      ts, s := Counterexamples.Then(limit, ts, s, OfQueue(0, Return));
    } else if place.value == InActive(Lost) {
      ts, s := Counterexamples.Then(limit, ts, s, OfQueue(0, WorkerCrash));
    }
    assert s.actors[0].items[0] == item;
  }

  /**
   The shutdown sweep can fail a task that has succeeded exactly when the entry it listed has left
   the queue, has had its report accepted, or has lost its worker; while the entry waits, which is when
   `DeleteTask` would take it, the mark never hits a success.
   */
  lemma ShutMarkLosesIff(limit: nat, place: Option<Place>)
    requires limit > 0
    ensures (exists ts, a :: MarkLoses(limit, ts, a, place)) <==> Lapsed(place)
  {
    if Lapsed(place) {
      var ts := LapsedLoses(limit, place);
    }
    forall ts, a | MarkLoses(limit, ts, a, place) ensures Lapsed(place) {
      MarkLosesOnlyLapsed(limit, ts, a, place);
    }
  }

}
