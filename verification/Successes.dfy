/** How the steps of others can bring a task to success while an actor waits between two of its calls. */
module Successes {

  import opened Records
  import opened Queues
  import opened Protocol
  import opened Invariant
  import opened Reachable

  /** Both views say so. */
  predicate Succeeds(s: State, id: TaskId) {
    SucceededIn(s.views.db, id) && SucceededIn(s.views.cache, id)
  }

  ghost predicate CanSucceed(s: State, a: nat, id: TaskId) {
    exists us :: Legal(s, us) && StepsOfOthers(us, a) && Succeeds(Run(s, us), id)
  }

  /** The database at least. */
  ghost predicate CanSucceedInDb(s: State, a: nat, id: TaskId) {
    exists us :: Legal(s, us) && StepsOfOthers(us, a) && SucceededIn(Run(s, us).views.db, id)
  }

  /** A step of the queue, which is nobody else's. */
  lemma FirstStep(s: State, w: Step, a: nat, id: TaskId)
    requires Enabled(s, w) && !w.OfActor? && CanSucceed(Do(s, w), a, id)
    ensures CanSucceed(s, a, id)
  {
    var us :| Legal(Do(s, w), us) && StepsOfOthers(us, a) && Succeeds(Run(Do(s, w), us), id);
    assert ([w] + us)[0] == w && ([w] + us)[1..] == us;
    assert Legal(s, [w] + us) && Run(s, [w] + us) == Run(Do(s, w), us);
    assert StepsOfOthers([w] + us, a);
  }

  const GOOD: Prediction := Answer(map[])

  lemma AnnouncedSucceeds(s: State, a: nat, q: QueueId, id: TaskId)
    requires Carries(s, q, id) && s.queue[q].place == InActive(Announced) && id in s.views.cache && id in s.views.db
    ensures CanSucceed(s, a, id)
  {
    var w1, w2 := OfQueue(q, Call(GOOD, 0)), OfQueue(q, Report(true, 0));
    var s1 := Do(s, w1);
    var s2 := Do(s1, w2);
    assert Legal(s2, []) && Succeeds(Run(s2, []), id);
    FirstStep(s1, w2, a, id);
    FirstStep(s, w1, a, id);
  }

  /** A fetched entry of a cached record: announced, predicted, reported. */
  lemma FetchedSucceeds(s: State, a: nat, q: QueueId, id: TaskId)
    requires Core(s) && Carries(s, q, id) && s.queue[q].place == InActive(Fetched) && id in s.views.cache
    ensures CanSucceed(s, a, id)
  {
    var w := OfQueue(q, Announce(true, 0));
    assert EntryOk(s, q);
    AnnouncedSucceeds(Do(s, w), a, q, id);
    FirstStep(s, w, a, id);
  }

  lemma PendingSucceeds(s: State, a: nat, q: QueueId, id: TaskId)
    requires Core(s) && Carries(s, q, id) && s.queue[q].place.InPending? && id in s.views.cache
    ensures CanSucceed(s, a, id)
  {
    var w := OfQueue(q, Pop);
    QueueKeepsCore(s, q, Pop);
    FetchedSucceeds(Do(s, w), a, q, id);
    FirstStep(s, w, a, id);
  }

  /** A live entry of a cached record can always be brought to success, if need be by way of a requeue. */
  lemma LiveSucceeds(s: State, a: nat, q: QueueId, id: TaskId)
    requires Core(s) && Carries(s, q, id) && Live(s.queue[q].place) && id in s.views.cache
    ensures CanSucceed(s, a, id)
  {
    if s.queue[q].place.InPending? {
      PendingSucceeds(s, a, q, id);
    } else {
      var w := if s.queue[q].place.InActive? then Requeue else Forward;
      QueueKeepsCore(s, q, w);
      PendingSucceeds(Do(s, OfQueue(q, w)), a, q, id);
      FirstStep(s, OfQueue(q, w), a, id);
    }
  }

}
