/**
 The two services as the agent sees them.  Each call may fail for no visible reason, and a failed
 call has no effect; `reliable` services fail only where their state gives them a reason.  Every call
 is noted in a journal, so that contracts can say which calls are made and in which order.
 */
module Services {

  import opened Wrappers
  import opened Records
  import opened Queues
  import opened Journals

  /** The client of the record store. */
  class Webhook {
    var views: Views
    const reliable: bool
    const journal: Journal

    constructor (reliable: bool, journal: Journal)
      ensures views == Views(map[], map[]) && this.reliable == reliable && this.journal == journal
    {
      this.reliable := reliable;
      this.journal := journal;
      views := Views(map[], map[]);
    }

    /** Creates a record.  The record may be made although the reply to the call is lost. */
    method CreateNewTask(id: TaskId, model: string, status: Status) returns (ok: bool, ghost made: bool)
      modifies this`views, journal
      ensures journal.log == Then(old(journal.log), MakeRecord(id, NewRecord(model, status), made))
      ensures views == if made then Create(old(views), id, NewRecord(model, status)) else old(views)
      ensures ok ==> made
      ensures reliable ==> ok
    {
      var luck: bool := *;
      var replied: bool := *;
      made := reliable || luck;
      if reliable || luck {
        views := Create(views, id, NewRecord(model, status));
      }
      ok := reliable || (luck && replied);
      journal.log := Then(journal.log, MakeRecord(id, NewRecord(model, status), made));
    }

    /** An ordinary update; it finds its record through the cache. */
    method UpdateTaskInfo(id: TaskId, u: Update) returns (ok: bool)
      modifies this`views, journal
      ensures journal.log == Then(old(journal.log), WriteRecord(id, u, ok))
      ensures views == if ok then Put(old(views), id, u) else old(views)
      ensures ok ==> Accepts(old(views), id)
      ensures reliable && Accepts(old(views), id) ==> ok
    {
      var luck: bool := *;
      ok := (reliable || luck) && id in views.cache;
      if ok {
        views := Put(views, id, u);
      }
      journal.log := Then(journal.log, WriteRecord(id, u, ok));
    }

    /** An update with `DatabaseOnly` set. */
    method UpdateDatabase(id: TaskId, u: Update) returns (ok: bool)
      modifies this`views, journal
      ensures journal.log == Then(old(journal.log), WriteDatabase(id, u, ok))
      ensures views == if ok then PutDb(old(views), id, u) else old(views)
      ensures reliable ==> ok
    {
      var luck: bool := *;
      ok := reliable || luck;
      if ok {
        views := PutDb(views, id, u);
      }
      journal.log := Then(journal.log, WriteDatabase(id, u, ok));
    }

    method GetTaskInfoObject(id: TaskId) returns (r: Option<Record>)
      modifies journal
      ensures journal.log == Then(old(journal.log), ReadRecord(id, r.Some?))
      ensures r.Some? ==> id in views.cache && r.value == views.cache[id]
      ensures reliable && id in views.cache ==> r.Some?
    {
      var luck: bool := *;
      r := if (reliable || luck) && id in views.cache then Some(views.cache[id]) else None;
      journal.log := Then(journal.log, ReadRecord(id, r.Some?));
    }

    /** The ids of a model's records with some status, from the database; nothing after an error. */
    method GetTaskIDByModelStatus(model: string, status: Status) returns (ids: seq<TaskId>, ok: bool)
      modifies journal
      ensures journal.log == Then(old(journal.log), ListRecords(model, status, ids))
      ensures IsListing(views.db, model, status, ids) || ids == []
      ensures ok && reliable ==> IsListing(views.db, model, status, ids)
      ensures reliable ==> ok
      ensures !ok ==> ids == []
    {
      var luck: bool := *;
      ok, ids := reliable || luck, [];
      var found := set id | id in views.db && views.db[id].model == model && views.db[id].status == status;
      if ok {
        var rest := found;
        while rest != {}
          invariant rest <= found
          invariant NoDup(ids)
          invariant forall id :: id in ids <==> id in found && id !in rest
          decreases |rest|
        {
          var id :| id in rest;
          rest := rest - {id};
          ids := ids + [id];
        }
      }
      journal.log := Then(journal.log, ListRecords(model, status, ids));
    }
  }

  /** The client of the task queue. */
  class Distributor {
    var queue: Queue
    var nextQueue: nat
    const limit: nat
    const reliable: bool
    const journal: Journal

    ghost predicate Valid()
      reads this
    {
      forall q :: q in queue ==> q < nextQueue
    }

    constructor (limit: nat, reliable: bool, journal: Journal)
      ensures queue == map[] && this.limit == limit && this.reliable == reliable && this.journal == journal && Valid()
    {
      this.limit := limit;
      this.reliable := reliable;
      this.journal := journal;
      queue, nextQueue := map[], 0;
    }

    method DistributeTaskRunPrediction(id: TaskId) returns (q: Option<QueueId>)
      requires Valid()
      modifies this`queue, this`nextQueue, journal
      ensures journal.log == Then(old(journal.log), AddEntry(id, q))
      ensures Valid()
      ensures q.None? ==> queue == old(queue)
      ensures q.Some? ==> q.value !in old(queue) && queue == old(queue)[q.value := Entry(Some(id), InPending, 0, 0)]
      ensures reliable ==> q.Some?
    {
      var luck: bool := *;
      if reliable || luck {
        q := Some(nextQueue);
        queue := queue[nextQueue := Entry(Some(id), InPending, 0, 0)];
        nextQueue := nextQueue + 1;
      } else {
        q := None;
      }
      journal.log := Then(journal.log, AddEntry(id, q));
    }

    method DeleteTask(q: QueueId) returns (ok: bool)
      modifies this`queue, journal
      ensures journal.log == Then(old(journal.log), DropEntry(q, ok))
      ensures queue == if ok then old(queue) - {q} else old(queue)
      ensures ok ==> CanDelete(old(queue), q)
      ensures reliable && CanDelete(old(queue), q) ==> ok
      ensures old(Valid()) ==> Valid()
    {
      var luck: bool := *;
      ok := (reliable || luck) && CanDelete(queue, q);
      if ok {
        queue := queue - {q};
      }
      journal.log := Then(journal.log, DropEntry(q, ok));
    }

    /** Scheduled, pending and retry entries together. */
    method GetTaskQueueInfo() returns (size: Option<nat>)
      modifies journal
      ensures journal.log == Then(old(journal.log), AskSize(size.Some?))
      ensures size.Some? ==> size.value == |WaitingSet(queue)|
      ensures reliable ==> size.Some?
    {
      var luck: bool := *;
      size := if reliable || luck then Some(|WaitingSet(queue)|) else None;
      journal.log := Then(journal.log, AskSize(size.Some?));
    }

    /** The first page of one of the lists, numbered as in `Rank`. */
    method ListTasks(list: nat) returns (page: seq<QueueId>, ok: bool)
      modifies journal
      ensures journal.log == Then(old(journal.log), ListEntries(list, ok, page))
      ensures ok ==> IsPage(queue, list, limit, page)
      ensures !ok ==> page == []
      ensures reliable ==> ok
    {
      var luck: bool := *;
      ok, page := reliable || luck, [];
      if ok {
        var rest := OnList(queue, list);
        while rest != {} && |page| < limit
          invariant NoDup(page) && |page| <= limit
          invariant forall q :: q in OnList(queue, list) <==> q in page || q in rest
          invariant forall q :: q in page ==> q !in rest
          decreases |rest|
        {
          var q :| q in rest;
          rest := rest - {q};
          page := page + [q];
        }
      }
      journal.log := Then(journal.log, ListEntries(list, ok, page));
    }
  }

  /** The client of the ML platform, as its callers see it: it comes back with some answer. */
  class Platform {
    const answer: Prediction
    const journal: Journal

    constructor (answer: Prediction, journal: Journal)
      ensures this.answer == answer && this.journal == journal
    {
      this.answer := answer;
      this.journal := journal;
    }

    /** Runs the prediction of a task. */
    method Predict(id: TaskId) returns (p: Prediction)
      modifies journal
      ensures p == answer
      ensures journal.log == Then(old(journal.log), RunPrediction(id))
    {
      journal.log := Then(journal.log, RunPrediction(id));
      p := answer;
    }
  }

}
