/** The HTTP handlers and the worker's task handler, call by call. */
module Handlers {

  import opened Wrappers
  import opened Sequences
  import opened JsonValues
  import opened Records
  import opened Queues
  import opened Passes
  import opened Housekeeping
  import opened Itemized
  import opened Journals
  import opened Requests
  import opened Services

  /** A JSON object that several holders may share. */
  class JsonMap {
    var fields: map<string, Json>

    constructor (fields: map<string, Json>)
      ensures this.fields == fields
    {
      this.fields := fields;
    }

    method Delete(key: string)
      modifies this
      ensures fields == old(fields) - {key}
    {
      fields := fields - {key};
    }
  }

  /** The update request of one handler, filled in step by step. */
  class UpdateRequest {
    const id: TaskId
    var status: Option<Status>
    var queueId: Option<QueueId>
    var outputs: JsonMap?
    var errorInfo: string
    var runningTime: Option<Json>

    constructor (id: TaskId)
      ensures this.id == id && outputs == null && status.None? && queueId.None? && errorInfo == "" && runningTime.None?
    {
      this.id := id;
      status, queueId, outputs, errorInfo, runningTime := None, None, null, "", None;
    }

    /** What is marshalled when the request is sent. */
    function Content(): Update
      reads this, outputs
    {
      Update(status, queueId, if outputs == null then None else Some(outputs.fields), errorInfo, runningTime)
    }
  }

  /** Builds the report of an answer in place; the request's outputs alias the response's. */
  method FillAnswer(info: UpdateRequest, response: JsonMap)
    requires info.queueId.None? && info.errorInfo == "" && info.runningTime.None?
    modifies info, response
    ensures info.Content() == ReportOf(Answer(old(response.fields)))
    ensures info.outputs == response && info.status == Some(Succeeded) && info.errorInfo == ""
    ensures "running_time" !in response.fields
    ensures response.fields == old(response.fields) - {"running_time"}
    ensures info.runningTime ==
            if "running_time" in old(response.fields) && old(response.fields)["running_time"] != Str("")
            then Some(old(response.fields)["running_time"]) else None
  {
    info.status := Some(Succeeded);
    info.outputs := response;
    if "running_time" in response.fields {
      var time := response.fields["running_time"];
      info.runningTime := if time == Str("") then None else Some(time);
      response.Delete("running_time");
    }
  }

  // ---------- the worker ----------

  datatype Return = Done | Error | SkipRetry | Panicked

  /**
   The records after one attempt and the calls it made, in order: `running` is written, and only if that
   is accepted the platform is asked, and only if it answers its report is written.
   */
  ghost predicate AttemptLeft(v: Views, w: Views, id: TaskId, p: Prediction, r: Return, before: Log, after: Log) {
    var refused := Then(before, WriteRecord(id, Mark(Running), false));
    var asked := Then(Then(before, WriteRecord(id, Mark(Running), true)), RunPrediction(id));
    var announced := Put(v, id, Mark(Running));
    match r
    case Done =>
      && !p.Panic? && Accepts(v, id) && w == Put(announced, id, ReportOf(p))
      && after == Then(asked, WriteRecord(id, ReportOf(p), true))
    case Error =>
      || (w == v && after == refused)
      || (!p.Panic? && Accepts(v, id) && w == announced && after == Then(asked, WriteRecord(id, ReportOf(p), false)))
    case Panicked => p.Panic? && Accepts(v, id) && w == announced && after == asked
    case SkipRetry => w == v && after == before
  }

  /** Both views of the record tell what the prediction came to. */
  ghost predicate BothTell(v: Views, w: Views, id: TaskId, p: Prediction) {
    && id in v.cache && id in w.cache && Tells(v.cache[id], w.cache[id], p)
    && (id in v.db ==> id in w.db && Tells(v.db[id], w.db[id], p))
  }

  lemma DoneTells(v: Views, id: TaskId, p: Prediction)
    requires !p.Panic? && Accepts(v, id)
    ensures BothTell(v, Put(Put(v, id, Mark(Running)), id, ReportOf(p)), id, p)
    ensures BothTell(v, Put(v, id, ReportOf(p)), id, p)
  {
    ReportTells(v.cache[id], p);
    if id in v.db {
      ReportTells(v.db[id], p);
    }
  }

  /** One attempt of a worker. */
  method ProcessTaskRunPrediction(payload: Option<TaskId>, platform: Platform, webhook: Webhook)
    returns (r: Return)
    requires platform.journal == webhook.journal
    modifies webhook`views, webhook.journal
    ensures r == SkipRetry <==> payload.None?
    ensures payload.None? ==> webhook.views == old(webhook.views) && webhook.journal.log == old(webhook.journal.log)
    ensures payload.Some? ==>
              AttemptLeft(old(webhook.views), webhook.views, payload.value, platform.answer, r,
                          old(webhook.journal.log), webhook.journal.log)
    ensures r == Done ==> BothTell(old(webhook.views), webhook.views, payload.value, platform.answer)
    ensures payload.Some? && webhook.reliable && Accepts(old(webhook.views), payload.value) ==>
              r == if platform.answer.Panic? then Panicked else Done
  {
    if payload.None? {
      return SkipRetry;
    }
    ghost var v := webhook.views;
    var info := new UpdateRequest(payload.value);
    info.status := Some(Running);
    var ok := webhook.UpdateTaskInfo(info.id, info.Content());
    if !ok {
      return Error;
    }
    var prediction := platform.Predict(info.id);
    if prediction.Panic? {
      return Panicked;
    }
    DoneTells(v, payload.value, prediction);
    if prediction.Refusal? {
      info.status := Some(Failed);
      info.errorInfo := prediction.error;
    } else {
      var response := new JsonMap(prediction.outputs);
      FillAnswer(info, response);
    }
    ok := webhook.UpdateTaskInfo(info.id, info.Content());
    return if ok then Done else Error;
  }

  // ---------- the HTTP handlers ----------

  /** The loop of the bulk deletion after |os| turns: its queue, its count and its calls. */
  ghost predicate BulkSoFar(v: Views, queue: Queue, ids: seq<TaskId>, os: seq<Outcome>,
                            rest: Queue, n: nat, log0: Log, log: Log) {
    && |os| <= |ids|
    && rest == BulkAll(v, queue, ids[..|os|], os)
    && n == BulkCount(v, queue, ids[..|os|], os)
    && log == BulkAllLog(log0, v, queue, ids[..|os|], os)
  }

  lemma BulkAllGrows(v: Views, queue: Queue, ids: seq<TaskId>, os: seq<Outcome>,
                     before: Queue, n: nat, log0: Log, log: Log, o: Outcome)
    requires BulkSoFar(v, queue, ids, os, before, n, log0, log) && |os| < |ids|
    ensures var after := BulkOne(v, before, ids[|os|], o);
            BulkSoFar(v, queue, ids, os + [o], after, n + if after != before then 1 else 0,
                      log0, BulkOneLog(log, v, before, ids[|os|], o))
  {
    assert Front(ids[..|os| + 1]) == ids[..|os|] && Front(os + [o]) == os;
  }

  /** An entry is gone if and only if no worker holds it and the record of a listed task named it, calls granted. */
  ghost predicate OnlyNamedGo(v: Views, queue: Queue, rest: Queue, ids: seq<TaskId>, os: seq<Outcome>)
    requires |os| == |ids|
  {
    && (forall q :: q in rest ==> q in queue && rest[q] == queue[q])
    && (forall q :: q in queue ==> (q !in rest <==> !queue[q].place.InActive? && Named(v, ids, os, q)))
  }

  /** The cached record of a task that the database has as pending names the entry. */
  ghost predicate PendingNames(v: Views, model: string, q: QueueId) {
    exists id :: id in v.db && v.db[id].model == model && v.db[id].status == Pending
                 && id in v.cache && v.cache[id].queueId == Some(q)
  }

  lemma NamedByPending(v: Views, model: string, ids: seq<TaskId>, os: seq<Outcome>)
    requires |os| == |ids| && AllGranted(os) && IsListing(v.db, model, Pending, ids)
    ensures forall q :: Named(v, ids, os, q) <==> PendingNames(v, model, q)
  {
    forall q: QueueId ensures Named(v, ids, os, q) <==> PendingNames(v, model, q) {
      if Named(v, ids, os, q) {
        var i :| 0 <= i < |ids| && ids[i] in v.cache && v.cache[ids[i]].queueId == Some(q)
                 && os[i] == Outcome(true, true);
        assert ids[i] in ids;
      }
      if PendingNames(v, model, q) {
        var id :| id in v.db && v.db[id].model == model && v.db[id].status == Pending
                  && id in v.cache && v.cache[id].queueId == Some(q);
        assert id in ids;
        var i :| 0 <= i < |ids| && ids[i] == id;
        assert ids[i] in v.cache && os[i] == Outcome(true, true);
      }
    }
  }

  class Server {
    const modelName: string
    const distributor: Distributor
    const webhook: Webhook
    const platform: Platform

    /** All services note their calls in one journal. */
    ghost predicate Wired() {
      distributor.journal == webhook.journal && platform.journal == webhook.journal
    }

    constructor (modelName: string, distributor: Distributor, webhook: Webhook, platform: Platform)
      ensures this.modelName == modelName && this.distributor == distributor && this.webhook == webhook
      ensures this.platform == platform
    {
      this.modelName := modelName;
      this.distributor := distributor;
      this.webhook := webhook;
      this.platform := platform;
    }

    /** The size query is answered with 0 when it says that the queue does not exist. */
    method GetQueueSize(missing: bool) returns (r: Response)
      requires Wired()
      modifies webhook.journal
      ensures r.Size? || r == InternalError
      ensures r.Size? ==> r.n == |WaitingSet(distributor.queue)| || (missing && r.n == 0)
      ensures missing ==> r.Size?
      ensures distributor.reliable ==> r == Size(|WaitingSet(distributor.queue)|)
      ensures exists ok :: webhook.journal.log == Then(old(webhook.journal.log), AskSize(ok))
                && (ok ==> r == Size(|WaitingSet(distributor.queue)|))
                && (!ok ==> r == if missing then Size(0) else InternalError)
    {
      var size := distributor.GetTaskQueueInfo();
      if size.Some? {
        return Size(size.value);
      } else if missing {
        return Size(0);
      }
      return InternalError;
    }

    /**
     Admission, creation, enqueuing, linking; `parsed` is whether the reply to the creation parses.
     A task that is accepted is pending, carried by a new entry and linked to it.  An internal error
     leaves a failed record exactly when the enqueue call was refused and the rollback accepted, and
     otherwise a pending one if there is one; it leaves an entry exactly when even the withdrawal failed.
     */
    method AsyncPredict(id: TaskId, model: string, parsed: bool) returns (r: Response, ghost c: SubmitCalls)
      requires distributor.Valid() && Wired() && id !in webhook.views.db && id !in webhook.views.cache
      modifies webhook`views, distributor`queue, distributor`nextQueue, webhook.journal
      ensures distributor.Valid()
      ensures (webhook.views, distributor.queue, r) ==
              Submit(old(webhook.views), old(distributor.queue), distributor.limit, id, model, c)
      ensures webhook.journal.log ==
              SubmitLog(old(webhook.journal.log), old(distributor.queue), distributor.limit, id, model, c)
      ensures c.entry.Some? ==> c.entry.value !in old(distributor.queue)
      ensures webhook.reliable ==> c.made && c.written && (c.answered <==> parsed)
      ensures c.answered ==> c.made && parsed
      ensures distributor.reliable ==> c.sized && c.entry.Some? && c.withdrawn
      ensures Submitting(old(webhook.views), webhook.views, old(distributor.queue), distributor.queue,
                       distributor.limit, id, model, c, r)
      ensures distributor.reliable && |WaitingSet(old(distributor.queue))| >= distributor.limit ==> r == TooManyRequests
      ensures webhook.reliable && distributor.reliable && parsed ==>
                |WaitingSet(old(distributor.queue))| < distributor.limit ==> r == Accepted(id)
    {
      AllSubmitAnswers(webhook.views, distributor.queue, distributor.limit, id, model);
      c := SubmitCalls(true, true, parsed, Some(distributor.nextQueue), true, true);
      var queueInfo := distributor.GetTaskQueueInfo();
      c := c.(sized := queueInfo.Some?);
      if queueInfo.Some? && queueInfo.value >= distributor.limit {
        return TooManyRequests, c;
      }
      var created;
      ghost var stored;
      created, stored := webhook.CreateNewTask(id, model, Pending);
      c := c.(made := stored, answered := created && parsed);
      if !created {
        return InternalError, c;
      }
      if !parsed {
        return InternalError, c;
      }
      var taskID := distributor.DistributeTaskRunPrediction(id);
      c := c.(entry := taskID);
      if taskID.None? {
        var marked := webhook.UpdateTaskInfo(id, MarkFailed("task queue failed"));
        c := c.(written := marked);
        return InternalError, c;
      }
      var linked := webhook.UpdateTaskInfo(id, LinkTo(taskID.value));
      c := c.(written := linked);
      if !linked {
        var deleted := distributor.DeleteTask(taskID.value);
        c := c.(withdrawn := deleted);
        return InternalError, c;
      }
      return Accepted(id), c;
    }

    /** The synchronous prediction; a client's panic leaves the record running. */
    method Predict(id: TaskId, model: string) returns (r: Response, ghost c: ServeCalls)
      requires Wired() && id !in webhook.views.db && id !in webhook.views.cache
      modifies webhook`views, webhook.journal
      ensures (webhook.views, r) == Serve(old(webhook.views), id, model, platform.answer, c)
      ensures webhook.journal.log == ServeLog(old(webhook.journal.log), id, model, platform.answer, c)
      ensures webhook.reliable ==> c.made && c.answered && c.written && c.read
      ensures Served(old(webhook.views), webhook.views, id, model, platform.answer, c, r)
      ensures webhook.reliable ==> (r.Outputs? <==> platform.answer.Answer?)
      ensures webhook.reliable && platform.answer.Refusal? ==> Unlinked(webhook.views, id, Failed)
      ensures platform.answer.Panic? ==> webhook.views == old(webhook.views) || Unlinked(webhook.views, id, Running)
    {
      ghost var v0 := webhook.views;
      c := ServeCalls(true, true, true, true);
      ServeAnswers(v0, id, model, platform.answer);
      var created;
      ghost var stored;
      created, stored := webhook.CreateNewTask(id, model, Running);
      c := c.(made := stored, answered := created);
      if !created {
        return InternalError, c;
      }
      var prediction := platform.Predict(id);
      if prediction.Panic? {
        return InternalError, c;
      }
      var info := new UpdateRequest(id);
      if prediction.Refusal? {
        info.status := Some(Failed);
        info.errorInfo := prediction.error;
        var marked := webhook.UpdateTaskInfo(info.id, info.Content());
        return InternalError, c.(written := marked);
      }
      var response := new JsonMap(prediction.outputs);
      FillAnswer(info, response);
      var written := webhook.UpdateTaskInfo(info.id, info.Content());
      c := c.(written := written);
      if !written {
        return InternalError, c;
      }
      var outputs := webhook.GetTaskInfoObject(id);
      return if outputs.Some? then Outputs(outputs.value) else InternalError, c.(read := outputs.Some?);
    }

    /** Deletes first, marks second: what is not deleted is never marked. */
    method CancelTask(id: TaskId) returns (r: Response, ghost c: CancelCalls)
      requires Wired()
      modifies webhook`views, distributor`queue, webhook.journal
      ensures (webhook.views, distributor.queue, r) == CancelOf(old(webhook.views), old(distributor.queue), id, c)
      ensures webhook.journal.log ==
              CancelLog(old(webhook.journal.log), old(webhook.views), old(distributor.queue), id, c)
      ensures webhook.reliable && distributor.reliable ==> c == CancelCalls(true, true, true)
      ensures Canceling(old(webhook.views), webhook.views, old(distributor.queue), distributor.queue, id, c, r)
    {
      c := CancelCalls(true, true, true);
      CancelAnswers(webhook.views, distributor.queue, id);
      var outputs := webhook.GetTaskInfoObject(id);
      if outputs.None? {
        return InternalError, c.(got := webhook.reliable);
      }
      if outputs.value.queueId.None? {
        return Forbidden, c;   // there is no entry with the empty id
      }
      var deleted := distributor.DeleteTask(outputs.value.queueId.value);
      if !deleted {
        return Forbidden, c.(deleted := distributor.reliable);
      }
      var marked := webhook.UpdateTaskInfo(id, Mark(Canceled));
      return if marked then Accepted(id) else InternalError, c.(marked := marked);
    }

    /** The loop of the bulk deletion over any ids whatever. */
    method DeleteListed(ids: seq<TaskId>) returns (deleted: nat, ghost os: seq<Outcome>)
      requires Wired()
      modifies distributor`queue, webhook.journal
      ensures |os| == |ids|
      ensures distributor.queue == BulkAll(webhook.views, old(distributor.queue), ids, os)
      ensures deleted == |old(distributor.queue)| - |distributor.queue| <= |ids|
      ensures ActiveSet(distributor.queue) == ActiveSet(old(distributor.queue))
      ensures OnlyNamedGo(webhook.views, old(distributor.queue), distributor.queue, ids, os)
      ensures webhook.reliable && distributor.reliable ==> AllGranted(os)
      ensures webhook.journal.log ==
              BulkAllLog(old(webhook.journal.log), webhook.views, old(distributor.queue), ids, os)
    {
      ghost var queue0, log0 := distributor.queue, webhook.journal.log;
      deleted, os := 0, [];
      for i := 0 to |ids|
        invariant |os| == i
        invariant BulkSoFar(webhook.views, queue0, ids, os, distributor.queue, deleted, log0, webhook.journal.log)
        invariant webhook.reliable && distributor.reliable ==> AllGranted(os)
      {
        ghost var before, log := distributor.queue, webhook.journal.log;
        var n, o := DeleteOne(ids[i]);
        BulkAllGrows(webhook.views, queue0, ids, os, before, deleted, log0, log, o);
        deleted, os := deleted + n, os + [o];
      }
      assert ids[..|ids|] == ids;
      BulkConserves(webhook.views, queue0, ids, os);
      BulkItemized(webhook.views, queue0, ids, os);
    }

    /** One turn of the loop. */
    method DeleteOne(id: TaskId) returns (deleted: nat, ghost o: Outcome)
      requires Wired()
      modifies distributor`queue, webhook.journal
      ensures distributor.queue == BulkOne(webhook.views, old(distributor.queue), id, o)
      ensures deleted == if distributor.queue != old(distributor.queue) then 1 else 0
      ensures webhook.reliable && distributor.reliable ==> o == Outcome(true, true)
      ensures webhook.journal.log ==
              BulkOneLog(old(webhook.journal.log), webhook.views, old(distributor.queue), id, o)
    {
      deleted, o := 0, Outcome(webhook.reliable, true);
      var task := webhook.GetTaskInfoObject(id);
      if task.None? {
        return;
      }
      o := Outcome(true, true);
      if task.value.queueId.None? {
        return;   // there is no entry with the empty id
      }
      ghost var before := distributor.queue;
      var ok := distributor.DeleteTask(task.value.queueId.value);
      o := Outcome(true, distributor.reliable || ok);
      if ok {
        assert task.value.queueId.value in before && task.value.queueId.value !in distributor.queue;
        deleted := 1;
      }
    }

    /** Deletes the entries of all pending tasks and leaves every record as it is. */
    method DeleteAllPendingTasks() returns (r: Response, ghost ids: seq<TaskId>, ghost os: seq<Outcome>)
      requires Wired()
      modifies distributor`queue, webhook.journal
      ensures r.Counts? || r == InternalError
      ensures r == InternalError ==> distributor.queue == old(distributor.queue)
      ensures r.Counts? ==>
                && r.deleted == |old(distributor.queue)| - |distributor.queue| <= r.listed
                && |os| == |ids| == r.listed
                && (ids == [] || IsListing(webhook.views.db, modelName, Pending, ids))
                && distributor.queue == BulkAll(webhook.views, old(distributor.queue), ids, os)
                && OnlyNamedGo(webhook.views, old(distributor.queue), distributor.queue, ids, os)
                && webhook.journal.log ==
                   BulkAllLog(Then(old(webhook.journal.log), ListRecords(modelName, Pending, ids)),
                              webhook.views, old(distributor.queue), ids, os)
      ensures ActiveSet(distributor.queue) == ActiveSet(old(distributor.queue))
      ensures webhook.reliable && distributor.reliable ==>
                && r.Counts? && IsListing(webhook.views.db, modelName, Pending, ids) && AllGranted(os)
                && forall q :: q in old(distributor.queue) ==>
                     (q !in distributor.queue <==>
                        CanDelete(old(distributor.queue), q) && PendingNames(webhook.views, modelName, q))
    {
      ids, os := [], [];
      var pendingTaskIDs, ok := webhook.GetTaskIDByModelStatus(modelName, Pending);
      if !ok {
        return InternalError, ids, os;
      }
      ids := pendingTaskIDs;
      var deleted;
      deleted, os := DeleteListed(pendingTaskIDs);
      r := Counts(|pendingTaskIDs|, deleted);
      if webhook.reliable && distributor.reliable {
        NamedByPending(webhook.views, modelName, ids, os);
      }
    }
  }

}
