/**
 What the HTTP handlers do to the stores, call outcome by call outcome, when nothing interrupts
 them.  The handlers' methods are proved against these functions and the protocol runs them.
 */
module Requests {

  import opened Wrappers
  import opened Records
  import opened Queues
  import opened Passes
  import opened Journals

  datatype Response =
    | Accepted(id: TaskId)
    | Outputs(record: Record)
    | Counts(listed: nat, deleted: nat)
    | Size(n: nat)
    | TooManyRequests
    | Forbidden
    | InternalError

  /** Nothing but the record of one task differs. */
  ghost predicate OnlyTask(v: Views, w: Views, id: TaskId) {
    && (forall i :: i != id ==> (i in w.db <==> i in v.db) && (i in v.db ==> w.db[i] == v.db[i]))
    && (forall i :: i != id ==> (i in w.cache <==> i in v.cache) && (i in v.cache ==> w.cache[i] == v.cache[i]))
  }

  /** A record that nothing links to an entry. */
  ghost predicate Unlinked(v: Views, id: TaskId, status: Status) {
    && id in v.db && v.db[id].queueId.None? && v.db[id].status == status
    && id in v.cache && v.cache[id].queueId.None? && v.cache[id].status == status
  }

  /** One new entry carries the task, and nothing else differs. */
  ghost predicate Adds(queue: Queue, rest: Queue, q: QueueId, id: TaskId) {
    q !in queue && rest == queue[q := Entry(Some(id), InPending, 0, 0)]
  }

  /** The cached record names an entry that may be deleted. */
  predicate Cancelable(v: Views, queue: Queue, id: TaskId) {
    id in v.cache && v.cache[id].queueId.Some? && CanDelete(queue, v.cache[id].queueId.value)
  }

  // ---------- submissions ----------

  /**
   How the calls of a submission went: the size query; the creation, which may have taken effect
   although its reply was lost or does not parse; the enqueue call; the update after it, a link or a
   rollback; and the withdrawal of the entry.
   */
  datatype SubmitCalls = SubmitCalls(
    sized: bool,
    made: bool,
    answered: bool,
    entry: Option<QueueId>,
    written: bool,
    withdrawn: bool)

  function Submit(v: Views, queue: Queue, limit: nat, id: TaskId, model: string,
                  c: SubmitCalls): (Views, Queue, Response) {
    var v1 := Create(v, id, NewRecord(model, Pending));
    if c.sized && |WaitingSet(queue)| >= limit then (v, queue, TooManyRequests)
    else if !c.made then (v, queue, InternalError)
    else if !c.answered then (v1, queue, InternalError)
    else if c.entry.None? then (Updated(v1, c.written, id, MarkFailed("task queue failed")), queue, InternalError)
    else
      var q := c.entry.value;
      var queue1 := queue[q := Entry(Some(id), InPending, 0, 0)];
      if c.written then (Put(v1, id, LinkTo(q)), queue1, Accepted(id))
      else (v1, Deleted(queue1, c.withdrawn, q), InternalError)
  }

  /** The calls of a submission, in order: size, record, entry, link or rollback, withdrawal. */
  function SubmitLog(log: Log, queue: Queue, limit: nat, id: TaskId, model: string, c: SubmitCalls): Log {
    var asked := Then(log, AskSize(c.sized));
    if c.sized && |WaitingSet(queue)| >= limit then asked
    else
      var begun := Then(asked, MakeRecord(id, NewRecord(model, Pending), c.made));
      if !c.made || !c.answered then begun
      else
        var filed := Then(begun, AddEntry(id, c.entry));
        if c.entry.None? then Then(filed, WriteRecord(id, MarkFailed("task queue failed"), c.written))
        else
          var linked := Then(filed, WriteRecord(id, LinkTo(c.entry.value), c.written));
          if c.written then linked else Then(linked, DropEntry(c.entry.value, c.withdrawn))
  }

  /** The enqueue call was refused and the rollback accepted. */
  predicate RolledBack(c: SubmitCalls) {
    c.made && c.answered && c.entry.None? && c.written
  }

  /** The link was refused and the entry could not be withdrawn. */
  predicate LeftBehind(c: SubmitCalls) {
    c.made && c.answered && c.entry.Some? && !c.written && !c.withdrawn
  }

  /**
   What an internal error leaves behind, exactly: a failed record if and only if the enqueue call was
   refused and the rollback accepted, a pending one if and only if the record was made and that is
   not so, none if it was not made; and an entry that no record names if and only if the link was
   refused and so was the withdrawal.
   */
  lemma ErrorLeaves(v: Views, queue: Queue, limit: nat, id: TaskId, model: string, c: SubmitCalls)
    requires id !in v.db && id !in v.cache && (c.entry.Some? ==> c.entry.value !in queue)
    ensures var (w, rest, r) := Submit(v, queue, limit, id, model, c);
            r == InternalError ==>
              && OnlyTask(v, w, id)
              && (Unlinked(w, id, Failed) <==> RolledBack(c))
              && (Unlinked(w, id, Pending) <==> c.made && !RolledBack(c))
              && (w == v <==> !c.made)
              && (if LeftBehind(c) then Adds(queue, rest, c.entry.value, id) else rest == queue)
  {
    var (w, rest, r) := Submit(v, queue, limit, id, model, c);
    if r == InternalError && c.made {
      assert id in w.db && id in w.cache;
      if c.answered && c.entry.Some? {
        assert queue[c.entry.value := Entry(Some(id), InPending, 0, 0)] - {c.entry.value} == queue;
      }
    }
  }

  /** The record and the entry of a submission that was accepted. */
  ghost predicate Linked(v: Views, w: Views, queue: Queue, rest: Queue, id: TaskId, model: string, q: QueueId) {
    var r := Record(model, Pending, Some(q), None, "", None);
    && Adds(queue, rest, q, id)
    && w == Views(v.cache[id := r], v.db[id := r])
  }

  /**
   What a submission answers and leaves, exactly, in terms of what its calls were answered: refused for
   its size if and only if the size was told and reaches the limit; accepted if and only if every call
   after that was granted; an internal error otherwise, which leaves what `ErrorLeaves` says.
   */
  ghost predicate Submitting(v: Views, w: Views, queue: Queue, rest: Queue, limit: nat, id: TaskId, model: string,
                           c: SubmitCalls, r: Response)
  {
    var full := c.sized && |WaitingSet(queue)| >= limit;
    && OnlyTask(v, w, id)
    && (r == TooManyRequests <==> full)
    && (r == Accepted(id) <==> !full && c.made && c.answered && c.entry.Some? && c.written)
    && (r == TooManyRequests || r == Accepted(id) || r == InternalError)
    && (r == TooManyRequests ==> w == v && rest == queue)
    && (r == Accepted(id) ==> Linked(v, w, queue, rest, id, model, c.entry.value))
    && (r == InternalError ==>
          && (Unlinked(w, id, Failed) <==> RolledBack(c))
          && (Unlinked(w, id, Pending) <==> c.made && !RolledBack(c))
          && (RolledBack(c) ==> w.cache[id].errorInfo == w.db[id].errorInfo == "task queue failed")
          && (w == v <==> !c.made)
          && (if LeftBehind(c) then Adds(queue, rest, c.entry.value, id) else rest == queue))
  }

  lemma SubmitAnswers(v: Views, queue: Queue, limit: nat, id: TaskId, model: string, c: SubmitCalls)
    requires id !in v.db && id !in v.cache && (c.entry.Some? ==> c.entry.value !in queue)
    ensures var (w, rest, r) := Submit(v, queue, limit, id, model, c);
            Submitting(v, w, queue, rest, limit, id, model, c, r)
  {
    ErrorLeaves(v, queue, limit, id, model, c);
    var (w, rest, r) := Submit(v, queue, limit, id, model, c);
    if r == Accepted(id) {
      var linked := Record(model, Pending, Some(c.entry.value), None, "", None);
      assert w.cache == v.cache[id := linked] && w.db == v.db[id := linked];
    }
  }

  lemma AllSubmitAnswers(v: Views, queue: Queue, limit: nat, id: TaskId, model: string)
    requires id !in v.db && id !in v.cache
    ensures forall c: SubmitCalls :: (c.entry.Some? ==> c.entry.value !in queue) ==>
              var (w, rest, r) := Submit(v, queue, limit, id, model, c);
              Submitting(v, w, queue, rest, limit, id, model, c, r)
  {
    forall c: SubmitCalls | c.entry.Some? ==> c.entry.value !in queue
      ensures var (w, rest, r) := Submit(v, queue, limit, id, model, c);
              Submitting(v, w, queue, rest, limit, id, model, c, r)
    {
      SubmitAnswers(v, queue, limit, id, model, c);
    }
  }

  // ---------- cancels ----------

  datatype CancelCalls = CancelCalls(got: bool, deleted: bool, marked: bool)

  function CancelOf(v: Views, queue: Queue, id: TaskId, c: CancelCalls): (Views, Queue, Response) {
    if !c.got || id !in v.cache then (v, queue, InternalError)
    else if !c.deleted || !Cancelable(v, queue, id) then (v, queue, Forbidden)
    else (Updated(v, c.marked, id, Mark(Canceled)), queue - {v.cache[id].queueId.value},
          if c.marked then Accepted(id) else InternalError)
  }

  /**
   What a cancel answers and leaves, exactly: an internal error if the record cannot be read or the mark
   is refused, a refusal if the entry cannot be deleted or its deletion is refused, and accepted
   otherwise.  The record is marked only when the entry is gone, and nothing else changes.
   */
  ghost predicate Canceling(v: Views, w: Views, queue: Queue, rest: Queue, id: TaskId, c: CancelCalls, r: Response) {
    var read, gone := c.got && id in v.cache, c.deleted && Cancelable(v, queue, id);
    && (r == InternalError <==> !read || (gone && !c.marked))
    && (r == Forbidden <==> read && !gone)
    && (r == Accepted(id) <==> read && gone && c.marked)
    && rest == (if read && gone then queue - {v.cache[id].queueId.value} else queue)
    && (read && gone ==> rest != queue)
    && (r != Accepted(id) ==> w == v)
    && (r == Accepted(id) ==>
          && w.cache == v.cache[id := v.cache[id].(status := Canceled)]
          && w.db == if id in v.db then v.db[id := v.db[id].(status := Canceled)] else v.db)
  }

  lemma CancelAnswers(v: Views, queue: Queue, id: TaskId)
    ensures forall c :: var (w, rest, r) := CancelOf(v, queue, id, c); Canceling(v, w, queue, rest, id, c, r)
  {
    if Cancelable(v, queue, id) {
      assert v.cache[id].queueId.value !in queue - {v.cache[id].queueId.value};
    }
  }

  /** The calls of a cancel, in order: the record is read, its entry dropped, and only then the record marked. */
  function CancelLog(log: Log, v: Views, queue: Queue, id: TaskId, c: CancelCalls): Log {
    var got := c.got && id in v.cache;
    var read := Then(log, ReadRecord(id, got));
    if !got || v.cache[id].queueId.None? then read
    else
      var q := v.cache[id].queueId.value;
      var gone := c.deleted && CanDelete(queue, q);
      var dropped := Then(read, DropEntry(q, gone));
      if gone then Then(dropped, WriteRecord(id, Mark(Canceled), c.marked)) else dropped
  }

  // ---------- synchronous predictions ----------

  datatype ServeCalls = ServeCalls(made: bool, answered: bool, written: bool, read: bool)

  function Serve(v: Views, id: TaskId, model: string, p: Prediction, c: ServeCalls): (Views, Response) {
    var v1 := Create(v, id, NewRecord(model, Running));
    if !c.made then (v, InternalError)
    else if !c.answered || p.Panic? || !c.written then (v1, InternalError)
    else
      var w := Put(v1, id, ReportOf(p));
      (w, if p.Answer? && c.read then Outputs(w.cache[id]) else InternalError)
  }

  /**
   What a synchronous prediction answers and leaves, exactly: outputs if and only if every call was
   granted and the platform answered, and then the record that tells that answer; no record if none was
   made, one that is still running if the platform panicked or the report was refused, and otherwise one
   that tells what the platform said.
   */
  ghost predicate Served(v: Views, w: Views, id: TaskId, model: string, p: Prediction, c: ServeCalls, r: Response) {
    var blank, told := NewRecord(model, Running), c.made && c.answered && !p.Panic? && c.written;
    && OnlyTask(v, w, id)
    && (r.Outputs? <==> told && p.Answer? && c.read)
    && (r.Outputs? ==> id in w.cache && r.record == w.cache[id])
    && (!r.Outputs? ==> r == InternalError)
    && (w == v <==> !c.made)
    && (c.made ==> id in w.cache && id in w.db && w.cache[id] == w.db[id])
    && (c.made && !told ==> w.cache[id] == Record(model, Running, None, None, "", None))
    && (told ==> Tells(blank, w.cache[id], p))
  }

  lemma ServeAnswered(v: Views, id: TaskId, model: string, p: Prediction, c: ServeCalls)
    requires id !in v.db && id !in v.cache
    requires p.Panic? || Tells(NewRecord(model, Running), Overlay(NewRecord(model, Running), ReportOf(p)), p)
    ensures var (w, r) := Serve(v, id, model, p, c); Served(v, w, id, model, p, c, r)
  {
  }

  lemma ServeAnswers(v: Views, id: TaskId, model: string, p: Prediction)
    requires id !in v.db && id !in v.cache
    ensures forall c :: var (w, r) := Serve(v, id, model, p, c); Served(v, w, id, model, p, c, r)
  {
    if !p.Panic? {
      ReportTells(NewRecord(model, Running), p);
    }
    forall c ensures var (w, r) := Serve(v, id, model, p, c); Served(v, w, id, model, p, c, r) {
      ServeAnswered(v, id, model, p, c);
    }
  }

  /** The calls of a synchronous prediction that change something, in order: record, prediction, report. */
  function ToldLog(log: Log, id: TaskId, model: string, p: Prediction, c: ServeCalls): Log {
    var begun := Then(log, MakeRecord(id, NewRecord(model, Running), c.made));
    if !c.made || !c.answered then begun
    else
      var asked := Then(begun, RunPrediction(id));
      if p.Panic? then asked else Then(asked, WriteRecord(id, ReportOf(p), c.written))
  }

  /** All calls of a synchronous prediction: after an accepted report of an answer the record is read back. */
  function ServeLog(log: Log, id: TaskId, model: string, p: Prediction, c: ServeCalls): Log {
    var told := ToldLog(log, id, model, p, c);
    if c.made && c.answered && p.Answer? && c.written then Then(told, ReadRecord(id, c.read)) else told
  }

}
