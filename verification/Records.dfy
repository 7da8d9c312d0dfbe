/**
 The record store behind the webhook service: one record per task, kept in a cache that may
 lose it and in a database that does not.  The service itself is not part of this model; the
 functions below are the contract the agent relies on.
 */
module Records {

  import opened Wrappers
  import opened JsonValues

  type TaskId = nat
  type QueueId = nat

  datatype Status = Pending | Running | Succeeded | Failed | Canceled

  /** A task record.  `queueId` and `runningTime` are `None` where the service stores "". */
  datatype Record = Record(
    model: string,
    status: Status,
    queueId: Option<QueueId>,
    outputs: Option<map<string, Json>>,
    errorInfo: string,
    runningTime: Option<Json>)

  /** The fields of an update request; an absent field leaves the stored one as it is. */
  datatype Update = Update(
    status: Option<Status>,
    queueId: Option<QueueId>,
    outputs: Option<map<string, Json>>,
    errorInfo: string,
    runningTime: Option<Json>)

  /** The two views.  Listing by status reads the database, everything else reads the cache. */
  datatype Views = Views(cache: map<TaskId, Record>, db: map<TaskId, Record>)

  function NewRecord(model: string, status: Status): Record {
    Record(model, status, None, None, "", None)
  }

  function Mark(status: Status): Update {
    Update(Some(status), None, None, "", None)
  }

  function MarkFailed(errorInfo: string): Update {
    Update(Some(Failed), None, None, errorInfo, None)
  }

  function LinkTo(q: QueueId): Update {
    Update(None, Some(q), None, "", None)
  }

  function Overlay(r: Record, u: Update): Record {
    Record(
      r.model,
      if u.status.Some? then u.status.value else r.status,
      if u.queueId.Some? then u.queueId else r.queueId,
      if u.outputs.Some? then u.outputs else r.outputs,
      if u.errorInfo != "" then u.errorInfo else r.errorInfo,
      if u.runningTime.Some? then u.runningTime else r.runningTime)
  }

  function Change(m: map<TaskId, Record>, id: TaskId, u: Update): map<TaskId, Record> {
    if id in m then m[id := Overlay(m[id], u)] else m
  }

  /** An ordinary update finds its record through the cache. */
  predicate Accepts(v: Views, id: TaskId) {
    id in v.cache
  }

  function Put(v: Views, id: TaskId, u: Update): Views {
    Views(Change(v.cache, id, u), Change(v.db, id, u))
  }

  /** An update with `DatabaseOnly` set. */
  function PutDb(v: Views, id: TaskId, u: Update): Views {
    v.(db := Change(v.db, id, u))
  }

  function Create(v: Views, id: TaskId, r: Record): Views {
    Views(v.cache[id := r], v.db[id := r])
  }

  function Expire(v: Views, id: TaskId): Views {
    v.(cache := v.cache - {id})
  }

  predicate SucceededIn(m: map<TaskId, Record>, id: TaskId) {
    id in m && m[id].status == Succeeded
  }

  /** Some view says that the task succeeded. */
  predicate HasSucceeded(v: Views, id: TaskId) {
    SucceededIn(v.cache, id) || SucceededIn(v.db, id)
  }

  predicate NoDup<T(==)>(xs: seq<T>) {
    forall i, j :: 0 <= i < j < |xs| ==> xs[i] != xs[j]
  }

  function Elems<T(==)>(xs: seq<T>): set<T> {
    set x | x in xs
  }

  /** What listing by model and status answers. */
  ghost predicate IsListing(db: map<TaskId, Record>, model: string, status: Status, ids: seq<TaskId>) {
    && NoDup(ids)
    && (forall id :: id in ids <==> id in db && db[id].model == model && db[id].status == status)
  }

  /** What one prediction comes back with; a panic in a client is recovered by the server around it. */
  datatype Prediction = Answer(outputs: map<string, Json>) | Refusal(error: string) | Panic

  /** The terminal update a worker or the synchronous handler builds from a prediction. */
  function ReportOf(p: Prediction): Update
    requires !p.Panic?
  {
    match p
    case Refusal(e) => MarkFailed(e)
    case Answer(outputs) =>
      if "running_time" in outputs then
        var time := outputs["running_time"];
        Update(Some(Succeeded), None, Some(outputs - {"running_time"}), "",
               if time == Str("") then None else Some(time))
      else
        Update(Some(Succeeded), None, Some(outputs), "", None)
  }

  /**
   The record says what the prediction came to.  An answer: succeeded, with every output but
   "running_time" exactly as the platform gave it, and that one as the running time unless it is
   missing or empty.  A refusal: failed with its error, outputs untouched.
   */
  ghost predicate Tells(was: Record, r: Record, p: Prediction) {
    && r.model == was.model && r.queueId == was.queueId
    && match p
       case Refusal(e) =>
         && r.status == Failed && r.errorInfo == (if e != "" then e else was.errorInfo)
         && r.outputs == was.outputs && r.runningTime == was.runningTime
       case Panic => r == was
       case Answer(outputs) =>
         && r.status == Succeeded && r.errorInfo == was.errorInfo
         && r.outputs.Some? && "running_time" !in r.outputs.value
         && (forall key :: key in r.outputs.value ==> key in outputs && r.outputs.value[key] == outputs[key])
         && (forall key :: key in outputs && key != "running_time" ==> key in r.outputs.value)
         && (if "running_time" in outputs && outputs["running_time"] != Str("")
             then r.runningTime == Some(outputs["running_time"]) else r.runningTime == was.runningTime)
  }

  /** The report makes any record tell, whatever status it was announced under. */
  lemma ReportTells(r: Record, p: Prediction)
    requires !p.Panic?
    ensures Tells(r, Overlay(r, ReportOf(p)), p)
    ensures Tells(r, Overlay(Overlay(r, Mark(Running)), ReportOf(p)), p)
  {
    if p.Answer? {
      assert forall key :: key in p.outputs - {"running_time"} <==> key in p.outputs && key != "running_time";
    }
  }

  function ApplyAll(r: Record, us: seq<Update>): Record
    decreases |us|
  {
    if us == [] then r else ApplyAll(Overlay(r, us[0]), us[1..])
  }

  lemma {:induction false} ApplyAllSplit(r: Record, us: seq<Update>, vs: seq<Update>)
    ensures ApplyAll(r, us + vs) == ApplyAll(ApplyAll(r, us), vs)
    decreases |us|
  {
    if us == [] {
      assert us + vs == vs;
    } else {
      assert (us + vs)[1..] == us[1..] + vs;
      ApplyAllSplit(Overlay(r, us[0]), us[1..], vs);
    }
  }

  lemma {:induction false} LinkSlides(r: Record, q: QueueId, us: seq<Update>)
    requires forall u :: u in us ==> u.queueId.None?
    ensures ApplyAll(Overlay(r, LinkTo(q)), us) == Overlay(ApplyAll(r, us), LinkTo(q))
    decreases |us|
  {
    if us != [] {
      assert Overlay(Overlay(r, LinkTo(q)), us[0]) == Overlay(Overlay(r, us[0]), LinkTo(q));
      LinkSlides(Overlay(r, us[0]), q, us[1..]);
    }
  }

  /** Wherever the submission's link write lands among the worker's writes, the record ends the same. */
  lemma LinkCommutesWithWorker(r: Record, q: QueueId, us: seq<Update>, i: nat, j: nat)
    requires i <= |us| && j <= |us|
    requires forall u :: u in us ==> u.queueId.None?
    ensures ApplyAll(r, us[..i] + [LinkTo(q)] + us[i..]) == ApplyAll(r, us[..j] + [LinkTo(q)] + us[j..])
    ensures ApplyAll(r, us[..i] + [LinkTo(q)] + us[i..]).queueId == Some(q)
  {
    LinkLandsLast(r, q, us, i);
    LinkLandsLast(r, q, us, j);
  }

  lemma LinkLandsLast(r: Record, q: QueueId, us: seq<Update>, i: nat)
    requires i <= |us|
    requires forall u :: u in us ==> u.queueId.None?
    ensures ApplyAll(r, us[..i] + [LinkTo(q)] + us[i..]) == Overlay(ApplyAll(r, us), LinkTo(q))
  {
    var mid := ApplyAll(r, us[..i]);
    ApplyAllSplit(r, us[..i] + [LinkTo(q)], us[i..]);
    ApplyAllSplit(r, us[..i], [LinkTo(q)]);
    assert ApplyAll(mid, [LinkTo(q)]) == Overlay(mid, LinkTo(q)) by {
      assert [LinkTo(q)][1..] == [];
    }
    LinkSlides(mid, q, us[i..]);
    ApplyAllSplit(r, us[..i], us[i..]);
    assert us[..i] + us[i..] == us;
  }

}
