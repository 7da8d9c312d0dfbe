/**
 What a submit-and-poll client answers, for any trace of replies: the first decisive reply
 decides, over outputs that are merged from reply to reply.
 */
module Polling {

  import opened JsonValues
  import opened Platforms

  /** The two services that are polled. */
  datatype Dialect = Replicate | RunPod

  datatype Reason = Marshalling | Building | Sending | Rejected | Reading | Unmarshalling
                  | SubmitFailed | NoHandle | NoStatus | PredictionFailed | Timeout

  /** `seconds` is the number that the client formats into the running time. */
  datatype Verdict =
    | Undecided
    | Success(output: Json, seconds: Json)
    | Failure(code: int, reason: Reason)
    | Panic

  function At(outputs: map<string, Json>, key: string): Json {
    if key in outputs then outputs[key] else Null
  }

  // ---------- one reply ----------

  /** Unmarshalling an object into a map overrides its keys one by one; `null` empties the map. */
  function Absorb(outputs: map<string, Json>, r: Reply): map<string, Json> {
    if r.Answered? && r.code <= 300 && r.body.Object? then outputs + r.body.fields
    else if r.Answered? && r.code <= 300 && r.body.NullBody? then map[]
    else outputs
  }

  /** What already goes wrong before the parsed outputs are looked at. */
  function Broken(r: Reply): Verdict {
    match r
    case Unbuildable => Failure(BUILD_REQUEST_ERROR, Building)
    case Unreachable(_) => Failure(SEND_REQUEST_ERROR, Sending)
    case Answered(code, body, _) =>
      if code > 300 then Failure(INVALID_INPUT_ERROR, Rejected)
      else if body.Unreadable? then Failure(READ_RESPONSE_ERROR, Reading)
      else if body.Malformed? then Failure(UNMARSHAL_RESPONSE_ERROR, Unmarshalling)
      else Undecided
  }

  function SuccessWord(d: Dialect): string {
    if d.Replicate? then "succeeded" else "COMPLETED"
  }

  function FailureWord(d: Dialect): string {
    if d.Replicate? then "failed" else "FAILED"
  }

  /** The result of a finished prediction; a missing or mistyped field panics. */
  function Extract(d: Dialect, outputs: map<string, Json>): Verdict {
    match d
    case Replicate =>
      var metrics := At(outputs, "metrics");
      if metrics.Obj? then Success(At(outputs, "output"), At(metrics.fields, "predict_time")) else Panic
    case RunPod =>
      var time := At(outputs, "executionTime");
      if time.Num? then Success(At(outputs, "output"), Num(time.n / 1000.0)) else Panic
  }

  /** What the merged outputs say. */
  function Judge(d: Dialect, outputs: map<string, Json>): Verdict {
    if "status" !in outputs then Failure(READ_RESPONSE_ERROR, NoStatus)
    else if outputs["status"] == Str(SuccessWord(d)) then Extract(d, outputs)
    else if outputs["status"] == Str(FailureWord(d)) then Failure(INTERNAL_ERROR, PredictionFailed)
    else Undecided
  }

  // ---------- the trace ----------

  /** The outputs after `n` status replies. */
  function Merged(start: map<string, Json>, replies: Trace, n: nat): map<string, Json> {
    if n == 0 then start else Absorb(Merged(start, replies, n - 1), replies(n - 1))
  }

  /** What the `k`-th status reply decides. */
  function VerdictAt(d: Dialect, start: map<string, Json>, replies: Trace, k: nat): Verdict {
    if Broken(replies(k)) != Undecided then Broken(replies(k))
    else Judge(d, Merged(start, replies, k + 1))
  }

  /** None of the first `n` status replies decides. */
  ghost predicate Undecisive(d: Dialect, start: map<string, Json>, replies: Trace, n: nat) {
    forall j: nat :: j < n ==> VerdictAt(d, start, replies, j).Undecided?
  }

  /** The result of polling, and the number of polls: the first decision, or a timeout after `timeout` polls. */
  ghost predicate PollsTo(d: Dialect, start: map<string, Json>, replies: Trace, timeout: int, polls: nat, v: Verdict) {
    if v == Failure(INTERNAL_ERROR, Timeout) then
      && polls == (if timeout < 0 then 0 else timeout)
      && Undecisive(d, start, replies, polls)
    else
      && 0 < polls <= timeout
      && Undecisive(d, start, replies, polls - 1)
      && !v.Undecided?
      && v == VerdictAt(d, start, replies, polls - 1)
  }

  /** A reply that decides after `i` that do not. */
  lemma FirstDecision(d: Dialect, start: map<string, Json>, replies: Trace, timeout: int, i: nat)
    requires i < timeout && Undecisive(d, start, replies, i)
    requires !VerdictAt(d, start, replies, i).Undecided?
    ensures var v := VerdictAt(d, start, replies, i);
            PollsTo(d, start, replies, timeout, i + 1, v) && Sleeps(i + 1, v) == i
  {
    assert VerdictAt(d, start, replies, i) != Failure(INTERNAL_ERROR, Timeout);
  }

  lemma OneMoreUndecided(d: Dialect, start: map<string, Json>, replies: Trace, i: nat)
    requires Undecisive(d, start, replies, i) && VerdictAt(d, start, replies, i).Undecided?
    ensures Undecisive(d, start, replies, i + 1)
  {
  }

  lemma TimesOut(d: Dialect, start: map<string, Json>, replies: Trace, timeout: int)
    requires Undecisive(d, start, replies, if timeout < 0 then 0 else timeout)
    ensures PollsTo(d, start, replies, timeout, if timeout < 0 then 0 else timeout, Failure(INTERNAL_ERROR, Timeout))
  {
  }

  /** Only the replies matter. */
  lemma {:induction false} MergedOfSame(start: map<string, Json>, replies: Trace, others: Trace, n: nat)
    requires forall i :: replies(i) == others(i)
    ensures Merged(start, replies, n) == Merged(start, others, n)
    ensures TotalElapsed(replies, n) == TotalElapsed(others, n)
    decreases n
  {
    if n > 0 {
      MergedOfSame(start, replies, others, n - 1);
    }
  }

  lemma PollsToSame(d: Dialect, start: map<string, Json>, replies: Trace, others: Trace, timeout: int,
                    polls: nat, v: Verdict)
    requires forall i :: replies(i) == others(i)
    requires PollsTo(d, start, replies, timeout, polls, v)
    ensures PollsTo(d, start, others, timeout, polls, v)
    ensures TotalElapsed(replies, polls) == TotalElapsed(others, polls)
  {
    forall j: nat ensures VerdictAt(d, start, others, j) == VerdictAt(d, start, replies, j) {
      MergedOfSame(start, replies, others, j + 1);
    }
    MergedOfSame(start, replies, others, polls);
  }

  /** Every trace leads to exactly one result. */
  lemma PollsToOneResult(d: Dialect, start: map<string, Json>, replies: Trace, timeout: int)
    ensures exists n: nat, v :: PollsTo(d, start, replies, timeout, n, v)
    ensures forall m: nat, n: nat, v, w ::
              PollsTo(d, start, replies, timeout, m, v) && PollsTo(d, start, replies, timeout, n, w) ==>
                m == n && v == w
  {
    var i: nat := 0;
    while i < timeout && VerdictAt(d, start, replies, i).Undecided?
      invariant i == 0 || i <= timeout
      invariant Undecisive(d, start, replies, i)
    {
      i := i + 1;
    }
    if i < timeout {
      FirstDecision(d, start, replies, timeout, i);
    } else {
      TimesOut(d, start, replies, timeout);
    }
    forall m: nat, n: nat, v, w | PollsTo(d, start, replies, timeout, m, v) && PollsTo(d, start, replies, timeout, n, w)
      ensures m == n && v == w
    {
      SameResult(d, start, replies, timeout, m, v, n, w);
    }
  }

  lemma SameResult(d: Dialect, start: map<string, Json>, replies: Trace, timeout: int,
                   m: nat, v: Verdict, n: nat, w: Verdict)
    requires PollsTo(d, start, replies, timeout, m, v)
    requires PollsTo(d, start, replies, timeout, n, w)
    ensures m == n && v == w
  {
  }

  // ---------- submitting ----------

  datatype Submission = Started(outputs: map<string, Json>) | Refused(verdict: Verdict)

  /** The handle to poll with: Replicate's `urls.get`, RunPod's `id`. */
  function Handle(d: Dialect, outputs: map<string, Json>): Submission {
    match d
    case Replicate =>
      if "urls" !in outputs then Refused(Failure(READ_RESPONSE_ERROR, NoHandle))
      else if !outputs["urls"].Obj? then Refused(Panic)
      else if "get" !in outputs["urls"].fields then Refused(Failure(READ_RESPONSE_ERROR, NoHandle))
      else Started(outputs)
    case RunPod =>
      if "id" !in outputs then Refused(Failure(READ_RESPONSE_ERROR, NoHandle)) else Started(outputs)
  }

  function Submitted(d: Dialect, r: Reply): Submission {
    if Broken(r) != Undecided then Refused(Broken(r))
    else if r.code >= 300 then Refused(Failure(INTERNAL_ERROR, SubmitFailed))
    else Handle(d, Absorb(map[], r))
  }

  /** The fields that carry the handle are there. */
  predicate HasHandle(d: Dialect, outputs: map<string, Json>) {
    match d
    case Replicate => "urls" in outputs && outputs["urls"].Obj? && "get" in outputs["urls"].fields
    case RunPod => "id" in outputs
  }

  /** A submission starts polling exactly on a status below 300 with an object that carries the handle. */
  lemma SubmissionStarts(d: Dialect, r: Reply, outputs: map<string, Json>)
    ensures Submitted(d, r) == Started(outputs) <==>
              r.Answered? && r.code < 300 && r.body == Object(outputs) && HasHandle(d, outputs)
  {
    if r.Answered? && r.body.Object? {
      assert map[] + r.body.fields == r.body.fields;
    }
  }

  /**
   Why a submission is refused, exactly.  Since everything above 300 is rejected before the body is
   read, "predict failed" is said for the status 300 alone; only Replicate's nested handle can panic;
   and a submission never ends in a success, a timeout or a verdict about the prediction itself.
   */
  lemma SubmissionRefused(d: Dialect, r: Reply)
    requires Submitted(d, r).Refused?
    ensures var v := Submitted(d, r).verdict;
            && (v.Panic? <==> d.Replicate? && r.Answered? && r.code < 300 && r.body.Object?
                              && "urls" in r.body.fields && !r.body.fields["urls"].Obj?)
            && (v.Failure? <==> !v.Panic?)
            && (v.Failure? ==>
                  && (v == Failure(20002, Building) <==> r.Unbuildable?)
                  && (v == Failure(20003, Sending) <==> r.Unreachable?)
                  && (v == Failure(20007, Rejected) <==> r.Answered? && r.code > 300)
                  && (v == Failure(20004, Reading) <==> r.Answered? && r.code <= 300 && r.body.Unreadable?)
                  && (v == Failure(20005, Unmarshalling) <==> r.Answered? && r.code <= 300 && r.body.Malformed?)
                  && (v == Failure(20004, NoHandle) <==>
                        r.Answered? && r.code < 300
                        && (r.body.NullBody? || (r.body.Object? && !HasHandle(d, r.body.fields))))
                  && (v == Failure(20000, SubmitFailed) <==>
                        r.Answered? && r.code == 300 && (r.body.Object? || r.body.NullBody?))
                  && v.reason in {Building, Sending, Rejected, Reading, Unmarshalling, NoHandle, SubmitFailed})
  {
    if r.Answered? && r.body.Object? {
      assert map[] + r.body.fields == r.body.fields;
    }
  }

  /** The whole prediction over a trace that starts with the submission's reply. */
  ghost predicate PredictsTo(d: Dialect, replies: Trace, timeout: int, polls: nat, v: Verdict) {
    match Submitted(d, replies(0))
    case Refused(w) => polls == 0 && v == w
    case Started(outputs) => PollsTo(d, outputs, From(replies, 1), timeout, polls, v)
  }

  /** How many undecided polls were slept after. */
  function Sleeps(polls: nat, v: Verdict): nat {
    if polls == 0 || v == Failure(INTERNAL_ERROR, Timeout) then polls else polls - 1
  }

  /** Seconds of a prediction: its requests, and one second after every undecided poll. */
  function TimeOf(replies: Trace, polls: nat, v: Verdict): nat {
    TotalElapsed(replies, polls + 1) + Sleeps(polls, v)
  }

  /** With a positive timeout a prediction polls unless its submission was refused, which ends it at once. */
  lemma PollsUnlessRefused(d: Dialect, replies: Trace, timeout: int, polls: nat, v: Verdict)
    requires timeout > 0 && PredictsTo(d, replies, timeout, polls, v)
    ensures polls == 0 <==> Submitted(d, replies(0)).Refused?
    ensures polls == 0 ==> v == Submitted(d, replies(0)).verdict && TimeOf(replies, polls, v) == Elapsed(replies(0))
  {
    assert TotalElapsed(replies, 1) == TotalElapsed(replies, 0) + Elapsed(replies(0));
  }

  /** A prediction ends after at most T * (T + 2) seconds. */
  lemma PredictionTimeBound(d: Dialect, replies: Trace, timeout: int, polls: nat, v: Verdict)
    requires timeout > 0 && Timely(replies, timeout)
    requires PredictsTo(d, replies, timeout, polls, v)
    ensures TimeOf(replies, polls, v) <= timeout * (timeout + 2)
  {
    TotalBound(replies, timeout, polls + 1);
    assert polls <= timeout;
    ProductBound(polls + 1, timeout + 1, timeout);
    assert timeout * (timeout + 2) == (timeout + 1) * timeout + timeout;
  }

  lemma ProductBound(a: nat, b: nat, c: nat)
    requires a <= b
    ensures a * c <= b * c
  {
    assert b * c == a * c + (b - a) * c;
  }

  /** A reply that keeps either client polling for as long as one request may take. */
  function Stalling(seconds: nat): Reply {
    var handle := map["urls" := Obj(map["get" := Str("u")]), "id" := Str("j")];
    Answered(200, Object(handle["status" := Str("starting")]), seconds)
  }

  /** The bound is attained. */
  lemma PredictionTimeAttained(d: Dialect, timeout: nat)
    requires timeout > 0
    ensures exists replies: Trace, v ::
              && Timely(replies, timeout)
              && PredictsTo(d, replies, timeout, timeout, v)
              && TimeOf(replies, timeout, v) == timeout * (timeout + 2)
  {
    var replies := (i: nat) => Stalling(timeout);
    var v := Failure(INTERNAL_ERROR, Timeout);
    var start := Stalling(timeout).body.fields;
    assert Absorb(map[], Stalling(timeout)) == start;
    assert Submitted(d, replies(0)) == Started(start);
    var polls := From(replies, 1);
    forall j: nat ensures VerdictAt(d, start, polls, j).Undecided? {
      StallingMerge(timeout, polls, j + 1);
    }
    TotalOfConstant(replies, timeout, timeout + 1);
    assert (timeout + 1) * timeout + timeout == timeout * (timeout + 2);
    assert PredictsTo(d, replies, timeout, timeout, v);
  }

  lemma {:induction false} StallingMerge(seconds: nat, replies: Trace, n: nat)
    requires forall i :: replies(i) == Stalling(seconds)
    ensures Merged(Stalling(seconds).body.fields, replies, n) == Stalling(seconds).body.fields
    decreases n
  {
    if n > 0 {
      StallingMerge(seconds, replies, n - 1);
      assert Stalling(seconds).body.fields + Stalling(seconds).body.fields == Stalling(seconds).body.fields;
    }
  }

  // ---------- merged outputs ----------

  predicate Resets(r: Reply) {
    r.Answered? && r.code <= 300 && r.body.NullBody?
  }

  predicate Tells(r: Reply, key: string) {
    r.Answered? && r.code <= 300 && r.body.Object? && key in r.body.fields
  }

  /** The `j`-th reply is the last one that says anything about the key. */
  ghost predicate LastTold(replies: Trace, n: nat, key: string, j: nat) {
    && j < n && Tells(replies(j), key)
    && (forall i: nat :: j < i < n ==> !Tells(replies(i), key) && !Resets(replies(i)))
  }

  ghost predicate NeverTold(replies: Trace, n: nat, key: string) {
    forall i: nat :: i < n ==> !Tells(replies(i), key) && !Resets(replies(i))
  }

  lemma {:induction false} ToldLast(start: map<string, Json>, replies: Trace, n: nat, key: string, j: nat)
    requires LastTold(replies, n, key, j)
    ensures var m := Merged(start, replies, n); key in m && m[key] == replies(j).body.fields[key]
    decreases n
  {
    if j < n - 1 {
      assert !Tells(replies(n - 1), key) && !Resets(replies(n - 1));
      ToldLast(start, replies, n - 1, key, j);
    }
  }

  lemma {:induction false} NotTold(start: map<string, Json>, replies: Trace, n: nat, key: string)
    requires NeverTold(replies, n, key)
    ensures var m := Merged(start, replies, n); (key in m <==> key in start) && (key in m ==> m[key] == start[key])
    decreases n
  {
    if n > 0 {
      assert !Tells(replies(n - 1), key) && !Resets(replies(n - 1));
      NotTold(start, replies, n - 1, key);
    }
  }

  /** Where the value of a key comes from: nowhere but the submission or a last telling reply. */
  lemma {:induction false} TellerOf(start: map<string, Json>, replies: Trace, n: nat, key: string)
    requires key in Merged(start, replies, n)
    ensures NeverTold(replies, n, key) || exists j: nat :: LastTold(replies, n, key, j)
    decreases n
  {
    if n > 0 {
      if Tells(replies(n - 1), key) {
        assert LastTold(replies, n, key, n - 1);
      } else {
        assert key in Merged(start, replies, n - 1) && !Resets(replies(n - 1));
        TellerOf(start, replies, n - 1, key);
        if !NeverTold(replies, n, key) {
          var j: nat :| LastTold(replies, n - 1, key, j);
          assert LastTold(replies, n, key, j);
        }
      }
    }
  }

  /** A key has the value of the last reply that told it since the last reset, or of the submission. */
  lemma MergedIsRightBiased(start: map<string, Json>, replies: Trace, n: nat, key: string)
    ensures var m := Merged(start, replies, n);
            && (forall j: nat :: LastTold(replies, n, key, j) ==>
                  key in m && m[key] == replies(j).body.fields[key])
            && (NeverTold(replies, n, key) ==> (key in m <==> key in start) && (key in m ==> m[key] == start[key]))
            && (key in m ==> NeverTold(replies, n, key) || exists j: nat :: LastTold(replies, n, key, j))
  {
    forall j: nat | LastTold(replies, n, key, j)
      ensures key in Merged(start, replies, n) && Merged(start, replies, n)[key] == replies(j).body.fields[key]
    {
      ToldLast(start, replies, n, key, j);
    }
    if NeverTold(replies, n, key) {
      NotTold(start, replies, n, key);
    }
    if key in Merged(start, replies, n) {
      TellerOf(start, replies, n, key);
    }
  }

  /** A missing status means that nobody told one since the last reset. */
  lemma NoStatusMeansNeverTold(d: Dialect, start: map<string, Json>, replies: Trace, k: nat, j: nat)
    requires VerdictAt(d, start, replies, k) == Failure(READ_RESPONSE_ERROR, NoStatus)
    ensures !LastTold(replies, k + 1, "status", j)
    ensures NeverTold(replies, k + 1, "status") ==> "status" !in start
  {
    MergedIsRightBiased(start, replies, k + 1, "status");
  }

}
