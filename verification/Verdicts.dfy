/**
 What a prediction at a polled service comes to, told from the replies alone: in the words of each
 service, by what its replies said last, with the submission's reply as the first of them.
 */
module Verdicts {

  import opened JsonValues
  import opened Platforms
  import opened Polling

  /** The last of the first `n` replies that says anything about the key gives it this value. */
  ghost predicate Says(replies: Trace, n: nat, key: string, x: Json) {
    exists j: nat :: LastTold(replies, n, key, j) && replies(j).body.fields[key] == x
  }

  ghost predicate Silent(replies: Trace, n: nat, key: string) {
    forall x :: !Says(replies, n, key, x)
  }

  /** The value last told, or `null` for none. */
  ghost predicate Told(replies: Trace, n: nat, key: string, x: Json) {
    Says(replies, n, key, x) || (Silent(replies, n, key) && x == Null)
  }

  predicate Readable(r: Reply) {
    r.Answered? && r.code <= 300 && (r.body.Object? || r.body.NullBody?)
  }

  /** Reply `k` ends the polling: it is no good, or it leaves no status, or one of the two final words. */
  ghost predicate Decisive(replies: Trace, k: nat, success: string, failure: string) {
    || !Readable(replies(k))
    || Silent(replies, k + 1, "status")
    || Says(replies, k + 1, "status", Str(success))
    || Says(replies, k + 1, "status", Str(failure))
  }

  /** The polls end with the first decisive reply, or unanswered after `timeout` of them. */
  ghost predicate EndsFirst(replies: Trace, timeout: int, polls: nat, v: Verdict, success: string, failure: string) {
    && (forall k: nat :: 1 <= k < polls ==> !Decisive(replies, k, success, failure))
    && (v == Failure(20000, Timeout) <==> polls == 0 || !Decisive(replies, polls, success, failure))
    && (if v == Failure(20000, Timeout) then polls == (if timeout > 0 then timeout else 0) else polls <= timeout)
  }

  /** The errors of the deciding reply, each with its code, and each exactly for its kind of reply. */
  ghost predicate Errs(replies: Trace, polls: nat, v: Verdict, failure: string) {
    var r := replies(polls);
    && (v == Failure(20002, Building) <==> r.Unbuildable?)
    && (v == Failure(20003, Sending) <==> r.Unreachable?)
    && (v == Failure(20007, Rejected) <==> r.Answered? && r.code > 300)
    && (v == Failure(20004, Reading) <==> r.Answered? && r.code <= 300 && r.body.Unreadable?)
    && (v == Failure(20005, Unmarshalling) <==> r.Answered? && r.code <= 300 && r.body.Malformed?)
    && (v == Failure(20004, NoStatus) <==> Readable(r) && Silent(replies, polls + 1, "status"))
    && (v == Failure(20000, PredictionFailed) <==> Readable(r) && Says(replies, polls + 1, "status", Str(failure)))
  }

  // ---------- merged outputs over the whole trace ----------

  /** The submission's reply counts as the first. */
  lemma {:induction false} WholeTrace(d: Dialect, start: map<string, Json>, replies: Trace, n: nat)
    requires Submitted(d, replies(0)) == Started(start)
    ensures Merged(start, From(replies, 1), n) == Merged(map[], replies, n + 1)
    decreases n
  {
    if n == 0 {
      assert Merged(map[], replies, 1) == Absorb(Merged(map[], replies, 0), replies(0));
    } else {
      WholeTrace(d, start, replies, n - 1);
      assert From(replies, 1)(n - 1) == replies(n);
    }
  }

  lemma SaysMerged(replies: Trace, n: nat, key: string)
    ensures var m := Merged(map[], replies, n);
            && (forall x :: Says(replies, n, key, x) <==> key in m && m[key] == x)
            && (Silent(replies, n, key) <==> key !in m)
            && (forall x :: Told(replies, n, key, x) <==> x == At(m, key))
  {
    var m := Merged(map[], replies, n);
    MergedIsRightBiased(map[], replies, n, key);
    if key in m {
      var j: nat :| LastTold(replies, n, key, j);
      assert Says(replies, n, key, m[key]);
    }
  }

  lemma SaysValue(replies: Trace, n: nat, key: string, x: Json)
    ensures var m := Merged(map[], replies, n); Says(replies, n, key, x) <==> key in m && m[key] == x
    ensures Silent(replies, n, key) <==> key !in Merged(map[], replies, n)
  {
    SaysMerged(replies, n, key);
  }

  /** What reply `k` decides, over the replies so far. */
  function Decision(d: Dialect, replies: Trace, k: nat): Verdict {
    if Broken(replies(k)) != Undecided then Broken(replies(k)) else Judge(d, Merged(map[], replies, k + 1))
  }

  lemma BrokenIff(r: Reply)
    ensures Broken(r).Undecided? <==> Readable(r)
  {
  }

  lemma DecisiveIff(d: Dialect, replies: Trace, k: nat)
    ensures Decisive(replies, k, SuccessWord(d), FailureWord(d)) <==> !Decision(d, replies, k).Undecided?
  {
    BrokenIff(replies(k));
    SaysValue(replies, k + 1, "status", Str(SuccessWord(d)));
    SaysValue(replies, k + 1, "status", Str(FailureWord(d)));
  }

  lemma PollDecides(d: Dialect, start: map<string, Json>, replies: Trace, k: nat)
    requires Submitted(d, replies(0)) == Started(start) && k > 0
    ensures VerdictAt(d, start, From(replies, 1), k - 1) == Decision(d, replies, k)
  {
    WholeTrace(d, start, replies, k);
    assert From(replies, 1)(k - 1) == replies(k);
  }

  /** What the poll predicate says, told from the whole trace. */
  lemma PollsEndFirst(d: Dialect, replies: Trace, timeout: int, polls: nat, v: Verdict)
    requires Submitted(d, replies(0)).Started? && PredictsTo(d, replies, timeout, polls, v)
    ensures EndsFirst(replies, timeout, polls, v, SuccessWord(d), FailureWord(d))
    ensures v != Failure(20000, Timeout) ==> polls > 0 && v == Decision(d, replies, polls)
  {
    forall k: nat | 1 <= k <= polls
      ensures Decisive(replies, k, SuccessWord(d), FailureWord(d)) <==>
                !VerdictAt(d, Submitted(d, replies(0)).outputs, From(replies, 1), k - 1).Undecided?
    {
      PollDecides(d, Submitted(d, replies(0)).outputs, replies, k);
      DecisiveIff(d, replies, k);
    }
    if polls > 0 {
      PollDecides(d, Submitted(d, replies(0)).outputs, replies, polls);
    }
  }

  /** The errors of the deciding reply. */
  lemma ErrsHold(d: Dialect, replies: Trace, polls: nat)
    ensures Errs(replies, polls, Decision(d, replies, polls), FailureWord(d))
  {
    BrokenIff(replies(polls));
    SaysValue(replies, polls + 1, "status", Str(FailureWord(d)));
  }

  // ---------- the two services ----------

  /** "succeeded" with metrics that are an object: the output and the prediction time that were told last. */
  ghost predicate ReplicateGives(replies: Trace, n: nat, output: Json, seconds: Json) {
    && Says(replies, n, "status", Str("succeeded"))
    && Told(replies, n, "output", output)
    && exists m :: Says(replies, n, "metrics", Obj(m))
                   && seconds == if "predict_time" in m then m["predict_time"] else Null
  }

  /** "COMPLETED" with an execution time that is a number of milliseconds. */
  ghost predicate RunPodGives(replies: Trace, n: nat, output: Json, seconds: Json) {
    && Says(replies, n, "status", Str("COMPLETED"))
    && Told(replies, n, "output", output)
    && exists t :: Says(replies, n, "executionTime", Num(t)) && seconds == Num(t / 1000.0)
  }

  ghost predicate ReplicateFinds(replies: Trace, n: nat, v: Verdict) {
    && (forall output, seconds :: v == Success(output, seconds) <==> ReplicateGives(replies, n, output, seconds))
    && (v.Panic? <==> Says(replies, n, "status", Str("succeeded")) && forall m :: !Says(replies, n, "metrics", Obj(m)))
  }

  ghost predicate RunPodFinds(replies: Trace, n: nat, v: Verdict) {
    && (forall output, seconds :: v == Success(output, seconds) <==> RunPodGives(replies, n, output, seconds))
    && (v.Panic? <==>
          Says(replies, n, "status", Str("COMPLETED")) && forall t :: !Says(replies, n, "executionTime", Num(t)))
  }

  lemma ReplicateJudges(replies: Trace, n: nat)
    ensures ReplicateFinds(replies, n, Judge(Replicate, Merged(map[], replies, n)))
  {
    var m := Merged(map[], replies, n);
    SaysValue(replies, n, "status", Str("succeeded"));
    SaysMerged(replies, n, "metrics");
    SaysMerged(replies, n, "output");
    if "metrics" in m && m["metrics"].Obj? {
      assert Says(replies, n, "metrics", Obj(m["metrics"].fields));
    }
  }

  lemma RunPodTime(replies: Trace, n: nat, seconds: Json)
    ensures var time := At(Merged(map[], replies, n), "executionTime");
            && ((exists t :: Says(replies, n, "executionTime", Num(t)) && seconds == Num(t / 1000.0)) <==>
                  time.Num? && seconds == Num(time.n / 1000.0))
            && ((forall t :: !Says(replies, n, "executionTime", Num(t))) <==> !time.Num?)
  {
    var m := Merged(map[], replies, n);
    SaysMerged(replies, n, "executionTime");
    if At(m, "executionTime").Num? {
      assert Says(replies, n, "executionTime", Num(m["executionTime"].n));
    }
  }

  lemma RunPodGivesIff(replies: Trace, n: nat, output: Json, seconds: Json)
    ensures Judge(RunPod, Merged(map[], replies, n)) == Success(output, seconds) <==>
              RunPodGives(replies, n, output, seconds)
  {
    SaysValue(replies, n, "status", Str("COMPLETED"));
    SaysMerged(replies, n, "output");
    RunPodTime(replies, n, seconds);
  }

  lemma RunPodJudges(replies: Trace, n: nat)
    ensures RunPodFinds(replies, n, Judge(RunPod, Merged(map[], replies, n)))
  {
    forall output, seconds
      ensures Judge(RunPod, Merged(map[], replies, n)) == Success(output, seconds) <==>
                RunPodGives(replies, n, output, seconds)
    {
      RunPodGivesIff(replies, n, output, seconds);
    }
    SaysValue(replies, n, "status", Str("COMPLETED"));
    RunPodTime(replies, n, Null);
  }

  /** A broken reply is no success and no panic. */
  predicate NoResult(v: Verdict) {
    !v.Success? && !v.Panic?
  }

  ghost predicate ReplicateDecided(replies: Trace, polls: nat, v: Verdict) {
    && Errs(replies, polls, v, "failed")
    && (if Readable(replies(polls)) then ReplicateFinds(replies, polls + 1, v) else NoResult(v))
  }

  lemma ReplicateDecides(replies: Trace, polls: nat)
    ensures ReplicateDecided(replies, polls, Decision(Replicate, replies, polls))
  {
    var v := Decision(Replicate, replies, polls);
    BrokenIff(replies(polls));
    assert Errs(replies, polls, v, "failed") by {
      ErrsHold(Replicate, replies, polls);
      assert FailureWord(Replicate) == "failed";
    }
    if Readable(replies(polls)) {
      ReplicateJudges(replies, polls + 1);
    }
  }

  /**
   Replicate: a success exactly when the status last told is "succeeded" and the metrics last told are an
   object, with the output last told and the prediction time among the metrics; a failed prediction
   exactly when it is "failed".
   */
  ghost predicate ReplicateEnds(replies: Trace, timeout: int, polls: nat, v: Verdict) {
    && EndsFirst(replies, timeout, polls, v, "succeeded", "failed")
    && (v == Failure(20000, Timeout) || ReplicateDecided(replies, polls, v))
    && TimeOf(replies, polls, v) ==
       TotalElapsed(replies, polls + 1) + if v == Failure(20000, Timeout) then polls else polls - 1
  }

  /** Every prediction whose submission was taken ends so. */
  lemma ReplicateAnswers(replies: Trace, timeout: int, polls: nat, v: Verdict)
    requires Submitted(Replicate, replies(0)).Started? && PredictsTo(Replicate, replies, timeout, polls, v)
    ensures ReplicateEnds(replies, timeout, polls, v)
  {
    PollsEndFirst(Replicate, replies, timeout, polls, v);
    ReplicateDecides(replies, polls);
  }

  ghost predicate RunPodDecided(replies: Trace, polls: nat, v: Verdict) {
    && Errs(replies, polls, v, "FAILED")
    && (if Readable(replies(polls)) then RunPodFinds(replies, polls + 1, v) else NoResult(v))
  }

  lemma RunPodDecides(replies: Trace, polls: nat)
    ensures RunPodDecided(replies, polls, Decision(RunPod, replies, polls))
  {
    var v := Decision(RunPod, replies, polls);
    BrokenIff(replies(polls));
    assert Errs(replies, polls, v, "FAILED") by {
      ErrsHold(RunPod, replies, polls);
      assert FailureWord(RunPod) == "FAILED";
    }
    if Readable(replies(polls)) {
      RunPodJudges(replies, polls + 1);
    }
  }

  /** RunPod: the same with "COMPLETED" and "FAILED", and a time in milliseconds. */
  ghost predicate RunPodEnds(replies: Trace, timeout: int, polls: nat, v: Verdict) {
    && EndsFirst(replies, timeout, polls, v, "COMPLETED", "FAILED")
    && (v == Failure(20000, Timeout) || RunPodDecided(replies, polls, v))
    && TimeOf(replies, polls, v) ==
       TotalElapsed(replies, polls + 1) + if v == Failure(20000, Timeout) then polls else polls - 1
  }

  /** Every prediction whose submission was taken ends so. */
  lemma RunPodAnswers(replies: Trace, timeout: int, polls: nat, v: Verdict)
    requires Submitted(RunPod, replies(0)).Started? && PredictsTo(RunPod, replies, timeout, polls, v)
    ensures RunPodEnds(replies, timeout, polls, v)
  {
    PollsEndFirst(RunPod, replies, timeout, polls, v);
    RunPodDecides(replies, polls);
  }

}
