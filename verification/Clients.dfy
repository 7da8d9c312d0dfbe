/** The polling clients, request by request. */
module Clients {

  import opened JsonValues
  import opened Platforms
  import opened Polling
  import opened Verdicts

  /** The request of a caller; the client deletes from its inputs in place. */
  class InferRequest {
    var inputs: map<string, Json>

    constructor (inputs: map<string, Json>)
      ensures this.inputs == inputs
    {
      this.inputs := inputs;
    }
  }

  datatype Sent = Response(code: int, body: Body) | Error(verdict: Verdict)

  /** One request; everything above status 300 is an error. */
  method SendRequest(remote: Remote) returns (s: Sent)
    modifies remote
    ensures remote.next == old(remote.next) + 1
    ensures remote.clock == old(remote.clock) + Elapsed(remote.replies(old(remote.next)))
    ensures var r := remote.replies(old(remote.next));
            if r.Answered? && r.code <= 300 then s == Response(r.code, r.body)
            else s == Error(Broken(r)) && Broken(r).Failure?
  {
    var r := remote.Exchange();
    match r
    case Unbuildable => s := Error(Failure(BUILD_REQUEST_ERROR, Building));
    case Unreachable(_) => s := Error(Failure(SEND_REQUEST_ERROR, Sending));
    case Answered(code, body, _) =>
      if code > 300 {
        s := Error(Failure(INVALID_INPUT_ERROR, Rejected));
      } else {
        s := Response(code, body);
      }
  }

  /** Submits a prediction to Replicate. */
  method ReplicateSubmit(remote: Remote) returns (s: Submission)
    modifies remote
    ensures remote.next == old(remote.next) + 1
    ensures remote.clock == old(remote.clock) + Elapsed(remote.replies(old(remote.next)))
    ensures s == Submitted(Replicate, remote.replies(old(remote.next)))
    ensures var r := remote.replies(old(remote.next));
            s.Started? ==> HasHandle(Replicate, s.outputs) && r.Answered? && r.body == Object(s.outputs)
  {
    var res := SendRequest(remote);
    if res.Error? {
      return Refused(res.verdict);
    }
    if res.body.Unreadable? {
      return Refused(Failure(READ_RESPONSE_ERROR, Reading));
    }
    if res.body.Malformed? {
      return Refused(Failure(UNMARSHAL_RESPONSE_ERROR, Unmarshalling));
    }
    var outputs: map<string, Json> := if res.body.Object? then res.body.fields else map[];
    assert outputs == Absorb(map[], remote.replies(old(remote.next)));
    if res.code >= 300 {
      return Refused(Failure(INTERNAL_ERROR, SubmitFailed));
    }
    if "urls" !in outputs {
      return Refused(Failure(READ_RESPONSE_ERROR, NoHandle));
    }
    if !outputs["urls"].Obj? {
      return Refused(Panic);
    }
    if "get" !in outputs["urls"].fields {
      return Refused(Failure(READ_RESPONSE_ERROR, NoHandle));
    }
    return Started(outputs);
  }

  /** Asks Replicate once and reads the reply into the outputs kept so far. */
  method ReplicatePoll(outputs: map<string, Json>, remote: Remote) returns (v: Verdict, outputs': map<string, Json>)
    modifies remote
    ensures remote.next == old(remote.next) + 1
    ensures remote.clock == old(remote.clock) + Elapsed(remote.replies(old(remote.next)))
    ensures var r := remote.replies(old(remote.next));
            && outputs' == Absorb(outputs, r)
            && v == (if Broken(r) != Undecided then Broken(r) else Judge(Replicate, outputs'))
            && (v.Success? || v.Panic? <==>
                  Readable(r) && "status" in outputs' && outputs'["status"] == Str("succeeded"))
            && (v == Failure(20000, PredictionFailed) <==>
                  Readable(r) && "status" in outputs' && outputs'["status"] == Str("failed"))
  {
    outputs' := outputs;
    var statusResponse := SendRequest(remote);
    if statusResponse.Error? {
      return statusResponse.verdict, outputs';
    }
    if statusResponse.body.Unreadable? {
      return Failure(READ_RESPONSE_ERROR, Reading), outputs';
    }
    if statusResponse.body.Malformed? {
      return Failure(UNMARSHAL_RESPONSE_ERROR, Unmarshalling), outputs';
    }
    outputs' := if statusResponse.body.Object? then outputs + statusResponse.body.fields else map[];
    // The branches for 429 and for the other statuses from 400 on are never taken.
    assert statusResponse.code < 400;
    if "status" !in outputs' {
      return Failure(READ_RESPONSE_ERROR, NoStatus), outputs';
    }
    if outputs'["status"] == Str("succeeded") {
      var metrics := At(outputs', "metrics");
      if !metrics.Obj? {
        return Panic, outputs';
      }
      return Success(At(outputs', "output"), At(metrics.fields, "predict_time")), outputs';
    } else if outputs'["status"] == Str("failed") {
      return Failure(INTERNAL_ERROR, PredictionFailed), outputs';
    }
    return Undecided, outputs';
  }

  /** Submits a prediction to RunPod. */
  method RunPodSubmit(remote: Remote) returns (s: Submission)
    modifies remote
    ensures remote.next == old(remote.next) + 1
    ensures remote.clock == old(remote.clock) + Elapsed(remote.replies(old(remote.next)))
    ensures s == Submitted(RunPod, remote.replies(old(remote.next)))
    ensures var r := remote.replies(old(remote.next));
            s.Started? ==> HasHandle(RunPod, s.outputs) && r.Answered? && r.body == Object(s.outputs)
  {
    var res := SendRequest(remote);
    if res.Error? {
      return Refused(res.verdict);
    }
    if res.body.Unreadable? {
      return Refused(Failure(READ_RESPONSE_ERROR, Reading));
    }
    if res.body.Malformed? {
      return Refused(Failure(UNMARSHAL_RESPONSE_ERROR, Unmarshalling));
    }
    var outputs: map<string, Json> := if res.body.Object? then res.body.fields else map[];
    assert outputs == Absorb(map[], remote.replies(old(remote.next)));
    if res.code >= 300 {
      return Refused(Failure(INTERNAL_ERROR, SubmitFailed));
    }
    if "id" !in outputs {
      return Refused(Failure(READ_RESPONSE_ERROR, NoHandle));
    }
    return Started(outputs);
  }

  /** Asks RunPod once and reads the reply into the outputs kept so far. */
  method RunPodPoll(outputs: map<string, Json>, remote: Remote) returns (v: Verdict, outputs': map<string, Json>)
    modifies remote
    ensures remote.next == old(remote.next) + 1
    ensures remote.clock == old(remote.clock) + Elapsed(remote.replies(old(remote.next)))
    ensures var r := remote.replies(old(remote.next));
            && outputs' == Absorb(outputs, r)
            && v == (if Broken(r) != Undecided then Broken(r) else Judge(RunPod, outputs'))
            && (v.Success? || v.Panic? <==>
                  Readable(r) && "status" in outputs' && outputs'["status"] == Str("COMPLETED"))
            && (v == Failure(20000, PredictionFailed) <==>
                  Readable(r) && "status" in outputs' && outputs'["status"] == Str("FAILED"))
  {
    outputs' := outputs;
    var statusResponse := SendRequest(remote);
    if statusResponse.Error? {
      return statusResponse.verdict, outputs';
    }
    if statusResponse.body.Unreadable? {
      return Failure(READ_RESPONSE_ERROR, Reading), outputs';
    }
    if statusResponse.body.Malformed? {
      return Failure(UNMARSHAL_RESPONSE_ERROR, Unmarshalling), outputs';
    }
    outputs' := if statusResponse.body.Object? then outputs + statusResponse.body.fields else map[];
    // The branch for statuses from 400 on is never taken.
    assert statusResponse.code < 400;
    if "status" !in outputs' {
      return Failure(READ_RESPONSE_ERROR, NoStatus), outputs';
    }
    if outputs'["status"] == Str("COMPLETED") {
      var executionTime := At(outputs', "executionTime");
      if !executionTime.Num? {
        return Panic, outputs';
      }
      return Success(At(outputs', "output"), Num(executionTime.n / 1000.0)), outputs';
    } else if outputs'["status"] == Str("FAILED") {
      return Failure(INTERNAL_ERROR, PredictionFailed), outputs';
    }
    return Undecided, outputs';
  }

  /** One status reply, as the client of the service reads it. */
  method Poll(d: Dialect, outputs: map<string, Json>, remote: Remote) returns (v: Verdict, outputs': map<string, Json>)
    modifies remote
    ensures remote.next == old(remote.next) + 1
    ensures remote.clock == old(remote.clock) + Elapsed(remote.replies(old(remote.next)))
    ensures var r := remote.replies(old(remote.next));
            && outputs' == Absorb(outputs, r)
            && v == if Broken(r) != Undecided then Broken(r) else Judge(d, outputs')
  {
    match d
    case Replicate => v, outputs' := ReplicatePoll(outputs, remote);
    case RunPod => v, outputs' := RunPodPoll(outputs, remote);
  }

  /** What the `i`-th turn of the loop makes of the outputs kept so far. */
  lemma TurnPolls(d: Dialect, start: map<string, Json>, replies: Trace, i: nat, outputs: map<string, Json>, v: Verdict)
    requires outputs == Absorb(Merged(start, replies, i), replies(i))
    requires v == if Broken(replies(i)) != Undecided then Broken(replies(i)) else Judge(d, outputs)
    ensures outputs == Merged(start, replies, i + 1) && v == VerdictAt(d, start, replies, i)
    ensures TotalElapsed(replies, i + 1) == TotalElapsed(replies, i) + Elapsed(replies(i))
  {
  }

  /** The loop of both clients: polls until a reply decides, at most `timeout` times. */
  method PollUntilDecided(d: Dialect, start: map<string, Json>, timeout: int, remote: Remote)
    returns (v: Verdict, ghost polls: nat)
    modifies remote
    ensures PollsTo(d, start, From(remote.replies, old(remote.next)), timeout, polls, v)
    ensures remote.next == old(remote.next) + polls
    ensures remote.clock == old(remote.clock) + Sleeps(polls, v)
                            + TotalElapsed(From(remote.replies, old(remote.next)), polls)
  {
    ghost var first, clock0 := remote.next, remote.clock;
    ghost var replies := From(remote.replies, first);
    var outputs := start;
    polls := 0;
    var i := 0;
    while i < timeout
      invariant 0 <= i && (i <= timeout || i == 0) && polls == i
      invariant remote.next == first + i
      invariant remote.clock == clock0 + TotalElapsed(replies, i) + i
      invariant outputs == Merged(start, replies, i)
      invariant Undecisive(d, start, replies, i)
    {
      polls := i + 1;
      v, outputs := Poll(d, outputs, remote);
      TurnPolls(d, start, replies, i, outputs, v);
      if !v.Undecided? {
        FirstDecision(d, start, replies, timeout, i);
        return v, polls;
      }
      OneMoreUndecided(d, start, replies, i);
      remote.Sleep(1);
      i := i + 1;
    }
    TimesOut(d, start, replies, timeout);
    return Failure(INTERNAL_ERROR, Timeout), polls;
  }

  lemma OneLonger(replies: Trace, n: nat)
    ensures TotalElapsed(replies, n + 1) == Elapsed(replies(0)) + TotalElapsed(From(replies, 1), n)
  {
    if n > 0 {
      OneLonger(replies, n - 1);
      assert From(replies, 1)(n - 1) == replies(n);
    }
  }

  /** What was polled after the submission is a prediction over the whole trace. */
  lemma StartedPolls(d: Dialect, trace: Trace, polled: Trace, outputs: map<string, Json>, timeout: int,
                     polls: nat, v: Verdict)
    requires Submitted(d, trace(0)) == Started(outputs) && forall i: nat :: polled(i) == trace(1 + i)
    requires PollsTo(d, outputs, polled, timeout, polls, v)
    ensures PredictsTo(d, trace, timeout, polls, v)
    ensures TimeOf(trace, polls, v) == Elapsed(trace(0)) + TotalElapsed(polled, polls) + Sleeps(polls, v)
  {
    OneLonger(trace, polls);
    PollsToSame(d, outputs, polled, From(trace, 1), timeout, polls, v);
  }

  /** A prediction at Replicate: the first decisive reply decides. */
  method ReplicatePredict(request: InferRequest, encodes: bool, timeout: int, remote: Remote)
    returns (v: Verdict, ghost polls: nat)
    modifies request, remote
    ensures request.inputs == old(request.inputs) - {"upload_webhook"}
    ensures !encodes ==> v == Failure(MARSHAL_ERROR, Marshalling) && remote.next == old(remote.next)
    ensures encodes ==>
              && PredictsTo(Replicate, From(remote.replies, old(remote.next)), timeout, polls, v)
              && (Submitted(Replicate, remote.replies(old(remote.next))).Started? ==>
                    ReplicateEnds(From(remote.replies, old(remote.next)), timeout, polls, v))
              && remote.next == old(remote.next) + 1 + polls
              && remote.clock == old(remote.clock) + TimeOf(From(remote.replies, old(remote.next)), polls, v)
  {
    ghost var first := remote.next;
    ghost var trace := From(remote.replies, first);
    request.inputs := request.inputs - {"upload_webhook"};
    if !encodes {
      return Failure(MARSHAL_ERROR, Marshalling), 0;
    }
    var submission := ReplicateSubmit(remote);
    OneLonger(trace, 0);
    if submission.Refused? {
      return submission.verdict, 0;
    }
    v, polls := PollUntilDecided(Replicate, submission.outputs, timeout, remote);
    StartedPolls(Replicate, trace, From(remote.replies, first + 1), submission.outputs, timeout, polls, v);
    ReplicateAnswers(trace, timeout, polls, v);
  }

  /** A prediction at RunPod: the first decisive reply decides. */
  method RunPodPredict(request: InferRequest, encodes: bool, timeout: int, remote: Remote)
    returns (v: Verdict, ghost polls: nat)
    modifies request, remote
    ensures request.inputs == old(request.inputs) - {"upload_webhook"}
    ensures !encodes ==> v == Failure(MARSHAL_ERROR, Marshalling) && remote.next == old(remote.next)
    ensures encodes ==>
              && PredictsTo(RunPod, From(remote.replies, old(remote.next)), timeout, polls, v)
              && (Submitted(RunPod, remote.replies(old(remote.next))).Started? ==>
                    RunPodEnds(From(remote.replies, old(remote.next)), timeout, polls, v))
              && remote.next == old(remote.next) + 1 + polls
              && remote.clock == old(remote.clock) + TimeOf(From(remote.replies, old(remote.next)), polls, v)
  {
    ghost var first := remote.next;
    ghost var trace := From(remote.replies, first);
    request.inputs := request.inputs - {"upload_webhook"};
    if !encodes {
      return Failure(MARSHAL_ERROR, Marshalling), 0;
    }
    var submission := RunPodSubmit(remote);
    OneLonger(trace, 0);
    if submission.Refused? {
      return submission.verdict, 0;
    }
    v, polls := PollUntilDecided(RunPod, submission.outputs, timeout, remote);
    StartedPolls(RunPod, trace, From(remote.replies, first + 1), submission.outputs, timeout, polls, v);
    RunPodAnswers(trace, timeout, polls, v);
  }

}
