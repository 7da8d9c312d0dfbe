/** How the KServe client sends a request: five attempts at most, with a growing pause in between. */
module KServe {

  import opened Platforms

  const NUM_RETRIES: nat := 5

  /** `retries` is the count that the error message carries. */
  datatype Outcome =
    | Response(body: Body)
    | Failed(code: int)
    | Rejected(code: int, status: int, retries: nat)

  /** A server that cannot be reached, or that answers with a gateway error. */
  predicate Retryable(r: Reply) {
    r.Unreachable? || (r.Answered? && 502 <= r.code <= 504)
  }

  /** What an attempt answers when it is the last one. */
  function OutcomeOf(r: Reply, retries: nat): Outcome {
    match r
    case Unbuildable => Failed(BUILD_REQUEST_ERROR)
    case Unreachable(_) => Failed(SEND_REQUEST_ERROR)
    case Answered(code, body, _) =>
      if code == 200 then Response(body) else Rejected(INVALID_INPUT_ERROR, code, retries)
  }

  /** Attempt `n` is the last: the first that is not worth a retry, or the fifth. */
  ghost predicate LastAttempt(replies: Trace, n: nat) {
    && n < NUM_RETRIES
    && (forall j: nat :: j < n ==> Retryable(replies(j)))
    && (n == NUM_RETRIES - 1 || !Retryable(replies(n)))
  }

  /** Seconds until the request is answered after `n` retries. */
  function SendTime(replies: Trace, n: nat): nat {
    TotalElapsed(replies, n + 1) + n * (n + 1)
  }

  /** The seconds slept before attempt `n`: two before the first retry, and two more before each further one. */
  function Pauses(n: nat): nat {
    if n == 0 then 0 else Pauses(n - 1) + 2 * n
  }

  lemma {:induction false} PausesAddUp(n: nat)
    ensures Pauses(n) == n * (n + 1)
  {
    if n > 0 {
      PausesAddUp(n - 1);
    }
  }

  /** The attempt got no reply, or one of the three gateway errors. */
  predicate TriedInVain(r: Reply) {
    r.Unreachable? || (r.Answered? && r.code in {502, 503, 504})
  }

  ghost predicate AnsweredWith(replies: Trace, m: nat, body: Body) {
    && (forall j: nat :: j < m ==> TriedInVain(replies(j)))
    && replies(m).Answered? && replies(m).code == 200 && replies(m).body == body
  }

  /**
   What a request comes to, in terms of its attempts: a response exactly when one of five attempts is
   answered with 200 and all before it were in vain; a rejection exactly when the last attempt is
   answered otherwise, with a gateway error only at the fifth; an error of the connection only at the
   fifth.
   */
  ghost predicate SentAs(replies: Trace, n: nat, o: Outcome) {
    && n <= 4 && (forall j: nat :: j < n ==> TriedInVain(replies(j)))
    && (forall body :: o == Response(body) <==> exists m: nat :: m < 5 && AnsweredWith(replies, m, body))
    && (forall status, retries :: o == Rejected(20007, status, retries) <==>
          && replies(n).Answered? && replies(n).code == status && retries == n
          && status != 200 && (status !in {502, 503, 504} || n == 4))
    && (o == Failed(20002) <==> replies(n).Unbuildable?)
    && (o == Failed(20003) <==> n == 4 && replies(n).Unreachable?)
    && (o.Failed? ==> o.code in {20002, 20003})
    && (o.Rejected? ==> o.code == 20007)
  }

  lemma LastAttemptAnswers(replies: Trace, n: nat)
    requires LastAttempt(replies, n)
    ensures SentAs(replies, n, OutcomeOf(replies(n), n))
    ensures SendTime(replies, n) == TotalElapsed(replies, n + 1) + Pauses(n)
  {
    PausesAddUp(n);
    forall body, m: nat | m < 5 && AnsweredWith(replies, m, body) ensures m == n {
      assert !Retryable(replies(m));
    }
    if replies(n).Answered? && replies(n).code == 200 {
      assert AnsweredWith(replies, n, replies(n).body);
    }
  }

  /** The client's loop answers what its last attempt answers; its pauses add up to n * (n + 1). */
  method SendRequest(remote: Remote) returns (o: Outcome, ghost n: nat)
    modifies remote
    ensures LastAttempt(From(remote.replies, old(remote.next)), n)
    ensures o == OutcomeOf(remote.replies(old(remote.next) + n), n)
    ensures SentAs(From(remote.replies, old(remote.next)), n, o)
    ensures remote.next == old(remote.next) + n + 1
    ensures remote.clock == old(remote.clock) + SendTime(From(remote.replies, old(remote.next)), n)
    ensures remote.clock == old(remote.clock) + TotalElapsed(From(remote.replies, old(remote.next)), n + 1) + Pauses(n)
  {
    ghost var first, clock0 := remote.next, remote.clock;
    ghost var replies := From(remote.replies, first);
    var i := 0;
    n := 0;
    while i < NUM_RETRIES
      invariant 0 <= i < NUM_RETRIES && n == i
      invariant forall j: nat :: j < i ==> Retryable(replies(j))
      invariant remote.next == first + i
      invariant remote.clock == clock0 + TotalElapsed(replies, i) + Pauses(i)
      decreases NUM_RETRIES - i
    {
      n := i;
      var res := remote.Exchange();
      assert res == replies(i);
      if !Retryable(res) || i == NUM_RETRIES - 1 {
        LastAttemptAnswers(replies, i);
      }
      match res {
        case Unbuildable =>
          return Failed(BUILD_REQUEST_ERROR), n;
        case Unreachable(_) =>
          if i >= NUM_RETRIES - 1 {
            return Failed(SEND_REQUEST_ERROR), n;
          }
        case Answered(code, body, _) =>
          if code != 200 {
            if !(502 <= code <= 504 && i < NUM_RETRIES - 1) {
              return Rejected(INVALID_INPUT_ERROR, code, i), n;
            }
          } else {
            return Response(body), n;
          }
      }
      remote.Sleep((i + 1) * 2);
      i := i + 1;
      n := i;
    }
    // The return behind the loop is never reached.
    assert false;
  }

  /** Every trace has one last attempt. */
  lemma OneLastAttempt(replies: Trace)
    ensures exists n: nat :: LastAttempt(replies, n)
    ensures forall m: nat, n: nat :: LastAttempt(replies, m) && LastAttempt(replies, n) ==> m == n
  {
    var n: nat := 0;
    while n < NUM_RETRIES - 1 && Retryable(replies(n))
      invariant n < NUM_RETRIES
      invariant forall j: nat :: j < n ==> Retryable(replies(j))
    {
      n := n + 1;
    }
    assert LastAttempt(replies, n);
  }

  /** A request ends after at most 5 * T + 20 seconds. */
  lemma SendTimeBound(replies: Trace, timeout: int, n: nat)
    requires timeout > 0 && Timely(replies, timeout)
    requires LastAttempt(replies, n)
    ensures SendTime(replies, n) <= 5 * timeout + 20
  {
    TotalBound(replies, timeout, n + 1);
    if n < 4 {
      assert n == 0 || n == 1 || n == 2 || n == 3;
    }
  }

  /** A server that no attempt reaches uses up the bound. */
  lemma SendTimeAttained(timeout: nat)
    returns (replies: Trace)
    requires timeout > 0
    ensures Timely(replies, timeout) && LastAttempt(replies, 4)
    ensures SendTime(replies, 4) == 5 * timeout + 20
  {
    replies := (i: nat) => Unreachable(timeout);
    TotalOfConstant(replies, timeout, 5);
  }

}
