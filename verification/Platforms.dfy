/** The error codes and the replies that the platform clients share. */
module Platforms {

  import opened JsonValues

  const INTERNAL_ERROR: int := 20000
  const MARSHAL_ERROR: int := 20001
  const BUILD_REQUEST_ERROR: int := 20002
  const SEND_REQUEST_ERROR: int := 20003
  const READ_RESPONSE_ERROR: int := 20004
  const UNMARSHAL_RESPONSE_ERROR: int := 20005
  const INVALID_INPUT_ERROR: int := 20007

  /** What reading and parsing a response body comes to; `Malformed` includes every value but objects and null. */
  datatype Body =
    | Unreadable
    | Malformed
    | NullBody
    | Object(fields: map<string, Json>)

  /** What becomes of one request, and the seconds it takes. */
  datatype Reply =
    | Unbuildable
    | Unreachable(seconds: nat)
    | Answered(code: int, body: Body, taken: nat)

  function Elapsed(r: Reply): nat {
    match r
    case Unbuildable => 0
    case Unreachable(n) => n
    case Answered(_, _, n) => n
  }

  /** A trace of replies; the agent sees ever more of it. */
  type Trace = nat -> Reply

  /** The replies from the one numbered `first`. */
  function From(replies: Trace, first: nat): Trace {
    (i: nat) => replies(first + i)
  }

  /** Seconds spent on the first `n` requests. */
  function TotalElapsed(replies: Trace, n: nat): nat {
    if n == 0 then 0 else TotalElapsed(replies, n - 1) + Elapsed(replies(n - 1))
  }

  /** No request takes longer than the client's timeout. */
  ghost predicate Timely(replies: Trace, timeout: int) {
    forall i :: Elapsed(replies(i)) <= timeout
  }

  lemma {:induction false} TotalBound(replies: Trace, timeout: int, n: nat)
    requires timeout >= 0 && Timely(replies, timeout)
    ensures TotalElapsed(replies, n) <= n * timeout
    decreases n
  {
    if n > 0 {
      TotalBound(replies, timeout, n - 1);
      assert Elapsed(replies(n - 1)) <= timeout;
      assert n * timeout == (n - 1) * timeout + timeout;
    }
  }

  lemma {:induction false} TotalOfConstant(replies: Trace, seconds: nat, n: nat)
    requires forall i :: Elapsed(replies(i)) == seconds
    ensures TotalElapsed(replies, n) == n * seconds
    decreases n
  {
    if n > 0 {
      TotalOfConstant(replies, seconds, n - 1);
      assert n * seconds == (n - 1) * seconds + seconds;
    }
  }

  /** The other end of the connection: an arbitrary trace of replies, and a clock. */
  class Remote {
    const replies: Trace
    var next: nat
    var clock: nat

    constructor (replies: Trace)
      ensures this.replies == replies && next == 0 && clock == 0
    {
      this.replies := replies;
      next, clock := 0, 0;
    }

    method Exchange() returns (r: Reply)
      modifies this
      ensures r == replies(old(next)) && next == old(next) + 1 && clock == old(clock) + Elapsed(r)
    {
      r := replies(next);
      next, clock := next + 1, clock + Elapsed(r);
    }

    method Sleep(seconds: nat)
      modifies this`clock
      ensures clock == old(clock) + seconds
    {
      clock := clock + seconds;
    }
  }

}
