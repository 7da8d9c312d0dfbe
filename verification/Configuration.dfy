/** The start-up check of the configuration, and how much of a prediction it covers. */
module Configuration {

  import opened Platforms
  import KServe
  import Polling

  datatype Config = Config(
    maxQueueSize: int,
    taskTimeout: int,
    kserveTimeout: int,
    k8sTimeout: int,
    replicateTimeout: int,
    runPodTimeout: int)

  /** The configurations the program starts with. */
  predicate PreCheck(c: Config) {
    && !(c.maxQueueSize < 1)
    && !(|| c.taskTimeout < c.kserveTimeout
         || c.taskTimeout < c.k8sTimeout
         || c.taskTimeout < c.replicateTimeout
         || c.taskTimeout < c.runPodTimeout)
  }

  /** Every request to KServe ends within the task's timeout. */
  ghost predicate KServeFits(c: Config) {
    forall replies: Trace, n: nat ::
      Timely(replies, c.kserveTimeout) && KServe.LastAttempt(replies, n) ==>
        KServe.SendTime(replies, n) <= c.taskTimeout
  }

  function PollTimeout(c: Config, d: Polling.Dialect): int {
    if d.Replicate? then c.replicateTimeout else c.runPodTimeout
  }

  /** Every prediction of a polling client ends within the task's timeout. */
  ghost predicate PollingFits(c: Config, d: Polling.Dialect) {
    forall replies: Trace, polls: nat, v ::
      Timely(replies, PollTimeout(c, d)) && Polling.PredictsTo(d, replies, PollTimeout(c, d), polls, v) ==>
        Polling.TimeOf(replies, polls, v) <= c.taskTimeout
  }

  /** The check covers one attempt; five attempts and the pauses between them need 5 * T + 20 seconds. */
  lemma KServeFitsIff(c: Config)
    requires c.kserveTimeout > 0
    ensures KServeFits(c) <==> c.taskTimeout >= 5 * c.kserveTimeout + 20
  {
    var worst := KServe.SendTimeAttained(c.kserveTimeout);
    forall replies: Trace, n: nat | Timely(replies, c.kserveTimeout) && KServe.LastAttempt(replies, n)
      ensures KServe.SendTime(replies, n) <= 5 * c.kserveTimeout + 20
    {
      KServe.SendTimeBound(replies, c.kserveTimeout, n);
    }
    assert KServeFits(c) ==> KServe.SendTime(worst, 4) <= c.taskTimeout;
  }

  /** A polling client needs the timeout once per request, and it sends up to T + 1 of them. */
  lemma PollingFitsIff(c: Config, d: Polling.Dialect)
    requires PollTimeout(c, d) > 0
    ensures PollingFits(c, d) <==> c.taskTimeout >= PollTimeout(c, d) * (PollTimeout(c, d) + 2)
  {
    var timeout := PollTimeout(c, d);
    Polling.PredictionTimeAttained(d, timeout);
    forall replies: Trace, polls: nat, v |
      Timely(replies, timeout) && Polling.PredictsTo(d, replies, timeout, polls, v)
      ensures Polling.TimeOf(replies, polls, v) <= timeout * (timeout + 2)
    {
      Polling.PredictionTimeBound(d, replies, timeout, polls, v);
    }
  }

  /** Every single request to a platform with this timeout ends within the task's timeout. */
  ghost predicate AttemptFits(c: Config, timeout: int) {
    forall replies: Trace, i: nat :: Timely(replies, timeout) ==> Elapsed(replies(i)) <= c.taskTimeout
  }

  lemma AttemptFitsIff(c: Config, timeout: int)
    requires timeout > 0
    ensures AttemptFits(c, timeout) <==> timeout <= c.taskTimeout
  {
    if timeout > c.taskTimeout {
      var replies := KServe.SendTimeAttained(timeout);
      TotalBound(replies, timeout, 4);
      assert Elapsed(replies(4)) == timeout by {
        assert KServe.SendTime(replies, 4) == TotalElapsed(replies, 4) + Elapsed(replies(4)) + 20;
      }
    }
  }

  /** The check is exactly that: a queue with room for one, and a task timeout that covers one request. */
  lemma PreCheckMeansOneAttempt(c: Config)
    requires c.kserveTimeout > 0 && c.k8sTimeout > 0 && c.replicateTimeout > 0 && c.runPodTimeout > 0
    ensures PreCheck(c) <==>
            && c.maxQueueSize > 0
            && AttemptFits(c, c.kserveTimeout) && AttemptFits(c, c.k8sTimeout)
            && AttemptFits(c, c.replicateTimeout) && AttemptFits(c, c.runPodTimeout)
  {
    AttemptFitsIff(c, c.kserveTimeout);
    AttemptFitsIff(c, c.k8sTimeout);
    AttemptFitsIff(c, c.replicateTimeout);
    AttemptFitsIff(c, c.runPodTimeout);
  }

  /** And no more than that: whatever the timeouts, a task timeout of the longest of them passes the check. */
  lemma PreCheckIsNotEnough(timeout: nat) returns (c: Config)
    requires timeout > 0
    ensures PreCheck(c) && c.kserveTimeout == c.replicateTimeout == c.runPodTimeout == timeout
    ensures !KServeFits(c) && !PollingFits(c, Polling.Replicate) && !PollingFits(c, Polling.RunPod)
  {
    c := Config(1, timeout, timeout, timeout, timeout, timeout);
    KServeFitsIff(c);
    PollingFitsIff(c, Polling.Replicate);
    PollingFitsIff(c, Polling.RunPod);
    assert timeout * (timeout + 2) == timeout * timeout + 2 * timeout;
  }

}
