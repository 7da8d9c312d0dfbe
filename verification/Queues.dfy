/**
 The task queue behind the distributor, as far as the agent relies on it.  The queue library is
 not part of this model; the functions below are its contract.
 */
module Queues {

  import opened Wrappers
  import opened Records

  /** Where the handler of an active entry stands. */
  datatype Pc =
    | Fetched                     // before the `running` write
    | Announced                   // the `running` write was accepted
    | Answered(report: Update)    // the prediction returned, its report is not yet written
    | Finished                    // the report was accepted, about to return nil
    | Lost                        // the worker died

  datatype Place = InScheduled | InPending | InRetry | InActive(pc: Pc) | InArchived

  /** `payload` is `None` when the stored bytes do not parse. */
  datatype Entry = Entry(payload: Option<TaskId>, place: Place, retried: nat, failedAt: int)

  type Queue = map<QueueId, Entry>

  /** An entry as a list call returns it. */
  datatype TaskInfo = TaskInfo(q: QueueId, payload: Option<TaskId>, failedAt: int)

  const MAX_RETRY: nat := 1

  const TWELVE_HOURS: int := 12 * 60 * 60

  predicate Waiting(p: Place) {
    p.InScheduled? || p.InPending? || p.InRetry?
  }

  predicate Live(p: Place) {
    !p.InArchived?
  }

  /** The number of the list an entry is on, in the order in which unfinished tasks are listed. */
  function Rank(p: Place): nat {
    match p
    case InScheduled => 0
    case InPending => 1
    case InRetry => 2
    case InActive(_) => 3
    case InArchived => 4
  }

  function WaitingSet(queue: Queue): set<QueueId> {
    set q | q in queue && Waiting(queue[q].place)
  }

  function ActiveSet(queue: Queue): set<QueueId> {
    set q | q in queue && queue[q].place.InActive?
  }

  function LiveSet(queue: Queue): set<QueueId> {
    set q | q in queue && Live(queue[q].place)
  }

  function OnList(queue: Queue, list: nat): set<QueueId> {
    set q | q in queue && Rank(queue[q].place) == list
  }

  function InfoOf(queue: Queue, q: QueueId): TaskInfo
    requires q in queue
  {
    TaskInfo(q, queue[q].payload, queue[q].failedAt)
  }

  /** A list call answers with the first page of a list: all of it, or `limit` entries. */
  ghost predicate IsPage(queue: Queue, list: nat, limit: nat, page: seq<QueueId>) {
    && NoDup(page)
    && |page| <= limit
    && (forall q :: q in page ==> q in OnList(queue, list))
    && (|page| < limit ==> forall q :: q in OnList(queue, list) ==> q in page)
  }

  /** The page leaves nothing of its list out. */
  ghost predicate Covers(queue: Queue, list: nat, page: seq<QueueId>) {
    forall q :: q in OnList(queue, list) ==> q in page
  }

  /** A list that fits its page is returned whole. */
  lemma PageCovers(queue: Queue, list: nat, limit: nat, page: seq<QueueId>)
    requires IsPage(queue, list, limit, page)
    requires |OnList(queue, list)| <= limit
    ensures Covers(queue, list, page)
  {
    if |page| == limit {
      var on := OnList(queue, list);
      var got := Elems(page);
      NoDupSize(page);
      assert got <= on;
      if q :| q in on && q !in got {
        assert got <= on - {q};
        SubsetSize(got, on - {q});
      }
    }
  }

  lemma {:induction false} SubsetSize<T>(a: set<T>, b: set<T>)
    requires a <= b
    ensures |a| <= |b|
    decreases a
  {
    if x :| x in a {
      SubsetSize(a - {x}, b - {x});
    }
  }

  lemma {:induction false} NoDupSize<T>(xs: seq<T>)
    requires NoDup(xs)
    ensures |Elems(xs)| == |xs|
    decreases |xs|
  {
    if xs != [] {
      var rest := xs[1..];
      NoDupSize(rest);
      assert Elems(xs) == {xs[0]} + Elems(rest);
    }
  }

  /** `DeleteTask` refuses active and missing entries. */
  predicate CanDelete(queue: Queue, q: QueueId) {
    q in queue && !queue[q].place.InActive?
  }

  /** A handler that returns an error: the entry is retried, or archived after its last attempt. */
  function Fails(e: Entry, now: int): Entry {
    if e.retried < MAX_RETRY then
      e.(place := InRetry, retried := e.retried + 1, failedAt := now)
    else
      e.(place := InArchived, failedAt := now)
  }

}
