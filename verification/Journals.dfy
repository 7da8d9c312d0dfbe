/** The calls that the agent makes, each with what it was answered, in the order in which it makes them. */
module Journals {

  import opened Wrappers
  import opened Records

  datatype ServiceCall =
    | MakeRecord(id: TaskId, record: Record, made: bool)
    | ReadRecord(id: TaskId, ok: bool)
    | WriteRecord(id: TaskId, update: Update, ok: bool)
    | WriteDatabase(id: TaskId, update: Update, ok: bool)
    | ListRecords(model: string, status: Status, ids: seq<TaskId>)
    | AskSize(ok: bool)
    | AddEntry(id: TaskId, given: Option<QueueId>)
    | DropEntry(q: QueueId, ok: bool)
    | ListEntries(list: nat, ok: bool, page: seq<QueueId>)
    | RunPrediction(id: TaskId)
    | Pause

  /** The calls made so far, in order. */
  datatype Log = Empty | Then(before: Log, call: ServiceCall)

  /** What both services and the platform are called through; it only records. */
  class Journal {
    ghost var log: Log

    constructor ()
      ensures log == Empty
    {
      log := Empty;
    }

    /** Waits for `TASK_TIMEOUT` seconds. */
    method Wait()
      modifies this
      ensures log == Then(old(log), Pause)
    {
      log := Then(log, Pause);
    }
  }

}
