/** What the archive sweep may remove when its steps interleave with those of all others. */
module ArchiveSafety {

  import opened Records
  import opened Queues
  import opened Protocol
  import opened Invariant
  import opened Evolution
  import opened Reachable
  import CancelIsFinal

  /** The item is what the archive says of its entry, as long as the entry is there. */
  ghost predicate Filed(s: State, item: TaskInfo) {
    && item.q < s.nextQueue
    && (item.q in s.queue ==> s.queue[item.q].place.InArchived? && InfoOf(s.queue, item.q) == item)
  }

  /** The record says that the task is over without success. */
  ghost predicate Ended(s: State, id: TaskId) {
    id in s.views.db && (s.views.db[id].status == Failed || s.views.db[id].status == Canceled)
  }

  /** The sweep is about to delete: its update was accepted, or the entry failed long ago. */
  ghost predicate Cleared(s: State, item: TaskInfo, marked: bool, now: int) {
    && item.payload.Some? && Quiet(s, item.payload.value)
    && (if marked then Ended(s, item.payload.value) else now >= item.failedAt + TWELVE_HOURS)
  }

  ghost predicate FileOk(s: State, x: Actor) {
    match x
    case Archiving(items) => forall item :: item in items ==> Filed(s, item)
    case ArchiveDeleting(item, marked, now, items) =>
      Filed(s, item) && Cleared(s, item, marked, now) && forall i :: i in items ==> Filed(s, i)
    case _ => true
  }

  ghost predicate Files(s: State) {
    forall a :: a in s.actors ==> FileOk(s, s.actors[a])
  }

  lemma FiledStays(s: State, t: Step, item: TaskInfo)
    requires Core(s) && Enabled(s, t) && Filed(s, item)
    ensures Filed(Do(s, t), item)
  {
    StepKeepsIds(s, t);
  }

  lemma ClearedStays(s: State, t: Step, item: TaskInfo, marked: bool, now: int)
    requires Inv(s) && Enabled(s, t) && Cleared(s, item, marked, now)
    ensures Cleared(Do(s, t), item, marked, now)
  {
    StepEvolves(s, t);
    QuietStays(s, Do(s, t), item.payload.value);
    CancelIsFinal.QuietStep(s, t, item.payload.value);
  }

  lemma FileStays(s: State, t: Step, x: Actor)
    requires Inv(s) && Enabled(s, t) && FileOk(s, x)
    ensures FileOk(Do(s, t), x)
  {
    match x {
      case Archiving(items) =>
        forall item | item in items ensures Filed(Do(s, t), item) { FiledStays(s, t, item); }
      case ArchiveDeleting(item, marked, now, items) =>
        FiledStays(s, t, item);
        ClearedStays(s, t, item, marked, now);
        forall i | i in items ensures Filed(Do(s, t), i) { FiledStays(s, t, i); }
      case _ =>
    }
  }

  lemma PageIsFiled(s: State, page: seq<QueueId>, item: TaskInfo)
    requires Core(s) && IsPage(s.queue, 4, s.limit, page) && item in Infos(s.queue, page)
    ensures Filed(s, item)
  {
    var i :| 0 <= i < |page| && item == Infos(s.queue, page)[i];
    assert page[i] in page && page[i] in OnList(s.queue, 4) && EntryOk(s, page[i]);
  }

  /** Marking leaves the queue alone. */
  lemma MarkKeepsFiled(s: State, a: nat, ok: bool, now: int, item: TaskInfo)
    requires ArchiveEnabled(s, a, ArchiveMark(ok, now)) && Filed(s, item)
    ensures Filed(DoArchive(s, a, ArchiveMark(ok, now)), item)
  {
  }

  /** What the sweep clears for deletion it has marked, or it failed long ago. */
  lemma MarkClears(s: State, a: nat, ok: bool, now: int)
    requires Inv(s) && ArchiveEnabled(s, a, ArchiveMark(ok, now))
    ensures var t, item := DoArchive(s, a, ArchiveMark(ok, now)), s.actors[a].items[0];
            && a in t.actors
            && (t.actors[a] == Archiving(s.actors[a].items[1..])
                || (exists marked: bool :: t.actors[a] == ArchiveDeleting(item, marked, now, s.actors[a].items[1..])
                                           && Cleared(t, item, marked, now)))
  {
    var t, item := DoArchive(s, a, ArchiveMark(ok, now)), s.actors[a].items[0];
    assert ActorOk(s, s.actors[a]);
    assert item in s.actors[a].items;
    if t.actors[a].ArchiveDeleting? {
      ArchiveMeddles(s, a, ArchiveMark(ok, now));
      MeddlingEvolves(s, t);
      QuietStays(s, t, item.payload.value);
      assert Cleared(t, item, t.actors[a].marked, now);
    }
  }

  lemma MarkFileOk(s: State, a: nat, ok: bool, now: int)
    requires Inv(s) && Files(s) && ArchiveEnabled(s, a, ArchiveMark(ok, now))
    ensures var t := DoArchive(s, a, ArchiveMark(ok, now)); a in t.actors && FileOk(t, t.actors[a])
  {
    var t, items := DoArchive(s, a, ArchiveMark(ok, now)), s.actors[a].items;
    assert FileOk(s, s.actors[a]);
    MarkClears(s, a, ok, now);
    forall item | item in items ensures Filed(t, item) { MarkKeepsFiled(s, a, ok, now, item); }
    assert forall item :: item in items[1..] ==> item in items;
  }

  lemma OwnFileOk(s: State, a: nat, v: ArchiveStep)
    requires Inv(s) && Files(s) && ArchiveEnabled(s, a, v)
    ensures var t := DoArchive(s, a, v); a in t.actors && FileOk(t, t.actors[a])
  {
    var t := DoArchive(s, a, v);
    match v {
      case ArchiveList(page) =>
        forall item | item in Infos(s.queue, page) ensures Filed(t, item) { PageIsFiled(s, page, item); }
      case ArchiveMark(ok, now) => MarkFileOk(s, a, ok, now);
      case ArchiveDelete(_) => assert FileOk(s, s.actors[a]);
    }
  }

  predicate AtArchive(x: Actor) {
    x.Archiving? || x.ArchiveDeleting?
  }

  lemma SweepIsNotFiling(s: State, a: nat, w: SweepStep)
    requires SweepEnabled(s, a, w) && a in DoSweep(s, a, w).actors
    ensures !AtArchive(DoSweep(s, a, w).actors[a])
  {
  }

  lemma ShutIsNotFiling(s: State, a: nat, z: ShutStep)
    requires ShutEnabled(s, a, z) && a in DoShut(s, a, z).actors
    ensures !AtArchive(DoShut(s, a, z).actors[a])
  {
  }

  /** Only its own steps bring an actor to the archive. */
  lemma OthersAreNotFiling(s: State, a: nat, x: ActorStep)
    requires ActorEnabled(s, a, x) && !x.Archive? && a in DoActor(s, a, x).actors
    ensures !AtArchive(DoActor(s, a, x).actors[a])
  {
    match x {
      case Sweep(w) => SweepIsNotFiling(s, a, w);
      case Shutdown(z) => ShutIsNotFiling(s, a, z);
      case _ =>
    }
  }

  lemma StepKeepsFiles(s: State, t: Step)
    requires Inv(s) && Files(s) && Enabled(s, t)
    ensures Files(Do(s, t))
  {
    var s' := Do(s, t);
    forall b | b in s'.actors ensures FileOk(s', s'.actors[b]) {
      if t.OfActor? && t.a == b {
        if t.x.Archive? {
          OwnFileOk(s, b, t.x.v);
        } else {
          OthersAreNotFiling(s, b, t.x);
        }
      } else {
        OthersStand(s, t, b);
        FileStays(s, t, s.actors[b]);
      }
    }
  }

  lemma {:induction false} RunKeepsFiles(s: State, ts: seq<Step>)
    requires Inv(s) && Files(s) && Legal(s, ts)
    ensures Inv(Run(s, ts)) && Files(Run(s, ts))
    decreases |ts|
  {
    if ts != [] {
      StepKeepsInv(s, ts[0]);
      StepKeepsFiles(s, ts[0]);
      RunKeepsFiles(Do(s, ts[0]), ts[1..]);
    }
  }

  /** An entry that is gone was archived, and its record is over or it failed twelve hours ago. */
  ghost predicate Accounted(s: State, t: State, item: TaskInfo, now: int) {
    item.q in s.queue && item.q !in t.queue ==>
      && s.queue[item.q].place.InArchived? && item.payload.Some? && Carries(s, item.q, item.payload.value)
      && (Ended(s, item.payload.value) || now >= s.queue[item.q].failedAt + TWELVE_HOURS)
  }

  lemma DeletionIsAccounted(s: State, a: nat, ok: bool)
    requires Files(s) && ArchiveEnabled(s, a, ArchiveDelete(ok))
    ensures var t, x := DoArchive(s, a, ArchiveDelete(ok)), s.actors[a];
            && t.views == s.views && Accounted(s, t, x.item, x.now)
            && (forall q :: q in s.queue && q != x.item.q ==> q in t.queue && t.queue[q] == s.queue[q])
  {
    assert FileOk(s, s.actors[a]);
  }

  /**
   Over all runs, whatever others do between the sweep's calls: an entry that it deletes is archived,
   no record changes with it, its task is never worked on again, and the record of the task says failed
   or canceled unless the entry failed at least twelve hours before the sweep tried to mark it.
   */
  lemma RemovalIsAccounted(limit: nat, ts: seq<Step>, a: nat, ok: bool, us: seq<Step>)
    requires Legal(Init(limit), ts)
    requires var s := Run(Init(limit), ts);
             ArchiveEnabled(s, a, ArchiveDelete(ok)) && Legal(DoArchive(s, a, ArchiveDelete(ok)), us)
    ensures var s := Run(Init(limit), ts);
            var t, x := DoArchive(s, a, ArchiveDelete(ok)), s.actors[a];
            && t.views == s.views && Accounted(s, t, x.item, x.now)
            && (forall q :: q in s.queue && q != x.item.q ==> q in t.queue && t.queue[q] == s.queue[q])
            && x.item.payload.Some? && CancelIsFinal.Untouched(t, Run(t, us), x.item.payload.value)
  {
    RunKeepsFiles(Init(limit), ts);
    DeletionIsAccounted(Run(Init(limit), ts), a, ok);
    DeletedStaysQuiet(Run(Init(limit), ts), a, ok, us);
  }

  lemma DeletedStaysQuiet(s: State, a: nat, ok: bool, us: seq<Step>)
    requires Inv(s) && Files(s) && ArchiveEnabled(s, a, ArchiveDelete(ok))
    requires Legal(DoArchive(s, a, ArchiveDelete(ok)), us)
    ensures var t, x := DoArchive(s, a, ArchiveDelete(ok)), s.actors[a];
            x.item.payload.Some? && CancelIsFinal.Untouched(t, Run(t, us), x.item.payload.value)
  {
    var w, x := OfActor(a, Archive(ArchiveDelete(ok))), s.actors[a];
    assert FileOk(s, x);
    StepKeepsInv(s, w);
    ClearedStays(s, w, x.item, x.marked, x.now);
    CancelIsFinal.QuietForever(Do(s, w), us, x.item.payload.value);
  }

}
