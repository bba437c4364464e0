/** Crash equivalence of the inbox. Whatever the store does, and whether or not its write lands, a process that opens
    the file finds what a process that opened memory would find. */
module BriefingReopenLaws {
  import opened Prelude
  import opened BriefingRows
  import opened BriefingInbox
  import opened BriefingInboxLaws

  // ---- the bounds `load` checks follow from the row bound ----

  lemma SubsetSize<T>(a: set<T>, b: set<T>)
    requires a <= b
    ensures |a| <= |b|
  {
    if a != {} {
      var x :| x in a;
      SubsetSize(a - {x}, b - {x});
    }
  }

  lemma RowIdsBound(rows: seq<Row>)
    ensures |RowIds(rows)| <= |rows|
  {
    if rows == [] {
      assert RowIds(rows) == {};
    } else {
      var init, last := rows[..|rows| - 1], rows[|rows| - 1];
      RowIdsBound(init);
      assert rows == init + [last];
      assert RowIds(rows) == RowIds(init) + {last.id};
    }
  }

  lemma QueuedRunsCount(pending: seq<Queued>)
    requires DistinctWakes(pending)
    ensures |QueuedRuns(pending)| == |pending|
  {
    if pending == [] {
      assert QueuedRuns(pending) == {};
    } else {
      var init, last := pending[..|pending| - 1], pending[|pending| - 1];
      QueuedRunsCount(init);
      assert pending == init + [last];
      assert QueuedRuns(pending) == QueuedRuns(init) + {last.runId};
      assert last.runId !in QueuedRuns(init);
    }
  }

  lemma ShapedFits(box: Inbox, bound: nat)
    requires Shaped(box, bound)
    ensures |box.pending| <= bound && |box.dismissed| <= bound
  {
    RowIdsBound(box.rows);
    QueuedRunsCount(box.pending);
    forall id | HasRow(box.rows, id) ensures id in RowIds(box.rows) {
      assert RowOf(box.rows, id) in box.rows;
    }
    SubsetSize(QueuedRuns(box.pending), RowIds(box.rows));
    SubsetSize(box.dismissed, RowIds(box.rows));
  }

  // ---- opening ----

  lemma ResumedRows(box: Inbox)
    ensures Redelivered(box.rows, Resumed(box).rows)
    ensures forall r :: r in Resumed(box).rows ==> r.delivery.Pending? || r.delivery.Delivered?
    ensures forall i :: 0 <= i < |box.rows| ==>
      (Resumed(box).rows[i].delivery.Delivered? <==> box.rows[i].delivery.Delivered?)
  {
    var after := Resumed(box).rows;
    forall i | 0 <= i < |after|
      ensures after[i].delivery.Pending? || after[i].delivery.Delivered?
      ensures after[i].delivery.Delivered? <==> box.rows[i].delivery.Delivered? {
      assert box.rows[i] in box.rows;
    }
  }

  lemma ResumedSound(box: Inbox)
    requires Shaped(box, MAX_BRIEFING_ROWS)
    ensures Sound(Resumed(box))
  {
    ResumedRows(box);
    RedeliveredKeeps(box.rows, Resumed(box).rows);
  }

  lemma ResumedTwice(box: Inbox)
    requires forall r :: r in box.rows ==> r.delivery.Pending? || r.delivery.Delivered?
    ensures Resumed(box) == box
  {
    var after := Resumed(box).rows;
    forall i | 0 <= i < |after| ensures after[i] == box.rows[i] {
      assert box.rows[i] in box.rows;
    }
  }

  lemma {:induction false} CompactShaped(box: Inbox, bound: nat)
    requires Shaped(box, bound)
    ensures Shaped(Compact(box), MAX_BRIEFING_ROWS)
    decreases |box.rows|
  {
    if |box.rows| > MAX_BRIEFING_ROWS {
      var k := FirstYield(box.rows, box.dismissed);
      var at := if k < |box.rows| then k else 0;
      DropSound(box, at, bound);
      CompactShaped(Drop(box, at), |box.rows| - 1);
    }
  }

  lemma SoundLoads(box: Inbox)
    requires Sound(box)
    ensures Loadable(box)
  {
    ShapedFits(box, MAX_BRIEFING_ROWS);
  }

  /** Every snapshot the store can write is one `load` accepts, and it reloads to itself. */
  lemma SoundReloads(box: Inbox)
    requires Sound(box)
    ensures Loadable(box) && Opened(box) == Resumed(box)
  {
    SoundLoads(box);
    SortRowsStable(box.rows);
    assert box.(rows := SortRows(box.rows)) == box;
    assert Compact(box) == box;
  }

  lemma SortedForLoad(disk: Inbox)
    requires Loadable(disk)
    ensures Shaped(disk.(rows := SortRows(disk.rows)), LEGACY_MAX_BRIEFING_ROWS)
  {
    SortRowsSorts(disk.rows);
    SortKeepsLookup(disk.rows);
  }

  /** Any file at all opens into a sound inbox with nothing reserved or stopped. */
  lemma OpenedSound(disk: Inbox)
    ensures Sound(Opened(disk)) && Opened(Opened(disk)) == Opened(disk)
    ensures forall r :: r in Opened(disk).rows ==> r.delivery.Pending? || r.delivery.Delivered?
  {
    if Loadable(disk) {
      var sorted := disk.(rows := SortRows(disk.rows));
      SortedForLoad(disk);
      CompactShaped(sorted, LEGACY_MAX_BRIEFING_ROWS);
      ResumedSound(Compact(sorted));
      ResumedRows(Compact(sorted));
    }
    SoundReloads(Opened(disk));
    ResumedTwice(Opened(disk));
  }

  // ---- the store ----

  /** What holds of the store between operations, whatever its writes did. */
  ghost predicate StoreSound(s: Store) {
    Sound(s.mem) && Loadable(s.disk) && Opened(s.disk) == Opened(s.mem)
  }

  datatype Op =
    | Report(row: Row, wake: Option<Wake>, delivered: bool)
    | Recover(replay: set<string>)
    | Reserve(event: string)
    | Retry(event: string)
    | Stop
    | Resume
    | Ack(event: string)
    | DismissRun(id: string)

  function Perform(s: Store, op: Op, lands: bool): Store {
    match op
    case Report(row, wake, delivered) => Upsert(s, row, wake, delivered, lands)
    case Recover(replay) => RecoverDelivered(s, replay, lands).0
    case Reserve(event) => ReassignStore(s, event, InProgress, lands).0
    case Retry(event) => ReassignStore(s, event, Pending, lands).0
    case Stop => QueuedDeliveryFailed(s, lands).0
    case Resume => ResumeStopped(s, lands).0
    case Ack(event) => Acknowledge(s, event, lands).0
    case DismissRun(id) => Dismiss(s, id, lands)
  }

  /** What ingress validation has already checked of a report. */
  predicate Validated(op: Op) { op.Report? ==> op.row.Counted() }

  /** An operation leaves the store alone or writes one sound snapshot. */
  lemma PerformWrites(s: Store, op: Op, lands: bool)
    requires Sound(s.mem) && Validated(op)
    ensures var after := Perform(s, op, lands);
      after == s || (lands && after.mem == after.disk && Sound(after.mem))
  {
    match op
    case Report(row, wake, delivered) => UpsertSound(s.mem, row, wake, delivered);
    case Recover(replay) => RecoveredSound(s.mem, replay);
    case Reserve(event) => ReassignSound(s.mem, event, InProgress);
    case Retry(event) => ReassignSound(s.mem, event, Pending);
    case Stop => MapSound(s.mem, QueuedRuns(s.mem.pending), Delivery.Failed);
    case Resume => MapSound(s.mem, RowIds(s.mem.rows), Pending);
    case Ack(event) => if HasEvent(s.mem.pending, event) { AckedSound(s.mem, event); }
    case DismissRun(id) =>
  }

  /** Crash equivalence: a write that lands or fails leaves reopening disk and memory the same. */
  lemma PerformKeeps(s: Store, op: Op, lands: bool)
    requires StoreSound(s) && Validated(op)
    ensures StoreSound(Perform(s, op, lands))
  {
    PerformWrites(s, op, lands);
    SoundReloads(Perform(s, op, lands).mem);
  }

  /** Opening any file starts a store in that state. */
  lemma OpenKeeps(disk: Inbox, lands: bool)
    ensures StoreSound(Open(disk, lands))
    ensures Open(disk, lands).mem == Opened(disk)
  {
    OpenedSound(disk);
    OpenedSound(EMPTY);
    SoundReloads(Opened(disk));
    SoundReloads(EMPTY);
  }

  function PerformAll(s: Store, ops: seq<(Op, bool)>): Store
    decreases |ops|
  {
    if ops == [] then s
    else PerformAll(Perform(s, ops[0].0, ops[0].1), ops[1..])
  }

  /** From any file, after any operations with any write failures, a crash loses nothing. */
  lemma {:induction false} CrashEquivalence(s: Store, ops: seq<(Op, bool)>, lands: bool)
    requires StoreSound(s)
    requires forall o :: o in ops ==> Validated(o.0)
    ensures var after := PerformAll(s, ops);
      && StoreSound(after)
      && Open(after.disk, lands).mem == Resumed(after.mem)
    decreases |ops|
  {
    if ops == [] {
      SoundReloads(s.mem);
    } else {
      PerformKeeps(s, ops[0].0, ops[0].1);
      CrashEquivalence(Perform(s, ops[0].0, ops[0].1), ops[1..], lands);
    }
  }
}
