/** What one lifecycle report may do to the inbox: it moves its own row forward and no other, saying it twice is
    saying it once, and the bound on retained rows costs at most one row that has nothing left to say. */
module BriefingUpsertLaws {
  import opened Prelude
  import opened BriefingRows
  import opened BriefingInbox
  import opened BriefingInboxLaws

  // ---- a monotone, idempotent merge ----

  /** The only way a retained row may differ after a report. */
  ghost predicate Advances(before: Row, after: Row) {
    && after.id == before.id && after.Logical() == before.Logical() && after.since == before.since
    && before.failed <= after.failed && before.completed <= after.completed && before.total <= after.total
    && (!before.collection.Collecting? ==> after.collection == before.collection)
    && (before.delivery.Delivered? ==> after.delivery.Delivered?)
    && (after.delivery == before.delivery || after.delivery.Delivered?)
  }

  lemma MergeAdvances(current: Row, incoming: Row)
    requires current.Counted() && incoming.Counted() && current.id == incoming.id
    ensures Advances(current, Merge(current, incoming))
  {
  }

  /**
    Where the report may still move the row, each count is the larger of the
    two: the clamps in the code never bite. Otherwise only the delivery moves.
  */
  lemma MergeIsJoin(current: Row, incoming: Row)
    requires current.Counted() && incoming.Counted()
    ensures var merged := Merge(current, incoming);
      var forward := current.collection.Collecting? || current.collection == incoming.collection;
      && merged.delivery == (if incoming.delivery.Delivered? then Delivered else current.delivery)
      && (!forward ==> merged == current.(delivery := merged.delivery))
      && (forward ==>
            && merged.collection == incoming.collection
            && merged.total == Max(current.total, incoming.total)
            && merged.completed == Max(current.completed, incoming.completed)
            && merged.failed == Max(current.failed, incoming.failed)
            && (merged.summary == if current.delivery.Failed? && !incoming.delivery.Delivered?
                                  then current.summary else incoming.summary))
  {
  }

  lemma MergeTwice(current: Row, incoming: Row)
    requires current.Counted() && incoming.Counted()
    ensures Merge(Merge(current, incoming), incoming) == Merge(current, incoming)
    ensures Merge(incoming, incoming) == incoming
  {
  }

  lemma EvictedLookup(box: Inbox, k: nat, id: string)
    requires Shaped(box, MAX_BRIEFING_ROWS + 1) && k < |box.rows|
    ensures HasRow(Drop(box, k).rows, id) <==> HasRow(box.rows, id) && id != box.rows[k].id
    ensures HasRow(Drop(box, k).rows, id) ==> RowOf(Drop(box, k).rows, id) == RowOf(box.rows, id)
    ensures HasRun(Drop(box, k).pending, id) <==> HasRun(box.pending, id) && id != box.rows[k].id
  {
    DropLookup(box.rows, k, id);
    var kept := Drop(box, k).pending;
    if HasRun(kept, id) {
      assert kept[RunAt(kept, id)] in kept;
      RunFound(box.pending, kept[RunAt(kept, id)]);
    }
    if HasRun(box.pending, id) && id != box.rows[k].id {
      assert box.pending[RunAt(box.pending, id)] in kept;
      RunFound(kept, box.pending[RunAt(box.pending, id)]);
    }
  }

  /** Every retained row moves forward, and only the reported one moves. */
  lemma UpsertMonotone(box: Inbox, row: Row, wake: Option<Wake>, delivered: bool, id: string)
    requires Sound(box) && row.Counted()
    requires UpsertPlan(box, row, wake, delivered).Target?
    ensures var next := UpsertPlan(box, row, wake, delivered).box;
      && (HasRow(next.rows, id) ==> HasRow(box.rows, id) || id == row.id)
      && (HasRow(next.rows, id) && HasRow(box.rows, id) ==>
            && Advances(RowOf(box.rows, id), RowOf(next.rows, id))
            && (id != row.id ==> RowOf(next.rows, id) == RowOf(box.rows, id)))
      && (HasRow(next.rows, row.id) && delivered ==> IsDelivered(next.rows, row.id))
  {
    var merged := Merged(box, row, wake, delivered);
    MergedSound(box, row, wake, delivered);
    EvictOnce(merged);
    MergedLookup(box, row, wake, delivered, id);
    MergedLookup(box, row, wake, delivered, row.id);
    if |merged.rows| > MAX_BRIEFING_ROWS {
      EvictedLookup(merged, FirstEvictable(merged.rows, merged.dismissed), id);
      EvictedLookup(merged, FirstEvictable(merged.rows, merged.dismissed), row.id);
    }
    if HasRow(box.rows, row.id) {
      assert RowOf(box.rows, row.id) in box.rows;
      MergeAdvances(RowOf(box.rows, row.id), Reported(row, delivered));
    }
  }

  // ---- retention ----

  /** A row with nothing left to say: stopped, or delivered and collected in full, or over and dismissed. */
  predicate MayYield(row: Row, dismissed: set<string>) {
    || row.delivery.Failed?
    || (row.delivery.Delivered? && row.collection.Collected? && row.failed == 0)
    || (row.delivery.Delivered? && !row.collection.Collecting? && row.id in dismissed)
  }

  lemma EvictableIff(row: Row, dismissed: set<string>)
    ensures Evictable(row, dismissed) <==> MayYield(row, dismissed)
  {
  }

  /** The first in order of all the rows that may yield, the reported one among them. */
  ghost predicate Oldest(box: Inbox, reported: Row, victim: Row) {
    && MayYield(victim, box.dismissed)
    && forall r :: (r in box.rows || r == reported) && MayYield(r, box.dismissed) ==>
        r == victim || KeyBefore(victim, r)
  }

  lemma FirstIsOldest(rows: seq<Row>, box: Inbox, reported: Row)
    requires Sorted(rows) && (forall r :: r in box.rows || r == reported ==> r in rows)
    requires FirstEvictable(rows, box.dismissed) < |rows|
    ensures Oldest(box, reported, rows[FirstEvictable(rows, box.dismissed)])
  {
    var k := FirstEvictable(rows, box.dismissed);
    EvictableIff(rows[k], box.dismissed);
    forall r | r in rows && MayYield(r, box.dismissed) ensures r == rows[k] || KeyBefore(rows[k], r) {
      EvictableIff(r, box.dismissed);
      var i :| 0 <= i < |rows| && rows[i] == r;
    }
  }

  /** The row a report pushes out of a full inbox, when it pushes one out. */
  ghost predicate PushedOut(box: Inbox, next: Inbox, row: Row, delivered: bool, victim: Row) {
    && !HasRow(box.rows, row.id) && |box.rows| == MAX_BRIEFING_ROWS
    && (victim in box.rows || victim == Reported(row, delivered))
    && Oldest(box, Reported(row, delivered), victim)
    && !victim.delivery.Pending? && !victim.delivery.InProgress?
    && (victim.delivery.Delivered? && victim.RequiresAttention() ==> victim.id in box.dismissed)
    && !HasRow(next.rows, victim.id) && !HasRun(next.pending, victim.id)
    && (forall id :: id != victim.id ==> (HasRow(next.rows, id) <==> HasRow(box.rows, id) || id == row.id))
  }

  /** One report costs at most one row, and never one that can still say something. */
  lemma UpsertEvictsOne(box: Inbox, row: Row, wake: Option<Wake>, delivered: bool) returns (victim: Option<Row>)
    requires Sound(box) && row.Counted()
    requires UpsertPlan(box, row, wake, delivered).Target?
    ensures var next := UpsertPlan(box, row, wake, delivered).box;
      && |next.rows| <= MAX_BRIEFING_ROWS
      && match victim
         case None => forall id :: HasRow(next.rows, id) <==> HasRow(box.rows, id) || id == row.id
         case Some(v) => PushedOut(box, next, row, delivered, v)
  {
    var merged := Merged(box, row, wake, delivered);
    MergedSound(box, row, wake, delivered);
    EvictOnce(merged);
    forall id ensures HasRow(merged.rows, id) <==> HasRow(box.rows, id) || id == row.id {
      MergedLookup(box, row, wake, delivered, id);
    }
    victim := None;
    if |merged.rows| > MAX_BRIEFING_ROWS {
      var k := FirstEvictable(merged.rows, merged.dismissed);
      var v := merged.rows[k];
      forall id ensures HasRow(Drop(merged, k).rows, id) <==> HasRow(merged.rows, id) && id != v.id {
        EvictedLookup(merged, k, id);
      }
      EvictedLookup(merged, k, v.id);
      RowCount(box, row, delivered);
      FirstIsOldest(merged.rows, box, Reported(row, delivered));
      victim := Some(v);
    }
  }

  /** How many rows a report leaves before any yields, and which they are. */
  lemma RowCount(box: Inbox, row: Row, delivered: bool)
    requires Sound(box)
    ensures var placed := Place(box.rows, Reported(row, delivered));
      && |SortRows(placed)| == |box.rows| + (if HasRow(box.rows, row.id) then 0 else 1)
      && (!HasRow(box.rows, row.id) ==>
            forall r :: r in SortRows(placed) <==> r in box.rows || r == Reported(row, delivered))
  {
  }

  /** A full inbox refuses a new run exactly when nothing in it may yield. */
  lemma UpsertFullIff(box: Inbox, row: Row, wake: Option<Wake>, delivered: bool)
    requires Sound(box) && row.Counted()
    requires wake.Some? ==> !EventTaken(box.pending, row.id, wake.value.eventId)
    ensures UpsertPlan(box, row, wake, delivered).Full? <==>
      && |box.rows| == MAX_BRIEFING_ROWS
      && !HasRow(box.rows, row.id)
      && (forall r :: r in box.rows ==> !MayYield(r, box.dismissed))
      && !MayYield(Reported(row, delivered), box.dismissed)
  {
    hide Sound, Evictable, MayYield, FirstEvictable, Enqueue, Place;
    forall r ensures Evictable(r, box.dismissed) <==> MayYield(r, box.dismissed) {
      EvictableIff(r, box.dismissed);
    }
    var merged := Merged(box, row, wake, delivered);
    SoundFits(box);
    RowCount(box, row, delivered);
    EvictOnce(merged);
    if !HasRow(box.rows, row.id) {
      NoneYields(merged.rows, box.rows, Reported(row, delivered), box.dismissed);
    }
  }

  lemma SoundFits(box: Inbox)
    requires Sound(box)
    ensures |box.rows| <= MAX_BRIEFING_ROWS
  {
  }

  /** No row is found to yield exactly when none of them may. */
  lemma NoneYields(merged: seq<Row>, rows: seq<Row>, reported: Row, dismissed: set<string>)
    requires forall r :: r in merged <==> r in rows || r == reported
    ensures FirstEvictable(merged, dismissed) == |merged| <==>
      (forall r :: r in rows ==> !Evictable(r, dismissed)) && !Evictable(reported, dismissed)
  {
    hide Evictable;
    var k := FirstEvictable(merged, dismissed);
    if k < |merged| {
      assert merged[k] in merged;
    } else {
      forall r | r in merged ensures !Evictable(r, dismissed) {
        var i :| 0 <= i < |merged| && merged[i] == r;
      }
    }
  }

  // ---- idempotence ----

  /** A snapshot that already says everything a report says. */
  ghost predicate Reflects(box: Inbox, row: Row, wake: Option<Wake>, delivered: bool) {
    && Sound(box)
    && HasRow(box.rows, row.id)
    && Merge(RowOf(box.rows, row.id), Reported(row, delivered)) == RowOf(box.rows, row.id)
    && (wake.Some? ==> !EventTaken(box.pending, row.id, wake.value.eventId))
    && (wake.Some? && !IsDelivered(box.rows, row.id) ==> HasRun(box.pending, row.id))
  }

  lemma ReflectedIsStill(box: Inbox, row: Row, wake: Option<Wake>, delivered: bool)
    requires Reflects(box, row, wake, delivered)
    ensures UpsertPlan(box, row, wake, delivered) == Target(box)
  {
    var incoming := Reported(row, delivered);
    assert Place(box.rows, incoming) == box.rows;
    SortRowsStable(box.rows);
    FilterAll(NotDelivered(box.rows), box.pending);
  }

  lemma InsertThenDrop(rows: seq<Row>, row: Row, k: nat)
    requires forall r :: r in rows ==> r.id != row.id
    requires k <= |rows| && Insert(rows, row)[k].id == row.id
    ensures Without(Insert(rows, row), k) == rows
  {
    hide Slot;
    var p := Slot(rows, row);
    var all := rows[..p] + [row] + rows[p..];
    forall i | 0 <= i < |all| && i != p ensures all[i].id != row.id {
      assert all[i] == rows[if i < p then i else i - 1];
    }
    assert k == p;
  }

  /** A row that is pushed out by itself leaves the snapshot as it was. */
  lemma SelfEviction(box: Inbox, row: Row, wake: Option<Wake>, k: nat)
    requires Sound(box) && row.Counted() && !HasRow(box.rows, row.id)
    requires k < |Merged(box, row, wake, true).rows| && Merged(box, row, wake, true).rows[k].id == row.id
    ensures Drop(Merged(box, row, wake, true), k) == box
  {
    hide Sound;
    var incoming := Reported(row, true);
    SortedRows(box, row.id);
    var placed := Place(box.rows, incoming);
    SortRowsStable(box.rows);
    assert placed == box.rows + [incoming] && placed[..|box.rows|] == box.rows;
    assert SortRows(placed) == Insert(box.rows, incoming);
    InsertThenDrop(box.rows, incoming, k);
    QueueUntouched(box, row, wake);
  }

  lemma SortedRows(box: Inbox, id: string)
    requires Sound(box) && !HasRow(box.rows, id)
    ensures Sorted(box.rows) && id !in box.dismissed
    ensures forall r :: r in box.rows ==> r.id != id
  {
    forall r | r in box.rows ensures r.id != id {
      var i :| 0 <= i < |box.rows| && box.rows[i] == r;
    }
  }

  /** A delivered report of a new run takes no wake off the queue and puts none on. */
  lemma QueueUntouched(box: Inbox, row: Row, wake: Option<Wake>)
    requires Sound(box) && row.Counted() && !HasRow(box.rows, row.id)
    ensures Merged(box, row, wake, true).pending == box.pending
    ensures Filter(NotRun(row.id), box.pending) == box.pending
  {
    var placed := Place(box.rows, Reported(row, true));
    PlaceSound(box, row, true);
    forall q | q in box.pending ensures q.runId != row.id && !IsDelivered(placed, q.runId) {
    }
    FilterAll(NotDelivered(placed), box.pending);
    FilterAll(NotRun(row.id), box.pending);
  }

  /** Reporting the same state again changes nothing: the retry of an ingress is free. */
  lemma UpsertIdempotent(box: Inbox, row: Row, wake: Option<Wake>, delivered: bool)
    requires Sound(box) && row.Counted()
    requires UpsertPlan(box, row, wake, delivered).Target?
    ensures var next := UpsertPlan(box, row, wake, delivered).box;
      UpsertPlan(next, row, wake, delivered) == Target(next)
  {
    var incoming := Reported(row, delivered);
    var merged := Merged(box, row, wake, delivered);
    var next := UpsertPlan(box, row, wake, delivered).box;
    UpsertSound(box, row, wake, delivered);
    MergedSound(box, row, wake, delivered);
    EvictOnce(merged);
    MergedLookup(box, row, wake, delivered, row.id);
    RowCount(box, row, delivered);
    MergedQueue(box, row, wake, delivered);
    if HasRow(box.rows, row.id) {
      assert RowOf(box.rows, row.id) in box.rows;
      MergeTwice(RowOf(box.rows, row.id), incoming);
    } else {
      MergeTwice(incoming, incoming);
    }
    if |merged.rows| <= MAX_BRIEFING_ROWS {
      ReflectedIsStill(next, row, wake, delivered);
    } else {
      var k := FirstEvictable(merged.rows, merged.dismissed);
      EvictedLookup(merged, k, row.id);
      if merged.rows[k].id == row.id {
        RowFound(merged.rows, merged.rows[k]);
        SelfEviction(box, row, wake, k);
      } else {
        ReflectedIsStill(next, row, wake, delivered);
      }
    }
  }

  /** After a merge the run's wake is queued, and its event is nobody else's. */
  lemma MergedQueue(box: Inbox, row: Row, wake: Option<Wake>, delivered: bool)
    requires Sound(box) && row.Counted()
    requires wake.Some? ==> !EventTaken(box.pending, row.id, wake.value.eventId)
    ensures var merged := Merged(box, row, wake, delivered);
      && (wake.Some? ==> !EventTaken(merged.pending, row.id, wake.value.eventId))
      && (wake.Some? && !IsDelivered(merged.rows, row.id) ==> HasRun(merged.pending, row.id))
      && (forall q :: q in merged.pending ==> q in box.pending || (wake.Some? && q == Queued(row.id, wake.value)))
      && (forall q :: q in box.pending && !IsDelivered(merged.rows, q.runId) ==> q in merged.pending)
  {
    var placed := Place(box.rows, Reported(row, delivered));
    PlaceSound(box, row, delivered);
    QueueSound(box, placed, row, wake);
    forall q | q in box.pending
      ensures IsDelivered(Merged(box, row, wake, delivered).rows, q.runId) == IsDelivered(placed, q.runId) {
      MergedLookup(box, row, wake, delivered, q.runId);
    }
    MergedLookup(box, row, wake, delivered, row.id);
  }
}
