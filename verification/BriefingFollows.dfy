/**
  One relation every inbox operation respects, whatever it was for: no wake
  appears except the reported one, no row becomes reserved, and a row that has
  its wake or its delivery keeps one of the two for as long as it is retained.
*/
module BriefingFollows {
  import opened Prelude
  import opened BriefingRows
  import opened BriefingInbox
  import opened BriefingInboxLaws
  import opened BriefingUpsertLaws

  /** A terminal run that is still owed nothing or can still be delivered. */
  predicate Kept(box: Inbox, id: string) {
    HasRow(box.rows, id) && (IsDelivered(box.rows, id) || HasRun(box.pending, id))
  }

  predicate Reserved(box: Inbox, id: string) {
    HasRow(box.rows, id) && RowOf(box.rows, id).delivery.InProgress?
  }

  /** The one wake an operation may add: its run and its event were both unqueued. */
  predicate Joins(a: Inbox, added: Option<Queued>, q: Queued) {
    added == Some(q) && !HasRun(a.pending, q.runId) && !HasEvent(a.pending, q.wake.eventId)
  }

  ghost predicate Follows(a: Inbox, b: Inbox, added: Option<Queued>) {
    && Sound(a) && Sound(b)
    && (forall q :: q in b.pending ==> q in a.pending || Joins(a, added, q))
    && (forall id :: Reserved(b, id) ==> Reserved(a, id))
    && (forall id :: Kept(a, id) && HasRow(b.rows, id) ==> Kept(b, id))
    && (forall id :: HasRow(a.rows, id) && HasRow(b.rows, id) ==>
          RowOf(b.rows, id).Logical() == RowOf(a.rows, id).Logical())
  }

  /** No run was retained or given up. */
  ghost predicate SameRows(a: Inbox, b: Inbox) {
    forall id :: HasRow(b.rows, id) == HasRow(a.rows, id)
  }

  lemma FollowsItself(box: Inbox)
    requires Sound(box)
    ensures Follows(box, box, None)
  {
  }

  /** The generic case: only delivery states moved and only wakes left. */
  lemma RedeliveredFollows(a: Inbox, b: Inbox)
    requires Sound(a) && Sound(b) && Redelivered(a.rows, b.rows)
    requires forall q :: q in b.pending ==> q in a.pending
    requires forall i :: 0 <= i < |a.rows| ==>
      && (b.rows[i].delivery.InProgress? ==> a.rows[i].delivery.InProgress?)
      && (a.rows[i].delivery.Delivered? ==> b.rows[i].delivery.Delivered?)
    requires forall id :: HasRun(a.pending, id) ==> HasRun(b.pending, id) || IsDelivered(b.rows, id)
    ensures Follows(a, b, None) && SameRows(a, b)
  {
    RedeliveredKeeps(a.rows, b.rows);
  }

  lemma RetryFollows(box: Inbox, event: string)
    requires Sound(box)
    ensures Follows(box, Reassign(box, event, Pending), None) && SameRows(box, Reassign(box, event, Pending))
    ensures HasEvent(box.pending, event) ==> !Reserved(Reassign(box, event, Pending), RunFor(box.pending, event))
  {
    ReassignSound(box, event, Pending);
    var after := Reassign(box, event, Pending);
    if HasEvent(box.pending, event) {
      assert box.pending[EventAt(box.pending, event)] in box.pending;
    }
    RedeliveredFollows(box, after);
    RedeliveredKeeps(box.rows, after.rows);
  }

  lemma AckedFollows(box: Inbox, event: string)
    requires Sound(box) && HasEvent(box.pending, event)
    ensures Follows(box, Acked(box, event), None) && SameRows(box, Acked(box, event))
  {
    AckedSound(box, event);
    var k := EventAt(box.pending, event);
    var after := Acked(box, event);
    forall id | HasRun(box.pending, id) ensures HasRun(after.pending, id) || IsDelivered(after.rows, id) {
      WithoutRun(box.pending, k, id);
    }
    forall q | q in after.pending ensures q in box.pending {
      var j :| 0 <= j < |after.pending| && after.pending[j] == q;
      assert q == box.pending[if j < k then j else j + 1];
    }
    RedeliveredFollows(box, after);
  }

  lemma StoppedFollows(box: Inbox)
    requires Sound(box)
    ensures Follows(box, StoppedRows(box), None) && SameRows(box, StoppedRows(box))
    ensures forall id :: !Reserved(StoppedRows(box), id)
  {
    MapSound(box, QueuedRuns(box.pending), Delivery.Failed);
    var after := StoppedRows(box);
    RedeliveredKeeps(box.rows, after.rows);
    RedeliveredFollows(box, after);
    forall id ensures !Reserved(after, id) {
      if HasRow(box.rows, id) {
        var i := RowAt(box.rows, id);
        SoundAt(box, i);
        if box.rows[i].delivery.InProgress? {
          assert box.pending[RunAt(box.pending, id)] in box.pending;
        }
      }
    }
  }

  lemma ResumedFollows(box: Inbox)
    requires Sound(box)
    ensures Follows(box, Resumed(box), None) && SameRows(box, Resumed(box))
    ensures forall id :: !Reserved(Resumed(box), id)
  {
    MapSound(box, RowIds(box.rows), Pending);
    var after := Resumed(box);
    RedeliveredKeeps(box.rows, after.rows);
    RedeliveredFollows(box, after);
    forall id ensures !Reserved(after, id) {
      if HasRow(box.rows, id) {
        assert box.rows[RowAt(box.rows, id)] in box.rows;
      }
    }
  }

  lemma RecoveredRun(box: Inbox, replay: set<string>, id: string)
    requires Sound(box) && HasRun(box.pending, id)
    ensures HasRun(Recovered(box, replay).pending, id) || IsDelivered(Recovered(box, replay).rows, id)
  {
    RecoveredSound(box, replay);
    RedeliveredKeeps(box.rows, Recovered(box, replay).rows);
    AnsweredRun(box.pending, replay, id);
    assert box.pending[RunAt(box.pending, id)] in box.pending;
  }

  lemma RecoveredFollows(box: Inbox, replay: set<string>)
    requires Sound(box)
    ensures Follows(box, Recovered(box, replay), None) && SameRows(box, Recovered(box, replay))
    ensures forall q :: q in Recovered(box, replay).pending ==> q.wake.eventId !in replay
  {
    var after := Recovered(box, replay);
    RecoveredSound(box, replay);
    forall id | HasRun(box.pending, id) ensures HasRun(after.pending, id) || IsDelivered(after.rows, id) {
      RecoveredRun(box, replay, id);
    }
    RedeliveredFollows(box, after);
  }

  /** A row the resumed inbox never reserves is one the reserved event can take. */
  lemma ReserveFollows(box: Inbox, event: string)
    requires Sound(box) && HasEvent(box.pending, event)
    ensures var after := Reassign(box, event, InProgress);
      && Sound(after) && after.pending == box.pending
      && (forall id :: Reserved(after, id) ==> Reserved(box, id) || id == RunFor(box.pending, event))
      && (forall id :: HasRow(after.rows, id) == HasRow(box.rows, id))
      && (forall id :: HasRow(box.rows, id) ==> RowOf(after.rows, id).Logical() == RowOf(box.rows, id).Logical())
      && (forall id :: Kept(box, id) ==> Kept(after, id))
  {
    ReassignSound(box, event, InProgress);
    var after := Reassign(box, event, InProgress);
    RedeliveredKeeps(box.rows, after.rows);
    assert box.pending[EventAt(box.pending, event)] in box.pending;
  }

  /** The wake a report adds to the queue, when it adds one. */
  function Added(row: Row, wake: Option<Wake>, delivered: bool): Option<Queued> {
    if wake.Some? && !delivered then Some(Queued(row.id, wake.value)) else None
  }

  lemma MergedFollows(box: Inbox, row: Row, wake: Option<Wake>, delivered: bool)
    requires Sound(box) && row.Counted()
    requires wake.Some? ==> !EventTaken(box.pending, row.id, wake.value.eventId)
    ensures var merged := Merged(box, row, wake, delivered);
      && (forall q :: q in merged.pending ==> q in box.pending || Joins(box, Added(row, wake, delivered), q))
      && (forall id :: Reserved(merged, id) ==> Reserved(box, id))
      && (forall id :: Kept(box, id) ==> Kept(merged, id))
      && (HasRow(merged.rows, row.id) && wake.Some? ==> Kept(merged, row.id))
  {
    hide Merged, Sound, Added, Joins;
    MergedQueue(box, row, wake, delivered);
    MergedAdded(box, row, wake, delivered);
    forall id ensures Reserved(Merged(box, row, wake, delivered), id) ==> Reserved(box, id)
      ensures Kept(box, id) ==> Kept(Merged(box, row, wake, delivered), id) {
      MergedKeeps(box, row, wake, delivered, id);
    }
  }

  lemma MergedKeeps(box: Inbox, row: Row, wake: Option<Wake>, delivered: bool, id: string)
    requires Sound(box) && row.Counted()
    requires wake.Some? ==> !EventTaken(box.pending, row.id, wake.value.eventId)
    ensures Reserved(Merged(box, row, wake, delivered), id) ==> Reserved(box, id)
    ensures Kept(box, id) ==> Kept(Merged(box, row, wake, delivered), id)
  {
    hide Merged, Sound, EventTaken;
    var merged := Merged(box, row, wake, delivered);
    MergedQueue(box, row, wake, delivered);
    MergedLookup(box, row, wake, delivered, id);
    if Kept(box, id) && !IsDelivered(merged.rows, id) {
      var q := box.pending[RunAt(box.pending, id)];
      assert q in merged.pending;
      RunFound(merged.pending, q);
    }
  }

  lemma MergedAdded(box: Inbox, row: Row, wake: Option<Wake>, delivered: bool)
    requires Sound(box) && row.Counted()
    requires wake.Some? ==> !EventTaken(box.pending, row.id, wake.value.eventId)
    ensures forall q :: q in Merged(box, row, wake, delivered).pending && q !in box.pending ==>
      Joins(box, Added(row, wake, delivered), q)
  {
    var placed := Place(box.rows, Reported(row, delivered));
    PlaceSound(box, row, delivered);
    forall q | q in Merged(box, row, wake, delivered).pending && q !in box.pending
      ensures Joins(box, Added(row, wake, delivered), q) {
      assert q in Enqueue(placed, box.pending, row.id, wake);
      forall i | 0 <= i < |box.pending| ensures box.pending[i].wake.eventId != q.wake.eventId {
        assert box.pending[i] in box.pending;
      }
    }
  }

  /** A report adds no wake but its own, reserves nothing, and forgets no one it retains. */
  lemma UpsertFollows(box: Inbox, row: Row, wake: Option<Wake>, delivered: bool)
    requires Sound(box) && row.Counted()
    requires UpsertPlan(box, row, wake, delivered).Target?
    ensures var next := UpsertPlan(box, row, wake, delivered).box;
      && Follows(box, next, Added(row, wake, delivered))
      && (HasRow(next.rows, row.id) && wake.Some? ==> Kept(next, row.id))
  {
    var merged := Merged(box, row, wake, delivered);
    var next := UpsertPlan(box, row, wake, delivered).box;
    UpsertSound(box, row, wake, delivered);
    MergedSound(box, row, wake, delivered);
    EvictOnce(merged);
    MergedFollows(box, row, wake, delivered);
    var k := FirstEvictable(merged.rows, merged.dismissed);
    forall id ensures HasRow(box.rows, id) && HasRow(next.rows, id) ==>
          RowOf(next.rows, id).Logical() == RowOf(box.rows, id).Logical() {
      UpsertMonotone(box, row, wake, delivered, id);
    }
    if |merged.rows| > MAX_BRIEFING_ROWS {
      forall id ensures Reserved(next, id) ==> Reserved(merged, id)
        ensures Kept(merged, id) && HasRow(next.rows, id) ==> Kept(next, id) {
        EvictedLookup(merged, k, id);
      }
    }
  }
}
