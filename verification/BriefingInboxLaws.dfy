/**
  What every operation of the briefing inbox keeps: the snapshot is always one
  `load` accepts, a stopped or reserved row always has its wake, and reopening
  the file is the same as reopening memory.
*/
module BriefingInboxLaws {
  import opened Prelude
  import opened BriefingRows
  import opened BriefingInbox

  /** Ordered distinct rows, a queue of undelivered ones, dismissals of finished ones. */
  ghost predicate Shaped(box: Inbox, bound: nat) {
    && |box.rows| <= bound
    && Sorted(box.rows) && DistinctIds(box.rows)
    && (forall r :: r in box.rows ==> r.Counted())
    && DistinctWakes(box.pending)
    && (forall q :: q in box.pending ==> HasRow(box.rows, q.runId) && !IsDelivered(box.rows, q.runId))
    && (forall d :: d in box.dismissed ==> HasRow(box.rows, d) && RowOf(box.rows, d).Dismissible())
  }

  /** A reserved or stopped row still has the wake that can finish it. */
  ghost predicate Anchored(box: Inbox) {
    forall r :: r in box.rows && (r.delivery.InProgress? || r.delivery.Failed?) ==> HasRun(box.pending, r.id)
  }

  /** The invariant of every snapshot the store holds, within a row bound. */
  ghost predicate SoundWithin(box: Inbox, bound: nat) { Shaped(box, bound) && Anchored(box) }

  ghost predicate Sound(box: Inbox) { SoundWithin(box, MAX_BRIEFING_ROWS) }

  // ---- lookups ----

  lemma RowFound(rows: seq<Row>, r: Row)
    requires DistinctIds(rows) && r in rows
    ensures HasRow(rows, r.id) && RowOf(rows, r.id) == r
  {
    var i :| 0 <= i < |rows| && rows[i] == r;
    var k := RowAt(rows, r.id);
  }

  lemma RunFound(pending: seq<Queued>, q: Queued)
    requires q in pending
    ensures HasRun(pending, q.runId) && HasEvent(pending, q.wake.eventId)
  {
  }

  lemma WakeFound(pending: seq<Queued>, q: Queued)
    requires DistinctWakes(pending) && q in pending
    ensures HasRun(pending, q.runId) && pending[RunAt(pending, q.runId)] == q
    ensures HasEvent(pending, q.wake.eventId) && pending[EventAt(pending, q.wake.eventId)] == q
    ensures RunFor(pending, q.wake.eventId) == q.runId
  {
    var i :| 0 <= i < |pending| && pending[i] == q;
    var k := RunAt(pending, q.runId);
    var e := EventAt(pending, q.wake.eventId);
  }

  /** Row by row the same identity, in the same places. */
  ghost predicate SameKeys(a: seq<Row>, b: seq<Row>) {
    |a| == |b| && forall i :: 0 <= i < |a| ==> a[i].id == b[i].id && a[i].since == b[i].since
  }

  lemma SameKeysKeep(a: seq<Row>, b: seq<Row>)
    requires SameKeys(a, b)
    ensures Sorted(a) ==> Sorted(b)
    ensures DistinctIds(a) ==> DistinctIds(b)
    ensures forall id :: RowAt(a, id) == RowAt(b, id)
  {
    forall id ensures RowAt(a, id) == RowAt(b, id) {
      var i, j := RowAt(a, id), RowAt(b, id);
      assert j < |a| ==> a[j].id == b[j].id;
    }
  }

  /** Sorting moves rows without changing what any identifier finds. */
  lemma SortKeepsLookup(rows: seq<Row>)
    requires DistinctIds(rows)
    ensures forall id :: HasRow(SortRows(rows), id) == HasRow(rows, id)
    ensures forall id :: HasRow(rows, id) ==> RowOf(SortRows(rows), id) == RowOf(rows, id)
  {
    SortRowsSorts(rows);
    var sorted := SortRows(rows);
    forall id ensures HasRow(sorted, id) == HasRow(rows, id)
              ensures HasRow(rows, id) ==> RowOf(sorted, id) == RowOf(rows, id) {
      if HasRow(rows, id) {
        assert RowOf(rows, id) in sorted;
        RowFound(sorted, RowOf(rows, id));
      } else if HasRow(sorted, id) {
        assert RowOf(sorted, id) in rows;
        RowFound(rows, RowOf(sorted, id));
      }
    }
  }

  lemma WithoutMembers(rows: seq<Row>, k: nat)
    requires DistinctIds(rows) && k < |rows|
    ensures DistinctIds(Without(rows, k))
    ensures Sorted(rows) ==> Sorted(Without(rows, k))
    ensures forall r :: r in Without(rows, k) <==> r in rows && r.id != rows[k].id
  {
    var rest := Without(rows, k);
    forall r ensures r in rest <==> r in rows && r.id != rows[k].id {
      if r in rest {
        var i :| 0 <= i < |rest| && rest[i] == r;
        assert r == rows[if i < k then i else i + 1];
      }
      if r in rows && r.id != rows[k].id {
        var i :| 0 <= i < |rows| && rows[i] == r;
        assert r == rest[if i < k then i else i - 1];
      }
    }
  }

  lemma DropLookup(rows: seq<Row>, k: nat, id: string)
    requires DistinctIds(rows) && k < |rows|
    ensures HasRow(Without(rows, k), id) <==> HasRow(rows, id) && id != rows[k].id
    ensures HasRow(Without(rows, k), id) ==> RowOf(Without(rows, k), id) == RowOf(rows, id)
  {
    var rest := Without(rows, k);
    WithoutMembers(rows, k);
    if HasRow(rest, id) {
      assert RowOf(rest, id) in rest;
      RowFound(rows, RowOf(rest, id));
    }
    if HasRow(rows, id) && id != rows[k].id {
      assert RowOf(rows, id) in rest;
      RowFound(rest, RowOf(rows, id));
    }
  }

  lemma FilterWakes(pending: seq<Queued>, keep: Queued -> bool)
    requires DistinctWakes(pending)
    ensures DistinctWakes(Filter(keep, pending))
  {
    var run := (q: Queued) => q.runId;
    var event := (q: Queued) => q.wake.eventId;
    assert Distinct(run, pending) && Distinct(event, pending);
    FilterDistinct(run, keep, pending);
    FilterDistinct(event, keep, pending);
    var kept := Filter(keep, pending);
    forall i, j | 0 <= i < j < |kept|
      ensures kept[i].runId != kept[j].runId && kept[i].wake.eventId != kept[j].wake.eventId {
      assert run(kept[i]) != run(kept[j]) && event(kept[i]) != event(kept[j]);
    }
  }

  // ---- each change keeps the snapshot sound ----

  lemma MergeCounted(current: Row, incoming: Row)
    requires current.Counted() && incoming.Counted()
    ensures Merge(current, incoming).Counted()
    ensures Merge(current, incoming).id == current.id && Merge(current, incoming).since == current.since
  {
  }

  lemma PlaceSound(box: Inbox, row: Row, delivered: bool)
    requires Sound(box) && row.Counted()
    ensures var rows := Place(box.rows, Reported(row, delivered));
      && DistinctIds(rows) && |rows| <= |box.rows| + 1
      && (forall r :: r in rows ==> r.Counted())
      && (forall id :: HasRow(rows, id) <==> HasRow(box.rows, id) || id == row.id)
      && (forall id :: HasRow(box.rows, id) && id != row.id ==> RowOf(rows, id) == RowOf(box.rows, id))
      && RowOf(rows, row.id) == (if HasRow(box.rows, row.id)
                                 then Merge(RowOf(box.rows, row.id), Reported(row, delivered))
                                 else Reported(row, delivered))
  {
    var incoming := Reported(row, delivered);
    var rows := Place(box.rows, incoming);
    var k := RowAt(box.rows, row.id);
    if k < |box.rows| {
      SameKeysKeep(box.rows, rows);
      assert box.rows[k] in box.rows;
      MergeCounted(box.rows[k], incoming);
      forall r | r in rows ensures r.Counted() {
        assert r in box.rows || r == rows[k];
      }
    } else {
      assert rows[|box.rows|].id == row.id && forall i :: 0 <= i < |box.rows| ==> rows[i] == box.rows[i];
      assert RowAt(rows, row.id) == |box.rows|;
      forall id | id != row.id ensures HasRow(rows, id) == HasRow(box.rows, id)
        ensures HasRow(box.rows, id) ==> RowAt(rows, id) == RowAt(box.rows, id) {
        var j := RowAt(box.rows, id);
        assert forall i :: 0 <= i < |box.rows| ==> rows[i] == box.rows[i];
        assert j < |box.rows| ==> rows[j].id == id;
      }
    }
  }

  lemma EnqueueDistinct(box: Inbox, rows: seq<Row>, row: Row, wake: Option<Wake>)
    requires Sound(box)
    requires wake.Some? ==> !EventTaken(box.pending, row.id, wake.value.eventId)
    ensures DistinctWakes(Enqueue(rows, box.pending, row.id, wake))
  {
    var queue := Enqueue(rows, box.pending, row.id, wake);
    forall i | 0 <= i < |box.pending| && |queue| > |box.pending|
      ensures queue[i].runId != row.id && queue[i].wake.eventId != wake.value.eventId {
      assert box.pending[i] in box.pending;
    }
  }

  lemma QueueSound(box: Inbox, rows: seq<Row>, row: Row, wake: Option<Wake>)
    requires Sound(box) && DistinctIds(rows)
    requires wake.Some? ==> !EventTaken(box.pending, row.id, wake.value.eventId)
    requires forall id :: HasRow(rows, id) <==> HasRow(box.rows, id) || id == row.id
    ensures var queue := Filter(NotDelivered(rows), Enqueue(rows, box.pending, row.id, wake));
      && DistinctWakes(queue)
      && (forall q :: q in queue ==> HasRow(rows, q.runId) && !IsDelivered(rows, q.runId))
      && (forall q :: q in box.pending && !IsDelivered(rows, q.runId) ==> q in queue)
      && (wake.Some? && !IsDelivered(rows, row.id) ==> HasRun(queue, row.id))
  {
    var queue := Enqueue(rows, box.pending, row.id, wake);
    EnqueueDistinct(box, rows, row, wake);
    FilterWakes(queue, NotDelivered(rows));
    if wake.Some? && !IsDelivered(rows, row.id) {
      EnqueueHas(rows, box.pending, row.id, wake);
      var q := queue[RunAt(queue, row.id)];
      assert q in Filter(NotDelivered(rows), queue);
      RunFound(Filter(NotDelivered(rows), queue), q);
    }
  }

  lemma EnqueueHas(rows: seq<Row>, pending: seq<Queued>, id: string, wake: Option<Wake>)
    requires wake.Some? && !IsDelivered(rows, id)
    ensures HasRun(Enqueue(rows, pending, id, wake), id)
  {
    var queue := Enqueue(rows, pending, id, wake);
    if !HasRun(pending, id) {
      RunFound(queue, queue[|pending|]);
    }
  }

  /** A merged report leaves every other row as it was and moves its own forward. */
  lemma MergedLookup(box: Inbox, row: Row, wake: Option<Wake>, delivered: bool, id: string)
    requires Sound(box) && row.Counted()
    ensures var rows := Merged(box, row, wake, delivered).rows;
      && (HasRow(rows, id) <==> HasRow(box.rows, id) || id == row.id)
      && (HasRow(box.rows, id) && id != row.id ==> RowOf(rows, id) == RowOf(box.rows, id))
      && (id == row.id ==> RowOf(rows, id) == if HasRow(box.rows, row.id)
                                 then Merge(RowOf(box.rows, row.id), Reported(row, delivered))
                                 else Reported(row, delivered))
      && (IsDelivered(rows, id) == IsDelivered(Place(box.rows, Reported(row, delivered)), id))
  {
    PlaceSound(box, row, delivered);
    SortKeepsLookup(Place(box.rows, Reported(row, delivered)));
  }

  lemma MergedSound(box: Inbox, row: Row, wake: Option<Wake>, delivered: bool)
    requires Sound(box) && row.Counted()
    requires wake.Some? ==> !EventTaken(box.pending, row.id, wake.value.eventId)
    ensures SoundWithin(Merged(box, row, wake, delivered), |box.rows| + 1)
  {
    var placed := Place(box.rows, Reported(row, delivered));
    var after := Merged(box, row, wake, delivered);
    PlaceSound(box, row, delivered);
    QueueSound(box, placed, row, wake);
    SortRowsSorts(placed);
    forall id ensures HasRow(after.rows, id) <==> HasRow(placed, id)
      ensures IsDelivered(after.rows, id) == IsDelivered(placed, id) {
      MergedLookup(box, row, wake, delivered, id);
    }
    forall d | d in box.dismissed ensures HasRow(after.rows, d) && RowOf(after.rows, d).Dismissible() {
      MergedLookup(box, row, wake, delivered, d);
    }
    forall r | r in after.rows && (r.delivery.InProgress? || r.delivery.Failed?)
      ensures HasRun(after.pending, r.id) {
      MergedAnchored(box, row, wake, delivered, r);
    }
  }

  lemma MergedAnchored(box: Inbox, row: Row, wake: Option<Wake>, delivered: bool, r: Row)
    requires Sound(box) && row.Counted()
    requires wake.Some? ==> !EventTaken(box.pending, row.id, wake.value.eventId)
    requires r in Merged(box, row, wake, delivered).rows && (r.delivery.InProgress? || r.delivery.Failed?)
    ensures HasRun(Merged(box, row, wake, delivered).pending, r.id)
  {
    var placed := Place(box.rows, Reported(row, delivered));
    var after := Merged(box, row, wake, delivered);
    PlaceSound(box, row, delivered);
    QueueSound(box, placed, row, wake);
    RowFound(placed, r);
    assert RowOf(box.rows, r.id) in box.rows;
    var q := box.pending[RunAt(box.pending, r.id)];
    assert q in box.pending && q in after.pending;
    RunFound(after.pending, q);
  }

  lemma DropSound(box: Inbox, k: nat, bound: nat)
    requires Shaped(box, bound) && k < |box.rows|
    ensures Shaped(Drop(box, k), |box.rows| - 1)
    ensures Anchored(box) ==> Anchored(Drop(box, k))
  {
    WithoutMembers(box.rows, k);
    forall id ensures HasRow(Without(box.rows, k), id) <==> HasRow(box.rows, id) && id != box.rows[k].id
      ensures HasRow(Without(box.rows, k), id) ==> RowOf(Without(box.rows, k), id) == RowOf(box.rows, id) {
      DropLookup(box.rows, k, id);
    }
    FilterWakes(box.pending, NotRun(box.rows[k].id));
    if Anchored(box) {
      DropAnchored(box, k);
    }
  }

  lemma DropAnchored(box: Inbox, k: nat)
    requires DistinctIds(box.rows) && Anchored(box) && k < |box.rows|
    ensures Anchored(Drop(box, k))
  {
    var after := Drop(box, k);
    WithoutMembers(box.rows, k);
    forall r | r in after.rows && (r.delivery.InProgress? || r.delivery.Failed?) ensures HasRun(after.pending, r.id) {
      var q := box.pending[RunAt(box.pending, r.id)];
      assert q in after.pending;
      RunFound(after.pending, q);
    }
  }

  /** One slot over the bound, one eviction at most. */
  lemma EvictOnce(box: Inbox)
    requires |box.rows| <= MAX_BRIEFING_ROWS + 1
    ensures var k := FirstEvictable(box.rows, box.dismissed);
      Evict(box) == if |box.rows| <= MAX_BRIEFING_ROWS then Some(box)
                    else if k == |box.rows| then None
                    else Some(Drop(box, k))
  {
  }

  lemma UpsertSound(box: Inbox, row: Row, wake: Option<Wake>, delivered: bool)
    requires Sound(box) && row.Counted()
    ensures UpsertPlan(box, row, wake, delivered).Target? ==>
      Sound(UpsertPlan(box, row, wake, delivered).box)
  {
    if UpsertPlan(box, row, wake, delivered).Target? {
      var merged := Merged(box, row, wake, delivered);
      MergedSound(box, row, wake, delivered);
      EvictOnce(merged);
      if |merged.rows| > MAX_BRIEFING_ROWS {
        DropSound(merged, FirstEvictable(merged.rows, merged.dismissed), MAX_BRIEFING_ROWS + 1);
      }
    }
  }

  /** The same rows, some of them with another delivery state. */
  ghost predicate Redelivered(a: seq<Row>, b: seq<Row>) {
    |a| == |b| && forall i :: 0 <= i < |a| ==> b[i] == a[i].(delivery := b[i].delivery)
  }

  lemma RedeliveredKeeps(a: seq<Row>, b: seq<Row>)
    requires Redelivered(a, b)
    ensures Sorted(a) ==> Sorted(b)
    ensures DistinctIds(a) ==> DistinctIds(b)
    ensures forall id :: RowAt(a, id) == RowAt(b, id)
    ensures (forall r :: r in a ==> r.Counted()) ==> (forall r :: r in b ==> r.Counted())
  {
    SameKeysKeep(a, b);
    if forall r :: r in a ==> r.Counted() {
      forall r | r in b ensures r.Counted() {
        var i :| 0 <= i < |b| && b[i] == r;
        assert a[i] in a;
      }
    }
  }

  /** The one argument behind every operation that only moves delivery states. */
  lemma RedeliveredSound(box: Inbox, after: Inbox)
    requires Sound(box) && Redelivered(box.rows, after.rows)
    requires after.dismissed == box.dismissed && DistinctWakes(after.pending)
    requires forall q :: q in after.pending ==> q in box.pending
    requires forall i :: 0 <= i < |box.rows| ==>
      && (box.rows[i].delivery.Delivered? ==> after.rows[i].delivery.Delivered?)
      && (after.rows[i].delivery.Delivered? ==> !HasRun(after.pending, box.rows[i].id))
      && (after.rows[i].delivery.InProgress? || after.rows[i].delivery.Failed? ==>
          HasRun(after.pending, box.rows[i].id))
    ensures Sound(after)
  {
    RedeliveredKeeps(box.rows, after.rows);
    forall q | q in after.pending ensures HasRow(after.rows, q.runId) && !IsDelivered(after.rows, q.runId) {
      RunFound(after.pending, q);
    }
    forall r | r in after.rows && (r.delivery.InProgress? || r.delivery.Failed?)
      ensures HasRun(after.pending, r.id) {
      var i :| 0 <= i < |after.rows| && after.rows[i] == r;
    }
  }

  /** What a sound snapshot says of the row at one position. */
  lemma SoundAt(box: Inbox, i: nat)
    requires Sound(box) && i < |box.rows|
    ensures RowAt(box.rows, box.rows[i].id) == i
    ensures box.rows[i].delivery.Delivered? ==> !HasRun(box.pending, box.rows[i].id)
    ensures box.rows[i].delivery.InProgress? || box.rows[i].delivery.Failed? ==> HasRun(box.pending, box.rows[i].id)
  {
    var id := box.rows[i].id;
    assert box.rows[i] in box.rows;
    if RowAt(box.rows, id) < i { assert false; }
    if HasRun(box.pending, id) { assert box.pending[RunAt(box.pending, id)] in box.pending; }
  }

  lemma ReassignSound(box: Inbox, event: string, delivery: Delivery)
    requires Sound(box) && (delivery.InProgress? || delivery.Pending?)
    ensures Sound(Reassign(box, event, delivery))
    ensures Redelivered(box.rows, Reassign(box, event, delivery).rows)
  {
    if HasEvent(box.pending, event) {
      var after := Reassign(box, event, delivery);
      var q := box.pending[EventAt(box.pending, event)];
      assert q in box.pending;
      RunFound(box.pending, q);
      forall i | 0 <= i < |box.rows|
        ensures box.rows[i].delivery.Delivered? ==> after.rows[i].delivery.Delivered?
        ensures after.rows[i].delivery.Delivered? ==> !HasRun(after.pending, box.rows[i].id)
        ensures after.rows[i].delivery.InProgress? || after.rows[i].delivery.Failed? ==>
            HasRun(after.pending, box.rows[i].id) {
        SoundAt(box, i);
      }
      RedeliveredSound(box, after);
    }
  }

  lemma AckedSound(box: Inbox, event: string)
    requires Sound(box) && HasEvent(box.pending, event)
    ensures Sound(Acked(box, event))
    ensures Redelivered(box.rows, Acked(box, event).rows)
    ensures !HasEvent(Acked(box, event).pending, event)
    ensures IsDelivered(Acked(box, event).rows, RunFor(box.pending, event))
  {
    var k := EventAt(box.pending, event);
    var id := RunFor(box.pending, event);
    var after := Acked(box, event);
    assert box.pending[k] in box.pending;
    AckedQueue(box.pending, k);
    forall i | 0 <= i < |box.rows|
      ensures box.rows[i].delivery.Delivered? ==> after.rows[i].delivery.Delivered?
      ensures after.rows[i].delivery.Delivered? ==> !HasRun(after.pending, box.rows[i].id)
      ensures after.rows[i].delivery.InProgress? || after.rows[i].delivery.Failed? ==>
          HasRun(after.pending, box.rows[i].id) {
      SoundAt(box, i);
    }
    RedeliveredSound(box, after);
    RedeliveredKeeps(box.rows, after.rows);
  }

  /** The queue without one wake: every other run and event, and no more of its own. */
  lemma AckedQueue(pending: seq<Queued>, k: nat)
    requires DistinctWakes(pending) && k < |pending|
    ensures var rest := Without(pending, k);
      && DistinctWakes(rest) && !HasEvent(rest, pending[k].wake.eventId)
      && (forall q :: q in rest ==> q in pending)
      && (forall run :: HasRun(rest, run) <==> HasRun(pending, run) && run != pending[k].runId)
  {
    var rest := Without(pending, k);
    forall j | 0 <= j < |rest| ensures rest[j] == pending[if j < k then j else j + 1] {
    }
    forall run ensures HasRun(rest, run) <==> HasRun(pending, run) && run != pending[k].runId {
      WithoutRun(pending, k, run);
    }
  }

  lemma WithoutRun(pending: seq<Queued>, k: nat, run: string)
    requires DistinctWakes(pending) && k < |pending|
    ensures HasRun(Without(pending, k), run) <==> HasRun(pending, run) && run != pending[k].runId
  {
    var rest := Without(pending, k);
    var j := RunAt(pending, run);
    if j < |pending| && j != k {
      assert rest[if j < k then j else j - 1].runId == run;
    }
    if HasRun(rest, run) {
      var i := RunAt(rest, run);
      assert pending[if i < k then i else i + 1].runId == run;
    }
  }

  lemma MapSound(box: Inbox, ids: set<string>, to: Delivery)
    requires Sound(box)
    requires to.Pending? || (to.Failed? && ids <= QueuedRuns(box.pending))
    ensures Sound(box.(rows := MapDelivery(box.rows, ids, to)))
    ensures Redelivered(box.rows, MapDelivery(box.rows, ids, to))
  {
    var after := box.(rows := MapDelivery(box.rows, ids, to));
    forall i | 0 <= i < |box.rows|
      ensures box.rows[i].delivery.Delivered? ==> after.rows[i].delivery.Delivered?
      ensures after.rows[i].delivery.Delivered? ==> !HasRun(after.pending, box.rows[i].id)
      ensures after.rows[i].delivery.InProgress? || after.rows[i].delivery.Failed? ==>
          HasRun(after.pending, box.rows[i].id) {
      SoundAt(box, i);
      if box.rows[i].id in ids && to.Failed? {
        var q :| q in box.pending && q.runId == box.rows[i].id;
        RunFound(box.pending, q);
      }
    }
    RedeliveredSound(box, after);
  }

  lemma RecoveredSound(box: Inbox, replay: set<string>)
    requires Sound(box)
    ensures Sound(Recovered(box, replay))
    ensures Redelivered(box.rows, Recovered(box, replay).rows)
  {
    var after := Recovered(box, replay);
    FilterWakes(box.pending, NotAnswered(replay));
    forall i | 0 <= i < |box.rows|
      ensures box.rows[i].delivery.Delivered? ==> after.rows[i].delivery.Delivered?
      ensures after.rows[i].delivery.Delivered? ==> !HasRun(after.pending, box.rows[i].id)
      ensures after.rows[i].delivery.InProgress? || after.rows[i].delivery.Failed? ==>
          HasRun(after.pending, box.rows[i].id) {
      RecoveredAt(box, replay, i);
    }
    RedeliveredSound(box, after);
  }

  lemma RecoveredAt(box: Inbox, replay: set<string>, i: nat)
    requires Sound(box) && i < |box.rows|
    ensures var after := Recovered(box, replay);
      && (box.rows[i].delivery.Delivered? ==> after.rows[i].delivery.Delivered?)
      && (after.rows[i].delivery.Delivered? ==> !HasRun(after.pending, box.rows[i].id))
      && (after.rows[i].delivery.InProgress? || after.rows[i].delivery.Failed? ==>
            HasRun(after.pending, box.rows[i].id))
  {
    SoundAt(box, i);
    AnsweredRun(box.pending, replay, box.rows[i].id);
  }

  /** A run leaves the queue exactly when its own event was answered. */
  lemma AnsweredRun(pending: seq<Queued>, replay: set<string>, id: string)
    requires DistinctWakes(pending)
    ensures HasRun(Filter(NotAnswered(replay), pending), id)
        <==> HasRun(pending, id) && id !in Answered(pending, replay)
  {
    var kept := Filter(NotAnswered(replay), pending);
    if HasRun(kept, id) {
      var q := kept[RunAt(kept, id)];
      assert q in kept;
      forall other | other in pending && other.runId == id ensures other == q {
        WakeFound(pending, q);
        WakeFound(pending, other);
      }
    }
    if HasRun(pending, id) && id !in Answered(pending, replay) {
      var q := pending[RunAt(pending, id)];
      assert q in kept;
      RunFound(kept, q);
    }
  }
}
