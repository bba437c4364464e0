/**
  The inbox as the service keeps it: an object that changes its collections in
  place and rolls them back when the snapshot does not land. Each method is
  proved to do to memory and file exactly what `BriefingInbox` says.
*/
module BriefingStores {
  import opened Prelude
  import opened BriefingRows
  import opened BriefingInbox
  import opened BriefingInboxLaws

  class BriefingStore {
    var rows: seq<Row>
    var pending: seq<Queued>
    var dismissed: set<string>
    /** What the last write that landed left on disk. */
    var file: Inbox

    function Memory(): Inbox
      reads this
    {
      Inbox(rows, pending, dismissed)
    }

    function State(): Store
      reads this
    {
      Store(Memory(), file)
    }

    /** `open`: load, reset what a dead process held, and write back a change. */
    constructor (disk: Inbox, lands: bool)
      ensures State() == Open(disk, lands)
    {
      rows, pending, dismissed, file := [], [], {}, disk;
      new;
      var loaded := CanLoad(disk);
      var changed := false;
      if loaded {
        changed := Load(disk);
      } else {
        file := EMPTY;
      }
      var resumed := ResetRows();
      changed := changed || resumed > 0;
      if loaded {
        ChangedMeansDifferent(Compact(disk.(rows := SortRows(disk.rows))));
      }
      if changed {
        var _ := Persist(lands);
      }
    }

    /** The checks `load` makes before it takes a snapshot. */
    static method CanLoad(disk: Inbox) returns (ok: bool)
      ensures ok <==> Loadable(disk)
    {
      if |disk.rows| > LEGACY_MAX_BRIEFING_ROWS || |disk.pending| > LEGACY_MAX_BRIEFING_ROWS
         || |disk.dismissed| > LEGACY_MAX_BRIEFING_ROWS {
        return false;
      }
      ok := RowsLoad(disk.rows);
      if ok {
        ok := QueueLoads(disk.rows, disk.pending);
      }
      if ok {
        ok := DismissalsLoad(disk.rows, disk.dismissed);
      }
    }

    static method RowsLoad(rows: seq<Row>) returns (ok: bool)
      ensures ok <==> (forall r :: r in rows ==> r.Counted()) && DistinctIds(rows)
    {
      var rowIds: set<string> := {};
      for i := 0 to |rows|
        invariant forall k :: 0 <= k < i ==> rows[k].Counted()
        invariant rowIds == set k | 0 <= k < i :: rows[k].id
        invariant forall j, k :: 0 <= j < k < i ==> rows[j].id != rows[k].id
      {
        if !rows[i].Counted() {
          assert rows[i] in rows;
          return false;
        }
        if rows[i].id in rowIds {
          return false;
        }
        rowIds := rowIds + {rows[i].id};
      }
      return true;
    }

    static method QueueLoads(rows: seq<Row>, pending: seq<Queued>) returns (ok: bool)
      ensures ok <==> (forall q :: q in pending ==> HasRow(rows, q.runId) && !IsDelivered(rows, q.runId))
                      && DistinctWakes(pending)
    {
      hide HasRow, IsDelivered;
      var runIds: set<string>, eventIds: set<string> := {}, {};
      for i := 0 to |pending|
        invariant runIds == set k | 0 <= k < i :: pending[k].runId
        invariant eventIds == set k | 0 <= k < i :: pending[k].wake.eventId
        invariant forall k :: 0 <= k < i ==> HasRow(rows, pending[k].runId) && !IsDelivered(rows, pending[k].runId)
        invariant forall j, k :: (0 <= j < k < i ==>
          pending[j].runId != pending[k].runId && pending[j].wake.eventId != pending[k].wake.eventId)
      {
        var queued := pending[i];
        assert queued in pending;
        if !HasRow(rows, queued.runId) || IsDelivered(rows, queued.runId)
           || queued.runId in runIds || queued.wake.eventId in eventIds {
          return false;
        }
        runIds, eventIds := runIds + {queued.runId}, eventIds + {queued.wake.eventId};
      }
      return true;
    }

    static method DismissalsLoad(rows: seq<Row>, dismissed: set<string>) returns (ok: bool)
      ensures ok <==> forall d :: d in dismissed ==> HasRow(rows, d) && RowOf(rows, d).Dismissible()
    {
      var left := dismissed;
      while left != {}
        invariant left <= dismissed
        invariant forall d :: d in dismissed - left ==> HasRow(rows, d) && RowOf(rows, d).Dismissible()
        decreases left
      {
        var d :| d in left;
        if !HasRow(rows, d) || !RowOf(rows, d).Dismissible() {
          return false;
        }
        left := left - {d};
      }
      return true;
    }

    method Load(disk: Inbox) returns (compacted: bool)
      requires Loadable(disk)
      modifies this
      ensures Memory() == Compact(disk.(rows := SortRows(disk.rows)))
      ensures file == old(file) && (compacted <==> |disk.rows| > MAX_BRIEFING_ROWS)
    {
      rows, pending, dismissed := SortRows(disk.rows), disk.pending, disk.dismissed;
      compacted := |rows| > MAX_BRIEFING_ROWS;
      while |rows| > MAX_BRIEFING_ROWS
        invariant Compact(Memory()) == Compact(disk.(rows := SortRows(disk.rows)))
        invariant file == old(file)
        decreases |rows|
      {
        var index := FirstYield(rows, dismissed);
        Remove(if index < |rows| then index else 0);
      }
    }

    method Remove(index: nat)
      requires index < |rows|
      modifies this
      ensures Memory() == Drop(old(Memory()), index) && file == old(file)
    {
      var removed := rows[index];
      rows := Without(rows, index);
      pending := Filter(NotRun(removed.id), pending);
      dismissed := dismissed - {removed.id};
    }

    /** One atomic snapshot: it lands whole or the file is as it was. */
    method Persist(lands: bool) returns (ok: bool)
      modifies this`file
      ensures ok == lands
      ensures file == if lands then Memory() else old(file)
    {
      if lands {
        file := Inbox(rows, pending, dismissed);
      }
      return lands;
    }

    /** Persists what memory holds now, or puts back what it held before. */
    method Commit(previous: Inbox, lands: bool) returns (ok: bool)
      modifies this
      ensures ok == lands
      ensures State() == Save(Store(previous, old(file)), old(Memory()), lands)
    {
      ok := Persist(lands);
      if !ok {
        RollBack(previous);
      }
    }

    /** One pass over a copy of the rows, counting those that move. */
    static method MapRows(rows: seq<Row>, ids: set<string>, to: Delivery) returns (list: seq<Row>, changed: nat)
      ensures list == MapDelivery(rows, ids, to) && changed == CountIn(rows, ids, to)
    {
      hide MapDelivery, CountIn;
      NoneCounted(ids, to);
      list, changed := rows, 0;
      var i := 0;
      while i < |rows|
        invariant 0 <= i <= |rows| == |list|
        invariant forall k :: 0 <= k < i ==> list[k] == MapDelivery(rows, ids, to)[k]
        invariant forall k :: i <= k < |rows| ==> list[k] == rows[k]
        invariant changed == CountIn(rows[..i], ids, to)
      {
        CountOneMore(rows, i, ids, to);
        if rows[i].id in ids && rows[i].delivery.Moves(to) {
          list := list[i := rows[i].(delivery := to)];
          changed := changed + 1;
        }
        i := i + 1;
      }
      assert rows[..|rows|] == rows;
    }

    method ChangeRows(ids: set<string>, to: Delivery) returns (changed: nat)
      modifies this`rows
      ensures rows == MapDelivery(old(rows), ids, to)
      ensures changed == CountIn(old(rows), ids, to)
    {
      rows, changed := MapRows(rows, ids, to);
    }

    method ResetRows() returns (resumed: nat)
      modifies this`rows
      ensures Memory() == Resumed(old(Memory()))
      ensures resumed == CountIn(old(rows), RowIds(old(rows)), Pending)
    {
      resumed := ChangeRows(RowIds(rows), Pending);
    }

    /** The row and the wake of one report, before any row yields. */
    method MergeIn(row: Row, wake: Option<Wake>, alreadyDelivered: bool)
      requires wake.Some? ==> !EventTaken(pending, row.id, wake.value.eventId)
      modifies this
      ensures Memory() == Merged(old(Memory()), row, wake, alreadyDelivered) && file == old(file)
    {
      var incoming := row.(delivery := if alreadyDelivered then Delivered else Pending);
      var placed := rows;
      var queue := pending;
      var at := RowAt(placed, row.id);
      if at < |placed| {
        placed := placed[at := Merge(placed[at], incoming)];
      } else {
        placed := placed + [incoming];
      }
      assert placed == Place(rows, Reported(row, alreadyDelivered));
      if wake.Some? && !IsDelivered(placed, row.id) && !HasRun(queue, row.id) {
        queue := queue + [Queued(row.id, wake.value)];
      }
      rows, pending := SortRows(placed), Filter(NotDelivered(placed), queue);
    }

    /** Rows yield until the bound holds, or none may and nothing is promised. */
    method MakeRoom() returns (fits: bool)
      modifies this
      ensures fits <==> Evict(old(Memory())).Some?
      ensures fits ==> Memory() == Evict(old(Memory())).value
      ensures file == old(file)
    {
      while |rows| > MAX_BRIEFING_ROWS
        invariant Evict(Memory()) == Evict(old(Memory()))
        invariant file == old(file)
        decreases |rows|
      {
        var index := FirstEvictable(rows, dismissed);
        if index == |rows| {
          return false;
        }
        Remove(index);
      }
      return true;
    }

    /** Brings memory to the planned snapshot, or leaves it as it was. */
    method Prepare(row: Row, wake: Option<Wake>, alreadyDelivered: bool) returns (plan: Plan)
      modifies this
      ensures plan == UpsertPlan(old(Memory()), row, wake, alreadyDelivered)
      ensures Memory() == (if plan.Target? then plan.box else old(Memory())) && file == old(file)
    {
      var previous := Memory();
      if wake.Some? && EventTaken(pending, row.id, wake.value.eventId) {
        return Malformed;
      }
      MergeIn(row, wake, alreadyDelivered);
      var fits := MakeRoom();
      if !fits {
        RollBack(previous);
        return Full;
      }
      return Target(Memory());
    }

    /** Stores a prepared snapshot and says what became of the report. */
    method Settle(previous: Inbox, plan: Plan, id: string, lands: bool) returns (outcome: Upserted)
      requires Memory() == if plan.Target? then plan.box else previous
      modifies this
      ensures State() == StorePlan(Store(previous, old(file)), plan, lands)
      ensures outcome == Settled(Store(previous, old(file)), plan, id, lands)
    {
      if !plan.Target? {
        return if plan.Malformed? then WasMalformed else WasFull;
      }
      if Memory() == previous {
        return if IsDelivered(previous.rows, id) then AlreadyDelivered else Deduplicated;
      }
      var ok := Commit(previous, lands);
      return if !ok then NotStored else if HasRow(previous.rows, id) then Updated else Inserted;
    }

    /** Merges one report, keeps its wake, and gives up a slot if it must. */
    method Upsert(row: Row, wake: Option<Wake>, alreadyDelivered: bool, lands: bool) returns (outcome: Upserted)
      modifies this
      ensures State() == BriefingInbox.Upsert(old(State()), row, wake, alreadyDelivered, lands)
      ensures outcome == UpsertOutcome(old(State()), row, wake, alreadyDelivered, lands)
    {
      var previous := Memory();
      var plan := Prepare(row, wake, alreadyDelivered);
      outcome := Settle(previous, plan, row.id, lands);
    }

    method RollBack(previous: Inbox)
      modifies this
      ensures Memory() == previous && file == old(file)
    {
      rows, pending, dismissed := previous.rows, previous.pending, previous.dismissed;
    }

    /** Every row with a wake in the list becomes delivered. */
    method MarkDelivered(delivered: seq<Queued>)
      requires DistinctIds(rows)
      modifies this`rows
      ensures rows == MapDelivery(old(rows), QueuedRuns(delivered), Delivered)
    {
      ghost var before := rows;
      var i := 0;
      while i < |delivered|
        invariant 0 <= i <= |delivered|
        invariant rows == MapDelivery(before, QueuedRuns(delivered[..i]), Delivered)
      {
        DeliverOneMore(before, delivered[..i], delivered[i]);
        assert delivered[..i + 1] == delivered[..i] + [delivered[i]];
        rows := Deliver(rows, delivered[i].runId, Delivered);
        i := i + 1;
      }
      assert delivered[..|delivered|] == delivered;
    }

    /** Takes every answered event out of the queue and marks its row delivered. */
    method CloseAnswered(replay: set<string>) returns (closed: nat)
      requires Sound(Memory())
      modifies this
      ensures Memory() == Recovered(old(Memory()), replay) && file == old(file)
      ensures closed == |Filter(IsAnswered(replay), old(pending))|
    {
      var delivered := Filter(IsAnswered(replay), pending);
      AnsweredAre(pending, replay);
      MarkDelivered(delivered);
      var events := EventsOf(delivered);
      pending := Filter(NotAnswered(events), pending);
      return |delivered|;
    }

    /** Closes queued events whose answer the replay already holds. */
    method RecoverDelivered(replay: set<string>, lands: bool) returns (reply: Reply)
      requires Sound(Memory())
      modifies this
      ensures State() == BriefingInbox.RecoverDelivered(old(State()), replay, lands).0
      ensures reply == BriefingInbox.RecoverDelivered(old(State()), replay, lands).1
    {
      var previous := Memory();
      if Filter(IsAnswered(replay), pending) == [] {
        return Found(0);
      }
      var closed := CloseAnswered(replay);
      var ok := Commit(previous, lands);
      return if ok then Found(closed) else WriteFailed;
    }

    /** `in_progress` and `retry`: the row of one queued event changes hands. */
    method Reassign(event: string, delivery: Delivery, lands: bool) returns (ok: bool)
      modifies this
      ensures State() == ReassignStore(old(State()), event, delivery, lands).0
      ensures ok == ReassignStore(old(State()), event, delivery, lands).1
    {
      var previous := Memory();
      if !HasEvent(pending, event) {
        return true;
      }
      rows := Deliver(rows, RunFor(pending, event), delivery);
      ok := Commit(previous, lands);
    }

    method QueuedDeliveryFailed(lands: bool) returns (reply: Reply)
      modifies this
      ensures State() == BriefingInbox.QueuedDeliveryFailed(old(State()), lands).0
      ensures reply == BriefingInbox.QueuedDeliveryFailed(old(State()), lands).1
    {
      reply := ChangeAndPersist(QueuedRuns(pending), Delivery.Failed, lands);
    }

    method ResumeStopped(lands: bool) returns (reply: Reply)
      modifies this
      ensures State() == BriefingInbox.ResumeStopped(old(State()), lands).0
      ensures reply == BriefingInbox.ResumeStopped(old(State()), lands).1
    {
      reply := ChangeAndPersist(RowIds(rows), Pending, lands);
    }

    method ChangeAndPersist(ids: set<string>, to: Delivery, lands: bool) returns (reply: Reply)
      modifies this
      ensures State() == Batch(old(Memory()).(rows := MapDelivery(old(rows), ids, to)),
                               CountIn(old(rows), ids, to), old(State()), lands).0
      ensures reply == Batch(old(Memory()).(rows := MapDelivery(old(rows), ids, to)),
                             CountIn(old(rows), ids, to), old(State()), lands).1
    {
      var previous := Memory();
      var changed := ChangeRows(ids, to);
      if changed == 0 {
        NothingChanged(previous.rows, ids, to);
        return Found(0);
      }
      var ok := Commit(previous, lands);
      if !ok {
        return WriteFailed;
      }
      return Found(changed);
    }

    method Acknowledge(event: string, lands: bool) returns (reply: Reply)
      modifies this
      ensures State() == BriefingInbox.Acknowledge(old(State()), event, lands).0
      ensures reply == BriefingInbox.Acknowledge(old(State()), event, lands).1
    {
      var previous := Memory();
      var index := EventAt(pending, event);
      if index == |pending| {
        return Found(0);
      }
      rows := Deliver(rows, pending[index].runId, Delivered);
      pending := Without(pending, index);
      var ok := Commit(previous, lands);
      if !ok {
        return WriteFailed;
      }
      return Found(1);
    }

    method Dismiss(id: string, lands: bool) returns (outcome: Dismissal)
      modifies this
      ensures State() == BriefingInbox.Dismiss(old(State()), id, lands)
      ensures outcome == DismissOutcome(old(State()), id, lands)
    {
      if !HasRow(rows, id) {
        return Unavailable;
      }
      if !RowOf(rows, id).Dismissible() {
        return NotDismissible;
      }
      if id in dismissed {
        return AlreadyDismissed;
      }
      dismissed := dismissed + {id};
      var ok := Persist(lands);
      if !ok {
        dismissed := dismissed - {id};
        return DismissalNotStored;
      }
      return Dismissed;
    }
  }

  function EventsOf(queued: seq<Queued>): set<string> { set q | q in queued :: q.wake.eventId }

  /** Taking out the wakes that were answered is taking out every wake with such an event. */
  lemma AnsweredAre(pending: seq<Queued>, replay: set<string>)
    ensures var delivered := Filter(IsAnswered(replay), pending);
      && QueuedRuns(delivered) == Answered(pending, replay)
      && Filter(NotAnswered(EventsOf(delivered)), pending) == Filter(NotAnswered(replay), pending)
  {
    var delivered := Filter(IsAnswered(replay), pending);
    forall q | q in pending ensures NotAnswered(EventsOf(delivered))(q) == NotAnswered(replay)(q) {
      if q.wake.eventId in replay {
        assert q in delivered;
      }
    }
    FilterAgree(NotAnswered(EventsOf(delivered)), NotAnswered(replay), pending);
  }

  lemma NoneCounted(ids: set<string>, to: Delivery)
    ensures CountIn([], ids, to) == 0
  {
  }

  lemma CountOneMore(rows: seq<Row>, i: nat, ids: set<string>, to: Delivery)
    requires i < |rows|
    ensures CountIn(rows[..i + 1], ids, to)
         == CountIn(rows[..i], ids, to) + if rows[i].id in ids && rows[i].delivery.Moves(to) then 1 else 0
  {
    assert rows[..i + 1][..i] == rows[..i];
  }

  lemma DeliverOneMore(rows: seq<Row>, some: seq<Queued>, one: Queued)
    requires DistinctIds(rows)
    ensures Deliver(MapDelivery(rows, QueuedRuns(some), Delivered), one.runId, Delivered)
         == MapDelivery(rows, QueuedRuns(some + [one]), Delivered)
  {
    hide MapDelivery, QueuedRuns;
    var before := MapDelivery(rows, QueuedRuns(some), Delivered);
    var after := MapDelivery(rows, QueuedRuns(some + [one]), Delivered);
    RunsOneMore(some, one);
    SameKeysKeep(rows, before);
    assert |Deliver(before, one.runId, Delivered)| == |rows|;
    hide Deliver;
    forall i | 0 <= i < |rows| ensures Deliver(before, one.runId, Delivered)[i] == after[i] {
      DeliverAt(rows, before, one.runId, i);
    }
  }

  lemma RunsOneMore(some: seq<Queued>, one: Queued)
    ensures QueuedRuns(some + [one]) == QueuedRuns(some) + {one.runId}
  {
  }

  lemma DeliverAt(rows: seq<Row>, before: seq<Row>, id: string, i: nat)
    requires DistinctIds(rows) && |rows| == |before| && i < |rows|
    requires before[i].id == rows[i].id && RowAt(before, id) == RowAt(rows, id)
    ensures |Deliver(before, id, Delivered)| == |rows|
    ensures Deliver(before, id, Delivered)[i]
         == if rows[i].id == id then before[i].(delivery := Delivered) else before[i]
  {
    if rows[i].id == id {
      RowFound(rows, rows[i]);
    }
  }

  /** A count of zero is a map that moved nothing. */
  lemma NothingChanged(rows: seq<Row>, ids: set<string>, to: Delivery)
    requires CountIn(rows, ids, to) == 0
    ensures MapDelivery(rows, ids, to) == rows
  {
    forall i | 0 <= i < |rows| ensures MapDelivery(rows, ids, to)[i] == rows[i] {
      assert rows[i] in rows;
    }
  }

  lemma ChangedMeansDifferent(box: Inbox)
    ensures CountIn(box.rows, RowIds(box.rows), Pending) > 0 <==> Resumed(box) != box
  {
    if CountIn(box.rows, RowIds(box.rows), Pending) == 0 {
      NothingChanged(box.rows, RowIds(box.rows), Pending);
    } else {
      var r :| r in box.rows && r.id in RowIds(box.rows) && r.delivery.Moves(Pending);
      var i :| 0 <= i < |box.rows| && box.rows[i] == r;
      assert Resumed(box).rows[i] != box.rows[i];
    }
  }
}
