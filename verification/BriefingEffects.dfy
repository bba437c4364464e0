/** What each operation of the inbox does, row by row and wake by wake, and what it answers. */
module BriefingEffects {
  import opened Prelude
  import opened BriefingRows
  import opened BriefingInbox
  import opened BriefingInboxLaws
  import opened BriefingUpsertLaws

  /** Rows keep their places and all but, for some, their delivery. */
  ghost predicate Moved(before: seq<Row>, after: seq<Row>, moves: Row -> bool, to: Delivery) {
    && |after| == |before|
    && forall i :: 0 <= i < |before| ==>
         after[i] == if moves(before[i]) then before[i].(delivery := to) else before[i]
  }

  /** The number of rows that are not what they were. */
  function Differences(before: seq<Row>, after: seq<Row>): nat
    requires |before| == |after|
  {
    if before == [] then 0
    else
      var n := |before| - 1;
      Differences(before[..n], after[..n]) + if before[n] == after[n] then 0 else 1
  }

  /** A queued event's row is given that delivery, in memory and in the file; nothing else changes. */
  lemma ReassignMoves(s: Store, event: string, to: Delivery, lands: bool)
    requires Sound(s.mem)
    ensures var (after, ok) := ReassignStore(s, event, to, lands);
      && (ok <==> !HasEvent(s.mem.pending, event) || lands)
      && (ok && HasEvent(s.mem.pending, event) ==>
            && after.mem == after.disk
            && after.mem.pending == s.mem.pending && after.mem.dismissed == s.mem.dismissed
            && Moved(s.mem.rows, after.mem.rows, (r: Row) => r.id == RunFor(s.mem.pending, event), to))
      && (!ok || !HasEvent(s.mem.pending, event) ==> after == s)
  {
    if HasEvent(s.mem.pending, event) {
      DeliverMoves(s.mem.rows, RunFor(s.mem.pending, event), to);
    }
  }

  lemma DeliverMoves(rows: seq<Row>, id: string, to: Delivery)
    requires DistinctIds(rows)
    ensures Moved(rows, Deliver(rows, id, to), (r: Row) => r.id == id, to)
  {
  }

  /** An acknowledged event is off the queue and its row delivered, in memory and in the file; nothing else changes. */
  lemma AcknowledgeCloses(s: Store, event: string, lands: bool)
    requires Sound(s.mem)
    ensures var (after, reply) := Acknowledge(s, event, lands);
      && reply == (if !HasEvent(s.mem.pending, event) then Found(0) else if lands then Found(1) else WriteFailed)
      && (reply == Found(1) ==>
            && after.mem == after.disk && after.mem.dismissed == s.mem.dismissed
            && after.mem.pending == Filter((q: Queued) => q.wake.eventId != event, s.mem.pending)
            && Moved(s.mem.rows, after.mem.rows, (r: Row) => r.id == RunFor(s.mem.pending, event), Delivered))
      && (reply != Found(1) ==> after == s)
  {
    if HasEvent(s.mem.pending, event) {
      DeliverMoves(s.mem.rows, RunFor(s.mem.pending, event), Delivered);
      WithoutIsFilter(s.mem.pending, EventAt(s.mem.pending, event), (q: Queued) => q.wake.eventId != event);
    }
  }

  lemma {:induction false} WithoutIsFilter(pending: seq<Queued>, k: nat, keep: Queued -> bool)
    requires k < |pending| && forall i :: 0 <= i < |pending| ==> (keep(pending[i]) <==> i != k)
    ensures Without(pending, k) == Filter(keep, pending)
    decreases |pending|
  {
    hide Filter;
    var n := |pending| - 1;
    var init := pending[..n];
    FilterLast(keep, pending);
    assert pending[n] == pending[n] && forall i :: 0 <= i < n ==> init[i] == pending[i];
    if k == n {
      FilterAll(keep, init);
    } else {
      WithoutIsFilter(init, k, keep);
    }
    WithoutLast(pending, k);
  }

  lemma FilterLast(keep: Queued -> bool, pending: seq<Queued>)
    requires pending != []
    ensures var n := |pending| - 1;
      Filter(keep, pending) == Filter(keep, pending[..n]) + if keep(pending[n]) then [pending[n]] else []
  {
  }

  lemma WithoutLast<T>(s: seq<T>, k: nat)
    requires k < |s|
    ensures var n := |s| - 1;
      Without(s, k) == if k == n then s[..n] else Without(s[..n], k) + [s[n]]
  {
  }

  /** Every answered event is off the queue, the others stay in order, and the answered runs are delivered. */
  lemma RecoverCloses(s: Store, replay: set<string>, lands: bool)
    ensures var (after, reply) := RecoverDelivered(s, replay, lands);
      var answered := Filter((q: Queued) => q.wake.eventId in replay, s.mem.pending);
      && reply == (if answered == [] then Found(0) else if lands then Found(|answered|) else WriteFailed)
      && (reply.Found? && answered != [] ==>
            && after.mem == after.disk && after.mem.dismissed == s.mem.dismissed
            && after.mem.pending == Filter((q: Queued) => q.wake.eventId !in replay, s.mem.pending)
            && Moved(s.mem.rows, after.mem.rows, (r: Row) => exists q :: q in answered && q.runId == r.id, Delivered))
      && (reply.WriteFailed? || answered == [] ==> after == s)
  {
    FilterAgree(IsAnswered(replay), (q: Queued) => q.wake.eventId in replay, s.mem.pending);
    FilterAgree(NotAnswered(replay), (q: Queued) => q.wake.eventId !in replay, s.mem.pending);
  }

  lemma {:induction false} MapCounts(rows: seq<Row>, ids: set<string>, to: Delivery)
    requires to.Failed? || to.Pending?
    ensures CountIn(rows, ids, to) == Differences(rows, MapDelivery(rows, ids, to))
    decreases |rows|
  {
    if rows != [] {
      var init := rows[..|rows| - 1];
      MapCounts(init, ids, to);
      assert MapDelivery(rows, ids, to)[..|rows| - 1] == MapDelivery(init, ids, to);
    }
  }

  /** A stop fails every queued row that is not stopped yet, and says how many there were. */
  lemma StopFails(s: Store, lands: bool)
    requires Sound(s.mem)
    ensures var (after, reply) := QueuedDeliveryFailed(s, lands);
      var next := StoppedRows(s.mem);
      && Moved(s.mem.rows, next.rows,
               (r: Row) => (r.delivery.Pending? || r.delivery.InProgress?) && HasRun(s.mem.pending, r.id),
               Delivery.Failed)
      && next.pending == s.mem.pending && next.dismissed == s.mem.dismissed
      && reply == (if next.rows == s.mem.rows then Found(0)
                   else if lands then Found(Differences(s.mem.rows, next.rows)) else WriteFailed)
      && after == (if lands && next.rows != s.mem.rows then Store(next, next) else s)
  {
    hide Sound;
    MapCounts(s.mem.rows, QueuedRuns(s.mem.pending), Delivery.Failed);
    NoDifference(s.mem.rows, StoppedRows(s.mem).rows);
    forall id ensures id in QueuedRuns(s.mem.pending) <==> HasRun(s.mem.pending, id) {
      QueuedRunsIff(s.mem.pending, id);
    }
  }

  lemma QueuedRunsIff(pending: seq<Queued>, id: string)
    ensures id in QueuedRuns(pending) <==> HasRun(pending, id)
  {
    if id in QueuedRuns(pending) {
      var q :| q in pending && q.runId == id;
      RunFound(pending, q);
    }
  }

  /** A resumption makes every reserved or stopped row pending again, and says how many there were. */
  lemma ResumeOffers(s: Store, lands: bool)
    ensures var (after, reply) := ResumeStopped(s, lands);
      var next := Resumed(s.mem);
      && Moved(s.mem.rows, next.rows, (r: Row) => r.delivery.InProgress? || r.delivery.Failed?, Pending)
      && next.pending == s.mem.pending && next.dismissed == s.mem.dismissed
      && reply == (if next.rows == s.mem.rows then Found(0)
                   else if lands then Found(Differences(s.mem.rows, next.rows)) else WriteFailed)
      && after == (if lands && next.rows != s.mem.rows then Store(next, next) else s)
  {
    MapCounts(s.mem.rows, RowIds(s.mem.rows), Pending);
    NoDifference(s.mem.rows, Resumed(s.mem).rows);
  }

  lemma {:induction false} NoDifference(before: seq<Row>, after: seq<Row>)
    requires |before| == |after|
    ensures Differences(before, after) == 0 <==> before == after
    decreases |before|
  {
    if before != [] {
      var n := |before| - 1;
      NoDifference(before[..n], after[..n]);
      assert before == before[..n] + [before[n]] && after == after[..n] + [after[n]];
    }
  }

  // ---- one report ----

  /** Another run is queued under the report's event. */
  predicate Contradicts(box: Inbox, row: Row, wake: Option<Wake>) {
    wake.Some? && exists q :: q in box.pending && q.wake.eventId == wake.value.eventId && q.runId != row.id
  }

  /** What a report is told: refused for its event, for room or for its write, or what it changed. */
  lemma UpsertSays(s: Store, row: Row, wake: Option<Wake>, delivered: bool, lands: bool)
    requires Sound(s.mem) && row.Counted()
    ensures var outcome := UpsertOutcome(s, row, wake, delivered, lands);
      var after, stored := Upsert(s, row, wake, delivered, lands), Upsert(s, row, wake, delivered, true);
      && (outcome.WasMalformed? <==> Contradicts(s.mem, row, wake))
      && (outcome.WasFull? <==>
            && !Contradicts(s.mem, row, wake) && |s.mem.rows| == 64 && !HasRow(s.mem.rows, row.id)
            && (forall r :: r in s.mem.rows ==> !MayYield(r, s.mem.dismissed))
            && !MayYield(Reported(row, delivered), s.mem.dismissed))
      && (outcome.NotStored? <==> !lands && stored != s)
      && (outcome.Inserted? <==> lands && stored != s && !HasRow(s.mem.rows, row.id))
      && (outcome.Updated? <==> lands && stored != s && HasRow(s.mem.rows, row.id))
      && (outcome.AlreadyDelivered? ==> IsDelivered(s.mem.rows, row.id))
      && (outcome.Deduplicated? ==> !IsDelivered(s.mem.rows, row.id))
      && after == (if lands then stored else s)
      && (stored != s ==> stored.mem == stored.disk)
  {
    hide Sound, Merged, Evict, Evictable, FirstEvictable;
    if !Contradicts(s.mem, row, wake) {
      UpsertFullIff(s.mem, row, wake, delivered);
    }
  }

  /** A wake whose run is retained and not delivered. */
  function Kept(rows: seq<Row>): Queued -> bool {
    (q: Queued) => HasRow(rows, q.runId) && !RowOf(rows, q.runId).delivery.Delivered?
  }

  /** The queue and the report's own wake, if it brought one and its run had none. */
  function WithOwn(pending: seq<Queued>, id: string, wake: Option<Wake>): seq<Queued> {
    pending + if wake.Some? && !HasRun(pending, id) then [Queued(id, wake.value)] else []
  }

  /**
    The queue after a stored report: the wakes that were there, in order, but
    for those of the reported run once it is delivered and of the run that was
    pushed out; then the report's own, if its run had none and is not delivered.
  */
  lemma UpsertQueues(box: Inbox, row: Row, wake: Option<Wake>, delivered: bool)
    requires Sound(box) && row.Counted() && UpsertPlan(box, row, wake, delivered).Target?
    ensures var next := UpsertPlan(box, row, wake, delivered).box;
      next.pending == Filter(Kept(next.rows), WithOwn(box.pending, row.id, wake))
  {
    hide Sound, Merge, Evictable, FirstEvictable, Merged, Kept, WithOwn, Drop;
    var merged := Merged(box, row, wake, delivered);
    MergedQueues(box, row, wake, delivered);
    SoundFits(box);
    MergedSound(box, row, wake, delivered);
    DistinctWithin(merged, |box.rows| + 1);
    EvictOnce(merged);
    if |merged.rows| > MAX_BRIEFING_ROWS {
      DropQueues(merged, FirstEvictable(merged.rows, merged.dismissed), WithOwn(box.pending, row.id, wake));
    }
  }

  lemma MergedQueues(box: Inbox, row: Row, wake: Option<Wake>, delivered: bool)
    requires Sound(box) && row.Counted()
    ensures var merged := Merged(box, row, wake, delivered);
      && merged.pending == Filter(Kept(merged.rows), WithOwn(box.pending, row.id, wake))
      && |merged.rows| <= |box.rows| + 1
  {
    hide Sound, Merge, Place;
    var placed, merged := Place(box.rows, Reported(row, delivered)), Merged(box, row, wake, delivered);
    var queue := WithOwn(box.pending, row.id, wake);
    RowCount(box, row, delivered);
    EnqueuedFilter(placed, box.pending, row.id, wake);
    forall q | q in queue ensures NotDelivered(placed)(q) == Kept(merged.rows)(q) {
      MergedLookup(box, row, wake, delivered, q.runId);
      QueuedHaveRows(box, q);
    }
    FilterAgree(NotDelivered(placed), Kept(merged.rows), queue);
  }

  lemma DropQueues(merged: Inbox, k: nat, queue: seq<Queued>)
    requires DistinctIds(merged.rows) && k < |merged.rows| && merged.pending == Filter(Kept(merged.rows), queue)
    ensures Drop(merged, k).pending == Filter(Kept(Drop(merged, k).rows), queue)
  {
    hide Kept, NotRun, Filter, Without;
    forall q | q in queue
      ensures Kept(Without(merged.rows, k))(q) == (NotRun(merged.rows[k].id)(q) && Kept(merged.rows)(q)) {
      DropKeeps(merged.rows, k, q);
    }
    FilterTwice(NotRun(merged.rows[k].id), Kept(merged.rows), Kept(Without(merged.rows, k)), queue);
  }

  lemma DropKeeps(rows: seq<Row>, k: nat, q: Queued)
    requires DistinctIds(rows) && k < |rows|
    ensures Kept(Without(rows, k))(q) == (NotRun(rows[k].id)(q) && Kept(rows)(q))
  {
    DropLookup(rows, k, q.runId);
  }

  lemma QueuedHaveRows(box: Inbox, q: Queued)
    requires Sound(box)
    ensures q in box.pending ==> HasRow(box.rows, q.runId)
  {
  }

  lemma DistinctWithin(box: Inbox, bound: nat)
    requires SoundWithin(box, bound)
    ensures DistinctIds(box.rows)
  {
  }

  /** A wake whose run is delivered already might as well be queued before the delivered ones go. */
  lemma EnqueuedFilter(rows: seq<Row>, pending: seq<Queued>, id: string, wake: Option<Wake>)
    ensures Filter(NotDelivered(rows), Enqueue(rows, pending, id, wake))
         == Filter(NotDelivered(rows), WithOwn(pending, id, wake))
  {
    hide IsDelivered, HasRun;
    assert pending + [] == pending;
    if wake.Some? && !HasRun(pending, id) {
      assert (pending + [Queued(id, wake.value)])[..|pending|] == pending;
    }
  }

  lemma {:induction false} FilterTwice<T(!new)>(p: T -> bool, q: T -> bool, both: T -> bool, s: seq<T>)
    requires forall x :: x in s ==> both(x) == (p(x) && q(x))
    ensures Filter(p, Filter(q, s)) == Filter(both, s)
  {
    if s != [] {
      var n := |s| - 1;
      FilterTwice(p, q, both, s[..n]);
      if q(s[n]) {
        var rest := Filter(q, s[..n]);
        assert (rest + [s[n]])[..|rest|] == rest;
      }
    }
  }

  // ---- a legacy snapshot over the bound ----

  /** What a legacy snapshot gives up first: stopped rows, and delivered ones that need no attention or had it. */
  predicate GivesWay(row: Row, dismissed: set<string>) {
    || row.delivery.Failed?
    || (row.delivery.Delivered?
        && (row.collection.Collecting? || (row.collection.Collected? && row.failed == 0) || row.id in dismissed))
  }

  /** A row that is not kept: before any kept one of its kind, and only if it gives way or no kept one does. */
  ghost predicate Given(row: Row, kept: seq<Row>, dismissed: set<string>) {
    forall r :: r in kept ==>
      if GivesWay(row, dismissed) then GivesWay(r, dismissed) ==> KeyBefore(row, r)
      else !GivesWay(r, dismissed) && KeyBefore(row, r)
  }

  function HasItsRow(rows: seq<Row>): Queued -> bool { (q: Queued) => HasRow(rows, q.runId) }

  /** What compaction makes of an ordered snapshot whose wakes and dismissals have rows. */
  ghost predicate Compacted(box: Inbox, after: Inbox) {
    && Sorted(after.rows) && DistinctIds(after.rows)
    && (forall r :: r in after.rows ==> r in box.rows)
    && (forall r :: r in box.rows && r !in after.rows ==> Given(r, after.rows, box.dismissed))
    && after.pending == Filter(HasItsRow(after.rows), box.pending)
    && (forall d :: d in after.dismissed <==> d in box.dismissed && HasRow(after.rows, d))
  }

  ghost predicate Whole(box: Inbox) {
    && Sorted(box.rows) && DistinctIds(box.rows)
    && (forall q :: q in box.pending ==> HasRow(box.rows, q.runId))
    && (forall d :: d in box.dismissed ==> HasRow(box.rows, d))
  }

  /**
    Compaction of a legacy snapshot keeps exactly as many rows as fit, in their
    order: the oldest of those that give way go first, and other rows only when
    none of these is left. Wakes and dismissals go with their rows.
  */
  lemma {:induction false} CompactGives(box: Inbox)
    requires Whole(box)
    ensures |Compact(box).rows| == Min(|box.rows|, 64) && Compacted(box, Compact(box))
    decreases |box.rows|
  {
    hide Whole, Compacted, Drop, FirstYield;
    if |box.rows| <= MAX_BRIEFING_ROWS {
      NothingGiven(box);
    } else {
      var k := FirstYield(box.rows, box.dismissed);
      var j := if k < |box.rows| then k else 0;
      DropWhole(box, j);
      CompactGives(Drop(box, j));
      GivenThrough(box, j, Compact(box));
    }
  }

  lemma NothingGiven(box: Inbox)
    requires Whole(box)
    ensures Compacted(box, box)
  {
    FilterAll(HasItsRow(box.rows), box.pending);
  }

  lemma DropWhole(box: Inbox, j: nat)
    requires Whole(box) && j < |box.rows|
    ensures Whole(Drop(box, j)) && |Drop(box, j).rows| == |box.rows| - 1
  {
    WithoutMembers(box.rows, j);
    forall id ensures HasRow(Without(box.rows, j), id) <==> HasRow(box.rows, id) && id != box.rows[j].id {
      DropLookup(box.rows, j, id);
    }
  }

  lemma GivenThrough(box: Inbox, j: nat, after: Inbox)
    requires Whole(box) && j < |box.rows| && Compacted(Drop(box, j), after)
    requires j == if FirstYield(box.rows, box.dismissed) < |box.rows| then FirstYield(box.rows, box.dismissed) else 0
    ensures Compacted(box, after)
  {
    hide FirstYield, GivesWay, HasItsRow, Filter;
    var mid := Drop(box, j);
    WithoutMembers(box.rows, j);
    FirstGiven(box, j, after.rows);
    forall r | r in box.rows && r !in after.rows ensures Given(r, after.rows, box.dismissed) {
      if r != box.rows[j] {
        StillGiven(box, j, r, after.rows);
      }
    }
    QueueThrough(box, j, after.rows);
    forall d ensures HasRow(after.rows, d) ==> d != box.rows[j].id {
      assert HasRow(after.rows, d) ==> RowOf(after.rows, d) in mid.rows;
    }
  }

  lemma FirstGiven(box: Inbox, j: nat, kept: seq<Row>)
    requires Whole(box) && j < |box.rows| && (forall r :: r in kept ==> r in box.rows && r.id != box.rows[j].id)
    requires j == if FirstYield(box.rows, box.dismissed) < |box.rows| then FirstYield(box.rows, box.dismissed) else 0
    ensures Given(box.rows[j], kept, box.dismissed)
  {
    forall r ensures Yields(r, box.dismissed) <==> GivesWay(r, box.dismissed) {
    }
    hide Yields, GivesWay;
    forall r | r in kept
      ensures if GivesWay(box.rows[j], box.dismissed) then GivesWay(r, box.dismissed) ==> KeyBefore(box.rows[j], r)
              else !GivesWay(r, box.dismissed) && KeyBefore(box.rows[j], r) {
      var i :| 0 <= i < |box.rows| && box.rows[i] == r;
    }
  }

  lemma StillGiven(box: Inbox, j: nat, row: Row, kept: seq<Row>)
    requires Whole(box) && j < |box.rows| && row in box.rows && row != box.rows[j]
    requires forall r :: r in kept ==> r in box.rows && r.id != box.rows[j].id
    requires Given(row, kept, box.dismissed - {box.rows[j].id})
    ensures Given(row, kept, box.dismissed)
  {
    assert row.id != box.rows[j].id by {
      RowFound(box.rows, row);
      RowFound(box.rows, box.rows[j]);
    }
  }

  lemma QueueThrough(box: Inbox, j: nat, kept: seq<Row>)
    requires j < |box.rows| && (forall r :: r in kept ==> r.id != box.rows[j].id)
    ensures Filter(HasItsRow(kept), Drop(box, j).pending) == Filter(HasItsRow(kept), box.pending)
  {
    FilterTwice(HasItsRow(kept), NotRun(box.rows[j].id), HasItsRow(kept), box.pending);
  }

  /** So a file that is accepted opens with its newest rows that still matter, none of them held. */
  lemma OpenedRows(disk: Inbox)
    requires Loadable(disk)
    ensures var sorted := disk.(rows := SortRows(disk.rows));
      exists kept: Inbox ::
        && Compacted(sorted, kept) && |kept.rows| == Min(|disk.rows|, 64)
        && Opened(disk).pending == kept.pending && Opened(disk).dismissed == kept.dismissed
        && Moved(kept.rows, Opened(disk).rows,
                 (r: Row) => r.delivery.InProgress? || r.delivery.Failed?, Pending)
  {
    hide Compacted, Compact, Whole;
    var sorted := disk.(rows := SortRows(disk.rows));
    SortedWhole(disk);
    CompactGives(sorted);
    ResumeOffers(Store(Compact(sorted), Compact(sorted)), true);
  }

  lemma SortedWhole(disk: Inbox)
    requires Loadable(disk)
    ensures Whole(disk.(rows := SortRows(disk.rows)))
  {
    SortRowsSorts(disk.rows);
    SortKeepsLookup(disk.rows);
  }

  /** Opening writes the file if and only if it is over the bound or holds a reserved or stopped row; a file that is
      refused is set aside. */
  lemma OpenWrites(disk: Inbox, lands: bool)
    ensures var after := Open(disk, lands);
      && after.mem == Opened(disk)
      && after.disk ==
           if !Loadable(disk) then EMPTY
           else if lands && (|disk.rows| > 64
                             || exists r :: r in disk.rows && (r.delivery.InProgress? || r.delivery.Failed?))
           then Opened(disk)
           else disk
  {
    hide Loadable, Resumed;
    var sorted := disk.(rows := SortRows(disk.rows));
    ResumeOffers(Store(sorted, sorted), true);
    if exists r :: r in disk.rows && (r.delivery.InProgress? || r.delivery.Failed?) {
      var r :| r in disk.rows && (r.delivery.InProgress? || r.delivery.Failed?);
      assert r in sorted.rows;
      var i :| 0 <= i < |sorted.rows| && sorted.rows[i] == r;
      assert Resumed(sorted).rows[i] != r;
    } else {
      assert Resumed(sorted).rows == sorted.rows;
    }
  }
}
