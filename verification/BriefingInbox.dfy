/**
  The durable briefing inbox (host/service/src/briefings.rs) as values: the
  three collections of one snapshot, what each operation makes of them, and
  the pair of the store's memory and the file it writes.

  `persist` is one atomic write that lands or does nothing, so each operation
  takes the outcome of its write as an argument.
*/
module BriefingInbox {
  import opened Prelude
  import opened BriefingRows

  datatype Inbox = Inbox(rows: seq<Row>, pending: seq<Queued>, dismissed: set<string>)

  const EMPTY: Inbox := Inbox([], [], {})

  // ---- lookups: `rows.iter().find(..)` and `pending.iter().find(..)` ----

  function RowAt(rows: seq<Row>, id: string): (k: nat)
    ensures k <= |rows|
    ensures forall i :: 0 <= i < k ==> rows[i].id != id
    ensures k < |rows| ==> rows[k].id == id
  {
    RowFrom(rows, id, 0)
  }

  function RowFrom(rows: seq<Row>, id: string, from: nat): (k: nat)
    requires from <= |rows|
    ensures from <= k <= |rows|
    ensures forall i :: from <= i < k ==> rows[i].id != id
    ensures k < |rows| ==> rows[k].id == id
    decreases |rows| - from
  {
    if from == |rows| || rows[from].id == id then from else RowFrom(rows, id, from + 1)
  }

  predicate HasRow(rows: seq<Row>, id: string) { RowAt(rows, id) < |rows| }

  function RowOf(rows: seq<Row>, id: string): Row
    requires HasRow(rows, id)
  {
    rows[RowAt(rows, id)]
  }

  predicate IsDelivered(rows: seq<Row>, id: string) {
    HasRow(rows, id) && RowOf(rows, id).delivery.Delivered?
  }

  predicate IsPending(rows: seq<Row>, id: string) {
    HasRow(rows, id) && RowOf(rows, id).delivery.Pending?
  }

  function RunAt(pending: seq<Queued>, runId: string): (k: nat)
    ensures k <= |pending|
    ensures forall i :: 0 <= i < k ==> pending[i].runId != runId
    ensures k < |pending| ==> pending[k].runId == runId
  {
    RunFrom(pending, runId, 0)
  }

  function RunFrom(pending: seq<Queued>, runId: string, from: nat): (k: nat)
    requires from <= |pending|
    ensures from <= k <= |pending|
    ensures forall i :: from <= i < k ==> pending[i].runId != runId
    ensures k < |pending| ==> pending[k].runId == runId
    decreases |pending| - from
  {
    if from == |pending| || pending[from].runId == runId then from else RunFrom(pending, runId, from + 1)
  }

  predicate HasRun(pending: seq<Queued>, runId: string) { RunAt(pending, runId) < |pending| }

  function EventAt(pending: seq<Queued>, event: string): (k: nat)
    ensures k <= |pending|
    ensures forall i :: 0 <= i < k ==> pending[i].wake.eventId != event
    ensures k < |pending| ==> pending[k].wake.eventId == event
  {
    EventFrom(pending, event, 0)
  }

  function EventFrom(pending: seq<Queued>, event: string, from: nat): (k: nat)
    requires from <= |pending|
    ensures from <= k <= |pending|
    ensures forall i :: from <= i < k ==> pending[i].wake.eventId != event
    ensures k < |pending| ==> pending[k].wake.eventId == event
    decreases |pending| - from
  {
    if from == |pending| || pending[from].wake.eventId == event then from else EventFrom(pending, event, from + 1)
  }

  predicate HasEvent(pending: seq<Queued>, event: string) { EventAt(pending, event) < |pending| }

  /** `run_for_event`. */
  function RunFor(pending: seq<Queued>, event: string): string
    requires HasEvent(pending, event)
  {
    pending[EventAt(pending, event)].runId
  }

  /** `logical_run_for_event`. */
  function LogicalFor(box: Inbox, event: string): Option<(string, string)> {
    if HasEvent(box.pending, event) && HasRow(box.rows, RunFor(box.pending, event))
    then Some(RowOf(box.rows, RunFor(box.pending, event)).Logical())
    else None
  }

  /** `next`: the first queued wake whose row is pending, as its position. */
  function NextAt(box: Inbox): (k: nat)
    ensures k <= |box.pending|
    ensures forall i :: 0 <= i < k ==> !IsPending(box.rows, box.pending[i].runId)
    ensures k < |box.pending| ==> IsPending(box.rows, box.pending[k].runId)
  {
    NextFrom(box.rows, box.pending, 0)
  }

  function NextFrom(rows: seq<Row>, pending: seq<Queued>, from: nat): (k: nat)
    requires from <= |pending|
    ensures from <= k <= |pending|
    ensures forall i :: from <= i < k ==> !IsPending(rows, pending[i].runId)
    ensures k < |pending| ==> IsPending(rows, pending[k].runId)
    decreases |pending| - from
  {
    if from == |pending| || IsPending(rows, pending[from].runId) then from
    else NextFrom(rows, pending, from + 1)
  }

  // ---- upsert ----

  /** How a later report of the same generation moves a retained row. */
  function Merge(current: Row, incoming: Row): Row {
    var forward := current.collection.Collecting? || current.collection == incoming.collection;
    var merged :=
      if !forward then current
      else
        var total := Max(current.total, incoming.total);
        var completed := Min(Max(current.completed, incoming.completed), total);
        var failed := Min(Max(current.failed, incoming.failed), completed);
        var summary :=
          if !current.delivery.Failed? || incoming.delivery.Delivered? then incoming.summary
          else current.summary;
        current.(collection := incoming.collection, completed := completed, total := total,
                 failed := failed, summary := summary);
    if incoming.delivery.Delivered? then merged.(delivery := Delivered) else merged
  }

  function Place(rows: seq<Row>, incoming: Row): seq<Row> {
    var k := RowAt(rows, incoming.id);
    if k < |rows| then rows[k := Merge(rows[k], incoming)] else rows + [incoming]
  }

  /** Whether a row may yield its slot to newer ingress. */
  predicate Evictable(row: Row, dismissed: set<string>) {
    row.delivery.Failed?
    || (row.delivery.Delivered? && !row.Active()
        && (!row.RequiresAttention() || row.id in dismissed))
  }

  function FirstEvictable(rows: seq<Row>, dismissed: set<string>): (k: nat)
    ensures k <= |rows|
    ensures forall i :: 0 <= i < k ==> !Evictable(rows[i], dismissed)
    ensures k < |rows| ==> Evictable(rows[k], dismissed)
  {
    if rows == [] then 0
    else
      var k := FirstEvictable(rows[..|rows| - 1], dismissed);
      if k < |rows| - 1 || Evictable(rows[|rows| - 1], dismissed) then k else |rows|
  }

  function NotRun(id: string): Queued -> bool { (q: Queued) => q.runId != id }

  function NotDelivered(rows: seq<Row>): Queued -> bool {
    (q: Queued) => !IsDelivered(rows, q.runId)
  }

  /** Removes one row with its wake and its dismissal. */
  function Drop(box: Inbox, k: nat): Inbox
    requires k < |box.rows|
  {
    var id := box.rows[k].id;
    Inbox(Without(box.rows, k), Filter(NotRun(id), box.pending), box.dismissed - {id})
  }

  function Evict(box: Inbox): Option<Inbox>
    decreases |box.rows|
  {
    if |box.rows| <= MAX_BRIEFING_ROWS then Some(box)
    else
      var k := FirstEvictable(box.rows, box.dismissed);
      if k == |box.rows| then None else Evict(Drop(box, k))
  }

  datatype Plan = Malformed | Full | Target(box: Inbox)

  function Reported(row: Row, delivered: bool): Row {
    row.(delivery := if delivered then Delivered else Pending)
  }

  predicate EventTaken(pending: seq<Queued>, id: string, event: string) {
    exists q :: q in pending && q.wake.eventId == event && q.runId != id
  }

  function Enqueue(rows: seq<Row>, pending: seq<Queued>, id: string, wake: Option<Wake>): seq<Queued> {
    if wake.Some? && !IsDelivered(rows, id) && !HasRun(pending, id)
    then pending + [Queued(id, wake.value)]
    else pending
  }

  /** The snapshot after one report is merged but before any row yields. */
  function Merged(box: Inbox, row: Row, wake: Option<Wake>, delivered: bool): Inbox {
    var incoming := Reported(row, delivered);
    var placed := Place(box.rows, incoming);
    var queue := Enqueue(placed, box.pending, row.id, wake);
    Inbox(SortRows(placed), Filter(NotDelivered(placed), queue), box.dismissed)
  }

  /** The snapshot one `upsert` wants to store, or why it stores nothing. */
  function UpsertPlan(box: Inbox, row: Row, wake: Option<Wake>, delivered: bool): Plan {
    if wake.Some? && EventTaken(box.pending, row.id, wake.value.eventId) then Malformed
    else
      match Evict(Merged(box, row, wake, delivered))
      case None => Full
      case Some(kept) => Target(kept)
  }

  // ---- the other operations ----

  function Deliver(rows: seq<Row>, id: string, delivery: Delivery): seq<Row> {
    var k := RowAt(rows, id);
    if k < |rows| then rows[k := rows[k].(delivery := delivery)] else rows
  }

  /** `in_progress` and `retry`: one queued event's row changes hands. */
  function Reassign(box: Inbox, event: string, delivery: Delivery): Inbox {
    if HasEvent(box.pending, event)
    then box.(rows := Deliver(box.rows, RunFor(box.pending, event), delivery))
    else box
  }

  function Acked(box: Inbox, event: string): Inbox
    requires HasEvent(box.pending, event)
  {
    Inbox(Deliver(box.rows, RunFor(box.pending, event), Delivered),
          Without(box.pending, EventAt(box.pending, event)), box.dismissed)
  }

  /** The runs whose queued event already has its answer in the replay. */
  function Answered(pending: seq<Queued>, replay: set<string>): set<string> {
    set q | q in pending && q.wake.eventId in replay :: q.runId
  }

  function NotAnswered(replay: set<string>): Queued -> bool {
    (q: Queued) => q.wake.eventId !in replay
  }

  function IsAnswered(replay: set<string>): Queued -> bool {
    (q: Queued) => q.wake.eventId in replay
  }

  function MapDelivery(rows: seq<Row>, ids: set<string>, to: Delivery): (r: seq<Row>)
    ensures |r| == |rows|
    ensures forall i :: 0 <= i < |rows| ==>
      r[i] == if rows[i].id in ids && rows[i].delivery.Moves(to) then rows[i].(delivery := to) else rows[i]
  {
    if rows == [] then []
    else
      var last := rows[|rows| - 1];
      MapDelivery(rows[..|rows| - 1], ids, to)
      + [if last.id in ids && last.delivery.Moves(to) then last.(delivery := to) else last]
  }

  /** `recover_delivered`. */
  function Recovered(box: Inbox, replay: set<string>): Inbox {
    Inbox(MapDelivery(box.rows, Answered(box.pending, replay), Delivered),
          Filter(NotAnswered(replay), box.pending), box.dismissed)
  }

  function QueuedRuns(pending: seq<Queued>): set<string> {
    set q | q in pending :: q.runId
  }

  /** `queued_delivery_failed`: the open circuit stops every queued row. */
  function StoppedRows(box: Inbox): Inbox {
    box.(rows := MapDelivery(box.rows, QueuedRuns(box.pending), Delivery.Failed))
  }

  function RowIds(rows: seq<Row>): set<string> {
    set r | r in rows :: r.id
  }

  /** `resume_stopped`, and what `open` does to rows a dead process held. */
  function Resumed(box: Inbox): Inbox {
    box.(rows := MapDelivery(box.rows, RowIds(box.rows), Pending))
  }

  // ---- load ----

  const LEGACY_MAX_BRIEFING_ROWS: nat := 128

  /** The checks `load` makes of a parsed snapshot. */
  ghost predicate Loadable(box: Inbox) {
    && |box.rows| <= LEGACY_MAX_BRIEFING_ROWS
    && |box.pending| <= LEGACY_MAX_BRIEFING_ROWS
    && |box.dismissed| <= LEGACY_MAX_BRIEFING_ROWS
    && (forall r :: r in box.rows ==> r.Counted())
    && DistinctIds(box.rows)
    && (forall q :: q in box.pending ==> HasRow(box.rows, q.runId) && !IsDelivered(box.rows, q.runId))
    && DistinctWakes(box.pending)
    && (forall d :: d in box.dismissed ==> HasRow(box.rows, d) && RowOf(box.rows, d).Dismissible())
  }

  ghost predicate DistinctWakes(pending: seq<Queued>) {
    forall i, j :: 0 <= i < j < |pending| ==>
      pending[i].runId != pending[j].runId && pending[i].wake.eventId != pending[j].wake.eventId
  }

  /** Rows a legacy snapshot gives up first when it is over the bound. */
  predicate Yields(row: Row, dismissed: set<string>) {
    row.delivery.Failed?
    || (row.delivery.Delivered? && (!row.RequiresAttention() || row.id in dismissed))
  }

  function FirstYield(rows: seq<Row>, dismissed: set<string>): (k: nat)
    ensures k <= |rows|
    ensures forall i :: 0 <= i < k ==> !Yields(rows[i], dismissed)
    ensures k < |rows| ==> Yields(rows[k], dismissed)
  {
    if rows == [] then 0
    else
      var k := FirstYield(rows[..|rows| - 1], dismissed);
      if k < |rows| - 1 || Yields(rows[|rows| - 1], dismissed) then k else |rows|
  }

  function Compact(box: Inbox): Inbox
    decreases |box.rows|
  {
    if |box.rows| <= MAX_BRIEFING_ROWS then box
    else
      var k := FirstYield(box.rows, box.dismissed);
      Compact(Drop(box, if k < |box.rows| then k else 0))
  }

  /** What a process that opens this file holds in memory. */
  ghost function Opened(disk: Inbox): Inbox {
    if Loadable(disk) then Resumed(Compact(disk.(rows := SortRows(disk.rows)))) else EMPTY
  }

  // ---- the store: what is in memory and what is on disk ----

  datatype Store = Store(mem: Inbox, disk: Inbox)

  /** Clone, change, persist, and roll back if the write failed. */
  function Save(s: Store, next: Inbox, lands: bool): Store {
    if lands then Store(next, next) else s
  }

  datatype Upserted = Inserted | Updated | Deduplicated | AlreadyDelivered | WasMalformed | WasFull | NotStored

  predicate Refused(outcome: Upserted) {
    outcome.WasMalformed? || outcome.WasFull? || outcome.NotStored?
  }

  /** What storing one plan comes to. */
  function Settled(s: Store, plan: Plan, id: string, lands: bool): Upserted {
    match plan
    case Malformed => WasMalformed
    case Full => WasFull
    case Target(next) =>
      if next == s.mem then if IsDelivered(s.mem.rows, id) then AlreadyDelivered else Deduplicated
      else if !lands then NotStored
      else if HasRow(s.mem.rows, id) then Updated
      else Inserted
  }

  function UpsertOutcome(s: Store, row: Row, wake: Option<Wake>, delivered: bool, lands: bool): Upserted {
    Settled(s, UpsertPlan(s.mem, row, wake, delivered), row.id, lands)
  }

  function Upsert(s: Store, row: Row, wake: Option<Wake>, delivered: bool, lands: bool): Store {
    StorePlan(s, UpsertPlan(s.mem, row, wake, delivered), lands)
  }

  function StorePlan(s: Store, plan: Plan, lands: bool): Store {
    if plan.Target? && plan.box != s.mem then Save(s, plan.box, lands) else s
  }

  datatype Reply = Found(count: nat) | WriteFailed

  /** Answers the count a batch changed; an empty batch writes nothing. */
  function Batch(next: Inbox, changed: nat, s: Store, lands: bool): (Store, Reply) {
    if changed == 0 then (s, Found(0))
    else (Save(s, next, lands), if lands then Found(changed) else WriteFailed)
  }

  function CountIn(rows: seq<Row>, ids: set<string>, to: Delivery): (n: nat)
    ensures n == 0 <==> forall r :: r in rows ==> !(r.id in ids && r.delivery.Moves(to))
  {
    if rows == [] then 0
    else
      var last := rows[|rows| - 1];
      CountIn(rows[..|rows| - 1], ids, to)
      + if last.id in ids && last.delivery.Moves(to) then 1 else 0
  }

  function RecoverDelivered(s: Store, replay: set<string>, lands: bool): (Store, Reply) {
    Batch(Recovered(s.mem, replay), |Filter(IsAnswered(replay), s.mem.pending)|, s, lands)
  }

  function QueuedDeliveryFailed(s: Store, lands: bool): (Store, Reply) {
    Batch(StoppedRows(s.mem), CountIn(s.mem.rows, QueuedRuns(s.mem.pending), Delivery.Failed), s, lands)
  }

  function ResumeStopped(s: Store, lands: bool): (Store, Reply) {
    Batch(Resumed(s.mem), CountIn(s.mem.rows, RowIds(s.mem.rows), Pending), s, lands)
  }

  /** `in_progress` and `retry`: an event that is not queued is no error. */
  function ReassignStore(s: Store, event: string, delivery: Delivery, lands: bool): (Store, bool) {
    if !HasEvent(s.mem.pending, event) then (s, true)
    else (Save(s, Reassign(s.mem, event, delivery), lands), lands)
  }

  function Acknowledge(s: Store, event: string, lands: bool): (Store, Reply) {
    if !HasEvent(s.mem.pending, event) then (s, Found(0))
    else (Save(s, Acked(s.mem, event), lands), if lands then Found(1) else WriteFailed)
  }

  datatype Dismissal = Dismissed | AlreadyDismissed | Unavailable | NotDismissible | DismissalNotStored

  function DismissOutcome(s: Store, id: string, lands: bool): Dismissal {
    if !HasRow(s.mem.rows, id) then Unavailable
    else if !RowOf(s.mem.rows, id).Dismissible() then NotDismissible
    else if id in s.mem.dismissed then AlreadyDismissed
    else if lands then Dismissed
    else DismissalNotStored
  }

  function Dismiss(s: Store, id: string, lands: bool): Store {
    if DismissOutcome(s, id, lands).Dismissed?
    then Save(s, s.mem.(dismissed := s.mem.dismissed + {id}), lands)
    else s
  }

  /** `open`: a legacy compaction or a reset row is written back, if it can be. */
  ghost function Open(disk: Inbox, lands: bool): Store {
    if !Loadable(disk) then Store(EMPTY, EMPTY)
    else
      var compacted := Compact(disk.(rows := SortRows(disk.rows)));
      var changed := |disk.rows| > MAX_BRIEFING_ROWS || Resumed(compacted) != compacted;
      Store(Opened(disk), if changed && lands then Opened(disk) else disk)
  }
}
