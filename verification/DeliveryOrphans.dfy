/** Why the circuit bound excludes orphans. If a legacy report calls the reserved row delivered between its dispatch
    and its start, the breaker never learns that the run started a turn, so it cannot recognise a repetition: for
    every n, a service that starts with empty files can start n turns of one run in one sequence, circuit closed. */
module DeliveryOrphans {
  import opened Prelude
  import opened BriefingRows
  import opened BriefingInbox
  import opened BriefingInboxLaws
  import opened BriefingUpsertLaws
  import opened ConversationRing
  import ConversationLaws
  import opened DeliveryProtocol
  import opened DeliverySlot
  import opened DeliveryHeld
  import opened DeliveryStores
  import DeliveryCarries
  import opened DeliveryRuns
  import opened DeliveryCircuit

  /** A row with nothing left to say: collected in full and delivered. It yields to any newer run. */
  predicate Spent(row: Row) { row.delivery.Delivered? && row.collection.Collected? && row.failed == 0 }

  /** An idle service with nothing queued, whose retained rows are all spent. */
  ghost predicate Resting(p: Protocol) {
    && Live(p) && p.inbox.mem.pending == [] && (forall r :: r in p.inbox.mem.rows ==> Spent(r))
    && p.lifecycle.Idle? && p.surface.None? && p.active.None? && p.agent && !p.circuit
  }

  /** A report of a generation that was collected in full. */
  predicate Complete(row: Row) { row.Counted() && row.collection.Collected? && row.failed == 0 }

  /** One generation reported, dispatched, reported delivered, started, settled. */
  function OrphanTurn(row: Row, wake: Wake): seq<Step> {
    [DoIngress(row.(delivery := Pending), Some(wake), true, true),
     DoDispatch(true, true, true, true),
     DoIngress(row.(delivery := Delivered), None, true, true),
     DoStarted(wake.eventId),
     DoSettle(wake.eventId, true, true, true)]
  }

  /** One generation is queued or reserved; every other row is spent. */
  ghost predicate Only(box: Inbox, row: Row, wake: Wake, delivery: Delivery) {
    && Sound(box) && box.pending == [Queued(row.id, wake)]
    && HasRow(box.rows, row.id) && RowOf(box.rows, row.id) == row.(delivery := delivery)
    && (forall r :: r in box.rows ==> r.id == row.id || Spent(r))
  }

  /** A report of a new run among spent rows queues exactly its wake. */
  lemma FirstReport(box: Inbox, row: Row, wake: Wake)
    requires Sound(box) && Complete(row) && box.pending == [] && !HasRow(box.rows, row.id)
    requires forall r :: r in box.rows ==> Spent(r)
    ensures var plan := UpsertPlan(box, row, Some(wake), false);
      plan.Target? && plan.box != box && Only(plan.box, row, wake, Pending)
  {
    hide Sound, Spent, Merged, Evict, Only;
    var merged := Merged(box, row, Some(wake), false);
    ReportMerged(box, row, wake);
    UpsertSound(box, row, Some(wake), false);
    MergedSound(box, row, Some(wake), false);
    Fits(box, merged);
    EvictOnce(merged);
    if |merged.rows| > MAX_BRIEFING_ROWS {
      SpentEvicted(merged, row, wake);
    }
    OnlyIs(UpsertPlan(box, row, Some(wake), false).box, row, wake);
  }

  lemma OnlyIs(box: Inbox, row: Row, wake: Wake)
    ensures Only(box, row, wake, Pending) <==>
      && Sound(box) && box.pending == [Queued(row.id, wake)]
      && HasRow(box.rows, row.id) && RowOf(box.rows, row.id) == row.(delivery := Pending)
      && (forall r :: r in box.rows ==> r.id == row.id || Spent(r))
  {
    hide Sound, Spent;
  }

  /** Among spent rows the report is not the one that yields. */
  lemma SpentEvicted(merged: Inbox, row: Row, wake: Wake)
    requires Shaped(merged, MAX_BRIEFING_ROWS + 1) && DistinctIds(merged.rows) && |merged.rows| > 1
    requires merged.pending == [Queued(row.id, wake)]
    requires HasRow(merged.rows, row.id) && RowOf(merged.rows, row.id).delivery.Pending?
    requires forall r :: r in merged.rows ==> r.id == row.id || Spent(r)
    ensures var k := FirstEvictable(merged.rows, merged.dismissed);
      k < |merged.rows| &&
      var next := Drop(merged, k);
      && next.pending == merged.pending && HasRow(next.rows, row.id)
      && RowOf(next.rows, row.id) == RowOf(merged.rows, row.id)
      && (forall r :: r in next.rows ==> r.id == row.id || Spent(r))
  {
    hide Shaped, Spent;
    var k := FirstEvictable(merged.rows, merged.dismissed);
    SomeYields(merged, row);
    SpentYields(merged, row, k);
    EvictedLookup(merged, k, row.id);
    WithoutMembers(merged.rows, k);
    OtherWakeStays(Queued(row.id, wake), merged.rows[k].id);
  }

  lemma Fits(box: Inbox, merged: Inbox)
    requires Sound(box) && SoundWithin(merged, |box.rows| + 1)
    ensures Shaped(merged, MAX_BRIEFING_ROWS + 1) && DistinctIds(merged.rows) && |merged.rows| <= MAX_BRIEFING_ROWS + 1
  {
  }

  lemma ReportMerged(box: Inbox, row: Row, wake: Wake)
    requires Sound(box) && Complete(row) && box.pending == [] && !HasRow(box.rows, row.id)
    requires forall r :: r in box.rows ==> Spent(r)
    ensures var merged := Merged(box, row, Some(wake), false);
      && merged.pending == [Queued(row.id, wake)] && |merged.rows| == |box.rows| + 1
      && HasRow(merged.rows, row.id) && RowOf(merged.rows, row.id) == row.(delivery := Pending)
      && (forall r :: r in merged.rows ==> r.id == row.id || Spent(r))
  {
    hide Spent;
    MergedLookup(box, row, Some(wake), false, row.id);
    RowCount(box, row, false);
    var placed := Place(box.rows, Reported(row, false));
    var queue := [Queued(row.id, wake)];
    assert forall q :: q in queue ==> NotDelivered(placed)(q);
    FilterAll(NotDelivered(placed), queue);
  }

  /** In an inbox that is over the bound some row is spent. */
  lemma SomeYields(merged: Inbox, row: Row)
    requires DistinctIds(merged.rows) && |merged.rows| > 1
    requires forall r :: r in merged.rows ==> r.id == row.id || Spent(r)
    ensures FirstEvictable(merged.rows, merged.dismissed) < |merged.rows|
  {
    var r := if merged.rows[0].id == row.id then merged.rows[1] else merged.rows[0];
    assert r in merged.rows && Evictable(r, merged.dismissed);
  }

  lemma SpentYields(merged: Inbox, row: Row, k: nat)
    requires k < |merged.rows| && Evictable(merged.rows[k], merged.dismissed) && DistinctIds(merged.rows)
    requires HasRow(merged.rows, row.id) && RowOf(merged.rows, row.id).delivery.Pending?
    ensures merged.rows[k].id != row.id
  {
    RowFound(merged.rows, merged.rows[k]);
  }

  lemma OtherWakeStays(q: Queued, id: string)
    requires q.runId != id
    ensures Filter(NotRun(id), [q]) == [q]
  {
    FilterAll(NotRun(id), [q]);
  }

  /** A legacy report that the run was delivered takes its wake off the queue and spends its row. */
  lemma SecondReport(box: Inbox, row: Row, wake: Wake)
    requires Complete(row) && Only(box, row, wake, InProgress)
    ensures var plan := UpsertPlan(box, row, None, true);
      && plan.Target? && plan.box.pending == [] && (forall r :: r in plan.box.rows ==> Spent(r))
  {
    var merged := Merged(box, row, None, true);
    UpsertSound(box, row, None, true);
    EvictOnce(merged);
    RowCount(box, row, true);
    assert !NotDelivered(Place(box.rows, Reported(row, true)))(box.pending[0]) by {
      MergedLookup(box, row, None, true, row.id);
    }
    MergedSound(box, row, None, true);
    forall r | r in merged.rows ensures Spent(r) {
      RowFound(merged.rows, r);
      MergedLookup(box, row, None, true, r.id);
    }
  }

  lemma OnlyReported(p: Protocol, row: Row, wake: Wake)
    requires Resting(p) && Complete(row) && row.delivery.Pending? && !HasRow(p.inbox.mem.rows, row.id)
    requires wake.eventId !in Deliveries(p.replay.ring.entries)
    ensures var q := Ingress(p, row, Some(wake), true, true);
      q == p.(inbox := q.inbox) && Only(q.inbox.mem, row, wake, Pending)
  {
    hide UpsertPlan, Sound, Spent;
    FirstReport(p.inbox.mem, row, wake);
  }

  lemma OnlyDispatched(p: Protocol, row: Row, wake: Wake)
    requires MayDispatch(p) && Only(p.inbox.mem, row, wake, Pending) && p.runs == {}
    ensures var q := Dispatch(p, true, true, true, true);
      && q == p.(inbox := q.inbox, active := Some(wake.eventId), started := false)
      && Only(q.inbox.mem, row, wake, InProgress) && ActiveRun(q) == Some(row.Logical())
      && !EndsSequence(p, DoDispatch(true, true, true, true), q)
  {
    hide Sound;
    var box := p.inbox.mem;
    assert RunFor(box.pending, wake.eventId) == row.id;
    assert NextAt(box) == 0 && box.pending[0] in box.pending;
    ReassignSound(box, wake.eventId, InProgress);
    SameKeysKeep(box.rows, Reassign(box, wake.eventId, InProgress).rows);
    forall r | r in Reassign(box, wake.eventId, InProgress).rows ensures r.id == row.id || Spent(r) {
      assert r in box.rows || r.id == row.id;
    }
  }

  /** The report that makes an orphan of the active event. */
  lemma LateReport(q: Protocol, row: Row, wake: Wake)
    requires Complete(row) && row.delivery.Delivered? && Only(q.inbox.mem, row, wake, InProgress)
    requires q.active == Some(wake.eventId) && !q.circuit
    ensures var r := Ingress(q, row, None, true, true);
      && r == q.(inbox := r.inbox)
      && r.inbox.mem.pending == [] && (forall x :: x in r.inbox.mem.rows ==> Spent(x))
    ensures Orphaning(q, DoIngress(row, None, true, true))
  {
    hide UpsertPlan, Sound, Spent;
    SecondReport(q.inbox.mem, row, wake);
  }

  /** An orphan settles without a trace. */
  lemma SettledGone(t: Protocol, event: string)
    requires t.inbox.mem.pending == [] && t.active == Some(event)
    requires event !in Deliveries(t.replay.ring.entries)
    ensures Settle(t, event, true, true, true).next == t.(active := None, started := false)
  {
    hide RecoverDelivered, QueuedDeliveryFailed;
    ConversationLaws.DeliveryFound(t.replay.ring.entries, event);
  }

  /** The turn of an orphan is counted by the service and not by the breaker. */
  lemma StartedGone(r: Protocol, event: string)
    requires r.inbox.mem.pending == [] && r.active == Some(event) && !r.started
    ensures Started(r, event) == r.(started := true, consecutive := r.consecutive + 1)
  {
  }

  lemma FiveSteps(p: Protocol, t: Tally, steps: seq<Step>)
    requires |steps| == 5
    ensures var p1 := DeliveryProtocol.Perform(p, steps[0]).next;
      var p2 := DeliveryProtocol.Perform(p1, steps[1]).next;
      var p3 := DeliveryProtocol.Perform(p2, steps[2]).next;
      var p4 := DeliveryProtocol.Perform(p3, steps[3]).next;
      var p5 := DeliveryProtocol.Perform(p4, steps[4]).next;
      var t2 := Tallied(Tallied(t, p, steps[0], p1), p1, steps[1], p2);
      Count(p, t, steps) == (p5, Tallied(Tallied(Tallied(t2, p2, steps[2], p3), p3, steps[3], p4), p4, steps[4], p5))
  {
    hide DeliveryProtocol.Perform, Tallied, Count;
    var p1 := DeliveryProtocol.Perform(p, steps[0]).next;
    var p2 := DeliveryProtocol.Perform(p1, steps[1]).next;
    var p3 := DeliveryProtocol.Perform(p2, steps[2]).next;
    var p4 := DeliveryProtocol.Perform(p3, steps[3]).next;
    var t1 := Tallied(t, p, steps[0], p1);
    var t2 := Tallied(t1, p1, steps[1], p2);
    var t3 := Tallied(t2, p2, steps[2], p3);
    var t4 := Tallied(t3, p3, steps[3], p4);
    OneStep(p, t, steps, 0);
    OneStep(p1, t1, steps, 1);
    OneStep(p2, t2, steps, 2);
    OneStep(p3, t3, steps, 3);
    OneStep(p4, t4, steps, 4);
    assert steps[0..] == steps;
  }

  lemma OneStep(p: Protocol, t: Tally, steps: seq<Step>, i: nat)
    requires i < |steps|
    ensures var next := DeliveryProtocol.Perform(p, steps[i]).next;
      var u := Tallied(t, p, steps[i], next);
      && Count(p, t, steps[i..]) == Count(next, u, steps[i + 1..])
      && (i + 1 == |steps| ==> Count(p, t, steps[i..]) == (next, u))
  {
    hide DeliveryProtocol.Perform, Tallied;
    assert steps[i..][0] == steps[i] && steps[i..][1..] == steps[i + 1..];
  }

  /** A tally between two turns. */
  predicate Between(t: Tally) { t.granted.None? && !t.orphaned }

  /** How the five steps of an orphan turn are counted. */
  lemma FiveTallied(p: Protocol, p1: Protocol, p2: Protocol, p3: Protocol, t: Tally, row: Row, wake: Wake)
    requires Between(t) && p.consecutive == |t.starts| && t.orphans <= t.starts && p.active.None?
    requires p1 == p.(inbox := p1.inbox)
    requires p2 == p1.(inbox := p2.inbox, active := Some(wake.eventId), started := false)
    requires ActiveRun(p2) == Some(row.Logical()) && !EndsSequence(p1, OrphanTurn(row, wake)[1], p2)
    requires p3 == p2.(inbox := p3.inbox) && Orphaning(p2, OrphanTurn(row, wake)[2])
    ensures var steps := OrphanTurn(row, wake);
      var p4 := p3.(started := true, consecutive := p3.consecutive + 1);
      var p5 := p4.(active := None, started := false);
      var t2 := Tallied(Tallied(t, p, steps[0], p1), p1, steps[1], p2);
      var turn := multiset{row.Logical()};
      Tallied(Tallied(Tallied(t2, p2, steps[2], p3), p3, steps[3], p4), p4, steps[4], p5)
      == Tally(t.starts + turn, t.orphans + turn, None, false)
  {
    hide ActiveRun, Tallied;
    var steps := OrphanTurn(row, wake);
    var turn := multiset{row.Logical()};
    var p4 := p3.(started := true, consecutive := p3.consecutive + 1);
    var p5 := p4.(active := None, started := false);
    var granted := t.(granted := Some(row.Logical()));
    var orphan := granted.(orphaned := true);
    NotOrphaning(p, steps[0]);
    NotOrphaning(p1, steps[1]);
    assert Tallied(t, p, steps[0], p1) == t by { QuietTally(t, p, steps[0], p1); }
    assert Tallied(t, p1, steps[1], p2) == granted by { GrantTally(t, p1, steps[1], p2, row.Logical()); }
    assert Tallied(granted, p2, steps[2], p3) == orphan by { OrphanTally(granted, p2, steps[2], p3); }
    StartTally(orphan, p3, steps[3], p4);
    FreeTally(orphan.(starts := t.starts + turn, orphans := t.orphans + turn), p4, steps[4], p5);
  }

  lemma QuietTally(t: Tally, p: Protocol, step: Step, next: Protocol)
    requires Between(t) && p.active.None? && next.active.None? && !EndsSequence(p, step, next)
    ensures Tallied(t, p, step, next) == t
  {
    hide ActiveRun, Orphaning, EndsSequence;
  }

  lemma GrantTally(t: Tally, p: Protocol, step: Step, next: Protocol, run: (string, string))
    requires Between(t) && p.active.None? && next.active.Some? && !EndsSequence(p, step, next)
    requires ActiveRun(next) == Some(run)
    ensures Tallied(t, p, step, next) == t.(granted := Some(run))
  {
    hide ActiveRun, Orphaning, EndsSequence;
  }

  lemma OrphanTally(t: Tally, p: Protocol, step: Step, next: Protocol)
    requires p.active.Some? && next.active == p.active && Orphaning(p, step) && step.DoIngress?
    ensures Tallied(t, p, step, next) == t.(orphaned := true)
  {
    hide ActiveRun, Orphaning;
  }

  lemma StartTally(t: Tally, p: Protocol, step: Step, next: Protocol)
    requires p.active.Some? && next.active == p.active && t.orphaned && t.granted.Some?
    requires step.DoStarted? && p.active == Some(step.event) && !p.started
    ensures var turn := multiset{t.granted.value};
      Tallied(t, p, step, next) == t.(starts := t.starts + turn, orphans := t.orphans + turn)
  {
    hide ActiveRun, Orphaning;
  }

  lemma FreeTally(t: Tally, p: Protocol, step: Step, next: Protocol)
    requires next.active.None? && step.DoSettle?
    ensures Tallied(t, p, step, next) == t.(granted := None, orphaned := false)
  {
    hide ActiveRun, Orphaning;
  }

  lemma NotOrphaning(p: Protocol, step: Step)
    requires p.active.None?
    ensures !Orphaning(p, step)
  {
  }

  /** One orphan round: a turn of that run more, no run known to the breaker, and the service at rest again. */
  lemma OrphanRound(p: Protocol, t: Tally, row: Row, wake: Wake)
    requires Resting(p) && p.runs == {} && Between(t) && p.consecutive == |t.starts| && t.orphans <= t.starts
    requires Complete(row) && !HasRow(p.inbox.mem.rows, row.id)
    requires wake.eventId !in Deliveries(p.replay.ring.entries)
    ensures var (s, u) := Count(p, t, OrphanTurn(row, wake));
      var turn := multiset{row.Logical()};
      && Resting(s) && s.runs == {} && s.consecutive == p.consecutive + 1 && s.replay == p.replay
      && u == Tally(t.starts + turn, t.orphans + turn, None, false)
      && (forall id :: HasRow(s.inbox.mem.rows, id) ==> HasRow(p.inbox.mem.rows, id) || id == row.id)
  {
    hide Ingress, Dispatch, Settle, FilesSound, Sound, Started, Count, SlotSound, Tallied, Spent, ActiveRun, Orphaning;
    var steps := OrphanTurn(row, wake);
    var p1 := Ingress(p, row.(delivery := Pending), Some(wake), true, true);
    OnlyReported(p, row.(delivery := Pending), wake);
    var p2 := Dispatch(p1, true, true, true, true);
    OnlyDispatched(p1, row.(delivery := Pending), wake);
    var p3 := Ingress(p2, row.(delivery := Delivered), None, true, true);
    LateReport(p2, row.(delivery := Delivered), wake);
    StartedGone(p3, wake.eventId);
    SettledGone(Started(p3, wake.eventId), wake.eventId);
    FiveSteps(p, t, steps);
    FiveTallied(p, p1, p2, p3, t, row, wake);
    CountLive(p, t, steps);
    CountRows(p, t, steps, row.id);
  }

  lemma {:induction false} CountLive(p: Protocol, t: Tally, steps: seq<Step>)
    requires Live(p) && forall s :: s in steps ==> Admissible(s)
    ensures Live(Count(p, t, steps).0)
    decreases |steps|
  {
    hide Live, DeliveryProtocol.Perform, Tallied;
    if steps != [] {
      var next := DeliveryProtocol.Perform(p, steps[0]).next;
      StepLive(p, steps[0]);
      CountLive(next, Tallied(t, p, steps[0], next), steps[1..]);
    }
  }

  /** Steps that report one run start to retain no other. */
  lemma {:induction false} CountRows(p: Protocol, t: Tally, steps: seq<Step>, id: string)
    requires Live(p)
    requires forall s :: s in steps ==> Admissible(s) && (s.DoIngress? ==> s.row.id == id)
    ensures forall other :: HasRow(Count(p, t, steps).0.inbox.mem.rows, other) ==>
      HasRow(p.inbox.mem.rows, other) || other == id
    decreases |steps|
  {
    hide DeliveryProtocol.Perform, SlotSane, FilesSound, Tallied;
    if steps != [] {
      var next := DeliveryProtocol.Perform(p, steps[0]).next;
      StepLive(p, steps[0]);
      DeliveryCarries.StepCarries(p, steps[0]);
      CountRows(next, Tallied(t, p, steps[0], next), steps[1..], id);
    }
  }

  lemma {:induction false} CountBoth(p: Protocol, t: Tally, a: seq<Step>, b: seq<Step>)
    ensures Count(p, t, a + b) == var (q, u) := Count(p, t, a); Count(q, u, b)
    decreases |a|
  {
    hide DeliveryProtocol.Perform, Tallied;
    if a == [] {
      assert a + b == b;
    } else {
      var next := DeliveryProtocol.Perform(p, a[0]).next;
      CountBoth(next, Tallied(t, p, a[0], next), a[1..], b);
      assert (a + b)[1..] == a[1..] + b;
    }
  }

  function OrphanTurns(turns: seq<(Row, Wake)>): seq<Step> {
    if turns == [] then [] else OrphanTurn(turns[0].0, turns[0].1) + OrphanTurns(turns[1..])
  }

  /** New generations of one logical run, each with an event nothing has answered. */
  ghost predicate NewTurns(p: Protocol, turns: seq<(Row, Wake)>, run: (string, string)) {
    && (forall t :: t in turns ==> Complete(t.0) && t.0.Logical() == run && !HasRow(p.inbox.mem.rows, t.0.id))
    && (forall t :: t in turns ==> t.1.eventId !in Deliveries(p.replay.ring.entries))
    && (forall i, j :: 0 <= i < j < |turns| ==> turns[i].0.id != turns[j].0.id)
  }

  /** However many generations of one run there are, each starts its turn in the same sequence. */
  lemma {:induction false} OrphansKeepStarting(p: Protocol, t: Tally, turns: seq<(Row, Wake)>, run: (string, string))
    requires Resting(p) && p.runs == {} && NewTurns(p, turns, run)
    requires Between(t) && p.consecutive == |t.starts| && t.orphans <= t.starts
    ensures var (q, u) := Count(p, t, OrphanTurns(turns));
      && Resting(q) && q.runs == {} && q.consecutive == p.consecutive + |turns|
      && u.starts[run] == t.starts[run] + |turns|
    decreases |turns|
  {
    hide Resting, OrphanTurn, Complete, Count;
    if turns == [] {
      NoSteps(p, t);
    } else {
      var (row, wake) := turns[0];
      OrphanRound(p, t, row, wake);
      var (s, u) := Count(p, t, OrphanTurn(row, wake));
      CountBoth(p, t, OrphanTurn(row, wake), OrphanTurns(turns[1..]));
      OrphansKeepStarting(s, u, turns[1..], run);
    }
  }

  lemma NoSteps(p: Protocol, t: Tally)
    ensures Count(p, t, []) == (p, t)
  {
  }

  // ---- from an empty service ----

  const THE_RUN: (string, string) := ("date", "profile")

  function Generation(i: nat): (r: (Row, Wake))
    ensures |r.0.id| == i
  {
    var id := seq(i, _ => 'g');
    (Row(id, THE_RUN.0, THE_RUN.1, Collected, Pending, i, 0, 0, 0, ""), Wake(id, ""))
  }

  /** A process that starts with empty files, whose agent has joined and is idle. */
  const WAKING: seq<Step> := [DoAgentJoined, DoLifecycle(Lifecycle.Idle)]

  /** Such a service is at rest: the states these proofs start from are reached. */
  lemma StartsResting(opens: bool, loads: bool, recovers: bool)
    ensures var (p, t) := Count(Boot(EMPTY, [], opens, loads, recovers), NO_TURNS, WAKING);
      Resting(p) && p.runs == {} && p.consecutive == 0 && t == NO_TURNS
      && p.inbox.mem == EMPTY && p.replay.ring.entries == []
  {
    hide Live, Tallied, Boot, Count, Bounded, Decided;
    var start := Boot(EMPTY, [], opens, loads, recovers);
    NothingStored();
    BootLive(EMPTY, [], opens, loads, recovers);
    EmptyBoot(opens, loads, recovers);
    OneStep(start, NO_TURNS, WAKING, 0);
    OneStep(start.(agent := true), NO_TURNS, WAKING, 1);
    assert WAKING[0..] == WAKING;
    WakingTallied(start);
    CountLive(start, NO_TURNS, WAKING);
  }

  lemma NothingStored()
    ensures ConversationLaws.Snapshot([])
  {
  }

  lemma EmptyBoot(opens: bool, loads: bool, recovers: bool)
    ensures var p := Boot(EMPTY, [], opens, loads, recovers);
      && p.inbox.mem == EMPTY && p.replay.ring.entries == []
      && p.active.None? && p.consecutive == 0 && p.runs == {} && !p.circuit && p.surface.None?
  {
    assert Compact(EMPTY) == EMPTY && SortRows([]) == [];
  }

  lemma WakingTallied(p: Protocol)
    requires p.active.None?
    ensures var q := p.(agent := true);
      && Tallied(NO_TURNS, p, WAKING[0], q) == NO_TURNS
      && Tallied(NO_TURNS, q, WAKING[1], q.(lifecycle := Lifecycle.Idle)) == NO_TURNS
  {
  }

  /** For every n: n turns of one run in one sequence, the breaker none the wiser. */
  lemma OrphansAreUnbounded(n: nat)
    ensures var steps := WAKING + OrphanTurns(seq(n, i requires 0 <= i < n => Generation(i)));
      var (q, t) := Count(Boot(EMPTY, [], true, true, true), NO_TURNS, steps);
      && (forall s :: s in steps ==> Admissible(s))
      && q.consecutive == n && t.starts[THE_RUN] == n && q.runs == {} && !q.circuit
  {
    hide Boot, Live, WAKING, Count, Spent;
    var turns := seq(n, i requires 0 <= i < n => Generation(i));
    StartsResting(true, true, true);
    var start := Boot(EMPTY, [], true, true, true);
    var p := Count(start, NO_TURNS, WAKING).0;
    CountBoth(start, NO_TURNS, WAKING, OrphanTurns(turns));
    OrphansKeepStarting(p, NO_TURNS, turns, THE_RUN);
    TurnsAdmissible(turns);
    WakingAdmissible();
  }

  lemma {:induction false} TurnsAdmissible(turns: seq<(Row, Wake)>)
    requires forall t :: t in turns ==> t.0.Counted()
    ensures forall s :: s in OrphanTurns(turns) ==> Admissible(s)
  {
    if turns != [] {
      TurnsAdmissible(turns[1..]);
    }
  }

  lemma WakingAdmissible()
    ensures forall s :: s in WAKING ==> Admissible(s)
  {
  }
}
