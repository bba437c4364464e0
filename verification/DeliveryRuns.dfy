/** The two promises of durable delivery, over whole runs: every interleaving of ingress, dispatch, answers, owner
    turns, lost agents, failed writes and crashes. An answer is announced once, and a run the service acknowledged is
    delivered, still queued, or was given up only after it had stopped or ended. */
module DeliveryRuns {
  import opened Prelude
  import opened BriefingRows
  import opened BriefingInbox
  import opened BriefingInboxLaws
  import opened BriefingUpsertLaws
  import opened BriefingReopenLaws
  import opened BriefingFollows
  import opened ConversationRing
  import opened ConversationLaws
  import opened DeliveryProtocol
  import opened DeliverySlot
  import opened DeliveryStores
  import opened DeliveryCarries
  import opened DeliveryAnswers

  /**
    What an observer writes down during a run: the answers surfaces heard, the
    deliveries the bounded ring has let go, the runs acknowledged with their
    wake, and those of them whose finished rows the inbox let go.
  */
  datatype Ledger = Ledger(announced: multiset<string>, forgotten: set<string>,
                           promised: set<string>, released: set<string>)

  const NOTHING_YET: Ledger := Ledger(multiset{}, {}, {}, {})

  /** The run an acknowledged ingress promises to keep. */
  function PromisedBy(p: Protocol, step: Step): set<string> {
    if step.DoIngress? && step.wake.Some? && IngressAcked(p, step.row, step.wake, step.stores, step.marks)
    then {step.row.id} else {}
  }

  /** Rows that left the inbox in a state that owes nothing: stopped or delivered. */
  function ReleasedBy(p: Protocol, step: Step, next: Protocol): set<string> {
    (set r | r in p.inbox.mem.rows && Finished(p.inbox.mem, r.id) && !HasRow(next.inbox.mem.rows, r.id) :: r.id)
    + (if step.DoIngress? && AlreadySaid(p, step.row, step.wake) && !HasRow(next.inbox.mem.rows, step.row.id)
       then {step.row.id} else {})
  }

  function Written(l: Ledger, p: Protocol, step: Step, e: Effect): Ledger {
    Ledger(
      l.announced + (if e.answered.Some? then multiset{e.answered.value} else multiset{}),
      l.forgotten + (Deliveries(p.replay.ring.entries) - Deliveries(e.next.replay.ring.entries)),
      l.promised + PromisedBy(p, step),
      (l.released - PromisedBy(p, step)) + ReleasedBy(p, step, e.next))
  }

  /** Said once, remembered, and off the queue. */
  ghost predicate SaidOnce(p: Protocol, l: Ledger) {
    forall event :: event in l.announced && event !in l.forgotten ==>
      && l.announced[event] == 1
      && event in Deliveries(p.replay.ring.entries)
      && !HasEvent(p.inbox.mem.pending, event)
  }

  ghost predicate PromisesKept(p: Protocol, l: Ledger) {
    forall id :: id in l.promised ==> Kept(p.inbox.mem, id) || id in l.released
  }

  ghost predicate Live(p: Protocol) { SlotSane(p) && FilesSound(p) }

  ghost predicate Faithful(p: Protocol, l: Ledger) { Live(p) && SaidOnce(p, l) && PromisesKept(p, l) }

  // ---- one step ----

  /** The wake ingress queues is never one whose answer is already recorded. */
  lemma QueuedIsUnsaid(p: Protocol, step: Step, q: Queued)
    requires AddedBy(p, step) == Some(q)
    ensures q.wake.eventId !in Deliveries(p.replay.ring.entries)
  {
  }

  lemma SaidOnceKept(p: Protocol, l: Ledger, step: Step)
    requires Faithful(p, l) && Admissible(step)
    ensures var e := DeliveryProtocol.Perform(p, step);
      SaidOnce(e.next, Written(l, p, step, e))
  {
    hide SlotSane, FilesSound, Ingress, Dispatch, Answer, Settle, AgentLeft, OwnerTurn, Boot, HalfAnswered;
    hide DeliveryProtocol.Perform, PromisedBy, ReleasedBy, Sound;
    var e := DeliveryProtocol.Perform(p, step);
    var after := Written(l, p, step, e);
    StepTruth(p, step, "");
    StepCarries(p, step);
    forall event | event in after.announced && event !in after.forgotten
      ensures after.announced[event] == 1 && event in Deliveries(e.next.replay.ring.entries)
      ensures !HasEvent(e.next.inbox.mem.pending, event) {
      if e.answered != Some(event) {
        assert event in l.announced;
        EventStaysOut(p, step, e.next, event);
      }
    }
  }

  /** Once a recorded event is off the queue, no step queues it again. */
  lemma EventStaysOut(p: Protocol, step: Step, next: Protocol, event: string)
    requires Carries(p.inbox.mem, next.inbox.mem, AddedBy(p, step), ReportedBy(step))
    requires event in Deliveries(p.replay.ring.entries) && !HasEvent(p.inbox.mem.pending, event)
    ensures !HasEvent(next.inbox.mem.pending, event)
  {
    hide Sound, AddedBy;
    forall i | 0 <= i < |next.inbox.mem.pending| ensures next.inbox.mem.pending[i].wake.eventId != event {
      var q := next.inbox.mem.pending[i];
      assert q in next.inbox.mem.pending;
      if q !in p.inbox.mem.pending {
        QueuedIsUnsaid(p, step, q);
      }
    }
  }

  /** An acknowledged wake is kept, or its row ended there and then. */
  lemma PromiseMade(p: Protocol, step: Step)
    requires Live(p) && Admissible(step) && step.DoIngress? && step.wake.Some?
    requires IngressAcked(p, step.row, step.wake, step.stores, step.marks)
    ensures var next := DeliveryProtocol.Perform(p, step).next;
      Kept(next.inbox.mem, step.row.id) || step.row.id in ReleasedBy(p, step, next)
  {
    hide QueuedDeliveryFailed, StoreSound, HistorySound;
    var said := AlreadySaid(p, step.row, step.wake);
    var s := Upsert(p.inbox, step.row, step.wake, said, step.stores);
    AckedIsStored(p.inbox, step.row, step.wake, said, step.stores);
    StopStore(s, step.marks);
    assert DeliveryProtocol.Perform(p, step).next.inbox
        == if p.circuit then QueuedDeliveryFailed(s, step.marks).0 else s;
  }

  lemma AckedIsStored(s: Store, row: Row, wake: Option<Wake>, said: bool, lands: bool)
    requires Sound(s.mem) && row.Counted() && wake.Some?
    requires !Refused(UpsertOutcome(s, row, wake, said, lands))
    ensures var after := Upsert(s, row, wake, said, lands).mem;
      && Sound(after)
      && (Kept(after, row.id) || (said && !HasRow(after.rows, row.id)))
  {
    var plan := UpsertPlan(s.mem, row, wake, said);
    UpsertSound(s.mem, row, wake, said);
    UpsertFollows(s.mem, row, wake, said);
    var victim := UpsertEvictsOne(s.mem, row, wake, said);
    assert Upsert(s, row, wake, said, lands).mem == plan.box;
    if !HasRow(plan.box.rows, row.id) {
      assert victim.Some? && victim.value.id == row.id;
    }
  }

  lemma PromisesStay(p: Protocol, l: Ledger, step: Step)
    requires Faithful(p, l) && Admissible(step)
    ensures var e := DeliveryProtocol.Perform(p, step);
      PromisesKept(e.next, Written(l, p, step, e))
  {
    hide SlotSane, FilesSound, Ingress, Dispatch, Answer, Settle, AgentLeft, OwnerTurn, Boot, HalfAnswered;
    hide DeliveryProtocol.Perform, IngressAcked, AlreadySaid, Sound, SaidOnce;
    var e := DeliveryProtocol.Perform(p, step);
    var after := Written(l, p, step, e);
    StepCarries(p, step);
    forall id | id in after.promised ensures Kept(e.next.inbox.mem, id) || id in after.released {
      if id in PromisedBy(p, step) {
        PromiseMade(p, step);
      } else if id !in l.released && !HasRow(e.next.inbox.mem.rows, id) {
        var r := RowOf(p.inbox.mem.rows, id);
        assert r in p.inbox.mem.rows && r.id == id;
      }
    }
  }

  lemma StepFaithful(p: Protocol, l: Ledger, step: Step)
    requires Faithful(p, l) && Admissible(step)
    ensures var e := DeliveryProtocol.Perform(p, step); Faithful(e.next, Written(l, p, step, e))
  {
    hide SlotSane, FilesSound, SaidOnce, PromisesKept, DeliveryProtocol.Perform, Written;
    StepSane(p, step);
    StepFiles(p, step);
    SaidOnceKept(p, l, step);
    PromisesStay(p, l, step);
  }

  lemma StepLive(p: Protocol, step: Step)
    requires Live(p) && Admissible(step)
    ensures Live(DeliveryProtocol.Perform(p, step).next)
  {
    hide SlotSane, FilesSound, DeliveryProtocol.Perform;
    StepSane(p, step);
    StepFiles(p, step);
  }

  // ---- whole runs ----

  ghost function Run(p: Protocol, l: Ledger, steps: seq<Step>): (Protocol, Ledger)
    decreases |steps|
  {
    if steps == [] then (p, l)
    else
      var e := DeliveryProtocol.Perform(p, steps[0]);
      Run(e.next, Written(l, p, steps[0], e), steps[1..])
  }

  lemma {:induction false} RunFaithful(p: Protocol, l: Ledger, steps: seq<Step>)
    requires Faithful(p, l)
    requires forall s :: s in steps ==> Admissible(s)
    ensures var (q, m) := Run(p, l, steps); Faithful(q, m)
    decreases |steps|
  {
    hide Faithful, DeliveryProtocol.Perform, Written;
    if steps != [] {
      var e := DeliveryProtocol.Perform(p, steps[0]);
      StepFaithful(p, l, steps[0]);
      RunFaithful(e.next, Written(l, p, steps[0], e), steps[1..]);
    }
  }

  /**
    From any inbox file and any replay the service wrote, whatever happens:
    no two replay entries share a delivery, every delivery in memory is on
    disk, an answer the replay still holds was announced at most once and is
    off the queue, and every promised run is delivered, queued or was released.
  */
  lemma DeliveredOnceAndNeverLost(inbox: Inbox, replay: seq<Entry>, opens: bool, loads: bool, recovers: bool,
                                  steps: seq<Step>)
    requires Snapshot(replay)
    requires forall s :: s in steps ==> Admissible(s)
    ensures var (p, l) := Run(Boot(inbox, replay, opens, loads, recovers), NOTHING_YET, steps);
      && UniqueDeliveries(p.replay.ring.entries) && UniqueDeliveries(p.replay.disk)
      && Deliveries(p.replay.ring.entries) <= Deliveries(p.replay.disk)
      && SaidOnce(p, l)
      && PromisesKept(p, l)
      && Live(p)
  {
    var start := Boot(inbox, replay, opens, loads, recovers);
    BootSane(inbox, replay, opens, loads, recovers);
    BootFiles(inbox, replay, opens, loads, recovers);
    RunFaithful(start, NOTHING_YET, steps);
  }

  /**
    In every state of every run: an open circuit has reserved no event; with it
    closed, a row in progress is the active event's; every stopped or reserved
    row still has its wake; and no surface waits while a briefing holds the slot.
  */
  lemma OneModelSlot(inbox: Inbox, replay: seq<Entry>, opens: bool, loads: bool, recovers: bool, steps: seq<Step>)
    requires Snapshot(replay)
    requires forall s :: s in steps ==> Admissible(s)
    ensures var p := Run(Boot(inbox, replay, opens, loads, recovers), NOTHING_YET, steps).0;
      var box := p.inbox.mem;
      && (p.circuit ==> p.active.None?)
      && (forall r :: r in box.rows && r.delivery.InProgress? && !p.circuit ==>
            p.active.Some? && HasEvent(box.pending, p.active.value) && RunFor(box.pending, p.active.value) == r.id)
      && (forall r :: r in box.rows && (r.delivery.InProgress? || r.delivery.Failed?) ==> HasRun(box.pending, r.id))
      && (p.active.Some? ==> p.surface.None? || p.surface == Some(TERMINAL_SURFACE))
  {
    hide Boot, Run, FilesSound, Shaped;
    DeliveredOnceAndNeverLost(inbox, replay, opens, loads, recovers, steps);
    var p := Run(Boot(inbox, replay, opens, loads, recovers), NOTHING_YET, steps).0;
    forall r | r in p.inbox.mem.rows && r.delivery.InProgress? ensures Reserved(p.inbox.mem, r.id) {
      DistinctRows(p.inbox.mem);
      RowFound(p.inbox.mem.rows, r);
    }
  }

  lemma DistinctRows(box: Inbox)
    requires Sound(box)
    ensures DistinctIds(box.rows)
  {
  }
}
