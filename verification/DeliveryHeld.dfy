/** The other half of the slot invariant: the event that holds the slot is still queued and its row is in progress,
    until a report says that its run was delivered. Exactly such a report orphans the event: it takes it off the
    queue and leaves it active. */
module DeliveryHeld {
  import opened Prelude
  import opened BriefingRows
  import opened BriefingInbox
  import opened BriefingInboxLaws
  import opened BriefingUpsertLaws
  import opened BriefingFollows
  import ConversationRing
  import opened DeliveryProtocol
  import opened DeliverySlot

  /** The active event is queued and its row is reserved. */
  ghost predicate Held(p: Protocol) {
    && p.active.Some? && HasEvent(p.inbox.mem.pending, p.active.value)
    && Reserved(p.inbox.mem, RunFor(p.inbox.mem.pending, p.active.value))
  }

  /** A stored report that the active event's run was delivered, under no other run's event. */
  predicate Orphaning(p: Protocol, step: Step) {
    && step.DoIngress? && step.stores
    && p.active.Some? && HasEvent(p.inbox.mem.pending, p.active.value)
    && step.row.id == RunFor(p.inbox.mem.pending, p.active.value)
    && AlreadySaid(p, step.row, step.wake)
    && (step.wake.Some? ==> !EventTaken(p.inbox.mem.pending, step.row.id, step.wake.value.eventId))
  }

  /** While the active event is held, exactly its row is reserved. */
  lemma HeldIsExact(p: Protocol, id: string)
    requires SlotSane(p) && Held(p)
    ensures Reserved(p.inbox.mem, id) <==> id == RunFor(p.inbox.mem.pending, p.active.value)
  {
  }

  // ---- a report ----

  /** A reserved row is never pushed out, and only its own delivered report moves it on. */
  lemma UpsertHolds(box: Inbox, row: Row, wake: Option<Wake>, said: bool, id: string)
    requires Sound(box) && row.Counted() && Reserved(box, id)
    requires UpsertPlan(box, row, wake, said).Target?
    ensures var next := UpsertPlan(box, row, wake, said).box;
      && HasRow(next.rows, id)
      && RowOf(next.rows, id).delivery == if id == row.id && said then Delivered else InProgress
  {
    hide Sound, Merged, Evictable, Shaped;
    var merged := Merged(box, row, wake, said);
    MergedSound(box, row, wake, said);
    MergedHolds(box, row, wake, said, id);
    SoundShaped(box, merged);
    EvictOnce(merged);
    if |merged.rows| > MAX_BRIEFING_ROWS {
      StaysPut(merged, id);
      var k := FirstEvictable(merged.rows, merged.dismissed);
      EvictedLookup(merged, k, id);
    }
  }

  lemma MergedHolds(box: Inbox, row: Row, wake: Option<Wake>, said: bool, id: string)
    requires Sound(box) && row.Counted() && Reserved(box, id)
    ensures var merged := Merged(box, row, wake, said);
      && HasRow(merged.rows, id)
      && RowOf(merged.rows, id).delivery == (if id == row.id && said then Delivered else InProgress)
      && (if id == row.id then |merged.rows| == |box.rows| else !Evictable(RowOf(merged.rows, id), merged.dismissed))
  {
    hide Sound, Place, SortRows, Enqueue;
    MergedLookup(box, row, wake, said, id);
    RowCount(box, row, said);
  }

  /** A known run adds no row, so nothing yields to it; and a reserved row yields to none. */
  lemma StaysPut(merged: Inbox, id: string)
    requires Shaped(merged, MAX_BRIEFING_ROWS + 1) && HasRow(merged.rows, id)
    ensures !Evictable(RowOf(merged.rows, id), merged.dismissed) ==>
      var k := FirstEvictable(merged.rows, merged.dismissed);
      k < |merged.rows| ==> merged.rows[k].id != id
  {
    var k := FirstEvictable(merged.rows, merged.dismissed);
    if k < |merged.rows| {
      RowFound(merged.rows, merged.rows[k]);
    }
  }

  lemma SoundShaped(box: Inbox, merged: Inbox)
    requires Sound(box) && SoundWithin(merged, |box.rows| + 1)
    ensures |box.rows| <= MAX_BRIEFING_ROWS && Shaped(merged, MAX_BRIEFING_ROWS + 1) && DistinctIds(merged.rows)
  {
  }

  /** What a report leaves of a queued wake: it, or nothing of its run and its event. */
  lemma UpsertQueue(box: Inbox, row: Row, wake: Option<Wake>, said: bool, q: Queued)
    requires Sound(box) && row.Counted() && q in box.pending && Reserved(box, q.runId)
    requires UpsertPlan(box, row, wake, said).Target?
    ensures var next := UpsertPlan(box, row, wake, said).box;
      if q.runId == row.id && said then !HasEvent(next.pending, q.wake.eventId)
      else q in next.pending && DistinctWakes(next.pending)
  {
    hide UpsertPlan, Reserved;
    var next := UpsertPlan(box, row, wake, said).box;
    UpsertFollows(box, row, wake, said);
    UpsertHolds(box, row, wake, said, q.runId);
    IsReserved(box, q.runId);
    WakeFound(box.pending, q);
    if q.runId == row.id && said {
      forall r | r in next.pending ensures r.wake.eventId != q.wake.eventId {
        if r in box.pending {
          WakeFound(box.pending, r);
        }
      }
    } else {
      var r := next.pending[RunAt(next.pending, q.runId)];
      assert r in next.pending;
      WakeFound(box.pending, r);
    }
  }

  lemma IsReserved(box: Inbox, id: string)
    requires Reserved(box, id)
    ensures HasRow(box.rows, id) && RowOf(box.rows, id).delivery.InProgress?
  {
  }

  /** A report that finds its row is never refused for want of room. */
  lemma KnownIsPlanned(box: Inbox, row: Row, wake: Option<Wake>, said: bool)
    requires Sound(box) && row.Counted() && HasRow(box.rows, row.id)
    requires wake.Some? ==> !EventTaken(box.pending, row.id, wake.value.eventId)
    ensures UpsertPlan(box, row, wake, said).Target?
  {
    hide Sound;
    UpsertFullIff(box, row, wake, said);
  }

  lemma IngressOrphansIff(p: Protocol, row: Row, wake: Option<Wake>, stores: bool, marks: bool)
    requires SlotSane(p) && Held(p) && row.Counted()
    ensures var next := Ingress(p, row, wake, stores, marks);
      && next.active == p.active
      && if Orphaning(p, DoIngress(row, wake, stores, marks)) then !HasEvent(next.inbox.mem.pending, p.active.value)
         else Held(next)
  {
    hide Upsert, UpsertOutcome, Sound, Owned, AlreadySaid, EventTaken, Reserved, Ingress;
    IngressStores(p, row, wake, stores, marks);
    StoreHolds(p.inbox, row, wake, AlreadySaid(p, row, wake), stores, p.active.value);
  }

  /** With the circuit closed an ingress is what the store makes of it, refused or not. */
  lemma IngressStores(p: Protocol, row: Row, wake: Option<Wake>, stores: bool, marks: bool)
    requires !p.circuit
    ensures Ingress(p, row, wake, stores, marks)
         == p.(inbox := Upsert(p.inbox, row, wake, AlreadySaid(p, row, wake), stores))
  {
    hide UpsertPlan, AlreadySaid;
  }

  lemma StoreHolds(s: Store, row: Row, wake: Option<Wake>, said: bool, stores: bool, event: string)
    requires Sound(s.mem) && row.Counted()
    requires HasEvent(s.mem.pending, event) && Reserved(s.mem, RunFor(s.mem.pending, event))
    ensures var after := Upsert(s, row, wake, said, stores).mem;
      var run := RunFor(s.mem.pending, event);
      if stores && said && row.id == run
         && (wake.Some? ==> !EventTaken(s.mem.pending, row.id, wake.value.eventId))
      then !HasEvent(after.pending, event)
      else HasEvent(after.pending, event) && RunFor(after.pending, event) == run && Reserved(after, run)
  {
    hide UpsertPlan, Sound, EventTaken;
    var box := s.mem;
    var q := box.pending[EventAt(box.pending, event)];
    assert q in box.pending;
    var plan := UpsertPlan(box, row, wake, said);
    if wake.Some? && EventTaken(box.pending, row.id, wake.value.eventId) {
      TakenIsMalformed(box, row, wake, said);
    } else if row.id == q.runId {
      KnownIsPlanned(box, row, wake, said);
    }
    if plan.Target? {
      UpsertHolds(box, row, wake, said, q.runId);
      UpsertQueue(box, row, wake, said, q);
      if !(q.runId == row.id && said) {
        WakeFound(plan.box.pending, q);
      }
    }
  }

  lemma TakenIsMalformed(box: Inbox, row: Row, wake: Option<Wake>, said: bool)
    requires wake.Some? && EventTaken(box.pending, row.id, wake.value.eventId)
    ensures UpsertPlan(box, row, wake, said).Malformed?
  {
  }

  // ---- every other step ----

  lemma HandBackCounts(p: Protocol, event: string, retries: bool, marks: bool)
    ensures var next := HandBack(p, event, retries, marks);
      next.active.None? && next.consecutive == p.consecutive && next.runs == p.runs
  {
    hide QueuedDeliveryFailed, ReassignStore;
  }

  lemma AnswerKeepsInbox(p: Protocol, event: string, message: ConversationRing.Message, records: bool, acks: bool,
                         marks: bool)
    ensures var next := Answer(p, event, message, records, acks, marks).next;
      next.active == p.active && p.active.Some? ==> next.inbox == p.inbox
  {
    hide QueuedDeliveryFailed, ConversationRing.RecordDelivery, ConversationRing.DeliveryMessage, LogicalFor;
    hide ConversationRing.DeliveryOutcome;
  }

  lemma LeavingFrees(p: Protocol, event: string, closes: bool, retries: bool, marks: bool)
    requires p.active.Some?
    ensures var next := Settle(p, event, closes, retries, marks).next; next == p || next.active.None?
    ensures AgentLeft(p, retries, marks).active.None?
  {
    hide HandBack, RecoverDelivered, ConversationRing.DeliveryMessage;
    HandBackCounts(p, event, retries, marks);
    HandBackCounts(p.(agent := false, started := false), p.active.value, retries, marks);
  }

  lemma BootIsFree(inbox: Inbox, replay: seq<ConversationRing.Entry>, opens: bool, loads: bool, recovers: bool)
    ensures Boot(inbox, replay, opens, loads, recovers).active.None?
  {
  }

  /** A step that leaves an event active, other than ingress, leaves rows and queue alone. */
  lemma StepKeepsInbox(p: Protocol, step: Step)
    requires SlotSane(p) && p.active.Some? && !step.DoIngress?
    ensures var next := DeliveryProtocol.Perform(p, step).next;
      next.active == p.active ==>
        next.inbox.mem.rows == p.inbox.mem.rows && next.inbox.mem.pending == p.inbox.mem.pending
  {
    hide Answer, Settle, AgentLeft, Boot, HalfAnswered, ResumeStopped, Owned, Sound, LogicalFor;
    hide ConversationRing.Record, ConversationRing.Take;
    match step
    case DoAnswer(event, message, records, acks, marks) => AnswerKeepsInbox(p, event, message, records, acks, marks);
    case DoSettle(event, closes, retries, marks) => LeavingFrees(p, event, closes, retries, marks);
    case DoAgentLeft(retries, marks) => LeavingFrees(p, "", true, retries, marks);
    case DoCrash(opens, loads, recovers) => BootIsFree(p.inbox.disk, p.replay.disk, opens, loads, recovers);
    case DoCrashMidAnswer(event, message, opens, loads, recovers) =>
      var q := HalfAnswered(p, event, message);
      BootIsFree(q.inbox.disk, q.replay.disk, opens, loads, recovers);
    case _ =>
  }

  /**
    A step takes the held event off the queue and leaves it active if and only
    if it is an orphaning report; every other step that leaves it active leaves
    it held.
  */
  lemma OrphanedIff(p: Protocol, step: Step)
    requires SlotSane(p) && Held(p) && Admissible(step)
    ensures var next := DeliveryProtocol.Perform(p, step).next;
      && (Orphaning(p, step) <==> next.active == p.active && !HasEvent(next.inbox.mem.pending, p.active.value))
      && (next.active == p.active && !Orphaning(p, step) ==> Held(next))
  {
    hide SlotSane, Ingress, Sound, Orphaning;
    if step.DoIngress? {
      IngressOrphansIff(p, step.row, step.wake, step.stores, step.marks);
    } else {
      assert !Orphaning(p, step) by { OnlyReports(p, step); }
      StepKeepsInbox(p, step);
      HeldAgain(p, DeliveryProtocol.Perform(p, step).next);
    }
  }

  lemma OnlyReports(p: Protocol, step: Step)
    ensures Orphaning(p, step) ==> step.DoIngress?
  {
  }

  lemma HeldAgain(p: Protocol, next: Protocol)
    requires Held(p)
    requires next.active == p.active ==>
      next.inbox.mem.rows == p.inbox.mem.rows && next.inbox.mem.pending == p.inbox.mem.pending
    ensures next.active == p.active ==> Held(next)
  {
  }

  /** A dispatch that gives the slot away holds it for a row that was pending. */
  lemma DispatchHolds(p: Protocol, reserves: bool, sent: bool, retries: bool, marks: bool)
    requires Sound(p.inbox.mem) && p.active.None?
    ensures var next := Dispatch(p, reserves, sent, retries, marks); next.active.Some? ==> Held(next)
  {
    hide QueuedDeliveryFailed;
    var k := NextAt(p.inbox.mem);
    if k < |p.inbox.mem.pending| {
      var q := p.inbox.mem.pending[k];
      assert q in p.inbox.mem.pending;
      WakeFound(p.inbox.mem.pending, q);
      SameKeysKeep(p.inbox.mem.rows, Reassign(p.inbox.mem, q.wake.eventId, InProgress).rows);
    }
  }
}
