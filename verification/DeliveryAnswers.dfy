/** Write-ahead order of one answer: it is in the replay snapshot before any row is called delivered, and both files
    hold it before any surface hears it. */
module DeliveryAnswers {
  import opened Prelude
  import opened BriefingRows
  import opened BriefingInbox
  import opened BriefingInboxLaws
  import opened BriefingUpsertLaws
  import opened BriefingReopenLaws
  import opened BriefingFollows
  import opened ConversationRing
  import opened ConversationLaws
  import opened DeliveryProtocol
  import opened DeliverySlot
  import opened DeliveryStores

  /** A run whose queued event is one of these. */
  predicate Due(pending: seq<Queued>, id: string, events: set<string>) {
    HasRun(pending, id) && pending[RunAt(pending, id)].wake.eventId in events
  }

  /** Only rows due for one of these events became delivered. */
  ghost predicate Closes(a: Inbox, b: Inbox, events: set<string>) {
    forall id :: IsDelivered(b.rows, id) ==> IsDelivered(a.rows, id) || Due(a.pending, id, events)
  }

  lemma MapCloses(box: Inbox, ids: set<string>, to: Delivery)
    requires !to.Delivered?
    ensures Closes(box, box.(rows := MapDelivery(box.rows, ids, to)), {})
  {
    SameKeysKeep(box.rows, MapDelivery(box.rows, ids, to));
  }

  lemma ReassignCloses(s: Store, event: string, to: Delivery, lands: bool)
    requires !to.Delivered?
    ensures Closes(s.mem, ReassignStore(s, event, to, lands).0.mem, {})
  {
    if HasEvent(s.mem.pending, event) {
      var after := Reassign(s.mem, event, to);
      SameKeysKeep(s.mem.rows, after.rows);
      forall id | IsDelivered(after.rows, id) ensures IsDelivered(s.mem.rows, id) {
        assert RowAt(s.mem.rows, id) == RowAt(after.rows, id);
      }
    }
  }

  lemma StopCloses(s: Store, marks: bool)
    ensures Closes(s.mem, QueuedDeliveryFailed(s, marks).0.mem, {})
  {
    MapCloses(s.mem, QueuedRuns(s.mem.pending), Delivery.Failed);
  }

  lemma AckCloses(s: Store, event: string, lands: bool)
    requires Sound(s.mem)
    ensures Closes(s.mem, Acknowledge(s, event, lands).0.mem, {event})
  {
    if HasEvent(s.mem.pending, event) {
      SameKeysKeep(s.mem.rows, Acked(s.mem, event).rows);
      assert s.mem.pending[EventAt(s.mem.pending, event)] in s.mem.pending;
      WakeFound(s.mem.pending, s.mem.pending[EventAt(s.mem.pending, event)]);
    }
  }

  lemma RecoverCloses(s: Store, replay: set<string>, lands: bool)
    requires Sound(s.mem)
    ensures Closes(s.mem, RecoverDelivered(s, replay, lands).0.mem, replay)
  {
    var after := BriefingInbox.Recovered(s.mem, replay);
    SameKeysKeep(s.mem.rows, after.rows);
    forall id | IsDelivered(after.rows, id) && !IsDelivered(s.mem.rows, id) ensures Due(s.mem.pending, id, replay) {
      var q :| q in s.mem.pending && q.wake.eventId in replay && q.runId == id;
      WakeFound(s.mem.pending, q);
    }
  }

  /** The one row a report may call delivered, when the replay or the sender says so. */
  lemma UpsertCloses(s: Store, row: Row, wake: Option<Wake>, delivered: bool, lands: bool)
    requires Sound(s.mem) && row.Counted()
    ensures var after := Upsert(s, row, wake, delivered, lands).mem;
      forall id :: IsDelivered(after.rows, id) ==> IsDelivered(s.mem.rows, id) || (id == row.id && delivered)
  {
    if UpsertPlan(s.mem, row, wake, delivered).Target? {
      var after := UpsertPlan(s.mem, row, wake, delivered).box;
      forall id | IsDelivered(after.rows, id) && !IsDelivered(s.mem.rows, id) ensures id == row.id && delivered {
        MergedDelivers(s.mem, row, wake, delivered, id);
      }
    }
  }

  lemma MergedDelivers(box: Inbox, row: Row, wake: Option<Wake>, delivered: bool, id: string)
    requires Sound(box) && row.Counted() && UpsertPlan(box, row, wake, delivered).Target?
    requires IsDelivered(UpsertPlan(box, row, wake, delivered).box.rows, id) && !IsDelivered(box.rows, id)
    ensures id == row.id && delivered
  {
    var merged := Merged(box, row, wake, delivered);
    MergedSound(box, row, wake, delivered);
    EvictOnce(merged);
    MergedLookup(box, row, wake, delivered, id);
    if |merged.rows| > MAX_BRIEFING_ROWS {
      EvictedLookup(merged, FirstEvictable(merged.rows, merged.dismissed), id);
    }
  }

  // ---- steps ----

  /** Why a row became delivered: its answer is on disk, or a legacy report without a wake says so. */
  ghost predicate Witnessed(p: Protocol, step: Step, next: Protocol, id: string) {
    || Due(p.inbox.mem.pending, id, Deliveries(next.replay.disk))
    || (step.DoIngress? && step.row.id == id &&
        (if step.wake.Some? then step.wake.value.eventId in Deliveries(next.replay.disk)
         else step.row.delivery.Delivered?))
  }

  lemma IngressTruth(p: Protocol, row: Row, wake: Option<Wake>, stores: bool, marks: bool, id: string)
    requires SlotSane(p) && FilesSound(p) && row.Counted()
    requires IsDelivered(Ingress(p, row, wake, stores, marks).inbox.mem.rows, id) && !IsDelivered(p.inbox.mem.rows, id)
    ensures Witnessed(p, DoIngress(row, wake, stores, marks), Ingress(p, row, wake, stores, marks), id)
  {
    hide QueuedDeliveryFailed, Upsert, UpsertOutcome, StoreSound;
    var said := AlreadySaid(p, row, wake);
    UpsertCloses(p.inbox, row, wake, said, stores);
    StopCloses(Upsert(p.inbox, row, wake, said, stores), marks);
  }

  lemma DispatchTruth(p: Protocol, reserves: bool, sent: bool, retries: bool, marks: bool)
    ensures Closes(p.inbox.mem, Dispatch(p, reserves, sent, retries, marks).inbox.mem, {})
  {
    hide QueuedDeliveryFailed, ReassignStore;
    StopCloses(p.inbox, marks);
    var k := NextAt(p.inbox.mem);
    if k < |p.inbox.mem.pending| {
      var event := p.inbox.mem.pending[k].wake.eventId;
      ReassignCloses(p.inbox, event, InProgress, true);
      ReassignCloses(ReassignStore(p.inbox, event, InProgress, true).0, event, Pending, retries);
    }
  }

  lemma HandBackTruth(p: Protocol, event: string, retries: bool, marks: bool)
    ensures Closes(p.inbox.mem, HandBack(p, event, retries, marks).inbox.mem, {})
  {
    hide QueuedDeliveryFailed;
    ReassignCloses(p.inbox, event, Pending, retries);
    StopCloses(p.inbox, marks);
  }

  /** `answered` is reported only for the active event, with both files written. */
  ghost predicate Announced(p: Protocol, e: Effect) {
    match e.answered
    case None => true
    case Some(event) =>
      && p.active == Some(event) && e.next.active.None?
      && HasEvent(p.inbox.mem.pending, event) && !HasEvent(e.next.inbox.mem.pending, event)
      && event in Deliveries(e.next.replay.disk) && event in Deliveries(e.next.replay.ring.entries)
      && e.next.inbox.mem == e.next.inbox.disk
      && DeliveryMessage(e.next.replay.ring.entries, event).Some?
      && e.frames == [Said(DeliveryMessage(e.next.replay.ring.entries, event).value)]
  }

  lemma EventGone(pending: seq<Queued>, k: nat, event: string)
    requires DistinctWakes(pending) && k < |pending| && pending[k].wake.eventId == event
    ensures !HasEvent(Without(pending, k), event)
  {
    var rest := Without(pending, k);
    forall j | 0 <= j < |rest| ensures rest[j].wake.eventId != event {
      assert rest[j] == pending[if j < k then j else j + 1];
    }
  }

  lemma CloseTruth(q: Protocol, event: string, acks: bool, marks: bool)
    requires SlotSane(q) && FilesSound(q) && q.active == Some(event)
    requires event in Deliveries(q.replay.disk)
    ensures Closes(q.inbox.mem, Close(q, event, acks, marks).next.inbox.mem, Deliveries(q.replay.disk))
    ensures Announced(q, Close(q, event, acks, marks))
  {
    hide StoreSound, QueuedDeliveryFailed;
    AckCloses(q.inbox, event, acks);
    StopCloses(q.inbox, marks);
    DeliveryFound(q.replay.ring.entries, event);
    if HasEvent(q.inbox.mem.pending, event) {
      EventGone(q.inbox.mem.pending, EventAt(q.inbox.mem.pending, event), event);
    }
  }

  lemma AnswerTruth(p: Protocol, event: string, message: Message, records: bool, acks: bool, marks: bool)
    requires SlotSane(p) && FilesSound(p)
    ensures var e := Answer(p, event, message, records, acks, marks);
      && Closes(p.inbox.mem, e.next.inbox.mem, Deliveries(e.next.replay.disk))
      && Announced(p, e)
  {
    hide StoreSound, Close, DeliveryOutcome, RecordDelivery, HistorySound, Sound, Owned, Closes;
    if p.active == Some(event) {
      var q := Begin(p, event).(replay := RecordDelivery(p.replay, event, message, records));
      RecordDeliveryKeeps(p.replay, event, message, records);
      ClosesItself(p.inbox.mem, Deliveries(q.replay.disk));
      if !DeliveryOutcome(p.replay, event, records).NotRecorded? {
        CloseTruth(q, event, acks, marks);
        CloseReplay(q, event, acks, marks);
      }
    } else {
      ClosesItself(p.inbox.mem, Deliveries(p.replay.disk));
    }
  }

  lemma ClosesItself(box: Inbox, events: set<string>)
    ensures Closes(box, box, events)
  {
  }

  lemma CloseReplay(q: Protocol, event: string, acks: bool, marks: bool)
    ensures Close(q, event, acks, marks).next.replay == q.replay
  {
  }

  lemma SettleTruth(p: Protocol, event: string, closes: bool, retries: bool, marks: bool)
    requires SlotSane(p) && FilesSound(p)
    ensures var e := Settle(p, event, closes, retries, marks);
      && Closes(p.inbox.mem, e.next.inbox.mem, Deliveries(e.next.replay.disk))
      && Announced(p, e)
  {
    hide StoreSound, HandBack, Closes, Sound, Owned, RecoverDelivered, BriefingInbox.Recovered;
    ClosesItself(p.inbox.mem, Deliveries(p.replay.disk));
    if p.active == Some(event) {
      DeliveryFound(p.replay.ring.entries, event);
      RecoverCloses(p.inbox, {event}, closes);
      RecoveredFollows(p.inbox.mem, {event});
      RecoverAnswers(p.inbox, event, closes);
      HandBackTruth(p, event, retries, marks);
      HandBackReplay(p, event, retries, marks);
      if event in Deliveries(p.replay.disk) {
        ClosesMore(p.inbox.mem, RecoverDelivered(p.inbox, {event}, closes).0.mem, {event}, Deliveries(p.replay.disk));
      }
      ClosesMore(p.inbox.mem, HandBack(p, event, retries, marks).inbox.mem, {}, Deliveries(p.replay.disk));
    }
  }

  lemma ClosesMore(a: Inbox, b: Inbox, few: set<string>, many: set<string>)
    requires Closes(a, b, few) && few <= many
    ensures Closes(a, b, many)
  {
  }

  lemma HandBackReplay(p: Protocol, event: string, retries: bool, marks: bool)
    ensures HandBack(p, event, retries, marks).replay == p.replay
  {
  }

  /** A reconciliation that closed something closed the one queued event, in both files. */
  lemma RecoverAnswers(s: Store, event: string, lands: bool)
    requires Sound(s.mem)
    ensures var (after, reply) := RecoverDelivered(s, {event}, lands);
      reply.Found? && reply.count > 0 ==>
        && HasEvent(s.mem.pending, event) && !HasEvent(after.mem.pending, event) && after.mem == after.disk
  {
    var answered := Filter(IsAnswered({event}), s.mem.pending);
    if |answered| > 0 {
      assert answered[0] in answered;
      RunFound(s.mem.pending, answered[0]);
    }
    RecoveredFollows(s.mem, {event});
    var left := BriefingInbox.Recovered(s.mem, {event}).pending;
    forall i | 0 <= i < |left| ensures left[i].wake.eventId != event {
      assert left[i] in left;
    }
  }

  /** A start calls delivered only what the replay file answered. */
  lemma BootTruth(p: Protocol, replay: seq<Entry>, opens: bool, loads: bool, recovers: bool)
    requires StoreSound(p.inbox) && Snapshot(replay)
    ensures Closes(p.inbox.mem, Boot(p.inbox.disk, replay, opens, loads, recovers).inbox.mem, Deliveries(replay))
    ensures Boot(p.inbox.disk, replay, opens, loads, recovers).replay.disk == replay
  {
    hide Sound;
    OpenKeeps(p.inbox.disk, opens);
    SoundReloads(p.inbox.mem);
    MapCloses(p.inbox.mem, RowIds(p.inbox.mem.rows), Pending);
    ReloadsItself(OpenRing(replay), loads);
    RecoverCloses(Open(p.inbox.disk, opens), Deliveries(replay), recovers);
  }

  lemma OwnerTruth(p: Protocol, surface: string, turn: string, text: string, resumes: bool, saves: bool)
    ensures Closes(p.inbox.mem, OwnerTurn(p, surface, turn, text, resumes, saves).next.inbox.mem, {})
  {
    hide Closes;
    ClosesItself(p.inbox.mem, {});
    MapCloses(p.inbox.mem, RowIds(p.inbox.mem.rows), Pending);
  }

  lemma CrashTruth(p: Protocol, event: string, message: Message, opens: bool, loads: bool, recovers: bool)
    requires SlotSane(p) && FilesSound(p)
    ensures var next := Boot(p.inbox.disk, p.replay.disk, opens, loads, recovers);
      Closes(p.inbox.mem, next.inbox.mem, Deliveries(next.replay.disk))
    ensures var q := HalfAnswered(p, event, message);
      var next := Boot(q.inbox.disk, q.replay.disk, opens, loads, recovers);
      Closes(p.inbox.mem, next.inbox.mem, Deliveries(next.replay.disk))
  {
    hide StoreSound, Boot, RecordDelivery, Closes;
    RecordDeliveryKeeps(p.replay, event, message, true);
    BootTruth(p, p.replay.disk, opens, loads, recovers);
    BootTruth(p, HalfAnswered(p, event, message).replay.disk, opens, loads, recovers);
  }

  /** Steps other than ingress call delivered only what the replay file answers. */
  lemma StepCloses(p: Protocol, step: Step)
    requires SlotSane(p) && FilesSound(p) && !step.DoIngress?
    ensures var next := DeliveryProtocol.Perform(p, step).next;
      Closes(p.inbox.mem, next.inbox.mem, Deliveries(next.replay.disk))
    ensures Announced(p, DeliveryProtocol.Perform(p, step))
  {
    hide SlotSane, FilesSound, Closes, Dispatch, Answer, Settle, HandBack, OwnerTurn, Boot, HalfAnswered, Take, Record;
    hide LogicalFor, Deliveries, OfferOpen, Lines;
    var e := DeliveryProtocol.Perform(p, step);
    ClosesItself(p.inbox.mem, Deliveries(e.next.replay.disk));
    match step
    case DoDispatch(reserves, sent, retries, marks) => DispatchTruth(p, reserves, sent, retries, marks);
      ClosesMore(p.inbox.mem, e.next.inbox.mem, {}, Deliveries(e.next.replay.disk));
    case DoAnswer(event, message, records, acks, marks) => AnswerTruth(p, event, message, records, acks, marks);
    case DoSettle(event, closes, retries, marks) => SettleTruth(p, event, closes, retries, marks);
    case DoAgentLeft(retries, marks) =>
      if p.active.Some? {
        HandBackTruth(p.(agent := false, started := false), p.active.value, retries, marks);
        ClosesMore(p.inbox.mem, e.next.inbox.mem, {}, Deliveries(e.next.replay.disk));
      }
    case DoSurfaceMessage(name, turn, text, sent, resumes, saves) =>
      OwnerTruth(p, name, turn, text, resumes, saves);
      OwnerSilent(p, name, turn, text, resumes, saves);
      ClosesMore(p.inbox.mem, OwnerTurn(p, name, turn, text, resumes, saves).next.inbox.mem, {},
          Deliveries(e.next.replay.disk));
    case DoTerminalTurn(turn, text, resumes, saves) =>
      OwnerTruth(p, TERMINAL_SURFACE, turn, text, resumes, saves);
      OwnerSilent(p, TERMINAL_SURFACE, turn, text, resumes, saves);
      ClosesMore(p.inbox.mem, OwnerTurn(p, TERMINAL_SURFACE, turn, text, resumes, saves).next.inbox.mem, {},
          Deliveries(e.next.replay.disk));
    case DoDismiss(id, lands) =>
      SameRowsClose(p.inbox.mem, e.next.inbox.mem, Deliveries(e.next.replay.disk));
    case DoCrash(opens, loads, recovers) => CrashTruth(p, "", UserMessage("", ""), opens, loads, recovers);
    case DoCrashMidAnswer(event, message, opens, loads, recovers) =>
      CrashTruth(p, event, message, opens, loads, recovers);
    case _ =>
  }

  lemma SameRowsClose(a: Inbox, b: Inbox, events: set<string>)
    requires a.rows == b.rows
    ensures Closes(a, b, events)
  {
  }

  lemma OwnerSilent(p: Protocol, surface: string, turn: string, text: string, resumes: bool, saves: bool)
    ensures OwnerTurn(p, surface, turn, text, resumes, saves).answered.None?
  {
  }

  /**
    Over every step: a row becomes delivered only when its answer is in the
    replay file, and an answer is announced only when both files are written.
  */
  lemma StepTruth(p: Protocol, step: Step, id: string)
    requires SlotSane(p) && FilesSound(p) && Admissible(step)
    ensures var e := DeliveryProtocol.Perform(p, step);
      && Announced(p, e)
      && (IsDelivered(e.next.inbox.mem.rows, id) && !IsDelivered(p.inbox.mem.rows, id) ==>
            Witnessed(p, step, e.next, id))
  {
    hide SlotSane, FilesSound, Ingress, Dispatch, Answer, Settle, AgentLeft, OwnerTurn, Boot, HalfAnswered;
    if step.DoIngress? {
      var next := Ingress(p, step.row, step.wake, step.stores, step.marks);
      if IsDelivered(next.inbox.mem.rows, id) && !IsDelivered(p.inbox.mem.rows, id) {
        IngressTruth(p, step.row, step.wake, step.stores, step.marks, id);
      }
    } else {
      StepCloses(p, step);
    }
  }
}
