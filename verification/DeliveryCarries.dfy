/** What one step of the protocol does to the inbox: it queues at most the wake ingress brought, forgets only rows
    that were stopped or delivered, and calls a row delivered only when its answer is on disk. */
module DeliveryCarries {
  import opened Prelude
  import opened BriefingRows
  import opened BriefingInbox
  import opened BriefingInboxLaws
  import opened BriefingUpsertLaws
  import opened BriefingReopenLaws
  import opened BriefingFollows
  import opened ConversationRing
  import opened DeliveryProtocol
  import opened DeliverySlot
  import opened DeliveryStores

  predicate Finished(box: Inbox, id: string) {
    HasRow(box.rows, id) && (RowOf(box.rows, id).delivery.Failed? || RowOf(box.rows, id).delivery.Delivered?)
  }

  /** `Follows` without reservations, and with what becomes of the rows. */
  ghost predicate Carries(a: Inbox, b: Inbox, added: Option<Queued>, reported: Option<string>) {
    && Sound(a) && Sound(b)
    && (forall q :: q in b.pending ==> q in a.pending || Joins(a, added, q))
    && (forall id :: HasRow(b.rows, id) ==> HasRow(a.rows, id) || reported == Some(id))
    && (forall id :: HasRow(a.rows, id) && !HasRow(b.rows, id) ==> Finished(a, id))
    && (forall id :: Kept(a, id) && HasRow(b.rows, id) ==> Kept(b, id))
    && (forall id :: HasRow(a.rows, id) && HasRow(b.rows, id) ==>
          RowOf(b.rows, id).Logical() == RowOf(a.rows, id).Logical())
  }

  lemma FollowsCarries(a: Inbox, b: Inbox)
    requires Follows(a, b, None) && SameRows(a, b)
    ensures Carries(a, b, None, None)
  {
  }

  /** A step that reports, then moves only delivery states. */
  lemma CarriesThen(a: Inbox, b: Inbox, c: Inbox, added: Option<Queued>, reported: Option<string>)
    requires Carries(a, b, added, reported) && Follows(b, c, None) && SameRows(b, c)
    ensures Carries(a, c, added, reported)
  {
  }

  lemma CarriesItself(box: Inbox)
    requires Sound(box)
    ensures Carries(box, box, None, None)
  {
  }

  lemma UpsertCarries(s: Store, row: Row, wake: Option<Wake>, delivered: bool, lands: bool)
    requires Sound(s.mem) && row.Counted()
    ensures Carries(s.mem, Upsert(s, row, wake, delivered, lands).mem, Added(row, wake, delivered), Some(row.id))
  {
    UpsertStore(s, row, wake, delivered, lands);
    if UpsertPlan(s.mem, row, wake, delivered).Target? {
      var victim := UpsertEvictsOne(s.mem, row, wake, delivered);
      if victim.Some? && victim.value in s.mem.rows {
        RowFound(s.mem.rows, victim.value);
      }
    }
  }

  /** The wake a step may queue, and the run it may start to retain. */
  function AddedBy(p: Protocol, step: Step): Option<Queued> {
    if step.DoIngress? then Added(step.row, step.wake, AlreadySaid(p, step.row, step.wake)) else None
  }

  function ReportedBy(step: Step): Option<string> {
    if step.DoIngress? then Some(step.row.id) else None
  }

  lemma IngressCarries(p: Protocol, row: Row, wake: Option<Wake>, stores: bool, marks: bool)
    requires Sound(p.inbox.mem) && row.Counted()
    ensures Carries(p.inbox.mem, Ingress(p, row, wake, stores, marks).inbox.mem,
                    Added(row, wake, AlreadySaid(p, row, wake)), Some(row.id))
  {
    hide QueuedDeliveryFailed, Upsert, UpsertOutcome, AlreadySaid;
    var said := AlreadySaid(p, row, wake);
    var s := Upsert(p.inbox, row, wake, said, stores);
    UpsertCarries(p.inbox, row, wake, said, stores);
    StopStore(s, marks);
    CarriesThen(p.inbox.mem, s.mem, QueuedDeliveryFailed(s, marks).0.mem, Added(row, wake, said), Some(row.id));
  }

  lemma ReserveCarries(s: Store, event: string, retries: bool)
    requires Sound(s.mem) && HasEvent(s.mem.pending, event)
    ensures var reserved := ReassignStore(s, event, InProgress, true).0;
      && Carries(s.mem, reserved.mem, None, None)
      && Carries(s.mem, ReassignStore(reserved, event, Pending, retries).0.mem, None, None)
  {
    ReserveFollows(s.mem, event);
    var reserved := ReassignStore(s, event, InProgress, true).0;
    RetryStore(reserved, event, retries);
    CarriesThen(s.mem, reserved.mem, ReassignStore(reserved, event, Pending, retries).0.mem, None, None);
  }

  lemma DispatchCarries(p: Protocol, reserves: bool, sent: bool, retries: bool, marks: bool)
    requires Sound(p.inbox.mem)
    ensures Carries(p.inbox.mem, Dispatch(p, reserves, sent, retries, marks).inbox.mem, None, None)
  {
    hide QueuedDeliveryFailed, ReassignStore, Carries, Sound;
    var k := NextAt(p.inbox.mem);
    StopStore(p.inbox, marks);
    FollowsCarries(p.inbox.mem, QueuedDeliveryFailed(p.inbox, marks).0.mem);
    CarriesItself(p.inbox.mem);
    if k < |p.inbox.mem.pending| {
      RunFound(p.inbox.mem.pending, p.inbox.mem.pending[k]);
      ReserveCarries(p.inbox, p.inbox.mem.pending[k].wake.eventId, retries);
    }
  }

  lemma HandBackCarries(p: Protocol, event: string, retries: bool, marks: bool)
    requires Sound(p.inbox.mem)
    ensures Carries(p.inbox.mem, HandBack(p, event, retries, marks).inbox.mem, None, None)
  {
    hide QueuedDeliveryFailed, Carries;
    RetryStore(p.inbox, event, retries);
    FollowsCarries(p.inbox.mem, ReassignStore(p.inbox, event, Pending, retries).0.mem);
    StopStore(p.inbox, marks);
    FollowsCarries(p.inbox.mem, QueuedDeliveryFailed(p.inbox, marks).0.mem);
  }

  lemma AnswerCarries(p: Protocol, event: string, message: Message, records: bool, acks: bool, marks: bool)
    requires Sound(p.inbox.mem)
    ensures Carries(p.inbox.mem, Answer(p, event, message, records, acks, marks).next.inbox.mem, None, None)
  {
    hide Carries, Sound, Close, Begin, RecordDelivery, DeliveryOutcome;
    CarriesItself(p.inbox.mem);
    var q := Begin(p, event).(replay := RecordDelivery(p.replay, event, message, records));
    BeginInbox(p, event);
    CloseCarries(q, event, acks, marks);
  }

  lemma BeginInbox(p: Protocol, event: string)
    ensures Begin(p, event).inbox == p.inbox
  {
  }

  lemma CloseCarries(q: Protocol, event: string, acks: bool, marks: bool)
    requires Sound(q.inbox.mem)
    ensures Carries(q.inbox.mem, Close(q, event, acks, marks).next.inbox.mem, None, None)
  {
    hide QueuedDeliveryFailed, Carries, Sound, Acknowledge, DeliveryMessage;
    CarriesItself(q.inbox.mem);
    AckStore(q.inbox, event, acks);
    FollowsCarries(q.inbox.mem, Acknowledge(q.inbox, event, acks).0.mem);
    StopStore(q.inbox, marks);
    FollowsCarries(q.inbox.mem, QueuedDeliveryFailed(q.inbox, marks).0.mem);
  }

  lemma SettleCarries(p: Protocol, event: string, closes: bool, retries: bool, marks: bool)
    requires Sound(p.inbox.mem)
    ensures Carries(p.inbox.mem, Settle(p, event, closes, retries, marks).next.inbox.mem, None, None)
  {
    hide Carries, Sound, RecoverDelivered, HandBack, DeliveryMessage;
    CarriesItself(p.inbox.mem);
    RecoverStore(p.inbox, {event}, closes);
    FollowsCarries(p.inbox.mem, RecoverDelivered(p.inbox, {event}, closes).0.mem);
    HandBackCarries(p, event, retries, marks);
  }

  lemma OwnerCarries(p: Protocol, surface: string, turn: string, text: string, resumes: bool, saves: bool)
    requires Sound(p.inbox.mem)
    ensures Carries(p.inbox.mem, OwnerTurn(p, surface, turn, text, resumes, saves).next.inbox.mem, None, None)
  {
    hide Carries, ResumeStopped;
    CarriesItself(p.inbox.mem);
    ResumeStore(p.inbox, resumes);
    FollowsCarries(p.inbox.mem, ResumeStopped(p.inbox, resumes).0.mem);
  }

  /** A restart carries the inbox across, less what the replay already answered. */
  lemma BootCarries(p: Protocol, replay: seq<Entry>, opens: bool, loads: bool, recovers: bool)
    requires StoreSound(p.inbox)
    ensures Carries(p.inbox.mem, Boot(p.inbox.disk, replay, opens, loads, recovers).inbox.mem, None, None)
    ensures forall q :: q in Boot(p.inbox.disk, replay, opens, loads, recovers).inbox.mem.pending ==>
        q in p.inbox.mem.pending
  {
    hide Sound;
    var store := Open(p.inbox.disk, opens);
    OpenKeeps(p.inbox.disk, opens);
    SoundReloads(p.inbox.mem);
    ResumedFollows(p.inbox.mem);
    FollowsCarries(p.inbox.mem, store.mem);
    var answered := Deliveries(OpenHistory(replay, loads).ring.entries);
    RecoverStore(store, answered, recovers);
    CarriesThen(p.inbox.mem, store.mem, RecoverDelivered(store, answered, recovers).0.mem, None, None);
  }

  lemma DismissCarries(p: Protocol, id: string, lands: bool)
    requires SlotSane(p)
    ensures Carries(p.inbox.mem, Dismiss(p.inbox, id, lands).mem, None, None)
  {
    DismissSane(p, id, lands);
    assert Dismiss(p.inbox, id, lands).mem.rows == p.inbox.mem.rows;
  }

  lemma SaneParts(p: Protocol)
    ensures SlotSane(p) ==> Sound(p.inbox.mem)
    ensures FilesSound(p) ==> StoreSound(p.inbox)
  {
    hide Sound, StoreSound;
  }

  /** Steps that leave the rows and the queue alone. */
  lemma OtherCarries(p: Protocol, step: Step)
    requires Sound(p.inbox.mem)
    requires step.DoStarted? || step.DoAgentJoined? || step.DoAgentLost? || step.DoReply? || step.DoAbort?
             || step.DoTurnClosed? || step.DoOfferTake? || step.DoLifecycle?
    ensures Carries(p.inbox.mem, DeliveryProtocol.Perform(p, step).next.inbox.mem, None, None)
  {
    hide Carries, Sound, LogicalFor, Record, Take;
    CarriesItself(p.inbox.mem);
  }

  lemma MessageCarries(p: Protocol, name: string, turn: string, text: string, sent: bool, resumes: bool, saves: bool)
    requires Sound(p.inbox.mem)
    ensures Carries(p.inbox.mem, SurfaceMessage(p, name, turn, text, sent, resumes, saves).next.inbox.mem, None, None)
    ensures Carries(p.inbox.mem, TerminalTurn(p, turn, text, resumes, saves).next.inbox.mem, None, None)
  {
    hide Carries, Sound, OwnerTurn;
    CarriesItself(p.inbox.mem);
    OwnerCarries(p, name, turn, text, resumes, saves);
    OwnerCarries(p, TERMINAL_SURFACE, turn, text, resumes, saves);
  }

  lemma AgentLeftCarries(p: Protocol, retries: bool, marks: bool)
    requires Sound(p.inbox.mem)
    ensures Carries(p.inbox.mem, AgentLeft(p, retries, marks).inbox.mem, None, None)
  {
    hide Carries, Sound, HandBack;
    CarriesItself(p.inbox.mem);
    if p.active.Some? {
      HandBackCarries(p.(agent := false, started := false), p.active.value, retries, marks);
    }
  }

  lemma StepCarries(p: Protocol, step: Step)
    requires SlotSane(p) && FilesSound(p) && Admissible(step)
    ensures Carries(p.inbox.mem, DeliveryProtocol.Perform(p, step).next.inbox.mem, AddedBy(p, step), ReportedBy(step))
  {
    hide Carries, SlotSane, FilesSound, Ingress, Dispatch, Answer, Settle, AgentLeft, SurfaceMessage;
    hide TerminalTurn, Boot;
    hide Dismiss, AlreadySaid, RecordDelivery;
    SaneParts(p);
    match step
    case DoIngress(row, wake, stores, marks) => IngressCarries(p, row, wake, stores, marks);
    case DoDispatch(reserves, sent, retries, marks) => DispatchCarries(p, reserves, sent, retries, marks);
    case DoAnswer(event, message, records, acks, marks) => AnswerCarries(p, event, message, records, acks, marks);
    case DoSettle(event, closes, retries, marks) => SettleCarries(p, event, closes, retries, marks);
    case DoAgentLeft(retries, marks) => AgentLeftCarries(p, retries, marks);
    case DoSurfaceMessage(name, turn, text, sent, resumes, saves) =>
      MessageCarries(p, name, turn, text, sent, resumes, saves);
    case DoTerminalTurn(turn, text, resumes, saves) => MessageCarries(p, "", turn, text, true, resumes, saves);
    case DoDismiss(id, lands) => DismissCarries(p, id, lands);
    case DoCrash(opens, loads, recovers) => BootCarries(p, p.replay.disk, opens, loads, recovers);
    case DoCrashMidAnswer(event, message, opens, loads, recovers) =>
      BootCarries(p, HalfAnswered(p, event, message).replay.disk, opens, loads, recovers);
    case _ => OtherCarries(p, step);
  }
}
