/** One model slot. Over every interleaving of ingress, dispatch, turns, owner messages, lost agents, failed writes
    and crashes: a stopped circuit reserves nothing, a running one reserves no row but the active event's, and an
    owner waiting at a surface is never overtaken by a briefing. */
module DeliverySlot {
  import opened Prelude
  import opened BriefingRows
  import opened BriefingInbox
  import opened BriefingInboxLaws
  import opened BriefingFollows
  import opened ConversationRing
  import opened BriefingReopenLaws
  import opened DeliveryProtocol

  /** Every reserved row is the row of the active event. */
  ghost predicate Owned(box: Inbox, active: Option<string>) {
    forall id :: Reserved(box, id) ==>
      active.Some? && HasEvent(box.pending, active.value) && RunFor(box.pending, active.value) == id
  }

  ghost predicate SlotSound(p: Protocol) {
    && (p.circuit ==> p.active.None?)
    && (!p.circuit ==> Owned(p.inbox.mem, p.active))
    && (p.active.Some? ==> p.surface.None? || p.surface.value == TERMINAL_SURFACE)
    && (p.started ==> p.active.Some?)
  }

  ghost predicate SlotSane(p: Protocol) { Sound(p.inbox.mem) && SlotSound(p) }

  // ---- ownership over the inbox operations ----

  lemma OwnedFollows(a: Inbox, b: Inbox, added: Option<Queued>, active: Option<string>)
    requires Follows(a, b, added) && Owned(a, active)
    ensures Owned(b, active)
  {
    forall id | Reserved(b, id)
      ensures active.Some? && HasEvent(b.pending, active.value) && RunFor(b.pending, active.value) == id {
      var q := a.pending[EventAt(a.pending, active.value)];
      assert q in a.pending;
      WakeFound(a.pending, q);
      assert RowOf(b.rows, id) in b.rows;
      var r := b.pending[RunAt(b.pending, id)];
      assert r in b.pending;
      WakeFound(b.pending, r);
      assert r in a.pending;
      WakeFound(a.pending, r);
    }
  }

  lemma OwnedHandedBack(box: Inbox, event: string)
    requires Sound(box) && Owned(box, Some(event))
    ensures Owned(Reassign(box, event, Pending), None)
  {
    RetryFollows(box, event);
  }

  lemma OwnedReserved(box: Inbox, event: string)
    requires Sound(box) && Owned(box, None) && HasEvent(box.pending, event)
    ensures Owned(Reassign(box, event, InProgress), Some(event))
  {
    ReserveFollows(box, event);
  }

  lemma OwnedAcked(box: Inbox, event: string)
    requires Sound(box) && Owned(box, Some(event)) && HasEvent(box.pending, event)
    ensures Owned(Acked(box, event), None)
  {
    AckedFollows(box, event);
    AckedSound(box, event);
  }

  lemma OwnedRecovered(box: Inbox, event: string)
    requires Sound(box) && Owned(box, Some(event))
    ensures Owned(BriefingInbox.Recovered(box, {event}), None)
  {
    hide Sound, BriefingInbox.Recovered;
    RecoveredFollows(box, {event});
    forall id | Reserved(box, id) ensures !Reserved(BriefingInbox.Recovered(box, {event}), id) {
      ReservedRecovers(box, event, id);
    }
  }

  lemma ReservedRecovers(box: Inbox, event: string, id: string)
    requires Sound(box) && HasEvent(box.pending, event) && RunFor(box.pending, event) == id
    ensures !Reserved(BriefingInbox.Recovered(box, {event}), id)
  {
    RecoveredSound(box, {event});
    RedeliveredKeeps(box.rows, BriefingInbox.Recovered(box, {event}).rows);
    assert box.pending[EventAt(box.pending, event)] in box.pending;
  }

  // ---- the store operations the protocol uses ----

  lemma BatchFollows(s: Store, next: Inbox, changed: nat, lands: bool)
    requires Follows(s.mem, next, None) && SameRows(s.mem, next)
    ensures Follows(s.mem, Batch(next, changed, s, lands).0.mem, None)
    ensures SameRows(s.mem, Batch(next, changed, s, lands).0.mem)
  {
    FollowsItself(s.mem);
  }

  lemma StopStore(s: Store, marks: bool)
    requires Sound(s.mem)
    ensures Follows(s.mem, QueuedDeliveryFailed(s, marks).0.mem, None)
    ensures SameRows(s.mem, QueuedDeliveryFailed(s, marks).0.mem)
    ensures QueuedDeliveryFailed(s, marks).0.mem.pending == s.mem.pending
  {
    StoppedFollows(s.mem);
    BatchFollows(s, StoppedRows(s.mem), CountIn(s.mem.rows, QueuedRuns(s.mem.pending), Delivery.Failed), marks);
  }

  lemma RetryStore(s: Store, event: string, lands: bool)
    requires Sound(s.mem)
    ensures Follows(s.mem, ReassignStore(s, event, Pending, lands).0.mem, None)
    ensures SameRows(s.mem, ReassignStore(s, event, Pending, lands).0.mem)
    ensures ReassignStore(s, event, Pending, lands).0.mem.pending == s.mem.pending
    ensures ReassignStore(s, event, Pending, lands).1 ==>
      ReassignStore(s, event, Pending, lands).0.mem == Reassign(s.mem, event, Pending)
  {
    FollowsItself(s.mem);
    RetryFollows(s.mem, event);
  }

  lemma AckStore(s: Store, event: string, lands: bool)
    requires Sound(s.mem)
    ensures Follows(s.mem, Acknowledge(s, event, lands).0.mem, None)
    ensures SameRows(s.mem, Acknowledge(s, event, lands).0.mem)
  {
    FollowsItself(s.mem);
    if HasEvent(s.mem.pending, event) {
      AckedFollows(s.mem, event);
    }
  }

  lemma RecoverStore(s: Store, replay: set<string>, lands: bool)
    requires Sound(s.mem)
    ensures Follows(s.mem, RecoverDelivered(s, replay, lands).0.mem, None)
    ensures SameRows(s.mem, RecoverDelivered(s, replay, lands).0.mem)
  {
    RecoveredFollows(s.mem, replay);
    BatchFollows(s, BriefingInbox.Recovered(s.mem, replay), |Filter(IsAnswered(replay), s.mem.pending)|, lands);
  }

  lemma ResumeStore(s: Store, lands: bool)
    requires Sound(s.mem)
    ensures Follows(s.mem, ResumeStopped(s, lands).0.mem, None)
    ensures SameRows(s.mem, ResumeStopped(s, lands).0.mem)
    ensures ResumeStopped(s, lands).0.mem.pending == s.mem.pending
    ensures ResumeStopped(s, lands).1.Found? ==> Owned(ResumeStopped(s, lands).0.mem, None)
  {
    ResumedFollows(s.mem);
    var changed := CountIn(s.mem.rows, RowIds(s.mem.rows), Pending);
    BatchFollows(s, Resumed(s.mem), changed, lands);
    if changed == 0 {
      forall id ensures !Reserved(s.mem, id) {
        if HasRow(s.mem.rows, id) {
          assert RowOf(s.mem.rows, id) in s.mem.rows;
        }
      }
    }
  }

  lemma UpsertStore(s: Store, row: Row, wake: Option<Wake>, delivered: bool, lands: bool)
    requires Sound(s.mem) && row.Counted()
    ensures Follows(s.mem, Upsert(s, row, wake, delivered, lands).mem, Added(row, wake, delivered))
  {
    FollowsItself(s.mem);
    if UpsertPlan(s.mem, row, wake, delivered).Target? {
      UpsertFollows(s.mem, row, wake, delivered);
    }
  }

  // ---- every step keeps the invariant ----

  lemma IngressSane(p: Protocol, row: Row, wake: Option<Wake>, stores: bool, marks: bool)
    requires SlotSane(p) && row.Counted()
    ensures SlotSane(Ingress(p, row, wake, stores, marks))
  {
    var said := AlreadySaid(p, row, wake);
    var s := Upsert(p.inbox, row, wake, said, stores);
    UpsertStore(p.inbox, row, wake, said, stores);
    StopStore(s, marks);
    if !p.circuit {
      OwnedFollows(p.inbox.mem, s.mem, Added(row, wake, said), p.active);
    }
  }

  lemma SoundStop(s: Store, marks: bool)
    requires Sound(s.mem)
    ensures Sound(QueuedDeliveryFailed(s, marks).0.mem)
  {
    hide QueuedDeliveryFailed;
    StopStore(s, marks);
  }

  lemma DispatchSane(p: Protocol, reserves: bool, sent: bool, retries: bool, marks: bool)
    requires SlotSane(p)
    ensures SlotSane(Dispatch(p, reserves, sent, retries, marks))
  {
    hide QueuedDeliveryFailed, ReassignStore, Send, Sound, Owned;
    var k := NextAt(p.inbox.mem);
    if MayDispatch(p) && k < |p.inbox.mem.pending| {
      var event := p.inbox.mem.pending[k].wake.eventId;
      RunFound(p.inbox.mem.pending, p.inbox.mem.pending[k]);
      StopStore(p.inbox, marks);
      SoundStop(p.inbox, marks);
      SendSane(p, event, sent, retries);
    }
  }

  lemma SendSane(p: Protocol, event: string, sent: bool, retries: bool)
    requires SlotSane(p) && MayDispatch(p) && HasEvent(p.inbox.mem.pending, event)
    ensures SlotSane(Send(p.(inbox := ReassignStore(p.inbox, event, InProgress, true).0), event, sent, retries))
  {
    var s := ReassignStore(p.inbox, event, InProgress, true).0;
    ReserveFollows(p.inbox.mem, event);
    OwnedReserved(p.inbox.mem, event);
    RetryStore(s, event, retries);
    OwnedHandedBack(s.mem, event);
  }

  lemma HandBackSane(p: Protocol, event: string, retries: bool, marks: bool)
    requires Sound(p.inbox.mem) && !p.circuit && Owned(p.inbox.mem, Some(event))
    ensures SlotSane(HandBack(p, event, retries, marks))
  {
    RetryStore(p.inbox, event, retries);
    OwnedHandedBack(p.inbox.mem, event);
    StopStore(p.inbox, marks);
  }

  lemma CloseSane(q: Protocol, event: string, acks: bool, marks: bool)
    requires SlotSane(q) && q.active == Some(event)
    ensures SlotSane(Close(q, event, acks, marks).next)
  {
    AckStore(q.inbox, event, acks);
    StopStore(q.inbox, marks);
    if HasEvent(q.inbox.mem.pending, event) {
      OwnedAcked(q.inbox.mem, event);
    }
  }

  lemma AnswerSane(p: Protocol, event: string, message: Message, records: bool, acks: bool, marks: bool)
    requires SlotSane(p)
    ensures SlotSane(Answer(p, event, message, records, acks, marks).next)
  {
    if p.active == Some(event) {
        var q := Begin(p, event).(replay := RecordDelivery(p.replay, event, message, records));
      assert SlotSane(q);
      CloseSane(q, event, acks, marks);
    }
  }

  lemma SettleSane(p: Protocol, event: string, closes: bool, retries: bool, marks: bool)
    requires SlotSane(p)
    ensures SlotSane(Settle(p, event, closes, retries, marks).next)
  {
    if p.active == Some(event) {
      RecoverStore(p.inbox, {event}, closes);
      OwnedRecovered(p.inbox.mem, event);
      HandBackSane(p, event, retries, marks);
    }
  }

  lemma OwnerTurnSane(p: Protocol, surface: string, turn: string, text: string, resumes: bool, saves: bool)
    requires SlotSane(p) && (p.active.Some? ==> surface == TERMINAL_SURFACE)
    ensures SlotSane(OwnerTurn(p, surface, turn, text, resumes, saves).next)
  {
    ResumeStore(p.inbox, resumes);
  }

  /** Whatever files a process finds, it starts with a free slot. */
  lemma BootSane(inbox: Inbox, replay: seq<Entry>, opens: bool, loads: bool, recovers: bool)
    ensures SlotSane(Boot(inbox, replay, opens, loads, recovers))
  {
    hide OpenHistory, RecoverDelivered, Sound;
    var store := Open(inbox, opens);
    OpenedFree(inbox, opens);
    RecoverStore(store, Deliveries(OpenHistory(replay, loads).ring.entries), recovers);
  }

  /** An inbox that has just been opened reserves nothing. */
  lemma OpenedFree(inbox: Inbox, opens: bool)
    ensures var box := Open(inbox, opens).mem; Sound(box) && forall id :: !Reserved(box, id)
  {
    OpenedSound(inbox);
    var box := Open(inbox, opens).mem;
    forall id ensures !Reserved(box, id) {
      if HasRow(box.rows, id) {
        assert RowOf(box.rows, id) in box.rows;
      }
    }
  }

  lemma AgentLeftSane(p: Protocol, retries: bool, marks: bool)
    requires SlotSane(p)
    ensures SlotSane(AgentLeft(p, retries, marks))
  {
    hide HandBack, Owned, Sound;
    if p.active.Some? {
      HandBackSane(p.(agent := false, started := false), p.active.value, retries, marks);
    }
  }

  lemma MessageSane(p: Protocol, name: string, turn: string, text: string, sent: bool, resumes: bool, saves: bool)
    requires SlotSane(p)
    ensures SlotSane(SurfaceMessage(p, name, turn, text, sent, resumes, saves).next)
    ensures SlotSane(TerminalTurn(p, turn, text, resumes, saves).next)
  {
    hide OwnerTurn, Owned, Sound;
    if p.active.None? {
      OwnerTurnSane(p, name, turn, text, resumes, saves);
    }
    OwnerTurnSane(p, TERMINAL_SURFACE, turn, text, resumes, saves);
  }

  /** Steps that leave the inbox alone. */
  lemma OtherSane(p: Protocol, step: Step)
    requires SlotSane(p)
    requires step.DoStarted? || step.DoAgentJoined? || step.DoAgentLost? || step.DoReply? || step.DoAbort?
             || step.DoTurnClosed? || step.DoOfferTake? || step.DoLifecycle?
    ensures SlotSane(DeliveryProtocol.Perform(p, step).next)
  {
    hide Owned, Sound, LogicalFor, Record, Take;
  }

  lemma StepSane(p: Protocol, step: Step)
    requires SlotSane(p) && Admissible(step)
    ensures SlotSane(DeliveryProtocol.Perform(p, step).next)
  {
    hide SlotSane, Ingress, Dispatch, Answer, Settle, AgentLeft, SurfaceMessage, TerminalTurn, Boot, Dismiss;
    hide HalfAnswered;
    match step
    case DoIngress(row, wake, stores, marks) => IngressSane(p, row, wake, stores, marks);
    case DoDispatch(reserves, sent, retries, marks) => DispatchSane(p, reserves, sent, retries, marks);
    case DoAnswer(event, message, records, acks, marks) => AnswerSane(p, event, message, records, acks, marks);
    case DoSettle(event, closes, retries, marks) => SettleSane(p, event, closes, retries, marks);
    case DoAgentLeft(retries, marks) => AgentLeftSane(p, retries, marks);
    case DoSurfaceMessage(name, turn, text, sent, resumes, saves) =>
      MessageSane(p, name, turn, text, sent, resumes, saves);
    case DoTerminalTurn(turn, text, resumes, saves) => MessageSane(p, "", turn, text, true, resumes, saves);
    case DoDismiss(id, lands) => DismissSane(p, id, lands);
    case DoCrash(opens, loads, recovers) => BootSane(p.inbox.disk, p.replay.disk, opens, loads, recovers);
    case DoCrashMidAnswer(event, message, opens, loads, recovers) =>
      var q := HalfAnswered(p, event, message);
      BootSane(q.inbox.disk, q.replay.disk, opens, loads, recovers);
    case _ => OtherSane(p, step);
  }

  lemma DismissSane(p: Protocol, id: string, lands: bool)
    requires SlotSane(p)
    ensures SlotSane(p.(inbox := Dismiss(p.inbox, id, lands)))
  {
    var after := Dismiss(p.inbox, id, lands).mem;
    assert after.rows == p.inbox.mem.rows && after.pending == p.inbox.mem.pending;
    assert forall x :: Reserved(after, x) ==> Reserved(p.inbox.mem, x);
    assert forall d :: d in after.dismissed ==> d in p.inbox.mem.dismissed || d == id;
  }
}
