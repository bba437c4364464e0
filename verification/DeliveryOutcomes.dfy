/** What the steps of delivery achieve when their writes land: a stopped circuit leaves nothing to dispatch, an
    owner's turn makes everything dispatchable again, a dispatch reserves the oldest pending wake on disk first, an
    answer ends as a delivered row in both files, and a lost turn is offered again. */
module DeliveryOutcomes {
  import opened Prelude
  import opened BriefingRows
  import opened BriefingInbox
  import opened BriefingInboxLaws
  import opened BriefingFollows
  import opened ConversationRing
  import opened ConversationLaws
  import opened DeliveryProtocol
  import opened DeliverySlot

  /** Nothing in the queue may be given the slot. */
  predicate NothingToDispatch(box: Inbox) { NextAt(box) == |box.pending| }

  /** A stop that is stored leaves every queued row failed, and so nothing to dispatch. */
  lemma StopStopsAll(s: Store)
    requires Sound(s.mem)
    ensures var after := QueuedDeliveryFailed(s, true).0;
      && after.mem.pending == s.mem.pending
      && (forall q :: q in after.mem.pending ==> RowOf(after.mem.rows, q.runId).delivery.Failed?)
      && NothingToDispatch(after.mem)
  {
    var after := QueuedDeliveryFailed(s, true).0;
    StopStore(s, true);
    forall q | q in s.mem.pending
      ensures HasRow(after.mem.rows, q.runId) && RowOf(after.mem.rows, q.runId).delivery.Failed? {
      StoppedRow(s, q);
    }
  }

  lemma StoppedRow(s: Store, q: Queued)
    requires Sound(s.mem) && q in s.mem.pending
    ensures var after := QueuedDeliveryFailed(s, true).0.mem;
      HasRow(after.rows, q.runId) && RowOf(after.rows, q.runId).delivery.Failed?
  {
    var rows := s.mem.rows;
    var stopped := MapDelivery(rows, QueuedRuns(s.mem.pending), Delivery.Failed);
    SameKeysKeep(rows, stopped);
    assert q.runId in QueuedRuns(s.mem.pending);
    assert RowOf(rows, q.runId) in rows;
  }

  /** A report acknowledged after the circuit opened is stopped with the rest. */
  lemma IngressWhileStopped(p: Protocol, row: Row, wake: Option<Wake>, stores: bool)
    requires Sound(p.inbox.mem) && row.Counted() && p.circuit
    requires IngressAcked(p, row, wake, stores, true)
    ensures NothingToDispatch(Ingress(p, row, wake, stores, true).inbox.mem)
  {
    hide QueuedDeliveryFailed, Sound, NothingToDispatch;
    var said := AlreadySaid(p, row, wake);
    UpsertStore(p.inbox, row, wake, said, stores);
    StopStopsAll(Upsert(p.inbox, row, wake, said, stores));
  }

  /** An owner's turn whose reset is stored ends the stop: counters zero, no row stopped or held. */
  lemma OwnerTurnRecovers(p: Protocol, surface: string, turn: string, text: string, saves: bool)
    requires Sound(p.inbox.mem) && p.circuit
    ensures var next := OwnerTurn(p, surface, turn, text, true, saves).next;
      && !next.circuit && next.consecutive == 0 && next.runs == {}
      && next.inbox.mem.pending == p.inbox.mem.pending
      && (forall q :: q in next.inbox.mem.pending ==> IsPending(next.inbox.mem.rows, q.runId))
      && (p.lifecycle == Lifecycle.Failed(true) ==> next.lifecycle == Idle)
      && (p.lifecycle != Lifecycle.Failed(true) ==> next.lifecycle == p.lifecycle)
      && next.surface == Some(surface) && next.turn == Some(turn)
  {
    hide ResumeStopped;
    var after := ResumeStopped(p.inbox, true).0;
    ResumeStore(p.inbox, true);
    ResumedAll(p.inbox);
  }

  lemma ResumedAll(s: Store)
    requires Sound(s.mem)
    ensures ResumeStopped(s, true).1.Found?
    ensures forall q :: q in s.mem.pending ==> IsPending(ResumeStopped(s, true).0.mem.rows, q.runId)
  {
    var rows := s.mem.rows;
    var resumed := MapDelivery(rows, RowIds(rows), Pending);
    SameKeysKeep(rows, resumed);
    forall q | q in s.mem.pending ensures IsPending(ResumeStopped(s, true).0.mem.rows, q.runId) {
      assert RowOf(rows, q.runId) in rows && q.runId in RowIds(rows);
    }
  }

  /**
    A dispatch that succeeds gives the slot to the first queued wake whose row
    is pending; that row is in progress in memory and in the file, and no other
    row, nor the queue, has changed.
  */
  lemma DispatchReserves(p: Protocol, retries: bool, marks: bool)
    requires Sound(p.inbox.mem) && MayDispatch(p) && !NothingToDispatch(p.inbox.mem)
    requires var event := p.inbox.mem.pending[NextAt(p.inbox.mem)].wake.eventId;
      p.consecutive < MAX_CONSECUTIVE_PROACTIVE_TURNS || !Repeated(p, event)
    ensures var next := Dispatch(p, true, true, retries, marks);
      var q := p.inbox.mem.pending[NextAt(p.inbox.mem)];
      && next == p.(inbox := next.inbox, active := Some(q.wake.eventId), started := false)
      && next.inbox.mem == next.inbox.disk && next.inbox.mem.pending == p.inbox.mem.pending
      && Reserved(next.inbox.mem, q.runId)
      && (forall id :: HasRow(p.inbox.mem.rows, id) && id != q.runId ==>
            HasRow(next.inbox.mem.rows, id) && RowOf(next.inbox.mem.rows, id) == RowOf(p.inbox.mem.rows, id))
  {
    var q := p.inbox.mem.pending[NextAt(p.inbox.mem)];
    assert q in p.inbox.mem.pending;
    WakeFound(p.inbox.mem.pending, q);
    var rows := Reassign(p.inbox.mem, q.wake.eventId, InProgress).rows;
    SameKeysKeep(p.inbox.mem.rows, rows);
  }

  /** At the bound, a repeated logical run opens the circuit instead. */
  lemma DispatchStops(p: Protocol, reserves: bool, sent: bool, retries: bool)
    requires Sound(p.inbox.mem) && MayDispatch(p) && !NothingToDispatch(p.inbox.mem)
    requires var event := p.inbox.mem.pending[NextAt(p.inbox.mem)].wake.eventId;
      p.consecutive >= MAX_CONSECUTIVE_PROACTIVE_TURNS && Repeated(p, event)
    ensures var next := Dispatch(p, reserves, sent, retries, true);
      next.circuit && next.active.None? && next.lifecycle == p.lifecycle && NothingToDispatch(next.inbox.mem)
  {
    hide Sound, QueuedDeliveryFailed;
    StopStopsAll(p.inbox);
    StoppedFound(p.inbox);
  }

  lemma StoppedFound(s: Store)
    ensures QueuedDeliveryFailed(s, true).1.Found?
  {
  }

  /** An answer whose writes land is a delivered row without its wake, in both files, and a free slot. */
  lemma AnswerDelivers(p: Protocol, event: string, message: Message, marks: bool)
    requires SlotSane(p) && HistorySound(p.replay) && p.active == Some(event) && HasEvent(p.inbox.mem.pending, event)
    ensures var e := Answer(p, event, message, true, true, marks);
      var run := RunFor(p.inbox.mem.pending, event);
      && e.answered == Some(event) && e.next.active.None? && !e.next.circuit
      && e.next.inbox.mem == e.next.inbox.disk
      && IsDelivered(e.next.inbox.mem.rows, run) && !HasRun(e.next.inbox.mem.pending, run)
      && e.frames == [Said(if event in Deliveries(p.replay.ring.entries)
                           then DeliveryMessage(p.replay.ring.entries, event).value else message)]
  {
    hide Begin, LogicalFor, RecordDelivery, DeliveryMessage, Sound, Owned;
    var q := Begin(p, event).(replay := RecordDelivery(p.replay, event, message, true));
    BeginKeeps(p, event);
    RecordedWords(p.replay, event, message);
    DeliveryFound(p.replay.ring.entries, event);
    AckDelivers(p.inbox, event);
  }

  lemma BeginKeeps(p: Protocol, event: string)
    ensures var q := Begin(p, event);
      q.inbox == p.inbox && q.active == p.active && q.circuit == p.circuit && q.replay == p.replay
  {
  }

  /** The canonical words are the first ones recorded. */
  lemma RecordedWords(h: History, event: string, message: Message)
    requires HistorySound(h)
    ensures DeliveryMessage(RecordDelivery(h, event, message, true).ring.entries, event)
         == Some(if event in Deliveries(h.ring.entries) then DeliveryMessage(h.ring.entries, event).value else message)
  {
    DeliveryFound(h.ring.entries, event);
    if event !in Deliveries(h.ring.entries) {
      PushDeliveries(h.ring, message, Some(event));
    }
  }

  lemma AckDelivers(s: Store, event: string)
    requires Sound(s.mem) && HasEvent(s.mem.pending, event)
    ensures var (after, reply) := Acknowledge(s, event, true);
      var run := RunFor(s.mem.pending, event);
      && reply == Found(1) && after.mem == after.disk
      && IsDelivered(after.mem.rows, run) && !HasRun(after.mem.pending, run)
  {
    var k := EventAt(s.mem.pending, event);
    var run := RunFor(s.mem.pending, event);
    assert s.mem.pending[k] in s.mem.pending;
    SameKeysKeep(s.mem.rows, Acked(s.mem, event).rows);
    WithoutRun(s.mem.pending, k, run);
  }

  /** A turn that is lost with its agent, or settles unanswered, is queued and pending again. */
  lemma LostTurnIsOffered(p: Protocol, event: string, marks: bool)
    requires SlotSane(p) && p.active == Some(event) && HasEvent(p.inbox.mem.pending, event)
    ensures var next := AgentLeft(p, true, marks);
      && next.active.None? && !next.agent && !next.started && next.circuit == p.circuit
      && next.inbox.mem.pending == p.inbox.mem.pending
      && IsPending(next.inbox.mem.rows, RunFor(p.inbox.mem.pending, event))
    ensures event !in Deliveries(p.replay.ring.entries) ==>
      forall closes :: Settle(p, event, closes, true, marks).next
        == AgentLeft(p, true, marks).(agent := p.agent)
  {
    hide Owned, RecoverDelivered;
    DeliveryFound(p.replay.ring.entries, event);
    var run := RunFor(p.inbox.mem.pending, event);
    assert p.inbox.mem.pending[EventAt(p.inbox.mem.pending, event)] in p.inbox.mem.pending;
    SameKeysKeep(p.inbox.mem.rows, Reassign(p.inbox.mem, event, Pending).rows);
  }

  // ---- the owner's turns ----

  /** The steps that end the open turn: what answers it, gives it up, replaces it, or forgets it. */
  predicate Ends(p: Protocol, step: Step) {
    match step
    case DoReply(answers, _, _, _, _) => p.agent && (if answers.Some? then answers == p.turn else p.active.None?)
    case DoAbort(sent) => p.agent && sent
    case DoTurnClosed => true
    case DoSurfaceMessage(_, _, _, sent, _, _) => p.agent && sent && p.active.None?
    case DoTerminalTurn(_, _, _, _) => p.agent
    case DoCrash(_, _, _) => true
    case DoCrashMidAnswer(_, _, _, _, _) => true
    case _ => false
  }

  /** A step leaves the open turn and its surface alone unless it ends it, and ends it unless it opens it again. */
  lemma EndsIff(p: Protocol, step: Step)
    requires p.turn.Some?
    ensures var next := DeliveryProtocol.Perform(p, step).next;
      && (!Ends(p, step) ==> next.turn == p.turn && next.surface == p.surface)
      && (Ends(p, step) ==>
            || (next.turn.None? && next.surface.None?)
            || (step.DoSurfaceMessage? && next.turn == Some(step.turn) && next.surface == Some(step.name))
            || (step.DoTerminalTurn? && next.turn == Some(step.turn) && next.surface == Some(TERMINAL_SURFACE)))
  {
    hide QueuedDeliveryFailed, Upsert, UpsertOutcome, ResumeStopped, ReassignStore, RecoverDelivered, Acknowledge;
    hide RecordDelivery, DeliveryOutcome, LogicalFor, NextAt, Open, OpenHistory, DeliveryMessage, Record, Take;
  }

  ghost function After(p: Protocol, steps: seq<Step>): Protocol
    decreases |steps|
  {
    if steps == [] then p else After(DeliveryProtocol.Perform(p, steps[0]).next, steps[1..])
  }

  /** No step of a run ends the turn that is open at its start. */
  ghost predicate NoneEnds(p: Protocol, steps: seq<Step>)
    decreases |steps|
  {
    steps == [] || (!Ends(p, steps[0]) && NoneEnds(DeliveryProtocol.Perform(p, steps[0]).next, steps[1..]))
  }

  lemma {:induction false} OpenUntilEnded(p: Protocol, steps: seq<Step>)
    requires p.turn.Some? && NoneEnds(p, steps)
    ensures After(p, steps).turn == p.turn && After(p, steps).surface == p.surface
    decreases |steps|
  {
    hide DeliveryProtocol.Perform, Ends;
    if steps != [] {
      EndsIff(p, steps[0]);
      OpenUntilEnded(DeliveryProtocol.Perform(p, steps[0]).next, steps[1..]);
    }
  }

  /**
    Over any run an owner's turn stays open until something ends it, and the
    answer that names it then is recorded once, for the surface that asked if
    it is still there, and closes it. Briefings, other answers, failed writes
    and lost agents in between change nothing of that.
  */
  lemma AnsweredWhereAsked(p: Protocol, surface: string, turn: string, text: string, resumes: bool, saves: bool,
                           steps: seq<Step>, answer: string, offers: seq<Offer>, present: bool, stores: bool)
    requires var asked := OwnerTurn(p, surface, turn, text, resumes, saves).next;
      NoneEnds(asked, steps) && After(asked, steps).agent
    ensures var asked := OwnerTurn(p, surface, turn, text, resumes, saves).next;
      var e := DeliveryProtocol.Reply(After(asked, steps), Some(turn), answer, offers, present, stores);
      var heard := if present || surface == TERMINAL_SURFACE then surface else UNPROMPTED_SURFACE;
      && e.frames == [Said(Message(Assistant, heard, answer, offers))]
      && e.next.replay.ring == Push(After(asked, steps).replay.ring, Message(Assistant, heard, answer, offers), None)
      && e.next.turn.None? && e.next.surface.None?
  {
    hide NoneEnds, After, ResumeStopped, Push;
    OpenUntilEnded(OwnerTurn(p, surface, turn, text, resumes, saves).next, steps);
  }
}
