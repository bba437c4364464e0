/** The state machine read field by field: who holds the slot and when it is free, what opens the circuit and what
    closes it, what the service shows of itself, whether the agent and an owner's turn are there, which inbox
    operations a step performs, and what the surfaces are told. Handler by handler it is the same machine. */
module DeliveryChanges {
  import opened Prelude
  import opened BriefingRows
  import opened BriefingInbox
  import opened BriefingInboxLaws
  import opened BriefingEffects
  import opened ConversationRing
  import opened ConversationLaws
  import opened DeliveryProtocol
  import opened DeliverySlot
  import opened DeliveryRecords

  // ---- what is so before a step ----

  /** A dispatch may give the slot away. */
  predicate MayRun(p: Protocol) {
    p.lifecycle.Idle? && p.surface.None? && p.active.None? && p.agent && !p.circuit
  }

  /** A queued wake may be given the slot. */
  predicate Waiting(p: Protocol) { NextAt(p.inbox.mem) < |p.inbox.mem.pending| }

  /** The first queued wake whose row is pending. */
  function InLine(p: Protocol): Queued
    requires Waiting(p)
  {
    p.inbox.mem.pending[NextAt(p.inbox.mem)]
  }

  /** Three turns were started and the run in line had one of those the breaker knows of. */
  predicate Tired(p: Protocol)
    requires Waiting(p)
  {
    p.consecutive >= 3 && RowOf(p.inbox.mem.rows, InLine(p).runId).Logical() in p.runs
  }

  predicate InQueue(p: Protocol, event: string) { HasEvent(p.inbox.mem.pending, event) }

  predicate InReplay(p: Protocol, event: string) { event in Deliveries(p.replay.ring.entries) }

  /** The dispatch of the run in line gets to reserving its row. */
  predicate Reserves(p: Protocol, step: Step) { step.DoDispatch? && MayRun(p) && Waiting(p) && !Tired(p) }

  /** An answer to the active event that is in the replay now. */
  predicate Answers(p: Protocol, step: Step) {
    step.DoAnswer? && p.active == Some(step.event) && (step.records || InReplay(p, step.event))
  }

  /** A settlement of the active event that closes it with the answer already recorded. */
  predicate ClosesLate(p: Protocol, step: Step) {
    && step.DoSettle? && p.active == Some(step.event)
    && InReplay(p, step.event) && InQueue(p, step.event) && step.closes
  }

  /** The active event is given up: settled without such an answer, or lost with its agent. */
  predicate GivesBack(p: Protocol, step: Step) {
    && p.active.Some?
    && (step.DoAgentLeft? || (step.DoSettle? && p.active == Some(step.event) && !ClosesLate(p, step)))
  }

  /** Its row cannot be made pending again. */
  predicate Sticks(p: Protocol, step: Step) {
    GivesBack(p, step) && InQueue(p, p.active.value) && !step.retries
  }

  /** An owner's words the service takes. */
  predicate OwnerSpeaks(p: Protocol, step: Step) {
    || (step.DoSurfaceMessage? && p.active.None? && p.agent && step.sent)
    || (step.DoTerminalTurn? && p.agent)
  }

  /** The owner's turn can store its reset, or has nothing to store: no row is reserved or stopped. */
  predicate Resets(p: Protocol, step: Step)
    requires OwnerSpeaks(p, step)
  {
    step.resumes || forall r :: r in p.inbox.mem.rows ==> !r.delivery.InProgress? && !r.delivery.Failed?
  }

  // ---- what each field is after it ----

  function SlotAfter(p: Protocol, step: Step): Option<string> {
    if Reserves(p, step) && step.reserves && step.sent then Some(InLine(p).wake.eventId)
    else if Answers(p, step) && (step.acks || !InQueue(p, step.event)) then None
    else if ClosesLate(p, step) || GivesBack(p, step) || Crashes(step) then None
    else p.active
  }

  function CircuitAfter(p: Protocol, step: Step): bool {
    if step.DoDispatch? && MayRun(p) && Waiting(p) && Tired(p) then true
    else if Reserves(p, step) && (!step.reserves || (!step.sent && !step.retries)) then true
    else if Answers(p, step) && !InQueue(p, step.event) then true
    else if Sticks(p, step) then true
    else if Crashes(step) || (OwnerSpeaks(p, step) && Resets(p, step)) then false
    else p.circuit
  }

  function LifecycleAfter(p: Protocol, step: Step): Lifecycle {
    match step
    case DoLifecycle(to) => to
    case DoCrash(_, _, _) => Starting
    case DoCrashMidAnswer(_, _, _, _, _) => Starting
    case DoDispatch(reserves, sent, retries, marks) =>
      if MayRun(p) && Waiting(p)
         && (if Tired(p) then !marks else !reserves || (!sent && !retries)) then Lifecycle.Failed(true)
      else p.lifecycle
    case _ =>
      if Sticks(p, step) then Lifecycle.Failed(true)
      else if OwnerSpeaks(p, step) && Resets(p, step) && p.circuit && p.lifecycle == Lifecycle.Failed(true) then Idle
      else p.lifecycle
  }

  function AgentAfter(p: Protocol, step: Step): bool {
    match step
    case DoAgentJoined => true
    case DoAgentLost => false
    case DoAgentLeft(_, _) => false
    case DoCrash(_, _, _) => false
    case DoCrashMidAnswer(_, _, _, _, _) => false
    case DoDispatch(reserves, sent, _, _) => p.agent && !(Reserves(p, step) && reserves && !sent)
    case DoSurfaceMessage(_, _, _, sent, _, _) => p.agent && (sent || p.active.Some?)
    case DoAbort(sent) => p.agent && sent
    case _ => p.agent
  }

  /** The surface that waits for an answer and the turn that is open. */
  function TurnAfter(p: Protocol, step: Step): (Option<string>, Option<string>) {
    match step
    case DoReply(answers, _, _, _, _) =>
      if p.agent && (if answers.Some? then answers == p.turn else p.active.None?) then (None, None)
      else (p.surface, p.turn)
    case DoAbort(sent) => if p.agent && sent then (None, None) else (p.surface, p.turn)
    case DoTurnClosed => (None, None)
    case DoSurfaceMessage(name, turn, _, _, _, _) =>
      if OwnerSpeaks(p, step) then (Some(name), Some(turn)) else (p.surface, p.turn)
    case DoTerminalTurn(turn, _, _, _) =>
      if p.agent then (Some("terminal"), Some(turn)) else (p.surface, p.turn)
    case _ => if Crashes(step) then (None, None) else (p.surface, p.turn)
  }

  /** The stop of every queued row, if it can be stored. */
  function Stopping(s: Store, marks: bool): Store { QueuedDeliveryFailed(s, marks).0 }

  function HandedBack(p: Protocol, step: Step, retries: bool, marks: bool): Store {
    if !GivesBack(p, step) then p.inbox
    else if Sticks(p, step) then Stopping(p.inbox, marks)
    else ReassignStore(p.inbox, p.active.value, Pending, retries).0
  }

  /** The inbox operations of a step, each performed on what the one before it left. */
  ghost function InboxAfter(p: Protocol, step: Step): Store {
    match step
    case DoIngress(row, wake, stores, marks) =>
      var said := if wake.Some? then InReplay(p, wake.value.eventId) else row.delivery.Delivered?;
      var outcome := UpsertOutcome(p.inbox, row, wake, said, stores);
      var stored := Upsert(p.inbox, row, wake, said, stores);
      if p.circuit && !outcome.WasMalformed? && !outcome.WasFull? && !outcome.NotStored? then Stopping(stored, marks)
      else stored
    case DoDispatch(reserves, sent, retries, marks) =>
      if !MayRun(p) || !Waiting(p) then p.inbox
      else if Tired(p) || !reserves then Stopping(p.inbox, marks)
      else
        var event := InLine(p).wake.eventId;
        var reserved := ReassignStore(p.inbox, event, InProgress, true).0;
        if sent then reserved else ReassignStore(reserved, event, Pending, retries).0
    case DoAnswer(event, _, _, acks, marks) =>
      if !Answers(p, step) then p.inbox
      else if InQueue(p, event) then Acknowledge(p.inbox, event, acks).0
      else Stopping(p.inbox, marks)
    case DoSettle(event, _, retries, marks) =>
      if ClosesLate(p, step) then RecoverDelivered(p.inbox, {event}, true).0 else HandedBack(p, step, retries, marks)
    case DoAgentLeft(retries, marks) => HandedBack(p, step, retries, marks)
    case DoDismiss(id, lands) => Dismiss(p.inbox, id, lands)
    case DoCrash(opens, loads, recovers) =>
      RecoverDelivered(Open(p.inbox.disk, opens), Deliveries(OpenHistory(p.replay.disk, loads).ring.entries),
                       recovers).0
    case DoCrashMidAnswer(_, _, opens, loads, recovers) =>
      RecoverDelivered(Open(p.inbox.disk, opens),
                       Deliveries(OpenHistory(Changed(p, step).disk, loads).ring.entries), recovers).0
    case _ =>
      if OwnerSpeaks(p, step) && p.circuit then ResumeStopped(p.inbox, step.resumes).0 else p.inbox
  }

  /** What every surface is told of the conversation, and the event that is closed with it. */
  function ToldAfter(p: Protocol, step: Step): (seq<Frame>, Option<string>) {
    if Answers(p, step) && step.acks && InQueue(p, step.event) then
      var known := DeliveryMessage(p.replay.ring.entries, step.event);
      ([Said(if known.Some? then known.value else step.message)], Some(step.event))
    else if ClosesLate(p, step) then
      match DeliveryMessage(p.replay.ring.entries, step.event)
      case None => ([], None)
      case Some(known) => ([Said(known)], Some(step.event))
    else
      match RecordedBy(p, step)
      case Some(Say(message, _)) => ([Said(message)], None)
      case Some(Spend(id, _)) => (if OfferOpen(Lines(p.replay.ring.entries), id) then [Taken(id)] else [], None)
      case _ => ([], None)
  }

  /** The step leaves these fields, and tells the surfaces, exactly that. */
  ghost predicate Agrees(p: Protocol, step: Step, e: Effect) {
    && e.next.active == SlotAfter(p, step)
    && e.next.circuit == CircuitAfter(p, step)
    && e.next.lifecycle == LifecycleAfter(p, step)
    && e.next.agent == AgentAfter(p, step)
    && (e.next.surface, e.next.turn) == TurnAfter(p, step)
    && e.next.inbox == InboxAfter(p, step)
    && (e.frames, e.answered) == ToldAfter(p, step)
  }

  // ---- handler by handler ----

  lemma IngressAgrees(p: Protocol, step: Step)
    requires step.DoIngress?
    ensures Agrees(p, step, Quiet(Ingress(p, step.row, step.wake, step.stores, step.marks)))
  {
    hide QueuedDeliveryFailed, UpsertPlan, Waiting, Tired, HandedBack, RecoverDelivered, Changed;
    hide ReassignStore, ResumeStopped, Acknowledge, DeliveryMessage, Open, OpenHistory;
  }

  /**
    A report is acknowledged if and only if it is stored or known already and,
    while the circuit is open, no queued row is left that is not stopped in the
    file too.
  */
  lemma AckedIff(p: Protocol, row: Row, wake: Option<Wake>, stores: bool, marks: bool)
    ensures var said := if wake.Some? then InReplay(p, wake.value.eventId) else row.delivery.Delivered?;
      var outcome := UpsertOutcome(p.inbox, row, wake, said, stores);
      var stored := Upsert(p.inbox, row, wake, said, stores).mem;
      IngressAcked(p, row, wake, stores, marks) <==>
        && !outcome.WasMalformed? && !outcome.WasFull? && !outcome.NotStored?
        && (p.circuit ==>
              marks || forall r :: r in stored.rows && (r.delivery.Pending? || r.delivery.InProgress?) ==>
                         !HasRun(stored.pending, r.id))
  {
    hide Upsert, UpsertOutcome;
    var said := if wake.Some? then InReplay(p, wake.value.eventId) else row.delivery.Delivered?;
    var stored := Upsert(p.inbox, row, wake, said, stores).mem;
    forall r | r in stored.rows ensures r.id in QueuedRuns(stored.pending) <==> HasRun(stored.pending, r.id) {
      QueuedRunsIff(stored.pending, r.id);
    }
  }

  /** What is stopped while a row is pending is counted, so it fails with its write and not otherwise. */
  lemma StopReply(p: Protocol, marks: bool)
    requires Sound(p.inbox.mem) && Waiting(p)
    ensures QueuedDeliveryFailed(p.inbox, marks).1.Found? <==> marks
    ensures HasRow(p.inbox.mem.rows, InLine(p).runId) && InQueue(p, InLine(p).wake.eventId)
    ensures Repeated(p, InLine(p).wake.eventId) <==>
      RowOf(p.inbox.mem.rows, InLine(p).runId).Logical() in p.runs
  {
    var q := InLine(p);
    assert q in p.inbox.mem.pending;
    WakeFound(p.inbox.mem.pending, q);
    assert q.runId in QueuedRuns(p.inbox.mem.pending);
    assert RowOf(p.inbox.mem.rows, q.runId) in p.inbox.mem.rows;
  }

  lemma ReservedStays(s: Store, event: string)
    requires HasEvent(s.mem.pending, event)
    ensures ReassignStore(s, event, InProgress, true).1
    ensures HasEvent(ReassignStore(s, event, InProgress, true).0.mem.pending, event)
  {
  }

  lemma ReassignReply(s: Store, event: string, to: Delivery, lands: bool)
    ensures ReassignStore(s, event, to, lands).1 <==> !HasEvent(s.mem.pending, event) || lands
    ensures !ReassignStore(s, event, to, lands).1 ==> ReassignStore(s, event, to, lands).0 == s
  {
  }

  /** A dispatch that may not run, or has nothing to give the slot to, changes counters at most. */
  lemma DispatchStays(p: Protocol, step: Step)
    requires step.DoDispatch? && !(MayRun(p) && Waiting(p))
    ensures Agrees(p, step, Quiet(Dispatch(p, step.reserves, step.sent, step.retries, step.marks)))
  {
    hide QueuedDeliveryFailed, ReassignStore, Repeated, LogicalFor, HandedBack, RecoverDelivered, Changed;
  }

  lemma DispatchAgrees(p: Protocol, step: Step)
    requires SlotSane(p) && step.DoDispatch?
    ensures Agrees(p, step, Quiet(Dispatch(p, step.reserves, step.sent, step.retries, step.marks)))
  {
    hide Sound, QueuedDeliveryFailed, ReassignStore, Repeated, NextAt, LogicalFor, Owned, HandedBack;
    hide RecoverDelivered, Changed;
    if MayRun(p) && Waiting(p) {
      var event := InLine(p).wake.eventId;
      SaneIsSound(p);
      StopReply(p, step.marks);
      ReservedStays(p.inbox, event);
      ReassignReply(ReassignStore(p.inbox, event, InProgress, true).0, event, Pending, step.retries);
    } else {
      DispatchStays(p, step);
    }
  }

  lemma SaneIsSound(p: Protocol)
    requires SlotSane(p)
    ensures Sound(p.inbox.mem)
  {
    hide Sound;
  }

  /** The replay knows the words of an event that is in it, and of one just recorded. */
  lemma KnownWords(h: History, event: string, message: Message, records: bool)
    requires HistorySound(h)
    ensures var after := RecordDelivery(h, event, message, records);
      var known := DeliveryMessage(h.ring.entries, event);
      && (DeliveryOutcome(h, event, records).NotRecorded? <==> !records && event !in Deliveries(h.ring.entries))
      && (known.Some? <==> event in Deliveries(h.ring.entries))
      && (records || known.Some? ==>
            DeliveryMessage(after.ring.entries, event) == Some(if known.Some? then known.value else message))
  {
    DeliveryFound(h.ring.entries, event);
    if event !in Deliveries(h.ring.entries) && records {
      PushDeliveries(h.ring, message, Some(event));
    }
  }

  lemma AckReply(s: Store, event: string, lands: bool)
    ensures var (after, reply) := Acknowledge(s, event, lands);
      && reply == (if !HasEvent(s.mem.pending, event) then Found(0) else if lands then Found(1) else WriteFailed)
      && (reply.WriteFailed? || !HasEvent(s.mem.pending, event) ==> after == s)
  {
  }

  lemma BeginOnly(p: Protocol, event: string)
    ensures Begin(p, event)
         == p.(started := true, consecutive := Begin(p, event).consecutive, runs := Begin(p, event).runs)
  {
  }

  /** Once the answer is in the replay: acknowledged and announced, not stored, or of an event that is gone. */
  lemma CloseMakes(q: Protocol, event: string, acks: bool, marks: bool)
    requires DeliveryMessage(q.replay.ring.entries, event).Some?
    ensures Close(q, event, acks, marks) ==
      if !InQueue(q, event) then Quiet(Stop(Freed(q), marks))
      else if !acks then Quiet(q)
      else Effect(Freed(q).(inbox := Acknowledge(q.inbox, event, true).0),
                  [Said(DeliveryMessage(q.replay.ring.entries, event).value)], Some(event))
  {
    hide DeliveryMessage, QueuedDeliveryFailed, Acknowledge;
    AckReply(q.inbox, event, acks);
  }

  /** An answer that is not the active event's, or cannot be recorded, at most starts its turn. */
  lemma AnswerStays(p: Protocol, step: Step)
    requires SlotSane(p) && HistorySound(p.replay) && step.DoAnswer? && !Answers(p, step)
    ensures Agrees(p, step, Answer(p, step.event, step.message, step.records, step.acks, step.marks))
  {
    hide Begin, Close, RecordDelivery, DeliveryOutcome, DeliveryMessage, Acknowledge, QueuedDeliveryFailed;
    hide Sound, Owned, HistorySound, Waiting, Tired, HandedBack, RecoverDelivered, LogicalFor, Changed;
    KnownWords(p.replay, step.event, step.message, step.records);
    BeginOnly(p, step.event);
  }

  lemma AnswerAgrees(p: Protocol, step: Step)
    requires SlotSane(p) && HistorySound(p.replay) && step.DoAnswer?
    ensures Agrees(p, step, Answer(p, step.event, step.message, step.records, step.acks, step.marks))
  {
    hide Begin, Close, RecordDelivery, DeliveryOutcome, DeliveryMessage, Acknowledge, QueuedDeliveryFailed;
    hide Sound, Owned, HistorySound, Waiting, Tired, HandedBack, RecoverDelivered, LogicalFor, Changed;
    if Answers(p, step) {
      var q := Begin(p, step.event).(replay := RecordDelivery(p.replay, step.event, step.message, step.records));
      KnownWords(p.replay, step.event, step.message, step.records);
      AckReply(p.inbox, step.event, step.acks);
      BeginOnly(p, step.event);
      CloseMakes(q, step.event, step.acks, step.marks);
    } else {
      AnswerStays(p, step);
    }
  }

  lemma CloseReply(s: Store, event: string, closes: bool)
    requires Sound(s.mem)
    ensures var (after, reply) := RecoverDelivered(s, {event}, closes);
      reply.Found? && reply.count > 0 <==> closes && HasEvent(s.mem.pending, event)
  {
    var answered := Filter(IsAnswered({event}), s.mem.pending);
    if HasEvent(s.mem.pending, event) {
      assert s.mem.pending[EventAt(s.mem.pending, event)] in answered;
    } else if answered != [] {
      RunFound(s.mem.pending, answered[0]);
    }
  }

  lemma SettleAgrees(p: Protocol, step: Step)
    requires SlotSane(p) && HistorySound(p.replay) && step.DoSettle?
    ensures Agrees(p, step, Settle(p, step.event, step.closes, step.retries, step.marks))
  {
    hide RecoverDelivered, ReassignStore, QueuedDeliveryFailed, DeliveryMessage, Sound, Owned, HistorySound;
    hide RecordDelivery, Deliveries;
    SaneIsSound(p);
    KnownWords(p.replay, step.event, Message(User, "", "", []), false);
    CloseReply(p.inbox, step.event, step.closes);
    ReassignReply(p.inbox, step.event, Pending, step.retries);
  }

  lemma AgentLeftAgrees(p: Protocol, step: Step)
    requires SlotSane(p) && step.DoAgentLeft?
    ensures Agrees(p, step, Quiet(AgentLeft(p, step.retries, step.marks)))
  {
    hide ReassignStore, QueuedDeliveryFailed, DeliveryMessage, Sound, Owned;
    if p.active.Some? {
      ReassignReply(p.inbox, p.active.value, Pending, step.retries);
    }
  }

  lemma ResumeReply(s: Store, lands: bool)
    ensures var (after, reply) := ResumeStopped(s, lands);
      && (reply.WriteFailed? <==>
            !lands && exists r :: r in s.mem.rows && (r.delivery.InProgress? || r.delivery.Failed?))
      && (reply.WriteFailed? ==> after == s)
  {
    var ids := RowIds(s.mem.rows);
    assert forall r :: r in s.mem.rows ==> r.id in ids;
  }

  lemma OwnerAgrees(p: Protocol, step: Step)
    requires SlotSane(p) && (step.DoSurfaceMessage? || step.DoTerminalTurn?)
    ensures Agrees(p, step, DeliveryProtocol.Perform(p, step))
  {
    hide ResumeStopped, Record, Sound, Owned;
    ResumeReply(p.inbox, step.resumes);
  }

  lemma CrashAgrees(p: Protocol, step: Step)
    requires Crashes(step)
    ensures Agrees(p, step, DeliveryProtocol.Perform(p, step))
  {
    hide RecoverDelivered, Open, OpenHistory, RecordDelivery;
  }

  lemma OtherAgrees(p: Protocol, step: Step)
    requires !step.DoIngress? && !step.DoDispatch? && !step.DoAnswer? && !step.DoSettle? && !step.DoAgentLeft?
    requires !step.DoSurfaceMessage? && !step.DoTerminalTurn? && !Crashes(step)
    requires !step.DoReply? && !step.DoOfferTake?
    ensures Agrees(p, step, DeliveryProtocol.Perform(p, step))
  {
    hide LogicalFor, Dismiss;
  }

  lemma ReplyAgrees(p: Protocol, step: Step)
    requires step.DoReply?
    ensures Agrees(p, step, DeliveryProtocol.Reply(p, step.answers, step.text, step.offers, step.present, step.saves))
  {
    hide Record, ConversationRing.Take, OfferOpen, Waiting, Tired, HandedBack, RecoverDelivered, Changed;
    hide QueuedDeliveryFailed, ReassignStore, ResumeStopped, Acknowledge, DeliveryMessage, Open, OpenHistory;
  }

  lemma OfferTakeAgrees(p: Protocol, step: Step)
    requires step.DoOfferTake?
    ensures Agrees(p, step, OfferTake(p, step.id, step.saves))
  {
    hide Record, ConversationRing.Take, OfferOpen, Waiting, Tired, HandedBack, RecoverDelivered, Changed;
    hide QueuedDeliveryFailed, ReassignStore, ResumeStopped, Acknowledge, DeliveryMessage, Open, OpenHistory;
  }

  /**
    In every state the steps keep, each step leaves the slot, the circuit, the
    lifecycle, the agent, the open turn and the inbox as these say, and tells
    the surfaces no more and no less.
  */
  lemma StepAgrees(p: Protocol, step: Step)
    requires SlotSane(p) && HistorySound(p.replay)
    ensures Agrees(p, step, DeliveryProtocol.Perform(p, step))
  {
    hide Agrees, SlotSane, HistorySound, Ingress, Dispatch, Answer, Settle, AgentLeft, SurfaceMessage, TerminalTurn;
    hide DeliveryProtocol.Reply, OfferTake;
    match step
    case DoIngress(_, _, _, _) => IngressAgrees(p, step);
    case DoDispatch(_, _, _, _) => DispatchAgrees(p, step);
    case DoAnswer(_, _, _, _, _) => AnswerAgrees(p, step);
    case DoSettle(_, _, _, _) => SettleAgrees(p, step);
    case DoAgentLeft(_, _) => AgentLeftAgrees(p, step);
    case DoSurfaceMessage(_, _, _, _, _, _) => OwnerAgrees(p, step);
    case DoTerminalTurn(_, _, _, _) => OwnerAgrees(p, step);
    case DoCrash(_, _, _) => CrashAgrees(p, step);
    case DoCrashMidAnswer(_, _, _, _, _) => CrashAgrees(p, step);
    case DoReply(_, _, _, _, _) => ReplyAgrees(p, step);
    case DoOfferTake(_, _) => OfferTakeAgrees(p, step);
    case _ => OtherAgrees(p, step);
  }
}
