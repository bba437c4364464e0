/** What each step adds to the conversation, in whose name and where it is heard, and that a restart finds all of it
    up to the last write that landed. */
module DeliveryRecords {
  import opened Prelude
  import BriefingInbox
  import opened ConversationRing
  import opened ConversationLaws
  import opened ConversationRuns
  import opened DeliveryProtocol
  import opened DeliverySlot
  import opened DeliveryStores
  import opened DeliveryRuns

  /** The surface that hears an answer meant for this one: itself while it is there, a terminal always. */
  function HeardAt(surface: Option<string>, present: bool): string {
    match surface
    case None => "unprompted"
    case Some(name) => if present || name == "terminal" then name else "unprompted"
  }

  /** The one change of the conversation a step may make: the owner's words, an answer, or an offer taken. */
  function RecordedBy(p: Protocol, step: Step): Option<Change> {
    match step
    case DoAnswer(event, message, records, _, _) =>
      if p.active == Some(event) then Some(Deliver(event, message, records)) else None
    case DoSurfaceMessage(name, _, text, sent, _, saves) =>
      if p.active.None? && p.agent && sent then Some(Say(Message(User, name, text, []), saves)) else None
    case DoTerminalTurn(_, text, _, saves) =>
      if p.agent then Some(Say(Message(User, "terminal", text, []), saves)) else None
    case DoReply(answers, text, offers, present, saves) =>
      if !p.agent then None
      else
        var heard :=
          if answers.Some? then if answers == p.turn then HeardAt(p.surface, present) else "terminal"
          else if p.active.Some? then "unprompted"
          else HeardAt(p.surface, present);
        Some(Say(Message(Assistant, heard, text, offers), saves))
    case DoOfferTake(id, saves) => Some(Spend(id, saves))
    case DoCrashMidAnswer(event, message, _, _, _) =>
      if p.active == Some(event) then Some(Deliver(event, message, true)) else None
    case _ => None
  }

  /** The replay after the step's own change, before a crash takes memory away. */
  function Changed(p: Protocol, step: Step): History {
    match RecordedBy(p, step)
    case None => p.replay
    case Some(c) => Change1(p.replay, c)
  }

  predicate Crashes(step: Step) { step.DoCrash? || step.DoCrashMidAnswer? }

  /** A step changes the conversation as it should; a crash then leaves what the file holds. */
  lemma StepRecords(p: Protocol, step: Step)
    ensures var next := DeliveryProtocol.Perform(p, step).next;
      && (!Crashes(step) ==> next.replay == Changed(p, step))
      && (Crashes(step) ==> next.replay == OpenHistory(Changed(p, step).disk, step.loads))
  {
    hide Record, RecordDelivery, ConversationRing.Take, OpenHistory;
    hide Dispatch, Answer, Settle, AgentLeft, Ingress, Started, SurfaceMessage, TerminalTurn, Reply;
    hide BriefingInbox.RecoverDelivered, BriefingInbox.Open;
    match step
    case DoAnswer(_, _, _, _, _) => AnswerRecords(p, step);
    case DoOfferTake(id, saves) => ShutStaysShut(p.replay, id, saves);
    case DoSurfaceMessage(_, _, _, _, _, _) => OwnerRecords(p, step);
    case DoTerminalTurn(_, _, _, _) => OwnerRecords(p, step);
    case DoReply(_, _, _, _, _) => OwnerRecords(p, step);
    case DoCrash(_, _, _) =>
    case DoCrashMidAnswer(_, _, _, _, _) =>
    case _ => NothingRecorded(p, step);
  }

  lemma AnswerRecords(p: Protocol, step: Step)
    requires step.DoAnswer?
    ensures DeliveryProtocol.Perform(p, step).next.replay == Changed(p, step)
  {
    hide RecordDelivery, DeliveryOutcome;
    hide BriefingInbox.QueuedDeliveryFailed, BriefingInbox.Acknowledge, BriefingInbox.LogicalFor;
    NothingWritten(p.replay, step.event, step.message, step.records);
  }

  lemma OwnerRecords(p: Protocol, step: Step)
    requires step.DoSurfaceMessage? || step.DoTerminalTurn? || step.DoReply?
    ensures DeliveryProtocol.Perform(p, step).next.replay == Changed(p, step)
  {
    hide Record, BriefingInbox.ResumeStopped;
  }

  lemma NothingRecorded(p: Protocol, step: Step)
    requires RecordedBy(p, step).None? && !step.DoCrash? && !step.DoCrashMidAnswer?
    requires !step.DoAnswer? && !step.DoOfferTake? && !step.DoSurfaceMessage? && !step.DoTerminalTurn? && !step.DoReply?
    ensures DeliveryProtocol.Perform(p, step).next.replay == p.replay
  {
    hide BriefingInbox.QueuedDeliveryFailed, BriefingInbox.Upsert, BriefingInbox.UpsertOutcome;
    hide BriefingInbox.ReassignStore, BriefingInbox.RecoverDelivered, BriefingInbox.LogicalFor, BriefingInbox.NextAt;
    hide DeliveryMessage;
  }

  lemma NothingWritten(h: History, id: string, message: Message, lands: bool)
    ensures DeliveryOutcome(h, id, lands).NotRecorded? ==> RecordDelivery(h, id, message, lands) == h
  {
  }

  lemma ShutStaysShut(h: History, id: string, lands: bool)
    ensures !OfferOpen(Lines(h.ring.entries), id) ==> ConversationRing.Take(h, id, lands) == h
  {
  }

  /** The ring of the last write that landed, kept step by step. */
  ghost function Filed(p: Protocol, stored: Ring, step: Step): Ring {
    var c := RecordedBy(p, step);
    if c.Some? && Writes(p.replay, c.value) then Change1(p.replay, c.value).ring else stored
  }

  lemma StepFiled(p: Protocol, stored: Ring, step: Step)
    requires HistorySound(p.replay) && Found(p.replay.disk) == stored
    ensures var next := DeliveryProtocol.Perform(p, step).next;
      && Found(next.replay.disk) == Filed(p, stored, step)
      && (Crashes(step) ==> next.replay.ring == Filed(p, stored, step))
  {
    hide DeliveryProtocol.Perform, Found, HistorySound, Writes, Change1, OpenHistory;
    StepRecords(p, step);
    var c := RecordedBy(p, step);
    if c.Some? {
      ChangeStores(p.replay, c.value);
    }
    if Crashes(step) {
      SameAgain(Changed(p, step), step.loads);
    }
  }

  /** Opening a file the service wrote finds the same whatever the opening itself may write. */
  lemma SameAgain(h: History, loads: bool)
    requires HistorySound(h)
    ensures OpenHistory(h.disk, loads).ring == Found(h.disk) && OpenHistory(h.disk, loads).disk == h.disk
  {
    hide OpenHistory;
    ReopenKeeps(h, loads);
    ReloadsItself(OpenRing(h.disk), loads);
    ReloadsItself(OpenRing(h.disk), true);
  }

  ghost function Tracked(p: Protocol, stored: Ring, steps: seq<Step>): (Protocol, Ring)
    decreases |steps|
  {
    if steps == [] then (p, stored)
    else Tracked(DeliveryProtocol.Perform(p, steps[0]).next, Filed(p, stored, steps[0]), steps[1..])
  }

  lemma {:induction false} TrackedFound(p: Protocol, stored: Ring, steps: seq<Step>)
    requires Live(p) && Found(p.replay.disk) == stored && forall s :: s in steps ==> Admissible(s)
    ensures var (q, ring) := Tracked(p, stored, steps); Live(q) && Found(q.replay.disk) == ring
    decreases |steps|
  {
    hide DeliveryProtocol.Perform, SlotSane, Found, HistorySound, Filed;
    if steps != [] {
      StepLive(p, steps[0]);
      StepFiled(p, stored, steps[0]);
      TrackedFound(DeliveryProtocol.Perform(p, steps[0]).next, Filed(p, stored, steps[0]), steps[1..]);
    }
  }

  /**
    Over whole runs: whenever the process dies, the next one finds the ring as
    the last write that landed left it, the words of an answer it died on
    included.
  */
  lemma RestartFindsLastWritten(inbox: BriefingInbox.Inbox, replay: seq<Entry>, opens: bool, loads: bool,
                                recovers: bool, steps: seq<Step>, crash: Step)
    requires Snapshot(replay) && Crashes(crash)
    requires forall s :: s in steps ==> Admissible(s)
    ensures var start := Boot(inbox, replay, opens, loads, recovers);
      var (p, stored) := Tracked(start, Found(replay), steps);
      DeliveryProtocol.Perform(p, crash).next.replay.ring == Filed(p, stored, crash)
  {
    hide DeliveryProtocol.Perform, SlotSane, HistorySound, Filed, Boot, OpenHistory;
    var start := Boot(inbox, replay, opens, loads, recovers);
    BootSane(inbox, replay, opens, loads, recovers);
    BootFiles(inbox, replay, opens, loads, recovers);
    BootFile(inbox, replay, opens, loads, recovers);
    TrackedFound(start, Found(replay), steps);
    var (p, stored) := Tracked(start, Found(replay), steps);
    StepFiled(p, stored, crash);
  }

  lemma BootFile(inbox: BriefingInbox.Inbox, replay: seq<Entry>, opens: bool, loads: bool, recovers: bool)
    requires Snapshot(replay)
    ensures Boot(inbox, replay, opens, loads, recovers).replay.disk == replay
  {
    hide OpenHistory;
    ReloadsItself(OpenRing(replay), loads);
  }
}
