/** The replica refinement, over whole runs of the service with its surfaces: reading what it has been sent brings
    every registered surface to exactly the service's ring, taken marks included, as long as every recorded answer is
    also announced. When an answer is not is decided by one condition. */
module ReplicaRuns {
  import opened Prelude
  import opened BriefingRows
  import opened BriefingInbox
  import opened BriefingInboxLaws
  import opened BriefingReopenLaws
  import opened BriefingFollows
  import opened ConversationRing
  import opened ConversationLaws
  import opened DeliveryProtocol
  import opened DeliverySlot
  import opened DeliveryStores
  import opened DeliveryCarries
  import opened DeliveryAnswers
  import opened DeliveryRuns
  import opened DeliveryOrphans
  import opened Replica

  /** No queued event has its answer in the ring already. */
  ghost predicate Caught(p: Protocol) {
    forall q :: q in p.inbox.mem.pending ==> q.wake.eventId !in Deliveries(p.replay.ring.entries)
  }

  /**
    Whether this step announces the answer it records. An answer is recorded in
    silence when its acknowledgement cannot be stored, or when its event has
    already left the queue; a start must store what it recovers, if anything.
  */
  ghost predicate Heard(p: Protocol, step: Step) {
    match step
    case DoAnswer(event, _, records, acks, _) =>
      p.active == Some(event) && DeliveryOutcome(p.replay, event, records).Inserted? ==>
        acks && HasEvent(p.inbox.mem.pending, event)
    case DoCrash(_, loads, recovers) => Clears(p.inbox.disk, p.replay.disk, loads, recovers)
    case DoCrashMidAnswer(event, message, _, loads, recovers) =>
      Clears(p.inbox.disk, HalfAnswered(p, event, message).replay.disk, loads, recovers)
    case _ => true
  }

  /** Whether a start leaves no answered event queued. */
  ghost predicate Clears(inbox: Inbox, replay: seq<Entry>, loads: bool, recovers: bool) {
    recovers || forall q :: q in Opened(inbox).pending ==>
      q.wake.eventId !in Deliveries(OpenHistory(replay, loads).ring.entries)
  }

  predicate Restarts(step: Step) { step.DoCrash? || step.DoCrashMidAnswer? }

  /** The frames of a step are exactly the change of its ring. */
  predicate Accounts(p: Protocol, e: Effect) {
    Lines(e.next.replay.ring.entries) == HearFrames(Lines(p.replay.ring.entries), e.frames)
  }

  lemma NothingSaid(p: Protocol, e: Effect)
    requires e.next.replay.ring == p.replay.ring && e.frames == []
    ensures Accounts(p, e)
  {
  }

  lemma OneSaid(p: Protocol, e: Effect, message: Message, id: Option<string>)
    requires Contiguous(p.replay.ring) && e.next.replay.ring == Push(p.replay.ring, message, id)
    requires e.frames == [Said(message)]
    ensures Accounts(p, e)
  {
    PushIsSaid(p.replay.ring, message, id);
    assert e.frames[1..] == [];
  }

  /** Appending to a full list leaves it as it was exactly when it holds nothing but that line. */
  lemma SameWhenFull(lines: seq<Message>, message: Message)
    ensures Appended(lines, message) == lines <==>
      |lines| == LINES && forall line :: line in lines ==> line == message
  {
    if |lines| == LINES && lines[1..] + [message] == lines {
      var i := |lines| - 1;
      while i > 0
        invariant 0 <= i < |lines| && forall k :: i <= k < |lines| ==> lines[k] == message
      {
        assert (lines[1..] + [message])[i - 1] == lines[i];
        i := i - 1;
      }
    } else if |lines| == LINES && forall line :: line in lines ==> line == message {
      assert forall i :: 0 <= i < |lines| ==> lines[i] in lines;
    }
  }

  /** Exactly when a newly recorded answer is announced, and exactly when its silence goes unnoticed. */
  lemma AnnouncedIff(p: Protocol, event: string, message: Message, records: bool, acks: bool, marks: bool)
    requires Live(p) && p.active == Some(event) && DeliveryOutcome(p.replay, event, records).Inserted?
    ensures var e := Answer(p, event, message, records, acks, marks);
      var heard := acks && HasEvent(p.inbox.mem.pending, event);
      && e.next.replay.ring == Push(p.replay.ring, message, Some(event))
      && e.frames == (if heard then [Said(message)] else [])
      && (heard ==> Accounts(p, e))
      && (!heard ==>
            (Accounts(p, e) <==>
               && |p.replay.ring.entries| == CONVERSATION_ENTRIES
               && forall line :: line in Lines(p.replay.ring.entries) ==> line == message))
  {
    hide QueuedDeliveryFailed, StoreSound, SlotSane;
    var q := Begin(p, event).(replay := RecordDelivery(p.replay, event, message, records));
    PushContiguous(p.replay.ring, message, Some(event));
    PushDeliveries(p.replay.ring, message, Some(event));
    CloseReplay(q, event, acks, marks);
    var e := Answer(p, event, message, records, acks, marks);
    PushIsSaid(p.replay.ring, message, Some(event));
    SameWhenFull(Lines(p.replay.ring.entries), message);
    if acks && HasEvent(p.inbox.mem.pending, event) {
      OneSaid(p, e, message, Some(event));
    }
  }

  /**
    Why a start must store what it recovered: an event that is still queued
    although its answer is in the ring is announced again when it is answered
    again, and the ring does not change.
  */
  lemma UncaughtIsRepeated(p: Protocol, event: string, message: Message, records: bool, marks: bool)
    requires Live(p) && p.active == Some(event) && HasEvent(p.inbox.mem.pending, event)
    requires event in Deliveries(p.replay.ring.entries)
    ensures var e := Answer(p, event, message, records, true, marks);
      var said := DeliveryMessage(p.replay.ring.entries, event);
      && said.Some? && e.frames == [Said(said.value)] && e.next.replay.ring == p.replay.ring
      && (Accounts(p, e) <==>
            && |p.replay.ring.entries| == CONVERSATION_ENTRIES
            && forall line :: line in Lines(p.replay.ring.entries) ==> line == said.value)
  {
    hide QueuedDeliveryFailed, Live, Begin, Appended, Accounts;
    DeliveryFound(p.replay.ring.entries, event);
    BeginKeeps(p, event);
    SaidAgain(p, Answer(p, event, message, records, true, marks), DeliveryMessage(p.replay.ring.entries, event).value);
  }

  /** Saying something again without recording it goes unnoticed only on a full list of just that. */
  lemma SaidAgain(p: Protocol, e: Effect, said: Message)
    requires e.frames == [Said(said)] && e.next.replay.ring == p.replay.ring
    ensures Accounts(p, e) <==>
      && |p.replay.ring.entries| == CONVERSATION_ENTRIES
      && forall line :: line in Lines(p.replay.ring.entries) ==> line == said
  {
    hide Appended;
    var lines := Lines(p.replay.ring.entries);
    SameWhenFull(lines, said);
    assert HearFrames(lines, e.frames) == Appended(lines, said) by {
      assert e.frames[1..] == [];
    }
  }

  lemma BeginKeeps(p: Protocol, event: string)
    ensures var q := Begin(p, event); q.inbox == p.inbox && q.replay == p.replay && q.circuit == p.circuit
  {
  }

  /**
    Silence needs no failed write: a legacy report that calls the reserved row
    delivered makes the service record the answer, tell no surface, and stop.
    `StartsResting` reaches such a state from empty files.
  */
  lemma SilenceWithoutFailures(p: Protocol, row: Row, wake: Wake, message: Message)
    requires Resting(p) && p.runs == {}
    requires Complete(row) && !HasRow(p.inbox.mem.rows, row.id)
    requires wake.eventId !in Deliveries(p.replay.ring.entries)
    ensures var q := Dispatch(Ingress(p, row.(delivery := Pending), Some(wake), true, true), true, true, true, true);
      var r := Ingress(q, row.(delivery := Delivered), None, true, true);
      var e := Answer(r, wake.eventId, message, true, true, true);
      && e.frames == [] && e.next.circuit
      && e.next.replay.ring == Push(p.replay.ring, message, Some(wake.eventId))
  {
    hide Ingress, Dispatch, SlotSane, FilesSound, Sound, QueuedDeliveryFailed, Spent;
    var report := row.(delivery := Pending);
    OnlyReported(p, report, wake);
    OnlyDispatched(Ingress(p, report, Some(wake), true, true), report, wake);
    var q := Dispatch(Ingress(p, report, Some(wake), true, true), true, true, true, true);
    LateReport(q, row.(delivery := Delivered), wake);
  }

  lemma AnswerAccounts(p: Protocol, event: string, message: Message, records: bool, acks: bool, marks: bool)
    requires Live(p) && Caught(p) && Heard(p, DoAnswer(event, message, records, acks, marks))
    ensures var e := Answer(p, event, message, records, acks, marks);
      && Accounts(p, e)
      && Deliveries(e.next.replay.ring.entries) <= Deliveries(p.replay.ring.entries) + {event}
      && (event in Deliveries(e.next.replay.ring.entries) && event !in Deliveries(p.replay.ring.entries) ==>
            e.answered == Some(event))
  {
    hide QueuedDeliveryFailed, StoreSound, SlotSane;
    var e := Answer(p, event, message, records, acks, marks);
    if p.active == Some(event) && DeliveryOutcome(p.replay, event, records).Inserted? {
      AnnouncedIff(p, event, message, records, acks, marks);
      PushDeliveries(p.replay.ring, message, Some(event));
    } else {
      DuplicateIsQuiet(p, event, message, records, acks, marks);
      NothingSaid(p, e);
    }
  }

  lemma DuplicateIsQuiet(p: Protocol, event: string, message: Message, records: bool, acks: bool, marks: bool)
    requires Caught(p) && !(p.active == Some(event) && DeliveryOutcome(p.replay, event, records).Inserted?)
    ensures var e := Answer(p, event, message, records, acks, marks);
      e.frames == [] && e.next.replay.ring == p.replay.ring
  {
    hide QueuedDeliveryFailed;
    if HasEvent(p.inbox.mem.pending, event) {
      assert p.inbox.mem.pending[EventAt(p.inbox.mem.pending, event)] in p.inbox.mem.pending;
    }
  }

  lemma SettleAccounts(p: Protocol, event: string, closes: bool, retries: bool, marks: bool)
    requires Live(p) && Caught(p)
    ensures var e := Settle(p, event, closes, retries, marks);
      e.frames == [] && e.next.replay == p.replay
  {
    hide HandBack, StoreSound, HistorySound, RecoverDelivered;
    HandBackReplay(p, event, retries, marks);
    RecoverAnswers(p.inbox, event, closes);
    DeliveryFound(p.replay.ring.entries, event);
    if HasEvent(p.inbox.mem.pending, event) {
      assert p.inbox.mem.pending[EventAt(p.inbox.mem.pending, event)] in p.inbox.mem.pending;
    }
  }

  lemma RecordAccounts(p: Protocol, q: Protocol, message: Message, saves: bool)
    requires HistorySound(p.replay) && q.replay == p.replay
    ensures var e := RecordSaid(q, message, saves);
      Accounts(p, e) && Deliveries(e.next.replay.ring.entries) <= Deliveries(p.replay.ring.entries)
  {
    OneSaid(p, RecordSaid(q, message, saves), message, None);
    PushDeliveries(p.replay.ring, message, None);
  }

  lemma TakeAccounts(p: Protocol, id: string, saves: bool)
    ensures var e := OfferTake(p, id, saves);
      Accounts(p, e) && Deliveries(e.next.replay.ring.entries) == Deliveries(p.replay.ring.entries)
  {
    TakeKeeps(p.replay.ring.entries, id);
    var e := OfferTake(p, id, saves);
    if e.frames != [] {
      assert e.frames[1..] == [];
    }
  }

  /** Every step but a restart says exactly what it changed. */
  lemma StepAccounts(p: Protocol, step: Step)
    requires Live(p) && Caught(p) && Heard(p, step) && !Restarts(step)
    ensures var e := DeliveryProtocol.Perform(p, step);
      && Accounts(p, e)
      && Deliveries(e.next.replay.ring.entries)
         <= Deliveries(p.replay.ring.entries) + (if e.answered.Some? then {e.answered.value} else {})
  {
    hide Answer, Settle, HandBack, Accounts, StoreSound, HistorySound, SlotSane, Record, Take, Deliveries;
    hide QueuedDeliveryFailed, ResumeStopped, Upsert, UpsertOutcome, NextAt, ReassignStore;
    var e := DeliveryProtocol.Perform(p, step);
    match step
    case DoAnswer(event, message, records, acks, marks) => AnswerAccounts(p, event, message, records, acks, marks);
    case DoSettle(event, closes, retries, marks) =>
      SettleAccounts(p, event, closes, retries, marks);
      NothingSaid(p, e);
    case DoSurfaceMessage(_, _, _, _, _, _) => TalkAccounts(p, step);
    case DoTerminalTurn(_, _, _, _) => TalkAccounts(p, step);
    case DoReply(_, _, _, _, _) => TalkAccounts(p, step);
    case DoOfferTake(id, saves) => TakeAccounts(p, id, saves);
    case DoAgentLeft(retries, marks) =>
      if p.active.Some? {
        HandBackReplay(p.(agent := false, started := false), p.active.value, retries, marks);
      }
      NothingSaid(p, e);
    case _ => NothingSaid(p, e);
  }

  /** The owner's words and ordinary answers. */
  lemma TalkAccounts(p: Protocol, step: Step)
    requires HistorySound(p.replay)
    requires step.DoSurfaceMessage? || step.DoTerminalTurn? || step.DoReply?
    ensures var e := DeliveryProtocol.Perform(p, step);
      Accounts(p, e) && Deliveries(e.next.replay.ring.entries) <= Deliveries(p.replay.ring.entries)
  {
    hide ResumeStopped, HistorySound, Record, Deliveries, Accounts;
    var e := DeliveryProtocol.Perform(p, step);
    if e.frames == [] {
      NothingSaid(p, e);
    } else {
      match step
      case DoSurfaceMessage(name, turn, text, _, resumes, saves) => OwnerAccounts(p, name, turn, text, resumes, saves);
      case DoTerminalTurn(turn, text, resumes, saves) => OwnerAccounts(p, TERMINAL_SURFACE, turn, text, resumes, saves);
      case DoReply(answers, text, offers, present, saves) =>
        RecordAccounts(p, Destination(p, answers).0, e.frames[0].message, saves);
    }
  }

  lemma OwnerAccounts(p: Protocol, surface: string, turn: string, text: string, resumes: bool, saves: bool)
    requires HistorySound(p.replay)
    ensures var e := OwnerTurn(p, surface, turn, text, resumes, saves);
      Accounts(p, e) && Deliveries(e.next.replay.ring.entries) <= Deliveries(p.replay.ring.entries)
  {
    hide ResumeStopped, HistorySound, Record, Deliveries, Accounts;
    var q := DeliveryProtocol.Recovered(p, resumes);
    var reset := if q.circuit then q else q.(consecutive := 0, runs := {});
    RecordAccounts(p, reset.(surface := Some(surface), turn := Some(turn)), UserMessage(surface, text), saves);
  }

  lemma StepCaught(p: Protocol, step: Step)
    requires Live(p) && Caught(p) && Admissible(step) && Heard(p, step)
    ensures Caught(DeliveryProtocol.Perform(p, step).next)
  {
    hide SlotSane, FilesSound, DeliveryProtocol.Perform, Heard, Sound, AddedBy, Accounts;
    if Restarts(step) {
      RestartCaught(p, step);
    } else {
      var e := DeliveryProtocol.Perform(p, step);
      StepAccounts(p, step);
      StepCarries(p, step);
      StepTruth(p, step, "");
      forall q | q in e.next.inbox.mem.pending ensures q.wake.eventId !in Deliveries(e.next.replay.ring.entries) {
        RunFound(e.next.inbox.mem.pending, q);
        if q !in p.inbox.mem.pending {
          QueuedIsUnsaid(p, step, q);
        }
      }
    }
  }

  lemma RestartCaught(p: Protocol, step: Step)
    requires Restarts(step) && Heard(p, step)
    ensures Caught(DeliveryProtocol.Perform(p, step).next)
  {
    hide Clears, Boot, HalfAnswered, Caught;
    var disk := if step.DoCrash? then p.replay.disk else HalfAnswered(p, step.event, step.message).replay.disk;
    HalfAnsweredInbox(p);
    BootCaught(p.inbox.disk, disk, step.opens, step.loads, step.recovers);
  }

  lemma HalfAnsweredInbox(p: Protocol)
    ensures forall event, message :: HalfAnswered(p, event, message).inbox == p.inbox
  {
  }

  /** A start whose recovery lands leaves no answered event queued. */
  lemma BootCaught(inbox: Inbox, replay: seq<Entry>, opens: bool, loads: bool, recovers: bool)
    requires Clears(inbox, replay, loads, recovers)
    ensures Caught(Boot(inbox, replay, opens, loads, recovers))
  {
    hide OpenHistory, Sound, Open, RecoverDelivered, StoreSound, Opened;
    var store := Open(inbox, opens);
    OpenKeeps(inbox, opens);
    StoreIsSound(store);
    OpenHolds(inbox, opens);
    RecoveryLeavesNone(store, Deliveries(OpenHistory(replay, loads).ring.entries), recovers);
  }

  lemma OpenHolds(inbox: Inbox, opens: bool)
    ensures Open(inbox, opens).mem == Opened(inbox)
  {
  }

  lemma StoreIsSound(s: Store)
    requires StoreSound(s)
    ensures Sound(s.mem)
  {
    hide Sound;
  }

  lemma RecoveryLeavesNone(s: Store, answered: set<string>, recovers: bool)
    requires Sound(s.mem)
    requires recovers || forall q :: q in s.mem.pending ==> q.wake.eventId !in answered
    ensures forall q :: q in RecoverDelivered(s, answered, recovers).0.mem.pending ==> q.wake.eventId !in answered
  {
    hide Sound;
    RecoveredFollows(s.mem, answered);
    var waiting := Filter(IsAnswered(answered), s.mem.pending);
    assert waiting == [] ==> forall q :: q in s.mem.pending ==> q !in waiting;
  }

  // ---- whole runs ----

  /** The service and every registered surface. */
  datatype World = World(p: Protocol, seats: map<string, Seat>)

  datatype Move =
    | Serve(step: Step)
    | Join(name: string)
    | Read(name: string)
    | Leave(name: string)
    | Tell
    | TellOne(name: string)

  ghost function Act(w: World, move: Move): World {
    match move
    case Serve(step) =>
      var e := DeliveryProtocol.Perform(w.p, step);
      World(e.next, if Restarts(step) then map[] else BroadcastAll(w.seats, e.frames))
    case Join(name) => w.(seats := w.seats[name := Registered(w.p.replay.ring)])
    case Read(name) =>
      if name in w.seats && w.seats[name].queue != [] then
        var seat := w.seats[name];
        w.(seats := w.seats[name := Seat(Hear(seat.lines, seat.queue[0]), seat.queue[1..])])
      else w
    case Leave(name) => w.(seats := w.seats - {name})
    case Tell => w.(seats := Broadcast(w.seats, Notice))
    case TellOne(name) =>
      if name !in w.seats then w
      else if |w.seats[name].queue| == OUTBOX then w.(seats := w.seats - {name})
      else w.(seats := w.seats[name := Seat(w.seats[name].lines, w.seats[name].queue + [Notice])])
  }

  /** Every surface will show exactly the ring. */
  ghost predicate Mirrored(w: World) {
    Live(w.p) && Caught(w.p) && AllShow(w.seats, Lines(w.p.replay.ring.entries))
  }

  lemma SeatMirrored(w: World, move: Move)
    requires Mirrored(w) && !move.Serve?
    ensures Mirrored(Act(w, move))
  {
    hide Live, Caught;
    match move
    case Join(name) =>
      RingFits(w.p);
      RegisteredShows(w.p.replay.ring);
    case Read(name) =>
      if name in w.seats && w.seats[name].queue != [] {
        ReadingChangesNothing(w.seats[name]);
      }
    case Leave(name) =>
    case Tell => BroadcastShows(w.seats, Notice, Lines(w.p.replay.ring.entries));
    case TellOne(name) =>
      if name in w.seats {
        var queue := w.seats[name].queue + [Notice];
        assert queue[..|queue| - 1] == w.seats[name].queue;
      }
  }

  lemma RingFits(p: Protocol)
    requires Live(p)
    ensures |p.replay.ring.entries| <= CONVERSATION_ENTRIES
  {
  }

  lemma ServeMirrored(w: World, step: Step)
    requires Mirrored(w) && Admissible(step) && Heard(w.p, step)
    ensures Mirrored(Act(w, Serve(step)))
  {
    hide Live, Caught, DeliveryProtocol.Perform, Heard;
    var e := DeliveryProtocol.Perform(w.p, step);
    StepLive(w.p, step);
    StepCaught(w.p, step);
    if !Restarts(step) {
      StepAccounts(w.p, step);
      BroadcastAllShows(w.seats, e.frames, Lines(w.p.replay.ring.entries));
    }
  }

  /** No recorded answer of this run went unannounced. */
  ghost predicate AllHeard(w: World, moves: seq<Move>)
    decreases |moves|
  {
    moves == [] || (
      && (moves[0].Serve? ==> Admissible(moves[0].step) && Heard(w.p, moves[0].step))
      && AllHeard(Act(w, moves[0]), moves[1..]))
  }

  ghost function Played(w: World, moves: seq<Move>): World
    decreases |moves|
  {
    if moves == [] then w else Played(Act(w, moves[0]), moves[1..])
  }

  lemma {:induction false} RunMirrored(w: World, moves: seq<Move>)
    requires Mirrored(w) && AllHeard(w, moves)
    ensures Mirrored(Played(w, moves))
    decreases |moves|
  {
    hide Mirrored, Act, Heard;
    if moves != [] {
      if moves[0].Serve? {
        ServeMirrored(w, moves[0].step);
      } else {
        SeatMirrored(w, moves[0]);
      }
      RunMirrored(Act(w, moves[0]), moves[1..]);
    }
  }

  /** From any files, in every state of a run, each surface's lines and queue add up to the ring. */
  lemma ReplicasAgree(inbox: Inbox, replay: seq<Entry>, opens: bool, loads: bool, recovers: bool, moves: seq<Move>,
                      name: string)
    requires Snapshot(replay) && Clears(inbox, replay, loads, recovers)
    requires AllHeard(World(Boot(inbox, replay, opens, loads, recovers), map[]), moves)
    ensures var w := Played(World(Boot(inbox, replay, opens, loads, recovers), map[]), moves);
      name in w.seats ==>
        HearAll(w.seats[name].lines, w.seats[name].queue) == Lines(w.p.replay.ring.entries)
  {
    hide Live, Caught, AllHeard, Boot, Act;
    BootCaught(inbox, replay, opens, loads, recovers);
    BootIsLive(inbox, replay, opens, loads, recovers);
    RunMirrored(World(Boot(inbox, replay, opens, loads, recovers), map[]), moves);
  }

  lemma BootIsLive(inbox: Inbox, replay: seq<Entry>, opens: bool, loads: bool, recovers: bool)
    requires Snapshot(replay)
    ensures Live(Boot(inbox, replay, opens, loads, recovers))
  {
    hide Boot, SlotSane, FilesSound;
    BootSane(inbox, replay, opens, loads, recovers);
    BootFiles(inbox, replay, opens, loads, recovers);
  }
}
