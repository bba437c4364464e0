/**
  Durable proactive delivery (host/service/src/service.rs) as a state machine.
  One state is what the service holds and what its two files hold; one step is
  one critical section of the service lock, or a crash. Every write and every
  send may fail, so each step carries their outcomes.
*/
module DeliveryProtocol {
  import opened Prelude
  import opened BriefingRows
  import opened BriefingInbox
  import opened ConversationRing

  const TERMINAL_SURFACE: string := "terminal"
  const UNPROMPTED_SURFACE: string := "unprompted"
  const MAX_CONSECUTIVE_PROACTIVE_TURNS: nat := 3

  /** `Failed` says whether its detail is a stopped briefing delivery. */
  datatype Lifecycle = Starting | Working | Idle | Failed(briefing: bool)

  datatype Protocol = Protocol(
    inbox: Store, replay: History,
    active: Option<string>, started: bool,
    consecutive: nat, runs: set<(string, string)>, circuit: bool,
    lifecycle: Lifecycle, agent: bool,
    surface: Option<string>, turn: Option<string>)

  /** The broadcasts that change what a surface shows of the conversation. */
  datatype Frame = Said(message: Message) | Taken(id: string)

  /** What one step leaves, says to every surface, and closes. */
  datatype Effect = Effect(next: Protocol, frames: seq<Frame>, answered: Option<string>)

  function Quiet(p: Protocol): Effect { Effect(p, [], None) }

  // ---- ingress: `control_briefing` ----

  /** Collection cannot acknowledge delivery: the replay decides, or a legacy row. */
  function AlreadySaid(p: Protocol, row: Row, wake: Option<Wake>): bool {
    || (wake.Some? && wake.value.eventId in Deliveries(p.replay.ring.entries))
    || (wake.None? && row.delivery.Delivered?)
  }

  function Ingress(p: Protocol, row: Row, wake: Option<Wake>, stores: bool, marks: bool): Protocol {
    var said := AlreadySaid(p, row, wake);
    var inbox := Upsert(p.inbox, row, wake, said, stores);
    if Refused(UpsertOutcome(p.inbox, row, wake, said, stores)) then p
    else if p.circuit then p.(inbox := QueuedDeliveryFailed(inbox, marks).0)
    else p.(inbox := inbox)
  }

  /** Whether the ingress was answered with `BriefingAck`. */
  predicate IngressAcked(p: Protocol, row: Row, wake: Option<Wake>, stores: bool, marks: bool) {
    var said := AlreadySaid(p, row, wake);
    && !Refused(UpsertOutcome(p.inbox, row, wake, said, stores))
    && (p.circuit ==> QueuedDeliveryFailed(Upsert(p.inbox, row, wake, said, stores), marks).1.Found?)
  }

  // ---- the model slot: `dispatch_briefing_now` ----

  predicate MayDispatch(p: Protocol) {
    p.lifecycle.Idle? && p.surface.None? && p.active.None? && p.agent && !p.circuit
  }

  /** Opens the circuit and marks every queued row, if that can be stored. */
  function Stop(p: Protocol, marks: bool): Protocol {
    p.(circuit := true, inbox := QueuedDeliveryFailed(p.inbox, marks).0)
  }

  predicate Repeated(p: Protocol, event: string) {
    var run := LogicalFor(p.inbox.mem, event);
    run.Some? && run.value in p.runs
  }

  function Dispatch(p: Protocol, reserves: bool, sent: bool, retries: bool, marks: bool): Protocol {
    var k := NextAt(p.inbox.mem);
    if !MayDispatch(p) then p
    else if k == |p.inbox.mem.pending| then p.(consecutive := 0, runs := {})
    else
      var event := p.inbox.mem.pending[k].wake.eventId;
      if p.consecutive >= MAX_CONSECUTIVE_PROACTIVE_TURNS && Repeated(p, event) then
        var stored := QueuedDeliveryFailed(p.inbox, marks).1.Found?;
        Stop(p, marks).(lifecycle := if stored then p.lifecycle else Lifecycle.Failed(true))
      else if !reserves then Stop(p, marks).(lifecycle := Lifecycle.Failed(true))
      else Send(p.(inbox := ReassignStore(p.inbox, event, InProgress, true).0), event, sent, retries)
  }

  /** The reserved wake crosses to the agent, or is handed back. */
  function Send(p: Protocol, event: string, sent: bool, retries: bool): Protocol {
    if sent then p.(active := Some(event), started := false)
    else
      var (inbox, ok) := ReassignStore(p.inbox, event, Pending, retries);
      if ok then p.(agent := false, inbox := inbox)
      else p.(agent := false, inbox := inbox, circuit := true, lifecycle := Lifecycle.Failed(true))
  }

  // ---- the turn: `ProactiveStarted`, `Response`, `ProactiveSettled` ----

  function Begin(p: Protocol, event: string): Protocol {
    if p.started then p
    else
      var run := LogicalFor(p.inbox.mem, event);
      p.(started := true, consecutive := p.consecutive + 1,
         runs := if run.Some? then p.runs + {run.value} else p.runs)
  }

  function Started(p: Protocol, event: string): Protocol {
    if p.active == Some(event) then Begin(p, event) else p
  }

  function Freed(p: Protocol): Protocol { p.(active := None, started := false) }

  /** The answer is durable in the replay before the inbox may acknowledge it. */
  function Answer(p: Protocol, event: string, message: Message, records: bool, acks: bool, marks: bool): Effect {
    if p.active != Some(event) then Quiet(p)
    else
      var q := Begin(p, event).(replay := RecordDelivery(p.replay, event, message, records));
      if DeliveryOutcome(p.replay, event, records).NotRecorded? then Quiet(q)
      else Close(q, event, acks, marks)
  }

  function Close(q: Protocol, event: string, acks: bool, marks: bool): Effect {
    var said := DeliveryMessage(q.replay.ring.entries, event);
    var (inbox, reply) := Acknowledge(q.inbox, event, acks);
    if reply.WriteFailed? then Quiet(q)
    else if reply.count > 0 && said.Some? then
      Effect(Freed(q).(inbox := inbox), [Said(said.value)], Some(event))
    else Quiet(Stop(Freed(q), marks))
  }

  /** A reserved row goes back to pending, or the circuit opens. */
  function HandBack(p: Protocol, event: string, retries: bool, marks: bool): Protocol {
    var (inbox, ok) := ReassignStore(p.inbox, event, Pending, retries);
    if ok then Freed(p).(inbox := inbox)
    else Stop(Freed(p), marks).(lifecycle := Lifecycle.Failed(true))
  }

  function Settle(p: Protocol, event: string, closes: bool, retries: bool, marks: bool): Effect {
    var said := DeliveryMessage(p.replay.ring.entries, event);
    var (inbox, reply) := RecoverDelivered(p.inbox, {event}, closes);
    if p.active != Some(event) then Quiet(p)
    else if said.Some? && reply.Found? && reply.count > 0 then
      Effect(Freed(p).(inbox := inbox), [Said(said.value)], Some(event))
    else Quiet(HandBack(p, event, retries, marks))
  }

  /** `agent_left`. */
  function AgentLeft(p: Protocol, retries: bool, marks: bool): Protocol {
    var q := p.(agent := false, started := false);
    if p.active.Some? then HandBack(q, p.active.value, retries, marks) else q
  }

  // ---- the owner's turns ----

  function UserMessage(surface: string, text: string): Message {
    Message(User, surface, text, [])
  }

  function RecordSaid(p: Protocol, message: Message, saves: bool): Effect {
    Effect(p.(replay := Record(p.replay, message, saves)), [Said(message)], None)
  }

  /** An explicit owner turn is the recovery boundary of an open circuit. */
  function Recovered(p: Protocol, resumes: bool): Protocol {
    if !p.circuit then p
    else
      var (inbox, reply) := ResumeStopped(p.inbox, resumes);
      if reply.WriteFailed? then p
      else p.(inbox := inbox, circuit := false,
              lifecycle := if p.lifecycle == Lifecycle.Failed(true) then Idle else p.lifecycle)
  }

  function OwnerTurn(p: Protocol, surface: string, turn: string, text: string, resumes: bool, saves: bool): Effect {
    var q := Recovered(p, resumes);
    var reset := if q.circuit then q else q.(consecutive := 0, runs := {});
    RecordSaid(reset.(surface := Some(surface), turn := Some(turn)), UserMessage(surface, text), saves)
  }

  /** A surface is refused while a briefing holds the slot, or without an agent. */
  function SurfaceMessage(p: Protocol, surface: string, turn: string, text: string,
                          sent: bool, resumes: bool, saves: bool): Effect {
    if p.active.Some? || !p.agent then Quiet(p)
    else if !sent then Quiet(p.(agent := false))
    else OwnerTurn(p, surface, turn, text, resumes, saves)
  }

  /** A leased terminal's words already happened, so they are never refused. */
  function TerminalTurn(p: Protocol, turn: string, text: string, resumes: bool, saves: bool): Effect {
    if !p.agent then Quiet(p) else OwnerTurn(p, TERMINAL_SURFACE, turn, text, resumes, saves)
  }

  function Closed(p: Protocol): Protocol { p.(surface := None, turn := None) }

  /** Which open turn an ordinary answer closes, and whose answer it is. */
  function Destination(p: Protocol, turn: Option<string>): (Protocol, Option<string>) {
    if turn.Some? && p.turn == turn then (Closed(p), p.surface)
    else if turn.Some? then (p, Some(TERMINAL_SURFACE))
    else if p.active.Some? then (p, None)
    else (Closed(p), p.surface)
  }

  /** `present` says whether the destination is still registered. */
  function Reply(p: Protocol, turn: Option<string>, text: string, offers: seq<Offer>,
                 present: bool, saves: bool): Effect {
    if !p.agent then Quiet(p)
    else
      var (q, destination) := Destination(p, turn);
      var surface :=
        if destination.Some? && (present || destination.value == TERMINAL_SURFACE) then destination.value
        else UNPROMPTED_SURFACE;
      RecordSaid(q, Message(Assistant, surface, text, offers), saves)
  }

  function Abort(p: Protocol, sent: bool): Protocol {
    if !p.agent then p else if sent then Closed(p) else p.(agent := false)
  }

  function OfferTake(p: Protocol, id: string, saves: bool): Effect {
    if !OfferOpen(Lines(p.replay.ring.entries), id) then Quiet(p)
    else Effect(p.(replay := Take(p.replay, id, saves)), [Taken(id)], None)
  }

  // ---- a crash and the start after it: `Service::new` ----

  ghost function Boot(inbox: Inbox, replay: seq<Entry>, opens: bool, loads: bool, recovers: bool): Protocol {
    var history := OpenHistory(replay, loads);
    var store := Open(inbox, opens);
    Protocol(RecoverDelivered(store, Deliveries(history.ring.entries), recovers).0, history,
             None, false, 0, {}, false, Starting, false, None, None)
  }

  // ---- steps ----

  datatype Step =
    | DoIngress(row: Row, wake: Option<Wake>, stores: bool, marks: bool)
    | DoDispatch(reserves: bool, sent: bool, retries: bool, marks: bool)
    | DoStarted(event: string)
    | DoAnswer(event: string, message: Message, records: bool, acks: bool, marks: bool)
    | DoSettle(event: string, closes: bool, retries: bool, marks: bool)
    | DoAgentJoined
    | DoAgentLost
    | DoAgentLeft(retries: bool, marks: bool)
    | DoSurfaceMessage(name: string, turn: string, text: string, sent: bool, resumes: bool, saves: bool)
    | DoTerminalTurn(turn: string, text: string, resumes: bool, saves: bool)
    | DoReply(answers: Option<string>, text: string, offers: seq<Offer>, present: bool, saves: bool)
    | DoAbort(sent: bool)
    | DoTurnClosed
    | DoOfferTake(id: string, saves: bool)
    | DoDismiss(id: string, lands: bool)
    | DoLifecycle(to: Lifecycle)
    | DoCrash(opens: bool, loads: bool, recovers: bool)
    | DoCrashMidAnswer(event: string, message: Message, opens: bool, loads: bool, recovers: bool)

  /** What validation has already refused by the time a step runs. */
  predicate Admissible(step: Step) { step.DoIngress? ==> step.row.Counted() }

  /** The process dies after the answer is recorded and before it is acknowledged. */
  function HalfAnswered(p: Protocol, event: string, message: Message): Protocol {
    if p.active == Some(event) then p.(replay := RecordDelivery(p.replay, event, message, true)) else p
  }

  ghost function Perform(p: Protocol, step: Step): Effect {
    match step
    case DoIngress(row, wake, stores, marks) => Quiet(Ingress(p, row, wake, stores, marks))
    case DoDispatch(reserves, sent, retries, marks) => Quiet(Dispatch(p, reserves, sent, retries, marks))
    case DoStarted(event) => Quiet(Started(p, event))
    case DoAnswer(event, message, records, acks, marks) => Answer(p, event, message, records, acks, marks)
    case DoSettle(event, closes, retries, marks) => Settle(p, event, closes, retries, marks)
    case DoAgentJoined => Quiet(p.(agent := true))
    case DoAgentLost => Quiet(p.(agent := false))
    case DoAgentLeft(retries, marks) => Quiet(AgentLeft(p, retries, marks))
    case DoSurfaceMessage(name, turn, text, sent, resumes, saves) =>
      SurfaceMessage(p, name, turn, text, sent, resumes, saves)
    case DoTerminalTurn(turn, text, resumes, saves) => TerminalTurn(p, turn, text, resumes, saves)
    case DoReply(answers, text, offers, present, saves) => Reply(p, answers, text, offers, present, saves)
    case DoAbort(sent) => Quiet(Abort(p, sent))
    case DoTurnClosed => Quiet(Closed(p))
    case DoOfferTake(id, saves) => OfferTake(p, id, saves)
    case DoDismiss(id, lands) => Quiet(p.(inbox := Dismiss(p.inbox, id, lands)))
    case DoLifecycle(to) => Quiet(p.(lifecycle := to))
    case DoCrash(opens, loads, recovers) => Quiet(Boot(p.inbox.disk, p.replay.disk, opens, loads, recovers))
    case DoCrashMidAnswer(event, message, opens, loads, recovers) =>
      var q := HalfAnswered(p, event, message);
      Quiet(Boot(q.inbox.disk, q.replay.disk, opens, loads, recovers))
  }
}
