/**
  The service's own object (host/service/src/service.rs, `Inner`): fields that
  its methods change in place, each method one critical section of the lock.
  Every method is proved to do what the protocol's step says, to the fields,
  to both stores, and to the outbox of every surface.
*/
module DeliveryService {
  import opened Prelude
  import opened BriefingRows
  import opened BriefingInbox
  import opened BriefingInboxLaws
  import BriefingReopenLaws
  import opened BriefingStores
  import opened ConversationRing
  import ConversationLaws
  import opened ConversationHistories
  import opened DeliveryProtocol
  import opened Replica

  class Inner {
    const briefings: BriefingStore
    const conversation: ConversationHistory
    var activeProactive: Option<string>
    var activeProactiveStarted: bool
    var consecutiveProactive: nat
    var proactiveRuns: set<(string, string)>
    var proactiveCircuitOpen: bool
    var lifecycle: Lifecycle
    var agent: bool
    var associatedSurface: Option<string>
    var associatedTurn: Option<string>
    var surfaces: map<string, Seat>

    ghost function View(): Protocol
      reads this, briefings, conversation
    {
      Protocol(briefings.State(), conversation.State(), activeProactive, activeProactiveStarted,
               consecutiveProactive, proactiveRuns, proactiveCircuitOpen, lifecycle, agent,
               associatedSurface, associatedTurn)
    }

    /** `Service::new`: open both files, then close what the replay already answered. */
    constructor (inbox: Inbox, replay: seq<Entry>, opens: bool, loads: bool, recovers: bool)
      ensures View() == Boot(inbox, replay, opens, loads, recovers) && surfaces == map[]
      ensures fresh(briefings) && fresh(conversation)
    {
      conversation := new ConversationHistory(replay, loads);
      briefings := new BriefingStore(inbox, opens);
      activeProactive, activeProactiveStarted, consecutiveProactive := None, false, 0;
      proactiveRuns, proactiveCircuitOpen, lifecycle, agent := {}, false, Starting, false;
      associatedSurface, associatedTurn, surfaces := None, None, map[];
      new;
      BriefingReopenLaws.OpenKeeps(inbox, opens);
      var _ := briefings.RecoverDelivered(Deliveries(conversation.entries), recovers);
    }

    // ---- surfaces ----

    /** Sends one message to every surface and drops those that stopped reading. */
    method Broadcast(sent: Sent)
      modifies this`surfaces
      ensures surfaces == Replica.Broadcast(old(surfaces), sent)
    {
      var failed: set<string> := {};
      var left := surfaces.Keys;
      while left != {}
        invariant left <= old(surfaces).Keys == surfaces.Keys
        invariant failed == set name | name in old(surfaces) - left && |old(surfaces)[name].queue| >= OUTBOX
        invariant forall name :: name in left ==> surfaces[name] == old(surfaces)[name]
        invariant forall name :: (name in surfaces.Keys - left ==>
            surfaces[name] == Seat(old(surfaces)[name].lines, TrySend(old(surfaces)[name].queue, sent)))
        decreases left
      {
        var name :| name in left;
        var held := surfaces[name];
        if |held.queue| >= OUTBOX {
          failed := failed + {name};
        }
        surfaces := surfaces[name := Seat(held.lines, TrySend(held.queue, sent))];
        left := left - {name};
      }
      surfaces := surfaces - failed;
    }

    method RegisterSurface(name: string)
      modifies this`surfaces
      ensures surfaces == old(surfaces)[name := Registered(old(View()).replay.ring)]
    {
      var all := Greeting(Ring(conversation.entries, conversation.nextSequence));
      var queue: seq<Sent> := [];
      var i := 0;
      while i < |all|
        invariant 0 <= i <= |all| && surfaces == old(surfaces)
        invariant TrySendAll(queue, all[i..]) == TrySendAll([], all)
      {
        assert all[i..][1..] == all[i + 1..];
        queue := TrySend(queue, all[i]);
        i := i + 1;
      }
      surfaces := surfaces[name := Seat([], queue)];
    }

    // ---- ingress ----

    /** Imports one lifecycle report; `acked` is the `BriefingAck`. */
    method ControlBriefing(row: Row, wake: Option<Wake>, stores: bool, marks: bool) returns (acked: bool)
      modifies briefings
      ensures View() == Ingress(old(View()), row, wake, stores, marks)
      ensures acked == IngressAcked(old(View()), row, wake, stores, marks)
    {
      hide BriefingInbox.Upsert, UpsertOutcome, BriefingInbox.QueuedDeliveryFailed;
      var delivered := (wake.Some? && wake.value.eventId in Deliveries(conversation.entries))
                       || (wake.None? && row.delivery.Delivered?);
      var outcome := briefings.Upsert(row, wake, delivered, stores);
      RefusedIsStill(old(briefings.State()), row, wake, delivered, stores);
      if Refused(outcome) {
        return false;
      }
      if proactiveCircuitOpen {
        var failed := briefings.QueuedDeliveryFailed(marks);
        return failed.Found?;
      }
      return true;
    }

    // ---- the model slot ----

    method StopDelivery(marks: bool) returns (stored: bool)
      modifies this`proactiveCircuitOpen, briefings
      ensures View() == DeliveryProtocol.Stop(old(View()), marks)
      ensures stored == BriefingInbox.QueuedDeliveryFailed(old(briefings.State()), marks).1.Found?
    {
      proactiveCircuitOpen := true;
      var marked := briefings.QueuedDeliveryFailed(marks);
      return marked.Found?;
    }

    /** Gives one durable item the slot, stored as in progress before its wake is sent. */
    method DispatchBriefingNow(reserves: bool, sent: bool, retries: bool, marks: bool)
      modifies this, briefings
      ensures View() == Dispatch(old(View()), reserves, sent, retries, marks) && surfaces == old(surfaces)
    {
      hide BriefingInbox.QueuedDeliveryFailed, ReassignStore, Send, LogicalFor;
      if !lifecycle.Idle? || associatedSurface.Some? || activeProactive.Some? || !agent || proactiveCircuitOpen {
        return;
      }
      var k := NextAt(briefings.Memory());
      if k == |briefings.pending| {
        consecutiveProactive, proactiveRuns := 0, {};
        return;
      }
      var event := briefings.pending[k].wake.eventId;
      var run := LogicalFor(briefings.Memory(), event);
      if consecutiveProactive >= MAX_CONSECUTIVE_PROACTIVE_TURNS && run.Some? && run.value in proactiveRuns {
        var stored := StopDelivery(marks);
        if !stored {
          lifecycle := Lifecycle.Failed(true);
        }
        return;
      }
      ReserveOutcome(briefings.State(), event, reserves);
      var reserved := briefings.Reassign(event, InProgress, reserves);
      if !reserved {
        lifecycle := Lifecycle.Failed(true);
        var _ := StopDelivery(marks);
        return;
      }
      SendWake(event, sent, retries);
    }

    method SendWake(event: string, sent: bool, retries: bool)
      modifies this, briefings
      ensures View() == Send(old(View()), event, sent, retries) && surfaces == old(surfaces)
    {
      if sent {
        activeProactive, activeProactiveStarted := Some(event), false;
        return;
      }
      agent := false;
      var returned := briefings.Reassign(event, Pending, retries);
      if !returned {
        proactiveCircuitOpen, lifecycle := true, Lifecycle.Failed(true);
      }
    }

    // ---- the turn ----

    /** Counts the start of the active turn, once. */
    method BeginTurn(event: string)
      modifies this
      ensures View() == Begin(old(View()), event) && surfaces == old(surfaces)
    {
      if activeProactiveStarted {
        return;
      }
      activeProactiveStarted, consecutiveProactive := true, consecutiveProactive + 1;
      var run := LogicalFor(briefings.Memory(), event);
      if run.Some? {
        proactiveRuns := proactiveRuns + {run.value};
      }
    }

    method ProactiveStarted(event: string)
      modifies this
      ensures View() == Started(old(View()), event) && surfaces == old(surfaces)
    {
      if activeProactive == Some(event) {
        BeginTurn(event);
      }
    }

    /** Records the answer, then acknowledges it, then announces it. */
    method ProactiveResponse(event: string, message: Message, records: bool, acks: bool, marks: bool)
      modifies this, briefings, conversation
      ensures var e := Answer(old(View()), event, message, records, acks, marks);
        View() == e.next && surfaces == BroadcastAll(old(surfaces), e.frames)
    {
      if activeProactive != Some(event) {
        return;
      }
      BeginTurn(event);
      var outcome := conversation.RecordDelivery(event, message, records);
      RecordedIsHeld(old(conversation.State()), event, message, records);
      if outcome.NotRecorded? {
        return;
      }
      CloseAnswer(event, acks, marks);
    }

    /** The replay holds this answer; the inbox may close it. */
    method CloseAnswer(event: string, acks: bool, marks: bool)
      requires DeliveryMessage(conversation.entries, event).Some?
      modifies this, briefings
      ensures var e := Close(old(View()), event, acks, marks);
        View() == e.next && surfaces == BroadcastAll(old(surfaces), e.frames)
    {
      hide BriefingInbox.QueuedDeliveryFailed, BriefingInbox.Acknowledge, DeliveryMessage, Replica.Broadcast;
      hide BroadcastAll;
      NoFrames(surfaces);
      AckOutcome(briefings.State(), event, acks);
      var durable := DeliveryMessage(conversation.entries, event);
      var reply := briefings.Acknowledge(event, acks);
      if reply.WriteFailed? {
        return;
      }
      activeProactive, activeProactiveStarted := None, false;
      if reply.count > 0 {
        Broadcast(Show(Said(durable.value)));
        OneFrame(old(surfaces), Said(durable.value));
      } else {
        var _ := StopDelivery(marks);
      }
    }

    /** Returns the reserved row to pending, or opens the circuit. */
    method ReturnToPending(event: string, retries: bool, marks: bool)
      modifies this, briefings
      ensures View() == HandBack(old(View()), event, retries, marks) && surfaces == old(surfaces)
    {
      hide BriefingInbox.QueuedDeliveryFailed, ReassignStore;
      activeProactive, activeProactiveStarted := None, false;
      FailedReassign(briefings.State(), event, retries);
      var returned := briefings.Reassign(event, Pending, retries);
      if !returned {
        lifecycle := Lifecycle.Failed(true);
        var _ := StopDelivery(marks);
      }
    }

    /** Reconciles the exact turn after its settlement. */
    method ProactiveSettled(event: string, closes: bool, retries: bool, marks: bool)
      requires Sound(briefings.Memory())
      modifies this, briefings
      ensures var e := Settle(old(View()), event, closes, retries, marks);
        View() == e.next && surfaces == BroadcastAll(old(surfaces), e.frames)
    {
      hide BriefingInbox.RecoverDelivered, HandBack, DeliveryMessage, Replica.Broadcast, BroadcastAll, Sound;
      NoFrames(surfaces);
      if activeProactive != Some(event) {
        return;
      }
      RecoverOutcome(briefings.State(), event, closes);
      var said := DeliveryMessage(conversation.entries, event);
      if said.Some? {
        var reply := briefings.RecoverDelivered({event}, closes);
        if reply.Found? && reply.count > 0 {
          activeProactive, activeProactiveStarted := None, false;
          Broadcast(Show(Said(said.value)));
          OneFrame(old(surfaces), Said(said.value));
          return;
        }
      }
      ReturnToPending(event, retries, marks);
    }

    method AgentGone(retries: bool, marks: bool)
      modifies this, briefings
      ensures View() == AgentLeft(old(View()), retries, marks) && surfaces == old(surfaces)
    {
      agent, activeProactiveStarted := false, false;
      if activeProactive.Some? {
        ReturnToPending(activeProactive.value, retries, marks);
      }
    }

    // ---- the owner's turns ----

    /** Adds one message to the replay and shows it everywhere. */
    method RecordMessage(message: Message, saves: bool)
      modifies this`surfaces, conversation
      ensures var e := RecordSaid(old(View()), message, saves);
        View() == e.next && surfaces == BroadcastAll(old(surfaces), e.frames)
    {
      var _ := conversation.Record(message, saves);
      Broadcast(Show(Said(message)));
      OneFrame(old(surfaces), Said(message));
    }

    method ResetCircuit(resumes: bool)
      modifies this, briefings
      ensures View() == DeliveryProtocol.Recovered(old(View()), resumes) && surfaces == old(surfaces)
    {
      if proactiveCircuitOpen {
        var resumed := briefings.ResumeStopped(resumes);
        if resumed.Found? {
          proactiveCircuitOpen := false;
          if lifecycle == Lifecycle.Failed(true) {
            lifecycle := Idle;
          }
        }
      }
    }

    method OwnerTurn(surface: string, turn: string, text: string, resumes: bool, saves: bool)
      modifies this, briefings, conversation
      ensures var e := DeliveryProtocol.OwnerTurn(old(View()), surface, turn, text, resumes, saves);
        View() == e.next && surfaces == BroadcastAll(old(surfaces), e.frames)
    {
      ResetCircuit(resumes);
      if !proactiveCircuitOpen {
        consecutiveProactive, proactiveRuns := 0, {};
      }
      associatedSurface, associatedTurn := Some(surface), Some(turn);
      RecordMessage(UserMessage(surface, text), saves);
    }

    /** A surface's words, refused while a briefing holds the slot. */
    method SurfaceMessage(surface: string, turn: string, text: string, sent: bool, resumes: bool, saves: bool)
      returns (accepted: bool)
      modifies this, briefings, conversation
      ensures var e := DeliveryProtocol.SurfaceMessage(old(View()), surface, turn, text, sent, resumes, saves);
        View() == e.next && surfaces == BroadcastAll(old(surfaces), e.frames)
      ensures accepted == (old(activeProactive).None? && old(agent) && sent)
    {
      if activeProactive.Some? || !agent {
        return false;
      }
      if !sent {
        agent := false;
        return false;
      }
      OwnerTurn(surface, turn, text, resumes, saves);
      return true;
    }

    method TerminalTurn(turn: string, text: string, resumes: bool, saves: bool)
      modifies this, briefings, conversation
      ensures var e := DeliveryProtocol.TerminalTurn(old(View()), turn, text, resumes, saves);
        View() == e.next && surfaces == BroadcastAll(old(surfaces), e.frames)
    {
      if agent {
        OwnerTurn(TERMINAL_SURFACE, turn, text, resumes, saves);
      }
    }

    /** Which open turn an answer closes, and where it belongs. */
    method CloseTurnFor(turn: Option<string>) returns (destination: Option<string>)
      modifies this
      ensures (View(), destination) == Destination(old(View()), turn) && surfaces == old(surfaces)
    {
      if turn.Some? && associatedTurn == turn {
        destination := associatedSurface;
        associatedSurface, associatedTurn := None, None;
      } else if turn.Some? {
        destination := Some(TERMINAL_SURFACE);
      } else if activeProactive.Some? {
        destination := None;
      } else {
        destination := associatedSurface;
        associatedSurface, associatedTurn := None, None;
      }
    }

    /** Records one ordinary answer for whoever asked, or for nobody in particular. */
    method Response(turn: Option<string>, text: string, offers: seq<Offer>, saves: bool)
      modifies this, conversation
      ensures var owner := Destination(old(View()), turn).1;
        var present := owner.Some? && owner.value in old(surfaces);
        var e := DeliveryProtocol.Reply(old(View()), turn, text, offers, present, saves);
        View() == e.next && surfaces == BroadcastAll(old(surfaces), e.frames)
    {
      if !agent {
        return;
      }
      var destination := CloseTurnFor(turn);
      var surface := UNPROMPTED_SURFACE;
      if destination.Some? && (destination.value in surfaces || destination.value == TERMINAL_SURFACE) {
        surface := destination.value;
      }
      RecordMessage(Message(Assistant, surface, text, offers), saves);
    }

    method SurfaceAbort(sent: bool)
      modifies this
      ensures View() == Abort(old(View()), sent) && surfaces == old(surfaces)
    {
      if agent {
        if sent {
          associatedSurface, associatedTurn := None, None;
        } else {
          agent := false;
        }
      }
    }

    /** Spends one open offer; every surface sees the mark whatever the snapshot did. */
    method SurfaceOfferTake(id: string, saves: bool)
      modifies this`surfaces, conversation
      ensures var e := OfferTake(old(View()), id, saves);
        View() == e.next && surfaces == BroadcastAll(old(surfaces), e.frames)
    {
      var taken := conversation.TakeOffer(id, saves);
      if taken {
        Broadcast(Show(Taken(id)));
        OneFrame(old(surfaces), Taken(id));
      }
    }
  }

  lemma RefusedIsStill(s: Store, row: Row, wake: Option<Wake>, delivered: bool, lands: bool)
    ensures Refused(UpsertOutcome(s, row, wake, delivered, lands)) ==>
      Upsert(s, row, wake, delivered, lands) == s
  {
  }

  /** A deduplicated delivery has its canonical message. */
  lemma RecordedIsHeld(h: History, id: string, message: Message, lands: bool)
    ensures !DeliveryOutcome(h, id, lands).NotRecorded? ==>
      DeliveryMessage(RecordDelivery(h, id, message, lands).ring.entries, id).Some?
  {
    var entries := RecordDelivery(h, id, message, lands).ring.entries;
    ConversationLaws.DeliveryFound(entries, id);
    if DeliveryOutcome(h, id, lands).Inserted? {
      assert entries[|entries| - 1] in entries;
    }
  }

  lemma ReserveOutcome(s: Store, event: string, lands: bool)
    requires HasEvent(s.mem.pending, event)
    ensures ReassignStore(s, event, InProgress, lands).1 == lands
    ensures !lands ==> ReassignStore(s, event, InProgress, lands).0 == s
  {
  }

  lemma AckOutcome(s: Store, event: string, lands: bool)
    ensures BriefingInbox.Acknowledge(s, event, lands).1.WriteFailed? ==>
        BriefingInbox.Acknowledge(s, event, lands).0 == s
    ensures BriefingInbox.Acknowledge(s, event, lands).1 == Found(0) ==>
        BriefingInbox.Acknowledge(s, event, lands).0 == s
  {
  }

  lemma RecoverOutcome(s: Store, event: string, lands: bool)
    ensures var (after, reply) := BriefingInbox.RecoverDelivered(s, {event}, lands);
      reply.WriteFailed? || reply == Found(0) ==> after == s
  {
  }

  lemma NoFrames(seats: map<string, Seat>)
    ensures BroadcastAll(seats, []) == seats
  {
  }

  lemma OneFrame(seats: map<string, Seat>, frame: Frame)
    ensures BroadcastAll(seats, [frame]) == Replica.Broadcast(seats, Show(frame))
  {
    assert [frame][1..] == [];
  }

  lemma FailedReassign(s: Store, event: string, lands: bool)
    ensures !ReassignStore(s, event, Pending, lands).1 ==> ReassignStore(s, event, Pending, lands).0 == s
  {
  }
}
