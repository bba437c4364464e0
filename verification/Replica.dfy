/** The conversation as a surface shows it (surfaces/desktop/src/conversation.rs) and the bounded outbox it is fed
    through. The service replays its whole ring to a surface that registers and broadcasts every change after that; a
    surface that stops reading is dropped, never left behind. */
module Replica {
  import opened Prelude
  import opened ConversationRing
  import opened ConversationLaws
  import opened DeliveryProtocol

  const OUTBOX: nat := 256
  const LINES: nat := 200

  /** One queued message: a change of the conversation, or anything else. */
  datatype Sent = Show(frame: Frame) | Notice

  /** What a surface shows, and what it has been sent and not yet read. */
  datatype Seat = Seat(lines: seq<Message>, queue: seq<Sent>)

  // ---- the desktop's side ----

  function Appended(lines: seq<Message>, message: Message): seq<Message> {
    (if |lines| == LINES then lines[1..] else lines) + [message]
  }

  function Hear(lines: seq<Message>, sent: Sent): seq<Message> {
    match sent
    case Notice => lines
    case Show(Said(message)) => Appended(lines, message)
    case Show(Taken(id)) => MarkTaken(lines, id)
  }

  function HearAll(lines: seq<Message>, queue: seq<Sent>): seq<Message> {
    if queue == [] then lines else Hear(HearAll(lines, queue[..|queue| - 1]), queue[|queue| - 1])
  }

  // ---- the service's side ----

  /** `try_send`: a full outbox takes nothing. */
  function TrySend(queue: seq<Sent>, sent: Sent): seq<Sent> {
    if |queue| < OUTBOX then queue + [sent] else queue
  }

  function TrySendAll(queue: seq<Sent>, all: seq<Sent>): seq<Sent>
    decreases |all|
  {
    if all == [] then queue else TrySendAll(TrySend(queue, all[0]), all[1..])
  }

  /** The replay of the ring, then state, jobs, briefings and ready. */
  function Greeting(ring: Ring): (all: seq<Sent>)
    ensures |all| == |ring.entries| + 4
    ensures forall i :: 0 <= i < |ring.entries| ==> all[i] == Show(Frame.Said(ring.entries[i].message))
    ensures forall i :: |ring.entries| <= i < |all| ==> all[i] == Notice
  {
    seq(|ring.entries|, i requires 0 <= i < |ring.entries| => Show(Frame.Said(ring.entries[i].message)))
    + [Notice, Notice, Notice, Notice]
  }

  /** A surface that says hello has forgotten every line and is replayed them all. */
  function Registered(ring: Ring): Seat { Seat([], TrySendAll([], Greeting(ring))) }

  /** Sends to every surface; one whose outbox is full is dropped. */
  function Broadcast(seats: map<string, Seat>, sent: Sent): map<string, Seat> {
    map name | name in seats && |seats[name].queue| < OUTBOX ::
      Seat(seats[name].lines, seats[name].queue + [sent])
  }

  function BroadcastAll(seats: map<string, Seat>, frames: seq<Frame>): map<string, Seat>
    decreases |frames|
  {
    if frames == [] then seats else BroadcastAll(Broadcast(seats, Show(frames[0])), frames[1..])
  }

  // ---- laws ----

  /** Reading the queue will bring this surface to exactly these lines. */
  predicate Shows(seat: Seat, lines: seq<Message>) { HearAll(seat.lines, seat.queue) == lines }

  predicate AllShow(seats: map<string, Seat>, lines: seq<Message>) {
    forall name :: name in seats ==> Shows(seats[name], lines)
  }

  lemma {:induction false} HearSplit(lines: seq<Message>, a: seq<Sent>, b: seq<Sent>)
    ensures HearAll(lines, a + b) == HearAll(HearAll(lines, a), b)
    decreases |b|
  {
    if b == [] {
      assert a + b == a;
    } else {
      HearSplit(lines, a, b[..|b| - 1]);
      assert (a + b)[..|a + b| - 1] == a + b[..|b| - 1];
    }
  }

  /** What a surface reads it shows; what it will show does not change. */
  lemma ReadingChangesNothing(seat: Seat)
    requires seat.queue != []
    ensures HearAll(Hear(seat.lines, seat.queue[0]), seat.queue[1..]) == HearAll(seat.lines, seat.queue)
  {
    HearSplit(seat.lines, seat.queue[..1], seat.queue[1..]);
    assert seat.queue == seat.queue[..1] + seat.queue[1..];
    assert HearAll(seat.lines, seat.queue[..1]) == Hear(seat.lines, seat.queue[0]);
  }

  lemma {:induction false} FitsWhole(queue: seq<Sent>, all: seq<Sent>)
    requires |queue| + |all| <= OUTBOX
    ensures TrySendAll(queue, all) == queue + all
    decreases |all|
  {
    if all != [] {
      FitsWhole(TrySend(queue, all[0]), all[1..]);
    }
  }

  lemma {:induction false} GreetingHeard(ring: Ring, k: nat)
    requires |ring.entries| <= CONVERSATION_ENTRIES && k <= |ring.entries| + 4
    ensures HearAll([], Greeting(ring)[..k]) == Lines(ring.entries[..Min(k, |ring.entries|)])
  {
    var all := Greeting(ring);
    if k > 0 {
      GreetingHeard(ring, k - 1);
      assert all[..k][..k - 1] == all[..k - 1];
    }
  }

  /** The whole ring and the four messages after it fit one outbox, so a new surface shows it all. */
  lemma RegisteredShows(ring: Ring)
    requires |ring.entries| <= CONVERSATION_ENTRIES
    ensures Registered(ring).queue == Greeting(ring)
    ensures Shows(Registered(ring), Lines(ring.entries))
  {
    var all := Greeting(ring);
    FitsWhole([], all);
    GreetingHeard(ring, |all|);
    assert all[..|all|] == all && ring.entries[..|ring.entries|] == ring.entries;
  }

  lemma BroadcastShows(seats: map<string, Seat>, sent: Sent, lines: seq<Message>)
    requires AllShow(seats, lines)
    ensures AllShow(Broadcast(seats, sent), Hear(lines, sent))
  {
    var after := Broadcast(seats, sent);
    forall name | name in after ensures Shows(after[name], Hear(lines, sent)) {
      var queue := seats[name].queue + [sent];
      assert queue[..|queue| - 1] == seats[name].queue;
    }
  }

  function HearFrames(lines: seq<Message>, frames: seq<Frame>): seq<Message>
    decreases |frames|
  {
    if frames == [] then lines else HearFrames(Hear(lines, Show(frames[0])), frames[1..])
  }

  lemma {:induction false} BroadcastAllShows(seats: map<string, Seat>, frames: seq<Frame>, lines: seq<Message>)
    requires AllShow(seats, lines)
    ensures AllShow(BroadcastAll(seats, frames), HearFrames(lines, frames))
    decreases |frames|
  {
    if frames != [] {
      BroadcastShows(seats, Show(frames[0]), lines);
      BroadcastAllShows(Broadcast(seats, Show(frames[0])), frames[1..], Hear(lines, Show(frames[0])));
    }
  }

  function ShowAll(frames: seq<Frame>): (all: seq<Sent>)
    ensures |all| == |frames| && forall i :: 0 <= i < |frames| ==> all[i] == Show(frames[i])
  {
    seq(|frames|, i requires 0 <= i < |frames| => Show(frames[i]))
  }

  /** A surface is dropped if and only if its outbox cannot take all of it; what it shows changes only by reading. */
  lemma {:induction false} KeptIff(seats: map<string, Seat>, frames: seq<Frame>, name: string)
    ensures var after := BroadcastAll(seats, frames);
      && (name in after <==> name in seats && (frames == [] || |seats[name].queue| + |frames| <= 256))
      && (name in after ==> after[name] == Seat(seats[name].lines, seats[name].queue + ShowAll(frames)))
    decreases |frames|
  {
    if name in seats {
      QueuedInOrder(seats[name].queue, frames);
    }
    if frames != [] {
      KeptIff(Broadcast(seats, Show(frames[0])), frames[1..], name);
    }
  }

  lemma QueuedInOrder(queue: seq<Sent>, frames: seq<Frame>)
    ensures if frames == [] then queue + ShowAll(frames) == queue
            else (queue + [Show(frames[0])]) + ShowAll(frames[1..]) == queue + ShowAll(frames)
  {
  }

  /** The desktop drops its oldest line exactly when the ring drops its oldest entry. */
  lemma PushIsSaid(ring: Ring, message: Message, id: Option<string>)
    requires Contiguous(ring)
    ensures Lines(Push(ring, message, id).entries) == Appended(Lines(ring.entries), message)
  {
    PushContiguous(ring, message, id);
  }

  // ---- the desktop's conversation, as it changes in place ----

  class Conversation {
    var lines: seq<Message>
    var thinking: bool

    constructor ()
      ensures lines == [] && !thinking
    {
      lines, thinking := [], false;
    }

    /** Puts one line on the end; the first answer ends the agent's thinking. */
    method Said(entry: Message) returns (finished: bool)
      modifies this
      ensures lines == Appended(old(lines), entry)
      ensures finished == (entry.role.Assistant? && old(thinking)) && thinking == (old(thinking) && !finished)
    {
      if |lines| == LINES {
        lines := lines[1..];
      }
      finished := entry.role.Assistant? && thinking;
      if finished {
        thinking := false;
      }
      lines := lines + [entry];
    }

    /** Marks the first offer by this name spent, and says whether it was open. */
    method OfferTaken(id: string) returns (wasOpen: bool)
      modifies this`lines
      ensures lines == MarkTaken(old(lines), id)
      ensures wasOpen == OfferOpen(old(lines), id)
    {
      var k := 0;
      while k < |lines| && !Offers(lines[k], id)
        invariant k <= |lines| && lines == old(lines)
        invariant forall i :: 0 <= i < k ==> !Offers(lines[i], id)
      {
        k := k + 1;
      }
      assert k == LineWith(lines, id);
      if k == |lines| {
        return false;
      }
      var line := lines[k];
      var j := OfferAt(line.offers, id);
      if line.offers[j].taken {
        assert line.offers[j := line.offers[j].(taken := true)] == line.offers;
        return false;
      }
      lines := lines[k := line.(offers := line.offers[j := line.offers[j].(taken := true)])];
      return true;
    }

    /** Forgets every line, because the ones about to arrive are all of them. */
    method Restart()
      modifies this
      ensures lines == [] && !thinking
    {
      lines, thinking := [], false;
    }

    /** Reads a whole queue, one message at a time. */
    method ReadAll(queue: seq<Sent>)
      modifies this
      ensures lines == HearAll(old(lines), queue)
    {
      for i := 0 to |queue|
        invariant lines == HearAll(old(lines), queue[..i])
      {
        assert queue[..i + 1][..i] == queue[..i];
        match queue[i]
        case Notice =>
        case Show(Said(message)) => var _ := Said(message);
        case Show(Taken(id)) => var _ := OfferTaken(id);
      }
      assert queue[..|queue|] == queue;
    }
  }
}
