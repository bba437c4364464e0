/** What a restart finds of the conversation: exactly the ring as the last write that landed left it. What memory
    holds beyond that is only what was said or taken since. */
module ConversationRuns {
  import opened Prelude
  import opened ConversationRing
  import opened ConversationLaws

  /** The ring a process finds that opens this file. */
  function Found(disk: seq<Entry>): Ring { OpenHistory(disk, true).ring }

  /** The newest two hundred lines. */
  function Appended(lines: seq<Message>, message: Message): seq<Message> {
    (if |lines| == CONVERSATION_ENTRIES then lines[1..] else lines) + [message]
  }

  lemma PushAppends(ring: Ring, message: Message, id: Option<string>)
    requires Contiguous(ring)
    ensures var entries := Push(ring, message, id).entries;
      && Lines(entries) == Appended(Lines(ring.entries), message)
      && entries != [] && entries[|entries| - 1].message == message && entries[|entries| - 1].deliveryId == id
      && Found(entries) == Push(ring, message, id)
  {
    hide OpenHistory, Contiguous, Appended, Push;
    LastPushed(ring, message, id);
    ReloadsItself(Push(ring, message, id), true);
  }

  lemma LastPushed(ring: Ring, message: Message, id: Option<string>)
    requires Contiguous(ring)
    ensures var entries := Push(ring, message, id).entries;
      && Contiguous(Push(ring, message, id))
      && Lines(entries) == Appended(Lines(ring.entries), message)
      && entries != [] && entries[|entries| - 1].message == message && entries[|entries| - 1].deliveryId == id
  {
    hide Push;
    PushContiguous(ring, message, id);
  }

  /**
    A new entry has the ring's next sequence and leaves the numbers of those it
    keeps alone, except at the 64-bit maximum, where all are numbered again.
  */
  lemma PushNumbers(ring: Ring, message: Message, id: Option<string>)
    requires Contiguous(ring)
    ensures var after := Push(ring, message, id);
      var kept := if |ring.entries| == 200 then ring.entries[1..] else ring.entries;
      && |after.entries| == |kept| + 1
      && if ring.next < 0xFFFF_FFFF_FFFF_FFFF then
           after.entries == kept + [Entry(ring.next, id, message)] && after.next == ring.next + 1
         else
           && after.next == |ring.entries| + 2
           && after.entries[|kept|] == Entry(|ring.entries| + 1, id, message)
           && forall i :: 0 <= i < |kept| ==>
                after.entries[i] == kept[i].(sequence := |ring.entries| - |kept| + i + 1)
  {
  }

  lemma SoundRing(h: History)
    requires HistorySound(h)
    ensures Contiguous(h.ring)
  {
  }

  /** An ordinary message is the newest entry at once, and what a restart finds if and when its write lands. */
  lemma RecordStores(h: History, message: Message, lands: bool)
    requires HistorySound(h)
    ensures var after := Record(h, message, lands);
      var entries := after.ring.entries;
      && entries != [] && entries[|entries| - 1].message == message && entries[|entries| - 1].deliveryId.None?
      && Lines(entries) == Appended(Lines(h.ring.entries), message)
      && if lands then Found(after.disk) == after.ring else after.disk == h.disk
  {
    hide Push, Appended, Found, HistorySound, Contiguous, Lines;
    SoundRing(h);
    PushAppends(h.ring, message, None);
  }

  /** An answer is the newest entry and found by a restart, or nothing has happened at all. */
  lemma DeliveryStores(h: History, id: string, message: Message, lands: bool)
    requires HistorySound(h)
    ensures var after := RecordDelivery(h, id, message, lands);
      var entries := after.ring.entries;
      if lands && id !in Deliveries(h.ring.entries) then
        && entries != [] && entries[|entries| - 1].message == message && entries[|entries| - 1].deliveryId == Some(id)
        && Lines(entries) == Appended(Lines(h.ring.entries), message)
        && Found(after.disk) == after.ring
      else after == h
  {
    hide Push, Appended, Found, HistorySound, Contiguous, Lines;
    SoundRing(h);
    PushAppends(h.ring, message, Some(id));
  }

  /** The offer a name means: the first one by it, in the first line that has one. */
  predicate Means(lines: seq<Message>, id: string, line: int, k: int) {
    && 0 <= line < |lines| && 0 <= k < |lines[line].offers| && lines[line].offers[k].id == id
    && (forall j :: 0 <= j < k ==> lines[line].offers[j].id != id)
    && (forall i, j :: 0 <= i < line && 0 <= j < |lines[i].offers| ==> lines[i].offers[j].id != id)
  }

  lemma MeansFound(lines: seq<Message>, id: string, line: int, k: int)
    requires Means(lines, id, line, k)
    ensures line == LineWith(lines, id) && k == OfferAt(lines[line].offers, id)
  {
    assert Offers(lines[line], id) && OfferAt(lines[line].offers, id) == k;
    forall i | 0 <= i < line ensures !Offers(lines[i], id) {
    }
  }

  /** A name that means an offer spends that offer and nothing else, if it is still open, and only once. */
  lemma TakeSpends(h: History, id: string, lands: bool, line: int, k: int)
    requires HistorySound(h) && Means(Lines(h.ring.entries), id, line, k)
    ensures var after := Take(h, id, lands);
      var before := Lines(h.ring.entries);
      if before[line].offers[k].taken then after == h
      else
        && after.ring.next == h.ring.next && |after.ring.entries| == |h.ring.entries|
        && Lines(after.ring.entries)
           == before[line := before[line].(offers := before[line].offers[k := Offer(id, true)])]
        && (forall i :: 0 <= i < |after.ring.entries| ==>
              && after.ring.entries[i].sequence == h.ring.entries[i].sequence
              && after.ring.entries[i].deliveryId == h.ring.entries[i].deliveryId)
        && (if lands then Found(after.disk) == after.ring else after.disk == h.disk)
        && Means(Lines(after.ring.entries), id, line, k) && Lines(after.ring.entries)[line].offers[k].taken
        && Take(after, id, lands) == after
  {
    hide OpenHistory, HistorySound;
    var before := Lines(h.ring.entries);
    MeansFound(before, id, line, k);
    if !before[line].offers[k].taken {
      var ring := h.ring.(entries := TakeOffer(h.ring.entries, id));
      SpentMeans(before, id, line, k);
      MeansFound(MarkTaken(before, id), id, line, k);
      TakenReloads(h, id);
    }
  }

  lemma SpentMeans(lines: seq<Message>, id: string, line: int, k: int)
    requires Means(lines, id, line, k)
    ensures var marked := MarkTaken(lines, id);
      && marked == lines[line := lines[line].(offers := lines[line].offers[k := Offer(id, true)])]
      && Means(marked, id, line, k)
  {
    MeansFound(lines, id, line, k);
  }

  lemma TakenReloads(h: History, id: string)
    requires HistorySound(h)
    ensures var ring := h.ring.(entries := TakeOffer(h.ring.entries, id)); Found(ring.entries) == ring
  {
    ReloadsItself(h.ring.(entries := TakeOffer(h.ring.entries, id)), true);
  }

  /** A name that means no offer spends none. */
  lemma TakeOfNothing(h: History, id: string, lands: bool)
    requires forall line, k :: !Means(Lines(h.ring.entries), id, line, k)
    ensures Take(h, id, lands) == h
  {
    var lines := Lines(h.ring.entries);
    var line := LineWith(lines, id);
    if line < |lines| {
      assert Means(lines, id, line, OfferAt(lines[line].offers, id));
    }
  }

  // ---- over runs ----

  /** One change of the conversation, and whether its write lands. */
  datatype Change = Say(message: Message, lands: bool) | Deliver(id: string, message: Message, lands: bool)
                  | Spend(id: string, lands: bool)

  function Change1(h: History, c: Change): History {
    match c
    case Say(message, lands) => Record(h, message, lands)
    case Deliver(id, message, lands) => RecordDelivery(h, id, message, lands)
    case Spend(id, lands) => Take(h, id, lands)
  }

  /** Whether this change writes the file. */
  ghost predicate Writes(h: History, c: Change) {
    && c.lands
    && match c
       case Say(_, _) => true
       case Deliver(id, _, _) => id !in Deliveries(h.ring.entries)
       case Spend(id, _) =>
         exists line, k :: Means(Lines(h.ring.entries), id, line, k) && !Lines(h.ring.entries)[line].offers[k].taken
  }

  /** The ring as of the last change that wrote, or as it was stored before all of them. */
  ghost function LastWritten(h: History, stored: Ring, changes: seq<Change>): Ring
    decreases |changes|
  {
    if changes == [] then stored
    else
      var next := Change1(h, changes[0]);
      LastWritten(next, if Writes(h, changes[0]) then next.ring else stored, changes[1..])
  }

  function ChangeAll(h: History, changes: seq<Change>): History
    decreases |changes|
  {
    if changes == [] then h else ChangeAll(Change1(h, changes[0]), changes[1..])
  }

  lemma ChangeStores(h: History, c: Change)
    requires HistorySound(h)
    ensures HistorySound(Change1(h, c))
    ensures Found(Change1(h, c).disk) == if Writes(h, c) then Change1(h, c).ring else Found(h.disk)
  {
    hide HistorySound, Found, Push, TakeOffer;
    match c
    case Say(message, lands) =>
      RecordKeeps(h, message, lands);
      RecordStores(h, message, lands);
    case Deliver(id, message, lands) =>
      RecordDeliveryKeeps(h, id, message, lands);
      DeliveryStores(h, id, message, lands);
    case Spend(id, lands) =>
      TakeKeepsHistory(h, id, lands);
      if line, k :| Means(Lines(h.ring.entries), id, line, k) {
        TakeSpends(h, id, lands, line, k);
        forall i, j | Means(Lines(h.ring.entries), id, i, j) ensures i == line && j == k {
          MeansFound(Lines(h.ring.entries), id, i, j);
          MeansFound(Lines(h.ring.entries), id, line, k);
        }
      } else {
        TakeOfNothing(h, id, lands);
      }
  }

  /** Over any changes and write failures, a restart finds the ring of the last write that landed. */
  lemma {:induction false} RestartFindsLastWrite(h: History, changes: seq<Change>)
    requires HistorySound(h)
    ensures Found(ChangeAll(h, changes).disk) == LastWritten(h, Found(h.disk), changes)
    decreases |changes|
  {
    hide HistorySound, Writes, Change1;
    if changes != [] {
      ChangeStores(h, changes[0]);
      RestartFindsLastWrite(Change1(h, changes[0]), changes[1..]);
    }
  }
}
