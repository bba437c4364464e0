/**
  The canonical replay (host/service/src/conversation.rs) as values: a bounded
  ring of sequenced messages, the snapshot it writes, and what a restarted
  service reads back.
*/
module ConversationRing {
  import opened Prelude

  const CONVERSATION_ENTRIES: nat := 200
  const MAX_CONVERSATION_PAGE: nat := 64
  const U64_MAX: nat := 0xFFFF_FFFF_FFFF_FFFF

  datatype Role = User | Assistant

  datatype Offer = Offer(id: string, taken: bool)

  /** One message; `offers` are the offers of its citations, in order. */
  datatype Message = Message(role: Role, surface: string, text: string, offers: seq<Offer>)

  datatype Entry = Entry(sequence: nat, deliveryId: Option<string>, message: Message)

  datatype Ring = Ring(entries: seq<Entry>, next: nat)

  const EMPTY_RING: Ring := Ring([], 1)

  // ---- push ----

  function Resequenced(entries: seq<Entry>): (r: seq<Entry>)
    ensures |r| == |entries|
  {
    seq(|entries|, i requires 0 <= i < |entries| => entries[i].(sequence := i + 1))
  }

  function Push(ring: Ring, message: Message, id: Option<string>): Ring {
    var ready := if ring.next == U64_MAX then Ring(Resequenced(ring.entries), |ring.entries| + 1) else ring;
    var kept := if |ready.entries| == CONVERSATION_ENTRIES then ready.entries[1..] else ready.entries;
    Ring(kept + [Entry(ready.next, id, message)], ready.next + 1)
  }

  // ---- deliveries ----

  function Deliveries(entries: seq<Entry>): set<string> {
    set e | e in entries && e.deliveryId.Some? :: e.deliveryId.value
  }

  ghost predicate UniqueDeliveries(entries: seq<Entry>) {
    forall i, j :: 0 <= i < j < |entries| && entries[i].deliveryId.Some? ==>
      entries[i].deliveryId != entries[j].deliveryId
  }

  function DeliveryAt(entries: seq<Entry>, id: string): (k: nat)
    ensures k <= |entries|
    ensures forall i :: 0 <= i < k ==> entries[i].deliveryId != Some(id)
    ensures k < |entries| ==> entries[k].deliveryId == Some(id)
  {
    DeliveryFrom(entries, id, 0)
  }

  function DeliveryFrom(entries: seq<Entry>, id: string, from: nat): (k: nat)
    requires from <= |entries|
    ensures from <= k <= |entries|
    ensures forall i :: from <= i < k ==> entries[i].deliveryId != Some(id)
    ensures k < |entries| ==> entries[k].deliveryId == Some(id)
    decreases |entries| - from
  {
    if from == |entries| || entries[from].deliveryId == Some(id) then from
    else DeliveryFrom(entries, id, from + 1)
  }

  /** `delivery_message`. */
  function DeliveryMessage(entries: seq<Entry>, id: string): Option<Message> {
    var k := DeliveryAt(entries, id);
    if k < |entries| then Some(entries[k].message) else None
  }

  // ---- offers ----

  function OfferAt(offers: seq<Offer>, id: string): (k: nat)
    ensures k <= |offers|
    ensures forall i :: 0 <= i < k ==> offers[i].id != id
    ensures k < |offers| ==> offers[k].id == id
  {
    OfferFrom(offers, id, 0)
  }

  function OfferFrom(offers: seq<Offer>, id: string, from: nat): (k: nat)
    requires from <= |offers|
    ensures from <= k <= |offers|
    ensures forall i :: from <= i < k ==> offers[i].id != id
    ensures k < |offers| ==> offers[k].id == id
    decreases |offers| - from
  {
    if from == |offers| || offers[from].id == id then from else OfferFrom(offers, id, from + 1)
  }

  predicate Offers(line: Message, id: string) { OfferAt(line.offers, id) < |line.offers| }

  /** The first line that carries an offer by this name. */
  function LineWith(lines: seq<Message>, id: string): (k: nat)
    ensures k <= |lines|
    ensures forall i :: 0 <= i < k ==> !Offers(lines[i], id)
    ensures k < |lines| ==> Offers(lines[k], id)
  {
    LineFrom(lines, id, 0)
  }

  function LineFrom(lines: seq<Message>, id: string, from: nat): (k: nat)
    requires from <= |lines|
    ensures from <= k <= |lines|
    ensures forall i :: from <= i < k ==> !Offers(lines[i], id)
    ensures k < |lines| ==> Offers(lines[k], id)
    decreases |lines| - from
  {
    if from == |lines| || Offers(lines[from], id) then from else LineFrom(lines, id, from + 1)
  }

  /** Whether the first offer by this name is still open. */
  predicate OfferOpen(lines: seq<Message>, id: string) {
    var k := LineWith(lines, id);
    k < |lines| && !lines[k].offers[OfferAt(lines[k].offers, id)].taken
  }

  function Spend(line: Message, id: string): Message
    requires Offers(line, id)
  {
    var k := OfferAt(line.offers, id);
    line.(offers := line.offers[k := line.offers[k].(taken := true)])
  }

  /** Marks the first offer by this name taken, wherever it is. */
  function MarkTaken(lines: seq<Message>, id: string): (r: seq<Message>)
    ensures |r| == |lines|
  {
    var k := LineWith(lines, id);
    if k < |lines| then lines[k := Spend(lines[k], id)] else lines
  }

  function Lines(entries: seq<Entry>): (r: seq<Message>)
    ensures |r| == |entries|
    ensures forall i :: 0 <= i < |entries| ==> r[i] == entries[i].message
  {
    seq(|entries|, i requires 0 <= i < |entries| => entries[i].message)
  }

  function TakeOffer(entries: seq<Entry>, id: string): (r: seq<Entry>)
    ensures |r| == |entries|
    ensures forall i :: 0 <= i < |entries| ==>
      r[i].sequence == entries[i].sequence && r[i].deliveryId == entries[i].deliveryId
    ensures Lines(r) == MarkTaken(Lines(entries), id)
  {
    var marked := MarkTaken(Lines(entries), id);
    seq(|entries|, i requires 0 <= i < |entries| => entries[i].(message := marked[i]))
  }

  // ---- pages ----

  datatype PageEntry = PageEntry(sequence: nat, role: Role, surface: string, text: string)

  function Shown(entry: Entry): PageEntry {
    PageEntry(entry.sequence, entry.message.role, entry.message.surface, entry.message.text)
  }

  function ShownAll(entries: seq<Entry>): (r: seq<PageEntry>)
    ensures |r| == |entries|
    ensures forall i :: 0 <= i < |entries| ==> r[i] == Shown(entries[i])
  {
    seq(|entries|, i requires 0 <= i < |entries| => Shown(entries[i]))
  }

  function After(since: nat): Entry -> bool { (e: Entry) => e.sequence > since }

  /** `entries_since`: at most one page of what follows, and whether more does. */
  function EntriesSince(entries: seq<Entry>, since: nat): (seq<PageEntry>, bool) {
    var later := Filter(After(since), entries);
    (ShownAll(if |later| <= MAX_CONVERSATION_PAGE then later else later[..MAX_CONVERSATION_PAGE]),
     |later| > MAX_CONVERSATION_PAGE)
  }

  function LatestSequence(entries: seq<Entry>): nat {
    if entries == [] then 0 else entries[|entries| - 1].sequence
  }

  /** The sequence a catch-up starts after. */
  function CatchUpFrom(entries: seq<Entry>): nat {
    Max(0, LatestSequence(entries) - MAX_CONVERSATION_PAGE)
  }

  /** What a joining agent is handed: one page. */
  function CatchUp(entries: seq<Entry>): seq<PageEntry> {
    EntriesSince(entries, CatchUpFrom(entries)).0
  }

  // ---- the snapshot ----

  function SequenceAt(entries: seq<Entry>, sequence: nat): (k: nat)
    ensures k <= |entries|
    ensures forall i :: 0 <= i < k ==> entries[i].sequence != sequence
    ensures k < |entries| ==> entries[k].sequence == sequence
  {
    if entries == [] then 0
    else
      var k := SequenceAt(entries[..|entries| - 1], sequence);
      if k < |entries| - 1 || entries[|entries| - 1].sequence == sequence then k else |entries|
  }

  /** One more stored entry: new, a repeat of what is held, or a contradiction. */
  function Absorb(entries: seq<Entry>, entry: Entry): Option<seq<Entry>> {
    var k := SequenceAt(entries, entry.sequence);
    if k == |entries| then Some(entries + [entry])
    else if entries[k] == entry then Some(entries)
    else None
  }

  /** Repeated identical entries collapse; one sequence naming two is an error. */
  function Collapsed(stored: seq<Entry>): Option<seq<Entry>> {
    if stored == [] then Some([])
    else
      match Collapsed(stored[..|stored| - 1])
      case None => None
      case Some(entries) => Absorb(entries, stored[|stored| - 1])
  }

  function Newest(entries: seq<Entry>): seq<Entry> {
    if |entries| <= CONVERSATION_ENTRIES then entries else entries[|entries| - CONVERSATION_ENTRIES..]
  }

  function MaxSequence(entries: seq<Entry>): (m: nat)
    ensures forall e :: e in entries ==> e.sequence <= m
    ensures entries != [] ==> exists e :: e in entries && e.sequence == m
  {
    if entries == [] then 0
    else
      var m := MaxSequence(entries[..|entries| - 1]);
      var last := entries[|entries| - 1];
      if last.sequence > m then last.sequence else m
  }

  /** `set_next_sequence` over loaded entries. */
  function WithNext(entries: seq<Entry>): Ring {
    if MaxSequence(entries) == U64_MAX then Ring(Resequenced(entries), |entries| + 1)
    else Ring(entries, MaxSequence(entries) + 1)
  }

  /** What `open` makes of a snapshot; a rejected one starts an empty replay. */
  function OpenRing(stored: seq<Entry>): Ring {
    match Collapsed(stored)
    case None => EMPTY_RING
    case Some(entries) => WithNext(Newest(entries))
  }

  // ---- the history: memory and its snapshot ----

  datatype History = History(ring: Ring, disk: seq<Entry>)

  /** `record`: memory keeps the message even when the snapshot fails. */
  function Record(h: History, message: Message, lands: bool): History {
    var ring := Push(h.ring, message, None);
    History(ring, if lands then ring.entries else h.disk)
  }

  datatype Recorded = Inserted | Duplicate | NotRecorded

  function DeliveryOutcome(h: History, id: string, lands: bool): Recorded {
    if id in Deliveries(h.ring.entries) then Duplicate
    else if lands then Inserted
    else NotRecorded
  }

  /** `record_delivery`: one answer per identifier, and none that is not on disk. */
  function RecordDelivery(h: History, id: string, message: Message, lands: bool): History {
    if DeliveryOutcome(h, id, lands).Inserted? then
      var ring := Push(h.ring, message, Some(id));
      History(ring, ring.entries)
    else h
  }

  /** `take_offer`: an open offer is spent in memory whatever the snapshot does. */
  function Take(h: History, id: string, lands: bool): History {
    if !OfferOpen(Lines(h.ring.entries), id) then h
    else
      var ring := h.ring.(entries := TakeOffer(h.ring.entries, id));
      History(ring, if lands then ring.entries else h.disk)
  }

  /** `open`: a snapshot that had to be normalized is written back, if it can be. */
  function OpenHistory(disk: seq<Entry>, lands: bool): History {
    match Collapsed(disk)
    case None => History(EMPTY_RING, [])
    case Some(entries) =>
      var ring := OpenRing(disk);
      History(ring, if Newest(entries) != disk && lands then ring.entries else disk)
  }
}
