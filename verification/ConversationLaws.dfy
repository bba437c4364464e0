/**
  What the replay keeps over any writes, failures and restarts: contiguous
  sequences below the bound, one entry per delivery, every delivery in memory
  also on disk, and pages that return each later entry once.
*/
module ConversationLaws {
  import opened Prelude
  import opened ConversationRing

  // ---- sequences ----

  ghost predicate ContiguousFrom(entries: seq<Entry>, next: nat) {
    && |entries| < next <= U64_MAX
    && forall i :: 0 <= i < |entries| ==> entries[i].sequence == next - |entries| + i
  }

  /** Consecutive sequences ending just below `next`, within the ring bound. */
  ghost predicate Contiguous(ring: Ring) {
    && |ring.entries| <= CONVERSATION_ENTRIES
    && ContiguousFrom(ring.entries, ring.next)
    && (ring.entries == [] ==> ring.next == 1)
  }

  /** A push keeps the sequences, drops at most the oldest, and ends with the new message. */
  lemma PushContiguous(ring: Ring, message: Message, id: Option<string>)
    requires Contiguous(ring)
    ensures Contiguous(Push(ring, message, id))
    ensures var after := Push(ring, message, id);
      && after.entries != []
      && after.entries[|after.entries| - 1].message == message
      && after.entries[|after.entries| - 1].deliveryId == id
      && |after.entries| == Min(|ring.entries| + 1, CONVERSATION_ENTRIES)
      && forall i :: 0 <= i < |after.entries| - 1 ==>
        && after.entries[i].message == ring.entries[|ring.entries| - |after.entries| + 1 + i].message
        && after.entries[i].deliveryId == ring.entries[|ring.entries| - |after.entries| + 1 + i].deliveryId
  {
  }

  lemma DistinctCollapse(entries: seq<Entry>)
    requires forall i, j :: 0 <= i < j < |entries| ==> entries[i].sequence != entries[j].sequence
    ensures Collapsed(entries) == Some(entries)
  {
    hide SequenceAt;
    if entries != [] {
      var init, last := entries[..|entries| - 1], entries[|entries| - 1];
      forall i, j | 0 <= i < j < |init| ensures init[i].sequence != init[j].sequence {
        assert entries[i].sequence != entries[j].sequence;
      }
      DistinctCollapse(init);
      NewSequence(entries);
      assert entries == init + [last];
    }
  }

  lemma NewSequence(entries: seq<Entry>)
    requires forall i, j :: 0 <= i < j < |entries| ==> entries[i].sequence != entries[j].sequence
    requires entries != []
    ensures var n := |entries| - 1; SequenceAt(entries[..n], entries[n].sequence) == n
  {
  }

  lemma LastIsMax(entries: seq<Entry>, next: nat)
    requires ContiguousFrom(entries, next)
    ensures entries != [] ==> MaxSequence(entries) == next - 1
    ensures entries == [] ==> MaxSequence(entries) == 0
  {
    if entries != [] {
      assert entries[|entries| - 1] in entries;
    }
  }

  lemma NextRestored(ring: Ring)
    requires Contiguous(ring)
    ensures WithNext(Newest(ring.entries)) == ring
  {
    LastIsMax(ring.entries, ring.next);
  }

  /** A snapshot the service wrote reloads to the ring it was written from. */
  lemma ReloadsItself(ring: Ring, lands: bool)
    requires Contiguous(ring)
    ensures OpenHistory(ring.entries, lands) == History(ring, ring.entries)
  {
    DistinctCollapse(ring.entries);
    NextRestored(ring);
    assert OpenRing(ring.entries) == ring;
  }

  // ---- deliveries ----

  lemma DeliveryFound(entries: seq<Entry>, id: string)
    ensures id in Deliveries(entries) <==> DeliveryAt(entries, id) < |entries|
  {
    if id in Deliveries(entries) {
      var e :| e in entries && e.deliveryId == Some(id);
      var i :| 0 <= i < |entries| && entries[i] == e;
    }
    if DeliveryAt(entries, id) < |entries| {
      assert entries[DeliveryAt(entries, id)] in entries;
    }
  }

  /** A push adds at most its own delivery and forgets at most the oldest entry's. */
  lemma PushDeliveries(ring: Ring, message: Message, id: Option<string>)
    requires Contiguous(ring) && UniqueDeliveries(ring.entries)
    requires id.Some? ==> id.value !in Deliveries(ring.entries)
    ensures var after := Push(ring, message, id).entries;
      && UniqueDeliveries(after)
      && Deliveries(after) <= Deliveries(ring.entries) + (if id.Some? then {id.value} else {})
      && (id.Some? ==> id.value in Deliveries(after) && DeliveryMessage(after, id.value) == Some(message))
      && (|ring.entries| < CONVERSATION_ENTRIES ==> Deliveries(ring.entries) <= Deliveries(after))
  {
    var after := Push(ring, message, id).entries;
    PushContiguous(ring, message, id);
    var shift := |ring.entries| - |after| + 1;
    forall e | e in after ensures e.deliveryId == id || exists o :: o in ring.entries && o.deliveryId == e.deliveryId {
      var i :| 0 <= i < |after| && after[i] == e;
      if i < |after| - 1 {
        assert ring.entries[shift + i] in ring.entries;
      }
    }
    assert after[|after| - 1] in after;
    if |ring.entries| < CONVERSATION_ENTRIES {
      forall d | d in Deliveries(ring.entries) ensures d in Deliveries(after) {
        var k := DeliveryAt(ring.entries, d);
        DeliveryFound(ring.entries, d);
        assert after[k] in after;
      }
    }
    if id.Some? {
      forall i | 0 <= i < |after| - 1 ensures after[i].deliveryId != id {
        assert ring.entries[shift + i] in ring.entries;
      }
      assert DeliveryAt(after, id.value) == |after| - 1;
    }
  }

  lemma TakeKeeps(entries: seq<Entry>, id: string)
    ensures Deliveries(TakeOffer(entries, id)) == Deliveries(entries)
    ensures UniqueDeliveries(entries) ==> UniqueDeliveries(TakeOffer(entries, id))
  {
    var after := TakeOffer(entries, id);
    forall d ensures d in Deliveries(after) <==> d in Deliveries(entries) {
      DeliveryFound(after, d);
      DeliveryFound(entries, d);
      var i, j := DeliveryAt(after, d), DeliveryAt(entries, d);
      assert i < |entries| ==> entries[i].deliveryId == Some(d);
      assert j < |after| ==> after[j].deliveryId == Some(d);
    }
  }

  // ---- the history ----

  ghost predicate Snapshot(entries: seq<Entry>) {
    Contiguous(OpenRing(entries)) && OpenRing(entries).entries == entries && UniqueDeliveries(entries)
  }

  /** The replay's invariant: `memory's deliveries are on disk` is the crash-safety half. */
  ghost predicate HistorySound(h: History) {
    && Contiguous(h.ring) && UniqueDeliveries(h.ring.entries)
    && Snapshot(h.disk)
    && Deliveries(h.ring.entries) <= Deliveries(h.disk)
  }

  lemma SavedIsSound(ring: Ring)
    requires Contiguous(ring) && UniqueDeliveries(ring.entries)
    ensures HistorySound(History(ring, ring.entries))
  {
    ReloadsItself(ring, true);
    assert OpenRing(ring.entries) == ring;
  }

  /** An ordinary message may be ahead of disk; no delivery ever is. */
  lemma RecordKeeps(h: History, message: Message, lands: bool)
    requires HistorySound(h)
    ensures HistorySound(Record(h, message, lands))
  {
    PushContiguous(h.ring, message, None);
    PushDeliveries(h.ring, message, None);
    SavedIsSound(Push(h.ring, message, None));
  }

  /** Once it says so, an answer is in memory and on disk, under an identifier no entry had. */
  lemma RecordDeliveryKeeps(h: History, id: string, message: Message, lands: bool)
    requires HistorySound(h)
    ensures var after := RecordDelivery(h, id, message, lands);
      && HistorySound(after)
      && (DeliveryOutcome(h, id, lands).Inserted? ==>
            after.disk == after.ring.entries && DeliveryMessage(after.disk, id) == Some(message))
      && (!DeliveryOutcome(h, id, lands).NotRecorded? ==> id in Deliveries(after.disk))
  {
    if DeliveryOutcome(h, id, lands).Inserted? {
      PushContiguous(h.ring, message, Some(id));
      PushDeliveries(h.ring, message, Some(id));
      SavedIsSound(Push(h.ring, message, Some(id)));
    }
  }

  lemma TakeKeepsHistory(h: History, id: string, lands: bool)
    requires HistorySound(h)
    ensures HistorySound(Take(h, id, lands))
    ensures Deliveries(Take(h, id, lands).ring.entries) == Deliveries(h.ring.entries)
    ensures Deliveries(Take(h, id, lands).disk) == Deliveries(h.disk) || lands
  {
    TakeKeeps(h.ring.entries, id);
    if OfferOpen(Lines(h.ring.entries), id) {
      SavedIsSound(h.ring.(entries := TakeOffer(h.ring.entries, id)));
    }
  }

  /** A restart recovers every delivery memory had. */
  lemma ReopenKeeps(h: History, lands: bool)
    requires HistorySound(h)
    ensures var after := OpenHistory(h.disk, lands);
      && HistorySound(after) && after.disk == h.disk && after.ring.entries == h.disk
      && Deliveries(h.ring.entries) <= Deliveries(after.ring.entries)
  {
    ReloadsItself(OpenRing(h.disk), lands);
    SavedIsSound(OpenRing(h.disk));
  }

  // ---- paging ----

  ghost predicate SequencedFrom(entries: seq<Entry>, base: int) {
    forall i :: 0 <= i < |entries| ==> entries[i].sequence == base + i
  }

  /** Where the entries after a sequence begin. */
  function Start(n: nat, base: int, since: nat): (k: nat)
    ensures k <= n
  {
    Max(0, Min(n, since + 1 - base))
  }

  /** In consecutive entries, what follows a sequence is a suffix. */
  lemma {:induction false} LaterIsSuffix(entries: seq<Entry>, base: int, since: nat)
    requires SequencedFrom(entries, base)
    ensures Filter(After(since), entries) == entries[Start(|entries|, base, since)..]
  {
    hide Start, Filter;
    var n := |entries|;
    if n > 0 {
      var init := entries[..n - 1];
      LaterIsSuffix(init, base, since);
      FilterStep(After(since), entries, n - 1);
      StartMoves(n - 1, base, since);
      assert entries[..n] == entries;
      OneMoreLater(entries, Start(n - 1, base, since));
    } else {
      NothingLater(base, since);
    }
  }

  lemma OneMoreLater(entries: seq<Entry>, k: nat)
    requires k < |entries|
    ensures var n := |entries|;
      && entries[..n - 1][k..] + [entries[n - 1]] == entries[k..]
      && (k == n - 1 ==> entries[..n - 1][k..] + [] == entries[n..])
  {
  }

  lemma NothingLater(base: int, since: nat)
    ensures Filter(After(since), []) == [] && Start(0, base, since) == 0
  {
  }

  lemma StartMoves(n: nat, base: int, since: nat)
    ensures if base + n > since then Start(n + 1, base, since) == Start(n, base, since) <= n
            else Start(n, base, since) == n && Start(n + 1, base, since) == n + 1
  {
  }

  /** Reading page after page, each from the last sequence of the one before. */
  function ReadAll(entries: seq<Entry>, since: nat, pages: nat): seq<PageEntry>
    decreases pages
  {
    var (page, more) := EntriesSince(entries, since);
    if more && pages > 0 then page + ReadAll(entries, page[|page| - 1].sequence, pages - 1) else page
  }

  lemma OnePage(entries: seq<Entry>, base: int, since: nat)
    requires SequencedFrom(entries, base)
    ensures var k := Start(|entries|, base, since);
      var end := Min(|entries|, k + MAX_CONVERSATION_PAGE);
      EntriesSince(entries, since) == (ShownAll(entries[k..end]), end < |entries|)
  {
    LaterIsSuffix(entries, base, since);
    var k := Start(|entries|, base, since);
    var later := entries[k..];
    if |later| > MAX_CONVERSATION_PAGE {
      assert later[..MAX_CONVERSATION_PAGE] == entries[k..k + MAX_CONVERSATION_PAGE];
    } else {
      assert later == entries[k..|entries|];
    }
  }

  lemma ShownSplit(entries: seq<Entry>, k: nat, mid: nat)
    requires k <= mid <= |entries|
    ensures ShownAll(entries[k..]) == ShownAll(entries[k..mid]) + ShownAll(entries[mid..])
  {
    assert entries[k..] == entries[k..mid] + entries[mid..];
  }

  /** Enough pages return every later entry once, in order. */
  lemma {:induction false} PagesComplete(entries: seq<Entry>, base: int, since: nat, pages: nat)
    requires SequencedFrom(entries, base) && base > 0
    requires |entries| - Start(|entries|, base, since) <= MAX_CONVERSATION_PAGE * (pages + 1)
    ensures ReadAll(entries, since, pages) == ShownAll(entries[Start(|entries|, base, since)..])
    decreases pages
  {
    var k := Start(|entries|, base, since);
    OnePage(entries, base, since);
    if k + MAX_CONVERSATION_PAGE < |entries| {
      var mid := k + MAX_CONVERSATION_PAGE;
      var last := entries[mid - 1].sequence;
      assert Start(|entries|, base, last) == mid;
      PagesComplete(entries, base, last, pages - 1);
      ShownSplit(entries, k, mid);
    } else {
      assert entries[k..|entries|] == entries[k..];
    }
  }

  /** A page entry that says of this one what it is, who said it, where and in what words. */
  predicate Tells(page: PageEntry, entry: Entry) {
    && page.sequence == entry.sequence && page.role == entry.message.role
    && page.surface == entry.message.surface && page.text == entry.message.text
  }

  /** These page entries tell the entries from the `k`-th on, each once and in order. */
  predicate TellFrom(pages: seq<PageEntry>, entries: seq<Entry>, k: int) {
    && 0 <= k <= |entries| && |pages| == |entries| - k
    && forall i :: 0 <= i < |pages| ==> Tells(pages[i], entries[k + i])
  }

  lemma ShownTells(entries: seq<Entry>, k: nat)
    requires k <= |entries|
    ensures TellFrom(ShownAll(entries[k..]), entries, k)
  {
    forall i | 0 <= i < |entries| - k ensures Tells(ShownAll(entries[k..])[i], entries[k + i]) {
      assert entries[k..][i] == entries[k + i];
    }
  }

  /** From any sequence, at most four pages tell every entry with a later one, once and in order, and no other. */
  lemma PagingComplete(ring: Ring, since: nat)
    requires Contiguous(ring)
    ensures var k := |ring.entries| - |ReadAll(ring.entries, since, 3)|;
      && TellFrom(ReadAll(ring.entries, since, 3), ring.entries, k)
      && forall i :: 0 <= i < |ring.entries| ==> (ring.entries[i].sequence > since <==> i >= k)
  {
    hide ReadAll, TellFrom, ShownAll;
    var base := ring.next - |ring.entries|;
    PagesComplete(ring.entries, base, since, 3);
    ShownTells(ring.entries, Start(|ring.entries|, base, since));
  }

  /** One page holds at most sixty-four entries, and says whether it is the last. */
  lemma PageIsBounded(ring: Ring, since: nat)
    requires Contiguous(ring)
    ensures var (page, more) := EntriesSince(ring.entries, since);
      |page| <= 64 && (more ==> |page| == 64)
      && (more <==> page != ReadAll(ring.entries, since, 3))
  {
    var n, base := |ring.entries|, ring.next - |ring.entries|;
    var k := Start(n, base, since);
    OnePage(ring.entries, base, since);
    PagesComplete(ring.entries, base, since, 3);
    ShownTells(ring.entries, k);
    assert k + MAX_CONVERSATION_PAGE >= n ==> ring.entries[k..n] == ring.entries[k..];
  }

  lemma TailStart(entries: seq<Entry>, next: nat)
    requires ContiguousFrom(entries, next)
    ensures Start(|entries|, next - |entries|, CatchUpFrom(entries))
        == |entries| - Min(MAX_CONVERSATION_PAGE, |entries|)
  {
  }

  /** A joining agent is handed exactly the newest page of the conversation. */
  lemma CatchUpIsTail(ring: Ring)
    requires Contiguous(ring)
    ensures var n := |ring.entries|;
      TellFrom(CatchUp(ring.entries), ring.entries, if n <= 64 then 0 else n - 64)
  {
    hide CatchUpFrom, TellFrom, ShownAll, EntriesSince;
    var n := |ring.entries|;
    TailStart(ring.entries, ring.next);
    OnePage(ring.entries, ring.next - n, CatchUpFrom(ring.entries));
    ShownTells(ring.entries, n - Min(MAX_CONVERSATION_PAGE, n));
    assert ring.entries[n - Min(MAX_CONVERSATION_PAGE, n)..n] == ring.entries[n - Min(MAX_CONVERSATION_PAGE, n)..];
  }
}
