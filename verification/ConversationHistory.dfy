/**
  The replay as the service keeps it: an object whose entries are pushed,
  popped and rolled back in place, and the loops that page and reload it.
*/
module ConversationHistories {
  import opened Prelude
  import opened ConversationRing

  class ConversationHistory {
    var entries: seq<Entry>
    var nextSequence: nat
    /** What the last snapshot that landed left on disk. */
    var file: seq<Entry>

    function State(): History
      reads this
    {
      History(Ring(entries, nextSequence), file)
    }

    constructor (disk: seq<Entry>, lands: bool)
      ensures State() == OpenHistory(disk, lands)
    {
      entries, nextSequence, file := [], 1, disk;
      new;
      var read := ReadSnapshot(disk);
      match read
      case None =>
        file := [];
      case Some((kept, normalized)) =>
        entries := kept;
        SetNextSequence();
        if normalized {
          var _ := Persist(lands);
        }
    }

    /** Collapses repeats, refuses contradictions, and keeps the newest entries. */
    static method ReadSnapshot(stored: seq<Entry>) returns (read: Option<(seq<Entry>, bool)>)
      ensures read == match Collapsed(stored)
                      case None => None
                      case Some(c) => Some((Newest(c), Newest(c) != stored))
    {
      hide Collapsed, Absorb, Positioned;
      NothingStored();
      var kept: seq<Entry> := [];
      var positions: map<nat, nat> := map[];
      var normalized := false;
      var i := 0;
      while i < |stored|
        invariant 0 <= i <= |stored| && |kept| <= i
        invariant Collapsed(stored[..i]) == Some(kept)
        invariant Positioned(positions, kept)
        invariant if normalized then |kept| < i else kept == stored[..i]
      {
        CollapseStep(stored, i);
        var taken := AbsorbAt(kept, positions, stored[i]);
        if taken.None? {
          NoneStays(stored, i + 1);
          return None;
        }
        positions := Reposition(kept, positions, stored[i]);
        normalized := normalized || taken.value == kept;
        kept := taken.value;
        i := i + 1;
      }
      assert stored[..|stored|] == stored;
      return Some((Newest(kept), normalized || |kept| > CONVERSATION_ENTRIES));
    }

    static method AbsorbAt(kept: seq<Entry>, positions: map<nat, nat>, entry: Entry) returns (taken: Option<seq<Entry>>)
      requires Positioned(positions, kept)
      ensures taken == Absorb(kept, entry)
      ensures taken.Some? ==> taken.value == kept || taken.value == kept + [entry]
    {
      if entry.sequence in positions {
        return if kept[positions[entry.sequence]] == entry then Some(kept) else None;
      }
      return Some(kept + [entry]);
    }

    static function Reposition(kept: seq<Entry>, positions: map<nat, nat>, entry: Entry): (moved: map<nat, nat>)
      requires Positioned(positions, kept)
      ensures Absorb(kept, entry).Some? ==> Positioned(moved, Absorb(kept, entry).value)
    {
      AppendSequence(kept, entry);
      if entry.sequence in positions then positions else positions[entry.sequence := |kept|]
    }

    method SetNextSequence()
      modifies this
      ensures Ring(entries, nextSequence) == WithNext(old(entries)) && file == old(file)
    {
      var maximum := MaxSequence(entries);
      if maximum == U64_MAX {
        Resequence();
      } else {
        nextSequence := maximum + 1;
      }
    }

    method Resequence()
      modifies this
      ensures entries == Resequenced(old(entries)) && nextSequence == |entries| + 1 && file == old(file)
    {
      var i := 0;
      while i < |entries|
        invariant 0 <= i <= |entries| == |old(entries)| && file == old(file)
        invariant forall k :: 0 <= k < i ==> entries[k] == Resequenced(old(entries))[k]
        invariant forall k :: i <= k < |entries| ==> entries[k] == old(entries)[k]
      {
        entries := entries[i := entries[i].(sequence := i + 1)];
        i := i + 1;
      }
      nextSequence := |entries| + 1;
    }

    method Persist(lands: bool) returns (ok: bool)
      modifies this`file
      ensures ok == lands && file == if lands then entries else old(file)
    {
      if lands {
        file := entries;
      }
      return lands;
    }

    method PushBack(message: Message, id: Option<string>)
      modifies this
      ensures Ring(entries, nextSequence) == Push(old(State()).ring, message, id) && file == old(file)
    {
      if nextSequence == U64_MAX {
        Resequence();
      }
      var sequence := nextSequence;
      nextSequence := nextSequence + 1;
      if |entries| == CONVERSATION_ENTRIES {
        entries := entries[1..];
      }
      entries := entries + [Entry(sequence, id, message)];
    }

    /** Adds one live message; memory keeps it even if the snapshot fails. */
    method Record(message: Message, lands: bool) returns (stored: bool)
      modifies this
      ensures State() == ConversationRing.Record(old(State()), message, lands) && stored == lands
    {
      PushBack(message, None);
      stored := Persist(lands);
    }

    /** Records one proactive answer, or rolls the insertion back. */
    method RecordDelivery(id: string, message: Message, lands: bool) returns (outcome: Recorded)
      modifies this
      ensures State() == ConversationRing.RecordDelivery(old(State()), id, message, lands)
      ensures outcome == DeliveryOutcome(old(State()), id, lands)
    {
      if id in Deliveries(entries) {
        return Duplicate;
      }
      var before, next := entries, nextSequence;
      PushBack(message, Some(id));
      var ok := Persist(lands);
      if !ok {
        entries, nextSequence := before, next;
        return NotRecorded;
      }
      return Inserted;
    }

    /** Spends one open offer; `taken` says whether this press was the one. */
    method TakeOffer(id: string, lands: bool) returns (taken: bool)
      modifies this
      ensures State() == Take(old(State()), id, lands)
      ensures taken == OfferOpen(Lines(old(entries)), id)
    {
      if !OfferOpen(Lines(entries), id) {
        return false;
      }
      entries := ConversationRing.TakeOffer(entries, id);
      var _ := Persist(lands);
      return true;
    }

    /** One bounded page of the replay after `since`, and whether more follow. */
    method EntriesAfter(since: nat) returns (page: seq<PageEntry>, more: bool)
      ensures (page, more) == EntriesSince(entries, since)
    {
      hide Filter, ShownAll, Shown;
      page, more := [], false;
      ghost var later: seq<Entry> := [];
      var i := 0;
      while i < |entries|
        invariant 0 <= i <= |entries| && !more
        invariant |later| <= MAX_CONVERSATION_PAGE
        invariant later == Filter(After(since), entries[..i]) && page == ShownAll(later)
      {
        FilterStep(After(since), entries, i);
        if entries[i].sequence > since {
          if |page| == MAX_CONVERSATION_PAGE {
            PageFull(entries, since, i, later);
            more := true;
            return;
          }
          ShownMore(later, entries[i]);
          page := page + [Shown(entries[i])];
          later := later + [entries[i]];
        }
        i := i + 1;
      }
      assert entries[..|entries|] == entries;
    }
  }

  lemma ShownMore(entries: seq<Entry>, entry: Entry)
    ensures ShownAll(entries + [entry]) == ShownAll(entries) + [Shown(entry)]
  {
  }

  lemma PageFull(entries: seq<Entry>, since: nat, i: nat, later: seq<Entry>)
    requires i < |entries| && entries[i].sequence > since
    requires later == Filter(After(since), entries[..i]) && |later| == MAX_CONVERSATION_PAGE
    ensures EntriesSince(entries, since) == (ShownAll(later), true)
  {
    hide Filter, ShownAll;
    FilterStep(After(since), entries, i);
    FilterPrefix(After(since), entries, i + 1);
    var all := Filter(After(since), entries);
    assert all[..MAX_CONVERSATION_PAGE + 1] == later + [entries[i]];
    assert all[..MAX_CONVERSATION_PAGE] == later;
  }

  /** The index `read_snapshot` keeps says where each sequence already is. */
  ghost predicate Positioned(positions: map<nat, nat>, kept: seq<Entry>) {
    && (forall s: nat :: s in positions <==> SequenceAt(kept, s) < |kept|)
    && (forall s: nat :: s in positions ==> positions[s] == SequenceAt(kept, s))
  }

  lemma NothingStored()
    ensures Collapsed([]) == Some([]) && Positioned(map[], [])
  {
  }

  lemma CollapseStep(stored: seq<Entry>, i: nat)
    requires i < |stored|
    ensures Collapsed(stored[..i + 1])
         == match Collapsed(stored[..i]) case None => None case Some(c) => Absorb(c, stored[i])
  {
    assert stored[..i + 1][..i] == stored[..i];
  }

  lemma NoneStays(stored: seq<Entry>, i: nat)
    requires i <= |stored| && Collapsed(stored[..i]).None?
    ensures Collapsed(stored).None?
    decreases |stored| - i
  {
    if i < |stored| {
      CollapseStep(stored, i);
      NoneStays(stored, i + 1);
    } else {
      assert stored[..i] == stored;
    }
  }

  lemma AppendSequence(kept: seq<Entry>, entry: Entry)
    ensures forall s: nat :: (SequenceAt(kept + [entry], s) ==
        if SequenceAt(kept, s) < |kept| then SequenceAt(kept, s)
         else if s == entry.sequence then |kept|
         else |kept| + 1)
  {
    assert (kept + [entry])[..|kept|] == kept;
  }
}
