/** What opening makes of any stored list, not only of one the service wrote: a contradiction starts an empty replay,
    repeats collapse, the newest two hundred stay, and the next sequence is beyond all of them. */
module ConversationOpening {
  import opened Prelude
  import opened ConversationRing

  /** One sequence names two entries. */
  ghost predicate Clash(stored: seq<Entry>) {
    exists i, j :: 0 <= i < j < |stored| && stored[i].sequence == stored[j].sequence && stored[i] != stored[j]
  }

  /** `a` is stored before `b` is for the first time. */
  ghost predicate Earlier(stored: seq<Entry>, a: Entry, b: Entry) {
    exists k :: 0 <= k <= |stored| && a in stored[..k] && b !in stored[..k]
  }

  /** The stored entries, each once, in the order of their first appearance. */
  ghost predicate EachOnce(entries: seq<Entry>, stored: seq<Entry>) {
    && (forall e :: e in entries <==> e in stored)
    && (forall i, j :: 0 <= i < j < |entries| ==> entries[i].sequence != entries[j].sequence)
    && (forall i, j :: 0 <= i < j < |entries| ==> Earlier(stored, entries[i], entries[j]))
  }

  lemma {:induction false} CollapsedIff(stored: seq<Entry>)
    ensures Collapsed(stored).None? <==> Clash(stored)
    ensures Collapsed(stored).Some? ==> EachOnce(Collapsed(stored).value, stored)
    decreases |stored|
  {
    hide EachOnce, Clash, Absorb;
    if stored == [] {
      NothingStored();
    } else {
      var n := |stored| - 1;
      CollapsedIff(stored[..n]);
      assert stored == stored[..n] + [stored[n]];
      match Collapsed(stored[..n])
      case None => ClashStays(stored[..n], stored[n]);
      case Some(entries) => AbsorbOne(entries, stored[..n], stored[n]);
    }
  }

  lemma NothingStored()
    ensures !Clash([]) && EachOnce([], [])
  {
  }

  lemma ClashStays(stored: seq<Entry>, last: Entry)
    requires Clash(stored)
    ensures Clash(stored + [last])
  {
    var i, j :| 0 <= i < j < |stored| && stored[i].sequence == stored[j].sequence && stored[i] != stored[j];
    var all := stored + [last];
    assert all[i] == stored[i] && all[j] == stored[j];
  }

  lemma AbsorbOne(entries: seq<Entry>, stored: seq<Entry>, last: Entry)
    requires EachOnce(entries, stored) && !Clash(stored)
    ensures Absorb(entries, last).None? <==> Clash(stored + [last])
    ensures Absorb(entries, last).Some? ==> EachOnce(Absorb(entries, last).value, stored + [last])
  {
    var all := stored + [last];
    forall i, j | 0 <= i < j < |entries| ensures Earlier(all, entries[i], entries[j]) {
      assert Earlier(stored, entries[i], entries[j]);
      EarlierStays(stored, last, entries[i], entries[j]);
    }
    var k := SequenceAt(entries, last.sequence);
    if k < |entries| {
      assert entries[k] in stored;
      var i :| 0 <= i < |stored| && stored[i] == entries[k];
      assert all[i] == stored[i] && all[|stored|] == last;
      ClashWith(entries, stored, last, k);
    } else {
      assert forall e :: e in stored ==> e in entries;
      NoClashWith(stored, last);
      forall i | 0 <= i < |entries| ensures Earlier(all, entries[i], last) {
        assert all[..|stored|] == stored && entries[i] in stored;
      }
    }
  }

  lemma EarlierStays(stored: seq<Entry>, last: Entry, a: Entry, b: Entry)
    requires Earlier(stored, a, b)
    ensures Earlier(stored + [last], a, b)
  {
    var k :| 0 <= k <= |stored| && a in stored[..k] && b !in stored[..k];
    assert (stored + [last])[..k] == stored[..k];
  }

  lemma ClashWith(entries: seq<Entry>, stored: seq<Entry>, last: Entry, k: nat)
    requires EachOnce(entries, stored) && !Clash(stored) && k < |entries| && entries[k].sequence == last.sequence
    ensures Clash(stored + [last]) <==> entries[k] != last
  {
    var all := stored + [last];
    if Clash(all) {
      var i, j :| 0 <= i < j < |all| && all[i].sequence == all[j].sequence && all[i] != all[j];
      assert stored[i] in entries;
    }
    if entries[k] != last {
      assert entries[k] in stored;
      var i :| 0 <= i < |stored| && stored[i] == entries[k];
      assert all[i] == stored[i] && all[|stored|] == last;
    }
  }

  lemma NoClashWith(stored: seq<Entry>, last: Entry)
    requires !Clash(stored) && forall e :: e in stored ==> e.sequence != last.sequence
    ensures !Clash(stored + [last])
  {
    var all := stored + [last];
    forall i, j | 0 <= i < j < |all| && all[i] != all[j] ensures all[i].sequence != all[j].sequence {
      if j < |stored| {
        assert all[i] == stored[i] && all[j] == stored[j];
      } else {
        assert all[i] in stored;
      }
    }
  }

  /** The newest two hundred entries. */
  function LastEntries(entries: seq<Entry>): seq<Entry> { entries[Max(0, |entries| - 200)..] }

  ghost predicate Greatest(entries: seq<Entry>, e: Entry) {
    e in entries && forall other :: other in entries ==> other.sequence <= e.sequence
  }

  /** One of them has the last sequence there is. */
  ghost predicate Exhausted(entries: seq<Entry>) {
    exists e :: Greatest(entries, e) && e.sequence == U64_MAX
  }

  /** The entries as they were stored, or numbered again, and the sequence after theirs. */
  ghost predicate Continues(ring: Ring, kept: seq<Entry>) {
    && |ring.entries| == |kept|
    && (forall i :: 0 <= i < |kept| ==>
          ring.entries[i] == if Exhausted(kept) then kept[i].(sequence := i + 1) else kept[i])
    && (forall e :: e in ring.entries ==> e.sequence < ring.next)
    && (if kept == [] then ring.next == 1 else exists e :: e in ring.entries && e.sequence + 1 == ring.next)
  }

  lemma GreatestOf(entries: seq<Entry>) returns (e: Entry)
    requires entries != []
    ensures Greatest(entries, e) && e.sequence == MaxSequence(entries)
  {
    var m := MaxSequence(entries);
    assert forall other :: other in entries ==> other.sequence <= m;
    e :| e in entries && e.sequence == m;
  }

  lemma NothingContinues()
    ensures WithNext([]) == Ring([], 1) && Continues(Ring([], 1), [])
  {
  }

  lemma NextContinues(kept: seq<Entry>)
    ensures Continues(WithNext(kept), kept)
  {
    hide MaxSequence;
    if kept == [] {
      NothingContinues();
    } else {
      var e := GreatestOf(kept);
      var ring := WithNext(kept);
      assert Exhausted(kept) <==> e.sequence == U64_MAX;
      if e.sequence == U64_MAX {
        assert ring.entries[|kept| - 1] in ring.entries;
      } else {
        assert ring.entries == kept && e in ring.entries;
      }
    }
  }

  /**
    Any stored list opens: into nothing if a sequence names two entries, else
    into its newest entries, each once, with the next sequence one beyond the
    greatest. If that is the last there is, they are numbered again from one.
    The file is written exactly if repeats or old entries were dropped.
  */
  lemma OpensAsRead(stored: seq<Entry>, lands: bool) returns (entries: seq<Entry>)
    ensures var h := OpenHistory(stored, lands);
      if Clash(stored) then h == History(Ring([], 1), [])
      else
        && EachOnce(entries, stored) && Continues(h.ring, LastEntries(entries))
        && h.disk == if LastEntries(entries) != stored && lands then h.ring.entries else stored
  {
    hide EachOnce, Clash, Continues, WithNext;
    CollapsedIff(stored);
    entries := if Collapsed(stored).Some? then Collapsed(stored).value else [];
    assert Newest(entries) == LastEntries(entries);
    NextContinues(LastEntries(entries));
  }
}
