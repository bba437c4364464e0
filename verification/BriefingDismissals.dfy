/** What a dismissal does, and what becomes of it: it marks exactly one finished run, and the mark lasts as long as
    the row it is about. No other operation adds one or takes one away. */
module BriefingDismissals {
  import opened Prelude
  import opened BriefingRows
  import opened BriefingInbox
  import opened BriefingInboxLaws
  import opened BriefingReopenLaws

  /** Collection is over and the run was delivered. */
  predicate Over(box: Inbox, id: string) {
    && HasRow(box.rows, id)
    && (RowOf(box.rows, id).collection.Collected? || RowOf(box.rows, id).collection.Failed?)
    && RowOf(box.rows, id).delivery.Delivered?
  }

  /**
    Dismissing a run that is over, for the first time and with its write
    landing, adds exactly that run to the dismissed ones, in memory and in the
    file, and touches no row and no wake. Any other dismissal changes nothing.
  */
  lemma DismissMarksOne(s: Store, id: string, lands: bool)
    ensures var after := Dismiss(s, id, lands);
      if Over(s.mem, id) && id !in s.mem.dismissed && lands then
        && after.mem == after.disk
        && after.mem.rows == s.mem.rows && after.mem.pending == s.mem.pending
        && (forall d :: d in after.mem.dismissed <==> d in s.mem.dismissed || d == id)
      else after == s
    ensures var outcome := DismissOutcome(s, id, lands);
      && (outcome.Unavailable? <==> !HasRow(s.mem.rows, id))
      && (outcome.NotDismissible? <==> HasRow(s.mem.rows, id) && !Over(s.mem, id))
      && (outcome.AlreadyDismissed? <==> Over(s.mem, id) && id in s.mem.dismissed)
      && (outcome.DismissalNotStored? <==> Over(s.mem, id) && id !in s.mem.dismissed && !lands)
  {
  }

  /** A step adds a dismissal only if it is that dismissal, and loses one only with the row it is about. */
  lemma DismissalsKept(s: Store, op: Op, lands: bool, d: string)
    requires Sound(s.mem) && Validated(op)
    ensures var after := Perform(s, op, lands).mem;
      && (d in s.mem.dismissed ==> d in after.dismissed || (op.Report? && !HasRow(after.rows, d)))
      && (d in after.dismissed ==> d in s.mem.dismissed || (op == DismissRun(d) && Over(s.mem, d) && lands))
  {
    match op
    case Report(row, wake, delivered) =>
      if UpsertPlan(s.mem, row, wake, delivered).Target? {
        UpsertDismissals(s.mem, row, wake, delivered, d);
      } else {
        DismissedHasRow(s.mem, d);
      }
    case DismissRun(id) => DismissMarksOne(s, id, lands);
    case _ =>
  }

  lemma UpsertDismissals(box: Inbox, row: Row, wake: Option<Wake>, delivered: bool, d: string)
    requires Sound(box) && row.Counted() && UpsertPlan(box, row, wake, delivered).Target?
    ensures var next := UpsertPlan(box, row, wake, delivered).box;
      d in next.dismissed <==> d in box.dismissed && HasRow(next.rows, d)
  {
    hide Sound;
    var merged := Merged(box, row, wake, delivered);
    MergedSound(box, row, wake, delivered);
    MergedLookup(box, row, wake, delivered, d);
    DismissedHasRow(box, d);
    DistinctMerged(merged, |box.rows| + 1);
    EvictOnce(merged);
    if |merged.rows| > MAX_BRIEFING_ROWS {
      DropLookup(merged.rows, FirstEvictable(merged.rows, merged.dismissed), d);
    }
  }

  lemma DismissedHasRow(box: Inbox, d: string)
    requires Sound(box)
    ensures d in box.dismissed ==> HasRow(box.rows, d)
    ensures |box.rows| <= MAX_BRIEFING_ROWS
  {
  }

  lemma DistinctMerged(merged: Inbox, bound: nat)
    requires SoundWithin(merged, bound)
    ensures DistinctIds(merged.rows) && |merged.rows| <= bound
  {
  }

  /** The row is retained after every operation of a run. */
  ghost predicate Retained(s: Store, ops: seq<(Op, bool)>, d: string)
    decreases |ops|
  {
    HasRow(s.mem.rows, d) && (ops == [] || Retained(Perform(s, ops[0].0, ops[0].1), ops[1..], d))
  }

  /** Over any operations and write failures a dismissal lasts while its row does, through a restart too. */
  lemma {:induction false} DismissalLasts(s: Store, ops: seq<(Op, bool)>, d: string, lands: bool)
    requires StoreSound(s) && (forall o :: o in ops ==> Validated(o.0))
    requires d in s.mem.dismissed && Retained(s, ops, d)
    ensures d in PerformAll(s, ops).mem.dismissed
    ensures d in Open(PerformAll(s, ops).disk, lands).mem.dismissed
    decreases |ops|
  {
    hide Opened, Loadable, Sound, Perform;
    CrashEquivalence(s, ops, lands);
    if ops != [] {
      var next := Perform(s, ops[0].0, ops[0].1);
      StoreIsSound(s);
      PerformKeeps(s, ops[0].0, ops[0].1);
      DismissalsKept(s, ops[0].0, ops[0].1, d);
      DismissalLasts(next, ops[1..], d, lands);
    }
  }

  lemma StoreIsSound(s: Store)
    requires StoreSound(s)
    ensures Sound(s.mem)
  {
    hide Sound;
  }

  /** And nothing is ever dismissed that nobody dismissed. */
  lemma {:induction false} DismissedByOwner(s: Store, ops: seq<(Op, bool)>, d: string)
    requires StoreSound(s) && (forall o :: o in ops ==> Validated(o.0))
    requires d in PerformAll(s, ops).mem.dismissed
    ensures d in s.mem.dismissed || (DismissRun(d), true) in ops
    decreases |ops|
  {
    hide Opened, Loadable, Sound, Perform;
    if ops != [] {
      StoreIsSound(s);
      PerformKeeps(s, ops[0].0, ops[0].1);
      DismissalsKept(s, ops[0].0, ops[0].1, d);
      DismissedByOwner(Perform(s, ops[0].0, ops[0].1), ops[1..], d);
    }
  }
}
