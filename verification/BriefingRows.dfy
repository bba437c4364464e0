/**
  The briefing row and its predicates (shared/control/src/service.rs), and the
  order the inbox keeps rows in.
*/
module BriefingRows {
  import opened Prelude

  const MAX_BRIEFING_ROWS: nat := 64

  /** The collection half of one briefing generation. */
  datatype Collection = Collecting | Collected | Failed

  /** The delivery half. `Failed` is a row the circuit breaker stopped. */
  datatype Delivery = Pending | InProgress | Failed | Delivered
  {
    /** Whether a sweep that moves rows to `to` takes a row out of this state. */
    predicate Moves(to: Delivery) {
      match to
      case Delivered => true
      case Failed => Pending? || InProgress?
      case Pending => InProgress? || Failed?
      case InProgress => false
    }
  }

  datatype Row = Row(
    id: string, date: string, profile: string,
    collection: Collection, delivery: Delivery,
    since: nat, completed: nat, total: nat, failed: nat, summary: string)
  {
    predicate Active() {
      collection.Collecting? || delivery.Pending? || delivery.InProgress?
    }

    predicate Partial() {
      collection.Collected? && failed > 0
    }

    predicate RequiresAttention() {
      delivery.Failed? || (delivery.Delivered? && (collection.Failed? || Partial()))
    }

    predicate Dismissible() {
      !collection.Collecting? && delivery.Delivered?
    }

    /** The bound `validate_briefing_row` puts on the three counts. */
    predicate Counted() {
      failed <= completed <= total
    }

    /** What a person calls this run: several generations may share it. */
    function Logical(): (string, string) { (date, profile) }
  }

  datatype Wake = Wake(eventId: string, text: string)

  datatype Queued = Queued(runId: string, wake: Wake)

  // ---- the sort key `(since, id)` ----

  predicate KeyBefore(a: Row, b: Row) {
    a.since < b.since || (a.since == b.since && Before(a.id, b.id))
  }

  ghost predicate Sorted(rows: seq<Row>) {
    forall i, j :: 0 <= i < j < |rows| ==> KeyBefore(rows[i], rows[j])
  }

  ghost predicate DistinctIds(rows: seq<Row>) {
    forall i, j :: 0 <= i < j < |rows| ==> rows[i].id != rows[j].id
  }

  /** Where a stable sort puts one more row: after every row not beyond it. */
  function Slot(rows: seq<Row>, row: Row): (k: nat)
    ensures k <= |rows|
    ensures forall i :: k <= i < |rows| ==> KeyBefore(row, rows[i])
    ensures k > 0 ==> !KeyBefore(row, rows[k - 1])
  {
    if rows == [] || !KeyBefore(row, rows[|rows| - 1]) then |rows|
    else Slot(rows[..|rows| - 1], row)
  }

  function Insert(rows: seq<Row>, row: Row): (r: seq<Row>)
    ensures |r| == |rows| + 1
    ensures forall x :: x in r <==> x in rows || x == row
  {
    var k := Slot(rows, row);
    var r := rows[..k] + [row] + rows[k..];
    assert rows == rows[..k] + rows[k..];
    r
  }

  /** `rows.sort_by_key(|row| (row.since, row.id))`. */
  function SortRows(rows: seq<Row>): (r: seq<Row>)
    ensures |r| == |rows|
    ensures forall x :: x in r <==> x in rows
  {
    if rows == [] then [] else Insert(SortRows(rows[..|rows| - 1]), rows[|rows| - 1])
  }

  lemma KeyBeforeTransitive(a: Row, b: Row, c: Row)
    requires KeyBefore(a, b) && KeyBefore(b, c)
    ensures KeyBefore(a, c)
  {
    if a.since == b.since == c.since {
      BeforeTransitive(a.id, b.id, c.id);
    }
  }

  lemma InsertSorted(rows: seq<Row>, row: Row)
    requires Sorted(rows)
    requires forall x :: x in rows ==> x.id != row.id
    ensures Sorted(Insert(rows, row))
  {
    var k := Slot(rows, row);
    var r := Insert(rows, row);
    forall i | 0 <= i < k ensures KeyBefore(rows[i], row) {
      BeforeTotal(rows[k - 1].id, row.id);
      assert rows[k - 1] in rows;
      if i < k - 1 {
        KeyBeforeTransitive(rows[i], rows[k - 1], row);
      }
    }
  }

  /** Sorting distinct rows orders them strictly and only reorders them. */
  lemma {:induction false} SortRowsSorts(rows: seq<Row>)
    requires DistinctIds(rows)
    ensures Sorted(SortRows(rows)) && DistinctIds(SortRows(rows))
  {
    if rows != [] {
      var init, last := rows[..|rows| - 1], rows[|rows| - 1];
      SortRowsSorts(init);
      forall x | x in SortRows(init) ensures x.id != last.id {
        assert x in init;
      }
      InsertSorted(SortRows(init), last);
    }
  }

  /** Rows already in order stay where they are. */
  lemma {:induction false} SortRowsStable(rows: seq<Row>)
    requires Sorted(rows)
    ensures SortRows(rows) == rows
  {
    if rows != [] {
      var init, last := rows[..|rows| - 1], rows[|rows| - 1];
      forall i, j | 0 <= i < j < |init| ensures KeyBefore(init[i], init[j]) {
        assert KeyBefore(rows[i], rows[j]);
      }
      SortRowsStable(init);
      LastStays(init, last);
      assert rows == init + [last];
    }
  }

  /** A row beyond the last one goes to the end. */
  lemma LastStays(init: seq<Row>, last: Row)
    requires init != [] ==> KeyBefore(init[|init| - 1], last)
    ensures Insert(init, last) == init + [last]
  {
    if init != [] && init[|init| - 1].since == last.since {
      BeforeAsymmetric(init[|init| - 1].id, last.id);
    }
    assert Slot(init, last) == |init|;
  }
}
