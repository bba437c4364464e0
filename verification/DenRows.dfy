/** Rows of a table: `set_rows` writes over every row of one thing where the first of them was, by deleting from the
    back and inserting by index. What is left is the other rows in order, with the new ones in that place. */
module DenRows {
  import opened Prelude
  import opened DenText
  import opened DenLines
  import opened DenSections
  import opened DenEdits
  import opened DenTasks

  // ---- cells ----

  function SplitCommas(s: string): (r: seq<string>)
    ensures |r| >= 1
  {
    if s == "" then [""]
    else
      var rest := SplitCommas(s[1..]);
      if s[0] == ',' then [""] + rest else [[s[0]] + rest[0]] + rest[1..]
  }

  function StripAll(cells: seq<string>): (r: seq<string>)
    ensures |r| == |cells|
    ensures forall i :: 0 <= i < |cells| ==> r[i] == Strip(cells[i])
  {
    seq(|cells|, i requires 0 <= i < |cells| => Strip(cells[i]))
  }

  predicate IsTable(table: string) { table == "macros" || table == "workout" }

  function Heading(table: string): string { if table == "macros" then "what," else "exercise," }

  function Columns(table: string): nat { if table == "macros" then 4 else 3 }

  /** `_cells`: the stripped cells of a row, or nothing if the line is not one. */
  function Cells(line: string, table: string): (r: Option<seq<string>>)
    ensures r.Some? ==> |r.value| == Columns(table)
  {
    var row := Strip(line);
    if row == "" || Heading(table) <= row then None
    else
      var cells := StripAll(SplitCommas(row));
      if |cells| == Columns(table) then Some(cells) else None
  }

  /** The writer's terminated line has the reader's cells. */
  lemma CellsEnd(line: Line, table: string)
    requires Formed(line)
    ensures Cells(line.Raw(), table) == Cells(line.body, table)
  {
    StripTrailing(line.body, line.end);
  }

  /** A row of one thing: its first cell, in lower case. */
  predicate Named(line: string, table: string, wanted: string) {
    var cells := Cells(line, table);
    cells.Some? && Lower(cells.value[0]) == wanted
  }

  /** The lines that are not rows of that thing, in order. */
  function Unnamed(lines: seq<string>, table: string, wanted: string): seq<string> {
    if lines == [] then []
    else (if Named(lines[0], table, wanted) then [] else [lines[0]]) + Unnamed(lines[1..], table, wanted)
  }

  function FirstNamed(lines: seq<string>, table: string, wanted: string): (k: nat)
    ensures k <= |lines|
    ensures forall i :: 0 <= i < k ==> !Named(lines[i], table, wanted)
    ensures k < |lines| ==> Named(lines[k], table, wanted)
  {
    NamedFrom(lines, table, wanted, 0)
  }

  function NamedFrom(lines: seq<string>, table: string, wanted: string, from: nat): (k: nat)
    requires from <= |lines|
    ensures from <= k <= |lines|
    ensures forall i :: from <= i < k ==> !Named(lines[i], table, wanted)
    ensures k < |lines| ==> Named(lines[k], table, wanted)
    decreases |lines| - from
  {
    if from == |lines| || Named(lines[from], table, wanted) then from else NamedFrom(lines, table, wanted, from + 1)
  }

  // ---- set_rows ----

  /** A region with every row of one thing replaced, in the first one's place. */
  function Replaced(region: seq<string>, table: string, wanted: string, rows: seq<string>): seq<string> {
    var j := FirstNamed(region, table, wanted);
    if j == |region| then region
    else region[..j] + rows + Unnamed(region[j + 1..], table, wanted)
  }

  function WithNewline(rows: seq<string>, newline: string): (r: seq<Line>)
    ensures |r| == |rows| && Bodies(r) == rows
    ensures forall i :: 0 <= i < |rows| ==> r[i] == Line(rows[i], newline)
  {
    seq(|rows|, i requires 0 <= i < |rows| => Line(rows[i], newline))
  }

  function UnnamedLines(doc: seq<Line>, table: string, wanted: string): seq<Line> {
    if doc == [] then []
    else (if Named(doc[0].Raw(), table, wanted) then [] else [doc[0]]) + UnnamedLines(doc[1..], table, wanted)
  }

  function FirstNamedLine(doc: seq<Line>, start: nat, end: nat, table: string, wanted: string): (k: nat)
    requires start <= end <= |doc|
    ensures start <= k <= end
    ensures forall i :: start <= i < k ==> !Named(doc[i].Raw(), table, wanted)
    ensures k < end ==> Named(doc[k].Raw(), table, wanted)
    decreases end - start
  {
    if start == end || Named(doc[start].Raw(), table, wanted) then start
    else FirstNamedLine(doc, start + 1, end, table, wanted)
  }

  /** What the deletions and insertions come to, on terminated lines. */
  function RowsSet(doc: seq<Line>, table: string, wanted: string, rows: seq<string>): Option<seq<Line>>
    requires HasSection(Bodies(doc), table)
  {
    var (start, end) := Region(Bodies(doc), table);
    var f := FirstNamedLine(doc, start, end, table, wanted);
    if f == end then None
    else Some(doc[..f] + WithNewline(rows, Newline(doc)) + UnnamedLines(doc[f + 1..end], table, wanted) + doc[end..])
  }

  /** `set_rows`. */
  function SetRows(text: string, table: string, name: string, rows: seq<string>): Edit {
    var doc := Split(text);
    if !HasSection(Bodies(doc), table) then NoSection
    else
      match RowsSet(doc, table, Lower(Strip(name)), rows)
      case None => NoSuchIndex
      case Some(after) => Written(Join(after))
  }

  lemma NamedEnd(line: Line, table: string, wanted: string)
    requires Formed(line)
    ensures Named(line.Raw(), table, wanted) == Named(line.body, table, wanted)
  {
    CellsEnd(line, table);
  }

  lemma {:induction false} UnnamedBodies(doc: seq<Line>, table: string, wanted: string)
    requires AllFormed(doc)
    ensures Bodies(UnnamedLines(doc, table, wanted)) == Unnamed(Bodies(doc), table, wanted)
    decreases |doc|
  {
    hide Named, Formed;
    if doc != [] {
      UnnamedBodies(doc[1..], table, wanted);
      NamedEnd(doc[0], table, wanted);
      assert Bodies(doc)[1..] == Bodies(doc[1..]);
      BodiesSplit([doc[0]], UnnamedLines(doc[1..], table, wanted));
    }
  }

  lemma RegionFirst(doc: seq<Line>, start: nat, end: nat, table: string, wanted: string)
    requires start <= end <= |doc| && AllFormed(doc)
    ensures FirstNamedLine(doc, start, end, table, wanted) - start
         == FirstNamed(Bodies(doc)[start..end], table, wanted)
  {
    hide Named, Formed;
    var region := Bodies(doc)[start..end];
    var k := FirstNamedLine(doc, start, end, table, wanted);
    forall i | start <= i < end ensures Named(doc[i].Raw(), table, wanted) == Named(region[i - start], table, wanted) {
      NamedEnd(doc[i], table, wanted);
    }
    var j := FirstNamed(region, table, wanted);
    assert j < |region| ==> Named(doc[start + j].Raw(), table, wanted);
    assert k < end ==> Named(region[k - start], table, wanted);
  }

  /** The lines that are written are the replaced region between what was around it. */
  lemma RowsSetBodies(doc: seq<Line>, table: string, wanted: string, rows: seq<string>)
    requires AllFormed(doc) && HasSection(Bodies(doc), table) && RowsSet(doc, table, wanted, rows).Some?
    ensures var lines := Bodies(doc);
      var (start, end) := Region(lines, table);
      Bodies(RowsSet(doc, table, wanted, rows).value)
      == lines[..start] + Replaced(lines[start..end], table, wanted, rows) + lines[end..]
  {
    hide Named, HasSection, HeaderName, Unnamed, UnnamedLines, FirstNamed, AllFormed, Bodies;
    var lines := Bodies(doc);
    var (start, end) := Region(lines, table);
    var f := FirstNamedLine(doc, start, end, table, wanted);
    RegionFirst(doc, start, end, table, wanted);
    PartFormed(doc, f + 1, end);
    UnnamedBodies(doc[f + 1..end], table, wanted);
    FourBodies(doc, f, end, WithNewline(rows, Newline(doc)), UnnamedLines(doc[f + 1..end], table, wanted));
    Regrouped(lines, start, f, end, rows, Unnamed(lines[f + 1..end], table, wanted));
  }

  lemma FourBodies(doc: seq<Line>, f: nat, end: nat, added: seq<Line>, left: seq<Line>)
    requires f < end <= |doc|
    ensures Bodies(doc[..f] + added + left + doc[end..])
         == Bodies(doc)[..f] + Bodies(added) + Bodies(left) + Bodies(doc)[end..]
    ensures Bodies(doc[f + 1..end]) == Bodies(doc)[f + 1..end]
  {
    BodiesSplit(doc[..f] + added + left, doc[end..]);
    BodiesSplit(doc[..f] + added, left);
    BodiesSplit(doc[..f], added);
    assert Bodies(doc[..f]) == Bodies(doc)[..f] && Bodies(doc[end..]) == Bodies(doc)[end..];
  }

  lemma Regrouped(lines: seq<string>, start: nat, f: nat, end: nat, rows: seq<string>, left: seq<string>)
    requires start <= f < end <= |lines|
    ensures var region := lines[start..end];
      lines[..f] + rows + left + lines[end..] == lines[..start] + (region[..f - start] + rows + left) + lines[end..]
    ensures lines[start..end][f - start + 1..] == lines[f + 1..end]
  {
    assert lines[..f] == lines[..start] + lines[start..end][..f - start];
  }

  lemma PartFormed(doc: seq<Line>, a: nat, b: nat)
    requires AllFormed(doc) && a <= b <= |doc|
    ensures AllFormed(doc[a..b])
  {
  }

  // ---- the lines that are written ----

  lemma {:induction false} UnnamedTidy(doc: seq<Line>, table: string, wanted: string)
    requires Tidy(doc)
    ensures Tidy(UnnamedLines(doc, table, wanted))
    ensures AllFit(doc) ==> AllFit(UnnamedLines(doc, table, wanted))
    decreases |doc|
  {
    hide Fits, Unended, Named;
    if doc != [] {
      UnnamedTidy(doc[1..], table, wanted);
      assert |doc| == 1 ==> UnnamedLines(doc[1..], table, wanted) == [];
    }
  }

  lemma RowsFit(doc: seq<Line>, rows: seq<string>)
    requires forall i :: 0 <= i < |rows| ==> Unbroken(rows[i])
    ensures AllFit(WithNewline(rows, Newline(doc)))
  {
    hide Fits, Unbroken;
    forall i | 0 <= i < |rows| ensures Fits(WithNewline(rows, Newline(doc))[i]) {
      NewlineFits(doc, rows[i]);
    }
  }

  /** The lines a region is written as. */
  function RegionSet(doc: seq<Line>, start: nat, end: nat, table: string, wanted: string, rows: seq<string>): seq<Line>
    requires start <= end <= |doc| && FirstNamedLine(doc, start, end, table, wanted) < end
  {
    var f := FirstNamedLine(doc, start, end, table, wanted);
    doc[start..f] + WithNewline(rows, Newline(doc)) + UnnamedLines(doc[f + 1..end], table, wanted)
  }

  lemma RowsSetParts(doc: seq<Line>, table: string, wanted: string, rows: seq<string>)
    requires Whole(doc) && HasSection(Bodies(doc), table) && RowsSet(doc, table, wanted, rows).Some?
    requires forall i :: 0 <= i < |rows| ==> Unbroken(rows[i])
    ensures var (start, end) := Region(Bodies(doc), table);
      && FirstNamedLine(doc, start, end, table, wanted) < end
      && RowsSet(doc, table, wanted, rows).value
         == doc[..start] + RegionSet(doc, start, end, table, wanted, rows) + doc[end..]
      && Tidy(RowsSet(doc, table, wanted, rows).value)
  {
    hide Fits, Unended, Unbroken, Named, HasSection, HeaderName, UnnamedLines, Tidy, AllFit, Seamless;
    var (start, end) := Region(Bodies(doc), table);
    var f := FirstNamedLine(doc, start, end, table, wanted);
    var new', left := WithNewline(rows, Newline(doc)), UnnamedLines(doc[f + 1..end], table, wanted);
    WholeTidy(doc);
    RowsFit(doc, rows);
    TidyFront(doc, f);
    TidyRest(doc, f + 1, end);
    UnnamedTidy(doc[f + 1..end], table, wanted);
    TidyRest(doc, end, |doc|);
    TidyBack(left, doc[end..|doc|]);
    TidyConcat(new', left + doc[end..|doc|]);
    TidyConcat(doc[..f], new' + (left + doc[end..|doc|]));
    assert doc[..f] + (new' + (left + doc[end..|doc|])) == doc[..f] + new' + left + doc[end..];
    assert doc[..f] == doc[..start] + doc[start..f];
    MiddleThree(doc[..start], doc[start..f], new', left, doc[end..]);
  }

  lemma TidyBack(left: seq<Line>, back: seq<Line>)
    requires Tidy(left) && Tidy(back) && (back != [] ==> AllFit(left))
    ensures Tidy(left + back)
  {
    hide Fits, Unended;
    if back == [] {
      assert left + back == left;
    } else {
      TidyConcat(left, back);
    }
  }

  lemma MiddleThree<T>(a: seq<T>, b: seq<T>, c: seq<T>, d: seq<T>, e: seq<T>)
    ensures (a + b) + c + d + e == a + (b + c + d) + e
  {
  }

  lemma {:induction false} UnnamedSplit(a: seq<string>, b: seq<string>, table: string, wanted: string)
    ensures Unnamed(a + b, table, wanted) == Unnamed(a, table, wanted) + Unnamed(b, table, wanted)
    decreases |a|
  {
    hide Named;
    if a == [] {
      assert a + b == b;
    } else {
      UnnamedSplit(a[1..], b, table, wanted);
      assert (a + b)[1..] == a[1..] + b;
    }
  }

  /** The rows of one thing among some lines. */
  function NamedRows(lines: seq<string>, table: string, wanted: string): seq<string> {
    if lines == [] then []
    else (if Named(lines[0], table, wanted) then [lines[0]] else []) + NamedRows(lines[1..], table, wanted)
  }

  lemma {:induction false} NamedSplit(a: seq<string>, b: seq<string>, table: string, wanted: string)
    ensures NamedRows(a + b, table, wanted) == NamedRows(a, table, wanted) + NamedRows(b, table, wanted)
    decreases |a|
  {
    hide Named;
    if a == [] {
      assert a + b == b;
    } else {
      NamedSplit(a[1..], b, table, wanted);
      assert (a + b)[1..] == a[1..] + b;
    }
  }

  lemma {:induction false} AllNamed(lines: seq<string>, table: string, wanted: string)
    requires forall i :: 0 <= i < |lines| ==> Named(lines[i], table, wanted)
    ensures NamedRows(lines, table, wanted) == lines && Unnamed(lines, table, wanted) == []
  {
    hide Named;
    if lines != [] {
      AllNamed(lines[1..], table, wanted);
    }
  }

  lemma {:induction false} NoneNamed(lines: seq<string>, table: string, wanted: string)
    requires forall i :: 0 <= i < |lines| ==> !Named(lines[i], table, wanted)
    ensures NamedRows(lines, table, wanted) == [] && Unnamed(lines, table, wanted) == lines
  {
    hide Named;
    if lines != [] {
      NoneNamed(lines[1..], table, wanted);
    }
  }

  lemma {:induction false} UnnamedHasNone(lines: seq<string>, table: string, wanted: string)
    ensures forall i :: 0 <= i < |Unnamed(lines, table, wanted)| ==>
        !Named(Unnamed(lines, table, wanted)[i], table, wanted)
  {
    hide Named;
    if lines != [] {
      UnnamedHasNone(lines[1..], table, wanted);
    }
  }

  // ---- what replacing means ----

  /** The rows of the table, whatever they name. */
  function TableRows(lines: seq<string>, table: string): seq<string> {
    if lines == [] then []
    else (if Cells(lines[0], table).Some? then [lines[0]] else []) + TableRows(lines[1..], table)
  }

  /** The lines that are no rows. */
  function OtherLines(lines: seq<string>, table: string): seq<string> {
    if lines == [] then []
    else (if Cells(lines[0], table).Some? then [] else [lines[0]]) + OtherLines(lines[1..], table)
  }

  lemma {:induction false} TableSplit(a: seq<string>, b: seq<string>, table: string)
    ensures TableRows(a + b, table) == TableRows(a, table) + TableRows(b, table)
    decreases |a|
  {
    hide Cells;
    if a == [] {
      assert a + b == b;
    } else {
      TableSplit(a[1..], b, table);
      assert (a + b)[0] == a[0] && (a + b)[1..] == a[1..] + b;
      var head := if Cells(a[0], table).Some? then [a[0]] else [];
      Associates(head, TableRows(a[1..], table), TableRows(b, table));
    }
  }

  lemma {:induction false} OthersSplit(a: seq<string>, b: seq<string>, table: string)
    ensures OtherLines(a + b, table) == OtherLines(a, table) + OtherLines(b, table)
    decreases |a|
  {
    hide Cells;
    if a == [] {
      assert a + b == b;
    } else {
      OthersSplit(a[1..], b, table);
      assert (a + b)[0] == a[0] && (a + b)[1..] == a[1..] + b;
      var head := if Cells(a[0], table).Some? then [] else [a[0]];
      Associates(head, OtherLines(a[1..], table), OtherLines(b, table));
    }
  }

  lemma {:induction false} AllRows(lines: seq<string>, table: string)
    requires forall i :: 0 <= i < |lines| ==> Cells(lines[i], table).Some?
    ensures TableRows(lines, table) == lines && OtherLines(lines, table) == []
  {
    hide Cells;
    if lines != [] {
      AllRows(lines[1..], table);
    }
  }

  /** Rows of one thing are rows, so what is left without them is the other rows and every other line. */
  lemma {:induction false} UnnamedTable(lines: seq<string>, table: string, wanted: string)
    ensures TableRows(Unnamed(lines, table, wanted), table) == Unnamed(TableRows(lines, table), table, wanted)
    ensures OtherLines(Unnamed(lines, table, wanted), table) == OtherLines(lines, table)
  {
    hide Cells;
    if lines != [] {
      var head, rest := [lines[0]], lines[1..];
      UnnamedTable(rest, table, wanted);
      OneRow(lines[0], table);
      OneUnnamed(lines[0], table, wanted);
      var few := Unnamed(rest, table, wanted);
      TableSplit(head, few, table);
      OthersSplit(head, few, table);
      UnnamedSplit(head, TableRows(rest, table), table, wanted);
      if Cells(lines[0], table).None? {
        assert Unnamed(lines, table, wanted) == head + few && TableRows(lines, table) == TableRows(rest, table);
      } else {
        assert TableRows(lines, table) == head + TableRows(rest, table);
        assert Named(lines[0], table, wanted) ==> Unnamed(lines, table, wanted) == few;
      }
    }
  }

  lemma OneRow(line: string, table: string)
    ensures TableRows([line], table) == (if Cells(line, table).Some? then [line] else [])
    ensures OtherLines([line], table) == (if Cells(line, table).Some? then [] else [line])
  {
    hide Cells;
    assert [line][1..] == [];
  }

  lemma OneUnnamed(line: string, table: string, wanted: string)
    ensures Unnamed([line], table, wanted) == if Named(line, table, wanted) then [] else [line]
  {
    hide Named;
    assert [line][1..] == [];
  }

  /**
    The table reads as the rows before the first occurrence, then the new rows,
    whatever they name, then the rows after it that are not of that thing; and
    every line that is no row is still there, in order.
  */
  lemma ReplacedMeans(region: seq<string>, table: string, wanted: string, rows: seq<string>)
    requires FirstNamed(region, table, wanted) < |region|
    requires forall i :: 0 <= i < |rows| ==> Cells(rows[i], table).Some?
    ensures var j := FirstNamed(region, table, wanted);
      var after := Replaced(region, table, wanted, rows);
      && TableRows(after, table)
         == TableRows(region[..j], table) + rows + Unnamed(TableRows(region[j + 1..], table), table, wanted)
      && OtherLines(after, table) == OtherLines(region, table)
      && NamedRows(region[..j], table, wanted) == []
      && j + |rows| <= |after| && after[..j] == region[..j] && after[j..j + |rows|] == rows
  {
    hide Named, NamedRows, Unnamed, FirstNamed, TableRows, OtherLines, Cells;
    var j := FirstNamed(region, table, wanted);
    var front, hit, back := region[..j], [region[j]], region[j + 1..];
    var left := Unnamed(back, table, wanted);
    AllRows(rows, table);
    NamedIsRow(region[j], table, wanted);
    AllRows(hit, table);
    UnnamedTable(back, table, wanted);
    NoneNamed(front, table, wanted);
    TableSplit(front + rows, left, table);
    TableSplit(front, rows, table);
    TableSplit(front + hit, back, table);
    TableSplit(front, hit, table);
    OthersSplit(front + rows, left, table);
    OthersSplit(front, rows, table);
    OthersSplit(front + hit, back, table);
    OthersSplit(front, hit, table);
    assert region == front + hit + back;
  }

  lemma NamedIsRow(line: string, table: string, wanted: string)
    requires Named(line, table, wanted)
    ensures Cells(line, table).Some?
  {
  }

  /** Empty lines are no rows. */
  lemma {:induction false} InkTable(lines: seq<string>, table: string)
    ensures TableRows(Inked(lines), table) == TableRows(lines, table)
  {
    hide Cells;
    if lines != [] {
      InkTable(lines[1..], table);
      NoCells(table);
      OneRow(lines[0], table);
      TableSplit([lines[0]], Inked(lines[1..]), table);
      if lines[0] == "" {
        assert Inked(lines) == Inked(lines[1..]) && TableRows(lines, table) == TableRows(lines[1..], table);
      } else {
        assert Inked(lines) == [lines[0]] + Inked(lines[1..]);
      }
    }
  }

  lemma NoCells(table: string)
    ensures Cells("", table).None?
  {
  }

  // ---- whole entries ----

  /** New rows are rows of the table and no structure of the entry. */
  ghost predicate Rows(rows: seq<string>, table: string) {
    forall i :: 0 <= i < |rows| ==>
      && Cells(rows[i], table).Some? && Unbroken(rows[i])
      && HeaderName(rows[i]).None? && TitleOf(rows[i]).None?
  }

  lemma {:induction false} UnnamedPlain(lines: seq<string>, table: string, wanted: string)
    ensures NoHeaders(lines) ==> NoHeaders(Unnamed(lines, table, wanted))
  {
    hide Named, HeaderName;
    if lines != [] {
      UnnamedPlain(lines[1..], table, wanted);
      if NoHeaders(lines) {
        assert NoHeaders(lines[1..]);
      }
    }
  }

  lemma ReplacedPlain(region: seq<string>, table: string, wanted: string, rows: seq<string>)
    requires NoHeaders(region) && Rows(rows, table)
    ensures NoHeaders(Replaced(region, table, wanted, rows))
  {
    hide Named, HeaderName, TitleOf, Unbroken, Unnamed, FirstNamed, Cells;
    var j := FirstNamed(region, table, wanted);
    if j < |region| {
      UnnamedPlain(region[j + 1..], table, wanted);
    }
  }

  /** No row of that thing is read as the entry's title. */
  predicate Untitled(lines: seq<string>, table: string, wanted: string) {
    forall i :: 0 <= i < |lines| && Named(lines[i], table, wanted) ==> TitleOf(lines[i]).None?
  }

  /** Taking such rows out of lines, wherever they are, keeps the title. */
  lemma {:induction false} UnnamedTitle(front: seq<string>, lines: seq<string>, back: seq<string>, table: string,
                                        wanted: string)
    requires Untitled(lines, table, wanted)
    ensures Title(front + Unnamed(lines, table, wanted) + back) == Title(front + lines + back)
    decreases |lines|
  {
    hide Named, TitleOf, Title, Untitled, NoTitles;
    if lines != [] {
      var head, rest := [lines[0]], lines[1..];
      var few := Unnamed(rest, table, wanted);
      assert lines == head + rest;
      UntitledParts(lines, table, wanted);
      if Named(lines[0], table, wanted) {
        UnnamedTitle(front, rest, back, table, wanted);
        assert Unnamed(lines, table, wanted) == few;
        NoneTitled();
        TitleKept(front, [], head, rest + back);
        assert front + [] + (rest + back) == front + rest + back;
        assert front + head + (rest + back) == front + lines + back;
      } else {
        UnnamedTitle(front + head, rest, back, table, wanted);
        assert front + head + few + back == front + (head + few) + back;
        assert front + head + rest + back == front + lines + back;
      }
    }
  }

  lemma NoneTitled()
    ensures NoTitles([])
  {
  }

  lemma UntitledParts(lines: seq<string>, table: string, wanted: string)
    requires Untitled(lines, table, wanted) && lines != []
    ensures Untitled(lines[1..], table, wanted) && (Named(lines[0], table, wanted) ==> NoTitles([lines[0]]))
  {
    hide Named, TitleOf;
  }

  lemma ReplacedTitle(lines: seq<string>, start: nat, end: nat, table: string, wanted: string, rows: seq<string>)
    requires start <= end <= |lines| && Rows(rows, table) && Untitled(lines[start..end], table, wanted)
    ensures Title(lines[..start] + Replaced(lines[start..end], table, wanted, rows) + lines[end..]) == Title(lines)
  {
    hide Named, Unnamed, FirstNamed, Title, TitleOf, NoTitles, Rows;
    var region := lines[start..end];
    var j := FirstNamed(region, table, wanted);
    if j < |region| {
      var front, hit, back, tail := lines[..start + j], [lines[start + j]], lines[start + j + 1..end], lines[end..];
      var few := Unnamed(back, table, wanted);
      Surroundings(lines, start, end, j, rows, few);
      assert forall i :: 0 <= i < |back| ==> back[i] == region[j + 1 + i];
      HitAndRowsPlain(region[j], rows, table);
      UnnamedTitle(front + rows, back, tail, table, wanted);
      TitleKept(front, rows, hit, back + tail);
    } else {
      assert lines == lines[..start] + region + lines[end..];
    }
  }

  lemma HitAndRowsPlain(hit: string, rows: seq<string>, table: string)
    requires TitleOf(hit).None? && Rows(rows, table)
    ensures NoTitles([hit]) && NoTitles(rows)
  {
    hide TitleOf, Cells, HeaderName;
  }

  lemma Surroundings(lines: seq<string>, start: nat, end: nat, j: nat, rows: seq<string>, few: seq<string>)
    requires start <= end <= |lines| && j < end - start
    ensures var region := lines[start..end];
      var front, hit, back, tail := lines[..start + j], [lines[start + j]], lines[start + j + 1..end], lines[end..];
      && region[j] == lines[start + j] && region[j + 1..] == back
      && front + hit + (back + tail) == lines
      && front + rows + back + tail == front + rows + (back + tail)
      && lines[..start] + (region[..j] + rows + few) + tail == front + rows + few + tail
  {
    assert lines[..start] + lines[start..end][..j] == lines[..start + j];
  }

  lemma RowsSetReads(doc: seq<Line>, table: string, wanted: string, rows: seq<string>)
    requires Whole(doc) && table in SECTIONS && HasSection(Bodies(doc), table) && Single(Bodies(doc), table)
    requires Rows(rows, table) && RowsSet(doc, table, wanted, rows).Some?
    ensures var a := Bodies(doc);
      var after := RowsSet(doc, table, wanted, rows).value;
      var b := Bodies(after);
      && Section(b, table) == Replaced(Section(a, table), table, wanted, rows)
      && (forall other :: other != table ==> Section(b, other) == Section(a, other))
      && (Untitled(Section(a, table), table, wanted) ==> Title(b) == Title(a))
      && ReadsAs(LinesOf(Join(after)), b, table)
      && (Section(LinesOf(Join(after)), table) == Section(b, table) <==> Seamless(after))
  {
    hide Whole, HasSection, Single, Section, Title, HeaderName, RowsSet, Replaced, Rows, LinesOf, Join, ReadsAs;
    hide RegionSet, Untitled, Seamless, Kept, Bodies, NoHeaders;
    var a := Bodies(doc);
    var (start, end) := Region(a, table);
    var after := RowsSet(doc, table, wanted, rows).value;
    WholeFormed(doc);
    RowsSetBodies(doc, table, wanted, rows);
    RegionIsSection(a, table);
    ReplacedPlain(a[start..end], table, wanted, rows);
    ReplaceRegion(a, table, Replaced(a[start..end], table, wanted, rows));
    if Untitled(a[start..end], table, wanted) {
      ReplacedTitle(a, start, end, table, wanted, rows);
    }
    RowsUnbroken(rows, table);
    RowsSetParts(doc, table, wanted, rows);
    var body := RegionSet(doc, start, end, table, wanted, rows);
    FrontOf(doc, start, start);
    MiddleIs(doc, start, body, end, Replaced(a[start..end], table, wanted, rows));
    RegionReads(doc, after, table, doc[..start], body);
    KeptIff(doc, start, body, end);
  }

  lemma MiddleIs(doc: seq<Line>, start: nat, body: seq<Line>, end: nat, lines: seq<string>)
    requires start <= end <= |doc|
    requires Bodies(doc[..start] + body + doc[end..]) == Bodies(doc)[..start] + lines + Bodies(doc)[end..]
    ensures Bodies(body) == lines
  {
    hide Bodies;
    BodiesApart(doc[..start], body, doc, end);
    BodiesOf(doc, 0, start);
    assert doc[0..start] == doc[..start];
    SameMiddle(Bodies(doc)[..start], Bodies(body), lines, Bodies(doc)[end..]);
  }

  lemma SameMiddle(a: seq<string>, x: seq<string>, y: seq<string>, b: seq<string>)
    requires a + x + b == a + y + b
    ensures x == y
  {
    assert x == (a + x + b)[|a|..|a| + |x|];
    assert y == (a + y + b)[|a|..|a| + |y|];
  }

  /** All lines of a region are kept exactly when no line before or in it runs into an empty one. */
  lemma KeptIff(doc: seq<Line>, start: nat, body: seq<Line>, end: nat)
    requires Whole(doc) && start <= end <= |doc| && (end < |doc| ==> HeaderName(Bodies(doc)[end]).Some?)
    ensures Kept(Returns(false, doc[..start]), body) == Bodies(body)
       <==> Seamless(doc[..start] + body + doc[end..])
  {
    hide HeaderName, Tidy, Kept;
    var front, back := doc[..start], doc[end..];
    var all := front + body + back;
    NoHeader("");
    KeptCount(Returns(false, front), body);
    KeptInk(Returns(false, front), body);
    if Seamless(all) {
      assert forall i :: 0 <= i < |body| ==> all[start + i] == body[i];
      assert body != [] && start > 0 ==> !Seam(all[start - 1], all[start]);
      forall i | 0 <= i < |body| - 1 ensures !Seam(body[i], body[i + 1]) {
        assert !Seam(all[start + i], all[start + i + 1]);
      }
      KeptWhole(Returns(false, front), body);
    } else if Kept(Returns(false, front), body) == Bodies(body) {
      PiecesSeamless(doc, start, body, end);
    }
  }

  lemma PiecesSeamless(doc: seq<Line>, start: nat, body: seq<Line>, end: nat)
    requires Whole(doc) && start <= end <= |doc| && (end < |doc| ==> doc[end].body != "")
    requires Seamless(body) && (body != [] && start > 0 ==> !Seam(doc[start - 1], body[0]))
    ensures Seamless(doc[..start] + body + doc[end..])
  {
    hide Tidy, Seamless, Seam;
    FrontOf(doc, start, start);
    RestSeamless(doc, end);
    SeamlessNext(doc[..start], body);
    SeamlessJoin(doc[..start] + body, doc[end..]);
  }

  lemma SeamlessNext(a: seq<Line>, b: seq<Line>)
    requires Seamless(a) && Seamless(b) && (a != [] && b != [] ==> !Seam(a[|a| - 1], b[0]))
    ensures Seamless(a + b)
  {
    hide Seam;
    var all := a + b;
    forall i | 0 <= i < |all| - 1 ensures !Seam(all[i], all[i + 1]) {
      if i + 1 < |a| {
        assert !Seam(a[i], a[i + 1]);
      } else if i + 1 == |a| {
        assert all[i] == a[|a| - 1] && all[i + 1] == b[0];
      } else {
        assert !Seam(b[i - |a|], b[i + 1 - |a|]);
      }
    }
  }

  /** Something is swallowed exactly where a line runs into the next. */
  lemma {:induction false} KeptCount(cr: bool, doc: seq<Line>)
    ensures |Kept(cr, doc)| <= |doc|
    ensures |Kept(cr, doc)| == |doc| ==> Seamless(doc) && (doc != [] && cr ==> !Loose(doc[0]))
    decreases |doc|
  {
    if doc != [] {
      var rest := doc[1..];
      KeptCount(doc[0].end == "\r", rest);
      if |Kept(cr, doc)| == |doc| {
        forall i | 0 <= i < |doc| - 1 ensures !Seam(doc[i], doc[i + 1]) {
          assert i > 0 ==> !Seam(rest[i - 1], rest[i]);
        }
      }
    }
  }

  /**
    `set_rows` replaces one movement in place, under the name the new rows
    carry. It refuses exactly when no row of the section has the old name;
    otherwise the table reads as replaced, every other section as before, and
    the title too unless a replaced row was read as the title. The section's
    own lines are exactly the replaced ones if and only if no CR comes to stand
    before an empty line ended by LF; if one does, that empty line is swallowed.
  */
  lemma SetRowsReplaces(text: string, table: string, name: string, rows: seq<string>)
    requires IsTable(table) && Single(LinesOf(text), table) && Rows(rows, table)
    ensures var wanted := Lower(Strip(name));
      var region := Section(LinesOf(text), table);
      match SetRows(text, table, name, rows)
      case NoSection => !HasSection(LinesOf(text), table)
      case NoSuchIndex => NamedRows(region, table, wanted) == []
      case Invalid => false
      case Written(after) =>
        var j := FirstNamed(region, table, wanted);
        var read := Section(LinesOf(after), table);
        && j < |region|
        && TableRows(read, table)
           == TableRows(region[..j], table) + rows + Unnamed(TableRows(region[j + 1..], table), table, wanted)
        && Inked(read) == Inked(Replaced(region, table, wanted, rows))
        && (read == Replaced(region, table, wanted, rows)
            <==> Seamless(RowsSet(Split(text), table, wanted, rows).value))
        && (forall other :: other != table ==> Section(LinesOf(after), other) == Section(LinesOf(text), other))
        && (Untitled(region, table, wanted) ==> Title(LinesOf(after)) == Title(LinesOf(text)))
  {
    hide HasSection, Single, Section, Title, HeaderName, RowsSet, Replaced, Rows, Split, Join, Strip, Lower, Named;
    hide Whole, TableRows, Unnamed, FirstNamed, NamedRows, Inked, Untitled, Seamless, AllFormed, Bodies, Cells;
    var doc := Split(text);
    var wanted := Lower(Strip(name));
    SplitWhole(text);
    WholeFormed(doc);
    if HasSection(Bodies(doc), table) {
      RowsFound(doc, table, wanted, rows);
      if RowsSet(doc, table, wanted, rows).Some? {
        var after := Join(RowsSet(doc, table, wanted, rows).value);
        var region := Section(Bodies(doc), table);
        RowsSetReads(doc, table, wanted, rows);
        RowsUnbroken(rows, table);
        ReplacedMeans(region, table, wanted, rows);
        InkTable(Section(LinesOf(after), table), table);
        InkTable(Replaced(region, table, wanted, rows), table);
      }
    }
  }

  lemma RowsUnbroken(rows: seq<string>, table: string)
    requires Rows(rows, table)
    ensures forall i :: 0 <= i < |rows| ==> Unbroken(rows[i]) && Cells(rows[i], table).Some?
  {
  }

  lemma RowsFound(doc: seq<Line>, table: string, wanted: string, rows: seq<string>)
    requires AllFormed(doc) && table in SECTIONS && HasSection(Bodies(doc), table) && Single(Bodies(doc), table)
    ensures var region := Section(Bodies(doc), table);
      && (RowsSet(doc, table, wanted, rows).Some? <==> FirstNamed(region, table, wanted) < |region|)
      && (RowsSet(doc, table, wanted, rows).None? ==> NamedRows(region, table, wanted) == [])
  {
    hide AllFormed, HasSection, Single, Section, HeaderName, Named, NamedRows;
    var (start, end) := Region(Bodies(doc), table);
    RegionIsSection(Bodies(doc), table);
    RegionFirst(doc, start, end, table, wanted);
    var region := Bodies(doc)[start..end];
    if FirstNamed(region, table, wanted) == |region| {
      NoneNamed(region, table, wanted);
    }
  }

  /** Removing the only row between a header ended by CR and an empty line ended by LF swallows that line. */
  lemma BlankSwallowed(header: string, row: string, table: string, wanted: string)
    requires HeaderName(header) == Some(table) && HeaderName(row).None? && Named(row, table, wanted)
    requires Unbroken(header) && Unbroken(row)
    ensures var doc := [Line(header, "\r"), Line(row, "\n"), Line("", "\n")];
      && HasSection(Bodies(doc), table)
      && RowsSet(doc, table, wanted, []) == Some([doc[0], doc[2]])
      && LinesOf(Join([doc[0], doc[2]])) == [header]
  {
    hide HeaderName, Cells, Join, LinesOf, Unbroken, Named;
    var doc := [Line(header, "\r"), Line(row, "\n"), Line("", "\n")];
    NoHeader("");
    BlankUnnamed(table, wanted);
    EmptyLine();
    NamedEnd(doc[1], table, wanted);
    NamedEnd(doc[2], table, wanted);
    assert HeaderAt(Bodies(doc), table) == 0;
    assert NextHeader(Bodies(doc), 1) == 3;
    assert FirstNamedLine(doc, 1, 3, table, wanted) == 1;
    assert doc[2..3] == [doc[2]] && doc[2..3][1..] == [];
    assert UnnamedLines(doc[2..3], table, wanted) == [doc[2]];
    assert Region(Bodies(doc), table) == (1, 3);
    assert doc[..1] + WithNewline([], Newline(doc)) + [doc[2]] + doc[3..] == [doc[0], doc[2]];
    JoinKeeps([doc[0], doc[2]]);
    KeptSwallows([doc[0], doc[2]]);
    assert [doc[0], doc[2]][2..] == [];
  }

  lemma BlankUnnamed(table: string, wanted: string)
    ensures !Named("", table, wanted)
  {
  }

  lemma EmptyLine()
    ensures Unbroken("")
  {
  }

  /** In a text that does not hold both a lone CR and an empty line ended by LF, nothing is ever swallowed. */
  lemma NothingSwallowed(doc: seq<Line>, table: string, wanted: string, rows: seq<string>)
    requires forall i, j :: 0 <= i < |doc| && 0 <= j < |doc| && doc[i].end == "\r" ==> !Loose(doc[j])
    requires HasSection(Bodies(doc), table) && Rows(rows, table) && RowsSet(doc, table, wanted, rows).Some?
    ensures Seamless(RowsSet(doc, table, wanted, rows).value)
  {
    hide HasSection, HeaderName, Named, Cells, TitleOf, Unbroken, UnnamedLines;
    var (start, end) := Region(Bodies(doc), table);
    var f := FirstNamedLine(doc, start, end, table, wanted);
    var after := RowsSet(doc, table, wanted, rows).value;
    NewlineMember(doc);
    NoCells(table);
    forall i | 0 <= i < |after| - 1 ensures !Seam(after[i], after[i + 1]) {
      RowsSetMember(doc, table, wanted, rows, i);
      RowsSetMember(doc, table, wanted, rows, i + 1);
    }
  }

  /** Each written line is one that was there or a new row. */
  lemma RowsSetMember(doc: seq<Line>, table: string, wanted: string, rows: seq<string>, i: nat)
    requires HasSection(Bodies(doc), table) && RowsSet(doc, table, wanted, rows).Some?
    requires i < |RowsSet(doc, table, wanted, rows).value|
    ensures var line := RowsSet(doc, table, wanted, rows).value[i];
      line in doc || (line.body in rows && line.end == Newline(doc))
  {
    hide HasSection, HeaderName, Named, UnnamedLines;
    var (start, end) := Region(Bodies(doc), table);
    var f := FirstNamedLine(doc, start, end, table, wanted);
    var left := UnnamedLines(doc[f + 1..end], table, wanted);
    UnnamedMembers(doc[f + 1..end], table, wanted);
    var new' := WithNewline(rows, Newline(doc));
    OneOfFour(doc[..f], new', left, doc[end..], i);
    assert forall line :: line in doc[f + 1..end] ==> line in doc;
  }

  lemma OneOfFour<T>(a: seq<T>, b: seq<T>, c: seq<T>, d: seq<T>, i: nat)
    requires i < |a + b + c + d|
    ensures var x := (a + b + c + d)[i]; x in a || x in b || x in c || x in d
  {
  }

  lemma {:induction false} UnnamedMembers(doc: seq<Line>, table: string, wanted: string)
    ensures forall line :: line in UnnamedLines(doc, table, wanted) ==> line in doc
    decreases |doc|
  {
    hide Named;
    if doc != [] {
      UnnamedMembers(doc[1..], table, wanted);
    }
  }

  lemma {:induction false} NewlineMember(doc: seq<Line>)
    ensures Newline(doc) == "\n" || exists i :: 0 <= i < |doc| && doc[i].end == Newline(doc)
  {
    if doc != [] && !Ended(doc[0]) {
      NewlineMember(doc[1..]);
      if Newline(doc) != "\n" {
        var i :| 0 <= i < |doc[1..]| && doc[1..][i].end == Newline(doc);
        assert doc[i + 1].end == Newline(doc);
      }
    } else if doc != [] {
      assert doc[0].end == Newline(doc);
    }
  }
}
