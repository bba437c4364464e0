/**
  The journal editor as it runs (tools/den/den.py): loops over a list of lines
  that is changed by index. Each method is proved to leave exactly what the
  functions of the other `Den` modules say.
*/
module DenEditor {
  import opened Prelude
  import opened DenText
  import opened DenLines
  import opened DenSections
  import opened DenEdits
  import opened DenTasks
  import opened DenRows
  import opened DenSingles

  lemma HeaderEnd(line: Line)
    requires Formed(line)
    ensures HeaderName(line.Raw()) == HeaderName(line.body)
  {
    StripTrailing(line.body, line.end);
  }

  // ---- reading ----

  /** `_sections`: one pass that files each line under the open section. */
  method ReadSections(lines: seq<string>) returns (found: map<string, seq<string>>)
    ensures forall name :: (if name in found then found[name] else []) == Section(lines, name)
  {
    hide HeaderName;
    found := map[];
    var current: Option<string> := None;
    var i := 0;
    while i < |lines|
      invariant 0 <= i <= |lines| && current == After(None, lines[..i])
      invariant current.Some? ==> current.value in found
      invariant forall name :: (if name in found then found[name] else []) == Section(lines[..i], name)
    {
      assert lines[..i + 1][..i] == lines[..i];
      var header := HeaderName(lines[i]);
      if header.Some? {
        current := if header.value in SECTIONS then header else None;
        if current.Some? && current.value !in found {
          found := found[current.value := []];
        }
      } else if current.Some? {
        found := found[current.value := found[current.value] + [lines[i]]];
      }
      i := i + 1;
    }
    assert lines[..|lines|] == lines;
  }

  /** `_header`. */
  method FindHeader(doc: seq<Line>, name: string) returns (index: Option<nat>)
    requires AllFormed(doc)
    ensures index == if HasSection(Bodies(doc), name) then Some(HeaderAt(Bodies(doc), name)) else None
  {
    hide HeaderName;
    var i := 0;
    while i < |doc|
      invariant 0 <= i <= |doc|
      invariant forall k :: 0 <= k < i ==> HeaderName(Bodies(doc)[k]) != Some(name)
    {
      HeaderEnd(doc[i]);
      if HeaderName(doc[i].Raw()) == Some(name) {
        HeaderIs(Bodies(doc), name, i);
        return Some(i);
      }
      i := i + 1;
    }
    return None;
  }

  lemma HeaderIs(lines: seq<string>, name: string, i: nat)
    requires i < |lines| && HeaderName(lines[i]) == Some(name)
    requires forall k :: 0 <= k < i ==> HeaderName(lines[k]) != Some(name)
    ensures HeaderAt(lines, name) == i
  {
    hide HeaderName;
  }

  /** `_region`. */
  method FindRegion(doc: seq<Line>, name: string) returns (start: nat, end: nat)
    requires AllFormed(doc) && HasSection(Bodies(doc), name)
    ensures (start, end) == Region(Bodies(doc), name)
  {
    hide HeaderName;
    var header := FindHeader(doc, name);
    start := header.value + 1;
    end := |doc|;
    var i := start;
    while i < |doc|
      invariant start <= i <= |doc| && end == |doc|
      invariant NextHeader(Bodies(doc), start) == NextHeader(Bodies(doc), i)
    {
      HeaderEnd(doc[i]);
      if HeaderName(doc[i].Raw()).Some? {
        end := i;
        return;
      }
      i := i + 1;
    }
  }

  // ---- writing ----

  /** Terminates the line before a position if it must, then inserts there. */
  method InsertLines(doc: seq<Line>, position: nat, block: seq<Line>) returns (lines: seq<Line>)
    requires position <= |doc|
    ensures lines == Splice(doc, position, block)
  {
    lines := doc;
    if position > 0 && lines[position - 1].end == "" {
      lines := lines[position - 1 := Line(lines[position - 1].body, Newline(doc))];
    }
    lines := lines[..position] + block + lines[position..];
  }

  method FindLater(doc: seq<Line>, first: nat) returns (position: nat)
    requires AllFormed(doc) && first <= |SECTIONS|
    ensures position == LaterHeader(Bodies(doc), first)
  {
    hide HeaderName, HasSection;
    var order := first;
    while order < |SECTIONS|
      invariant first <= order <= |SECTIONS|
      invariant LaterHeader(Bodies(doc), first) == LaterHeader(Bodies(doc), order)
      decreases |SECTIONS| - order
    {
      var found := FindHeader(doc, SECTIONS[order]);
      if found.Some? {
        return found.value;
      }
      order := order + 1;
    }
    return |doc|;
  }

  /** `ensure_section`. */
  method EnsureSection(doc: seq<Line>, name: string) returns (lines: seq<Line>)
    requires AllFormed(doc) && name in SECTIONS
    ensures lines == Ensured(doc, name)
  {
    hide HeaderName, BlockOf, HasSection, LaterHeader, OrderOf, Splice;
    var header := FindHeader(doc, name);
    if header.Some? {
      return doc;
    }
    var position := FindLater(doc, OrderOf(name) + 1);
    lines := InsertLines(doc, position, BlockOf(name, Newline(doc)));
  }

  /** `_last`. */
  method FindLast(doc: seq<Line>, start: nat, end: nat) returns (position: nat)
    requires AllFormed(doc) && start <= end <= |doc|
    ensures position == LastFilled(Bodies(doc), start, end)
  {
    hide Strip, Formed;
    position := end;
    while position > start
      invariant start <= position <= end
      invariant LastFilled(Bodies(doc), start, position) == LastFilled(Bodies(doc), start, end)
    {
      StripEnd(doc[position - 1]);
      if Strip(doc[position - 1].Raw()) != "" {
        return;
      }
      position := position - 1;
    }
  }

  lemma StripEnd(line: Line)
    requires Formed(line)
    ensures Strip(line.Raw()) == Strip(line.body)
  {
    StripTrailing(line.body, line.end);
  }

  /** `_append`: after the last filled line of the section. */
  method Append(doc: seq<Line>, name: string, value: string) returns (lines: seq<Line>)
    requires AllFormed(doc) && HasSection(Bodies(doc), name)
    ensures lines == Appended(doc, name, value)
  {
    hide HeaderName, HasSection, Strip, Splice;
    var start, end := FindRegion(doc, name);
    var position := FindLast(doc, start, end);
    lines := InsertLines(doc, position, [Line(value, Newline(doc))]);
  }

  /** `_checked`. */
  method FindBoxes(doc: seq<Line>, start: nat, end: nat) returns (found: seq<nat>)
    requires start <= end <= |doc|
    ensures found == Checked(doc, start, end)
  {
    hide CheckMatch;
    found := [];
    for i := start to end
      invariant found == Checked(doc, start, i)
    {
      if CheckMatch(doc[i].Raw()).Some? {
        found := found + [i];
      }
    }
  }

  /** The box an index names, found the way both writers find it. */
  method FindTarget(doc: seq<Line>, index: int) returns (target: Option<nat>)
    requires AllFormed(doc) && HasSection(Bodies(doc), "tasks")
    ensures target == Target(doc, index)
  {
    hide CheckMatch, HeaderName, HasSection, Checked, AllFormed;
    var start, end := FindRegion(doc, "tasks");
    var found := FindBoxes(doc, start, end);
    return if index < 1 || index > |found| then None else Some(found[index - 1]);
  }

  /** `toggle_task` and `remove_task` on the lines of a text. */
  method EditBox(doc: seq<Line>, index: int, removes: bool) returns (outcome: Option<seq<Line>>)
    requires AllFormed(doc) && HasSection(Bodies(doc), "tasks")
    ensures outcome == match Target(doc, index)
                       case None => None
                       case Some(k) => Some(if removes then Without(doc, k) else doc[k := FlippedLine(doc[k])])
  {
    hide CheckMatch, HasSection, Target, Flip, AllFormed;
    var found := FindTarget(doc, index);
    if found.None? {
      return None;
    }
    var target := found.value;
    if removes {
      return Some(doc[..target] + doc[target + 1..]);
    }
    var line := doc[target];
    return Some(doc[target := Line(Flip(line.body, CheckMatch(line.Raw()).value.done), line.end)]);
  }

  // ---- rows, deleted from the back ----

  /** Exactly the indexes of the rows of one thing, in order. */
  ghost predicate Finds(doc: seq<Line>, start: nat, end: nat, table: string, wanted: string, found: seq<nat>) {
    && start <= end <= |doc|
    && (forall i, j :: 0 <= i < j < |found| ==> found[i] < found[j])
    && (forall i :: 0 <= i < |found| ==> start <= found[i] < end && Named(doc[found[i]].Raw(), table, wanted))
    && (forall k :: start <= k < end && Named(doc[k].Raw(), table, wanted) ==> k in found)
  }

  method FindRows(doc: seq<Line>, start: nat, end: nat, table: string, wanted: string) returns (found: seq<nat>)
    requires start <= end <= |doc|
    ensures Finds(doc, start, end, table, wanted, found)
  {
    hide Named;
    found := [];
    for i := start to end
      invariant Finds(doc, start, i, table, wanted, found)
    {
      if Named(doc[i].Raw(), table, wanted) {
        found := found + [i];
      }
    }
  }

  /** A stretch without such rows is kept whole. */
  lemma {:induction false} GapKept(doc: seq<Line>, low: nat, high: nat, end: nat, table: string, wanted: string)
    requires low <= high <= end <= |doc|
    requires forall k :: low <= k < high ==> !Named(doc[k].Raw(), table, wanted)
    ensures UnnamedLines(doc[low..end], table, wanted) == doc[low..high] + UnnamedLines(doc[high..end], table, wanted)
    decreases high - low
  {
    hide Named;
    if low < high {
      GapKept(doc, low + 1, high, end, table, wanted);
      assert doc[low..end][1..] == doc[low + 1..end] && doc[low..end][0] == doc[low];
      assert doc[low..high] == [doc[low]] + doc[low + 1..high];
    } else {
      assert doc[low..high] == [];
    }
  }

  /** The lines with a tail of the found rows deleted. */
  function Deleted(doc: seq<Line>, bound: nat, end: nat, table: string, wanted: string): seq<Line>
    requires bound <= end <= |doc|
  {
    doc[..bound] + UnnamedLines(doc[bound..end], table, wanted) + doc[end..]
  }

  /** Deleting the row before the part that is already done. */
  lemma OneMoreDeleted(doc: seq<Line>, low: nat, bound: nat, end: nat, table: string, wanted: string)
    requires low < bound <= end <= |doc| && Named(doc[low].Raw(), table, wanted)
    requires forall k :: low < k < bound ==> !Named(doc[k].Raw(), table, wanted)
    ensures var lines := Deleted(doc, bound, end, table, wanted);
      low < |lines| && lines[..low] + lines[low + 1..] == Deleted(doc, low, end, table, wanted)
  {
    hide Named, UnnamedLines;
    var rest := UnnamedLines(doc[bound..end], table, wanted);
    GapKept(doc, low + 1, bound, end, table, wanted);
    HitDropped(doc, low, end, table, wanted);
    Around(doc, low, bound, rest, doc[end..]);
  }

  lemma HitDropped(doc: seq<Line>, low: nat, end: nat, table: string, wanted: string)
    requires low < end <= |doc| && Named(doc[low].Raw(), table, wanted)
    ensures UnnamedLines(doc[low..end], table, wanted) == UnnamedLines(doc[low + 1..end], table, wanted)
  {
    hide Named;
    assert doc[low..end][1..] == doc[low + 1..end] && doc[low..end][0] == doc[low];
  }

  lemma Around(doc: seq<Line>, low: nat, bound: nat, rest: seq<Line>, tail: seq<Line>)
    requires low < bound <= |doc|
    ensures var lines := doc[..bound] + rest + tail;
      low < |lines| && lines[..low] + lines[low + 1..] == doc[..low] + (doc[low + 1..bound] + rest) + tail
  {
  }

  /** `for index in reversed(found): del lines[index]`. */
  method DeleteRows(doc: seq<Line>, start: nat, end: nat, table: string, wanted: string, found: seq<nat>)
    returns (lines: seq<Line>)
    requires Finds(doc, start, end, table, wanted, found) && found != []
    ensures lines == Deleted(doc, found[0], end, table, wanted)
  {
    hide Named, Deleted, UnnamedLines;
    lines := doc;
    ghost var bound := end;
    var i := |found|;
    NothingDeleted(doc, end, table, wanted);
    while i > 0
      invariant 0 <= i <= |found| && bound == (if i < |found| then found[i] else end)
      invariant lines == Deleted(doc, bound, end, table, wanted)
    {
      i := i - 1;
      OneMoreDeleted(doc, found[i], bound, end, table, wanted);
      lines := lines[..found[i]] + lines[found[i] + 1..];
      bound := found[i];
    }
  }

  lemma NothingDeleted(doc: seq<Line>, end: nat, table: string, wanted: string)
    requires end <= |doc|
    ensures Deleted(doc, end, end, table, wanted) == doc
  {
    assert doc[end..end] == [];
  }

  /** `lines.insert(found[0] + offset, row + newline)` for every row. */
  method InsertRows(base: seq<Line>, at: nat, rows: seq<string>, newline: string) returns (lines: seq<Line>)
    requires at <= |base|
    ensures lines == base[..at] + WithNewline(rows, newline) + base[at..]
  {
    lines := base;
    var offset := 0;
    while offset < |rows|
      invariant 0 <= offset <= |rows|
      invariant lines == base[..at] + WithNewline(rows[..offset], newline) + base[at..]
    {
      ghost var before := WithNewline(rows[..offset], newline);
      assert WithNewline(rows[..offset + 1], newline) == before + [Line(rows[offset], newline)];
      lines := lines[..at + offset] + [Line(rows[offset], newline)] + lines[at + offset..];
      offset := offset + 1;
    }
    assert rows[..|rows|] == rows;
  }

  /** `set_rows` on the lines of a text. */
  method SetRowsInPlace(doc: seq<Line>, table: string, wanted: string, rows: seq<string>)
    returns (outcome: Option<seq<Line>>)
    requires AllFormed(doc) && HasSection(Bodies(doc), table)
    ensures outcome == RowsSet(doc, table, wanted, rows)
  {
    hide HeaderName, HasSection, Named, Deleted, UnnamedLines, AllFormed;
    var start, end := FindRegion(doc, table);
    var found := FindRows(doc, start, end, table, wanted);
    FoundFirst(doc, start, end, table, wanted, found);
    if found == [] {
      return None;
    }
    var lines := DeleteRows(doc, start, end, table, wanted, found);
    DeletedFirst(doc, found[0], end, table, wanted);
    lines := InsertRows(lines, found[0], rows, Newline(doc));
    assert lines == doc[..found[0]] + WithNewline(rows, Newline(doc))
                    + UnnamedLines(doc[found[0] + 1..end], table, wanted) + doc[end..];
    return Some(lines);
  }

  lemma FoundFirst(doc: seq<Line>, start: nat, end: nat, table: string, wanted: string, found: seq<nat>)
    requires Finds(doc, start, end, table, wanted, found)
    ensures FirstNamedLine(doc, start, end, table, wanted) == if found == [] then end else found[0]
  {
    hide Named;
    var f := FirstNamedLine(doc, start, end, table, wanted);
    assert f < end ==> f in found;
  }

  lemma DeletedFirst(doc: seq<Line>, first: nat, end: nat, table: string, wanted: string)
    requires first < end <= |doc| && Named(doc[first].Raw(), table, wanted)
    ensures var lines := Deleted(doc, first, end, table, wanted);
      && first <= |lines| && lines[..first] == doc[..first]
      && lines[first..] == UnnamedLines(doc[first + 1..end], table, wanted) + doc[end..]
  {
    hide Named, UnnamedLines;
    HitDropped(doc, first, end, table, wanted);
  }

  // ---- the weight, written over the first filled line ----

  predicate HasText(line: Line) { Strip(line.body) != "" }

  /** Exactly the indexes of the filled lines, in order. */
  ghost predicate FindsFilled(doc: seq<Line>, start: nat, end: nat, found: seq<nat>) {
    && start <= end <= |doc|
    && (forall i, j :: 0 <= i < j < |found| ==> found[i] < found[j])
    && (forall i :: 0 <= i < |found| ==> start <= found[i] < end && HasText(doc[found[i]]))
    && (forall k :: start <= k < end && HasText(doc[k]) ==> k in found)
  }

  method FindFilled(doc: seq<Line>, start: nat, end: nat) returns (found: seq<nat>)
    requires AllFormed(doc) && start <= end <= |doc|
    ensures FindsFilled(doc, start, end, found)
  {
    hide Strip;
    found := [];
    for i := start to end
      invariant FindsFilled(doc, start, i, found)
    {
      StripEnd(doc[i]);
      if Strip(doc[i].Raw()) != "" {
        found := found + [i];
      }
    }
  }

  /** A stretch of blank lines is kept whole. */
  lemma {:induction false} BlankGap(doc: seq<Line>, low: nat, high: nat, end: nat)
    requires low <= high <= end <= |doc| && forall k :: low <= k < high ==> !HasText(doc[k])
    ensures Blanks(doc[low..end]) == doc[low..high] + Blanks(doc[high..end])
    decreases high - low
  {
    hide HasText, Blanks;
    if low < high {
      BlankGap(doc, low + 1, high, end);
      BlankFirst(doc, low, end);
      assert doc[low..high] == [doc[low]] + doc[low + 1..high];
    } else {
      assert doc[low..high] == [];
    }
  }

  lemma BlankFirst(doc: seq<Line>, low: nat, end: nat)
    requires low < end <= |doc| && !HasText(doc[low])
    ensures Blanks(doc[low..end]) == [doc[low]] + Blanks(doc[low + 1..end])
  {
    hide Strip;
    assert doc[low..end][1..] == doc[low + 1..end] && doc[low..end][0] == doc[low];
  }

  lemma FilledDropped(doc: seq<Line>, low: nat, end: nat)
    requires low < end <= |doc| && HasText(doc[low])
    ensures Blanks(doc[low..end]) == Blanks(doc[low + 1..end])
  {
    hide Strip;
    assert doc[low..end][1..] == doc[low + 1..end] && doc[low..end][0] == doc[low];
  }

  /** The lines with the filled ones from `bound` on deleted, and the first one written over. */
  function Overwritten(doc: seq<Line>, first: nat, line: Line, bound: nat, end: nat): seq<Line>
    requires first < bound <= end <= |doc|
  {
    doc[first := line][..bound] + Blanks(doc[bound..end]) + doc[end..]
  }

  lemma OneMoreBlanked(doc: seq<Line>, first: nat, line: Line, low: nat, bound: nat, end: nat)
    requires first < low < bound <= end <= |doc| && HasText(doc[low])
    requires forall k :: low < k < bound ==> !HasText(doc[k])
    ensures var lines := Overwritten(doc, first, line, bound, end);
      low < |lines| && lines[..low] + lines[low + 1..] == Overwritten(doc, first, line, low, end)
  {
    hide Blanks, HasText;
    BlankGap(doc, low + 1, bound, end);
    FilledDropped(doc, low, end);
    var over := doc[first := line];
    Around(over, low, bound, Blanks(doc[bound..end]), doc[end..]);
    assert over[low + 1..bound] == doc[low + 1..bound];
  }

  /** Writes over the first filled line and deletes the others from the back. */
  method Overwrite(doc: seq<Line>, start: nat, end: nat, found: seq<nat>, line: Line) returns (lines: seq<Line>)
    requires FindsFilled(doc, start, end, found) && found != []
    ensures lines == doc[..found[0]] + [line] + Blanks(doc[found[0] + 1..end]) + doc[end..]
  {
    hide HasText, Blanks, Overwritten;
    lines := doc[found[0] := line];
    ghost var bound := end;
    var i := |found|;
    NothingBlanked(doc, found[0], line, end);
    while i > 1
      invariant 1 <= i <= |found| && bound == (if i < |found| then found[i] else end)
      invariant found[0] < bound <= end && lines == Overwritten(doc, found[0], line, bound, end)
    {
      i := i - 1;
      OneMoreBlanked(doc, found[0], line, found[i], bound, end);
      lines := lines[..found[i]] + lines[found[i] + 1..];
      bound := found[i];
    }
    AllBlanked(doc, found[0], line, bound, end);
  }

  lemma NothingBlanked(doc: seq<Line>, first: nat, line: Line, end: nat)
    requires first < end <= |doc|
    ensures Overwritten(doc, first, line, end, end) == doc[first := line]
  {
    assert doc[end..end] == [];
  }

  lemma AllBlanked(doc: seq<Line>, first: nat, line: Line, bound: nat, end: nat)
    requires first < bound <= end <= |doc| && forall k :: first < k < bound ==> !HasText(doc[k])
    ensures Overwritten(doc, first, line, bound, end)
        == doc[..first] + [line] + Blanks(doc[first + 1..end]) + doc[end..]
  {
    hide Blanks, HasText;
    BlankGap(doc, first + 1, bound, end);
    assert doc[first := line][..bound] == doc[..first] + [line] + doc[first + 1..bound];
  }

  /** `set_weight` once its section is there. */
  method SetWeightInPlace(doc: seq<Line>, written: string) returns (lines: seq<Line>)
    requires AllFormed(doc) && HasSection(Bodies(doc), "weight")
    ensures lines == WeightSet(doc, written)
  {
    hide HeaderName, HasSection, AllFormed, Blanks, Splice, FirstFilled, HasText, Bodies;
    var start, end := FindRegion(doc, "weight");
    var found := FindFilled(doc, start, end);
    FilledFirst(doc, start, end, found);
    var newline := Newline(doc);
    if found == [] {
      lines := InsertLines(doc, start, [Line("", newline), Line(written, newline)]);
    } else {
      lines := Overwrite(doc, start, end, found, Line(written, newline));
    }
  }

  lemma FilledFirst(doc: seq<Line>, start: nat, end: nat, found: seq<nat>)
    requires FindsFilled(doc, start, end, found)
    ensures start + FirstFilled(Bodies(doc)[start..end], 0) == if found == [] then end else found[0]
  {
    hide Strip, FirstFilled;
    var region := Bodies(doc)[start..end];
    var f := FirstFilled(region, 0);
    assert forall x :: x in found ==> found[0] <= x;
    forall i | 0 <= i < |region| && (found == [] || start + i < found[0]) ensures Strip(region[i]) == "" {
      assert !HasText(doc[start + i]);
    }
    if found != [] {
      assert HasText(doc[found[0]]) && region[found[0] - start] == doc[found[0]].body;
    }
  }

  // ---- the split, over the first line that is not the table ----

  /** `set_split` once its section is there. */
  method SetSplitInPlace(doc: seq<Line>, value: string) returns (lines: seq<Line>)
    requires AllFormed(doc) && HasSection(Bodies(doc), "workout")
    ensures lines == SplitSet(doc, value)
  {
    hide HeaderName, HasSection, Candidate;
    var start, end := FindRegion(doc, "workout");
    var newline := Newline(doc);
    ghost var region := Bodies(doc)[start..end];
    var k := start;
    while k < end
      invariant start <= k <= end
      invariant FirstCandidate(region, 0) == FirstCandidate(region, k - start)
    {
      CandidateEnd(doc[k]);
      if Candidate(doc[k].Raw()) {
        return doc[k := Line(value, newline)];
      }
      k := k + 1;
    }
    return doc[..start] + [Line("", newline), Line(value, newline)] + doc[start..];
  }

  lemma CandidateEnd(line: Line)
    requires Formed(line)
    ensures Candidate(line.Raw()) == Candidate(line.body)
  {
    hide Strip;
    StripEnd(line);
    CellsEnd(line, "workout");
  }
}
