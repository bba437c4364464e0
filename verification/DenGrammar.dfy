/** What a line of the journal has to look like to be a header, a title, a checkbox, a row or a weight, said as the
    shape of the whole line and not as the way it is scanned. */
module DenGrammar {
  import opened Prelude
  import opened DenText
  import opened DenLines
  import opened DenSections
  import opened DenEdits
  import opened DenRows
  import opened DenSingles

  predicate Space(c: char) { c == ' ' || c == '\t' || c == '\n' || c == '\r' }

  predicate Spaces(s: string) { forall i :: 0 <= i < |s| ==> Space(s[i]) }

  /** Words without blanks around them. */
  predicate Solid(words: string) { words != "" && !Space(words[0]) && !Space(words[|words| - 1]) }

  predicate Gap(s: string) { s != "" && Spaces(s) }

  // ---- headers and titles ----

  ghost predicate HeaderShape(s: string, left: string, gap: string, words: string, right: string) {
    && s == left + "###" + gap + words + right
    && Spaces(left) && Gap(gap) && Solid(words) && Spaces(right)
  }

  /** A header is three marks, a gap and its words, with any blanks around; its name is the words in lower case. */
  lemma HeaderIff(s: string, name: string)
    ensures HeaderName(s) == Some(name) <==>
      exists left, gap, words, right :: HeaderShape(s, left, gap, words, right) && name == Lower(words)
  {
    if HeaderName(s).Some? {
      var left, gap, words, right := HeaderParts(s);
    }
    forall left, gap, words, right | HeaderShape(s, left, gap, words, right)
      ensures HeaderName(s) == Some(Lower(words)) {
      HeaderFits(s, left, gap, words, right);
    }
  }

  lemma HeaderParts(s: string) returns (left: string, gap: string, words: string, right: string)
    requires HeaderName(s).Some?
    ensures HeaderShape(s, left, gap, words, right) && HeaderName(s) == Some(Lower(words))
  {
    left, right := StripParts(s);
    var t := Strip(s);
    var tail: string;
    gap, tail := StripParts(t[3..]);
    words := Strip(t[3..]);
    TailIsSolid(t, 3, gap, words, tail);
    assert s == left + "###" + gap + words + right;
  }

  /** What is left of a stripped line after some of it ends with words. */
  lemma TailIsSolid(t: string, from: nat, gap: string, words: string, tail: string)
    requires from < |t| && !Blank(t[|t| - 1]) && t[from..] == gap + words + tail
    requires AllBlank(gap) && AllBlank(tail) && words == Strip(t[from..])
    requires words == "" || Solid(words)
    ensures Solid(words) && tail == "" && t == t[..from] + gap + words
    ensures Blank(t[from]) ==> gap != ""
  {
    var rest := t[from..];
    assert rest[|rest| - 1] == t[|t| - 1] && rest[0] == t[from];
    LastBlank(gap, words, tail);
  }

  /** Blanks at the end show at the end. */
  lemma LastBlank(gap: string, words: string, tail: string)
    requires AllBlank(gap) && AllBlank(tail) && gap + words + tail != "" && (words == "" || Solid(words))
    ensures var s := gap + words + tail; !Blank(s[|s| - 1]) ==> words != "" && tail == ""
  {
    var s := gap + words + tail;
    if tail != "" {
      assert s[|s| - 1] == tail[|tail| - 1];
    } else if words == "" {
      assert s == gap;
    }
  }

  lemma HeaderFits(s: string, left: string, gap: string, words: string, right: string)
    requires HeaderShape(s, left, gap, words, right)
    ensures HeaderName(s) == Some(Lower(words))
  {
    var t := "###" + gap + words;
    assert s == left + t + right;
    StripIs(left, t, right);
    assert t[3..] == gap + words + "" && t[..3] == "###" && t[3] == gap[0];
    StripIs(gap, words, "");
  }

  /** A title is one mark, a blank and at least one character more; it is not indented. */
  lemma TitleIff(s: string, title: string)
    ensures TitleOf(s) == Some(title) <==>
      exists blank: char, rest: string ::
        Space(blank) && rest != "" && s == "#" + [blank] + rest && title == Strip(rest)
  {
    if TitleOf(s).Some? {
      assert s == "#" + [s[1]] + s[2..];
      assert s[1..] == [s[1]] + s[2..];
      StripBefore(s[1], s[2..]);
    }
    forall blank: char, rest: string | Space(blank) && rest != "" && s == "#" + [blank] + rest
      ensures TitleOf(s) == Some(Strip(rest)) {
      assert s[1..] == [blank] + rest;
      StripBefore(blank, rest);
    }
  }

  /** A day's title is that of its first title line, wherever it stands. */
  lemma {:induction false} TitleIs(lines: seq<string>, k: nat)
    requires k <= |lines| && (forall i :: 0 <= i < k ==> TitleOf(lines[i]).None?)
    requires k < |lines| ==> TitleOf(lines[k]).Some?
    ensures Title(lines) == if k < |lines| then TitleOf(lines[k]).value else ""
    decreases k
  {
    hide TitleOf;
    if k > 0 {
      TitleIs(lines[1..], k - 1);
    }
  }

  lemma StripBefore(blank: char, rest: string)
    requires Blank(blank)
    ensures Strip([blank] + rest) == Strip(rest)
  {
    var left, right := StripParts(rest);
    assert [blank] + rest == ([blank] + left) + Strip(rest) + right;
    StripIs([blank] + left, Strip(rest), right);
  }

  // ---- checkboxes ----

  ghost predicate CheckShape(s: string, left: string, gap: string, mark: char, rest: string) {
    && s == left + "-" + gap + "[" + [mark] + "]" + rest
    && Spaces(left) && Gap(gap) && (mark == ' ' || mark == 'x' || mark == 'X')
    && |rest| > 1 && Space(rest[0]) && exists i :: 1 <= i < |rest| && rest[i] != '\n'
  }

  /** A checkbox is a dash, a gap, a box with a mark, and a blank before more words; it is done unless it is open. */
  lemma CheckIff(s: string, box: Box)
    ensures CheckMatch(s) == Some(box) <==>
      exists left, gap, mark, rest ::
        CheckShape(s, left, gap, mark, rest) && box == Box(Strip(rest), mark != ' ')
  {
    if CheckMatch(s).Some? {
      var left, gap, mark, rest := CheckParts(s);
    }
    forall left, gap, mark, rest | CheckShape(s, left, gap, mark, rest)
      ensures CheckMatch(s) == Some(Box(Strip(rest), mark != ' ')) {
      CheckFits(s, left, gap, mark, rest);
    }
  }

  lemma CheckParts(s: string) returns (left: string, gap: string, mark: char, rest: string)
    requires CheckMatch(s).Some?
    ensures CheckShape(s, left, gap, mark, rest) && CheckMatch(s) == Some(Box(Strip(rest), mark != ' '))
  {
    hide Strip, Skip;
    var dash, open := Skip(s, 0), BoxAt(s).value;
    left, gap, mark, rest := s[..dash], s[dash + 1..open], s[open + 1], s[open + 3..];
    assert s[..dash] + [s[dash]] + s[dash + 1..open] + [s[open]] + [s[open + 1]] + [s[open + 2]] + s[open + 3..] == s;
    var i :| open + 4 <= i < |s| && s[i] != '\n';
    assert rest[i - open - 3] == s[i];
  }

  lemma CheckFits(s: string, left: string, gap: string, mark: char, rest: string)
    requires CheckShape(s, left, gap, mark, rest)
    ensures CheckMatch(s) == Some(Box(Strip(rest), mark != ' '))
  {
    hide Strip, Skip;
    var dash, open := |left|, |left| + 1 + |gap|;
    assert forall i :: 0 <= i < dash ==> s[i] == left[i];
    assert forall i :: dash < i < open ==> s[i] == gap[i - dash - 1];
    assert s[dash] == '-' && s[open] == '[' && s[open + 1] == mark && s[open + 2] == ']';
    SkipsTo(s, 0, dash);
    SkipsTo(s, dash + 1, open);
    assert s[open + 3..] == rest;
    var i :| 1 <= i < |rest| && rest[i] != '\n';
    assert s[open + 3 + i] == rest[i] && s[open + 3] == rest[0];
  }

  lemma SkipsTo(s: string, from: nat, k: nat)
    requires from <= k < |s| && (forall i :: from <= i < k ==> Blank(s[i])) && !Blank(s[k])
    ensures Skip(s, from) == k
  {
    var found := Skip(s, from);
  }

  // ---- rows ----

  function JoinCommas(cells: seq<string>): string {
    if cells == [] then "" else if |cells| == 1 then cells[0] else cells[0] + "," + JoinCommas(cells[1..])
  }

  lemma {:induction false} CommasSplit(s: string)
    ensures JoinCommas(SplitCommas(s)) == s
    decreases |s|
  {
    if s != "" {
      CommasSplit(s[1..]);
      var rest := SplitCommas(s[1..]);
      assert s == [s[0]] + s[1..];
      if s[0] == ',' {
        assert ([""] + rest)[1..] == rest;
      } else {
        Prepended(s[0], rest);
      }
    }
  }

  lemma Prepended(c: char, cells: seq<string>)
    requires cells != []
    ensures JoinCommas([[c] + cells[0]] + cells[1..]) == [c] + JoinCommas(cells)
  {
    var longer := [[c] + cells[0]] + cells[1..];
    assert longer[1..] == cells[1..];
    if |cells| > 1 {
      assert ([c] + cells[0]) + "," + JoinCommas(cells[1..]) == [c] + (cells[0] + "," + JoinCommas(cells[1..]));
    }
  }

  lemma {:induction false} CommasGone(s: string)
    ensures forall c :: c in SplitCommas(s) ==> ',' !in c
    decreases |s|
  {
    if s != "" {
      CommasGone(s[1..]);
      var rest := SplitCommas(s[1..]);
      assert rest[0] in rest && forall c :: c in rest[1..] ==> c in rest;
    }
  }

  lemma {:induction false} CommasJoin(cells: seq<string>)
    requires cells != [] && forall c :: c in cells ==> ',' !in c
    ensures SplitCommas(JoinCommas(cells)) == cells
    decreases |cells|, |cells[0]|
  {
    var s, first, rest := JoinCommas(cells), cells[0], cells[1..];
    assert cells == [first] + rest && first in cells;
    if first == "" {
      if rest != [] {
        CommasJoin(rest);
        assert s[0] == ',' && s[1..] == JoinCommas(rest);
      }
    } else {
      var shorter := [first[1..]] + rest;
      assert shorter[1..] == rest && s == [first[0]] + JoinCommas(shorter) && first[0] in first;
      assert first == [first[0]] + first[1..];
      CommasJoin(shorter);
      assert s[1..] == JoinCommas(shorter);
    }
  }

  /** A row of a table: as many cells as it has columns, between commas, and not the table's own header. */
  ghost predicate RowShape(row: string, table: string, parts: seq<string>) {
    && row == JoinCommas(parts) && (forall c :: c in parts ==> ',' !in c)
    && row != "" && |parts| == (if table == "macros" then 4 else 3)
    && !((if table == "macros" then "what," else "exercise,") <= row)
  }

  /** A line is a row if and only if what stands between its blanks is; its cells are what stands between theirs. */
  lemma CellsIff(line: string, table: string, cells: seq<string>)
    ensures Cells(line, table) == Some(cells) <==>
      exists parts :: RowShape(Strip(line), table, parts) && cells == StripAll(parts)
  {
    hide Strip;
    var row := Strip(line);
    CommasSplit(row);
    CommasGone(row);
    if Cells(line, table).Some? {
      assert RowShape(row, table, SplitCommas(row));
    }
    forall parts | RowShape(row, table, parts) ensures Cells(line, table) == Some(StripAll(parts)) {
      CommasJoin(parts);
    }
  }

  /** A row is of the thing its first cell names, in either case. */
  lemma NamedIff(line: string, table: string, wanted: string)
    ensures Named(line, table, wanted) <==>
      exists parts :: RowShape(Strip(line), table, parts) && Lower(Strip(parts[0])) == wanted
  {
    hide Strip, Lower, JoinCommas;
    if Named(line, table, wanted) {
      CellsIff(line, table, Cells(line, table).value);
    }
    forall parts | RowShape(Strip(line), table, parts)
      ensures Named(line, table, wanted) <==> Lower(Strip(parts[0])) == wanted {
      CellsIff(line, table, StripAll(parts));
    }
  }

  // ---- weights ----

  predicate Digits(s: string) { s != "" && forall i :: 0 <= i < |s| ==> '0' <= s[i] <= '9' }

  /** A decimal number without a sign, an exponent or a bare point. */
  ghost predicate Decimal(s: string) {
    Digits(s) || exists whole, part :: Digits(whole) && Digits(part) && s == whole + "." + part
  }

  ghost predicate WeightShape(s: string, number: string, gap: string, unit: string) {
    && s == number + gap + unit && Decimal(number) && Spaces(gap)
    && |unit| == 2 && (unit[0] == 'k' || unit[0] == 'K') && (unit[1] == 'g' || unit[1] == 'G')
  }

  lemma NumberIff(s: string)
    ensures Number(s) <==> Decimal(s)
  {
    if Number(s) {
      NumberIsDecimal(s);
    }
    if Digits(s) {
      DigitsTo(s, 0, |s|);
    } else if whole, part :| Digits(whole) && Digits(part) && s == whole + "." + part {
      PointFits(s, whole, part);
    }
  }

  lemma NumberIsDecimal(s: string)
    requires Number(s)
    ensures Decimal(s)
  {
    var whole := DigitsEnd(s, 0);
    if whole == |s| {
      assert Digits(s);
    } else {
      assert s == s[..whole] + "." + s[whole + 1..];
      assert Digits(s[..whole]) && Digits(s[whole + 1..]);
    }
  }

  lemma PointFits(s: string, whole: string, part: string)
    requires Digits(whole) && Digits(part) && s == whole + "." + part
    ensures Number(s)
  {
    assert forall i :: 0 <= i < |whole| ==> s[i] == whole[i];
    assert forall i :: |whole| < i < |s| ==> s[i] == part[i - |whole| - 1];
    DigitsTo(s, 0, |whole|);
    DigitsTo(s, |whole| + 1, |s|);
  }

  /** A weight is a decimal number, blanks or none, and `kg` in either case, and nothing else. */
  lemma KilosIff(s: string, number: string)
    ensures Kilos(s) == Some(number) <==> exists gap, unit :: WeightShape(s, number, gap, unit)
  {
    if Kilos(s) == Some(number) {
      KilosParts(s);
    }
    forall gap, unit | WeightShape(s, number, gap, unit) ensures Kilos(s) == Some(number) {
      KilosFits(s, number, gap, unit);
    }
  }

  lemma KilosParts(s: string)
    requires Kilos(s).Some?
    ensures exists gap, unit :: WeightShape(s, Kilos(s).value, gap, unit)
  {
    var k := NumberEnd(s);
    var u := Skip(s, k);
    var gap, unit := s[k..u], s[u..];
    PrefixNumber(s);
    NumberIff(s[..k]);
    assert s == s[..k] + gap + unit;
    assert Lower(unit)[0] == LowerChar(unit[0]) == 'k' && Lower(unit)[1] == LowerChar(unit[1]) == 'g';
    assert WeightShape(s, s[..k], gap, unit);
  }

  /** The number at the front of a string is a number by itself. */
  lemma PrefixNumber(s: string)
    requires NumberEnd(s) > 0
    ensures Number(s[..NumberEnd(s)])
  {
    var k, whole := NumberEnd(s), DigitsEnd(s, 0);
    var t := s[..k];
    assert forall i :: 0 <= i < k ==> t[i] == s[i];
    DigitsTo(t, 0, whole);
    if k > whole {
      DigitsTo(t, whole + 1, k);
    }
  }

  lemma KilosFits(s: string, number: string, gap: string, unit: string)
    requires WeightShape(s, number, gap, unit)
    ensures Kilos(s) == Some(number)
  {
    var more := gap + unit;
    NumberIff(number);
    assert s == number + more && more[0] == if gap == "" then unit[0] else gap[0];
    NumberExtends(number, more);
    var u := |number| + |gap|;
    assert forall i :: |number| <= i < u ==> s[i] == gap[i - |number|];
    assert s[u] == unit[0] && s[u..] == unit;
    SkipsTo(s, |number|, u);
    assert Lower(unit) == "kg";
  }

  lemma DigitsTo(s: string, from: nat, k: nat)
    requires from <= k <= |s| && (forall i :: from <= i < k ==> Digit(s[i])) && (k < |s| ==> !Digit(s[k]))
    ensures DigitsEnd(s, from) == k
  {
    var found := DigitsEnd(s, from);
  }

  /** The one line of the section that is not blank. */
  ghost predicate OnlyFilled(lines: seq<string>, k: int) {
    && 0 <= k < |lines| && Strip(lines[k]) != ""
    && forall i :: 0 <= i < |lines| && i != k ==> Strip(lines[i]) == ""
  }

  /** A day's weight is read from a section with one line that is not blank, if that line is a weight. */
  lemma WeightIff(lines: seq<string>, number: string)
    ensures ParseWeight(lines) == Some(number) <==>
      exists k, gap, unit :: OnlyFilled(lines, k) && WeightShape(Strip(lines[k]), number, gap, unit)
  {
    hide Strip, Kilos, WeightShape;
    forall k | OnlyFilled(lines, k) ensures Filled(lines) == [Strip(lines[k])] {
      OneIsFilled(lines, k);
    }
    if |Filled(lines)| == 1 {
      var k := FilledOnce(lines);
      KilosIff(Strip(lines[k]), number);
    }
  }

  lemma {:induction false} OneIsFilled(lines: seq<string>, k: int)
    requires OnlyFilled(lines, k)
    ensures Filled(lines) == [Strip(lines[k])]
    decreases |lines|
  {
    hide Strip;
    if k == 0 {
      AllEmpty(lines[1..]);
    } else {
      OneIsFilled(lines[1..], k - 1);
    }
  }

  lemma {:induction false} FilledOnce(lines: seq<string>) returns (k: nat)
    requires |Filled(lines)| == 1
    ensures OnlyFilled(lines, k)
    decreases |lines|
  {
    hide Strip;
    if Strip(lines[0]) == "" {
      k := FilledOnce(lines[1..]);
      k := k + 1;
    } else {
      k := 0;
      NoneFilled(lines[1..]);
    }
  }

  lemma {:induction false} NoneFilled(lines: seq<string>)
    requires Filled(lines) == []
    ensures forall i :: 0 <= i < |lines| ==> Strip(lines[i]) == ""
    decreases |lines|
  {
    hide Strip;
    if lines != [] {
      NoneFilled(lines[1..]);
    }
  }

  /** A line that is neither blank, nor the table's header, nor a row. */
  ghost predicate Loose(line: string) {
    && Strip(line) != "" && !("exercise," <= Strip(line))
    && !exists parts :: RowShape(Strip(line), "workout", parts)
  }

  /** A day's split is the first such line of its section. */
  lemma SplitIs(lines: seq<string>, k: nat)
    requires k <= |lines| && (forall i :: 0 <= i < k ==> !Loose(lines[i])) && (k < |lines| ==> Loose(lines[k]))
    ensures ParseSplit(lines) == if k < |lines| then Strip(lines[k]) else ""
  {
    hide Strip, Cells, RowShape, Loose, Candidate;
    forall i | 0 <= i < |lines| ensures Candidate(lines[i]) <==> Loose(lines[i]) {
      LooseIff(lines[i]);
    }
    FirstIsCandidate(lines, 0);
  }

  lemma LooseIff(line: string)
    ensures Candidate(line) <==> Loose(line)
  {
    hide Strip, Cells, RowShape;
    if exists parts :: RowShape(Strip(line), "workout", parts) {
      var parts :| RowShape(Strip(line), "workout", parts);
      CellsIff(line, "workout", StripAll(parts));
    }
    if Cells(line, "workout").Some? {
      CellsIff(line, "workout", Cells(line, "workout").value);
    }
  }

  // ---- a section that is missing ----

  /** The lines each section is put back with, in the order of the day. */
  const BLOCKS: seq<seq<string>> :=
    [["### Tasks", ""], ["### Habits", ""], ["### Macros", "", "what,protein,carbs,fat", ""],
     ["### Weight", ""], ["### Workout", "", "exercise,weight,reps", ""], ["### Notes", ""]]

  /** The first of the sections after the `k`-th that is there. */
  predicate FirstLater(lines: seq<string>, k: nat, j: int) {
    k < j < 6 && HasSection(lines, SECTIONS[j]) && forall m :: k < m < j ==> !HasSection(lines, SECTIONS[m])
  }

  /** Where the section that is `k`-th in the day belongs: before the first later one, or last. */
  ghost predicate Belongs(lines: seq<string>, k: nat, p: nat) {
    && (forall j :: FirstLater(lines, k, j) ==> p == HeaderAt(lines, SECTIONS[j]))
    && ((forall j :: k < j < 6 ==> !HasSection(lines, SECTIONS[j])) ==> p == |lines|)
  }

  /** These lines are put in here: the others keep their places and terminators, but an unterminated one before them
      is terminated. */
  ghost predicate PutIn(doc: seq<Line>, p: nat, block: seq<string>, after: seq<Line>) {
    && p <= |doc| && |after| == |doc| + |block|
    && after[p..p + |block|] == WithNewline(block, Newline(doc)) && after[p + |block|..] == doc[p..]
    && (forall i :: 0 <= i < p ==>
          && after[i].body == doc[i].body
          && after[i].end == if i == p - 1 && doc[i].end == "" then Newline(doc) else doc[i].end)
  }

  /** A missing section is put back where it belongs in the day, with its header and, for a table, the table's. */
  lemma EnsuredPlaces(doc: seq<Line>, k: nat) returns (p: nat)
    requires k < 6 && !HasSection(Bodies(doc), SECTIONS[k])
    ensures Belongs(Bodies(doc), k, p) && PutIn(doc, p, BLOCKS[k], Ensured(doc, SECTIONS[k]))
  {
    hide HasSection, Belongs, PutIn, LaterHeader, OrderOf, BlockOf, Splice, Newline;
    p := LaterHeader(Bodies(doc), k + 1);
    LaterBelongs(Bodies(doc), k, k + 1);
    OrderIs(k);
    BlockIs(k, Newline(doc));
    SplicePuts(doc, p, BLOCKS[k]);
  }

  lemma SplicePuts(doc: seq<Line>, p: nat, block: seq<string>)
    requires p <= |doc|
    ensures PutIn(doc, p, block, Splice(doc, p, WithNewline(block, Newline(doc))))
  {
    hide Newline, WithNewline, Terminated, Ready;
    var ready, lines := Terminated(doc, p), WithNewline(block, Newline(doc));
    ReadyLines(doc, p);
    ThreePieces(ready[..p], lines, ready[p..]);
    ReadyIn(doc, p, ready, ready[..p] + lines + ready[p..]);
  }

  /** The same lines, the one before the position terminated. */
  ghost predicate Ready(doc: seq<Line>, p: nat, ready: seq<Line>) {
    && p <= |doc| == |ready| && ready[p..] == doc[p..]
    && forall i :: 0 <= i < p ==>
         && ready[i].body == doc[i].body
         && ready[i].end == if i == p - 1 && doc[i].end == "" then Newline(doc) else doc[i].end
  }

  lemma ReadyLines(doc: seq<Line>, p: nat)
    requires p <= |doc|
    ensures Ready(doc, p, Terminated(doc, p))
  {
    hide Newline;
  }

  lemma ReadyIn(doc: seq<Line>, p: nat, ready: seq<Line>, after: seq<Line>)
    requires Ready(doc, p, ready) && p <= |after| && after[..p] == ready[..p]
    ensures forall i :: 0 <= i < p ==>
      && after[i].body == doc[i].body
      && after[i].end == if i == p - 1 && doc[i].end == "" then Newline(doc) else doc[i].end
    ensures ready[p..] == doc[p..]
  {
    hide Newline;
    forall i | 0 <= i < p ensures after[i] == ready[i] {
      assert after[..p][i] == ready[..p][i];
    }
  }

  lemma ThreePieces<T>(a: seq<T>, b: seq<T>, c: seq<T>)
    ensures var all := a + b + c;
      all[..|a|] == a && all[|a|..|a| + |b|] == b && all[|a| + |b|..] == c
  {
  }

  lemma {:induction false} LaterBelongs(lines: seq<string>, k: nat, order: nat)
    requires k < order <= 6 && forall m :: k < m < order ==> !HasSection(lines, SECTIONS[m])
    ensures Belongs(lines, k, LaterHeader(lines, order))
    decreases 6 - order
  {
    hide HasSection, HeaderAt;
    if order < 6 && !HasSection(lines, SECTIONS[order]) {
      LaterBelongs(lines, k, order + 1);
    }
  }

  lemma OrderIs(k: nat)
    requires k < 6
    ensures SECTIONS[k] in SECTIONS && OrderOf(SECTIONS[k]) == k
  {
    assert forall i, j :: 0 <= i < j < 6 ==> SECTIONS[i] != SECTIONS[j];
  }

  lemma BlockIs(k: nat, newline: string)
    requires k < 6
    ensures BlockOf(SECTIONS[k], newline) == WithNewline(BLOCKS[k], newline)
  {
    var name := SECTIONS[k];
    var block := WithNewline(BLOCKS[k], newline);
    assert block[0].body == "### " + Titled(name) && block[1].body == "" by {
      HeaderWords(k);
    }
    if k == 2 {
      assert name == "macros" && block == [block[0], block[1], block[2], block[3]];
    } else if k == 4 {
      assert name == "workout" && block == [block[0], block[1], block[2], block[3]];
    } else {
      assert name != "macros" && name != "workout" && block == [block[0], block[1]];
    }
  }

  lemma HeaderWords(k: nat)
    requires k < 6
    ensures BLOCKS[k][0] == "### " + Titled(SECTIONS[k]) && BLOCKS[k][1] == ""
  {
    hide Titled;
    Capitals();
  }

  lemma Capitals()
    ensures Titled("tasks") == "Tasks" && Titled("habits") == "Habits" && Titled("macros") == "Macros"
    ensures Titled("weight") == "Weight" && Titled("workout") == "Workout" && Titled("notes") == "Notes"
  {
    Capital("tasks", 'T');
    Capital("habits", 'H');
    Capital("macros", 'M');
    Capital("weight", 'W');
    Capital("workout", 'W');
    Capital("notes", 'N');
  }

  lemma Capital(name: string, c: char)
    requires name != "" && UpperChar(name[0]) == c
    ensures Titled(name) == [c] + name[1..]
  {
  }
}
