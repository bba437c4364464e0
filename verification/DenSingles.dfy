/** The two single values of a day: `set_weight` and `set_split`. What is written is what is read, whether the
    section was missing, empty or over-filled, and the lifts below a split are read as before. */
module DenSingles {
  import opened Prelude
  import opened DenText
  import opened DenLines
  import opened DenSections
  import opened DenEdits
  import opened DenRows

  // ---- reading a weight ----

  predicate Digit(c: char) { '0' <= c <= '9' }

  function DigitsEnd(s: string, from: nat): (k: nat)
    requires from <= |s|
    ensures from <= k <= |s|
    ensures forall i :: from <= i < k ==> Digit(s[i])
    ensures k < |s| ==> !Digit(s[k])
    decreases |s| - from
  {
    if from == |s| || !Digit(s[from]) then from else DigitsEnd(s, from + 1)
  }

  /** How much of a string is a decimal number; zero if none. */
  function NumberEnd(s: string): (k: nat)
    ensures k <= |s|
  {
    var whole := DigitsEnd(s, 0);
    if whole > 0 && whole < |s| && s[whole] == '.' && DigitsEnd(s, whole + 1) > whole + 1
    then DigitsEnd(s, whole + 1) else whole
  }

  predicate Number(s: string) { s != "" && NumberEnd(s) == |s| }

  /** `_KILOS`: a number, blanks, and `kg` in either case. */
  function Kilos(s: string): Option<string> {
    var k := NumberEnd(s);
    if k > 0 && Lower(s[Skip(s, k)..]) == "kg" then Some(s[..k]) else None
  }

  function Filled(lines: seq<string>): seq<string> {
    if lines == [] then []
    else (if Strip(lines[0]) == "" then [] else [Strip(lines[0])]) + Filled(lines[1..])
  }

  /** `_parse_weight`: the one filled line of the section, if it is a weight. */
  function ParseWeight(lines: seq<string>): Option<string> {
    var values := Filled(lines);
    if |values| != 1 then None else Kilos(values[0])
  }

  // ---- writing a weight ----

  function FirstFilled(lines: seq<string>, from: nat): (k: nat)
    requires from <= |lines|
    ensures from <= k <= |lines|
    ensures forall i :: from <= i < k ==> Strip(lines[i]) == ""
    ensures k < |lines| ==> Strip(lines[k]) != ""
    decreases |lines| - from
  {
    if from == |lines| || Strip(lines[from]) != "" then from else FirstFilled(lines, from + 1)
  }

  function Blanks(doc: seq<Line>): seq<Line> {
    if doc == [] then [] else (if Strip(doc[0].body) == "" then [doc[0]] else []) + Blanks(doc[1..])
  }

  /** The lines `set_weight` leaves once the section is there. */
  function WeightSet(doc: seq<Line>, written: string): seq<Line>
    requires HasSection(Bodies(doc), "weight")
  {
    var (start, end) := Region(Bodies(doc), "weight");
    var f := start + FirstFilled(Bodies(doc)[start..end], 0);
    if f == end then Splice(doc, start, [Line("", Newline(doc)), Line(written, Newline(doc))])
    else doc[..f] + [Line(written, Newline(doc))] + Blanks(doc[f + 1..end]) + doc[end..]
  }

  function SetWeight(text: string, value: string): string {
    var doc := Ensured(Split(text), "weight");
    EnsuredHas(Split(text), "weight");
    Join(WeightSet(doc, value + " kg"))
  }

  lemma NumberReads(value: string)
    requires Number(value)
    ensures var written := value + " kg";
      && Strip(written) == written && Kilos(written) == Some(value)
      && HeaderName(written).None? && TitleOf(written).None? && Unbroken(written)
  {
    var written := value + " kg";
    NumberChars(value);
    assert written[0] == value[0] && written[|written| - 1] == 'g';
    StripSolid(written);
    NoHeader(written);
    NumberExtends(value, " kg");
    assert written[|value|] == ' ' && written[|value| + 1] == 'k';
    assert Skip(written, |value|) == |value| + 1;
    assert written[|value| + 1..] == "kg" && Lower("kg") == "kg";
    assert written[..|value|] == value;
    forall i | 0 <= i < |written| ensures !Break(written[i]) {
      assert i >= |value| ==> written[i] == " kg"[i - |value|];
    }
  }

  lemma NumberChars(value: string)
    requires Number(value)
    ensures forall i :: 0 <= i < |value| ==> Digit(value[i]) || value[i] == '.'
    ensures Digit(value[0])
  {
  }

  lemma DigitsSame(s: string, more: string, from: nat)
    requires from <= |s| && (more == "" || !Digit(more[0]))
    ensures DigitsEnd(s + more, from) == DigitsEnd(s, from)
    decreases |s| - from
  {
    if from < |s| {
      assert (s + more)[from] == s[from];
      if Digit(s[from]) {
        DigitsSame(s, more, from + 1);
      }
    } else if more != "" {
      assert (s + more)[from] == more[0];
    }
  }

  lemma NumberExtends(value: string, more: string)
    requires Number(value) && more != "" && !Digit(more[0]) && more[0] != '.'
    ensures NumberEnd(value + more) == |value|
  {
    var whole := DigitsEnd(value, 0);
    var s := value + more;
    DigitsSame(value, more, 0);
    assert whole < |value| ==> s[whole] == value[whole];
    assert whole == |value| ==> s[whole] == more[0];
    if whole < |value| {
      DigitsSame(value, more, whole + 1);
    }
  }

  function BlankLines(lines: seq<string>): seq<string> {
    if lines == [] then [] else (if Strip(lines[0]) == "" then [lines[0]] else []) + BlankLines(lines[1..])
  }

  /** What becomes of the section's lines. */
  function Weighed(region: seq<string>, written: string): seq<string> {
    var f := FirstFilled(region, 0);
    if f == |region| then ["", written] + region else region[..f] + [written] + BlankLines(region[f + 1..])
  }

  lemma {:induction false} FilledSplit(a: seq<string>, b: seq<string>)
    ensures Filled(a + b) == Filled(a) + Filled(b)
    decreases |a|
  {
    hide Strip;
    if a == [] {
      assert a + b == b;
    } else {
      FilledSplit(a[1..], b);
      assert (a + b)[0] == a[0] && (a + b)[1..] == a[1..] + b;
      Associates(if Strip(a[0]) == "" then [] else [Strip(a[0])], Filled(a[1..]), Filled(b));
    }
  }

  lemma {:induction false} AllEmpty(lines: seq<string>)
    requires forall i :: 0 <= i < |lines| ==> Strip(lines[i]) == ""
    ensures Filled(lines) == []
  {
    hide Strip;
    if lines != [] {
      AllEmpty(lines[1..]);
    }
  }

  lemma {:induction false} BlankLinesEmpty(lines: seq<string>)
    ensures Filled(BlankLines(lines)) == []
    ensures NoHeaders(lines) ==> NoHeaders(BlankLines(lines))
    ensures NoTitles(lines) ==> NoTitles(BlankLines(lines))
  {
    hide Strip, HeaderName, TitleOf;
    if lines != [] {
      BlankLinesEmpty(lines[1..]);
      FilledSplit(if Strip(lines[0]) == "" then [lines[0]] else [], BlankLines(lines[1..]));
      assert NoHeaders(lines) ==> NoHeaders(lines[1..]);
      assert NoTitles(lines) ==> NoTitles(lines[1..]);
    }
  }

  /** Whatever the section held, it now holds one filled line. */
  lemma WeighedHoldsOne(region: seq<string>, written: string)
    requires Strip(written) == written && written != ""
    ensures Filled(Weighed(region, written)) == [written]
    ensures NoHeaders(region) && HeaderName(written).None? ==> NoHeaders(Weighed(region, written))
    ensures NoTitles(region) && TitleOf(written).None? ==> NoTitles(Weighed(region, written))
  {
    hide HeaderName, TitleOf, Filled, BlankLines, FirstFilled;
    var f := FirstFilled(region, 0);
    NoHeader("");
    assert Filled([written]) == [written] by { OneFilled(written); }
    if f == |region| {
      AllEmpty(region);
      assert Strip("") == "";
      AllEmpty([""]);
      FilledSplit(["", written], region);
      FilledSplit([""], [written]);
      assert [""] + [written] == ["", written];
    } else {
      AllEmpty(region[..f]);
      BlankLinesEmpty(region[f + 1..]);
      FilledSplit(region[..f] + [written], BlankLines(region[f + 1..]));
      FilledSplit(region[..f], [written]);
    }
  }

  lemma OneFilled(written: string)
    requires Strip(written) == written && written != ""
    ensures Filled([written]) == [written]
  {
    assert [written][1..] == [];
  }

  lemma {:induction false} BlankBodies(doc: seq<Line>)
    ensures Bodies(Blanks(doc)) == BlankLines(Bodies(doc))
    decreases |doc|
  {
    hide Strip;
    if doc != [] {
      BlankBodies(doc[1..]);
      assert Bodies(doc)[1..] == Bodies(doc[1..]);
      BodiesSplit([doc[0]], Blanks(doc[1..]));
    }
  }

  lemma WeightSetBodies(doc: seq<Line>, written: string)
    requires HasSection(Bodies(doc), "weight")
    ensures var lines := Bodies(doc);
      var (start, end) := Region(lines, "weight");
      Bodies(WeightSet(doc, written)) == lines[..start] + Weighed(lines[start..end], written) + lines[end..]
  {
    hide HasSection, HeaderName, Blanks, BlankLines, FirstFilled, Bodies, Splice, Strip;
    var lines := Bodies(doc);
    var (start, end) := Region(lines, "weight");
    var f := start + FirstFilled(lines[start..end], 0);
    var nl := Newline(doc);
    if f == end {
      SpliceBodies(doc, start, [Line("", nl), Line(written, nl)]);
      TwoBodies("", written, nl);
      PutFirst(lines, start, end, ["", written]);
    } else {
      BlankBodies(doc[f + 1..end]);
      FourBodies(doc, f, end, [Line(written, nl)], Blanks(doc[f + 1..end]));
      OneBody(written, nl);
      Regrouped(lines, start, f, end, [written], BlankLines(lines[f + 1..end]));
    }
  }

  lemma PutFirst(lines: seq<string>, start: nat, end: nat, added: seq<string>)
    requires start <= end <= |lines|
    ensures lines[..start] + added + lines[start..] == lines[..start] + (added + lines[start..end]) + lines[end..]
  {
    assert lines[start..] == lines[start..end] + lines[end..];
  }

  lemma OneBody(a: string, nl: string)
    ensures Bodies([Line(a, nl)]) == [a]
  {
  }

  lemma TwoBodies(a: string, b: string, nl: string)
    ensures Bodies([Line(a, nl), Line(b, nl)]) == [a, b]
  {
  }

  lemma {:induction false} BlanksTidy(doc: seq<Line>)
    requires Tidy(doc)
    ensures Tidy(Blanks(doc))
    ensures AllFit(doc) ==> AllFit(Blanks(doc))
    decreases |doc|
  {
    hide Fits, Unended, Strip;
    if doc != [] {
      BlanksTidy(doc[1..]);
      assert |doc| == 1 ==> Blanks(doc[1..]) == [];
    }
  }

  /** What is read after the weight is written is what was written, but for empty lines of its section. */
  lemma WeightSetReads(doc: seq<Line>, written: string)
    requires Whole(doc) && HasSection(Bodies(doc), "weight") && Single(Bodies(doc), "weight")
    requires Unbroken(written) && HeaderName(written).None?
    ensures ReadsAs(LinesOf(Join(WeightSet(doc, written))), Bodies(WeightSet(doc, written)), "weight")
  {
    hide Fits, Unended, Unbroken, HasSection, Single, HeaderName, FirstFilled, Splice, ReadsAs, Join, LinesOf, Whole;
    var (start, end) := Region(Bodies(doc), "weight");
    var f := start + FirstFilled(Bodies(doc)[start..end], 0);
    var nl := Newline(doc);
    NewlineFits(doc, written);
    if f == end {
      EmptyLine();
      NewlineFits(doc, "");
      NoHeader("");
      TwoBodies("", written, nl);
      SpliceReads(doc, "weight", start, [Line("", nl), Line(written, nl)]);
    } else {
      OverwriteReads(doc, f, Line(written, nl));
    }
  }

  lemma OverwriteReads(doc: seq<Line>, f: nat, line: Line)
    requires Whole(doc) && HasSection(Bodies(doc), "weight") && Single(Bodies(doc), "weight")
    requires Region(Bodies(doc), "weight").0 <= f < Region(Bodies(doc), "weight").1
    requires Fits(line) && HeaderName(line.body).None?
    ensures var end := Region(Bodies(doc), "weight").1;
      var after := doc[..f] + [line] + Blanks(doc[f + 1..end]) + doc[end..];
      ReadsAs(LinesOf(Join(after)), Bodies(after), "weight")
  {
    hide Fits, Unended, HasSection, Single, HeaderName, ReadsAs, Join, LinesOf, Blanks, Tidy, AllFit, Seamless, Bodies;
    hide NoHeaders;
    var (start, end) := Region(Bodies(doc), "weight");
    var left := Blanks(doc[f + 1..end]);
    var body := doc[start..f] + [line] + left;
    WholeTidy(doc);
    OverwriteTidy(doc, f, end, line);
    FrontOf(doc, start, start);
    assert doc[..f] == doc[..start] + doc[start..f];
    MiddleThree(doc[..start], doc[start..f], [line], left, doc[end..]);
    OverwrittenPlain(doc, start, f, end, line);
    RegionReads(doc, doc[..f] + [line] + left + doc[end..], "weight", doc[..start], body);
  }

  lemma OverwriteTidy(doc: seq<Line>, f: nat, end: nat, line: Line)
    requires Tidy(doc) && f < end <= |doc| && Fits(line)
    ensures Tidy(doc[..f] + [line] + Blanks(doc[f + 1..end]) + doc[end..])
  {
    hide Fits, Unended, Blanks, Tidy, AllFit;
    var left := Blanks(doc[f + 1..end]);
    TidyFront(doc, f);
    TidyRest(doc, f + 1, end);
    TidyRest(doc, end, |doc|);
    BlanksTidy(doc[f + 1..end]);
    TidyBack(left, doc[end..|doc|]);
    assert AllFit([line]) by { OneFits(line); }
    TidyConcat([line], left + doc[end..|doc|]);
    TidyConcat(doc[..f], [line] + (left + doc[end..|doc|]));
    assert doc[..f] + ([line] + (left + doc[end..|doc|])) == doc[..f] + [line] + left + doc[end..];
  }

  lemma OneFits(line: Line)
    requires Fits(line)
    ensures AllFit([line])
  {
  }

  lemma OverwrittenPlain(doc: seq<Line>, start: nat, f: nat, end: nat, line: Line)
    requires start <= f < end <= |doc| && NoHeaders(Bodies(doc)[start..end]) && HeaderName(line.body).None?
    ensures NoHeaders(Bodies(doc[start..f] + [line] + Blanks(doc[f + 1..end])))
  {
    hide HeaderName, Blanks, Bodies, NoHeaders, BlankLines, Strip;
    var lines := Bodies(doc);
    var left := BlankLines(lines[f + 1..end]);
    BodiesOf(doc, start, f);
    BodiesOf(doc, f + 1, end);
    BlankBodies(doc[f + 1..end]);
    ThreeBodies(doc[start..f], [line], Blanks(doc[f + 1..end]));
    OneLinePlain(line);
    PartsPlain(lines, start, f, end);
    BlankLinesEmpty(lines[f + 1..end]);
    PlainParts(lines[start..f], Bodies([line]));
    PlainParts(lines[start..f] + Bodies([line]), left);
  }

  lemma PartsPlain(lines: seq<string>, start: nat, f: nat, end: nat)
    requires start <= f < end <= |lines| && NoHeaders(lines[start..end])
    ensures NoHeaders(lines[start..f]) && NoHeaders(lines[f + 1..end])
  {
    hide HeaderName;
    assert lines[start..end] == lines[start..f] + ([lines[f]] + lines[f + 1..end]);
    PlainParts(lines[start..f], [lines[f]] + lines[f + 1..end]);
    PlainParts([lines[f]], lines[f + 1..end]);
  }

  lemma OneLinePlain(line: Line)
    requires HeaderName(line.body).None?
    ensures NoHeaders(Bodies([line]))
  {
    hide HeaderName;
  }

  /** One section rewritten, on lines that the text splits into. */
  lemma RegionRewritten(doc: seq<Line>, after: seq<Line>, name: string, body: seq<string>)
    requires name in SECTIONS && HasSection(Bodies(doc), name) && Single(Bodies(doc), name) && NoHeaders(body)
    requires var (start, end) := Region(Bodies(doc), name);
      Bodies(after) == Bodies(doc)[..start] + body + Bodies(doc)[end..]
    ensures Section(Bodies(after), name) == body
    ensures forall other :: other != name ==> Section(Bodies(after), other) == Section(Bodies(doc), other)
    ensures NoTitles(body) && NoTitles(Section(Bodies(doc), name)) ==> Title(Bodies(after)) == Title(Bodies(doc))
  {
    hide HasSection, Single, Section, Title, HeaderName, TitleOf;
    var lines := Bodies(doc);
    var (start, end) := Region(lines, name);
    ReplaceRegion(lines, name, body);
    RegionIsSection(lines, name);
    if NoTitles(body) && NoTitles(lines[start..end]) {
      TitleKept(lines[..start], body, lines[start..end], lines[end..]);
      assert lines == lines[..start] + lines[start..end] + lines[end..];
    }
  }

  /** The same text apart from one section. */
  ghost predicate OnlySection(before: string, after: string, name: string) {
    && (forall other :: other != name ==> Section(LinesOf(after), other) == Section(LinesOf(before), other))
    && (NoTitles(Section(LinesOf(before), name)) ==> Title(LinesOf(after)) == Title(LinesOf(before)))
  }

  /** Empty lines are not filled. */
  lemma {:induction false} InkFilled(lines: seq<string>)
    ensures Filled(Inked(lines)) == Filled(lines)
  {
    hide Strip;
    if lines != [] {
      InkFilled(lines[1..]);
      EmptyStrips();
      if lines[0] == "" {
        assert Inked(lines) == Inked(lines[1..]);
      } else {
        assert Inked(lines)[0] == lines[0] && Inked(lines)[1..] == Inked(lines[1..]);
      }
    }
  }

  /** The weight that was written is the weight that is read, whatever was there. */
  lemma SetWeightReads(text: string, value: string)
    requires Single(LinesOf(text), "weight") && Number(value)
    ensures var after := SetWeight(text, value);
      && ParseWeight(Section(LinesOf(after), "weight")) == Some(value)
      && OnlySection(text, after, "weight")
  {
    hide HasSection, Single, Section, Title, HeaderName, TitleOf, Split, Join, Ensured, WeightSet, Whole;
    hide Weighed, Number;
    hide Kilos, Unbroken, Filled, Inked;
    var doc := Split(text);
    var ready := Ensured(doc, "weight");
    var written := value + " kg";
    SplitWhole(text);
    EnsuredHas(doc, "weight");
    EnsuredKeeps(doc, "weight");
    NumberReads(value);
    var (start, end) := Region(Bodies(ready), "weight");
    var region := Bodies(ready)[start..end];
    RegionIsSection(Bodies(ready), "weight");
    WeightSetBodies(ready, written);
    WeightSetReads(ready, written);
    WeighedHoldsOne(region, written);
    RegionRewritten(ready, WeightSet(ready, written), "weight", Weighed(region, written));
    InkFilled(Section(LinesOf(SetWeight(text, value)), "weight"));
    InkFilled(Weighed(region, written));
    EnsuredTitles(doc, "weight");
  }

  /** A section that was put back holds no title. */
  lemma EnsuredTitles(doc: seq<Line>, name: string)
    requires name in SECTIONS && Whole(doc)
    ensures NoTitles(Section(Bodies(doc), name)) ==> NoTitles(Section(Bodies(Ensured(doc, name)), name))
  {
    hide HasSection, Single, Section, Title, HeaderName, TitleOf, Ensured, Whole, BlockOf, Unbroken;
    EnsuredKeeps(doc, name);
    BlockReads(name, Newline(doc));
  }

  // ---- the split over a table of sets ----

  /** A line that is neither blank, nor the table's header, nor a row of it. */
  predicate Candidate(line: string) {
    var bare := Strip(line);
    bare != "" && !(Heading("workout") <= bare) && Cells(line, "workout").None?
  }

  function FirstCandidate(lines: seq<string>, from: nat): (k: nat)
    requires from <= |lines|
    ensures from <= k <= |lines|
    decreases |lines| - from
  {
    if from == |lines| || Candidate(lines[from]) then from else FirstCandidate(lines, from + 1)
  }

  lemma FirstIsCandidate(lines: seq<string>, from: nat)
    requires from <= |lines|
    ensures var k := FirstCandidate(lines, from);
      (forall i :: from <= i < k ==> !Candidate(lines[i])) && (k < |lines| ==> Candidate(lines[k]))
    decreases |lines| - from
  {
    hide Candidate;
    if from < |lines| && !Candidate(lines[from]) {
      FirstIsCandidate(lines, from + 1);
    }
  }

  /** `_parse_split`. */
  function ParseSplit(lines: seq<string>): string {
    var k := FirstCandidate(lines, 0);
    if k < |lines| then Strip(lines[k]) else ""
  }

  /** The raw insertion: the line before it is not terminated first. */
  function SplitSet(doc: seq<Line>, value: string): seq<Line>
    requires HasSection(Bodies(doc), "workout")
  {
    var (start, end) := Region(Bodies(doc), "workout");
    var k := start + FirstCandidate(Bodies(doc)[start..end], 0);
    var nl := Newline(doc);
    if k < end then doc[k := Line(value, nl)]
    else doc[..start] + [Line("", nl), Line(value, nl)] + doc[start..]
  }

  function SetSplit(text: string, value: string): string {
    var doc := Ensured(Split(text), "workout");
    EnsuredHas(Split(text), "workout");
    Join(SplitSet(doc, value))
  }

  /** What `normalize_split` lets through. */
  predicate SplitName(value: string) {
    && value != "" && Strip(value) == value && Unbroken(value) && ',' !in value
    && HeaderName(value).None? && TitleOf(value).None?
  }

  lemma {:induction false} NoComma(s: string)
    requires ',' !in s
    ensures |SplitCommas(s)| == 1
  {
    if s != "" {
      NoComma(s[1..]);
    }
  }

  lemma PrefixMembers(prefix: string, s: string)
    ensures prefix <= s ==> forall c :: c in prefix ==> c in s
  {
  }

  lemma NameIsCandidate(value: string)
    requires SplitName(value)
    ensures Candidate(value) && Cells(value, "workout").None?
  {
    NoComma(value);
    assert Heading("workout")[8] == ',';
    PrefixMembers(Heading("workout"), value);
  }

  lemma CandidateFound(lines: seq<string>, k: nat)
    requires k < |lines| && Candidate(lines[k]) && forall i :: 0 <= i < k ==> !Candidate(lines[i])
    ensures ParseSplit(lines) == Strip(lines[k])
  {
    hide Candidate;
    FirstIsCandidate(lines, 0);
  }

  lemma BlankIsNothing(s: string)
    requires Strip(s) == ""
    ensures !Candidate(s) && Cells(s, "workout").None?
  {
  }

  /** One candidate line replaced by the name, or the name put first. */
  lemma NameReplaces(region: seq<string>, value: string)
    requires SplitName(value)
    ensures var k := FirstCandidate(region, 0);
      var after := if k < |region| then region[..k] + [value] + region[k + 1..] else ["", value] + region;
      ParseSplit(after) == value && TableRows(after, "workout") == TableRows(region, "workout")
    ensures ParseSplit([value]) == value && TableRows([value], "workout") == []
  {
    hide Candidate, Cells, TableRows, ParseSplit, FirstCandidate, SplitName, Strip;
    var k := FirstCandidate(region, 0);
    FirstIsCandidate(region, 0);
    NameIsCandidate(value);
    NameStrips(value);
    OneRow(value, "workout");
    CandidateFound([value], 0);
    if k < |region| {
      var after := region[..k] + [value] + region[k + 1..];
      CandidateFound(after, k);
      CandidateNoRow(region[k]);
      OneRow(region[k], "workout");
      TableAround(region[..k], value, region[k + 1..]);
      TableAround(region[..k], region[k], region[k + 1..]);
      assert region == region[..k] + [region[k]] + region[k + 1..];
    } else {
      var after := ["", value] + region;
      EmptyStrips();
      BlankIsNothing("");
      OneRow("", "workout");
      CandidateFound(after, 1);
      TableAround([""], value, region);
      TableSplit([""], region, "workout");
      assert [""] + [value] + region == after;
    }
  }

  lemma NameStrips(value: string)
    requires SplitName(value)
    ensures Strip(value) == value
  {
  }

  lemma EmptyStrips()
    ensures Strip("") == ""
  {
  }

  lemma CandidateNoRow(line: string)
    requires Candidate(line)
    ensures Cells(line, "workout").None?
  {
  }

  lemma TableAround(a: seq<string>, line: string, b: seq<string>)
    requires TableRows([line], "workout") == []
    ensures TableRows(a + [line] + b, "workout") == TableRows(a, "workout") + TableRows(b, "workout")
  {
    hide TableRows;
    TableSplit(a + [line], b, "workout");
    TableSplit(a, [line], "workout");
  }

  // ---- the text ----

  /** The file's last line is the section's header, without a terminator. */
  predicate HeaderIsLast(doc: seq<Line>, start: nat) {
    start == |doc| && doc != [] && doc[start - 1].end == ""
  }

  lemma {:induction false} JoinConcat(a: seq<Line>, b: seq<Line>)
    ensures Join(a + b) == Join(a) + Join(b)
    decreases |a|
  {
    if a == [] {
      assert a + b == b;
    } else {
      JoinConcat(a[1..], b);
      assert (a + b)[1..] == a[1..] + b;
    }
  }

  /** The blank line that is inserted becomes the terminator the header was missing. */
  lemma HeaderTerminated(doc: seq<Line>, value: string)
    requires doc != [] && doc[|doc| - 1].end == ""
    ensures var nl := Newline(doc);
      Join(doc + [Line("", nl), Line(value, nl)]) == Join(Terminated(doc, |doc|) + [Line(value, nl)])
  {
    hide Join, Newline;
    var nl := Newline(doc);
    var front, header := doc[..|doc| - 1], doc[|doc| - 1];
    JoinConcat(front, [header, Line("", nl), Line(value, nl)]);
    JoinConcat(front, [Line(header.body, nl), Line(value, nl)]);
    LastApart(doc, header, [Line("", nl), Line(value, nl)]);
    TerminatedLast(doc);
    LastApart(Terminated(doc, |doc|), Line(header.body, nl), [Line(value, nl)]);
    assert header == Line(header.body, "");
    JoinThree(header.body, value, nl);
    Grouped(header, Line("", nl), Line(value, nl));
    Grouped(Line(header.body, nl), Line(value, nl), Line("", ""));
  }

  lemma TerminatedLast(doc: seq<Line>)
    requires doc != [] && doc[|doc| - 1].end == ""
    ensures var ready := Terminated(doc, |doc|);
      ready[..|doc| - 1] == doc[..|doc| - 1] && ready[|doc| - 1] == Line(doc[|doc| - 1].body, Newline(doc))
  {
    hide Newline;
  }

  lemma Grouped(a: Line, b: Line, c: Line)
    ensures [a] + [b, c] == [a, b, c] && [a] + [b] == [a, b]
  {
  }

  lemma LastApart(doc: seq<Line>, last: Line, more: seq<Line>)
    requires doc != [] && doc[|doc| - 1] == last
    ensures doc + more == doc[..|doc| - 1] + ([last] + more)
  {
  }

  lemma JoinThree(header: string, value: string, nl: string)
    ensures Join([Line(header, ""), Line("", nl), Line(value, nl)]) == Join([Line(header, nl), Line(value, nl)])
  {
    var a, b, c := Line(header, ""), Line("", nl), Line(value, nl);
    assert [a, b, c][1..] == [b, c] && [b, c][1..] == [c] && [c][1..] == [];
    assert [Line(header, nl), c][1..] == [c];
    assert Join([c]) == value + nl;
    assert Join([b, c]) == nl + (value + nl);
    assert Join([a, b, c]) == header + (nl + (value + nl));
    assert Join([Line(header, nl), c]) == header + nl + (value + nl);
  }

  /** The lines the text of `set_split` splits into. */
  function SplitLines(doc: seq<Line>, value: string): seq<Line>
    requires HasSection(Bodies(doc), "workout")
  {
    if HeaderIsLast(doc, Region(Bodies(doc), "workout").0)
    then Terminated(doc, |doc|) + [Line(value, Newline(doc))]
    else SplitSet(doc, value)
  }

  lemma SplitLinesJoin(doc: seq<Line>, value: string)
    requires HasSection(Bodies(doc), "workout")
    ensures Join(SplitLines(doc, value)) == Join(SplitSet(doc, value))
  {
    hide HasSection, HeaderName, Join, Terminated, FirstCandidate;
    if HeaderIsLast(doc, Region(Bodies(doc), "workout").0) {
      HeaderTerminated(doc, value);
      assert doc[..|doc|] == doc && doc[|doc|..] == [];
      var nl := Newline(doc);
      assert doc[..|doc|] + [Line("", nl), Line(value, nl)] + doc[|doc|..] == doc + [Line("", nl), Line(value, nl)];
    }
  }

  lemma UpdateTidy(doc: seq<Line>, k: nat, line: Line)
    requires Tidy(doc) && k < |doc| && Fits(line)
    ensures Tidy(doc[k := line])
    ensures Bodies(doc[k := line]) == Bodies(doc)[k := line.body]
  {
    hide Fits, Unended;
  }

  lemma EndedSplice(doc: seq<Line>, start: nat, block: seq<Line>)
    requires start <= |doc| && (start > 0 ==> doc[start - 1].end != "")
    ensures Splice(doc, start, block) == doc[..start] + block + doc[start..]
  {
  }

  lemma HeaderEnded(doc: seq<Line>, start: nat)
    requires Tidy(doc) && 0 < start <= |doc| && !HeaderIsLast(doc, start)
    ensures doc[start - 1].end != ""
  {
    hide Unbroken;
  }

  /** What is put into the section, unless a line of it is written over. */
  function NameBlock(doc: seq<Line>, start: nat, value: string): seq<Line> {
    var nl := Newline(doc);
    if HeaderIsLast(doc, start) then [Line(value, nl)] else [Line("", nl), Line(value, nl)]
  }

  /** The written lines, in the terms of the two ways to write a region. */
  lemma SplitLinesAre(doc: seq<Line>, value: string)
    requires Whole(doc) && HasSection(Bodies(doc), "workout")
    ensures var (start, end) := Region(Bodies(doc), "workout");
      var k := start + FirstCandidate(Bodies(doc)[start..end], 0);
      SplitLines(doc, value) == if k < end then doc[k := Line(value, Newline(doc))]
                                else Splice(doc, start, NameBlock(doc, start, value))
  {
    hide HasSection, HeaderName, FirstCandidate, Seamless;
    var (start, end) := Region(Bodies(doc), "workout");
    if HeaderIsLast(doc, start) {
      assert Terminated(doc, start)[..start] == Terminated(doc, start);
    } else if start + FirstCandidate(Bodies(doc)[start..end], 0) == end {
      HeaderEnded(doc, start);
      EndedSplice(doc, start, NameBlock(doc, start, value));
    }
  }

  /** Where the written lines stand among the ones that were there. */
  lemma SplitLinesRead(doc: seq<Line>, value: string)
    requires Whole(doc) && HasSection(Bodies(doc), "workout") && Unbroken(value)
    ensures var lines := Bodies(doc);
      var (start, end) := Region(lines, "workout");
      Bodies(SplitLines(doc, value)) == lines[..start] + SplitBody(doc, start, lines[start..end], value) + lines[end..]
  {
    hide Fits, Unended, Unbroken, HasSection, HeaderName, FirstCandidate, Terminated, Splice, Tidy, Bodies, SplitLines;
    hide Seamless;
    var lines := Bodies(doc);
    var (start, end) := Region(lines, "workout");
    var k := start + FirstCandidate(lines[start..end], 0);
    var nl := Newline(doc);
    SplitLinesAre(doc, value);
    if k < end {
      NewlineFits(doc, value);
      WholeTidy(doc);
      UpdateTidy(doc, k, Line(value, nl));
      Updated(lines, start, k, end, value);
    } else {
      SpliceBodies(doc, start, NameBlock(doc, start, value));
      OneBody(value, nl);
      TwoBodies("", value, nl);
      PutFirst(lines, start, end, if HeaderIsLast(doc, start) then [value] else ["", value]);
      assert HeaderIsLast(doc, start) ==> lines[start..end] == [] && [value] + [] == [value];
    }
  }

  /** What is read after the name is written is what was written, but for empty lines of its section. */
  lemma SplitReadsAs(doc: seq<Line>, value: string)
    requires Whole(doc) && HasSection(Bodies(doc), "workout") && Single(Bodies(doc), "workout") && SplitName(value)
    ensures ReadsAs(LinesOf(Join(SplitLines(doc, value))), Bodies(SplitLines(doc, value)), "workout")
  {
    hide Fits, Unended, Unbroken, HasSection, Single, HeaderName, FirstCandidate, Splice, Tidy, Bodies, SplitLines;
    hide ReadsAs, LinesOf, Join, Seamless, Strip, TitleOf;
    var (start, end) := Region(Bodies(doc), "workout");
    var k := start + FirstCandidate(Bodies(doc)[start..end], 0);
    var nl := Newline(doc);
    SplitLinesAre(doc, value);
    NewlineFits(doc, value);
    if k < end {
      UpdateReads(doc, "workout", k, Line(value, nl));
    } else {
      EmptyLine();
      NewlineFits(doc, "");
      NoHeader("");
      OneBody(value, nl);
      TwoBodies("", value, nl);
      SpliceReads(doc, "workout", start, NameBlock(doc, start, value));
    }
  }

  /** One line of a region written over. */
  lemma UpdateReads(doc: seq<Line>, name: string, k: nat, line: Line)
    requires Whole(doc) && name in SECTIONS && HasSection(Bodies(doc), name) && Single(Bodies(doc), name)
    requires Region(Bodies(doc), name).0 <= k < Region(Bodies(doc), name).1
    requires Fits(line) && HeaderName(line.body).None?
    ensures ReadsAs(LinesOf(Join(doc[k := line])), Bodies(doc[k := line]), name)
  {
    hide Fits, Unended, HasSection, Single, HeaderName, Tidy, Bodies, ReadsAs, LinesOf, Join, Seamless, NoHeaders;
    var (start, end) := Region(Bodies(doc), name);
    var body := doc[start..end][k - start := line];
    WholeTidy(doc);
    UpdateTidy(doc, k, line);
    FrontOf(doc, start, start);
    UpdatePlain(doc, start, k, end, line);
    assert doc[k := line] == doc[..start] + body + doc[end..];
    RegionReads(doc, doc[k := line], name, doc[..start], body);
  }

  lemma UpdatePlain(doc: seq<Line>, start: nat, k: nat, end: nat, line: Line)
    requires start <= k < end <= |doc| && NoHeaders(Bodies(doc)[start..end]) && HeaderName(line.body).None?
    ensures NoHeaders(Bodies(doc[start..end][k - start := line]))
  {
    hide HeaderName;
    var body := doc[start..end][k - start := line];
    forall i | 0 <= i < |body| ensures HeaderName(Bodies(body)[i]).None? {
      assert i != k - start ==> Bodies(body)[i] == Bodies(doc)[start..end][i];
    }
  }

  lemma Updated(lines: seq<string>, start: nat, k: nat, end: nat, value: string)
    requires start <= k < end <= |lines|
    ensures var region := lines[start..end];
      lines[k := value] == lines[..start] + (region[..k - start] + [value] + region[k - start + 1..]) + lines[end..]
  {
  }

  /** What becomes of the section's lines. */
  function SplitBody(doc: seq<Line>, start: nat, region: seq<string>, value: string): seq<string> {
    var k := FirstCandidate(region, 0);
    if HeaderIsLast(doc, start) then [value]
    else if k < |region| then region[..k] + [value] + region[k + 1..]
    else ["", value] + region
  }

  lemma SplitBodyPlain(doc: seq<Line>, start: nat, region: seq<string>, value: string)
    requires SplitName(value) && NoHeaders(region)
    ensures NoHeaders(SplitBody(doc, start, region, value))
    ensures NoTitles(region) ==> NoTitles(SplitBody(doc, start, region, value))
  {
    hide HeaderName, TitleOf, FirstCandidate, Strip, Unbroken;
    NoHeader("");
  }

  /** Empty lines are no candidates. */
  lemma {:induction false} InkSplitName(lines: seq<string>)
    ensures ParseSplit(Inked(lines)) == ParseSplit(lines)
  {
    hide Candidate, Strip;
    if lines != [] {
      InkSplitName(lines[1..]);
      EmptyStrips();
      BlankIsNothing("");
      SplitFirst(lines);
      if lines[0] == "" {
        assert Inked(lines) == Inked(lines[1..]);
      } else {
        SplitFirst(Inked(lines));
        assert Inked(lines)[0] == lines[0] && Inked(lines)[1..] == Inked(lines[1..]);
      }
    }
  }

  lemma SplitFirst(lines: seq<string>)
    requires lines != []
    ensures ParseSplit(lines) == if Candidate(lines[0]) then Strip(lines[0]) else ParseSplit(lines[1..])
  {
    hide Candidate, Strip;
    FirstIsCandidate(lines, 0);
    FirstIsCandidate(lines[1..], 0);
    var k := FirstCandidate(lines[1..], 0);
    if !Candidate(lines[0]) && k < |lines[1..]| {
      assert forall i :: 0 <= i < k + 1 ==> !Candidate(lines[i]);
      CandidateFound(lines, k + 1);
    }
  }

  /** The split that was written is the split that is read, and the lifts are read as before. */
  lemma SetSplitReads(text: string, value: string)
    requires Single(LinesOf(text), "workout") && SplitName(value)
    ensures var after := SetSplit(text, value);
      && ParseSplit(Section(LinesOf(after), "workout")) == value
      && TableRows(Section(LinesOf(after), "workout"), "workout")
         == TableRows(Section(LinesOf(text), "workout"), "workout")
      && OnlySection(text, after, "workout")
  {
    hide HasSection, Single, Section, Title, HeaderName, TitleOf, Split, Join, Ensured, SplitSet, SplitLines, Whole;
    hide SplitName, Unbroken, TableRows, ParseSplit, SplitBody, Inked;
    var doc := Split(text);
    var ready := Ensured(doc, "workout");
    SplitWhole(text);
    EnsuredHas(doc, "workout");
    EnsuredKeeps(doc, "workout");
    NameUnbroken(value);
    var (start, end) := Region(Bodies(ready), "workout");
    var region := Bodies(ready)[start..end];
    var body := SplitBody(ready, start, region, value);
    RegionIsSection(Bodies(ready), "workout");
    SplitLinesJoin(ready, value);
    SplitLinesRead(ready, value);
    SplitReadsAs(ready, value);
    SplitBodyPlain(ready, start, region, value);
    SplitBodyReads(ready, start, end, value);
    RegionRewritten(ready, SplitLines(ready, value), "workout", body);
    var read := Section(LinesOf(SetSplit(text, value)), "workout");
    InkSplitName(read);
    InkSplitName(body);
    InkTable(read, "workout");
    InkTable(body, "workout");
    EnsuredTitles(doc, "workout");
    EnsuredTable(doc);
  }

  lemma NameUnbroken(value: string)
    requires SplitName(value)
    ensures Unbroken(value)
  {
  }

  lemma SplitBodyReads(doc: seq<Line>, start: nat, end: nat, value: string)
    requires start <= end <= |doc| && SplitName(value)
    ensures var region := Bodies(doc)[start..end];
      && ParseSplit(SplitBody(doc, start, region, value)) == value
      && TableRows(SplitBody(doc, start, region, value), "workout") == TableRows(region, "workout")
  {
    hide SplitName, FirstCandidate, ParseSplit;
    var region := Bodies(doc)[start..end];
    NameReplaces(region, value);
    assert HeaderIsLast(doc, start) ==> region == [];
  }

  /** A table that was put back has no rows. */
  lemma EnsuredTable(doc: seq<Line>)
    requires Whole(doc)
    ensures TableRows(Section(Bodies(Ensured(doc, "workout")), "workout"), "workout")
         == TableRows(Section(Bodies(doc), "workout"), "workout")
  {
    hide Single, Section, Title, HeaderName, TitleOf, Whole, Cells, Ensured, HasSection, Newline;
    EnsuredKeeps(doc, "workout");
    if !HasSection(Bodies(doc), "workout") {
      EmptyTable(Newline(doc));
    }
  }

  lemma EmptyTable(nl: string)
    ensures TableRows(Bodies(BlockOf("workout", nl))[1..], "workout") == []
  {
    hide Cells;
    var lines := Bodies(BlockOf("workout", nl))[1..];
    assert lines == ["", LIFT_HEADER, ""];
    EmptyStrips();
    BlankIsNothing("");
    HeadingNoRow();
    OneRow("", "workout");
    OneRow(LIFT_HEADER, "workout");
    TableSplit([""] + [LIFT_HEADER], [""], "workout");
    TableSplit([""], [LIFT_HEADER], "workout");
    assert lines == [""] + [LIFT_HEADER] + [""];
  }

  lemma HeadingNoRow()
    ensures Cells(LIFT_HEADER, "workout").None?
  {
    StripSolid(LIFT_HEADER);
    assert Heading("workout") <= LIFT_HEADER;
  }
}
