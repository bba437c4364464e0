/** Tasks: adding, ticking and removing one agree with what the reader reads, and leave every other section and the
    title alone. The writer numbers boxes on terminated lines and the reader on bare ones, so they agree exactly when
    no line of the section is hollow. */
module DenTasks {
  import opened Prelude
  import opened DenText
  import opened DenLines
  import opened DenSections
  import opened DenEdits

  /** What a writer returns, or the error it raises. */
  datatype Edit = Written(text: string) | NoSection | NoSuchIndex | Invalid

  // ---- appending ----

  /** `_last`: the end of a region without its trailing blank lines. */
  function LastFilled(lines: seq<string>, start: nat, end: nat): (k: nat)
    requires start <= end <= |lines|
    ensures start <= k <= end
    ensures forall i :: k <= i < end ==> Strip(lines[i]) == ""
    ensures k > start ==> Strip(lines[k - 1]) != ""
  {
    if end == start || Strip(lines[end - 1]) != "" then end else LastFilled(lines, start, end - 1)
  }

  function AppendAt(lines: seq<string>, name: string): (p: nat)
    requires HasSection(lines, name)
    ensures Region(lines, name).0 <= p <= Region(lines, name).1
  {
    LastFilled(lines, Region(lines, name).0, Region(lines, name).1)
  }

  /** `_append`. */
  function Appended(doc: seq<Line>, name: string, value: string): seq<Line>
    requires HasSection(Bodies(doc), name)
  {
    Splice(doc, AppendAt(Bodies(doc), name), [Line(value, Newline(doc))])
  }

  /** A new last line of one section, before its trailing blanks; nothing else is read differently. */
  lemma AppendReads(doc: seq<Line>, name: string, value: string)
    requires Whole(doc) && name in SECTIONS
    requires HasSection(Bodies(doc), name) && Single(Bodies(doc), name)
    requires HeaderName(value).None? && TitleOf(value).None? && Unbroken(value)
    ensures var after := Appended(doc, name, value);
      var a, b := Bodies(doc), Bodies(after);
      var old' := Section(a, name);
      var k := AppendAt(a, name) - Region(a, name).0;
      && k <= |old'| && Section(b, name) == old'[..k] + [value] + old'[k..]
      && (forall i :: k <= i < |old'| ==> Strip(old'[i]) == "") && (k > 0 ==> Strip(old'[k - 1]) != "")
      && (forall other :: other != name ==> Section(b, other) == Section(a, other))
      && Title(b) == Title(a)
      && ReadsAs(LinesOf(Join(after)), b, name)
  {
    hide HeaderName, TitleOf, Unbroken, HasSection, Section, Title, Strip, Single, Splice, ReadsAs, LinesOf;
    hide Join, Whole;
    var a := Bodies(doc);
    var p := AppendAt(a, name);
    var block := [Line(value, Newline(doc))];
    NewlineFits(doc, value);
    SpliceBodies(doc, p, block);
    SpliceReads(doc, name, p, block);
    assert Bodies(block) == [value];
    InsertInRegion(a, name, p, value);
    RegionIsSection(a, name);
  }

  /** `_structure`: a line that would be read back as a heading. */
  predicate Structure(line: string) {
    var bare := Strip(line);
    || TitleOf(bare).Some? || HeaderName(bare).Some?
    || (|bare| > 5 && bare[..4] == "####" && Blank(bare[4]))
  }

  /** `one_line`. */
  function OneLine(text: string): Option<string> {
    var cleaned := Strip(text);
    if cleaned == "" || !Unbroken(cleaned) || Structure(cleaned) then None else Some(cleaned)
  }

  /** That many marks and a blank before more words. */
  predicate Heading(line: string, marks: nat) {
    |line| > marks + 1 && (forall i :: 0 <= i < marks ==> line[i] == '#') && Blank(line[marks])
  }

  /** What is refused: nothing at all, more than one line, and a heading of the first, third or fourth level. */
  lemma OneLineIff(text: string)
    ensures var words := Strip(text);
      && (OneLine(text).None? <==>
            || words == ""
            || (exists i :: 0 <= i < |words| && (words[i] == '\n' || words[i] == '\r'))
            || Heading(words, 1) || Heading(words, 3) || Heading(words, 4))
      && (OneLine(text).Some? ==> OneLine(text) == Some(words))
  {
    var words := Strip(text);
    var _, _ := StripParts(text);
    StripTwice(text);
    hide Strip;
    FirstMarks(words);
  }

  lemma FirstMarks(line: string)
    ensures |line| >= 3 ==> (line[..3] == "###" <==> line[0] == '#' && line[1] == '#' && line[2] == '#')
    ensures |line| >= 4 ==>
      (line[..4] == "####" <==> line[0] == '#' && line[1] == '#' && line[2] == '#' && line[3] == '#')
  {
  }

  const NEW_TASK := "- [ ] "

  function AddTask(text: string, item: string): Edit {
    match OneLine(item)
    case None => Invalid
    case Some(cleaned) =>
      var doc := Ensured(Split(text), "tasks");
      EnsuredHas(Split(text), "tasks");
      Written(Join(Appended(doc, "tasks", NEW_TASK + cleaned)))
  }

  /** The line a new task is written as is one open box with its words. */
  lemma TaskLineReads(item: string)
    requires Strip(item) == item && item != "" && Unbroken(item)
    ensures var line := NEW_TASK + item;
      && CheckMatch(line) == Some(Box(item, false))
      && HeaderName(line).None? && TitleOf(line).None? && Unbroken(line)
  {
    hide HeaderName, TitleOf, BoxAt, Strip;
    var line := NEW_TASK + item;
    var left, right := StripParts(item);
    assert line[0] == '-' && line[1] == ' ' && line[2] == '[' && line[3] == ' ' && line[4] == ']' && line[5] == ' ';
    assert line[6] == item[0];
    NoHeader(line);
    TaskBox(line);
    assert line[5..] == " " + item;
    StripLed(item);
    forall i | 0 <= i < |line| ensures !Break(line[i]) {
      assert i >= 6 ==> line[i] == item[i - 6];
    }
  }

  lemma TaskBox(line: string)
    requires |line| > 6 && line[0] == '-' && line[1] == ' ' && line[2] == '[' && line[3] == ' ' && line[4] == ']'
        && line[5] == ' '
    ensures BoxAt(line) == Some(2)
  {
    assert Skip(line, 1) == Skip(line, 2) == 2;
  }

  lemma BlankNoBox(s: string)
    requires Strip(s) == ""
    ensures CheckMatch(s).None?
  {
    var left, right := StripParts(s);
    assert s == left + right;
    SkipBlank(s, 0);
  }

  lemma {:induction false} BlanksNoBoxes(lines: seq<string>)
    requires forall i :: 0 <= i < |lines| ==> Strip(lines[i]) == ""
    ensures Boxes(lines) == []
  {
    hide Strip, CheckMatch;
    if lines != [] {
      BlanksNoBoxes(lines[..|lines| - 1]);
      BlankNoBox(lines[|lines| - 1]);
    }
  }

  // ---- adding a task ----

  /** What reads the same but for empty lines of the tasks is the same day. */
  lemma SameDay(b: seq<string>, c: seq<string>)
    requires ReadsAs(b, c, "tasks")
    ensures ParseLines(b) == ParseLines(c)
  {
    hide Section, Title, Boxes, Inked;
    InkBoxes(Section(b, "tasks"));
    InkBoxes(Section(c, "tasks"));
  }

  /** One line in the middle, and the boxes around it. */
  lemma BoxesAround(a: seq<string>, line: string, b: seq<string>)
    ensures Boxes(a + [line] + b)
         == Boxes(a) + (match CheckMatch(line) case None => [] case Some(box) => [box]) + Boxes(b)
  {
    hide CheckMatch, Boxes;
    BoxesSplit(a + [line], b);
    BoxesSplit(a, [line]);
    OneBox(line);
  }

  lemma BoxesAppended(a: seq<string>, line: string, b: seq<string>, box: Box)
    requires forall i :: 0 <= i < |b| ==> Strip(b[i]) == ""
    requires CheckMatch(line) == Some(box)
    ensures Boxes(a + [line] + b) == Boxes(a + b) + [box]
  {
    hide Strip, CheckMatch, Boxes;
    BlanksNoBoxes(b);
    BoxesAround(a, line, b);
    BoxesSplit(a, b);
  }

  lemma AppendTaskReads(doc: seq<Line>, item: string)
    requires Whole(doc) && HasSection(Bodies(doc), "tasks") && Single(Bodies(doc), "tasks")
    requires Strip(item) == item && item != "" && Unbroken(item)
    ensures var day := ParseLines(Bodies(doc));
      ParseText(Join(Appended(doc, "tasks", NEW_TASK + item))) == day.(tasks := day.tasks + [Box(item, false)])
  {
    hide HeaderName, TitleOf, CheckMatch, Strip, HasSection, Single, Section, Title, Unbroken, Boxes, Appended, Fits;
    hide LinesOf, ReadsAs, Join, Whole;
    var after := Appended(doc, "tasks", NEW_TASK + item);
    TaskLineReads(item);
    AppendReads(doc, "tasks", NEW_TASK + item);
    SameDay(LinesOf(Join(after)), Bodies(after));
    var region := Section(Bodies(doc), "tasks");
    var k := AppendAt(Bodies(doc), "tasks") - Region(Bodies(doc), "tasks").0;
    BoxesAppended(region[..k], NEW_TASK + item, region[k..], Box(item, false));
    assert region[..k] + region[k..] == region;
  }

  lemma EnsuredReads(doc: seq<Line>, name: string)
    requires name in SECTIONS && Whole(doc)
    ensures var after := Ensured(doc, name);
      && Boxes(Section(Bodies(after), name)) == Boxes(Section(Bodies(doc), name))
      && (forall other :: other != name ==> Section(Bodies(after), other) == Section(Bodies(doc), other))
      && Title(Bodies(after)) == Title(Bodies(doc))
  {
    hide HeaderName, TitleOf, Section, Title, Titled, Unbroken, HasSection, Single, Ensured, BlockOf;
    EnsuredKeeps(doc, name);
    BlockReads(name, Newline(doc));
  }

  /** After `add_task` the entry reads as before, with one open task more at the end. */
  lemma AddTaskAppends(text: string, item: string)
    requires Single(LinesOf(text), "tasks")
    ensures match AddTask(text, item)
            case Written(after) =>
              && OneLine(item) == Some(Strip(item))
              && ParseText(after) == ParseText(text).(tasks := ParseText(text).tasks + [Box(Strip(item), false)])
            case Invalid => OneLine(item).None?
            case _ => false
  {
    hide Strip, Structure, HasSection, Single, Section, Title, Split, Unbroken, Join, Appended, Ensured, Boxes, Whole;
    if OneLine(item).Some? {
      var doc := Split(text);
      var ready := Ensured(doc, "tasks");
      SplitWhole(text);
      StripTwice(item);
      EnsuredKeeps(doc, "tasks");
      EnsuredReads(doc, "tasks");
      AppendTaskReads(ready, Strip(item));
    }
  }

  // ---- the boxes a writer counts ----

  /** `_checked`: the positions whose terminated line matches. */
  function Checked(doc: seq<Line>, start: nat, end: nat): (r: seq<nat>)
    requires start <= end <= |doc|
    ensures forall i :: 0 <= i < |r| ==> start <= r[i] < end && CheckMatch(doc[r[i]].Raw()).Some?
  {
    if start == end then []
    else Checked(doc, start, end - 1) + if CheckMatch(doc[end - 1].Raw()).Some? then [end - 1] else []
  }

  predicate NoHollow(doc: seq<Line>, start: nat, end: nat)
    requires start <= end <= |doc|
  {
    forall i :: start <= i < end ==> !Hollow(doc[i])
  }

  ghost predicate AllFormed(doc: seq<Line>) { forall i :: 0 <= i < |doc| ==> Formed(doc[i]) }

  lemma WholeFormed(doc: seq<Line>)
    requires Whole(doc)
    ensures AllFormed(doc)
  {
    hide Unbroken;
  }

  /** The writer never counts fewer boxes than the reader, and as many exactly when none is hollow. */
  lemma {:induction false} CountsAgreeIff(doc: seq<Line>, start: nat, end: nat)
    requires start <= end <= |doc| && AllFormed(doc)
    ensures |Boxes(Bodies(doc)[start..end])| <= |Checked(doc, start, end)|
    ensures |Checked(doc, start, end)| == |Boxes(Bodies(doc)[start..end])| <==> NoHollow(doc, start, end)
    decreases end
  {
    hide CheckMatch, Hollow, Formed, Boxes;
    var lines := Bodies(doc);
    if start < end {
      CountsAgreeIff(doc, start, end - 1);
      WriterSees(doc[end - 1]);
      OneBox(lines[end - 1]);
      BoxesSplit(lines[start..end - 1], [lines[end - 1]]);
      assert lines[start..end] == lines[start..end - 1] + [lines[end - 1]];
    } else {
      NoLineNoBox();
      assert lines[start..end] == [];
    }
  }

  lemma {:induction false} CheckedBefore(doc: seq<Line>, start: nat, end: nat, n: nat)
    requires start <= end <= |doc| && n < |Checked(doc, start, end)|
    ensures |Checked(doc, start, Checked(doc, start, end)[n])| == n
    decreases end
  {
    hide CheckMatch;
    if n < |Checked(doc, start, end - 1)| {
      CheckedBefore(doc, start, end - 1, n);
    }
  }

  /** Without hollow lines the writer's n-th box is the reader's n-th box. */
  lemma CheckedAt(doc: seq<Line>, start: nat, end: nat, n: nat)
    requires start <= end <= |doc| && AllFormed(doc) && NoHollow(doc, start, end)
    requires n < |Checked(doc, start, end)|
    ensures var k := Checked(doc, start, end)[n];
      var lines := Bodies(doc);
      var all := Boxes(lines[start..end]);
      && n < |all| && CheckMatch(lines[k]) == Some(all[n]) && CheckMatch(doc[k].Raw()) == Some(all[n])
      && Boxes(lines[start..k]) == all[..n] && Boxes(lines[k + 1..end]) == all[n + 1..]
  {
    hide CheckMatch, Hollow, Formed, Boxes;
    var lines := Bodies(doc);
    var k := Checked(doc, start, end)[n];
    CheckedBefore(doc, start, end, n);
    CountsAgreeIff(doc, start, k);
    WriterSees(doc[k]);
    BoxesAround(lines[start..k], lines[k], lines[k + 1..end]);
    assert lines[start..end] == lines[start..k] + [lines[k]] + lines[k + 1..end];
  }

  // ---- ticking and removing ----

  function Target(doc: seq<Line>, index: int): (r: Option<nat>)
    requires HasSection(Bodies(doc), "tasks")
    ensures r.Some? ==> r.value < |doc| && CheckMatch(doc[r.value].Raw()).Some?
  {
    var (start, end) := Region(Bodies(doc), "tasks");
    var found := Checked(doc, start, end);
    if index < 1 || index > |found| then None else Some(found[index - 1])
  }

  function FlippedLine(line: Line): Line
    requires CheckMatch(line.Raw()).Some?
  {
    Line(Flip(line.body, CheckMatch(line.Raw()).value.done), line.end)
  }

  function ToggleTask(text: string, index: int): Edit {
    var doc := Split(text);
    if !HasSection(Bodies(doc), "tasks") then NoSection
    else
      match Target(doc, index)
      case None => NoSuchIndex
      case Some(k) => Written(Join(doc[k := FlippedLine(doc[k])]))
  }

  function RemoveTask(text: string, index: int): Edit {
    var doc := Split(text);
    if !HasSection(Bodies(doc), "tasks") then NoSection
    else
      match Target(doc, index)
      case None => NoSuchIndex
      case Some(k) => Written(Join(Without(doc, k)))
  }

  /** No hollow line in the tasks of this text. */
  predicate Solid(text: string) {
    var doc := Split(text);
    HasSection(Bodies(doc), "tasks") ==>
      NoHollow(doc, Region(Bodies(doc), "tasks").0, Region(Bodies(doc), "tasks").1)
  }

  lemma BoxIsPlain(s: string)
    requires BoxAt(s).Some?
    ensures HeaderName(s).None? && TitleOf(s).None?
  {
    var left, right := StripParts(s);
    var dash := Skip(s, 0);
    assert s[dash] == '-' && dash >= |left|;
    if Strip(s) != "" {
      assert s[|left|] == Strip(s)[0];
      assert dash == |left|;
    }
  }

  lemma FlippedFits(line: Line)
    requires CheckMatch(line.Raw()).Some? && CheckMatch(line.body) == CheckMatch(line.Raw())
    requires Unbroken(line.body)
    ensures var flipped := FlippedLine(line);
      && Unbroken(flipped.body) && |flipped.body| == |line.body| && flipped.end == line.end
      && HeaderName(flipped.body).None? && TitleOf(flipped.body).None?
      && CheckMatch(flipped.body) == Some(Box(CheckMatch(line.body).value.text, !CheckMatch(line.body).value.done))
  {
    hide BoxAt, HeaderName, TitleOf, Flip;
    FlipFlips(line.body);
    FlipBox(line.body, CheckMatch(line.body).value.done);
    BoxIsPlain(FlippedLine(line).body);
  }

  /** Position `k` is the reader's task `n`; what replaces its line replaces that task. */
  lemma EditTask(doc: seq<Line>, n: nat, x: seq<string>)
    requires AllFormed(doc) && HasSection(Bodies(doc), "tasks") && Single(Bodies(doc), "tasks")
    requires var (start, end) := Region(Bodies(doc), "tasks");
      NoHollow(doc, start, end) && n < |Checked(doc, start, end)|
    requires NoHeaders(x) && NoTitles(x)
    ensures var (start, end) := Region(Bodies(doc), "tasks");
      var k := Checked(doc, start, end)[n];
      var day := ParseLines(Bodies(doc));
      && n < |day.tasks| && CheckMatch(doc[k].body) == CheckMatch(doc[k].Raw()) == Some(day.tasks[n])
      && ParseLines(Bodies(doc)[..k] + x + Bodies(doc)[k + 1..])
         == day.(tasks := day.tasks[..n] + Boxes(x) + day.tasks[n + 1..])
  {
    hide HeaderName, TitleOf, HasSection, Single, Section, Title, Boxes, NoHollow, AllFormed, CheckMatch;
    hide Checked, NoHeaders;
    hide NoTitles, ParseLines;
    var lines := Bodies(doc);
    var (start, end) := Region(lines, "tasks");
    var k := Checked(doc, start, end)[n];
    CheckedAt(doc, start, end, n);
    MatchIsPlain(lines[k]);
    ReplaceLine(lines, "tasks", k, x);
    RegionIsSection(lines, "tasks");
    BoxesReplaced(lines, start, k, end, x);
    TasksOf(lines, lines);
    TasksOf(lines[..k] + x + lines[k + 1..], lines);
  }

  /** Days that differ in the lines of their tasks only. */
  lemma TasksOf(b: seq<string>, a: seq<string>)
    requires Title(b) == Title(a) && forall other :: other != "tasks" ==> Section(b, other) == Section(a, other)
    ensures ParseLines(b) == ParseLines(a).(tasks := Boxes(Section(b, "tasks")))
  {
    hide Title, Section, Boxes;
  }

  lemma BoxesReplaced(lines: seq<string>, start: nat, k: nat, end: nat, x: seq<string>)
    requires start <= k < end <= |lines|
    ensures var region := lines[start..end];
      Boxes(region[..k - start] + x + region[k - start + 1..])
      == Boxes(lines[start..k]) + Boxes(x) + Boxes(lines[k + 1..end])
  {
    hide Boxes;
    var region := lines[start..end];
    assert region[..k - start] == lines[start..k] && region[k - start + 1..] == lines[k + 1..end];
    BoxesSplit(lines[start..k] + x, lines[k + 1..end]);
    BoxesSplit(lines[start..k], x);
  }

  lemma MatchIsPlain(s: string)
    requires CheckMatch(s).Some?
    ensures TitleOf(s).None?
  {
    hide BoxAt;
    BoxIsPlain(s);
  }

  /** A line written over by one of the same length and end runs into no other line than before. */
  lemma SwapWhole(doc: seq<Line>, k: nat, line: Line)
    requires Whole(doc) && k < |doc|
    requires Unbroken(line.body) && |line.body| == |doc[k].body| && line.end == doc[k].end
    ensures Whole(doc[k := line])
    ensures Bodies(doc[k := line]) == Bodies(doc)[..k] + [line.body] + Bodies(doc)[k + 1..]
    ensures ParseText(Join(doc[k := line])) == ParseLines(Bodies(doc[k := line]))
  {
    hide Unbroken, Join, ParseLines;
    var after := doc[k := line];
    forall i | 0 <= i < |after| - 1 ensures !Seam(after[i], after[i + 1]) {
      assert !Seam(doc[i], doc[i + 1]);
    }
    SplitJoin(after);
  }

  /** The writer's answer to an index, in terms of the tasks the reader reads. */
  lemma TargetIsTask(doc: seq<Line>, index: int)
    requires AllFormed(doc) && HasSection(Bodies(doc), "tasks") && Single(Bodies(doc), "tasks")
    requires var (start, end) := Region(Bodies(doc), "tasks"); NoHollow(doc, start, end)
    ensures var (start, end) := Region(Bodies(doc), "tasks");
      |Checked(doc, start, end)| == |ParseLines(Bodies(doc)).tasks|
  {
    hide HeaderName, Boxes, Checked, Hollow, Formed;
    var (start, end) := Region(Bodies(doc), "tasks");
    CountsAgreeIff(doc, start, end);
    RegionIsSection(Bodies(doc), "tasks");
  }

  /** `toggle_task(i)` turns exactly the reader's task `i` over, or says why not. */
  lemma ToggleTurnsOne(text: string, index: int)
    requires Single(LinesOf(text), "tasks") && Solid(text)
    ensures var tasks := ParseText(text).tasks;
      match ToggleTask(text, index)
      case NoSection => !HasSection(LinesOf(text), "tasks")
      case NoSuchIndex => !(1 <= index <= |tasks|)
      case Invalid => false
      case Written(after) =>
        && 1 <= index <= |tasks|
        && ParseText(after)
           == ParseText(text).(tasks := tasks[index - 1 := Box(tasks[index - 1].text, !tasks[index - 1].done)])
  {
    hide HasSection, Single, Section, Title, Split, Join, Boxes, Whole, NoHollow, AllFormed, CheckMatch, Checked;
    hide FlippedLine;
    var doc := Split(text);
    SplitWhole(text);
    WholeFormed(doc);
    if HasSection(Bodies(doc), "tasks") {
      TargetIsTask(doc, index);
      if Target(doc, index).Some? {
        ToggleReads(doc, index - 1);
      }
    }
  }

  lemma ToggleReads(doc: seq<Line>, n: nat)
    requires Whole(doc) && HasSection(Bodies(doc), "tasks") && Single(Bodies(doc), "tasks")
    requires var (start, end) := Region(Bodies(doc), "tasks");
      NoHollow(doc, start, end) && n < |Checked(doc, start, end)|
    ensures var (start, end) := Region(Bodies(doc), "tasks");
      var k := Checked(doc, start, end)[n];
      var day := ParseLines(Bodies(doc));
      && n < |day.tasks|
      && ParseText(Join(doc[k := FlippedLine(doc[k])]))
         == day.(tasks := day.tasks[n := Box(day.tasks[n].text, !day.tasks[n].done)])
  {
    hide HasSection, Single, Section, Title, Boxes, Whole, NoHollow, AllFormed, CheckMatch, Checked, FlippedLine;
    hide HeaderName, TitleOf, ParseText, Join;
    var (start, end) := Region(Bodies(doc), "tasks");
    var k := Checked(doc, start, end)[n];
    WholeFormed(doc);
    EditTask(doc, n, []);
    LineUnbroken(doc, k);
    FlippedFits(doc[k]);
    EditTask(doc, n, [FlippedLine(doc[k]).body]);
    OneBox(FlippedLine(doc[k]).body);
    SwapWhole(doc, k, FlippedLine(doc[k]));
  }

  lemma LineUnbroken(doc: seq<Line>, k: nat)
    requires Whole(doc) && k < |doc|
    ensures Unbroken(doc[k].body)
  {
    hide Unbroken;
  }

  /** `remove_task(i)` removes exactly the reader's task `i`, or says why not. */
  lemma RemoveTakesOne(text: string, index: int)
    requires Single(LinesOf(text), "tasks") && Solid(text)
    ensures var tasks := ParseText(text).tasks;
      match RemoveTask(text, index)
      case NoSection => !HasSection(LinesOf(text), "tasks")
      case NoSuchIndex => !(1 <= index <= |tasks|)
      case Invalid => false
      case Written(after) =>
        && 1 <= index <= |tasks|
        && ParseText(after) == ParseText(text).(tasks := tasks[..index - 1] + tasks[index..])
  {
    hide HasSection, Single, Section, Title, Split, Join, Boxes, Whole, NoHollow, AllFormed, CheckMatch, Checked;
    var doc := Split(text);
    SplitWhole(text);
    WholeFormed(doc);
    if HasSection(Bodies(doc), "tasks") {
      TargetIsTask(doc, index);
      if Target(doc, index).Some? {
        RemoveReads(doc, index - 1);
      }
    }
  }

  lemma RemoveReads(doc: seq<Line>, n: nat)
    requires Whole(doc) && HasSection(Bodies(doc), "tasks") && Single(Bodies(doc), "tasks")
    requires var (start, end) := Region(Bodies(doc), "tasks");
      NoHollow(doc, start, end) && n < |Checked(doc, start, end)|
    ensures var (start, end) := Region(Bodies(doc), "tasks");
      var k := Checked(doc, start, end)[n];
      var day := ParseLines(Bodies(doc));
      && n < |day.tasks|
      && ParseText(Join(Without(doc, k))) == day.(tasks := day.tasks[..n] + day.tasks[n + 1..])
  {
    hide HasSection, Single, Section, Title, Boxes, Whole, NoHollow, AllFormed, CheckMatch, Checked, HeaderName;
    hide TitleOf;
    hide ReadsAs, LinesOf, Join, Without, Bodies;
    var (start, end) := Region(Bodies(doc), "tasks");
    var k := Checked(doc, start, end)[n];
    var after := Without(doc, k);
    WholeFormed(doc);
    EditTask(doc, n, []);
    assert Boxes([]) == [] by { BlanksNoBoxes([]); }
    RemovedReads(doc, "tasks", k);
    SameDay(LinesOf(Join(after)), Bodies(after));
    assert Bodies(doc)[..k] + [] + Bodies(doc)[k + 1..] == Bodies(doc)[..k] + Bodies(doc)[k + 1..];
  }

  /** A line taken out of a region. */
  lemma RemovedReads(doc: seq<Line>, name: string, k: nat)
    requires Whole(doc) && name in SECTIONS && HasSection(Bodies(doc), name) && Single(Bodies(doc), name)
    requires Region(Bodies(doc), name).0 <= k < Region(Bodies(doc), name).1
    ensures var after := Without(doc, k);
      && Bodies(after) == Bodies(doc)[..k] + Bodies(doc)[k + 1..]
      && ReadsAs(LinesOf(Join(after)), Bodies(after), name)
  {
    hide HasSection, Single, HeaderName, Seamless, ReadsAs, LinesOf, Join, NoHeaders, Tidy, Fronts, Bodies, Without;
    var (start, end) := Region(Bodies(doc), name);
    var body := doc[start..k] + doc[k + 1..end];
    WholeTidy(doc);
    RemoveTidy(doc, k);
    FrontOf(doc, start, start);
    RemoveParts(doc, start, k, end);
    NoHeadersLess(Bodies(doc), start, k, end);
    RegionReads(doc, Without(doc, k), name, doc[..start], body);
  }

  lemma RemoveParts(doc: seq<Line>, start: nat, k: nat, end: nat)
    requires start <= k < end <= |doc|
    ensures var body := doc[start..k] + doc[k + 1..end];
      && Without(doc, k) == doc[..start] + body + doc[end..]
      && Bodies(body) == Bodies(doc)[start..k] + Bodies(doc)[k + 1..end]
      && Bodies(Without(doc, k)) == Bodies(doc)[..k] + Bodies(doc)[k + 1..]
  {
    hide Bodies;
    CutOut(doc, start, k, end);
    BodiesOf(doc, start, k);
    BodiesOf(doc, k + 1, end);
    BodiesOf(doc, 0, k);
    BodiesOf(doc, k + 1, |doc|);
    BodiesSplit(doc[start..k], doc[k + 1..end]);
    BodiesSplit(doc[0..k], doc[k + 1..|doc|]);
    assert doc[0..k] == doc[..k] && doc[k + 1..|doc|] == doc[k + 1..];
  }

  lemma CutOut<T>(s: seq<T>, start: nat, k: nat, end: nat)
    requires start <= k < end <= |s|
    ensures s[..k] + s[k + 1..] == s[..start] + (s[start..k] + s[k + 1..end]) + s[end..]
  {
  }

  lemma RemoveTidy(doc: seq<Line>, k: nat)
    requires Tidy(doc) && k < |doc|
    ensures Tidy(Without(doc, k))
  {
    hide Fits, Unended;
  }

  lemma NoHeadersLess(lines: seq<string>, start: nat, k: nat, end: nat)
    requires start <= k < end <= |lines| && NoHeaders(lines[start..end])
    ensures NoHeaders(lines[start..k] + lines[k + 1..end])
  {
    hide HeaderName;
    assert lines[start..end] == lines[start..k] + [lines[k]] + lines[k + 1..end];
    PlainParts(lines[start..k] + [lines[k]], lines[k + 1..end]);
    PlainParts(lines[start..k], [lines[k]]);
    PlainParts(lines[start..k], lines[k + 1..end]);
  }

  // ---- where reader and writer part ----

  /** The writer accepts exactly the reader's task numbers if and only if no task line is hollow. */
  lemma NumbersAgreeIff(text: string)
    requires Single(LinesOf(text), "tasks") && HasSection(LinesOf(text), "tasks")
    ensures (forall index :: ToggleTask(text, index).Written? <==> 1 <= index <= |ParseText(text).tasks|)
        <==> Solid(text)
  {
    hide HasSection, Single, Section, Title, Split, Join, Boxes, Whole, AllFormed, CheckMatch, Checked, FlippedLine;
    var doc := Split(text);
    SplitWhole(text);
    WholeFormed(doc);
    var (start, end) := Region(Bodies(doc), "tasks");
    CountsAgreeIff(doc, start, end);
    RegionIsSection(Bodies(doc), "tasks");
    var counted := |Checked(doc, start, end)|;
    assert forall index :: ToggleTask(text, index).Written? <==> 1 <= index <= counted;
    if !Solid(text) {
      assert ToggleTask(text, counted).Written?;
    }
  }

  lemma HollowFlips(line: Line)
    requires Formed(line) && Hollow(line)
    ensures CheckMatch(line.Raw()).Some? && CheckMatch(line.body).None? && TitleOf(line.body).None?
    ensures var flipped := FlippedLine(line);
      && Unbroken(flipped.body) && |flipped.body| == |line.body| && flipped.end == line.end
      && CheckMatch(flipped.body).None? && HeaderName(flipped.body).None? && TitleOf(flipped.body).None?
  {
    hide BoxAt, HeaderName, TitleOf, Flip;
    WriterSees(line);
    BoxIsPlain(line.body);
    FlipBox(line.body, CheckMatch(line.Raw()).value.done);
    BoxIsPlain(FlippedLine(line).body);
  }

  /** Ticking a hollow line is written and reported, and nothing the reader reads has changed. */
  lemma HollowTickIsLost(text: string, index: int)
    requires Single(LinesOf(text), "tasks") && HasSection(LinesOf(text), "tasks")
    requires var k := Target(Split(text), index); k.Some? && Hollow(Split(text)[k.value])
    ensures ToggleTask(text, index).Written?
    ensures ParseText(ToggleTask(text, index).text) == ParseText(text)
  {
    hide HasSection, Single, Section, Title, Split, Join, Boxes, Whole, AllFormed, CheckMatch, Checked, FlippedLine;
    var doc := Split(text);
    var k := Target(doc, index).value;
    SplitWhole(text);
    HollowReads(doc, k);
  }

  lemma HollowReads(doc: seq<Line>, k: nat)
    requires Whole(doc) && HasSection(Bodies(doc), "tasks") && Single(Bodies(doc), "tasks")
    requires var (start, end) := Region(Bodies(doc), "tasks"); start <= k < end && Hollow(doc[k])
    requires CheckMatch(doc[k].Raw()).Some?
    ensures ParseText(Join(doc[k := FlippedLine(doc[k])])) == ParseLines(Bodies(doc))
  {
    hide HasSection, Single, Section, Title, Boxes, CheckMatch, HeaderName, TitleOf, Hollow, Unbroken, Whole, Formed;
    hide FlippedLine, ParseText, Join;
    WholeFormed(doc);
    HollowFlips(doc[k]);
    SwapWhole(doc, k, FlippedLine(doc[k]));
    UnreadLine(Bodies(doc), k, FlippedLine(doc[k]).body);
  }

  /** A line of the tasks that is no box may be any other line that is none. */
  lemma UnreadLine(lines: seq<string>, k: nat, x: string)
    requires HasSection(lines, "tasks") && Single(lines, "tasks")
    requires Region(lines, "tasks").0 <= k < Region(lines, "tasks").1
    requires CheckMatch(lines[k]).None? && TitleOf(lines[k]).None?
    requires CheckMatch(x).None? && TitleOf(x).None? && HeaderName(x).None?
    ensures ParseLines(lines[..k] + [x] + lines[k + 1..]) == ParseLines(lines)
  {
    hide HasSection, Single, Section, Title, Boxes, CheckMatch, HeaderName, TitleOf;
    var (start, end) := Region(lines, "tasks");
    ReplaceLine(lines, "tasks", k, [x]);
    RegionIsSection(lines, "tasks");
    BoxesReplaced(lines, start, k, end, [x]);
    OneBox(x);
    BoxesAround(lines[start..k], lines[k], lines[k + 1..end]);
    CutAround(lines, start, k, end);
  }

  lemma CutAround(lines: seq<string>, start: nat, k: nat, end: nat)
    requires start <= k < end <= |lines|
    ensures lines[start..end] == lines[start..k] + [lines[k]] + lines[k + 1..end]
  {
  }

  const HOLLOW_LINE: Line := Line("- [ ] ", "\r\n")

  /** The entry `### Tasks` with one hollow line: no task to read, and a first task to tick. */
  lemma HollowDay()
    ensures var doc := [Line("### " + Titled("tasks"), "\r\n"), HOLLOW_LINE];
      && ParseText(Join(doc)).tasks == []
      && ToggleTask(Join(doc), 1).Written?
  {
    hide Titled, HeaderName, CheckMatch, Boxes, Section, Title, Hollow, Unbroken, Single;
    var doc := [Line("### " + Titled("tasks"), "\r\n"), HOLLOW_LINE];
    HollowLineIs();
    HollowRegion(doc);
    CountsAgreeIff(doc, 1, 2);
    RegionIsSection(Bodies(doc), "tasks");
    assert Bodies(doc)[1..2] == [HOLLOW_LINE.body];
    OneBox(HOLLOW_LINE.body);
    SplitJoin(doc);
    assert !NoHollow(doc, 1, 2);
  }

  lemma HollowLineIs()
    ensures Hollow(HOLLOW_LINE) && Formed(HOLLOW_LINE) && Fits(HOLLOW_LINE)
    ensures CheckMatch(HOLLOW_LINE.body).None? && HeaderName(HOLLOW_LINE.body).None?
  {
    hide HeaderName;
    var body := HOLLOW_LINE.body;
    assert body[0] == '-' && body[1] == ' ' && body[2] == '[' && body[3] == ' ' && body[4] == ']' && body[5] == ' ';
    assert Skip(body, 1) == Skip(body, 2) == 2;
    assert BoxAt(body) == Some(2);
    NoHeader(body);
    WriterSees(HOLLOW_LINE);
  }

  lemma HollowRegion(doc: seq<Line>)
    requires doc == [Line("### " + Titled("tasks"), "\r\n"), HOLLOW_LINE]
    ensures HasSection(Bodies(doc), "tasks") && Single(Bodies(doc), "tasks") && Region(Bodies(doc), "tasks") == (1, 2)
    ensures AllFormed(doc) && Whole(doc)
  {
    hide Titled, HeaderName, CheckMatch, Hollow, Unbroken;
    var lines := Bodies(doc);
    HollowLineIs();
    SectionWord("tasks");
    HeaderReads("tasks");
    HeaderLine("tasks");
    assert HeaderAt(lines, "tasks") == 0;
  }
}
