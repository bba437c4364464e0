/**
  Sections of a journal entry: the fold by which the reader collects each
  section's lines, the index region in which the writer edits one, and why the
  two are the same place. Lines are taken without their terminators here.
*/
module DenSections {
  import opened Prelude
  import opened DenText
  import opened DenLines

  const SECTIONS: seq<string> := ["tasks", "habits", "macros", "weight", "workout", "notes"]

  /** The section that is open after one more line. */
  function Opens(current: Option<string>, line: string): Option<string> {
    match HeaderName(line)
    case None => current
    case Some(name) => if name in SECTIONS then Some(name) else None
  }

  function After(current: Option<string>, lines: seq<string>): Option<string> {
    if lines == [] then current else Opens(After(current, lines[..|lines| - 1]), lines[|lines| - 1])
  }

  function Collect(current: Option<string>, lines: seq<string>, name: string): seq<string> {
    if lines == [] then []
    else
      var init, last := lines[..|lines| - 1], lines[|lines| - 1];
      Collect(current, init, name)
      + if HeaderName(last).None? && After(current, init) == Some(name) then [last] else []
  }

  /** `_sections(lines).get(name, [])`. */
  function Section(lines: seq<string>, name: string): seq<string> { Collect(None, lines, name) }

  predicate NoHeaders(lines: seq<string>) { forall i :: 0 <= i < |lines| ==> HeaderName(lines[i]).None? }

  // ---- the reader's fold ----

  lemma {:induction false} CollectSplit(current: Option<string>, a: seq<string>, b: seq<string>, name: string)
    ensures After(current, a + b) == After(After(current, a), b)
    ensures Collect(current, a + b, name) == Collect(current, a, name) + Collect(After(current, a), b, name)
    decreases |b|
  {
    hide HeaderName;
    if b == [] {
      assert a + b == a;
    } else {
      CollectSplit(current, a, b[..|b| - 1], name);
      assert (a + b)[..|a + b| - 1] == a + b[..|b| - 1];
    }
  }

  lemma {:induction false} CollectPlain(current: Option<string>, lines: seq<string>, name: string)
    requires NoHeaders(lines)
    ensures After(current, lines) == current
    ensures Collect(current, lines, name) == if current == Some(name) then lines else []
    decreases |lines|
  {
    hide HeaderName;
    if lines != [] {
      CollectPlain(current, lines[..|lines| - 1], name);
      assert lines == lines[..|lines| - 1] + [lines[|lines| - 1]];
    }
  }

  /** What starts with a header does not depend on what was open before it. */
  lemma {:induction false} HeaderResets(a: Option<string>, b: Option<string>, lines: seq<string>, name: string)
    requires lines != [] && HeaderName(lines[0]).Some?
    ensures After(a, lines) == After(b, lines)
    ensures Collect(a, lines, name) == Collect(b, lines, name)
    decreases |lines|
  {
    hide HeaderName;
    if |lines| > 1 {
      HeaderResets(a, b, lines[..|lines| - 1], name);
    } else {
      assert lines[..0] == [];
      assert After(a, lines) == Opens(a, lines[0]) && After(b, lines) == Opens(b, lines[0]);
    }
  }

  /** Without its header a section is empty. */
  lemma {:induction false} CollectAbsent(current: Option<string>, lines: seq<string>, name: string)
    requires current != Some(name)
    requires forall i :: 0 <= i < |lines| ==> HeaderName(lines[i]) != Some(name)
    ensures After(current, lines) != Some(name)
    ensures Collect(current, lines, name) == []
    decreases |lines|
  {
    hide HeaderName;
    if lines != [] {
      CollectAbsent(current, lines[..|lines| - 1], name);
    }
  }

  // ---- the writer's region ----

  /** `_header`: the first header of that name, or the end. */
  function HeaderAt(lines: seq<string>, name: string): (k: nat)
    ensures k <= |lines|
    ensures forall i :: 0 <= i < k ==> HeaderName(lines[i]) != Some(name)
    ensures k < |lines| ==> HeaderName(lines[k]) == Some(name)
  {
    HeaderFrom(lines, name, 0)
  }

  function HeaderFrom(lines: seq<string>, name: string, from: nat): (k: nat)
    requires from <= |lines|
    ensures from <= k <= |lines|
    ensures forall i :: from <= i < k ==> HeaderName(lines[i]) != Some(name)
    ensures k < |lines| ==> HeaderName(lines[k]) == Some(name)
    decreases |lines| - from
  {
    if from == |lines| || HeaderName(lines[from]) == Some(name) then from else HeaderFrom(lines, name, from + 1)
  }

  predicate HasSection(lines: seq<string>, name: string) { HeaderAt(lines, name) < |lines| }

  /** The next header, of any name, or the end. */
  function NextHeader(lines: seq<string>, from: nat): (k: nat)
    requires from <= |lines|
    ensures from <= k <= |lines|
    ensures forall i :: from <= i < k ==> HeaderName(lines[i]).None?
    ensures k < |lines| ==> HeaderName(lines[k]).Some?
    decreases |lines| - from
  {
    if from == |lines| || HeaderName(lines[from]).Some? then from else NextHeader(lines, from + 1)
  }

  /** `_region`: where a section's body starts and ends. */
  function Region(lines: seq<string>, name: string): (r: (nat, nat))
    requires HasSection(lines, name)
    ensures r.0 == HeaderAt(lines, name) + 1 <= r.1 <= |lines|
    ensures NoHeaders(lines[r.0..r.1])
  {
    var start := HeaderAt(lines, name) + 1;
    (start, NextHeader(lines, start))
  }

  /** At most one header by this name. */
  predicate Single(lines: seq<string>, name: string) {
    forall i :: HeaderAt(lines, name) < i < |lines| ==> HeaderName(lines[i]) != Some(name)
  }

  /** What stands before a region leaves that section open and empty. */
  lemma BeforeRegion(lines: seq<string>, name: string)
    requires name in SECTIONS && HasSection(lines, name)
    ensures var start := Region(lines, name).0;
      After(None, lines[..start]) == Some(name) && Section(lines[..start], name) == []
  {
    hide HeaderName;
    var h := HeaderAt(lines, name);
    assert lines[..h + 1][..h] == lines[..h];
    CollectAbsent(None, lines[..h], name);
  }

  lemma Pieces(lines: seq<string>, a: nat, b: nat, current: Option<string>, name: string)
    requires a <= b <= |lines|
    ensures Collect(current, lines, name)
         == Collect(current, lines[..a], name) + Collect(After(current, lines[..a]), lines[a..b], name)
            + Collect(After(current, lines[..b]), lines[b..], name)
    ensures After(current, lines) == After(After(current, lines[..b]), lines[b..])
    ensures After(current, lines[..b]) == After(After(current, lines[..a]), lines[a..b])
  {
    assert lines == lines[..b] + lines[b..] && lines[..b] == lines[..a] + lines[a..b];
    CollectSplit(current, lines[..b], lines[b..], name);
    CollectSplit(current, lines[..a], lines[a..b], name);
  }

  /** A region is exactly the section the reader collects. */
  lemma RegionIsSection(lines: seq<string>, name: string)
    requires name in SECTIONS && HasSection(lines, name) && Single(lines, name)
    ensures var (start, end) := Region(lines, name); Section(lines, name) == lines[start..end]
  {
    hide HeaderName;
    ReplaceRegion(lines, name, lines[Region(lines, name).0..Region(lines, name).1]);
    var (start, end) := Region(lines, name);
    assert lines == lines[..start] + lines[start..end] + lines[end..];
  }

  /** Rewriting a region rewrites that section and leaves every other one alone. */
  lemma ReplaceRegion(lines: seq<string>, name: string, body: seq<string>)
    requires name in SECTIONS && HasSection(lines, name) && Single(lines, name) && NoHeaders(body)
    ensures var (start, end) := Region(lines, name);
      var after := lines[..start] + body + lines[end..];
      && Section(after, name) == body
      && (forall other :: other != name ==> Section(after, other) == Section(lines, other))
  {
    hide HeaderName;
    var (start, end) := Region(lines, name);
    var after := lines[..start] + body + lines[end..];
    BeforeRegion(lines, name);
    CollectPlain(Some(name), body, name);
    CollectPlain(Some(name), lines[start..end], name);
    RestIsEmpty(lines, name);
    Rebuilt(lines, start, end, body, name, name);
    forall other | other != name ensures Section(after, other) == Section(lines, other) {
      CollectPlain(Some(name), body, other);
      CollectPlain(Some(name), lines[start..end], other);
      Rebuilt(lines, start, end, body, name, other);
      Pieces(lines, start, end, None, other);
    }
  }

  lemma Rebuilt(lines: seq<string>, start: nat, end: nat, body: seq<string>, name: string, other: string)
    requires start <= end <= |lines| && After(None, lines[..start]) == Some(name) && NoHeaders(body)
    ensures var after := lines[..start] + body + lines[end..];
      Section(after, other) == Section(lines[..start], other) + Collect(Some(name), body, other)
                               + Collect(Some(name), lines[end..], other)
  {
    var after := lines[..start] + body + lines[end..];
    Pieces(after, start, start + |body|, None, other);
    assert after[..start] == lines[..start] && after[start..start + |body|] == body;
    assert after[start + |body|..] == lines[end..];
    CollectPlain(Some(name), body, other);
  }

  lemma RestIsEmpty(lines: seq<string>, name: string)
    requires HasSection(lines, name) && Single(lines, name)
    ensures Collect(Some(name), lines[Region(lines, name).1..], name) == []
  {
    hide HeaderName;
    var end := Region(lines, name).1;
    var rest := lines[end..];
    if rest != [] {
      assert HeaderName(rest[0]).Some?;
      HeaderResets(Some(name), None, rest, name);
      CollectAbsent(None, rest, name);
    }
  }

  // ---- the title ----

  /** The first line that is a title, wherever it stands. */
  function Title(lines: seq<string>): string {
    if lines == [] then "" else if TitleOf(lines[0]).Some? then TitleOf(lines[0]).value else Title(lines[1..])
  }

  predicate NoTitles(lines: seq<string>) { forall i :: 0 <= i < |lines| ==> TitleOf(lines[i]).None? }

  lemma {:induction false} TitleSkips(plain: seq<string>, rest: seq<string>)
    requires NoTitles(plain)
    ensures Title(plain + rest) == Title(rest)
    decreases |plain|
  {
    if plain == [] {
      assert plain + rest == rest;
    } else {
      TitleSkips(plain[1..], rest);
      assert (plain + rest)[1..] == plain[1..] + rest;
    }
  }

  /** Lines that are no titles can come and go. */
  lemma {:induction false} TitleKept(a: seq<string>, x: seq<string>, y: seq<string>, b: seq<string>)
    requires NoTitles(x) && NoTitles(y)
    ensures Title(a + x + b) == Title(a + y + b)
    decreases |a|
  {
    if a == [] {
      assert a + x + b == x + b && a + y + b == y + b;
      TitleSkips(x, b);
      TitleSkips(y, b);
    } else {
      TitleKept(a[1..], x, y, b);
      assert (a + x + b)[1..] == a[1..] + x + b && (a + y + b)[1..] == a[1..] + y + b;
    }
  }

  // ---- reading one day ----

  function Boxes(lines: seq<string>): (r: seq<Box>)
    ensures |r| <= |lines|
  {
    if lines == [] then []
    else
      Boxes(lines[..|lines| - 1])
      + match CheckMatch(lines[|lines| - 1]) case None => [] case Some(box) => [box]
  }

  lemma {:induction false} BoxesSplit(a: seq<string>, b: seq<string>)
    ensures Boxes(a + b) == Boxes(a) + Boxes(b)
    decreases |b|
  {
    hide CheckMatch;
    if b == [] {
      assert a + b == a;
    } else {
      BoxesSplit(a, b[..|b| - 1]);
      assert (a + b)[..|a + b| - 1] == a + b[..|b| - 1];
    }
  }

  function Bodies(doc: seq<Line>): (r: seq<string>)
    ensures |r| == |doc|
    ensures forall i :: 0 <= i < |doc| ==> r[i] == doc[i].body
  {
    seq(|doc|, i requires 0 <= i < |doc| => doc[i].body)
  }

  /** What `parse_text` reads, with the tables, the weight and the notes as their lines. */
  datatype Day = Day(title: string, tasks: seq<Box>, habits: seq<Box>, macros: seq<string>,
                     weight: seq<string>, workout: seq<string>, notes: seq<string>)

  function ParseLines(lines: seq<string>): Day {
    Day(Title(lines), Boxes(Section(lines, "tasks")), Boxes(Section(lines, "habits")), Section(lines, "macros"),
        Section(lines, "weight"), Section(lines, "workout"), Section(lines, "notes"))
  }

  function LinesOf(text: string): seq<string> { Bodies(Split(text)) }

  function ParseText(text: string): Day { ParseLines(LinesOf(text)) }
}
