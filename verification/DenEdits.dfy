/**
  What the journal's writers leave of a text's lines: a section put back where
  it belongs, a value appended to one, a block of lines inserted or removed.
  Joining those lines and splitting them again gives them back, except that an
  empty line ended by LF is swallowed by a CR that comes to stand before it.
*/
module DenEdits {
  import opened Prelude
  import opened DenText
  import opened DenLines
  import opened DenSections

  // ---- splicing lines ----

  /** The line before a position, terminated if it is the last one of the file. */
  function Terminated(doc: seq<Line>, p: nat): (r: seq<Line>)
    requires p <= |doc|
    ensures |r| == |doc| && Bodies(r) == Bodies(doc)
  {
    if p > 0 && doc[p - 1].end == "" then doc[p - 1 := Line(doc[p - 1].body, Newline(doc))] else doc
  }

  function Splice(doc: seq<Line>, p: nat, block: seq<Line>): seq<Line>
    requires p <= |doc|
  {
    Terminated(doc, p)[..p] + block + Terminated(doc, p)[p..]
  }

  lemma SpliceBodies(doc: seq<Line>, p: nat, block: seq<Line>)
    requires p <= |doc|
    ensures Bodies(Splice(doc, p, block)) == Bodies(doc)[..p] + Bodies(block) + Bodies(doc)[p..]
  {
    assert Bodies(Terminated(doc, p)) == Bodies(doc);
  }

  lemma NewlineFits(doc: seq<Line>, body: string)
    requires Unbroken(body)
    ensures Fits(Line(body, Newline(doc)))
  {
  }

  lemma TerminatedTidy(doc: seq<Line>, p: nat)
    requires Tidy(doc) && p <= |doc|
    ensures var ready := Terminated(doc, p); Tidy(ready) && (p > 0 ==> Fits(ready[p - 1]))
  {
    if p > 0 {
      NewlineFits(doc, doc[p - 1].body);
    }
  }

  lemma SpliceTidy(doc: seq<Line>, p: nat, block: seq<Line>)
    requires Tidy(doc) && p <= |doc| && AllFit(block)
    ensures Tidy(Splice(doc, p, block))
  {
    hide Fits, Unended, Terminated;
    TerminatedTidy(doc, p);
    var ready := Terminated(doc, p);
    var after := Splice(doc, p, block);
    forall i | 0 <= i < |after| ensures Fits(after[i]) || (i == |after| - 1 && Unended(after[i])) {
      assert after[i] == if i < p then ready[i] else if i < p + |block| then block[i - p] else ready[i - |block|];
    }
  }

  ghost predicate AllFit(doc: seq<Line>) { forall i :: 0 <= i < |doc| ==> Fits(doc[i]) }

  lemma TidyConcat(a: seq<Line>, b: seq<Line>)
    requires AllFit(a) && Tidy(b)
    ensures Tidy(a + b)
  {
    hide Fits, Unended;
  }

  lemma TidyFront(doc: seq<Line>, p: nat)
    requires Tidy(doc) && p < |doc|
    ensures AllFit(doc[..p])
  {
    hide Fits, Unended;
  }

  lemma TidyRest(doc: seq<Line>, p: nat, q: nat)
    requires Tidy(doc) && p <= q <= |doc|
    ensures Tidy(doc[p..q]) && (q < |doc| ==> AllFit(doc[p..q]))
  {
    hide Fits, Unended;
  }

  // ---- what joining the lines can swallow ----

  /** An empty line ended by LF: after a line ended by CR it is the rest of that line's CRLF. */
  predicate Loose(line: Line) { line == Line("", "\n") }

  /** Whether what comes next follows a CR. */
  function Returns(cr: bool, doc: seq<Line>): bool { if doc == [] then cr else doc[|doc| - 1].end == "\r" }

  /** The bodies that are still lines once the lines are joined and split again. */
  function Kept(cr: bool, doc: seq<Line>): seq<string>
    decreases |doc|
  {
    if doc == [] then []
    else (if cr && Loose(doc[0]) then [] else [doc[0].body]) + Kept(doc[0].end == "\r", doc[1..])
  }

  /** Joining swallows exactly the loose lines after a CR. */
  lemma {:induction false} JoinKeeps(doc: seq<Line>)
    requires Tidy(doc)
    ensures LinesOf(Join(doc)) == Kept(false, doc)
    decreases |doc|
  {
    hide Cut, Unbroken, Kept, Fits, Unended, Split, Join, Loose, LinesOf;
    if doc == [] {
      NothingRead();
    } else {
      var rest := doc[1..];
      TidyTail(doc);
      if doc[0].end == "\r" && rest != [] && Loose(rest[0]) {
        TidyTail(rest);
        JoinKeeps(rest[1..]);
        KeptSwallows(doc);
        SwallowedCut(doc);
      } else {
        JoinKeeps(rest);
        KeptFirst(doc);
        FirstCut(doc);
      }
    }
  }

  lemma NothingRead()
    ensures LinesOf(Join([])) == [] && Kept(false, []) == []
  {
  }

  lemma FirstCut(doc: seq<Line>)
    requires Tidy(doc) && doc != [] && !(|doc| > 1 && doc[0].end == "\r" && Loose(doc[1]))
    ensures LinesOf(Join(doc)) == [doc[0].body] + LinesOf(Join(doc[1..]))
  {
    hide Cut, Unbroken;
    TidyTail(doc);
    if |doc| > 1 {
      JoinStarts(doc[1..]);
    }
    CutUnique(doc[0], Join(doc[1..]));
    BodiesFirst(doc[0], Split(Join(doc[1..])));
  }

  lemma SwallowedCut(doc: seq<Line>)
    requires Tidy(doc) && |doc| > 1 && doc[0].end == "\r" && Loose(doc[1])
    ensures LinesOf(Join(doc)) == [doc[0].body] + LinesOf(Join(doc[2..]))
  {
    hide Cut, Unbroken, Join, Tidy;
    var whole, rest := Line(doc[0].body, "\r\n"), Join(doc[2..]);
    JoinTwo(doc);
    FirstUnbroken(doc);
    CutUnique(whole, rest);
    BodiesFirst(whole, Split(rest));
  }

  lemma JoinTwo(doc: seq<Line>)
    requires |doc| > 1 && doc[0].end == "\r" && Loose(doc[1])
    ensures Join(doc) == Line(doc[0].body, "\r\n").Raw() + Join(doc[2..])
  {
    var tail := Join(doc[2..]);
    assert doc[1..][1..] == doc[2..];
    assert Join(doc[1..]) == "\n" + tail;
    CompletesEnd(doc[0].body, tail);
  }

  lemma CompletesEnd(body: string, tail: string)
    ensures (body + "\r") + ("\n" + tail) == (body + "\r\n") + tail
  {
  }

  lemma FirstUnbroken(doc: seq<Line>)
    requires Tidy(doc) && doc != []
    ensures Unbroken(doc[0].body)
  {
    hide Unbroken;
  }

  lemma BodiesFirst(line: Line, rest: seq<Line>)
    ensures Bodies([line] + rest) == [line.body] + Bodies(rest)
  {
  }

  lemma TidyTail(doc: seq<Line>)
    requires Tidy(doc) && doc != []
    ensures Tidy(doc[1..])
  {
    hide Fits, Unended;
  }

  lemma KeptSwallows(doc: seq<Line>)
    requires |doc| > 1 && doc[0].end == "\r" && Loose(doc[1])
    ensures Kept(false, doc) == [doc[0].body] + Kept(false, doc[2..])
  {
    assert doc[1..][1..] == doc[2..];
  }

  lemma KeptFirst(doc: seq<Line>)
    requires doc != [] && !(|doc| > 1 && doc[0].end == "\r" && Loose(doc[1]))
    ensures Kept(false, doc) == [doc[0].body] + Kept(false, doc[1..])
  {
  }

  lemma {:induction false} KeptSplit(cr: bool, a: seq<Line>, b: seq<Line>)
    ensures Kept(cr, a + b) == Kept(cr, a) + Kept(Returns(cr, a), b)
    decreases |a|
  {
    hide Loose;
    if a == [] {
      assert a + b == b;
    } else {
      var rest := Kept(a[0].end == "\r", a[1..]);
      KeptSplit(a[0].end == "\r", a[1..], b);
      assert (a + b)[0] == a[0] && (a + b)[1..] == a[1..] + b;
      assert Returns(a[0].end == "\r", a[1..]) == Returns(cr, a);
      Associates(if cr && Loose(a[0]) then [] else [a[0].body], rest, Kept(Returns(cr, a), b));
    }
  }

  lemma Associates(a: seq<string>, b: seq<string>, c: seq<string>)
    ensures a + (b + c) == a + b + c
  {
  }

  /** Lines that run into nothing are all kept. */
  lemma {:induction false} KeptWhole(cr: bool, doc: seq<Line>)
    requires Seamless(doc) && (doc != [] && cr ==> !Loose(doc[0]))
    ensures Kept(cr, doc) == Bodies(doc)
    decreases |doc|
  {
    if doc != [] {
      assert |doc| > 1 ==> !Seam(doc[0], doc[1]);
      RestSeamless(doc, 1);
      KeptWhole(doc[0].end == "\r", doc[1..]);
      assert Bodies(doc) == [doc[0].body] + Bodies(doc[1..]);
    }
  }

  /** And only empty lines are ever swallowed. */
  lemma {:induction false} KeptInk(cr: bool, doc: seq<Line>)
    ensures Inked(Kept(cr, doc)) == Inked(Bodies(doc))
    decreases |doc|
  {
    if doc != [] {
      KeptInk(doc[0].end == "\r", doc[1..]);
      assert Bodies(doc) == [doc[0].body] + Bodies(doc[1..]);
      InkedFirst(doc[0].body, Bodies(doc[1..]));
      var rest := Kept(doc[0].end == "\r", doc[1..]);
      InkedFirst(doc[0].body, rest);
      assert cr && Loose(doc[0]) ==> Kept(cr, doc) == rest;
    }
  }

  lemma InkedFirst(line: string, rest: seq<string>)
    ensures Inked([line] + rest) == (if line == "" then [] else [line]) + Inked(rest)
  {
    assert ([line] + rest)[1..] == rest;
  }

  // ---- what is read without empty lines ----

  /** The lines that are not empty. */
  function Inked(lines: seq<string>): seq<string> {
    if lines == [] then [] else (if lines[0] == "" then [] else [lines[0]]) + Inked(lines[1..])
  }

  lemma {:induction false} InkBoxes(lines: seq<string>)
    ensures Boxes(Inked(lines)) == Boxes(lines)
  {
    hide CheckMatch, Boxes;
    if lines != [] {
      InkBoxes(lines[1..]);
      NoBox("");
      OneBox(lines[0]);
      BoxesSplit([lines[0]], lines[1..]);
      BoxesSplit(if lines[0] == "" then [] else [lines[0]], Inked(lines[1..]));
      NoLineNoBox();
      assert [lines[0]] + lines[1..] == lines;
    } else {
      NoLineNoBox();
    }
  }

  lemma NoLineNoBox()
    ensures Boxes([]) == []
  {
  }

  lemma OneBox(line: string)
    ensures Boxes([line]) == match CheckMatch(line) case None => [] case Some(box) => [box]
  {
    hide CheckMatch;
    assert [line][..0] == [];
  }

  lemma {:induction false} InkTitle(lines: seq<string>)
    ensures Title(Inked(lines)) == Title(lines)
  {
    hide TitleOf;
    if lines != [] {
      InkTitle(lines[1..]);
      NoHeader("");
      if lines[0] == "" {
        assert Inked(lines) == Inked(lines[1..]);
      } else {
        assert Inked(lines)[0] == lines[0] && Inked(lines)[1..] == Inked(lines[1..]);
      }
    }
  }

  lemma {:induction false} InkPlain(lines: seq<string>)
    ensures NoHeaders(Inked(lines)) <==> NoHeaders(lines)
    ensures NoTitles(Inked(lines)) <==> NoTitles(lines)
  {
    hide TitleOf, HeaderName;
    if lines != [] {
      InkPlain(lines[1..]);
      NoHeader("");
      PlainParts([lines[0]], lines[1..]);
      PlainParts(if lines[0] == "" then [] else [lines[0]], Inked(lines[1..]));
      assert [lines[0]] + lines[1..] == lines;
    }
  }

  lemma PlainParts(a: seq<string>, b: seq<string>)
    ensures NoHeaders(a + b) <==> NoHeaders(a) && NoHeaders(b)
    ensures NoTitles(a + b) <==> NoTitles(a) && NoTitles(b)
  {
    hide TitleOf, HeaderName;
    if NoHeaders(a + b) {
      assert forall i :: 0 <= i < |a| ==> a[i] == (a + b)[i];
      assert forall i :: 0 <= i < |b| ==> b[i] == (a + b)[|a| + i];
    }
    if NoTitles(a + b) {
      assert forall i :: 0 <= i < |a| ==> a[i] == (a + b)[i];
      assert forall i :: 0 <= i < |b| ==> b[i] == (a + b)[|a| + i];
    }
  }

  lemma {:induction false} InkSplit(a: seq<string>, b: seq<string>)
    ensures Inked(a + b) == Inked(a) + Inked(b)
    decreases |a|
  {
    if a == [] {
      assert a + b == b;
    } else {
      InkSplit(a[1..], b);
      assert (a + b)[0] == a[0] && (a + b)[1..] == a[1..] + b;
      Associates(if a[0] == "" then [] else [a[0]], Inked(a[1..]), Inked(b));
    }
  }

  // ---- one region rewritten ----

  /** The lines before a region, the header terminated if it was the file's last line. */
  ghost predicate Fronts(doc: seq<Line>, front: seq<Line>, start: nat)
    requires start <= |doc|
  {
    Bodies(front) == Bodies(doc)[..start] && Seamless(front)
  }

  lemma FrontOf(doc: seq<Line>, p: nat, start: nat)
    requires Whole(doc) && start <= p <= |doc|
    ensures Fronts(doc, Terminated(doc, p)[..start], start) && Fronts(doc, doc[..start], start)
  {
    hide Newline, Unbroken;
    var ready := Terminated(doc, p);
    assert Bodies(ready[..start]) == Bodies(ready)[..start];
    assert Bodies(doc[..start]) == Bodies(doc)[..start];
    forall i | 0 <= i < start - 1 ensures !Seam(ready[i], ready[i + 1]) && !Seam(doc[i], doc[i + 1]) {
      assert Fits(doc[i]) && (Fits(doc[i + 1]) || Unended(doc[i + 1]));
    }
  }

  /** Two entries that read the same, but for empty lines of one section. */
  ghost predicate ReadsAs(b: seq<string>, c: seq<string>, name: string) {
    && Inked(Section(b, name)) == Inked(Section(c, name))
    && (forall other :: other != name ==> Section(b, other) == Section(c, other))
    && Title(b) == Title(c)
  }

  /**
    What is read once one region's lines are written over: that section holds
    the written lines, except that an empty one may have completed a CRLF, and
    everything else is read as it was written.
  */
  lemma RegionReads(doc: seq<Line>, after: seq<Line>, name: string, front: seq<Line>, body: seq<Line>)
    requires Whole(doc) && name in SECTIONS && HasSection(Bodies(doc), name) && Single(Bodies(doc), name)
    requires Fronts(doc, front, Region(Bodies(doc), name).0) && NoHeaders(Bodies(body))
    requires after == front + body + doc[Region(Bodies(doc), name).1..] && Tidy(after)
    ensures ReadsAs(LinesOf(Join(after)), Bodies(after), name)
    ensures Section(Bodies(after), name) == Bodies(body)
    ensures Section(LinesOf(Join(after)), name) == Kept(Returns(false, front), body)
  {
    hide HasSection, Single, Section, Title, HeaderName, TitleOf, Kept, Inked, Join, Seamless, Fits, Unended, Bodies;
    hide LinesOf;
    var (start, end) := Region(Bodies(doc), name);
    var a := Bodies(doc);
    var kept := Kept(Returns(false, front), body);
    RegionKept(doc, name, front, body);
    KeptInk(Returns(false, front), body);
    InkPlain(kept);
    InkPlain(Bodies(body));
    ReplaceRegion(a, name, kept);
    ReplaceRegion(a, name, Bodies(body));
    BodiesApart(front, body, doc, end);
    SameInkTitle(a[..start], kept, Bodies(body), a[end..]);
  }

  lemma BodiesApart(front: seq<Line>, body: seq<Line>, doc: seq<Line>, end: nat)
    requires end <= |doc|
    ensures Bodies(front + body + doc[end..]) == Bodies(front) + Bodies(body) + Bodies(doc)[end..]
  {
  }

  /** The same for lines put into a region. */
  lemma SpliceReads(doc: seq<Line>, name: string, p: nat, block: seq<Line>)
    requires Whole(doc) && name in SECTIONS && HasSection(Bodies(doc), name) && Single(Bodies(doc), name)
    requires Region(Bodies(doc), name).0 <= p <= Region(Bodies(doc), name).1
    requires AllFit(block) && NoHeaders(Bodies(block))
    ensures ReadsAs(LinesOf(Join(Splice(doc, p, block))), Bodies(Splice(doc, p, block)), name)
  {
    hide HasSection, Single, Section, Title, HeaderName, TitleOf, Seamless, Fits, Unended, ReadsAs, Tidy, AllFit;
    hide LinesOf, Join, Splice, Terminated, NoHeaders;
    var (start, end) := Region(Bodies(doc), name);
    var body := Terminated(doc, p)[start..p] + block + doc[p..end];
    WholeTidy(doc);
    SpliceTidy(doc, p, block);
    FrontOf(doc, p, start);
    SpliceParts(doc, start, p, end, block);
    NoHeadersIn(Bodies(doc), start, p, end, Bodies(block));
    RegionReads(doc, Splice(doc, p, block), name, Terminated(doc, p)[..start], body);
  }

  lemma WholeTidy(doc: seq<Line>)
    requires Whole(doc)
    ensures Tidy(doc)
  {
  }

  lemma SpliceParts(doc: seq<Line>, start: nat, p: nat, end: nat, block: seq<Line>)
    requires start <= p <= end <= |doc|
    ensures var body := Terminated(doc, p)[start..p] + block + doc[p..end];
      && Splice(doc, p, block) == Terminated(doc, p)[..start] + body + doc[end..]
      && Bodies(body) == Bodies(doc)[start..p] + Bodies(block) + Bodies(doc)[p..end]
  {
    hide Bodies, Terminated;
    var ready := Terminated(doc, p);
    TerminatedRest(doc, p);
    assert ready[..p] == ready[..start] + ready[start..p];
    assert doc[p..] == doc[p..end] + doc[end..];
    Regroup(ready[..start], ready[start..p], block, doc[p..end], doc[end..]);
    BodiesOf(ready, start, p);
    BodiesOf(doc, p, end);
    ThreeBodies(ready[start..p], block, doc[p..end]);
  }

  lemma Regroup<T>(a: seq<T>, b: seq<T>, c: seq<T>, d: seq<T>, e: seq<T>)
    ensures (a + b) + c + (d + e) == a + (b + c + d) + e
  {
  }

  lemma TerminatedRest(doc: seq<Line>, p: nat)
    requires p <= |doc|
    ensures Terminated(doc, p)[p..] == doc[p..]
  {
  }

  lemma BodiesOf(doc: seq<Line>, p: nat, q: nat)
    requires p <= q <= |doc|
    ensures Bodies(doc[p..q]) == Bodies(doc)[p..q]
  {
  }

  lemma BodiesSplit(a: seq<Line>, b: seq<Line>)
    ensures Bodies(a + b) == Bodies(a) + Bodies(b)
  {
  }

  lemma ThreeBodies(a: seq<Line>, b: seq<Line>, c: seq<Line>)
    ensures Bodies(a + b + c) == Bodies(a) + Bodies(b) + Bodies(c)
  {
  }

  lemma NoHeadersIn(lines: seq<string>, start: nat, p: nat, end: nat, block: seq<string>)
    requires start <= p <= end <= |lines| && NoHeaders(lines[start..end]) && NoHeaders(block)
    ensures NoHeaders(lines[start..p] + block + lines[p..end])
  {
    hide HeaderName;
    assert lines[start..end] == lines[start..p] + lines[p..end];
    PlainParts(lines[start..p], lines[p..end]);
    PlainParts(lines[start..p], block);
    PlainParts(lines[start..p] + block, lines[p..end]);
  }

  lemma SameInkTitle(front: seq<string>, x: seq<string>, y: seq<string>, back: seq<string>)
    requires Inked(x) == Inked(y)
    ensures Title(front + x + back) == Title(front + y + back)
  {
    hide Title, Inked;
    InkTitle(front + x + back);
    InkTitle(front + y + back);
    InkSplit(front + x, back);
    InkSplit(front + y, back);
    InkSplit(front, x);
    InkSplit(front, y);
  }

  lemma RegionKept(doc: seq<Line>, name: string, front: seq<Line>, body: seq<Line>)
    requires Whole(doc) && HasSection(Bodies(doc), name)
    requires Fronts(doc, front, Region(Bodies(doc), name).0)
    requires Tidy(front + body + doc[Region(Bodies(doc), name).1..])
    ensures var (start, end) := Region(Bodies(doc), name);
      LinesOf(Join(front + body + doc[end..]))
      == Bodies(doc)[..start] + Kept(Returns(false, front), body) + Bodies(doc)[end..]
  {
    hide HasSection, HeaderName, Kept, Join, Fits, Unended, Seam, LinesOf;
    var (start, end) := Region(Bodies(doc), name);
    var back := doc[end..];
    JoinKeeps(front + body + back);
    KeptSplit(false, front + body, back);
    KeptSplit(false, front, body);
    KeptWhole(false, front);
    RestSeamless(doc, end);
    if back != [] {
      assert HeaderName(Bodies(doc)[end]).Some?;
      NoHeader("");
    }
    KeptWhole(Returns(false, front + body), back);
    assert Bodies(back) == Bodies(doc)[end..];
  }

  // ---- a section that is missing ----

  function UpperChar(c: char): char {
    if 'a' <= c <= 'z' then (c as int - 32) as char else c
  }

  /** `name.title()` of one lower-case word. */
  function Titled(name: string): string {
    if name == "" then "" else [UpperChar(name[0])] + name[1..]
  }

  const FOOD_HEADER := "what,protein,carbs,fat"
  const LIFT_HEADER := "exercise,weight,reps"

  function BlockOf(name: string, newline: string): seq<Line> {
    [Line("### " + Titled(name), newline), Line("", newline)]
    + if name == "macros" then [Line(FOOD_HEADER, newline), Line("", newline)]
      else if name == "workout" then [Line(LIFT_HEADER, newline), Line("", newline)]
      else []
  }

  /** The header of the first later section, in the order of the day, that is there. */
  function LaterHeader(lines: seq<string>, order: nat): (p: nat)
    requires order <= |SECTIONS|
    ensures p <= |lines| && (p < |lines| ==> HeaderName(lines[p]).Some?)
    decreases |SECTIONS| - order
  {
    if order == |SECTIONS| then |lines|
    else if HasSection(lines, SECTIONS[order]) then HeaderAt(lines, SECTIONS[order])
    else LaterHeader(lines, order + 1)
  }

  function OrderOf(name: string): (k: nat)
    requires name in SECTIONS
    ensures k < |SECTIONS| && SECTIONS[k] == name
  {
    if name == SECTIONS[0] then 0 else if name == SECTIONS[1] then 1 else if name == SECTIONS[2] then 2
    else if name == SECTIONS[3] then 3 else if name == SECTIONS[4] then 4 else 5
  }

  /** `ensure_section`. */
  function Ensured(doc: seq<Line>, name: string): seq<Line>
    requires name in SECTIONS
  {
    if HasSection(Bodies(doc), name) then doc
    else Splice(doc, LaterHeader(Bodies(doc), OrderOf(name) + 1), BlockOf(name, Newline(doc)))
  }

  lemma {:induction false} LowerTitled(name: string)
    requires name != "" && forall i :: 0 <= i < |name| ==> 'a' <= name[i] <= 'z'
    ensures Lower(Titled(name)) == name
  {
  }

  /** The header that is written is the header that is read. */
  lemma HeaderReads(name: string)
    requires name != "" && forall i :: 0 <= i < |name| ==> 'a' <= name[i] <= 'z'
    ensures HeaderName("### " + Titled(name)) == Some(name)
  {
    hide Strip, Lower;
    var t := Titled(name);
    var s := "### " + t;
    assert s[0] == '#' && s[3] == ' ' && s[..3] == "###";
    assert s[|s| - 1] == t[|t| - 1] && !Blank(t[|t| - 1]);
    StripSolid(s);
    assert s[3..] == " " + t;
    StripLed(t);
    LowerTitled(name);
  }

  lemma StripSolid(s: string)
    requires s != "" && !Blank(s[0]) && !Blank(s[|s| - 1])
    ensures Strip(s) == s
  {
    assert "" + s + "" == s;
    StripIs("", s, "");
  }

  lemma StripLed(s: string)
    requires s != "" && !Blank(s[0]) && !Blank(s[|s| - 1])
    ensures Strip(" " + s) == s
  {
    assert " " + s + "" == " " + s;
    StripIs(" ", s, "");
  }

  lemma NoHeader(s: string)
    requires s == "" || (s[0] != '#' && !Blank(s[0]))
    ensures HeaderName(s).None? && TitleOf(s).None?
  {
    if s != "" {
      var blank := RightParts(s);
      assert StripLeft(s) == s;
      assert Strip(s) != "" ==> Strip(s)[0] == s[0];
    }
  }

  /** A line that starts with neither a mark nor a dash is no structure at all. */
  lemma NoBox(s: string)
    requires s == "" || (s[0] != '-' && !Blank(s[0]))
    ensures CheckMatch(s).None?
  {
  }

  lemma BlockReads(name: string, newline: string)
    requires name in SECTIONS
    ensures var lines := Bodies(BlockOf(name, newline));
      && |lines| >= 2 && HeaderName(lines[0]) == Some(name) && NoHeaders(lines[1..]) && NoTitles(lines)
      && Boxes(lines[1..]) == []
      && (forall i :: 0 <= i < |lines| ==> Unbroken(lines[i]))
  {
    hide HeaderName, TitleOf, CheckMatch, Titled, Unbroken, Boxes;
    SectionWord(name);
    PlainWords();
    var lines := Bodies(BlockOf(name, newline));
    assert forall i :: 1 <= i < |lines| ==> lines[i] == "" || lines[i] == FOOD_HEADER || lines[i] == LIFT_HEADER;
    HeaderReads(name);
    HeaderLine(name);
    NoBoxes(lines[1..]);
  }

  lemma SectionWord(name: string)
    requires name in SECTIONS
    ensures name != "" && forall i :: 0 <= i < |name| ==> 'a' <= name[i] <= 'z'
  {
  }

  lemma PlainWords()
    ensures forall s :: s == "" || s == FOOD_HEADER || s == LIFT_HEADER ==>
      HeaderName(s).None? && TitleOf(s).None? && Unbroken(s)
  {
    hide HeaderName, TitleOf;
    NoHeader("");
    NoHeader(FOOD_HEADER);
    NoHeader(LIFT_HEADER);
  }

  lemma Led(mark: string, s: string)
    requires Unbroken(mark) && Unbroken(s)
    ensures Unbroken(mark + s)
  {
  }

  lemma HeaderLine(name: string)
    requires forall i :: 0 <= i < |name| ==> 'a' <= name[i] <= 'z'
    ensures Unbroken("### " + Titled(name)) && TitleOf("### " + Titled(name)).None?
  {
    var t := Titled(name);
    assert forall i :: 0 < i < |t| ==> t[i] == name[i];
    assert Unbroken(t);
    Led("### ", t);
    assert ("### " + t)[1] == '#';
  }

  lemma {:induction false} NoBoxes(lines: seq<string>)
    requires forall i :: 0 <= i < |lines| ==> lines[i] == "" || lines[i] == FOOD_HEADER || lines[i] == LIFT_HEADER
    ensures Boxes(lines) == []
  {
    if lines != [] {
      NoBoxes(lines[..|lines| - 1]);
      NoBox(lines[|lines| - 1]);
    }
  }

  /** Putting a missing section back adds its empty block and changes nothing else that is read. */
  lemma EnsuredKeeps(doc: seq<Line>, name: string)
    requires name in SECTIONS && Whole(doc)
    ensures var after := Ensured(doc, name);
      var a, b := Bodies(doc), Bodies(after);
      && Whole(after)
      && HasSection(b, name) && (Single(a, name) ==> Single(b, name))
      && (forall other :: other != name ==> Section(b, other) == Section(a, other))
      && (HasSection(a, name) ==> after == doc)
      && (!HasSection(a, name) ==>
            Section(a, name) == [] && Section(b, name) == Bodies(BlockOf(name, Newline(doc)))[1..])
      && Title(b) == Title(a)
  {
    hide Section, HeaderName, LaterHeader, OrderOf, Splice, Title, Single, Titled, Unbroken, Tidy, Seamless;
    var a := Bodies(doc);
    if !HasSection(a, name) {
      var block := BlockOf(name, Newline(doc));
      var p := LaterHeader(a, OrderOf(name) + 1);
      BlockFits(doc, name, block);
      SpliceTidy(doc, p, block);
      BlockSeamless(doc, name, p);
      SpliceBodies(doc, p, block);
      BlockReads(name, Newline(doc));
      InsertSection(a, p, Bodies(block), name);
    }
  }

  /** The block starts with a header and stands before one, so it runs into nothing. */
  lemma BlockSeamless(doc: seq<Line>, name: string, p: nat)
    requires Whole(doc) && name in SECTIONS
    requires p <= |doc| && (p < |doc| ==> HeaderName(Bodies(doc)[p]).Some?)
    ensures Seamless(Splice(doc, p, BlockOf(name, Newline(doc))))
  {
    hide HeaderName, Titled, Unbroken, Terminated, Seamless, Tidy, BlockOf;
    NoHeader("");
    FrontOf(doc, p, p);
    TerminatedRest(doc, p);
    BlockRuns(name, Newline(doc));
    RestSeamless(doc, p);
    var front, block := Terminated(doc, p)[..p], BlockOf(name, Newline(doc));
    SeamlessJoin(front, block);
    SeamlessJoin(front + block, doc[p..]);
  }

  lemma BlockRuns(name: string, newline: string)
    ensures var block := BlockOf(name, newline); Seamless(block) && block != [] && block[0].body != ""
  {
    hide Titled;
  }

  lemma RestSeamless(doc: seq<Line>, p: nat)
    requires Seamless(doc) && p <= |doc|
    ensures Seamless(doc[p..])
  {
    hide Seam;
    forall i | 0 <= i < |doc[p..]| - 1 ensures !Seam(doc[p..][i], doc[p..][i + 1]) {
      assert !Seam(doc[p + i], doc[p + i + 1]);
    }
  }

  lemma SeamlessJoin(a: seq<Line>, b: seq<Line>)
    requires Seamless(a) && Seamless(b) && (b != [] ==> b[0].body != "")
    ensures Seamless(a + b)
  {
    var all := a + b;
    forall i | 0 <= i < |all| - 1 ensures !Seam(all[i], all[i + 1]) {
      if i + 1 < |a| {
        assert !Seam(a[i], a[i + 1]);
      } else if i + 1 > |a| {
        assert !Seam(b[i - |a|], b[i + 1 - |a|]);
      }
    }
  }

  lemma EnsuredHas(doc: seq<Line>, name: string)
    requires name in SECTIONS
    ensures HasSection(Bodies(Ensured(doc, name)), name)
  {
    hide HeaderName, BlockOf, Titled, HasSection, Splice, Unbroken, NoTitles, LaterHeader, OrderOf;
    if !HasSection(Bodies(doc), name) {
      var block := BlockOf(name, Newline(doc));
      var p := LaterHeader(Bodies(doc), OrderOf(name) + 1);
      SpliceBodies(doc, p, block);
      BlockReads(name, Newline(doc));
      OneHeader(Bodies(doc), p, Bodies(block), name);
    }
  }

  lemma BlockFits(doc: seq<Line>, name: string, block: seq<Line>)
    requires name in SECTIONS && block == BlockOf(name, Newline(doc))
    ensures AllFit(block)
  {
    hide Titled, Unbroken;
    BlockReads(name, Newline(doc));
    forall i | 0 <= i < |block| ensures Fits(block[i]) {
      assert Unbroken(Bodies(block)[i]);
      NewlineFits(doc, block[i].body);
    }
  }

  /** A block that is a section of its own, put before a header or at the end. */
  lemma InsertSection(lines: seq<string>, p: nat, block: seq<string>, name: string)
    requires name in SECTIONS && !HasSection(lines, name)
    requires p <= |lines| && (p < |lines| ==> HeaderName(lines[p]).Some?)
    requires block != [] && HeaderName(block[0]) == Some(name) && NoHeaders(block[1..]) && NoTitles(block)
    ensures var after := lines[..p] + block + lines[p..];
      && HasSection(after, name) && Single(after, name)
      && Section(lines, name) == [] && Section(after, name) == block[1..]
      && (forall other :: other != name ==> Section(after, other) == Section(lines, other))
      && Title(after) == Title(lines)
  {
    hide HeaderName, TitleOf, HasSection, Single, Section, Title;
    OneHeader(lines, p, block, name);
    AbsentSection(lines, name);
    forall other ensures Section(lines[..p] + block + lines[p..], other)
                      == Section(lines, other) + if other == name then block[1..] else [] {
      BlockCollects(lines, p, block, name, other);
    }
    assert lines == lines[..p] + [] + lines[p..];
    TitleKept(lines[..p], block, [], lines[p..]);
  }

  lemma AbsentSection(lines: seq<string>, name: string)
    requires !HasSection(lines, name)
    ensures Section(lines, name) == []
  {
    hide HeaderName;
    CollectAbsent(None, lines, name);
  }

  lemma OneHeader(lines: seq<string>, p: nat, block: seq<string>, name: string)
    requires !HasSection(lines, name) && p <= |lines|
    requires block != [] && HeaderName(block[0]) == Some(name) && NoHeaders(block[1..])
    ensures var after := lines[..p] + block + lines[p..]; HasSection(after, name) && Single(after, name)
  {
    hide HeaderName;
    var after := lines[..p] + block + lines[p..];
    assert after[p] == block[0];
    forall i | 0 <= i < |after| && i != p ensures HeaderName(after[i]) != Some(name) {
      assert after[i] == if i < p then lines[i]
                         else if i < p + |block| then block[1..][i - p - 1] else lines[i - |block|];
    }
  }

  lemma BlockCollects(lines: seq<string>, p: nat, block: seq<string>, name: string, other: string)
    requires name in SECTIONS && !HasSection(lines, name)
    requires p <= |lines| && (p < |lines| ==> HeaderName(lines[p]).Some?)
    requires block != [] && HeaderName(block[0]) == Some(name) && NoHeaders(block[1..])
    ensures var after := lines[..p] + block + lines[p..];
      Section(after, other) == Section(lines, other) + if other == name then block[1..] else []
  {
    hide HeaderName, Collect, After;
    var front, rest := lines[..p], lines[p..];
    var current := After(None, front);
    CollectSplit(None, front + block, rest, other);
    CollectSplit(None, front, block, other);
    CollectSplit(None, front, rest, other);
    assert lines == front + rest;
    OwnBlock(current, block, name, other);
    RestResets(current, rest, name, other);
    if other == name {
      CollectAbsent(None, front, name);
      NameAbsent(lines, p, name);
    }
  }

  /** A block collects its own lines for its own section, whatever was open before. */
  lemma OwnBlock(current: Option<string>, block: seq<string>, name: string, other: string)
    requires name in SECTIONS && block != [] && HeaderName(block[0]) == Some(name) && NoHeaders(block[1..])
    ensures After(current, block) == Some(name)
    ensures Collect(current, block, other) == if other == name then block[1..] else []
  {
    hide HeaderName, Collect, After;
    var head := [block[0]];
    HeadOpens(current, block[0], name, other);
    CollectSplit(current, head, block[1..], other);
    CollectPlain(Some(name), block[1..], other);
    assert block == head + block[1..];
  }

  lemma HeadOpens(current: Option<string>, header: string, name: string, other: string)
    requires name in SECTIONS && HeaderName(header) == Some(name)
    ensures After(current, [header]) == Some(name) && Collect(current, [header], other) == []
  {
    hide HeaderName;
    assert [header][..0] == [];
    assert After(current, []) == current && Collect(current, [], other) == [];
  }

  /** What follows the block starts with a header or is empty. */
  lemma RestResets(current: Option<string>, rest: seq<string>, name: string, other: string)
    requires rest != [] ==> HeaderName(rest[0]).Some?
    ensures Collect(Some(name), rest, other) == Collect(current, rest, other) == Collect(None, rest, other)
  {
    hide HeaderName;
    if rest != [] {
      HeaderResets(current, Some(name), rest, other);
      HeaderResets(current, None, rest, other);
    }
  }

  lemma NameAbsent(lines: seq<string>, p: nat, name: string)
    requires p <= |lines| && !HasSection(lines, name)
    ensures Collect(None, lines[p..], name) == [] && Collect(None, lines, name) == []
  {
    hide HeaderName;
    CollectAbsent(None, lines[p..], name);
    CollectAbsent(None, lines, name);
  }

  /** One line more in a region: that section gains it there, and nothing else is read differently. */
  lemma InsertInRegion(lines: seq<string>, name: string, p: nat, value: string)
    requires name in SECTIONS && HasSection(lines, name) && Single(lines, name)
    requires Region(lines, name).0 <= p <= Region(lines, name).1
    requires HeaderName(value).None? && TitleOf(value).None?
    ensures var after := lines[..p] + [value] + lines[p..];
      var k := p - Region(lines, name).0;
      && k <= |Section(lines, name)|
      && Section(after, name) == Section(lines, name)[..k] + [value] + Section(lines, name)[k..]
      && (forall other :: other != name ==> Section(after, other) == Section(lines, other))
      && Title(after) == Title(lines)
  {
    hide HeaderName, TitleOf, HasSection, Section, Title, Single;
    var (start, end) := Region(lines, name);
    var region := lines[start..end];
    var body := region[..p - start] + [value] + region[p - start..];
    Inside(lines, start, p, p, end, [value]);
    NoHeadersJoin(region[..p - start], [value], region[p - start..]);
    RegionIsSection(lines, name);
    ReplaceRegion(lines, name, body);
    assert lines == lines[..p] + [] + lines[p..];
    TitleKept(lines[..p], [value], [], lines[p..]);
  }

  /** A change inside a region is a change of the region. */
  lemma Inside(lines: seq<string>, start: nat, a: nat, b: nat, end: nat, x: seq<string>)
    requires start <= a <= b <= end <= |lines|
    ensures var region := lines[start..end];
      && lines[..a] + x + lines[b..] == lines[..start] + (region[..a - start] + x + region[b - start..]) + lines[end..]
      && lines == lines[..a] + lines[a..b] + lines[b..]
  {
    var region := lines[start..end];
    assert lines[..a] == lines[..start] + region[..a - start];
    assert lines[b..] == region[b - start..] + lines[end..];
  }

  lemma NoHeadersJoin(a: seq<string>, x: seq<string>, b: seq<string>)
    requires NoHeaders(a) && NoHeaders(x) && NoHeaders(b)
    ensures NoHeaders(a + x + b)
  {
    hide HeaderName;
  }

  /** One line of a region replaced, or removed when `x` is empty. */
  lemma ReplaceLine(lines: seq<string>, name: string, k: nat, x: seq<string>)
    requires name in SECTIONS && HasSection(lines, name) && Single(lines, name)
    requires Region(lines, name).0 <= k < Region(lines, name).1
    requires NoHeaders(x) && NoTitles(x) && TitleOf(lines[k]).None?
    ensures var after := lines[..k] + x + lines[k + 1..];
      var j := k - Region(lines, name).0;
      && j < |Section(lines, name)|
      && Section(after, name) == Section(lines, name)[..j] + x + Section(lines, name)[j + 1..]
      && (forall other :: other != name ==> Section(after, other) == Section(lines, other))
      && Title(after) == Title(lines)
  {
    hide HeaderName, TitleOf, HasSection, Section, Title, Single;
    var (start, end) := Region(lines, name);
    var region := lines[start..end];
    var body := region[..k - start] + x + region[k - start + 1..];
    Inside(lines, start, k, k + 1, end, x);
    NoHeadersJoin(region[..k - start], x, region[k - start + 1..]);
    RegionIsSection(lines, name);
    ReplaceRegion(lines, name, body);
    assert lines[k..k + 1] == [lines[k]];
    TitleKept(lines[..k], x, [lines[k]], lines[k + 1..]);
  }
}
