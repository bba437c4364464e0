/**
  Text and lines as the journal editor sees them (tools/den/den.py): whitespace,
  `strip`, `lower`, and `splitlines(keepends=True)` with its inverse. The line
  separators are LF, CR and CRLF.
*/
module DenText {
  predicate Blank(c: char) { c == ' ' || c == '\t' || c == '\n' || c == '\r' }

  predicate Break(c: char) { c == '\n' || c == '\r' }

  predicate AllBlank(s: string) { forall i :: 0 <= i < |s| ==> Blank(s[i]) }

  function StripLeft(s: string): string {
    if s == "" || !Blank(s[0]) then s else StripLeft(s[1..])
  }

  function StripRight(s: string): string {
    if s == "" || !Blank(s[|s| - 1]) then s else StripRight(s[..|s| - 1])
  }

  function Strip(s: string): string { StripRight(StripLeft(s)) }

  function LowerChar(c: char): char {
    if 'A' <= c <= 'Z' then (c as int + 32) as char else c
  }

  function Lower(s: string): (r: string)
    ensures |r| == |s|
    ensures forall i :: 0 <= i < |s| ==> r[i] == LowerChar(s[i])
  {
    seq(|s|, i requires 0 <= i < |s| => LowerChar(s[i]))
  }

  // ---- lines ----

  /** One line and what ended it: nothing, LF, CR or CRLF. */
  datatype Line = Line(body: string, end: string)
  {
    function Raw(): string { body + end }
  }

  predicate Unbroken(s: string) { forall i :: 0 <= i < |s| ==> !Break(s[i]) }

  predicate Ended(line: Line) { line.end == "\n" || line.end == "\r\n" || line.end == "\r" }

  function BreakAt(text: string): (n: nat)
    ensures n <= |text| && Unbroken(text[..n])
    ensures n < |text| ==> Break(text[n])
  {
    if text == "" || Break(text[0]) then 0
    else
      var n := 1 + BreakAt(text[1..]);
      assert text[..n] == [text[0]] + text[1..][..n - 1];
      n
  }

  /** A line with its terminator, and that the text after it does not extend it. */
  predicate Cuts(line: Line, rest: string) {
    && Unbroken(line.body)
    && (if line.end == "" then rest == "" && line.body != ""
        else Ended(line) && !(line.end == "\r" && rest != "" && rest[0] == '\n'))
  }

  /** The first line of a text, and the text after it. */
  function Cut(text: string): (r: (Line, string))
    requires text != ""
    ensures Cuts(r.0, r.1) && r.0.Raw() + r.1 == text && |r.1| < |text|
  {
    var n := BreakAt(text);
    if n == |text| then
      assert text[..n] == text;
      (Line(text, ""), "")
    else
      var e := if text[n] == '\r' && n + 1 < |text| && text[n + 1] == '\n' then 2 else 1;
      (Line(text[..n], text[n..n + e]), text[n + e..])
  }

  /** `splitlines(keepends=True)`. */
  function Split(text: string): seq<Line>
    decreases |text|
  {
    if text == "" then [] else [Cut(text).0] + Split(Cut(text).1)
  }

  /** `"".join(lines)`. */
  function Join(doc: seq<Line>): string {
    if doc == [] then "" else doc[0].Raw() + Join(doc[1..])
  }

  /** A carriage return that the next line would complete to a CRLF. */
  predicate Seam(a: Line, b: Line) { a.end == "\r" && b.body == "" && b.end == "\n" }

  predicate Fits(line: Line) { Unbroken(line.body) && Ended(line) }

  predicate Unended(line: Line) { Unbroken(line.body) && line.end == "" && line.body != "" }

  /** Terminated lines, of which only the last may lack its terminator. */
  ghost predicate Tidy(doc: seq<Line>) {
    forall i :: 0 <= i < |doc| ==> Fits(doc[i]) || (i == |doc| - 1 && Unended(doc[i]))
  }

  ghost predicate Seamless(doc: seq<Line>) { forall i :: 0 <= i < |doc| - 1 ==> !Seam(doc[i], doc[i + 1]) }

  /** A list of lines that is what splitting some text gives. */
  ghost predicate Whole(doc: seq<Line>) { Tidy(doc) && Seamless(doc) }

  lemma {:induction false} JoinSplit(text: string)
    ensures Join(Split(text)) == text
    decreases |text|
  {
    hide Cut;
    if text != "" {
      JoinSplit(Cut(text).1);
    }
  }

  lemma {:induction false} SplitWhole(text: string)
    ensures Whole(Split(text))
    decreases |text|
  {
    hide Cut, Unbroken;
    if text != "" {
      var rest := Cut(text).1;
      SplitWhole(rest);
      if rest != "" {
        var next := Cut(rest).0;
        assert next.body == "" && next.end == "\n" ==> rest[0] == next.Raw()[0];
      }
    }
  }

  /** There is only one way to cut the first line off. */
  lemma CutUnique(line: Line, rest: string)
    requires Cuts(line, rest)
    ensures var text := line.Raw() + rest; text != "" && Cut(text) == (line, rest)
  {
    var text := line.Raw() + rest;
    var n := |line.body|;
    assert forall i :: 0 <= i < n ==> text[i] == line.body[i];
    assert n < |text| ==> text[n] == line.end[0];
    BreakIs(text, n);
    assert text[..n] == line.body;
    if line.end != "" {
      assert text[n..n + |line.end|] == line.end;
      assert text[n + |line.end|..] == rest;
      assert n + 1 < |text| && line.end == "\r" ==> text[n + 1] == rest[0];
    }
  }

  lemma BreakIs(text: string, n: nat)
    requires n <= |text| && (forall i :: 0 <= i < n ==> !Break(text[i]))
    requires n < |text| ==> Break(text[n])
    ensures BreakAt(text) == n
  {
    var m := BreakAt(text);
    assert forall i :: 0 <= i < m ==> !Break(text[..m][i]);
    assert forall i :: 0 <= i < m ==> text[..m][i] == text[i];
  }

  /** Splitting what was joined gives the lines back. */
  lemma {:induction false} SplitJoin(doc: seq<Line>)
    requires Whole(doc)
    ensures Split(Join(doc)) == doc
    decreases |doc|
  {
    hide Cut, Unbroken;
    if doc != [] {
      var rest := doc[1..];
      SplitJoin(rest);
      if rest != [] {
        JoinStarts(rest);
      }
      CutUnique(doc[0], Join(rest));
    }
  }

  lemma JoinStarts(doc: seq<Line>)
    requires Tidy(doc) && doc != []
    ensures Join(doc) != "" && (Join(doc)[0] == '\n' ==> doc[0].body == "" && doc[0].end == "\n")
  {
    var line := doc[0];
    assert Join(doc)[0] == line.Raw()[0];
    assert line.body != "" ==> line.Raw()[0] == line.body[0];
    assert line.body == "" ==> line.Raw()[0] == line.end[0];
  }

  // ---- the file's own terminator ----

  /** `_newline`: the terminator of the first line that has one. */
  function Newline(doc: seq<Line>): (end: string)
    ensures Ended(Line("", end))
  {
    if doc == [] then "\n" else if Ended(doc[0]) then doc[0].end else Newline(doc[1..])
  }
}
