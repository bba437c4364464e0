/**
  What one line of a journal entry is: a section header, a title, a checkbox.
  The reader matches lines without their terminator and the writer matches them
  with it, so each class is a predicate on strings and the two are compared.
*/
module DenLines {
  import opened Prelude
  import opened DenText

  // ---- strip ----

  lemma {:induction false} LeftIs(s: string, blank: string, kept: string)
    requires s == blank + kept && AllBlank(blank) && (kept == "" || !Blank(kept[0]))
    ensures StripLeft(s) == kept
    decreases |blank|
  {
    if blank == "" {
      assert s == kept;
    } else {
      assert s[0] == blank[0] && s[1..] == blank[1..] + kept;
      LeftIs(s[1..], blank[1..], kept);
    }
  }

  lemma {:induction false} RightIs(s: string, kept: string, blank: string)
    requires s == kept + blank && AllBlank(blank) && (kept == "" || !Blank(kept[|kept| - 1]))
    ensures StripRight(s) == kept
    decreases |blank|
  {
    if blank == "" {
      assert s == kept;
    } else {
      var m := |blank| - 1;
      assert s[|s| - 1] == blank[m] && s[..|s| - 1] == kept + blank[..m];
      RightIs(s[..|s| - 1], kept, blank[..m]);
    }
  }

  /** `strip` takes exactly the blanks around what is kept. */
  lemma StripIs(left: string, kept: string, right: string)
    requires AllBlank(left) && AllBlank(right)
    requires kept == "" || (!Blank(kept[0]) && !Blank(kept[|kept| - 1]))
    ensures Strip(left + kept + right) == kept
  {
    if kept == "" {
      assert left + kept + right == left + right && AllBlank(left + right);
      LeftIs(left + right, left + right, "");
    } else {
      assert left + kept + right == left + (kept + right);
      LeftIs(left + kept + right, left, kept + right);
      RightIs(kept + right, kept, right);
    }
  }

  lemma {:induction false} LeftParts(s: string) returns (blank: string)
    ensures s == blank + StripLeft(s) && AllBlank(blank)
    ensures StripLeft(s) == "" || !Blank(StripLeft(s)[0])
  {
    blank := "";
    if s != "" && Blank(s[0]) {
      var more := LeftParts(s[1..]);
      blank := [s[0]] + more;
    }
  }

  lemma {:induction false} RightParts(s: string) returns (blank: string)
    ensures s == StripRight(s) + blank && AllBlank(blank)
    ensures StripRight(s) == "" || !Blank(StripRight(s)[|StripRight(s)| - 1])
  {
    blank := "";
    if s != "" && Blank(s[|s| - 1]) {
      var more := RightParts(s[..|s| - 1]);
      blank := more + [s[|s| - 1]];
    }
  }

  /** Every string is blanks, what `strip` keeps, and blanks. */
  lemma StripParts(s: string) returns (left: string, right: string)
    ensures s == left + Strip(s) + right && AllBlank(left) && AllBlank(right)
    ensures Strip(s) == "" || (!Blank(Strip(s)[0]) && !Blank(Strip(s)[|Strip(s)| - 1]))
  {
    left := LeftParts(s);
    right := RightParts(StripLeft(s));
  }

  lemma StripTrailing(s: string, blank: string)
    requires AllBlank(blank)
    ensures Strip(s + blank) == Strip(s)
  {
    var left, right := StripParts(s);
    assert s + blank == left + Strip(s) + (right + blank);
    StripIs(left, Strip(s), right + blank);
  }

  lemma StripTwice(s: string)
    ensures Strip(Strip(s)) == Strip(s)
  {
    var left, right := StripParts(s);
    assert "" + Strip(s) + "" == Strip(s);
    StripIs("", Strip(s), "");
  }

  // ---- headers and titles ----

  /** `_H3` on the stripped line: three marks, a blank, and the section's name. */
  function HeaderName(s: string): Option<string> {
    var t := Strip(s);
    if |t| > 3 && t[..3] == "###" && Blank(t[3]) then Some(Lower(Strip(t[3..]))) else None
  }

  /** `_H1` on the line as it is. */
  function TitleOf(s: string): Option<string> {
    if |s| > 2 && s[0] == '#' && Blank(s[1]) then Some(Strip(s[1..])) else None
  }

  // ---- checkboxes ----

  datatype Box = Box(text: string, done: bool)

  function Skip(s: string, from: nat): (k: nat)
    requires from <= |s|
    ensures from <= k <= |s|
    ensures forall i :: from <= i < k ==> Blank(s[i])
    ensures k < |s| ==> !Blank(s[k])
    decreases |s| - from
  {
    if from == |s| || !Blank(s[from]) then from else Skip(s, from + 1)
  }

  predicate Mark(c: char) { c == ' ' || c == 'x' || c == 'X' }

  /** Where the bracket of a leading `- [ ]` is. */
  function BoxAt(s: string): Option<nat> {
    var dash := Skip(s, 0);
    if dash == |s| || s[dash] != '-' then None
    else
      var open := Skip(s, dash + 1);
      if open == dash + 1 || open + 2 >= |s| || s[open] != '[' || !Mark(s[open + 1]) || s[open + 2] != ']' then None
      else Some(open)
  }

  /** A blank after the bracket and one character that a dot matches after that. */
  predicate Texted(s: string, from: nat) {
    from + 1 < |s| && Blank(s[from]) && exists i :: from + 1 <= i < |s| && s[i] != '\n'
  }

  /** `_CHECK.match`. */
  function CheckMatch(s: string): Option<Box> {
    match BoxAt(s)
    case None => None
    case Some(open) =>
      if open + 3 <= |s| && Texted(s, open + 3) then Some(Box(Strip(s[open + 3..]), s[open + 1] != ' ')) else None
  }

  /** A terminated line, as the writer sees it, or the last line of a text without one. */
  predicate Formed(line: Line) { Unbroken(line.body) && (Ended(line) || line.end == "") }

  /**
    A box with nothing but one blank after it, on a line that ends with a CR:
    the writer's pattern takes the CR for its text, the reader never sees it.
  */
  predicate Hollow(line: Line) {
    var open := BoxAt(line.body);
    && open.Some? && |line.body| == open.value + 4 && Blank(line.body[open.value + 3])
    && line.end != "" && line.end[0] == '\r'
  }

  lemma SkipEnd(body: string, end: string, from: nat)
    requires from <= |body| && AllBlank(end)
    ensures Skip(body + end, from) == if Skip(body, from) < |body| then Skip(body, from) else |body + end|
    decreases |body| - from
  {
    if from == |body| {
      SkipBlank(body + end, from);
    } else {
      assert (body + end)[from] == body[from];
      if Blank(body[from]) {
        SkipEnd(body, end, from + 1);
      }
    }
  }

  lemma SkipBlank(s: string, from: nat)
    requires from <= |s| && forall i :: from <= i < |s| ==> Blank(s[i])
    ensures Skip(s, from) == |s|
  {
    var k := Skip(s, from);
  }

  lemma BoxEnd(line: Line)
    requires Formed(line)
    ensures BoxAt(line.Raw()) == BoxAt(line.body)
  {
    hide Unbroken, Skip;
    var body, s := line.body, line.Raw();
    SkipEnd(body, line.end, 0);
    var dash := Skip(body, 0);
    assert forall i :: 0 <= i < |body| ==> s[i] == body[i];
    assert forall i :: |body| <= i < |s| ==> s[i] == line.end[i - |body|];
    assert AllBlank(line.end);
    if dash < |body| && body[dash] == '-' {
      SkipEnd(body, line.end, dash + 1);
    }
  }

  /** What a dot can match in a line without its terminator, and in the line with it. */
  lemma TextedEnd(line: Line, from: nat)
    requires Formed(line) && from <= |line.body|
    ensures Texted(line.body, from) <==> from + 1 < |line.body| && Blank(line.body[from])
    ensures Texted(line.Raw(), from) <==>
      || Texted(line.body, from)
      || (|line.body| == from + 1 && Blank(line.body[from]) && line.end != "" && line.end[0] == '\r')
  {
    var body, s := line.body, line.Raw();
    assert forall i :: 0 <= i < |body| ==> s[i] == body[i] && s[i] != '\n';
    assert forall i :: |body| <= i < |s| ==> s[i] == line.end[i - |body|];
    if from + 1 < |body| {
      assert s[from + 1] != '\n' && body[from + 1] != '\n';
    } else if line.end != "" {
      assert s[|body|] == line.end[0];
      assert |line.end| == 2 ==> s[|body| + 1] == '\n';
    }
  }

  /** The writer matches what the reader matches, and the hollow lines besides. */
  lemma WriterSees(line: Line)
    requires Formed(line)
    ensures Hollow(line) ==> CheckMatch(line.body).None? && CheckMatch(line.Raw()).Some?
    ensures !Hollow(line) ==> CheckMatch(line.Raw()) == CheckMatch(line.body)
  {
    hide BoxAt, Texted, Strip;
    BoxEnd(line);
    if BoxAt(line.body).Some? {
      BoxFits(line.body);
      var open := BoxAt(line.body).value;
      TextedEnd(line, open + 3);
      assert line.Raw()[open + 3..] == line.body[open + 3..] + line.end;
      StripTrailing(line.body[open + 3..], line.end);
    }
  }

  lemma BoxFits(s: string)
    requires BoxAt(s).Some?
    ensures BoxAt(s).value + 3 <= |s| && BoxChars(s, BoxAt(s).value) && Mark(s[BoxAt(s).value + 1])
    ensures forall i :: 0 <= i < BoxAt(s).value ==> s[i] != '['
  {
  }

  // ---- flipping a box ----

  predicate BoxChars(s: string, k: nat) {
    k + 2 < |s| && s[k] == '[' && (Mark(s[k + 1]) || s[k + 1] == '~') && s[k + 2] == ']'
  }

  /** `_BOX.search`: the first bracketed mark. */
  function FirstBox(s: string, from: nat): (k: nat)
    requires from <= |s|
    ensures from <= k <= |s|
    ensures forall i :: from <= i < k ==> !BoxChars(s, i)
    ensures k < |s| ==> BoxChars(s, k)
    decreases |s| - from
  {
    if from == |s| || BoxChars(s, from) then from else FirstBox(s, from + 1)
  }

  /** `_flip`: the first bracketed mark becomes a tick, or stops being one. */
  function Flip(s: string, done: bool): (r: string)
    ensures |r| == |s|
  {
    var k := FirstBox(s, 0);
    if k == |s| then s else s[k + 1 := if done then ' ' else 'x']
  }

  lemma FirstIsBox(s: string)
    requires BoxAt(s).Some?
    ensures FirstBox(s, 0) == BoxAt(s).value
  {
    hide BoxAt;
    BoxFits(s);
  }

  lemma SkipSame(s: string, t: string, from: nat, changed: nat)
    requires |t| == |s| && from <= changed < |s| && Skip(s, from) <= changed
    requires forall i :: 0 <= i < |s| && i != changed ==> t[i] == s[i]
    requires Skip(s, from) < changed
    ensures Skip(t, from) == Skip(s, from)
    decreases changed - from
  {
    if Blank(s[from]) {
      SkipSame(s, t, from + 1, changed);
    }
  }

  lemma FlipBox(s: string, done: bool)
    requires BoxAt(s).Some?
    ensures BoxAt(Flip(s, done)) == BoxAt(s)
    ensures Flip(s, done) == s[BoxAt(s).value + 1 := if done then ' ' else 'x']
  {
    FirstIsBox(s);
    var open := BoxAt(s).value;
    SkipSame(s, Flip(s, done), 0, open + 1);
    SkipSame(s, Flip(s, done), Skip(s, 0) + 1, open + 1);
  }

  /** Flipping a matched line changes its tick and nothing else that is read. */
  lemma FlipFlips(s: string)
    requires CheckMatch(s).Some?
    ensures var box := CheckMatch(s).value;
      CheckMatch(Flip(s, box.done)) == Some(Box(box.text, !box.done))
  {
    hide BoxAt, Flip, Strip;
    BoxFits(s);
    var open := BoxAt(s).value;
    FlipBox(s, CheckMatch(s).value.done);
    var t := Flip(s, CheckMatch(s).value.done);
    assert t[open + 3..] == s[open + 3..];
    var i :| open + 4 <= i < |s| && s[i] != '\n';
    assert t[i] != '\n';
  }

  /** Flipping the line with its terminator is flipping its body. */
  lemma FlipEnd(line: Line, done: bool)
    requires Formed(line) && BoxAt(line.body).Some?
    ensures Flip(line.Raw(), done) == Flip(line.body, done) + line.end
  {
    BoxEnd(line);
    FirstIsBox(line.body);
    FirstIsBox(line.Raw());
  }
}
