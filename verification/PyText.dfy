/**
  The parts of Python's `str` the lesson format leans on: whitespace, line
  breaks, `strip`, and `splitlines(keepends=True)`.
 */
module PyText {
  import opened Sequences

  /** `str.isspace` of one character. */
  predicate IsSpace(c: char) {
    || '\t' <= c <= '\r' || '\U{1C}' <= c <= ' ' || c == '\U{85}' || c == '\U{A0}' || c == '\U{1680}'
    || '\U{2000}' <= c <= '\U{200A}' || c == '\U{2028}' || c == '\U{2029}' || c == '\U{202F}' || c == '\U{205F}'
    || c == '\U{3000}'
  }

  /** A character `splitlines` ends a line at. Text read from a file holds no carriage return. */
  predicate IsBreak(c: char) {
    '\n' <= c <= '\r' || '\U{1C}' <= c <= '\U{1E}' || c == '\U{85}' || c == '\U{2028}' || c == '\U{2029}'
  }

  lemma BreaksAreSpaces(c: char)
    requires IsBreak(c)
    ensures IsSpace(c)
  {}

  function LeftStrip(s: string): (r: string)
    ensures |r| <= |s| && (r != "" ==> !IsSpace(r[0]))
    ensures r == s[|s| - |r|..]
  {
    if s != "" && IsSpace(s[0]) then LeftStrip(s[1..]) else s
  }

  lemma OneLead(s: string)
    ensures LeftStrip(" " + s) == LeftStrip(s)
  {
    hide IsSpace;
    CutsBack(" ", s);
    SpaceIsSpace();
  }

  lemma SpaceIsSpace()
    ensures IsSpace(' ')
  {}

  function RightStrip(s: string): (r: string)
    ensures |r| <= |s| && r == s[..|r|]
    ensures r != "" ==> !IsSpace(r[|r| - 1])
    ensures forall i :: |r| <= i < |s| ==> IsSpace(s[i])
  {
    if s != "" && IsSpace(s[|s| - 1]) then RightStrip(s[..|s| - 1]) else s
  }

  /** `str.strip()`. */
  function Strip(s: string): string {
    LeftStrip(RightStrip(s))
  }

  predicate Blank(s: string) {
    forall i :: 0 <= i < |s| ==> IsSpace(s[i])
  }

  lemma StripsToNothing(s: string)
    ensures Strip(s) == "" <==> Blank(s)
    ensures RightStrip(s) == "" <==> Blank(s)
  {
    var r := RightStrip(s);
    if r != "" {
      assert s[|r| - 1] == r[|r| - 1];
      LeftStripOfSolid(r);
    }
  }

  lemma {:induction false} LeftStripOfSolid(s: string)
    requires s != "" && !IsSpace(s[|s| - 1])
    ensures LeftStrip(s) != ""
  {
    if IsSpace(s[0]) {
      assert s[1..][|s| - 2] == s[|s| - 1];
      LeftStripOfSolid(s[1..]);
    }
  }

  /** Text with no space at either end strips to itself. */
  lemma StripOfTight(s: string)
    requires s != "" ==> !IsSpace(s[0]) && !IsSpace(s[|s| - 1])
    ensures Strip(s) == s && LeftStrip(s) == s && RightStrip(s) == s
  {}

  /** Trailing spaces do not show after a right strip. */
  lemma {:induction false} RightStripIgnores(s: string, spaces: string)
    requires Blank(spaces)
    ensures RightStrip(s + spaces) == RightStrip(s)
    decreases |spaces|
  {
    if spaces == "" {
      assert s + spaces == s;
    } else {
      var last := |spaces| - 1;
      assert (s + spaces)[..|s + spaces| - 1] == s + spaces[..last];
      RightStripIgnores(s, spaces[..last]);
    }
  }

  // ---------------------------------------------------------------------
  // Lines
  // ---------------------------------------------------------------------

  /** The length of the first line, its break included. */
  function FirstLine(s: string): (n: nat)
    ensures n <= |s| && (s != "" ==> n > 0)
    ensures forall i :: 0 <= i < n - 1 ==> !IsBreak(s[i])
    ensures 0 < n < |s| ==> IsBreak(s[n - 1])
  {
    if s == "" then 0
    else if IsBreak(s[0]) then 1
    else 1 + FirstLine(s[1..])
  }

  /** `s.splitlines(keepends=True)`. */
  function SplitLines(s: string): seq<string>
    decreases |s|
  {
    if s == "" then [] else [s[..FirstLine(s)]] + SplitLines(s[FirstLine(s)..])
  }

  function Concat(lines: seq<string>): string {
    if lines == [] then "" else lines[0] + Concat(lines[1..])
  }

  predicate NoBreaks(s: string) {
    forall i :: 0 <= i < |s| ==> !IsBreak(s[i])
  }

  lemma NoBreaksJoin(a: string, b: string)
    ensures NoBreaks(a + b) <==> NoBreaks(a) && NoBreaks(b)
  {
    if NoBreaks(a + b) {
      assert forall i :: 0 <= i < |a| ==> a[i] == (a + b)[i];
      assert forall i :: 0 <= i < |b| ==> b[i] == (a + b)[|a| + i];
    }
  }

  predicate Ended(line: string) {
    line != "" && IsBreak(line[|line| - 1])
  }

  /** A line as `splitlines()` without its ends gives it. */
  function Unbroken(line: string): (r: string)
    ensures r == line || (Ended(line) && line == r + [line[|line| - 1]])
  {
    if Ended(line) then line[..|line| - 1] else line
  }

  /** At most one break, at the end. */
  predicate IsLine(line: string) {
    line != "" && NoBreaks(line[..|line| - 1])
  }

  /** What `splitlines` returns: lines, all but the last ended. */
  predicate WellSplit(lines: seq<string>) {
    && (forall i :: 0 <= i < |lines| ==> IsLine(lines[i]))
    && (forall i :: 0 <= i < |lines| - 1 ==> Ended(lines[i]))
  }

  lemma WellSplitCons(head: string, rest: seq<string>)
    requires IsLine(head) && WellSplit(rest) && (rest != [] ==> Ended(head))
    ensures WellSplit([head] + rest)
  {
    var lines := [head] + rest;
    assert forall i :: 0 < i < |lines| ==> lines[i] == rest[i - 1];
  }

  lemma FirstLineIsLine(s: string)
    requires s != ""
    ensures IsLine(s[..FirstLine(s)]) && (s[FirstLine(s)..] != "" ==> Ended(s[..FirstLine(s)]))
  {
    var head := s[..FirstLine(s)];
    assert head[..|head| - 1] == s[..|head| - 1];
  }

  lemma {:induction false} SplitLinesIsSplit(s: string)
    ensures WellSplit(SplitLines(s)) && Concat(SplitLines(s)) == s
    decreases |s|
  {
    if s != "" {
      var n := FirstLine(s);
      var rest := SplitLines(s[n..]);
      SplitLinesIsSplit(s[n..]);
      FirstLineIsLine(s);
      WellSplitCons(s[..n], rest);
      assert SplitLines(s)[1..] == rest;
      assert s[..n] + s[n..] == s;
    }
  }

  lemma {:induction false} FirstLineOf(line: string, rest: string)
    requires IsLine(line) && (Ended(line) || rest == "")
    ensures FirstLine(line + rest) == |line|
    decreases |line|
  {
    var s := line + rest;
    if |line| > 1 {
      assert !IsBreak(line[..|line| - 1][0]);
      assert s[1..] == line[1..] + rest;
      assert line[1..][..|line| - 2] == line[..|line| - 1][1..];
      FirstLineOf(line[1..], rest);
    } else if rest == "" {
      assert s[1..] == "";
    }
  }

  /** Splitting undoes joining exactly for lists that could have come from splitting. */
  lemma {:induction false} JoinedLinesSplitBack(lines: seq<string>)
    ensures SplitLines(Concat(lines)) == lines <==> WellSplit(lines)
  {
    SplitLinesIsSplit(Concat(lines));
    if WellSplit(lines) {
      SplitOfWell(lines);
    }
  }

  lemma {:induction false} SplitOfWell(lines: seq<string>)
    requires WellSplit(lines)
    ensures SplitLines(Concat(lines)) == lines
  {
    if lines != [] {
      var rest := Concat(lines[1..]);
      FirstLineOf(lines[0], rest);
      CutsBack(lines[0], rest);
      SplitOfWell(lines[1..]);
      HeadAndTail(lines);
    }
  }

  lemma {:induction false} ConcatAppend(a: seq<string>, b: seq<string>)
    ensures Concat(a + b) == Concat(a) + Concat(b)
  {
    if a == [] {
      assert a + b == b;
    } else {
      assert (a + b)[1..] == a[1..] + b;
      ConcatAppend(a[1..], b);
    }
  }

  lemma SplitOne(line: string, rest: string)
    requires IsLine(line) && Ended(line)
    ensures SplitLines(line + rest) == [line] + SplitLines(rest)
  {
    FirstLineOf(line, rest);
    CutsBack(line, rest);
  }

  lemma {:induction false} FirstLineRunsOn(a: string, b: string)
    requires NoBreaks(a)
    ensures FirstLine(a + b) == |a| + FirstLine(b)
  {
    if a == "" {
      assert a + b == b;
    } else {
      assert (a + b)[1..] == a[1..] + b;
      FirstLineRunsOn(a[1..], b);
    }
  }

  lemma SplitsFirst(s: string)
    requires s != ""
    ensures SplitLines(s) == [s[..FirstLine(s)]] + SplitLines(s[FirstLine(s)..])
  {
    hide FirstLine;
  }

  /** Text with no break runs into the first line of what follows. */
  lemma RunsOn(a: string, b: string)
    requires NoBreaks(a) && b != ""
    ensures SplitLines(a + b) == [a + b[..FirstLine(b)]] + SplitLines(b[FirstLine(b)..])
  {
    hide FirstLine, SplitLines, NoBreaks;
    FirstLineRunsOn(a, b);
    SplitsFirst(a + b);
    var n := FirstLine(b);
    assert (a + b)[..|a| + n] == a + b[..n];
    assert (a + b)[|a| + n..] == b[n..];
  }

  // ---------------------------------------------------------------------
  // Reading a text file
  // ---------------------------------------------------------------------

  /** Universal newlines: "\r\n" and a lone "\r" read as "\n". */
  function Universal(s: string): (r: string)
    ensures '\r' !in r
  {
    if s == "" then ""
    else if s[0] != '\r' then [s[0]] + Universal(s[1..])
    else if |s| > 1 && s[1] == '\n' then Universal(s[1..])
    else "\n" + Universal(s[1..])
  }

  lemma {:induction false} UniversalOfPlain(s: string)
    requires '\r' !in s
    ensures Universal(s) == s
  {
    if s != "" {
      assert s[0] in s;
      UniversalOfPlain(s[1..]);
    }
  }
}
