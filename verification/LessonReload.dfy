/**
  Rewriting fields of a document that reads: exactly when the rewritten text
  reads again with those fields changed and nothing else.
 */
module LessonReload {
  import opened Prelude
  import opened Sequences
  import opened PyText
  import opened Inline
  import opened InlineRoundTrip
  import opened LessonFile
  import opened LessonRewrite

  // ---------------------------------------------------------------------
  // One piece of text at a time
  // ---------------------------------------------------------------------

  function FirstOf(t: string): string {
    t[..FirstLine(t)]
  }

  /** An ended line that is not a marker. */
  predicate WholeLine(c: string) {
    IsLine(c) && Ended(c) && !IsMarker(c)
  }

  /** A field that lost its terminator, run on into a blank line. */
  predicate OpenField(c: string, t: string) {
    && c != "" && NoBreaks(c) && !IsSpace(c[0]) && c[0] != '-' && Colon(c) < |c|
    && t != "" && Blank(FirstOf(t))
  }

  ghost predicate StepOk(c: string, t: string) {
    WholeLine(c) || OpenField(c, t)
  }

  function Then(taken: Option<FieldMap>, t: string): Option<(FieldMap, seq<string>)> {
    match taken
    case None => None
    case Some(fields) => ReadFront(SplitLines(t), fields)
  }

  lemma FrontStep(line: string, rest: seq<string>, fields: FieldMap)
    requires !IsMarker(line)
    ensures ReadFront([line] + rest, fields) == match Take(line, fields)
                                                case None => None
                                                case Some(more) => ReadFront(rest, more)
  {
    assert ([line] + rest)[1..] == rest;
  }

  lemma WholeStep(c: string, t: string, fields: FieldMap)
    requires WholeLine(c)
    ensures ReadFront(SplitLines(c + t), fields) == Then(Take(c, fields), t)
  {
    SplitOne(c, t);
    FrontStep(c, SplitLines(t), fields);
  }

  lemma {:induction false} ColonOfSum(c: string, x: string)
    requires Colon(c) < |c|
    ensures Colon(c + x) == Colon(c)
  {
    DropsFirst(c, x);
    if c[0] != ':' {
      ColonOfSum(c[1..], x);
    }
  }

  lemma CutsOfSum(c: string, x: string, n: nat)
    requires n <= |c|
    ensures (c + x)[..n] == c[..n] && (c + x)[n..] == c[n..] + x
  {}

  lemma NameIgnores(c: string, x: string)
    requires c != "" && Colon(c) < |c|
    ensures FieldName(c + x) == FieldName(c) && NamesField(c + x) == NamesField(c)
  {
    ColonOfSum(c, x);
    CutsOfSum(c, x, Colon(c));
    assert (c + x)[0] == c[0];
  }

  lemma RawIgnores(c: string, spaces: string)
    requires Colon(c) < |c| && Blank(spaces)
    ensures Colon(c + spaces) < |c| && RawValue(c + spaces) == RawValue(c)
  {
    hide Colon, Strip, Blank;
    ColonOfSum(c, spaces);
    CutsOfSum(c, spaces, Colon(c) + 1);
    StripIgnores(c[Colon(c) + 1..], spaces);
  }

  /** A line's effect, from what can be seen of it. */
  function EffectFrom(skipped: bool, names: bool, name: string, value: Option<Value>): Effect {
    if skipped then Skips
    else if !names || value.None? then Fails
    else Adds(name, value.value)
  }

  lemma EffectIsFrom(line: string)
    requires Colon(line) < |line|
    ensures EffectOf(line) == EffectFrom(Skipped(line), NamesField(line), FieldName(line), Parse(RawValue(line)))
  {}

  /** Trailing spaces do not change what a field line contributes. */
  lemma EffectIgnores(c: string, spaces: string)
    requires c != "" && Colon(c) < |c| && Blank(spaces)
    ensures EffectOf(c + spaces) == EffectOf(c)
  {
    NameIgnores(c, spaces);
    RawIgnores(c, spaces);
    StripIgnores(c, spaces);
    ColonOfSum(c, spaces);
    EffectIsFrom(c);
    EffectIsFrom(c + spaces);
  }

  lemma BlankIsSkipped(line: string)
    requires Blank(line)
    ensures Skipped(line) && !IsMarker(line)
  {
    StripsToNothing(line);
    if line != "" {
      assert IsSpace(line[0]);
    }
  }

  lemma OpenStep(c: string, t: string, fields: FieldMap)
    requires OpenField(c, t)
    ensures ReadFront(SplitLines(c + t), fields) == Then(Take(c, fields), t)
  {
    var b, rest := FirstOf(t), SplitLines(t[FirstLine(t)..]);
    RunsOn(c, t);
    assert (c + b)[0] == c[0];
    FrontStep(c + b, rest, fields);
    EffectIgnores(c, b);
    TakeApplies(c + b, fields);
    TakeApplies(c, fields);
    BlankIsSkipped(b);
    var taken := Take(c, fields);
    if taken.Some? {
      FrontStep(b, rest, taken.value);
    }
  }

  /** Pieces that each step cleanly into what follows read as if they were lines of their own. */
  lemma {:induction false} PiecesRead(pieces: seq<string>, t: string, fields: FieldMap)
    requires forall i :: 0 <= i < |pieces| ==> StepOk(pieces[i], Concat(pieces[i + 1..]) + t)
    ensures ReadFront(SplitLines(Concat(pieces) + t), fields) == Then(TakeAll(pieces, fields), t)
  {
    if pieces == [] {
      assert Concat(pieces) + t == t;
    } else {
      var after := Concat(pieces[1..]) + t;
      Associates(pieces[0], Concat(pieces[1..]), t);
      if WholeLine(pieces[0]) {
        WholeStep(pieces[0], after, fields);
      } else {
        OpenStep(pieces[0], after, fields);
      }
      var taken := Take(pieces[0], fields);
      if taken.Some? {
        forall i | 0 <= i < |pieces[1..]| ensures StepOk(pieces[1..][i], Concat(pieces[1..][i + 1..]) + t) {
          assert pieces[1..][i + 1..] == pieces[i + 2..];
          assert StepOk(pieces[i + 1], Concat(pieces[i + 2..]) + t);
        }
        PiecesRead(pieces[1..], t, taken.value);
      }
    }
  }

  // ---------------------------------------------------------------------
  // A rewritten line
  // ---------------------------------------------------------------------

  lemma StripKeepsHead(s: string)
    requires s != "" && !IsSpace(s[0])
    ensures Strip(s) != "" && Strip(s)[0] == s[0]
  {
    var t := RightStrip(s);
    assert t != "" by {
      if t == "" {
        StripsToNothing(s);
      }
    }
  }

  lemma {:induction false} IdentifierHasNoColon(key: string, rest: string)
    requires forall i :: 0 <= i < |key| ==> KeyChar(key[i])
    ensures Colon(key + (":" + rest)) == |key|
  {
    if key == "" {
      assert key + (":" + rest) == ":" + rest;
    } else {
      DropsFirst(key, ":" + rest);
      IdentifierHasNoColon(key[1..], rest);
    }
  }

  function Spelled(key: string, rest: string): string {
    key + (": " + rest)
  }

  lemma SpelledParts(key: string, rest: string)
    requires Identifier(key)
    ensures var line := Spelled(key, rest);
            && Colon(line) == |key| < |line| && FieldName(line) == key && RawValue(line) == Strip(" " + rest)
            && line[0] == key[0] && !IsSpace(line[0])
  {
    var line := Spelled(key, rest);
    assert line == key + (":" + (" " + rest));
    IdentifierHasNoColon(key, " " + rest);
    IdentifierIsTight(key);
    CutsBack(key, ": " + rest);
    assert line[|key|..][1..] == line[|key| + 1..];
    assert (": " + rest)[1..] == " " + rest;
  }

  lemma SpelledIsField(key: string, rest: string)
    requires Identifier(key)
    ensures NamesField(Spelled(key, rest)) && !Skipped(Spelled(key, rest))
  {
    SpelledParts(key, rest);
    StripKeepsHead(Spelled(key, rest));
    KeyCharIsNoHash(key);
  }

  /** A key, a colon and a value: what the line contributes is what the value reads as. */
  lemma SpelledEffect(key: string, rest: string)
    requires Identifier(key)
    ensures EffectOf(Spelled(key, rest)) == EffectFrom(false, true, key, Parse(Strip(" " + rest)))
  {
    SpelledParts(key, rest);
    SpelledIsField(key, rest);
    EffectIsFrom(Spelled(key, rest));
  }

  lemma KeyCharIsNoHash(key: string)
    requires Identifier(key)
    ensures key[0] != '#' && key[0] != '-'
  {}

  /** Text with nothing to strip at either end. */
  predicate Tight(s: string) {
    s != "" && !IsSpace(s[0]) && !IsSpace(s[|s| - 1])
  }

  lemma RewrittenEffect(key: string, rendered: string, ending: string)
    requires Identifier(key) && Tight(rendered) && Blank(ending)
    ensures EffectOf(Spelled(key, rendered + ending)) == EffectFrom(false, true, key, Parse(rendered))
    ensures Parse(rendered).Some? ==> EffectOf(Spelled(key, rendered + ending)) == Adds(key, Parse(rendered).value)
  {
    SpelledEffect(key, rendered + ending);
    StripsAround(rendered, ending);
    Associates(" ", rendered, ending);
  }

  lemma {:induction false} RightStripOfSum(a: string, b: string)
    requires !Blank(b)
    ensures RightStrip(a + b) == a + RightStrip(b)
    decreases |b|
  {
    var s := a + b;
    assert s[|s| - 1] == b[|b| - 1];
    if IsSpace(b[|b| - 1]) {
      var b' := b[..|b| - 1];
      assert s[..|s| - 1] == a + b';
      assert !Blank(b') by {
        var i :| 0 <= i < |b| && !IsSpace(b[i]);
        assert b'[i] == b[i];
      }
      RightStripOfSum(a, b');
    }
  }

  /** Run on into text that is not blank, the value reads with that text behind it. */
  lemma RunOnEffect(key: string, rendered: string, b: string)
    requires Identifier(key) && Tight(rendered) && !Blank(b)
    ensures EffectOf(Spelled(key, rendered + b)) == EffectFrom(false, true, key, Parse(rendered + RightStrip(b)))
  {
    SpelledEffect(key, rendered + b);
    Associates(" ", rendered, b);
    RightStripOfSum(" " + rendered, b);
    Associates(" ", rendered, RightStrip(b));
    OneLead(rendered + RightStrip(b));
    StartsStrips(rendered + RightStrip(b));
  }
}
