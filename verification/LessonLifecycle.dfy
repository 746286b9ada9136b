/**
  The law of the lesson file: a legal command leaves a document that loads
  again, with its state and routing changed and everything else kept, exactly
  when the rewritten lines still end and the written texts stay on them.
 */
module LessonLifecycle {
  import opened Prelude
  import opened Sequences
  import opened PyText
  import opened JsonText
  import opened Inline
  import opened InlineRoundTrip
  import opened LessonFile
  import opened LessonRewrite
  import opened LessonReload
  import opened LessonEdits
  import opened LessonRouting
  import opened LessonRecord
  import opened LessonTransition

  // ---------------------------------------------------------------------
  // What a loaded document looks like
  // ---------------------------------------------------------------------

  /** The text of a record: an ended opening, whole lines, a closing marker and the body. */
  ghost predicate Shaped(rec: Record) {
    && IsMarker(rec.opening) && IsLine(rec.opening) && Ended(rec.opening)
    && AllWhole(rec.lines)
    && IsMarker(rec.closing) && (rec.closing == "---" ==> rec.body == "")
    && TakeAll(rec.lines, map[]).Some?
  }

  lemma LinesParts(lines: seq<string>, n: nat)
    requires WellSplit(lines) && 0 < n < |lines|
    ensures WellSplit(lines[1..n]) && SplitLines(Concat(lines[1..n])) == lines[1..n]
    ensures forall i :: 1 <= i < n ==> IsLine(lines[i]) && Ended(lines[i])
    ensures IsLine(lines[0]) && Ended(lines[0]) && IsLine(lines[n])
    ensures n + 1 < |lines| ==> Ended(lines[n])
  {
    assert forall i :: 0 <= i < |lines[1..n]| ==> lines[1..n][i] == lines[i + 1];
    SplitOfWell(lines[1..n]);
  }

  lemma LoadedShape(rules: Rules, text: string)
    requires LoadText(rules, text).Some?
    ensures var rec := LoadText(rules, text).value;
            && Shaped(rec)
            && Validate(rules, TakeAll(rec.lines, map[]).value) == Some(Checked(rec.others, rec.state, rec.routing))
            && BodyOk(rules, rec.body)
  {
    hide SplitLines, FirstMarker, Validate, BodyOk, TakeAll;
    var lines := SplitLines(text);
    SplitLinesIsSplit(text);
    var after := lines[1..];
    var n := FirstMarker(after);
    LinesParts(lines, n + 1);
    assert after[..n] == lines[1..n + 1];
    var rec := LoadText(rules, text).value;
    assert rec.lines == after[..n];
    forall i | 0 <= i < n ensures WholeLine(rec.lines[i]) {
      assert rec.lines[i] == lines[i + 1] && after[i] == lines[i + 1];
    }
    assert rec.closing == lines[n + 1] && after[n + 1..] == lines[n + 2..];
    if n + 2 == |lines| {
      assert lines[n + 2..] == [];
    }
  }

  /** After the closing marker comes the body. */
  lemma ClosingReads(rec: Record, fields: FieldMap)
    requires Shaped(rec)
    ensures var r := ReadFront(SplitLines(rec.closing + rec.body), fields);
            r.Some? && r.value.0 == fields && Concat(r.value.1) == rec.body
  {
    hide SplitLines, TakeAll, WholeLine;
    SplitLinesIsSplit(rec.body);
    if rec.closing == "---\n" {
      assert IsLine(rec.closing) && Ended(rec.closing) by {
        NewlineEnds("---");
      }
      SplitOne(rec.closing, rec.body);
      assert ([rec.closing] + SplitLines(rec.body))[1..] == SplitLines(rec.body);
    } else {
      var t := "---";
      assert rec.closing + rec.body == t;
      MarkerAlone();
    }
  }

  lemma MarkerAlone()
    ensures SplitLines("---") == ["---"]
  {
    var t := "---";
    assert NoBreaks(t);
    assert IsLine(t) && WellSplit([t]);
    assert Concat([t]) == t by {
      assert Concat([t]) == t + Concat([t][1..]);
    }
    SplitOfWell([t]);
  }

  /** The text over the frontmatter reads as its front. */
  lemma FrontAfterOpening(rec: Record, x: string)
    requires Shaped(rec)
    ensures FrontOf(rec.opening + x) == ReadFront(SplitLines(x), map[])
  {
    SplitOne(rec.opening, x);
    assert ([rec.opening] + SplitLines(x))[1..] == SplitLines(x);
  }

  lemma FieldPlaces(rec: Record)
    requires Shaped(rec)
    requires "state" in TakeAll(rec.lines, map[]).value && "routing" in TakeAll(rec.lines, map[]).value
    ensures Placed(rec)
    ensures Gives(rec.lines[PlaceOf(rec, "state")], "state") && Gives(rec.lines[PlaceOf(rec, "routing")], "routing")
  {
    hide TakeAll, OnlyPlace, Gives, Place, Names;
    IdentifierWord("state");
    IdentifierWord("routing");
    FieldPlace(rec, "state");
    FieldPlace(rec, "routing");
  }

  lemma FieldPlace(rec: Record, key: string)
    requires TakeAll(rec.lines, map[]).Some? && key in TakeAll(rec.lines, map[]).value && Identifier(key)
    ensures OnlyPlace(Names(rec.lines), key, PlaceOf(rec, key)) && Gives(rec.lines[PlaceOf(rec, key)], key)
  {
    hide TakeAll, Place, Names, EffectOf, Identifier;
    var i := FieldHasOneLine(rec.lines, key);
    PlaceIsOnly(Names(rec.lines), key, i);
  }

  // ---------------------------------------------------------------------
  // States as values
  // ---------------------------------------------------------------------

  /** Lower-case letters, colons and underscores: no more than that is in a state. */
  predicate StateWord(s: string) {
    s != "" && 'a' <= s[0] <= 'z' && !IsSpace(s[|s| - 1])
    && (forall i :: 0 <= i < |s| ==> 'a' <= s[i] <= 'z' || s[i] == ':' || s[i] == '_')
  }

  lemma PlainStatesAreWords(s: string)
    requires s in LESSON_STATES
    ensures StateWord(s) && s[0] !in {'n', 't', 'f'}
  {}

  lemma LayersAreWords(s: string)
    requires s in LAYERS
    ensures StateWord(s)
  {}

  lemma StatesAreWords(s: string)
    requires ValidState(s)
    ensures StateWord(s) && s[0] !in {'n', 't', 'f'}
  {
    if s in LESSON_STATES {
      PlainStatesAreWords(s);
    } else {
      var layer := LayerOf(s).value;
      LayersAreWords(layer);
      assert s == APPLIED + layer;
      assert s[|s| - 1] == layer[|layer| - 1];
      assert s[0] == 'a';
      forall i | 0 <= i < |s| ensures 'a' <= s[i] <= 'z' || s[i] == ':' || s[i] == '_' {
        if i >= 8 {
          assert s[i] == layer[i - 8];
        } else {
          assert s[i] == APPLIED[i];
        }
      }
    }
  }

  lemma WordIsText(s: string)
    requires StateWord(s) && s[0] !in {'n', 't', 'f'}
    ensures Scalar(s) == Some(Text(s))
  {
    assert Unsigned(s) == s && !IsDigit(s[0]);
    assert DigitRun(s) == 0;
    assert "null"[0] == 'n' && "true"[0] == 't' && "false"[0] == 'f';
    assert SafeField(s);
  }

  lemma LetterIsPlain(c: char)
    requires 'a' <= c <= 'z'
    ensures !IsSpace(c) && c !in {'{', '[', '"'}
  {}

  lemma StopIsSolid(c: char)
    requires c in VALUE_STOPS
    ensures !IsSpace(c)
  {}

  /** A bare scalar parses when it is read to the end. */
  lemma BareParse(s: string)
    requires s != "" && ReadValue(s) == ReadScalar(s) && Strip(s) == s
    ensures Parse(s) == if Until(s, VALUE_STOPS) == |s| then Scalar(s) else None
  {
    var n := Until(s, VALUE_STOPS);
    if n == |s| {
      assert s[..n] == s && s[n..] == "";
    } else {
      StopIsSolid(s[n]);
      StartsStrips(s[n..]);
    }
  }

  /** Text that starts with a letter reads as a scalar of the whole of it, or not at all. */
  lemma LetterText(s: string)
    requires s != "" && 'a' <= s[0] <= 'z' && !IsSpace(s[|s| - 1])
    ensures Parse(s) == if Until(s, VALUE_STOPS) == |s| then Scalar(s) else None
  {
    LetterIsPlain(s[0]);
    StartsStrips(s);
    ReadsAsScalar(s);
    StripOfTight(s);
    BareParse(s);
  }

  lemma WordHasNoStops(s: string)
    requires StateWord(s)
    ensures Until(s, VALUE_STOPS) == |s| && NoBreaks(s)
  {
    assert forall i :: 0 <= i < |s| ==> s[i] !in VALUE_STOPS && !IsBreak(s[i]);
    UntilPastToken(s, "", VALUE_STOPS);
    assert s + "" == s;
  }

  lemma StateReads(s: string)
    requires ValidState(s)
    ensures Tight(s) && NoBreaks(s) && Parse(s) == Some(Text(s))
  {
    StatesAreWords(s);
    LetterIsPlain(s[0]);
    WordIsText(s);
    LetterText(s);
    WordHasNoStops(s);
  }

  lemma KeysAreIdentifiers()
    ensures Identifier("state") && Identifier("routing")
  {
    IdentifierWord("state");
    IdentifierWord("routing");
  }

  lemma SoundFrom(e: Edit)
    requires Identifier(e.key) && Tight(e.rendered) && Parse(e.rendered) == Some(e.value)
    ensures SoundEdit(e)
  {}

  lemma StateEditReads(s: string)
    requires ValidState(s)
    ensures SoundEdit(StateEdit(s))
  {
    KeysAreIdentifiers();
    StateReads(s);
    SoundFrom(StateEdit(s));
  }

  lemma ScalarTextIsToken(s: string)
    requires Scalar(s).Some? && Scalar(s).value.Text?
    ensures Scalar(s).value.text == s
  {}

  /** No state is the beginning of another. */
  lemma NoStateExtends(s: string, x: string)
    requires ValidState(s) && x != ""
    ensures !ValidState(s + x)
  {
    var t := s + x;
    assert t[..|s|] == s;
    assert forall i :: 0 <= i < |s| ==> t[i] == s[i];
    if s in LESSON_STATES {
      PlainStateAlone(s, t);
    } else {
      var layer := LayerOf(s).value;
      CutsOfSum(s, x, 8);
      assert t[8..] == layer + x && t[..8] == APPLIED;
      AppliedIsNotPlain(t);
      LayerAlone(layer, x);
    }
  }

  lemma AppliedIsNotPlain(t: string)
    requires |t| >= 8 && t[..8] == APPLIED
    ensures t !in LESSON_STATES
  {
    assert t[7] == APPLIED[7] == ':';
    assert |"escalated"| == 9 && "escalated"[7] == 'e';
    assert |"resolved"| == 8 && "resolved"[7] == 'd' && |"accepted"| == 8 && "accepted"[7] == 'd';
    assert |"draft"| == 5 && |"retired"| == 7;
  }

  lemma AppliedStart(t: string)
    requires LayerOf(t).Some?
    ensures t[0] == 'a' && t[1] == 'p'
  {
    assert t[..8][0] == t[0] && t[..8][1] == t[1];
  }

  lemma PlainStateAlone(s: string, t: string)
    requires s in LESSON_STATES && |t| > |s| && t[..|s|] == s
    ensures !ValidState(t)
  {
    assert t[0] == s[0] && t[1] == s[1] && t[2] == s[2];
    if LayerOf(t).Some? {
      AppliedStart(t);
    }
  }

  lemma LayerAlone(layer: string, x: string)
    requires layer in LAYERS && x != ""
    ensures layer + x !in LAYERS
  {
    var t := layer + x;
    assert t[0] == layer[0] && |t| > |layer|;
  }

  // ---------------------------------------------------------------------
  // Both edits are sound and fragile
  // ---------------------------------------------------------------------

  predicate BadState(key: string, v: Value) {
    key == "state" && StateOf(v).None?
  }

  lemma FragileWhenRunOn(e: Edit, invalid: Invalid)
    requires NoBreaks(e.rendered)
    requires forall b: string :: !Blank(b) ==> Spoiled(EffectOf(Spelled(e.key, e.rendered + b)), e.key, invalid)
    ensures Fragile(e, invalid)
  {}

  lemma StateEditIsFragile(s: string)
    requires ValidState(s)
    ensures Fragile(StateEdit(s), BadState)
  {
    StateReads(s);
    var e := StateEdit(s);
    forall b: string | !Blank(b) ensures Spoiled(EffectOf(Spelled(e.key, e.rendered + b)), e.key, BadState) {
      StateThenMore(s, b);
    }
    FragileWhenRunOn(e, BadState);
  }

  lemma StateThenMore(s: string, b: string)
    requires ValidState(s) && !Blank(b)
    ensures Spoiled(EffectOf(Spelled("state", s + b)), "state", BadState)
  {
    IdentifierWord("state");
    StateReads(s);
    RunOnEffect("state", s, b);
    var x := RightStrip(b);
    StripsToNothing(b);
    var t := s + x;
    assert t[0] == s[0] && t[|t| - 1] == x[|x| - 1];
    StatesAreWords(s);
    LetterText(t);
    NoStateExtends(s, x);
    if Parse(t).Some? && Parse(t).value.Text? {
      ScalarTextIsToken(t);
    }
  }

  lemma RoutingEditIsFragile(r: Routing)
    ensures Fragile(RoutingEdit(r), BadState)
  {
    var e, fields := RoutingEdit(r), AsFields(r);
    RoutingKeys(r);
    IdentifierWord("routing");
    if !NoBreaks(e.rendered) {
      BrokenMappingFails("routing", fields);
    }
    forall b: string | !Blank(b) ensures EffectOf(Spelled("routing", e.rendered + b)).Fails? {
      MappingThenMoreFails("routing", fields, b);
    }
  }

  lemma RoutingEditReads(r: Routing)
    ensures SoundEdit(RoutingEdit(r))
  {
    IdentifierWord("routing");
    RoutingKeys(r);
    MappingIsTight(AsFields(r));
    MappingReadsBack(AsFields(r), "");
  }

  predicate OptionOneLine(s: Option<string>) {
    s.Some? ==> OneLine(s.value)
  }

  lemma LayersStay(s: string)
    requires s in LAYERS
    ensures OneLine(s)
  {
    LayersAreWords(s);
    assert forall i :: 0 <= i < |s| ==> !RawBreak(s[i]);
  }

  lemma RoutingBreaksExactly(rules: Rules, r: Routing)
    requires Settled(rules, r)
    ensures NoBreaks(RenderMapping(AsFields(r))) <==> OptionOneLine(r.reason) && OptionOneLine(r.bead)
  {
    RoutingKeys(r);
    MappingBreaksExactly(AsFields(r));
    if r.recommended.Some? {
      LayersStay(r.recommended.value);
    }
    if r.applied.Some? {
      LayersStay(r.applied.value);
    }
    var f := AsFields(r);
    assert AllStay(f) <==> StaysOnLine(f[0].1) && StaysOnLine(f[1].1) && StaysOnLine(f[2].1)
                           && StaysOnLine(f[3].1) && StaysOnLine(f[4].1);
  }
}
