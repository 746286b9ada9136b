/**
  Where a rendered mapping breaks over two lines, and why what is left of it
  on the first is no value.
 */
module LessonRouting {
  import opened Prelude
  import opened Sequences
  import opened PyText
  import opened JsonText
  import opened Inline
  import opened InlineRoundTrip
  import opened LessonFile
  import opened LessonRewrite
  import opened LessonReload
  import opened LessonEdits

  // ---------------------------------------------------------------------
  // Cutting an escaped text
  // ---------------------------------------------------------------------

  lemma EscapeCons(s: string)
    requires s != ""
    ensures Escape(s) == EscapeChar(s[0]) + Escape(s[1..])
  {}

  lemma FirstOfRunsOn(a: string, b: string)
    requires NoBreaks(a) && b != ""
    ensures FirstOf(a + b) == a + FirstOf(b)
  {
    FirstLineRunsOn(a, b);
    assert (a + b)[..|a| + FirstLine(b)] == a + b[..FirstLine(b)];
  }

  lemma FirstOfBroken(a: string, x: string)
    requires !NoBreaks(a)
    ensures FirstOf(a + x) == FirstOf(a)
  {
    FirstBreakStays(a, x);
    CutsOfSum(a, x, FirstLine(a));
  }

  lemma EscapeOne(c: char)
    ensures Escape([c]) == EscapeChar(c)
  {
    assert [c][1..] == "";
    EscapeCons([c]);
    assert Escape("") == "";
  }

  lemma RawBreakStands(c: char, rest: string)
    requires RawBreak(c)
    ensures FirstOf(EscapeChar(c) + rest) == EscapeChar(c)
  {
    assert EscapeChar(c) == [c];
    CutsBack([c], rest);
  }

  /** The first line of an escaped text is an escaped beginning of it. */
  lemma {:induction false} FirstOfEscape(s: string, x: string) returns (begun: string)
    requires !OneLine(s)
    ensures FirstOf(Escape(s) + x) == Escape(begun)
  {
    EscapeCons(s);
    Associates(EscapeChar(s[0]), Escape(s[1..]), x);
    if RawBreak(s[0]) {
      begun := [s[0]];
      EscapeOne(s[0]);
      RawBreakStands(s[0], Escape(s[1..]) + x);
    } else {
      OneLineOfCons(s);
      CharBreaksExactly(s[0]);
      var more := FirstOfEscape(s[1..], x);
      EscapeBreaksExactly(s[1..]);
      FirstOfRunsOn(EscapeChar(s[0]), Escape(s[1..]) + x);
      begun := [s[0]] + more;
      assert begun[1..] == more;
      EscapeCons(begun);
    }
  }

  lemma {:induction false} EscapeSnoc(s: string)
    requires s != ""
    ensures Escape(s) == Escape(s[..|s| - 1]) + EscapeChar(s[|s| - 1])
  {
    EscapeCons(s);
    if |s| == 1 {
      assert s[1..] == "" && s[..0] == "";
      assert Escape("") == "";
    } else {
      EscapeSnoc(s[1..]);
      var init := s[..|s| - 1];
      assert init[1..] == s[1..][..|s| - 2];
      EscapeCons(init);
      Associates(EscapeChar(s[0]), Escape(init[1..]), EscapeChar(s[|s| - 1]));
    }
  }

  lemma EscapeCharEnd(c: char)
    ensures var e := EscapeChar(c);
            e != "" && (IsSpace(e[|e| - 1]) ==> e == [c] && IsSpace(c))
  {
    if c < ' ' && c !in {'\n', '\r', '\t', '\U{0C}', '\U{08}'} {
      var e := EscapeChar(c);
      assert e[|e| - 1] == HexDigit(c as int % 16);
    }
  }

  /** Stripping trailing spaces off an escaped text leaves an escaped beginning of it. */
  lemma {:induction false} StrippedEscape(s: string) returns (begun: string)
    ensures RightStrip(Escape(s)) == Escape(begun)
    decreases |s|
  {
    if s == "" {
      begun := "";
    } else {
      var last := s[|s| - 1];
      EscapeSnoc(s);
      EscapeCharEnd(last);
      if IsSpace(EscapeChar(last)[|EscapeChar(last)| - 1]) {
        begun := StrippedEscape(s[..|s| - 1]);
        RightStripIgnores(Escape(s[..|s| - 1]), [last]);
      } else {
        begun := s;
        SolidEnd(Escape(s));
      }
    }
  }

  // ---------------------------------------------------------------------
  // Where a mapping breaks
  // ---------------------------------------------------------------------

  lemma {:induction false} TokenHasNoBreaks(s: string)
    requires Token(s)
    ensures NoBreaks(s)
  {
    assert forall i :: 0 <= i < |s| ==> BareChar(s[i]);
  }

  predicate StaysOnLine(v: Value) {
    v.Text? ==> OneLine(v.text)
  }

  lemma BareTextIsOneLine(s: string)
    requires BareText(s)
    ensures OneLine(s)
  {
    assert forall i :: 0 <= i < |s| ==> BareChar(s[i]);
  }

  lemma ScalarBreaksExactly(v: Value)
    requires Plain(v)
    ensures NoBreaks(RenderScalar(v)) <==> StaysOnLine(v)
    ensures !StaysOnLine(v) ==> RenderScalar(v) == Quote(v.text)
  {
    if Unquoted(v) {
      TokenReads(v);
      TokenHasNoBreaks(RenderScalar(v));
      if v.Text? {
        BareTextIsOneLine(v.text);
      }
    } else {
      QuoteBreaksExactly(v.text);
    }
  }

  lemma ThreePartBreaks(a: string, b: string, c: string)
    ensures NoBreaks(a + b + c) <==> NoBreaks(a) && NoBreaks(b) && NoBreaks(c)
  {
    NoBreaksJoin(a + b, c);
    NoBreaksJoin(a, b);
  }

  lemma EntryBreaksExactly(entry: (string, Value))
    requires Plain(entry.1) && Identifier(entry.0)
    ensures NoBreaks(RenderEntry(entry)) <==> StaysOnLine(entry.1)
  {
    KeyHasNoBreaks(entry.0);
    ScalarBreaksExactly(entry.1);
    ThreePartBreaks(entry.0, ": ", RenderScalar(entry.1));
  }

  predicate AllStay(fields: seq<(string, Value)>) {
    forall i :: 0 <= i < |fields| ==> StaysOnLine(fields[i].1)
  }

  lemma PunctuationStays()
    ensures NoBreaks("}" + "") && NoBreaks(", ")
  {}

  lemma {:induction false} EntriesBreakExactly(fields: seq<(string, Value)>, i: nat)
    requires AllPlain(fields) && Keys(fields) && i < |fields|
    ensures NoBreaks(EntriesFrom(fields, i, "")) <==> forall j :: i <= j < |fields| ==> StaysOnLine(fields[j].1)
    decreases |fields| - i
  {
    hide EntriesFrom, RenderEntry, StaysOnLine, NoBreaks, Identifier;
    PunctuationStays();
    EntriesFromStep(fields, i, "");
    EntryBreaksExactly(fields[i]);
    if i + 1 == |fields| {
      NoBreaksJoin(RenderEntry(fields[i]), "}" + "");
    } else {
      EntriesBreakExactly(fields, i + 1);
      NoBreaksJoin(", ", EntriesFrom(fields, i + 1, ""));
      NoBreaksJoin(RenderEntry(fields[i]), ", " + EntriesFrom(fields, i + 1, ""));
    }
  }

  lemma RenderedIsFrom(fields: seq<(string, Value)>)
    requires AllPlain(fields) && fields != []
    ensures RenderMapping(fields) == "{" + EntriesFrom(fields, 0, "")
  {
    assert fields[0..] == fields;
    Associates("{", RenderEntries(fields), "}");
    assert "}" + "" == "}";
  }

  /** A mapping renders on one line exactly when every text in it does. */
  lemma MappingBreaksExactly(fields: seq<(string, Value)>)
    requires AllPlain(fields) && Keys(fields) && fields != []
    ensures NoBreaks(RenderMapping(fields)) <==> AllStay(fields)
  {
    RenderedIsFrom(fields);
    EntriesBreakExactly(fields, 0);
    NoBreaksJoin("{", EntriesFrom(fields, 0, ""));
  }

  lemma BrokenEntry(entry: (string, Value), rest: string) returns (begun: string)
    requires Plain(entry.1) && Identifier(entry.0) && !StaysOnLine(entry.1)
    ensures FirstOf(RenderEntry(entry) + rest) == entry.0 + (": " + ("\"" + Escape(begun)))
  {
    hide Escape, FirstOf, OneLine, BareText;
    var s := entry.1.text;
    EntryBreaksExactly(entry);
    FirstOfBroken(RenderEntry(entry), rest);
    ScalarBreaksExactly(entry.1);
    begun := FirstOfEscape(s, "\"");
    KeyHasNoBreaks(entry.0);
    var head := entry.0 + (": " + "\"");
    NoBreaksJoin(entry.0, ": " + "\"");
    QuotedEntry(entry.0, s);
    FirstOfRunsOn(head, Escape(s) + "\"");
    Regrouped(entry.0, Escape(begun));
  }

  lemma QuotedEntry(key: string, s: string)
    ensures key + ": " + Quote(s) == key + (": " + "\"") + (Escape(s) + "\"")
  {
    Associates("\"", Escape(s), "\"");
    Associates(key, ": ", Quote(s));
    Associates(": ", "\"", Escape(s) + "\"");
    Associates(key, ": " + "\"", Escape(s) + "\"");
  }

  lemma Regrouped(key: string, x: string)
    ensures key + (": " + "\"") + x == key + (": " + ("\"" + x))
  {
    Associates(": ", "\"", x);
    Associates(key, ": " + "\"", x);
  }

  /** The first line of broken entries stops inside a quoted text. */
  lemma {:induction false} FirstCut(fields: seq<(string, Value)>, i: nat) returns (k: nat, begun: string)
    requires AllPlain(fields) && Keys(fields) && i < |fields| && !NoBreaks(EntriesFrom(fields, i, ""))
    ensures i <= k < |fields| && FirstOf(EntriesFrom(fields, i, "")) == CutEntries(fields, i, k, Escape(begun))
    decreases |fields| - i
  {
    EntriesFromStep(fields, i, "");
    EntriesBreakExactly(fields, i);
    if !StaysOnLine(fields[i].1) {
      k := i;
      begun := BrokenEntry(fields[i], if i + 1 == |fields| then "}" + "" else ", " + EntriesFrom(fields, i + 1, ""));
    } else {
      var rest := EntriesFrom(fields, i + 1, "");
      EntriesBreakExactly(fields, i + 1);
      k, begun := FirstCut(fields, i + 1);
      EntryBreaksExactly(fields[i]);
      FirstOfRunsOn(", ", rest);
      FirstOfRunsOn(RenderEntry(fields[i]), ", " + rest);
    }
  }

  // ---------------------------------------------------------------------
  // A broken mapping is no field
  // ---------------------------------------------------------------------

  lemma {:induction false} CutEntriesAppend(fields: seq<(string, Value)>, i: nat, k: nat, cut: string)
    requires AllPlain(fields) && i <= k < |fields|
    ensures CutEntries(fields, i, k, cut) == CutEntries(fields, i, k, "") + cut
    ensures CutEntries(fields, i, k, "") != ""
            && CutEntries(fields, i, k, "")[|CutEntries(fields, i, k, "")| - 1] == '"'
    decreases k - i
  {
    hide RenderEntry;
    if i == k {
      Regrouped(fields[k].0, cut);
      Regrouped(fields[k].0, "");
      assert "\"" + "" == "\"";
    } else {
      CutEntriesAppend(fields, i + 1, k, cut);
      Associates(", ", CutEntries(fields, i + 1, k, ""), cut);
      Associates(RenderEntry(fields[i]), ", " + CutEntries(fields, i + 1, k, ""), cut);
    }
  }

  lemma RightStripAfter(a: string, b: string)
    requires a != "" && !IsSpace(a[|a| - 1])
    ensures RightStrip(a + b) == a + RightStrip(b)
  {
    StripsToNothing(b);
    if Blank(b) {
      RightStripIgnores(a, b);
      assert RightStrip(a) == a;
    } else {
      RightStripOfSum(a, b);
    }
  }

  /** Whatever is stripped off it, a mapping cut inside a quoted text does not parse. */
  lemma StrippedCutFails(fields: seq<(string, Value)>, k: nat, begun: string)
    requires AllPlain(fields) && Keys(fields) && k < |fields|
    ensures Parse(Strip(" " + ("{" + CutEntries(fields, 0, k, Escape(begun))))).None?
  {
    var head := "{" + CutEntries(fields, 0, k, "");
    var text := "{" + CutEntries(fields, 0, k, Escape(begun));
    CutEntriesAppend(fields, 0, k, Escape(begun));
    Associates("{", CutEntries(fields, 0, k, ""), Escape(begun));
    assert text == head + Escape(begun);
    var less := StrippedEscape(begun);
    CutEntriesAppend(fields, 0, k, Escape(less));
    Associates("{", CutEntries(fields, 0, k, ""), Escape(less));
    StripOfOpened(head, Escape(begun));
    CutEscapeFails(less);
    CutMappingFails(fields, k, Escape(less));
  }

  lemma StripOfOpened(head: string, tail: string)
    requires head != "" && !IsSpace(head[0]) && !IsSpace(head[|head| - 1])
    ensures Strip(" " + (head + tail)) == head + RightStrip(tail)
  {
    Associates(" ", head, tail);
    assert (" " + head)[|head|] == head[|head| - 1];
    RightStripAfter(" " + head, tail);
    Associates(" ", head, RightStrip(tail));
    OneLead(head + RightStrip(tail));
    StartsStrips(head + RightStrip(tail));
  }

  lemma MappingIsTight(fields: seq<(string, Value)>)
    requires AllPlain(fields)
    ensures Tight(RenderMapping(fields))
  {
    var s := RenderMapping(fields);
    assert s[0] == '{' && s[|s| - 1] == '}';
  }

  /** Broken over two lines, or run on into more text, a mapping gives no field. */
  lemma BrokenMappingFails(key: string, fields: seq<(string, Value)>)
    requires Identifier(key) && AllPlain(fields) && Keys(fields) && fields != []
    requires !NoBreaks(RenderMapping(fields))
    ensures EffectOf(FirstOf(Spelled(key, RenderMapping(fields)))).Fails?
  {
    hide EntriesFrom, FirstOf, CutEntries, EffectOf;
    RenderedIsFrom(fields);
    NoBreaksJoin("{", EntriesFrom(fields, 0, ""));
    var k, begun := FirstCut(fields, 0);
    FirstOfRunsOn("{", EntriesFrom(fields, 0, ""));
    KeyHasNoBreaks(key);
    FirstOfRunsOn(": ", RenderMapping(fields));
    FirstOfRunsOn(key, ": " + RenderMapping(fields));
    var cut := "{" + CutEntries(fields, 0, k, Escape(begun));
    assert FirstOf(Spelled(key, RenderMapping(fields))) == Spelled(key, cut);
    SpelledEffect(key, cut);
    StrippedCutFails(fields, k, begun);
  }

  lemma MappingThenMoreFails(key: string, fields: seq<(string, Value)>, b: string)
    requires Identifier(key) && AllPlain(fields) && Keys(fields) && !Blank(b)
    ensures EffectOf(Spelled(key, RenderMapping(fields) + b)).Fails?
  {
    MappingIsTight(fields);
    RunOnEffect(key, RenderMapping(fields), b);
    var x := RightStrip(b);
    StripsToNothing(b);
    MappingReads(fields, x);
    LeftStripOfSolid(x);
  }
}
