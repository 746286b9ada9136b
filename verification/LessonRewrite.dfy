/**
  How rewritten text reads: line by line, whether or not each rewritten line
  kept its terminator.
 */
module LessonRewrite {
  import opened Prelude
  import opened Sequences
  import opened PyText
  import opened JsonText
  import opened Inline
  import opened InlineRoundTrip
  import opened LessonFile

  // ---------------------------------------------------------------------
  // Stripping
  // ---------------------------------------------------------------------

  lemma BlankPart(s: string, i: nat, j: nat)
    requires Blank(s) && i <= j <= |s|
    ensures Blank(s[i..j])
  {}

  lemma StripIgnores(s: string, spaces: string)
    requires Blank(spaces)
    ensures Strip(s + spaces) == Strip(s)
  {
    RightStripIgnores(s, spaces);
  }

  lemma SolidEnd(s: string)
    requires s != "" && !IsSpace(s[|s| - 1])
    ensures RightStrip(s) == s && RightStrip(" " + s) == " " + s
  {
    var t := " " + s;
    assert t[|t| - 1] == s[|s| - 1];
  }

  lemma StripsOneLead(s: string)
    requires s != "" && !IsSpace(s[0]) && !IsSpace(s[|s| - 1])
    ensures Strip(" " + s) == s
  {
    SolidEnd(s);
    OneLead(s);
  }

  /** One leading space and any trailing ones come off tight text. */
  lemma StripsAround(s: string, spaces: string)
    requires s != "" && !IsSpace(s[0]) && !IsSpace(s[|s| - 1]) && Blank(spaces)
    ensures Strip(" " + s + spaces) == s
  {
    StripsOneLead(s);
    StripIgnores(" " + s, spaces);
  }

  lemma {:induction false} LeadStripsOff(spaces: string, s: string)
    requires Blank(spaces) && s != "" && !IsSpace(s[0])
    ensures LeftStrip(spaces + s) == s
  {
    if spaces == "" {
      assert spaces + s == s;
    } else {
      DropsFirst(spaces, s);
      LeadStripsOff(spaces[1..], s);
    }
  }

  /** Text is its leading spaces and then what a left strip leaves. */
  lemma LeadIsBlank(s: string)
    ensures Blank(s[..|s| - |LeftStrip(s)|])
  {
    if s != "" && IsSpace(s[0]) {
      LeadIsBlank(s[1..]);
      var n := |s| - |LeftStrip(s)|;
      assert s[..n] == [s[0]] + s[1..][..n - 1];
    }
  }

  /** The first solid character is where a strip starts, however much of the tail is cut. */
  lemma StripHead(s: string, n: nat)
    requires !Blank(s) && |s| - |LeftStrip(s)| < n <= |s|
    ensures LeftStrip(s) != "" && Strip(s[..n]) != "" && Strip(s[..n])[0] == LeftStrip(s)[0]
  {
    LeftStripOfUnblank(s);
    var p := |s| - |LeftStrip(s)|;
    LeadIsBlank(s);
    var t := RightStrip(s[..n]);
    assert s[..n][p] == s[p] == LeftStrip(s)[0];
    assert |t| > p;
    assert t[..p] == s[..p] && t[p] == s[p];
    Rejoins(t, p);
    LeadStripsOff(t[..p], t[p..]);
  }

  lemma {:induction false} LeftStripOfUnblank(s: string)
    requires !Blank(s)
    ensures LeftStrip(s) != ""
  {
    if IsSpace(s[0]) {
      assert !Blank(s[1..]) by {
        var i :| 0 <= i < |s| && !IsSpace(s[i]);
        assert s[1..][i - 1] == s[i];
      }
      LeftStripOfUnblank(s[1..]);
    }
  }

  // ---------------------------------------------------------------------
  // What each line contributes
  // ---------------------------------------------------------------------

  datatype Effect = Skips | Fails | Adds(key: string, v: Value)

  function EffectOf(line: string): Effect {
    if Skipped(line) then Skips
    else match FieldOf(line)
         case None => Fails
         case Some((key, v)) => Adds(key, v)
  }

  function Apply(e: Effect, fields: FieldMap): Option<FieldMap> {
    match e
    case Skips => Some(fields)
    case Fails => None
    case Adds(key, v) => if key in fields then None else Some(fields[key := v])
  }

  lemma TakeApplies(line: string, fields: FieldMap)
    ensures Take(line, fields) == Apply(EffectOf(line), fields)
  {}

  function Effects(lines: seq<string>): (es: seq<Effect>)
    ensures |es| == |lines| && forall i :: 0 <= i < |es| ==> es[i] == EffectOf(lines[i])
  {
    seq(|lines|, i requires 0 <= i < |lines| => EffectOf(lines[i]))
  }

  function ApplyAll(es: seq<Effect>, fields: FieldMap): Option<FieldMap> {
    if es == [] then Some(fields)
    else match Apply(es[0], fields)
         case None => None
         case Some(more) => ApplyAll(es[1..], more)
  }

  lemma {:induction false} TakeAllApplies(lines: seq<string>, fields: FieldMap)
    ensures TakeAll(lines, fields) == ApplyAll(Effects(lines), fields)
  {
    if lines != [] {
      TakeApplies(lines[0], fields);
      assert Effects(lines)[1..] == Effects(lines[1..]);
      var next := Take(lines[0], fields);
      if next.Some? {
        TakeAllApplies(lines[1..], next.value);
      }
    }
  }

  /** The fields after all the lines: those there before, and one for each line that adds. */
  lemma {:induction false} AppliedFields(es: seq<Effect>, fields: FieldMap)
    requires ApplyAll(es, fields).Some?
    ensures var all := ApplyAll(es, fields).value;
            && (forall key :: key in fields ==> key in all && all[key] == fields[key])
            && (forall i :: 0 <= i < |es| ==> !es[i].Fails?)
            && (forall i :: 0 <= i < |es| && es[i].Adds? ==>
                  es[i].key !in fields && es[i].key in all && all[es[i].key] == es[i].v)
    decreases |es|
  {
    if es != [] {
      AppliedFields(es[1..], Apply(es[0], fields).value);
      assert forall i :: 0 < i < |es| ==> es[i] == es[1..][i - 1];
    }
  }

  lemma {:induction false} AppliedKeys(es: seq<Effect>, fields: FieldMap, key: string)
    requires ApplyAll(es, fields).Some? && key in ApplyAll(es, fields).value
    ensures key in fields || exists i :: 0 <= i < |es| && es[i].Adds? && es[i].key == key
    decreases |es|
  {
    if es != [] {
      var next := Apply(es[0], fields).value;
      AppliedKeys(es[1..], next, key);
      if key !in next {
        var i :| 0 <= i < |es[1..]| && es[1..][i].Adds? && es[1..][i].key == key;
        assert es[i + 1] == es[1..][i];
      }
    }
  }

  /** No key is added twice. */
  lemma {:induction false} AddsOnce(es: seq<Effect>, fields: FieldMap, i: nat, j: nat)
    requires ApplyAll(es, fields).Some? && i < j < |es| && es[i].Adds? && es[j].Adds?
    ensures es[i].key != es[j].key
    decreases |es|
  {
    var next := Apply(es[0], fields).value;
    assert es[j] == es[1..][j - 1];
    if i == 0 {
      AppliedFields(es[1..], next);
    } else {
      assert es[i] == es[1..][i - 1];
      AddsOnce(es[1..], next, i - 1, j - 1);
    }
  }

  // ---------------------------------------------------------------------
  // Skipped lines name no field
  // ---------------------------------------------------------------------

  lemma SkippedNamesNothing(line: string)
    requires Skipped(line)
    ensures FieldName(line) == "" || FieldName(line)[0] == '#'
  {
    var n := Colon(line);
    StripsToNothing(line);
    if Blank(line) {
      BlankPart(line, 0, n);
      StripsToNothing(line[..n]);
    } else {
      assert line[..|line|] == line;
      LeftStripOfUnblank(line);
      StripHead(line, |line|);
      var p := |line| - |LeftStrip(line)|;
      LeadIsBlank(line);
      assert line[p] == '#';
      forall i | 0 <= i <= p ensures line[i] != ':' {
        if i < p {
          assert line[i] == line[..p][i];
        }
      }
      assert n > p;
      StripHead(line, n);
    }
  }

  /** The name on a line that adds is its key; a skipped line has no identifier. */
  ghost predicate NamesFit(es: seq<Effect>, names: seq<string>) {
    && |names| == |es|
    && (forall i :: 0 <= i < |es| && es[i].Adds? ==> names[i] == es[i].key)
    && (forall i :: 0 <= i < |es| && es[i].Skips? ==> !Identifier(names[i]))
  }

  lemma NamesFitEffects(lines: seq<string>)
    ensures NamesFit(Effects(lines), Names(lines))
  {
    forall i | 0 <= i < |lines| && EffectOf(lines[i]).Skips? ensures !Identifier(FieldName(lines[i])) {
      SkippedNamesNothing(lines[i]);
    }
  }

  lemma {:induction false} NameStandsOnce(es: seq<Effect>, names: seq<string>, i: nat, j: nat)
    requires ApplyAll(es, map[]).Some? && NamesFit(es, names) && i < |es| && j < |es|
    requires es[i].Adds? && Identifier(es[i].key) && names[j] == es[i].key
    ensures i == j
  {
    AppliedFields(es, map[]);
    assert es[j].Adds?;
    if j < i {
      AddsOnce(es, map[], j, i);
    } else if i < j {
      AddsOnce(es, map[], i, j);
    }
  }

  lemma AddingLine(es: seq<Effect>, names: seq<string>, key: string) returns (i: nat)
    requires ApplyAll(es, map[]).Some? && NamesFit(es, names)
    requires key in ApplyAll(es, map[]).value && Identifier(key)
    ensures OnlyPlace(names, key, i) && es[i].Adds? && es[i].key == key
  {
    AppliedKeys(es, map[], key);
    i :| 0 <= i < |es| && es[i].Adds? && es[i].key == key;
    forall j | 0 <= j < |names| && names[j] == key ensures j == i {
      NameStandsOnce(es, names, i, j);
    }
  }

  /** In frontmatter that reads, a field's name stands on exactly the line that gives it. */
  lemma FieldHasOneLine(lines: seq<string>, key: string) returns (i: nat)
    requires TakeAll(lines, map[]).Some? && key in TakeAll(lines, map[]).value && Identifier(key)
    ensures OnlyPlace(Names(lines), key, i) && EffectOf(lines[i]).Adds? && EffectOf(lines[i]).key == key
  {
    TakeAllApplies(lines, map[]);
    NamesFitEffects(lines);
    i := AddingLine(Effects(lines), Names(lines), key);
  }
}
