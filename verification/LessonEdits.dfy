/**
  Any set of field edits, each a line spelled anew: they read back exactly
  when every edit stays on its line and every edited line still ends there.
 */
module LessonEdits {
  import opened Prelude
  import opened Sequences
  import opened PyText
  import opened Inline
  import opened InlineRoundTrip
  import opened LessonFile
  import opened LessonRewrite
  import opened LessonReload

  datatype Edit = Edit(key: string, rendered: string, value: Value)

  type Edits = map<nat, Edit>

  function EditedLine(e: Edit, line: string): string {
    Spelled(e.key, e.rendered + Ending(line))
  }

  lemma EditedLineIsRewritten(e: Edit, line: string)
    ensures EditedLine(e, line) == Rewritten(e.key, e.rendered, line)
  {
    Associates(e.key + ": ", e.rendered, Ending(line));
    Associates(e.key, ": ", e.rendered + Ending(line));
  }

  function Edited(lines: seq<string>, edits: Edits): (all: seq<string>)
    ensures |all| == |lines|
    ensures forall i :: 0 <= i < |all| ==> all[i] == if i in edits then EditedLine(edits[i], lines[i]) else lines[i]
  {
    seq(|lines|, i requires 0 <= i < |lines| => if i in edits then EditedLine(edits[i], lines[i]) else lines[i])
  }

  /** Each edit is of a line that gives its field, and its text reads as its value. */
  ghost predicate WellEdited(lines: seq<string>, edits: Edits) {
    forall i :: i in edits ==> i < |lines| && GoodEdit(edits[i], lines[i])
  }

  ghost predicate GoodEdit(e: Edit, line: string) {
    SoundEdit(e) && Gives(line, e.key)
  }

  ghost predicate SoundEdit(e: Edit) {
    Identifier(e.key) && Tight(e.rendered) && Parse(e.rendered) == Some(e.value)
  }

  predicate Gives(line: string, key: string) {
    EffectOf(line).Adds? && EffectOf(line).key == key
  }

  ghost predicate AllWhole(lines: seq<string>) {
    forall i :: 0 <= i < |lines| ==> WholeLine(lines[i])
  }

  /** The rewritten line will still end: it ended in a newline, or what follows is a blank line. */
  predicate StaysEnded(lines: seq<string>, i: nat)
    requires i < |lines|
  {
    Ending(lines[i]) == "\n" || (i + 1 < |lines| && Blank(lines[i + 1]))
  }

  predicate EditHolds(lines: seq<string>, edits: Edits, i: nat)
    requires i in edits && i < |lines|
  {
    NoBreaks(edits[i].rendered) && StaysEnded(lines, i)
  }

  ghost predicate EditsHold(lines: seq<string>, edits: Edits) {
    forall i :: i in edits && i < |lines| ==> EditHolds(lines, edits, i)
  }

  /** What follows the edited frontmatter starts with its closing marker. */
  predicate Closing(t: string) {
    t != "" && t[0] == '-'
  }

  function Following(lines: seq<string>, edits: Edits, i: nat, t: string): string
    requires i < |lines|
  {
    Concat(Edited(lines, edits)[i + 1..]) + t
  }

  // ---------------------------------------------------------------------
  // What follows a line
  // ---------------------------------------------------------------------

  lemma FirstOfLineThen(line: string, rest: string)
    requires IsLine(line) && Ended(line)
    ensures FirstOf(line + rest) == line
  {
    FirstLineOf(line, rest);
    CutsBack(line, rest);
  }

  lemma HeadNotBlank(s: string)
    requires s != "" && !IsSpace(s[0])
    ensures !Blank(FirstOf(s))
  {
    assert FirstOf(s)[0] == s[0];
  }

  lemma AddsNotBlank(line: string)
    requires EffectOf(line).Adds?
    ensures !Blank(line)
  {
    if Blank(line) {
      BlankIsSkipped(line);
    }
  }

  lemma EditedStarts(e: Edit, line: string)
    requires Identifier(e.key)
    ensures var s := EditedLine(e, line); s != "" && !IsSpace(s[0]) && s[0] != '-' && Colon(s) < |s|
  {
    SpelledParts(e.key, e.rendered + Ending(line));
    KeyCharIsNoHash(e.key);
  }

  lemma ConcatFrom(lines: seq<string>, i: nat, t: string)
    requires i < |lines|
    ensures Concat(lines[i..]) + t == lines[i] + (Concat(lines[i + 1..]) + t)
  {
    DropOne(lines, i);
    Associates(lines[i], Concat(lines[i + 1..]), t);
  }

  /** The text after a line starts with a blank line exactly when the line after it was blank. */
  lemma FollowingIsBlank(lines: seq<string>, edits: Edits, i: nat, t: string)
    requires AllWhole(lines) && WellEdited(lines, edits) && i < |lines| && Closing(t)
    ensures var f := Following(lines, edits, i, t);
            f != "" && (Blank(FirstOf(f)) <==> i + 1 < |lines| && Blank(lines[i + 1]))
  {
    var all := Edited(lines, edits);
    var f := Following(lines, edits, i, t);
    if i + 1 == |lines| {
      assert f == t;
      HeadNotBlank(t);
    } else {
      ConcatFrom(all, i + 1, t);
      if i + 1 in edits {
        EditedStarts(edits[i + 1], lines[i + 1]);
        AddsNotBlank(lines[i + 1]);
        assert f[0] == all[i + 1][0];
        HeadNotBlank(f);
      } else {
        FirstOfLineThen(lines[i + 1], Concat(all[i + 2..]) + t);
      }
    }
  }

  // ---------------------------------------------------------------------
  // When every edit holds
  // ---------------------------------------------------------------------

  lemma KeyHasNoBreaks(key: string)
    requires Identifier(key)
    ensures NoBreaks(key)
  {
    forall i | 0 <= i < |key| ensures !IsBreak(key[i]) {
      KeyCharIsPlain(key[i]);
    }
  }

  lemma SpelledBreaks(key: string, rest: string)
    requires Identifier(key)
    ensures NoBreaks(Spelled(key, rest)) <==> NoBreaks(rest)
  {
    KeyHasNoBreaks(key);
    NoBreaksJoin(": ", rest);
    NoBreaksJoin(key, ": " + rest);
  }

  lemma NewlineEnds(head: string)
    requires NoBreaks(head)
    ensures IsLine(head + "\n") && Ended(head + "\n")
  {
    CutsBack(head, "\n");
  }

  lemma SpelledNewline(key: string, rendered: string)
    ensures Spelled(key, rendered + "\n") == Spelled(key, rendered) + "\n"
  {
    Associates(": ", rendered, "\n");
    Associates(key, ": " + rendered, "\n");
  }

  lemma EndedEditIsWhole(e: Edit)
    requires Identifier(e.key) && NoBreaks(e.rendered)
    ensures WholeLine(Spelled(e.key, e.rendered + "\n"))
  {
    SpelledBreaks(e.key, e.rendered);
    SpelledNewline(e.key, e.rendered);
    NewlineEnds(Spelled(e.key, e.rendered));
    SpelledParts(e.key, e.rendered + "\n");
    KeyCharIsNoHash(e.key);
  }

  lemma EditSteps(lines: seq<string>, edits: Edits, i: nat, t: string)
    requires AllWhole(lines) && WellEdited(lines, edits) && i < |lines| && Closing(t)
    requires i in edits ==> EditHolds(lines, edits, i)
    ensures StepOk(Edited(lines, edits)[i], Following(lines, edits, i, t))
  {
    if i in edits {
      var e := edits[i];
      FollowingIsBlank(lines, edits, i, t);
      if Ending(lines[i]) == "\n" {
        EndedEditIsWhole(e);
      } else {
        assert e.rendered + "" == e.rendered;
        SpelledBreaks(e.key, e.rendered);
        EditedStarts(e, lines[i]);
      }
    }
  }

  /** The fields with each edited key given its new value. */
  ghost predicate Overwrites(fields: FieldMap, edits: Edits, all: FieldMap) {
    && all.Keys == fields.Keys
    && (forall i :: i in edits ==> edits[i].key in all && all[edits[i].key] == edits[i].value)
    && (forall key ::
          key in fields && (forall i :: i in edits ==> edits[i].key != key) ==> key in all && all[key] == fields[key])
  }

  ghost predicate SameShape(es: seq<Effect>, es': seq<Effect>) {
    && |es'| == |es|
    && forall i :: 0 <= i < |es| ==> es'[i] == es[i] || (es[i].Adds? && es'[i].Adds? && es'[i].key == es[i].key)
  }

  lemma {:induction false} SameShapeSameKeys(es: seq<Effect>, es': seq<Effect>, fields: FieldMap, fields': FieldMap)
    requires SameShape(es, es') && fields'.Keys == fields.Keys && ApplyAll(es, fields).Some?
    ensures ApplyAll(es', fields').Some? && ApplyAll(es', fields').value.Keys == ApplyAll(es, fields).value.Keys
    decreases |es|
  {
    if es != [] {
      assert es'[0] == es[0] || (es[0].Adds? && es'[0].Adds? && es'[0].key == es[0].key);
      var next, next' := Apply(es[0], fields).value, Apply(es'[0], fields').value;
      assert SameShape(es[1..], es'[1..]) by {
        assert forall i :: 0 <= i < |es[1..]| ==> es[1..][i] == es[i + 1] && es'[1..][i] == es'[i + 1];
      }
      SameShapeSameKeys(es[1..], es'[1..], next, next');
    }
  }

  lemma EditedEffect(e: Edit, line: string)
    requires Identifier(e.key) && Tight(e.rendered) && Parse(e.rendered) == Some(e.value)
    ensures EffectOf(EditedLine(e, line)) == Adds(e.key, e.value)
  {
    EndingIsBlank(line);
    RewrittenEffect(e.key, e.rendered, Ending(line));
  }

  lemma EndingIsBlank(line: string)
    ensures Blank(Ending(line))
  {}

  lemma EditedEffectAt(lines: seq<string>, edits: Edits, i: nat)
    requires WellEdited(lines, edits) && i < |lines|
    ensures Effects(Edited(lines, edits))[i]
            == if i in edits then Adds(edits[i].key, edits[i].value) else Effects(lines)[i]
    ensures i in edits ==> Effects(lines)[i].Adds? && Effects(lines)[i].key == edits[i].key
  {
    if i in edits {
      EditedEffect(edits[i], lines[i]);
    }
  }

  /** The effects of the edited lines are those of the lines, with the edited values. */
  ghost predicate EffectsEdited(es: seq<Effect>, es': seq<Effect>, edits: Edits) {
    && |es'| == |es|
    && (forall i :: i in edits ==> i < |es|)
    && (forall i :: 0 <= i < |es| ==> es'[i] == if i in edits then Adds(edits[i].key, edits[i].value) else es[i])
    && (forall i :: 0 <= i < |es| && i in edits ==> es[i].Adds? && es[i].key == edits[i].key)
  }

  lemma EditedEffects(lines: seq<string>, edits: Edits)
    requires WellEdited(lines, edits)
    ensures EffectsEdited(Effects(lines), Effects(Edited(lines, edits)), edits)
  {
    var es, es' := Effects(lines), Effects(Edited(lines, edits));
    forall i | 0 <= i < |lines|
      ensures es'[i] == if i in edits then Adds(edits[i].key, edits[i].value) else es[i]
      ensures i in edits ==> es[i].Adds? && es[i].key == edits[i].key
    {
      EditedEffectAt(lines, edits, i);
    }
  }

  lemma EditedFields(lines: seq<string>, edits: Edits)
    requires WellEdited(lines, edits) && TakeAll(lines, map[]).Some?
    ensures TakeAll(Edited(lines, edits), map[]).Some?
    ensures Overwrites(TakeAll(lines, map[]).value, edits, TakeAll(Edited(lines, edits), map[]).value)
  {
    var es, es' := Effects(lines), Effects(Edited(lines, edits));
    TakeAllApplies(lines, map[]);
    TakeAllApplies(Edited(lines, edits), map[]);
    EditedEffects(lines, edits);
    SameShapeSameKeys(es, es', map[], map[]);
    ShapeOverwrites(es, es', edits);
  }

  lemma ShapeOverwrites(es: seq<Effect>, es': seq<Effect>, edits: Edits)
    requires EffectsEdited(es, es', edits) && ApplyAll(es, map[]).Some? && ApplyAll(es', map[]).Some?
    requires ApplyAll(es', map[]).value.Keys == ApplyAll(es, map[]).value.Keys
    ensures Overwrites(ApplyAll(es, map[]).value, edits, ApplyAll(es', map[]).value)
  {
    var fields, all := ApplyAll(es, map[]).value, ApplyAll(es', map[]).value;
    AppliedFields(es, map[]);
    AppliedFields(es', map[]);
    forall i | i in edits ensures edits[i].key in all && all[edits[i].key] == edits[i].value {
      assert es'[i].Adds?;
    }
    forall key | key in fields && (forall i :: i in edits ==> edits[i].key != key)
      ensures key in all && all[key] == fields[key] {
      AppliedKeys(es, map[], key);
      var i :| 0 <= i < |es| && es[i].Adds? && es[i].key == key;
      assert es'[i].Adds? && es'[i].key == key;
      assert i !in edits;
    }
  }

  /** Every edit held: the text reads as before, with the edited fields overwritten. */
  lemma HeldEditsRead(lines: seq<string>, edits: Edits, t: string)
    requires AllWhole(lines) && WellEdited(lines, edits) && EditsHold(lines, edits) && Closing(t)
    requires TakeAll(lines, map[]).Some?
    ensures TakeAll(Edited(lines, edits), map[]).Some?
    ensures Overwrites(TakeAll(lines, map[]).value, edits, TakeAll(Edited(lines, edits), map[]).value)
    ensures ReadFront(SplitLines(Concat(Edited(lines, edits)) + t), map[])
            == Then(TakeAll(Edited(lines, edits), map[]), t)
  {
    EditedFields(lines, edits);
    var all := Edited(lines, edits);
    forall i | 0 <= i < |all| ensures StepOk(all[i], Concat(all[i + 1..]) + t) {
      EditSteps(lines, edits, i, t);
    }
    PiecesRead(all, t, map[]);
  }

  // ---------------------------------------------------------------------
  // When one does not
  // ---------------------------------------------------------------------

  type Invalid = (string, Value) -> bool

  ghost predicate Spoiled(effect: Effect, key: string, invalid: Invalid) {
    effect.Fails? || (effect.Adds? && effect.key == key && invalid(key, effect.v))
  }

  /** Broken over two lines, or run on into another, the edit no longer gives a valid field. */
  ghost predicate Fragile(e: Edit, invalid: Invalid) {
    && (!NoBreaks(e.rendered) ==> Spoiled(EffectOf(FirstOf(Spelled(e.key, e.rendered))), e.key, invalid))
    && (forall b: string :: !Blank(b) ==> Spoiled(EffectOf(Spelled(e.key, e.rendered + b)), e.key, invalid))
  }

  ghost predicate BadRead(r: Option<(FieldMap, seq<string>)>, edits: Edits, invalid: Invalid) {
    r.Some? ==> exists i :: i in edits && edits[i].key in r.value.0 && invalid(edits[i].key, r.value.0[edits[i].key])
  }

  lemma {:induction false} FirstBreakStays(s: string, x: string)
    requires !NoBreaks(s)
    ensures FirstLine(s + x) == FirstLine(s) <= |s|
  {
    DropsFirst(s, x);
    if !IsBreak(s[0]) {
      assert !NoBreaks(s[1..]) by {
        var i :| 0 <= i < |s| && IsBreak(s[i]);
        assert s[1..][i - 1] == s[i];
      }
      FirstBreakStays(s[1..], x);
    }
  }

  /** The line an edit is on when it broke, or ran on into `b`. */
  ghost predicate Strayed(m: string, e: Edit, b: string) {
    || (!NoBreaks(e.rendered) && m == FirstOf(Spelled(e.key, e.rendered)))
    || (!Blank(b) && m == Spelled(e.key, e.rendered + b))
  }

  lemma StrayedIsSpoiled(m: string, e: Edit, b: string, invalid: Invalid)
    requires Strayed(m, e, b) && Fragile(e, invalid)
    ensures Spoiled(EffectOf(m), e.key, invalid)
  {}

  lemma SpelledStarts(key: string, rest: string)
    requires Identifier(key)
    ensures var s := Spelled(key, rest); s != "" && s[0] == key[0] && key[0] != '-'
  {
    KeyCharIsNoHash(key);
  }

  /** An edit with a break in it ends at the break. */
  lemma BrokenLine(s: string, x: string)
    requires !NoBreaks(s)
    ensures SplitLines(s + x) == [FirstOf(s)] + SplitLines((s + x)[FirstLine(s)..])
  {
    FirstBreakStays(s, x);
    CutsOfSum(s, x, FirstLine(s));
  }

  lemma StraysAtBreak(e: Edit, ending: string, f: string) returns (m: string, rest: string)
    requires Identifier(e.key) && !NoBreaks(e.rendered)
    ensures SplitLines(Spelled(e.key, e.rendered + ending) + f) == [m] + SplitLines(rest)
    ensures !IsMarker(m) && m == FirstOf(Spelled(e.key, e.rendered))
  {
    var s, x := Spelled(e.key, e.rendered), ending + f;
    SpelledBreaks(e.key, e.rendered);
    SpelledApart(e, ending, f);
    BrokenLine(s, x);
    SpelledStarts(e.key, e.rendered);
    m, rest := FirstOf(s), (s + x)[FirstLine(s)..];
    assert m[0] == s[0];
  }

  lemma StraysIntoNext(e: Edit, f: string) returns (m: string, rest: string)
    requires Identifier(e.key) && NoBreaks(e.rendered) && f != ""
    ensures SplitLines(Spelled(e.key, e.rendered) + f) == [m] + SplitLines(rest)
    ensures !IsMarker(m) && m == Spelled(e.key, e.rendered + FirstOf(f))
  {
    SpelledBreaks(e.key, e.rendered);
    RunsOn(Spelled(e.key, e.rendered), f);
    SpelledMore(e, FirstOf(f));
    SpelledStarts(e.key, e.rendered + FirstOf(f));
    m, rest := Spelled(e.key, e.rendered + FirstOf(f)), f[FirstLine(f)..];
  }

  lemma Strays(e: Edit, ending: string, f: string) returns (m: string, b: string, rest: string)
    requires Identifier(e.key)
    requires NoBreaks(e.rendered) ==> ending == "" && f != "" && !Blank(FirstOf(f))
    ensures SplitLines(Spelled(e.key, e.rendered + ending) + f) == [m] + SplitLines(rest)
    ensures !IsMarker(m) && Strayed(m, e, b)
  {
    if !NoBreaks(e.rendered) {
      m, rest := StraysAtBreak(e, ending, f);
      b := "";
    } else {
      assert e.rendered + ending == e.rendered;
      m, rest := StraysIntoNext(e, f);
      b := FirstOf(f);
    }
  }

  /** The line an unheld edit ends up on. */
  lemma UnheldLine(lines: seq<string>, edits: Edits, i: nat, t: string) returns (m: string, b: string, rest: string)
    requires AllWhole(lines) && WellEdited(lines, edits) && i < |lines| && Closing(t)
    requires i in edits && !EditHolds(lines, edits, i)
    ensures SplitLines(Edited(lines, edits)[i] + Following(lines, edits, i, t)) == [m] + SplitLines(rest)
    ensures !IsMarker(m) && Strayed(m, edits[i], b)
  {
    FollowingIsBlank(lines, edits, i, t);
    m, b, rest := Strays(edits[i], Ending(lines[i]), Following(lines, edits, i, t));
  }

  lemma SpelledMore(e: Edit, b: string)
    ensures Spelled(e.key, e.rendered) + b == Spelled(e.key, e.rendered + b)
  {
    Associates(": ", e.rendered, b);
    Associates(e.key, ": " + e.rendered, b);
  }

  lemma SpelledApart(e: Edit, ending: string, f: string)
    ensures Spelled(e.key, e.rendered + ending) + f == Spelled(e.key, e.rendered) + (ending + f)
  {
    Associates(": ", e.rendered, ending);
    Associates(e.key, ": " + e.rendered, ending);
    Associates(Spelled(e.key, e.rendered), ending, f);
  }

  lemma SpoiledReadsBadly(m: string, rest: seq<string>, fields: FieldMap, e: Edit, i: nat, edits: Edits,
                          invalid: Invalid)
    requires i in edits && edits[i] == e && !IsMarker(m) && Spoiled(EffectOf(m), e.key, invalid)
    ensures BadRead(ReadFront([m] + rest, fields), edits, invalid)
  {
    FrontStep(m, rest, fields);
    TakeApplies(m, fields);
    var taken := Take(m, fields);
    if taken.Some? && ReadFront(rest, taken.value).Some? {
      TakeAccumulates();
      FrontKeepsFields(Take, rest, taken.value, e.key);
    }
  }

  lemma FirstUnheld(lines: seq<string>, edits: Edits, i: nat) returns (k: nat)
    requires i in edits && i < |lines| && !EditHolds(lines, edits, i)
    ensures k in edits && k < |lines| && !EditHolds(lines, edits, k)
    ensures forall j :: 0 <= j < k && j in edits ==> EditHolds(lines, edits, j)
    decreases i
  {
    if j :| 0 <= j < i && j in edits && !EditHolds(lines, edits, j) {
      k := FirstUnheld(lines, edits, j);
    } else {
      k := i;
    }
  }

  lemma PrefixFollowing(all: seq<string>, k: nat, j: nat, t: string)
    requires j < k < |all|
    ensures Concat(all[..k][j + 1..]) + (Concat(all[k..]) + t) == Concat(all[j + 1..]) + t
  {
    assert all[j + 1..] == all[..k][j + 1..] + all[k..];
    ConcatAppend(all[..k][j + 1..], all[k..]);
    Associates(Concat(all[..k][j + 1..]), Concat(all[k..]), t);
  }

  lemma ConcatAt(all: seq<string>, k: nat, t: string)
    requires k < |all|
    ensures Concat(all) + t == Concat(all[..k]) + (Concat(all[k..]) + t)
  {
    Rejoins(all, k);
    ConcatAppend(all[..k], all[k..]);
    Associates(Concat(all[..k]), Concat(all[k..]), t);
  }

  /** Reading comes as far as the first edit that does not hold. */
  lemma ReadsToUnheld(lines: seq<string>, edits: Edits, k: nat, t: string)
    requires AllWhole(lines) && WellEdited(lines, edits) && k < |lines| && Closing(t)
    requires forall j :: 0 <= j < k && j in edits ==> EditHolds(lines, edits, j)
    ensures var all := Edited(lines, edits);
            ReadFront(SplitLines(Concat(all) + t), map[]) == Then(TakeAll(all[..k], map[]), Concat(all[k..]) + t)
  {
    hide SplitLines, StepOk, EditHolds, TakeAll, Closing, Concat, ReadFront, Then, AllWhole, Edited;
    var all := Edited(lines, edits);
    var t' := Concat(all[k..]) + t;
    forall j | 0 <= j < k ensures StepOk(all[..k][j], Concat(all[..k][j + 1..]) + t') {
      EditSteps(lines, edits, j, t);
      PrefixFollowing(all, k, j, t);
    }
    PiecesRead(all[..k], t', map[]);
    ConcatAt(all, k, t);
  }

  /** From there it reads as an error or an invalid field. */
  lemma UnheldSpoils(lines: seq<string>, edits: Edits, k: nat, t: string, fields: FieldMap, invalid: Invalid)
    requires AllWhole(lines) && WellEdited(lines, edits) && k < |lines| && Closing(t)
    requires k in edits && !EditHolds(lines, edits, k) && Fragile(edits[k], invalid)
    ensures BadRead(ReadFront(SplitLines(Concat(Edited(lines, edits)[k..]) + t), fields), edits, invalid)
  {
    hide SplitLines, EditHolds, Closing, Concat, AllWhole, Fragile, BadRead, ReadFront, Strayed, Spoiled, EffectOf;
    ConcatFrom(Edited(lines, edits), k, t);
    var m, b, rest := UnheldLine(lines, edits, k, t);
    StrayedIsSpoiled(m, edits[k], b, invalid);
    SpoiledReadsBadly(m, SplitLines(rest), fields, edits[k], k, edits, invalid);
  }

  /** One edit not held: the text does not read, or reads with an edited field invalid. */
  lemma UnheldEditSpoils(lines: seq<string>, edits: Edits, t: string, invalid: Invalid)
    requires AllWhole(lines) && WellEdited(lines, edits) && !EditsHold(lines, edits) && Closing(t)
    requires forall i :: i in edits ==> Fragile(edits[i], invalid)
    ensures BadRead(ReadFront(SplitLines(Concat(Edited(lines, edits)) + t), map[]), edits, invalid)
  {
    hide SplitLines, WholeLine, EditedLine, EditHolds, TakeAll, Closing, Edited, Fragile, Concat,
         AllWhole;
    var all := Edited(lines, edits);
    var i :| i in edits && i < |lines| && !EditHolds(lines, edits, i);
    var k := FirstUnheld(lines, edits, i);
    ReadsToUnheld(lines, edits, k, t);
    if TakeAll(all[..k], map[]).Some? {
      UnheldSpoils(lines, edits, k, t, TakeAll(all[..k], map[]).value, invalid);
    }
  }
}
