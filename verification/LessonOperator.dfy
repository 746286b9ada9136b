/**
  The lesson file as the operator's commands see it: one command, any run of
  commands, and the two kinds of file or command that a run must avoid.
 */
module LessonOperator {
  import opened Prelude
  import opened Sequences
  import opened PyText
  import opened JsonText
  import opened Inline
  import opened InlineRoundTrip
  import opened LessonFile
  import opened LessonRewrite
  import opened LessonReload
  import opened LessonEdits
  import opened LessonRouting
  import opened LessonRecord
  import opened LessonTransition
  import opened LessonLifecycle
  import opened LessonLaw
  import opened LessonSteps

  // ---------------------------------------------------------------------
  // The file
  // ---------------------------------------------------------------------

  method LoadFile(rules: Rules, file: string) returns (r: Option<Record>)
    ensures r == Load(rules, file)
  {
    var doc := Read(Universal(file));
    if doc.None? {
      return None;
    }
    var checked := Validate(rules, doc.value.fields);
    if checked.None? || !BodyOk(rules, doc.value.body) {
      return None;
    }
    var lines := SplitLines(Concat(doc.value.lines));
    r := Some(Record(checked.value.others, checked.value.state, checked.value.routing, doc.value.body,
                     doc.value.opening, lines, doc.value.closing));
  }

  /** What a command leaves in the file. */
  function After(rules: Rules, file: string, c: Command): string {
    match Load(rules, file)
    case None => file
    case Some(rec) =>
      match Decide(rules, rec, c)
      case Write(state, routing) => Written(rec, state, routing)
      case _ => file
  }

  /** The file rewritten along the table and loaded again, or left as it was, with the lesson or an error. */
  ghost predicate Told(rules: Rules, rec: Record, c: Command, before: string, after: string, r: Option<Record>) {
    && (forall to :: Moves(rules, rec, c, to) ==>
          after == Written(rec, to, RoutingFor(rules, rec, c, to)) && r == Load(rules, after))
    && (Stays(rules, rec, c) ==> after == before && r == Some(rec))
    && ((forall to :: !Moves(rules, rec, c, to)) && !Stays(rules, rec, c) ==> after == before && r.None?)
  }

  class Lesson {
    const rules: Rules
    var file: string

    constructor (rules: Rules, file: string)
      ensures this.rules == rules && this.file == file
    {
      this.rules := rules;
      this.file := file;
    }

    /** `_transition`; None is any of its errors, the last reload's included. */
    method Transition(c: Command) returns (r: Option<Record>)
      modifies this
      ensures file == After(rules, old(file), c)
      ensures match Load(rules, old(file))
              case None => r.None?
              case Some(rec) =>
                match Decide(rules, rec, c)
                case Refused => r.None?
                case Unchanged => r == Some(rec)
                case Write(_, _) => r == Load(rules, file)
      ensures rules.StampsSettle() && Timely(rules, c) && Load(rules, old(file)).Some? ==>
                Told(rules, Load(rules, old(file)).value, c, old(file), file, r)
    {
      hide Load, Decide, Written, Placed, Moves, Stays, RoutingFor, SoundRecord;
      var loaded := LoadFile(rules, file);
      if loaded.None? {
        return None;
      }
      var rec := loaded.value;
      LoadIsSound(rules, file);
      if rules.StampsSettle() && Timely(rules, c) {
        DecidedExactly(rules, rec, c);
      }
      match Decide(rules, rec, c)
      case Refused => r := None;
      case Unchanged => r := Some(rec);
      case Write(state, routing) =>
        LoadedIsPlaced(rules, file);
        var text := ReplaceFields(rec, state, routing);
        if text.None? {
          return None;
        }
        file := text.value;
        r := LoadFile(rules, file);
    }
  }

  lemma LoadedIsPlaced(rules: Rules, file: string)
    requires Load(rules, file).Some?
    ensures Placed(Load(rules, file).value)
  {
    hide Load, NoReturns;
    LoadIsSound(rules, file);
    PlacesOf(rules, Load(rules, file).value);
  }

  // ---------------------------------------------------------------------
  // Any run of commands
  // ---------------------------------------------------------------------

  /** Newline-ended frontmatter, and a reason and bead that stay on their line. */
  ghost predicate Tidy(rec: Record) {
    && (forall i :: 0 <= i < |rec.lines| ==> Ending(rec.lines[i]) == "\n")
    && OptionOneLine(rec.routing.reason) && OptionOneLine(rec.routing.bead)
  }

  /** A command with a readable time, and a bead that stays on its line. */
  ghost predicate Safe(rules: Rules, c: Command) {
    && (c.now.Some? ==> rules.IsStamp(c.now.value))
    && OptionOneLine(OperatorToken(rules, c.bead))
  }

  function AfterAll(rules: Rules, file: string, commands: seq<Command>): string
    decreases |commands|
  {
    if commands == [] then file
    else
      var last := |commands| - 1;
      After(rules, AfterAll(rules, file, commands[..last]), commands[last])
  }

  ghost predicate TidyFile(rules: Rules, file: string) {
    Load(rules, file).Some? && Tidy(Load(rules, file).value)
  }

  lemma SafeUpdate(rules: Rules, rec: Record, c: Command)
    requires Tidy(rec) && Safe(rules, c) && Decide(rules, rec, c).Write?
    ensures var routing := Decide(rules, rec, c).routing;
            routing.Some? ==> OptionOneLine(routing.value.reason) && OptionOneLine(routing.value.bead)
  {
    hide OperatorToken, ValidateRouting;
  }

  lemma TidyHolds(rules: Rules, rec: Record, routing: Option<Routing>)
    requires SoundRecord(rules, rec) && Tidy(rec)
    requires routing.Some? ==> OptionOneLine(routing.value.reason) && OptionOneLine(routing.value.bead)
    ensures WillHold(rec, routing)
  {
    hide SoundRecord, Gives;
    PlacesOf(rules, rec);
  }

  predicate Fits(e: Edit) {
    Identifier(e.key) && NoBreaks(e.rendered)
  }

  lemma StateEditFits(state: string)
    requires ValidState(state)
    ensures Fits(StateEdit(state))
  {
    IdentifierWord("state");
    StateHasNoBreaks(state);
  }

  lemma RoutingEditFits(rules: Rules, r: Routing)
    requires Settled(rules, r) && OptionOneLine(r.reason) && OptionOneLine(r.bead)
    ensures Fits(RoutingEdit(r))
  {
    IdentifierWord("routing");
    RoutingOnOneLine(rules, r);
  }

  lemma EditsFit(rules: Rules, rec: Record, state: string, routing: Option<Routing>)
    requires ValidState(state)
    requires routing.Some? ==>
               Settled(rules, routing.value) && OptionOneLine(routing.value.reason) && OptionOneLine(routing.value.bead)
    ensures forall i :: i in EditsFor(rec, state, routing) ==> Fits(EditsFor(rec, state, routing)[i])
  {
    hide Fits, StateEdit, RoutingEdit, PlaceOf, ValidState, Settled, OptionOneLine;
    StateEditFits(state);
    if routing.Some? {
      RoutingEditFits(rules, routing.value);
    }
  }

  lemma FittingLineIsWhole(e: Edit, line: string)
    requires Fits(e) && Ending(line) == "\n"
    ensures WholeLine(EditedLine(e, line)) && Ending(EditedLine(e, line)) == "\n"
  {
    hide Ending, WholeLine, Spelled;
    EndedEditIsWhole(e);
    SpelledNewline(e.key, e.rendered);
    NewlineIsEnding(Spelled(e.key, e.rendered));
  }

  /** Every edited line of a tidy file is a whole line again. */
  lemma TidyLinesStayWhole(rules: Rules, rec: Record, state: string, routing: Option<Routing>)
    requires SoundRecord(rules, rec) && SoundUpdate(rules, rec, state, routing) && Tidy(rec)
    requires routing.Some? ==> OptionOneLine(routing.value.reason) && OptionOneLine(routing.value.bead)
    ensures var lines := Edited(rec.lines, EditsFor(rec, state, routing));
            forall i :: 0 <= i < |lines| ==> WholeLine(lines[i]) && Ending(lines[i]) == "\n"
  {
    hide WholeLine, Fits, EditedLine, EditsFor, Validate, BodyOk, StateFits, TakeAll, Ending, Settled;
    var edits := EditsFor(rec, state, routing);
    var lines := Edited(rec.lines, edits);
    EditsFit(rules, rec, state, routing);
    forall i | 0 <= i < |lines| ensures WholeLine(lines[i]) && Ending(lines[i]) == "\n" {
      if i in edits {
        FittingLineIsWhole(edits[i], rec.lines[i]);
      }
    }
  }

  lemma NewlineIsEnding(s: string)
    ensures Ending(s + "\n") == "\n"
  {}

  /** A text put together from an opening, whole lines, a marker and a body splits into them. */
  lemma PartsReadBack(opening: string, lines: seq<string>, closing: string, body: string)
    requires IsMarker(opening) && Ended(opening) && AllWhole(lines)
    requires IsMarker(closing) && (closing == "---" ==> body == "")
    ensures var text := opening + Concat(lines) + closing + body;
            SplitLines(text) == [opening] + lines + [closing] + SplitLines(body)
  {
    hide SplitLines, WholeLine, IsMarker;
    var text := opening + Concat(lines) + closing + body;
    SplitLinesIsSplit(body);
    var all := [opening] + lines + [closing] + SplitLines(body);
    PartsAreWell(opening, lines, closing, body);
    SplitOfWell(all);
    ConcatAppend([opening] + lines + [closing], SplitLines(body));
    ConcatAppend([opening] + lines, [closing]);
    ConcatAppend([opening], lines);
    ConcatOne(opening);
    ConcatOne(closing);
  }

  lemma ConcatOne(s: string)
    ensures Concat([s]) == s
  {
    assert Concat([s]) == s + Concat([s][1..]);
  }

  lemma MarkerIsLine(marker: string)
    requires IsMarker(marker)
    ensures IsLine(marker) && (marker != "---" ==> Ended(marker))
  {
    if marker != "---" {
      NewlineEnds("---");
    }
  }

  lemma PartsAreWell(opening: string, lines: seq<string>, closing: string, body: string)
    requires IsMarker(opening) && Ended(opening) && AllWhole(lines)
    requires IsMarker(closing) && (closing == "---" ==> body == "")
    ensures WellSplit([opening] + lines + [closing] + SplitLines(body))
  {
    hide SplitLines, IsMarker, IsLine, Ended;
    MarkerIsLine(opening);
    MarkerIsLine(closing);
    SplitLinesIsSplit(body);
    var rest := SplitLines(body);
    if body == "" {
      NoLines();
    }
    var all := [opening] + lines + [closing] + rest;
    assert forall i :: 0 < i <= |lines| ==> all[i] == lines[i - 1];
    assert all[|lines| + 1] == closing;
    assert forall i :: |lines| + 2 <= i < |all| ==> all[i] == rest[i - |lines| - 2];
  }

  lemma NoLines()
    ensures SplitLines("") == []
  {}

  lemma {:induction false} MarkerAfterWhole(lines: seq<string>, closing: string, rest: seq<string>)
    requires AllWhole(lines) && IsMarker(closing)
    ensures FirstMarker(lines + [closing] + rest) == |lines|
  {
    var all := lines + [closing] + rest;
    var n := FirstMarker(all);
    assert all[|lines|] == closing;
    assert forall i :: 0 <= i < |lines| ==> all[i] == lines[i] && WholeLine(lines[i]);
  }

  /** The written text of a tidy file has the edited lines for its frontmatter. */
  lemma WrittenLines(rules: Rules, rec: Record, state: string, routing: Option<Routing>)
    requires Shaped(rec) && AllWhole(Edited(rec.lines, EditsFor(rec, state, routing)))
    requires LoadText(rules, Written(rec, state, routing)).Some?
    ensures LoadText(rules, Written(rec, state, routing)).value.lines
            == Edited(rec.lines, EditsFor(rec, state, routing))
  {
    hide SplitLines, WholeLine, FirstMarker, Validate, BodyOk, TakeAll, Concat, EditsFor, Edited, IsMarker;
    var lines := Edited(rec.lines, EditsFor(rec, state, routing));
    PartsReadBack(rec.opening, lines, rec.closing, rec.body);
    var rest := lines + [rec.closing] + SplitLines(rec.body);
    assert [rec.opening] + lines + [rec.closing] + SplitLines(rec.body) == [rec.opening] + rest;
    assert ([rec.opening] + rest)[1..] == rest;
    MarkerAfterWhole(lines, rec.closing, SplitLines(rec.body));
    assert rest[..|lines|] == lines;
    WholeLinesSplit(lines);
  }

  lemma WholeLinesSplit(lines: seq<string>)
    requires AllWhole(lines)
    ensures SplitLines(Concat(lines)) == lines
  {
    SplitOfWell(lines);
  }

  /** After a safe command a tidy file is a tidy file, with the same body and other fields. */
  lemma SafeCommandKeepsTidy(rules: Rules, file: string, c: Command)
    requires rules.StampsSettle() && Safe(rules, c) && TidyFile(rules, file)
    ensures TidyFile(rules, After(rules, file, c))
    ensures var rec, rec' := Load(rules, file).value, Load(rules, After(rules, file, c)).value;
            rec'.body == rec.body && rec'.others == rec.others
  {
    hide LoadText, Written, SoundRecord, SoundUpdate, NoReturns, WillHold, Decide, Universal;
    var rec := Load(rules, file).value;
    var d := Decide(rules, rec, c);
    if d.Write? {
      LoadIsSound(rules, file);
      SafeUpdate(rules, rec, c);
      TidyHolds(rules, rec, d.routing);
      TransitionReloadsExactly(rules, file, c);
      DecisionIsSound(rules, rec, c);
      SoundUpdateState(rules, rec, d.state, d.routing);
      WrittenHasNoReturns(rec, d.state, d.routing);
      UniversalOfPlain(Written(rec, d.state, d.routing));
      TidyLinesStayWhole(rules, rec, d.state, d.routing);
      SoundRecordIsShaped(rules, rec);
      WrittenLines(rules, rec, d.state, d.routing);
    }
  }

  lemma SoundRecordIsShaped(rules: Rules, rec: Record)
    requires SoundRecord(rules, rec)
    ensures Shaped(rec)
  {}

  /** No run of safe commands, legal or not, leaves a tidy lesson unreadable or touches its body. */
  lemma {:induction false} TidyLessonsAlwaysLoad(rules: Rules, file: string, commands: seq<Command>)
    requires rules.StampsSettle() && TidyFile(rules, file)
    requires forall i :: 0 <= i < |commands| ==> Safe(rules, commands[i])
    ensures TidyFile(rules, AfterAll(rules, file, commands))
    ensures var rec, rec' := Load(rules, file).value, Load(rules, AfterAll(rules, file, commands)).value;
            rec'.body == rec.body && rec'.others == rec.others
    decreases |commands|
  {
    hide Load, After, Safe, Tidy;
    if commands != [] {
      var last := |commands| - 1;
      TidyLessonsAlwaysLoad(rules, file, commands[..last]);
      SafeCommandKeepsTidy(rules, AfterAll(rules, file, commands[..last]), commands[last]);
    }
  }
}
