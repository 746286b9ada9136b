/**
  A legal command leaves a document that loads again with its state and
  routing changed and everything else kept, exactly when the rewritten lines
  still end and the written texts stay on them; and the file object itself.
 */
module LessonLaw {
  import opened Prelude
  import opened Sequences
  import opened PyText
  import opened JsonText
  import opened Inline
  import opened InlineRoundTrip
  import opened LessonFile
  import opened LessonRewrite
  import opened LessonReload
  import opened LessonEdits
  import opened LessonRouting
  import opened LessonRecord
  import opened LessonTransition
  import opened LessonLifecycle

  // ---------------------------------------------------------------------
  // The condition
  // ---------------------------------------------------------------------

  predicate EndsAt(lines: seq<string>, i: nat) {
    i < |lines| && StaysEnded(lines, i)
  }

  /**
    What a caller can see before the command: each line to be rewritten ends
    in a newline (or a blank line follows it), and a rewritten routing has no
    next-line, line-separator or paragraph-separator in its reason or bead.
   */
  predicate WillHold(rec: Record, routing: Option<Routing>) {
    && EndsAt(rec.lines, PlaceOf(rec, "state"))
    && (routing.Some? ==>
          && EndsAt(rec.lines, PlaceOf(rec, "routing"))
          && OptionOneLine(routing.value.reason) && OptionOneLine(routing.value.bead))
  }

  // ---------------------------------------------------------------------
  // Legal commands make sound updates
  // ---------------------------------------------------------------------

  ghost predicate SoundRecord(rules: Rules, rec: Record) {
    && Shaped(rec)
    && Validate(rules, TakeAll(rec.lines, map[]).value) == Some(Checked(rec.others, rec.state, rec.routing))
    && BodyOk(rules, rec.body)
  }

  ghost predicate SoundUpdate(rules: Rules, rec: Record, state: string, routing: Option<Routing>) {
    var r := routing.GetOr(rec.routing);
    ValidState(state) && Settled(rules, r) && RoutingAgrees(r) && StateFits(state, r)
  }

  lemma CheckedIsSettled(rules: Rules, r: Routing)
    requires ValidateRouting(rules, Fields(AsFields(r))).Some?
    requires r.appliedAt.Some? ==> rules.IsStamp(r.appliedAt.value)
    ensures Settled(rules, r) && RoutingAgrees(r)
  {
    hide Lookup, AsFields, ValidateRouting, Timestamp, SafeText;
    ValidateIsFrom(rules, r);
    StampBack(rules, r.appliedAt);
  }

  lemma LoadedRouting(rules: Rules, rec: Record)
    requires rules.StampsSettle() && SoundRecord(rules, rec)
    ensures Settled(rules, rec.routing) && RoutingAgrees(rec.routing) && StateFits(rec.state, rec.routing)
            && ValidState(rec.state)
  {
    ValidatedIsSettled(rules, TakeAll(rec.lines, map[]).value["routing"]);
  }

  lemma TargetIsState(c: Command)
    requires Target(c).Some?
    ensures ValidState(Target(c).value)
  {
    if c.target == "applied" {
      CutsBack(APPLIED, c.layer.value);
    }
  }

  lemma TerminalIsPlain(state: string)
    requires state in LESSON_STATES
    ensures LayerOf(state).None?
  {
    if LayerOf(state).Some? {
      AppliedIsNotPlain(state);
    }
  }

  lemma ApplyingIsSound(rules: Rules, rec: Record, layer: string, c: Command)
    requires layer in LAYERS && AppliedRouting(rules, rec, layer, c).Some?
    requires c.now.Some? ==> rules.IsStamp(c.now.value)
    requires ValidateRouting(rules, Fields(AsFields(AppliedRouting(rules, rec, layer, c).value))).Some?
    ensures var r := AppliedRouting(rules, rec, layer, c).value;
            Settled(rules, r) && RoutingAgrees(r) && r.applied == Some(layer)
  {
    CheckedIsSettled(rules, AppliedRouting(rules, rec, layer, c).value);
  }

  lemma ReopeningIsSound(rules: Rules, rec: Record)
    requires rules.StampsSettle() && SoundRecord(rules, rec)
    requires ValidateRouting(rules, Fields(AsFields(rec.routing.(applied := None)))).Some?
    ensures var r := rec.routing.(applied := None); Settled(rules, r) && RoutingAgrees(r)
  {
    LoadedRouting(rules, rec);
    CheckedIsSettled(rules, rec.routing.(applied := None));
  }

  /** A step that leaves the routing alone leaves it fitting the new state. */
  lemma StepKeepsFit(current: string, target: string, r: Routing)
    requires StateFits(current, r) && LegalStep(current, target) && ValidState(current)
    requires LayerOf(target).None? && !(LayerOf(current).Some? && target == "accepted")
    ensures StateFits(target, r)
  {
    TerminalIsPlain("draft");
  }

  /** Whatever a command decides to write is valid and consistent. */
  lemma DecisionIsSound(rules: Rules, rec: Record, c: Command)
    requires rules.StampsSettle() && SoundRecord(rules, rec) && Decide(rules, rec, c).Write?
    requires c.now.Some? ==> rules.IsStamp(c.now.value)
    ensures var d := Decide(rules, rec, c); SoundUpdate(rules, rec, d.state, d.routing)
  {
    hide SoundRecord, Settled, RoutingAgrees, ValidateRouting, AppliedRouting, AsFields;
    TargetIsState(c);
    var target := Target(c).value;
    LoadedRouting(rules, rec);
    if LayerOf(target).Some? {
      TargetLayerIsKnown(target);
      ApplyingIsSound(rules, rec, LayerOf(target).value, c);
    } else if LayerOf(rec.state).Some? && target == "accepted" {
      ReopeningIsSound(rules, rec);
    } else {
      StepKeepsFit(rec.state, target, rec.routing);
    }
  }

  lemma TargetLayerIsKnown(target: string)
    requires ValidState(target) && LayerOf(target).Some?
    ensures LayerOf(target).value in LAYERS
  {
    if target in LESSON_STATES {
      TerminalIsPlain(target);
    }
  }

  // ---------------------------------------------------------------------
  // Reading what was written
  // ---------------------------------------------------------------------

  lemma OneMoreEdit(lines: seq<string>, edits: Edits, i: nat, e: Edit)
    requires WellEdited(lines, edits) && i < |lines| && GoodEdit(e, lines[i])
    ensures WellEdited(lines, edits[i := e])
  {
    hide SoundEdit, Gives;
    var more := edits[i := e];
    assert forall n :: n in more && n != i ==> n in edits && more[n] == edits[n];
  }

  lemma NoEdits(lines: seq<string>)
    ensures WellEdited(lines, map[])
  {}

  lemma PlacesDiffer(names: seq<string>, i: nat, j: nat)
    requires OnlyPlace(names, "state", i) && OnlyPlace(names, "routing", j)
    ensures i != j
  {
    assert "state"[0] != "routing"[0];
  }

  lemma PlacesOf(rules: Rules, rec: Record)
    requires SoundRecord(rules, rec)
    ensures Placed(rec) && PlaceOf(rec, "state") != PlaceOf(rec, "routing")
    ensures Gives(rec.lines[PlaceOf(rec, "state")], "state") && Gives(rec.lines[PlaceOf(rec, "routing")], "routing")
  {
    FieldPlaces(rec);
    PlacesDiffer(Names(rec.lines), PlaceOf(rec, "state"), PlaceOf(rec, "routing"));
  }

  lemma EditsAreGood(rules: Rules, rec: Record, state: string, routing: Option<Routing>)
    requires SoundRecord(rules, rec) && ValidState(state)
    ensures Placed(rec) && WellEdited(rec.lines, EditsFor(rec, state, routing))
    ensures PlaceOf(rec, "state") != PlaceOf(rec, "routing")
  {
    hide SoundEdit, Gives, WellEdited, Shaped, Validate, BodyOk, Names;
    PlacesOf(rules, rec);
    StateEditReads(state);
    var edits: Edits := map[];
    NoEdits(rec.lines);
    OneMoreEdit(rec.lines, edits, PlaceOf(rec, "state"), StateEdit(state));
    if routing.Some? {
      RoutingEditReads(routing.value);
      OneMoreEdit(rec.lines, edits[PlaceOf(rec, "state") := StateEdit(state)],
                  PlaceOf(rec, "routing"), RoutingEdit(routing.value));
    }
  }

  lemma EditsAreFragile(rules: Rules, rec: Record, state: string, routing: Option<Routing>)
    requires SoundUpdate(rules, rec, state, routing)
    ensures forall i :: i in EditsFor(rec, state, routing) ==> Fragile(EditsFor(rec, state, routing)[i], BadState)
  {
    StateEditIsFragile(state);
    if routing.Some? {
      RoutingEditIsFragile(routing.value);
    }
  }

  lemma OneEditHolds(lines: seq<string>, i: nat, e: Edit)
    requires i < |lines|
    ensures EditsHold(lines, map[i := e]) <==> NoBreaks(e.rendered) && StaysEnded(lines, i)
  {
    var edits: Edits := map[i := e];
    assert i in edits && edits[i] == e;
    assert EditHolds(lines, edits, i) <==> NoBreaks(e.rendered) && StaysEnded(lines, i);
  }

  lemma TwoEditsHold(lines: seq<string>, i: nat, e: Edit, j: nat, f: Edit)
    requires i < |lines| && j < |lines| && i != j
    ensures EditsHold(lines, map[i := e, j := f])
            <==> NoBreaks(e.rendered) && StaysEnded(lines, i) && NoBreaks(f.rendered) && StaysEnded(lines, j)
  {
    var edits: Edits := map[i := e, j := f];
    assert i in edits && edits[i] == e && j in edits && edits[j] == f;
    assert EditHolds(lines, edits, i) <==> NoBreaks(e.rendered) && StaysEnded(lines, i);
    assert EditHolds(lines, edits, j) <==> NoBreaks(f.rendered) && StaysEnded(lines, j);
  }

  lemma RoutingOnOneLine(rules: Rules, r: Routing)
    requires Settled(rules, r)
    ensures NoBreaks(RoutingEdit(r).rendered) <==> OptionOneLine(r.reason) && OptionOneLine(r.bead)
  {
    RoutingBreaksExactly(rules, r);
  }

  /** The condition a caller sees is that every edit holds. */
  lemma WillHoldIsEditsHold(rules: Rules, rec: Record, state: string, routing: Option<Routing>)
    requires PlaceOf(rec, "state") < |rec.lines| && PlaceOf(rec, "routing") < |rec.lines|
    requires PlaceOf(rec, "state") != PlaceOf(rec, "routing")
    requires ValidState(state) && (routing.Some? ==> Settled(rules, routing.value))
    ensures WillHold(rec, routing) <==> EditsHold(rec.lines, EditsFor(rec, state, routing))
  {
    StateHasNoBreaks(state);
    var i, j := PlaceOf(rec, "state"), PlaceOf(rec, "routing");
    if routing.Some? {
      RoutingOnOneLine(rules, routing.value);
      TwoEditsHold(rec.lines, i, StateEdit(state), j, RoutingEdit(routing.value));
    } else {
      OneEditHolds(rec.lines, i, StateEdit(state));
    }
  }

  lemma StateHasNoBreaks(state: string)
    requires ValidState(state)
    ensures NoBreaks(state)
  {
    StateReads(state);
  }

  lemma WrittenFront(rec: Record, state: string, routing: Option<Routing>)
    requires Shaped(rec)
    ensures Closing(rec.closing + rec.body)
    ensures FrontOf(Written(rec, state, routing))
            == ReadFront(SplitLines(Concat(Edited(rec.lines, EditsFor(rec, state, routing)))
                                    + (rec.closing + rec.body)), map[])
  {
    var middle := Concat(Edited(rec.lines, EditsFor(rec, state, routing)));
    Associates(rec.opening + middle, rec.closing, rec.body);
    Associates(rec.opening, middle, rec.closing + rec.body);
    FrontAfterOpening(rec, middle + (rec.closing + rec.body));
  }

  /** The fields of the written text: the old ones, with the state and perhaps the routing overwritten. */
  ghost predicate Updates(fields: FieldMap, state: string, routing: Option<Routing>, all: FieldMap) {
    && "state" in all && all["state"] == Text(state)
    && "routing" in all && "routing" in fields
    && all["routing"] == (match routing case None => fields["routing"] case Some(r) => Fields(AsFields(r)))
    && Others(all) == Others(fields)
  }

  lemma OthersKept(fields: FieldMap, edits: Edits, all: FieldMap)
    requires Overwrites(fields, edits, all)
    requires forall i :: i in edits ==> edits[i].key == "state" || edits[i].key == "routing"
    ensures Others(all) == Others(fields)
  {
    forall key | key in Others(fields) ensures all[key] == fields[key] {
      assert forall i :: i in edits ==> edits[i].key != key;
    }
    assert Others(all).Keys == Others(fields).Keys;
  }

  lemma StateOverwritten(fields: FieldMap, i: nat, e: Edit, all: FieldMap)
    requires e.key == "state" && Overwrites(fields, map[i := e], all) && "routing" in fields
    ensures "state" in all && all["state"] == e.value && all["routing"] == fields["routing"]
            && Others(all) == Others(fields)
  {
    var edits: Edits := map[i := e];
    assert i in edits && edits[i] == e;
    assert "state"[0] != "routing"[0];
    OthersKept(fields, edits, all);
  }

  lemma BothOverwritten(fields: FieldMap, i: nat, e: Edit, j: nat, f: Edit, all: FieldMap)
    requires e.key == "state" && f.key == "routing" && i != j && Overwrites(fields, map[i := e, j := f], all)
    ensures "state" in all && all["state"] == e.value && "routing" in all && all["routing"] == f.value
    ensures Others(all) == Others(fields)
  {
    var edits: Edits := map[i := e, j := f];
    assert i in edits && edits[i] == e && j in edits && edits[j] == f;
    OthersKept(fields, edits, all);
  }

  lemma OverwritesUpdates(rules: Rules, rec: Record, state: string, routing: Option<Routing>, all: FieldMap)
    requires SoundRecord(rules, rec) && SoundUpdate(rules, rec, state, routing)
    requires Overwrites(TakeAll(rec.lines, map[]).value, EditsFor(rec, state, routing), all)
    ensures Updates(TakeAll(rec.lines, map[]).value, state, routing, all)
  {
    EditsAreGood(rules, rec, state, routing);
    var fields := TakeAll(rec.lines, map[]).value;
    var i, j := PlaceOf(rec, "state"), PlaceOf(rec, "routing");
    if routing.Some? {
      BothOverwritten(fields, i, StateEdit(state), j, RoutingEdit(routing.value), all);
    } else {
      StateOverwritten(fields, i, StateEdit(state), all);
    }
  }

  lemma UpdatesValidate(rules: Rules, rec: Record, state: string, routing: Option<Routing>, all: FieldMap)
    requires SoundRecord(rules, rec) && SoundUpdate(rules, rec, state, routing)
    requires Updates(TakeAll(rec.lines, map[]).value, state, routing, all)
    ensures Validate(rules, all) == Some(Checked(rec.others, state, routing.GetOr(rec.routing)))
  {
    if routing.Some? {
      SettledReadsBack(rules, routing.value);
    }
  }

  ghost predicate Reloads(rules: Rules, rec: Record, state: string, routing: Option<Routing>, loaded: Option<Record>) {
    && loaded.Some?
    && loaded.value.state == state
    && loaded.value.routing == routing.GetOr(rec.routing)
    && loaded.value.others == rec.others
    && loaded.value.body == rec.body
  }

  /** The front of the written text: the overwritten fields, then the body. */
  lemma HeldWriteFront(rules: Rules, rec: Record, state: string, routing: Option<Routing>)
    requires SoundRecord(rules, rec) && SoundUpdate(rules, rec, state, routing) && WillHold(rec, routing)
    ensures var front := FrontOf(Written(rec, state, routing));
            && front.Some? && Concat(front.value.1) == rec.body
            && Overwrites(TakeAll(rec.lines, map[]).value, EditsFor(rec, state, routing), front.value.0)
  {
    hide SoundEdit, Gives, EditHolds, WholeLine, FoldLines, FrontWith, SplitLines, Concat, FrontOf, Edited,
         Validate, BodyOk, Settled, StateFits, EditsFor, Overwrites, Written, WillHold;
    var edits := EditsFor(rec, state, routing);
    EditsAreGood(rules, rec, state, routing);
    WillHoldIsEditsHold(rules, rec, state, routing);
    WrittenFront(rec, state, routing);
    HeldEditsRead(rec.lines, edits, rec.closing + rec.body);
    ClosingReads(rec, TakeAll(Edited(rec.lines, edits), map[]).value);
  }

  lemma FrontLoads(rules: Rules, rec: Record, state: string, routing: Option<Routing>)
    requires FrontOf(Written(rec, state, routing)).Some?
    requires var front := FrontOf(Written(rec, state, routing));
             && front.Some? && Concat(front.value.1) == rec.body && BodyOk(rules, rec.body)
             && Validate(rules, front.value.0) == Some(Checked(rec.others, state, routing.GetOr(rec.routing)))
    ensures Reloads(rules, rec, state, routing, LoadText(rules, Written(rec, state, routing)))
  {
    hide FrontOf, ReadDocument, Validate, BodyOk, Concat, SplitLines, Written;
    DocumentIsFront(Written(rec, state, routing));
  }

  lemma HeldWriteReloads(rules: Rules, rec: Record, state: string, routing: Option<Routing>)
    requires SoundRecord(rules, rec) && SoundUpdate(rules, rec, state, routing) && WillHold(rec, routing)
    ensures Reloads(rules, rec, state, routing, LoadText(rules, Written(rec, state, routing)))
  {
    hide FrontOf, Concat, Written, Overwrites, Updates, EditsFor, Validate, BodyOk, Settled, StateFits, FoldLines,
         WillHold, LoadText;
    HeldWriteFront(rules, rec, state, routing);
    var all := FrontOf(Written(rec, state, routing)).value.0;
    OverwritesUpdates(rules, rec, state, routing, all);
    UpdatesValidate(rules, rec, state, routing, all);
    FrontLoads(rules, rec, state, routing);
  }

  lemma UnheldWriteFront(rules: Rules, rec: Record, state: string, routing: Option<Routing>)
    requires SoundRecord(rules, rec) && SoundUpdate(rules, rec, state, routing) && !WillHold(rec, routing)
    ensures BadRead(FrontOf(Written(rec, state, routing)), EditsFor(rec, state, routing), BadState)
  {
    hide SoundEdit, Gives, EditHolds, WholeLine, FoldLines, FrontWith, SplitLines, Concat, FrontOf, Edited,
         Validate, BodyOk, Settled, StateFits, EditsFor, Fragile, Written, WillHold, BadRead;
    var edits := EditsFor(rec, state, routing);
    EditsAreGood(rules, rec, state, routing);
    EditsAreFragile(rules, rec, state, routing);
    WillHoldIsEditsHold(rules, rec, state, routing);
    WrittenFront(rec, state, routing);
    UnheldEditSpoils(rec.lines, edits, rec.closing + rec.body, BadState);
  }

  lemma UnheldWriteFails(rules: Rules, rec: Record, state: string, routing: Option<Routing>)
    requires SoundRecord(rules, rec) && SoundUpdate(rules, rec, state, routing) && !WillHold(rec, routing)
    ensures LoadText(rules, Written(rec, state, routing)).None?
  {
    hide FrontOf, ReadDocument, BodyOk, Concat, SplitLines, Written, EditsFor, ValidateRouting, StateFits, Settled;
    UnheldWriteFront(rules, rec, state, routing);
    DocumentIsFront(Written(rec, state, routing));
  }

  // ---------------------------------------------------------------------
  // No carriage returns are written
  // ---------------------------------------------------------------------

  lemma {:induction false} EscapeHasNoReturn(s: string)
    ensures '\r' !in Escape(s)
  {
    if s != "" {
      EscapeCons(s);
      EscapeHasNoReturn(s[1..]);
      CharHasNoReturn(s[0]);
    }
  }

  lemma CharHasNoReturn(c: char)
    ensures '\r' !in EscapeChar(c)
  {
    if c < ' ' {
      assert forall i :: 0 <= i < |EscapeChar(c)| ==> EscapeChar(c)[i] >= ' ';
    }
  }

  lemma EntryHasNoReturn(key: string, s: Option<string>)
    requires '\r' !in key
    ensures '\r' !in RenderEntry((key, Scalarised(s)))
  {
    ScalarHasNoReturn(s);
    SumHasNoReturn(key, ": ");
    SumHasNoReturn(key + ": ", RenderScalar(Scalarised(s)));
  }

  lemma {:induction false} EntriesHaveNoReturn(fields: seq<(string, Value)>)
    requires AllPlain(fields) && forall i :: 0 <= i < |fields| ==> '\r' !in RenderEntry(fields[i])
    ensures '\r' !in RenderEntries(fields)
  {
    if |fields| > 1 {
      EntriesHaveNoReturn(fields[1..]);
      SumHasNoReturn(RenderEntry(fields[0]), ", ");
      SumHasNoReturn(RenderEntry(fields[0]) + ", ", RenderEntries(fields[1..]));
    }
  }

  lemma RoutingHasNoReturn(r: Routing)
    ensures '\r' !in RenderMapping(AsFields(r))
  {
    EntryHasNoReturn("recommended", r.recommended);
    EntryHasNoReturn("reason", r.reason);
    EntryHasNoReturn("applied", r.applied);
    EntryHasNoReturn("applied_at", r.appliedAt);
    EntryHasNoReturn("bead", r.bead);
    EntriesHaveNoReturn(AsFields(r));
    SumHasNoReturn("{", RenderEntries(AsFields(r)));
    SumHasNoReturn("{" + RenderEntries(AsFields(r)), "}");
  }

  lemma ScalarHasNoReturn(s: Option<string>)
    ensures '\r' !in RenderScalar(Scalarised(s))
  {
    if s.Some? {
      EscapeHasNoReturn(s.value);
      if BareText(s.value) {
        assert forall i :: 0 <= i < |s.value| ==> BareChar(s.value[i]);
      }
    }
  }

  lemma {:induction false} ConcatHasNoReturn(lines: seq<string>)
    requires forall i :: 0 <= i < |lines| ==> '\r' !in lines[i]
    ensures '\r' !in Concat(lines)
  {
    if lines != [] {
      ConcatHasNoReturn(lines[1..]);
    }
  }

  lemma {:induction false} PartsHaveNoReturn(lines: seq<string>, i: nat)
    requires '\r' !in Concat(lines) && i < |lines|
    ensures '\r' !in lines[i]
  {
    assert forall c :: c in lines[0] ==> c in Concat(lines);
    assert forall c :: c in Concat(lines[1..]) ==> c in Concat(lines);
    if i > 0 {
      PartsHaveNoReturn(lines[1..], i - 1);
    }
  }

  predicate NoReturns(rec: Record) {
    && '\r' !in rec.opening && '\r' !in rec.closing && '\r' !in rec.body
    && (forall i :: 0 <= i < |rec.lines| ==> '\r' !in rec.lines[i])
  }

  lemma LinesHaveNoReturn(text: string)
    requires '\r' !in text
    ensures forall i :: 0 <= i < |SplitLines(text)| ==> '\r' !in SplitLines(text)[i]
  {
    SplitLinesIsSplit(text);
    forall i | 0 <= i < |SplitLines(text)| ensures '\r' !in SplitLines(text)[i] {
      PartsHaveNoReturn(SplitLines(text), i);
    }
  }

  lemma LoadedHasNoReturns(rules: Rules, text: string)
    requires '\r' !in text && LoadText(rules, text).Some?
    ensures NoReturns(LoadText(rules, text).value)
  {
    hide Validate, BodyOk, TakeAll, SplitLines, FirstMarker, IsLine, Concat;
    var lines := SplitLines(text);
    var n := FirstMarker(lines[1..]);
    LinesHaveNoReturn(text);
    SplitLinesIsSplit(text);
    LinesParts(lines, n + 1);
    assert lines[1..][..n] == lines[1..n + 1] && lines[1..][n + 1..] == lines[n + 2..];
    ConcatHasNoReturn(lines[n + 2..]);
  }

  lemma SumHasNoReturn(a: string, b: string)
    requires '\r' !in a && '\r' !in b
    ensures '\r' !in a + b
  {}

  predicate Clear(e: Edit) {
    '\r' !in e.key && '\r' !in e.rendered
  }

  lemma EditHasNoReturn(e: Edit, line: string)
    requires Clear(e)
    ensures '\r' !in EditedLine(e, line)
  {
    SumHasNoReturn(e.rendered, Ending(line));
    SumHasNoReturn(": ", e.rendered + Ending(line));
    SumHasNoReturn(e.key, ": " + (e.rendered + Ending(line)));
  }

  lemma WordHasNoReturn(s: string)
    requires ValidState(s)
    ensures '\r' !in s
  {
    StatesAreWords(s);
  }

  lemma StateEditIsClear(state: string)
    requires ValidState(state)
    ensures Clear(StateEdit(state))
  {
    WordHasNoReturn(state);
  }

  lemma RoutingEditIsClear(r: Routing)
    ensures Clear(RoutingEdit(r))
  {
    RoutingHasNoReturn(r);
  }

  lemma EditsAreClear(rec: Record, state: string, routing: Option<Routing>)
    requires ValidState(state)
    ensures forall i :: i in EditsFor(rec, state, routing) ==> Clear(EditsFor(rec, state, routing)[i])
  {
    hide Clear, StateEdit, RoutingEdit, PlaceOf, ValidState;
    StateEditIsClear(state);
    if routing.Some? {
      RoutingEditIsClear(routing.value);
    }
  }

  lemma WrittenHasNoReturns(rec: Record, state: string, routing: Option<Routing>)
    requires NoReturns(rec) && ValidState(state)
    ensures '\r' !in Written(rec, state, routing)
  {
    var edits := EditsFor(rec, state, routing);
    hide Clear, EditsFor, EditedLine, Concat;
    EditsAreClear(rec, state, routing);
    var lines := Edited(rec.lines, edits);
    forall i | 0 <= i < |lines| ensures '\r' !in lines[i] {
      if i in edits {
        EditHasNoReturn(edits[i], rec.lines[i]);
      }
    }
    ConcatHasNoReturn(lines);
  }

  // ---------------------------------------------------------------------
  // The law
  // ---------------------------------------------------------------------

  lemma LoadIsSound(rules: Rules, file: string)
    requires Load(rules, file).Some?
    ensures SoundRecord(rules, Load(rules, file).value) && NoReturns(Load(rules, file).value)
  {
    hide LoadText, ReadDocument, Shaped, Validate, BodyOk, NoReturns;
    LoadedShape(rules, Universal(file));
    LoadedHasNoReturns(rules, Universal(file));
  }

  /**
    A legal command leaves a file that loads again exactly when the rewritten
    lines hold, and then with the new state and routing and everything else kept.
   */
  lemma TransitionReloadsExactly(rules: Rules, file: string, c: Command)
    requires rules.StampsSettle() && (c.now.Some? ==> rules.IsStamp(c.now.value))
    requires Load(rules, file).Some? && Decide(rules, Load(rules, file).value, c).Write?
    ensures var rec := Load(rules, file).value;
            var d := Decide(rules, rec, c);
            var loaded := Load(rules, Written(rec, d.state, d.routing));
            && (loaded.Some? <==> WillHold(rec, d.routing))
            && (loaded.Some? ==> Reloads(rules, rec, d.state, d.routing, loaded))
  {
    hide LoadText, Written, SoundRecord, SoundUpdate, NoReturns, WillHold, Decide, Universal;
    var rec := Load(rules, file).value;
    var d := Decide(rules, rec, c);
    LoadIsSound(rules, file);
    DecisionIsSound(rules, rec, c);
    SoundUpdateState(rules, rec, d.state, d.routing);
    WrittenHasNoReturns(rec, d.state, d.routing);
    UniversalOfPlain(Written(rec, d.state, d.routing));
    if WillHold(rec, d.routing) {
      HeldWriteReloads(rules, rec, d.state, d.routing);
    } else {
      UnheldWriteFails(rules, rec, d.state, d.routing);
    }
  }

  lemma SoundUpdateState(rules: Rules, rec: Record, state: string, routing: Option<Routing>)
    requires SoundUpdate(rules, rec, state, routing)
    ensures ValidState(state)
  {}
}
