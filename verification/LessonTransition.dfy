/**
  Moving a lesson through its lifecycle (twill_lessons.py): which commands are
  legal, and the text a legal one writes over the file.
 */
module LessonTransition {
  import opened Prelude
  import opened Sequences
  import opened PyText
  import opened JsonText
  import opened Inline
  import opened InlineRoundTrip
  import opened LessonFile
  import opened LessonRewrite
  import opened LessonReload
  import opened LessonEdits
  import opened LessonRecord

  // ---------------------------------------------------------------------
  // Commands
  // ---------------------------------------------------------------------

  /** `now` is the clock or the given time in normal form, None when it is not a time. */
  datatype Command = Command(target: string, layer: Option<string>, bead: Option<string>, now: Option<string>,
                             operator: bool)

  /** `_transition_target`: None is its error. */
  function Target(c: Command): Option<string> {
    if c.target == "applied" then
      if c.layer.Some? && c.layer.value in LAYERS then Some(APPLIED + c.layer.value) else None
    else if !ValidState(c.target) then None
    else match LayerOf(c.target)
         case None => if c.layer.Some? then None else Some(c.target)
         case Some(layer) => if c.layer.Some? && c.layer.value != layer then None else Some(c.target)
  }

  /** `_operator_token`: None is its error. */
  function OperatorToken(rules: Rules, value: Option<string>): Option<string> {
    if value.None? || Strip(value.value) == "" then None
    else
      var safe := rules.redact(value.value);
      if |safe| > MAX_FIELD_LENGTH || !SafeField(safe) then None else Some(safe)
  }

  predicate LegalStep(current: string, target: string) {
    || (current == "draft" && target == "accepted")
    || (current == "accepted" && LayerOf(target).Some?)
    || (LayerOf(current).Some? && (target in TERMINAL_STATES || target == "accepted"))
  }

  datatype Decision = Refused | Unchanged | Write(state: string, routing: Option<Routing>)

  /** Asked for the state it is in: nothing to write, but an applied lesson keeps its bead. */
  function Repeated(rules: Rules, rec: Record, c: Command): Decision {
    if LayerOf(rec.state).None? || c.bead.None? then Unchanged
    else if LayerOf(rec.state) == Some(RETRIEVAL_ONLY) then Refused
    else if OperatorToken(rules, c.bead).None? || OperatorToken(rules, c.bead) != rec.routing.bead then Refused
    else Unchanged
  }

  /** The routing of a lesson being applied; None when the bead or the time will not do. */
  function AppliedRouting(rules: Rules, rec: Record, layer: string, c: Command): Option<Routing> {
    if layer == RETRIEVAL_ONLY then
      if c.bead.Some? || c.now.None? then None
      else Some(rec.routing.(applied := Some(layer), appliedAt := c.now, bead := None))
    else
      var bead := OperatorToken(rules, c.bead);
      if bead.None? || c.now.None? then None
      else Some(rec.routing.(applied := Some(layer), appliedAt := c.now, bead := bead))
  }

  /** The update is checked before anything is written. */
  function CheckedWrite(rules: Rules, state: string, routing: Routing, writes: bool): Decision {
    if ValidateRouting(rules, Fields(AsFields(routing))).None? then Refused
    else Write(state, if writes then Some(routing) else None)
  }

  /** `_transition`, up to the write. */
  function Decide(rules: Rules, rec: Record, c: Command): Decision {
    match Target(c)
    case None => Refused
    case Some(target) =>
      if rec.state == target then Repeated(rules, rec, c)
      else if !LegalStep(rec.state, target) || !c.operator then Refused
      else match LayerOf(target)
           case Some(layer) =>
             var routing := AppliedRouting(rules, rec, layer, c);
             if routing.None? then Refused else CheckedWrite(rules, target, routing.value, true)
           case None =>
             if LayerOf(rec.state).Some? && target == "accepted" then
               CheckedWrite(rules, target, rec.routing.(applied := None), true)
             else
               CheckedWrite(rules, target, rec.routing, false)
  }

  // ---------------------------------------------------------------------
  // What is written
  // ---------------------------------------------------------------------

  function Place(names: seq<string>, key: string): (i: nat)
    ensures i <= |names| && (i < |names| ==> names[i] == key)
    ensures forall j :: 0 <= j < i ==> names[j] != key
  {
    if names == [] || names[0] == key then 0 else 1 + Place(names[1..], key)
  }

  function StateEdit(state: string): Edit {
    Edit("state", state, Text(state))
  }

  function RoutingEdit(r: Routing): Edit {
    Edit("routing", RenderMapping(AsFields(r)), Fields(AsFields(r)))
  }

  function PlaceOf(rec: Record, key: string): nat {
    Place(Names(rec.lines), key)
  }

  function EditsFor(rec: Record, state: string, routing: Option<Routing>): Edits {
    var edits: Edits := map[PlaceOf(rec, "state") := StateEdit(state)];
    match routing
    case None => edits
    case Some(r) => edits[PlaceOf(rec, "routing") := RoutingEdit(r)]
  }

  function Written(rec: Record, state: string, routing: Option<Routing>): string {
    rec.opening + Concat(Edited(rec.lines, EditsFor(rec, state, routing))) + rec.closing + rec.body
  }

  /** Each of the two fields stands on one line of the frontmatter. */
  ghost predicate Placed(rec: Record) {
    && OnlyPlace(Names(rec.lines), "state", PlaceOf(rec, "state"))
    && OnlyPlace(Names(rec.lines), "routing", PlaceOf(rec, "routing"))
  }

  lemma PlaceIsOnly(names: seq<string>, key: string, i: nat)
    requires OnlyPlace(names, key, i)
    ensures Place(names, key) == i
  {
    var p := Place(names, key);
    assert names[i] == key;
    assert p <= i;
  }

  lemma RewrittenName(key: string, rendered: string, line: string)
    requires Identifier(key)
    ensures FieldName(Rewritten(key, rendered, line)) == key
  {
    EditedLineIsRewritten(Edit(key, rendered, Null), line);
    SpelledParts(key, rendered + Ending(line));
  }

  lemma OnlyPlaceStays(names: seq<string>, names': seq<string>, i: nat, j: nat, key: string)
    requires OnlyPlace(names, key, j) && |names'| == |names| && i < |names| && i != j && names'[i] != key
    requires forall k :: 0 <= k < |names| && k != i ==> names'[k] == names[k]
    ensures OnlyPlace(names', key, j)
  {}

  lemma NamesAfterState(lines: seq<string>, i: nat, rendered: string, j: nat)
    requires OnlyPlace(Names(lines), "state", i) && OnlyPlace(Names(lines), "routing", j)
    ensures OnlyPlace(Names(lines[i := Rewritten("state", rendered, lines[i])]), "routing", j)
  {
    hide FieldName, Rewritten;
    IdentifierWord("state");
    RewrittenName("state", rendered, lines[i]);
    assert "state"[0] != "routing"[0];
    OnlyPlaceStays(Names(lines), Names(lines[i := Rewritten("state", rendered, lines[i])]), i, j, "routing");
  }

  /** Editing two lines one after the other is editing both. */
  lemma TwoEdits(lines: seq<string>, i: nat, e: Edit, j: nat, f: Edit)
    requires i < |lines| && j < |lines| && i != j
    ensures lines[i := EditedLine(e, lines[i])][j := EditedLine(f, lines[j])] == Edited(lines, map[i := e, j := f])
  {}

  lemma OneEdit(lines: seq<string>, i: nat, e: Edit)
    requires i < |lines|
    ensures lines[i := EditedLine(e, lines[i])] == Edited(lines, map[i := e])
  {}

  method ReplaceEdit(lines: seq<string>, e: Edit, ghost i: nat) returns (r: Option<seq<string>>)
    requires OnlyPlace(Names(lines), e.key, i)
    ensures r == Some(lines[i := EditedLine(e, lines[i])])
  {
    EditedLineIsRewritten(e, lines[i]);
    r := ReplaceField(lines, e.key, e.rendered);
  }

  method ReplaceLines(rec: Record, state: string, routing: Option<Routing>) returns (r: Option<seq<string>>)
    requires Placed(rec)
    ensures r == Some(Edited(rec.lines, EditsFor(rec, state, routing)))
  {
    ghost var i, j := PlaceOf(rec, "state"), PlaceOf(rec, "routing");
    OneEdit(rec.lines, i, StateEdit(state));
    r := ReplaceEdit(rec.lines, StateEdit(state), i);
    if r.None? || routing.None? {
      return;
    }
    EditedLineIsRewritten(StateEdit(state), rec.lines[i]);
    NamesAfterState(rec.lines, i, state, j);
    assert "state"[0] != "routing"[0];
    TwoEdits(rec.lines, i, StateEdit(state), j, RoutingEdit(routing.value));
    r := ReplaceEdit(r.value, RoutingEdit(routing.value), j);
  }

  /** `_replace_fields`: the state line first, then the routing line if it is updated. */
  method ReplaceFields(rec: Record, state: string, routing: Option<Routing>) returns (r: Option<string>)
    requires Placed(rec)
    ensures r == Some(Written(rec, state, routing))
  {
    var lines := ReplaceLines(rec, state, routing);
    if lines.None? {
      return None;
    }
    r := Some(rec.opening + Concat(lines.value) + rec.closing + rec.body);
  }
}
