/**
  Validating a lesson (twill_lessons.py): the state, the routing and how the
  two must agree, the other fields, and the body. Redaction, timestamps and
  dates are rules the record is read under.
 */
module LessonRecord {
  import opened Prelude
  import opened Sequences
  import opened PyText
  import opened JsonText
  import opened Inline
  import opened InlineRoundTrip
  import opened LessonFile
  import opened LessonRewrite
  import opened LessonReload
  import opened LessonEdits
  import opened LessonRouting

  // ---------------------------------------------------------------------
  // States and layers
  // ---------------------------------------------------------------------

  const LAYERS := {"environment", "hook", "wrapper", "skill", "agents_md", "memory", "retrieval_only"}
  const LESSON_STATES := {"draft", "accepted", "resolved", "escalated", "retired"}
  const TERMINAL_STATES := {"resolved", "escalated", "retired"}
  const RETRIEVAL_ONLY := "retrieval_only"
  const APPLIED := "applied:"
  const MAX_FIELD_LENGTH := 240

  /** The layer of an applied state, known or not. */
  function LayerOf(state: string): Option<string> {
    if |state| >= 8 && state[..8] == APPLIED then Some(state[8..]) else None
  }

  predicate ValidState(state: string) {
    state in LESSON_STATES || (LayerOf(state).Some? && LayerOf(state).value in LAYERS)
  }

  function StateOf(v: Value): Option<string> {
    if v.Text? && ValidState(v.text) then Some(v.text) else None
  }

  // ---------------------------------------------------------------------
  // Routing
  // ---------------------------------------------------------------------

  /**
    What reading depends on and this model does not spell out: redaction,
    `str` of a decimal or a collection, the normal form of a timestamp (None
    when it is not one), what is a date, and the name the file has.
   */
  datatype Rules = Rules(
    redact: string -> string,
    show: Value -> string,
    stamp: string -> Option<string>,
    isDate: string -> bool,
    stem: string)
  {
    /** Timestamps come out in a form that normalises to itself, on one line with nothing to strip. */
    ghost predicate StampsSettle() {
      forall s :: stamp(s).Some? ==> IsStamp(stamp(s).value)
    }

    predicate IsStamp(t: string) {
      stamp(t) == Some(t) && Tight(t) && NoBreaks(t) && OneLine(t)
    }
  }

  datatype Routing = Routing(
    recommended: Option<string>,
    reason: Option<string>,
    applied: Option<string>,
    appliedAt: Option<string>,
    bead: Option<string>)

  /** Bounded, single-line text that redaction leaves alone. */
  predicate SafeText(rules: Rules, text: string) {
    rules.redact(text) == text && |text| <= MAX_FIELD_LENGTH && SafeField(text)
  }

  /** `_redacted`: None is its error. */
  function Redacted(rules: Rules, v: Value): Option<Option<string>> {
    match v
    case Null => Some(None)
    case Flag(_) => None
    case Text(s) => if SafeText(rules, s) then Some(Some(s)) else None
    case Whole(_) => var s := RenderScalar(v); if SafeText(rules, s) then Some(Some(s)) else None
    case _ => var s := rules.show(v); if SafeText(rules, s) then Some(Some(s)) else None
  }

  function LayerField(v: Value): Option<Option<string>> {
    if v.Null? then Some(None)
    else if v.Text? && v.text in LAYERS then Some(Some(v.text))
    else None
  }

  function Timestamp(rules: Rules, v: Value): Option<Option<string>> {
    if v.Null? then Some(None)
    else if !v.Text? || Strip(v.text) == "" then None
    else match rules.stamp(Strip(v.text))
         case None => None
         case Some(t) => Some(Some(t))
  }

  /** A reason goes with a recommendation; an applied layer has its time, and its bead unless it is retrieval only. */
  predicate RoutingAgrees(r: Routing) {
    && (r.recommended.None? <==> r.reason.None?)
    && (r.applied.Some? ==> r.appliedAt.Some?)
    && (r.applied.Some? && r.applied.value != RETRIEVAL_ONLY ==> r.bead.Some?)
    && (r.applied == Some(RETRIEVAL_ONLY) ==> r.bead.None?)
  }

  function Lookup(fields: seq<(string, Value)>, key: string): Option<Value> {
    if fields == [] then None
    else if fields[0].0 == key then Some(fields[0].1)
    else Lookup(fields[1..], key)
  }

  /** `_validate_routing`: None is any of its errors. */
  function ValidateRouting(rules: Rules, v: Value): Option<Routing> {
    if !v.Fields? then None
    else
      var recommended := Lookup(v.fields, "recommended");
      var applied := Lookup(v.fields, "applied");
      var appliedAt := Lookup(v.fields, "applied_at");
      var bead := Lookup(v.fields, "bead");
      if recommended.None? || applied.None? || appliedAt.None? || bead.None? then None
      else RoutingFrom(rules, recommended.value, Lookup(v.fields, "reason").GetOr(Null), applied.value,
                       appliedAt.value, bead.value)
  }

  function RoutingFrom(rules: Rules, recommended: Value, reason: Value, applied: Value, appliedAt: Value, bead: Value)
    : Option<Routing>
  {
    var a, b, c, d, e := LayerField(recommended), Redacted(rules, reason), LayerField(applied),
                         Timestamp(rules, appliedAt), Redacted(rules, bead);
    if a.None? || b.None? || c.None? || d.None? || e.None? then None
    else
      var r := Routing(a.value, b.value, c.value, d.value, e.value);
      if RoutingAgrees(r) then Some(r) else None
  }

  function Scalarised(v: Option<string>): Value {
    match v
    case None => Null
    case Some(s) => Text(s)
  }

  /** The routing as the dictionary that is written back. */
  function AsFields(r: Routing): (fields: seq<(string, Value)>)
    ensures |fields| == 5 && AllPlain(fields)
  {
    [("recommended", Scalarised(r.recommended)), ("reason", Scalarised(r.reason)), ("applied", Scalarised(r.applied)),
     ("applied_at", Scalarised(r.appliedAt)), ("bead", Scalarised(r.bead))]
  }

  lemma RoutingKeys(r: Routing)
    ensures Keys(AsFields(r))
  {
    IdentifierWord("recommended");
    IdentifierWord("reason");
    IdentifierWord("applied");
    IdentifierWord("bead");
    assert Identifier("applied_at");
    assert "recommended"[2] != "reason"[2] && "reason"[0] != "applied"[0] && "bead"[0] == 'b';
    assert |"applied"| != |"applied_at"|;
  }

  lemma IdentifierWord(s: string)
    requires s != "" && forall i :: 0 <= i < |s| ==> 'a' <= s[i] <= 'z'
    ensures Identifier(s)
  {}

  lemma {:induction false} LookupAt(fields: seq<(string, Value)>, i: nat)
    requires i < |fields| && forall j, k :: 0 <= j < k < |fields| ==> fields[j].0 != fields[k].0
    ensures Lookup(fields, fields[i].0) == Some(fields[i].1)
  {
    if i > 0 {
      LookupAt(fields[1..], i - 1);
    }
  }

  lemma RoutingLookups(r: Routing)
    ensures var f := AsFields(r);
            && Lookup(f, "recommended") == Some(Scalarised(r.recommended))
            && Lookup(f, "reason") == Some(Scalarised(r.reason))
            && Lookup(f, "applied") == Some(Scalarised(r.applied))
            && Lookup(f, "applied_at") == Some(Scalarised(r.appliedAt))
            && Lookup(f, "bead") == Some(Scalarised(r.bead))
  {
    hide Lookup, Identifier, Scalarised;
    var f := AsFields(r);
    RoutingKeys(r);
    LookupAt(f, 0);
    LookupAt(f, 1);
    LookupAt(f, 2);
    LookupAt(f, 3);
    LookupAt(f, 4);
  }

  lemma ValidateIsFrom(rules: Rules, r: Routing)
    ensures ValidateRouting(rules, Fields(AsFields(r)))
            == RoutingFrom(rules, Scalarised(r.recommended), Scalarised(r.reason), Scalarised(r.applied),
                           Scalarised(r.appliedAt), Scalarised(r.bead))
  {
    hide Lookup, AsFields, RoutingFrom;
    RoutingLookups(r);
  }

  lemma StampBack(rules: Rules, s: Option<string>)
    requires s.Some? ==> rules.IsStamp(s.value)
    ensures Timestamp(rules, Scalarised(s)) == Some(s)
  {
    if s.Some? {
      StripOfTight(s.value);
    }
  }

  /** A routing that could have been loaded, or made from one. */
  predicate Settled(rules: Rules, r: Routing) {
    && (r.recommended.Some? ==> r.recommended.value in LAYERS)
    && (r.reason.Some? ==> SafeText(rules, r.reason.value))
    && (r.applied.Some? ==> r.applied.value in LAYERS)
    && (r.appliedAt.Some? ==> rules.IsStamp(r.appliedAt.value))
    && (r.bead.Some? ==> SafeText(rules, r.bead.value))
  }

  lemma ValidatedIsSettled(rules: Rules, v: Value)
    requires rules.StampsSettle() && ValidateRouting(rules, v).Some?
    ensures Settled(rules, ValidateRouting(rules, v).value) && RoutingAgrees(ValidateRouting(rules, v).value)
  {}

  /** Written back, a settled routing validates exactly when it agrees, and to itself. */
  lemma SettledReadsBack(rules: Rules, r: Routing)
    requires Settled(rules, r)
    ensures ValidateRouting(rules, Fields(AsFields(r))) == if RoutingAgrees(r) then Some(r) else None
  {
    hide Lookup, AsFields, ValidateRouting, Timestamp, SafeText;
    ValidateIsFrom(rules, r);
    StampBack(rules, r.appliedAt);
  }

  // ---------------------------------------------------------------------
  // The other fields
  // ---------------------------------------------------------------------

  /** `^L-[0-9a-f]{8}$`. */
  predicate LessonId(s: string) {
    |s| == 10 && s[..2] == "L-" && forall i :: 2 <= i < 10 ==> IsDigit(s[i]) || 'a' <= s[i] <= 'f'
  }

  /** `[A-Za-z0-9][A-Za-z0-9._@-]*`. */
  predicate DetectorName(s: string) {
    && s != "" && (IsLetter(s[0]) || IsDigit(s[0]))
    && forall i :: 0 <= i < |s| ==> IsLetter(s[i]) || IsDigit(s[i]) || s[i] in {'.', '_', '@', '-'}
  }

  /** `_redacted` of a required field. */
  function RequiredText(rules: Rules, v: Value): Option<string> {
    match Redacted(rules, v)
    case None => None
    case Some(text) => text
  }

  predicate CountOf(v: Option<Value>, least: nat) {
    v.Some? && v.value.Whole? && v.value.n >= least
  }

  predicate DateOrNull(rules: Rules, v: Option<Value>) {
    && v.Some?
    && (v.value.Null? || (v.value.Text? && Strip(v.value.text) != "" && rules.isDate(Strip(v.value.text))))
  }

  predicate SessionIds(rules: Rules, v: Option<Value>) {
    && v.Some? && v.value.Items? && v.value.items != []
    && forall i :: 0 <= i < |v.value.items| ==> RequiredText(rules, v.value.items[i]).Some?
  }

  /** `_validate_evidence`. */
  predicate EvidenceOk(rules: Rules, v: Value) {
    && v.Fields?
    && CountOf(Lookup(v.fields, "sessions"), 1) && CountOf(Lookup(v.fields, "events"), 0)
    && DateOrNull(rules, Lookup(v.fields, "first_seen")) && SessionIds(rules, Lookup(v.fields, "session_ids"))
  }

  /** `_validate_backtest`. */
  predicate BacktestOk(rules: Rules, v: Value) {
    && v.Fields?
    && CountOf(Lookup(v.fields, "window_days"), 1) && CountOf(Lookup(v.fields, "sessions"), 0)
    && DateOrNull(rules, Lookup(v.fields, "first_seen")) && CountOf(Lookup(v.fields, "weeks_present"), 0)
  }

  /** `_validate_guard`. */
  predicate GuardOk(rules: Rules, v: Value) {
    || v.Null?
    || (&& v.Fields?
        && LayerField(Lookup(v.fields, "layer").GetOr(Null)).Some?
        && Redacted(rules, Lookup(v.fields, "artifact").GetOr(Null)).Some?
        && Lookup(v.fields, "installed").GetOr(Flag(false)).Flag?)
  }

  /** Id, summary, detector, key, evidence and backtest are there and valid, and so is a guard. */
  predicate OthersOk(rules: Rules, fields: FieldMap) {
    && {"id", "summary", "detector", "key", "evidence", "backtest"} <= fields.Keys
    && RequiredText(rules, fields["id"]) == Some(rules.stem) && LessonId(rules.stem)
    && RequiredText(rules, fields["summary"]).Some?
    && RequiredText(rules, fields["detector"]).Some? && DetectorName(RequiredText(rules, fields["detector"]).value)
    && RequiredText(rules, fields["key"]).Some?
    && EvidenceOk(rules, fields["evidence"]) && BacktestOk(rules, fields["backtest"])
    && ("guard" in fields ==> GuardOk(rules, fields["guard"]))
  }

  // ---------------------------------------------------------------------
  // The record
  // ---------------------------------------------------------------------

  /** State and routing must name the same layer, and only what was applied has one. */
  predicate StateFits(state: string, r: Routing) {
    match LayerOf(state)
    case Some(layer) => r.applied == Some(layer)
    case None => if state in TERMINAL_STATES then r.applied.Some? else r.applied.None?
  }

  function Others(fields: FieldMap): FieldMap {
    fields - {"state", "routing"}
  }

  datatype Checked = Checked(others: FieldMap, state: string, routing: Routing)

  /** `_validate_record_fields`: None is any of its errors. */
  function Validate(rules: Rules, fields: FieldMap): Option<Checked> {
    if "state" !in fields || "routing" !in fields || !OthersOk(rules, Others(fields)) then None
    else
      var state := StateOf(fields["state"]);
      var routing := ValidateRouting(rules, fields["routing"]);
      if state.None? || routing.None? || !StateFits(state.value, routing.value) then None
      else Some(Checked(Others(fields), state.value, routing.value))
  }

  predicate LineOk(rules: Rules, line: string) {
    var safe := rules.redact(line);
    safe[..Min(|safe|, MAX_FIELD_LENGTH)] == line
  }

  /** `_validate_body`: without its break, no line is long or holds what redaction would change. */
  predicate BodyOk(rules: Rules, body: string) {
    var lines := SplitLines(body);
    forall i :: 0 <= i < |lines| ==> LineOk(rules, Unbroken(lines[i]))
  }

  datatype Record = Record(
    others: FieldMap,
    state: string,
    routing: Routing,
    body: string,
    opening: string,
    lines: seq<string>,
    closing: string)

  /** `_parse_record`: None is any of its errors. */
  function LoadText(rules: Rules, text: string): Option<Record> {
    match ReadDocument(text)
    case None => None
    case Some(doc) =>
      match Validate(rules, doc.fields)
      case None => None
      case Some(Checked(others, state, routing)) =>
        if !BodyOk(rules, doc.body) then None
        else Some(Record(others, state, routing, doc.body, doc.opening, SplitLines(Concat(doc.lines)), doc.closing))
  }

  /** A lesson file, read with universal newlines. */
  function Load(rules: Rules, file: string): Option<Record> {
    LoadText(rules, Universal(file))
  }
}
