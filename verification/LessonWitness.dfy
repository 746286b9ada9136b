/**
  Two files and commands that show the condition is needed: legal commands
  after which the lesson no longer loads. And one that meets it.
 */
module LessonWitness {
  import opened Prelude
  import opened Sequences
  import opened PyText
  import opened JsonText
  import opened Inline
  import opened LessonFile
  import opened LessonReload
  import opened LessonEdits
  import opened LessonRecord
  import opened LessonTransition
  import opened LessonLifecycle
  import opened LessonLaw
  import opened LessonOperator
  import opened LessonSample

  function ApplyHook(bead: string): Command {
    Command("applied", Some("hook"), Some(bead), Some(MOMENT), true)
  }

  function Hooked(bead: string): Routing {
    Routing(None, None, Some("hook"), Some(MOMENT), Some(bead))
  }

  /** A bead an operator may give: tight, short, of printed characters or beyond. */
  predicate Bead(bead: string) {
    Tight(bead) && SafeField(bead) && |bead| <= MAX_FIELD_LENGTH
  }

  lemma HookTarget(bead: string)
    ensures Target(ApplyHook(bead)) == Some("applied:hook") && LayerOf("applied:hook") == Some("hook")
    ensures LegalStep("accepted", "applied:hook") && "accepted" != "applied:hook" && "hook" != RETRIEVAL_ONLY
  {
    CutsBack(APPLIED, "hook");
    var target := APPLIED + "hook";
    assert target == "applied:hook";
    assert "accepted"[1] == 'c' && target[1] == 'p';
    assert "hook"[0] != RETRIEVAL_ONLY[0];
  }

  lemma BeadIsKept(bead: string)
    requires Bead(bead)
    ensures OperatorToken(STRIPPING, Some(bead)) == Some(bead) && SafeText(STRIPPING, bead)
  {
    hide STRIPPING;
    StripOfTight(bead);
    StrippedIsItself(bead);
  }

  lemma HookedIsSettled(bead: string)
    requires Bead(bead)
    ensures Settled(STRIPPING, Hooked(bead)) && RoutingAgrees(Hooked(bead))
  {
    hide SafeText, STRIPPING;
    BeadIsKept(bead);
    MomentSettles();
    assert "hook"[0] != RETRIEVAL_ONLY[0];
  }

  lemma HookDecides(rec: Record, bead: string)
    requires rec.state == "accepted" && rec.routing == UNROUTED && Bead(bead)
    ensures Decide(STRIPPING, rec, ApplyHook(bead)) == Write("applied:hook", Some(Hooked(bead)))
  {
    hide AsFields, SafeField, STRIPPING, LegalStep, LayerOf, Target, ValidateRouting, OperatorToken, Settled;
    HookTarget(bead);
    BeadIsKept(bead);
    HookedIsSettled(bead);
    SettledReadsBack(STRIPPING, Hooked(bead));
  }

  /** Either a bead with a line separator in it or a state line ended by a vertical tab loses the lesson. */
  lemma LegalCommandLosesLesson(terminator: char, bead: string)
    requires IsBreak(terminator) && terminator != '\r' && Bead(bead)
    requires terminator != '\n' || !OneLine(bead)
    ensures var file := Accepted(terminator);
            && Load(STRIPPING, file).Some?
            && Decide(STRIPPING, Load(STRIPPING, file).value, ApplyHook(bead)).Write?
            && Load(STRIPPING, After(STRIPPING, file, ApplyHook(bead))).None?
  {
    hide Load, Accepted, Decide, Written, WillHold, OneLine, FileLines, STRIPPING, NOTE;
    MomentSettles();
    FileLoads(terminator);
    var rec := Load(STRIPPING, Accepted(terminator)).value;
    HookDecides(rec, bead);
    TransitionReloadsExactly(STRIPPING, Accepted(terminator), ApplyHook(bead));
    HookWillNotHold(terminator, bead, rec);
  }

  lemma HookWillNotHold(terminator: char, bead: string, rec: Record)
    requires IsBreak(terminator) && terminator != '\r' && (terminator != '\n' || !OneLine(bead))
    requires rec.lines == FileLines(terminator)
    ensures !WillHold(rec, Some(Hooked(bead)))
  {
    hide OneLine, OtherLines, OTHERS, ROUTING_LINE, StateLine;
    if terminator != '\n' {
      StatePlace(terminator);
      StateEnding(terminator);
      RoutingLineNotBlank();
    }
  }

  lemma StatePlace(terminator: char)
    ensures Place(Names(FileLines(terminator)), "state") == 0
  {
    hide ROUTING_LINE, FieldName, OTHERS, OtherLines;
    IdentifierWord("state");
    SpelledParts("state", "accepted" + [terminator]);
  }

  lemma StateEnding(terminator: char)
    requires terminator != '\n'
    ensures Ending(StateLine(terminator)) == ""
  {
    SpelledMore(StateEdit("accepted"), [terminator]);
  }

  lemma RoutingLineNotBlank()
    ensures !Blank(ROUTING_LINE)
  {
    hide RenderMapping, AsFields;
    assert ROUTING_LINE[0] == 'r';
  }

  /** Two such files and commands. */
  lemma TwoLostLessons()
    ensures Load(STRIPPING, After(STRIPPING, Accepted('\n'), ApplyHook("bead\U{2028}1"))).None?
    ensures Load(STRIPPING, After(STRIPPING, Accepted('\U{0B}'), ApplyHook("bead-1"))).None?
  {
    hide Load, After, Accepted, STRIPPING, Bead, OneLine;
    TheirBeads();
    LegalCommandLosesLesson('\n', "bead\U{2028}1");
    LegalCommandLosesLesson('\U{0B}', "bead-1");
  }

  lemma TheirBeads()
    ensures Bead("bead-1") && Bead("bead\U{2028}1") && !OneLine("bead\U{2028}1")
  {
    assert "bead\U{2028}1"[4] == '\U{2028}';
  }

  /** With its lines ended and a bead that stays on its line, the lesson is applied and keeps its note. */
  lemma NoteSurvives(bead: string)
    requires Bead(bead) && OneLine(bead)
    ensures var r := Load(STRIPPING, After(STRIPPING, Accepted('\n'), ApplyHook(bead)));
            r.Some? && r.value.state == "applied:hook" && r.value.routing == Hooked(bead) && r.value.body == NOTE
  {
    hide Load, Accepted, Decide, Written, WillHold, OneLine, FileLines, STRIPPING, NOTE;
    MomentSettles();
    FileLoads('\n');
    var rec := Load(STRIPPING, Accepted('\n')).value;
    HookDecides(rec, bead);
    TransitionReloadsExactly(STRIPPING, Accepted('\n'), ApplyHook(bead));
    HookHolds(bead, rec);
  }

  lemma HookHolds(bead: string, rec: Record)
    requires rec.lines == FileLines('\n') && OneLine(bead)
    ensures WillHold(rec, Some(Hooked(bead)))
  {
    hide OneLine, OtherLines, OTHERS, ROUTING_LINE, StateLine, FieldName;
    StatePlace('\n');
    RoutingPlace();
    EndsInNewline();
  }

  lemma RoutingPlace()
    ensures Place(Names(FileLines('\n')), "routing") == 1
  {
    hide AsFields, RenderMapping, FieldName, OTHERS, OtherLines, StateLine;
    FirstNames();
    assert "state"[0] != "routing"[0];
    var names := Names(FileLines('\n'));
    assert names[0] == "state" && names[1..][0] == names[1] == "routing";
  }

  lemma FirstNames()
    ensures FieldName(StateLine('\n')) == "state" && FieldName(ROUTING_LINE) == "routing"
  {
    hide AsFields, RenderMapping, FieldName;
    IdentifierWord("state");
    IdentifierWord("routing");
    SpelledParts("state", "accepted" + "\n");
    SpelledParts("routing", RoutingEdit(UNROUTED).rendered + "\n");
  }

  lemma EndsInNewline()
    ensures Ending(StateLine('\n')) == "\n" && Ending(ROUTING_LINE) == "\n"
  {
    hide AsFields, RenderMapping;
    SpelledMore(StateEdit("accepted"), "\n");
    SpelledMore(RoutingEdit(UNROUTED), "\n");
    NewlineIsEnding(Spelled("state", "accepted"));
    NewlineIsEnding(Spelled("routing", RoutingEdit(UNROUTED).rendered));
  }
}
