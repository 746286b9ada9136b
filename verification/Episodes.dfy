/**
  Deriving execution episodes from a session's interactions
  (twill_episodes.py), as a fold over rows. The phrase patterns are a
  `Lexicon`; what the fold does with their answers is all here.
 */
module Episodes {
  import opened Prelude
  import opened Interactions

  // ---------------------------------------------------------------------
  // Rows and phrases
  // ---------------------------------------------------------------------

  datatype Row = Row(
    ordinal: nat,
    sourceLine: nat,
    threadId: Option<string>,
    origin: Origin,
    sidechain: bool,
    text: string,
    day: int,
    truncated: bool,
    terminal: Terminal,
    questionOrdinal: Option<nat>)

  /** The answers of the source's regular expressions; a capture group is the text it captured. */
  datatype Lexicon = Lexicon(
    strip: string -> string,
    normalized: string -> string,
    actionKey: string -> Option<string>,
    actionKeys: string -> seq<string>,
    effective: string -> Option<(int, string)>,
    decision: string -> Option<string>,
    holds: string -> bool,
    restricts: string -> bool,
    restrictsAtStart: string -> bool,
    waits: string -> bool,
    waitsAtStart: string -> bool,
    status: string -> bool,
    statusTarget: string -> Option<string>,
    cancels: string -> bool,
    cancelTarget: string -> Option<string>,
    done: string -> bool,
    replacement: string -> Option<string>,
    resumeTarget: string -> Option<string>,
    resumeAction: string -> Option<string>,
    approval: string -> Option<string>,
    questionAction: string -> Option<string>,
    advice: string -> bool)

  const SEPARATOR := " | "
  const MAX_TEXT := 240

  function Cut(text: string): string {
    text[..Min(|text|, MAX_TEXT)]
  }

  /** `" | ".join(keys)`. */
  function Join(keys: seq<string>): string
    requires keys != []
  {
    if |keys| == 1 then keys[0] else keys[0] + SEPARATOR + Join(keys[1..])
  }

  function FindSeparator(s: string): (i: nat)
    ensures i <= |s|
    ensures i < |s| ==> i + 3 <= |s| && s[i..i + 3] == SEPARATOR
  {
    if |s| < 3 then |s|
    else if s[..3] == SEPARATOR then 0
    else
      var i := FindSeparator(s[1..]);
      if i == |s| - 1 then |s| else i + 1
  }

  /** `s.split(" | ")`. */
  function SplitKeys(s: string): (keys: seq<string>)
    ensures keys != []
    decreases |s|
  {
    var i := FindSeparator(s);
    if i == |s| then [s] else [s[..i]] + SplitKeys(s[i + 3..])
  }

  /** `key.split(":", 1)[1]`, which raises IndexError when the key has no colon. */
  function ObjectOf(key: string): Option<string> {
    if key == "" then None
    else if key[0] == ':' then Some(key[1..])
    else ObjectOf(key[1..])
  }

  // ---------------------------------------------------------------------
  // Episodes
  // ---------------------------------------------------------------------

  datatype Authority = AuthorityUnknown | Authorized | Withheld | Revoked
  datatype Lifecycle = Active | Cancelled | Done | Superseded
  datatype Strength = Known | Inferred | Uncertain

  datatype Kind =
    | Objective | HistoricalPolicy | AdviceOnly | ActionScope | PendingAction | Authorization
    | SidechainHandoff | QuotedHold | HistoricalInstruction | SettledDecision | ScopeRestriction
    | PermissionHold | ExternalWait | StatusExchange | Revocation | ObservedCompletion | ScopeChange
    | SameOutcomeResume | GenericContinuation | ExplicitApproval | NewRequestBoundary
    | OutstandingQuestion | QuestionAnswer | ApprovalScope | ApprovalWithheld | UnmatchedAnswer
    | TerminalReply | AssistantWaitClaim | ExternalWaitEvidence | MaterialTruncation
    | OmittedInteractions | TruncatedInteractions | Terminality

  datatype Assertion = Assertion(
    kind: Kind,
    value: Option<string>,
    strength: Strength,
    ordinal: Option<nat>,
    sourceLine: Option<nat>,
    related: Option<nat>)

  datatype Episode = Episode(
    start: nat,
    end: nat,
    threadId: Option<string>,
    objective: string,
    action: Option<string>,
    authority: Authority,
    contextKnown: bool,
    policyCaptured: bool,
    lifecycle: Lifecycle,
    adviceOnly: bool,
    assertions: seq<Assertion>)
  {
    function Add(kind: Kind, value: Option<string>, strength: Strength, row: Row,
                 related: Option<nat> := None): Episode {
      this.(assertions := assertions + [Assertion(kind, value, strength, Some(row.ordinal), Some(row.sourceLine),
                                                  related)])
    }

    /** The action's parts, none when there is no action. */
    function Pending(): seq<string> {
      if action.None? || action.value == "" then [] else SplitKeys(action.value)
    }
  }

  function TextOrNone(text: string): Option<string> {
    if text == "" then None else Some(text)
  }

  function AddActions(e: Episode, pending: seq<string>, row: Row): Episode
    decreases |pending|
  {
    if pending == [] then e
    else
      AddActions(e.Add(PendingAction, Some(pending[0]), Known, row).Add(Authorization, Some(pending[0]), Known, row),
                 pending[1..], row)
  }

  /** `_new`. */
  function NewEpisode(row: Row, objective: string, action: Option<string>, authority: Authority,
                      advice: bool): Episode {
    var e := Episode(row.ordinal, row.ordinal, row.threadId, objective, action, authority, true, false, Active,
                     advice, [])
               .Add(Objective, Some(objective), Known, row)
               .Add(HistoricalPolicy, None, Uncertain, row);
    if advice then e.Add(AdviceOnly, None, Known, row)
    else if action.None? then e.(contextKnown := false).Add(ActionScope, None, Uncertain, row)
    else AddActions(e, SplitKeys(action.value), row)
  }

  datatype Asked = Asked(episode: nat, action: Option<string>)

  datatype Derivation = Derivation(episodes: seq<Episode>, active: Option<nat>, questions: map<nat, Asked>)
  {
    predicate Ok() {
      && (active.Some? ==> active.value < |episodes|)
      && forall q :: q in questions ==> questions[q].episode < |episodes|
    }

    function Current(): Episode
      requires Ok() && active.Some?
    {
      episodes[active.value]
    }

    function Update(e: Episode): (d: Derivation)
      requires Ok() && active.Some?
      ensures d.Ok() && d.active == active && |d.episodes| == |episodes|
    {
      this.(episodes := episodes[active.value := e])
    }

    function Close(e: Episode): (d: Derivation)
      requires Ok() && active.Some?
      ensures d.Ok() && d.active.None? && |d.episodes| == |episodes|
    {
      Update(e).(active := None)
    }
  }

  const NOTHING := Derivation([], None, map[])

  // ---------------------------------------------------------------------
  // What one row does to the episode it concerns
  // ---------------------------------------------------------------------

  function Touched(e: Episode, row: Row): Episode {
    e.(end := row.ordinal)
  }

  function Handoff(e: Episode, text: string, row: Row): Episode {
    e.Add(SidechainHandoff, TextOrNone(text), Inferred, row)
  }

  function QuotedHeld(e: Episode, text: string, row: Row): Episode {
    e.Add(QuotedHold, Some(text), Uncertain, row).(contextKnown := false)
  }

  function Instructed(e: Episode, instruction: (int, string), row: Row): Episode {
    if instruction.0 <= row.day then
      Touched(e, row).(policyCaptured := true).Add(HistoricalInstruction, Some(Cut(instruction.1)), Known, row)
    else
      Touched(e, row).Add(HistoricalInstruction, Some(Cut(instruction.1)), Uncertain, row)
  }

  function Decided(e: Episode, decision: string, row: Row): Episode {
    Touched(e, row).Add(SettledDecision, Some(Cut(decision)), Known, row)
  }

  function Restricted(lex: Lexicon, e: Episode, text: string, row: Row): Episode {
    if lex.restricts(text) then e.Add(ScopeRestriction, Some(text), Known, row) else e
  }

  function HeldBy(lex: Lexicon, e: Episode, text: string, row: Row): Episode {
    if lex.holds(text) then e.(authority := Withheld).Add(PermissionHold, Some(text), Known, row) else e
  }

  function WaitingOn(lex: Lexicon, e: Episode, text: string, row: Row): Episode {
    if lex.waits(text) then e.Add(ExternalWait, Some(text), Known, row) else e
  }

  /** A restriction, hold or wait, in that order of assertion. */
  function Restrained(lex: Lexicon, e: Episode, text: string, row: Row): Episode {
    WaitingOn(lex, HeldBy(lex, Restricted(lex, e, text, row), text, row), text, row)
  }

  function StatusAsked(e: Episode, text: string, row: Row): Episode {
    Touched(e, row).Add(StatusExchange, Some(text), Known, row)
  }

  function CancelledBy(e: Episode, text: string, row: Row): Episode {
    Touched(e, row).(lifecycle := Cancelled, authority := Revoked).Add(Revocation, Some(text), Known, row)
  }

  function CompletedBy(e: Episode, text: string, row: Row): Episode {
    Touched(e, row).(lifecycle := Done).Add(ObservedCompletion, Some(text), Known, row)
  }

  function ReplacedBy(e: Episode, text: string, row: Row): Episode {
    Touched(e, row).(lifecycle := Superseded, authority := Revoked).Add(ScopeChange, Some(text), Known, row)
  }

  function Resumed(e: Episode, text: string, row: Row): Episode {
    Touched(e, row).Add(SameOutcomeResume, Some(text), Known, row)
  }

  function Continued(e: Episode, text: string, row: Row): Episode {
    Touched(e, row).Add(GenericContinuation, Some(text), Uncertain, row)
  }

  function ApprovedAs(e: Episode, action: string, row: Row, related: Option<nat> := None): Episode {
    (if |e.Pending()| == 1 then e.(authority := Authorized) else e)
      .Add(ExplicitApproval, Some(action), Known, row, related := related)
  }

  function BoundaryAt(e: Episode, text: string, row: Row): Episode {
    Touched(e, row).(lifecycle := Superseded).Add(NewRequestBoundary, Some(text), Known, row)
  }

  // ---------------------------------------------------------------------
  // A human request
  // ---------------------------------------------------------------------

  /** The row is finished with, falls through to the common tail, or the projection raises. */
  datatype Flow = Continue(d: Derivation) | FallThrough(d: Derivation, text: string) | Raises
  {
    predicate Ok() {
      !Raises? ==> d.Ok()
    }
  }

  predicate Readable(keys: seq<string>) {
    forall i :: 0 <= i < |keys| ==> ObjectOf(keys[i]).Some?
  }

  function Objects(lex: Lexicon, keys: seq<string>): set<string>
    requires Readable(keys)
  {
    set i | 0 <= i < |keys| :: lex.normalized(ObjectOf(keys[i]).value)
  }

  predicate AsksStatus(lex: Lexicon, d: Derivation, text: string)
    requires d.Ok() && (d.active.Some? ==> Readable(d.Current().Pending()))
  {
    || lex.status(text)
    || (lex.statusTarget(text).Some? && d.active.Some? &&
        lex.normalized(lex.statusTarget(text).value)
          in Objects(lex, d.Current().Pending()) + {lex.normalized(d.Current().objective)})
  }

  /** The cancellation names the active episode by action or by objective. */
  predicate CancelsActive(lex: Lexicon, d: Derivation, text: string)
    requires d.Ok()
  {
    var target := lex.cancelTarget(text);
    target.Some? && d.active.Some? &&
    (InPending(lex.actionKey(target.value), d.Current())
     || lex.normalized(target.value) == lex.normalized(d.Current().objective))
  }

  predicate InPending(action: Option<string>, e: Episode) {
    action.Some? && action.value in e.Pending()
  }

  const GENERIC_TARGETS := {"", "work", "task", "it", "this"}
  const GENERIC_WORDS := {"continue", "resume", "go on"}
  const ASSENTS := {"yes", "approved", "go ahead", "proceed"}
  const REFUSALS := {"no", "do not proceed", "not approved"}

  predicate ResumesSame(lex: Lexicon, e: Episode, text: string) {
    var target := lex.resumeTarget(text);
    target.Some? &&
    ((InPending(lex.resumeAction(text), e) && e.authority.Authorized?)
     || lex.normalized(target.value) == lex.normalized(e.objective))
  }

  predicate ContinuesVaguely(lex: Lexicon, text: string) {
    || (lex.resumeTarget(text).Some? && lex.normalized(lex.resumeTarget(text).value) in GENERIC_TARGETS)
    || lex.normalized(text) in GENERIC_WORDS
  }

  function ApprovedAction(lex: Lexicon, text: string): Option<string> {
    match lex.approval(text)
    case None => None
    case Some(scope) => lex.actionKey(scope)
  }

  /** The episode a request opens, with the approval it may already carry. */
  function OpenedBy(lex: Lexicon, text: string, row: Row): Episode {
    var approval := lex.approval(text);
    var candidate := approval.GetOr(text);
    var keys := lex.actionKeys(candidate);
    var action := if keys == [] then None else Some(Join(keys));
    var advice := lex.advice(text) && approval.None?;
    var granted := action.Some? && action.value != "";
    var e := NewEpisode(row, Cut(text), action, if granted && !advice then Authorized else AuthorityUnknown, advice);
    if approval.None? then e
    else e.Add(ExplicitApproval, Some(Cut(candidate)), if granted then Known else Uncertain, row)
  }

  /** Open a new episode on the request, closing the active one. */
  function OpenEpisode(lex: Lexicon, d: Derivation, text: string, row: Row): (d': Derivation)
    requires d.Ok()
    ensures d'.Ok()
  {
    var closed := if d.active.Some? then d.Update(BoundaryAt(d.Current(), text, row)) else d;
    closed.(episodes := closed.episodes + [OpenedBy(lex, text, row)], active := Some(|closed.episodes|))
  }

  /** The later questions: resumption, continuation, approval, and failing all of them a new episode. */
  function RequestTail(lex: Lexicon, d: Derivation, text: string, row: Row): (f: Flow)
    requires d.Ok()
    ensures f.Ok() && !f.Raises?
  {
    if d.active.Some? && ResumesSame(lex, d.Current(), text) then
      Continue(d.Update(Resumed(d.Current(), text, row)))
    else if d.active.Some? && ContinuesVaguely(lex, text) then
      Continue(d.Update(Continued(d.Current(), text, row)))
    else if d.active.Some? && InPending(ApprovedAction(lex, text), d.Current()) then
      Continue(d.Update(ApprovedAs(Touched(d.Current(), row), ApprovedAction(lex, text).value, row)))
    else
      FallThrough(OpenEpisode(lex, d, text, row), text)
  }

  /** Status, cancellation, completion and replacement, before the later questions. */
  function RequestMiddle(lex: Lexicon, d: Derivation, text: string, row: Row): (f: Flow)
    requires d.Ok() && (d.active.Some? ==> Readable(d.Current().Pending()))
    ensures f.Ok() && !f.Raises?
  {
    if AsksStatus(lex, d, text) then
      Continue(if d.active.Some? then d.Update(StatusAsked(d.Current(), text, row)) else d)
    else if lex.cancels(text) then
      Continue(if d.active.Some? then d.Close(CancelledBy(d.Current(), text, row)) else d)
    else if CancelsActive(lex, d, text) then
      Continue(d.Close(CancelledBy(d.Current(), text, row)))
    else if lex.done(text) then
      Continue(if d.active.Some? then d.Close(CompletedBy(d.Current(), text, row)) else d)
    else if d.active.Some? && lex.replacement(text).Some? then
      RequestTail(lex, d.Close(ReplacedBy(d.Current(), text, row)), lex.strip(lex.replacement(text).value), row)
    else
      RequestTail(lex, d, text, row)
  }

  function HumanRequested(lex: Lexicon, d: Derivation, row: Row): (f: Flow)
    requires d.Ok()
    ensures f.Ok()
  {
    var text := lex.strip(row.text);
    if d.active.Some? && lex.effective(text).Some? then
      Continue(d.Update(Instructed(d.Current(), lex.effective(text).value, row)))
    else if d.active.Some? && lex.actionKeys(text) == [] && lex.decision(text).Some? then
      Continue(d.Update(Decided(d.Current(), lex.decision(text).value, row)))
    else if d.active.Some? && lex.actionKeys(text) == []
            && (lex.holds(text) || lex.restrictsAtStart(text) || lex.waitsAtStart(text)) then
      Continue(d.Update(Restrained(lex, Touched(d.Current(), row), text, row)))
    else if d.active.Some? && !Readable(d.Current().Pending()) then
      Raises
    else
      RequestMiddle(lex, d, text, row)
  }

  // ---------------------------------------------------------------------
  // Questions, answers and everything else
  // ---------------------------------------------------------------------

  function QuestionAsked(lex: Lexicon, d: Derivation, text: string, row: Row): (d': Derivation)
    requires d.Ok() && d.active.Some?
    ensures d'.Ok()
  {
    var scope := lex.questionAction(text);
    var action := if scope.Some? then lex.actionKey(scope.value) else None;
    d.Update(Touched(d.Current(), row).Add(OutstandingQuestion, TextOrNone(text), Known, row))
      .(questions := d.questions[row.ordinal := Asked(d.active.value, action)])
  }

  /** An assent grants the asked action, or is noted as out of scope. */
  function Assented(lex: Lexicon, e: Episode, action: Option<string>, text: string, row: Row): Episode {
    if !(lex.normalized(text) in ASSENTS && action.Some?) then e
    else if action.value in e.Pending() && !e.authority.Revoked? then
      ApprovedAs(e, action.value, row, related := row.questionOrdinal)
    else
      e.Add(ApprovalScope, action, Uncertain, row, related := row.questionOrdinal)
  }

  /** A refusal withholds the asked action while the episode is active. */
  function Refused(lex: Lexicon, e: Episode, action: Option<string>, text: string, row: Row): Episode {
    if lex.normalized(text) in REFUSALS && action.Some?
       && action.value in SplitKeys(e.action.GetOr("")) && e.lifecycle.Active? then
      e.(authority := Withheld).Add(ApprovalWithheld, Some(text), Known, row, related := row.questionOrdinal)
    else e
  }

  function Heard(e: Episode, text: string, row: Row): Episode {
    e.(end := Max(e.end, row.ordinal)).Add(QuestionAnswer, TextOrNone(text), Known, row, related := row.questionOrdinal)
  }

  /** The answer to a question, seen from the episode that asked it. */
  function AnswerTo(lex: Lexicon, e: Episode, action: Option<string>, text: string, row: Row): Episode {
    Refused(lex, Assented(lex, Heard(e, text, row), action, text, row), action, text, row)
  }

  function HumanAnswered(lex: Lexicon, d: Derivation, text: string, row: Row): (d': Derivation)
    requires d.Ok()
    ensures d'.Ok()
  {
    if row.questionOrdinal.Some? && row.questionOrdinal.value in d.questions then
      var asked := d.questions[row.questionOrdinal.value];
      d.(episodes := d.episodes[asked.episode := AnswerTo(lex, d.episodes[asked.episode], asked.action, text, row)])
    else if d.active.Some? then
      d.Update(d.Current().Add(UnmatchedAnswer, TextOrNone(text), Uncertain, row, related := row.questionOrdinal)
                 .(contextKnown := false))
    else d
  }

  function Observed(lex: Lexicon, e: Episode, text: string, row: Row): Episode {
    var e0 := Touched(e, row);
    if row.origin.AssistantText? then
      var e1 := if row.terminal.NotFinal? then e0
                else e0.Add(TerminalReply, TextOrNone(text), if row.terminal.Completed? then Known else Uncertain, row);
      if lex.waits(text) then e1.Add(AssistantWaitClaim, TextOrNone(text), Inferred, row) else e1
    else if row.origin.ToolResult? && lex.waits(text) then
      e0.Add(ExternalWaitEvidence, TextOrNone(text), Inferred, row)
    else e0
  }

  // ---------------------------------------------------------------------
  // One row, all rows
  // ---------------------------------------------------------------------

  /** The common tail of every row that did not `continue`. */
  function Tail(lex: Lexicon, d: Derivation, text: string, row: Row): (d': Derivation)
    requires d.Ok()
    ensures d'.Ok()
  {
    if d.active.None? then d
    else
      var e1 := if row.origin.HumanRequest? || row.origin.HumanAnswer?
                then HumanTail(lex, d.Current(), text, row) else d.Current();
      var e2 := if row.truncated then e1.(contextKnown := false).Add(MaterialTruncation, None, Uncertain, row) else e1;
      d.Update(e2)
  }

  function HumanTail(lex: Lexicon, e: Episode, text: string, row: Row): Episode {
    var e1 := Restrained(lex, e, text, row);
    match lex.decision(text)
    case None => e1
    case Some(decision) => e1.Add(SettledDecision, Some(Cut(decision)), Known, row)
  }

  datatype DeriveError = IndexError

  function Step(lex: Lexicon, d: Derivation, row: Row): (r: Result<Derivation, DeriveError>)
    requires d.Ok()
    ensures r.Success? ==> r.value.Ok()
  {
    var text := lex.strip(row.text);
    if row.sidechain then
      Success(if d.active.Some? then d.Update(Handoff(d.Current(), text, row)) else d)
    else if row.origin.Harness? || row.origin.QuotedHistory? then
      Success(if d.active.Some? && lex.holds(text) then d.Update(QuotedHeld(d.Current(), text, row)) else d)
    else if row.origin.HumanRequest? then
      match HumanRequested(lex, d, row)
      case Raises => Failure(IndexError)
      case Continue(d') => Success(d')
      case FallThrough(d', text') => Success(Tail(lex, d', text', row))
    else if row.origin.Question? && d.active.Some? then
      Success(Tail(lex, QuestionAsked(lex, d, text, row), text, row))
    else if row.origin.HumanAnswer? then
      Success(Tail(lex, HumanAnswered(lex, d, text, row), text, row))
    else if d.active.Some? then
      Success(Tail(lex, d.Update(Observed(lex, d.Current(), text, row)), text, row))
    else
      Success(d)
  }

  /** The rows folded in order; the first raise ends the projection. */
  function Fold(lex: Lexicon, rows: seq<Row>): (r: Result<Derivation, DeriveError>)
    ensures r.Success? ==> r.value.Ok()
  {
    if rows == [] then Success(NOTHING)
    else
      var before := Fold(lex, rows[..|rows| - 1]);
      if before.Failure? then before
      else
        Step(lex, before.value, rows[|rows| - 1])
  }

  /** The session's interaction summary: how much the cap omitted and the bound truncated. */
  datatype Summary = Summary(omitted: nat, truncatedFields: nat)

  /** An assertion about the session, tied to no row. */
  function Noted(e: Episode, kind: Kind, value: Option<string>): Episode {
    e.(assertions := e.assertions + [Assertion(kind, value, Uncertain, None, None, None)])
  }

  predicate HasTerminalReply(e: Episode) {
    exists i :: 0 <= i < |e.assertions| && e.assertions[i].kind.TerminalReply?
  }

  /** Omission and truncation counts make the context uncertain. */
  function Discounted(e: Episode, summary: Option<Summary>, digits: nat -> string): Episode {
    if summary.None? || (summary.value.omitted == 0 && summary.value.truncatedFields == 0) then e
    else
      var e1 := e.(contextKnown := false);
      var e2 := if summary.value.omitted > 0 then Noted(e1, OmittedInteractions, Some(digits(summary.value.omitted)))
                else e1;
      if summary.value.truncatedFields > 0
      then Noted(e2, TruncatedInteractions, Some(digits(summary.value.truncatedFields))) else e2
  }

  /** What is added once the rows are through. */
  function Finished(e: Episode, summary: Option<Summary>, digits: nat -> string): Episode {
    var e1 := Discounted(e, summary, digits);
    if HasTerminalReply(e1) then e1 else Noted(e1, Terminality, None)
  }

  function FinishAll(episodes: seq<Episode>, summary: Option<Summary>, digits: nat -> string): (r: seq<Episode>)
    ensures |r| == |episodes|
    ensures forall i :: 0 <= i < |r| ==> r[i] == Finished(episodes[i], summary, digits)
  {
    seq(|episodes|, i requires 0 <= i < |episodes| => Finished(episodes[i], summary, digits))
  }

  /** `_derive`. */
  function Derive(lex: Lexicon, rows: seq<Row>, summary: Option<Summary>,
                  digits: nat -> string): Result<seq<Episode>, DeriveError> {
    match Fold(lex, rows)
    case Failure(error) => Failure(error)
    case Success(d) => Success(FinishAll(d.episodes, summary, digits))
  }
}
