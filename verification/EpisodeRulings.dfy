/**
  What each row rules: which request closes the active episode and how, which
  row grants or withholds, and what a new episode starts with. A ruling is
  read off the episode and the lexicon alone, in the order of the source's
  questions.
 */
module EpisodeRulings {
  import opened Prelude
  import opened Interactions
  import opened Episodes
  import opened EpisodeMachine

  // ---------------------------------------------------------------------
  // Readings of a request
  // ---------------------------------------------------------------------

  /** The actions an episode stands for. */
  function Keys(e: Episode): seq<string> {
    match e.action
    case None => []
    case Some(action) => if action == "" then [] else SplitKeys(action)
  }

  /** What follows the first colon of a key. */
  ghost predicate IsObjectOf(rest: string, key: string) {
    exists c :: 0 <= c < |key| && key[c] == ':' && rest == key[c + 1..] && forall b :: 0 <= b < c ==> key[b] != ':'
  }

  ghost predicate KeyObject(lex: Lexicon, key: string, name: string) {
    exists rest :: IsObjectOf(rest, key) && lex.normalized(rest) == name
  }

  /** A status question, about anything or about the episode's action or objective. */
  ghost predicate AsksAbout(lex: Lexicon, e: Episode, t: string) {
    || lex.status(t)
    || (lex.statusTarget(t).Some?
        && var name := lex.normalized(lex.statusTarget(t).value);
           || name == lex.normalized(e.objective)
           || exists i :: 0 <= i < |Keys(e)| && KeyObject(lex, Keys(e)[i], name))
  }

  /** A cancellation outright, or one that names the episode's action or objective. */
  predicate Cancels(lex: Lexicon, e: Episode, t: string) {
    || lex.cancels(t)
    || (lex.cancelTarget(t).Some?
        && var target := lex.cancelTarget(t).value;
           || (lex.actionKey(target).Some? && lex.actionKey(target).value in Keys(e))
           || lex.normalized(target) == lex.normalized(e.objective))
  }

  predicate Resumes(lex: Lexicon, e: Episode, t: string) {
    && lex.resumeTarget(t).Some?
    && (|| (lex.resumeAction(t).Some? && lex.resumeAction(t).value in Keys(e) && e.authority == Authorized)
        || lex.normalized(lex.resumeTarget(t).value) == lex.normalized(e.objective))
  }

  predicate Continues(lex: Lexicon, t: string) {
    || (lex.resumeTarget(t).Some? && lex.normalized(lex.resumeTarget(t).value) in {"", "work", "task", "it", "this"})
    || lex.normalized(t) in {"continue", "resume", "go on"}
  }

  predicate Approves(lex: Lexicon, e: Episode, t: string) {
    && lex.approval(t).Some?
    && lex.actionKey(lex.approval(t).value).Some?
    && lex.actionKey(lex.approval(t).value).value in Keys(e)
  }

  datatype Ruling =
    | Instructs | Settles | Restrains | AsksForStatus | Cancelling | Completing
    | Replacing(text: string) | Resuming | Continuing | Approving | Beginning

  /** How a main-thread request that says `t` rules on the active episode. */
  ghost function RulingOn(lex: Lexicon, e: Episode, t: string): Ruling {
    var plain := lex.actionKeys(t) == [];
    if lex.effective(t).Some? then Instructs
    else if plain && lex.decision(t).Some? then Settles
    else if plain && (lex.holds(t) || lex.restrictsAtStart(t) || lex.waitsAtStart(t)) then Restrains
    else if AsksAbout(lex, e, t) then AsksForStatus
    else if Cancels(lex, e, t) then Cancelling
    else if lex.done(t) then Completing
    else if lex.replacement(t).Some? then Replacing(lex.strip(lex.replacement(t).value))
    else if Resumes(lex, e, t) then Resuming
    else if Continues(lex, t) then Continuing
    else if Approves(lex, e, t) then Approving
    else Beginning
  }

  // ---------------------------------------------------------------------
  // What a ruling does
  // ---------------------------------------------------------------------

  function LifecycleUnder(ruling: Ruling): Lifecycle {
    match ruling
    case Cancelling => Cancelled
    case Completing => Done
    case Replacing(_) => Superseded
    case Beginning => Superseded
    case _ => Active
  }

  function AuthorityUnder(lex: Lexicon, e: Episode, t: string, ruling: Ruling): Authority {
    match ruling
    case Restrains => if lex.holds(t) then Withheld else e.authority
    case Cancelling => Revoked
    case Replacing(_) => Revoked
    case Approving => if |Keys(e)| == 1 then Authorized else e.authority
    case _ => e.authority
  }

  /** An assertion tied to a row. */
  function Note(kind: Kind, value: Option<string>, strength: Strength, row: Row,
                related: Option<nat> := None): Assertion {
    Assertion(kind, value, strength, Some(row.ordinal), Some(row.sourceLine), related)
  }

  function Short(text: string): string {
    text[..Min(|text|, 240)]
  }

  function TextNoted(text: string): Option<string> {
    if text == "" then None else Some(text)
  }

  function RestraintNotes(lex: Lexicon, t: string, row: Row): seq<Assertion> {
    (if lex.restricts(t) then [Note(ScopeRestriction, Some(t), Known, row)] else [])
    + (if lex.holds(t) then [Note(PermissionHold, Some(t), Known, row)] else [])
    + (if lex.waits(t) then [Note(ExternalWait, Some(t), Known, row)] else [])
  }

  /** What an active episode hears in the text of a request or answer that did not end at its ruling. */
  function TailNotes(lex: Lexicon, t: string, row: Row): seq<Assertion> {
    RestraintNotes(lex, t, row)
    + (match lex.decision(t)
       case None => []
       case Some(decision) => [Note(SettledDecision, Some(Short(decision)), Known, row)])
  }

  function TruncationNotes(row: Row): seq<Assertion> {
    if row.truncated then [Note(MaterialTruncation, None, Uncertain, row)] else []
  }

  /** An instruction counts from its day on. */
  function InstructionNotes(lex: Lexicon, t: string, row: Row): seq<Assertion> {
    match lex.effective(t)
    case None => []
    case Some((day, instruction)) =>
      [Note(HistoricalInstruction, Some(Short(instruction)), if day <= row.day then Known else Uncertain, row)]
  }

  predicate Captures(lex: Lexicon, t: string, row: Row) {
    lex.effective(t).Some? && lex.effective(t).value.0 <= row.day
  }

  function RulingNotes(lex: Lexicon, t: string, row: Row, ruling: Ruling): seq<Assertion> {
    match ruling
    case Instructs => InstructionNotes(lex, t, row)
    case Settles => (match lex.decision(t)
                     case None => []
                     case Some(decision) => [Note(SettledDecision, Some(Short(decision)), Known, row)])
    case Restrains => RestraintNotes(lex, t, row)
    case AsksForStatus => [Note(StatusExchange, Some(t), Known, row)]
    case Cancelling => [Note(Revocation, Some(t), Known, row)]
    case Completing => [Note(ObservedCompletion, Some(t), Known, row)]
    case Replacing(_) => [Note(ScopeChange, Some(t), Known, row)]
    case Resuming => [Note(SameOutcomeResume, Some(t), Known, row)]
    case Continuing => [Note(GenericContinuation, Some(t), Uncertain, row)]
    case Approving => (match lex.approval(t)
                       case None => []
                       case Some(scope) => [Note(ExplicitApproval, lex.actionKey(scope), Known, row)])
    case Beginning => [Note(NewRequestBoundary, Some(t), Known, row)]
  }

  /** The active episode after a request. */
  function Ruled(lex: Lexicon, e: Episode, row: Row, ruling: Ruling): Episode {
    var t := lex.strip(row.text);
    e.(end := row.ordinal, lifecycle := LifecycleUnder(ruling), authority := AuthorityUnder(lex, e, t, ruling),
       policyCaptured := e.policyCaptured || (ruling.Instructs? && Captures(lex, t, row)),
       assertions := e.assertions + RulingNotes(lex, t, row, ruling))
  }

  /** Each action a new episode stands for is noted as pending and as authorized. */
  function ActionNotes(keys: seq<string>, row: Row): seq<Assertion> {
    if keys == [] then []
    else
      [Note(PendingAction, Some(keys[0]), Known, row), Note(Authorization, Some(keys[0]), Known, row)]
      + ActionNotes(keys[1..], row)
  }

  function OpeningNotes(lex: Lexicon, t: string, row: Row): seq<Assertion> {
    var said := if lex.approval(t).Some? then lex.approval(t).value else t;
    var keys := lex.actionKeys(said);
    [Note(Objective, Some(Short(t)), Known, row), Note(HistoricalPolicy, None, Uncertain, row)]
    + (if lex.advice(t) && lex.approval(t).None? then [Note(AdviceOnly, None, Known, row)]
       else if keys == [] then [Note(ActionScope, None, Uncertain, row)]
       else ActionNotes(SplitKeys(Join(keys)), row))
    + (if lex.approval(t).None? then []
       else [Note(ExplicitApproval, Some(Short(said)),
                  if keys != [] && Join(keys) != "" then Known else Uncertain, row)])
  }

  /** The episode a request that says `t` opens: authorized exactly for the actions it names, unless held. */
  function OpenedOn(lex: Lexicon, t: string, row: Row): Episode {
    var keys := lex.actionKeys(if lex.approval(t).Some? then lex.approval(t).value else t);
    var advice := lex.advice(t) && lex.approval(t).None?;
    Episode(
      row.ordinal, row.ordinal, row.threadId, Short(t),
      if keys == [] then None else Some(Join(keys)),
      if lex.holds(t) then Withheld
      else if keys != [] && Join(keys) != "" && !advice then Authorized
      else AuthorityUnknown,
      (keys != [] || advice) && !row.truncated, false, Active, advice,
      OpeningNotes(lex, t, row) + TailNotes(lex, t, row) + TruncationNotes(row))
  }

  /** Every episode but number `i` as it was. */
  ghost predicate OthersKept(d: Derivation, d': Derivation, i: nat) {
    |d.episodes| <= |d'.episodes| && forall j :: 0 <= j < |d.episodes| && j != i ==> d'.episodes[j] == d.episodes[j]
  }

  ghost predicate OpensNext(lex: Lexicon, d: Derivation, d': Derivation, t: string, row: Row) {
    var n := |d.episodes|;
    |d'.episodes| == n + 1 && d'.active == Some(n) && d'.episodes[n] == OpenedOn(lex, t, row)
  }

  // ---------------------------------------------------------------------
  // The readings are the fold's
  // ---------------------------------------------------------------------

  lemma KeysArePending(e: Episode)
    ensures Keys(e) == e.Pending()
  {}

  lemma {:induction false} ObjectIsFound(key: string)
    ensures forall rest :: IsObjectOf(rest, key) <==> ObjectOf(key) == Some(rest)
    decreases |key|
  {
    if key != "" && key[0] != ':' {
      ObjectIsFound(key[1..]);
      forall rest ensures IsObjectOf(rest, key) <==> IsObjectOf(rest, key[1..]) {
        if IsObjectOf(rest, key) {
          var c :| 0 <= c < |key| && key[c] == ':' && rest == key[c + 1..]
                   && forall b :: 0 <= b < c ==> key[b] != ':';
          assert key[1..][c - 1] == ':' && key[1..][c..] == rest;
        }
        if IsObjectOf(rest, key[1..]) {
          var c :| 0 <= c < |key[1..]| && key[1..][c] == ':' && rest == key[1..][c + 1..]
                   && forall b :: 0 <= b < c ==> key[1..][b] != ':';
          assert key[c + 1] == ':' && key[c + 2..] == rest;
        }
      }
    } else if key != "" {
      assert forall rest :: IsObjectOf(rest, key) ==> rest == key[1..];
      assert key[0 + 1..] == key[1..];
    }
  }

  lemma ObjectsAreNamed(lex: Lexicon, keys: seq<string>, name: string)
    requires Readable(keys)
    ensures name in Objects(lex, keys) <==> exists i :: 0 <= i < |keys| && KeyObject(lex, keys[i], name)
  {
    forall i | 0 <= i < |keys|
      ensures KeyObject(lex, keys[i], name) <==> lex.normalized(ObjectOf(keys[i]).value) == name
    {
      ObjectIsFound(keys[i]);
    }
  }

  lemma StatusIsAsked(lex: Lexicon, d: Derivation, t: string)
    requires d.Ok() && d.active.Some? && Readable(d.Current().Pending())
    ensures AsksStatus(lex, d, t) <==> AsksAbout(lex, d.Current(), t)
  {
    KeysArePending(d.Current());
    if lex.statusTarget(t).Some? {
      ObjectsAreNamed(lex, Keys(d.Current()), lex.normalized(lex.statusTarget(t).value));
    }
  }

  // ---------------------------------------------------------------------
  // Opening
  // ---------------------------------------------------------------------

  lemma {:induction false} ActionsNoted(e: Episode, pending: seq<string>, row: Row)
    ensures AddActions(e, pending, row) == e.(assertions := e.assertions + ActionNotes(pending, row))
    decreases |pending|
  {
    if pending == [] {
      assert e.assertions + [] == e.assertions;
    } else {
      var e1 := e.Add(PendingAction, Some(pending[0]), Known, row).Add(Authorization, Some(pending[0]), Known, row);
      ActionsNoted(e1, pending[1..], row);
      assert e1.assertions + ActionNotes(pending[1..], row) == e.assertions + ActionNotes(pending, row);
    }
  }

  lemma RestrainedTold(lex: Lexicon, e: Episode, t: string, row: Row)
    ensures Restrained(lex, e, t, row)
            == e.(authority := if lex.holds(t) then Withheld else e.authority,
                  assertions := e.assertions + RestraintNotes(lex, t, row))
  {
    var a := if lex.restricts(t) then [Note(ScopeRestriction, Some(t), Known, row)] else [];
    var b := if lex.holds(t) then [Note(PermissionHold, Some(t), Known, row)] else [];
    var c := if lex.waits(t) then [Note(ExternalWait, Some(t), Known, row)] else [];
    var restricted := Restricted(lex, e, t, row);
    assert restricted == e.(assertions := e.assertions + a);
    assert HeldBy(lex, restricted, t, row).assertions == restricted.assertions + b;
    ThreeAdded(e.assertions, a, b, c);
  }

  lemma ThreeAdded(s: seq<Assertion>, a: seq<Assertion>, b: seq<Assertion>, c: seq<Assertion>)
    ensures s + a + b + c == s + (a + b + c)
    ensures s + [] == s
  {}

  lemma HumanTailTold(lex: Lexicon, e: Episode, t: string, row: Row)
    ensures HumanTail(lex, e, t, row)
            == e.(authority := if lex.holds(t) then Withheld else e.authority,
                  assertions := e.assertions + TailNotes(lex, t, row))
  {
    hide Restrained, RestraintNotes;
    RestrainedTold(lex, e, t, row);
    assert HumanTail(lex, e, t, row).assertions == e.assertions + TailNotes(lex, t, row);
  }

  /** The active episode after the common tail of a row. */
  function Tailed(lex: Lexicon, e: Episode, t: string, row: Row): Episode {
    var human := row.origin == HumanRequest || row.origin == HumanAnswer;
    e.(authority := if human && lex.holds(t) then Withheld else e.authority,
       contextKnown := e.contextKnown && !row.truncated,
       assertions := e.assertions + ((if human then TailNotes(lex, t, row) else []) + TruncationNotes(row)))
  }

  /** The common tail touches the active episode alone. */
  lemma TailTold(lex: Lexicon, d: Derivation, t: string, row: Row)
    requires d.Ok()
    ensures Tail(lex, d, t, row) == if d.active.None? then d else d.Update(Tailed(lex, d.Current(), t, row))
  {
    hide HumanTail, TailNotes;
    if d.active.Some? {
      var e := d.Current();
      HumanTailTold(lex, e, t, row);
      var human := row.origin == HumanRequest || row.origin == HumanAnswer;
      var notes := if human then TailNotes(lex, t, row) else [];
      assert e.assertions + notes + TruncationNotes(row) == e.assertions + (notes + TruncationNotes(row));
      assert e.assertions + [] == e.assertions;
      assert notes + [] == notes;
    }
  }

  lemma NewEpisodeTold(row: Row, objective: string, action: Option<string>, authority: Authority, advice: bool)
    ensures NewEpisode(row, objective, action, authority, advice)
            == Episode(row.ordinal, row.ordinal, row.threadId, objective, action, authority, action.Some? || advice,
                       false, Active, advice,
                       [Note(Objective, Some(objective), Known, row), Note(HistoricalPolicy, None, Uncertain, row)]
                       + (if advice then [Note(AdviceOnly, None, Known, row)]
                          else if action.None? then [Note(ActionScope, None, Uncertain, row)]
                          else ActionNotes(SplitKeys(action.value), row)))
  {
    hide SplitKeys, AddActions;
    var e := Episode(row.ordinal, row.ordinal, row.threadId, objective, action, authority, true, false, Active,
                     advice, [])
               .Add(Objective, Some(objective), Known, row)
               .Add(HistoricalPolicy, None, Uncertain, row);
    assert e.assertions
        == [Note(Objective, Some(objective), Known, row), Note(HistoricalPolicy, None, Uncertain, row)];
    if !advice && action.Some? {
      ActionsNoted(e, SplitKeys(action.value), row);
    }
  }

  /** What a request opens, before its tail has been heard. */
  lemma OpenedTold(lex: Lexicon, t: string, row: Row)
    requires row.origin == HumanRequest
    ensures Tailed(lex, OpenedBy(lex, t, row), t, row) == OpenedOn(lex, t, row)
  {
    hide SplitKeys, NewEpisode, ActionNotes, TailNotes;
    var keys := lex.actionKeys(lex.approval(t).GetOr(t));
    var action := if keys == [] then None else Some(Join(keys));
    var advice := lex.advice(t) && lex.approval(t).None?;
    var authority := if action.Some? && action.value != "" && !advice then Authorized else AuthorityUnknown;
    NewEpisodeTold(row, Cut(t), action, authority, advice);
    assert OpenedBy(lex, t, row).assertions == OpeningNotes(lex, t, row);
    assert OpeningNotes(lex, t, row) + TailNotes(lex, t, row) + TruncationNotes(row)
        == OpeningNotes(lex, t, row) + (TailNotes(lex, t, row) + TruncationNotes(row));
  }

  // ---------------------------------------------------------------------
  // A request, with and without an active episode
  // ---------------------------------------------------------------------

  predicate MainRequest(row: Row) {
    !row.sidechain && row.origin.HumanRequest?
  }

  /** What a request does to the whole derivation when episode `i` is active. */
  ghost predicate RequestRules(lex: Lexicon, d: Derivation, d': Derivation, i: nat, row: Row) {
    && i < |d.episodes|
    && OthersKept(d, d', i)
    && d'.questions == d.questions
    && var t := lex.strip(row.text);
       var ruling := RulingOn(lex, d.episodes[i], t);
       && d'.episodes[i] == Ruled(lex, d.episodes[i], row, ruling)
       && match ruling
          case Cancelling => d'.active == None && |d'.episodes| == |d.episodes|
          case Completing => d'.active == None && |d'.episodes| == |d.episodes|
          case Replacing(text) => OpensNext(lex, d, d', text, row)
          case Beginning => OpensNext(lex, d, d', t, row)
          case _ => d'.active == Some(i) && |d'.episodes| == |d.episodes|
  }

  /** Opening, then the common tail. */
  lemma OpeningTold(lex: Lexicon, d: Derivation, t: string, row: Row)
    requires d.Ok() && row.origin.HumanRequest?
    ensures var d' := Tail(lex, OpenEpisode(lex, d, t, row), t, row);
            && OpensNext(lex, d, d', t, row) && d'.questions == d.questions
            && (forall j :: 0 <= j < |d.episodes| && d.active != Some(j) ==> d'.episodes[j] == d.episodes[j])
            && (d.active.Some? ==> d'.episodes[d.active.value] == BoundaryAt(d.Current(), t, row))
  {
    hide OpenedBy, OpenedOn, Tail, Tailed;
    TailTold(lex, OpenEpisode(lex, d, t, row), t, row);
    OpenedTold(lex, t, row);
  }

  /** A replacement closes the active episode and opens one on the text it announces. */
  lemma ReplacementRules(lex: Lexicon, d: Derivation, row: Row, t2: string)
    requires d.Ok() && d.active.Some? && row.origin.HumanRequest?
    ensures var closed := d.Close(ReplacedBy(d.Current(), lex.strip(row.text), row));
            var d' := Tail(lex, OpenEpisode(lex, closed, t2, row), t2, row);
            && OpensNext(lex, d, d', t2, row) && d'.questions == d.questions
            && OthersKept(d, d', d.active.value)
            && d'.episodes[d.active.value] == ReplacedBy(d.Current(), lex.strip(row.text), row)
  {
    hide OpenedOn, Tail, OpenEpisode;
    OpeningTold(lex, d.Close(ReplacedBy(d.Current(), lex.strip(row.text), row)), t2, row);
  }

  lemma BeginningRules(lex: Lexicon, d: Derivation, row: Row)
    requires d.Ok() && d.active.Some? && MainRequest(row)
    requires RulingOn(lex, d.Current(), lex.strip(row.text)).Beginning?
    ensures var t := lex.strip(row.text);
            RequestRules(lex, d, Tail(lex, OpenEpisode(lex, d, t, row), t, row), d.active.value, row)
  {
    hide RulingOn, OpenedOn, Tail, OpenEpisode;
    var t := lex.strip(row.text);
    OpeningTold(lex, d, t, row);
  }

  lemma AsideRules(lex: Lexicon, d: Derivation, row: Row)
    requires d.Ok() && d.active.Some? && d.Current().lifecycle.Active?
    requires MainRequest(row) && Step(lex, d, row).Success?
    requires var ruling := RulingOn(lex, d.Current(), lex.strip(row.text));
             ruling.Instructs? || ruling.Settles? || ruling.Restrains?
    ensures RequestRules(lex, d, Step(lex, d, row).value, d.active.value, row)
  {
    hide AsksAbout, Cancels, Resumes, Continues, Approves, RequestMiddle, Readable, OpenedOn, Restrained,
      RestraintNotes;
    RestrainedTold(lex, Touched(d.Current(), row), lex.strip(row.text), row);
  }

  /** Past the asides the pending objects have been read, and the middle questions decide. */
  lemma PastAsides(lex: Lexicon, d: Derivation, row: Row)
    requires d.Ok() && d.active.Some? && MainRequest(row) && Step(lex, d, row).Success?
    requires var ruling := RulingOn(lex, d.Current(), lex.strip(row.text));
             !ruling.Instructs? && !ruling.Settles? && !ruling.Restrains?
    ensures var t := lex.strip(row.text);
            && Readable(d.Current().Pending())
            && HumanRequested(lex, d, row) == RequestMiddle(lex, d, t, row)
            && (AsksStatus(lex, d, t) <==> AsksAbout(lex, d.Current(), t))
            && ((lex.cancels(t) || CancelsActive(lex, d, t)) <==> Cancels(lex, d.Current(), t))
  {
    hide AsksStatus, AsksAbout, Readable, RequestMiddle, Resumes, Continues, Approves;
    if Readable(d.Current().Pending()) {
      StatusIsAsked(lex, d, lex.strip(row.text));
    }
    KeysArePending(d.Current());
  }

  lemma ClosingRules(lex: Lexicon, d: Derivation, row: Row)
    requires d.Ok() && d.active.Some? && d.Current().lifecycle.Active?
    requires MainRequest(row) && Step(lex, d, row).Success?
    requires var ruling := RulingOn(lex, d.Current(), lex.strip(row.text));
             ruling.AsksForStatus? || ruling.Cancelling? || ruling.Completing?
    ensures RequestRules(lex, d, Step(lex, d, row).value, d.active.value, row)
  {
    hide AsksStatus, AsksAbout, Cancels, CancelsActive, Readable, OpenedOn, RequestTail, Resumes, Continues, Approves,
      HumanRequested;
    PastAsides(lex, d, row);
  }

  /** Past the closings the later questions decide, as the ruling reads them. */
  lemma PastClosings(lex: Lexicon, d: Derivation, row: Row)
    requires d.Ok() && d.active.Some? && MainRequest(row) && Step(lex, d, row).Success?
    requires var ruling := RulingOn(lex, d.Current(), lex.strip(row.text));
             ruling.Resuming? || ruling.Continuing? || ruling.Approving?
    ensures var t := lex.strip(row.text);
            && HumanRequested(lex, d, row) == RequestTail(lex, d, t, row)
            && (ResumesSame(lex, d.Current(), t) <==> Resumes(lex, d.Current(), t))
            && (ContinuesVaguely(lex, t) <==> Continues(lex, t))
            && (InPending(ApprovedAction(lex, t), d.Current()) <==> Approves(lex, d.Current(), t))
            && match RulingOn(lex, d.Current(), t)
               case Resuming => Resumes(lex, d.Current(), t)
               case Continuing => !Resumes(lex, d.Current(), t) && Continues(lex, t)
               case _ => !Resumes(lex, d.Current(), t) && !Continues(lex, t) && Approves(lex, d.Current(), t)
  {
    hide AsksStatus, AsksAbout, Cancels, CancelsActive, Readable, RequestTail, HumanRequested;
    PastAsides(lex, d, row);
    KeysArePending(d.Current());
  }

  lemma ContinuedRules(lex: Lexicon, d: Derivation, row: Row, f: Episode)
    requires d.Ok() && d.active.Some? && MainRequest(row)
    requires HumanRequested(lex, d, row) == Continue(d.Update(f))
    requires var ruling := RulingOn(lex, d.Current(), lex.strip(row.text));
             && (ruling.Resuming? || ruling.Continuing? || ruling.Approving?)
             && f == Ruled(lex, d.Current(), row, ruling)
    ensures Step(lex, d, row) == Success(d.Update(f))
    ensures RequestRules(lex, d, d.Update(f), d.active.value, row)
  {
    hide HumanRequested, Ruled, OpenedOn, RulingOn;
  }

  lemma StayingRules(lex: Lexicon, d: Derivation, row: Row)
    requires d.Ok() && d.active.Some? && d.Current().lifecycle.Active?
    requires MainRequest(row) && Step(lex, d, row).Success?
    requires var ruling := RulingOn(lex, d.Current(), lex.strip(row.text));
             ruling.Resuming? || ruling.Continuing? || ruling.Approving?
    ensures RequestRules(lex, d, Step(lex, d, row).value, d.active.value, row)
  {
    hide RulingOn, AsksAbout, Cancels, Resumes, ResumesSame, Continues, ContinuesVaguely, OpenEpisode, Tail,
      HumanRequested, RequestRules, Step;
    PastClosings(lex, d, row);
    var t, e := lex.strip(row.text), d.Current();
    KeysArePending(e);
    if Resumes(lex, e, t) {
      ContinuedRules(lex, d, row, Resumed(e, t, row));
    } else if Continues(lex, t) {
      ContinuedRules(lex, d, row, Continued(e, t, row));
    } else {
      ContinuedRules(lex, d, row, ApprovedAs(Touched(e, row), ApprovedAction(lex, t).value, row));
    }
  }

  lemma OpeningRules(lex: Lexicon, d: Derivation, row: Row)
    requires d.Ok() && d.active.Some? && d.Current().lifecycle.Active?
    requires MainRequest(row) && Step(lex, d, row).Success?
    requires var ruling := RulingOn(lex, d.Current(), lex.strip(row.text)); ruling.Replacing? || ruling.Beginning?
    ensures RequestRules(lex, d, Step(lex, d, row).value, d.active.value, row)
  {
    hide AsksStatus, AsksAbout, Readable, OpenedOn, OpenEpisode, Tail;
    var t := lex.strip(row.text);
    KeysArePending(d.Current());
    StatusIsAsked(lex, d, t);
    match RulingOn(lex, d.Current(), t)
    case Replacing(t2) =>
        ReplacementRules(lex, d, row, t2);
    case _ =>
      BeginningRules(lex, d, row);
  }

  lemma StepOnRequest(lex: Lexicon, d: Derivation, row: Row)
    requires d.Ok() && d.active.Some? && d.Current().lifecycle.Active?
    requires MainRequest(row) && Step(lex, d, row).Success?
    ensures RequestRules(lex, d, Step(lex, d, row).value, d.active.value, row)
  {
    hide RulingOn, RequestRules, Step;
    var ruling := RulingOn(lex, d.Current(), lex.strip(row.text));
    if ruling.Instructs? || ruling.Settles? || ruling.Restrains? {
      AsideRules(lex, d, row);
    } else if ruling.AsksForStatus? || ruling.Cancelling? || ruling.Completing? {
      ClosingRules(lex, d, row);
    } else if ruling.Replacing? || ruling.Beginning? {
      OpeningRules(lex, d, row);
    } else {
      StayingRules(lex, d, row);
    }
  }

  /** Without an active episode a request opens one, unless it asks for a status or reports an end. */
  lemma StepOnFreshRequest(lex: Lexicon, d: Derivation, row: Row)
    requires d.Ok() && d.active.None? && MainRequest(row)
    ensures Step(lex, d, row).Success?
    ensures var t, d' := lex.strip(row.text), Step(lex, d, row).value;
            && d'.questions == d.questions && d.episodes <= d'.episodes
            && if lex.status(t) || lex.cancels(t) || lex.done(t) then d' == d else OpensNext(lex, d, d', t, row)
  {
    hide OpenedOn, Tail, OpenEpisode;
    OpeningTold(lex, d, lex.strip(row.text), row);
  }

  // ---------------------------------------------------------------------
  // Questions and answers
  // ---------------------------------------------------------------------

  predicate MainRow(row: Row, origin: Origin) {
    !row.sidechain && row.origin == origin
  }

  /** What the last main-thread question with this ordinal asked, and of which episode. */
  ghost function LastAsked(lex: Lexicon, rows: seq<Row>, q: nat): Option<Asked> {
    if rows == [] then None
    else
      var n := |rows| - 1;
      var before := Fold(lex, rows[..n]);
      if MainRow(rows[n], Question) && rows[n].ordinal == q && before.Success? && before.value.active.Some? then
        Some(Asked(before.value.active.value, ActionIn(lex, lex.strip(rows[n].text))))
      else
        LastAsked(lex, rows[..n], q)
  }

  function ActionIn(lex: Lexicon, question: string): Option<string> {
    if lex.questionAction(question).None? then None else lex.actionKey(lex.questionAction(question).value)
  }

  predicate Assents(lex: Lexicon, e: Episode, action: Option<string>, t: string) {
    && lex.normalized(t) in {"yes", "approved", "go ahead", "proceed"}
    && action.Some? && action.value in Keys(e) && e.authority != Revoked
  }

  /** A refusal counts only while the episode is active; without an action there is one key, the empty one. */
  predicate Refuses(lex: Lexicon, e: Episode, action: Option<string>, t: string) {
    && lex.normalized(t) in {"no", "do not proceed", "not approved"}
    && action.Some? && (action.value in Keys(e) || (Keys(e) == [] && action.value == ""))
    && e.lifecycle == Active
  }

  function AuthorityAnswered(lex: Lexicon, e: Episode, action: Option<string>, t: string): Authority {
    if Refuses(lex, e, action, t) then Withheld
    else if Assents(lex, e, action, t) && |Keys(e)| == 1 then Authorized
    else e.authority
  }

  function AssentNotes(lex: Lexicon, e: Episode, action: Option<string>, t: string, row: Row): seq<Assertion> {
    if !(lex.normalized(t) in {"yes", "approved", "go ahead", "proceed"} && action.Some?) then []
    else if Assents(lex, e, action, t) then [Note(ExplicitApproval, action, Known, row, row.questionOrdinal)]
    else [Note(ApprovalScope, action, Uncertain, row, row.questionOrdinal)]
  }

  /** What the episode that asked notes of an answer: the answer, an assent within its scope or beyond, a refusal. */
  function AnswerNotes(lex: Lexicon, e: Episode, action: Option<string>, t: string, row: Row): seq<Assertion> {
    [Note(QuestionAnswer, TextNoted(t), Known, row, row.questionOrdinal)]
    + AssentNotes(lex, e, action, t, row)
    + (if Refuses(lex, e, action, t) then [Note(Kind.ApprovalWithheld, Some(t), Known, row, row.questionOrdinal)]
       else [])
  }

  /** An episode after the answer to its question. */
  function Answered(lex: Lexicon, e: Episode, action: Option<string>, t: string, row: Row): Episode {
    e.(end := Max(e.end, row.ordinal), authority := AuthorityAnswered(lex, e, action, t),
       assertions := e.assertions + AnswerNotes(lex, e, action, t, row))
  }

  /** The active episode after an answer nobody asked for. */
  function Unasked(e: Episode, t: string, row: Row): Episode {
    e.(contextKnown := false,
       assertions := e.assertions + [Note(UnmatchedAnswer, TextNoted(t), Uncertain, row, row.questionOrdinal)])
  }

  /** An answer goes to the episode that asked, or confuses the active one, which also hears its tail. */
  ghost predicate AnswerRules(lex: Lexicon, d: Derivation, d': Derivation, asked: Option<Asked>, row: Row) {
    var t := lex.strip(row.text);
    && |d'.episodes| == |d.episodes| && d'.active == d.active && d'.questions == d.questions
    && forall i :: 0 <= i < |d.episodes| ==>
         var heard := if asked.Some? && asked.value.episode == i
                      then Answered(lex, d.episodes[i], asked.value.action, t, row)
                      else if asked.None? && d.active == Some(i) then Unasked(d.episodes[i], t, row)
                      else d.episodes[i];
         d'.episodes[i] == if d.active == Some(i) then Tailed(lex, heard, t, row) else heard
  }

  ghost function AskedIn(d: Derivation, q: Option<nat>): Option<Asked> {
    if q.Some? && q.value in d.questions then Some(d.questions[q.value]) else None
  }

  lemma EmptyKeys(e: Episode, action: string)
    ensures action in SplitKeys(e.action.GetOr("")) <==> action in Keys(e) || (Keys(e) == [] && action == "")
  {}

  lemma AssentTold(lex: Lexicon, e: Episode, action: Option<string>, t: string, row: Row)
    ensures Assented(lex, e, action, t, row)
            == e.(authority := if Assents(lex, e, action, t) && |Keys(e)| == 1 then Authorized else e.authority,
                  assertions := e.assertions + AssentNotes(lex, e, action, t, row))
  {
    hide SplitKeys;
    KeysArePending(e);
    assert e.assertions + [] == e.assertions;
  }

  lemma RefusalTold(lex: Lexicon, e: Episode, action: Option<string>, t: string, row: Row)
    ensures Refused(lex, e, action, t, row)
            == if Refuses(lex, e, action, t)
               then e.(authority := Withheld,
                       assertions := e.assertions
                                     + [Note(Kind.ApprovalWithheld, Some(t), Known, row, row.questionOrdinal)])
               else e
  {
    hide SplitKeys;
    if action.Some? {
      EmptyKeys(e, action.value);
    }
  }

  lemma AnswerTold(lex: Lexicon, e: Episode, action: Option<string>, t: string, row: Row)
    ensures AnswerTo(lex, e, action, t, row) == Answered(lex, e, action, t, row)
  {
    hide SplitKeys, Assented, Refused, Assents, Refuses;
    var heard := Heard(e, t, row);
    SameAnswer(lex, e, heard, action, t);
    AssentTold(lex, heard, action, t, row);
    RefusalTold(lex, Assented(lex, heard, action, t, row), action, t, row);
    SameAnswer(lex, e, Assented(lex, heard, action, t, row), action, t);
    var a := AssentNotes(lex, e, action, t, row);
    var b := [Note(QuestionAnswer, TextNoted(t), Known, row, row.questionOrdinal)];
    var c := if Refuses(lex, e, action, t)
             then [Note(Kind.ApprovalWithheld, Some(t), Known, row, row.questionOrdinal)] else [];
    ThreeAdded(e.assertions, b, a, c);
    ThreeAdded(e.assertions + b + a, [], [], []);
  }

  /** Whether an answer assents or refuses does not depend on what the episode has noted. */
  lemma SameAnswer(lex: Lexicon, e: Episode, f: Episode, action: Option<string>, t: string)
    requires f.action == e.action && f.lifecycle == e.lifecycle
    ensures Keys(f) == Keys(e) && Refuses(lex, f, action, t) == Refuses(lex, e, action, t)
    ensures f.authority == e.authority ==> Assents(lex, f, action, t) == Assents(lex, e, action, t)
  {}

  lemma StepOnAnswer(lex: Lexicon, d: Derivation, row: Row)
    requires d.Ok() && MainRow(row, HumanAnswer)
    ensures Step(lex, d, row).Success?
    ensures AnswerRules(lex, d, Step(lex, d, row).value, AskedIn(d, row.questionOrdinal), row)
  {
    hide AnswerTo, Answered, Tail, Tailed;
    var t := lex.strip(row.text);
    TailTold(lex, HumanAnswered(lex, d, t, row), t, row);
    var asked := AskedIn(d, row.questionOrdinal);
    if asked.Some? {
      AnswerTold(lex, d.episodes[asked.value.episode], asked.value.action, t, row);
    }
  }

  // ---------------------------------------------------------------------
  // Everything else is observed
  // ---------------------------------------------------------------------

  /** What the active episode notes of a row that is no main-thread request or answer. */
  function ObservationNotes(lex: Lexicon, t: string, row: Row): seq<Assertion> {
    if row.sidechain then [Note(SidechainHandoff, TextNoted(t), Inferred, row)]
    else
      match row.origin
      case Harness => if lex.holds(t) then [Note(QuotedHold, Some(t), Uncertain, row)] else []
      case QuotedHistory => if lex.holds(t) then [Note(QuotedHold, Some(t), Uncertain, row)] else []
      case _ => MentionNotes(lex, t, row) + TruncationNotes(row)
  }

  /** A question, how a reply ended, and who is said to wait for whom. */
  function MentionNotes(lex: Lexicon, t: string, row: Row): seq<Assertion> {
    match row.origin
    case Question => [Note(OutstandingQuestion, TextNoted(t), Known, row)]
    case AssistantText =>
      (if row.terminal == NotFinal then []
       else [Note(TerminalReply, TextNoted(t), if row.terminal == Completed then Known else Uncertain, row)])
      + (if lex.waits(t) then [Note(AssistantWaitClaim, TextNoted(t), Inferred, row)] else [])
    case ToolResult => if lex.waits(t) then [Note(ExternalWaitEvidence, TextNoted(t), Inferred, row)] else []
    case _ => []
  }

  /** The active episode after such a row: only what it spans, what is known of it and what it notes may change. */
  function Observing(lex: Lexicon, e: Episode, row: Row): Episode {
    var t := lex.strip(row.text);
    var quoted := row.origin == Harness || row.origin == QuotedHistory;
    e.(end := if row.sidechain || quoted then e.end else row.ordinal,
       contextKnown := e.contextKnown
                       && (row.sidechain || if quoted then !lex.holds(t) else !row.truncated),
       assertions := e.assertions + ObservationNotes(lex, t, row))
  }

  /** No such row changes a lifecycle, an authority, what is active, or any episode but the active one. */
  ghost predicate ObservationRules(lex: Lexicon, d: Derivation, d': Derivation, row: Row) {
    && |d'.episodes| == |d.episodes| && d'.active == d.active
    && forall i :: 0 <= i < |d.episodes| ==>
         d'.episodes[i] == if d.active == Some(i) then Observing(lex, d.episodes[i], row) else d.episodes[i]
  }

  lemma MentionTold(lex: Lexicon, e: Episode, row: Row)
    requires !row.origin.Harness? && !row.origin.QuotedHistory?
    requires !row.origin.HumanRequest? && !row.origin.HumanAnswer?
    ensures var t := lex.strip(row.text);
            (if row.origin.Question? then Touched(e, row).Add(OutstandingQuestion, TextOrNone(t), Known, row)
             else Observed(lex, e, t, row))
            == e.(end := row.ordinal, assertions := e.assertions + MentionNotes(lex, t, row))
  {
    var t := lex.strip(row.text);
    var f := if row.origin.Question? then Touched(e, row).Add(OutstandingQuestion, TextOrNone(t), Known, row)
             else Observed(lex, e, t, row);
    var notes := MentionNotes(lex, t, row);
    var ended := if row.origin.AssistantText? && !row.terminal.NotFinal? then notes[..1] else [];
    ThreeAdded(e.assertions, ended, if |ended| <= |notes| then notes[|ended|..] else [], []);
    assert f.assertions == e.assertions + notes;
  }

  lemma TailedObservation(lex: Lexicon, e: Episode, row: Row)
    requires !row.sidechain && !row.origin.Harness? && !row.origin.QuotedHistory?
    requires !row.origin.HumanRequest? && !row.origin.HumanAnswer?
    ensures var t := lex.strip(row.text);
            var f := if row.origin.Question? then Touched(e, row).Add(OutstandingQuestion, TextOrNone(t), Known, row)
                     else Observed(lex, e, t, row);
            Tailed(lex, f, t, row) == Observing(lex, e, row)
  {
    hide Observed, MentionNotes, TruncationNotes;
    var t := lex.strip(row.text);
    MentionTold(lex, e, row);
    var a, b := MentionNotes(lex, t, row), TruncationNotes(row);
    assert e.assertions + a + ([] + b) == e.assertions + (a + b);
  }

  lemma AsideObservation(lex: Lexicon, e: Episode, row: Row)
    requires row.sidechain || row.origin.Harness? || row.origin.QuotedHistory?
    ensures var t := lex.strip(row.text);
            && (row.sidechain ==> Handoff(e, t, row) == Observing(lex, e, row))
            && (!row.sidechain ==>
                  Observing(lex, e, row) == if lex.holds(t) then QuotedHeld(e, t, row) else e)
  {
    assert e.assertions + [] == e.assertions;
  }

  lemma StepOnOther(lex: Lexicon, d: Derivation, row: Row)
    requires d.Ok() && !MainRow(row, HumanRequest) && !MainRow(row, HumanAnswer)
    ensures Step(lex, d, row).Success?
    ensures ObservationRules(lex, d, Step(lex, d, row).value, row)
    ensures Step(lex, d, row).value.questions
            == if MainRow(row, Question) && d.active.Some?
               then d.questions[row.ordinal := Asked(d.active.value, ActionIn(lex, lex.strip(row.text)))]
               else d.questions
  {
    hide Tail, Observing, Tailed, Observed, Handoff, QuotedHeld;
    var t := lex.strip(row.text);
    if d.active.Some? {
      if row.sidechain || row.origin.Harness? || row.origin.QuotedHistory? {
        AsideObservation(lex, d.Current(), row);
      } else {
        TailedObservation(lex, d.Current(), row);
        if row.origin.Question? {
          TailTold(lex, QuestionAsked(lex, d, t, row), t, row);
        } else {
          TailTold(lex, d.Update(Observed(lex, d.Current(), t, row)), t, row);
        }
      }
    }
  }

  // ---------------------------------------------------------------------
  // Every row of every session
  // ---------------------------------------------------------------------

  /** What row `k` does to what the rows before it derived. */
  ghost predicate RowRules(lex: Lexicon, rows: seq<Row>, k: nat, d: Derivation, d': Derivation)
    requires k < |rows| && d.Ok()
  {
    var row := rows[k];
    var t := lex.strip(row.text);
    if MainRequest(row) then
      if d.active.Some? then RequestRules(lex, d, d', d.active.value, row)
      else if lex.status(t) || lex.cancels(t) || lex.done(t) then d' == d
      else d.episodes <= d'.episodes && OpensNext(lex, d, d', t, row)
    else if MainRow(row, HumanAnswer) then
      AnswerRules(lex, d, d', if row.questionOrdinal.None? then None
                              else LastAsked(lex, rows[..k], row.questionOrdinal.value), row)
    else
      ObservationRules(lex, d, d', row)
  }

  lemma {:induction false} QuestionsAreLastAsked(lex: Lexicon, rows: seq<Row>)
    requires Fold(lex, rows).Success?
    ensures forall q :: AskedIn(Fold(lex, rows).value, Some(q)) == LastAsked(lex, rows, q)
    decreases |rows|
  {
    hide Step, ActionIn;
    if rows != [] {
      var n := |rows| - 1;
      var d, row := Fold(lex, rows[..n]).value, rows[n];
      QuestionsAreLastAsked(lex, rows[..n]);
      FoldAdvances(lex, rows[..n], n);
      if MainRequest(row) {
        if d.active.Some? {
          QuestionsOnRequest(lex, d, row);
        } else {
          StepOnFreshRequest(lex, d, row);
        }
      } else if MainRow(row, HumanAnswer) {
        StepOnAnswer(lex, d, row);
      } else {
        StepOnOther(lex, d, row);
      }
    }
  }

  lemma QuestionsOnRequest(lex: Lexicon, d: Derivation, row: Row)
    requires MachineOk(d) && d.active.Some? && MainRequest(row) && Step(lex, d, row).Success?
    ensures Step(lex, d, row).value.questions == d.questions
  {
    hide Step, RulingOn, Ruled, OpensNext;
    StepOnRequest(lex, d, row);
  }

  /**
    Over every session: which rows close the active episode and how, which
    grant, withhold or revoke, what each opens, and that no other row does any
    of it.
   */
  lemma RowsRuleExactly(lex: Lexicon, rows: seq<Row>, k: nat)
    requires k < |rows| && Fold(lex, rows[..k + 1]).Success?
    ensures Fold(lex, rows[..k]).Success? && Fold(lex, rows[..k]).value.Ok()
    ensures RowRules(lex, rows, k, Fold(lex, rows[..k]).value, Fold(lex, rows[..k + 1]).value)
  {
    hide Step, RequestRules, AnswerRules, ObservationRules, OpensNext, LastAsked;
    assert rows[..k + 1][..k] == rows[..k];
    var d, row := Fold(lex, rows[..k]).value, rows[k];
    FoldAdvances(lex, rows[..k], k);
    if MainRequest(row) {
      if d.active.Some? {
        StepOnRequest(lex, d, row);
      } else {
        StepOnFreshRequest(lex, d, row);
      }
    } else if MainRow(row, HumanAnswer) {
      QuestionsAreLastAsked(lex, rows[..k]);
      StepOnAnswer(lex, d, row);
    } else {
      StepOnOther(lex, d, row);
    }
  }

  /** Row `k` is a main-thread request that closed episode `i` in the state `how`. */
  ghost predicate ClosedBy(lex: Lexicon, rows: seq<Row>, k: nat, i: nat, how: Lifecycle) {
    && k < |rows| && MainRequest(rows[k])
    && Fold(lex, rows[..k]).Success?
    && var d := Fold(lex, rows[..k]).value;
       && d.active == Some(i) && i < |d.episodes|
       && LifecycleUnder(RulingOn(lex, d.episodes[i], lex.strip(rows[k].text))) == how
  }

  /** Every closed episode was closed by a main-thread request that ruled so while it was active. */
  lemma {:induction false} ClosedByARuling(lex: Lexicon, rows: seq<Row>, i: nat)
    requires Fold(lex, rows).Success? && i < |Fold(lex, rows).value.episodes|
    requires !Fold(lex, rows).value.episodes[i].lifecycle.Active?
    ensures exists k: nat :: ClosedBy(lex, rows, k, i, Fold(lex, rows).value.episodes[i].lifecycle)
    decreases |rows|
  {
    hide Step, RulingOn, OpenedOn, RulingNotes, AuthorityUnder, Answered, Tailed, Observing;
    var n := |rows| - 1;
    assert rows[..n + 1] == rows;
    RowsRuleExactly(lex, rows, n);
    FoldAdvances(lex, rows, n);
    var d, how := Fold(lex, rows[..n]).value, Fold(lex, rows).value.episodes[i].lifecycle;
    if i < |d.episodes| && d.episodes[i].lifecycle == how {
      ClosedByARuling(lex, rows[..n], i);
      var k: nat :| ClosedBy(lex, rows[..n], k, i, how);
      assert rows[..n][..k] == rows[..k];
      assert ClosedBy(lex, rows, k, i, how);
    } else {
      FoldAdvances(lex, rows[..n], n);
      assert ClosedBy(lex, rows, n, i, how);
    }
  }

  // ---------------------------------------------------------------------
  // The end of the session
  // ---------------------------------------------------------------------

  /** What a session that was cut short notes in every episode. */
  function CutNotes(summary: Option<Summary>, digits: nat -> string): seq<Assertion> {
    match summary
    case None => []
    case Some(Summary(omitted, truncated)) =>
      (if omitted > 0 then [Assertion(OmittedInteractions, Some(digits(omitted)), Uncertain, None, None, None)] else [])
      + (if truncated > 0 then
           [Assertion(TruncatedInteractions, Some(digits(truncated)), Uncertain, None, None, None)] else [])
  }

  ghost predicate Replied(e: Episode) {
    exists i :: 0 <= i < |e.assertions| && e.assertions[i].kind == TerminalReply
  }

  /**
    What the whole session derives is what its rows folded to: in a session
    that was cut short the context is not known, and an episode whose reply
    was never seen to end says so.
   */
  lemma DerivedIsFolded(lex: Lexicon, rows: seq<Row>, summary: Option<Summary>, digits: nat -> string, i: nat)
    requires Derive(lex, rows, summary, digits).Success? && i < |Fold(lex, rows).value.episodes|
    ensures |Derive(lex, rows, summary, digits).value| == |Fold(lex, rows).value.episodes|
    ensures var e, cut := Fold(lex, rows).value.episodes[i], CutNotes(summary, digits);
            Derive(lex, rows, summary, digits).value[i]
            == e.(contextKnown := e.contextKnown && cut == [],
                  assertions := e.assertions + cut
                                + (if Replied(e) then []
                                   else [Assertion(Terminality, None, Uncertain, None, None, None)]))
  {
    hide Fold;
    var e, cut := Fold(lex, rows).value.episodes[i], CutNotes(summary, digits);
    DiscountedTold(e, summary, digits);
    var e1 := Discounted(e, summary, digits);
    assert HasTerminalReply(e1) <==> Replied(e) by {
      if HasTerminalReply(e1) {
        var k :| 0 <= k < |e1.assertions| && e1.assertions[k].kind.TerminalReply?;
        assert k < |e.assertions| && e.assertions[k] == e1.assertions[k];
      }
      if Replied(e) {
        var k :| 0 <= k < |e.assertions| && e.assertions[k].kind == TerminalReply;
        assert e1.assertions[k] == e.assertions[k];
      }
    }
    assert e.assertions + cut + [] == e.assertions + cut;
  }

  lemma DiscountedTold(e: Episode, summary: Option<Summary>, digits: nat -> string)
    ensures var cut := CutNotes(summary, digits);
            Discounted(e, summary, digits)
            == e.(contextKnown := e.contextKnown && cut == [], assertions := e.assertions + cut)
  {
    assert e.assertions + [] == e.assertions;
    if summary.Some? {
      assert Discounted(e, summary, digits).assertions == e.assertions + CutNotes(summary, digits);
    }
  }
}
