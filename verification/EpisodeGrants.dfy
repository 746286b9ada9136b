/**
  Where grants come from: every known authorization or explicit approval an
  episode records was given, for exactly that action, by a main-thread human
  row (an assent counts for the action its question named).
 */
module EpisodeGrants {
  import opened Prelude
  import opened Interactions
  import opened Episodes

  predicate IsGrant(a: Assertion) {
    (a.kind.Authorization? || a.kind.ExplicitApproval?) && a.strength.Known?
  }

  /** The request text `t` asks for action part `value` outright. */
  predicate Requests(lex: Lexicon, t: string, value: Option<string>) {
    var keys := lex.actionKeys(lex.approval(t).GetOr(t));
    keys != [] && value.Some? && value.value in SplitKeys(Join(keys))
  }

  /** The request text `t` approves `value`, by action key or in its own words. */
  predicate Approves(lex: Lexicon, t: string, value: Option<string>) {
    var scope := lex.approval(t);
    scope.Some? && value.Some? && (lex.actionKey(scope.value) == value || value == Some(Cut(scope.value)))
  }

  predicate TextGrants(lex: Lexicon, t: string, value: Option<string>) {
    Requests(lex, t, value) || Approves(lex, t, value)
  }

  /** A main-thread request, read as it stands or as the replacement it announces. */
  predicate RequestGrants(lex: Lexicon, row: Row, value: Option<string>) {
    var text := lex.strip(row.text);
    && !row.sidechain && row.origin.HumanRequest?
    && (TextGrants(lex, text, value)
        || (lex.replacement(text).Some? && TextGrants(lex, lex.strip(lex.replacement(text).value), value)))
  }

  /** `text` is the row's text or the replacement it announces. */
  ghost predicate ReadsAs(lex: Lexicon, row: Row, text: string) {
    var own := lex.strip(row.text);
    text == own || (lex.replacement(own).Some? && text == lex.strip(lex.replacement(own).value))
  }

  function ActionAsked(lex: Lexicon, row: Row): Option<string> {
    var scope := lex.questionAction(lex.strip(row.text));
    if scope.Some? then lex.actionKey(scope.value) else None
  }

  /** Row `i` is a main-thread question with ordinal `q` about `action`. */
  predicate IsQuestion(lex: Lexicon, rows: seq<Row>, i: nat, q: nat, action: Option<string>) {
    && i < |rows| && !rows[i].sidechain && rows[i].origin.Question?
    && rows[i].ordinal == q && ActionAsked(lex, rows[i]) == action
  }

  ghost predicate WasAsked(lex: Lexicon, rows: seq<Row>, q: nat, action: Option<string>) {
    exists i: nat :: IsQuestion(lex, rows, i, q, action)
  }

  /** A main-thread human assent to the question that named `value`. */
  ghost predicate AnswerGrants(lex: Lexicon, rows: seq<Row>, row: Row, value: Option<string>) {
    && !row.sidechain && row.origin.HumanAnswer?
    && lex.normalized(lex.strip(row.text)) in ASSENTS
    && row.questionOrdinal.Some? && value.Some?
    && WasAsked(lex, rows, row.questionOrdinal.value, value)
  }

  ghost predicate RowGrants(lex: Lexicon, rows: seq<Row>, i: nat, a: Assertion) {
    && i < |rows| && a.ordinal == Some(rows[i].ordinal)
    && (RequestGrants(lex, rows[i], a.value) || AnswerGrants(lex, rows, rows[i], a.value))
  }

  ghost predicate Sourced(lex: Lexicon, rows: seq<Row>, a: Assertion) {
    exists i: nat :: RowGrants(lex, rows, i, a)
  }

  ghost predicate GrantsSourced(lex: Lexicon, rows: seq<Row>, e: Episode) {
    forall k :: 0 <= k < |e.assertions| && IsGrant(e.assertions[k]) ==> Sourced(lex, rows, e.assertions[k])
  }

  ghost predicate AllSourced(lex: Lexicon, rows: seq<Row>, d: Derivation) {
    && d.Ok()
    && (forall i :: 0 <= i < |d.episodes| ==> GrantsSourced(lex, rows, d.episodes[i]))
    && (forall q :: q in d.questions ==> WasAsked(lex, rows, q, d.questions[q].action))
  }

  // --- more rows only add sources ----------------------------------------

  lemma WasAskedMore(lex: Lexicon, rows: seq<Row>, row: Row, q: nat, action: Option<string>)
    requires WasAsked(lex, rows, q, action)
    ensures WasAsked(lex, rows + [row], q, action)
  {
    var i: nat :| IsQuestion(lex, rows, i, q, action);
    assert IsQuestion(lex, rows + [row], i, q, action);
  }

  lemma SourcedMore(lex: Lexicon, rows: seq<Row>, row: Row, a: Assertion)
    requires Sourced(lex, rows, a)
    ensures Sourced(lex, rows + [row], a)
  {
    var i: nat :| RowGrants(lex, rows, i, a);
    if AnswerGrants(lex, rows, rows[i], a.value) {
      WasAskedMore(lex, rows, row, rows[i].questionOrdinal.value, a.value);
    }
    assert RowGrants(lex, rows + [row], i, a);
  }

  lemma AllSourcedMore(lex: Lexicon, rows: seq<Row>, row: Row, d: Derivation)
    requires AllSourced(lex, rows, d)
    ensures AllSourced(lex, rows + [row], d)
  {
    forall i | 0 <= i < |d.episodes| ensures GrantsSourced(lex, rows + [row], d.episodes[i]) {
      var e := d.episodes[i];
      forall k | 0 <= k < |e.assertions| && IsGrant(e.assertions[k])
        ensures Sourced(lex, rows + [row], e.assertions[k]) {
        SourcedMore(lex, rows, row, e.assertions[k]);
      }
    }
    forall q | q in d.questions ensures WasAsked(lex, rows + [row], q, d.questions[q].action) {
      WasAskedMore(lex, rows, row, q, d.questions[q].action);
    }
  }

  // --- each addition -----------------------------------------------------

  /** `f` is `e` with assertions appended, every grant among them sourced. */
  ghost predicate AddsSourced(lex: Lexicon, rows: seq<Row>, e: Episode, f: Episode) {
    GrantsSourced(lex, rows, e) ==> GrantsSourced(lex, rows, f)
  }

  lemma AddNonGrant(lex: Lexicon, rows: seq<Row>, e: Episode, kind: Kind, value: Option<string>, strength: Strength,
                    row: Row, related: Option<nat>)
    requires !((kind.Authorization? || kind.ExplicitApproval?) && strength.Known?)
    ensures AddsSourced(lex, rows, e, e.Add(kind, value, strength, row, related := related))
  {}

  lemma AddGrant(lex: Lexicon, rows: seq<Row>, i: nat, e: Episode, kind: Kind, value: Option<string>,
                 strength: Strength,
                 related: Option<nat>)
    requires i < |rows|
    requires RequestGrants(lex, rows[i], value) || AnswerGrants(lex, rows, rows[i], value)
    ensures AddsSourced(lex, rows, e, e.Add(kind, value, strength, rows[i], related := related))
  {
    var f := e.Add(kind, value, strength, rows[i], related := related);
    var a := f.assertions[|e.assertions|];
    assert RowGrants(lex, rows, i, a);
    if GrantsSourced(lex, rows, e) {
      forall k | 0 <= k < |f.assertions| && IsGrant(f.assertions[k]) ensures Sourced(lex, rows, f.assertions[k]) {
        assert k < |e.assertions| ==> f.assertions[k] == e.assertions[k];
      }
    }
  }

  lemma {:induction false} AddActionsSourced(lex: Lexicon, rows: seq<Row>, i: nat, e: Episode, pending: seq<string>)
    requires i < |rows|
    requires forall k :: 0 <= k < |pending| ==> RequestGrants(lex, rows[i], Some(pending[k]))
    ensures AddsSourced(lex, rows, e, AddActions(e, pending, rows[i]))
    decreases |pending|
  {
    if pending != [] {
      var e1 := e.Add(PendingAction, Some(pending[0]), Known, rows[i]);
      AddNonGrant(lex, rows, e, PendingAction, Some(pending[0]), Known, rows[i], None);
      AddGrant(lex, rows, i, e1, Authorization, Some(pending[0]), Known, None);
      AddActionsSourced(lex, rows, i, e1.Add(Authorization, Some(pending[0]), Known, rows[i]), pending[1..]);
    }
  }

  /** A new episode's own authorizations are the request's own keys. */
  lemma NewEpisodeSourced(lex: Lexicon, rows: seq<Row>, i: nat, text: string, objective: string, action: Option<string>,
                          authority: Authority, advice: bool)
    requires i < |rows|
    requires !rows[i].sidechain && rows[i].origin.HumanRequest? && ReadsAs(lex, rows[i], text)
    requires var keys := lex.actionKeys(lex.approval(text).GetOr(text));
             action == if keys == [] then None else Some(Join(keys))
    ensures GrantsSourced(lex, rows, NewEpisode(rows[i], objective, action, authority, advice))
  {
    var row := rows[i];
    var e := Episode(row.ordinal, row.ordinal, row.threadId, objective, action, authority, true, false, Active,
                     advice, [])
               .Add(Objective, Some(objective), Known, row)
               .Add(HistoricalPolicy, None, Uncertain, row);
    assert GrantsSourced(lex, rows, e);
    if advice {
      AddNonGrant(lex, rows, e, AdviceOnly, None, Known, row, None);
    } else if action.None? {
      AddNonGrant(lex, rows, e.(contextKnown := false), ActionScope, None, Uncertain, row, None);
    } else {
      var pending := SplitKeys(action.value);
      forall k | 0 <= k < |pending| ensures RequestGrants(lex, row, Some(pending[k])) {
        assert Requests(lex, text, Some(pending[k]));
      }
      AddActionsSourced(lex, rows, i, e, pending);
    }
  }

  // --- the branches ------------------------------------------------------

  lemma UpdateSourced(lex: Lexicon, rows: seq<Row>, d: Derivation, f: Episode)
    requires AllSourced(lex, rows, d) && d.active.Some? && AddsSourced(lex, rows, d.Current(), f)
    ensures AllSourced(lex, rows, d.Update(f))
    ensures AllSourced(lex, rows, d.Close(f))
  {
    var t := d.Update(f);
    assert GrantsSourced(lex, rows, d.Current());
    forall i | 0 <= i < |t.episodes| ensures GrantsSourced(lex, rows, t.episodes[i]) {
      assert i != d.active.value ==> t.episodes[i] == d.episodes[i];
    }
    assert d.Close(f).episodes == t.episodes;
  }

  lemma HeldSourced(lex: Lexicon, rows: seq<Row>, e: Episode, text: string, row: Row)
    ensures AddsSourced(lex, rows, e, Restricted(lex, e, text, row))
    ensures AddsSourced(lex, rows, e, HeldBy(lex, e, text, row))
    ensures AddsSourced(lex, rows, e, WaitingOn(lex, e, text, row))
  {}

  lemma RestrainedSourced(lex: Lexicon, rows: seq<Row>, e: Episode, text: string, row: Row)
    ensures AddsSourced(lex, rows, e, Restrained(lex, e, text, row))
  {
    var e1 := Restricted(lex, e, text, row);
    HeldSourced(lex, rows, e, text, row);
    HeldSourced(lex, rows, e1, text, row);
    HeldSourced(lex, rows, HeldBy(lex, e1, text, row), text, row);
  }

  lemma HumanTailSourced(lex: Lexicon, rows: seq<Row>, e: Episode, text: string, row: Row)
    ensures AddsSourced(lex, rows, e, HumanTail(lex, e, text, row))
  {
    RestrainedSourced(lex, rows, e, text, row);
  }

  lemma TailSourced(lex: Lexicon, rows: seq<Row>, d: Derivation, text: string, row: Row)
    requires AllSourced(lex, rows, d)
    ensures AllSourced(lex, rows, Tail(lex, d, text, row))
  {
    if d.active.Some? {
      var e := d.Current();
      HumanTailSourced(lex, rows, e, text, row);
      var e1 := if row.origin.HumanRequest? || row.origin.HumanAnswer? then HumanTail(lex, e, text, row) else e;
      var e2 := if row.truncated then e1.(contextKnown := false).Add(MaterialTruncation, None, Uncertain, row) else e1;
      AddNonGrant(lex, rows, e1.(contextKnown := false), MaterialTruncation, None, Uncertain, row, None);
      assert AddsSourced(lex, rows, e, e2);
      UpdateSourced(lex, rows, d, e2);
    }
  }

  lemma OpenedBySourced(lex: Lexicon, rows: seq<Row>, i: nat, text: string)
    requires i < |rows| && !rows[i].sidechain && rows[i].origin.HumanRequest? && ReadsAs(lex, rows[i], text)
    ensures GrantsSourced(lex, rows, OpenedBy(lex, text, rows[i]))
  {
    var approval := lex.approval(text);
    var candidate := approval.GetOr(text);
    var keys := lex.actionKeys(candidate);
    var action := if keys == [] then None else Some(Join(keys));
    var advice := lex.advice(text) && approval.None?;
    var granted := action.Some? && action.value != "";
    var authority := if granted && !advice then Authorized else AuthorityUnknown;
    NewEpisodeSourced(lex, rows, i, text, Cut(text), action, authority, advice);
    if approval.Some? {
      assert Approves(lex, text, Some(Cut(candidate)));
      AddGrant(lex, rows, i, NewEpisode(rows[i], Cut(text), action, authority, advice), ExplicitApproval,
               Some(Cut(candidate)),
               if granted then Known else Uncertain, None);
    }
  }

  lemma OpenSourced(lex: Lexicon, rows: seq<Row>, i: nat, d: Derivation, text: string)
    requires i < |rows| && AllSourced(lex, rows, d)
    requires !rows[i].sidechain && rows[i].origin.HumanRequest? && ReadsAs(lex, rows[i], text)
    ensures AllSourced(lex, rows, OpenEpisode(lex, d, text, rows[i]))
  {
    var row := rows[i];
    if d.active.Some? {
      AddNonGrant(lex, rows, Touched(d.Current(), row).(lifecycle := Superseded), NewRequestBoundary, Some(text),
                  Known, row, None);
      UpdateSourced(lex, rows, d, BoundaryAt(d.Current(), text, row));
    }
    OpenedBySourced(lex, rows, i, text);
    var closed := if d.active.Some? then d.Update(BoundaryAt(d.Current(), text, row)) else d;
    var t := OpenEpisode(lex, d, text, row);
    forall k | 0 <= k < |t.episodes| ensures GrantsSourced(lex, rows, t.episodes[k]) {
      assert k < |closed.episodes| ==> t.episodes[k] == closed.episodes[k];
    }
  }

  lemma ApprovedSourced(lex: Lexicon, rows: seq<Row>, i: nat, e: Episode, action: string, related: Option<nat>)
    requires i < |rows|
    requires RequestGrants(lex, rows[i], Some(action)) || AnswerGrants(lex, rows, rows[i], Some(action))
    ensures AddsSourced(lex, rows, e, ApprovedAs(e, action, rows[i], related := related))
  {
    AddGrant(lex, rows, i, e, ExplicitApproval, Some(action), Known, related);
    AddGrant(lex, rows, i, e.(authority := Authorized), ExplicitApproval, Some(action), Known, related);
  }

  lemma RequestTailSourced(lex: Lexicon, rows: seq<Row>, i: nat, d: Derivation, text: string)
    requires i < |rows| && AllSourced(lex, rows, d)
    requires !rows[i].sidechain && rows[i].origin.HumanRequest? && ReadsAs(lex, rows[i], text)
    ensures AllSourced(lex, rows, RequestTail(lex, d, text, rows[i]).d)
  {
    var row := rows[i];
    OpenSourced(lex, rows, i, d, text);
    if d.active.Some? {
      var e := d.Current();
      UpdateSourced(lex, rows, d, Resumed(e, text, row));
      UpdateSourced(lex, rows, d, Continued(e, text, row));
      if InPending(ApprovedAction(lex, text), e) {
        var action := ApprovedAction(lex, text).value;
        assert Approves(lex, text, Some(action));
        ApprovedSourced(lex, rows, i, Touched(e, row), action, None);
        UpdateSourced(lex, rows, d, ApprovedAs(Touched(e, row), action, row));
      }
    }
  }

  lemma ClosingSourced(lex: Lexicon, rows: seq<Row>, d: Derivation, text: string, row: Row)
    requires AllSourced(lex, rows, d) && d.active.Some?
    ensures AllSourced(lex, rows, d.Update(StatusAsked(d.Current(), text, row)))
    ensures AllSourced(lex, rows, d.Close(CancelledBy(d.Current(), text, row)))
    ensures AllSourced(lex, rows, d.Close(CompletedBy(d.Current(), text, row)))
    ensures AllSourced(lex, rows, d.Close(ReplacedBy(d.Current(), text, row)))
  {
    var e := d.Current();
    UpdateSourced(lex, rows, d, StatusAsked(e, text, row));
    UpdateSourced(lex, rows, d, CancelledBy(e, text, row));
    UpdateSourced(lex, rows, d, CompletedBy(e, text, row));
    UpdateSourced(lex, rows, d, ReplacedBy(e, text, row));
  }

  lemma MiddleSourced(lex: Lexicon, rows: seq<Row>, i: nat, d: Derivation)
    requires i < |rows| && AllSourced(lex, rows, d)
    requires !rows[i].sidechain && rows[i].origin.HumanRequest?
    requires d.active.Some? ==> Readable(d.Current().Pending())
    ensures AllSourced(lex, rows, RequestMiddle(lex, d, lex.strip(rows[i].text), rows[i]).d)
  {
    hide RequestTail, StatusAsked, CancelledBy, CompletedBy, ReplacedBy;
    var row := rows[i];
    var text := lex.strip(row.text);
    RequestTailSourced(lex, rows, i, d, text);
    if d.active.Some? {
      ClosingSourced(lex, rows, d, text, row);
      if lex.replacement(text).Some? {
        RequestTailSourced(lex, rows, i, d.Close(ReplacedBy(d.Current(), text, row)),
                           lex.strip(lex.replacement(text).value));
      }
    }
  }

  lemma RequestedSourced(lex: Lexicon, rows: seq<Row>, i: nat, d: Derivation)
    requires i < |rows| && AllSourced(lex, rows, d)
    requires !rows[i].sidechain && rows[i].origin.HumanRequest? && !HumanRequested(lex, d, rows[i]).Raises?
    ensures AllSourced(lex, rows, HumanRequested(lex, d, rows[i]).d)
  {
    var row := rows[i];
    var text := lex.strip(row.text);
    if d.active.Some? {
      var e := d.Current();
      if lex.effective(text).Some? {
        UpdateSourced(lex, rows, d, Instructed(e, lex.effective(text).value, row));
      }
      if lex.decision(text).Some? {
        UpdateSourced(lex, rows, d, Decided(e, lex.decision(text).value, row));
      }
      RestrainedSourced(lex, rows, Touched(e, row), text, row);
      UpdateSourced(lex, rows, d, Restrained(lex, Touched(e, row), text, row));
    }
    if d.active.None? || Readable(d.Current().Pending()) {
      MiddleSourced(lex, rows, i, d);
    }
  }

  lemma AnswerSourced(lex: Lexicon, rows: seq<Row>, i: nat, e: Episode, action: Option<string>)
    requires i < |rows| && !rows[i].sidechain && rows[i].origin.HumanAnswer?
    requires rows[i].questionOrdinal.Some? && WasAsked(lex, rows, rows[i].questionOrdinal.value, action)
    ensures AddsSourced(lex, rows, e, AnswerTo(lex, e, action, lex.strip(rows[i].text), rows[i]))
  {
    var row := rows[i];
    var text := lex.strip(row.text);
    var e1 := Heard(e, text, row);
    var e2 := Assented(lex, e1, action, text, row);
    AddNonGrant(lex, rows, e.(end := Max(e.end, row.ordinal)), QuestionAnswer, TextOrNone(text), Known, row,
                row.questionOrdinal);
    AddNonGrant(lex, rows, e1, ApprovalScope, action, Uncertain, row, row.questionOrdinal);
    if lex.normalized(text) in ASSENTS && action.Some? {
      ApprovedSourced(lex, rows, i, e1, action.value, row.questionOrdinal);
    }
    AddNonGrant(lex, rows, e2.(authority := Withheld), ApprovalWithheld, Some(text), Known, row, row.questionOrdinal);
  }

  lemma AnsweredSourced(lex: Lexicon, rows: seq<Row>, i: nat, d: Derivation)
    requires i < |rows| && AllSourced(lex, rows, d) && !rows[i].sidechain && rows[i].origin.HumanAnswer?
    ensures AllSourced(lex, rows, HumanAnswered(lex, d, lex.strip(rows[i].text), rows[i]))
  {
    var row := rows[i];
    var text := lex.strip(row.text);
    var t := HumanAnswered(lex, d, text, row);
    if row.questionOrdinal.Some? && row.questionOrdinal.value in d.questions {
      var asked := d.questions[row.questionOrdinal.value];
      AnswerSourced(lex, rows, i, d.episodes[asked.episode], asked.action);
      forall k | 0 <= k < |t.episodes| ensures GrantsSourced(lex, rows, t.episodes[k]) {
        assert k != asked.episode ==> t.episodes[k] == d.episodes[k];
      }
    } else if d.active.Some? {
      AddNonGrant(lex, rows, d.Current(), UnmatchedAnswer, TextOrNone(text), Uncertain, row, row.questionOrdinal);
      UpdateSourced(lex, rows, d, d.Current().Add(UnmatchedAnswer, TextOrNone(text), Uncertain, row,
                                                  related := row.questionOrdinal)
                                   .(contextKnown := false));
    }
  }

  lemma QuestionSourced(lex: Lexicon, rows: seq<Row>, i: nat, d: Derivation)
    requires i < |rows| && AllSourced(lex, rows, d) && d.active.Some?
    requires !rows[i].sidechain && rows[i].origin.Question?
    ensures AllSourced(lex, rows, QuestionAsked(lex, d, lex.strip(rows[i].text), rows[i]))
  {
    var row := rows[i];
    var text := lex.strip(row.text);
    UpdateSourced(lex, rows, d, Touched(d.Current(), row).Add(OutstandingQuestion, TextOrNone(text), Known, row));
    assert IsQuestion(lex, rows, i, row.ordinal, ActionAsked(lex, row));
  }

  lemma ObservedSourced(lex: Lexicon, rows: seq<Row>, e: Episode, text: string, row: Row)
    ensures AddsSourced(lex, rows, e, Observed(lex, e, text, row))
  {
    var e0 := Touched(e, row);
    if row.origin.AssistantText? {
      var e1 := if row.terminal.NotFinal? then e0
                else e0.Add(TerminalReply, TextOrNone(text), if row.terminal.Completed? then Known else Uncertain, row);
      assert AddsSourced(lex, rows, e, e1);
      AddNonGrant(lex, rows, e1, AssistantWaitClaim, TextOrNone(text), Inferred, row, None);
    }
  }

  /** One more row: what it grants, it is the source of. */
  lemma StepSourced(lex: Lexicon, rows: seq<Row>, d: Derivation, row: Row)
    requires AllSourced(lex, rows, d) && Step(lex, d, row).Success?
    ensures AllSourced(lex, rows + [row], Step(lex, d, row).value)
  {
    var all, i := rows + [row], |rows|;
    assert all[i] == row;
    var text := lex.strip(row.text);
    AllSourcedMore(lex, rows, row, d);
    if row.sidechain || row.origin.Harness? || row.origin.QuotedHistory? {
      if d.active.Some? {
        UpdateSourced(lex, all, d, Handoff(d.Current(), text, row));
        UpdateSourced(lex, all, d, QuotedHeld(d.Current(), text, row));
      }
    } else if row.origin.HumanRequest? {
      var f := HumanRequested(lex, d, row);
      RequestedSourced(lex, all, i, d);
      if f.FallThrough? {
        TailSourced(lex, all, f.d, f.text, row);
      }
    } else if row.origin.HumanAnswer? {
      AnsweredSourced(lex, all, i, d);
      TailSourced(lex, all, HumanAnswered(lex, d, text, row), text, row);
    } else if d.active.Some? && row.origin.Question? {
      QuestionSourced(lex, all, i, d);
      TailSourced(lex, all, QuestionAsked(lex, d, text, row), text, row);
    } else if d.active.Some? {
      ObservedSourced(lex, all, d.Current(), text, row);
      UpdateSourced(lex, all, d, Observed(lex, d.Current(), text, row));
      TailSourced(lex, all, d.Update(Observed(lex, d.Current(), text, row)), text, row);
    }
  }

  lemma {:induction false} FoldSourced(lex: Lexicon, rows: seq<Row>)
    requires Fold(lex, rows).Success?
    ensures AllSourced(lex, rows, Fold(lex, rows).value)
    decreases |rows|
  {
    if rows != [] {
      var n := |rows| - 1;
      FoldSourced(lex, rows[..n]);
      StepSourced(lex, rows[..n], Fold(lex, rows[..n]).value, rows[n]);
      assert rows == rows[..n] + [rows[n]];
    }
  }

  /** In every derived episode each recorded grant has its human source. */
  lemma EveryGrantHasAHumanSource(lex: Lexicon, rows: seq<Row>, summary: Option<Summary>, digits: nat -> string)
    requires Derive(lex, rows, summary, digits).Success?
    ensures var episodes := Derive(lex, rows, summary, digits).value;
            forall i :: 0 <= i < |episodes| ==> GrantsSourced(lex, rows, episodes[i])
  {
    FoldSourced(lex, rows);
    var d := Fold(lex, rows).value;
    forall i | 0 <= i < |d.episodes| ensures GrantsSourced(lex, rows, Finished(d.episodes[i], summary, digits)) {
      FinishAddsNoGrant(lex, rows, d.episodes[i], summary, digits);
    }
  }

  lemma NotedSourced(lex: Lexicon, rows: seq<Row>, e: Episode, kind: Kind, value: Option<string>)
    ensures AddsSourced(lex, rows, e, Noted(e, kind, value))
  {}

  lemma FinishAddsNoGrant(lex: Lexicon, rows: seq<Row>, e: Episode, summary: Option<Summary>, digits: nat -> string)
    ensures AddsSourced(lex, rows, e, Finished(e, summary, digits))
  {
    if summary.Some? {
      var e1 := e.(contextKnown := false);
      NotedSourced(lex, rows, e1, OmittedInteractions, Some(digits(summary.value.omitted)));
      NotedSourced(lex, rows, e1, TruncatedInteractions, Some(digits(summary.value.truncatedFields)));
      NotedSourced(lex, rows, Noted(e1, OmittedInteractions, Some(digits(summary.value.omitted))),
                   TruncatedInteractions, Some(digits(summary.value.truncatedFields)));
    }
    NotedSourced(lex, rows, Discounted(e, summary, digits), Terminality, None);
  }
}
