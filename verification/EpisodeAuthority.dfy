/**
  Who can move an episode's authority: only main-thread human rows and the
  questions they answer. Two sessions that agree on those rows derive the
  same episodes in everything but `end`, context and assertions.
 */
module EpisodeAuthority {
  import opened Prelude
  import opened Interactions
  import opened Episodes

  /** What other rows must not influence. */
  datatype Core = Core(
    start: nat,
    threadId: Option<string>,
    objective: string,
    action: Option<string>,
    authority: Authority,
    policyCaptured: bool,
    lifecycle: Lifecycle,
    adviceOnly: bool)

  function CoreOf(e: Episode): Core {
    Core(e.start, e.threadId, e.objective, e.action, e.authority, e.policyCaptured, e.lifecycle, e.adviceOnly)
  }

  predicate MayMoveAuthority(row: Row) {
    !row.sidechain && (row.origin.HumanRequest? || row.origin.HumanAnswer? || row.origin.Question?)
  }

  function OnlyMoving(rows: seq<Row>): seq<Row> {
    if rows == [] then []
    else
      OnlyMoving(rows[..|rows| - 1]) + (if MayMoveAuthority(rows[|rows| - 1]) then [rows[|rows| - 1]] else [])
  }

  ghost predicate SameCores(d: Derivation, t: Derivation) {
    && |d.episodes| == |t.episodes|
    && d.active == t.active
    && d.questions == t.questions
    && forall i :: 0 <= i < |d.episodes| ==> CoreOf(d.episodes[i]) == CoreOf(t.episodes[i])
  }

  ghost predicate SameResults(r: Result<Derivation, DeriveError>, q: Result<Derivation, DeriveError>) {
    (r.Failure? && q.Failure?) || (r.Success? && q.Success? && SameCores(r.value, q.value))
  }

  lemma UpdateSame(d: Derivation, t: Derivation, e: Episode, f: Episode)
    requires d.Ok() && t.Ok() && SameCores(d, t) && d.active.Some? && CoreOf(e) == CoreOf(f)
    ensures SameCores(d.Update(e), t.Update(f))
    ensures SameCores(d.Close(e), t.Close(f))
  {}

  lemma SamePending(e: Episode, f: Episode)
    requires CoreOf(e) == CoreOf(f)
    ensures e.Pending() == f.Pending()
  {}

  lemma HeldSame(lex: Lexicon, e: Episode, f: Episode, text: string, row: Row)
    requires CoreOf(e) == CoreOf(f)
    ensures CoreOf(Restricted(lex, e, text, row)) == CoreOf(e)
    ensures CoreOf(HeldBy(lex, e, text, row)) == CoreOf(HeldBy(lex, f, text, row))
    ensures CoreOf(WaitingOn(lex, e, text, row)) == CoreOf(e)
  {}

  lemma RestrainedSame(lex: Lexicon, e: Episode, f: Episode, text: string, row: Row)
    requires CoreOf(e) == CoreOf(f)
    ensures CoreOf(Restrained(lex, e, text, row)) == CoreOf(Restrained(lex, f, text, row))
  {
    var e1, f1 := Restricted(lex, e, text, row), Restricted(lex, f, text, row);
    HeldSame(lex, e, e, text, row);
    HeldSame(lex, f, f, text, row);
    HeldSame(lex, e1, f1, text, row);
    HeldSame(lex, HeldBy(lex, e1, text, row), HeldBy(lex, e1, text, row), text, row);
    HeldSame(lex, HeldBy(lex, f1, text, row), HeldBy(lex, f1, text, row), text, row);
  }

  lemma HumanTailSame(lex: Lexicon, e: Episode, f: Episode, text: string, row: Row)
    requires CoreOf(e) == CoreOf(f)
    ensures CoreOf(HumanTail(lex, e, text, row)) == CoreOf(HumanTail(lex, f, text, row))
  {
    RestrainedSame(lex, e, f, text, row);
  }

  lemma TailSame(lex: Lexicon, d: Derivation, t: Derivation, text: string, row: Row)
    requires d.Ok() && t.Ok() && SameCores(d, t)
    ensures SameCores(Tail(lex, d, text, row), Tail(lex, t, text, row))
  {
    if d.active.Some? {
      HumanTailSame(lex, d.Current(), t.Current(), text, row);
      var e1 := if row.origin.HumanRequest? || row.origin.HumanAnswer?
                then HumanTail(lex, d.Current(), text, row) else d.Current();
      var f1 := if row.origin.HumanRequest? || row.origin.HumanAnswer?
                then HumanTail(lex, t.Current(), text, row) else t.Current();
      var e2 := if row.truncated then e1.(contextKnown := false).Add(MaterialTruncation, None, Uncertain, row) else e1;
      var f2 := if row.truncated then f1.(contextKnown := false).Add(MaterialTruncation, None, Uncertain, row) else f1;
      assert CoreOf(e2) == CoreOf(e1) && CoreOf(f2) == CoreOf(f1);
      UpdateSame(d, t, e2, f2);
    }
  }

  lemma ApprovedSame(e: Episode, f: Episode, action: string, row: Row, related: Option<nat>)
    requires CoreOf(e) == CoreOf(f)
    ensures CoreOf(ApprovedAs(e, action, row, related := related))
            == CoreOf(ApprovedAs(f, action, row, related := related))
  {}

  lemma AssentedSame(lex: Lexicon, e: Episode, f: Episode, action: Option<string>, text: string, row: Row)
    requires CoreOf(e) == CoreOf(f)
    ensures CoreOf(Assented(lex, e, action, text, row)) == CoreOf(Assented(lex, f, action, text, row))
  {
    SamePending(e, f);
    if action.Some? {
      ApprovedSame(e, f, action.value, row, row.questionOrdinal);
    }
  }

  lemma RefusedSame(lex: Lexicon, e: Episode, f: Episode, action: Option<string>, text: string, row: Row)
    requires CoreOf(e) == CoreOf(f)
    ensures CoreOf(Refused(lex, e, action, text, row)) == CoreOf(Refused(lex, f, action, text, row))
  {}

  lemma AnswerSame(lex: Lexicon, e: Episode, f: Episode, action: Option<string>, text: string, row: Row)
    requires CoreOf(e) == CoreOf(f)
    ensures CoreOf(AnswerTo(lex, e, action, text, row)) == CoreOf(AnswerTo(lex, f, action, text, row))
  {
    var e1, f1 := Heard(e, text, row), Heard(f, text, row);
    AssentedSame(lex, e1, f1, action, text, row);
    RefusedSame(lex, Assented(lex, e1, action, text, row), Assented(lex, f1, action, text, row), action, text, row);
  }

  lemma AnsweredSame(lex: Lexicon, d: Derivation, t: Derivation, text: string, row: Row)
    requires d.Ok() && t.Ok() && SameCores(d, t)
    ensures SameCores(HumanAnswered(lex, d, text, row), HumanAnswered(lex, t, text, row))
  {
    if row.questionOrdinal.Some? && row.questionOrdinal.value in d.questions {
      var asked := d.questions[row.questionOrdinal.value];
      AnswerSame(lex, d.episodes[asked.episode], t.episodes[asked.episode], asked.action, text, row);
    }
  }

  lemma OpenSame(lex: Lexicon, d: Derivation, t: Derivation, text: string, row: Row)
    requires d.Ok() && t.Ok() && SameCores(d, t)
    ensures SameCores(OpenEpisode(lex, d, text, row), OpenEpisode(lex, t, text, row))
  {
    if d.active.Some? {
      UpdateSame(d, t, BoundaryAt(d.Current(), text, row), BoundaryAt(t.Current(), text, row));
    }
  }

  ghost predicate SameFlows(f: Flow, g: Flow) {
    || (f.Raises? && g.Raises?)
    || (f.Continue? && g.Continue? && SameCores(f.d, g.d))
    || (f.FallThrough? && g.FallThrough? && SameCores(f.d, g.d) && f.text == g.text)
  }

  lemma RequestTailSame(lex: Lexicon, d: Derivation, t: Derivation, text: string, row: Row)
    requires d.Ok() && t.Ok() && SameCores(d, t)
    ensures SameFlows(RequestTail(lex, d, text, row), RequestTail(lex, t, text, row))
  {
    OpenSame(lex, d, t, text, row);
    if d.active.Some? {
      var e, f := d.Current(), t.Current();
      SamePending(e, f);
      UpdateSame(d, t, Resumed(e, text, row), Resumed(f, text, row));
      UpdateSame(d, t, Continued(e, text, row), Continued(f, text, row));
      if InPending(ApprovedAction(lex, text), e) {
        var action := ApprovedAction(lex, text).value;
        ApprovedSame(Touched(e, row), Touched(f, row), action, row, None);
        UpdateSame(d, t, ApprovedAs(Touched(e, row), action, row), ApprovedAs(Touched(f, row), action, row));
      }
    }
  }

  /** The branches that end the row before the late questions. */
  lemma EarlySame(lex: Lexicon, d: Derivation, t: Derivation, text: string, row: Row)
    requires d.Ok() && t.Ok() && SameCores(d, t) && d.active.Some?
    ensures var e, f := d.Current(), t.Current();
            && (lex.effective(text).Some? ==>
                  SameCores(d.Update(Instructed(e, lex.effective(text).value, row)),
                            t.Update(Instructed(f, lex.effective(text).value, row))))
            && (lex.decision(text).Some? ==>
                  SameCores(d.Update(Decided(e, lex.decision(text).value, row)),
                            t.Update(Decided(f, lex.decision(text).value, row))))
            && SameCores(d.Update(StatusAsked(e, text, row)), t.Update(StatusAsked(f, text, row)))
  {
    var e, f := d.Current(), t.Current();
    UpdateSame(d, t, StatusAsked(e, text, row), StatusAsked(f, text, row));
    if lex.effective(text).Some? {
      UpdateSame(d, t, Instructed(e, lex.effective(text).value, row), Instructed(f, lex.effective(text).value, row));
    }
    if lex.decision(text).Some? {
      UpdateSame(d, t, Decided(e, lex.decision(text).value, row), Decided(f, lex.decision(text).value, row));
    }
  }

  lemma RestrainSame(lex: Lexicon, d: Derivation, t: Derivation, text: string, row: Row)
    requires d.Ok() && t.Ok() && SameCores(d, t) && d.active.Some?
    ensures SameCores(d.Update(Restrained(lex, Touched(d.Current(), row), text, row)),
                      t.Update(Restrained(lex, Touched(t.Current(), row), text, row)))
  {
    RestrainedSame(lex, Touched(d.Current(), row), Touched(t.Current(), row), text, row);
    UpdateSame(d, t, Restrained(lex, Touched(d.Current(), row), text, row),
               Restrained(lex, Touched(t.Current(), row), text, row));
  }

  lemma ClosingSame(d: Derivation, t: Derivation, text: string, row: Row)
    requires d.Ok() && t.Ok() && SameCores(d, t) && d.active.Some?
    ensures SameCores(d.Close(CancelledBy(d.Current(), text, row)), t.Close(CancelledBy(t.Current(), text, row)))
    ensures SameCores(d.Close(CompletedBy(d.Current(), text, row)), t.Close(CompletedBy(t.Current(), text, row)))
    ensures SameCores(d.Close(ReplacedBy(d.Current(), text, row)), t.Close(ReplacedBy(t.Current(), text, row)))
  {
    UpdateSame(d, t, CancelledBy(d.Current(), text, row), CancelledBy(t.Current(), text, row));
    UpdateSame(d, t, CompletedBy(d.Current(), text, row), CompletedBy(t.Current(), text, row));
    UpdateSame(d, t, ReplacedBy(d.Current(), text, row), ReplacedBy(t.Current(), text, row));
  }

  lemma MiddleSame(lex: Lexicon, d: Derivation, t: Derivation, text: string, row: Row)
    requires d.Ok() && t.Ok() && SameCores(d, t) && (d.active.Some? ==> Readable(d.Current().Pending()))
    requires t.active.Some? ==> Readable(t.Current().Pending())
    ensures SameFlows(RequestMiddle(lex, d, text, row), RequestMiddle(lex, t, text, row))
  {
    hide RequestTail, StatusAsked, CancelledBy, CompletedBy, ReplacedBy, Restrained;
    RequestTailSame(lex, d, t, text, row);
    if d.active.Some? {
      SamePending(d.Current(), t.Current());
      EarlySame(lex, d, t, text, row);
      ClosingSame(d, t, text, row);
      if lex.replacement(text).Some? {
        RequestTailSame(lex, d.Close(ReplacedBy(d.Current(), text, row)), t.Close(ReplacedBy(t.Current(), text, row)),
                        lex.strip(lex.replacement(text).value), row);
      }
    }
  }

  lemma RequestedSame(lex: Lexicon, d: Derivation, t: Derivation, row: Row)
    requires d.Ok() && t.Ok() && SameCores(d, t)
    ensures SameFlows(HumanRequested(lex, d, row), HumanRequested(lex, t, row))
  {
    var text := lex.strip(row.text);
    if d.active.Some? {
      SamePending(d.Current(), t.Current());
      EarlySame(lex, d, t, text, row);
      RestrainSame(lex, d, t, text, row);
    }
    if d.active.None? || Readable(d.Current().Pending()) {
      MiddleSame(lex, d, t, text, row);
    }
  }

  /** The same row does the same to the core of two sessions that agree on it. */
  lemma StepSame(lex: Lexicon, d: Derivation, t: Derivation, row: Row)
    requires d.Ok() && t.Ok() && SameCores(d, t) && MayMoveAuthority(row)
    ensures SameResults(Step(lex, d, row), Step(lex, t, row))
  {
    var text := lex.strip(row.text);
    match row.origin
    case HumanRequest =>
      RequestedSame(lex, d, t, row);
      var f, g := HumanRequested(lex, d, row), HumanRequested(lex, t, row);
      if f.FallThrough? {
        TailSame(lex, f.d, g.d, f.text, row);
      }
    case HumanAnswer =>
      AnsweredSame(lex, d, t, text, row);
      TailSame(lex, HumanAnswered(lex, d, text, row), HumanAnswered(lex, t, text, row), text, row);
    case Question =>
      if d.active.Some? {
        TailSame(lex, QuestionAsked(lex, d, text, row), QuestionAsked(lex, t, text, row), text, row);
      }
  }

  /** Sidechain, harness, quoted, assistant and tool rows leave every core as it was. */
  lemma OtherRowsLeaveCores(lex: Lexicon, d: Derivation, row: Row)
    requires d.Ok() && !MayMoveAuthority(row)
    ensures var r := Step(lex, d, row); r.Success? && SameCores(d, r.value)
  {
    hide Handoff, QuotedHeld, Observed, CoreOf, HumanRequested, HumanAnswered, QuestionAsked, HumanTail;
    if d.active.Some? {
      AsidesKeepCore(lex, d.Current(), lex.strip(row.text), row);
      TailKeepsCore(Observed(lex, d.Current(), lex.strip(row.text), row), row);
    }
  }

  lemma AsidesKeepCore(lex: Lexicon, e: Episode, text: string, row: Row)
    ensures CoreOf(Handoff(e, text, row)) == CoreOf(QuotedHeld(e, text, row)) == CoreOf(e)
    ensures CoreOf(Observed(lex, e, text, row)) == CoreOf(e)
  {}

  lemma TailKeepsCore(e: Episode, row: Row)
    ensures CoreOf(e.(contextKnown := false).Add(MaterialTruncation, None, Uncertain, row)) == CoreOf(e)
  {}

  /** A session and its moving rows alone raise together or derive the same cores. */
  lemma {:induction false} FoldDependsOnMovingRows(lex: Lexicon, rows: seq<Row>)
    ensures SameResults(Fold(lex, rows), Fold(lex, OnlyMoving(rows)))
    decreases |rows|
  {
    if rows != [] {
      var n := |rows| - 1;
      FoldDependsOnMovingRows(lex, rows[..n]);
      var kept := OnlyMoving(rows[..n]);
      var d, t := Fold(lex, rows[..n]), Fold(lex, kept);
      if MayMoveAuthority(rows[n]) {
        assert (kept + [rows[n]])[..|kept|] == kept;
        if d.Success? {
          StepSame(lex, d.value, t.value, rows[n]);
        }
      } else {
        assert kept + [] == kept;
        if d.Success? {
          OtherRowsLeaveCores(lex, d.value, rows[n]);
        }
      }
    }
  }

  ghost predicate SameEpisodeCores(a: seq<Episode>, b: seq<Episode>) {
    |a| == |b| && forall i :: 0 <= i < |a| ==> CoreOf(a[i]) == CoreOf(b[i])
  }

  /**
    Non-interference: two sessions that agree on their main-thread human and
    question rows derive episodes with the same start, objective, action,
    authority, lifecycle, advice flag and historical policy, whatever their
    other rows and their omission summaries say.
   */
  lemma AuthorityNonInterference(lex: Lexicon, digits: nat -> string, rows: seq<Row>, summary: Option<Summary>,
                                 other: seq<Row>, otherSummary: Option<Summary>)
    requires OnlyMoving(rows) == OnlyMoving(other)
    ensures var a, b := Derive(lex, rows, summary, digits), Derive(lex, other, otherSummary, digits);
            (a.Failure? && b.Failure?) || (a.Success? && b.Success? && SameEpisodeCores(a.value, b.value))
  {
    FoldDependsOnMovingRows(lex, rows);
    FoldDependsOnMovingRows(lex, other);
    var a, b := Derive(lex, rows, summary, digits), Derive(lex, other, otherSummary, digits);
    if a.Success? {
      var d, t := Fold(lex, rows).value, Fold(lex, other).value;
      forall i | 0 <= i < |a.value| ensures CoreOf(a.value[i]) == CoreOf(b.value[i]) {
        FinishKeepsCore(d.episodes[i], summary, digits);
        FinishKeepsCore(t.episodes[i], otherSummary, digits);
      }
    }
  }

  lemma FinishKeepsCore(e: Episode, summary: Option<Summary>, digits: nat -> string)
    ensures CoreOf(Finished(e, summary, digits)) == CoreOf(e)
  {}
}
