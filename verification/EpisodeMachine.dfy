/**
  What every derivation keeps: the life of an episode only moves forward, and
  every grant it records can be traced to a main-thread human row that gave
  exactly that action.
 */
module EpisodeMachine {
  import opened Prelude
  import opened Interactions
  import opened Episodes

  // ---------------------------------------------------------------------
  // The life of an episode
  // ---------------------------------------------------------------------

  ghost predicate EpisodeOk(e: Episode) {
    && (e.authority.Revoked? ==> !e.lifecycle.Active?)
    && (e.authority.Authorized? ==> e.action.Some? && e.action.value != "")
    && (e.lifecycle.Cancelled? ==> e.authority.Revoked?)
  }

  /** At most one episode is active, and it is the newest. */
  ghost predicate MachineOk(d: Derivation) {
    && d.Ok()
    && (d.active.Some? ==> d.active.value == |d.episodes| - 1)
    && forall i :: 0 <= i < |d.episodes| ==>
         EpisodeOk(d.episodes[i]) && (d.episodes[i].lifecycle.Active? <==> d.active == Some(i))
  }

  /** Identity is fixed, a revocation is final, a closed episode never reopens. */
  ghost predicate Moves(e: Episode, f: Episode) {
    && f.start == e.start && f.objective == e.objective && f.action == e.action
    && f.threadId == e.threadId && f.adviceOnly == e.adviceOnly
    && (e.authority.Revoked? ==> f.authority.Revoked?)
    && (!e.lifecycle.Active? ==> f.lifecycle == e.lifecycle)
    && (e.policyCaptured ==> f.policyCaptured)
    && (EpisodeOk(e) ==> EpisodeOk(f))
  }

  ghost predicate AllMove(d: Derivation, t: Derivation) {
    && |d.episodes| <= |t.episodes|
    && forall i :: 0 <= i < |d.episodes| ==> Moves(d.episodes[i], t.episodes[i])
  }

  ghost predicate Advances(d: Derivation, t: Derivation) {
    MachineOk(t) && AllMove(d, t)
  }

  lemma AdvancesSelf(d: Derivation)
    requires MachineOk(d)
    ensures Advances(d, d)
  {}

  lemma AdvancesTransitive(a: Derivation, b: Derivation, c: Derivation)
    requires Advances(a, b) && Advances(b, c)
    ensures Advances(a, c)
  {
    forall i | 0 <= i < |a.episodes| ensures Moves(a.episodes[i], c.episodes[i]) {
      assert Moves(a.episodes[i], b.episodes[i]) && Moves(b.episodes[i], c.episodes[i]);
    }
  }

  lemma UpdateAdvances(d: Derivation, e: Episode)
    requires MachineOk(d) && d.active.Some? && Moves(d.Current(), e) && e.lifecycle.Active?
    ensures Advances(d, d.Update(e))
  {
    var t := d.Update(e);
    assert forall i :: 0 <= i < |d.episodes| && i != d.active.value ==> t.episodes[i] == d.episodes[i];
  }

  lemma CloseAdvances(d: Derivation, e: Episode)
    requires MachineOk(d) && d.active.Some? && Moves(d.Current(), e) && !e.lifecycle.Active?
    ensures Advances(d, d.Close(e))
  {
    var t := d.Close(e);
    assert forall i :: 0 <= i < |d.episodes| && i != d.active.value ==> t.episodes[i] == d.episodes[i];
  }

  lemma RestrainedMoves(lex: Lexicon, e: Episode, text: string, row: Row)
    requires e.lifecycle.Active? && EpisodeOk(e)
    ensures var f := Restrained(lex, e, text, row); Moves(e, f) && f.lifecycle.Active?
  {
    var e1 := Restricted(lex, e, text, row);
    var e2 := HeldBy(lex, e1, text, row);
    assert Moves(e, e1) && Moves(e1, e2) && e2.lifecycle.Active?;
  }

  lemma HumanTailMoves(lex: Lexicon, e: Episode, text: string, row: Row)
    requires e.lifecycle.Active? && EpisodeOk(e)
    ensures var f := HumanTail(lex, e, text, row); Moves(e, f) && f.lifecycle.Active?
  {
    RestrainedMoves(lex, e, text, row);
  }

  lemma TailAdvances(lex: Lexicon, d: Derivation, text: string, row: Row)
    requires MachineOk(d)
    ensures Advances(d, Tail(lex, d, text, row))
  {
    if d.active.Some? {
      var e := d.Current();
      HumanTailMoves(lex, e, text, row);
      var e1 := if row.origin.HumanRequest? || row.origin.HumanAnswer? then HumanTail(lex, e, text, row) else e;
      var e2 := if row.truncated then e1.(contextKnown := false).Add(MaterialTruncation, None, Uncertain, row) else e1;
      assert Moves(e, e1) && Moves(e1, e2);
      UpdateAdvances(d, e2);
    }
  }

  lemma {:induction false} AddActionsMoves(e: Episode, pending: seq<string>, row: Row)
    ensures AddActions(e, pending, row).(assertions := e.assertions) == e
    decreases |pending|
  {
    if pending != [] {
      var wanted := e.Add(PendingAction, Some(pending[0]), Known, row);
      AddActionsMoves(wanted.Add(Authorization, Some(pending[0]), Known, row),
                      pending[1..], row);
    }
  }

  lemma NewEpisodeIs(row: Row, objective: string, action: Option<string>, authority: Authority, advice: bool)
    ensures var e := NewEpisode(row, objective, action, authority, advice);
            && e.lifecycle.Active? && e.action == action && e.authority == authority && e.start == row.ordinal
  {
    if !advice && action.Some? {
      var e := Episode(row.ordinal, row.ordinal, row.threadId, objective, action, authority, true, false, Active,
                       advice, [])
                 .Add(Objective, Some(objective), Known, row)
                 .Add(HistoricalPolicy, None, Uncertain, row);
      AddActionsMoves(e, SplitKeys(action.value), row);
    }
  }

  lemma OpenedByIsOk(lex: Lexicon, text: string, row: Row)
    ensures EpisodeOk(OpenedBy(lex, text, row)) && OpenedBy(lex, text, row).lifecycle.Active?
  {
    var keys := lex.actionKeys(lex.approval(text).GetOr(text));
    var action := if keys == [] then None else Some(Join(keys));
    var advice := lex.advice(text) && lex.approval(text).None?;
    NewEpisodeIs(row, Cut(text), action,
                 if action.Some? && action.value != "" && !advice then Authorized else AuthorityUnknown, advice);
  }

  lemma OpenAdvances(lex: Lexicon, d: Derivation, text: string, row: Row)
    requires MachineOk(d)
    ensures Advances(d, OpenEpisode(lex, d, text, row))
  {
    var t := OpenEpisode(lex, d, text, row);
    var n := |d.episodes|;
    OpenedByIsOk(lex, text, row);
    if d.active.Some? {
      assert Moves(d.Current(), BoundaryAt(d.Current(), text, row));
      CloseAdvances(d, BoundaryAt(d.Current(), text, row));
    }
    var closed := if d.active.Some? then d.Close(BoundaryAt(d.Current(), text, row)) else d;
    assert forall i :: 0 <= i < n ==> t.episodes[i] == closed.episodes[i];
  }

  lemma ApprovedMoves(e: Episode, action: string, row: Row, related: Option<nat>)
    requires action in e.Pending() && !e.authority.Revoked?
    ensures Moves(e, ApprovedAs(e, action, row, related := related))
    ensures ApprovedAs(e, action, row, related := related).lifecycle == e.lifecycle
  {}

  lemma RequestTailAdvances(lex: Lexicon, d: Derivation, text: string, row: Row)
    requires MachineOk(d)
    ensures Advances(d, RequestTail(lex, d, text, row).d)
  {
    OpenAdvances(lex, d, text, row);
    if d.active.Some? {
      var e := d.Current();
      assert Moves(e, Resumed(e, text, row)) && Moves(e, Continued(e, text, row)) && Moves(e, Touched(e, row));
      UpdateAdvances(d, Resumed(e, text, row));
      UpdateAdvances(d, Continued(e, text, row));
      if InPending(ApprovedAction(lex, text), e) {
        var action := ApprovedAction(lex, text).value;
        ApprovedMoves(Touched(e, row), action, row, None);
        UpdateAdvances(d, ApprovedAs(Touched(e, row), action, row));
      }
    }
  }

  lemma ClosingAdvances(lex: Lexicon, d: Derivation, text: string, row: Row)
    requires MachineOk(d) && d.active.Some?
    ensures Advances(d, d.Update(StatusAsked(d.Current(), text, row)))
    ensures Advances(d, d.Close(CancelledBy(d.Current(), text, row)))
    ensures Advances(d, d.Close(CompletedBy(d.Current(), text, row)))
    ensures Advances(d, d.Close(ReplacedBy(d.Current(), text, row)))
  {
    var e := d.Current();
    UpdateAdvances(d, StatusAsked(e, text, row));
    CloseAdvances(d, CancelledBy(e, text, row));
    CloseAdvances(d, CompletedBy(e, text, row));
    CloseAdvances(d, ReplacedBy(e, text, row));
  }

  lemma MiddleAdvances(lex: Lexicon, d: Derivation, text: string, row: Row)
    requires MachineOk(d) && (d.active.Some? ==> Readable(d.Current().Pending()))
    ensures Advances(d, RequestMiddle(lex, d, text, row).d)
  {
    hide RequestTail, AllMove, EpisodeOk;
    AdvancesSelf(d);
    RequestTailAdvances(lex, d, text, row);
    if d.active.Some? {
      ClosingAdvances(lex, d, text, row);
      if lex.replacement(text).Some? {
        var closed := d.Close(ReplacedBy(d.Current(), text, row));
        RequestTailAdvances(lex, closed, lex.strip(lex.replacement(text).value), row);
        AdvancesTransitive(d, closed, RequestTail(lex, closed, lex.strip(lex.replacement(text).value), row).d);
      }
    }
  }

  lemma RequestedAdvances(lex: Lexicon, d: Derivation, row: Row)
    requires MachineOk(d) && !HumanRequested(lex, d, row).Raises?
    ensures Advances(d, HumanRequested(lex, d, row).d)
  {
    var text := lex.strip(row.text);
    if d.active.Some? {
      var e := d.Current();
      if lex.effective(text).Some? {
        UpdateAdvances(d, Instructed(e, lex.effective(text).value, row));
      }
      if lex.decision(text).Some? {
        UpdateAdvances(d, Decided(e, lex.decision(text).value, row));
      }
      RestrainedMoves(lex, Touched(e, row), text, row);
      UpdateAdvances(d, Restrained(lex, Touched(e, row), text, row));
    }
    if d.active.None? || Readable(d.Current().Pending()) {
      MiddleAdvances(lex, d, text, row);
    }
  }

  lemma AnswerMoves(lex: Lexicon, e: Episode, action: Option<string>, text: string, row: Row)
    requires EpisodeOk(e)
    ensures var f := AnswerTo(lex, e, action, text, row); Moves(e, f) && f.lifecycle == e.lifecycle
  {
    var e1 := Heard(e, text, row);
    var e2 := Assented(lex, e1, action, text, row);
    assert Moves(e, e1) && e1.lifecycle == e.lifecycle;
    if action.Some? && action.value in e1.Pending() && !e1.authority.Revoked? {
      ApprovedMoves(e1, action.value, row, row.questionOrdinal);
    }
    assert Moves(e1, e2) && e2.lifecycle == e.lifecycle;
  }

  lemma AnsweredAdvances(lex: Lexicon, d: Derivation, text: string, row: Row)
    requires MachineOk(d)
    ensures Advances(d, HumanAnswered(lex, d, text, row))
  {
    if row.questionOrdinal.Some? && row.questionOrdinal.value in d.questions {
      var asked := d.questions[row.questionOrdinal.value];
      var e := d.episodes[asked.episode];
      AnswerMoves(lex, e, asked.action, text, row);
      var t := HumanAnswered(lex, d, text, row);
      assert forall i :: 0 <= i < |d.episodes| && i != asked.episode ==> t.episodes[i] == d.episodes[i];
    } else if d.active.Some? {
      var e := d.Current();
      UpdateAdvances(d, e.Add(UnmatchedAnswer, TextOrNone(text), Uncertain, row, related := row.questionOrdinal)
                         .(contextKnown := false));
    }
  }

  lemma ObservedMoves(lex: Lexicon, e: Episode, text: string, row: Row)
    ensures var f := Observed(lex, e, text, row); Moves(e, f) && f.lifecycle == e.lifecycle
  {}

  /** Every row keeps the machine and moves every episode forward. */
  lemma StepAdvances(lex: Lexicon, d: Derivation, row: Row)
    requires MachineOk(d) && Step(lex, d, row).Success?
    ensures Advances(d, Step(lex, d, row).value)
  {
    var text := lex.strip(row.text);
    var t := Step(lex, d, row).value;
    if row.sidechain || row.origin.Harness? || row.origin.QuotedHistory? {
      if d.active.Some? {
        UpdateAdvances(d, Handoff(d.Current(), text, row));
        UpdateAdvances(d, QuotedHeld(d.Current(), text, row));
      }
    } else if row.origin.HumanRequest? {
      var f := HumanRequested(lex, d, row);
      RequestedAdvances(lex, d, row);
      if f.FallThrough? {
        TailAdvances(lex, f.d, f.text, row);
        AdvancesTransitive(d, f.d, t);
      }
    } else {
      OtherStepAdvances(lex, d, row);
    }
  }

  lemma OtherStepAdvances(lex: Lexicon, d: Derivation, row: Row)
    requires MachineOk(d) && Step(lex, d, row).Success?
    requires !row.sidechain && !row.origin.Harness? && !row.origin.QuotedHistory? && !row.origin.HumanRequest?
    ensures Advances(d, Step(lex, d, row).value)
  {
    var text := lex.strip(row.text);
    var t := Step(lex, d, row).value;
    if row.origin.HumanAnswer? {
      var mid := HumanAnswered(lex, d, text, row);
      AnsweredAdvances(lex, d, text, row);
      TailAdvances(lex, mid, text, row);
      AdvancesTransitive(d, mid, t);
    } else if d.active.Some? {
      var e := d.Current();
      var f := if row.origin.Question? then Touched(e, row).Add(OutstandingQuestion, TextOrNone(text), Known, row)
               else Observed(lex, e, text, row);
      ObservedMoves(lex, e, text, row);
      UpdateAdvances(d, f);
      var mid := if row.origin.Question? then QuestionAsked(lex, d, text, row) else d.Update(f);
      assert Advances(d, mid);
      TailAdvances(lex, mid, text, row);
      AdvancesTransitive(d, mid, t);
    }
  }

  /** After every prefix the machine holds, and a longer prefix only moves episodes forward. */
  lemma {:induction false} FoldAdvances(lex: Lexicon, rows: seq<Row>, n: nat)
    requires n <= |rows| && Fold(lex, rows).Success?
    ensures Fold(lex, rows[..n]).Success?
    ensures MachineOk(Fold(lex, rows).value)
    ensures AllMove(Fold(lex, rows[..n]).value, Fold(lex, rows).value)
    decreases |rows|
  {
    if n == |rows| {
      assert rows[..n] == rows;
    }
    if rows != [] {
      var k := |rows| - 1;
      FoldAdvances(lex, rows[..k], if n <= k then n else k);
      StepAdvances(lex, Fold(lex, rows[..k]).value, rows[k]);
      if n <= k {
        assert rows[..k][..n] == rows[..n];
        var a, b, c := Fold(lex, rows[..n]).value, Fold(lex, rows[..k]).value, Fold(lex, rows).value;
        forall i | 0 <= i < |a.episodes| ensures Moves(a.episodes[i], c.episodes[i]) {
          assert Moves(a.episodes[i], b.episodes[i]) && Moves(b.episodes[i], c.episodes[i]);
        }
      }
    }
  }
}
