/**
  The projection in its own form: episode objects changed in place while one
  loop walks the rows. `Model()` reads the objects back as the values the
  fold in `Episodes` works on.
 */
module EpisodeDeriver {
  import opened Prelude
  import opened Interactions
  import opened Episodes

  class LiveEpisode {
    const start: nat
    const threadId: Option<string>
    const objective: string
    const action: Option<string>
    const adviceOnly: bool
    var end: nat
    var authority: Authority
    var contextKnown: bool
    var policyCaptured: bool
    var lifecycle: Lifecycle
    var assertions: seq<Assertion>

    function Value(): Episode
      reads this
    {
      Episode(start, end, threadId, objective, action, authority, contextKnown, policyCaptured, lifecycle, adviceOnly,
              assertions)
    }

    /** `_new`. */
    constructor (row: Row, objective: string, action: Option<string>, authority: Authority, advice: bool)
      ensures Value() == NewEpisode(row, objective, action, authority, advice)
    {
      start, end := row.ordinal, row.ordinal;
      threadId := row.threadId;
      this.objective := objective;
      this.action := action;
      this.authority := authority;
      adviceOnly := advice;
      contextKnown, policyCaptured := true, false;
      lifecycle := Active;
      assertions := [];
      new;
      Add(Objective, Some(objective), Known, row);
      Add(HistoricalPolicy, None, Uncertain, row);
      if advice {
        Add(AdviceOnly, None, Known, row);
      } else if action.None? {
        contextKnown := false;
        Add(ActionScope, None, Uncertain, row);
      } else {
        var pending := SplitKeys(action.value);
        ghost var goal := AddActions(Value(), pending, row);
        for i := 0 to |pending|
          invariant AddActions(Value(), pending[i..], row) == goal
        {
          Add(PendingAction, Some(pending[i]), Known, row);
          Add(Authorization, Some(pending[i]), Known, row);
          assert pending[i..][1..] == pending[i + 1..];
        }
      }
    }

    method Add(kind: Kind, value: Option<string>, strength: Strength, row: Row, related: Option<nat> := None)
      modifies this`assertions
      ensures Value() == old(Value()).Add(kind, value, strength, row, related := related)
    {
      assertions := assertions + [Assertion(kind, value, strength, Some(row.ordinal), Some(row.sourceLine), related)];
    }

    method Instruct(instruction: (int, string), row: Row)
      modifies this
      ensures Value() == Instructed(old(Value()), instruction, row)
    {
      end := row.ordinal;
      if instruction.0 <= row.day {
        policyCaptured := true;
        Add(HistoricalInstruction, Some(Cut(instruction.1)), Known, row);
      } else {
        Add(HistoricalInstruction, Some(Cut(instruction.1)), Uncertain, row);
      }
    }

    method Note(kind: Kind, value: string, strength: Strength, row: Row)
      modifies this
      ensures Value() == Touched(old(Value()), row).Add(kind, Some(value), strength, row)
    {
      end := row.ordinal;
      Add(kind, Some(value), strength, row);
    }

    /** An answer with no question in this session to answer. */
    method Stray(text: string, row: Row)
      modifies this
      ensures Value() == old(Value()).Add(UnmatchedAnswer, TextOrNone(text), Uncertain, row,
                                          related := row.questionOrdinal)
                           .(contextKnown := false)
    {
      Add(UnmatchedAnswer, TextOrNone(text), Uncertain, row, related := row.questionOrdinal);
      contextKnown := false;
    }

    method Ask(text: string, row: Row)
      modifies this
      ensures Value() == Touched(old(Value()), row).Add(OutstandingQuestion, TextOrNone(text), Known, row)
    {
      end := row.ordinal;
      Add(OutstandingQuestion, TextOrNone(text), Known, row);
    }

    method Retire(lifecycle: Lifecycle, revoked: bool, kind: Kind, text: string, row: Row)
      modifies this
      ensures Value() == Touched(old(Value()), row)
                           .(lifecycle := lifecycle, authority := if revoked then Revoked else old(authority))
                           .Add(kind, Some(text), Known, row)
    {
      this.lifecycle := lifecycle;
      if revoked {
        authority := Revoked;
      }
      Note(kind, text, Known, row);
    }

    method Restrain(lex: Lexicon, text: string, row: Row)
      modifies this
      ensures Value() == Restrained(lex, old(Value()), text, row)
    {
      if lex.restricts(text) {
        Add(ScopeRestriction, Some(text), Known, row);
      }
      if lex.holds(text) {
        authority := Withheld;
        Add(PermissionHold, Some(text), Known, row);
      }
      if lex.waits(text) {
        Add(ExternalWait, Some(text), Known, row);
      }
    }

    method Approve(action: string, row: Row, related: Option<nat>)
      modifies this
      ensures Value() == ApprovedAs(old(Value()), action, row, related := related)
    {
      if |Value().Pending()| == 1 {
        authority := Authorized;
      }
      Add(ExplicitApproval, Some(action), Known, row, related := related);
    }

    method Answer(lex: Lexicon, questionAction: Option<string>, text: string, row: Row)
      modifies this
      ensures Value() == AnswerTo(lex, old(Value()), questionAction, text, row)
    {
      var link := row.questionOrdinal;
      end := Max(end, row.ordinal);
      Add(QuestionAnswer, TextOrNone(text), Known, row, related := link);
      assert Value() == Heard(old(Value()), text, row);
      if lex.normalized(text) in ASSENTS && questionAction.Some? {
        if questionAction.value in Value().Pending() && !authority.Revoked? {
          Approve(questionAction.value, row, link);
        } else {
          Add(ApprovalScope, questionAction, Uncertain, row, related := link);
        }
      }
      if lex.normalized(text) in REFUSALS && questionAction.Some?
         && questionAction.value in SplitKeys(action.GetOr("")) && lifecycle.Active? {
        authority := Withheld;
        Add(Kind.ApprovalWithheld, Some(text), Known, row, related := link);
      }
    }

    method Observe(lex: Lexicon, text: string, row: Row)
      modifies this
      ensures Value() == Observed(lex, old(Value()), text, row)
    {
      end := row.ordinal;
      if row.origin.AssistantText? {
        if !row.terminal.NotFinal? {
          Add(TerminalReply, TextOrNone(text), if row.terminal.Completed? then Known else Uncertain, row);
        }
        if lex.waits(text) {
          Add(AssistantWaitClaim, TextOrNone(text), Inferred, row);
        }
      } else if row.origin.ToolResult? && lex.waits(text) {
        Add(ExternalWaitEvidence, TextOrNone(text), Inferred, row);
      }
    }

    /** The tail every row that did not `continue` shares. */
    method CloseRow(lex: Lexicon, text: string, row: Row)
      modifies this
      ensures var e1 := if row.origin.HumanRequest? || row.origin.HumanAnswer?
                        then HumanTail(lex, old(Value()), text, row)
                        else old(Value());
              Value() == if row.truncated
                  then e1.(contextKnown := false).Add(MaterialTruncation, None, Uncertain, row) else e1
    {
      if row.origin.HumanRequest? || row.origin.HumanAnswer? {
        Restrain(lex, text, row);
        if lex.decision(text).Some? {
          Add(SettledDecision, Some(Cut(lex.decision(text).value)), Known, row);
        }
      }
      if row.truncated {
        contextKnown := false;
        Add(MaterialTruncation, None, Uncertain, row);
      }
    }

    method Finish(summary: Option<Summary>, digits: nat -> string)
      modifies this
      ensures Value() == Finished(old(Value()), summary, digits)
    {
      if summary.Some? && (summary.value.omitted > 0 || summary.value.truncatedFields > 0) {
        contextKnown := false;
        if summary.value.omitted > 0 {
          assertions := assertions
            + [Assertion(OmittedInteractions, Some(digits(summary.value.omitted)), Uncertain, None, None, None)];
        }
        if summary.value.truncatedFields > 0 {
          assertions := assertions
            + [Assertion(TruncatedInteractions, Some(digits(summary.value.truncatedFields)), Uncertain, None, None,
                         None)];
        }
      }
      assert Value() == Discounted(old(Value()), summary, digits);
      if !HasTerminalReply(Value()) {
        assertions := assertions + [Assertion(Terminality, None, Uncertain, None, None, None)];
      }
    }
  }

  datatype LiveQuestion = LiveQuestion(episode: LiveEpisode, action: Option<string>)

  /** The objects read back as values. */
  ghost function ValuesOf(episodes: seq<LiveEpisode>): (r: seq<Episode>)
    reads episodes
    ensures |r| == |episodes|
    ensures forall i :: 0 <= i < |r| ==> r[i] == episodes[i].Value()
  {
    seq(|episodes|, i requires 0 <= i < |episodes| reads episodes => episodes[i].Value())
  }

  class Deriver {
    const lex: Lexicon
    var episodes: seq<LiveEpisode>
    var active: LiveEpisode?
    var questions: map<nat, LiveQuestion>
    ghost var activeIndex: Option<nat>
    ghost var askedBy: map<nat, nat>

    constructor (lex: Lexicon)
      ensures this.lex == lex && Valid() && Model() == NOTHING && episodes == []
    {
      this.lex := lex;
      episodes, active, questions := [], null, map[];
      activeIndex, askedBy := None, map[];
    }

    ghost predicate Valid()
      reads this
    {
      && (forall i, j :: 0 <= i < j < |episodes| ==> episodes[i] != episodes[j])
      && (active == null <==> activeIndex.None?)
      && (activeIndex.Some? ==> activeIndex.value < |episodes| && active == episodes[activeIndex.value])
      && questions.Keys == askedBy.Keys
      && (forall q :: q in askedBy ==> askedBy[q] < |episodes| && questions[q].episode == episodes[askedBy[q]])
    }

    ghost function Objects(): set<object>
      reads this`episodes
    {
      set e | e in episodes
    }

    ghost function Values(): (r: seq<Episode>)
      reads this`episodes, episodes
      ensures |r| == |episodes|
      ensures forall i :: 0 <= i < |r| ==> r[i] == episodes[i].Value()
    {
      ValuesOf(episodes)
    }

    ghost function Asks(): map<nat, Asked>
      requires questions.Keys == askedBy.Keys
      reads this`questions, this`askedBy
    {
      map q | q in questions :: Asked(askedBy[q], questions[q].action)
    }

    ghost function Model(): (d: Derivation)
      requires Valid()
      reads this, episodes
      ensures d.Ok()
    {
      Derivation(Values(), activeIndex, Asks())
    }

    /** Only episode `k` was written: the model changes there alone. */
    twostate lemma OneChanged(k: nat)
      requires old(Valid()) && Valid() && k < |episodes|
      requires episodes == old(episodes)
      requires forall i :: 0 <= i < |episodes| && i != k ==> episodes[i].Value() == old(episodes[i].Value())
      ensures Values() == old(Values())[k := episodes[k].Value()]
    {}

    method CloseRow(text: string, row: Row)
      requires Valid()
      modifies Objects()
      ensures unchanged(this) && Valid() && Model() == Tail(lex, old(Model()), text, row)
    {
      if active != null {
        active.CloseRow(lex, text, row);
        OneChanged(activeIndex.value);
      }
    }

    method MarkBoundary(text: string, row: Row)
      requires Valid()
      modifies Objects()
      ensures unchanged(this) && Valid()
      ensures var d := old(Model());
              Model() == if d.active.Some? then d.Update(BoundaryAt(d.Current(), text, row)) else d
    {
      if active != null {
        active.lifecycle := Superseded;
        active.Note(NewRequestBoundary, text, Known, row);
        OneChanged(activeIndex.value);
      }
    }

    method OpenEpisode(text: string, row: Row)
      requires Valid()
      modifies this, Objects()
      ensures Valid() && Model() == Episodes.OpenEpisode(lex, old(Model()), text, row)
      ensures old(Objects()) <= Objects() && fresh(Objects() - old(Objects()))
    {
      hide OpenedBy, BoundaryAt;
      MarkBoundary(text, row);
      var newest := MakeEpisode(text, row);
      Append(newest);
    }

    method MakeEpisode(text: string, row: Row) returns (newest: LiveEpisode)
      ensures fresh(newest) && newest.Value() == OpenedBy(lex, text, row)
    {
      var approval := lex.approval(text);
      var candidate := approval.GetOr(text);
      var keys := lex.actionKeys(candidate);
      var action := if keys == [] then None else Some(Join(keys));
      var advice := lex.advice(text) && approval.None?;
      var granted := action.Some? && action.value != "";
      var authority := if granted && !advice then Authorized else AuthorityUnknown;
      newest := new LiveEpisode(row, Cut(text), action, authority, advice);
      if approval.Some? {
        newest.Add(ExplicitApproval, Some(Cut(candidate)), if granted then Known else Uncertain, row);
      }
    }

    method Append(newest: LiveEpisode)
      requires Valid() && newest !in Objects()
      modifies this`episodes, this`active, this`activeIndex
      ensures Valid()
      ensures Model() == old(Model()).(episodes := old(Values()) + [newest.Value()], active := Some(|old(episodes)|))
      ensures Objects() == old(Objects()) + {newest}
    {
      episodes := episodes + [newest];
      active := newest;
      activeIndex := Some(|episodes| - 1);
      assert Values() == old(Values()) + [newest.Value()];
      assert Asks() == old(Asks());
    }

    /** The later questions; `through` when the row goes on to its tail. */
    method RequestTail(text: string, row: Row) returns (through: bool)
      requires Valid()
      modifies this, Objects()
      ensures Valid()
      ensures Episodes.RequestTail(lex, old(Model()), text, row)
              == if through then FallThrough(Model(), text) else Continue(Model())
      ensures old(Objects()) <= Objects() && fresh(Objects() - old(Objects()))
    {
      hide OpenedBy, BoundaryAt, ResumesSame, ContinuesVaguely, ApprovedAction;
      if active != null {
        ghost var k := activeIndex.value;
        var e := active.Value();
        if ResumesSame(lex, e, text) {
          active.Note(SameOutcomeResume, text, Known, row);
          OneChanged(k);
          return false;
        }
        if ContinuesVaguely(lex, text) {
          active.Note(GenericContinuation, text, Uncertain, row);
          OneChanged(k);
          return false;
        }
        var approved := ApprovedAction(lex, text);
        if InPending(approved, e) {
          active.end := row.ordinal;
          active.Approve(approved.value, row, None);
          OneChanged(k);
          return false;
        }
      }
      OpenEpisode(text, row);
      return true;
    }

    /** Close the active episode with its last word. */
    method Retire(lifecycle: Lifecycle, revoked: bool, kind: Kind, text: string, row: Row)
      requires Valid() && active != null
      modifies this`active, this`activeIndex, Objects()
      ensures Valid() && episodes == old(episodes) && questions == old(questions)
      ensures var e := old(Model()).Current();
              Model() == old(Model()).Close(
                Touched(e, row).(lifecycle := lifecycle, authority := if revoked then Revoked else e.authority)
                  .Add(kind, Some(text), Known, row))
    {
      hide Touched;
      active.Retire(lifecycle, revoked, kind, text, row);
      OneChanged(activeIndex.value);
      active := null;
      activeIndex := None;
    }

    /** Whether the request only asks how the active episode stands. */
    method AsksStatus(text: string) returns (asks: bool)
      requires Valid() && (active != null ==> Readable(active.Value().Pending()))
      ensures asks == Episodes.AsksStatus(lex, Model(), text)
    {
      var objects: set<string> := {};
      var objective: set<string> := {};
      if active != null {
        objects := Episodes.Objects(lex, active.Value().Pending());
        objective := {lex.normalized(active.objective)};
      }
      var target := lex.statusTarget(text);
      return lex.status(text) || (target.Some? && active != null
                                  && lex.normalized(target.value) in objects + objective);
    }

    method NoteStatus(text: string, row: Row)
      requires Valid()
      modifies Objects()
      ensures unchanged(this) && Valid()
      ensures var d := old(Model());
              Model() == if d.active.Some? then d.Update(StatusAsked(d.Current(), text, row)) else d
    {
      if active != null {
        active.Note(StatusExchange, text, Known, row);
        OneChanged(activeIndex.value);
      }
    }

    /** Cancellation and completion; false when the request is neither. */
    method Ends(text: string, row: Row) returns (ended: bool)
      requires Valid()
      modifies this`active, this`activeIndex, Objects()
      ensures Valid() && episodes == old(episodes)
      ensures var d := old(Model());
              if lex.cancels(text) then
                ended && Model() == if d.active.Some? then d.Close(CancelledBy(d.Current(), text, row)) else d
              else if CancelsActive(lex, d, text) then
                ended && Model() == d.Close(CancelledBy(d.Current(), text, row))
              else if lex.done(text) then
                ended && Model() == if d.active.Some? then d.Close(CompletedBy(d.Current(), text, row)) else d
              else
                !ended && unchanged(this) && Model() == d
    {
      if lex.cancels(text) || CancelsThis(text) {
        if active != null {
          Retire(Cancelled, true, Revocation, text, row);
        }
        return true;
      }
      if lex.done(text) {
        if active != null {
          Retire(Done, false, ObservedCompletion, text, row);
        }
        return true;
      }
      return false;
    }

    method RequestMiddle(text: string, row: Row) returns (through: bool, text': string)
      requires Valid() && (active != null ==> Readable(active.Value().Pending()))
      modifies this, Objects()
      ensures Valid()
      ensures Episodes.RequestMiddle(lex, old(Model()), text, row)
              == if through then FallThrough(Model(), text') else Continue(Model())
      ensures old(Objects()) <= Objects() && fresh(Objects() - old(Objects()))
    {
      text' := text;
      var asks := AsksStatus(text);
      if asks {
        NoteStatus(text, row);
        return false, text;
      }
      var ended := Ends(text, row);
      if ended {
        return false, text;
      }
      if active != null && lex.replacement(text).Some? {
        Retire(Superseded, true, ScopeChange, text, row);
        text' := lex.strip(lex.replacement(text).value);
      }
      through := RequestTail(text', row);
    }

    /** The cancellation names the active episode by action or by objective. */
    predicate CancelsThis(text: string)
      reads this, active
    {
      var target := lex.cancelTarget(text);
      target.Some? && active != null &&
      (InPending(lex.actionKey(target.value), active.Value())
       || lex.normalized(target.value) == lex.normalized(active.objective))
    }

    method HumanRequest(row: Row) returns (flow: RowFlow)
      requires Valid()
      modifies this, Objects()
      ensures Valid()
      ensures HumanRequested(lex, old(Model()), row)
              == match flow
                 case Ended => Continue(Model())
                 case On(text) => FallThrough(Model(), text)
                 case Raised => Raises
      ensures old(Objects()) <= Objects() && fresh(Objects() - old(Objects()))
    {
      var text := lex.strip(row.text);
      if active != null {
        if lex.effective(text).Some? {
          active.Instruct(lex.effective(text).value, row);
          OneChanged(activeIndex.value);
          return Ended;
        }
        if lex.actionKeys(text) == [] {
          if lex.decision(text).Some? {
            active.Note(SettledDecision, Cut(lex.decision(text).value), Known, row);
            OneChanged(activeIndex.value);
            return Ended;
          }
          if lex.holds(text) || lex.restrictsAtStart(text) || lex.waitsAtStart(text) {
            active.end := row.ordinal;
            active.Restrain(lex, text, row);
            OneChanged(activeIndex.value);
            return Ended;
          }
        }
        if !Readable(active.Value().Pending()) {
          return Raised;
        }
      }
      var through, text' := RequestMiddle(text, row);
      return if through then On(text') else Ended;
    }

    /** File the question under its ordinal, asked by the active episode. */
    method File(ordinal: nat, action: Option<string>)
      requires Valid() && active != null
      modifies this`questions, this`askedBy
      ensures Valid()
      ensures Model() == old(Model()).(questions := old(Model()).questions[ordinal := Asked(activeIndex.value, action)])
    {
      questions := questions[ordinal := LiveQuestion(active, action)];
      askedBy := askedBy[ordinal := activeIndex.value];
      assert Asks() == old(Asks())[ordinal := Asked(activeIndex.value, action)];
    }

    method NoteQuestion(text: string, row: Row)
      requires Valid() && active != null
      modifies Objects()
      ensures unchanged(this) && Valid()
      ensures var d := old(Model());
              Model() == d.Update(Touched(d.Current(), row).Add(OutstandingQuestion, TextOrNone(text), Known, row))
    {
      active.Ask(text, row);
      OneChanged(activeIndex.value);
    }

    method AskQuestion(text: string, row: Row)
      requires Valid() && active != null
      modifies this`questions, this`askedBy, Objects()
      ensures Valid() && episodes == old(episodes) && active == old(active)
      ensures Model() == QuestionAsked(lex, old(Model()), text, row)
    {
      var scope := lex.questionAction(text);
      var action := if scope.Some? then lex.actionKey(scope.value) else None;
      NoteQuestion(text, row);
      File(row.ordinal, action);
    }

    /** The answer goes to the episode that asked. */
    method AnswerAsked(link: nat, text: string, row: Row)
      requires Valid() && link in questions
      modifies Objects()
      ensures unchanged(this) && Valid()
      ensures var d := old(Model());
              var asked := d.questions[link];
              Model() == d.(episodes := d.episodes[asked.episode :=
                AnswerTo(lex, d.episodes[asked.episode], asked.action, text, row)])
    {
      var asked := questions[link];
      asked.episode.Answer(lex, asked.action, text, row);
      OneChanged(askedBy[link]);
    }

    method NoteStray(text: string, row: Row)
      requires Valid() && active != null
      modifies Objects()
      ensures unchanged(this) && Valid()
      ensures var d := old(Model());
              Model() == d.Update(d.Current().Add(UnmatchedAnswer, TextOrNone(text), Uncertain, row,
                                                  related := row.questionOrdinal).(contextKnown := false))
    {
      active.Stray(text, row);
      OneChanged(activeIndex.value);
    }

    method HumanAnswer(text: string, row: Row)
      requires Valid()
      modifies Objects()
      ensures unchanged(this) && Valid() && Model() == HumanAnswered(lex, old(Model()), text, row)
    {
      if row.questionOrdinal.Some? && row.questionOrdinal.value in questions {
        AnswerAsked(row.questionOrdinal.value, text, row);
      } else if active != null {
        NoteStray(text, row);
      }
    }

    /** One row; false when the projection raises. */
    method HandOff(text: string, row: Row)
      requires Valid()
      modifies Objects()
      ensures unchanged(this) && Valid()
      ensures var d := old(Model());
              Model() == if d.active.Some? then d.Update(Handoff(d.Current(), text, row)) else d
    {
      if active != null {
        active.Add(SidechainHandoff, TextOrNone(text), Inferred, row);
        OneChanged(activeIndex.value);
      }
    }

    method QuoteHold(text: string, row: Row)
      requires Valid()
      modifies Objects()
      ensures unchanged(this) && Valid()
      ensures var d := old(Model());
              Model() == if d.active.Some? && lex.holds(text) then d.Update(QuotedHeld(d.Current(), text, row)) else d
    {
      if active != null && lex.holds(text) {
        active.Add(QuotedHold, Some(text), Uncertain, row);
        active.contextKnown := false;
        OneChanged(activeIndex.value);
      }
    }

    method HandleRow(row: Row) returns (ok: bool)
      requires Valid()
      modifies this, Objects()
      ensures Valid()
      ensures Step(lex, old(Model()), row) == if ok then Success(Model()) else Failure(IndexError)
      ensures old(Objects()) <= Objects() && fresh(Objects() - old(Objects()))
    {
      hide Handoff, QuotedHeld, HumanRequested, HumanAnswered, QuestionAsked, Observed;
      var text := lex.strip(row.text);
      if row.sidechain {
        HandOff(text, row);
        return true;
      }
      if row.origin.Harness? || row.origin.QuotedHistory? {
        QuoteHold(text, row);
        return true;
      }
      if row.origin.HumanRequest? {
        var flow := HumanRequest(row);
        match flow
        case Ended => return true;
        case Raised => return false;
        case On(text') =>
          CloseRow(text', row);
          return true;
      }
      if row.origin.Question? && active != null {
        AskQuestion(text, row);
      } else if row.origin.HumanAnswer? {
        HumanAnswer(text, row);
      } else if active != null {
        active.Observe(lex, text, row);
        OneChanged(activeIndex.value);
      }
      CloseRow(text, row);
      return true;
    }

    method FinishAll(summary: Option<Summary>, digits: nat -> string)
      requires Valid()
      modifies Objects()
      ensures unchanged(this) && Valid()
      ensures Values() == Episodes.FinishAll(old(Values()), summary, digits)
    {
      for i := 0 to |episodes|
        invariant unchanged(this)
        invariant forall k :: 0 <= k < i ==> episodes[k].Value() == Finished(old(episodes[k].Value()), summary, digits)
        invariant forall k :: i <= k < |episodes| ==> episodes[k].Value() == old(episodes[k].Value())
      {
        episodes[i].Finish(summary, digits);
      }
    }

    method Snapshot() returns (values: seq<Episode>)
      ensures values == Values()
    {
      values := [];
      for i := 0 to |episodes|
        invariant values == Values()[..i]
      {
        values := values + [episodes[i].Value()];
      }
    }
  }

  /** How a request row ended: here, on to the common tail, or by raising. */
  datatype RowFlow = Ended | On(text: string) | Raised

  /** The loop over the rows; false when it raises. */
  method Walk(deriver: Deriver, rows: seq<Row>) returns (ok: bool)
    requires deriver.Valid() && deriver.Model() == NOTHING && deriver.episodes == []
    modifies deriver
    ensures deriver.Valid() && fresh(deriver.Objects())
    ensures Fold(deriver.lex, rows) == if ok then Success(deriver.Model()) else Failure(IndexError)
  {
    for i := 0 to |rows|
      invariant fresh(deriver.Objects())
      invariant deriver.Valid() && Fold(deriver.lex, rows[..i]) == Success(deriver.Model())
    {
      FoldSnoc(deriver.lex, rows, i);
      ok := deriver.HandleRow(rows[i]);
      if !ok {
        RaiseIsFinal(deriver.lex, rows, i + 1);
        return;
      }
    }
    assert rows[..|rows|] == rows;
    ok := true;
  }

  lemma FoldSnoc(lex: Lexicon, rows: seq<Row>, i: nat)
    requires i < |rows| && Fold(lex, rows[..i]).Success?
    ensures Fold(lex, rows[..i + 1]) == Step(lex, Fold(lex, rows[..i]).value, rows[i])
  {
    assert rows[..i + 1][..i] == rows[..i];
  }

  /** `_derive`: the episodes as values, in order. */
  method DeriveEpisodes(lex: Lexicon, rows: seq<Row>, summary: Option<Summary>, digits: nat -> string)
    returns (r: Result<seq<Episode>, DeriveError>)
    ensures r == Derive(lex, rows, summary, digits)
  {
    var deriver := new Deriver(lex);
    var ok := Walk(deriver, rows);
    if !ok {
      return Failure(IndexError);
    }
    deriver.FinishAll(summary, digits);
    var episodes := deriver.Snapshot();
    r := Success(episodes);
  }

  lemma {:induction false} RaiseIsFinal(lex: Lexicon, rows: seq<Row>, n: nat)
    requires n <= |rows| && Fold(lex, rows[..n]) == Failure(IndexError)
    ensures Fold(lex, rows) == Failure(IndexError)
    decreases |rows|
  {
    hide Step;
    if n < |rows| {
      var k := |rows| - 1;
      assert rows[..k][..n] == rows[..n];
      RaiseIsFinal(lex, rows[..k], n);
    } else {
      assert rows[..n] == rows;
    }
  }
}
