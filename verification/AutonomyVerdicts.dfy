/**
  Verdicts told from the record: which row raises which candidate, what stops
  one, what supports one, and that whatever a human cancelled, completed,
  replaced, held or refused is never supported afterwards.
 */
module AutonomyVerdicts {
  import opened Prelude
  import opened Interactions
  import opened Episodes
  import opened EpisodeMachine
  import opened EpisodeRulings
  import opened Autonomy

  // ---------------------------------------------------------------------
  // Stops are on record
  // ---------------------------------------------------------------------

  /** A stopped episode carries the assertion that stopped it. */
  ghost predicate StopsNoted(e: Episode) {
    && (e.lifecycle == Cancelled ==> OnRecord(e, Revocation))
    && (e.lifecycle == Done ==> OnRecord(e, ObservedCompletion))
    && (e.authority == Revoked ==> OnRecord(e, Revocation) || OnRecord(e, ScopeChange))
    && (e.authority == Withheld ==> OnRecord(e, PermissionHold) || OnRecord(e, Kind.ApprovalWithheld))
  }

  ghost predicate AllStopsNoted(d: Derivation) {
    forall i :: 0 <= i < |d.episodes| ==> StopsNoted(d.episodes[i])
  }

  lemma RecordsStay(e: Episode, f: Episode)
    requires e.assertions <= f.assertions
    ensures forall kind :: OnRecord(e, kind) ==> OnRecord(f, kind)
  {
    forall kind | OnRecord(e, kind) ensures OnRecord(f, kind) {
      var i :| 0 <= i < |e.assertions| && e.assertions[i].kind == kind;
      assert f.assertions[i] == e.assertions[i];
    }
  }

  /** What is among the notes added is on record. */
  lemma NoteIsOnRecord(e: Episode, before: seq<Assertion>, notes: seq<Assertion>, after: seq<Assertion>, a: Assertion)
    requires e.assertions == before + notes + after && a in notes
    ensures OnRecord(e, a.kind)
  {
    var i :| 0 <= i < |notes| && notes[i] == a;
    assert e.assertions[|before| + i] == a;
  }

  lemma HoldIsOnRecord(lex: Lexicon, e: Episode, before: seq<Assertion>, t: string, row: Row, after: seq<Assertion>)
    requires lex.holds(t) && e.assertions == before + RestraintNotes(lex, t, row) + after
    ensures OnRecord(e, PermissionHold)
  {
    NoteIsOnRecord(e, before, RestraintNotes(lex, t, row), after, Note(PermissionHold, Some(t), Known, row));
  }

  lemma RuledIsNoted(lex: Lexicon, e: Episode, row: Row, ruling: Ruling)
    requires StopsNoted(e) && e.lifecycle == Active
    ensures StopsNoted(Ruled(lex, e, row, ruling))
  {
    hide OnRecord, RestraintNotes, InstructionNotes;
    var t, f := lex.strip(row.text), Ruled(lex, e, row, ruling);
    var notes := RulingNotes(lex, t, row, ruling);
    RecordsStay(e, f);
    assert f.assertions == e.assertions + notes + [];
    match ruling
    case Restrains =>
      if lex.holds(t) {
        HoldIsOnRecord(lex, f, e.assertions, t, row, []);
      }
    case Cancelling => NoteIsOnRecord(f, e.assertions, notes, [], notes[0]);
    case Completing => NoteIsOnRecord(f, e.assertions, notes, [], notes[0]);
    case Replacing(_) => NoteIsOnRecord(f, e.assertions, notes, [], notes[0]);
    case _ =>
  }

  lemma TailedIsNoted(lex: Lexicon, e: Episode, t: string, row: Row)
    requires StopsNoted(e)
    ensures StopsNoted(Tailed(lex, e, t, row))
  {
    hide OnRecord, RestraintNotes, TruncationNotes;
    var f := Tailed(lex, e, t, row);
    RecordsStay(e, f);
    if lex.holds(t) && (row.origin == HumanRequest || row.origin == HumanAnswer) {
      var rest := TailNotes(lex, t, row)[|RestraintNotes(lex, t, row)|..] + TruncationNotes(row);
      assert f.assertions == e.assertions + RestraintNotes(lex, t, row) + rest;
      HoldIsOnRecord(lex, f, e.assertions, t, row, rest);
    }
  }

  lemma OpenedIsNoted(lex: Lexicon, t: string, row: Row)
    ensures StopsNoted(OpenedOn(lex, t, row))
  {
    hide OnRecord, RestraintNotes, TruncationNotes, OpeningNotes;
    var g := OpenedOn(lex, t, row);
    if lex.holds(t) {
      var rest := TailNotes(lex, t, row)[|RestraintNotes(lex, t, row)|..] + TruncationNotes(row);
      assert g.assertions == OpeningNotes(lex, t, row) + RestraintNotes(lex, t, row) + rest;
      HoldIsOnRecord(lex, g, OpeningNotes(lex, t, row), t, row, rest);
    }
  }

  lemma RequestIsNoted(lex: Lexicon, d: Derivation, d': Derivation, i: nat, row: Row)
    requires AllStopsNoted(d) && i < |d.episodes| && d.episodes[i].lifecycle == Active
    requires RequestRules(lex, d, d', i, row)
    ensures AllStopsNoted(d')
  {
    hide Ruled, OpenedOn, StopsNoted, RulingOn;
    var t := lex.strip(row.text);
    var ruling := RulingOn(lex, d.episodes[i], t);
    RuledIsNoted(lex, d.episodes[i], row, ruling);
    match ruling
    case Replacing(text) => OpenedIsNoted(lex, text, row);
    case Beginning => OpenedIsNoted(lex, t, row);
    case _ =>
  }

  lemma AnsweredIsNoted(lex: Lexicon, e: Episode, action: Option<string>, t: string, row: Row)
    requires StopsNoted(e)
    ensures StopsNoted(Answered(lex, e, action, t, row))
  {
    hide OnRecord, Assents, AssentNotes;
    var f := Answered(lex, e, action, t, row);
    RecordsStay(e, f);
    if Refuses(lex, e, action, t) {
      var notes := AnswerNotes(lex, e, action, t, row);
      assert f.assertions == e.assertions + notes + [];
      NoteIsOnRecord(f, e.assertions, notes, [], notes[|notes| - 1]);
    }
  }

  lemma AnswerIsNoted(lex: Lexicon, d: Derivation, d': Derivation, asked: Option<Asked>, row: Row)
    requires AllStopsNoted(d) && AnswerRules(lex, d, d', asked, row)
    ensures AllStopsNoted(d')
  {
    hide StopsNoted, Answered, Tailed, Unasked;
    var t := lex.strip(row.text);
    forall i | 0 <= i < |d'.episodes| ensures StopsNoted(d'.episodes[i]) {
      var e := d.episodes[i];
      UnaskedIsNoted(e, t, row);
      TailedIsNoted(lex, e, t, row);
      TailedIsNoted(lex, Unasked(e, t, row), t, row);
      if asked.Some? {
        AnsweredIsNoted(lex, e, asked.value.action, t, row);
        TailedIsNoted(lex, Answered(lex, e, asked.value.action, t, row), t, row);
      }
    }
  }

  lemma UnaskedIsNoted(e: Episode, t: string, row: Row)
    requires StopsNoted(e)
    ensures StopsNoted(Unasked(e, t, row))
  {
    hide OnRecord;
    RecordsStay(e, Unasked(e, t, row));
  }

  lemma ObservationIsNoted(lex: Lexicon, d: Derivation, d': Derivation, row: Row)
    requires AllStopsNoted(d) && ObservationRules(lex, d, d', row)
    ensures AllStopsNoted(d')
  {
    hide OnRecord, ObservationNotes;
    forall i | 0 <= i < |d'.episodes| ensures StopsNoted(d'.episodes[i]) {
      RecordsStay(d.episodes[i], d'.episodes[i]);
      assert StopsNoted(d.episodes[i]);
    }
  }

  lemma {:induction false} FoldNotesStops(lex: Lexicon, rows: seq<Row>)
    requires Fold(lex, rows).Success?
    ensures AllStopsNoted(Fold(lex, rows).value)
    decreases |rows|
  {
    hide Step, StopsNoted, RequestRules, AnswerRules, ObservationRules, OpensNext;
    if rows != [] {
      var n := |rows| - 1;
      assert rows[..n + 1] == rows;
      RowsRuleExactly(lex, rows, n);
      FoldAdvances(lex, rows[..n], n);
      FoldNotesStops(lex, rows[..n]);
      var d, d', row := Fold(lex, rows[..n]).value, Fold(lex, rows).value, rows[n];
      if MainRequest(row) {
        FreshIsNoted(lex, d, d', row);
      } else if MainRow(row, HumanAnswer) {
        AnswerIsNoted(lex, d, d', if row.questionOrdinal.None? then None
                                  else LastAsked(lex, rows[..n], row.questionOrdinal.value), row);
      } else {
        ObservationIsNoted(lex, d, d', row);
      }
    }
  }

  lemma FreshIsNoted(lex: Lexicon, d: Derivation, d': Derivation, row: Row)
    requires MachineOk(d) && AllStopsNoted(d) && MainRequest(row)
    requires if d.active.Some? then RequestRules(lex, d, d', d.active.value, row)
             else d' == d || (d.episodes <= d'.episodes && OpensNext(lex, d, d', lex.strip(row.text), row))
    ensures AllStopsNoted(d')
  {
    hide StopsNoted, RequestRules, OpenedOn;
    if d.active.Some? {
      RequestIsNoted(lex, d, d', d.active.value, row);
    } else if d' != d {
      OpenedIsNoted(lex, lex.strip(row.text), row);
    }
  }

  /**
    Whatever a main-thread human cancelled, completed, replaced, held or
    refused: an episode left cancelled, completed, revoked or withheld is
    stopped for every candidate, whatever its rows and the patterns say, and
    nothing found in it is supported.
   */
  lemma StoppedIsNeverSupported(ph: Phrases, lex: Lexicon, rows: seq<Row>, summary: Option<Summary>,
                                digits: nat -> string, i: nat, found: map<Family, Finding>)
    requires Derive(lex, rows, summary, digits).Success? && i < |Derive(lex, rows, summary, digits).value|
    requires EpisodeFindings(ph, Derive(lex, rows, summary, digits).value[i], rows, found)
    requires var e := Derive(lex, rows, summary, digits).value[i];
             e.lifecycle == Cancelled || e.lifecycle == Done || e.authority == Revoked || e.authority == Withheld
    ensures forall selected :: Stopped(ph, Derive(lex, rows, summary, digits).value[i], selected)
    ensures forall f :: f in found ==> found[f].assessment.disposition != Supported
  {
    hide Fold, OnRecord, SupportComplete;
    FoldNotesStops(lex, rows);
    var e, f := Fold(lex, rows).value.episodes[i], Derive(lex, rows, summary, digits).value[i];
    FinishedKeeps(e, summary, digits);
    RecordsStay(e, f);
    assert StopsNoted(e);
    forall family | family in found ensures found[family].assessment.disposition != Supported {
      if found[family].assessment.disposition == Supported {
        CompleteIsNotStopped(ph, f, found[family].candidate, RowsOf(f, rows));
        assert false;
      }
    }
  }

  lemma CompleteIsNotStopped(ph: Phrases, e: Episode, c: Candidate, rows: seq<Row>)
    requires SupportComplete(ph, e, c, rows)
    ensures !Stopped(ph, e, rows)
  {
    StoppedExactly(ph, e, rows);
  }

  lemma FinishedKeeps(e: Episode, summary: Option<Summary>, digits: nat -> string)
    ensures var f := Finished(e, summary, digits);
            f.lifecycle == e.lifecycle && f.authority == e.authority && e.assertions <= f.assertions
  {}

  // ---------------------------------------------------------------------
  // Candidates
  // ---------------------------------------------------------------------

  /** A main-thread reply raises a candidate for a pending action it offers, abandons or calls blocked. */
  ghost predicate Raised(ph: Phrases, row: Row, pending: set<string>, c: Candidate) {
    && !row.sidechain && row.origin == AssistantText
    && c.ordinal == row.ordinal && c.sourceLine == row.sourceLine && c.text == row.text
    && c.action in pending
    && match c.family
       case RepeatedOffer => ph.offer(row.text) == Some(c.action)
       case RepeatedApproval => ph.offer(row.text) == Some(c.action) && ph.approvalOffer(row.text)
       case StalledDefect =>
         ph.offer(row.text) == Some(c.action) && ph.defect(row.text) && ph.impeded(row.text) == Some(c.action)
       case Abandonment => ph.abandoned(row.text) == Some(c.action)
       case FalseBlocker => ph.blocked(row.text) == Some(c.action)
  }

  ghost predicate RaisedIn(ph: Phrases, row: Row, pending: set<string>, f: Family) {
    exists c: Candidate :: c.family == f && Raised(ph, row, pending, c)
  }

  lemma {:induction false} FirstOfShifts(a: seq<Candidate>, b: seq<Candidate>, k: nat, f: Family)
    requires k <= |a|
    ensures FirstOf(a + b, k, f) == if FirstOf(a, k, f).Some? then FirstOf(a, k, f) else FirstOf(a + b, |a|, f)
    decreases |a| - k
  {
    if k < |a| && a[k].family != f {
      FirstOfShifts(a, b, k + 1, f);
    }
  }

  lemma {:induction false} FirstOfTail(a: seq<Candidate>, b: seq<Candidate>, k: nat, f: Family)
    requires k <= |b|
    ensures FirstOf(a + b, |a| + k, f) == FirstOf(b, k, f)
    decreases |b| - k
  {
    if k < |b| {
      assert (a + b)[|a| + k] == b[k];
      FirstOfTail(a, b, k + 1, f);
    }
  }

  lemma FirstOfAppend(a: seq<Candidate>, b: seq<Candidate>, f: Family)
    ensures FirstOf(a + b, 0, f) == if FirstOf(a, 0, f).Some? then FirstOf(a, 0, f) else FirstOf(b, 0, f)
  {
    FirstOfShifts(a, b, 0, f);
    FirstOfTail(a, b, 0, f);
  }

  lemma FirstOfNone(f: Family)
    ensures FirstOf([], 0, f) == None
  {}

  lemma FirstOfFound(ph: Phrases, row: Row, family: Family, key: Option<string>, pending: set<string>, f: Family)
    ensures FirstOf(Found(ph, row, family, key, pending), 0, f)
            == if f == family && key.Some? && key.value in pending
               then Some(Candidate(family, key.value, row.ordinal, row.sourceLine, row.text)) else None
  {
    var found := Found(ph, row, family, key, pending);
    if found != [] {
      assert FirstOf(found, 1, f) == None;
    }
  }

  /** What a row raises in a family, if anything. */
  lemma RowRaises(ph: Phrases, row: Row, pending: set<string>, f: Family)
    ensures forall c ::
              FirstOf(RowCandidates(ph, row, pending), 0, f) == Some(c)
              <==> c.family == f && Raised(ph, row, pending, c)
  {
    hide Found, FirstOf;
    FirstOfNone(f);
    if !row.sidechain && row.origin.AssistantText? {
      var offered := ph.offer(row.text);
      var a := Found(ph, row, RepeatedOffer, offered, pending);
      var b := if ph.approvalOffer(row.text) then Found(ph, row, RepeatedApproval, offered, pending) else [];
      var c := if ph.defect(row.text) && ph.impeded(row.text) == offered
               then Found(ph, row, StalledDefect, offered, pending) else [];
      var d := Found(ph, row, Abandonment, ph.abandoned(row.text), pending);
      var e := Found(ph, row, FalseBlocker, ph.blocked(row.text), pending);
      FirstOfAppend(a + b + c + d, e, f);
      FirstOfAppend(a + b + c, d, f);
      FirstOfAppend(a + b, c, f);
      FirstOfAppend(a, b, f);
      FirstOfFound(ph, row, RepeatedOffer, offered, pending, f);
      FirstOfFound(ph, row, RepeatedApproval, offered, pending, f);
      FirstOfFound(ph, row, StalledDefect, offered, pending, f);
      FirstOfFound(ph, row, Abandonment, ph.abandoned(row.text), pending, f);
      FirstOfFound(ph, row, FalseBlocker, ph.blocked(row.text), pending, f);
    }
  }

  /** Row `k` raises `c`, and no row before it raises its family. */
  ghost predicate RaisedFirst(ph: Phrases, rows: seq<Row>, pending: set<string>, k: nat, c: Candidate) {
    && k < |rows| && Raised(ph, rows[k], pending, c)
    && forall j :: 0 <= j < k ==> !RaisedIn(ph, rows[j], pending, c.family)
  }

  /** The shortlist's candidate of a family is the one the earliest row that raises the family raises. */
  lemma {:induction false} ShortlistedExactly(ph: Phrases, rows: seq<Row>, pending: set<string>, f: Family)
    ensures forall c ::
              FirstOf(AllCandidates(ph, rows, pending), 0, f) == Some(c)
              <==> c.family == f && exists k: nat :: RaisedFirst(ph, rows, pending, k, c)
    ensures FirstOf(AllCandidates(ph, rows, pending), 0, f) == None
            <==> forall k :: 0 <= k < |rows| ==> !RaisedIn(ph, rows[k], pending, f)
    decreases |rows|
  {
    hide FirstOf, RowCandidates, Raised;
    if rows == [] {
      FirstOfNone(f);
    } else {
      var n := |rows| - 1;
      var before, last := AllCandidates(ph, rows[..n], pending), RowCandidates(ph, rows[n], pending);
      ShortlistedExactly(ph, rows[..n], pending, f);
      RowRaises(ph, rows[n], pending, f);
      FirstOfAppend(before, last, f);
      forall c: Candidate | c.family == f
        ensures FirstOf(before + last, 0, f) == Some(c) <==> exists k: nat :: RaisedFirst(ph, rows, pending, k, c)
      {
        FirstInMore(ph, rows, n, pending, f, c);
      }
    }
  }

  lemma FirstInMore(ph: Phrases, rows: seq<Row>, n: nat, pending: set<string>, f: Family, c: Candidate)
    requires n == |rows| - 1 && c.family == f
    ensures (exists k: nat :: RaisedFirst(ph, rows, pending, k, c))
            <==> (exists k: nat :: RaisedFirst(ph, rows[..n], pending, k, c))
                 || (Raised(ph, rows[n], pending, c)
                     && forall k :: 0 <= k < n ==> !RaisedIn(ph, rows[..n][k], pending, f))
  {
    hide Raised, RaisedIn;
    if k: nat :| RaisedFirst(ph, rows, pending, k, c) {
      if k < n {
        assert RaisedFirst(ph, rows[..n], pending, k, c);
      }
    }
    if k: nat :| RaisedFirst(ph, rows[..n], pending, k, c) {
      assert RaisedFirst(ph, rows, pending, k, c);
    }
    if Raised(ph, rows[n], pending, c) && forall k :: 0 <= k < n ==> !RaisedIn(ph, rows[..n][k], pending, f) {
      assert forall j :: 0 <= j < n ==> rows[..n][j] == rows[j];
      assert RaisedFirst(ph, rows, pending, n, c);
    }
  }
}
