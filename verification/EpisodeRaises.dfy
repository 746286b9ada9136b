/**
  When the projection raises. An action is stored as its keys joined by
  " | " and read back by splitting on " | "; a key whose object itself holds
  " | " comes back in pieces, and a piece with no colon raises an IndexError
  at the next request that looks at the pending objects.
 */
module EpisodeRaises {
  import opened Prelude
  import opened Interactions
  import opened Episodes
  import opened EpisodeGrants
  import opened EpisodeMachine

  // ---------------------------------------------------------------------
  // Joining keys and splitting them again
  // ---------------------------------------------------------------------

  /** No separator starts before the one that follows the key. */
  predicate Separable(key: string) {
    FindSeparator(key + SEPARATOR) == |key|
  }

  predicate Whole(key: string) {
    FindSeparator(key) == |key|
  }

  /** The keys of an action the separator tells apart again. */
  predicate ComeApart(keys: seq<string>)
    requires keys != []
  {
    if |keys| == 1 then Whole(keys[0]) else Separable(keys[0]) && ComeApart(keys[1..])
  }

  predicate SeparatorAt(s: string, m: nat) {
    m + 3 <= |s| && s[m] == ' ' && s[m + 1] == '|' && s[m + 2] == ' '
  }

  lemma {:induction false} FindsTheFirst(s: string)
    ensures var n := FindSeparator(s);
            && (n < |s| ==> SeparatorAt(s, n))
            && forall m :: 0 <= m < n ==> !SeparatorAt(s, m)
  {
    if |s| >= 3 && !SeparatorAt(s, 0) {
      FindsTheFirst(s[1..]);
      forall m | 0 < m < FindSeparator(s) ensures !SeparatorAt(s, m) {
        assert SeparatorAt(s[1..], m - 1) == SeparatorAt(s, m);
      }
    }
  }

  /** What follows a key and its separator does not change where the first separator is found. */
  lemma SeparatorIgnoresRest(key: string, rest: string)
    ensures FindSeparator(key + SEPARATOR + rest) == FindSeparator(key + SEPARATOR) <= |key|
  {
    var s, t := key + SEPARATOR, key + SEPARATOR + rest;
    FindsTheFirst(s);
    FindsTheFirst(t);
    assert SeparatorAt(s, |key|);
    forall m | 0 <= m <= |key| ensures SeparatorAt(s, m) == SeparatorAt(t, m) {}
  }

  lemma LonePiece(key: string)
    ensures SplitKeys(key) == [key] <==> Whole(key)
  {
    if !Whole(key) {
      assert |SplitKeys(key)| >= 2;
    }
  }

  lemma SplitsOnce(s: string)
    ensures var n := FindSeparator(s);
            SplitKeys(s) == if n == |s| then [s] else [s[..n]] + SplitKeys(s[n + 3..])
  {
    hide FindSeparator;
  }

  /** The first piece is the first key, and the others those of the rest, exactly when that key is separable. */
  lemma FirstPiece(key: string, rest: string)
    ensures var pieces := SplitKeys(key + SEPARATOR + rest);
            if Separable(key) then pieces == [key] + SplitKeys(rest) else pieces[0] != key
  {
    hide SplitKeys, FindSeparator;
    var s := key + SEPARATOR + rest;
    SeparatorIgnoresRest(key, rest);
    SplitsOnce(s);
    var n := FindSeparator(s);
    if n == |key| {
      assert s[..n] == key && s[n + 3..] == rest;
    }
  }

  /** An action reads back as the keys it was written from exactly when the separator tells them apart. */
  lemma {:induction false} ActionReadsBackExactly(keys: seq<string>)
    requires keys != []
    ensures SplitKeys(Join(keys)) == keys <==> ComeApart(keys)
    decreases |keys|
  {
    hide SplitKeys, FindSeparator, Separable, Whole;
    if |keys| == 1 {
      LonePiece(keys[0]);
      assert keys == [keys[0]];
    } else {
      var rest := Join(keys[1..]);
      FirstPiece(keys[0], rest);
      ActionReadsBackExactly(keys[1..]);
      assert keys == [keys[0]] + keys[1..];
    }
  }

  // ---------------------------------------------------------------------
  // When a row raises
  // ---------------------------------------------------------------------

  /** The action a request would open an episode for. */
  function ActionOf(lex: Lexicon, text: string): Option<string> {
    var keys := lex.actionKeys(lex.approval(text).GetOr(text));
    if keys == [] then None else Some(Join(keys))
  }

  /** Every piece of the action has the colon the projection looks for. */
  predicate Legible(action: Option<string>) {
    action.Some? && action.value != "" ==> Readable(SplitKeys(action.value))
  }

  /** A request the first three questions do not answer. */
  predicate LooksAtPending(lex: Lexicon, row: Row) {
    var text := lex.strip(row.text);
    && !row.sidechain && row.origin.HumanRequest?
    && lex.effective(text).None?
    && (lex.actionKeys(text) == [] ==>
          lex.decision(text).None? && !lex.holds(text) && !lex.restrictsAtStart(text) && !lex.waitsAtStart(text))
  }

  predicate RaisesAt(lex: Lexicon, rows: seq<Row>, k: nat)
    requires k < |rows|
  {
    var before := Fold(lex, rows[..k]);
    && before.Success? && before.value.active.Some?
    && !Legible(before.value.Current().action)
    && LooksAtPending(lex, rows[k])
  }

  lemma StepRaisesExactly(lex: Lexicon, d: Derivation, row: Row)
    requires d.Ok()
    ensures Step(lex, d, row).Failure?
            <==> d.active.Some? && !Legible(d.Current().action) && LooksAtPending(lex, row)
  {}

  /** The projection raises exactly when some request looks at an illegible action. */
  lemma {:induction false} DeriveRaisesExactly(lex: Lexicon, rows: seq<Row>, summary: Option<Summary>,
                                               digits: nat -> string)
    ensures Derive(lex, rows, summary, digits).Failure? <==> exists k :: 0 <= k < |rows| && RaisesAt(lex, rows, k)
  {
    FoldRaisesExactly(lex, rows);
  }

  lemma {:induction false} FoldRaisesExactly(lex: Lexicon, rows: seq<Row>)
    ensures Fold(lex, rows).Failure? <==> exists k :: 0 <= k < |rows| && RaisesAt(lex, rows, k)
    decreases |rows|
  {
    hide RaisesAt, Fold;
    if rows == [] {
      NothingFolds(lex);
    } else {
      var n := |rows| - 1;
      FoldRaisesExactly(lex, rows[..n]);
      LastRaises(lex, rows);
      if Fold(lex, rows[..n]).Success? {
        forall k | 0 <= k < n ensures !RaisesAt(lex, rows, k) {
          PrefixRaises(lex, rows, n, k);
        }
      } else {
        var k :| 0 <= k < n && RaisesAt(lex, rows[..n], k);
        PrefixRaises(lex, rows, n, k);
      }
    }
  }

  lemma NothingFolds(lex: Lexicon)
    ensures Fold(lex, []).Success?
  {}

  lemma LastRaises(lex: Lexicon, rows: seq<Row>)
    requires rows != []
    ensures var n := |rows| - 1;
            Fold(lex, rows).Failure? <==> Fold(lex, rows[..n]).Failure? || RaisesAt(lex, rows, n)
  {
    hide Step, LooksAtPending, Legible;
    var n := |rows| - 1;
    if Fold(lex, rows[..n]).Success? {
      StepRaisesExactly(lex, Fold(lex, rows[..n]).value, rows[n]);
    }
  }

  lemma PrefixRaises(lex: Lexicon, rows: seq<Row>, n: nat, k: nat)
    requires k < n <= |rows|
    ensures RaisesAt(lex, rows[..n], k) == RaisesAt(lex, rows, k)
  {
    assert rows[..n][..k] == rows[..k];
  }

  // ---------------------------------------------------------------------
  // Requests that never lead to it
  // ---------------------------------------------------------------------

  /** Whatever the row opens, alone or after "instead", has a legible action. */
  predicate OpensLegibly(lex: Lexicon, row: Row) {
    var text := lex.strip(row.text);
    && Legible(ActionOf(lex, text))
    && (lex.replacement(text).Some? ==> Legible(ActionOf(lex, lex.strip(lex.replacement(text).value))))
  }

  ghost predicate AllLegible(d: Derivation) {
    forall i :: 0 <= i < |d.episodes| ==> Legible(d.episodes[i].action)
  }

  lemma RequestTailOpens(lex: Lexicon, d: Derivation, text: string, row: Row)
    requires d.Ok()
    ensures var t := RequestTail(lex, d, text, row).d;
            || |t.episodes| == |d.episodes|
            || (|t.episodes| == |d.episodes| + 1 && t.episodes[|d.episodes|].action == ActionOf(lex, text))
  {
    var keys := lex.actionKeys(lex.approval(text).GetOr(text));
    var advice := lex.advice(text) && lex.approval(text).None?;
    var action := ActionOf(lex, text);
    NewEpisodeIs(row, Cut(text), action,
                 if action.Some? && action.value != "" && !advice then Authorized else AuthorityUnknown, advice);
  }

  /** A row adds at most one episode, for an action it spelled. */
  lemma StepOpens(lex: Lexicon, d: Derivation, row: Row)
    requires d.Ok() && Step(lex, d, row).Success? && OpensLegibly(lex, row)
    ensures OpensAtMostOne(d, Step(lex, d, row).value)
  {
    hide Legible, Tail, HumanRequested, OpensLegibly, QuestionAsked, HumanAnswered, Observed, Handoff, QuotedHeld;
    var text := lex.strip(row.text);
    if row.sidechain || row.origin.Harness? || row.origin.QuotedHistory? {
    } else if row.origin.HumanRequest? {
      RequestOpens(lex, d, row);
      var f := HumanRequested(lex, d, row);
      if f.FallThrough? {
        TailKeepsActions(lex, f.d, f.text, row);
      }
    } else {
      OtherRowOpens(lex, d, row);
    }
  }

  ghost predicate OpensAtMostOne(d: Derivation, t: Derivation) {
    || |t.episodes| == |d.episodes|
    || (|t.episodes| == |d.episodes| + 1 && Legible(t.episodes[|d.episodes|].action))
  }

  lemma OtherRowOpens(lex: Lexicon, d: Derivation, row: Row)
    requires d.Ok() && Step(lex, d, row).Success?
    requires !row.sidechain && !row.origin.Harness? && !row.origin.QuotedHistory? && !row.origin.HumanRequest?
    ensures |Step(lex, d, row).value.episodes| == |d.episodes|
  {
    hide Observed, AnswerTo;
  }

  lemma RequestOpens(lex: Lexicon, d: Derivation, row: Row)
    requires d.Ok() && OpensLegibly(lex, row) && !HumanRequested(lex, d, row).Raises?
    ensures OpensAtMostOne(d, HumanRequested(lex, d, row).d)
  {
    hide Legible, RequestTail, AsksStatus, CancelsActive, Restrained, Readable;
    var text := lex.strip(row.text);
    RequestTailOpens(lex, d, text, row);
    if d.active.Some? && lex.replacement(text).Some? {
      RequestTailOpens(lex, d.Close(ReplacedBy(d.Current(), text, row)), lex.strip(lex.replacement(text).value), row);
    }
  }

  lemma TailKeepsActions(lex: Lexicon, d: Derivation, text: string, row: Row)
    requires d.Ok()
    ensures var t := Tail(lex, d, text, row);
            && |t.episodes| == |d.episodes|
            && forall i :: 0 <= i < |d.episodes| ==> t.episodes[i].action == d.episodes[i].action
  {
    hide HumanTail;
    if d.active.Some? {
      HumanTailKeepsAction(lex, d.Current(), text, row);
    }
  }

  lemma HumanTailKeepsAction(lex: Lexicon, e: Episode, text: string, row: Row)
    ensures HumanTail(lex, e, text, row).action == e.action
  {}

  /** A session whose requests all spell legible actions is derived to the end. */
  lemma {:induction false} LegibleRequestsNeverRaise(lex: Lexicon, rows: seq<Row>)
    requires forall i :: 0 <= i < |rows| ==> OpensLegibly(lex, rows[i])
    ensures Fold(lex, rows).Success? && AllLegible(Fold(lex, rows).value)
    decreases |rows|
  {
    hide Step, Legible, OpensLegibly, EpisodeOk, LooksAtPending;
    if rows != [] {
      var n := |rows| - 1;
      LegibleRequestsNeverRaise(lex, rows[..n]);
      var d := Fold(lex, rows[..n]).value;
      StepRaisesExactly(lex, d, rows[n]);
      FoldAdvances(lex, rows[..n], n);
      StepAdvances(lex, d, rows[n]);
      StepOpens(lex, d, rows[n]);
      var t := Fold(lex, rows).value;
      forall i | 0 <= i < |t.episodes| ensures Legible(t.episodes[i].action) {
        if i < |d.episodes| {
          assert Moves(d.episodes[i], t.episodes[i]);
        }
      }
    }
  }

  // ---------------------------------------------------------------------
  // Keys that never lead to it
  // ---------------------------------------------------------------------

  /** A key with a colon, and no separator in it or begun at its end. */
  predicate PlainKey(key: string) {
    ':' in key && !HoldsSeparator(key) && !EndsInBar(key)
  }

  predicate HoldsSeparator(key: string) {
    exists m :: 0 <= m < |key| && SeparatorAt(key, m)
  }

  predicate EndsInBar(key: string) {
    |key| >= 2 && key[|key| - 2] == ' ' && key[|key| - 1] == '|'
  }

  lemma {:induction false} ColonIsFound(key: string)
    ensures ObjectOf(key).Some? <==> ':' in key
  {
    if key != "" && key[0] != ':' {
      ColonIsFound(key[1..]);
      assert key == [key[0]] + key[1..];
    }
  }

  lemma WholeExactly(key: string)
    ensures Whole(key) <==> !HoldsSeparator(key)
  {
    FindsTheFirst(key);
    if !Whole(key) {
      assert SeparatorAt(key, FindSeparator(key));
    }
  }

  lemma SeparableExactly(key: string)
    ensures Separable(key) <==> !HoldsSeparator(key) && !EndsInBar(key)
  {
    var s := key + SEPARATOR;
    FindsTheFirst(s);
    assert SeparatorAt(s, |key|);
    forall m | 0 <= m < |key|
      ensures SeparatorAt(s, m) <==> SeparatorAt(key, m) || (EndsInBar(key) && m == |key| - 2)
    {}
    if EndsInBar(key) {
      assert SeparatorAt(s, |key| - 2);
    }
  }

  lemma {:induction false} PlainKeysComeApart(keys: seq<string>)
    requires keys != [] && forall i :: 0 <= i < |keys| ==> PlainKey(keys[i])
    ensures ComeApart(keys)
  {
    hide Whole, Separable, HoldsSeparator, EndsInBar;
    WholeExactly(keys[0]);
    SeparableExactly(keys[0]);
    if |keys| > 1 {
      PlainKeysComeApart(keys[1..]);
    }
  }

  /** Plain keys spell a legible action. */
  lemma PlainKeysAreLegible(keys: seq<string>)
    requires keys != [] && forall i :: 0 <= i < |keys| ==> PlainKey(keys[i])
    ensures Legible(Some(Join(keys)))
  {
    PlainKeysComeApart(keys);
    ActionReadsBackExactly(keys);
    forall i | 0 <= i < |keys| ensures ObjectOf(keys[i]).Some? {
      ColonIsFound(keys[i]);
    }
  }

  /** The action pattern never captures an object with a separator in it. */
  ghost predicate PlainLexicon(lex: Lexicon) {
    forall text, i :: 0 <= i < |lex.actionKeys(text)| ==> PlainKey(lex.actionKeys(text)[i])
  }

  lemma PlainActionIsLegible(lex: Lexicon, text: string)
    requires PlainLexicon(lex)
    ensures Legible(ActionOf(lex, text))
  {
    hide PlainKey, Legible, Join;
    var keys := lex.actionKeys(lex.approval(text).GetOr(text));
    if keys != [] {
      PlainKeysAreLegible(keys);
    } else {
      NoActionIsLegible();
    }
  }

  lemma NoActionIsLegible()
    ensures Legible(None)
  {}

  /** With plain keys every session is derived to the end, and every grant in it has its human source. */
  lemma PlainKeysNeverRaise(lex: Lexicon, rows: seq<Row>, summary: Option<Summary>, digits: nat -> string)
    requires PlainLexicon(lex)
    ensures var r := Derive(lex, rows, summary, digits);
            r.Success? && forall i :: 0 <= i < |r.value| ==> GrantsSourced(lex, rows, r.value[i])
  {
    hide Legible, PlainLexicon, ActionOf, GrantsSourced, Fold, FinishAll;
    forall i | 0 <= i < |rows| ensures OpensLegibly(lex, rows[i]) {
      var text := lex.strip(rows[i].text);
      PlainActionIsLegible(lex, text);
      if lex.replacement(text).Some? {
        PlainActionIsLegible(lex, lex.strip(lex.replacement(text).value));
      }
    }
    LegibleRequestsNeverRaise(lex, rows);
    EveryGrantHasAHumanSource(lex, rows, summary, digits);
  }

  // ---------------------------------------------------------------------
  // A session that raises
  // ---------------------------------------------------------------------

  /** "fix a | b" as the action pattern reads it, and nothing else recognised. */
  const PLAIN := Lexicon(
    s => s, s => s, s => None,
    s => if s == "fix a | b" then ["fix:a | b"] else [],
    s => None, s => None, s => false, s => false, s => false, s => false, s => false, s => false, s => None,
    s => false, s => None, s => false, s => None, s => None, s => None, s => None, s => None, s => false)

  function Said(ordinal: nat, text: string): Row {
    Row(ordinal, ordinal, None, HumanRequest, false, text, 0, false, NotFinal, None)
  }

  const BARRED := "fix:a | b"

  lemma BarredSeparator()
    ensures FindSeparator(BARRED) == 5
  {
    hide FindSeparator;
    FindsTheFirst(BARRED);
    assert SeparatorAt(BARRED, 5);
    assert BARRED[0] == 'f' && BARRED[1] == 'i' && BARRED[2] == 'x' && BARRED[3] == ':' && BARRED[4] == 'a';
  }

  lemma LoneLetter()
    ensures SplitKeys("b") == ["b"] && ObjectOf("b").None?
  {
    assert "b"[1..] == "";
  }

  lemma BarredIsIllegible()
    ensures !Legible(Some(BARRED))
  {
    FindsTheFirst(BARRED);
    BarredSeparator();
    LoneLetter();
    assert BARRED[8..] == "b";
    assert SplitKeys(BARRED)[1] == "b";
  }

  lemma FirstRequestOpens()
    ensures var r := Fold(PLAIN, [Said(0, "fix a | b")]);
            r.Success? && r.value.active.Some? && r.value.Current().action == Some(BARRED)
  {
    hide NewEpisode, SplitKeys, Cut;
    var row := Said(0, "fix a | b");
    assert [row][..0] == [];
    assert Fold(PLAIN, [row]) == Step(PLAIN, NOTHING, row);
    assert Join([BARRED]) == BARRED;
    NewEpisodeIs(row, Cut("fix a | b"), Some(BARRED), Authorized, false);
  }

  /** Asked to "fix a | b", the projection raises at the next request, whatever it says. */
  lemma TwoRequestsRaise(next: string)
    ensures Derive(PLAIN, [Said(0, "fix a | b"), Said(1, next)], None, n => "") == Failure(IndexError)
  {
    hide Fold, Legible, Derive;
    var rows := [Said(0, "fix a | b"), Said(1, next)];
    assert rows[..1] == [Said(0, "fix a | b")];
    FirstRequestOpens();
    BarredIsIllegible();
    assert RaisesAt(PLAIN, rows, 1);
    DeriveRaisesExactly(PLAIN, rows, None, n => "");
    OnlyIndexErrors(PLAIN, rows, None, n => "");
  }

  lemma OnlyIndexErrors(lex: Lexicon, rows: seq<Row>, summary: Option<Summary>, digits: nat -> string)
    ensures Derive(lex, rows, summary, digits).Failure? ==> Derive(lex, rows, summary, digits) == Failure(IndexError)
  {
    hide Fold, FinishAll;
    var r := Derive(lex, rows, summary, digits);
    assert r.Failure? ==> r.error.IndexError?;
  }
}
