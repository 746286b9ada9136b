/**
  A whole lesson file: every required field, and a body of two lines. It
  loads under rules that strip what they redact, as the source's redaction
  does, so the lesson laws are not about files without a body.
 */
module LessonSample {
  import opened Prelude
  import opened Sequences
  import opened PyText
  import opened JsonText
  import opened Inline
  import opened InlineRoundTrip
  import opened LessonFile
  import opened LessonRewrite
  import opened LessonReload
  import opened LessonEdits
  import opened LessonRouting
  import opened LessonRecord
  import opened LessonTransition
  import opened LessonLifecycle
  import opened LessonLaw
  import opened LessonOperator

  // ---------------------------------------------------------------------
  // The rules
  // ---------------------------------------------------------------------

  const ID := "L-00000001"
  const MOMENT := "2026-01-01T00:00:00Z"

  /** Redaction that only strips, one readable time, and no dates. */
  const STRIPPING := Rules(s => Strip(s), v => "", s => if s == MOMENT then Some(MOMENT) else None, s => false, ID)

  lemma MomentSettles()
    ensures STRIPPING.IsStamp(MOMENT) && STRIPPING.StampsSettle()
  {
    assert MOMENT[0] == '2' && MOMENT[|MOMENT| - 1] == 'Z';
    assert forall i :: 0 <= i < |MOMENT| ==> '-' <= MOMENT[i] <= 'Z';
  }

  // ---------------------------------------------------------------------
  // Its lines
  // ---------------------------------------------------------------------

  const UNROUTED := Routing(None, None, None, None, None)

  function TextField(key: string, text: string): Edit {
    Edit(key, Quote(text), Text(text))
  }

  const SESSIONS := "[" + (Quote("s1") + "]")
  const COUNTED: seq<(string, Value)> := [("sessions", Whole(1)), ("events", Whole(1)), ("first_seen", Null)]
  const EVIDENCE: seq<(string, Value)> := COUNTED + [("session_ids", Items([Text("s1")]))]
  const BACKTEST: seq<(string, Value)> :=
    [("window_days", Whole(30)), ("sessions", Whole(1)), ("first_seen", Null), ("weeks_present", Whole(1))]

  /** The entries from `i` on, the list last. */
  function EvidenceFrom(i: nat): string
    requires i <= 3
    decreases 3 - i
  {
    if i == 3 then "session_ids" + (": " + (SESSIONS + "}"))
    else RenderEntry(COUNTED[i]) + (", " + EvidenceFrom(i + 1))
  }

  const OTHERS: seq<Edit> := [
    TextField("id", ID), TextField("summary", "retries"), TextField("detector", "D-01"), TextField("key", "k1"),
    EvidenceField(), BacktestField()]

  function EvidenceField(): Edit {
    Edit("evidence", "{" + EvidenceFrom(0), Fields(EVIDENCE))
  }

  function BacktestField(): Edit {
    Edit("backtest", RenderMapping(BACKTEST), Fields(BACKTEST))
  }

  /** A field as a line of its own. */
  function LineOf(e: Edit): string {
    Spelled(e.key, e.rendered + "\n")
  }

  ghost predicate Reads(e: Edit) {
    SoundEdit(e) && NoBreaks(e.rendered) && '\r' !in e.rendered
  }

  lemma LineReads(e: Edit)
    requires Reads(e)
    ensures WholeLine(LineOf(e)) && EffectOf(LineOf(e)) == Adds(e.key, e.value)
    ensures '\r' !in LineOf(e)
  {
    hide EffectOf, Parse, WholeLine;
    EndedEditIsWhole(e);
    RewrittenEffect(e.key, e.rendered, "\n");
    assert forall i :: 0 <= i < |e.key| ==> e.key[i] != '\r';
    SumHasNoReturn(e.rendered, "\n");
    SumHasNoReturn(": ", e.rendered + "\n");
    SumHasNoReturn(e.key, ": " + (e.rendered + "\n"));
  }

  lemma TextReads(key: string, text: string)
    requires Identifier(key) && OneLine(text)
    ensures Reads(TextField(key, text))
  {
    hide ReadValue, Escape;
    var q := Quote(text);
    QuotedReadsBack(text, "");
    assert q + "" == q;
    QuoteBreaksExactly(text);
    EscapeHasNoReturn(text);
    assert q[0] == '"' && q[|q| - 1] == '"';
    SumHasNoReturn("\"", Escape(text));
    SumHasNoReturn("\"" + Escape(text), "\"");
  }

  // ---------------------------------------------------------------------
  // The two mappings
  // ---------------------------------------------------------------------

  lemma SpelledKeys()
    ensures Identifier("id") && Identifier("summary") && Identifier("detector") && Identifier("key")
    ensures Identifier("evidence") && Identifier("backtest") && Identifier("sessions") && Identifier("events")
    ensures Identifier("first_seen") && Identifier("session_ids") && Identifier("window_days")
    ensures Identifier("weeks_present")
  {}

  lemma CountedKeys()
    ensures AllPlain(COUNTED) && Keys(COUNTED) && !HasKey(COUNTED, "session_ids")
  {
    SpelledKeys();
    assert "sessions"[0] == 's' && "events"[0] == 'e' && "first_seen"[0] == 'f' && |"session_ids"| == 11;
  }

  /** A list of one quoted text, whatever follows it. */
  lemma SessionsRead(more: string)
    ensures ReadValue(SESSIONS + more) == Some(Parsed(Items([Text("s1")]), more))
  {
    hide Quote, ReadValue, ReadSequence;
    var item, after := Quote("s1"), "]" + more;
    Associates("[", item + "]", more);
    Associates(item, "]", more);
    ReadsAsSequence(item + after);
    QuotedReadsBack("s1", after);
    ItemThenEnd(item, after, more);
  }

  lemma ReadsAsSequence(inner: string)
    ensures ReadValue("[" + inner) == ReadSequence(inner)
  {
    hide ReadSequence, ReadMapping, ReadScalar, Quoted;
    StartsStrips("[" + inner);
    CutsBack("[", inner);
  }

  lemma ItemThenEnd(item: string, after: string, more: string)
    requires item == Quote("s1") && after == "]" + more
    requires ReadValue(item + after) == Some(Parsed(Text("s1"), after))
    ensures ReadSequence(item + after) == Some(Parsed(Items([Text("s1")]), more))
  {
    hide ReadValue, Quote, ReadItems;
    QuoteOpens("s1");
    StartsStrips(item + after);
    EndOfItems(item + after, Text("s1"), after, more);
  }

  lemma QuoteOpens(s: string)
    ensures Quote(s) != "" && Quote(s)[0] == '"'
  {
    hide Escape;
  }

  lemma EndOfItems(s: string, v: Value, after: string, more: string)
    requires after == "]" + more && ReadValue(s) == Some(Parsed(v, after))
    ensures ReadItems(s, []) == Some(Parsed(Items([v]), more))
  {
    hide ReadValue;
    StartsStrips(after);
    assert after[1..] == more;
    assert NextTurn(after, ']') == Closed(more);
    assert [] + [v] == [v];
  }

  lemma SessionsEntryReads()
    ensures ReadEntries(EvidenceFrom(3), COUNTED) == Some(Parsed(Fields(EVIDENCE), ""))
  {
    hide ReadValue, ReadEntries, SESSIONS, COUNTED;
    CountedKeys();
    SpelledKeys();
    SessionsRead("}");
    LastValueEntry("session_ids", SESSIONS, Items([Text("s1")]), COUNTED);
  }

  lemma EvidenceStarts(i: nat)
    requires i <= 3
    ensures Starts(EvidenceFrom(i)) && EvidenceFrom(i)[0] != '}'
  {
    CountedKeys();
    if i < 3 {
      assert EvidenceFrom(i)[0] == COUNTED[i].0[0];
    }
  }

  /** The counted entries are read one by one, and then the list. */
  lemma {:induction false} EvidenceReads(i: nat)
    requires i <= 3
    ensures ReadEntries(EvidenceFrom(i), COUNTED[..i]) == Some(Parsed(Fields(EVIDENCE), ""))
    decreases 3 - i
  {
    hide ReadEntries, EVIDENCE;
    if i == 3 {
      assert COUNTED[..3] == COUNTED;
      SessionsEntryReads();
    } else {
      CountedKeys();
      FreshKey(COUNTED, i);
      EvidenceStarts(i + 1);
      EntryThenEntries(COUNTED[i], EvidenceFrom(i + 1), COUNTED[..i]);
      OneFurther(COUNTED, i);
      EvidenceReads(i + 1);
    }
  }

  lemma EvidenceParses()
    ensures Parse("{" + EvidenceFrom(0)) == Some(Fields(EVIDENCE))
  {
    hide ReadEntries, EvidenceFrom;
    EvidenceStarts(0);
    ReadsAsMapping(EvidenceFrom(0));
    OpensEntries(EvidenceFrom(0));
    EvidenceReads(0);
    assert COUNTED[..0] == [];
  }

  /** Text of ordinary printed characters. */
  predicate Printed(s: string) {
    forall i :: 0 <= i < |s| ==> ' ' <= s[i] <= '~'
  }

  lemma PrintedStays(s: string)
    requires Printed(s)
    ensures NoBreaks(s) && '\r' !in s
  {}

  lemma PrintedSum(a: string, b: string)
    requires Printed(a) && Printed(b)
    ensures Printed(a + b)
  {}

  lemma ScalarPrints(v: Value)
    requires v.Whole? || v.Null?
    ensures Printed(RenderScalar(v))
  {
    if v.Whole? {
      WholeIsWhole(v.n);
      assert forall i :: 0 <= i < |RenderScalar(v)| ==> BareChar(RenderScalar(v)[i]);
    }
  }

  lemma EntryPrints(entry: (string, Value))
    requires Printed(entry.0) && (entry.1.Whole? || entry.1.Null?)
    ensures Printed(RenderEntry(entry))
  {
    hide RenderScalar;
    ScalarPrints(entry.1);
    PrintedSum(entry.0, ": ");
    PrintedSum(entry.0 + ": ", RenderScalar(entry.1));
  }

  lemma CommaPrints()
    ensures Printed(", ") && Printed("sessions") && Printed("events") && Printed("first_seen")
  {}

  lemma LastEntryPrints()
    ensures Printed(EvidenceFrom(3))
  {
    assert Escape("s1") == "s1" by {
      assert "s1"[1..] == "1" && "1"[1..] == "";
    }
  }

  lemma {:induction false} EvidencePrints(i: nat)
    requires i <= 3
    ensures Printed(EvidenceFrom(i))
    decreases 3 - i
  {
    hide RenderEntry, Printed;
    if i == 3 {
      LastEntryPrints();
    } else {
      CommaPrints();
      EntryPrints(COUNTED[i]);
      EvidencePrints(i + 1);
      PrintedSum(", ", EvidenceFrom(i + 1));
      PrintedSum(RenderEntry(COUNTED[i]), ", " + EvidenceFrom(i + 1));
    }
  }

  lemma EvidenceEnds(i: nat)
    requires i <= 3
    ensures var s := EvidenceFrom(i); s != "" && s[|s| - 1] == '}'
    decreases 3 - i
  {
    if i < 3 {
      EvidenceEnds(i + 1);
    }
  }

  lemma EvidenceFieldReads()
    ensures Reads(EvidenceField())
  {
    hide Parse, EvidenceFrom, EVIDENCE, OTHERS;
    SpelledKeys();
    EvidenceParses();
    EvidencePrints(0);
    EvidenceEnds(0);
    PrintedSum("{", EvidenceFrom(0));
    PrintedStays("{" + EvidenceFrom(0));
  }

  lemma BacktestKeys()
    ensures AllPlain(BACKTEST) && Keys(BACKTEST)
  {
    SpelledKeys();
    assert "window_days"[1] == 'i' && "weeks_present"[1] == 'e' && "sessions"[0] == 's' && "first_seen"[0] == 'f';
  }

  lemma BacktestStays()
    ensures AllStay(BACKTEST) && BACKTEST != []
  {}

  lemma BacktestPrints()
    ensures '\r' !in RenderMapping(BACKTEST)
  {
    hide RenderEntry;
    forall i | 0 <= i < |BACKTEST| ensures '\r' !in RenderEntry(BACKTEST[i]) {
      EntryPrints(BACKTEST[i]);
    }
    EntriesHaveNoReturn(BACKTEST);
    SumHasNoReturn("{", RenderEntries(BACKTEST));
    SumHasNoReturn("{" + RenderEntries(BACKTEST), "}");
  }

  lemma BacktestFieldReads()
    ensures Reads(BacktestField())
  {
    hide Parse, RenderMapping, BACKTEST, OTHERS;
    SpelledKeys();
    BacktestKeys();
    MappingReadsBack(BACKTEST, "");
    BacktestStays();
    MappingBreaksExactly(BACKTEST);
    MappingIsTight(BACKTEST);
    BacktestPrints();
  }

  lemma OthersRead()
    ensures forall i :: 0 <= i < |OTHERS| ==> Reads(OTHERS[i])
  {
    hide Reads, TextField, EvidenceField, BacktestField;
    SpelledKeys();
    TextReads("id", ID);
    TextReads("summary", "retries");
    TextReads("detector", "D-01");
    TextReads("key", "k1");
    EvidenceFieldReads();
    BacktestFieldReads();
  }

  // ---------------------------------------------------------------------
  // The file
  // ---------------------------------------------------------------------

  function StateLine(terminator: char): string {
    Spelled("state", "accepted" + [terminator])
  }

  const ROUTING_LINE := LineOf(RoutingEdit(UNROUTED))

  function LinesOf(es: seq<Edit>): (lines: seq<string>)
    ensures |lines| == |es| && forall i :: 0 <= i < |es| ==> lines[i] == LineOf(es[i])
  {
    seq(|es|, i requires 0 <= i < |es| => LineOf(es[i]))
  }

  function OtherLines(): seq<string> {
    LinesOf(OTHERS)
  }

  function FileLines(terminator: char): seq<string> {
    [StateLine(terminator), ROUTING_LINE] + OtherLines()
  }

  const NOTE := "\nOperator note.\n"

  /** An accepted lesson with an operator's note, its state line ended as given. */
  function Accepted(terminator: char): string {
    "---\n" + Concat(FileLines(terminator)) + "---\n" + NOTE
  }

  /** What the lines add, in order. */
  function Added(): seq<(string, Value)> {
    [("state", Text("accepted")), ("routing", Fields(AsFields(UNROUTED)))]
    + seq(|OTHERS|, i requires 0 <= i < |OTHERS| => (OTHERS[i].key, OTHERS[i].value))
  }

  lemma UnroutedIsSettled()
    ensures Settled(STRIPPING, UNROUTED) && RoutingAgrees(UNROUTED)
    ensures NoBreaks(RenderMapping(AsFields(UNROUTED)))
  {
    RoutingOnOneLine(STRIPPING, UNROUTED);
  }

  lemma StateLineIs(terminator: char)
    requires IsBreak(terminator)
    ensures WholeLine(StateLine(terminator)) && EffectOf(StateLine(terminator)) == Adds("state", Text("accepted"))
  {
    hide EffectOf, Skipped, FieldOf, Parse;
    var s := "accepted";
    StateReads(s);
    IdentifierWord("state");
    BreaksAreSpaces(terminator);
    RewrittenEffect("state", s, [terminator]);
    SpelledBreaks("state", s);
    SpelledMore(StateEdit(s), [terminator]);
    CutsBack(Spelled("state", s), [terminator]);
    SpelledStarts("state", s + [terminator]);
  }

  lemma RoutingLineIs()
    ensures WholeLine(ROUTING_LINE) && EffectOf(ROUTING_LINE) == Adds("routing", Fields(AsFields(UNROUTED)))
    ensures '\r' !in ROUTING_LINE
  {
    hide EffectOf, Parse, RenderMapping, AsFields, LineOf;
    UnroutedIsSettled();
    RoutingEditReads(UNROUTED);
    RoutingHasNoReturn(UNROUTED);
    LineReads(RoutingEdit(UNROUTED));
  }

  lemma LineAdds(terminator: char, i: nat)
    requires IsBreak(terminator) && i < |OTHERS| + 2
    ensures var line, added := FileLines(terminator)[i], Added()[i];
            WholeLine(line) && EffectOf(line) == Adds(added.0, added.1)
  {
    hide StateLine, ROUTING_LINE, LineOf, WholeLine, EffectOf, AsFields, Reads, TextField, EvidenceField, BacktestField;
    if i == 0 {
      StateLineIs(terminator);
    } else if i == 1 {
      RoutingLineIs();
    } else {
      OthersRead();
      LineReads(OTHERS[i - 2]);
    }
  }

  const KEYS := ["state", "routing", "id", "summary", "detector", "key", "evidence", "backtest"]

  lemma AddedIs()
    ensures |Added()| == 8 && forall i :: 0 <= i < 8 ==> Added()[i].0 == KEYS[i]
    ensures Added()[0].1 == Text("accepted") && Added()[1].1 == Fields(AsFields(UNROUTED))
    ensures Added()[2].1 == Text(ID) && Added()[3].1 == Text("retries") && Added()[4].1 == Text("D-01")
    ensures Added()[5].1 == Text("k1") && Added()[6].1 == Fields(EVIDENCE) && Added()[7].1 == Fields(BACKTEST)
  {
    hide AsFields, EVIDENCE, BACKTEST, Quote, EvidenceFrom, RenderMapping;
    var k, d := Edit("key", Quote("k1"), Text("k1")), Edit("detector", Quote("D-01"), Text("D-01"));
    assert TextField("key", "k1") == k && TextField("detector", "D-01") == d;
  }

  lemma KeysAreDifferent()
    ensures forall i, j :: 0 <= i < j < 8 ==> KEYS[i] != KEYS[j]
    ensures |KEYS| == 8 && "guard" !in KEYS
  {
    assert KEYS[0][0] == 's' && KEYS[1][0] == 'r' && KEYS[2][0] == 'i' && KEYS[3][0] == 's' && KEYS[4][0] == 'd';
    assert KEYS[5][0] == 'k' && KEYS[6][0] == 'e' && KEYS[7][0] == 'b' && "guard"[0] == 'g';
    assert KEYS[0][1] == 't' && KEYS[3][1] == 'u';
  }

  /** Lines that add different keys are all taken. */
  lemma {:induction false} DifferentKeysApply(es: seq<Effect>, fields: FieldMap)
    requires forall i :: 0 <= i < |es| ==> es[i].Adds? && es[i].key !in fields
    requires forall i, j :: 0 <= i < j < |es| ==> es[i].key != es[j].key
    ensures ApplyAll(es, fields).Some?
  {
    if es != [] {
      DifferentKeysApply(es[1..], fields[es[0].key := es[0].v]);
    }
  }

  lemma EffectsAre(terminator: char)
    requires IsBreak(terminator)
    ensures AllWhole(FileLines(terminator)) && |Added()| == |FileLines(terminator)| == 8
    ensures forall i :: 0 <= i < 8 ==> Effects(FileLines(terminator))[i] == Adds(KEYS[i], Added()[i].1)
  {
    hide FileLines, Added, WholeLine, EffectOf, KEYS, OTHERS;
    var lines := FileLines(terminator);
    LinesMatch(terminator);
    KeysAreDifferent();
    forall i | 0 <= i < 8 ensures WholeLine(lines[i]) && EffectOf(lines[i]) == Adds(KEYS[i], Added()[i].1) {
      EffectAt(terminator, i);
    }
  }

  lemma EffectAt(terminator: char, i: nat)
    requires IsBreak(terminator) && i < 8 == |FileLines(terminator)| == |Added()| == |KEYS|
    ensures WholeLine(FileLines(terminator)[i]) && EffectOf(FileLines(terminator)[i]) == Adds(KEYS[i], Added()[i].1)
  {
    hide FileLines, Added, WholeLine, EffectOf, KEYS, OTHERS, AsFields, EVIDENCE, BACKTEST;
    AddedIs();
    LinesMatch(terminator);
    LineAdds(terminator, i);
  }

  /** The lines are taken, and the fields are what they add. */
  lemma FileFields(terminator: char)
    requires IsBreak(terminator)
    ensures AllWhole(FileLines(terminator)) && TakeAll(FileLines(terminator), map[]).Some?
    ensures var all := TakeAll(FileLines(terminator), map[]).value;
            forall i :: 0 <= i < |Added()| ==> KEYS[i] in all && all[KEYS[i]] == Added()[i].1
    ensures forall key :: key in TakeAll(FileLines(terminator), map[]).value ==> key in KEYS
    ensures |Added()| == 8
  {
    hide FileLines, Added, WholeLine, EffectOf, TakeAll, KEYS, Effects, OTHERS, ApplyAll;
    var lines := FileLines(terminator);
    EffectsAre(terminator);
    var es := Effects(lines);
    KeysAreDifferent();
    TakeAllApplies(lines, map[]);
    DifferentKeysApply(es, map[]);
    AppliedFields(es, map[]);
    forall key | key in TakeAll(lines, map[]).value ensures key in KEYS {
      AppliedKeys(es, map[], key);
      var i :| 0 <= i < |es| && es[i].Adds? && es[i].key == key;
      assert KEYS[i] == key;
    }
  }

  lemma LinesMatch(terminator: char)
    ensures |FileLines(terminator)| == |Added()| == |OTHERS| + 2 == 8
  {
    hide TextField, EvidenceField, BacktestField, AsFields, StateLine, ROUTING_LINE;
  }

  lemma FileDocument(terminator: char)
    requires IsBreak(terminator)
    ensures TakeAll(FileLines(terminator), map[]).Some?
    ensures ReadDocument(Accepted(terminator))
            == Some(Document(TakeAll(FileLines(terminator), map[]).value, "---\n", FileLines(terminator), "---\n",
                             NOTE))
  {
    hide FileLines, WholeLine, TakeAll, FirstMarker, SplitLines, NOTE, Concat, KEYS, OTHERS, Added;
    FileFields(terminator);
    var lines := FileLines(terminator);
    MarkerIsLine("---\n");
    PartsReadBack("---\n", lines, "---\n", NOTE);
    SplitLinesIsSplit(NOTE);
    var rest := lines + ["---\n"] + SplitLines(NOTE);
    assert ["---\n"] + lines + ["---\n"] + SplitLines(NOTE) == ["---\n"] + rest;
    assert (["---\n"] + rest)[1..] == rest;
    MarkerAfterWhole(lines, "---\n", SplitLines(NOTE));
    assert rest[..|lines|] == lines && rest[|lines| + 1..] == SplitLines(NOTE);
  }

  // ---------------------------------------------------------------------
  // It loads
  // ---------------------------------------------------------------------

  lemma StrippedIsItself(text: string)
    requires Tight(text)
    ensures STRIPPING.redact(text) == text
  {
    hide Strip;
    StripOfTight(text);
  }

  lemma ShortTextIsSafe(text: string)
    requires Tight(text) && Printed(text) && |text| <= MAX_FIELD_LENGTH
    ensures RequiredText(STRIPPING, Text(text)) == Some(text)
  {
    hide STRIPPING, RenderScalar;
    StrippedIsItself(text);
    assert SafeField(text);
    assert SafeText(STRIPPING, text);
  }

  lemma SampleLookups()
    ensures Lookup(EVIDENCE, "sessions") == Some(Whole(1)) && Lookup(EVIDENCE, "events") == Some(Whole(1))
    ensures Lookup(EVIDENCE, "first_seen") == Some(Null) && Lookup(EVIDENCE, "session_ids") == Some(Items([Text("s1")]))
  {
    var a, b, c, d := "sessions", "events", "first_seen", "session_ids";
    assert a[0] == 's' && b[0] == 'e' && c[0] == 'f' && |d| == 11;
    LookupAt(EVIDENCE, 0);
    LookupAt(EVIDENCE, 1);
    LookupAt(EVIDENCE, 2);
    LookupAt(EVIDENCE, 3);
  }

  lemma BacktestLookups()
    ensures Lookup(BACKTEST, "window_days") == Some(Whole(30)) && Lookup(BACKTEST, "sessions") == Some(Whole(1))
    ensures Lookup(BACKTEST, "first_seen") == Some(Null) && Lookup(BACKTEST, "weeks_present") == Some(Whole(1))
  {
    BacktestKeys();
    LookupAt(BACKTEST, 0);
    LookupAt(BACKTEST, 1);
    LookupAt(BACKTEST, 2);
    LookupAt(BACKTEST, 3);
  }

  lemma SampleMappingsOk()
    ensures EvidenceOk(STRIPPING, Fields(EVIDENCE)) && BacktestOk(STRIPPING, Fields(BACKTEST))
  {
    hide RequiredText, Lookup;
    SampleLookups();
    BacktestLookups();
    ShortTextIsSafe("s1");
  }

  lemma SampleOthersOk(terminator: char)
    requires IsBreak(terminator) && TakeAll(FileLines(terminator), map[]).Some?
    ensures OthersOk(STRIPPING, Others(TakeAll(FileLines(terminator), map[]).value))
  {
    hide FileLines, Added, TakeAll, OthersOk, Others, SampleOthers, KEYS, OTHERS;
    FileFields(terminator);
    KeysAreDifferent();
    var all := TakeAll(FileLines(terminator), map[]).value;
    assert "guard" !in all;
    OthersAreSample(all);
    TheseAreOk(Others(all));
  }

  /** The six other fields of the sample, by name. */
  ghost predicate SampleOthers(fields: FieldMap) {
    && {"id", "summary", "detector", "key", "evidence", "backtest"} <= fields.Keys && "guard" !in fields
    && fields["id"] == Text(ID) && fields["summary"] == Text("retries") && fields["detector"] == Text("D-01")
    && fields["key"] == Text("k1") && fields["evidence"] == Fields(EVIDENCE) && fields["backtest"] == Fields(BACKTEST)
  }

  lemma OthersAreSample(all: FieldMap)
    requires |Added()| == 8 && "guard" !in all
    requires forall i :: 0 <= i < 8 ==> KEYS[i] in all && all[KEYS[i]] == Added()[i].1
    ensures SampleOthers(Others(all))
  {
    hide Added, OTHERS, EVIDENCE, BACKTEST, AsFields;
    AddedIs();
    KeysAreDifferent();
    forall i | 2 <= i < 8 ensures KEYS[i] in Others(all) && Others(all)[KEYS[i]] == all[KEYS[i]] {
      assert KEYS[i] !in {KEYS[0], KEYS[1]};
    }
  }

  lemma TheseAreOk(fields: FieldMap)
    requires SampleOthers(fields)
    ensures OthersOk(STRIPPING, fields)
  {
    hide RequiredText, EvidenceOk, BacktestOk, EVIDENCE, BACKTEST;
    hide Tight, Printed, LessonId, DetectorName, STRIPPING;
    TextsAreShort();
    ShortTextIsSafe(ID);
    ShortTextIsSafe("retries");
    ShortTextIsSafe("D-01");
    ShortTextIsSafe("k1");
    SampleMappingsOk();
  }

  lemma TextsAreShort()
    ensures Tight(ID) && Printed(ID) && LessonId(ID) && STRIPPING.stem == ID
    ensures Tight("retries") && Printed("retries") && Tight("k1") && Printed("k1")
    ensures Tight("D-01") && Printed("D-01") && DetectorName("D-01")
  {}

  lemma AcceptedUnroutedFits()
    ensures StateOf(Text("accepted")) == Some("accepted") && StateFits("accepted", UNROUTED)
  {
    TerminalIsPlain("accepted");
    assert "accepted"[0] == 'a' && "accepted"[1] == 'c';
  }

  lemma FileValidates(terminator: char)
    requires IsBreak(terminator) && TakeAll(FileLines(terminator), map[]).Some?
    ensures var all := TakeAll(FileLines(terminator), map[]).value;
            Validate(STRIPPING, all) == Some(Checked(Others(all), "accepted", UNROUTED))
  {
    hide AsFields, FileLines, Added, TakeAll, OthersOk, ValidateRouting, StateOf, StateFits, EVIDENCE, BACKTEST;
    FileFields(terminator);
    SampleOthersOk(terminator);
    AddedIs();
    assert KEYS[0] == "state" && KEYS[1] == "routing";
    UnroutedIsSettled();
    SettledReadsBack(STRIPPING, UNROUTED);
    AcceptedUnroutedFits();
  }

  lemma NoteLines()
    ensures SplitLines(NOTE) == ["\n", "Operator note.\n"]
  {
    hide SplitLines, IsLine, Ended, IsBreak;
    var lines := ["\n", "Operator note.\n"];
    NoteIsTwoLines();
    assert lines[1..] == ["Operator note.\n"] && lines[1..][1..] == [];
    assert Concat(lines[1..]) == "Operator note.\n" + "";
    assert Concat(lines) == NOTE;
    SplitOfWell(lines);
  }

  lemma NoteIsTwoLines()
    ensures IsLine("\n") && Ended("\n") && IsLine("Operator note.\n") && Ended("Operator note.\n")
  {
    var line := "Operator note.";
    assert Printed(line);
    PrintedStays(line);
    NewlineEnds(line);
    NewlineEnds("");
    assert "" + "\n" == "\n" && line + "\n" == "Operator note.\n";
  }

  lemma NoteIsOk()
    ensures BodyOk(STRIPPING, NOTE)
  {
    hide SplitLines;
    NoteLines();
    var line := "Operator note.";
    StripOfTight(line);
    StripOfTight("");
    assert Unbroken("\n") == "" && Unbroken("Operator note.\n") == line;
    assert line[..14] == line && ""[..0] == "";
    assert LineOk(STRIPPING, "") && LineOk(STRIPPING, line);
  }

  lemma FileHasNoReturn(terminator: char)
    requires IsBreak(terminator) && terminator != '\r'
    ensures '\r' !in Accepted(terminator)
  {
    hide FileLines, Reads, LineOf;
    var lines := FileLines(terminator);
    forall i | 0 <= i < |lines| ensures '\r' !in lines[i] {
      LineHasNoReturn(terminator, i);
    }
    ConcatHasNoReturn(lines);
    assert '\r' !in NOTE;
  }

  lemma LineHasNoReturn(terminator: char, i: nat)
    requires terminator != '\r' && i < |FileLines(terminator)|
    ensures '\r' !in FileLines(terminator)[i]
  {
    hide ROUTING_LINE, LineOf, Reads, TextField, EvidenceField, BacktestField;
    if i == 0 {
    } else if i == 1 {
      RoutingLineIs();
    } else {
      OthersRead();
      LineReads(OTHERS[i - 2]);
    }
  }

  /** The file loads as an accepted lesson with nothing routed and its note for a body. */
  lemma FileLoads(terminator: char)
    requires IsBreak(terminator) && terminator != '\r'
    ensures var r := Load(STRIPPING, Accepted(terminator));
            && r.Some? && r.value.state == "accepted" && r.value.routing == UNROUTED && r.value.body == NOTE
            && r.value.lines == FileLines(terminator)
  {
    hide KEYS, OTHERS, Added, Concat, IsBreak;
    hide Accepted, FileLines, ReadDocument, Validate, BodyOk, SplitLines, TakeAll, NOTE;
    FileHasNoReturn(terminator);
    UniversalOfPlain(Accepted(terminator));
    FileDocument(terminator);
    FileValidates(terminator);
    NoteIsOk();
    FileFields(terminator);
    WholeLinesSplit(FileLines(terminator));
  }
}
