/**
  Turning scanned lines into event rows (parse_scan and _parse_codex_scan in
  twill_app.py). A parse that starts inside a file first replays the prefix to
  recover the state its lines depend on.
 */
module Transcript {
  import opened Prelude
  import opened Cursor
  import Codex
  import CodexParser
  import CodexUsage

  datatype Text = Text(text: string, blank: bool)

  /** What the generic parser reads off one JSON object. */
  datatype GenericRecord = GenericRecord(
    kind: string,
    sessionId: Option<string>,
    cwd: Option<string>,
    texts: seq<Text>,
    filePaths: seq<string>)

  /** A complete line: blank, not a JSON object, or an object as either parser sees it. */
  datatype Decoded = BlankLine | NotARecord | Parsed(generic: GenericRecord, codex: Codex.Record)

  datatype Source = GenericSource | CodexSource

  /** Everything outside the model: JSON decoding and the two redaction passes. */
  datatype Env = Env(
    decode: Bytes -> Decoded,
    redactText: string -> string,
    redactExcerpt: string -> string)

  ghost predicate RedactionIdempotent(env: Env) {
    forall s :: env.redactText(env.redactText(s)) == env.redactText(s)
  }

  datatype TranscriptEvent = TranscriptEvent(line: nat, index: nat, kind: string, text: string, cwd: Option<string>)

  /** The state a line's events depend on. */
  datatype LineState = LineState(cwd: Option<string>, sessionId: Option<string>, codex: Codex.State)

  const START := LineState(None, None, Codex.INITIAL)

  // ---------------------------------------------------------------------
  // One line
  // ---------------------------------------------------------------------

  function TextEvents(record: GenericRecord, i: nat, line: nat, cwd: Option<string>, events: seq<TranscriptEvent>)
    : seq<TranscriptEvent>
    requires i <= |record.texts|
    decreases |record.texts| - i
  {
    if i == |record.texts| then events
    else if record.texts[i].blank then TextEvents(record, i + 1, line, cwd, events)
    else
      TextEvents(record, i + 1, line, cwd,
                 events + [TranscriptEvent(line, |events|, record.kind, record.texts[i].text, cwd)])
  }

  function FileEvents(record: GenericRecord, i: nat, line: nat, cwd: Option<string>, events: seq<TranscriptEvent>)
    : seq<TranscriptEvent>
    requires i <= |record.filePaths|
    decreases |record.filePaths| - i
  {
    if i == |record.filePaths| then events
    else
      FileEvents(record, i + 1, line, cwd,
                 events + [TranscriptEvent(line, |events|, "file_read", record.filePaths[i], cwd)])
  }

  function GenericEvents(record: GenericRecord, line: nat, cwd: Option<string>): seq<TranscriptEvent> {
    FileEvents(record, 0, line, cwd, TextEvents(record, 0, line, cwd, []))
  }

  function KindName(kind: Codex.EventKind): string {
    match kind
    case Run => "run"
    case ToolError => "tool_error"
    case ToolRejected => "tool_rejected"
    case Interrupt => "interrupt"
    case FileRead => "file_read"
    case UserTurnAfterCorrection => "user_turn_after_correction"
  }

  function FromCodex(events: seq<Codex.Event>): (r: seq<TranscriptEvent>)
    ensures |r| == |events|
    ensures forall i :: 0 <= i < |r| ==>
              r[i] == TranscriptEvent(events[i].sourceLine, events[i].eventIndex, KindName(events[i].kind),
                                      events[i].text, events[i].cwd)
  {
    seq(|events|, i requires 0 <= i < |events| =>
      TranscriptEvent(events[i].sourceLine, events[i].eventIndex, KindName(events[i].kind), events[i].text,
                      events[i].cwd))
  }

  datatype LineResult = LineResult(state: LineState, events: seq<TranscriptEvent>, invalid: nat)

  function ReadLine(env: Env, source: Source, st: LineState, line: Line): LineResult {
    match env.decode(line.raw)
    case BlankLine => LineResult(st, [], 0)
    case NotARecord => LineResult(st, [], 1)
    case Parsed(generic, codex) =>
      var sessionId := Codex.FirstSome(generic.sessionId, st.sessionId);
      match source
      case GenericSource =>
        var cwd := Codex.FirstSome(generic.cwd, st.cwd);
        LineResult(st.(cwd := cwd, sessionId := sessionId), GenericEvents(generic, line.number, cwd), 0)
      case CodexSource =>
        var q := Codex.Step(st.codex, Some(codex), line.number);
        LineResult(st.(codex := q.0, sessionId := sessionId), FromCodex(q.1), 0)
  }

  /** Many lines, in order. */
  function ReadLines(env: Env, source: Source, st: LineState, lines: seq<Line>): LineResult {
    if lines == [] then LineResult(st, [], 0)
    else
      var n := |lines| - 1;
      var before := ReadLines(env, source, st, lines[..n]);
      var last := ReadLine(env, source, before.state, lines[n]);
      LineResult(last.state, before.events + last.events, before.invalid + last.invalid)
  }

  lemma {:induction false} ReadLinesAppend(env: Env, source: Source, st: LineState, a: seq<Line>, b: seq<Line>)
    ensures var p := ReadLines(env, source, st, a);
            var q := ReadLines(env, source, p.state, b);
            ReadLines(env, source, st, a + b) == LineResult(q.state, p.events + q.events, p.invalid + q.invalid)
    decreases |b|
  {
    hide ReadLine;
    var p := ReadLines(env, source, st, a);
    if b == [] {
      assert a + b == a;
      assert p.events + [] == p.events;
    } else {
      var n := |b| - 1;
      ReadLinesAppend(env, source, st, a, b[..n]);
      assert (a + b)[..|a + b| - 1] == a + b[..n];
      var before := ReadLines(env, source, p.state, b[..n]);
      var last := ReadLine(env, source, before.state, b[n]);
      assert p.events + before.events + last.events == p.events + (before.events + last.events);
    }
  }

  // ---------------------------------------------------------------------
  // A scanned region
  // ---------------------------------------------------------------------

  /** The lines numbered below `bound`, up to the first that is not. */
  function TakeBefore(lines: seq<Line>, bound: nat): seq<Line> {
    if lines == [] || lines[0].number >= bound then [] else [lines[0]] + TakeBefore(lines[1..], bound)
  }

  /** The state the replay restores: only the sticky directory for the generic parser. */
  function Restore(env: Env, source: Source, content: Bytes, scan: LineScan): LineState {
    if scan.startOffset == 0 || scan.lines == [] then START
    else
      var replay := ReadLines(env, source, START, TakeBefore(Scan(content, 0).lines, scan.lines[0].number)).state;
      match source
      case GenericSource => START.(cwd := replay.cwd)
      case CodexSource => replay
  }

  function SessionIdOf(source: Source, st: LineState, fallback: string): string {
    match source
    case GenericSource => st.sessionId.GetOr(fallback)
    case CodexSource => Codex.FirstSome(st.codex.sessionId, st.sessionId).GetOr(fallback)
  }

  datatype SessionData = SessionData(sessionId: string, events: seq<TranscriptEvent>, invalidLines: nat)

  function ParsedScan(env: Env, source: Source, content: Bytes, scan: LineScan, fallback: string): SessionData {
    var r := ReadLines(env, source, Restore(env, source, content, scan), scan.lines);
    SessionData(SessionIdOf(source, r.state, fallback), r.events, r.invalid)
  }

  // ---------------------------------------------------------------------
  // What one record says
  // ---------------------------------------------------------------------

  /** How many of the texts are not blank. */
  function Kept(texts: seq<Text>): nat {
    if texts == [] then 0 else Kept(texts[..|texts| - 1]) + (if texts[|texts| - 1].blank then 0 else 1)
  }

  /**
    One event for each text that is not blank, under the number of such texts
    before it, then one for each read path, and no other.
   */
  ghost predicate RecordSays(record: GenericRecord, line: nat, cwd: Option<string>, events: seq<TranscriptEvent>) {
    var n := Kept(record.texts);
    && |events| == n + |record.filePaths|
    && (forall i :: 0 <= i < |record.texts| && !record.texts[i].blank ==> TextSaid(record, i, line, cwd, events))
    && (forall j :: 0 <= j < |record.filePaths| ==>
          events[n + j] == TranscriptEvent(line, n + j, "file_read", record.filePaths[j], cwd))
  }

  ghost predicate TextSaid(record: GenericRecord, i: nat, line: nat, cwd: Option<string>, events: seq<TranscriptEvent>)
    requires i < |record.texts|
  {
    var at := Kept(record.texts[..i]);
    at < |events| && events[at] == TranscriptEvent(line, at, record.kind, record.texts[i].text, cwd)
  }

  lemma KeptSnoc(texts: seq<Text>, i: nat)
    requires i < |texts|
    ensures Kept(texts[..i + 1]) == Kept(texts[..i]) + (if texts[i].blank then 0 else 1)
  {
    assert texts[..i + 1][..i] == texts[..i];
  }

  /** The texts from `i` on, added to the events of those before. */
  lemma {:induction false} TextsSay(record: GenericRecord, i: nat, line: nat, cwd: Option<string>,
                                    events: seq<TranscriptEvent>)
    requires i <= |record.texts| && |events| == Kept(record.texts[..i])
    requires forall k :: 0 <= k < i && !record.texts[k].blank ==> TextSaid(record, k, line, cwd, events)
    ensures var all := TextEvents(record, i, line, cwd, events);
            && |all| == Kept(record.texts)
            && forall k :: 0 <= k < |record.texts| && !record.texts[k].blank ==> TextSaid(record, k, line, cwd, all)
    decreases |record.texts| - i
  {
    hide Kept;
    if i == |record.texts| {
      assert record.texts[..i] == record.texts;
    } else {
      KeptSnoc(record.texts, i);
      var more := if record.texts[i].blank then events
                  else events + [TranscriptEvent(line, |events|, record.kind, record.texts[i].text, cwd)];
      TextsSay(record, i + 1, line, cwd, more);
    }
  }

  lemma {:induction false} FilesSay(record: GenericRecord, i: nat, line: nat, cwd: Option<string>,
                                    texts: seq<TranscriptEvent>, events: seq<TranscriptEvent>)
    requires i <= |record.filePaths| && |events| == |texts| + i && texts <= events
    requires forall j :: 0 <= j < i ==>
               events[|texts| + j] == TranscriptEvent(line, |texts| + j, "file_read", record.filePaths[j], cwd)
    ensures var all := FileEvents(record, i, line, cwd, events);
            && |all| == |texts| + |record.filePaths| && texts <= all
            && forall j :: 0 <= j < |record.filePaths| ==>
                 all[|texts| + j] == TranscriptEvent(line, |texts| + j, "file_read", record.filePaths[j], cwd)
    decreases |record.filePaths| - i
  {
    if i < |record.filePaths| {
      FilesSay(record, i + 1, line, cwd, texts,
               events + [TranscriptEvent(line, |events|, "file_read", record.filePaths[i], cwd)]);
    }
  }

  /** A record's events are what it says. */
  lemma RecordIsSaid(record: GenericRecord, line: nat, cwd: Option<string>)
    ensures RecordSays(record, line, cwd, GenericEvents(record, line, cwd))
  {
    hide TextEvents, FileEvents;
    assert record.texts[..0] == [];
    TextsSay(record, 0, line, cwd, []);
    var texts := TextEvents(record, 0, line, cwd, []);
    FilesSay(record, 0, line, cwd, texts, texts);
  }

  /** The texts and read paths of one record as events, indexed in order. */
  method RecordEvents(record: GenericRecord, line: nat, cwd: Option<string>) returns (events: seq<TranscriptEvent>)
    ensures events == GenericEvents(record, line, cwd)
    ensures RecordSays(record, line, cwd, events)
  {
    RecordIsSaid(record, line, cwd);
    events := [];
    for i := 0 to |record.texts|
      invariant TextEvents(record, i, line, cwd, events) == TextEvents(record, 0, line, cwd, [])
    {
      if record.texts[i].blank {
        continue;
      }
      events := events + [TranscriptEvent(line, |events|, record.kind, record.texts[i].text, cwd)];
    }
    for i := 0 to |record.filePaths|
      invariant FileEvents(record, i, line, cwd, events) == GenericEvents(record, line, cwd)
    {
      events := events + [TranscriptEvent(line, |events|, "file_read", record.filePaths[i], cwd)];
    }
  }

  lemma ReadOneMore(env: Env, source: Source, st: LineState, lines: seq<Line>, i: nat)
    requires i < |lines|
    ensures var before := ReadLines(env, source, st, lines[..i]);
            var last := ReadLine(env, source, before.state, lines[i]);
            ReadLines(env, source, st, lines[..i + 1])
            == LineResult(last.state, before.events + last.events, before.invalid + last.invalid)
  {
    assert lines[..i + 1][..i] == lines[..i];
  }

  lemma {:induction false} TakeBeforeIs(lines: seq<Line>, bound: nat, i: nat)
    requires i <= |lines|
    requires forall k :: 0 <= k < i ==> lines[k].number < bound
    requires i < |lines| ==> lines[i].number >= bound
    ensures TakeBefore(lines, bound) == lines[..i]
    decreases i
  {
    if i > 0 {
      TakeBeforeIs(lines[1..], bound, i - 1);
      assert lines[..i] == [lines[0]] + lines[1..][..i - 1];
    }
  }

  /** The working directory the lines before `bound` left behind. */
  method PrefixCwd(env: Env, lines: seq<Line>, bound: nat) returns (sessionCwd: Option<string>)
    ensures sessionCwd == ReadLines(env, GenericSource, START, TakeBefore(lines, bound)).state.cwd
  {
    sessionCwd := None;
    var i := 0;
    while i < |lines| && lines[i].number < bound
      invariant 0 <= i <= |lines|
      invariant forall k :: 0 <= k < i ==> lines[k].number < bound
      invariant sessionCwd == ReadLines(env, GenericSource, START, lines[..i]).state.cwd
    {
      ReadOneMore(env, GenericSource, START, lines, i);
      var decoded := env.decode(lines[i].raw);
      if decoded.Parsed? && decoded.generic.cwd.Some? {
        sessionCwd := decoded.generic.cwd;
      }
      i := i + 1;
    }
    TakeBeforeIs(lines, bound, i);
  }

  method ParseGenericScan(env: Env, content: Bytes, scan: LineScan, fallback: string, chunkBytes: nat)
    returns (data: SessionData)
    requires chunkBytes > 0
    ensures data == ParsedScan(env, GenericSource, content, scan, fallback)
  {
    var sessionId := fallback;
    var sessionCwd: Option<string> := None;
    if scan.startOffset != 0 && scan.lines != [] {
      var prefix := ScanLines(content, 0, chunkBytes);
      sessionCwd := PrefixCwd(env, prefix.value.lines, scan.lines[0].number);
    }
    ghost var start := Restore(env, GenericSource, content, scan);
    var events: seq<TranscriptEvent> := [];
    var invalidLines := 0;
    for i := 0 to |scan.lines|
      invariant var r := ReadLines(env, GenericSource, start, scan.lines[..i]);
                && sessionCwd == r.state.cwd && sessionId == r.state.sessionId.GetOr(fallback)
                && events == r.events && invalidLines == r.invalid
    {
      ReadOneMore(env, GenericSource, start, scan.lines, i);
      var decoded := env.decode(scan.lines[i].raw);
      if decoded.BlankLine? {
        continue;
      }
      if decoded.NotARecord? {
        invalidLines := invalidLines + 1;
        continue;
      }
      if decoded.generic.sessionId.Some? {
        sessionId := decoded.generic.sessionId.value;
      }
      if decoded.generic.cwd.Some? {
        sessionCwd := decoded.generic.cwd;
      }
      var more := RecordEvents(decoded.generic, scan.lines[i].number, sessionCwd);
      events := events + more;
    }
    assert scan.lines[..|scan.lines|] == scan.lines;
    data := SessionData(sessionId, events, invalidLines);
  }

  /** Feed the prefix lines below `bound` to a fresh parser. */
  method ReplayCodex(env: Env, parser: CodexParser.LineParser, lines: seq<Line>, bound: nat, fallback: string)
    returns (sessionId: string)
    requires parser.Model() == Codex.INITIAL
    modifies parser
    ensures var r := ReadLines(env, CodexSource, START, TakeBefore(lines, bound)).state;
            parser.Model() == r.codex && sessionId == r.sessionId.GetOr(fallback)
  {
    sessionId := fallback;
    var i := 0;
    while i < |lines| && lines[i].number < bound
      invariant 0 <= i <= |lines|
      invariant forall k :: 0 <= k < i ==> lines[k].number < bound
      invariant Reading(ReadLines(env, CodexSource, START, lines[..i]).state, parser.Model(), sessionId, fallback, true)
    {
      ReadOneMore(env, CodexSource, START, lines, i);
      var decoded := env.decode(lines[i].raw);
      if decoded.Parsed? {
        if decoded.generic.sessionId.Some? {
          sessionId := decoded.generic.sessionId.value;
        }
        var _ := parser.ParseLine(Some(decoded.codex), lines[i].number);
      }
      i := i + 1;
    }
    TakeBeforeIs(lines, bound, i);
  }

  /** The parser and the running session id match the lines read so far. */
  ghost predicate Reading(st: LineState, model: Codex.State, sessionId: string, fallback: string, replaying: bool) {
    && model == st.codex
    && (replaying || model.sessionId.None? ==> sessionId == st.sessionId.GetOr(fallback))
  }

  /** Feed the scanned lines to the parser, collecting what they yield. */
  method FeedCodex(env: Env, parser: CodexParser.LineParser, lines: seq<Line>, ghost start: LineState,
                   sessionId0: string, fallback: string)
    returns (sessionId: string, events: seq<TranscriptEvent>, invalidLines: nat)
    requires Reading(start, parser.Model(), sessionId0, fallback, false)
    modifies parser
    ensures var r := ReadLines(env, CodexSource, start, lines);
            && Reading(r.state, parser.Model(), sessionId, fallback, false)
            && events == r.events && invalidLines == r.invalid
  {
    sessionId := sessionId0;
    events := [];
    invalidLines := 0;
    for i := 0 to |lines|
      invariant Reading(ReadLines(env, CodexSource, start, lines[..i]).state, parser.Model(), sessionId, fallback,
                        false)
      invariant events == ReadLines(env, CodexSource, start, lines[..i]).events
      invariant invalidLines == ReadLines(env, CodexSource, start, lines[..i]).invalid
    {
      ReadOneMore(env, CodexSource, start, lines, i);
      var decoded := env.decode(lines[i].raw);
      if decoded.BlankLine? {
        continue;
      }
      if decoded.NotARecord? {
        invalidLines := invalidLines + 1;
        continue;
      }
      if decoded.generic.sessionId.Some? {
        sessionId := decoded.generic.sessionId.value;
      }
      CodexUsage.SessionIdSticks(parser.Model(), decoded.codex, lines[i].number);
      var more := parser.ParseLine(Some(decoded.codex), lines[i].number);
      events := events + FromCodex(more);
    }
    assert lines[..|lines|] == lines;
  }

  method ParseCodexScan(env: Env, content: Bytes, scan: LineScan, fallback: string, chunkBytes: nat)
    returns (data: SessionData)
    requires chunkBytes > 0
    ensures data == ParsedScan(env, CodexSource, content, scan, fallback)
  {
    var parser := new CodexParser.LineParser();
    var sessionId := fallback;
    if scan.startOffset != 0 && scan.lines != [] {
      var prefix := ScanLines(content, 0, chunkBytes);
      sessionId := ReplayCodex(env, parser, prefix.value.lines, scan.lines[0].number, fallback);
    }
    ghost var start := Restore(env, CodexSource, content, scan);
    if parser.sessionId.Some? {
      sessionId := parser.sessionId.value;
    }
    var events, invalidLines;
    sessionId, events, invalidLines := FeedCodex(env, parser, scan.lines, start, sessionId, fallback);
    if parser.sessionId.Some? {
      sessionId := parser.sessionId.value;
    }
    data := SessionData(sessionId, events, invalidLines);
  }

  method ParseScan(env: Env, source: Source, content: Bytes, scan: LineScan, fallback: string, chunkBytes: nat)
    returns (data: SessionData)
    requires chunkBytes > 0
    ensures data == ParsedScan(env, source, content, scan, fallback)
  {
    match source
    case GenericSource => data := ParseGenericScan(env, content, scan, fallback, chunkBytes);
    case CodexSource => data := ParseCodexScan(env, content, scan, fallback, chunkBytes);
  }
}
