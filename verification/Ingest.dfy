/**
  Incremental ingest under cursor bookkeeping (Store in twill_app.py), and why
  the incremental index is the index a whole-file parse would build.
 */
module Ingest {
  import opened Prelude
  import opened Cursor
  import opened Transcript
  import Codex
  import CodexCalls

  /** A stored `transcript_event` row, without the clock fallback for its time. */
  datatype EventRow = EventRow(line: nat, index: nat, kind: string, text: string, cwd: Option<string>)

  function Stored(env: Env, events: seq<TranscriptEvent>): (r: seq<EventRow>)
    ensures |r| == |events|
    ensures forall i :: 0 <= i < |r| ==> r[i] == StoredRow(env, events[i])
  {
    seq(|events|, i requires 0 <= i < |events| => StoredRow(env, events[i]))
  }

  function StoredRow(env: Env, e: TranscriptEvent): EventRow {
    EventRow(e.line, e.index, env.redactText(e.kind), env.redactExcerpt(e.text),
             match e.cwd case None => None case Some(cwd) => Some(env.redactExcerpt(cwd)))
  }

  /** What the tables hold for one path. */
  datatype PathState = PathState(row: Option<CursorRow>, events: seq<EventRow>)

  const UNSEEN := PathState(None, [])

  predicate Clashes(rows: seq<EventRow>, row: EventRow) {
    exists i :: 0 <= i < |rows| && rows[i].line == row.line && rows[i].index == row.index
  }

  /** The UNIQUE(session_key, source_line, event_index) constraint. */
  ghost predicate KeysUnique(rows: seq<EventRow>) {
    forall i, j :: 0 <= i < j < |rows| ==> !(rows[i].line == rows[j].line && rows[i].index == rows[j].index)
  }

  // ---------------------------------------------------------------------
  // One pass, as a value
  // ---------------------------------------------------------------------

  function NextParseErrorRuns(row: Option<CursorRow>, parseErrors: nat): nat {
    var previous := if row.Some? then row.value.parseErrorRuns else 0;
    if parseErrors > 0 then previous + 1 else 0
  }

  function SourceName(source: Source): string {
    match source
    case GenericSource => "jsonl"
    case CodexSource => "codex"
  }

  /** First seen only on insert; every write clears the missing flag. */
  function Upserted(row: Option<CursorRow>, sessionId: string, source: string, facts: FileFacts,
                    lastOffset: nat, parseErrors: nat, now: int): CursorRow
  {
    CursorRow(sessionId, source, facts.identitySha, facts.size, facts.mtime, lastOffset, parseErrors,
              NextParseErrorRuns(row, parseErrors), if row.Some? then row.value.firstSeen else now, now, false)
  }

  /** The file as one pass finds it. */
  datatype File = File(content: Bytes, mtime: int, stem: string, source: Source)

  function PlanFor(st: PathState, file: File): IngestPlan {
    PlanIngest(st.row, file.content, Facts(file.content, file.mtime))
  }

  predicate Idle(st: PathState, file: File) {
    var plan := PlanFor(st, file);
    plan.action == ActionResume && Scan(file.content, plan.startOffset).lines == []
  }

  function ScanFor(st: PathState, file: File): LineScan {
    Scan(file.content, PlanFor(st, file).startOffset)
  }

  function SessionFor(env: Env, st: PathState, file: File): SessionData {
    var plan := PlanFor(st, file);
    var fallback := if plan.action == ActionResume then st.row.value.sessionId else file.stem;
    ParsedScan(env, file.source, file.content, ScanFor(st, file), fallback)
  }

  function PassErrors(env: Env, st: PathState, file: File): nat {
    var scan := ScanFor(st, file);
    if Idle(st, file) then (if scan.RegionEmpty() then st.row.value.parseErrors else 1)
    else SessionFor(env, st, file).invalidLines + (if scan.pendingTail then 1 else 0)
  }

  function BaseEvents(st: PathState, file: File): seq<EventRow> {
    if PlanFor(st, file).replaceSession then [] else st.events
  }

  function Ingested(env: Env, st: PathState, file: File, now: int): PathState {
    var scan := ScanFor(st, file);
    var facts := Facts(file.content, file.mtime);
    var parseErrors := PassErrors(env, st, file);
    if Idle(st, file) then
      st.(row := Some(Upserted(st.row, st.row.value.sessionId, st.row.value.source, facts, scan.newOffset,
                               parseErrors, now)))
    else
      var session := SessionFor(env, st, file);
      PathState(
        Some(Upserted(st.row, env.redactText(session.sessionId), SourceName(file.source), facts, scan.newOffset,
                      parseErrors, now)),
        BaseEvents(st, file) + Stored(env, session.events))
  }

  /** Does `skip_unchanged_path` keep this path out of the batch? */
  predicate Skips(st: PathState, content: Bytes, mtime: int) {
    && st.row.Some?
    && PlanIngest(st.row, content, Facts(content, mtime)).action == ActionResume
    && |content| == st.row.value.size
    && mtime == st.row.value.mtime
  }

  function SkipErrors(row: CursorRow): nat {
    if row.lastOffset < row.size then 1 else row.parseErrors
  }

  function Skipped(st: PathState, content: Bytes, mtime: int, now: int): PathState {
    if !Skips(st, content, mtime) || st.row.value.parseErrors == 0 then st
    else
      var row := st.row.value;
      st.(row := Some(row.(parseErrors := SkipErrors(row),
                           parseErrorRuns := NextParseErrorRuns(st.row, SkipErrors(row)),
                           lastIndexedAt := now)))
  }

  // ---------------------------------------------------------------------
  // The store
  // ---------------------------------------------------------------------

  datatype StoreError = IntegrityError | StatementFailed

  class Store {
    const env: Env
    var cursors: map<string, CursorRow>
    var events: map<string, seq<EventRow>>

    constructor (env: Env)
      ensures this.env == env && cursors == map[] && events == map[]
    {
      this.env := env;
      cursors, events := map[], map[];
    }

    function StateOf(path: string): PathState
      reads this
    {
      PathState(if path in cursors then Some(cursors[path]) else None, if path in events then events[path] else [])
    }

    /** Every other path keeps its cursor row and its events. */
    twostate predicate OthersKept(path: string)
      reads this
    {
      forall p :: p != path ==> StateOf(p) == old(StateOf(p))
    }

    /**
      One session's rows and its cursor row in one transaction. `failAt` is
      the statement, if any, at which the database raises; then everything
      the transaction wrote is rolled back.
     */
    method Persist(path: string, rows: seq<EventRow>, replace: bool, row: CursorRow, failAt: Option<nat>)
      returns (r: Result<(), StoreError>)
      modifies this`cursors, this`events
      ensures OthersKept(path)
      ensures r.Failure? ==> StateOf(path) == old(StateOf(path))
      ensures r.Success? ==>
                StateOf(path) == PathState(Some(row), (if replace then [] else old(StateOf(path).events)) + rows)
      ensures failAt.None? && KeysUnique((if replace then [] else old(StateOf(path).events)) + rows) ==> r.Success?
    {
      var cursorsBefore, eventsBefore := cursors, events;
      var stored := StateOf(path).events;
      if replace {
        stored := [];
      }
      events := events[path := stored];
      ghost var base := stored;
      for i := 0 to |rows|
        invariant cursors == cursorsBefore
        invariant events == eventsBefore[path := stored]
        invariant stored == base + rows[..i]
      {
        if failAt == Some(i) {
          cursors, events := cursorsBefore, eventsBefore;
          return Failure(StatementFailed);
        }
        if Clashes(stored, rows[i]) {
          ClashBreaksUniqueness(base, rows, i);
          cursors, events := cursorsBefore, eventsBefore;
          return Failure(IntegrityError);
        }
        stored := stored + [rows[i]];
        events := events[path := stored];
        assert rows[..i + 1] == rows[..i] + [rows[i]];
      }
      assert rows[..|rows|] == rows;
      if failAt == Some(|rows|) {
        cursors, events := cursorsBefore, eventsBefore;
        return Failure(StatementFailed);
      }
      cursors := cursors[path := row];
      if failAt == Some(|rows| + 1) {
        cursors, events := cursorsBefore, eventsBefore;
        return Failure(StatementFailed);
      }
      r := Success(());
    }

    method IngestPath(path: string, file: File, now: int, chunkBytes: nat, failAt: Option<nat>)
      returns (r: Result<(), StoreError>)
      requires chunkBytes > 0
      modifies this`cursors, this`events
      ensures OthersKept(path)
      ensures r.Failure? ==> StateOf(path) == old(StateOf(path))
      ensures r.Success? ==> StateOf(path) == Ingested(env, old(StateOf(path)), file, now)
      ensures failAt.None? && KeysUnique(Ingested(env, old(StateOf(path)), file, now).events) ==> r.Success?
    {
      hide ParsedScan, KeysUnique, Stored;
      var st := StateOf(path);
      var row := st.row;
      var facts := Facts(file.content, file.mtime);
      var plan := PlanIngest(row, file.content, facts);
      var scanned := ScanLines(file.content, plan.startOffset, chunkBytes);
      var scan := scanned.value;
      if plan.action == ActionResume && scan.lines == [] {
        if failAt.Some? {
          return Failure(StatementFailed);
        }
        var parseErrors := if scan.RegionEmpty() then row.value.parseErrors else 1;
        cursors := cursors[path := Upserted(row, row.value.sessionId, row.value.source, facts, scan.newOffset,
                                            parseErrors, now)];
        return Success(());
      }
      var fallback := if plan.action == ActionResume then row.value.sessionId else file.stem;
      var session := ParseScan(env, file.source, file.content, scan, fallback, chunkBytes);
      var parseErrors := session.invalidLines + (if scan.pendingTail then 1 else 0);
      r := Persist(path, Stored(env, session.events), plan.replaceSession,
                   Upserted(row, env.redactText(session.sessionId), SourceName(file.source), facts, scan.newOffset,
                            parseErrors, now),
                   failAt);
    }

    method SkipUnchangedPath(path: string, content: Bytes, mtime: int, now: int) returns (skipped: bool)
      modifies this`cursors
      ensures OthersKept(path)
      ensures skipped == Skips(old(StateOf(path)), content, mtime)
      ensures StateOf(path) == Skipped(old(StateOf(path)), content, mtime, now)
    {
      if path !in cursors {
        return false;
      }
      var row := cursors[path];
      var facts := Facts(content, mtime);
      var plan := PlanIngest(Some(row), content, facts);
      if plan.action != ActionResume || facts.size != row.size || facts.mtime != row.mtime {
        return false;
      }
      if row.parseErrors != 0 {
        var parseErrors := if row.lastOffset < row.size then 1 else row.parseErrors;
        cursors := cursors[path := row.(parseErrors := parseErrors,
                                        parseErrorRuns := NextParseErrorRuns(Some(row), parseErrors),
                                        lastIndexedAt := now)];
      }
      return true;
    }
  }

  lemma ClashBreaksUniqueness(base: seq<EventRow>, rows: seq<EventRow>, i: nat)
    requires i < |rows| && Clashes(base + rows[..i], rows[i])
    ensures !KeysUnique(base + rows)
  {
    var stored, all := base + rows[..i], base + rows;
    var k :| 0 <= k < |stored| && stored[k].line == rows[i].line && stored[k].index == rows[i].index;
    assert all[k] == stored[k] && all[|base| + i] == rows[i];
  }

  // ---------------------------------------------------------------------
  // Whole-file parse: the simple thing
  // ---------------------------------------------------------------------

  function WholeParse(env: Env, source: Source, content: Bytes): LineResult {
    ReadLines(env, source, START, Scan(content, 0).lines)
  }

  function WholeEvents(env: Env, source: Source, content: Bytes): seq<EventRow> {
    Stored(env, WholeParse(env, source, content).events)
  }

  function WholeSession(env: Env, source: Source, stem: string, content: Bytes): string {
    env.redactText(SessionIdOf(source, WholeParse(env, source, content).state, stem))
  }

  // --- its keys never clash ---------------------------------------------

  ghost predicate IndexedOn(events: seq<TranscriptEvent>, line: nat) {
    forall i :: 0 <= i < |events| ==> events[i].line == line && events[i].index == i
  }

  lemma {:induction false} TextEventsIndexed(record: GenericRecord, i: nat, line: nat, cwd: Option<string>,
                                             events: seq<TranscriptEvent>)
    requires i <= |record.texts| && IndexedOn(events, line)
    ensures IndexedOn(TextEvents(record, i, line, cwd, events), line)
    decreases |record.texts| - i
  {
    if i < |record.texts| {
      TextEventsIndexed(
        record, i + 1, line, cwd,
        if record.texts[i].blank then events
        else events + [TranscriptEvent(line, |events|, record.kind, record.texts[i].text, cwd)]);
    }
  }

  lemma {:induction false} FileEventsIndexed(record: GenericRecord, i: nat, line: nat, cwd: Option<string>,
                                             events: seq<TranscriptEvent>)
    requires i <= |record.filePaths| && IndexedOn(events, line)
    ensures IndexedOn(FileEvents(record, i, line, cwd, events), line)
    decreases |record.filePaths| - i
  {
    if i < |record.filePaths| {
      FileEventsIndexed(record, i + 1, line, cwd,
                        events + [TranscriptEvent(line, |events|, "file_read", record.filePaths[i], cwd)]);
    }
  }

  ghost predicate EventKeysUnique(events: seq<TranscriptEvent>) {
    forall i, j :: 0 <= i < j < |events| ==> !(events[i].line == events[j].line && events[i].index == events[j].index)
  }

  ghost predicate NumberedFromOne(lines: seq<Line>) {
    forall i :: 0 <= i < |lines| ==> lines[i].number == i + 1
  }

  lemma {:induction false} GenericKeysUnique(env: Env, lines: seq<Line>)
    requires NumberedFromOne(lines)
    ensures var events := ReadLines(env, GenericSource, START, lines).events;
            EventKeysUnique(events) && forall i :: 0 <= i < |events| ==> events[i].line <= |lines|
    decreases |lines|
  {
    if lines != [] {
      var n := |lines| - 1;
      GenericKeysUnique(env, lines[..n]);
      var before := ReadLines(env, GenericSource, START, lines[..n]);
      var last := ReadLine(env, GenericSource, before.state, lines[n]);
      if env.decode(lines[n].raw).Parsed? {
        TextEventsIndexed(env.decode(lines[n].raw).generic, 0, n + 1, last.state.cwd, []);
        FileEventsIndexed(env.decode(lines[n].raw).generic, 0, n + 1, last.state.cwd,
                          TextEvents(env.decode(lines[n].raw).generic, 0, n + 1, last.state.cwd, []));
      }
      assert IndexedOn(last.events, n + 1);
    }
  }

  function CodexRecord(env: Env, line: Line): Option<Codex.Record> {
    match env.decode(line.raw)
    case Parsed(_, codex) => Some(codex)
    case _ => None
  }

  function CodexRecords(env: Env, lines: seq<Line>): (r: seq<Option<Codex.Record>>)
    ensures |r| == |lines|
    ensures forall i :: 0 <= i < |r| ==> r[i] == CodexRecord(env, lines[i])
  {
    seq(|lines|, i requires 0 <= i < |lines| => CodexRecord(env, lines[i]))
  }

  lemma CodexLine(env: Env, st: LineState, line: Line)
    ensures var q := Codex.Step(st.codex, CodexRecord(env, line), line.number);
            var r := ReadLine(env, CodexSource, st, line);
            r.state.codex == q.0 && r.events == FromCodex(q.1)
  {}

  lemma FromCodexAppend(a: seq<Codex.Event>, b: seq<Codex.Event>)
    ensures FromCodex(a + b) == FromCodex(a) + FromCodex(b)
  {}

  /** Reading a Codex file line by line is feeding its rollout to the parser. */
  lemma {:induction false} CodexReadIsFeed(env: Env, lines: seq<Line>)
    requires NumberedFromOne(lines)
    ensures var fed := Codex.Feed(Codex.INITIAL, CodexRecords(env, lines), 1);
            var r := ReadLines(env, CodexSource, START, lines);
            r.state.codex == fed.0 && r.events == FromCodex(fed.1)
    decreases |lines|
  {
    if lines != [] {
      var n := |lines| - 1;
      CodexReadIsFeed(env, lines[..n]);
      CodexReadOneMore(env, lines, n);
    }
  }

  lemma CodexReadOneMore(env: Env, lines: seq<Line>, n: nat)
    requires NumberedFromOne(lines) && |lines| == n + 1
    requires var fed := Codex.Feed(Codex.INITIAL, CodexRecords(env, lines[..n]), 1);
             var r := ReadLines(env, CodexSource, START, lines[..n]);
             r.state.codex == fed.0 && r.events == FromCodex(fed.1)
    ensures var fed := Codex.Feed(Codex.INITIAL, CodexRecords(env, lines), 1);
            var r := ReadLines(env, CodexSource, START, lines);
            r.state.codex == fed.0 && r.events == FromCodex(fed.1)
  {
    var records := CodexRecords(env, lines);
    assert records[..n] == CodexRecords(env, lines[..n]);
    var before := Codex.Feed(Codex.INITIAL, records[..n], 1);
    CodexLine(env, ReadLines(env, CodexSource, START, lines[..n]).state, lines[n]);
    FromCodexAppend(before.1, Codex.Step(before.0, records[n], n + 1).1);
  }

  lemma WholeIsNumbered(content: Bytes)
    ensures NumberedFromOne(Scan(content, 0).lines)
  {
    WholeScan(content);
  }

  /** One whole-file parse never breaks the UNIQUE constraint, whatever the file says. */
  lemma WholeEventsUnique(env: Env, source: Source, content: Bytes)
    ensures KeysUnique(WholeEvents(env, source, content))
  {
    var lines := Scan(content, 0).lines;
    WholeIsNumbered(content);
    match source
    case GenericSource => GenericKeysUnique(env, lines);
    case CodexSource =>
      CodexReadIsFeed(env, lines);
      CodexCalls.EventKeysNeverCollide(CodexRecords(env, lines));
      var fed := Codex.Feed(Codex.INITIAL, CodexRecords(env, lines), 1).1;
      var events := WholeParse(env, source, content).events;
      forall i, j | 0 <= i < j < |events|
        ensures !(events[i].line == events[j].line && events[i].index == events[j].index) {
        assert !CodexCalls.SameKey(fed[i], fed[j]);
      }
  }
}
