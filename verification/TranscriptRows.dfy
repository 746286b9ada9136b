/**
  What a whole-file parse of a generic transcript stores, told line by line
  from the records: which texts and paths become rows, under which index, and
  in which working directory.
 */
module TranscriptRows {
  import opened Prelude
  import opened Sequences
  import opened Cursor
  import opened Transcript
  import opened Ingest

  // ---------------------------------------------------------------------
  // What the lines say
  // ---------------------------------------------------------------------

  function CwdNamed(env: Env, line: Line): Option<string> {
    match env.decode(line.raw)
    case Parsed(generic, _) => generic.cwd
    case _ => None
  }

  function SessionNamed(env: Env, line: Line): Option<string> {
    match env.decode(line.raw)
    case Parsed(generic, _) => generic.sessionId
    case _ => None
  }

  /** The last value named by the lines, if any names one. */
  function LastNamed(named: Line -> Option<string>, lines: seq<Line>): Option<string> {
    if lines == [] then None
    else
      var last := named(lines[|lines| - 1]);
      if last.Some? then last else LastNamed(named, lines[..|lines| - 1])
  }

  /** How many lines are neither blank nor a record. */
  function Unreadable(env: Env, lines: seq<Line>): nat {
    if lines == [] then 0
    else Unreadable(env, lines[..|lines| - 1]) + (if env.decode(lines[|lines| - 1].raw).NotARecord? then 1 else 0)
  }

  function OfLine(events: seq<TranscriptEvent>, n: nat): seq<TranscriptEvent> {
    if events == [] then []
    else
      var last := events[|events| - 1];
      OfLine(events[..|events| - 1], n) + (if last.line == n then [last] else [])
  }

  function RowsOfLine(rows: seq<EventRow>, n: nat): seq<EventRow> {
    if rows == [] then []
    else
      var last := rows[|rows| - 1];
      RowsOfLine(rows[..|rows| - 1], n) + (if last.line == n then [last] else [])
  }

  lemma {:induction false} OfLineAppend(a: seq<TranscriptEvent>, b: seq<TranscriptEvent>, n: nat)
    ensures OfLine(a + b, n) == OfLine(a, n) + OfLine(b, n)
    decreases |b|
  {
    if b == [] {
      assert a + b == a && OfLine(a, n) + [] == OfLine(a, n);
    } else {
      var k := |b| - 1;
      assert (a + b)[..|a + b| - 1] == a + b[..k];
      OfLineAppend(a, b[..k], n);
      Associates(OfLine(a, n), OfLine(b[..k], n), if b[k].line == n then [b[k]] else []);
    }
  }

  lemma {:induction false} OfOneLine(events: seq<TranscriptEvent>, line: nat, n: nat)
    requires forall i :: 0 <= i < |events| ==> events[i].line == line
    ensures OfLine(events, n) == if line == n then events else []
  {
    if events != [] {
      OfOneLine(events[..|events| - 1], line, n);
    }
  }

  lemma {:induction false} StoredOfLine(env: Env, events: seq<TranscriptEvent>, n: nat)
    ensures RowsOfLine(Stored(env, events), n) == Stored(env, OfLine(events, n))
  {
    if events != [] {
      var k := |events| - 1;
      StoredOfLine(env, events[..k], n);
      assert Stored(env, events)[..k] == Stored(env, events[..k]);
    }
  }

  // ---------------------------------------------------------------------
  // Reading them
  // ---------------------------------------------------------------------

  /** The events of each line, and the state and the count the lines leave. */
  ghost predicate ReadAs(env: Env, lines: seq<Line>, r: LineResult) {
    && r.state.cwd == LastNamed(l => CwdNamed(env, l), lines)
    && r.state.sessionId == LastNamed(l => SessionNamed(env, l), lines)
    && r.invalid == Unreadable(env, lines)
    && (forall k :: 0 <= k < |lines| ==> LineReadAs(env, lines, k, r.events))
    && (forall i :: 0 <= i < |r.events| ==> 1 <= r.events[i].line <= |lines|)
    && (forall i, j :: 0 <= i < j < |r.events| ==> r.events[i].line <= r.events[j].line)
  }

  ghost predicate LineReadAs(env: Env, lines: seq<Line>, k: nat, events: seq<TranscriptEvent>)
    requires k < |lines|
  {
    match env.decode(lines[k].raw)
    case Parsed(generic, _) =>
      RecordSays(generic, k + 1, LastNamed(l => CwdNamed(env, l), lines[..k + 1]), OfLine(events, k + 1))
    case _ => OfLine(events, k + 1) == []
  }

  lemma SaidOnItsLine(record: GenericRecord, line: nat, cwd: Option<string>)
    ensures forall i :: 0 <= i < |GenericEvents(record, line, cwd)| ==> GenericEvents(record, line, cwd)[i].line == line
  {
    hide TextEvents, FileEvents;
    TextEventsIndexed(record, 0, line, cwd, []);
    FileEventsIndexed(record, 0, line, cwd, TextEvents(record, 0, line, cwd, []));
    assert GenericEvents(record, line, cwd) == FileEvents(record, 0, line, cwd, TextEvents(record, 0, line, cwd, []));
  }

  /** The last line's own events, and where they leave the state. */
  lemma LastLineReads(env: Env, lines: seq<Line>, before: LineResult)
    requires lines != [] && NumberedFromOne(lines) && ReadAs(env, lines[..|lines| - 1], before)
    ensures var n := |lines| - 1;
            var last := ReadLine(env, GenericSource, before.state, lines[n]);
            && last.state.cwd == LastNamed(l => CwdNamed(env, l), lines)
            && last.state.sessionId == LastNamed(l => SessionNamed(env, l), lines)
            && before.invalid + last.invalid == Unreadable(env, lines)
            && (forall i :: 0 <= i < |last.events| ==> last.events[i].line == n + 1)
            && LineReadAs(env, lines, n, last.events)
  {
    hide GenericEvents, RecordSays;
    var n := |lines| - 1;
    var last := ReadLine(env, GenericSource, before.state, lines[n]);
    assert lines[..n + 1] == lines;
    if env.decode(lines[n].raw).Parsed? {
      var generic := env.decode(lines[n].raw).generic;
      RecordIsSaid(generic, n + 1, last.state.cwd);
      SaidOnItsLine(generic, n + 1, last.state.cwd);
      OfOneLine(last.events, n + 1, n + 1);
    }
  }

  lemma EarlierLineReads(env: Env, lines: seq<Line>, n: nat, k: nat, events: seq<TranscriptEvent>,
                         more: seq<TranscriptEvent>)
    requires k < n < |lines| && LineReadAs(env, lines[..n], k, events)
    requires forall i :: 0 <= i < |more| ==> more[i].line == n + 1
    ensures LineReadAs(env, lines, k, events + more)
  {
    hide RecordSays, OfLine;
    OfLineAppend(events, more, k + 1);
    OfOneLine(more, n + 1, k + 1);
    assert OfLine(events, k + 1) + [] == OfLine(events, k + 1);
    assert lines[..n][..k + 1] == lines[..k + 1];
  }

  lemma NewLineReads(env: Env, lines: seq<Line>, n: nat, events: seq<TranscriptEvent>, more: seq<TranscriptEvent>)
    requires n < |lines| && LineReadAs(env, lines, n, more)
    requires forall i :: 0 <= i < |events| ==> events[i].line <= n
    ensures LineReadAs(env, lines, n, events + more)
  {
    hide RecordSays, OfLine;
    OfLineAppend(events, more, n + 1);
    NoneOfLine(events, n + 1);
    assert [] + OfLine(more, n + 1) == OfLine(more, n + 1);
  }

  lemma {:induction false} NoneOfLine(events: seq<TranscriptEvent>, n: nat)
    requires forall i :: 0 <= i < |events| ==> events[i].line != n
    ensures OfLine(events, n) == []
  {
    if events != [] {
      NoneOfLine(events[..|events| - 1], n);
    }
  }

  /** Reading the lines one by one gives each line its events and the sticky values named last. */
  lemma {:induction false} LinesReadAs(env: Env, lines: seq<Line>)
    requires NumberedFromOne(lines)
    ensures ReadAs(env, lines, ReadLines(env, GenericSource, START, lines))
    decreases |lines|
  {
    hide ReadLine, LineReadAs;
    if lines != [] {
      var n := |lines| - 1;
      LinesReadAs(env, lines[..n]);
      var before := ReadLines(env, GenericSource, START, lines[..n]);
      var last := ReadLine(env, GenericSource, before.state, lines[n]);
      LastLineReads(env, lines, before);
      NewLineReads(env, lines, n, before.events, last.events);
      forall k | 0 <= k < n ensures LineReadAs(env, lines, k, before.events + last.events) {
        EarlierLineReads(env, lines, n, k, before.events, last.events);
      }
    }
  }

  // ---------------------------------------------------------------------
  // The stored rows
  // ---------------------------------------------------------------------

  function StoredCwd(env: Env, cwd: Option<string>): Option<string> {
    if cwd.Some? then Some(env.redactExcerpt(cwd.value)) else None
  }

  /** The rows of a line: its texts that are not blank, in order, then its read paths, and no other. */
  ghost predicate StoresRecord(env: Env, record: GenericRecord, line: nat, cwd: Option<string>, rows: seq<EventRow>) {
    var n := Kept(record.texts);
    && |rows| == n + |record.filePaths|
    && (forall i :: 0 <= i < |record.texts| && !record.texts[i].blank ==>
          && Kept(record.texts[..i]) < |rows|
          && rows[Kept(record.texts[..i])]
             == EventRow(line, Kept(record.texts[..i]), env.redactText(record.kind),
                         env.redactExcerpt(record.texts[i].text), StoredCwd(env, cwd)))
    && (forall j :: 0 <= j < |record.filePaths| ==>
          rows[n + j] == EventRow(line, n + j, env.redactText("file_read"), env.redactExcerpt(record.filePaths[j]),
                                  StoredCwd(env, cwd)))
  }

  lemma SaidIsStored(env: Env, record: GenericRecord, line: nat, cwd: Option<string>, events: seq<TranscriptEvent>)
    requires RecordSays(record, line, cwd, events)
    ensures StoresRecord(env, record, line, cwd, Stored(env, events))
  {
    hide Kept;
    forall i | 0 <= i < |record.texts| && !record.texts[i].blank ensures TextSaid(record, i, line, cwd, events) {}
  }

  /**
    A whole-file parse stores, of each line that is a record, its texts that
    are not blank and its read paths, in the directory named last at or before
    it; of any other line nothing; and rows of no other line.
   */
  lemma WholeFileStores(env: Env, content: Bytes, k: nat)
    requires k < |Scan(content, 0).lines|
    ensures var lines, rows := Scan(content, 0).lines, RowsOfLine(WholeEvents(env, GenericSource, content), k + 1);
            match env.decode(lines[k].raw)
            case Parsed(generic, _) =>
              StoresRecord(env, generic, k + 1, LastNamed(l => CwdNamed(env, l), lines[..k + 1]), rows)
            case _ => rows == []
  {
    hide ReadLines, Scan, RecordSays, StoresRecord, RowsOfLine, OfLine;
    var lines := Scan(content, 0).lines;
    WholeIsNumbered(content);
    LinesReadAs(env, lines);
    var events := WholeParse(env, GenericSource, content).events;
    assert LineReadAs(env, lines, k, events);
    StoredOfLine(env, events, k + 1);
    match env.decode(lines[k].raw)
    case Parsed(generic, _) =>
      SaidIsStored(env, generic, k + 1, LastNamed(l => CwdNamed(env, l), lines[..k + 1]), OfLine(events, k + 1));
    case _ =>
  }

  /** The rows come line by line, the errors are the lines that are no record, the session is the one named last. */
  lemma WholeFileCounts(env: Env, stem: string, content: Bytes)
    ensures var lines, rows := Scan(content, 0).lines, WholeEvents(env, GenericSource, content);
            && (forall i :: 0 <= i < |rows| ==> 1 <= rows[i].line <= |lines|)
            && (forall i, j :: 0 <= i < j < |rows| ==> rows[i].line <= rows[j].line)
            && WholeParse(env, GenericSource, content).invalid == Unreadable(env, lines)
            && WholeSession(env, GenericSource, stem, content)
               == env.redactText(LastNamed(l => SessionNamed(env, l), lines).GetOr(stem))
  {
    hide ReadLines, Scan, LineReadAs;
    WholeIsNumbered(content);
    LinesReadAs(env, Scan(content, 0).lines);
  }

  // ---------------------------------------------------------------------
  // The cursor row of a pass
  // ---------------------------------------------------------------------

  lemma {:induction false} InvalidIsUnreadable(env: Env, source: Source, st: LineState, lines: seq<Line>)
    ensures ReadLines(env, source, st, lines).invalid == Unreadable(env, lines)
  {
    if lines != [] {
      InvalidIsUnreadable(env, source, st, lines[..|lines| - 1]);
    }
  }

  /** Where a pass starts reading: at the committed offset when it resumes, else at the beginning. */
  function StartOf(st: PathState, file: File): nat {
    if PlanFor(st, file).action == ActionResume && st.row.Some? then st.row.value.lastOffset else 0
  }

  lemma ScanStart(content: Bytes, start: nat)
    requires start <= |content|
    ensures Scan(content, start).startOffset == start
  {}

  /**
    The errors of a pass: the lines of its region that are no record, and one
    for a torn tail; with no whole line to read on from, the sticky count, or
    one for the tail.
   */
  lemma PassRowExactly(env: Env, st: PathState, file: File, now: int)
    ensures StartOf(st, file) <= |file.content|
    ensures Ingested(env, st, file, now).row.Some?
    ensures var row, scan := Ingested(env, st, file, now).row.value, Scan(file.content, StartOf(st, file));
            && row.size == |file.content| && row.mtime == file.mtime && row.lastOffset == scan.newOffset
            && row.lastIndexedAt == now && !row.pathMissing
            && row.firstSeen == (if st.row.Some? then st.row.value.firstSeen else now)
            && row.parseErrors
               == (if PlanFor(st, file).action == ActionResume && scan.lines == [] && st.row.Some? then
                     (if StartOf(st, file) == |file.content| then st.row.value.parseErrors else 1)
                   else
                     Unreadable(env, scan.lines) + (if scan.newOffset < |file.content| then 1 else 0))
            && row.parseErrorRuns
               == (if row.parseErrors == 0 then 0
                   else if st.row.Some? then st.row.value.parseErrorRuns + 1 else 1)
  {
    hide Scan, ReadLines, Unreadable, Stored, Restore;
    var scan := ScanFor(st, file);
    ScanEndIsExact(file.content, StartOf(st, file));
    ScanStart(file.content, StartOf(st, file));
    InvalidIsUnreadable(env, file.source, Restore(env, file.source, file.content, scan), scan.lines);
  }
}
