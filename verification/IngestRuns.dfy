/**
  Whole histories of one transcript file: it grows, shrinks and is rewritten
  between passes, passes are skipped or fail, and the index stays the one a
  whole-file parse of the last ingested bytes would give.
 */
module IngestRuns {
  import opened Prelude
  import opened Cursor
  import opened Transcript
  import opened Ingest
  import Codex
  import CodexUsage

  // ---------------------------------------------------------------------
  // One pass keeps the index exact
  // ---------------------------------------------------------------------

  /** The tables describe `last`, the bytes of the latest pass that read them. */
  ghost predicate Indexed(env: Env, source: Source, stem: string, st: PathState, last: Bytes) {
    if st.row.None? then st.events == []
    else
      && RowDescribes(st.row.value, last)
      && st.events == WholeEvents(env, source, last)
      && st.row.value.sessionId == WholeSession(env, source, stem, last)
      && (st.row.value.lastOffset < st.row.value.size ==> st.row.value.parseErrors > 0)
      && (st.row.value.parseErrors == 0 ==> st.row.value.parseErrorRuns == 0)
  }

  /** Trust a resume only if it reads on from bytes it has already committed. */
  ghost predicate Trusted(st: PathState, file: File, last: Bytes) {
    PlanFor(st, file).action == ActionResume ==> ConsumedUnchanged(last, file.content)
  }

  lemma {:induction false} TakeBeforePrefix(a: seq<Line>, b: seq<Line>)
    requires b != [] && forall i :: 0 <= i < |a| ==> a[i].number < b[0].number
    ensures TakeBefore(a + b, b[0].number) == a
  {
    TakeBeforeIs(a + b, b[0].number, |a|);
    assert (a + b)[..|a|] == a;
  }

  /** The replay sees exactly the committed lines. */
  lemma ReplayIsPrefix(content: Bytes, start: nat)
    requires OnBoundary(content, start) && Scan(content, start).lines != []
    ensures TakeBefore(Scan(content, 0).lines, Scan(content, start).lines[0].number) == Scan(content[..start], 0).lines
  {
    ScanResumes(content, start);
    WholeScan(content);
    WholeScan(content[..start]);
    SplitCounts(content[..start]);
    TakeBeforePrefix(Scan(content[..start], 0).lines, Scan(content, start).lines);
  }

  /** Generic events depend on the state only through the sticky directory. */
  lemma {:induction false} GenericDependsOnCwd(env: Env, a: LineState, b: LineState, lines: seq<Line>)
    requires a.cwd == b.cwd
    ensures var p, q := ReadLines(env, GenericSource, a, lines), ReadLines(env, GenericSource, b, lines);
            && p.events == q.events && p.invalid == q.invalid && p.state.cwd == q.state.cwd
            && (p.state.sessionId == q.state.sessionId
                || (p.state.sessionId == a.sessionId && q.state.sessionId == b.sessionId))
            && (a.sessionId.Some? ==> p.state.sessionId.Some?)
    decreases |lines|
  {
    if lines != [] {
      GenericDependsOnCwd(env, a, b, lines[..|lines| - 1]);
    }
  }

  /** A parse resumed at a committed boundary yields the events a whole parse adds there. */
  lemma ResumedEvents(env: Env, source: Source, content: Bytes, start: nat, fallback: string)
    requires OnBoundary(content, start) && Scan(content, start).lines != []
    ensures WholeParse(env, source, content).events
            == WholeParse(env, source, content[..start]).events
               + ParsedScan(env, source, content, Scan(content, start), fallback).events
  {
    var scan := Scan(content, start);
    var prefix := Scan(content[..start], 0).lines;
    ScanResumes(content, start);
    ReplayIsPrefix(content, start);
    ReadLinesAppend(env, source, START, prefix, scan.lines);
    PrefixAtZero(content);
    if source.GenericSource? {
      GenericDependsOnCwd(env, ReadLines(env, source, START, prefix).state, Restore(env, source, content, scan),
                          scan.lines);
    }
  }

  lemma PrefixAtZero(content: Bytes)
    ensures Scan(content[..0], 0).lines == []
  {
    WholeScan(content[..0]);
  }

  /** The line states a whole parse and a resumed one start the tail from. */
  lemma TailStates(env: Env, source: Source, content: Bytes, start: nat)
    requires OnBoundary(content, start) && Scan(content, start).lines != []
    ensures var scan := Scan(content, start);
            var whole := WholeParse(env, source, content[..start]).state;
            && Restore(env, source, content, scan)
               == (if source.GenericSource? then START.(cwd := whole.cwd) else whole)
            && WholeParse(env, source, content).state == ReadLines(env, source, whole, scan.lines).state
  {
    var scan := Scan(content, start);
    ScanResumes(content, start);
    ReplayIsPrefix(content, start);
    ReadLinesAppend(env, source, START, Scan(content[..start], 0).lines, scan.lines);
    PrefixAtZero(content);
  }

  /** Both parses also agree on the session, once redaction has been applied. */
  lemma ResumedSession(env: Env, source: Source, content: Bytes, start: nat, stem: string)
    requires RedactionIdempotent(env)
    requires OnBoundary(content, start) && Scan(content, start).lines != []
    ensures var fallback := WholeSession(env, source, stem, content[..start]);
            env.redactText(ParsedScan(env, source, content, Scan(content, start), fallback).sessionId)
            == WholeSession(env, source, stem, content)
  {
    var scan := Scan(content, start);
    var whole := WholeParse(env, source, content[..start]).state;
    TailStates(env, source, content, start);
    match source
    case GenericSource => GenericDependsOnCwd(env, whole, START.(cwd := whole.cwd), scan.lines);
    case CodexSource => CodexSessionSettled(env, whole, scan.lines);
  }

  /** A session id once read is never lost, only replaced. */
  lemma {:induction false} CodexSessionSettled(env: Env, st: LineState, lines: seq<Line>)
    ensures var st' := ReadLines(env, CodexSource, st, lines).state;
            && (st.sessionId.Some? ==> st'.sessionId.Some?)
            && (st.codex.sessionId.Some? ==> st'.codex.sessionId.Some?)
    decreases |lines|
  {
    if lines != [] {
      var n := |lines| - 1;
      CodexSessionSettled(env, st, lines[..n]);
      var before := ReadLines(env, CodexSource, st, lines[..n]).state;
      var decoded := env.decode(lines[n].raw);
      if decoded.Parsed? {
        CodexUsage.SessionIdSticks(before.codex, decoded.codex, lines[n].number);
      }
    }
  }

  lemma StoredAppend(env: Env, a: seq<TranscriptEvent>, b: seq<TranscriptEvent>)
    ensures Stored(env, a + b) == Stored(env, a) + Stored(env, b)
  {}

  /** The committed prefix of the new bytes is the committed prefix of the old. */
  lemma SamePrefix(env: Env, source: Source, stem: string, last: Bytes, content: Bytes)
    requires ConsumedUnchanged(last, content)
    ensures var start := Committed(last);
            && OnBoundary(content, start)
            && WholeParse(env, source, content[..start]) == WholeParse(env, source, last)
            && WholeSession(env, source, stem, content[..start]) == WholeSession(env, source, stem, last)
  {
    var start := Committed(last);
    CommittedIsBoundary(last);
    assert start > 0 ==>
        content[start - 1] == content[..start][start - 1] == last[..start][start - 1] == last[start - 1];
  }

  /** A resumed pass that finds no new line leaves the whole parse as it was. */
  lemma IdleEvents(content: Bytes, start: nat)
    requires OnBoundary(content, start) && Scan(content, start).lines == []
    ensures Scan(content, 0).lines == Scan(content[..start], 0).lines
    ensures Scan(content, start).newOffset == Committed(content) == start
    ensures Scan(content, start).pendingTail <==> Committed(content) < |content|
  {
    ScanResumes(content, start);
    ScanEndIsExact(content, start);
    SplitEnd(content[start..]);
    SplitIsSplit(content[start..]);
  }

  lemma ResumePassKeepsIndex(env: Env, st: PathState, last: Bytes, file: File, now: int)
    requires RedactionIdempotent(env)
    requires Indexed(env, file.source, file.stem, st, last) && st.row.Some?
    requires PlanFor(st, file).action == ActionResume && ConsumedUnchanged(last, file.content)
    ensures Indexed(env, file.source, file.stem, Ingested(env, st, file, now), file.content)
  {
    hide ReadLines, Split, CountNewlines, Stored;
    var content, start := file.content, Committed(last);
    PlanIsExact(st.row.value, last, content, file.mtime);
    SamePrefix(env, file.source, file.stem, last, content);
    ScanResumes(content, start);
    ScanEndIsExact(content, start);
    if Scan(content, start).lines == [] {
      IdleEvents(content, start);
      assert content[..|content|] == content;
    } else {
      var session := SessionFor(env, st, file);
      ResumedEvents(env, file.source, content, start, st.row.value.sessionId);
      StoredAppend(env, WholeParse(env, file.source, last).events, session.events);
      ResumedSession(env, file.source, content, start, file.stem);
    }
  }

  lemma FreshPassIndexes(env: Env, st: PathState, last: Bytes, file: File, now: int)
    requires Indexed(env, file.source, file.stem, st, last)
    requires PlanFor(st, file).action != ActionResume
    ensures Indexed(env, file.source, file.stem, Ingested(env, st, file, now), file.content)
  {
    hide ReadLines, Split, CountNewlines, Stored;
    var content := file.content;
    ScanEndIsExact(content, 0);
    if st.row.Some? {
      PlanIsExact(st.row.value, last, content, file.mtime);
    }
    assert Restore(env, file.source, content, Scan(content, 0)) == START;
    assert [] + Stored(env, WholeParse(env, file.source, content).events) == WholeEvents(env, file.source, content);
  }

  /** Any pass whose resume is trusted leaves the index of exactly the bytes it read. */
  lemma PassKeepsIndex(env: Env, st: PathState, last: Bytes, file: File, now: int)
    requires RedactionIdempotent(env)
    requires Indexed(env, file.source, file.stem, st, last) && Trusted(st, file, last)
    ensures Indexed(env, file.source, file.stem, Ingested(env, st, file, now), file.content)
    ensures KeysUnique(Ingested(env, st, file, now).events)
  {
    if PlanFor(st, file).action == ActionResume {
      ResumePassKeepsIndex(env, st, last, file, now);
    } else {
      FreshPassIndexes(env, st, last, file, now);
    }
    WholeEventsUnique(env, file.source, file.content);
  }

  /** What the pass did is trustworthy by itself when the committed span was hashed. */
  lemma ShortFilesAreTrusted(env: Env, st: PathState, last: Bytes, file: File)
    requires Indexed(env, file.source, file.stem, st, last)
    requires Committed(last) <= IDENTITY_PREFIX_BYTES
    ensures Trusted(st, file, last)
  {
    if st.row.Some? {
      ResumeIsSafeExactly(st.row.value, last);
    }
  }

  // ---------------------------------------------------------------------
  // The skip refines the pass
  // ---------------------------------------------------------------------

  /** On unchanged bytes the skip leaves the bookkeeping the idle pass would leave. */
  lemma SkipRefinesPass(env: Env, st: PathState, last: Bytes, file: File, now: int)
    requires Indexed(env, file.source, file.stem, st, last) && st.row.Some?
    requires file.content == last && file.mtime == st.row.value.mtime
    ensures Skips(st, last, file.mtime)
    ensures var skipped, passed := Skipped(st, last, file.mtime, now), Ingested(env, st, file, now);
            && skipped.events == passed.events == st.events
            && skipped.row.value.lastOffset == passed.row.value.lastOffset
            && skipped.row.value.parseErrors == passed.row.value.parseErrors
            && skipped.row.value.parseErrorRuns == passed.row.value.parseErrorRuns
            && skipped.row.value.sessionId == passed.row.value.sessionId
            && RowDescribes(skipped.row.value, last)
  {
    PlanIsExact(st.row.value, last, last, file.mtime);
    CommittedIsBoundary(last);
    var start := Committed(last);
    ScanEndIsExact(last, 0);
    ScanEndIsExact(last, start);
    ScanResumes(last, start);
    ScanLinesAreExact(last, start);
    NothingAfterCommit(last);
  }

  lemma NothingAfterCommit(content: Bytes)
    ensures Scan(content, Committed(content)).lines == []
    ensures Scan(content, Committed(content)).newOffset == Committed(content)
  {
    var start := Committed(content);
    CommittedIsBoundary(content);
    ScanEndIsExact(content, 0);
    NoNewlines(content[start..]);
    SplitCounts(content[start..]);
    ScanResumes(content, start);
  }

  // ---------------------------------------------------------------------
  // Histories
  // ---------------------------------------------------------------------

  datatype Op =
    | Write(content: Bytes, mtime: int)   // the file is appended to, cut or rewritten
    | Pass(now: int)                      // an ingest pass that commits
    | FailedPass                          // one that is rolled back
    | SkipCheck(now: int)                 // skip_unchanged_path
    | Sweep(missing: bool)                // the vanished-file sweep

  /** `errors` lists what each completed or skipped pass left in parse_errors. */
  datatype World = World(st: PathState, last: Bytes, content: Bytes, mtime: int, errors: seq<nat>)

  const EMPTY := World(UNSEEN, [], [], 0, [])

  function FileOf(w: World, stem: string, source: Source): File {
    File(w.content, w.mtime, stem, source)
  }

  function Next(env: Env, stem: string, source: Source, w: World, op: Op): World {
    match op
    case Write(content, mtime) => w.(content := content, mtime := mtime)
    case Pass(now) =>
      var st := Ingested(env, w.st, FileOf(w, stem, source), now);
      w.(st := st, last := w.content, errors := w.errors + [st.row.value.parseErrors])
    case FailedPass => w
    case SkipCheck(now) =>
      if !Skips(w.st, w.content, w.mtime) then w
      else
        var st := Skipped(w.st, w.content, w.mtime, now);
        w.(st := st, errors := w.errors + [st.row.value.parseErrors])
    case Sweep(missing) =>
      if w.st.row.None? then w else w.(st := w.st.(row := Some(w.st.row.value.(pathMissing := missing))))
  }

  function Run(env: Env, stem: string, source: Source, ops: seq<Op>): World {
    if ops == [] then EMPTY
    else Next(env, stem, source, Run(env, stem, source, ops[..|ops| - 1]), ops[|ops| - 1])
  }

  /** Every committing pass of the history either re-reads the file or resumes on unchanged bytes. */
  ghost predicate TrustedRun(env: Env, stem: string, source: Source, ops: seq<Op>) {
    forall n :: 0 <= n < |ops| && ops[n].Pass? ==> TrustedPass(env, stem, source, ops, n)
  }

  ghost predicate TrustedPass(env: Env, stem: string, source: Source, ops: seq<Op>, n: nat)
    requires n < |ops|
  {
    var w := Run(env, stem, source, ops[..n]);
    Trusted(w.st, FileOf(w, stem, source), w.last)
  }

  /** How many passes in a row, up to the latest, left errors. */
  function Streak(errors: seq<nat>): nat {
    if errors == [] || errors[|errors| - 1] == 0 then 0 else 1 + Streak(errors[..|errors| - 1])
  }

  lemma StreakSnoc(errors: seq<nat>, e: nat)
    ensures Streak(errors + [e]) == if e == 0 then 0 else 1 + Streak(errors)
  {
    assert (errors + [e])[..|errors|] == errors;
  }

  ghost predicate StreakKept(w: World) {
    && (w.st.row.None? <==> w.errors == [])
    && (w.st.row.Some? ==> w.st.row.value.parseErrors == w.errors[|w.errors| - 1]
                           && w.st.row.value.parseErrorRuns == Streak(w.errors))
  }

  /** A committed pass leaves a row whose run count follows from the row before. */
  lemma IngestedCounts(env: Env, st: PathState, file: File, now: int)
    ensures var row := Ingested(env, st, file, now).row;
            row.Some? && row.value.parseErrorRuns == NextParseErrorRuns(st.row, row.value.parseErrors)
  {
    hide Scan, PlanIngest, Stored, ParsedScan;
  }

  /** So does a skip, where the check skips. */
  lemma SkippedCounts(st: PathState, content: Bytes, mtime: int, now: int)
    requires Skips(st, content, mtime)
    ensures st.row.Some?
    ensures var row := Skipped(st, content, mtime, now).row;
            && row.Some?
            && (st.row.value.parseErrors != 0 ==>
                  row.value.parseErrorRuns == NextParseErrorRuns(st.row, row.value.parseErrors))
            && (st.row.value.parseErrors == 0 ==> row == st.row)
  {}

  lemma CountIsStreak(w: World, row: CursorRow)
    requires StreakKept(w)
    requires row.parseErrorRuns == NextParseErrorRuns(w.st.row, row.parseErrors)
             || (w.st.row == Some(row) && row.parseErrors == 0)
    ensures row.parseErrorRuns == Streak(w.errors + [row.parseErrors])
  {
    StreakSnoc(w.errors, row.parseErrors);
  }

  lemma StepKeepsStreak(env: Env, stem: string, source: Source, w: World, op: Op)
    requires StreakKept(w)
    ensures StreakKept(Next(env, stem, source, w, op))
  {
    hide Ingested, Skipped, Skips, Streak;
    match op
    case Pass(now) =>
      IngestedCounts(env, w.st, FileOf(w, stem, source), now);
      CountIsStreak(w, Ingested(env, w.st, FileOf(w, stem, source), now).row.value);
    case SkipCheck(now) =>
      if Skips(w.st, w.content, w.mtime) {
        SkippedCounts(w.st, w.content, w.mtime, now);
        CountIsStreak(w, Skipped(w.st, w.content, w.mtime, now).row.value);
      }
    case _ =>
  }

  /**
    Over any mix of passes, skips, failures and rewrites, parse_error_runs
    counts the latest passes in a row that left errors.
   */
  lemma {:induction false} ErrorStreakIsExact(env: Env, stem: string, source: Source, ops: seq<Op>)
    ensures StreakKept(Run(env, stem, source, ops))
    decreases |ops|
  {
    if ops != [] {
      hide StreakKept, Next;
      var n := |ops| - 1;
      ErrorStreakIsExact(env, stem, source, ops[..n]);
      StepKeepsStreak(env, stem, source, Run(env, stem, source, ops[..n]), ops[n]);
    }
  }

  lemma StepKeepsIndex(env: Env, stem: string, source: Source, w: World, op: Op)
    requires RedactionIdempotent(env)
    requires Indexed(env, source, stem, w.st, w.last)
    requires op.Pass? ==> Trusted(w.st, FileOf(w, stem, source), w.last)
    ensures var w' := Next(env, stem, source, w, op); Indexed(env, source, stem, w'.st, w'.last)
  {
    match op
    case Pass(now) => PassKeepsIndex(env, w.st, w.last, FileOf(w, stem, source), now);
    case _ =>
  }

  /**
    The incremental index is the from-scratch index: after any history whose
    resumes are trusted, the stored rows and session are those of one
    whole-file parse of the bytes last ingested, with no duplicate key.
   */
  lemma {:induction false} IncrementalIsFromScratch(env: Env, stem: string, source: Source, ops: seq<Op>)
    requires RedactionIdempotent(env) && TrustedRun(env, stem, source, ops)
    ensures var w := Run(env, stem, source, ops);
            && Indexed(env, source, stem, w.st, w.last)
            && KeysUnique(w.st.events)
    decreases |ops|
  {
    if ops != [] {
      var n := |ops| - 1;
      var before := ops[..n];
      forall k | 0 <= k < |before| && before[k].Pass? ensures TrustedPass(env, stem, source, before, k) {
        assert before[..k] == ops[..k];
        assert TrustedPass(env, stem, source, ops, k);
      }
      IncrementalIsFromScratch(env, stem, source, before);
      if ops[n].Pass? {
        assert TrustedPass(env, stem, source, ops, n);
      }
      StepKeepsIndex(env, stem, source, Run(env, stem, source, before), ops[n]);
    }
    WholeEventsUnique(env, source, Run(env, stem, source, ops).last);
  }

  /** The bytes of every file version stay short enough to be hashed whole. */
  ghost predicate ShortHistory(ops: seq<Op>) {
    forall n :: 0 <= n < |ops| && ops[n].Write? ==> Committed(ops[n].content) <= IDENTITY_PREFIX_BYTES
  }

  lemma {:induction false} ShortHistoryIsShort(env: Env, stem: string, source: Source, ops: seq<Op>)
    requires ShortHistory(ops)
    ensures var w := Run(env, stem, source, ops);
            Committed(w.last) <= IDENTITY_PREFIX_BYTES && Committed(w.content) <= IDENTITY_PREFIX_BYTES
    decreases |ops|
  {
    if ops != [] {
      ShortHistoryIsShort(env, stem, source, ops[..|ops| - 1]);
    }
  }

  /** For files whose complete lines fit the hashed prefix nothing has to be trusted. */
  lemma {:induction false} ShortHistoryIsFromScratch(env: Env, stem: string, source: Source, ops: seq<Op>)
    requires RedactionIdempotent(env) && ShortHistory(ops)
    ensures TrustedRun(env, stem, source, ops)
    ensures var w := Run(env, stem, source, ops); Indexed(env, source, stem, w.st, w.last)
    decreases |ops|
  {
    forall n | 0 <= n < |ops| && ops[n].Pass? ensures TrustedPass(env, stem, source, ops, n) {
      ShortHistoryIsFromScratch(env, stem, source, ops[..n]);
      ShortHistoryIsShort(env, stem, source, ops[..n]);
      var w := Run(env, stem, source, ops[..n]);
      ShortFilesAreTrusted(env, w.st, w.last, FileOf(w, stem, source));
    }
    IncrementalIsFromScratch(env, stem, source, ops);
  }
}
