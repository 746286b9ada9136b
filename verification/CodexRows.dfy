/**
  What a whole-file parse of a Codex rollout stores, told from its records.
 */
module CodexRows {
  import opened Prelude
  import opened Cursor
  import opened Transcript
  import opened Ingest
  import opened TranscriptRows
  import Codex
  import CodexDeeds
  import CodexStory

  function KindStored(kind: Codex.EventKind): string {
    match kind
    case Run => "run"
    case ToolError => "tool_error"
    case ToolRejected => "tool_rejected"
    case Interrupt => "interrupt"
    case FileRead => "file_read"
    case UserTurnAfterCorrection => "user_turn_after_correction"
  }

  lemma {:induction false} StickySession(env: Env, lines: seq<Line>)
    ensures var r := ReadLines(env, CodexSource, START, lines);
            r.state.sessionId == LastNamed(l => SessionNamed(env, l), lines) && r.invalid == Unreadable(env, lines)
    decreases |lines|
  {
    if lines != [] {
      StickySession(env, lines[..|lines| - 1]);
    }
  }

  /**
    A whole-file parse of a rollout stores exactly the events its records
    tell, in order; counts exactly the lines that are no record; and files
    them under the session the rollout names, else the one its records name,
    else the file's own name.
   */
  lemma WholeCodexStores(env: Env, stem: string, content: Bytes)
    ensures var lines := Scan(content, 0).lines;
            var told := CodexDeeds.EventsTold(CodexRecords(env, lines));
            var rows := WholeEvents(env, CodexSource, content);
            && |rows| == |told|
            && (forall i :: 0 <= i < |rows| ==>
                  rows[i] == EventRow(told[i].sourceLine, told[i].eventIndex, env.redactText(KindStored(told[i].kind)),
                                      env.redactExcerpt(told[i].text), StoredCwd(env, told[i].cwd)))
            && WholeParse(env, CodexSource, content).invalid == Unreadable(env, lines)
            && var named := CodexDeeds.SessionNamed(CodexRecords(env, lines));
               WholeSession(env, CodexSource, stem, content)
               == env.redactText(if named.Some? then named.value
                                 else LastNamed(l => SessionNamed(env, l), lines).GetOr(stem))
  {
    hide ReadLines, Scan, CodexDeeds.EventsTold, CodexDeeds.SessionNamed, Codex.Feed, Unreadable, CodexRecords;
    var lines := Scan(content, 0).lines;
    WholeIsNumbered(content);
    CodexReadIsFeed(env, lines);
    CodexStory.FeedMatches(CodexRecords(env, lines));
    StickySession(env, lines);
  }
}
