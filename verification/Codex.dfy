/**
  The Codex rollout line parser as a state machine on values
  (codex_reader.py). A decoded JSONL record is a `Record`; what the reader
  computes from its text alone (blankness, sentinels, exit status) is part of
  the record.
 */
module Codex {
  import opened Prelude
  import opened Interactions

  // ---------------------------------------------------------------------
  // Records
  // ---------------------------------------------------------------------

  datatype CallKind = RunCall | ReadCall | OtherCall

  datatype Block = Block(text: string, blank: bool, interrupt: bool, quoted: bool)

  datatype Counter =
    InputTokens | OutputTokens | CacheReadTokens | CacheWriteTokens | ReasoningTokens | TotalTokens

  datatype Body =
    | AssistantMessage(messageId: Option<string>, blocks: seq<Block>)
    | AssistantItem
    | UserPrompt(blocks: seq<Block>)
    | Call(callId: Option<string>, name: string, kind: CallKind, command: Option<string>, question: bool,
           prompt: string)
    | CallOutput(callId: Option<string>, text: string, rejected: bool, errorLike: bool,
                 exitCode: Option<int>, excerpt: Option<string>)
    | UsageSnapshot(counters: map<Counter, nat>, window: Option<int>)
    | TurnAborted(reason: string)
    | TaskComplete
    | RejectionEvent(tool: Option<string>, text: string)
    | UserMessage(interrupt: bool)
    | OtherRecord

  datatype Record = Record(
    timestamp: Option<string>,
    sessionId: Option<string>,
    cwd: Option<string>,
    threadId: Option<string>,
    channel: Option<string>,
    sidechain: bool,
    body: Body)

  // ---------------------------------------------------------------------
  // Output
  // ---------------------------------------------------------------------

  datatype EventKind = Run | ToolError | ToolRejected | Interrupt | FileRead | UserTurnAfterCorrection

  datatype Event = Event(
    kind: EventKind,
    sourceLine: nat,
    eventIndex: nat,
    timestamp: Option<string>,
    sessionId: Option<string>,
    cwd: Option<string>,
    sidechain: bool,
    text: string,
    toolName: Option<string>,
    command: Option<string>,
    exitCode: Option<int>,
    errorExcerpt: Option<string>,
    filePath: Option<string>)

  datatype TokenUsage = TokenUsage(
    sourceLine: nat,
    timestamp: Option<string>,
    sessionId: Option<string>,
    inputTokens: nat,
    outputTokens: nat,
    cacheReadTokens: nat,
    cacheWriteTokens: nat,
    reasoningTokens: nat,
    totalTokens: nat,
    window: Option<int>)
  {
    function Count(k: Counter): nat {
      match k
      case InputTokens => inputTokens
      case OutputTokens => outputTokens
      case CacheReadTokens => cacheReadTokens
      case CacheWriteTokens => cacheWriteTokens
      case ReasoningTokens => reasoningTokens
      case TotalTokens => totalTokens
    }
  }

  const INTERRUPT_SENTINEL := "[Request interrupted by user]"

  // ---------------------------------------------------------------------
  // State
  // ---------------------------------------------------------------------

  datatype PendingCall = PendingCall(
    name: string,
    kind: CallKind,
    command: Option<string>,
    sourceLine: nat,
    timestamp: Option<string>,
    sessionId: Option<string>,
    cwd: Option<string>,
    sidechain: bool,
    ordinal: nat,
    isQuestion: bool)

  /** A value kept once for the main thread and once for sidechains. */
  datatype PerThread<T> = PerThread(main: T, side: T)
  {
    function Get(sidechain: bool): T {
      if sidechain then side else main
    }

    function Set(sidechain: bool, value: T): PerThread<T> {
      if sidechain then this.(side := value) else this.(main := value)
    }
  }

  datatype State = State(
    sessionId: Option<string>,
    cwd: Option<string>,
    pending: map<string, PendingCall>,
    pendingOrder: seq<string>,
    awaitingCorrection: bool,
    lastUsage: map<Counter, nat>,
    usage: seq<TokenUsage>,
    maxUsage: map<Counter, nat>,
    interactions: seq<Interaction>,
    turns: PerThread<nat>,
    seenMessageIds: set<string>,
    pendingQuestion: PerThread<Option<nat>>,
    lastAssistant: PerThread<Option<nat>>)

  const INITIAL := State(
    None, None, map[], [], false, map[], [], map[], [],
    PerThread(0, 0), {}, PerThread(None, None), PerThread(None, None))

  datatype Context = Context(
    timestamp: Option<string>,
    sessionId: Option<string>,
    cwd: Option<string>,
    threadId: Option<string>,
    channel: Option<string>,
    sidechain: bool)

  function FirstSome(a: Option<string>, b: Option<string>): Option<string> {
    if a.Some? then a else b
  }

  function UpdateContext(s: State, r: Record): State {
    s.(sessionId := FirstSome(r.sessionId, s.sessionId), cwd := FirstSome(r.cwd, s.cwd))
  }

  function ContextOf(s: State, r: Record): Context {
    Context(r.timestamp, s.sessionId, s.cwd, FirstSome(r.threadId, s.sessionId), r.channel, r.sidechain)
  }

  // ---------------------------------------------------------------------
  // The interaction graph
  // ---------------------------------------------------------------------

  function NewInteraction(
      s: State, ctx: Context, origin: Origin, actor: Actor, line: nat, index: nat, text: string,
      messageId: Option<string> := None, terminal: Terminal := NotFinal, turnId: Option<nat> := None,
      callOrdinal: Option<nat> := None, questionOrdinal: Option<nat> := None, channel: Option<string> := None)
    : Interaction
  {
    Interaction(
      origin, actor, line, index, |s.interactions|, ctx.timestamp, ctx.sessionId, ctx.threadId, ctx.cwd, ctx.sidechain,
      FirstSome(channel, ctx.channel),
      if turnId.Some? then turnId
      else if s.turns.Get(ctx.sidechain) == 0 then None else Some(s.turns.Get(ctx.sidechain)),
      messageId, callOrdinal, questionOrdinal, terminal, false, text)
  }

  function Emit(s: State, x: Interaction): State {
    s.(interactions := s.interactions + [x])
  }

  function CloseTrailing(s: State, sidechain: bool, terminal: Terminal): State {
    match s.lastAssistant.Get(sidechain)
    case None => s
    case Some(index) =>
      s.(interactions := Reterminalize(s.interactions, index, terminal),
         lastAssistant := s.lastAssistant.Set(sidechain, None))
  }

  function OpenTurn(s: State, sidechain: bool): State {
    CloseTrailing(s.(turns := s.turns.Set(sidechain, s.turns.Get(sidechain) + 1)), sidechain, Unknown)
  }

  function InterruptTurn(s: State, sidechain: bool): State {
    var closed := CloseTrailing(s.(awaitingCorrection := true), sidechain, Interrupted);
    closed.(pendingQuestion := closed.pendingQuestion.Set(sidechain, None))
  }

  function InterruptEvent(line: nat, ctx: Context, index: nat): Event {
    Event(Interrupt, line, index, ctx.timestamp, ctx.sessionId, ctx.cwd, ctx.sidechain,
          INTERRUPT_SENTINEL, None, None, None, None, None)
  }

  // ---------------------------------------------------------------------
  // Assistant messages and prompts
  // ---------------------------------------------------------------------

  /** The blocks from `i` on, each non-blank one a new trailing reply. */
  function AssistantBlocks(s: State, blocks: seq<Block>, i: nat, messageId: Option<string>, line: nat,
                           ctx: Context): State
    requires i <= |blocks|
    decreases |blocks| - i
  {
    if i == |blocks| then s
    else if blocks[i].blank then AssistantBlocks(s, blocks, i + 1, messageId, line, ctx)
    else
      AssistantBlocks(AssistantBlock(s, blocks[i], i, messageId, line, ctx), blocks, i + 1, messageId, line, ctx)
  }

  function AssistantBlock(s: State, block: Block, i: nat, messageId: Option<string>, line: nat, ctx: Context): State {
    var x := NewInteraction(s, ctx, AssistantText, Assistant, line, i, block.text, messageId := messageId);
    Emit(s, x).(lastAssistant := s.lastAssistant.Set(ctx.sidechain, Some(x.ordinal)))
  }

  function EmitAssistantMessage(s: State, messageId: Option<string>, blocks: seq<Block>, line: nat,
                                ctx: Context): State {
    var duplicate := messageId.Some? && messageId.value in s.seenMessageIds;
    var s := if messageId.Some? then s.(seenMessageIds := s.seenMessageIds + {messageId.value}) else s;
    if duplicate then s else AssistantBlocks(s, blocks, 0, messageId, line, ctx)
  }

  function EmitPrompt(s: State, block: Block, line: nat, ctx: Context, i: nat): State {
    var sc := ctx.sidechain;
    if block.interrupt then
      InterruptTurn(
        Emit(s, NewInteraction(s, ctx, Harness, User, line, i, block.text, terminal := Interrupted)), sc)
    else if block.quoted then
      Emit(s, NewInteraction(s, ctx, QuotedHistory, System, line, i, block.text))
    else if s.pendingQuestion.Get(sc).Some? then
      var s1 := s.(pendingQuestion := s.pendingQuestion.Set(sc, None));
      Emit(s1, NewInteraction(s1, ctx, HumanAnswer, User, line, i, block.text,
                              questionOrdinal := s.pendingQuestion.Get(sc)))
    else
      var s1 := OpenTurn(s, sc);
      Emit(s1, NewInteraction(s1, ctx, HumanRequest, User, line, i, block.text, turnId := Some(s1.turns.Get(sc))))
  }

  function CorrectionEvent(line: nat, ctx: Context, index: nat, text: string): Event {
    Event(UserTurnAfterCorrection, line, index, ctx.timestamp, ctx.sessionId, ctx.cwd, ctx.sidechain,
          text, None, None, None, None, None)
  }

  function PromptBlocks(s: State, blocks: seq<Block>, i: nat, events: seq<Event>, line: nat, ctx: Context)
    : (State, seq<Event>)
    requires i <= |blocks|
    decreases |blocks| - i
  {
    if i == |blocks| then (s, events)
    else if blocks[i].blank then PromptBlocks(s, blocks, i + 1, events, line, ctx)
    else
      var s1 := EmitPrompt(s, blocks[i], line, ctx, i);
      if blocks[i].interrupt then
        PromptBlocks(s1.(awaitingCorrection := true), blocks, i + 1,
                     events + [InterruptEvent(line, ctx, |events|)], line, ctx)
      else if s1.awaitingCorrection then
        (s1.(awaitingCorrection := false), events + [CorrectionEvent(line, ctx, |events|, blocks[i].text)])
      else
        PromptBlocks(s1, blocks, i + 1, events, line, ctx)
  }

  // ---------------------------------------------------------------------
  // Calls and outputs
  // ---------------------------------------------------------------------

  function RunEvent(p: PendingCall, exitCode: Option<int>, excerpt: Option<string>, index: nat): Event {
    Event(Run, p.sourceLine, index, p.timestamp, p.sessionId, p.cwd, p.sidechain,
          p.command.GetOr(""), Some(p.name), p.command, exitCode, excerpt, None)
  }

  function NewCall(c: Body, line: nat, ctx: Context, ordinal: nat): PendingCall
    requires c.Call?
  {
    PendingCall(c.name, c.kind, c.command, line, ctx.timestamp, ctx.sessionId, ctx.cwd, ctx.sidechain, ordinal,
                c.question)
  }

  function CallInteraction(s: State, c: Body, line: nat, ctx: Context): State
    requires c.Call?
  {
    if c.question then
      Emit(s, NewInteraction(s, ctx, Question, Assistant, line, 0, c.prompt))
        .(pendingQuestion := s.pendingQuestion.Set(ctx.sidechain, Some(|s.interactions|)))
    else
      Emit(s, NewInteraction(s, ctx, ToolCall, Assistant, line, 0, c.prompt,
                             channel := if c.name == "" then None else Some(c.name)))
  }

  function FileReadEvent(c: Body, line: nat, ctx: Context): Event
    requires c.Call?
  {
    var path := c.command.GetOr("");
    Event(FileRead, line, 0, ctx.timestamp, ctx.sessionId, ctx.cwd, ctx.sidechain,
          path, Some(c.name), None, None, None, if path == "" then None else Some(path))
  }

  function RegisterCall(s: State, c: Body, line: nat, ctx: Context): (State, seq<Event>)
    requires c.Call?
  {
    var call := NewCall(c, line, ctx, |s.interactions|);
    var s1 := CallInteraction(s, c, line, ctx).(awaitingCorrection := false);
    var read := if c.kind.ReadCall? then [FileReadEvent(c, line, ctx)] else [];
    if c.callId.Some? then
      (s1.(pending := s1.pending[c.callId.value := call], pendingOrder := s1.pendingOrder + [c.callId.value]), read)
    else if c.kind.RunCall? && c.command.Some? then
      (s1, read + [RunEvent(call, None, None, |read|)])
    else
      (s1, read)
  }

  function RemoveFirst(xs: seq<string>, x: string): seq<string> {
    if xs == [] then []
    else if xs[0] == x then xs[1..]
    else [xs[0]] + RemoveFirst(xs[1..], x)
  }

  function FindPending(s: State, callId: Option<string>): Option<PendingCall> {
    if callId.Some? && callId.value in s.pending then Some(s.pending[callId.value]) else None
  }

  function RemovePending(s: State, callId: Option<string>): State {
    if FindPending(s, callId).None? then s
    else s.(pending := s.pending - {callId.value}, pendingOrder := RemoveFirst(s.pendingOrder, callId.value))
  }

  function OutputInteraction(s: State, o: Body, p: Option<PendingCall>, line: nat, ctx: Context): State
    requires o.CallOutput?
  {
    if p.Some? && p.value.isQuestion then
      var s1 := if s.pendingQuestion.Get(ctx.sidechain) == Some(p.value.ordinal)
                then s.(pendingQuestion := s.pendingQuestion.Set(ctx.sidechain, None)) else s;
      Emit(s1, NewInteraction(s1, ctx, HumanAnswer, User, line, 0, o.text, questionOrdinal := Some(p.value.ordinal)))
    else
      Emit(s, NewInteraction(s, ctx, ToolResult, Tool, line, 0, o.text,
                             callOrdinal := if p.Some? then Some(p.value.ordinal) else None,
                             channel := if p.Some? && p.value.name != "" then Some(p.value.name) else None))
  }

  function OutputExcerpt(o: Body): Option<string>
    requires o.CallOutput?
  {
    if o.exitCode.None? && o.errorLike then (if o.text == "" then None else Some(o.text)) else o.excerpt
  }

  function ToolEvent(kind: EventKind, o: Body, p: Option<PendingCall>, line: nat, ctx: Context): Event
    requires o.CallOutput?
  {
    Event(kind, line, 0, ctx.timestamp, ctx.sessionId, ctx.cwd, ctx.sidechain,
          o.text, if p.Some? then Some(p.value.name) else None, None, None, None, None)
  }

  function OutputEvents(o: Body, p: Option<PendingCall>, line: nat, ctx: Context): seq<Event>
    requires o.CallOutput?
  {
    if o.rejected then [ToolEvent(ToolRejected, o, p, line, ctx)]
    else if p.Some? && p.value.kind.RunCall? then [RunEvent(p.value, o.exitCode, OutputExcerpt(o), 0)]
    else if o.errorLike then [ToolEvent(ToolError, o, p, line, ctx)]
    else []
  }

  function ConsumeOutput(s: State, o: Body, line: nat, ctx: Context): (State, seq<Event>)
    requires o.CallOutput?
  {
    var p := FindPending(s, o.callId);
    (OutputInteraction(RemovePending(s, o.callId), o, p, line, ctx), OutputEvents(o, p, line, ctx))
  }

  // ---------------------------------------------------------------------
  // Token accounting
  // ---------------------------------------------------------------------

  function Peak(highs: map<Counter, nat>, current: map<Counter, nat>, k: Counter): nat
    requires k in highs || k in current
  {
    Max(if k in highs then highs[k] else 0, if k in current then current[k] else 0)
  }

  function Raise(highs: map<Counter, nat>, current: map<Counter, nat>): map<Counter, nat> {
    map k | k in highs.Keys + current.Keys :: Peak(highs, current, k)
  }

  /** A counter below its last value has been reset: all of it is new. */
  function Delta(last: map<Counter, nat>, current: map<Counter, nat>, k: Counter): nat {
    if k !in current then 0
    else if k !in last || current[k] < last[k] then current[k]
    else current[k] - last[k]
  }

  function UsageRow(last: map<Counter, nat>, current: map<Counter, nat>, line: nat, ctx: Context, window: Option<int>)
    : TokenUsage
  {
    TokenUsage(line, ctx.timestamp, ctx.sessionId,
               Delta(last, current, InputTokens), Delta(last, current, OutputTokens),
               Delta(last, current, CacheReadTokens), Delta(last, current, CacheWriteTokens),
               Delta(last, current, ReasoningTokens), Delta(last, current, TotalTokens), window)
  }

  predicate AnyCount(row: TokenUsage) {
    || row.inputTokens != 0 || row.outputTokens != 0 || row.cacheReadTokens != 0
    || row.cacheWriteTokens != 0 || row.reasoningTokens != 0 || row.totalTokens != 0
  }

  function ConsumeUsage(s: State, current: map<Counter, nat>, window: Option<int>, line: nat, ctx: Context): State {
    if current == map[] then s
    else
      var row := UsageRow(s.lastUsage, current, line, ctx, window);
      s.(maxUsage := Raise(s.maxUsage, current),
         lastUsage := s.lastUsage + current,
         usage := if AnyCount(row) then s.usage + [row] else s.usage)
  }

  // ---------------------------------------------------------------------
  // One line, many lines, the end
  // ---------------------------------------------------------------------

  function RejectedEvent(b: Body, line: nat, ctx: Context): Event
    requires b.RejectionEvent?
  {
    Event(ToolRejected, line, 0, ctx.timestamp, ctx.sessionId, ctx.cwd, ctx.sidechain,
          b.text, b.tool, None, None, None, None)
  }

  function AbortTurn(s: State, reason: string, line: nat, ctx: Context): State {
    InterruptTurn(
      Emit(s, NewInteraction(s, ctx, Harness, System, line, 0, reason, terminal := Interrupted)), ctx.sidechain)
  }

  function Dispatch(s: State, b: Body, line: nat, ctx: Context): (State, seq<Event>) {
    match b
    case AssistantMessage(messageId, blocks) =>
      (EmitAssistantMessage(s, messageId, blocks, line, ctx).(awaitingCorrection := false), [])
    case AssistantItem => (s.(awaitingCorrection := false), [])
    case UserPrompt(blocks) => PromptBlocks(s, blocks, 0, [], line, ctx)
    case Call(_, _, _, _, _, _) => RegisterCall(s, b, line, ctx)
    case CallOutput(_, _, _, _, _, _) => ConsumeOutput(s, b, line, ctx)
    case UsageSnapshot(counters, window) => (ConsumeUsage(s, counters, window, line, ctx), [])
    case TurnAborted(reason) => (AbortTurn(s, reason, line, ctx), [InterruptEvent(line, ctx, 0)])
    case TaskComplete => (CloseTrailing(s, ctx.sidechain, Completed), [])
    case RejectionEvent(_, _) => (s, [RejectedEvent(b, line, ctx)])
    case UserMessage(interrupt) =>
      if interrupt then (s.(awaitingCorrection := true), [InterruptEvent(line, ctx, 0)]) else (s, [])
    case OtherRecord => (s, [])
  }

  /** One line: blank lines and lines that are not JSON objects decode to None. */
  function Step(s: State, r: Option<Record>, line: nat): (State, seq<Event>) {
    if r.None? then (s, [])
    else
      var s1 := UpdateContext(s, r.value);
      Dispatch(s1, r.value.body, line, ContextOf(s1, r.value))
  }

  /** Lines numbered from `first`, in order. */
  function Feed(s: State, lines: seq<Option<Record>>, first: nat): (State, seq<Event>) {
    if lines == [] then (s, [])
    else
      var n := |lines| - 1;
      var before := Feed(s, lines[..n], first);
      var last := Step(before.0, lines[n], first + n);
      (last.0, before.1 + last.1)
  }

  datatype FinishError = MissingPendingCall(callId: string)

  function FlushNext(p: PendingCall, events: seq<Event>): seq<Event> {
    if p.kind.RunCall? && p.command.Some? then events + [RunEvent(p, None, None, |events|)] else events
  }

  /** Unresolved run calls from `i` on, in registration order. */
  function Unresolved(s: State, i: nat, events: seq<Event>): Result<seq<Event>, FinishError>
    requires i <= |s.pendingOrder|
    decreases |s.pendingOrder| - i
  {
    if i == |s.pendingOrder| then Success(events)
    else if s.pendingOrder[i] !in s.pending then Failure(MissingPendingCall(s.pendingOrder[i]))
    else Unresolved(s, i + 1, FlushNext(s.pending[s.pendingOrder[i]], events))
  }

  function Drained(s: State): State {
    var s1 := s.(pending := map[], pendingOrder := []);
    CloseTrailing(CloseTrailing(s1, false, Unknown), true, Unknown)
  }

  function Finish(s: State): (State, Result<seq<Event>, FinishError>) {
    var events := Unresolved(s, 0, []);
    if events.Failure? then (s, events) else (Drained(s), events)
  }

  lemma {:induction false} FeedAppend(s: State, a: seq<Option<Record>>, b: seq<Option<Record>>, first: nat)
    ensures Feed(s, a + b, first)
            == (Feed(Feed(s, a, first).0, b, first + |a|).0,
                Feed(s, a, first).1 + Feed(Feed(s, a, first).0, b, first + |a|).1)
    decreases |b|
  {
    hide Step;
    if b == [] {
      assert a + b == a;
      assert Feed(s, a, first).1 + [] == Feed(s, a, first).1;
    } else {
      var n := |b| - 1;
      FeedAppend(s, a, b[..n], first);
      assert (a + b)[..|a + b| - 1] == a + b[..n];
      var mid := Feed(s, a, first);
      var before := Feed(mid.0, b[..n], first + |a|);
      var last := Step(before.0, b[n], first + |a| + n);
      assert mid.1 + before.1 + last.1 == mid.1 + (before.1 + last.1);
    }
  }
}
