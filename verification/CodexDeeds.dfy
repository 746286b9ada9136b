/**
  What a rollout says, told from its records alone: who did what, in order,
  and the interaction each deed leaves. Every notion here looks back over the
  records read (or forward, for how a reply ended); none follows the parser's
  state.
 */
module CodexDeeds {
  import opened Prelude
  import opened Interactions
  import opened Codex

  // ---------------------------------------------------------------------
  // What the records before a line left open
  // ---------------------------------------------------------------------

  /** The value named last. */
  ghost function LastNamed(of: Record -> Option<string>, lines: seq<Option<Record>>): Option<string> {
    if lines == [] then None
    else
      var n := |lines| - 1;
      if lines[n].Some? && of(lines[n].value).Some? then of(lines[n].value) else LastNamed(of, lines[..n])
  }

  ghost function SessionNamed(lines: seq<Option<Record>>): Option<string> {
    LastNamed((r: Record) => r.sessionId, lines)
  }

  ghost function CwdNamed(lines: seq<Option<Record>>): Option<string> {
    LastNamed((r: Record) => r.cwd, lines)
  }

  /** Where and when a record was written: its own facts, the session and directory named at or before it. */
  ghost function Setting(lines: seq<Option<Record>>, k: nat): Context
    requires k < |lines| && lines[k].Some?
  {
    var r, session := lines[k].value, SessionNamed(lines[..k + 1]);
    Context(r.timestamp, session, CwdNamed(lines[..k + 1]), if r.threadId.Some? then r.threadId else session,
            r.channel, r.sidechain)
  }

  ghost predicate HasMessage(line: Option<Record>, id: string) {
    line.Some? && line.value.body.AssistantMessage? && line.value.body.messageId == Some(id)
  }

  ghost predicate MessageSeen(lines: seq<Option<Record>>, id: string) {
    exists k :: 0 <= k < |lines| && HasMessage(lines[k], id)
  }

  predicate IsCall(line: Option<Record>) {
    line.Some? && line.value.body.Call?
  }

  /** The line of the last call with this id, unless its output came since. */
  ghost function OpenCall(lines: seq<Option<Record>>, id: string): (r: Option<nat>)
    ensures r.Some? ==> r.value < |lines| && IsCall(lines[r.value]) && lines[r.value].value.body.callId == Some(id)
  {
    if lines == [] then None
    else
      var n := |lines| - 1;
      if IsCall(lines[n]) && lines[n].value.body.callId == Some(id) then Some(n)
      else if lines[n].Some? && lines[n].value.body.CallOutput? && lines[n].value.body.callId == Some(id) then None
      else OpenCall(lines[..n], id)
  }

  ghost function OpenCallOf(lines: seq<Option<Record>>, id: Option<string>): (r: Option<nat>)
    ensures r.Some? ==> r.value < |lines| && IsCall(lines[r.value])
  {
    if id.None? then None else OpenCall(lines, id.value)
  }

  // ---------------------------------------------------------------------
  // Corrections
  // ---------------------------------------------------------------------

  ghost predicate Interrupts(blocks: seq<Block>, n: nat)
    requires n <= |blocks|
  {
    exists j :: 0 <= j < n && !blocks[j].blank && blocks[j].interrupt
  }

  /** The block a human writes after an interruption. */
  ghost predicate Corrects(blocks: seq<Block>, awaited: bool, i: nat)
    requires i < |blocks|
  {
    !blocks[i].blank && !blocks[i].interrupt && (awaited || Interrupts(blocks, i))
  }

  ghost predicate Corrected(blocks: seq<Block>, awaited: bool, n: nat)
    requires n <= |blocks|
  {
    exists j :: 0 <= j < n && Corrects(blocks, awaited, j)
  }

  /** Blank blocks, and those after the correction, are passed over. */
  ghost predicate Heard(blocks: seq<Block>, awaited: bool, i: nat)
    requires i < |blocks|
  {
    !blocks[i].blank && !Corrected(blocks, awaited, i)
  }

  /** After an interruption, until the human corrects or the assistant goes on. */
  ghost predicate Awaiting(lines: seq<Option<Record>>) {
    if lines == [] then false
    else
      var n := |lines| - 1;
      var before := Awaiting(lines[..n]);
      if lines[n].None? then before
      else
        match lines[n].value.body
        case AssistantMessage(_, _) => false
        case AssistantItem => false
        case Call(_, _, _, _, _, _) => false
        case TurnAborted(_) => true
        case UserMessage(interrupt) => interrupt || before
        case UserPrompt(blocks) =>
          !Corrected(blocks, before, |blocks|) && (before || Interrupts(blocks, |blocks|))
        case _ => before
  }

  // ---------------------------------------------------------------------
  // Deeds
  // ---------------------------------------------------------------------

  /** `Answer` and `Return` name the question or the call they belong to by its place among the interactions. */
  datatype What =
    | Reply(messageId: Option<string>)
    | Request
    | Answer(question: nat)
    | Quote
    | Stop
    | Abort
    | Ask
    | Invoke(name: string)
    | Return(call: Option<nat>, name: string)
    | Complete

  datatype Deed = Deed(what: What, line: nat, index: nat, ctx: Context, text: string)

  /** How many interactions they leave: a completion leaves none of its own. */
  ghost function Count(deeds: seq<Deed>): nat {
    if deeds == [] then 0
    else Count(deeds[..|deeds| - 1]) + (if deeds[|deeds| - 1].what.Complete? then 0 else 1)
  }

  /** The question a thread still has open. */
  ghost function Asking(deeds: seq<Deed>, sidechain: bool): Option<nat> {
    if deeds == [] then None
    else
      var n := |deeds| - 1;
      var before := Asking(deeds[..n], sidechain);
      if deeds[n].ctx.sidechain != sidechain then before
      else
        match deeds[n].what
        case Ask => Some(Count(deeds[..n]))
        case Stop => None
        case Abort => None
        case Answer(question) => if before == Some(question) then None else before
        case _ => before
  }

  /** The requests made on a thread: each opens a turn. */
  ghost function Turns(deeds: seq<Deed>, sidechain: bool): nat {
    if deeds == [] then 0
    else
      var last := deeds[|deeds| - 1];
      Turns(deeds[..|deeds| - 1], sidechain) + (if last.what.Request? && last.ctx.sidechain == sidechain then 1 else 0)
  }

  ghost function Replies(messageId: Option<string>, blocks: seq<Block>, line: nat, ctx: Context): seq<Deed> {
    if blocks == [] then []
    else
      var n := |blocks| - 1;
      Replies(messageId, blocks[..n], line, ctx)
      + (if blocks[n].blank then [] else [Deed(Reply(messageId), line, n, ctx, blocks[n].text)])
  }

  ghost function Prompted(block: Block, asking: Option<nat>): What {
    if block.interrupt then Stop
    else if block.quoted then Quote
    else if asking.Some? then Answer(asking.value)
    else Request
  }

  /** The deeds of the first `n` blocks of a prompt, after those before it. */
  ghost function PromptDeeds(before: seq<Deed>, blocks: seq<Block>, n: nat, awaited: bool, line: nat, ctx: Context)
    : seq<Deed>
    requires n <= |blocks|
  {
    if n == 0 then before
    else
      var earlier := PromptDeeds(before, blocks, n - 1, awaited, line, ctx);
      if Heard(blocks, awaited, n - 1) then
        earlier + [Deed(Prompted(blocks[n - 1], Asking(earlier, ctx.sidechain)), line, n - 1, ctx, blocks[n - 1].text)]
      else
        earlier
  }

  ghost function Deeds(lines: seq<Option<Record>>): seq<Deed>
    decreases |lines|
  {
    if lines == [] then []
    else
      var n := |lines| - 1;
      var before := Deeds(lines[..n]);
      if lines[n].None? then before
      else
        var ctx := Setting(lines, n);
        match lines[n].value.body
        case AssistantMessage(messageId, blocks) =>
          if messageId.Some? && MessageSeen(lines[..n], messageId.value) then before
          else before + Replies(messageId, blocks, n + 1, ctx)
        case UserPrompt(blocks) => PromptDeeds(before, blocks, |blocks|, Awaiting(lines[..n]), n + 1, ctx)
        case Call(_, name, _, _, question, prompt) =>
          before + [Deed(if question then Ask else Invoke(name), n + 1, 0, ctx, prompt)]
        case CallOutput(callId, text, _, _, _, _) =>
          before + [Deed(Outcome(lines[..n], OpenCallOf(lines[..n], callId)), n + 1, 0, ctx, text)]
        case TurnAborted(reason) => before + [Deed(Abort, n + 1, 0, ctx, reason)]
        case TaskComplete => before + [Deed(Complete, n + 1, 0, ctx, "")]
        case _ => before
  }

  /** The output of a question's call is its answer; any other is a result. */
  ghost function Outcome(lines: seq<Option<Record>>, call: Option<nat>): What
    requires call.Some? ==> call.value < |lines| && IsCall(lines[call.value])
    decreases |lines|
  {
    if call.None? then Return(None, "")
    else
      var body := lines[call.value].value.body;
      if body.question then Answer(Count(Deeds(lines[..call.value])))
      else Return(Some(Count(Deeds(lines[..call.value]))), body.name)
  }

  // ---------------------------------------------------------------------
  // How a reply ends
  // ---------------------------------------------------------------------

  /** The state in which a deed leaves the reply its thread was making. */
  function Closes(what: What): Option<Terminal> {
    match what
    case Complete => Some(Completed)
    case Stop => Some(Interrupted)
    case Abort => Some(Interrupted)
    case Request => Some(Unknown)
    case _ => None
  }

  /** Another reply of the thread supersedes it; the next closing deed of the thread ends it. */
  predicate Settles(d: Deed, sidechain: bool) {
    d.ctx.sidechain == sidechain && (d.what.Reply? || Closes(d.what).Some?)
  }

  ghost function Ending(deeds: seq<Deed>, sidechain: bool, from: nat): Terminal
    requires from <= |deeds|
    decreases |deeds| - from
  {
    if from == |deeds| then NotFinal
    else if Settles(deeds[from], sidechain) then Closes(deeds[from].what).GetOr(NotFinal)
    else Ending(deeds, sidechain, from + 1)
  }

  // ---------------------------------------------------------------------
  // The interactions
  // ---------------------------------------------------------------------

  function OriginOf(what: What): Origin
    requires !what.Complete?
  {
    match what
    case Reply(_) => AssistantText
    case Request => HumanRequest
    case Answer(_) => HumanAnswer
    case Quote => QuotedHistory
    case Stop => Harness
    case Abort => Harness
    case Ask => Question
    case Invoke(_) => ToolCall
    case Return(_, _) => ToolResult
  }

  function ActorOf(what: What): Actor
    requires !what.Complete?
  {
    match what
    case Reply(_) => Assistant
    case Request => User
    case Answer(_) => User
    case Quote => System
    case Stop => User
    case Abort => System
    case Ask => Assistant
    case Invoke(_) => Assistant
    case Return(_, _) => Tool
  }

  /** A call and its result go under the tool's name where it has one. */
  function ChannelOf(d: Deed): Option<string> {
    if (d.what.Invoke? || d.what.Return?) && d.what.name != "" then Some(d.what.name) else d.ctx.channel
  }

  ghost function TerminalOf(deeds: seq<Deed>, p: nat): Terminal
    requires p < |deeds|
  {
    var d := deeds[p];
    if d.what.Reply? then Ending(deeds, d.ctx.sidechain, p + 1)
    else if d.what.Stop? || d.what.Abort? then Interrupted
    else NotFinal
  }

  ghost function Node(deeds: seq<Deed>, p: nat): Interaction
    requires p < |deeds| && !deeds[p].what.Complete?
  {
    var d, turn := deeds[p], Turns(deeds[..p + 1], deeds[p].ctx.sidechain);
    Interaction(
      OriginOf(d.what), ActorOf(d.what), d.line, d.index, Count(deeds[..p]), d.ctx.timestamp, d.ctx.sessionId,
      d.ctx.threadId, d.ctx.cwd, d.ctx.sidechain, ChannelOf(d), if turn == 0 then None else Some(turn),
      if d.what.Reply? then d.what.messageId else None,
      if d.what.Return? then d.what.call else None,
      if d.what.Answer? then Some(d.what.question) else None,
      TerminalOf(deeds, p), false, d.text)
  }

  /** One interaction for each deed but a completion, in order. */
  ghost predicate Tells(deeds: seq<Deed>, xs: seq<Interaction>) {
    && |xs| == Count(deeds)
    && forall p :: 0 <= p < |deeds| && !deeds[p].what.Complete? ==>
         Count(deeds[..p]) < |xs| && xs[Count(deeds[..p])] == Node(deeds, p)
  }

  // ---------------------------------------------------------------------
  // The events
  // ---------------------------------------------------------------------

  function Occurs(kind: EventKind, line: nat, index: nat, ctx: Context, text: string): Event {
    Event(kind, line, index, ctx.timestamp, ctx.sessionId, ctx.cwd, ctx.sidechain, text, None, None, None, None, None)
  }

  /** An interruption for each interrupting block heard, and the correction if one is. */
  ghost function PromptTells(blocks: seq<Block>, n: nat, awaited: bool, line: nat, ctx: Context): seq<Event>
    requires n <= |blocks|
  {
    if n == 0 then []
    else
      var earlier, i := PromptTells(blocks, n - 1, awaited, line, ctx), n - 1;
      if !Heard(blocks, awaited, i) then earlier
      else if blocks[i].interrupt then
        earlier + [Occurs(Interrupt, line, |earlier|, ctx, "[Request interrupted by user]")]
      else if Corrects(blocks, awaited, i) then
        earlier + [Occurs(UserTurnAfterCorrection, line, |earlier|, ctx, blocks[i].text)]
      else
        earlier
  }

  /** A run is told where its call stands. */
  ghost function RunOf(lines: seq<Option<Record>>, k: nat, exitCode: Option<int>, excerpt: Option<string>, index: nat)
    : Event
    requires k < |lines| && IsCall(lines[k])
  {
    var call := lines[k].value.body;
    Occurs(Run, k + 1, index, Setting(lines, k), call.command.GetOr(""))
      .(toolName := Some(call.name), command := call.command, exitCode := exitCode, errorExcerpt := excerpt)
  }

  /** A read is told at once; a run only if no output can be matched to it. */
  ghost function CallTells(lines: seq<Option<Record>>, k: nat): seq<Event>
    requires k < |lines| && IsCall(lines[k])
  {
    var call := lines[k].value.body;
    if call.kind.ReadCall? then
      var path := call.command.GetOr("");
      [Occurs(FileRead, k + 1, 0, Setting(lines, k), path)
         .(toolName := Some(call.name), filePath := if path == "" then None else Some(path))]
    else if call.kind.RunCall? && call.command.Some? && call.callId.None? then
      [RunOf(lines, k, None, None, 0)]
    else
      []
  }

  ghost function OutputTells(lines: seq<Option<Record>>, k: nat): seq<Event>
    requires k < |lines| && lines[k].Some? && lines[k].value.body.CallOutput?
  {
    var o := lines[k].value.body;
    var call := OpenCallOf(lines[..k], o.callId);
    var tool := if call.Some? then Some(lines[call.value].value.body.name) else None;
    if o.rejected then
      [Occurs(ToolRejected, k + 1, 0, Setting(lines, k), o.text).(toolName := tool)]
    else if call.Some? && lines[call.value].value.body.kind.RunCall? then
      var failedText := if o.text == "" then None else Some(o.text);
      [RunOf(lines, call.value, o.exitCode, if o.exitCode.None? && o.errorLike then failedText else o.excerpt, 0)]
    else if o.errorLike then
      [Occurs(ToolError, k + 1, 0, Setting(lines, k), o.text).(toolName := tool)]
    else
      []
  }

  ghost function LineTells(lines: seq<Option<Record>>, k: nat): seq<Event>
    requires k < |lines|
  {
    if lines[k].None? then []
    else
      match lines[k].value.body
      case UserPrompt(blocks) => PromptTells(blocks, |blocks|, Awaiting(lines[..k]), k + 1, Setting(lines, k))
      case Call(_, _, _, _, _, _) => CallTells(lines, k)
      case CallOutput(_, _, _, _, _, _) => OutputTells(lines, k)
      case TurnAborted(_) => [Occurs(Interrupt, k + 1, 0, Setting(lines, k), "[Request interrupted by user]")]
      case UserMessage(interrupt) =>
        if interrupt then [Occurs(Interrupt, k + 1, 0, Setting(lines, k), "[Request interrupted by user]")] else []
      case RejectionEvent(tool, text) =>
        [Occurs(ToolRejected, k + 1, 0, Setting(lines, k), text).(toolName := tool)]
      case _ => []
  }

  ghost function EventsTold(lines: seq<Option<Record>>): seq<Event> {
    if lines == [] then [] else EventsTold(lines[..|lines| - 1]) + LineTells(lines, |lines| - 1)
  }
}
