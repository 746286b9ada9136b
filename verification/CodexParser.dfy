/**
  The rollout line parser in its own form: an object whose methods update its
  fields. `Model()` is its state as a value; each method does to the fields
  what the state machine in `Codex` does to the value.
 */
module CodexParser {
  import opened Prelude
  import opened Interactions
  import opened Codex

  class LineParser {
    var sessionId: Option<string>
    var cwd: Option<string>
    var pending: map<string, PendingCall>
    var pendingOrder: seq<string>
    var awaitingCorrection: bool
    var lastUsage: map<Counter, nat>
    var usage: seq<TokenUsage>
    var maxUsage: map<Counter, nat>
    var interactions: seq<Interaction>
    var turns: PerThread<nat>
    var seenMessageIds: set<string>
    var pendingQuestion: PerThread<Option<nat>>
    var lastAssistant: PerThread<Option<nat>>

    function Model(): State
      reads this
    {
      State(sessionId, cwd, pending, pendingOrder, awaitingCorrection, lastUsage, usage, maxUsage, interactions,
            turns, seenMessageIds, pendingQuestion, lastAssistant)
    }

    constructor ()
      ensures Model() == INITIAL
    {
      sessionId, cwd := None, None;
      pending, pendingOrder := map[], [];
      awaitingCorrection := false;
      lastUsage, usage, maxUsage := map[], [], map[];
      interactions := [];
      turns := PerThread(0, 0);
      seenMessageIds := {};
      pendingQuestion, lastAssistant := PerThread(None, None), PerThread(None, None);
    }

    method EmitInteraction(
        ctx: Context, origin: Origin, actor: Actor, line: nat, index: nat, text: string,
        messageId: Option<string> := None, terminal: Terminal := NotFinal, turnId: Option<nat> := None,
        callOrdinal: Option<nat> := None, questionOrdinal: Option<nat> := None, channel: Option<string> := None)
      returns (ordinal: nat)
      modifies this`interactions
      ensures ordinal == |old(interactions)|
      ensures Model() == Emit(old(Model()), NewInteraction(old(Model()), ctx, origin, actor, line, index, text,
                                messageId := messageId, terminal := terminal, turnId := turnId,
                                callOrdinal := callOrdinal, questionOrdinal := questionOrdinal, channel := channel))
    {
      ordinal := |interactions|;
      var turn := turns.Get(ctx.sidechain);
      var currentTurn := if turn == 0 then None else Some(turn);
      interactions := interactions + [Interaction(
        origin, actor, line, index, ordinal, ctx.timestamp, ctx.sessionId, ctx.threadId, ctx.cwd, ctx.sidechain,
        FirstSome(channel, ctx.channel), if turnId.Some? then turnId else currentTurn,
        messageId, callOrdinal, questionOrdinal, terminal, false, text)];
    }

    method CloseTrailing(sidechain: bool, terminal: Terminal)
      modifies this`interactions, this`lastAssistant
      ensures Model() == Codex.CloseTrailing(old(Model()), sidechain, terminal)
    {
      var index := lastAssistant.Get(sidechain);
      if index.Some? {
        interactions := Reterminalize(interactions, index.value, terminal);
        lastAssistant := lastAssistant.Set(sidechain, None);
      }
    }

    method OpenTurn(sidechain: bool) returns (turn: nat)
      modifies this`turns, this`interactions, this`lastAssistant
      ensures Model() == Codex.OpenTurn(old(Model()), sidechain)
      ensures turn == turns.Get(sidechain)
    {
      turns := turns.Set(sidechain, turns.Get(sidechain) + 1);
      CloseTrailing(sidechain, Unknown);
      turn := turns.Get(sidechain);
    }

    method InterruptTurn(sidechain: bool)
      modifies this`awaitingCorrection, this`interactions, this`lastAssistant, this`pendingQuestion
      ensures Model() == Codex.InterruptTurn(old(Model()), sidechain)
    {
      awaitingCorrection := true;
      CloseTrailing(sidechain, Interrupted);
      pendingQuestion := pendingQuestion.Set(sidechain, None);
    }

    method EmitAssistantMessage(messageId: Option<string>, blocks: seq<Block>, line: nat, ctx: Context)
      modifies this
      ensures Model() == Codex.EmitAssistantMessage(old(Model()), messageId, blocks, line, ctx)
    {
      var duplicate := messageId.Some? && messageId.value in seenMessageIds;
      if messageId.Some? {
        seenMessageIds := seenMessageIds + {messageId.value};
      }
      ghost var start := Model();
      for i := 0 to |blocks|
        invariant duplicate ==> Model() == start
        invariant !duplicate ==> AssistantBlocks(Model(), blocks, i, messageId, line, ctx)
                                 == AssistantBlocks(start, blocks, 0, messageId, line, ctx)
      {
        if !duplicate && !blocks[i].blank {
          var ordinal := EmitInteraction(ctx, AssistantText, Assistant, line, i, blocks[i].text,
                                         messageId := messageId);
          lastAssistant := lastAssistant.Set(ctx.sidechain, Some(ordinal));
        }
      }
    }

    method EmitPrompt(block: Block, line: nat, ctx: Context, index: nat)
      modifies this
      ensures Model() == Codex.EmitPrompt(old(Model()), block, line, ctx, index)
    {
      var sidechain := ctx.sidechain;
      if block.interrupt {
        var _ := EmitInteraction(ctx, Harness, User, line, index, block.text, terminal := Interrupted);
        InterruptTurn(sidechain);
        return;
      }
      if block.quoted {
        var _ := EmitInteraction(ctx, QuotedHistory, System, line, index, block.text);
        return;
      }
      var question := pendingQuestion.Get(sidechain);
      if question.Some? {
        pendingQuestion := pendingQuestion.Set(sidechain, None);
        var _ := EmitInteraction(ctx, HumanAnswer, User, line, index, block.text, questionOrdinal := question);
        return;
      }
      var turn := OpenTurn(sidechain);
      var _ := EmitInteraction(ctx, HumanRequest, User, line, index, block.text, turnId := Some(turn));
    }

    method ConsumeUserPrompt(blocks: seq<Block>, line: nat, ctx: Context) returns (events: seq<Event>)
      modifies this
      ensures (Model(), events) == PromptBlocks(old(Model()), blocks, 0, [], line, ctx)
    {
      events := [];
      ghost var goal := PromptBlocks(Model(), blocks, 0, [], line, ctx);
      for i := 0 to |blocks|
        invariant PromptBlocks(Model(), blocks, i, events, line, ctx) == goal
      {
        if blocks[i].blank {
          continue;
        }
        EmitPrompt(blocks[i], line, ctx, i);
        if blocks[i].interrupt {
          awaitingCorrection := true;
          events := events + [InterruptEvent(line, ctx, |events|)];
          continue;
        }
        if awaitingCorrection {
          awaitingCorrection := false;
          events := events + [CorrectionEvent(line, ctx, |events|, blocks[i].text)];
          return;
        }
      }
    }

    method RegisterCall(c: Body, line: nat, ctx: Context) returns (events: seq<Event>)
      requires c.Call?
      modifies this
      ensures (Model(), events) == Codex.RegisterCall(old(Model()), c, line, ctx)
    {
      var call := PendingCall(c.name, c.kind, c.command, line, ctx.timestamp, ctx.sessionId, ctx.cwd, ctx.sidechain,
                              0, false);
      events := [];
      if c.question {
        var ordinal := EmitInteraction(ctx, Question, Assistant, line, 0, c.prompt);
        call := call.(ordinal := ordinal, isQuestion := true);
        pendingQuestion := pendingQuestion.Set(ctx.sidechain, Some(ordinal));
      } else {
        var ordinal := EmitInteraction(ctx, ToolCall, Assistant, line, 0, c.prompt,
                                       channel := if c.name == "" then None else Some(c.name));
        call := call.(ordinal := ordinal);
      }
      if c.kind.ReadCall? {
        events := [FileReadEvent(c, line, ctx)];
      }
      if c.callId.Some? {
        pending := pending[c.callId.value := call];
        pendingOrder := pendingOrder + [c.callId.value];
      } else if c.kind.RunCall? && c.command.Some? {
        events := events + [RunEvent(call, None, None, |events|)];
      }
      awaitingCorrection := false;
    }

    method RemovePending(callId: Option<string>) returns (p: Option<PendingCall>)
      modifies this`pending, this`pendingOrder
      ensures p == FindPending(old(Model()), callId)
      ensures Model() == Codex.RemovePending(old(Model()), callId)
    {
      if callId.None? || callId.value !in pending {
        return None;
      }
      p := Some(pending[callId.value]);
      pending := pending - {callId.value};
      pendingOrder := RemoveFirst(pendingOrder, callId.value);
    }

    method ConsumeCallOutput(o: Body, line: nat, ctx: Context) returns (events: seq<Event>)
      requires o.CallOutput?
      modifies this
      ensures (Model(), events) == ConsumeOutput(old(Model()), o, line, ctx)
    {
      var p := RemovePending(o.callId);
      EmitOutputInteraction(o, p, line, ctx);
      if o.rejected {
        return [ToolEvent(ToolRejected, o, p, line, ctx)];
      }
      if p.Some? && p.value.kind.RunCall? {
        var excerpt := o.excerpt;
        if o.exitCode.None? && o.errorLike {
          excerpt := if o.text == "" then None else Some(o.text);
        }
        return [RunEvent(p.value, o.exitCode, excerpt, 0)];
      }
      if o.errorLike {
        return [ToolEvent(ToolError, o, p, line, ctx)];
      }
      return [];
    }

    method EmitOutputInteraction(o: Body, p: Option<PendingCall>, line: nat, ctx: Context)
      requires o.CallOutput?
      modifies this`interactions, this`pendingQuestion
      ensures Model() == OutputInteraction(old(Model()), o, p, line, ctx)
    {
      if p.Some? && p.value.isQuestion {
        if pendingQuestion.Get(ctx.sidechain) == Some(p.value.ordinal) {
          pendingQuestion := pendingQuestion.Set(ctx.sidechain, None);
        }
        var _ := EmitInteraction(ctx, HumanAnswer, User, line, 0, o.text, questionOrdinal := Some(p.value.ordinal));
        return;
      }
      var _ := EmitInteraction(ctx, ToolResult, Tool, line, 0, o.text,
                               callOrdinal := if p.Some? then Some(p.value.ordinal) else None,
                               channel := if p.Some? && p.value.name != "" then Some(p.value.name) else None);
    }

    /** Raise the peaks to `current` and work out each counter's delta. */
    method FoldCounters(current: map<Counter, nat>) returns (deltas: map<Counter, nat>)
      modifies this`maxUsage
      ensures maxUsage == Raise(old(maxUsage), current)
      ensures forall k :: CountOf(deltas, k) == Delta(lastUsage, current, k)
    {
      ghost var highs := maxUsage;
      deltas := map[];
      var rest := current.Keys;
      ghost var done: set<Counter> := {};
      FoldedNone(current, highs, lastUsage);
      while rest != {}
        invariant done !! rest && done + rest == current.Keys
        invariant Folded(done, current, highs, maxUsage, lastUsage, deltas)
        decreases rest
      {
        var key :| key in rest;
        FoldedNext(done, key, current, highs, maxUsage, lastUsage, deltas);
        var value := current[key];
        maxUsage := maxUsage[key := Max(if key in maxUsage then maxUsage[key] else 0, value)];
        deltas := deltas[key := if key !in lastUsage || value < lastUsage[key] then value else value - lastUsage[key]];
        done, rest := done + {key}, rest - {key};
      }
      FoldedAll(done, current, highs, maxUsage, lastUsage, deltas);
    }

    method ConsumeUsageSnapshot(current: map<Counter, nat>, window: Option<int>, line: nat, ctx: Context)
      modifies this`lastUsage, this`maxUsage, this`usage
      ensures Model() == ConsumeUsage(old(Model()), current, window, line, ctx)
    {
      if current == map[] {
        return;
      }
      var deltas := FoldCounters(current);
      var row := TokenUsage(
        line, ctx.timestamp, ctx.sessionId,
        CountOf(deltas, InputTokens), CountOf(deltas, OutputTokens),
        CountOf(deltas, CacheReadTokens), CountOf(deltas, CacheWriteTokens),
        CountOf(deltas, ReasoningTokens), CountOf(deltas, TotalTokens), window);
      assert row == UsageRow(lastUsage, current, line, ctx, window);
      lastUsage := lastUsage + current;
      if AnyCount(row) {
        usage := usage + [row];
      }
    }

    method ParseLine(record: Option<Record>, line: nat) returns (events: seq<Event>)
      modifies this
      ensures (Model(), events) == Step(old(Model()), record, line)
    {
      events := [];
      if record.None? {
        return;
      }
      var r := record.value;
      sessionId := FirstSome(r.sessionId, sessionId);
      cwd := FirstSome(r.cwd, cwd);
      var ctx := Context(r.timestamp, sessionId, cwd, FirstSome(r.threadId, sessionId), r.channel, r.sidechain);
      events := ParseBody(r.body, line, ctx);
    }

    method ParseBody(body: Body, line: nat, ctx: Context) returns (events: seq<Event>)
      modifies this
      ensures (Model(), events) == Dispatch(old(Model()), body, line, ctx)
    {
      events := [];
      match body
      case AssistantMessage(messageId, blocks) =>
        EmitAssistantMessage(messageId, blocks, line, ctx);
        awaitingCorrection := false;
      case AssistantItem =>
        awaitingCorrection := false;
      case UserPrompt(blocks) =>
        events := ConsumeUserPrompt(blocks, line, ctx);
      case Call(_, _, _, _, _, _) =>
        events := RegisterCall(body, line, ctx);
      case CallOutput(_, _, _, _, _, _) =>
        events := ConsumeCallOutput(body, line, ctx);
      case UsageSnapshot(counters, window) =>
        ConsumeUsageSnapshot(counters, window, line, ctx);
      case TurnAborted(reason) =>
        var _ := EmitInteraction(ctx, Harness, System, line, 0, reason, terminal := Interrupted);
        InterruptTurn(ctx.sidechain);
        events := [InterruptEvent(line, ctx, 0)];
      case TaskComplete =>
        CloseTrailing(ctx.sidechain, Completed);
      case RejectionEvent(_, _) =>
        events := [RejectedEvent(body, line, ctx)];
      case UserMessage(interrupt) =>
        if interrupt {
          awaitingCorrection := true;
          events := [InterruptEvent(line, ctx, 0)];
        }
      case OtherRecord =>
    }

    method Finish() returns (r: Result<seq<Event>, FinishError>)
      modifies this
      ensures (Model(), r) == Codex.Finish(old(Model()))
    {
      var events: seq<Event> := [];
      for i := 0 to |pendingOrder|
        invariant Model() == old(Model())
        invariant Unresolved(Model(), i, events) == Unresolved(old(Model()), 0, [])
      {
        var callId := pendingOrder[i];
        if callId !in pending {
          return Failure(MissingPendingCall(callId));
        }
        var p := pending[callId];
        if p.kind.RunCall? && p.command.Some? {
          events := events + [RunEvent(p, None, None, |events|)];
        }
      }
      pending, pendingOrder := map[], [];
      CloseTrailing(false, Unknown);
      CloseTrailing(true, Unknown);
      r := Success(events);
    }
  }

  function CountOf(deltas: map<Counter, nat>, k: Counter): nat {
    if k in deltas then deltas[k] else 0
  }

  /** The peaks once the counters in `done` have been folded in. */
  ghost function PeaksOf(done: set<Counter>, current: map<Counter, nat>, highs: map<Counter, nat>): map<Counter, nat>
    requires done <= current.Keys
  {
    map k | k in highs.Keys + done :: if k in done then Peak(highs, current, k) else highs[k]
  }

  ghost function DeltasOf(done: set<Counter>, current: map<Counter, nat>, last: map<Counter, nat>): map<Counter, nat> {
    map k | k in done :: Delta(last, current, k)
  }

  ghost predicate Folded(done: set<Counter>, current: map<Counter, nat>, highs: map<Counter, nat>,
                         highs': map<Counter, nat>,
                         last: map<Counter, nat>, deltas: map<Counter, nat>)
    requires done <= current.Keys
  {
    highs' == PeaksOf(done, current, highs) && deltas == DeltasOf(done, current, last)
  }

  lemma PeaksNext(done: set<Counter>, k: Counter, current: map<Counter, nat>, highs: map<Counter, nat>)
    requires done <= current.Keys && k in current && k !in done
    ensures var peaks := PeaksOf(done, current, highs);
            PeaksOf(done + {k}, current, highs) == peaks[k := Max(if k in peaks then peaks[k] else 0, current[k])]
  {}

  lemma DeltasNext(done: set<Counter>, k: Counter, current: map<Counter, nat>, last: map<Counter, nat>)
    requires k in current && k !in done
    ensures DeltasOf(done + {k}, current, last) == DeltasOf(done, current, last)[k := Delta(last, current, k)]
  {}

  lemma FoldedNone(current: map<Counter, nat>, highs: map<Counter, nat>, last: map<Counter, nat>)
    ensures Folded({}, current, highs, highs, last, map[])
  {}

  lemma FoldedNext(done: set<Counter>, k: Counter, current: map<Counter, nat>, highs: map<Counter, nat>,
                   highs': map<Counter, nat>, last: map<Counter, nat>, deltas: map<Counter, nat>)
    requires done <= current.Keys && k in current && k !in done
    requires Folded(done, current, highs, highs', last, deltas)
    ensures Folded(done + {k}, current, highs, highs'[k := Max(if k in highs' then highs'[k] else 0, current[k])], last,
                   deltas[k := if k !in last || current[k] < last[k] then current[k] else current[k] - last[k]])
  {
    PeaksNext(done, k, current, highs);
    DeltasNext(done, k, current, last);
  }

  lemma FoldedAll(done: set<Counter>, current: map<Counter, nat>, highs: map<Counter, nat>, highs': map<Counter, nat>,
                  last: map<Counter, nat>, deltas: map<Counter, nat>)
    requires done == current.Keys && Folded(done, current, highs, highs', last, deltas)
    ensures highs' == Raise(highs, current)
    ensures forall k :: CountOf(deltas, k) == Delta(last, current, k)
  {}
}
