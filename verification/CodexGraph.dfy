/**
  The linked interaction graph a rollout derives: what holds of it after
  every prefix of every rollout.
 */
module CodexGraph {
  import opened Prelude
  import opened Interactions
  import opened Codex

  ghost predicate PointsAt(xs: seq<Interaction>, link: Option<nat>, bound: nat, target: Origin) {
    link.Some? ==> link.value < bound && link.value < |xs| && xs[link.value].origin == target
  }

  /** One node: named by its position, linked strictly backwards to the right kind. */
  ghost predicate NodeOk(xs: seq<Interaction>, i: nat)
    requires i < |xs|
  {
    && xs[i].ordinal == i
    && PointsAt(xs, xs[i].callOrdinal, i, ToolCall)
    && PointsAt(xs, xs[i].questionOrdinal, i, Question)
    && (xs[i].callOrdinal.Some? ==> xs[i].origin.ToolResult?)
    && (xs[i].questionOrdinal.Some? ==> xs[i].origin.HumanAnswer?)
    && (xs[i].terminal.Interrupted? ==> xs[i].origin.Harness? || xs[i].origin.AssistantText?)
    && (xs[i].terminal.Completed? || xs[i].terminal.Unknown? ==> xs[i].origin.AssistantText?)
  }

  ghost predicate GraphOk(xs: seq<Interaction>) {
    forall i :: 0 <= i < |xs| ==> NodeOk(xs, i)
  }

  ghost predicate CallOk(xs: seq<Interaction>, p: PendingCall) {
    p.ordinal < |xs| && xs[p.ordinal].origin == if p.isQuestion then Question else ToolCall
  }

  ghost predicate CallsOk(xs: seq<Interaction>, pending: map<string, PendingCall>) {
    forall c :: c in pending ==> CallOk(xs, pending[c])
  }

  ghost predicate QuestionOk(xs: seq<Interaction>, q: Option<nat>, sidechain: bool) {
    q.Some? ==> q.value < |xs| && xs[q.value].origin.Question? && xs[q.value].sidechain == sidechain
  }

  ghost predicate TrailingOk(xs: seq<Interaction>, t: Option<nat>, sidechain: bool) {
    t.Some? ==>
      && t.value < |xs|
      && xs[t.value].origin.AssistantText?
      && xs[t.value].terminal.NotFinal?
      && xs[t.value].sidechain == sidechain
  }

  ghost predicate Wf(s: State) {
    && GraphOk(s.interactions)
    && CallsOk(s.interactions, s.pending)
    && QuestionOk(s.interactions, s.pendingQuestion.main, false)
    && QuestionOk(s.interactions, s.pendingQuestion.side, true)
    && TrailingOk(s.interactions, s.lastAssistant.main, false)
    && TrailingOk(s.interactions, s.lastAssistant.side, true)
  }

  /** An old node is untouched, or it was an open reply that has now been closed. */
  ghost predicate Aged(a: Interaction, b: Interaction) {
    || b == a
    || (a.origin.AssistantText? && a.terminal.NotFinal? && !b.terminal.NotFinal? && b == a.(terminal := b.terminal))
  }

  ghost predicate Grows(xs: seq<Interaction>, ys: seq<Interaction>) {
    && |xs| <= |ys|
    && forall i :: 0 <= i < |xs| ==> Aged(xs[i], ys[i])
  }

  lemma GrowsTransitive(xs: seq<Interaction>, ys: seq<Interaction>, zs: seq<Interaction>)
    requires Grows(xs, ys) && Grows(ys, zs)
    ensures Grows(xs, zs)
  {
    forall i | 0 <= i < |xs| ensures Aged(xs[i], zs[i]) {
      assert Aged(xs[i], ys[i]) && Aged(ys[i], zs[i]);
    }
  }

  /** A step that keeps the graph, only ages old nodes, and completes at most `budget` replies. */
  ghost predicate Keeps(s: State, s': State, budget: nat) {
    && Wf(s')
    && Grows(s.interactions, s'.interactions)
    && CountCompleted(s'.interactions) <= CountCompleted(s.interactions) + budget
  }

  lemma KeepsTransitive(s: State, s1: State, s2: State, a: nat, b: nat)
    requires Keeps(s, s1, a) && Keeps(s1, s2, b)
    ensures Keeps(s, s2, a + b)
  {
    GrowsTransitive(s.interactions, s1.interactions, s2.interactions);
  }

  lemma EmitKeeps(s: State, x: Interaction)
    requires Wf(s)
    requires x.ordinal == |s.interactions|
    requires NodeOk(s.interactions + [x], |s.interactions|)
    requires !x.terminal.Completed?
    ensures Keeps(s, Emit(s, x), 0)
    ensures Emit(s, x).interactions[|s.interactions|] == x
  {
    var xs, ys := s.interactions, s.interactions + [x];
    CountCompletedAppend(xs, x);
    forall i | 0 <= i < |ys| ensures NodeOk(ys, i) {
      assert i < |xs| ==> ys[i] == xs[i] && NodeOk(xs, i);
    }
  }

  lemma ReterminalizeAges(xs: seq<Interaction>, i: nat, terminal: Terminal)
    requires GraphOk(xs) && i < |xs|
    requires xs[i].origin.AssistantText? && xs[i].terminal.NotFinal? && !terminal.NotFinal?
    ensures var ys := Reterminalize(xs, i, terminal);
            && GraphOk(ys)
            && Grows(xs, ys)
            && (forall k :: 0 <= k < |xs| && k != i ==> ys[k] == xs[k])
            && ys[i] == xs[i].(terminal := terminal)
            && CountCompleted(ys) == CountCompleted(xs) + (if terminal.Completed? then 1 else 0)
  {
    var ys := Reterminalize(xs, i, terminal);
    CountCompletedUpdate(xs, i, xs[i].(terminal := terminal));
    assert forall k :: 0 <= k < |xs| ==> ys[k].origin == xs[k].origin;
    forall k | 0 <= k < |ys| ensures NodeOk(ys, k) {
      assert NodeOk(xs, k);
    }
  }

  lemma SameOriginsKeepCalls(xs: seq<Interaction>, ys: seq<Interaction>, pending: map<string, PendingCall>)
    requires CallsOk(xs, pending) && |ys| == |xs|
    requires forall k :: 0 <= k < |xs| ==> ys[k].origin == xs[k].origin
    ensures CallsOk(ys, pending)
  {
    forall c | c in pending ensures CallOk(ys, pending[c]) {
      assert CallOk(xs, pending[c]);
    }
  }

  lemma SameOriginsKeepQuestion(xs: seq<Interaction>, ys: seq<Interaction>, q: Option<nat>, sidechain: bool)
    requires QuestionOk(xs, q, sidechain) && |ys| == |xs|
    requires forall k :: 0 <= k < |xs| ==> ys[k].origin == xs[k].origin && ys[k].sidechain == xs[k].sidechain
    ensures QuestionOk(ys, q, sidechain)
  {}

  lemma CloseTrailingKeeps(s: State, sidechain: bool, terminal: Terminal)
    requires Wf(s) && !terminal.NotFinal?
    ensures Keeps(s, CloseTrailing(s, sidechain, terminal), if terminal.Completed? then 1 else 0)
    ensures CloseTrailing(s, sidechain, terminal).lastAssistant.Get(sidechain).None?
  {
    hide GraphOk, CallsOk, QuestionOk, CountCompleted, Reterminalize;
    var last := s.lastAssistant.Get(sidechain);
    if last.Some? {
      ReterminalizeAges(s.interactions, last.value, terminal);
      var xs, ys := s.interactions, CloseTrailing(s, sidechain, terminal).interactions;
      SameOriginsKeepCalls(xs, ys, s.pending);
      SameOriginsKeepQuestion(xs, ys, s.pendingQuestion.main, false);
      SameOriginsKeepQuestion(xs, ys, s.pendingQuestion.side, true);
    }
  }

  lemma OpenTurnKeeps(s: State, sidechain: bool)
    requires Wf(s)
    ensures Keeps(s, OpenTurn(s, sidechain), 0)
  {
    CloseTrailingKeeps(s.(turns := s.turns.Set(sidechain, s.turns.Get(sidechain) + 1)), sidechain, Unknown);
  }

  lemma InterruptTurnKeeps(s: State, sidechain: bool)
    requires Wf(s)
    ensures Keeps(s, InterruptTurn(s, sidechain), 0)
  {
    CloseTrailingKeeps(s.(awaitingCorrection := true), sidechain, Interrupted);
  }

  lemma AssistantBlockKeeps(s: State, block: Block, i: nat, messageId: Option<string>, line: nat, ctx: Context)
    requires Wf(s)
    ensures Keeps(s, AssistantBlock(s, block, i, messageId, line, ctx), 0)
  {
    EmitKeeps(s, NewInteraction(s, ctx, AssistantText, Assistant, line, i, block.text, messageId := messageId));
  }

  lemma {:induction false} AssistantBlocksKeep(
      s: State, blocks: seq<Block>, i: nat, messageId: Option<string>, line: nat, ctx: Context)
    requires Wf(s) && i <= |blocks|
    ensures Keeps(s, AssistantBlocks(s, blocks, i, messageId, line, ctx), 0)
    decreases |blocks| - i
  {
    if i < |blocks| {
      if blocks[i].blank {
        AssistantBlocksKeep(s, blocks, i + 1, messageId, line, ctx);
      } else {
        var s1 := AssistantBlock(s, blocks[i], i, messageId, line, ctx);
        AssistantBlockKeeps(s, blocks[i], i, messageId, line, ctx);
        AssistantBlocksKeep(s1, blocks, i + 1, messageId, line, ctx);
        KeepsTransitive(s, s1, AssistantBlocks(s1, blocks, i + 1, messageId, line, ctx), 0, 0);
      }
    }
  }

  lemma EmitPromptKeeps(s: State, block: Block, line: nat, ctx: Context, i: nat)
    requires Wf(s)
    ensures Keeps(s, EmitPrompt(s, block, line, ctx, i), 0)
  {
    var sc := ctx.sidechain;
    if block.interrupt {
      var x := NewInteraction(s, ctx, Harness, User, line, i, block.text, terminal := Interrupted);
      EmitKeeps(s, x);
      InterruptTurnKeeps(Emit(s, x), sc);
      KeepsTransitive(s, Emit(s, x), EmitPrompt(s, block, line, ctx, i), 0, 0);
    } else if block.quoted {
      EmitKeeps(s, NewInteraction(s, ctx, QuotedHistory, System, line, i, block.text));
    } else if s.pendingQuestion.Get(sc).Some? {
      var s1 := s.(pendingQuestion := s.pendingQuestion.Set(sc, None));
      EmitKeeps(s1, NewInteraction(s1, ctx, HumanAnswer, User, line, i, block.text,
                                   questionOrdinal := s.pendingQuestion.Get(sc)));
    } else {
      var s1 := OpenTurn(s, sc);
      OpenTurnKeeps(s, sc);
      EmitKeeps(s1, NewInteraction(s1, ctx, HumanRequest, User, line, i, block.text, turnId := Some(s1.turns.Get(sc))));
      KeepsTransitive(s, s1, EmitPrompt(s, block, line, ctx, i), 0, 0);
    }
  }

  lemma {:induction false} PromptBlocksKeep(
      s: State, blocks: seq<Block>, i: nat, events: seq<Event>, line: nat, ctx: Context)
    requires Wf(s) && i <= |blocks|
    ensures Keeps(s, PromptBlocks(s, blocks, i, events, line, ctx).0, 0)
    decreases |blocks| - i
  {
    if i < |blocks| {
      if blocks[i].blank {
        PromptBlocksKeep(s, blocks, i + 1, events, line, ctx);
      } else {
        var s1 := EmitPrompt(s, blocks[i], line, ctx, i);
        EmitPromptKeeps(s, blocks[i], line, ctx, i);
        if blocks[i].interrupt {
          var s2 := s1.(awaitingCorrection := true);
          var more := events + [InterruptEvent(line, ctx, |events|)];
          PromptBlocksKeep(s2, blocks, i + 1, more, line, ctx);
          KeepsTransitive(s, s2, PromptBlocks(s2, blocks, i + 1, more, line, ctx).0, 0, 0);
        } else if !s1.awaitingCorrection {
          PromptBlocksKeep(s1, blocks, i + 1, events, line, ctx);
          KeepsTransitive(s, s1, PromptBlocks(s1, blocks, i + 1, events, line, ctx).0, 0, 0);
        }
      }
    }
  }

  lemma AddPendingKeeps(s: State, s': State, id: string, call: PendingCall)
    requires Wf(s) && CallOk(s.interactions, call)
    requires s' == s.(pending := s.pending[id := call], pendingOrder := s'.pendingOrder)
    ensures Keeps(s, s', 0)
  {
    forall c | c in s'.pending ensures CallOk(s'.interactions, s'.pending[c]) {
      assert c != id ==> CallOk(s.interactions, s.pending[c]);
    }
  }

  lemma CallInteractionKeeps(s: State, c: Body, line: nat, ctx: Context)
    requires Wf(s) && c.Call?
    ensures Keeps(s, CallInteraction(s, c, line, ctx), 0)
    ensures CallOk(CallInteraction(s, c, line, ctx).interactions, NewCall(c, line, ctx, |s.interactions|))
  {
    hide Grows, CountCompleted;
    if c.question {
      EmitKeeps(s, NewInteraction(s, ctx, Question, Assistant, line, 0, c.prompt));
    } else {
      EmitKeeps(s, NewInteraction(s, ctx, ToolCall, Assistant, line, 0, c.prompt,
                                  channel := if c.name == "" then None else Some(c.name)));
    }
  }

  lemma SameGraphIsWf(s: State, s': State)
    requires s' == s.(awaitingCorrection := s'.awaitingCorrection)
    ensures Wf(s') == Wf(s)
  {}

  lemma RegisterCallKeeps(s: State, c: Body, line: nat, ctx: Context)
    requires Wf(s) && c.Call?
    ensures Keeps(s, RegisterCall(s, c, line, ctx).0, 0)
  {
    hide GraphOk, CallsOk, QuestionOk, TrailingOk, CallInteraction, NewCall, Grows, CountCompleted, CallOk;
    SameGraphIsWf(CallInteraction(s, c, line, ctx), CallInteraction(s, c, line, ctx).(awaitingCorrection := false));
    CallInteractionKeeps(s, c, line, ctx);
    var s1 := CallInteraction(s, c, line, ctx).(awaitingCorrection := false);
    if c.callId.Some? {
      var s2 := RegisterCall(s, c, line, ctx).0;
      AddPendingKeeps(s1, s2, c.callId.value, NewCall(c, line, ctx, |s.interactions|));
      KeepsTransitive(s, s1, s2, 0, 0);
    }
  }

  lemma ConsumeOutputKeeps(s: State, o: Body, line: nat, ctx: Context)
    requires Wf(s) && o.CallOutput?
    ensures Keeps(s, ConsumeOutput(s, o, line, ctx).0, 0)
  {
    hide Wf, GraphOk, Grows, CountCompleted, OutputInteraction, OutputEvents, CallOk, RemovePending, FindPending;
    var p := FindPending(s, o.callId);
    var s1 := RemovePending(s, o.callId);
    RemovePendingKeeps(s, o.callId);
    if p.Some? && p.value.isQuestion {
      AnswerKeeps(s1, o, p, line, ctx);
    } else {
      ResultKeeps(s1, o, p, line, ctx);
    }
    KeepsTransitive(s, s1, OutputInteraction(s1, o, p, line, ctx), 0, 0);
  }

  lemma RemovePendingKeeps(s: State, callId: Option<string>)
    requires Wf(s)
    ensures Keeps(s, RemovePending(s, callId), 0)
    ensures FindPending(s, callId).Some? ==> CallOk(RemovePending(s, callId).interactions, FindPending(s, callId).value)
  {}

  lemma AnswerKeeps(s: State, o: Body, p: Option<PendingCall>, line: nat, ctx: Context)
    requires Wf(s) && o.CallOutput? && p.Some? && p.value.isQuestion && CallOk(s.interactions, p.value)
    ensures Keeps(s, OutputInteraction(s, o, p, line, ctx), 0)
  {
    var s1 := if s.pendingQuestion.Get(ctx.sidechain) == Some(p.value.ordinal)
              then s.(pendingQuestion := s.pendingQuestion.Set(ctx.sidechain, None)) else s;
    EmitKeeps(s1, NewInteraction(s1, ctx, HumanAnswer, User, line, 0, o.text,
                                 questionOrdinal := Some(p.value.ordinal)));
  }

  lemma ResultKeeps(s: State, o: Body, p: Option<PendingCall>, line: nat, ctx: Context)
    requires Wf(s) && o.CallOutput? && (p.Some? ==> !p.value.isQuestion && CallOk(s.interactions, p.value))
    ensures Keeps(s, OutputInteraction(s, o, p, line, ctx), 0)
  {
    EmitKeeps(s, NewInteraction(s, ctx, ToolResult, Tool, line, 0, o.text,
                                callOrdinal := if p.Some? then Some(p.value.ordinal) else None,
                                channel := if p.Some? && p.value.name != "" then Some(p.value.name) else None));
  }

  function Completions(r: Option<Record>): nat {
    if r.Some? && r.value.body.TaskComplete? then 1 else 0
  }

  lemma AssistantMessageKeeps(s: State, messageId: Option<string>, blocks: seq<Block>, line: nat, ctx: Context)
    requires Wf(s)
    ensures Keeps(s, EmitAssistantMessage(s, messageId, blocks, line, ctx), 0)
  {
    var s1 := if messageId.Some? then s.(seenMessageIds := s.seenMessageIds + {messageId.value}) else s;
    AssistantBlocksKeep(s1, blocks, 0, messageId, line, ctx);
  }

  lemma AbortTurnKeeps(s: State, reason: string, line: nat, ctx: Context)
    requires Wf(s)
    ensures Keeps(s, AbortTurn(s, reason, line, ctx), 0)
  {
    var x := NewInteraction(s, ctx, Harness, System, line, 0, reason, terminal := Interrupted);
    EmitKeeps(s, x);
    InterruptTurnKeeps(Emit(s, x), ctx.sidechain);
    KeepsTransitive(s, Emit(s, x), AbortTurn(s, reason, line, ctx), 0, 0);
  }

  /** States with the same graph, calls and thread pointers are alike to the invariant. */
  ghost predicate SameGraph(s: State, s': State) {
    && s'.interactions == s.interactions
    && s'.pending == s.pending
    && s'.pendingQuestion == s.pendingQuestion
    && s'.lastAssistant == s.lastAssistant
  }

  lemma SameGraphKeeps(s: State, s': State)
    requires Wf(s) && SameGraph(s, s')
    ensures Keeps(s, s', 0)
  {}

  lemma DispatchKeeps(s: State, b: Body, line: nat, ctx: Context)
    requires Wf(s)
    ensures Keeps(s, Dispatch(s, b, line, ctx).0, if b.TaskComplete? then 1 else 0)
  {
    var s' := Dispatch(s, b, line, ctx).0;
    match b
    case AssistantMessage(messageId, blocks) =>
      AssistantMessageKeeps(s, messageId, blocks, line, ctx);
      SameGraphKeeps(EmitAssistantMessage(s, messageId, blocks, line, ctx), s');
    case UserPrompt(blocks) => PromptBlocksKeep(s, blocks, 0, [], line, ctx);
    case Call(_, _, _, _, _, _) => RegisterCallKeeps(s, b, line, ctx);
    case CallOutput(_, _, _, _, _, _) => ConsumeOutputKeeps(s, b, line, ctx);
    case TurnAborted(reason) => AbortTurnKeeps(s, reason, line, ctx);
    case TaskComplete => CloseTrailingKeeps(s, ctx.sidechain, Completed);
    case _ => SameGraphKeeps(s, s');
  }

  /** Every branch of the parser keeps the graph. */
  lemma StepKeeps(s: State, r: Option<Record>, line: nat)
    requires Wf(s)
    ensures Keeps(s, Step(s, r, line).0, Completions(r))
  {
    if r.Some? {
      var s1 := UpdateContext(s, r.value);
      SameGraphKeeps(s, s1);
      DispatchKeeps(s1, r.value.body, line, ContextOf(s1, r.value));
    }
  }

  function CompletionRecords(lines: seq<Option<Record>>): nat {
    if lines == [] then 0 else CompletionRecords(lines[..|lines| - 1]) + Completions(lines[|lines| - 1])
  }

  /** The graph invariant after any span fed from any state that has it. */
  lemma {:induction false} FeedKeeps(s: State, lines: seq<Option<Record>>, first: nat)
    requires Wf(s)
    ensures Keeps(s, Feed(s, lines, first).0, CompletionRecords(lines))
    decreases |lines|
  {
    if lines != [] {
      var n := |lines| - 1;
      FeedKeeps(s, lines[..n], first);
      var before := Feed(s, lines[..n], first).0;
      StepKeeps(before, lines[n], first + n);
      KeepsTransitive(s, before, Feed(s, lines, first).0, CompletionRecords(lines[..n]), Completions(lines[n]));
    }
  }

  lemma InitialIsWf()
    ensures Wf(INITIAL)
  {}

  /**
    After every prefix of every rollout the graph is well linked; a longer
    prefix only closes replies still open, so a settled state is final; and
    no more replies are completed than task-complete records were read.
   */
  lemma GraphOfEveryPrefix(lines: seq<Option<Record>>, n: nat)
    requires n <= |lines|
    ensures var early, late := Feed(INITIAL, lines[..n], 1).0.interactions, Feed(INITIAL, lines, 1).0.interactions;
            && GraphOk(early)
            && Grows(early, late)
            && (forall i :: 0 <= i < |early| && !early[i].terminal.NotFinal? ==> late[i] == early[i])
            && (forall i :: 0 <= i < |early| ==>
                  SameRecord(early[i], late[i]) && MovesUp(early[i].terminal, late[i].terminal))
            && CountCompleted(early) <= CompletionRecords(lines[..n])
  {
    InitialIsWf();
    FeedKeeps(INITIAL, lines[..n], 1);
    assert lines[..n] + lines[n..] == lines;
    FeedAppend(INITIAL, lines[..n], lines[n..], 1);
    FeedKeeps(Feed(INITIAL, lines[..n], 1).0, lines[n..], 1 + n);
    var early, late := Feed(INITIAL, lines[..n], 1).0.interactions, Feed(INITIAL, lines, 1).0.interactions;
    assert forall i :: 0 <= i < |early| ==> Aged(early[i], late[i]);
  }

  /** Finishing closes what is still open and leaves no open reply and no pending call. */
  lemma DrainedIsSettled(s: State)
    requires Wf(s)
    ensures Keeps(s, Drained(s), 0)
    ensures Drained(s).pending == map[] && Drained(s).lastAssistant == PerThread(None, None)
  {
    var s1 := s.(pending := map[], pendingOrder := []);
    CloseTrailingKeeps(s1, false, Unknown);
    CloseTrailingKeeps(CloseTrailing(s1, false, Unknown), true, Unknown);
    KeepsTransitive(s1, CloseTrailing(s1, false, Unknown), Drained(s), 0, 0);
  }
}
