/**
  Token accounting: cumulative snapshots become deltas, a counter that drops
  has been reset, and nothing is lost or counted twice.
 */
module CodexUsage {
  import opened Prelude
  import opened Interactions
  import opened Codex

  ghost predicate SameMeters(s: State, s': State) {
    s'.usage == s.usage && s'.lastUsage == s.lastUsage && s'.maxUsage == s.maxUsage
  }

  /** Neither the meters nor the sticky session context moved. */
  ghost predicate Untouched(s: State, s': State) {
    SameMeters(s, s') && s'.sessionId == s.sessionId && s'.cwd == s.cwd
  }

  lemma {:induction false} AssistantBlocksMeters(
      s: State, blocks: seq<Block>, i: nat, messageId: Option<string>, line: nat, ctx: Context)
    requires i <= |blocks|
    ensures Untouched(s, AssistantBlocks(s, blocks, i, messageId, line, ctx))
    decreases |blocks| - i
  {
    if i < |blocks| {
      AssistantBlocksMeters(
        if blocks[i].blank then s else AssistantBlock(s, blocks[i], i, messageId, line, ctx),
        blocks, i + 1, messageId, line, ctx);
    }
  }

  lemma EmitPromptMeters(s: State, block: Block, line: nat, ctx: Context, i: nat)
    ensures Untouched(s, EmitPrompt(s, block, line, ctx, i))
  {
    hide NewInteraction, Reterminalize;
  }

  lemma {:induction false} PromptBlocksMeters(
      s: State, blocks: seq<Block>, i: nat, events: seq<Event>, line: nat, ctx: Context)
    requires i <= |blocks|
    ensures Untouched(s, PromptBlocks(s, blocks, i, events, line, ctx).0)
    decreases |blocks| - i
  {
    if i == |blocks| {
    } else if blocks[i].blank {
      PromptBlocksMeters(s, blocks, i + 1, events, line, ctx);
    } else {
      EmitPromptMeters(s, blocks[i], line, ctx, i);
      PromptBlocksMetersNext(s, EmitPrompt(s, blocks[i], line, ctx, i), blocks, i, events, line, ctx);
    }
  }

  lemma {:induction false} PromptBlocksMetersNext(
      s: State, s1: State, blocks: seq<Block>, i: nat, events: seq<Event>, line: nat, ctx: Context)
    requires i < |blocks| && !blocks[i].blank && s1 == EmitPrompt(s, blocks[i], line, ctx, i) && Untouched(s, s1)
    ensures Untouched(s, PromptBlocks(s, blocks, i, events, line, ctx).0)
    decreases |blocks| - i, 0
  {
    if blocks[i].interrupt {
      PromptBlocksMeters(s1.(awaitingCorrection := true), blocks, i + 1,
                         events + [InterruptEvent(line, ctx, |events|)], line, ctx);
    } else if !s1.awaitingCorrection {
      PromptBlocksMeters(s1, blocks, i + 1, events, line, ctx);
    }
  }

  predicate IsSnapshot(r: Option<Record>) {
    r.Some? && r.value.body.UsageSnapshot?
  }

  lemma AssistantMessageMeters(s: State, messageId: Option<string>, blocks: seq<Block>, line: nat, ctx: Context)
    ensures Untouched(s, EmitAssistantMessage(s, messageId, blocks, line, ctx))
  {
    var s1 := if messageId.Some? then s.(seenMessageIds := s.seenMessageIds + {messageId.value}) else s;
    AssistantBlocksMeters(s1, blocks, 0, messageId, line, ctx);
  }

  lemma CallMeters(s: State, b: Body, line: nat, ctx: Context)
    ensures b.Call? ==> Untouched(s, RegisterCall(s, b, line, ctx).0)
    ensures b.CallOutput? ==> Untouched(s, ConsumeOutput(s, b, line, ctx).0)
  {
    hide CallInteraction, OutputInteraction, NewCall, FindPending, RunEvent, FileReadEvent, OutputEvents;
    if b.Call? {
      CallInteractionMeters(s, b, line, ctx);
    } else if b.CallOutput? {
      OutputInteractionMeters(RemovePending(s, b.callId), b, FindPending(s, b.callId), line, ctx);
    }
  }

  lemma CallInteractionMeters(s: State, c: Body, line: nat, ctx: Context)
    requires c.Call?
    ensures Untouched(s, CallInteraction(s, c, line, ctx))
  {
    hide NewInteraction;
  }

  lemma OutputInteractionMeters(s: State, o: Body, p: Option<PendingCall>, line: nat, ctx: Context)
    requires o.CallOutput?
    ensures Untouched(s, OutputInteraction(s, o, p, line, ctx))
  {
    hide NewInteraction;
  }

  lemma DispatchMeters(s: State, b: Body, line: nat, ctx: Context)
    requires !b.UsageSnapshot?
    ensures Untouched(s, Dispatch(s, b, line, ctx).0)
  {
    match b
    case AssistantMessage(messageId, blocks) => AssistantMessageMeters(s, messageId, blocks, line, ctx);
    case UserPrompt(blocks) => PromptBlocksMeters(s, blocks, 0, [], line, ctx);
    case Call(_, _, _, _, _, _) => CallMeters(s, b, line, ctx);
    case CallOutput(_, _, _, _, _, _) => CallMeters(s, b, line, ctx);
    case _ =>
  }

  lemma OtherStepMeters(s: State, r: Option<Record>, line: nat)
    requires !IsSnapshot(r)
    ensures SameMeters(s, Step(s, r, line).0)
  {
    if r.Some? {
      var s1 := UpdateContext(s, r.value);
      DispatchMeters(s1, r.value.body, line, ContextOf(s1, r.value));
    }
  }

  /** Once a rollout has named its session the parser never forgets it. */
  lemma SessionIdSticks(s: State, r: Record, line: nat)
    ensures Step(s, Some(r), line).0.sessionId == FirstSome(r.sessionId, s.sessionId)
  {
    if !r.body.UsageSnapshot? {
      var s1 := UpdateContext(s, r);
      DispatchMeters(s1, r.body, line, ContextOf(s1, r));
    }
  }

  // ---------------------------------------------------------------------
  // The readings of one counter, told from the records alone
  // ---------------------------------------------------------------------

  /** The values the snapshots gave counter `k`, in order. */
  function Readings(lines: seq<Option<Record>>, k: Counter): seq<nat> {
    if lines == [] then []
    else
      var n := |lines| - 1;
      Readings(lines[..n], k)
      + (if IsSnapshot(lines[n]) && k in lines[n].value.body.counters then [lines[n].value.body.counters[k]] else [])
  }

  function LastReading(values: seq<nat>): nat {
    if values == [] then 0 else values[|values| - 1]
  }

  /** The sum of the readings just before each drop. */
  function LostToResets(values: seq<nat>): nat {
    if |values| < 2 then 0
    else
      var n := |values| - 1;
      LostToResets(values[..n]) + (if values[n] < values[n - 1] then values[n - 1] else 0)
  }

  function Highest(values: seq<nat>): nat {
    if values == [] then 0 else Max(Highest(values[..|values| - 1]), values[|values| - 1])
  }

  predicate NeverDrops(values: seq<nat>) {
    forall i :: 0 < i < |values| ==> values[i - 1] <= values[i]
  }

  /** The deltas emitted for counter `k`, summed. */
  function Metered(rows: seq<TokenUsage>, k: Counter): nat {
    if rows == [] then 0 else Metered(rows[..|rows| - 1], k) + rows[|rows| - 1].Count(k)
  }

  lemma {:induction false} HighestBound(values: seq<nat>)
    ensures Highest(values) <= LastReading(values) + LostToResets(values)
    ensures LastReading(values) <= Highest(values)
    ensures forall i :: 0 <= i < |values| ==> values[i] <= Highest(values)
    ensures values != [] ==> Highest(values) in values
    ensures NeverDrops(values) ==> Highest(values) == LastReading(values) && LostToResets(values) == 0
    decreases |values|
  {
    if values != [] {
      var n := |values| - 1;
      HighestBound(values[..n]);
      assert n > 0 ==> LastReading(values[..n]) == values[n - 1];
      if NeverDrops(values) {
        assert NeverDrops(values[..n]);
      }
    }
  }

  ghost predicate Booked(last: map<Counter, nat>, highs: map<Counter, nat>, rows: seq<TokenUsage>, values: seq<nat>,
                         k: Counter) {
    && (k in last <==> values != [])
    && (k in highs <==> values != [])
    && (values != [] ==> last[k] == LastReading(values) && highs[k] == Highest(values))
    && Metered(rows, k) == LastReading(values) + LostToResets(values)
  }

  ghost predicate CounterBooked(s: State, lines: seq<Option<Record>>, k: Counter) {
    Booked(s.lastUsage, s.maxUsage, s.usage, Readings(lines, k), k)
  }

  lemma ReadingsSnoc(lines: seq<Option<Record>>, r: Option<Record>, k: Counter)
    ensures Readings(lines + [r], k)
            == Readings(lines, k)
               + (if IsSnapshot(r) && k in r.value.body.counters then [r.value.body.counters[k]] else [])
  {
    assert (lines + [r])[..|lines|] == lines;
  }

  lemma BookSnoc(values: seq<nat>, v: nat)
    ensures LastReading(values + [v]) == v
    ensures Highest(values + [v]) == Max(Highest(values), v)
    ensures LostToResets(values + [v])
            == LostToResets(values) + (if values != [] && v < LastReading(values) then LastReading(values) else 0)
  {
    assert (values + [v])[..|values|] == values;
  }

  lemma MeteredSnoc(rows: seq<TokenUsage>, row: TokenUsage, k: Counter)
    ensures Metered(rows + [row], k) == Metered(rows, k) + row.Count(k)
  {
    assert (rows + [row])[..|rows|] == rows;
  }

  lemma ReadingBooks(s: State, values: seq<nat>, current: map<Counter, nat>, row: TokenUsage, k: Counter)
    requires Booked(s.lastUsage, s.maxUsage, s.usage, values, k) && k in current
    requires row.Count(k) == Delta(s.lastUsage, current, k)
    ensures Booked(s.lastUsage + current, Raise(s.maxUsage, current), s.usage + [row], values + [current[k]], k)
    ensures row.Count(k) == 0 ==>
              Booked(s.lastUsage + current, Raise(s.maxUsage, current), s.usage, values + [current[k]], k)
  {
    MeteredSnoc(s.usage, row, k);
    BookSnoc(values, current[k]);
  }

  lemma NoReadingBooks(s: State, values: seq<nat>, current: map<Counter, nat>, row: TokenUsage, k: Counter)
    requires Booked(s.lastUsage, s.maxUsage, s.usage, values, k) && k !in current
    requires row.Count(k) == 0
    ensures Booked(s.lastUsage + current, Raise(s.maxUsage, current), s.usage + [row], values, k)
    ensures Booked(s.lastUsage + current, Raise(s.maxUsage, current), s.usage, values, k)
  {
    MeteredSnoc(s.usage, row, k);
  }

  lemma SnapshotBooks(s: State, values: seq<nat>, current: map<Counter, nat>, window: Option<int>,
                      line: nat, ctx: Context, k: Counter)
    requires Booked(s.lastUsage, s.maxUsage, s.usage, values, k)
    ensures var s' := ConsumeUsage(s, current, window, line, ctx);
            Booked(s'.lastUsage, s'.maxUsage, s'.usage, if k in current then values + [current[k]] else values, k)
  {
    if current != map[] {
      var row := UsageRow(s.lastUsage, current, line, ctx, window);
      assert row.Count(k) == Delta(s.lastUsage, current, k);
      assert !AnyCount(row) ==> row.Count(k) == 0;
      if k in current {
        ReadingBooks(s, values, current, row, k);
      } else {
        NoReadingBooks(s, values, current, row, k);
      }
    }
  }

  lemma StepBooks(s: State, lines: seq<Option<Record>>, r: Option<Record>, line: nat, k: Counter)
    requires CounterBooked(s, lines, k)
    ensures CounterBooked(Step(s, r, line).0, lines + [r], k)
  {
    var values := Readings(lines, k);
    ReadingsSnoc(lines, r, k);
    assert values + [] == values;
    if IsSnapshot(r) {
      var s1 := UpdateContext(s, r.value);
      SnapshotBooks(s1, values, r.value.body.counters, r.value.body.window, line, ContextOf(s1, r.value), k);
    } else {
      OtherStepMeters(s, r, line);
    }
  }

  lemma {:induction false} CountersAreBooked(lines: seq<Option<Record>>, k: Counter)
    ensures CounterBooked(Feed(INITIAL, lines, 1).0, lines, k)
    decreases |lines|
  {
    if lines != [] {
      var n := |lines| - 1;
      CountersAreBooked(lines[..n], k);
      var before := Feed(INITIAL, lines[..n], 1).0;
      assert lines == lines[..n] + [lines[n]];
      StepBooks(before, lines[..n], lines[n], 1 + n, k);
    }
  }

  /**
    For every rollout and counter: the deltas add up to the last reading plus
    what each reset threw away, so never to less than the highest reading the
    parser keeps, and to exactly that when the counter never drops.
   */
  lemma TokensAreConserved(lines: seq<Option<Record>>, k: Counter)
    ensures var s := Feed(INITIAL, lines, 1).0; var values := Readings(lines, k);
            && Metered(s.usage, k) == LastReading(values) + LostToResets(values)
            && Metered(s.usage, k) >= Highest(values)
            && (k in s.maxUsage <==> values != [])
            && (values != [] ==> s.maxUsage[k] == Highest(values))
            && (NeverDrops(values) ==> Metered(s.usage, k) == Highest(values))
  {
    CountersAreBooked(lines, k);
    HighestBound(Readings(lines, k));
  }
}
