/**
  The usage rows of a rollout, told from its snapshots alone.
 */
module CodexMeters {
  import opened Prelude
  import opened Interactions
  import opened Codex
  import opened CodexUsage
  import CodexDeeds
  import CodexStory

  /** What the snapshot on line `n` adds to a counter: all of the first reading and of one after a drop. */
  function NewlyRead(lines: seq<Option<Record>>, n: nat, k: Counter): nat
    requires n < |lines|
  {
    if !(IsSnapshot(lines[n]) && k in lines[n].value.body.counters) then 0
    else
      var value, before := lines[n].value.body.counters[k], Readings(lines[..n], k);
      if before == [] || value < before[|before| - 1] then value else value - before[|before| - 1]
  }

  ghost function RowTold(lines: seq<Option<Record>>, n: nat): TokenUsage
    requires n < |lines| && IsSnapshot(lines[n])
  {
    var ctx := CodexDeeds.Setting(lines, n);
    TokenUsage(
      n + 1, ctx.timestamp, ctx.sessionId, NewlyRead(lines, n, InputTokens), NewlyRead(lines, n, OutputTokens),
      NewlyRead(lines, n, CacheReadTokens), NewlyRead(lines, n, CacheWriteTokens),
      NewlyRead(lines, n, ReasoningTokens), NewlyRead(lines, n, TotalTokens), lines[n].value.body.window)
  }

  ghost predicate SaysMore(lines: seq<Option<Record>>, n: nat)
    requires n < |lines|
  {
    exists k :: NewlyRead(lines, n, k) > 0
  }

  /** A row for each snapshot that adds to some counter, in order. */
  ghost function UsageTold(lines: seq<Option<Record>>): seq<TokenUsage> {
    if lines == [] then []
    else
      var n := |lines| - 1;
      UsageTold(lines[..n]) + (if IsSnapshot(lines[n]) && SaysMore(lines, n) then [RowTold(lines, n)] else [])
  }

  lemma DeltaIsNew(s: State, lines: seq<Option<Record>>, n: nat, k: Counter)
    requires n < |lines| && IsSnapshot(lines[n]) && CounterBooked(s, lines[..n], k)
    ensures Delta(s.lastUsage, lines[n].value.body.counters, k) == NewlyRead(lines, n, k)
  {}

  lemma DeltasAreNew(s: State, lines: seq<Option<Record>>, n: nat)
    requires n < |lines| && IsSnapshot(lines[n])
    requires forall k :: CounterBooked(s, lines[..n], k)
    ensures forall k :: Delta(s.lastUsage, lines[n].value.body.counters, k) == NewlyRead(lines, n, k)
  {
    hide CounterBooked, Delta, NewlyRead;
    forall k ensures Delta(s.lastUsage, lines[n].value.body.counters, k) == NewlyRead(lines, n, k) {
      assert CounterBooked(s, lines[..n], k);
      DeltaIsNew(s, lines, n, k);
    }
  }

  lemma AnyIsMore(row: TokenUsage)
    ensures AnyCount(row) <==> exists k :: row.Count(k) > 0
  {
    if AnyCount(row) {
      assert || row.Count(InputTokens) > 0 || row.Count(OutputTokens) > 0 || row.Count(CacheReadTokens) > 0
             || row.Count(CacheWriteTokens) > 0 || row.Count(ReasoningTokens) > 0 || row.Count(TotalTokens) > 0;
    }
  }

  lemma RowCounts(lines: seq<Option<Record>>, n: nat)
    requires n < |lines| && IsSnapshot(lines[n])
    ensures forall k :: RowTold(lines, n).Count(k) == NewlyRead(lines, n, k)
  {
    hide CodexDeeds.Setting;
  }

  /** One snapshot: the row its readings make, if it makes one. */
  lemma SnapshotTold(s: State, lines: seq<Option<Record>>, n: nat)
    requires n < |lines| && IsSnapshot(lines[n])
    requires forall k :: CounterBooked(s, lines[..n], k)
    ensures var body := lines[n].value.body;
            ConsumeUsage(s, body.counters, body.window, n + 1, CodexDeeds.Setting(lines, n)).usage
            == s.usage + (if SaysMore(lines, n) then [RowTold(lines, n)] else [])
  {
    hide CounterBooked, Delta, AnyCount, CodexDeeds.Setting, Raise;
    var body := lines[n].value.body;
    DeltasAreNew(s, lines, n);
    RowCounts(lines, n);
    AnyIsMore(RowTold(lines, n));
    assert UsageRow(s.lastUsage, body.counters, n + 1, CodexDeeds.Setting(lines, n), body.window)
        == RowTold(lines, n);
    assert s.usage + [] == s.usage;
    if body.counters == map[] {
      assert forall k :: NewlyRead(lines, n, k) == 0;
    }
  }

  /** The usage rows of every rollout are those its snapshots tell. */
  lemma {:induction false} UsageIsTold(lines: seq<Option<Record>>)
    ensures Feed(INITIAL, lines, 1).0.usage == UsageTold(lines)
    decreases |lines|
  {
    hide Dispatch, CounterBooked, SaysMore, RowTold, CodexStory.Matches, ConsumeUsage;
    if lines != [] {
      var n := |lines| - 1;
      UsageIsTold(lines[..n]);
      var s := Feed(INITIAL, lines[..n], 1).0;
      if IsSnapshot(lines[n]) {
        forall k ensures CounterBooked(UpdateContext(s, lines[n].value), lines[..n], k) {
          BookedAfterNaming(s, lines, n, k);
        }
        SettingIsContext(lines, n);
        SnapshotTold(UpdateContext(s, lines[n].value), lines, n);
        SnapshotStep(s, lines, n);
      } else {
        OtherStepMeters(s, lines[n], n + 1);
      }
    }
  }

  lemma BookedAfterNaming(s: State, lines: seq<Option<Record>>, n: nat, k: Counter)
    requires n < |lines| && lines[n].Some? && s == Feed(INITIAL, lines[..n], 1).0
    ensures CounterBooked(UpdateContext(s, lines[n].value), lines[..n], k)
  {
    CountersAreBooked(lines[..n], k);
  }

  lemma SnapshotStep(s: State, lines: seq<Option<Record>>, n: nat)
    requires n < |lines| && IsSnapshot(lines[n])
    ensures var s1, body := UpdateContext(s, lines[n].value), lines[n].value.body;
            Step(s, lines[n], n + 1).0
            == ConsumeUsage(s1, body.counters, body.window, n + 1, ContextOf(s1, lines[n].value))
  {}

  lemma SettingIsContext(lines: seq<Option<Record>>, n: nat)
    requires n == |lines| - 1 && lines[n].Some?
    ensures ContextOf(UpdateContext(Feed(INITIAL, lines[..n], 1).0, lines[n].value), lines[n].value)
            == CodexDeeds.Setting(lines, n)
  {
    CodexStory.FeedMatches(lines[..n]);
    assert lines[..n + 1] == lines;
  }
}
