/**
  The rollout reader: one retained parser fed byte spans of a growing file.
  However the file was cut into spans, the outcome is that of one read.
 */
module CodexReader {
  import opened Prelude
  import opened Sequences
  import opened Cursor
  import opened Codex
  import opened CodexParser
  import CodexUsage

  function DecodeAll(decode: Bytes -> Option<Record>, raws: seq<Bytes>): (r: seq<Option<Record>>)
    ensures |r| == |raws|
    ensures forall i :: 0 <= i < |r| ==> r[i] == decode(raws[i])
  {
    seq(|raws|, i requires 0 <= i < |raws| => decode(raws[i]))
  }

  lemma DecodeAppend(decode: Bytes -> Option<Record>, a: seq<Bytes>, b: seq<Bytes>)
    ensures DecodeAll(decode, a + b) == DecodeAll(decode, a) + DecodeAll(decode, b)
  {}

  /** Feeding the complete lines of a region, the first of them numbered `line`. */
  function ReadRegion(decode: Bytes -> Option<Record>, s: State, region: Bytes, line: nat): (State, seq<Event>) {
    Feed(s, DecodeAll(decode, Split(region).0), line)
  }

  datatype ReadError = EndBeforeStart | ReadPastEnd

  datatype ParseResult = ParseResult(
    sessionId: Option<string>,
    events: seq<Event>,
    usage: seq<TokenUsage>,
    nextOffset: nat,
    bytesConsumed: nat,
    usageMax: map<Counter, nat>)

  function Limit(content: Bytes, endOffset: Option<nat>): nat {
    match endOffset
    case None => |content|
    case Some(end) => Min(|content|, end)
  }

  /** The bytes a parse of `content` from `start` may consume. */
  function Region(content: Bytes, start: nat, endOffset: Option<nat>): Bytes
    requires start <= Limit(content, endOffset)
  {
    content[start..Limit(content, endOffset)]
  }

  class RolloutReader {
    const decode: Bytes -> Option<Record>
    const lineParser: LineParser
    var nextOffset: nat
    var nextSourceLine: nat

    constructor (decode: Bytes -> Option<Record>)
      ensures fresh(lineParser) && this.decode == decode
      ensures lineParser.Model() == INITIAL && nextOffset == 0 && nextSourceLine == 1
    {
      this.decode := decode;
      lineParser := new LineParser();
      nextOffset, nextSourceLine := 0, 1;
    }

    function StartLine(content: Bytes, lastOffset: nat): nat
      requires lastOffset <= |content|
      reads this
    {
      if lastOffset == nextOffset then nextSourceLine else CountNewlines(content[..lastOffset]) + 1
    }

    method Parse(content: Bytes, lastOffset: nat, endOffset: Option<nat>) returns (r: Result<ParseResult, ReadError>)
      modifies this, lineParser
      ensures r.Failure? <==> lastOffset > Limit(content, endOffset)
      ensures r.Failure? ==> lineParser.Model() == old(lineParser.Model())
                             && nextOffset == old(nextOffset) && nextSourceLine == old(nextSourceLine)
      ensures r.Success? ==>
                var region := Region(content, lastOffset, endOffset);
                var line := old(StartLine(content, lastOffset));
                && (lineParser.Model(), r.value.events) == ReadRegion(decode, old(lineParser.Model()), region, line)
                && nextOffset == lastOffset + |region| - |Split(region).1|
                && nextSourceLine == line + |Split(region).0|
                && r.value.nextOffset == nextOffset
                && r.value.bytesConsumed == nextOffset - lastOffset
                && old(lineParser.Model()).usage + r.value.usage == lineParser.Model().usage
                && r.value.usageMax == lineParser.Model().maxUsage
                && r.value.sessionId == lineParser.Model().sessionId
    {
      hide FedTo, Step, Feed, Split, DecodeAll, FirstNewline, CountNewlines;
      if endOffset.Some? && endOffset.value < lastOffset {
        return Failure(EndBeforeStart);
      }
      var limit := Limit(content, endOffset);
      if lastOffset > limit {
        return Failure(ReadPastEnd);
      }
      var usageOffset := |lineParser.usage|;
      var sourceLine := StartLine(content, lastOffset);
      var events: seq<Event> := [];
      var bytesConsumed := 0;
      ghost var start := lineParser.Model();
      ghost var region := Region(content, lastOffset, endOffset);
      ghost var first := sourceLine;
      FedNothing(decode, start, region, first);
      while lastOffset + bytesConsumed < |content|
        invariant bytesConsumed <= |region|
        invariant FedTo(decode, start, region, first, bytesConsumed, lineParser.Model(), events, sourceLine)
        decreases |region| - bytesConsumed
      {
        var rest := content[lastOffset + bytesConsumed..];
        var newline := FirstNewline(rest);
        if newline == |rest| {
          break;
        }
        var rawLine := rest[..newline + 1];
        if endOffset.Some? && lastOffset + bytesConsumed + |rawLine| > endOffset.value {
          break;
        }
        FedOn(decode, start, region, first, bytesConsumed, lineParser.Model(), events, sourceLine, content,
              lastOffset, limit, newline);
        bytesConsumed := bytesConsumed + |rawLine|;
        var more := lineParser.ParseLine(decode(rest[..newline]), sourceLine);
        events := events + more;
        sourceLine := sourceLine + 1;
      }
      FedAll(decode, start, region, first, bytesConsumed, lineParser.Model(), events, sourceLine, content, lastOffset,
             endOffset);
      UsageOnlyGrows(start, DecodeAll(decode, Split(region).0), first);
      nextOffset := lastOffset + bytesConsumed;
      nextSourceLine := sourceLine;
      r := Success(ParseResult(lineParser.sessionId, events, lineParser.usage[usageOffset..], nextOffset,
                               bytesConsumed, lineParser.maxUsage));
    }
  }

  /** The first `consumed` bytes of the region are whole lines and have been fed. */
  ghost predicate FedTo(decode: Bytes -> Option<Record>, start: State, region: Bytes, first: nat, consumed: nat,
                        s: State, events: seq<Event>, line: nat)
  {
    && consumed <= |region|
    && Split(region[..consumed]).1 == []
    && (s, events) == ReadRegion(decode, start, region[..consumed], first)
    && line == first + |Split(region[..consumed]).0|
  }

  lemma FedNothing(decode: Bytes -> Option<Record>, start: State, region: Bytes, first: nat)
    ensures FedTo(decode, start, region, first, 0, start, [], first)
  {}

  lemma OneLine(line: Bytes)
    requires NEWLINE !in line
    ensures Split(line + [NEWLINE]) == ([line], [])
  {
    assert IsSplit(line + [NEWLINE], [line], []) by {
      assert [line][1..] == [];
    }
    SplitUnique(line + [NEWLINE], [line], []);
  }

  lemma FeedOne(s: State, r: Option<Record>, line: nat)
    ensures Feed(s, [r], line) == Step(s, r, line)
  {
    assert [r][..0] == [];
    assert [] + Step(s, r, line).1 == Step(s, r, line).1;
  }

  /** Whole lines followed by anything split apart cleanly. */
  lemma SplitWhole(a: Bytes, b: Bytes)
    requires Split(a).1 == []
    ensures Split(a + b) == (Split(a).0 + Split(b).0, Split(b).1)
  {
    SplitAppend(a, b);
    assert [] + b == b;
  }

  /** Reading whole lines and then the rest is reading it all. */
  lemma ReadRegionAppend(decode: Bytes -> Option<Record>, s: State, a: Bytes, b: Bytes, line: nat)
    requires Split(a).1 == []
    ensures var p := ReadRegion(decode, s, a, line);
            var q := ReadRegion(decode, p.0, b, line + |Split(a).0|);
            ReadRegion(decode, s, a + b, line) == (q.0, p.1 + q.1)
  {
    hide Feed, Split, DecodeAll;
    SplitWhole(a, b);
    DecodeAppend(decode, Split(a).0, Split(b).0);
    FeedAppend(s, DecodeAll(decode, Split(a).0), DecodeAll(decode, Split(b).0), line);
  }

  lemma ReadOneLine(decode: Bytes -> Option<Record>, s: State, raw: Bytes, line: nat)
    requires NEWLINE !in raw
    ensures Split(raw + [NEWLINE]) == ([raw], [])
    ensures ReadRegion(decode, s, raw + [NEWLINE], line) == Step(s, decode(raw), line)
  {
    OneLine(raw);
    assert DecodeAll(decode, [raw]) == [decode(raw)];
    FeedOne(s, decode(raw), line);
  }

  /** One more line, ending at a newline inside the region. */
  lemma FedLine(decode: Bytes -> Option<Record>, start: State, region: Bytes, first: nat, consumed: nat,
                s: State, events: seq<Event>, line: nat, raw: Bytes)
    requires FedTo(decode, start, region, first, consumed, s, events, line)
    requires NEWLINE !in raw && consumed + |raw| + 1 <= |region|
    requires region[consumed..consumed + |raw| + 1] == raw + [NEWLINE]
    ensures var q := Step(s, decode(raw), line);
            FedTo(decode, start, region, first, consumed + |raw| + 1, q.0, events + q.1, line + 1)
  {
    hide Step, Feed, Split, ReadRegion;
    var a, b := region[..consumed], raw + [NEWLINE];
    assert region[..consumed + |raw| + 1] == a + b;
    ReadOneLine(decode, s, raw, line);
    SplitWhole(a, b);
    ReadRegionAppend(decode, start, a, b, first);
  }

  /** The next line of the file, seen inside the region. */
  lemma LineInRegion(content: Bytes, lastOffset: nat, limit: nat, consumed: nat, newline: nat)
    requires lastOffset + consumed + newline + 1 <= limit <= |content|
    ensures var region, rest := content[lastOffset..limit], content[lastOffset + consumed..];
            region[consumed..consumed + newline + 1] == rest[..newline] + [rest[newline]]
  {
    var rest := content[lastOffset + consumed..];
    SliceOfSlice(content, lastOffset, limit, consumed, consumed + newline + 1);
    SliceOfSlice(content, lastOffset + consumed, |content|, 0, newline + 1);
    assert content[lastOffset + consumed..|content|] == rest && rest[0..newline + 1] == rest[..newline + 1];
    OneFurther(rest, newline);
  }

  lemma FedOn(decode: Bytes -> Option<Record>, start: State, region: Bytes, first: nat, consumed: nat,
              s: State, events: seq<Event>, line: nat, content: Bytes, lastOffset: nat, limit: nat, newline: nat)
    requires lastOffset <= limit <= |content| && region == content[lastOffset..limit]
    requires FedTo(decode, start, region, first, consumed, s, events, line)
    requires newline == FirstNewline(content[lastOffset + consumed..])
    requires newline < |content| - lastOffset - consumed
    requires lastOffset + consumed + newline + 1 <= limit
    ensures var q := Step(s, decode(content[lastOffset + consumed..][..newline]), line);
            FedTo(decode, start, region, first, consumed + newline + 1, q.0, events + q.1, line + 1)
  {
    hide Step, FedTo;
    var rest := content[lastOffset + consumed..];
    var raw := rest[..newline];
    LineInRegion(content, lastOffset, limit, consumed, newline);
    FedLine(decode, start, region, first, consumed, s, events, line, raw);
  }

  /** The loop stops only when no whole line is left in the region. */
  lemma FedAll(decode: Bytes -> Option<Record>, start: State, region: Bytes, first: nat, consumed: nat,
               s: State, events: seq<Event>, line: nat, content: Bytes, lastOffset: nat, endOffset: Option<nat>)
    requires lastOffset <= Limit(content, endOffset) && region == Region(content, lastOffset, endOffset)
    requires FedTo(decode, start, region, first, consumed, s, events, line)
    requires lastOffset + consumed >= |content| ||
             var newline := FirstNewline(content[lastOffset + consumed..]);
             newline == |content| - lastOffset - consumed
             || (endOffset.Some? && lastOffset + consumed + newline + 1 > endOffset.value)
    ensures (s, events) == ReadRegion(decode, start, region, first)
    ensures consumed == |region| - |Split(region).1|
    ensures line == first + |Split(region).0|
  {
    var a, tail := region[..consumed], region[consumed..];
    assert region == a + tail;
    assert NEWLINE !in tail by {
      forall j | 0 <= j < |tail| ensures tail[j] != NEWLINE {
        assert tail[j] == content[lastOffset + consumed..][j];
      }
    }
    assert IsSplit(tail, [], tail);
    SplitUnique(tail, [], tail);
    SplitAppend(a, tail);
    assert [] + tail == tail;
    assert Split(a).0 + [] == Split(a).0;
  }

  lemma {:induction false} UsageOnlyGrows(s: State, lines: seq<Option<Record>>, first: nat)
    ensures s.usage <= Feed(s, lines, first).0.usage
    decreases |lines|
  {
    if lines != [] {
      var n := |lines| - 1;
      UsageOnlyGrows(s, lines[..n], first);
      var before := Feed(s, lines[..n], first).0;
      if !CodexUsage.IsSnapshot(lines[n]) {
        CodexUsage.OtherStepMeters(before, lines[n], first + n);
      }
    }
  }

  // ---------------------------------------------------------------------
  // Splitting does not matter
  // ---------------------------------------------------------------------

  datatype Progress = Progress(state: State, events: seq<Event>, nextOffset: nat, nextSourceLine: nat)

  /** One retained reader resuming on `content`, exactly as `Parse` leaves it. */
  function Resume(decode: Bytes -> Option<Record>, p: Progress, content: Bytes): Progress
    requires p.nextOffset <= |content|
  {
    var region := content[p.nextOffset..];
    var q := ReadRegion(decode, p.state, region, p.nextSourceLine);
    SplitEnd(region);
    Progress(q.0, p.events + q.1, p.nextOffset + |region| - |Split(region).1|, p.nextSourceLine + |Split(region).0|)
  }

  const FRESH := Progress(INITIAL, [], 0, 1)

  ghost predicate AppendOnly(snapshots: seq<Bytes>) {
    forall i :: 0 < i < |snapshots| ==> snapshots[i - 1] <= snapshots[i]
  }

  /** The file seen `|snapshots|` times while it grows, read on from where the reader stood. */
  ghost function ReadSpans(decode: Bytes -> Option<Record>, snapshots: seq<Bytes>): (p: Progress)
    requires AppendOnly(snapshots)
    ensures p.nextOffset <= if snapshots == [] then 0 else |snapshots[|snapshots| - 1]|
    decreases |snapshots|
  {
    if snapshots == [] then FRESH
    else
      var n := |snapshots| - 1;
      assert n > 0 ==> snapshots[n - 1] <= snapshots[n];
      var p := ReadSpans(decode, snapshots[..n]);
      SplitEnd(snapshots[n][p.nextOffset..]);
      Resume(decode, p, snapshots[n])
  }

  lemma WholeLinesOf(content: Bytes)
    ensures var off := |content| - |Split(content).1|;
            0 <= off <= |content| && Split(content[..off]) == (Split(content).0, [])
  {
    SplitEnd(content);
    SplitIsSplit(content);
    var off := |content| - |Split(content).1|;
    SplitUnique(content[..off], Split(content).0, []);
  }

  lemma ResumeIsOneRead(decode: Bytes -> Option<Record>, before: Bytes, after: Bytes)
    requires before <= after
    ensures Resume(decode, FRESH, before).nextOffset <= |after|
    ensures Resume(decode, Resume(decode, FRESH, before), after) == Resume(decode, FRESH, after)
  {
    hide Feed, Split, DecodeAll;
    var off := Resume(decode, FRESH, before).nextOffset;
    assert before[0..] == before && after[0..] == after;
    WholeLinesOf(before);
    var a, b := after[..off], after[off..];
    assert after == a + b && a == before[..off];
    SplitWhole(a, b);
    ReadRegionAppend(decode, INITIAL, a, b, 1);
    SplitEnd(b);
    SplitEnd(after);
    assert forall es: seq<Event> :: [] + es == es;
  }

  /** Any number of successive spans gives the state, events and position of one read of the final file. */
  lemma {:induction false} SplittingDoesNotMatter(decode: Bytes -> Option<Record>, snapshots: seq<Bytes>)
    requires AppendOnly(snapshots) && snapshots != []
    ensures ReadSpans(decode, snapshots) == Resume(decode, FRESH, snapshots[|snapshots| - 1])
    decreases |snapshots|
  {
    var n := |snapshots| - 1;
    if n == 0 {
      assert snapshots[..0] == [];
    } else {
      SplittingDoesNotMatter(decode, snapshots[..n]);
      ResumeIsOneRead(decode, snapshots[n - 1], snapshots[n]);
    }
  }
}
