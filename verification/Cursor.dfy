/**
  Byte-level bookkeeping of one transcript file: the chunked scanner, the
  identity digest and the parse/resume/reparse decision (twill_cursor.py).
 */
module Cursor {
  import opened Prelude
  import opened Sequences

  type Byte = bv8
  type Bytes = seq<Byte>

  const NEWLINE: Byte := 10
  const IDENTITY_PREFIX_BYTES: nat := 4096

  /** SHA-256 taken as injective: a digest is known by the bytes it covers. */
  datatype Digest = Sha256(preimage: Bytes)

  datatype ScanError = StartPastEnd

  /** A complete line with its 1-based number in the whole file. */
  datatype Line = Line(number: nat, raw: Bytes)

  datatype LineScan = LineScan(startOffset: nat, lines: seq<Line>, newOffset: nat, pendingTail: bool)
  {
    predicate RegionEmpty() {
      newOffset == startOffset && !pendingTail
    }
  }

  // ---------------------------------------------------------------------
  // What it means to cut bytes into lines
  // ---------------------------------------------------------------------

  function Unlines(lines: seq<Bytes>): Bytes {
    if lines == [] then [] else lines[0] + [NEWLINE] + Unlines(lines[1..])
  }

  /** The only way to read `s` as newline-terminated lines and an open tail. */
  ghost predicate IsSplit(s: Bytes, lines: seq<Bytes>, tail: Bytes) {
    && s == Unlines(lines) + tail
    && NEWLINE !in tail
    && forall i :: 0 <= i < |lines| ==> NEWLINE !in lines[i]
  }

  function CountNewlines(s: Bytes): nat {
    if s == [] then 0 else CountNewlines(s[..|s| - 1]) + (if s[|s| - 1] == NEWLINE then 1 else 0)
  }

  function FirstNewline(s: Bytes): (k: nat)
    ensures k <= |s|
    ensures forall j :: 0 <= j < k ==> s[j] != NEWLINE
    ensures k < |s| ==> s[k] == NEWLINE
  {
    if s == [] || s[0] == NEWLINE then 0 else 1 + FirstNewline(s[1..])
  }

  /** Python's `*complete, carry = s.split(b"\n")`. */
  function Split(s: Bytes): (r: (seq<Bytes>, Bytes))
    decreases |s|
  {
    var k := FirstNewline(s);
    if k == |s| then ([], s)
    else
      var rest := Split(s[k + 1..]);
      ([s[..k]] + rest.0, rest.1)
  }

  lemma IsSplitCons(line: Bytes, rest: Bytes, lines: seq<Bytes>, tail: Bytes)
    requires IsSplit(rest, lines, tail) && NEWLINE !in line
    ensures IsSplit(line + [NEWLINE] + rest, [line] + lines, tail)
  {
    var all := [line] + lines;
    assert all[1..] == lines;
    assert Unlines(all) + tail == line + [NEWLINE] + (Unlines(lines) + tail);
    forall i | 0 <= i < |all| ensures NEWLINE !in all[i] {
      assert all[i] == if i == 0 then line else lines[i - 1];
    }
  }

  lemma {:induction false} SplitIsSplit(s: Bytes)
    ensures IsSplit(s, Split(s).0, Split(s).1)
    decreases |s|
  {
    var k := FirstNewline(s);
    if k < |s| {
      SplitIsSplit(s[k + 1..]);
      IsSplitCons(s[..k], s[k + 1..], Split(s[k + 1..]).0, Split(s[k + 1..]).1);
      assert s == s[..k] + [NEWLINE] + s[k + 1..];
    } else {
      assert s == Unlines([]) + s;
    }
  }

  lemma FirstLineEnds(line: Bytes, rest: Bytes)
    requires NEWLINE !in line
    ensures var s := line + [NEWLINE] + rest;
            FirstNewline(s) == |line| < |s| && s[..|line|] == line && s[|line| + 1..] == rest
  {
    var s := line + [NEWLINE] + rest;
    assert s[|line|] == NEWLINE;
    assert forall j :: 0 <= j < |line| ==> s[j] == line[j] && line[j] in line;
  }

  lemma {:induction false} SplitUnique(s: Bytes, lines: seq<Bytes>, tail: Bytes)
    requires IsSplit(s, lines, tail)
    ensures Split(s) == (lines, tail)
    decreases |lines|
  {
    var k := FirstNewline(s);
    if lines == [] {
      assert s == tail;
      assert forall j :: 0 <= j < |s| ==> s[j] in tail;
    } else {
      var rest := Unlines(lines[1..]) + tail;
      assert s == lines[0] + [NEWLINE] + rest;
      FirstLineEnds(lines[0], rest);
      SplitUnique(rest, lines[1..], tail);
      assert lines == [lines[0]] + lines[1..];
    }
  }

  lemma {:induction false} UnlinesAppend(a: seq<Bytes>, b: seq<Bytes>)
    ensures Unlines(a + b) == Unlines(a) + Unlines(b)
    decreases |a|
  {
    if a == [] {
      assert a + b == b;
    } else {
      UnlinesAppend(a[1..], b);
      assert (a + b)[1..] == a[1..] + b;
    }
  }

  /** Cutting a longer string only continues the tail of the shorter one. */
  lemma SplitAppend(a: Bytes, b: Bytes)
    ensures Split(a + b) == (Split(a).0 + Split(Split(a).1 + b).0, Split(Split(a).1 + b).1)
  {
    SplitIsSplit(a);
    SplitIsSplit(Split(a).1 + b);
    JoinSplits(a, Split(a).0, Split(a).1, b, Split(Split(a).1 + b).0, Split(Split(a).1 + b).1);
  }

  lemma JoinSplits(a: Bytes, linesA: seq<Bytes>, tailA: Bytes, b: Bytes, linesB: seq<Bytes>, tailB: Bytes)
    requires IsSplit(a, linesA, tailA)
    requires IsSplit(tailA + b, linesB, tailB)
    ensures Split(a + b) == (linesA + linesB, tailB)
  {
    UnlinesAppend(linesA, linesB);
    assert a + b == Unlines(linesA) + (tailA + b) == (Unlines(linesA) + Unlines(linesB)) + tailB;
    SplitUnique(a + b, linesA + linesB, tailB);
  }

  lemma {:induction false} CountNewlinesAppend(a: Bytes, b: Bytes)
    ensures CountNewlines(a + b) == CountNewlines(a) + CountNewlines(b)
    decreases |b|
  {
    if b == [] {
      assert a + b == a;
    } else {
      assert (a + b)[..|a + b| - 1] == a + b[..|b| - 1];
      CountNewlinesAppend(a, b[..|b| - 1]);
    }
  }

  lemma {:induction false} NoNewlines(s: Bytes)
    requires NEWLINE !in s
    ensures CountNewlines(s) == 0
    decreases |s|
  {
    if s != [] {
      assert s[|s| - 1] in s;
      NoNewlines(s[..|s| - 1]);
    }
  }

  lemma {:induction false} CountUnlines(lines: seq<Bytes>)
    requires forall i :: 0 <= i < |lines| ==> NEWLINE !in lines[i]
    ensures CountNewlines(Unlines(lines)) == |lines|
    decreases |lines|
  {
    if lines != [] {
      CountUnlines(lines[1..]);
      NoNewlines(lines[0]);
      assert CountNewlines([NEWLINE]) == 1 by {
        assert [NEWLINE][..0] == [];
      }
      CountNewlinesAppend(lines[0], [NEWLINE]);
      CountNewlinesAppend(lines[0] + [NEWLINE], Unlines(lines[1..]));
    }
  }

  lemma {:induction false} UnlinesEnds(lines: seq<Bytes>)
    requires lines != []
    ensures Unlines(lines) != [] && Unlines(lines)[|Unlines(lines)| - 1] == NEWLINE
    decreases |lines|
  {
    if |lines| > 1 {
      UnlinesEnds(lines[1..]);
    }
  }

  function Number(first: nat, raws: seq<Bytes>): (r: seq<Line>)
    ensures |r| == |raws|
    ensures forall i :: 0 <= i < |r| ==> r[i] == Line(first + i, raws[i])
    decreases |raws|
  {
    if raws == [] then [] else [Line(first, raws[0])] + Number(first + 1, raws[1..])
  }

  lemma NumberAppend(first: nat, a: seq<Bytes>, b: seq<Bytes>)
    ensures Number(first, a + b) == Number(first, a) + Number(first + |a|, b)
  {
    forall i | 0 <= i < |a + b|
      ensures Number(first, a + b)[i] == (Number(first, a) + Number(first + |a|, b))[i]
    {}
  }

  lemma NumberSnoc(first: nat, raws: seq<Bytes>, i: nat)
    requires i < |raws|
    ensures Number(first, raws[..i + 1]) == Number(first, raws[..i]) + [Line(first + i, raws[i])]
  {
    assert raws[..i + 1] == raws[..i] + [raws[i]];
    NumberAppend(first, raws[..i], [raws[i]]);
    assert Number(first + i, [raws[i]]) == [Line(first + i, raws[i])];
  }

  /** The scan of `content` from `start`, as a value. */
  function Scan(content: Bytes, start: nat): LineScan
    requires start <= |content|
  {
    var cut := Split(content[start..]);
    LineScan(start, Number(CountNewlines(content[..start]) + 1, cut.0), ScanEnd(content, start), cut.1 != [])
  }

  function ScanEnd(content: Bytes, start: nat): (end: nat)
    requires start <= |content|
    ensures start <= end <= |content|
  {
    SplitEnd(content[start..]);
    |content| - |Split(content[start..]).1|
  }

  /** Bytes a whole-file pass commits: everything up to the last newline. */
  function Committed(content: Bytes): (end: nat)
    ensures end <= |content|
  {
    ScanEnd(content, 0)
  }

  ghost predicate OnBoundary(content: Bytes, offset: nat) {
    offset <= |content| && (offset == 0 || content[offset - 1] == NEWLINE)
  }

  function Raws(lines: seq<Line>): (r: seq<Bytes>)
    ensures |r| == |lines|
    ensures forall i :: 0 <= i < |r| ==> r[i] == lines[i].raw
  {
    seq(|lines|, i requires 0 <= i < |lines| => lines[i].raw)
  }

  lemma RawsOfNumber(first: nat, raws: seq<Bytes>)
    ensures Raws(Number(first, raws)) == raws
  {}

  lemma SplitCounts(s: Bytes)
    ensures |Split(s).0| == CountNewlines(s)
  {
    SplitIsSplit(s);
    CountUnlines(Split(s).0);
    NoNewlines(Split(s).1);
    CountNewlinesAppend(Unlines(Split(s).0), Split(s).1);
  }

  /** Where the complete lines of `s` end. */
  lemma SplitEnd(s: Bytes)
    ensures var end := |s| - |Split(s).1|;
            && 0 <= end <= |s|
            && s[..end] == Unlines(Split(s).0)
            && (end == 0 || s[end - 1] == NEWLINE)
            && (forall k :: end <= k < |s| ==> s[k] != NEWLINE)
  {
    SplitIsSplit(s);
    var lines, tail := Split(s).0, Split(s).1;
    var end := |s| - |tail|;
    assert end == |Unlines(lines)|;
    if lines != [] {
      UnlinesEnds(lines);
    }
    forall k | end <= k < |s| ensures s[k] != NEWLINE {
      assert s[k] == tail[k - end];
    }
  }

  lemma WholeScan(content: Bytes)
    ensures Scan(content, 0).lines == Number(1, Split(content).0)
    ensures Scan(content, 0).newOffset == |content| - |Split(content).1|
    ensures Scan(content, 0).pendingTail <==> Split(content).1 != []
  {
    assert content[0..] == content && content[..0] == [];
  }

  /** Where a scan stops, without saying how it was computed. */
  lemma ScanEndIsExact(content: Bytes, start: nat)
    requires start <= |content|
    ensures var end := Scan(content, start).newOffset;
            && start <= end <= |content|
            && (end == start || content[end - 1] == NEWLINE)
            && NEWLINE !in content[end..]
            && (Scan(content, start).pendingTail <==> end < |content|)
  {
    var region := content[start..];
    SplitIsSplit(region);
    SplitEnd(region);
    var end := Scan(content, start).newOffset;
    assert content[end..] == region[end - start..] == Split(region).1;
  }

  /** Which lines a scan yields: the region's own, numbered within the whole file. */
  lemma ScanLinesAreExact(content: Bytes, start: nat)
    requires start <= |content|
    ensures var scan := Scan(content, start);
            && content[start..scan.newOffset] == Unlines(Raws(scan.lines))
            && (forall i :: 0 <= i < |scan.lines| ==> NEWLINE !in scan.lines[i].raw)
            && (forall i :: 0 <= i < |scan.lines| ==> scan.lines[i].number == CountNewlines(content[..start]) + i + 1)
  {
    hide Split, Number, CountNewlines, Unlines;
    var region := content[start..];
    var scan := Scan(content, start);
    SplitIsSplit(region);
    SplitEnd(region);
    RawsOfNumber(CountNewlines(content[..start]) + 1, Split(region).0);
    SliceOfDrop(content, start, scan.newOffset);
  }

  /** Committed bytes are whole lines; scanning on from there finishes the file. */
  lemma ScanResumes(content: Bytes, start: nat)
    requires OnBoundary(content, start)
    ensures Scan(content, 0).lines == Scan(content[..start], 0).lines + Scan(content, start).lines
    ensures Scan(content, 0).newOffset == Scan(content, start).newOffset
    ensures Scan(content, 0).pendingTail == Scan(content, start).pendingTail
    ensures Committed(content[..start]) == start
  {
    hide Split, Number, CountNewlines;
    var a, b := content[..start], content[start..];
    assert content == a + b;
    BoundaryHasNoTail(a);
    WholeScan(content);
    WholeScan(a);
    assert Split(content) == (Split(a).0 + Split(b).0, Split(b).1) by {
      SplitAppend(a, b);
      assert [] + b == b;
    }
    SplitCounts(a);
    NumberAppend(1, Split(a).0, Split(b).0);
  }

  lemma BoundaryHasNoTail(a: Bytes)
    requires a == [] || a[|a| - 1] == NEWLINE
    ensures Split(a).1 == []
  {
    SplitEnd(a);
  }

  /** The committed offset of a file is a line boundary holding all its complete lines. */
  lemma CommittedIsBoundary(content: Bytes)
    ensures OnBoundary(content, Committed(content))
    ensures Scan(content[..Committed(content)], 0).lines == Scan(content, 0).lines
  {
    ScanEndIsExact(content, 0);
    var end := Committed(content);
    ScanResumes(content, end);
    NoNewlines(content[end..]);
    SplitCounts(content[end..]);
    assert Scan(content, end).lines == [];
  }

  // ---------------------------------------------------------------------
  // The chunk loops
  // ---------------------------------------------------------------------

  /** A binary file handle: a read position over fixed bytes. */
  class BinaryHandle {
    const content: Bytes
    var position: nat

    constructor (content: Bytes)
      ensures this.content == content && position == 0
    {
      this.content := content;
      position := 0;
    }

    method Seek(offset: nat)
      modifies this
      ensures position == offset
    {
      position := offset;
    }

    /** At most `size` bytes; no bytes only at the end of the file. */
    method Read(size: nat) returns (chunk: Bytes)
      requires position <= |content|
      modifies this
      ensures position == Min(old(position) + size, |content|)
      ensures chunk == content[old(position)..position]
      ensures size > 0 && chunk == [] ==> position == old(position) == |content|
    {
      var end := Min(position + size, |content|);
      chunk := content[position..end];
      position := end;
    }
  }

  method CountNewlinesTo(handle: BinaryHandle, limit: nat, chunkBytes: nat) returns (count: nat)
    requires chunkBytes > 0 && handle.position == 0
    modifies handle
    ensures handle.position == Min(limit, |handle.content|)
    ensures count == CountNewlines(handle.content[..handle.position])
  {
    count := 0;
    var remaining := limit;
    while remaining > 0
      invariant 0 <= remaining <= limit
      invariant handle.position <= |handle.content|
      invariant handle.position + remaining == limit
      invariant count == CountNewlines(handle.content[..handle.position])
    {
      ghost var before := handle.position;
      var chunk := handle.Read(Min(chunkBytes, remaining));
      if chunk == [] {
        break;
      }
      assert handle.content[..handle.position] == handle.content[..before] + chunk;
      CountNewlinesAppend(handle.content[..before], chunk);
      count := count + CountNewlines(chunk);
      remaining := remaining - |chunk|;
    }
  }

  /** What the scanner holds after reading up to `now`. */
  ghost predicate ReadTo(content: Bytes, start: nat, now: nat, lines: seq<Line>, lineNumber: nat, carry: Bytes) {
    && start <= now <= |content|
    && lines == Number(CountNewlines(content[..start]) + 1, Split(content[start..now]).0)
    && lineNumber == CountNewlines(content[..start]) + |lines|
    && carry == Split(content[start..now]).1
  }

  lemma ReadNothing(content: Bytes, start: nat)
    requires start <= |content|
    ensures ReadTo(content, start, start, [], CountNewlines(content[..start]), [])
  {}

  lemma ReadOn(content: Bytes, start: nat, before: nat, now: nat, lines: seq<Line>, lineNumber: nat, carry: Bytes,
               cut: (seq<Bytes>, Bytes))
    requires ReadTo(content, start, before, lines, lineNumber, carry)
    requires before <= now <= |content| && cut == Split(carry + content[before..now])
    ensures ReadTo(content, start, now, lines + Number(lineNumber + 1, cut.0), lineNumber + |cut.0|, cut.1)
  {
    hide Split, Number, CountNewlines;
    var a := Split(content[start..before]);
    assert content[start..now] == content[start..before] + content[before..now];
    SplitAppend(content[start..before], content[before..now]);
    NumberAppend(CountNewlines(content[..start]) + 1, a.0, cut.0);
  }

  lemma ReadAll(content: Bytes, start: nat, now: nat, lines: seq<Line>, lineNumber: nat, carry: Bytes)
    requires ReadTo(content, start, now, lines, lineNumber, carry) && now == |content|
    ensures |carry| <= |content|
    ensures Scan(content, start) == LineScan(start, lines, |content| - |carry|, carry != [])
  {
    assert content[start..now] == content[start..];
    SplitEnd(content[start..]);
  }

  /** The scanner's inner loop: number the lines one chunk completed. */
  method AppendLines(lines: seq<Line>, lineNumber: nat, complete: seq<Bytes>)
    returns (lines': seq<Line>, lineNumber': nat)
    ensures lines' == lines + Number(lineNumber + 1, complete)
    ensures lineNumber' == lineNumber + |complete|
  {
    hide Number;
    lines', lineNumber' := lines, lineNumber;
    var i := 0;
    while i < |complete|
      invariant 0 <= i <= |complete|
      invariant lines' == lines + Number(lineNumber + 1, complete[..i])
      invariant lineNumber' == lineNumber + i
    {
      lineNumber' := lineNumber' + 1;
      lines' := lines' + [Line(lineNumber', complete[i])];
      NumberSnoc(lineNumber + 1, complete, i);
      i := i + 1;
    }
    assert complete[..i] == complete;
  }

  /** The body of the scanner's outer loop: what one chunk completes, and the carry it leaves. */
  method ScanChunk(ghost content: Bytes, ghost start: nat, ghost before: nat, ghost now: nat, chunk: Bytes,
                   lines: seq<Line>, lineNumber: nat, carry: Bytes)
    returns (lines': seq<Line>, lineNumber': nat, carry': Bytes)
    requires ReadTo(content, start, before, lines, lineNumber, carry)
    requires before <= now <= |content| && chunk == content[before..now]
    ensures ReadTo(content, start, now, lines', lineNumber', carry')
  {
    hide ReadTo, Split, Number, CountNewlines;
    var cut := Split(carry + chunk);
    ReadOn(content, start, before, now, lines, lineNumber, carry, cut);
    lines', lineNumber' := AppendLines(lines, lineNumber, cut.0);
    carry' := cut.1;
  }

  /** The scanner's outer loop: chunk after chunk to the end of the file. */
  method ScanRegion(handle: BinaryHandle, startOffset: nat, firstNumber: nat, chunkBytes: nat)
    returns (lines: seq<Line>, carry: Bytes)
    requires chunkBytes > 0 && handle.position == startOffset <= |handle.content|
    requires firstNumber == CountNewlines(handle.content[..startOffset])
    modifies handle
    ensures exists n: nat :: ReadTo(handle.content, startOffset, |handle.content|, lines, n, carry)
  {
    hide ReadTo, Split, Number, CountNewlines;
    var lineNumber := firstNumber;
    lines, carry := [], [];
    ReadNothing(handle.content, startOffset);
    while true
      invariant startOffset <= handle.position <= |handle.content|
      invariant ReadTo(handle.content, startOffset, handle.position, lines, lineNumber, carry)
      decreases |handle.content| - handle.position
    {
      ghost var before := handle.position;
      var chunk := handle.Read(chunkBytes);
      if chunk == [] {
        break;
      }
      assert before < handle.position;
      lines, lineNumber, carry :=
        ScanChunk(handle.content, startOffset, before, handle.position, chunk, lines, lineNumber, carry);
    }
  }

  method ScanLines(content: Bytes, startOffset: nat, chunkBytes: nat) returns (r: Result<LineScan, ScanError>)
    requires chunkBytes > 0
    ensures startOffset > |content| ==> r == Failure(StartPastEnd)
    ensures startOffset <= |content| ==> r == Success(Scan(content, startOffset))
  {
    hide ReadTo, Split, Number, Scan, CountNewlines;
    var handle := new BinaryHandle(content);
    var size := |content|;
    if startOffset > size {
      return Failure(StartPastEnd);
    }
    var firstNumber := CountNewlinesTo(handle, startOffset, chunkBytes);
    handle.Seek(startOffset);
    var lines, carry := ScanRegion(handle, startOffset, firstNumber, chunkBytes);
    ghost var lineNumber: nat :| ReadTo(content, startOffset, size, lines, lineNumber, carry);
    ReadAll(content, startOffset, size, lines, lineNumber, carry);
    var pendingTail := carry != [];
    r := Success(LineScan(startOffset, lines, if pendingTail then size - |carry| else size, pendingTail));
  }

  /** Digest of the first `min(length, size)` bytes, fed chunk by chunk. */
  method IdentityHash(content: Bytes, length: nat, chunkBytes: nat) returns (digest: Digest)
    requires chunkBytes > 0
    ensures digest == Identity(content, length)
  {
    var handle := new BinaryHandle(content);
    var fed: Bytes := [];
    var remaining := length;
    while remaining > 0
      invariant handle.position <= |content|
      invariant 0 <= remaining && handle.position + remaining == length
      invariant fed == content[..handle.position]
    {
      var chunk := handle.Read(Min(chunkBytes, remaining));
      if chunk == [] {
        break;
      }
      fed := fed + chunk;
      remaining := remaining - |chunk|;
    }
    assert handle.position == Min(length, |content|);
    digest := Sha256(fed);
  }

  function Identity(content: Bytes, length: nat): Digest {
    Sha256(content[..Min(length, |content|)])
  }

  // ---------------------------------------------------------------------
  // The plan
  // ---------------------------------------------------------------------

  datatype FileFacts = FileFacts(size: nat, mtime: int, identitySha: Digest)

  datatype CursorRow = CursorRow(
    sessionId: string,
    source: string,
    identitySha: Digest,
    size: nat,
    mtime: int,
    lastOffset: nat,
    parseErrors: nat,
    parseErrorRuns: nat,
    firstSeen: int,
    lastIndexedAt: int,
    pathMissing: bool)

  datatype Action = ActionParse | ActionResume | ActionReparse
  datatype Reason = ReasonNone | ReasonShrank | ReasonIdentityChanged
  datatype IngestPlan = IngestPlan(action: Action, reason: Reason, startOffset: nat, replaceSession: bool)

  function Facts(content: Bytes, mtime: int): FileFacts {
    FileFacts(|content|, mtime, Identity(content, IDENTITY_PREFIX_BYTES))
  }

  function PlanIngest(row: Option<CursorRow>, content: Bytes, facts: FileFacts): IngestPlan {
    if row.None? then
      IngestPlan(ActionParse, ReasonNone, 0, false)
    else if facts.size < row.value.lastOffset then
      IngestPlan(ActionReparse, ReasonShrank, 0, true)
    else
      var comparedBytes := Min(IDENTITY_PREFIX_BYTES, row.value.size);
      var currentSha :=
        if comparedBytes == Min(IDENTITY_PREFIX_BYTES, facts.size) then facts.identitySha
        else Identity(content, comparedBytes);
      if currentSha != row.value.identitySha then
        IngestPlan(ActionReparse, ReasonIdentityChanged, 0, true)
      else
        IngestPlan(ActionResume, ReasonNone, row.value.lastOffset, false)
  }

  /** The stored row records size, digest and committed offset of `last`. */
  ghost predicate RowDescribes(row: CursorRow, last: Bytes) {
    && row.size == |last|
    && row.identitySha == Identity(last, IDENTITY_PREFIX_BYTES)
    && row.lastOffset == Committed(last)
  }

  /** A resume is chosen exactly when no hashed byte moved and nothing committed was cut off. */
  lemma PlanIsExact(row: CursorRow, last: Bytes, content: Bytes, mtime: int)
    requires RowDescribes(row, last)
    ensures var plan := PlanIngest(Some(row), content, Facts(content, mtime));
            var hashed := Min(IDENTITY_PREFIX_BYTES, |last|);
            && (plan.action == ActionResume <==>
                  |content| >= Committed(last) && |content| >= hashed && content[..hashed] == last[..hashed])
            && (plan.action == ActionResume ==> plan.startOffset == Committed(last) && !plan.replaceSession)
            && (plan.action != ActionResume ==> plan.startOffset == 0 && plan.replaceSession)
            && (plan.reason == ReasonShrank <==> |content| < Committed(last))
  {
    var hashed := Min(IDENTITY_PREFIX_BYTES, |last|);
    var covered := Min(hashed, |content|);
    assert Identity(content, hashed).preimage == content[..covered];
  }

  ghost predicate ConsumedUnchanged(last: Bytes, content: Bytes) {
    && Committed(last) <= |content|
    && content[..Committed(last)] == last[..Committed(last)]
  }

  ghost predicate ResumeIsSafe(row: CursorRow, last: Bytes) {
    forall content: Bytes, mtime: int ::
      PlanIngest(Some(row), content, Facts(content, mtime)).action == ActionResume ==> ConsumedUnchanged(last, content)
  }

  /**
    Resuming never trusts changed bytes, whatever the file was rewritten to,
    exactly when the committed span lies inside the hashed prefix.
   */
  lemma ResumeIsSafeExactly(row: CursorRow, last: Bytes)
    requires RowDescribes(row, last)
    ensures ResumeIsSafe(row, last) <==> Committed(last) <= IDENTITY_PREFIX_BYTES
  {
    if Committed(last) <= IDENTITY_PREFIX_BYTES {
      forall content: Bytes, mtime: int |
        PlanIngest(Some(row), content, Facts(content, mtime)).action == ActionResume
        ensures ConsumedUnchanged(last, content)
      {
        PlanIsExact(row, last, content, mtime);
        var hashed := Min(IDENTITY_PREFIX_BYTES, |last|);
        assert content[..Committed(last)] == content[..hashed][..Committed(last)];
        assert last[..Committed(last)] == last[..hashed][..Committed(last)];
      }
    } else {
      var other: Byte := if last[IDENTITY_PREFIX_BYTES] == 0 then 1 else 0;
      var content: Bytes := last[IDENTITY_PREFIX_BYTES := other];
      PlanIsExact(row, last, content, 0);
      assert content[..IDENTITY_PREFIX_BYTES] == last[..IDENTITY_PREFIX_BYTES];
      assert content[..Committed(last)][IDENTITY_PREFIX_BYTES] != last[..Committed(last)][IDENTITY_PREFIX_BYTES];
      assert !ConsumedUnchanged(last, content);
    }
  }
}
