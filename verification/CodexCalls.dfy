/**
  Run-call accounting: which run events a rollout owes each shell call, and
  why no two emitted events share a (source line, event index) key.
 */
module CodexCalls {
  import opened Prelude
  import opened Interactions
  import opened Codex

  // ---------------------------------------------------------------------
  // What one step may emit and pend
  // ---------------------------------------------------------------------

  ghost predicate OwnEvents(events: seq<Event>, line: nat) {
    forall i :: 0 <= i < |events| ==>
      events[i].sourceLine == line && events[i].eventIndex == i && (events[i].kind.Run? ==> i == 0)
  }

  lemma {:induction false} AssistantBlocksOutput(
      s: State, blocks: seq<Block>, i: nat, messageId: Option<string>, line: nat, ctx: Context)
    requires i <= |blocks|
    ensures var s' := AssistantBlocks(s, blocks, i, messageId, line, ctx);
            s'.pending == s.pending && s'.pendingOrder == s.pendingOrder
    decreases |blocks| - i
  {
    if i < |blocks| {
      AssistantBlocksOutput(
        if blocks[i].blank then s else AssistantBlock(s, blocks[i], i, messageId, line, ctx),
        blocks, i + 1, messageId, line, ctx);
    }
  }

  ghost predicate PromptEvents(events: seq<Event>, line: nat) {
    OwnEvents(events, line) && forall i :: 0 <= i < |events| ==> !events[i].kind.Run?
  }

  lemma EmitPromptOutput(s: State, block: Block, line: nat, ctx: Context, i: nat)
    ensures var s' := EmitPrompt(s, block, line, ctx, i); s'.pending == s.pending && s'.pendingOrder == s.pendingOrder
  {}

  lemma InterruptIsPrompt(events: seq<Event>, line: nat, ctx: Context)
    requires PromptEvents(events, line)
    ensures PromptEvents(events + [InterruptEvent(line, ctx, |events|)], line)
  {}

  lemma CorrectionIsPrompt(events: seq<Event>, line: nat, ctx: Context, text: string)
    requires PromptEvents(events, line)
    ensures PromptEvents(events + [CorrectionEvent(line, ctx, |events|, text)], line)
  {}

  lemma {:induction false} PromptBlocksOutput(
      s: State, blocks: seq<Block>, i: nat, events: seq<Event>, line: nat, ctx: Context)
    requires i <= |blocks| && PromptEvents(events, line)
    ensures var r := PromptBlocks(s, blocks, i, events, line, ctx);
            && r.0.pending == s.pending && r.0.pendingOrder == s.pendingOrder
            && PromptEvents(r.1, line)
    decreases |blocks| - i
  {
    hide NewInteraction, Reterminalize;
    hide PromptEvents, EmitPrompt;
    if i < |blocks| {
      if blocks[i].blank {
        PromptBlocksOutput(s, blocks, i + 1, events, line, ctx);
      } else {
        var s1 := EmitPrompt(s, blocks[i], line, ctx, i);
        EmitPromptOutput(s, blocks[i], line, ctx, i);
        InterruptIsPrompt(events, line, ctx);
        CorrectionIsPrompt(events, line, ctx, blocks[i].text);
        if blocks[i].interrupt {
          PromptBlocksOutput(s1.(awaitingCorrection := true), blocks, i + 1,
                             events + [InterruptEvent(line, ctx, |events|)], line, ctx);
        } else if !s1.awaitingCorrection {
          PromptBlocksOutput(s1, blocks, i + 1, events, line, ctx);
        }
      }
    }
  }

  /** A record other than a call or an output: own events only, no run, calls untouched. */
  lemma OtherStepOutput(s: State, r: Option<Record>, line: nat)
    requires r.Some? ==> !r.value.body.Call? && !r.value.body.CallOutput?
    ensures var q := Step(s, r, line);
            && q.0.pending == s.pending && q.0.pendingOrder == s.pendingOrder
            && PromptEvents(q.1, line)
  {
    if r.Some? {
      var s1 := UpdateContext(s, r.value);
      var ctx := ContextOf(s1, r.value);
      match r.value.body
      case AssistantMessage(messageId, blocks) =>
        var s2 := if messageId.Some? then s1.(seenMessageIds := s1.seenMessageIds + {messageId.value}) else s1;
        AssistantBlocksOutput(s2, blocks, 0, messageId, line, ctx);
      case UserPrompt(blocks) => PromptBlocksOutput(s1, blocks, 0, [], line, ctx);
      case _ =>
    }
  }

  function CallAt(r: Record, line: nat, s: State): PendingCall
    requires r.body.Call?
  {
    var s1 := UpdateContext(s, r);
    NewCall(r.body, line, ContextOf(s1, r), |s.interactions|)
  }

  lemma CallStepOutput(s: State, r: Record, line: nat)
    requires r.body.Call?
    ensures var q := Step(s, Some(r), line);
            && OwnEvents(q.1, line)
            && q.0.pending == (if r.body.callId.Some? then s.pending[r.body.callId.value := CallAt(r, line, s)]
                               else s.pending)
            && q.0.pendingOrder == (if r.body.callId.Some? then s.pendingOrder + [r.body.callId.value]
                                    else s.pendingOrder)
            && (q.1 == [] || (|q.1| == 1 && (q.1[0].kind.FileRead? || q.1[0].kind.Run?)))
            && (|q.1| == 1 && q.1[0].kind.Run? <==> r.body.kind.RunCall? && r.body.callId.None? && r.body.command.Some?)
            && (r.body.kind.RunCall? && r.body.callId.Some? ==> q.1 == [])
            && (|q.1| == 1 && q.1[0].kind.Run? ==>
                  q.1[0].command == r.body.command && q.1[0].exitCode == None && q.1[0].errorExcerpt == None)
  {
    hide NewInteraction, OpenTurn, CloseTrailing, Reterminalize;
  }

  lemma OutputStepOutput(s: State, r: Record, line: nat)
    requires r.body.CallOutput?
    ensures var q := Step(s, Some(r), line); var p := FindPending(s, r.body.callId);
            && q.0.pending == (if p.Some? then s.pending - {r.body.callId.value} else s.pending)
            && q.0.pendingOrder == (if p.Some? then RemoveFirst(s.pendingOrder, r.body.callId.value)
                                    else s.pendingOrder)
            && (if !r.body.rejected && p.Some? && p.value.kind.RunCall?
                then q.1 == [RunEvent(p.value, r.body.exitCode, OutputExcerpt(r.body), 0)]
                else PromptEvents(q.1, line))
  {
    hide NewInteraction, RemoveFirst, OutputExcerpt, RunEvent;
  }

  // ---------------------------------------------------------------------
  // Distinct keys
  // ---------------------------------------------------------------------

  predicate SameKey(a: Event, b: Event) {
    a.sourceLine == b.sourceLine && a.eventIndex == b.eventIndex
  }

  ghost predicate KeysDistinct(events: seq<Event>) {
    forall i, j :: 0 <= i < j < |events| ==> !SameKey(events[i], events[j])
  }

  ghost predicate LinesAtMost(s: State, events: seq<Event>, n: nat) {
    && (forall i :: 0 <= i < |events| ==> events[i].sourceLine <= n)
    && (forall c :: c in s.pending ==> s.pending[c].sourceLine <= n)
  }

  /** A run call still pending has its line to itself. */
  ghost predicate RunLinesFree(s: State, events: seq<Event>) {
    forall c, i :: c in s.pending && s.pending[c].kind.RunCall? && 0 <= i < |events| ==>
      events[i].sourceLine != s.pending[c].sourceLine
  }

  ghost predicate PendingLinesDistinct(pending: map<string, PendingCall>) {
    forall c, d :: c in pending && d in pending && c != d ==> pending[c].sourceLine != pending[d].sourceLine
  }

  ghost predicate KeysFree(s: State, events: seq<Event>, n: nat) {
    && KeysDistinct(events)
    && LinesAtMost(s, events, n)
    && RunLinesFree(s, events)
    && PendingLinesDistinct(s.pending)
  }

  lemma OwnEventsFree(s: State, s': State, events: seq<Event>, own: seq<Event>, n: nat)
    requires KeysFree(s, events, n) && OwnEvents(own, n + 1)
    requires forall c :: c in s'.pending ==>
               || (c in s.pending && s'.pending[c] == s.pending[c])
               || (s'.pending[c].sourceLine == n + 1 && (s'.pending[c].kind.RunCall? ==> own == []))
    requires forall c, d :: c in s'.pending && d in s'.pending && c != d ==>
               s'.pending[c].sourceLine <= n || s'.pending[d].sourceLine <= n
    ensures KeysFree(s', events + own, n + 1)
  {
    var all := events + own;
    forall i, j | 0 <= i < j < |all| ensures !SameKey(all[i], all[j]) {
      if j < |events| {
      } else if i < |events| {
        assert all[i].sourceLine <= n < all[j].sourceLine;
      } else {
        assert all[i].eventIndex == i - |events| && all[j].eventIndex == j - |events|;
      }
    }
    forall c, i | c in s'.pending && s'.pending[c].kind.RunCall? && 0 <= i < |all|
      ensures all[i].sourceLine != s'.pending[c].sourceLine
    {
      if i < |events| {
        assert all[i] == events[i];
      } else {
        assert all[i] == own[i - |events|];
      }
    }
  }

  lemma RunEventFree(s: State, s': State, events: seq<Event>, id: string, e: Event, n: nat)
    requires KeysFree(s, events, n)
    requires id in s.pending && s.pending[id].kind.RunCall? && s'.pending == s.pending - {id}
    requires e.sourceLine == s.pending[id].sourceLine
    ensures KeysFree(s', events + [e], n + 1)
  {
    var all := events + [e];
    forall i, j | 0 <= i < j < |all| ensures !SameKey(all[i], all[j]) {
      if j == |events| {
        assert all[i] == events[i] && events[i].sourceLine != s.pending[id].sourceLine;
      }
    }
    forall c, i | c in s'.pending && s'.pending[c].kind.RunCall? && 0 <= i < |all|
      ensures all[i].sourceLine != s'.pending[c].sourceLine
    {
      if i < |events| {
        assert all[i] == events[i];
      }
    }
  }

  lemma StepKeysFree(s: State, r: Option<Record>, events: seq<Event>, n: nat)
    requires KeysFree(s, events, n)
    ensures KeysFree(Step(s, r, n + 1).0, events + Step(s, r, n + 1).1, n + 1)
  {
    var q := Step(s, r, n + 1);
    if r.Some? && r.value.body.CallOutput? {
      OutputStepOutput(s, r.value, n + 1);
      var p := FindPending(s, r.value.body.callId);
      if !r.value.body.rejected && p.Some? && p.value.kind.RunCall? {
        RunEventFree(s, q.0, events, r.value.body.callId.value, q.1[0], n);
      } else {
        OwnEventsFree(s, q.0, events, q.1, n);
      }
    } else if r.Some? && r.value.body.Call? {
      CallStepOutput(s, r.value, n + 1);
      OwnEventsFree(s, q.0, events, q.1, n);
    } else {
      OtherStepOutput(s, r, n + 1);
      OwnEventsFree(s, q.0, events, q.1, n);
    }
  }

  lemma {:induction false} FeedKeysFree(lines: seq<Option<Record>>)
    ensures KeysFree(Feed(INITIAL, lines, 1).0, Feed(INITIAL, lines, 1).1, |lines|)
    decreases |lines|
  {
    if lines != [] {
      var n := |lines| - 1;
      FeedKeysFree(lines[..n]);
      var before := Feed(INITIAL, lines[..n], 1);
      StepKeysFree(before.0, lines[n], before.1, n);
    }
  }

  /** However call ids are reused, the events of a rollout never collide on (line, index). */
  lemma EventKeysNeverCollide(lines: seq<Option<Record>>)
    ensures KeysDistinct(Feed(INITIAL, lines, 1).1)
    ensures forall i :: 0 <= i < |Feed(INITIAL, lines, 1).1| ==> Feed(INITIAL, lines, 1).1[i].sourceLine <= |lines|
  {
    FeedKeysFree(lines);
  }

  // ---------------------------------------------------------------------
  // The account, told from the records alone
  // ---------------------------------------------------------------------

  predicate IsCall(r: Option<Record>) {
    r.Some? && r.value.body.Call? && r.value.body.callId.Some?
  }

  function IdOf(r: Option<Record>): string
    requires IsCall(r)
  {
    r.value.body.callId.value
  }

  predicate IsOutputOf(r: Option<Record>, id: string) {
    r.Some? && r.value.body.CallOutput? && r.value.body.callId == Some(id)
  }

  /** The first record at or after `from` that is an output for `id`. */
  function Resolver(lines: seq<Option<Record>>, id: string, from: nat): (r: Option<nat>)
    ensures r.Some? ==> from <= r.value < |lines| && IsOutputOf(lines[r.value], id)
    ensures forall k :: from <= k < |lines| && (r.None? || k < r.value) ==> !IsOutputOf(lines[k], id)
    decreases |lines|
  {
    if |lines| <= from then None
    else
      var n := |lines| - 1;
      var earlier := Resolver(lines[..n], id, from);
      assert forall k :: from <= k < n ==> lines[..n][k] == lines[k];
      if earlier.Some? then earlier
      else if IsOutputOf(lines[n], id) then Some(n)
      else None
  }

  predicate Open(lines: seq<Option<Record>>, i: nat) {
    i < |lines| && IsCall(lines[i]) && Resolver(lines, IdOf(lines[i]), i + 1).None?
  }

  /** No call id is registered again while its earlier call still waits for an output. */
  ghost predicate NotReusedInFlight(lines: seq<Option<Record>>) {
    forall i, j :: 0 <= i < j < |lines| && IsCall(lines[i]) && IsCall(lines[j]) && IdOf(lines[i]) == IdOf(lines[j]) ==>
      !Open(lines[..j], i)
  }

  datatype Outcome = Outcome(command: Option<string>, exitCode: Option<int>, excerpt: Option<string>)

  /** The run outcomes call `i` is owed once `lines` have been read. */
  function Owed(lines: seq<Option<Record>>, i: nat): seq<Outcome>
    requires i < |lines|
  {
    if !(lines[i].Some? && lines[i].value.body.Call? && lines[i].value.body.kind.RunCall?) then []
    else
      var call := lines[i].value.body;
      if call.callId.None? then
        if call.command.Some? then [Outcome(call.command, None, None)] else []
      else
        match Resolver(lines, call.callId.value, i + 1)
        case None => []
        case Some(j) =>
          var o := lines[j].value.body;
          if o.rejected then [] else [Outcome(call.command, o.exitCode, OutputExcerpt(o))]
  }

  /** What finishing adds for call `i`. */
  function OwedAtFinish(lines: seq<Option<Record>>, i: nat): seq<Outcome>
    requires i < |lines|
  {
    if Open(lines, i) && lines[i].value.body.kind.RunCall? && lines[i].value.body.command.Some?
    then [Outcome(lines[i].value.body.command, None, None)] else []
  }

  /** The run outcomes among `events` for the call on `line`. */
  function RunsAt(events: seq<Event>, line: nat): seq<Outcome> {
    if events == [] then []
    else
      var n := |events| - 1;
      RunsAt(events[..n], line)
      + (if events[n].kind.Run? && events[n].sourceLine == line
         then [Outcome(events[n].command, events[n].exitCode, events[n].errorExcerpt)] else [])
  }

  lemma {:induction false} RunsAtAppend(a: seq<Event>, b: seq<Event>, line: nat)
    ensures RunsAt(a + b, line) == RunsAt(a, line) + RunsAt(b, line)
    decreases |b|
  {
    if b == [] {
      assert a + b == a;
    } else {
      var n := |b| - 1;
      RunsAtAppend(a, b[..n], line);
      assert (a + b)[..|a + b| - 1] == a + b[..n];
    }
  }

  lemma {:induction false} RunsAtNone(events: seq<Event>, line: nat)
    requires forall i :: 0 <= i < |events| ==> !(events[i].kind.Run? && events[i].sourceLine == line)
    ensures RunsAt(events, line) == []
    decreases |events|
  {
    if events != [] {
      RunsAtNone(events[..|events| - 1], line);
    }
  }

  // ---------------------------------------------------------------------
  // The parser keeps the account
  // ---------------------------------------------------------------------

  ghost predicate Matches(p: PendingCall, r: Option<Record>, line: nat)
    requires IsCall(r)
  {
    p.sourceLine == line && p.kind == r.value.body.kind && p.command == r.value.body.command
  }

  ghost predicate Unique(xs: seq<string>) {
    forall i, j :: 0 <= i < j < |xs| ==> xs[i] != xs[j]
  }

  /** Call `i` waits in the table under its own id. */
  ghost predicate Waits(pending: map<string, PendingCall>, lines: seq<Option<Record>>, i: nat)
    requires Open(lines, i)
  {
    IdOf(lines[i]) in pending && Matches(pending[IdOf(lines[i])], lines[i], i + 1)
  }

  ghost predicate OpenCallsWait(pending: map<string, PendingCall>, lines: seq<Option<Record>>) {
    forall i :: 0 <= i < |lines| && Open(lines, i) ==> Waits(pending, lines, i)
  }

  /** Table entry `id` is the open call on its source line. */
  ghost predicate IsOpenCall(lines: seq<Option<Record>>, id: string, line: nat) {
    1 <= line <= |lines| && Open(lines, line - 1) && IdOf(lines[line - 1]) == id
  }

  ghost predicate WaitingCallsOpen(pending: map<string, PendingCall>, lines: seq<Option<Record>>) {
    forall c :: c in pending ==> IsOpenCall(lines, c, pending[c].sourceLine)
  }

  /** The pending table holds exactly the calls still waiting for their output. */
  ghost predicate TableIsOpenCalls(s: State, lines: seq<Option<Record>>) {
    OpenCallsWait(s.pending, lines) && WaitingCallsOpen(s.pending, lines)
  }

  ghost predicate OrderIsTable(s: State) {
    && Unique(s.pendingOrder)
    && (forall i :: 0 <= i < |s.pendingOrder| ==> s.pendingOrder[i] in s.pending)
    && (forall c :: c in s.pending ==> c in s.pendingOrder)
  }

  ghost predicate RunsPaid(events: seq<Event>, lines: seq<Option<Record>>) {
    && (forall i :: 0 <= i < |lines| ==> RunsAt(events, i + 1) == Owed(lines, i))
    && (forall k :: 0 <= k < |events| ==> events[k].sourceLine <= |lines|)
  }

  ghost predicate Account(s: State, events: seq<Event>, lines: seq<Option<Record>>) {
    && TableIsOpenCalls(s, lines)
    && OrderIsTable(s)
    && RunsPaid(events, lines)
  }

  /** One more record: an earlier call is resolved by it or keeps its state. */
  lemma ResolverSnoc(lines: seq<Option<Record>>, r: Option<Record>, i: nat)
    requires i < |lines| && IsCall(lines[i])
    ensures var id := IdOf(lines[i]);
            Resolver(lines + [r], id, i + 1)
            == if Open(lines, i) then (if IsOutputOf(r, id) then Some(|lines|) else None)
               else Resolver(lines, id, i + 1)
  {
    assert (lines + [r])[..|lines|] == lines;
  }

  lemma OpenSnoc(lines: seq<Option<Record>>, r: Option<Record>)
    ensures forall i :: 0 <= i < |lines| ==>
              (Open(lines + [r], i) <==> Open(lines, i) && !IsOutputOf(r, IdOf(lines[i])))
    ensures Open(lines + [r], |lines|) <==> IsCall(r)
  {
    forall i | 0 <= i < |lines|
      ensures Open(lines + [r], i) <==> Open(lines, i) && !IsOutputOf(r, IdOf(lines[i]))
    {
      assert (lines + [r])[i] == lines[i];
      if IsCall(lines[i]) {
        ResolverSnoc(lines, r, i);
      }
    }
  }

  lemma OwedSnoc(lines: seq<Option<Record>>, r: Option<Record>, i: nat)
    requires i < |lines|
    ensures Owed(lines + [r], i)
            == if Open(lines, i) && IsOutputOf(r, IdOf(lines[i])) && lines[i].value.body.kind.RunCall?
               && !r.value.body.rejected
               then [Outcome(lines[i].value.body.command, r.value.body.exitCode, OutputExcerpt(r.value.body))]
               else Owed(lines, i)
  {
    assert (lines + [r])[i] == lines[i];
    if IsCall(lines[i]) {
      ResolverSnoc(lines, r, i);
    }
  }

  lemma {:induction false} RemoveFirstUnique(xs: seq<string>, x: string)
    requires Unique(xs)
    ensures Unique(RemoveFirst(xs, x))
    ensures forall y :: y in RemoveFirst(xs, x) <==> y in xs && y != x
    decreases |xs|
  {
    if xs != [] {
      assert Unique(xs[1..]);
      assert forall y :: y in xs <==> y == xs[0] || y in xs[1..];
      RemoveFirstUnique(xs[1..], x);
      var rest := RemoveFirst(xs[1..], x);
      if xs[0] != x {
        var r := [xs[0]] + rest;
        assert xs[0] !in xs[1..];
        forall i, j | 0 <= i < j < |r| ensures r[i] != r[j] {
          assert r[j] == rest[j - 1] && rest[j - 1] in rest;
        }
      }
    }
  }

  /** A record that is no output for `c`'s id leaves that open call open. */
  lemma StaysOpen(lines: seq<Option<Record>>, r: Option<Record>, c: string, line: nat)
    requires IsOpenCall(lines, c, line) && !IsOutputOf(r, c)
    ensures IsOpenCall(lines + [r], c, line)
  {
    OpenSnoc(lines, r);
    assert (lines + [r])[line - 1] == lines[line - 1];
  }

  /** A call open after one more record was open before it, or is that record. */
  lemma WasOpen(lines: seq<Option<Record>>, r: Option<Record>, i: nat)
    requires i < |lines| && Open(lines + [r], i)
    ensures Open(lines, i) && (lines + [r])[i] == lines[i] && !IsOutputOf(r, IdOf(lines[i]))
  {
    OpenSnoc(lines, r);
  }

  lemma KeepsTable(s: State, s': State, lines: seq<Option<Record>>, r: Option<Record>)
    requires TableIsOpenCalls(s, lines) && s'.pending == s.pending
    requires !IsCall(r) && forall c :: c in s.pending ==> !IsOutputOf(r, c)
    ensures TableIsOpenCalls(s', lines + [r])
  {
    var longer := lines + [r];
    OpenSnoc(lines, r);
    forall i | 0 <= i < |longer| && Open(longer, i) ensures Waits(s'.pending, longer, i) {
      WasOpen(lines, r, i);
      assert Waits(s.pending, lines, i);
    }
    forall c | c in s'.pending ensures IsOpenCall(longer, c, s'.pending[c].sourceLine) {
      StaysOpen(lines, r, c, s.pending[c].sourceLine);
    }
  }

  /** Own events without a run pay nobody, and nobody is owed more. */
  lemma OwnEventsPay(events: seq<Event>, own: seq<Event>, lines: seq<Option<Record>>, r: Option<Record>)
    requires RunsPaid(events, lines) && OwnEvents(own, |lines| + 1)
    requires forall k :: 0 <= k < |own| ==> !own[k].kind.Run?
    requires forall i :: 0 <= i < |lines| ==> Owed(lines + [r], i) == Owed(lines, i)
    requires Owed(lines + [r], |lines|) == []
    ensures RunsPaid(events + own, lines + [r])
  {
    forall i | 0 <= i < |lines| + 1 ensures RunsAt(events + own, i + 1) == Owed(lines + [r], i) {
      RunsAtAppend(events, own, i + 1);
      RunsAtNone(own, i + 1);
      if i == |lines| {
        RunsAtNone(events, i + 1);
      }
    }
  }

  lemma OtherKeepsAccount(s: State, events: seq<Event>, lines: seq<Option<Record>>, r: Option<Record>)
    requires Account(s, events, lines)
    requires r.Some? ==> !r.value.body.Call? && !r.value.body.CallOutput?
    ensures var q := Step(s, r, |lines| + 1); Account(q.0, events + q.1, lines + [r])
  {
    var q := Step(s, r, |lines| + 1);
    OtherStepOutput(s, r, |lines| + 1);
    KeepsTable(s, q.0, lines, r);
    forall i | 0 <= i < |lines| ensures Owed(lines + [r], i) == Owed(lines, i) {
      OwedSnoc(lines, r, i);
    }
    OwnEventsPay(events, q.1, lines, r);
  }

  // --- a call registers -------------------------------------------------

  lemma NewIdIsFree(s: State, lines: seq<Option<Record>>, r: Option<Record>)
    requires TableIsOpenCalls(s, lines) && IsCall(r) && NotReusedInFlight(lines + [r])
    ensures IdOf(r) !in s.pending
  {
    var longer := lines + [r];
    assert longer[..|lines|] == lines;
    forall c | c in s.pending ensures c != IdOf(r) {
      var i := s.pending[c].sourceLine - 1;
      assert IsOpenCall(lines, c, i + 1);
      assert longer[i] == lines[i] && longer[|lines|] == r && Open(longer[..|lines|], i);
    }
  }

  lemma CallKeepsTable(s: State, s': State, lines: seq<Option<Record>>, r: Option<Record>, p: PendingCall)
    requires TableIsOpenCalls(s, lines) && IsCall(r) && IdOf(r) !in s.pending
    requires s'.pending == s.pending[IdOf(r) := p] && Matches(p, r, |lines| + 1)
    ensures TableIsOpenCalls(s', lines + [r])
  {
    var longer := lines + [r];
    OpenSnoc(lines, r);
    forall i | 0 <= i < |longer| && Open(longer, i) ensures Waits(s'.pending, longer, i) {
      if i < |lines| {
        WasOpen(lines, r, i);
        assert Waits(s.pending, lines, i);
      }
    }
    forall c | c in s'.pending ensures IsOpenCall(longer, c, s'.pending[c].sourceLine) {
      if c != IdOf(r) {
        StaysOpen(lines, r, c, s.pending[c].sourceLine);
      }
    }
  }

  lemma CallKeepsOrder(s: State, s': State, id: string, p: PendingCall)
    requires OrderIsTable(s) && id !in s.pending
    requires s'.pending == s.pending[id := p] && s'.pendingOrder == s.pendingOrder + [id]
    ensures OrderIsTable(s')
  {
    forall c | c in s'.pending ensures c in s'.pendingOrder {
      assert c == id || c in s.pendingOrder;
    }
  }

  lemma CallOwes(lines: seq<Option<Record>>, r: Option<Record>)
    requires r.Some? && r.value.body.Call?
    ensures forall i :: 0 <= i < |lines| ==> Owed(lines + [r], i) == Owed(lines, i)
    ensures Owed(lines + [r], |lines|)
            == if r.value.body.kind.RunCall? && r.value.body.callId.None? && r.value.body.command.Some?
               then [Outcome(r.value.body.command, None, None)] else []
  {
    forall i | 0 <= i < |lines| ensures Owed(lines + [r], i) == Owed(lines, i) {
      OwedSnoc(lines, r, i);
    }
    if IsCall(r) {
      OpenSnoc(lines, r);
    }
  }

  lemma CallPays(events: seq<Event>, own: seq<Event>, lines: seq<Option<Record>>, r: Record, s: State)
    requires RunsPaid(events, lines) && r.body.Call? && own == Step(s, Some(r), |lines| + 1).1
    ensures RunsPaid(events + own, lines + [Some(r)])
  {
    hide Step, Owed;
    CallStepOutput(s, r, |lines| + 1);
    CallOwes(lines, Some(r));
    if |own| == 1 && own[0].kind.Run? {
      forall i | 0 <= i < |lines| + 1 ensures RunsAt(events + own, i + 1) == Owed(lines + [Some(r)], i) {
        RunsAtAppend(events, own, i + 1);
        if i == |lines| {
          RunsAtNone(events, i + 1);
          assert RunsAt(own[..0], i + 1) == [];
        } else {
          RunsAtNone(own, i + 1);
        }
      }
    } else {
      OwnEventsPay(events, own, lines, Some(r));
    }
  }

  lemma CallKeepsAccount(s: State, events: seq<Event>, lines: seq<Option<Record>>, r: Record)
    requires Account(s, events, lines) && r.body.Call? && NotReusedInFlight(lines + [Some(r)])
    ensures var q := Step(s, Some(r), |lines| + 1); Account(q.0, events + q.1, lines + [Some(r)])
  {
    var q := Step(s, Some(r), |lines| + 1);
    CallStepOutput(s, r, |lines| + 1);
    CallPays(events, q.1, lines, r, s);
    if r.body.callId.Some? {
      NewIdIsFree(s, lines, Some(r));
      CallKeepsTable(s, q.0, lines, Some(r), CallAt(r, |lines| + 1, s));
      CallKeepsOrder(s, q.0, r.body.callId.value, CallAt(r, |lines| + 1, s));
    } else {
      KeepsTable(s, q.0, lines, Some(r));
    }
  }

  // --- an output resolves -----------------------------------------------

  lemma OutputKeepsTable(s: State, s': State, lines: seq<Option<Record>>, r: Option<Record>, id: string)
    requires TableIsOpenCalls(s, lines) && IsOutputOf(r, id) && s'.pending == s.pending - {id}
    ensures TableIsOpenCalls(s', lines + [r])
  {
    var longer := lines + [r];
    OpenSnoc(lines, r);
    forall i | 0 <= i < |longer| && Open(longer, i) ensures Waits(s'.pending, longer, i) {
      WasOpen(lines, r, i);
      assert Waits(s.pending, lines, i);
    }
    forall c | c in s'.pending ensures IsOpenCall(longer, c, s'.pending[c].sourceLine) {
      assert s'.pending[c] == s.pending[c];
      StaysOpen(lines, r, c, s.pending[c].sourceLine);
    }
  }

  lemma OutputKeepsOrder(s: State, s': State, id: string)
    requires OrderIsTable(s) && s'.pending == s.pending - {id}
    requires s'.pendingOrder == RemoveFirst(s.pendingOrder, id)
    ensures OrderIsTable(s')
  {
    RemoveFirstUnique(s.pendingOrder, id);
    forall i | 0 <= i < |s'.pendingOrder| ensures s'.pendingOrder[i] in s'.pending {
      assert s'.pendingOrder[i] in s'.pendingOrder;
      assert s'.pendingOrder[i] in s.pendingOrder;
    }
  }

  /** The output pays the run it resolves and nothing else. */
  lemma OutputPaysLine(s: State, events: seq<Event>, own: seq<Event>, lines: seq<Option<Record>>, r: Record, i: nat)
    requires TableIsOpenCalls(s, lines) && RunsPaid(events, lines) && i < |lines|
    requires r.body.CallOutput? && own == Step(s, Some(r), |lines| + 1).1
    ensures RunsAt(events + own, i + 1) == Owed(lines + [Some(r)], i)
  {
    hide Step, TableIsOpenCalls, Owed;
    OutputStepOutput(s, r, |lines| + 1);
    RunsAtAppend(events, own, i + 1);
    var p := FindPending(s, r.body.callId);
    if !r.body.rejected && p.Some? && p.value.kind.RunCall? && p.value.sourceLine == i + 1 {
      ResolvedCallIsOwed(s, lines, r, i);
      RunsAtOne(own[0], i + 1);
    } else {
      RunsAtNone(own, i + 1);
      NotResolvedNotOwed(s, lines, r, i);
    }
  }

  lemma RunsAtOne(e: Event, line: nat)
    requires e.kind.Run? && e.sourceLine == line
    ensures RunsAt([e], line) == [Outcome(e.command, e.exitCode, e.errorExcerpt)]
  {
    assert [e][..0] == [];
  }

  lemma OutputPays(s: State, events: seq<Event>, own: seq<Event>, lines: seq<Option<Record>>, r: Record)
    requires TableIsOpenCalls(s, lines) && RunsPaid(events, lines)
    requires r.body.CallOutput? && own == Step(s, Some(r), |lines| + 1).1
    ensures RunsPaid(events + own, lines + [Some(r)])
  {
    OutputStepOutput(s, r, |lines| + 1);
    var p := FindPending(s, r.body.callId);
    assert p.Some? ==> IsOpenCall(lines, r.body.callId.value, p.value.sourceLine);
    forall i | 0 <= i < |lines| + 1 ensures RunsAt(events + own, i + 1) == Owed(lines + [Some(r)], i) {
      if i < |lines| {
        OutputPaysLine(s, events, own, lines, r, i);
      } else {
        RunsAtAppend(events, own, i + 1);
        RunsAtNone(events, i + 1);
        RunsAtNone(own, i + 1);
      }
    }
  }

  lemma ResolvedCallIsOwed(s: State, lines: seq<Option<Record>>, r: Record, i: nat)
    requires TableIsOpenCalls(s, lines) && i < |lines| && r.body.CallOutput? && !r.body.rejected
    requires FindPending(s, r.body.callId).Some?
    requires FindPending(s, r.body.callId).value.sourceLine == i + 1
    requires FindPending(s, r.body.callId).value.kind.RunCall?
    ensures Owed(lines, i) == []
    ensures Owed(lines + [Some(r)], i)
            == [Outcome(FindPending(s, r.body.callId).value.command, r.body.exitCode, OutputExcerpt(r.body))]
  {
    var id := r.body.callId.value;
    assert IsOpenCall(lines, id, i + 1);
    assert Waits(s.pending, lines, i);
    OwedSnoc(lines, Some(r), i);
  }

  lemma NotResolvedNotOwed(s: State, lines: seq<Option<Record>>, r: Record, i: nat)
    requires TableIsOpenCalls(s, lines) && i < |lines| && r.body.CallOutput?
    requires var p := FindPending(s, r.body.callId);
             r.body.rejected || p.None? || !p.value.kind.RunCall? || p.value.sourceLine != i + 1
    ensures Owed(lines + [Some(r)], i) == Owed(lines, i)
  {
    OwedSnoc(lines, Some(r), i);
    if Open(lines, i) && IsOutputOf(Some(r), IdOf(lines[i])) {
      assert Waits(s.pending, lines, i);
    }
  }

  lemma OutputKeepsAccount(s: State, events: seq<Event>, lines: seq<Option<Record>>, r: Record)
    requires Account(s, events, lines) && r.body.CallOutput?
    ensures var q := Step(s, Some(r), |lines| + 1); Account(q.0, events + q.1, lines + [Some(r)])
  {
    var q := Step(s, Some(r), |lines| + 1);
    OutputStepOutput(s, r, |lines| + 1);
    OutputPays(s, events, q.1, lines, r);
    if r.body.callId.Some? {
      assert r.body.callId.value !in s.pending ==> s.pending - {r.body.callId.value} == s.pending;
      OutputKeepsTable(s, q.0, lines, Some(r), r.body.callId.value);
      if r.body.callId.value in s.pending {
        OutputKeepsOrder(s, q.0, r.body.callId.value);
      }
    } else {
      KeepsTable(s, q.0, lines, Some(r));
    }
  }

  // ---------------------------------------------------------------------
  // Whole rollouts
  // ---------------------------------------------------------------------

  lemma PrefixNotReused(lines: seq<Option<Record>>, n: nat)
    requires NotReusedInFlight(lines) && n <= |lines|
    ensures NotReusedInFlight(lines[..n])
  {
    var p := lines[..n];
    forall i, j | 0 <= i < j < |p| && IsCall(p[i]) && IsCall(p[j]) && IdOf(p[i]) == IdOf(p[j])
      ensures !Open(p[..j], i)
    {
      assert p[i] == lines[i] && p[j] == lines[j] && p[..j] == lines[..j];
    }
  }

  /**
    After every prefix: the pending table is exactly the calls without an
    output yet, and each call has been given exactly the run events its own
    records owe it.
   */
  lemma {:induction false} AccountIsKept(lines: seq<Option<Record>>)
    requires NotReusedInFlight(lines)
    ensures Account(Feed(INITIAL, lines, 1).0, Feed(INITIAL, lines, 1).1, lines)
    decreases |lines|
  {
    if lines != [] {
      var n := |lines| - 1;
      PrefixNotReused(lines, n);
      AccountIsKept(lines[..n]);
      var before := Feed(INITIAL, lines[..n], 1);
      var r := lines[n];
      assert lines == lines[..n] + [r];
      if r.Some? && r.value.body.Call? {
        CallKeepsAccount(before.0, before.1, lines[..n], r.value);
      } else if r.Some? && r.value.body.CallOutput? {
        OutputKeepsAccount(before.0, before.1, lines[..n], r.value);
      } else {
        OtherKeepsAccount(before.0, before.1, lines[..n], r);
      }
    }
  }

  // --- finishing ----------------------------------------------------------

  function FlushOf(p: PendingCall): seq<Outcome> {
    if p.kind.RunCall? && p.command.Some? then [Outcome(p.command, None, None)] else []
  }

  /** `line` is the line of the run call at position `k`. */
  ghost predicate FromCall(calls: seq<PendingCall>, line: nat, k: nat) {
    k < |calls| && calls[k].kind.RunCall? && line == calls[k].sourceLine
  }

  ghost predicate LinesDistinct(calls: seq<PendingCall>) {
    forall i, j :: 0 <= i < j < |calls| ==> calls[i].sourceLine != calls[j].sourceLine
  }

  ghost predicate FlushedEvents(calls: seq<PendingCall>, events: seq<Event>) {
    forall k :: 0 <= k < |events| ==>
      events[k].eventIndex == k && exists m: nat :: FromCall(calls, events[k].sourceLine, m)
  }

  ghost predicate FlushedRuns(calls: seq<PendingCall>, i: nat, events: seq<Event>) {
    forall k :: 0 <= k < |calls| ==>
      RunsAt(events, calls[k].sourceLine) == if k < i then FlushOf(calls[k]) else []
  }

  lemma FlushOneEvent(calls: seq<PendingCall>, i: nat, events: seq<Event>)
    requires i < |calls| && FlushedEvents(calls, events)
    ensures FlushedEvents(calls, FlushNext(calls[i], events))
  {
    var all := FlushNext(calls[i], events);
    forall k | 0 <= k < |all|
      ensures all[k].eventIndex == k && exists m: nat :: FromCall(calls, all[k].sourceLine, m)
    {
      if k < |events| {
        assert all[k] == events[k];
      } else {
        assert FromCall(calls, all[k].sourceLine, i);
      }
    }
  }

  lemma FlushOneRun(calls: seq<PendingCall>, i: nat, events: seq<Event>)
    requires i < |calls| && LinesDistinct(calls) && FlushedRuns(calls, i, events)
    ensures FlushedRuns(calls, i + 1, FlushNext(calls[i], events))
  {
    var p := calls[i];
    forall k | 0 <= k < |calls|
      ensures RunsAt(FlushNext(p, events), calls[k].sourceLine) == if k < i + 1 then FlushOf(calls[k]) else []
    {
      if p.kind.RunCall? && p.command.Some? {
        var e := RunEvent(p, None, None, |events|);
        RunsAtAppend(events, [e], calls[k].sourceLine);
        if k == i {
          RunsAtOne(e, p.sourceLine);
        } else {
          RunsAtNone([e], calls[k].sourceLine);
        }
      }
    }
  }

  ghost function InOrder(s: State): (calls: seq<PendingCall>)
    requires OrderIsTable(s)
    ensures |calls| == |s.pendingOrder|
  {
    seq(|s.pendingOrder|, k requires 0 <= k < |s.pendingOrder| => s.pending[s.pendingOrder[k]])
  }

  /** The flush over the pending calls themselves. */
  function FlushFrom(calls: seq<PendingCall>, i: nat, events: seq<Event>): seq<Event>
    requires i <= |calls|
    decreases |calls| - i
  {
    if i == |calls| then events else FlushFrom(calls, i + 1, FlushNext(calls[i], events))
  }

  lemma {:induction false} UnresolvedIsFlush(s: State, i: nat, events: seq<Event>)
    requires OrderIsTable(s) && i <= |s.pendingOrder|
    ensures Unresolved(s, i, events) == Success(FlushFrom(InOrder(s), i, events))
    decreases |s.pendingOrder| - i
  {
    if i < |s.pendingOrder| {
      UnresolvedIsFlush(s, i + 1, FlushNext(s.pending[s.pendingOrder[i]], events));
    }
  }

  lemma {:induction false} FlushAllEvents(calls: seq<PendingCall>, i: nat, events: seq<Event>)
    requires i <= |calls| && FlushedEvents(calls, events)
    ensures FlushedEvents(calls, FlushFrom(calls, i, events))
    decreases |calls| - i
  {
    hide FlushedEvents;
    if i < |calls| {
      FlushOneEvent(calls, i, events);
      FlushAllEvents(calls, i + 1, FlushNext(calls[i], events));
    }
  }

  lemma {:induction false} FlushAllRuns(calls: seq<PendingCall>, i: nat, events: seq<Event>)
    requires i <= |calls| && LinesDistinct(calls) && FlushedRuns(calls, i, events)
    ensures FlushedRuns(calls, |calls|, FlushFrom(calls, i, events))
    decreases |calls| - i
  {
    hide FlushedRuns, LinesDistinct;
    if i < |calls| {
      FlushOneRun(calls, i, events);
      FlushAllRuns(calls, i + 1, FlushNext(calls[i], events));
    }
  }

  lemma NothingFlushed(calls: seq<PendingCall>)
    ensures FlushedEvents(calls, []) && FlushedRuns(calls, 0, [])
  {}

  lemma InOrderLinesDistinct(s: State)
    requires OrderIsTable(s) && PendingLinesDistinct(s.pending)
    ensures LinesDistinct(InOrder(s))
  {
    forall i, j | 0 <= i < j < |s.pendingOrder|
      ensures s.pending[s.pendingOrder[i]].sourceLine != s.pending[s.pendingOrder[j]].sourceLine
    {
      assert s.pendingOrder[i] in s.pending && s.pendingOrder[j] in s.pending;
    }
  }

  /**
    The full account of a rollout read to its end and finished: finishing
    succeeds and empties the table; call `i` has exactly one run event, from
    its first output or from the flush, none when that output is a rejection;
    and no two events share a key.
   */
  lemma RolloutAccount(lines: seq<Option<Record>>)
    requires NotReusedInFlight(lines)
    ensures var fed := Feed(INITIAL, lines, 1); var end := Finish(fed.0);
            && end.1.Success?
            && end.0.pending == map[] && end.0.pendingOrder == []
            && KeysDistinct(fed.1 + end.1.value)
            && forall i :: 0 <= i < |lines| ==>
                 RunsAt(fed.1 + end.1.value, i + 1) == Owed(lines, i) + OwedAtFinish(lines, i)
  {
    hide Feed, Finish, Account, KeysFree, RunsAt, Owed, OwedAtFinish, KeysDistinct, FlushFrom, FlushedEvents,
         FlushedRuns,
         PendingLinesDistinct, LinesDistinct, NotReusedInFlight, OrderIsTable;
    var fed := Feed(INITIAL, lines, 1);
    AccountIsKept(lines);
    AccountHolds(fed.0, fed.1, lines);
    FeedKeysFree(lines);
    KeysFreeLines(fed.0, fed.1, |lines|);
    FinishFlushes(fed.0, lines);
    FinishKeysDistinct(fed.0, fed.1, Finish(fed.0).1.value, |lines|);
    RunsOfFinish(fed.0, fed.1, Finish(fed.0).1.value, lines);
  }

  lemma AccountHolds(s: State, events: seq<Event>, lines: seq<Option<Record>>)
    requires Account(s, events, lines)
    ensures OrderIsTable(s)
  {}

  lemma KeysFreeLines(s: State, events: seq<Event>, n: nat)
    requires KeysFree(s, events, n)
    ensures PendingLinesDistinct(s.pending)
  {}

  /** Finishing succeeds, flushes every pending call in order and empties the table. */
  lemma FinishFlushes(s: State, lines: seq<Option<Record>>)
    requires OrderIsTable(s) && PendingLinesDistinct(s.pending)
    ensures var end := Finish(s);
            && end.1.Success? && end.0.pending == map[] && end.0.pendingOrder == []
            && FlushedEvents(InOrder(s), end.1.value) && FlushedRuns(InOrder(s), |InOrder(s)|, end.1.value)
  {
    hide FlushedEvents, FlushedRuns, LinesDistinct, Unique;
    InOrderLinesDistinct(s);
    UnresolvedIsFlush(s, 0, []);
    NothingFlushed(InOrder(s));
    FlushAllEvents(InOrder(s), 0, []);
    FlushAllRuns(InOrder(s), 0, []);
  }

  lemma RunsOfFinish(s: State, events: seq<Event>, flush: seq<Event>, lines: seq<Option<Record>>)
    requires Account(s, events, lines)
    requires FlushedEvents(InOrder(s), flush) && FlushedRuns(InOrder(s), |InOrder(s)|, flush)
    ensures forall i :: 0 <= i < |lines| ==> RunsAt(events + flush, i + 1) == Owed(lines, i) + OwedAtFinish(lines, i)
  {
    forall i | 0 <= i < |lines|
      ensures RunsAt(events + flush, i + 1) == Owed(lines, i) + OwedAtFinish(lines, i)
    {
      RunsAtAppend(events, flush, i + 1);
      FlushPays(s, flush, lines, i);
    }
  }

  /** A call still waiting is paid by its own flush. */
  lemma FlushPaysOpen(s: State, flush: seq<Event>, lines: seq<Option<Record>>, i: nat)
    requires TableIsOpenCalls(s, lines) && OrderIsTable(s) && i < |lines| && Open(lines, i)
    requires FlushedRuns(InOrder(s), |InOrder(s)|, flush)
    ensures RunsAt(flush, i + 1) == OwedAtFinish(lines, i)
  {
    hide RunsAt, Unique;
    assert Waits(s.pending, lines, i);
    var k :| 0 <= k < |s.pendingOrder| && s.pendingOrder[k] == IdOf(lines[i]);
    assert InOrder(s)[k].sourceLine == i + 1;
  }

  /** The flush says nothing about the line of any other call. */
  lemma FlushSkipsClosed(s: State, flush: seq<Event>, lines: seq<Option<Record>>, i: nat)
    requires TableIsOpenCalls(s, lines) && OrderIsTable(s) && i < |lines| && !Open(lines, i)
    requires FlushedEvents(InOrder(s), flush)
    ensures RunsAt(flush, i + 1) == []
  {
    hide RunsAt, Unique, Open;
    var calls := InOrder(s);
    forall j | 0 <= j < |flush| ensures flush[j].sourceLine != i + 1 {
      var k: nat :| FromCall(calls, flush[j].sourceLine, k);
      assert IsOpenCall(lines, s.pendingOrder[k], flush[j].sourceLine);
    }
    RunsAtNone(flush, i + 1);
  }

  lemma FlushPays(s: State, flush: seq<Event>, lines: seq<Option<Record>>, i: nat)
    requires TableIsOpenCalls(s, lines) && OrderIsTable(s) && i < |lines|
    requires FlushedEvents(InOrder(s), flush) && FlushedRuns(InOrder(s), |InOrder(s)|, flush)
    ensures RunsAt(flush, i + 1) == OwedAtFinish(lines, i)
  {
    hide RunsAt, TableIsOpenCalls, OrderIsTable, FlushedEvents, FlushedRuns;
    if Open(lines, i) {
      FlushPaysOpen(s, flush, lines, i);
    } else {
      FlushSkipsClosed(s, flush, lines, i);
    }
  }

  lemma FinishKeysDistinct(s: State, events: seq<Event>, flush: seq<Event>, n: nat)
    requires KeysFree(s, events, n) && OrderIsTable(s)
    requires FlushedEvents(InOrder(s), flush)
    ensures KeysDistinct(events + flush)
  {
    var all := events + flush;
    forall i, j | 0 <= i < j < |all| ensures !SameKey(all[i], all[j]) {
      if i < |events| <= j {
        var k: nat :| FromCall(InOrder(s), flush[j - |events|].sourceLine, k);
        assert events[i].sourceLine != s.pending[s.pendingOrder[k]].sourceLine;
      } else if |events| <= i {
        assert all[i].eventIndex == i - |events| && all[j].eventIndex == j - |events|;
      }
    }
  }
}
