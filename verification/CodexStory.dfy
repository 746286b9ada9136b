/**
  The parser tells the story of the records: after every rollout its
  interactions and its events are those the deeds leave.
 */
module CodexStory {
  import opened Prelude
  import opened Interactions
  import opened Codex
  import opened CodexDeeds

  // ---------------------------------------------------------------------
  // One deed more
  // ---------------------------------------------------------------------

  lemma {:induction false} CountGrows(deeds: seq<Deed>, p: nat, q: nat)
    requires p < q <= |deeds|
    ensures Count(deeds[..p]) + (if deeds[p].what.Complete? then 0 else 1) <= Count(deeds[..q])
    decreases q
  {
    assert deeds[..q][..q - 1] == deeds[..q - 1];
    if p < q - 1 {
      CountGrows(deeds, p, q - 1);
    }
  }

  /** The reply a thread is still making. */
  ghost function Trailing(deeds: seq<Deed>, sidechain: bool): (r: Option<nat>)
    ensures r.Some? ==>
              r.value < |deeds| && deeds[r.value].what.Reply? && deeds[r.value].ctx.sidechain == sidechain
  {
    if deeds == [] then None
    else
      var n := |deeds| - 1;
      if !Settles(deeds[n], sidechain) then Trailing(deeds[..n], sidechain)
      else if deeds[n].what.Reply? then Some(n)
      else None
  }

  ghost predicate SettledFrom(deeds: seq<Deed>, sidechain: bool, from: nat) {
    exists q :: from <= q < |deeds| && Settles(deeds[q], sidechain)
  }

  lemma {:induction false} TrailingIsOpen(deeds: seq<Deed>, p: nat)
    requires p < |deeds| && deeds[p].what.Reply?
    ensures Trailing(deeds, deeds[p].ctx.sidechain) == Some(p) <==> !SettledFrom(deeds, deeds[p].ctx.sidechain, p + 1)
  {
    var n, sidechain := |deeds| - 1, deeds[p].ctx.sidechain;
    if p < n && !Settles(deeds[n], sidechain) {
      TrailingIsOpen(deeds[..n], p);
      assert SettledFrom(deeds, sidechain, p + 1) ==> SettledFrom(deeds[..n], sidechain, p + 1) by {
        if SettledFrom(deeds, sidechain, p + 1) {
          var q :| p + 1 <= q < |deeds| && Settles(deeds[q], sidechain);
          assert deeds[..n][q] == deeds[q];
        }
      }
      assert SettledFrom(deeds[..n], sidechain, p + 1) ==> SettledFrom(deeds, sidechain, p + 1) by {
        if SettledFrom(deeds[..n], sidechain, p + 1) {
          var q :| p + 1 <= q < n && Settles(deeds[..n][q], sidechain);
          assert deeds[..n][q] == deeds[q];
        }
      }
    }
  }

  lemma {:induction false} EndingGrows(deeds: seq<Deed>, d: Deed, sidechain: bool, from: nat)
    requires from <= |deeds|
    ensures Ending(deeds + [d], sidechain, from)
            == if SettledFrom(deeds, sidechain, from) then Ending(deeds, sidechain, from)
               else if Settles(d, sidechain) then Closes(d.what).GetOr(NotFinal)
               else NotFinal
    ensures !SettledFrom(deeds, sidechain, from) ==> Ending(deeds, sidechain, from).NotFinal?
    decreases |deeds| - from
  {
    if from == |deeds| {
      assert Ending(deeds + [d], sidechain, from + 1) == NotFinal;
    } else if !Settles(deeds[from], sidechain) {
      EndingGrows(deeds, d, sidechain, from + 1);
      assert SettledFrom(deeds, sidechain, from) ==> SettledFrom(deeds, sidechain, from + 1) by {
        if SettledFrom(deeds, sidechain, from) {
          var q :| from <= q < |deeds| && Settles(deeds[q], sidechain);
          assert q != from;
        }
      }
    }
  }

  /** A deed of the thread ends the reply it was making, and changes no other node. */
  ghost predicate Ends(deeds: seq<Deed>, d: Deed, p: nat) {
    Trailing(deeds, d.ctx.sidechain) == Some(p) && Closes(d.what).Some?
  }

  lemma NodeGrows(deeds: seq<Deed>, d: Deed, p: nat)
    requires p < |deeds| && !deeds[p].what.Complete?
    ensures Node(deeds + [d], p)
            == if Ends(deeds, d, p) then Node(deeds, p).(terminal := Closes(d.what).value) else Node(deeds, p)
    ensures Ends(deeds, d, p) ==> Node(deeds, p).terminal.NotFinal?
  {
    hide Turns, Count, Ending, Trailing;
    assert (deeds + [d])[..p + 1] == deeds[..p + 1];
    assert (deeds + [d])[..p] == deeds[..p];
    if deeds[p].what.Reply? {
      TrailingIsOpen(deeds, p);
      EndingGrows(deeds, d, deeds[p].ctx.sidechain, p + 1);
    }
  }

  /** The interactions once the deed has ended the reply its thread was making. */
  ghost function Closed(deeds: seq<Deed>, xs: seq<Interaction>, d: Deed): (r: seq<Interaction>)
    ensures |r| == |xs|
  {
    var last := Trailing(deeds, d.ctx.sidechain);
    if last.Some? && Closes(d.what).Some? && Count(deeds[..last.value]) < |xs| then
      var at := Count(deeds[..last.value]);
      xs[at := xs[at].(terminal := Closes(d.what).value)]
    else
      xs
  }

  ghost function Told(deeds: seq<Deed>, xs: seq<Interaction>, d: Deed): seq<Interaction> {
    Closed(deeds, xs, d) + (if d.what.Complete? then [] else [Node(deeds + [d], |deeds|)])
  }

  lemma CountSnoc(deeds: seq<Deed>, d: Deed)
    ensures Count(deeds + [d]) == Count(deeds) + (if d.what.Complete? then 0 else 1)
  {
    assert (deeds + [d])[..|deeds|] == deeds;
  }

  lemma OldNodeTold(deeds: seq<Deed>, xs: seq<Interaction>, d: Deed, p: nat)
    requires Tells(deeds, xs) && p < |deeds| && !deeds[p].what.Complete?
    ensures Count(deeds[..p]) < |xs| && Closed(deeds, xs, d)[Count(deeds[..p])] == Node(deeds + [d], p)
  {
    hide Count, Trailing, Node;
    NodeGrows(deeds, d, p);
    var last := Trailing(deeds, d.ctx.sidechain);
    if last.Some? && last.value < p {
      CountGrows(deeds, last.value, p);
    } else if last.Some? && p < last.value {
      CountGrows(deeds, p, last.value);
    }
  }

  lemma ToldTells(deeds: seq<Deed>, xs: seq<Interaction>, d: Deed)
    requires Tells(deeds, xs)
    ensures Tells(deeds + [d], Told(deeds, xs, d))
  {
    hide Count, Trailing, Node, Closed;
    var all, ys := deeds + [d], Told(deeds, xs, d);
    CountSnoc(deeds, d);
    forall p | 0 <= p < |all| && !all[p].what.Complete?
      ensures Count(all[..p]) < |ys| && ys[Count(all[..p])] == Node(all, p)
    {
      if p < |deeds| {
        OldNodeTold(deeds, xs, d, p);
        assert all[..p] == deeds[..p];
      } else {
        assert all[..p] == deeds;
      }
    }
  }

  // ---------------------------------------------------------------------
  // The state follows the deeds
  // ---------------------------------------------------------------------

  ghost function TrailingOrdinal(deeds: seq<Deed>, sidechain: bool): Option<nat> {
    var last := Trailing(deeds, sidechain);
    if last.None? then None else Some(Count(deeds[..last.value]))
  }

  ghost predicate ThreadFollows(s: State, deeds: seq<Deed>, sidechain: bool) {
    && s.turns.Get(sidechain) == Turns(deeds, sidechain)
    && s.pendingQuestion.Get(sidechain) == Asking(deeds, sidechain)
    && s.lastAssistant.Get(sidechain) == TrailingOrdinal(deeds, sidechain)
  }

  ghost predicate Follows(s: State, deeds: seq<Deed>) {
    && Tells(deeds, s.interactions)
    && ThreadFollows(s, deeds, false)
    && ThreadFollows(s, deeds, true)
  }

  /** What no deed touches. */
  ghost predicate SameRest(s: State, s': State) {
    && s'.sessionId == s.sessionId && s'.cwd == s.cwd
    && s'.pending == s.pending && s'.seenMessageIds == s.seenMessageIds
  }

  ghost function AskingAfter(deeds: seq<Deed>, d: Deed, sidechain: bool): Option<nat> {
    var before := Asking(deeds, sidechain);
    if d.ctx.sidechain != sidechain then before
    else
      match d.what
      case Ask => Some(Count(deeds))
      case Stop => None
      case Abort => None
      case Answer(question) => if before == Some(question) then None else before
      case _ => before
  }

  ghost function TrailingAfter(deeds: seq<Deed>, d: Deed, sidechain: bool): Option<nat> {
    if !Settles(d, sidechain) then TrailingOrdinal(deeds, sidechain)
    else if d.what.Reply? then Some(Count(deeds))
    else None
  }

  ghost function TurnsAfter(deeds: seq<Deed>, d: Deed, sidechain: bool): nat {
    Turns(deeds, sidechain) + (if d.what.Request? && d.ctx.sidechain == sidechain then 1 else 0)
  }

  lemma ThreadGrows(deeds: seq<Deed>, d: Deed, sidechain: bool)
    ensures Turns(deeds + [d], sidechain) == TurnsAfter(deeds, d, sidechain)
    ensures Asking(deeds + [d], sidechain) == AskingAfter(deeds, d, sidechain)
    ensures TrailingOrdinal(deeds + [d], sidechain) == TrailingAfter(deeds, d, sidechain)
  {
    hide Count;
    var all := deeds + [d];
    assert all[..|all| - 1] == deeds;
    var last := Trailing(deeds, sidechain);
    if last.Some? {
      assert all[..last.value] == deeds[..last.value];
    }
  }

  ghost predicate ThreadMoves(s: State, deeds: seq<Deed>, d: Deed, s': State, sidechain: bool) {
    && s'.turns.Get(sidechain) == TurnsAfter(deeds, d, sidechain)
    && s'.pendingQuestion.Get(sidechain) == AskingAfter(deeds, d, sidechain)
    && s'.lastAssistant.Get(sidechain) == TrailingAfter(deeds, d, sidechain)
  }

  lemma NextFollows(s: State, deeds: seq<Deed>, d: Deed, s': State)
    requires Follows(s, deeds)
    requires s'.interactions == Told(deeds, s.interactions, d)
    requires ThreadMoves(s, deeds, d, s', false) && ThreadMoves(s, deeds, d, s', true)
    ensures Follows(s', deeds + [d])
  {
    hide Tells, Told, Turns, Asking, AskingAfter, TrailingAfter, TurnsAfter, TrailingOrdinal;
    ToldTells(deeds, s.interactions, d);
    ThreadGrows(deeds, d, false);
    ThreadGrows(deeds, d, true);
  }

  /** The node a deed leaves as it is done. */
  lemma NewNode(deeds: seq<Deed>, d: Deed)
    requires !d.what.Complete?
    ensures var turn := TurnsAfter(deeds, d, d.ctx.sidechain);
            Node(deeds + [d], |deeds|)
            == Interaction(
              OriginOf(d.what), ActorOf(d.what), d.line, d.index, Count(deeds), d.ctx.timestamp, d.ctx.sessionId,
              d.ctx.threadId, d.ctx.cwd, d.ctx.sidechain, ChannelOf(d), if turn == 0 then None else Some(turn),
              if d.what.Reply? then d.what.messageId else None,
              if d.what.Return? then d.what.call else None,
              if d.what.Answer? then Some(d.what.question) else None,
              if d.what.Stop? || d.what.Abort? then Interrupted else NotFinal, false, d.text)
  {
    hide Count, Turns, TurnsAfter;
    var all := deeds + [d];
    ThreadGrows(deeds, d, d.ctx.sidechain);
    assert all[..|deeds| + 1] == all && all[..|deeds|] == deeds;
    assert Ending(all, d.ctx.sidechain, |deeds| + 1).NotFinal?;
  }

  lemma ClosingTold(s: State, deeds: seq<Deed>, d: Deed)
    requires Follows(s, deeds) && Closes(d.what).Some?
    ensures CloseTrailing(s, d.ctx.sidechain, Closes(d.what).value).interactions == Closed(deeds, s.interactions, d)
    ensures ReplyInRange(s, d.ctx.sidechain)
  {
    hide Count, Trailing, Node, Turns, Asking;
    var last := Trailing(deeds, d.ctx.sidechain);
    if last.Some? {
      NodeGrows(deeds, d, last.value);
    }
  }

  ghost predicate ReplyInRange(s: State, sidechain: bool) {
    var last := s.lastAssistant.Get(sidechain);
    last.Some? ==> last.value < |s.interactions|
  }

  lemma EmittedThenClosed(s: State, x: Interaction, sidechain: bool, terminal: Terminal)
    requires ReplyInRange(s, sidechain)
    ensures CloseTrailing(Emit(s, x), sidechain, terminal).interactions
            == CloseTrailing(s, sidechain, terminal).interactions + [x]
  {}

  // ---------------------------------------------------------------------
  // Each kind of deed
  // ---------------------------------------------------------------------

  lemma ReplyFollows(s: State, deeds: seq<Deed>, block: Block, i: nat, messageId: Option<string>, line: nat,
                     ctx: Context)
    requires Follows(s, deeds)
    ensures var s' := AssistantBlock(s, block, i, messageId, line, ctx);
            && Follows(s', deeds + [Deed(Reply(messageId), line, i, ctx, block.text)])
            && SameRest(s, s')
  {
    hide Count, Trailing, Node, Turns, Asking, Tells;
    var d := Deed(Reply(messageId), line, i, ctx, block.text);
    NewNode(deeds, d);
    assert |s.interactions| == Count(deeds) by { TellsCount(deeds, s.interactions); }
    NextFollows(s, deeds, d, AssistantBlock(s, block, i, messageId, line, ctx));
  }

  lemma TellsCount(deeds: seq<Deed>, xs: seq<Interaction>)
    requires Tells(deeds, xs)
    ensures |xs| == Count(deeds)
  {}

  /** Closing a thread's reply changes that reply and what the thread trails. */
  lemma ClosedFields(s: State, sidechain: bool, terminal: Terminal)
    ensures var s' := CloseTrailing(s, sidechain, terminal);
            && s' == s.(interactions := s'.interactions, lastAssistant := s'.lastAssistant)
            && s'.interactions == CloseTrailing(s.(awaitingCorrection := false), sidechain, terminal).interactions
            && s'.lastAssistant.Get(sidechain) == None
            && s'.lastAssistant.Get(!sidechain) == s.lastAssistant.Get(!sidechain)
  {}

  /** An interrupt prompt and an abort record alike end the reply and withdraw the question. */
  lemma InterruptionFollows(s: State, deeds: seq<Deed>, d: Deed)
    requires Follows(s, deeds) && (d.what.Stop? || d.what.Abort?)
    ensures var s' := InterruptTurn(Emit(s, Node(deeds + [d], |deeds|)), d.ctx.sidechain);
            Follows(s', deeds + [d]) && SameRest(s, s') && s'.awaitingCorrection
  {
    hide Count, Trailing, Node, Turns, Asking, Tells, Reterminalize;
    var x := Node(deeds + [d], |deeds|);
    ClosingTold(s, deeds, d);
    EmittedThenClosed(s, x, d.ctx.sidechain, Interrupted);
    hide CloseTrailing;
    ClosedFields(Emit(s, x).(awaitingCorrection := true), d.ctx.sidechain, Interrupted);
    ClosedFields(Emit(s, x), d.ctx.sidechain, Interrupted);
    NextFollows(s, deeds, d, InterruptTurn(Emit(s, x), d.ctx.sidechain));
  }

  lemma AnswerFollows(s: State, deeds: seq<Deed>, d: Deed, s1: State)
    requires Follows(s, deeds) && d.what.Answer?
    requires s1 == s.(pendingQuestion := s1.pendingQuestion)
    requires s1.pendingQuestion
             == if s.pendingQuestion.Get(d.ctx.sidechain) == Some(d.what.question)
                then s.pendingQuestion.Set(d.ctx.sidechain, None) else s.pendingQuestion
    ensures var s' := Emit(s1, Node(deeds + [d], |deeds|));
            Follows(s', deeds + [d]) && SameRest(s, s') && s'.awaitingCorrection == s.awaitingCorrection
  {
    hide Count, Trailing, Node, Turns, Asking, Tells;
    NextFollows(s, deeds, d, Emit(s1, Node(deeds + [d], |deeds|)));
  }

  lemma RequestFollows(s: State, deeds: seq<Deed>, d: Deed)
    requires Follows(s, deeds) && d.what.Request?
    ensures var s' := Emit(OpenTurn(s, d.ctx.sidechain), Node(deeds + [d], |deeds|));
            Follows(s', deeds + [d]) && SameRest(s, s') && s'.awaitingCorrection == s.awaitingCorrection
  {
    hide Count, Trailing, Node, Turns, Asking, Tells, Reterminalize;
    var x := Node(deeds + [d], |deeds|);
    ClosingTold(s, deeds, d);
    NextFollows(s, deeds, d, Emit(OpenTurn(s, d.ctx.sidechain), x));
  }

  /** Neither ends a reply nor concerns a question. */
  lemma PlainFollows(s: State, deeds: seq<Deed>, d: Deed)
    requires Follows(s, deeds) && (d.what.Quote? || d.what.Invoke? || d.what.Return?)
    ensures var s' := Emit(s, Node(deeds + [d], |deeds|));
            Follows(s', deeds + [d]) && SameRest(s, s') && s'.awaitingCorrection == s.awaitingCorrection
  {
    hide Count, Trailing, Node, Turns, Asking, Tells;
    NextFollows(s, deeds, d, Emit(s, Node(deeds + [d], |deeds|)));
  }

  lemma PromptFollows(s: State, deeds: seq<Deed>, block: Block, i: nat, line: nat, ctx: Context)
    requires Follows(s, deeds)
    ensures var s' := EmitPrompt(s, block, line, ctx, i);
            && Follows(s', deeds + [Deed(Prompted(block, Asking(deeds, ctx.sidechain)), line, i, ctx, block.text)])
            && SameRest(s, s')
            && s'.awaitingCorrection == (s.awaitingCorrection || block.interrupt)
  {
    hide Count, Trailing, Node, Turns, Asking, Tells, Reterminalize;
    var d := Deed(Prompted(block, Asking(deeds, ctx.sidechain)), line, i, ctx, block.text);
    NewNode(deeds, d);
    TellsCount(deeds, s.interactions);
    match d.what
    case Stop => InterruptionFollows(s, deeds, d);
    case Quote => PlainFollows(s, deeds, d);
    case Answer(_) =>
      AnswerFollows(s, deeds, d, s.(pendingQuestion := s.pendingQuestion.Set(ctx.sidechain, None)));
    case Request => RequestFollows(s, deeds, d);
  }

  lemma AbortFollows(s: State, deeds: seq<Deed>, reason: string, line: nat, ctx: Context)
    requires Follows(s, deeds)
    ensures var s' := AbortTurn(s, reason, line, ctx);
            && Follows(s', deeds + [Deed(Abort, line, 0, ctx, reason)])
            && SameRest(s, s') && s'.awaitingCorrection
  {
    hide Count, Trailing, Node, Turns, Asking, Tells, Reterminalize, Follows;
    var d := Deed(Abort, line, 0, ctx, reason);
    NewNode(deeds, d);
    FollowsTells(s, deeds);
    InterruptionFollows(s, deeds, d);
  }

  lemma FollowsTells(s: State, deeds: seq<Deed>)
    requires Follows(s, deeds)
    ensures |s.interactions| == Count(deeds)
    ensures forall sidechain :: s.turns.Get(sidechain) == Turns(deeds, sidechain)
    ensures forall sidechain :: s.pendingQuestion.Get(sidechain) == Asking(deeds, sidechain)
  {}

  lemma CompleteFollows(s: State, deeds: seq<Deed>, line: nat, ctx: Context)
    requires Follows(s, deeds)
    ensures var s' := CloseTrailing(s, ctx.sidechain, Completed);
            && Follows(s', deeds + [Deed(Complete, line, 0, ctx, "")])
            && SameRest(s, s') && s'.awaitingCorrection == s.awaitingCorrection
  {
    hide Count, Trailing, Node, Turns, Asking, Tells, Reterminalize;
    var d := Deed(Complete, line, 0, ctx, "");
    ClosingTold(s, deeds, d);
    NextFollows(s, deeds, d, CloseTrailing(s, ctx.sidechain, Completed));
  }

  // ---------------------------------------------------------------------
  // The blocks of a message and of a prompt
  // ---------------------------------------------------------------------

  lemma {:induction false} RepliesFollow(s: State, before: seq<Deed>, blocks: seq<Block>, i: nat,
                                         messageId: Option<string>, line: nat, ctx: Context)
    requires i <= |blocks| && Follows(s, before + Replies(messageId, blocks[..i], line, ctx))
    ensures var s' := AssistantBlocks(s, blocks, i, messageId, line, ctx);
            Follows(s', before + Replies(messageId, blocks, line, ctx)) && SameRest(s, s')
    decreases |blocks| - i
  {
    hide Follows, AssistantBlock;
    if i == |blocks| {
      assert blocks[..i] == blocks;
    } else {
      var earlier := Replies(messageId, blocks[..i], line, ctx);
      assert blocks[..i + 1][..i] == blocks[..i];
      if blocks[i].blank {
        assert earlier + [] == earlier;
        RepliesFollow(s, before, blocks, i + 1, messageId, line, ctx);
      } else {
        var d := Deed(Reply(messageId), line, i, ctx, blocks[i].text);
        ReplyFollows(s, before + earlier, blocks[i], i, messageId, line, ctx);
        assert before + earlier + [d] == before + (earlier + [d]);
        RepliesFollow(AssistantBlock(s, blocks[i], i, messageId, line, ctx), before, blocks, i + 1, messageId, line,
                      ctx);
      }
    }
  }

  lemma InterruptsGrow(blocks: seq<Block>, i: nat)
    requires i < |blocks|
    ensures Interrupts(blocks, i + 1) == (Interrupts(blocks, i) || (!blocks[i].blank && blocks[i].interrupt))
  {}

  lemma CorrectedGrows(blocks: seq<Block>, awaited: bool, i: nat)
    requires i < |blocks|
    ensures Corrected(blocks, awaited, i + 1) == (Corrected(blocks, awaited, i) || Corrects(blocks, awaited, i))
  {
    hide Corrects;
  }

  /** Nothing after the correction is heard. */
  lemma {:induction false} AfterCorrection(before: seq<Deed>, blocks: seq<Block>, i: nat, n: nat, awaited: bool,
                                           line: nat, ctx: Context)
    requires i <= n <= |blocks| && Corrected(blocks, awaited, i)
    ensures PromptDeeds(before, blocks, n, awaited, line, ctx) == PromptDeeds(before, blocks, i, awaited, line, ctx)
    ensures PromptTells(blocks, n, awaited, line, ctx) == PromptTells(blocks, i, awaited, line, ctx)
    ensures Corrected(blocks, awaited, n)
    decreases n
  {
    hide Corrects;
    if i < n {
      AfterCorrection(before, blocks, i, n - 1, awaited, line, ctx);
    }
  }

  /** Where a prompt stands after its first `i` blocks, none of them the correction. */
  ghost predicate Prompting(s: State, before: seq<Deed>, blocks: seq<Block>, i: nat, awaited: bool,
                            events: seq<Event>, line: nat, ctx: Context)
    requires i <= |blocks|
  {
    && Follows(s, PromptDeeds(before, blocks, i, awaited, line, ctx))
    && events == PromptTells(blocks, i, awaited, line, ctx)
    && !Corrected(blocks, awaited, i)
    && s.awaitingCorrection == (awaited || Interrupts(blocks, i))
  }

  ghost predicate PromptTold(s: State, before: seq<Deed>, blocks: seq<Block>, awaited: bool, r: (State, seq<Event>),
                            line: nat, ctx: Context) {
    && Follows(r.0, PromptDeeds(before, blocks, |blocks|, awaited, line, ctx))
    && r.1 == PromptTells(blocks, |blocks|, awaited, line, ctx)
    && r.0.awaitingCorrection
       == (!Corrected(blocks, awaited, |blocks|) && (awaited || Interrupts(blocks, |blocks|)))
    && SameRest(s, r.0)
  }

  lemma {:induction false} PromptBlocksFollow(s: State, before: seq<Deed>, blocks: seq<Block>, i: nat, awaited: bool,
                                              events: seq<Event>, line: nat, ctx: Context)
    requires i <= |blocks| && Prompting(s, before, blocks, i, awaited, events, line, ctx)
    ensures PromptTold(s, before, blocks, awaited, PromptBlocks(s, blocks, i, events, line, ctx), line, ctx)
    decreases |blocks| - i
  {
    hide Follows, EmitPrompt, Interrupts, Corrected;
    if i < |blocks| {
      InterruptsGrow(blocks, i);
      CorrectedGrows(blocks, awaited, i);
      if blocks[i].blank {
        PromptBlocksFollow(s, before, blocks, i + 1, awaited, events, line, ctx);
      } else {
        var earlier := PromptDeeds(before, blocks, i, awaited, line, ctx);
        var s1 := EmitPrompt(s, blocks[i], line, ctx, i);
        PromptFollows(s, earlier, blocks[i], i, line, ctx);
        if blocks[i].interrupt {
          PromptBlocksFollow(s1.(awaitingCorrection := true), before, blocks, i + 1, awaited,
                             events + [InterruptEvent(line, ctx, |events|)], line, ctx);
        } else if s1.awaitingCorrection {
          AwaitedFollows(s1, PromptDeeds(before, blocks, i + 1, awaited, line, ctx), false);
          AfterCorrection(before, blocks, i + 1, |blocks|, awaited, line, ctx);
        } else {
          PromptBlocksFollow(s1, before, blocks, i + 1, awaited, events, line, ctx);
        }
      }
    }
  }

  lemma AwaitedFollows(s: State, deeds: seq<Deed>, awaiting: bool)
    requires Follows(s, deeds)
    ensures Follows(s.(awaitingCorrection := awaiting), deeds)
  {}

  // ---------------------------------------------------------------------
  // The state after a rollout
  // ---------------------------------------------------------------------

  /** A call as it was registered. */
  ghost function CallAt(lines: seq<Option<Record>>, k: nat): PendingCall
    requires k < |lines| && IsCall(lines[k])
  {
    var call, ctx := lines[k].value.body, Setting(lines, k);
    PendingCall(call.name, call.kind, call.command, k + 1, ctx.timestamp, ctx.sessionId, ctx.cwd, ctx.sidechain,
                Count(Deeds(lines[..k])), call.question)
  }

  ghost predicate CallMatches(pending: map<string, PendingCall>, lines: seq<Option<Record>>, id: string) {
    && (id in pending <==> OpenCall(lines, id).Some?)
    && (id in pending ==> pending[id] == CallAt(lines, OpenCall(lines, id).value))
  }

  ghost predicate CallsMatch(pending: map<string, PendingCall>, lines: seq<Option<Record>>) {
    forall id :: CallMatches(pending, lines, id)
  }

  ghost predicate SeenMatches(seen: set<string>, lines: seq<Option<Record>>) {
    forall id :: id in seen <==> MessageSeen(lines, id)
  }

  ghost predicate Matches(s: State, lines: seq<Option<Record>>) {
    && s.sessionId == SessionNamed(lines)
    && s.cwd == CwdNamed(lines)
    && s.awaitingCorrection == Awaiting(lines)
    && SeenMatches(s.seenMessageIds, lines)
    && CallsMatch(s.pending, lines)
    && Follows(s, Deeds(lines))
  }

  lemma SeenGrows(lines: seq<Option<Record>>, n: nat)
    requires n < |lines|
    ensures forall id :: MessageSeen(lines[..n + 1], id) == (MessageSeen(lines[..n], id) || HasMessage(lines[n], id))
  {
    hide HasMessage;
    forall id ensures MessageSeen(lines[..n + 1], id) == (MessageSeen(lines[..n], id) || HasMessage(lines[n], id)) {
      if MessageSeen(lines[..n], id) {
        var k :| 0 <= k < n && HasMessage(lines[..n][k], id);
        assert HasMessage(lines[..n + 1][k], id);
      }
      if HasMessage(lines[n], id) {
        assert HasMessage(lines[..n + 1][n], id);
      }
      if MessageSeen(lines[..n + 1], id) {
        var k :| 0 <= k < n + 1 && HasMessage(lines[..n + 1][k], id);
        assert k < n ==> HasMessage(lines[..n][k], id);
      }
    }
  }

  lemma CallAtPrefix(lines: seq<Option<Record>>, n: nat, k: nat)
    requires k < n <= |lines| && IsCall(lines[k])
    ensures CallAt(lines[..n], k) == CallAt(lines, k)
  {
    hide Count, Deeds, SessionNamed, CwdNamed;
    assert lines[..n][..k] == lines[..k];
    assert lines[..n][..k + 1] == lines[..k + 1];
  }

  /** A record that neither makes nor answers a call leaves the open ones. */
  lemma CallsKept(pending: map<string, PendingCall>, lines: seq<Option<Record>>, n: nat)
    requires n == |lines| - 1 && CallsMatch(pending, lines[..n])
    requires lines[n].Some? ==> !lines[n].value.body.Call? && !lines[n].value.body.CallOutput?
    ensures CallsMatch(pending, lines)
  {
    hide CallAt;
    forall id ensures CallMatches(pending, lines, id) {
      assert CallMatches(pending, lines[..n], id);
      if id in pending {
        CallAtPrefix(lines, n, OpenCall(lines, id).value);
      }
    }
  }

  lemma CallsAfterCall(pending: map<string, PendingCall>, lines: seq<Option<Record>>, n: nat)
    requires n == |lines| - 1 && CallsMatch(pending, lines[..n]) && IsCall(lines[n])
    ensures var id := lines[n].value.body.callId;
            CallsMatch(if id.Some? then pending[id.value := CallAt(lines, n)] else pending, lines)
  {
    hide CallAt;
    var callId := lines[n].value.body.callId;
    var after := if callId.Some? then pending[callId.value := CallAt(lines, n)] else pending;
    forall id ensures CallMatches(after, lines, id) {
      assert CallMatches(pending, lines[..n], id);
      if id in after && callId != Some(id) {
        CallAtPrefix(lines, n, OpenCall(lines, id).value);
      }
    }
  }

  lemma CallsAfterOutput(pending: map<string, PendingCall>, lines: seq<Option<Record>>, n: nat)
    requires n == |lines| - 1 && CallsMatch(pending, lines[..n])
    requires lines[n].Some? && lines[n].value.body.CallOutput?
    ensures var id := lines[n].value.body.callId;
            CallsMatch(if id.Some? then pending - {id.value} else pending, lines)
  {
    hide CallAt;
    var callId := lines[n].value.body.callId;
    var after := if callId.Some? then pending - {callId.value} else pending;
    forall id ensures CallMatches(after, lines, id) {
      assert CallMatches(pending, lines[..n], id);
      if id in after {
        CallAtPrefix(lines, n, OpenCall(lines, id).value);
      }
    }
  }

  // ---------------------------------------------------------------------
  // One record
  // ---------------------------------------------------------------------

  /** All that `s` matches of a record's line once the naming is done and the record is not. */
  ghost predicate Reading(s: State, lines: seq<Option<Record>>, n: nat) {
    && n == |lines| - 1 && lines[n].Some?
    && s.sessionId == SessionNamed(lines)
    && s.cwd == CwdNamed(lines)
    && s.awaitingCorrection == Awaiting(lines[..n])
    && SeenMatches(s.seenMessageIds, lines[..n])
    && CallsMatch(s.pending, lines[..n])
    && Follows(s, Deeds(lines[..n]))
  }

  ghost predicate Read(r: (State, seq<Event>), lines: seq<Option<Record>>) {
    lines != [] && Matches(r.0, lines) && r.1 == LineTells(lines, |lines| - 1)
  }

  lemma SeenKept(s: State, lines: seq<Option<Record>>, n: nat)
    requires n == |lines| - 1 && SeenMatches(s.seenMessageIds, lines[..n])
    requires lines[n].Some? ==> !lines[n].value.body.AssistantMessage?
    ensures SeenMatches(s.seenMessageIds, lines)
  {
    hide MessageSeen;
    SeenGrows(lines, n);
    assert lines[..n + 1] == lines;
  }

  lemma MessageRead(s: State, lines: seq<Option<Record>>, n: nat)
    requires Reading(s, lines, n) && lines[n].value.body.AssistantMessage?
    ensures Read(Dispatch(s, lines[n].value.body, n + 1, Setting(lines, n)), lines)
  {
    hide Follows, MessageSeen, CallsMatch, Setting, SessionNamed, CwdNamed, Replies, AssistantBlocks;
    var body, ctx, before := lines[n].value.body, Setting(lines, n), Deeds(lines[..n]);
    var s1 := if body.messageId.Some? then s.(seenMessageIds := s.seenMessageIds + {body.messageId.value}) else s;
    SeenGrows(lines, n);
    assert lines[..n + 1] == lines;
    CallsKept(s.pending, lines, n);
    assert SeenMatches(s1.seenMessageIds, lines);
    SeenFollows(s, before, s1.seenMessageIds);
    EmptyReplies(body, n + 1, ctx);
    assert body.blocks[..0] == [];
    assert before + [] == before;
    RepliesFollow(s1, before, body.blocks, 0, body.messageId, n + 1, ctx);
    var s2 := EmitAssistantMessage(s, body.messageId, body.blocks, n + 1, ctx);
    AwaitedFollows(s2, Deeds(lines), false);
  }

  lemma EmptyReplies(body: Body, line: nat, ctx: Context)
    requires body.AssistantMessage?
    ensures Replies(body.messageId, [], line, ctx) == []
  {}

  lemma SeenFollows(s: State, deeds: seq<Deed>, seen: set<string>)
    requires Follows(s, deeds)
    ensures Follows(s.(seenMessageIds := seen), deeds)
  {}

  lemma PromptRead(s: State, lines: seq<Option<Record>>, n: nat)
    requires Reading(s, lines, n) && lines[n].value.body.UserPrompt?
    ensures Read(Dispatch(s, lines[n].value.body, n + 1, Setting(lines, n)), lines)
  {
    hide Follows, MessageSeen, CallsMatch, Setting, SessionNamed, CwdNamed, PromptBlocks;
    var blocks, ctx := lines[n].value.body.blocks, Setting(lines, n);
    SeenKept(s, lines, n);
    CallsKept(s.pending, lines, n);
    PromptBlocksFollow(s, Deeds(lines[..n]), blocks, 0, Awaiting(lines[..n]), [], n + 1, ctx);
  }

  lemma AbortRead(s: State, lines: seq<Option<Record>>, n: nat)
    requires Reading(s, lines, n) && lines[n].value.body.TurnAborted?
    ensures Read(Dispatch(s, lines[n].value.body, n + 1, Setting(lines, n)), lines)
  {
    hide Follows, MessageSeen, CallsMatch, Setting, SessionNamed, CwdNamed, AbortTurn;
    SeenKept(s, lines, n);
    CallsKept(s.pending, lines, n);
    AbortFollows(s, Deeds(lines[..n]), lines[n].value.body.reason, n + 1, Setting(lines, n));
  }

  lemma CompletionRead(s: State, lines: seq<Option<Record>>, n: nat)
    requires Reading(s, lines, n) && lines[n].value.body.TaskComplete?
    ensures Read(Dispatch(s, lines[n].value.body, n + 1, Setting(lines, n)), lines)
  {
    hide Follows, MessageSeen, CallsMatch, Setting, SessionNamed, CwdNamed, CloseTrailing;
    SeenKept(s, lines, n);
    CallsKept(s.pending, lines, n);
    CompleteFollows(s, Deeds(lines[..n]), n + 1, Setting(lines, n));
  }

  lemma QuestionFollows(s: State, deeds: seq<Deed>, d: Deed)
    requires Follows(s, deeds) && d.what.Ask?
    ensures var s' := Emit(s, Node(deeds + [d], |deeds|))
                        .(pendingQuestion := s.pendingQuestion.Set(d.ctx.sidechain, Some(|s.interactions|)));
            Follows(s', deeds + [d]) && SameRest(s, s')
  {
    hide Count, Trailing, Node, Turns, Asking, Tells;
    TellsCount(deeds, s.interactions);
    NextFollows(s, deeds, d, Emit(s, Node(deeds + [d], |deeds|))
                               .(pendingQuestion := s.pendingQuestion.Set(d.ctx.sidechain, Some(|s.interactions|))));
  }

  lemma CallFollows(s: State, deeds: seq<Deed>, c: Body, line: nat, ctx: Context)
    requires Follows(s, deeds) && c.Call?
    ensures var s' := CallInteraction(s, c, line, ctx);
            && Follows(s', deeds + [Deed(if c.question then Ask else Invoke(c.name), line, 0, ctx, c.prompt)])
            && SameRest(s, s')
  {
    hide Count, Trailing, Node, Turns, Asking, Tells, Follows;
    var d := Deed(if c.question then Ask else Invoke(c.name), line, 0, ctx, c.prompt);
    NewNode(deeds, d);
    FollowsTells(s, deeds);
    if c.question {
      QuestionFollows(s, deeds, d);
    } else {
      PlainFollows(s, deeds, d);
    }
  }

  lemma PendingFollows(s: State, deeds: seq<Deed>, s': State)
    requires Follows(s, deeds)
    requires s' == s.(pending := s'.pending, pendingOrder := s'.pendingOrder,
                      awaitingCorrection := s'.awaitingCorrection)
    ensures Follows(s', deeds)
  {}

  lemma CallRead(s: State, lines: seq<Option<Record>>, n: nat)
    requires Reading(s, lines, n) && lines[n].value.body.Call?
    ensures Read(Dispatch(s, lines[n].value.body, n + 1, Setting(lines, n)), lines)
  {
    hide Follows, MessageSeen, CallsMatch, Setting, SessionNamed, CwdNamed, CallInteraction;
    var c, ctx := lines[n].value.body, Setting(lines, n);
    SeenKept(s, lines, n);
    FollowsCount(s, Deeds(lines[..n]));
    CallsAfterCall(s.pending, lines, n);
    CallFollows(s, Deeds(lines[..n]), c, n + 1, ctx);
    PendingFollows(CallInteraction(s, c, n + 1, ctx), Deeds(lines), RegisterCall(s, c, n + 1, ctx).0);
  }

  lemma FollowsCount(s: State, deeds: seq<Deed>)
    requires Follows(s, deeds)
    ensures |s.interactions| == Count(deeds)
  {}

  lemma OutputFollows(s: State, deeds: seq<Deed>, o: Body, p: Option<PendingCall>, line: nat, ctx: Context)
    requires Follows(s, deeds) && o.CallOutput?
    ensures var s' := OutputInteraction(s, o, p, line, ctx);
            var what := if p.None? then Return(None, "")
                        else if p.value.isQuestion then Answer(p.value.ordinal)
                        else Return(Some(p.value.ordinal), p.value.name);
            && Follows(s', deeds + [Deed(what, line, 0, ctx, o.text)])
            && SameRest(s, s') && s'.awaitingCorrection == s.awaitingCorrection
  {
    hide Count, Trailing, Node, Turns, Asking, Tells, Follows;
    var what := if p.None? then Return(None, "")
                else if p.value.isQuestion then Answer(p.value.ordinal)
                else Return(Some(p.value.ordinal), p.value.name);
    var d := Deed(what, line, 0, ctx, o.text);
    NewNode(deeds, d);
    FollowsTells(s, deeds);
    if what.Answer? {
      var s1 := if s.pendingQuestion.Get(ctx.sidechain) == Some(what.question)
                then s.(pendingQuestion := s.pendingQuestion.Set(ctx.sidechain, None)) else s;
      AnswerFollows(s, deeds, d, s1);
    } else {
      PlainFollows(s, deeds, d);
    }
  }

  /** The call an output names is the open one, as it was registered. */
  lemma FoundCall(s: State, lines: seq<Option<Record>>, n: nat, callId: Option<string>)
    requires n < |lines| && CallsMatch(s.pending, lines[..n])
    ensures var p, call := FindPending(s, callId), OpenCallOf(lines[..n], callId);
            p == if call.None? then None else Some(CallAt(lines, call.value))
  {
    hide CallAt;
    if callId.Some? {
      assert CallMatches(s.pending, lines[..n], callId.value);
      if callId.value in s.pending {
        CallAtPrefix(lines, n, OpenCall(lines[..n], callId.value).value);
      }
    }
  }

  /** The events of an output, from the call it was matched to. */
  lemma OutputTold(lines: seq<Option<Record>>, n: nat)
    requires n < |lines| && lines[n].Some? && lines[n].value.body.CallOutput?
    ensures var o := lines[n].value.body;
            var call := OpenCallOf(lines[..n], o.callId);
            OutputTells(lines, n)
            == OutputEvents(o, if call.None? then None else Some(CallAt(lines, call.value)), n + 1, Setting(lines, n))
  {
    hide OpenCallOf, Setting, Deeds, Count;
  }

  lemma OutcomeIs(lines: seq<Option<Record>>, n: nat, call: Option<nat>)
    requires n < |lines| && (call.Some? ==> call.value < n && IsCall(lines[call.value]))
    ensures var p := if call.None? then None else Some(CallAt(lines, call.value));
            Outcome(lines[..n], call)
            == if p.None? then Return(None, "")
               else if p.value.isQuestion then Answer(p.value.ordinal)
               else Return(Some(p.value.ordinal), p.value.name)
  {
    hide Deeds, Count, Setting;
    if call.Some? {
      assert lines[..n][..call.value] == lines[..call.value];
    }
  }

  lemma OutputRead(s: State, lines: seq<Option<Record>>, n: nat)
    requires Reading(s, lines, n) && lines[n].value.body.CallOutput?
    ensures Read(Dispatch(s, lines[n].value.body, n + 1, Setting(lines, n)), lines)
  {
    hide Follows, MessageSeen, CallsMatch, Setting, SessionNamed, CwdNamed, OutputInteraction, OpenCallOf, CallAt,
      Outcome, OutputTells, OutputEvents;
    var o, ctx := lines[n].value.body, Setting(lines, n);
    var call, p := OpenCallOf(lines[..n], o.callId), FindPending(s, o.callId);
    SeenKept(s, lines, n);
    CallsAfterOutput(s.pending, lines, n);
    FoundCall(s, lines, n, o.callId);
    assert p.None? ==>
        s.pending == if o.callId.Some? then s.pending - {o.callId.value} else s.pending;
    OutcomeIs(lines, n, call);
    OutputTold(lines, n);
    var s1 := RemovePending(s, o.callId);
    PendingFollows(s, Deeds(lines[..n]), s1);
    OutputFollows(s1, Deeds(lines[..n]), o, p, n + 1, ctx);
  }

  /** The records that are no deed: they may still be events. */
  lemma OtherRead(s: State, lines: seq<Option<Record>>, n: nat)
    requires Reading(s, lines, n)
    requires var b := lines[n].value.body;
             b.AssistantItem? || b.UsageSnapshot? || b.RejectionEvent? || b.UserMessage? || b.OtherRecord?
    ensures Read(Dispatch(s, lines[n].value.body, n + 1, Setting(lines, n)), lines)
  {
    hide MessageSeen, CallsMatch, Setting, SessionNamed, CwdNamed, Tells;
    SeenKept(s, lines, n);
    CallsKept(s.pending, lines, n);
  }

  lemma DispatchRead(s: State, lines: seq<Option<Record>>, n: nat)
    requires Reading(s, lines, n)
    ensures Read(Dispatch(s, lines[n].value.body, n + 1, Setting(lines, n)), lines)
  {
    hide Reading, Read, Dispatch;
    assert lines != [] && n < |lines| && lines[n].Some? by { InReading(s, lines, n); }
    match lines[n].value.body
    case AssistantMessage(_, _) => MessageRead(s, lines, n);
    case UserPrompt(_) => PromptRead(s, lines, n);
    case Call(_, _, _, _, _, _) => CallRead(s, lines, n);
    case CallOutput(_, _, _, _, _, _) => OutputRead(s, lines, n);
    case TurnAborted(_) => AbortRead(s, lines, n);
    case TaskComplete => CompletionRead(s, lines, n);
    case _ => OtherRead(s, lines, n);
  }

  lemma InReading(s: State, lines: seq<Option<Record>>, n: nat)
    requires Reading(s, lines, n)
    ensures n == |lines| - 1 && lines[n].Some?
  {}

  lemma StepRead(s: State, lines: seq<Option<Record>>, n: nat)
    requires n == |lines| - 1 && Matches(s, lines[..n])
    ensures Read(Step(s, lines[n], n + 1), lines)
  {
    hide Follows, MessageSeen, CallsMatch, Dispatch, Read;
    if lines[n].Some? {
      var s1 := UpdateContext(s, lines[n].value);
      assert lines[..n + 1] == lines;
      NamingFollows(s, Deeds(lines[..n]), s1);
      assert ContextOf(s1, lines[n].value) == Setting(lines, n);
      DispatchRead(s1, lines, n);
    } else {
      NothingRead(s, lines, n);
    }
  }

  lemma NothingRead(s: State, lines: seq<Option<Record>>, n: nat)
    requires n == |lines| - 1 && Matches(s, lines[..n]) && lines[n].None?
    ensures Read((s, []), lines)
  {
    hide Follows, MessageSeen, CallsMatch;
    SeenKept(s, lines, n);
    CallsKept(s.pending, lines, n);
  }

  lemma NamingFollows(s: State, deeds: seq<Deed>, s1: State)
    requires Follows(s, deeds) && s1 == s.(sessionId := s1.sessionId, cwd := s1.cwd)
    ensures Follows(s1, deeds)
  {}

  lemma {:induction false} FeedMatches(lines: seq<Option<Record>>)
    ensures Matches(Feed(INITIAL, lines, 1).0, lines)
    ensures Feed(INITIAL, lines, 1).1 == EventsTold(lines)
    decreases |lines|
  {
    hide Matches, Step, LineTells;
    if lines == [] {
      InitialMatches();
    } else {
      var n := |lines| - 1;
      FeedMatches(lines[..n]);
      StepRead(Feed(INITIAL, lines[..n], 1).0, lines, n);
    }
  }

  lemma InitialMatches()
    ensures Matches(INITIAL, [])
  {}

  // ---------------------------------------------------------------------
  // What a rollout leaves
  // ---------------------------------------------------------------------

  /** The interactions are the nodes of the deeds, and the events those of the lines. */
  lemma InteractionsTellTheStory(lines: seq<Option<Record>>)
    ensures Tells(Deeds(lines), Feed(INITIAL, lines, 1).0.interactions)
    ensures Feed(INITIAL, lines, 1).1 == EventsTold(lines)
  {
    FeedMatches(lines);
  }
}
