/**
  What the story means for a reader of the interactions: how every reply
  ended, in which turn a thing was said, what a link points at, and when a
  prompt counts as a correction.
 */
module CodexEndings {
  import opened Prelude
  import opened Interactions
  import opened Codex
  import opened CodexDeeds
  import opened CodexStory

  /** Deed `q` is the thread's next reply or closing deed after the reply `p`. */
  ghost predicate NextOfThread(deeds: seq<Deed>, p: nat, q: nat) {
    && p < q < |deeds|
    && Ender(deeds[q], deeds[p].ctx.sidechain)
    && forall m :: p < m < q ==> !Ender(deeds[m], deeds[p].ctx.sidechain)
  }

  predicate Ender(d: Deed, sidechain: bool) {
    && d.ctx.sidechain == sidechain
    && (d.what.Reply? || d.what.Complete? || d.what.Stop? || d.what.Abort? || d.what.Request?)
  }

  ghost predicate StillOpen(deeds: seq<Deed>, p: nat)
    requires p < |deeds|
  {
    forall m :: p < m < |deeds| ==> !Ender(deeds[m], deeds[p].ctx.sidechain)
  }

  lemma {:induction false} EndingAtNext(deeds: seq<Deed>, sidechain: bool, from: nat, q: nat)
    requires from <= q < |deeds| && Ender(deeds[q], sidechain)
    requires forall m :: from <= m < q ==> !Ender(deeds[m], sidechain)
    ensures Ending(deeds, sidechain, from) == Closes(deeds[q].what).GetOr(NotFinal)
    decreases q - from
  {
    if from < q {
      EndingAtNext(deeds, sidechain, from + 1, q);
    }
  }

  lemma {:induction false} NoEnding(deeds: seq<Deed>, sidechain: bool, from: nat)
    requires from <= |deeds|
    requires forall m :: from <= m < |deeds| ==> !Ender(deeds[m], sidechain)
    ensures Ending(deeds, sidechain, from) == NotFinal
    decreases |deeds| - from
  {
    if from < |deeds| {
      NoEnding(deeds, sidechain, from + 1);
    }
  }

  /**
    How each reply ended, over every rollout: completed if the thread's next
    reply or closing deed is a task-complete, interrupted if it is an abort or
    an interrupt prompt, unknown if it is a prompt that opens a turn; and not
    final if another reply came first or nothing did yet.
   */
  lemma RepliesEndAsTold(lines: seq<Option<Record>>, p: nat)
    requires p < |Deeds(lines)| && Deeds(lines)[p].what.Reply?
    ensures var deeds, xs := Deeds(lines), Feed(INITIAL, lines, 1).0.interactions;
            var at := Count(deeds[..p]);
            && at < |xs| && xs[at].origin.AssistantText?
            && xs[at].sourceLine == deeds[p].line && xs[at].eventIndex == deeds[p].index
            && xs[at].text == deeds[p].text && xs[at].sidechain == deeds[p].ctx.sidechain
            && (StillOpen(deeds, p) ==> xs[at].terminal == NotFinal)
            && forall q: nat :: NextOfThread(deeds, p, q) ==>
                 xs[at].terminal
                 == match deeds[q].what
                    case Complete => Completed
                    case Stop => Interrupted
                    case Abort => Interrupted
                    case Request => Unknown
                    case _ => NotFinal
  {
    hide Deeds, Feed, Count, Ending, Turns;
    var deeds := Deeds(lines);
    InteractionsTellTheStory(lines);
    if StillOpen(deeds, p) {
      NoEnding(deeds, deeds[p].ctx.sidechain, p + 1);
    }
    forall q: nat | NextOfThread(deeds, p, q)
      ensures Ending(deeds, deeds[p].ctx.sidechain, p + 1) == Closes(deeds[q].what).GetOr(NotFinal)
    {
      EndingAtNext(deeds, deeds[p].ctx.sidechain, p + 1, q);
    }
  }

  // ---------------------------------------------------------------------
  // The end of the rollout
  // ---------------------------------------------------------------------

  lemma OpenIsTrailing(deeds: seq<Deed>, p: nat)
    requires p < |deeds| && deeds[p].what.Reply?
    ensures Trailing(deeds, deeds[p].ctx.sidechain) == Some(p) <==> StillOpen(deeds, p)
  {
    hide Trailing;
    var sidechain := deeds[p].ctx.sidechain;
    TrailingIsOpen(deeds, p);
    forall m | p < m < |deeds| ensures Ender(deeds[m], sidechain) == Settles(deeds[m], sidechain) {}
  }

  /** Two deeds that leave interactions leave them in different places. */
  lemma PlacesDiffer(deeds: seq<Deed>, p: nat, q: nat)
    requires p < |deeds| && q < |deeds| && !deeds[p].what.Complete? && !deeds[q].what.Complete?
    ensures Count(deeds[..p]) == Count(deeds[..q]) <==> p == q
  {
    hide Count;
    if p < q {
      CountGrows(deeds, p, q);
    } else if q < p {
      CountGrows(deeds, q, p);
    }
  }

  ghost predicate InPlace(deeds: seq<Deed>, xs: seq<Interaction>, p: nat)
    requires p < |deeds|
  {
    !deeds[p].what.Complete? ==> Count(deeds[..p]) < |xs| && xs[Count(deeds[..p])] == Node(deeds, p)
  }

  ghost function LeftUnknown(x: Interaction): Interaction {
    x.(terminal := Unknown)
  }

  /** Closing one thread's reply as unknown, when it stands where it should. */
  lemma ClosedPlace(s: State, deeds: seq<Deed>, sidechain: bool, p: nat)
    requires s.lastAssistant.Get(sidechain) == TrailingOrdinal(deeds, sidechain)
    requires p < |deeds| && !deeds[p].what.Complete? && Count(deeds[..p]) < |s.interactions|
    requires var last := Trailing(deeds, sidechain);
             last.Some? ==>
               && Count(deeds[..last.value]) < |s.interactions|
               && s.interactions[Count(deeds[..last.value])].terminal.NotFinal?
    ensures var s' := CloseTrailing(s, sidechain, Unknown);
            && |s'.interactions| == |s.interactions|
            && s'.lastAssistant.Get(!sidechain) == s.lastAssistant.Get(!sidechain)
            && s'.interactions[Count(deeds[..p])]
               == if Trailing(deeds, sidechain) == Some(p) then LeftUnknown(s.interactions[Count(deeds[..p])])
                  else s.interactions[Count(deeds[..p])]
  {
    hide Count, Trailing;
    var last := Trailing(deeds, sidechain);
    if last.Some? {
      PlacesDiffer(deeds, last.value, p);
    }
  }

  lemma TrailingNotFinal(deeds: seq<Deed>, xs: seq<Interaction>, sidechain: bool)
    requires Tells(deeds, xs)
    ensures var last := Trailing(deeds, sidechain);
            last.Some? ==>
              Count(deeds[..last.value]) < |xs| && xs[Count(deeds[..last.value])].terminal.NotFinal?
  {
    hide Count, Trailing, Node;
    var last := Trailing(deeds, sidechain);
    if last.Some? {
      ToldInPlace(deeds, xs, last.value);
      NotFinalYet(deeds, last.value);
    }
  }

  lemma DrainedPlace(s: State, deeds: seq<Deed>, p: nat)
    requires Follows(s, deeds) && p < |deeds| && !deeds[p].what.Complete?
    ensures var at, t := Count(deeds[..p]), deeds[p].ctx.sidechain;
            && at < |Drained(s).interactions|
            && Drained(s).interactions[at]
               == if Trailing(deeds, t) == Some(p) then LeftUnknown(Node(deeds, p)) else Node(deeds, p)
  {
    hide Count, Trailing, Turns, Asking, Node, CloseTrailing, Tells;
    var s1 := s.(pending := map[], pendingOrder := []);
    var s2 := CloseTrailing(s1, false, Unknown);
    ToldInPlace(deeds, s.interactions, p);
    TrailingNotFinal(deeds, s.interactions, false);
    TrailingNotFinal(deeds, s.interactions, true);
    ClosedPlace(s1, deeds, false, p);
    var side := Trailing(deeds, true);
    if side.Some? {
      ClosedPlace(s1, deeds, false, side.value);
    }
    ClosedPlace(s2, deeds, true, p);
  }

  lemma NotFinalYet(deeds: seq<Deed>, p: nat)
    requires p < |deeds| && deeds[p].what.Reply? && Trailing(deeds, deeds[p].ctx.sidechain) == Some(p)
    ensures Node(deeds, p).terminal.NotFinal? && Node(deeds, p).origin.AssistantText?
  {
    hide Trailing, Count, Turns;
    OpenIsTrailing(deeds, p);
    NoEnding(deeds, deeds[p].ctx.sidechain, p + 1);
  }

  /** Finishing leaves the replies still open unknown, and everything else as it was told. */
  lemma FinishingTells(lines: seq<Option<Record>>, p: nat)
    requires p < |Deeds(lines)| && !Deeds(lines)[p].what.Complete?
    ensures var deeds, xs := Deeds(lines), Drained(Feed(INITIAL, lines, 1).0).interactions;
            && Count(deeds[..p]) < |xs|
            && xs[Count(deeds[..p])]
               == if deeds[p].what.Reply? && StillOpen(deeds, p) then LeftUnknown(Node(deeds, p))
                  else Node(deeds, p)
  {
    hide Deeds, Feed, Count, Trailing, Node, Drained, Follows;
    FeedMatches(lines);
    var deeds := Deeds(lines);
    DrainedPlace(Feed(INITIAL, lines, 1).0, deeds, p);
    if deeds[p].what.Reply? {
      OpenIsTrailing(deeds, p);
    }
  }

  // ---------------------------------------------------------------------
  // Links
  // ---------------------------------------------------------------------

  lemma {:induction false} PromptDeedsExtend(before: seq<Deed>, blocks: seq<Block>, n: nat, awaited: bool, line: nat,
                                             ctx: Context)
    requires n <= |blocks|
    ensures before <= PromptDeeds(before, blocks, n, awaited, line, ctx)
  {
    if n > 0 {
      PromptDeedsExtend(before, blocks, n - 1, awaited, line, ctx);
    }
  }

  lemma {:induction false} DeedsExtend(lines: seq<Option<Record>>, k: nat)
    requires k <= |lines|
    ensures Deeds(lines[..k]) <= Deeds(lines)
    decreases |lines|
  {
    hide PromptDeeds, Setting, Awaiting, Outcome, OpenCallOf, Replies;
    if k == |lines| {
      assert lines[..k] == lines;
    } else {
      var n := |lines| - 1;
      DeedsExtend(lines[..n], k);
      assert lines[..n][..k] == lines[..k];
      if lines[n].Some? && lines[n].value.body.UserPrompt? {
        var blocks := lines[n].value.body.blocks;
        PromptDeedsExtend(Deeds(lines[..n]), blocks, |blocks|, Awaiting(lines[..n]), n + 1, Setting(lines, n));
      }
    }
  }

  lemma CallIsNext(lines: seq<Option<Record>>, c: nat)
    requires c < |lines| && IsCall(lines[c])
    ensures var body, p := lines[c].value.body, |Deeds(lines[..c])|;
            && |Deeds(lines[..c + 1])| == p + 1
            && Deeds(lines[..c + 1])[p].what == (if body.question then Ask else Invoke(body.name))
            && Deeds(lines[..c + 1])[p].line == c + 1 && Deeds(lines[..c + 1])[p].text == body.prompt
  {
    hide Setting;
    assert lines[..c + 1][..c] == lines[..c];
  }

  /** A call is the deed that follows those of the lines before it. */
  lemma CallAmongDeeds(lines: seq<Option<Record>>, c: nat)
    requires c < |lines| && IsCall(lines[c])
    ensures var body, deeds, p := lines[c].value.body, Deeds(lines), |Deeds(lines[..c])|;
            && p < |deeds| && deeds[..p] == Deeds(lines[..c])
            && deeds[p].what == (if body.question then Ask else Invoke(body.name))
            && deeds[p].line == c + 1 && deeds[p].text == body.prompt
  {
    hide Deeds;
    CallIsNext(lines, c);
    DeedsExtend(lines, c);
    DeedsExtend(lines, c + 1);
    var p := |Deeds(lines[..c])|;
    assert Deeds(lines)[p] == Deeds(lines[..c + 1])[p];
  }

  /** The place a link names is where the call it comes from stands. */
  lemma LinkedCallStandsThere(lines: seq<Option<Record>>, c: nat)
    requires c < |lines| && IsCall(lines[c])
    ensures var xs, at := Feed(INITIAL, lines, 1).0.interactions, Count(Deeds(lines[..c]));
            && at < |xs| && xs[at].sourceLine == c + 1 && xs[at].text == lines[c].value.body.prompt
            && xs[at].origin == (if lines[c].value.body.question then Question else ToolCall)
  {
    hide Feed, Count, Tells, Deeds, Turns;
    InteractionsTellTheStory(lines);
    CallAmongDeeds(lines, c);
    ToldInPlace(Deeds(lines), Feed(INITIAL, lines, 1).0.interactions, |Deeds(lines[..c])|);
  }

  lemma ToldInPlace(deeds: seq<Deed>, xs: seq<Interaction>, p: nat)
    requires Tells(deeds, xs) && p < |deeds| && !deeds[p].what.Complete?
    ensures InPlace(deeds, xs, p)
  {}

  // ---------------------------------------------------------------------
  // Corrections
  // ---------------------------------------------------------------------

  function InterruptCount(blocks: seq<Block>, n: nat): nat
    requires n <= |blocks|
  {
    if n == 0 then 0
    else InterruptCount(blocks, n - 1) + (if !blocks[n - 1].blank && blocks[n - 1].interrupt then 1 else 0)
  }

  lemma {:induction false} InterruptsTold(blocks: seq<Block>, n: nat, awaited: bool, line: nat, ctx: Context)
    requires n <= |blocks| && !Corrected(blocks, awaited, n)
    ensures var events := PromptTells(blocks, n, awaited, line, ctx);
            && |events| == InterruptCount(blocks, n)
            && forall i :: 0 <= i < |events| ==>
                 events[i] == Occurs(Interrupt, line, i, ctx, "[Request interrupted by user]")
  {
    if n > 0 {
      InterruptsTold(blocks, n - 1, awaited, line, ctx);
    }
  }

  /**
    A prompt tells one interruption for each interrupting block up to the
    correction, then the correction: the first block with text that follows an
    interruption. Without one it tells its interruptions alone.
   */
  lemma PromptsTellTheirCorrection(blocks: seq<Block>, awaited: bool, line: nat, ctx: Context)
    ensures var events := PromptTells(blocks, |blocks|, awaited, line, ctx);
            && (forall c :: 0 <= c < |blocks| && Corrects(blocks, awaited, c) && !Corrected(blocks, awaited, c) ==>
                  && |events| == InterruptCount(blocks, c) + 1
                  && events[|events| - 1]
                     == Occurs(UserTurnAfterCorrection, line, |events| - 1, ctx, blocks[c].text)
                  && forall i :: 0 <= i < |events| - 1 ==>
                       events[i] == Occurs(Interrupt, line, i, ctx, "[Request interrupted by user]"))
            && (!Corrected(blocks, awaited, |blocks|) ==>
                  && |events| == InterruptCount(blocks, |blocks|)
                  && forall i :: 0 <= i < |events| ==>
                       events[i] == Occurs(Interrupt, line, i, ctx, "[Request interrupted by user]"))
  {
    hide Corrected, Corrects;
    if !Corrected(blocks, awaited, |blocks|) {
      InterruptsTold(blocks, |blocks|, awaited, line, ctx);
    }
    forall c | 0 <= c < |blocks| && Corrects(blocks, awaited, c) && !Corrected(blocks, awaited, c)
      ensures var events := PromptTells(blocks, |blocks|, awaited, line, ctx);
              && |events| == InterruptCount(blocks, c) + 1
              && events[|events| - 1] == Occurs(UserTurnAfterCorrection, line, |events| - 1, ctx, blocks[c].text)
              && forall i :: 0 <= i < |events| - 1 ==>
                   events[i] == Occurs(Interrupt, line, i, ctx, "[Request interrupted by user]")
    {
      CorrectionTold(blocks, c, awaited, line, ctx);
    }
  }

  lemma CorrectionTold(blocks: seq<Block>, c: nat, awaited: bool, line: nat, ctx: Context)
    requires c < |blocks| && Corrects(blocks, awaited, c) && !Corrected(blocks, awaited, c)
    ensures var events := PromptTells(blocks, |blocks|, awaited, line, ctx);
            && |events| == InterruptCount(blocks, c) + 1
            && events[|events| - 1] == Occurs(UserTurnAfterCorrection, line, |events| - 1, ctx, blocks[c].text)
            && forall i :: 0 <= i < |events| - 1 ==>
                 events[i] == Occurs(Interrupt, line, i, ctx, "[Request interrupted by user]")
  {
    hide Corrected;
    InterruptsTold(blocks, c, awaited, line, ctx);
    CorrectedGrows(blocks, awaited, c);
    AfterCorrection([], blocks, c + 1, |blocks|, awaited, line, ctx);
  }
}
