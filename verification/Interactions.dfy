/**
  The interaction contract: one linked record per conversation element, whose
  terminal state only ever moves up (twill_interactions.py).
 */
module Interactions {
  import opened Prelude

  datatype Origin =
    HumanRequest | HumanAnswer | AssistantText | ToolCall | ToolResult | Question | Harness | QuotedHistory

  datatype Actor = User | Assistant | Tool | System

  /** `NotFinal` is the contract's "none": not a turn-final candidate at all. */
  datatype Terminal = NotFinal | Completed | Interrupted | Unknown

  datatype Interaction = Interaction(
    origin: Origin,
    actor: Actor,
    sourceLine: nat,
    eventIndex: nat,
    ordinal: nat,
    timestamp: Option<string>,
    sessionId: Option<string>,
    threadId: Option<string>,
    cwd: Option<string>,
    sidechain: bool,
    channel: Option<string>,
    turnId: Option<nat>,
    messageId: Option<string>,
    callOrdinal: Option<nat>,
    questionOrdinal: Option<nat>,
    terminal: Terminal,
    historyConfirmed: bool,
    text: string)

  predicate Settled(t: Terminal) {
    t.Completed? || t.Interrupted?
  }

  function Reterminalize(interactions: seq<Interaction>, index: int, terminal: Terminal): (r: seq<Interaction>)
    ensures |r| == |interactions|
  {
    if !(0 <= index < |interactions|) then interactions
    else if Settled(interactions[index].terminal) then interactions
    else if terminal.NotFinal? then interactions
    else interactions[index := interactions[index].(terminal := terminal)]
  }

  /** Everything but the two terminality fields agrees. */
  ghost predicate SameRecord(a: Interaction, b: Interaction) {
    b.(terminal := a.terminal, historyConfirmed := a.historyConfirmed) == a
  }

  ghost predicate MovesUp(a: Terminal, b: Terminal) {
    || a == b
    || (a.NotFinal? && !b.NotFinal?)
    || (a.Unknown? && Settled(b))
  }

  // ---------------------------------------------------------------------
  // The optional history adapter
  // ---------------------------------------------------------------------

  predicate Confirmable(x: Interaction, completed: set<(string, string)>) {
    && x.terminal.Unknown?
    && x.messageId.Some? && x.messageId.value != ""
    && (x.sessionId.GetOr(""), x.messageId.value) in completed
  }

  function CountConfirmed(interactions: seq<Interaction>, completed: set<(string, string)>): nat {
    if interactions == [] then 0
    else
      CountConfirmed(interactions[..|interactions| - 1], completed)
      + (if Confirmable(interactions[|interactions| - 1], completed) then 1 else 0)
  }

  function CountCompleted(interactions: seq<Interaction>): nat {
    if interactions == [] then 0
    else
      CountCompleted(interactions[..|interactions| - 1])
      + (if interactions[|interactions| - 1].terminal.Completed? then 1 else 0)
  }

  ghost predicate HistoryApplied(before: seq<Interaction>, after: seq<Interaction>, completed: set<(string, string)>) {
    && |after| == |before|
    && forall i :: 0 <= i < |before| ==>
         after[i] == if Confirmable(before[i], completed)
                     then before[i].(terminal := Completed, historyConfirmed := true)
                     else before[i]
  }

  method ApplyCompletedHistory(interactions: seq<Interaction>, completed: set<(string, string)>)
    returns (changed: seq<Interaction>)
    ensures HistoryApplied(interactions, changed, completed)
  {
    if completed == {} {
      return interactions;
    }
    changed := [];
    for i := 0 to |interactions|
      invariant HistoryApplied(interactions[..i], changed, completed)
    {
      var interaction := interactions[i];
      if Confirmable(interaction, completed) {
        interaction := interaction.(terminal := Completed, historyConfirmed := true);
      }
      changed := changed + [interaction];
    }
    assert interactions[..|interactions|] == interactions;
  }

  /** The upgrades made are exactly the ones counted, and a second pass finds none left. */
  lemma {:induction false} HistoryUpgradesWhatItCounts(
      before: seq<Interaction>, after: seq<Interaction>, completed: set<(string, string)>)
    requires HistoryApplied(before, after, completed)
    ensures CountCompleted(after) == CountCompleted(before) + CountConfirmed(before, completed)
    ensures CountConfirmed(after, completed) == 0
    ensures HistoryApplied(after, after, completed)
    decreases |before|
  {
    if before != [] {
      var n := |before| - 1;
      HistoryUpgradesWhatItCounts(before[..n], after[..n], completed);
      assert !Confirmable(after[n], completed);
      assert HistoryApplied(after[..n], after[..n], completed);
    }
  }

  lemma {:induction false} CountCompletedAppend(xs: seq<Interaction>, x: Interaction)
    ensures CountCompleted(xs + [x]) == CountCompleted(xs) + (if x.terminal.Completed? then 1 else 0)
  {
    assert (xs + [x])[..|xs + [x]| - 1] == xs;
  }

  lemma {:induction false} CountCompletedUpdate(xs: seq<Interaction>, i: nat, x: Interaction)
    requires i < |xs|
    ensures CountCompleted(xs[i := x])
            == CountCompleted(xs)
               - (if xs[i].terminal.Completed? then 1 else 0)
               + (if x.terminal.Completed? then 1 else 0)
    decreases |xs|
  {
    var n := |xs| - 1;
    var ys := xs[i := x];
    if i == n {
      assert ys[..n] == xs[..n];
    } else {
      CountCompletedUpdate(xs[..n], i, x);
      assert ys[..n] == xs[..n][i := x];
    }
  }
}
