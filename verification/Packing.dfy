/**
  Packing clusters and their excerpts into a prompt under two byte budgets,
  one a cluster and one for all (twill_explainer.py): base blocks first, then
  one excerpt a cluster a round until a round accepts nothing.
 */
module Packing {
  import opened Prelude
  import opened Sequences

  type Excerpt = string

  datatype Item = Item(name: string, evidence: seq<Excerpt>)

  /** How a cluster and a prompt are spelled, how long text is in bytes, and the two budgets. */
  datatype Frame = Frame(
    render: (Item, seq<Excerpt>) -> string,
    assemble: seq<string> -> string,
    size: string -> nat,
    maxCluster: nat,
    maxTotal: nat)
  {
    predicate Fits(blocks: seq<string>) {
      size(assemble(blocks)) <= maxTotal
    }

    predicate FitsCluster(block: string) {
      size(block) <= maxCluster
    }
  }

  // ---------------------------------------------------------------------
  // What the packing does, step by step
  // ---------------------------------------------------------------------

  /** The clusters taken so far: their blocks, chosen excerpts, and how much evidence was looked at. */
  datatype Pack = Pack(items: seq<Item>, blocks: seq<string>, chosen: seq<seq<Excerpt>>, positions: seq<nat>)
  {
    predicate Shaped() {
      |blocks| == |items| && |chosen| == |items| && |positions| == |items|
    }
  }

  const EMPTY := Pack([], [], [], [])

  /** A cluster with no excerpts joins if its block fits by itself and in the prompt. */
  function TakeItem(f: Frame, p: Pack, item: Item): (p': Pack)
    requires p.Shaped()
    ensures p'.Shaped()
  {
    var block := f.render(item, []);
    if f.FitsCluster(block) && f.Fits(p.blocks + [block]) then
      Pack(p.items + [item], p.blocks + [block], p.chosen + [[]], p.positions + [0])
    else p
  }

  function TakeItems(f: Frame, items: seq<Item>): (p: Pack)
    ensures p.Shaped()
  {
    if items == [] then EMPTY
    else TakeItem(f, TakeItems(f, items[..|items| - 1]), items[|items| - 1])
  }

  /** Cluster `i` tries its next excerpt, and moves past it whether or not it is accepted. */
  function TryNext(f: Frame, p: Pack, i: nat): (r: (Pack, bool))
    requires p.Shaped() && i < |p.items|
    ensures r.0.Shaped() && r.0.items == p.items
  {
    var position := p.positions[i];
    if position >= |p.items[i].evidence| then (p, false)
    else
      var moved := p.(positions := p.positions[i := position + 1]);
      var candidate := p.chosen[i] + [p.items[i].evidence[position]];
      var block := f.render(p.items[i], candidate);
      if f.FitsCluster(block) && f.Fits(p.blocks[i := block]) then
        (moved.(chosen := p.chosen[i := candidate], blocks := p.blocks[i := block]), true)
      else (moved, false)
  }

  /** The first `n` clusters of a round; whether any excerpt was accepted. */
  function Round(f: Frame, p: Pack, n: nat): (r: (Pack, bool))
    requires p.Shaped() && n <= |p.items|
    ensures r.0.Shaped() && r.0.items == p.items
  {
    if n == 0 then (p, false)
    else
      var before := Round(f, p, n - 1);
      var step := TryNext(f, before.0, n - 1);
      (step.0, before.1 || step.1)
  }

  function AfterRounds(f: Frame, p: Pack, n: nat): (p': Pack)
    requires p.Shaped()
    ensures p'.Shaped() && p'.items == p.items
  {
    if n == 0 then p
    else
      var before := AfterRounds(f, p, n - 1);
      Round(f, before, |before.items|).0
  }

  // ---------------------------------------------------------------------
  // What every step keeps
  // ---------------------------------------------------------------------

  /** `a` is what is left of `b` when some elements are dropped. */
  predicate Kept<T(==)>(a: seq<T>, b: seq<T>) {
    if a == [] then true
    else if b == [] then false
    else
      || (a[|a| - 1] == b[|b| - 1] && Kept(a[..|a| - 1], b[..|b| - 1]))
      || Kept(a, b[..|b| - 1])
  }

  lemma KeptLonger<T>(a: seq<T>, b: seq<T>, x: T)
    requires Kept(a, b)
    ensures Kept(a, b + [x]) && Kept(a + [x], b + [x])
  {
    assert (b + [x])[..|b|] == b && (a + [x])[..|a|] == a;
  }

  ghost predicate ClusterOk(f: Frame, p: Pack, i: nat)
    requires p.Shaped() && i < |p.items|
  {
    && p.positions[i] <= |p.items[i].evidence|
    && Kept(p.chosen[i], p.items[i].evidence[..p.positions[i]])
    && p.blocks[i] == f.render(p.items[i], p.chosen[i])
    && f.FitsCluster(p.blocks[i])
  }

  /** Every block fits and shows excerpts its cluster has, in their order; and the prompt fits. */
  ghost predicate PackOk(f: Frame, p: Pack) {
    && p.Shaped() && f.Fits(p.blocks)
    && forall i :: 0 <= i < |p.items| ==> ClusterOk(f, p, i)
  }

  lemma TakeItemKeeps(f: Frame, p: Pack, item: Item)
    requires PackOk(f, p)
    ensures PackOk(f, TakeItem(f, p, item))
  {
    var p' := TakeItem(f, p, item);
    forall i | 0 <= i < |p'.items| ensures ClusterOk(f, p', i) {
      if i < |p.items| {
        assert ClusterOk(f, p, i);
        assert p'.items[i] == p.items[i] && p'.blocks[i] == p.blocks[i];
        assert p'.chosen[i] == p.chosen[i] && p'.positions[i] == p.positions[i];
      }
    }
  }

  /** The clusters taken are some of those offered, in order. */
  lemma {:induction false} TakeItemsKeepsOrder(f: Frame, items: seq<Item>)
    ensures Kept(TakeItems(f, items).items, items)
  {
    hide Frame.Fits, Frame.FitsCluster;
    if items != [] {
      var rest, last := items[..|items| - 1], items[|items| - 1];
      TakeItemsKeepsOrder(f, rest);
      KeptLonger(TakeItems(f, rest).items, rest, last);
      assert rest + [last] == items;
    }
  }

  /** None of them has looked at its evidence yet. */
  lemma {:induction false} TakeItemsKeeps(f: Frame, items: seq<Item>)
    requires f.Fits([])
    ensures PackOk(f, TakeItems(f, items)) && forall n :: n in TakeItems(f, items).positions ==> n == 0
  {
    if items != [] {
      TakeItemsKeeps(f, items[..|items| - 1]);
      TakeItemKeeps(f, TakeItems(f, items[..|items| - 1]), items[|items| - 1]);
    }
  }

  lemma TryNextKeeps(f: Frame, p: Pack, i: nat)
    requires PackOk(f, p) && i < |p.items|
    ensures PackOk(f, TryNext(f, p, i).0)
  {
    hide Kept;
    var p' := TryNext(f, p, i).0;
    assert ClusterOk(f, p, i);
    TriedIsOk(f, p, i);
    forall j | 0 <= j < |p'.items| ensures ClusterOk(f, p', j) {
      assert ClusterOk(f, p, j);
    }
  }

  lemma TriedIsOk(f: Frame, p: Pack, i: nat)
    requires p.Shaped() && i < |p.items| && ClusterOk(f, p, i)
    ensures ClusterOk(f, TryNext(f, p, i).0, i)
  {
    hide Kept;
    var evidence, n := p.items[i].evidence, p.positions[i];
    if n < |evidence| {
      KeptLonger(p.chosen[i], evidence[..n], evidence[n]);
      OneFurther(evidence, n);
    }
  }

  /** A round keeps the pack, and moves each of its clusters one excerpt on. */
  lemma {:induction false} RoundKeeps(f: Frame, p: Pack, n: nat)
    requires PackOk(f, p) && n <= |p.items|
    ensures PackOk(f, Round(f, p, n).0)
    ensures forall i :: 0 <= i < |p.items| ==>
              Round(f, p, n).0.positions[i]
              == if i < n then Min(p.positions[i] + 1, |p.items[i].evidence|) else p.positions[i]
    decreases n
  {
    if n > 0 {
      RoundKeeps(f, p, n - 1);
      var before := Round(f, p, n - 1).0;
      TryNextKeeps(f, before, n - 1);
      assert ClusterOk(f, p, n - 1);
    }
  }

  /** After r rounds each cluster has looked at its first r excerpts, or all of them. */
  lemma {:induction false} PositionsAfterRounds(f: Frame, items: seq<Item>, r: nat)
    requires f.Fits([])
    ensures var p := AfterRounds(f, TakeItems(f, items), r);
            && PackOk(f, p)
            && forall i :: 0 <= i < |p.items| ==> p.positions[i] == Min(r, |p.items[i].evidence|)
    decreases r
  {
    var start := TakeItems(f, items);
    TakeItemsKeeps(f, items);
    assert forall i :: 0 <= i < |start.items| ==> start.positions[i] in start.positions;
    if r > 0 {
      PositionsAfterRounds(f, items, r - 1);
      var before := AfterRounds(f, start, r - 1);
      RoundKeeps(f, before, |before.items|);
    }
  }

  // ---------------------------------------------------------------------
  // What is taken and what is passed over
  // ---------------------------------------------------------------------

  /** The block stays within a cluster's budget, and the prompt of these blocks within the whole one. */
  predicate Within(f: Frame, block: string, blocks: seq<string>) {
    f.size(block) <= f.maxCluster && f.size(f.assemble(blocks)) <= f.maxTotal
  }

  /** Offered in order, each cluster joins with no excerpts exactly when that fits beside those before it. */
  lemma ItemsAreTakenWhenTheyFit(f: Frame, items: seq<Item>, k: nat)
    requires k < |items|
    ensures var p, p' := TakeItems(f, items[..k]), TakeItems(f, items[..k + 1]);
            var block := f.render(items[k], []);
            if Within(f, block, p.blocks + [block]) then
              && p'.items == p.items + [items[k]] && p'.blocks == p.blocks + [block]
              && p'.chosen == p.chosen + [[]] && p'.positions == p.positions + [0]
            else
              p' == p
  {
    assert items[..k + 1][..k] == items[..k];
  }

  /** Cluster `i` looked at its next excerpt, if it had one, and shows it exactly when that fits. */
  ghost predicate Judged(f: Frame, p: Pack, p': Pack, i: nat)
    requires p.Shaped() && p'.Shaped() && p'.items == p.items
    requires i < |p.items| && p.positions[i] <= |p.items[i].evidence|
  {
    && (forall j :: 0 <= j < |p.items| && j != i ==>
          p'.chosen[j] == p.chosen[j] && p'.blocks[j] == p.blocks[j] && p'.positions[j] == p.positions[j])
    && if p.positions[i] == |p.items[i].evidence| then
         p'.chosen[i] == p.chosen[i] && p'.blocks[i] == p.blocks[i] && p'.positions[i] == p.positions[i]
       else
         var candidate := p.chosen[i] + [p.items[i].evidence[p.positions[i]]];
         var block := f.render(p.items[i], candidate);
         && p'.positions[i] == p.positions[i] + 1
         && if Within(f, block, p.blocks[i := block]) then p'.chosen[i] == candidate && p'.blocks[i] == block
            else p'.chosen[i] == p.chosen[i] && p'.blocks[i] == p.blocks[i]
  }

  /** The cluster shows more than it did. */
  predicate Extended(p: Pack, p': Pack, i: nat)
    requires p.Shaped() && p'.Shaped() && p'.items == p.items && i < |p.items|
  {
    |p'.chosen[i]| > |p.chosen[i]|
  }

  /** Round `r` of the packing, up to cluster `i`: the clusters before it have had their turn. */
  ghost function Midway(f: Frame, items: seq<Item>, r: nat, i: nat): (p: Pack)
    requires i <= |TakeItems(f, items).items|
    ensures p.Shaped() && p.items == TakeItems(f, items).items
  {
    Round(f, AfterRounds(f, TakeItems(f, items), r), i).0
  }

  lemma MidwayIsOk(f: Frame, items: seq<Item>, r: nat, i: nat)
    requires f.Fits([]) && i <= |TakeItems(f, items).items|
    ensures PackOk(f, Midway(f, items, r, i))
    ensures forall j :: 0 <= j < |Midway(f, items, r, i).items| ==>
              Midway(f, items, r, i).positions[j] <= |Midway(f, items, r, i).items[j].evidence|
  {
    PositionsAfterRounds(f, items, r);
    var p := Midway(f, items, r, i);
    RoundKeeps(f, AfterRounds(f, TakeItems(f, items), r), i);
    forall j | 0 <= j < |p.items| ensures p.positions[j] <= |p.items[j].evidence| {
      assert ClusterOk(f, p, j);
    }
  }

  /**
    In every round every cluster has its turn in order, and the excerpt it
    looks at is shown from then on exactly when its block and the prompt then
    fit their budgets.
   */
  lemma ExcerptsAreShownWhenTheyFit(f: Frame, items: seq<Item>, r: nat, i: nat)
    requires f.Fits([]) && i < |TakeItems(f, items).items|
    ensures var p, p' := Midway(f, items, r, i), Midway(f, items, r, i + 1);
            p.positions[i] <= |p.items[i].evidence| && Judged(f, p, p', i)
    ensures Midway(f, items, r, 0) == AfterRounds(f, TakeItems(f, items), r)
    ensures Midway(f, items, r, |TakeItems(f, items).items|) == AfterRounds(f, TakeItems(f, items), r + 1)
  {
    hide Kept;
    MidwayIsOk(f, items, r, i);
  }

  /** One turn withdraws nothing, leaves the other clusters, and is progress exactly when it extends its own. */
  lemma TurnOnlyExtends(f: Frame, p: Pack, i: nat)
    requires p.Shaped() && i < |p.items|
    ensures var q := TryNext(f, p, i);
            && (forall j :: 0 <= j < |p.items| && j != i ==> q.0.chosen[j] == p.chosen[j])
            && |q.0.chosen[i]| == |p.chosen[i]| + (if q.1 then 1 else 0)
  {}

  /** A round withdraws nothing, and is progress exactly when it extends some cluster. */
  lemma {:induction false} RoundOnlyExtends(f: Frame, p: Pack, n: nat)
    requires n <= |p.items| && p.Shaped()
    ensures forall i :: 0 <= i < |p.items| ==> |Round(f, p, n).0.chosen[i]| >= |p.chosen[i]|
    ensures forall i :: n <= i < |p.items| ==> Round(f, p, n).0.chosen[i] == p.chosen[i]
    ensures Round(f, p, n).1 <==> exists i :: 0 <= i < n && Extended(p, Round(f, p, n).0, i)
    decreases n
  {
    if n > 0 {
      hide TryNext;
      RoundOnlyExtends(f, p, n - 1);
      var before, after := Round(f, p, n - 1), Round(f, p, n);
      TurnOnlyExtends(f, before.0, n - 1);
      assert forall i :: 0 <= i < n - 1 ==> Extended(p, after.0, i) == Extended(p, before.0, i);
      assert after.1 && !before.1 ==> Extended(p, after.0, n - 1);
    }
  }

  // ---------------------------------------------------------------------
  // When the rounds stop
  // ---------------------------------------------------------------------

  function Left(p: Pack, n: nat): int
    requires p.Shaped() && n <= |p.items|
  {
    if n == 0 then 0 else Left(p, n - 1) + |p.items[n - 1].evidence| - p.positions[n - 1]
  }

  lemma {:induction false} LeftMoves(p: Pack, q: Pack, n: nat)
    requires p.Shaped() && q.Shaped() && p.items == q.items && n <= |p.items|
    requires forall i :: 0 <= i < n ==> p.positions[i] <= q.positions[i] <= |p.items[i].evidence|
    ensures 0 <= Left(q, n) <= Left(p, n)
    ensures (exists i :: 0 <= i < n && p.positions[i] < q.positions[i]) ==> Left(q, n) < Left(p, n)
    decreases n
  {
    if n > 0 {
      LeftMoves(p, q, n - 1);
    }
  }

  /** A round that accepted something moved some cluster on. */
  lemma {:induction false} ProgressMoves(f: Frame, p: Pack, n: nat)
    requires PackOk(f, p) && n <= |p.items| && Round(f, p, n).1
    ensures exists i :: 0 <= i < n && p.positions[i] < |p.items[i].evidence|
    decreases n
  {
    var before := Round(f, p, n - 1);
    RoundKeeps(f, p, n - 1);
    if before.1 {
      ProgressMoves(f, p, n - 1);
      var i :| 0 <= i < n - 1 && p.positions[i] < |p.items[i].evidence|;
      assert 0 <= i < n;
    } else {
      assert before.0.positions[n - 1] == p.positions[n - 1];
    }
  }

  lemma RoundShrinks(f: Frame, p: Pack)
    requires PackOk(f, p) && Round(f, p, |p.items|).1
    ensures var q := Round(f, p, |p.items|).0; 0 <= Left(q, |q.items|) < Left(p, |p.items|)
  {
    var q := Round(f, p, |p.items|).0;
    RoundKeeps(f, p, |p.items|);
    ProgressMoves(f, p, |p.items|);
    var i :| 0 <= i < |p.items| && p.positions[i] < |p.items[i].evidence|;
    assert q.positions[i] == p.positions[i] + 1;
    forall j | 0 <= j < |p.items| ensures p.positions[j] <= q.positions[j] <= |p.items[j].evidence| {
      assert ClusterOk(f, p, j);
    }
    LeftMoves(p, q, |p.items|);
  }

  // ---------------------------------------------------------------------
  // The packing itself
  // ---------------------------------------------------------------------

  method TakeBase(f: Frame, items: seq<Item>) returns (p: Pack)
    ensures p == TakeItems(f, items)
  {
    var blocks: seq<string>, chosen: seq<Item> := [], [];
    var selected: seq<seq<Excerpt>>, positions: seq<nat> := [], [];
    for i := 0 to |items|
      invariant Pack(chosen, blocks, selected, positions) == TakeItems(f, items[..i])
    {
      assert items[..i + 1][..i] == items[..i];
      var block := f.render(items[i], []);
      if !f.FitsCluster(block) {
        continue;
      }
      if !f.Fits(blocks + [block]) {
        continue;
      }
      blocks := blocks + [block];
      chosen := chosen + [items[i]];
      selected := selected + [[]];
      positions := positions + [0];
    }
    assert items[..|items|] == items;
    p := Pack(chosen, blocks, selected, positions);
  }

  method RunRound(f: Frame, p: Pack) returns (q: Pack, progress: bool)
    requires p.Shaped()
    ensures (q, progress) == Round(f, p, |p.items|)
  {
    var blocks, selected := p.blocks, p.chosen;
    var positions: seq<nat> := p.positions;
    progress := false;
    for index := 0 to |p.items|
      invariant (Pack(p.items, blocks, selected, positions), progress) == Round(f, p, index)
    {
      var item := p.items[index];
      var position := positions[index];
      if position >= |item.evidence| {
        continue;
      }
      positions := positions[index := position + 1];
      var candidate := selected[index] + [item.evidence[position]];
      var block := f.render(item, candidate);
      if !f.FitsCluster(block) {
        continue;
      }
      if !f.Fits(blocks[index := block]) {
        continue;
      }
      selected := selected[index := candidate];
      blocks := blocks[index := block];
      progress := true;
    }
    q := Pack(p.items, blocks, selected, positions);
  }

  /** The rounds end, and with a round that accepted nothing. */
  method RunRounds(f: Frame, start: Pack) returns (p: Pack, ghost rounds: nat)
    requires PackOk(f, start)
    ensures PackOk(f, p) && p == AfterRounds(f, start, rounds)
    ensures rounds > 0 && !Round(f, AfterRounds(f, start, rounds - 1), |start.items|).1
  {
    p, rounds := start, 0;
    var progress := true;
    while progress
      invariant PackOk(f, p) && p == AfterRounds(f, start, rounds)
      invariant !progress ==> rounds > 0 && !Round(f, AfterRounds(f, start, rounds - 1), |start.items|).1
      decreases if progress then 1 + Left(p, |p.items|) else 0
    {
      ghost var before := p;
      RoundKeeps(f, p, |p.items|);
      p, progress := RunRound(f, p);
      rounds := rounds + 1;
      if progress {
        RoundShrinks(f, before);
      } else {
        LeftIsNatural(f, before);
      }
    }
  }

  lemma LeftIsNatural(f: Frame, p: Pack)
    requires PackOk(f, p)
    ensures Left(p, |p.items|) >= 0
  {
    forall i | 0 <= i < |p.items| ensures p.positions[i] <= |p.items[i].evidence| {
      assert ClusterOk(f, p, i);
    }
    LeftMoves(p, p, |p.items|);
  }

  /** A prompt of some of the items, each showing some of its evidence, all in order and within both budgets. */
  ghost predicate IsPrompt(f: Frame, items: seq<Item>, shown: Pack, prompt: string) {
    && PackOk(f, shown) && Kept(shown.items, items)
    && prompt == f.assemble(shown.blocks)
    && f.size(prompt) <= f.maxTotal
  }

  /** `_build`; None is the error that the framing alone is over the budget. */
  method Build(f: Frame, items: seq<Item>) returns (r: Option<string>, ghost shown: Pack, ghost rounds: nat)
    ensures r.None? <==> !f.Fits([])
    ensures r.Some? ==> IsPrompt(f, items, shown, r.value) && shown == AfterRounds(f, TakeItems(f, items), rounds)
    ensures r.Some? && shown.items != [] ==>
              rounds > 0 && !Round(f, AfterRounds(f, TakeItems(f, items), rounds - 1), |shown.items|).1
  {
    hide ClusterOk, Round, AfterRounds, TakeItems, Kept;
    shown, rounds := EMPTY, 0;
    if f.size(f.assemble([])) > f.maxTotal {
      return None, shown, rounds;
    }
    TakeItemsKeeps(f, items);
    TakeItemsKeepsOrder(f, items);
    NothingYet(f, TakeItems(f, items));
    if items == [] {
      return Some(f.assemble([])), shown, rounds;
    }
    var base := TakeBase(f, items);
    if base.blocks == [] {
      shown := base;
      return Some(f.assemble([])), shown, rounds;
    }
    var p;
    p, rounds := RunRounds(f, base);
    shown := p;
    AfterRoundsKeepsItems(f, base, rounds);
    var blocks := RenderAll(f, p);
    r := Some(f.assemble(blocks));
  }

  lemma NothingYet(f: Frame, p: Pack)
    requires p.Shaped()
    ensures TakeItems(f, []) == EMPTY && AfterRounds(f, p, 0) == p
  {}

  lemma AfterRoundsKeepsItems(f: Frame, p: Pack, n: nat)
    requires p.Shaped()
    ensures AfterRounds(f, p, n).items == p.items
  {}

  /** The blocks rendered again are the blocks kept all along. */
  method RenderAll(f: Frame, p: Pack) returns (blocks: seq<string>)
    requires PackOk(f, p)
    ensures blocks == p.blocks
  {
    blocks := [];
    for index := 0 to |p.items|
      invariant blocks == p.blocks[..index]
    {
      assert ClusterOk(f, p, index);
      blocks := blocks + [f.render(p.items[index], p.chosen[index])];
    }
  }
}
