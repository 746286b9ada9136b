/**
  The lifecycle told from the loaded state and the command alone: which
  command moves a lesson, to which state and routing, which finds it where it
  asks for, and that any other is refused.
 */
module LessonSteps {
  import opened Prelude
  import opened Sequences
  import opened PyText
  import opened Inline
  import opened LessonFile
  import opened LessonRewrite
  import opened LessonReload
  import opened LessonEdits
  import opened LessonRecord
  import opened LessonTransition
  import opened LessonLifecycle
  import opened LessonLaw

  // ---------------------------------------------------------------------
  // The table
  // ---------------------------------------------------------------------

  const APPLIED_STATES := {
    "applied:environment", "applied:hook", "applied:wrapper", "applied:skill", "applied:agents_md", "applied:memory",
    "applied:retrieval_only"}

  /** Accept a draft, apply what is accepted, and accept, resolve, escalate or retire what is applied. */
  predicate InTable(from: string, to: string) {
    || (from == "draft" && to == "accepted")
    || (from == "accepted" && to in APPLIED_STATES)
    || (from in APPLIED_STATES && to in {"accepted", "resolved", "escalated", "retired"})
  }

  /** The command asks for this state: "applied" with a layer, or the state itself with no other layer beside it. */
  predicate AsksFor(c: Command, to: string) {
    || (to in {"draft", "accepted", "resolved", "escalated", "retired"} && c.target == to && c.layer == None)
    || (to in APPLIED_STATES
        && ((c.target == "applied" && c.layer == Some(to[8..]))
            || (c.target == to && (c.layer == None || c.layer == Some(to[8..])))))
  }

  /** A bead to record: not blank, and after redaction one bounded line that redaction leaves alone. */
  predicate Recordable(rules: Rules, bead: Option<string>) {
    && bead.Some? && Strip(bead.value) != ""
    && var safe := rules.redact(bead.value); |safe| <= 240 && SafeField(safe) && rules.redact(safe) == safe
  }

  /** The command moves the lesson to `to`. */
  predicate Moves(rules: Rules, rec: Record, c: Command, to: string) {
    && AsksFor(c, to) && InTable(rec.state, to) && c.operator
    && (to in APPLIED_STATES ==>
          c.now.Some? && if to == "applied:retrieval_only" then c.bead == None else Recordable(rules, c.bead))
  }

  /** The routing written with the step to `to`, if it is written at all. */
  function RoutingFor(rules: Rules, rec: Record, c: Command, to: string): Option<Routing> {
    if to in APPLIED_STATES then
      Some(rec.routing.(applied := Some(to[8..]), appliedAt := c.now,
                        bead := if to == "applied:retrieval_only" || c.bead.None? then None
                                else Some(rules.redact(c.bead.value))))
    else if to == "accepted" && rec.state in APPLIED_STATES then
      Some(rec.routing.(applied := None))
    else
      None
  }

  /** The command asks for the state the lesson is in, and a bead given with it is the one on record. */
  predicate Stays(rules: Rules, rec: Record, c: Command) {
    && AsksFor(c, rec.state)
    && (rec.state in APPLIED_STATES && c.bead.Some? ==>
          && rec.state != "applied:retrieval_only"
          && Strip(c.bead.value) != "" && |rules.redact(c.bead.value)| <= 240 && SafeField(rules.redact(c.bead.value))
          && rec.routing.bead == Some(rules.redact(c.bead.value)))
  }

  // ---------------------------------------------------------------------
  // The table is the one the command follows
  // ---------------------------------------------------------------------

  lemma LayerOfApplied(layer: string)
    ensures LayerOf(APPLIED + layer) == Some(layer)
  {
    CutsBack(APPLIED, layer);
  }

  lemma AppliedStatesSpelled(layer: string)
    requires layer in LAYERS
    ensures APPLIED + layer in APPLIED_STATES && LayerOf(APPLIED + layer) == Some(layer)
  {
    hide LayerOf;
    LayerOfApplied(layer);
    if layer == "environment" {
      assert APPLIED + layer == "applied:environment";
    } else if layer == "hook" {
      assert APPLIED + layer == "applied:hook";
    } else if layer == "wrapper" {
      assert APPLIED + layer == "applied:wrapper";
    } else if layer == "skill" {
      assert APPLIED + layer == "applied:skill";
    } else if layer == "agents_md" {
      assert APPLIED + layer == "applied:agents_md";
    } else if layer == "memory" {
      assert APPLIED + layer == "applied:memory";
    } else {
      assert APPLIED + layer == "applied:retrieval_only";
    }
  }

  lemma AppliedLayer(state: string)
    requires state in APPLIED_STATES
    ensures |state| >= 8 && state[..8] == APPLIED && state[8..] in LAYERS && LayerOf(state) == Some(state[8..])
    ensures state == APPLIED + state[8..]
  {
    assert state[..8] == APPLIED;
    assert "applied:environment"[8..] == "environment";
    assert "applied:hook"[8..] == "hook";
    assert "applied:wrapper"[8..] == "wrapper";
    assert "applied:skill"[8..] == "skill";
    assert "applied:agents_md"[8..] == "agents_md";
    assert "applied:memory"[8..] == "memory";
    assert "applied:retrieval_only"[8..] == "retrieval_only";
    assert state == state[..8] + state[8..];
  }

  /** A valid state is applied to a layer exactly when it is one of the seven. */
  lemma AppliedExactly(state: string)
    requires ValidState(state)
    ensures LayerOf(state).Some? <==> state in APPLIED_STATES
    ensures LayerOf(state) == Some(RETRIEVAL_ONLY) <==> state == "applied:retrieval_only"
  {
    if LayerOf(state).Some? {
      TargetLayerIsKnown(state);
      AppliedStatesSpelled(LayerOf(state).value);
      assert state == APPLIED + state[8..];
    }
    if state in APPLIED_STATES {
      AppliedLayer(state);
    }
    assert APPLIED + "retrieval_only" == "applied:retrieval_only";
  }

  lemma AsksForTarget(c: Command, to: string)
    ensures AsksFor(c, to) <==> Target(c) == Some(to)
  {
    if to in APPLIED_STATES {
      AppliedLayer(to);
    }
    if c.target == "applied" && c.layer.Some? && c.layer.value in LAYERS {
      AppliedStatesSpelled(c.layer.value);
      assert (APPLIED + c.layer.value)[8..] == c.layer.value;
    }
    if ValidState(c.target) {
      AppliedExactly(c.target);
      if c.target in APPLIED_STATES {
        AppliedLayer(c.target);
      }
    }
  }

  lemma LegalIsInTable(from: string, to: string)
    requires ValidState(from) && ValidState(to)
    ensures LegalStep(from, to) <==> InTable(from, to)
  {
    hide LayerOf;
    AppliedExactly(from);
    AppliedExactly(to);
  }

  /** The command's time is in the form timestamps settle to. */
  ghost predicate Timely(rules: Rules, c: Command) {
    c.now.Some? ==> rules.IsStamp(c.now.value)
  }

  lemma AppliedRoutingTold(rules: Rules, rec: Record, to: string, c: Command)
    requires to in APPLIED_STATES && Timely(rules, c)
    requires Settled(rules, rec.routing) && RoutingAgrees(rec.routing)
    ensures var r := AppliedRouting(rules, rec, to[8..], c);
            var writes := c.now.Some? && if to == "applied:retrieval_only" then c.bead == None
                                         else Recordable(rules, c.bead);
            && (writes ==> r.Some? && r == RoutingFor(rules, rec, c, to)
                           && CheckedWrite(rules, to, r.value, true) == Write(to, r))
            && (!writes ==> r.None? || CheckedWrite(rules, to, r.value, true) == Decision.Refused)
  {
    hide ValidateRouting, AsFields, LayerOf;
    AppliedLayer(to);
    assert APPLIED + "retrieval_only" == "applied:retrieval_only";
    var r := AppliedRouting(rules, rec, to[8..], c);
    if r.Some? {
      if ValidateRouting(rules, Fields(AsFields(r.value))).Some? {
        CheckedIsSettled(rules, r.value);
      }
      if Settled(rules, r.value) {
        SettledReadsBack(rules, r.value);
      }
    }
  }

  lemma PlainWriteTold(rules: Rules, r: Routing, to: string, writes: bool)
    requires Settled(rules, r) && RoutingAgrees(r)
    ensures CheckedWrite(rules, to, r, writes) == Write(to, if writes then Some(r) else None)
  {
    hide ValidateRouting, AsFields;
    SettledReadsBack(rules, r);
  }

  /** A legal step decides as the table says. */
  lemma LegalDecision(rules: Rules, rec: Record, c: Command, to: string)
    requires rules.StampsSettle() && SoundRecord(rules, rec) && Timely(rules, c)
    requires AsksFor(c, to) && InTable(rec.state, to) && c.operator
    ensures Decide(rules, rec, c) == if Moves(rules, rec, c, to) then Write(to, RoutingFor(rules, rec, c, to))
                                     else Decision.Refused
  {
    hide SoundRecord, ValidateRouting, AsFields, AppliedRouting, CheckedWrite, LayerOf, Recordable;
    LoadedRouting(rules, rec);
    AsksForTarget(c, to);
    TargetIsState(c);
    AppliedExactly(rec.state);
    AppliedExactly(to);
    LegalIsInTable(rec.state, to);
    if to in APPLIED_STATES {
      AppliedLayer(to);
      AppliedRoutingTold(rules, rec, to, c);
    } else if rec.state in APPLIED_STATES && to == "accepted" {
      PlainWriteTold(rules, rec.routing.(applied := None), to, true);
    } else {
      PlainWriteTold(rules, rec.routing, to, false);
    }
  }

  lemma StayingDecision(rules: Rules, rec: Record, c: Command)
    requires ValidState(rec.state) && AsksFor(c, rec.state)
    ensures Decide(rules, rec, c) == if Stays(rules, rec, c) then Unchanged else Decision.Refused
  {
    hide LayerOf, SafeField, Strip;
    AsksForTarget(c, rec.state);
    AppliedExactly(rec.state);
  }

  /** Each command is one of three: it moves the lesson, it finds it where it asks, or it is refused. */
  lemma DecidedExactly(rules: Rules, rec: Record, c: Command)
    requires rules.StampsSettle() && SoundRecord(rules, rec) && Timely(rules, c)
    ensures forall to :: Moves(rules, rec, c, to) ==> Decide(rules, rec, c) == Write(to, RoutingFor(rules, rec, c, to))
    ensures Stays(rules, rec, c) ==> Decide(rules, rec, c) == Unchanged
    ensures Decide(rules, rec, c).Write? ==> Moves(rules, rec, c, Decide(rules, rec, c).state)
    ensures Decide(rules, rec, c).Unchanged? ==> Stays(rules, rec, c)
  {
    hide SoundRecord, Decide, RoutingFor, Recordable, Stays;
    LoadedRouting(rules, rec);
    forall to | Moves(rules, rec, c, to)
      ensures Decide(rules, rec, c) == Write(to, RoutingFor(rules, rec, c, to))
    {
      LegalDecision(rules, rec, c, to);
    }
    if Stays(rules, rec, c) {
      StaysAsks(rules, rec, c);
      StayingDecision(rules, rec, c);
    }
    match Target(c)
    case None => NoTarget(rules, rec, c);
    case Some(to) =>
      AsksForTarget(c, to);
      TargetIsState(c);
      if rec.state == to {
        StayingDecision(rules, rec, c);
      } else if InTable(rec.state, to) && c.operator {
        LegalDecision(rules, rec, c, to);
      } else {
        IllegalDecision(rules, rec, c);
      }
  }

  lemma StaysAsks(rules: Rules, rec: Record, c: Command)
    requires Stays(rules, rec, c)
    ensures AsksFor(c, rec.state)
  {}

  lemma NoTarget(rules: Rules, rec: Record, c: Command)
    requires Target(c).None?
    ensures Decide(rules, rec, c).Refused?
  {}

  lemma IllegalDecision(rules: Rules, rec: Record, c: Command)
    requires ValidState(rec.state) && Target(c).Some? && rec.state != Target(c).value
    requires !(InTable(rec.state, Target(c).value) && c.operator)
    ensures Decide(rules, rec, c).Refused?
  {
    TargetIsState(c);
    LegalIsInTable(rec.state, Target(c).value);
  }
}
