/**
  Runs of commands over a lesson file: when one changes it and into what, and
  which paths a run can take through the states.
 */
module LessonRuns {
  import opened Prelude
  import opened Sequences
  import opened PyText
  import opened Inline
  import opened LessonFile
  import opened LessonRewrite
  import opened LessonReload
  import opened LessonEdits
  import opened LessonRecord
  import opened LessonTransition
  import opened LessonLifecycle
  import opened LessonLaw
  import opened LessonSteps
  import opened LessonOperator

  // ---------------------------------------------------------------------
  // One command
  // ---------------------------------------------------------------------

  /** A write never spells the file it started from: that one loads in another state. */
  lemma WritingChanges(rules: Rules, file: string, c: Command)
    requires rules.StampsSettle() && Timely(rules, c) && Load(rules, file).Some?
    requires Decide(rules, Load(rules, file).value, c).Write?
    ensures var rec := Load(rules, file).value;
            var d := Decide(rules, rec, c);
            Written(rec, d.state, d.routing) != file
  {
    hide Load, Written, Decide, SoundRecord, WillHold, Reloads;
    var rec := Load(rules, file).value;
    var d := Decide(rules, rec, c);
    LoadIsSound(rules, file);
    DecidedExactly(rules, rec, c);
    TransitionReloadsExactly(rules, file, c);
    if Written(rec, d.state, d.routing) == file {
      ReloadedState(rules, rec, d.state, d.routing, Load(rules, file));
      assert false;
    }
  }

  lemma ReloadedState(rules: Rules, rec: Record, state: string, routing: Option<Routing>, loaded: Option<Record>)
    requires Reloads(rules, rec, state, routing, loaded)
    ensures loaded.Some? && loaded.value.state == state && loaded.value.routing == routing.GetOr(rec.routing)
  {}

  /**
    One command over a lesson that loads: the file changes exactly when the
    command moves the lesson along the table, and then it is rewritten with
    that state and routing, which are what it loads with when it loads.
   */
  lemma CommandWritesExactly(rules: Rules, file: string, c: Command)
    requires rules.StampsSettle() && Timely(rules, c) && Load(rules, file).Some?
    ensures var rec, after := Load(rules, file).value, After(rules, file, c);
            && (after != file <==> exists to :: Moves(rules, rec, c, to))
            && forall to :: Moves(rules, rec, c, to) ==>
                 && after == Written(rec, to, RoutingFor(rules, rec, c, to))
                 && (Load(rules, after).Some? ==>
                       && Load(rules, after).value.state == to
                       && Load(rules, after).value.routing == RoutingFor(rules, rec, c, to).GetOr(rec.routing))
  {
    hide Load, Written, Decide, SoundRecord, WillHold, Reloads, Moves, RoutingFor;
    var rec := Load(rules, file).value;
    LoadIsSound(rules, file);
    DecidedExactly(rules, rec, c);
    if Decide(rules, rec, c).Write? {
      WritingChanges(rules, file, c);
      TransitionReloadsExactly(rules, file, c);
      var d := Decide(rules, rec, c);
      var after := Written(rec, d.state, d.routing);
      if Load(rules, after).Some? {
        ReloadedState(rules, rec, d.state, d.routing, Load(rules, after));
      }
    }
  }

  // ---------------------------------------------------------------------
  // Any run of commands
  // ---------------------------------------------------------------------

  ghost predicate InState(rules: Rules, file: string, state: string) {
    Load(rules, file).Some? && Load(rules, file).value.state == state
  }

  /** Some prefix of the run leaves the lesson accepted. */
  ghost predicate WasAccepted(rules: Rules, file: string, commands: seq<Command>) {
    exists k :: 0 <= k <= |commands| && InState(rules, AfterAll(rules, file, commands[..k]), "accepted")
  }

  lemma CommandFollowsTable(rules: Rules, file: string, c: Command)
    requires rules.StampsSettle() && Timely(rules, c) && Load(rules, After(rules, file, c)).Some?
    ensures Load(rules, file).Some?
    ensures var from, to := Load(rules, file).value.state, Load(rules, After(rules, file, c)).value.state;
            from == to || (InTable(from, to) && c.operator)
  {
    hide Load, RoutingFor, Written;
    if Load(rules, file).Some? {
      hide After;
      CommandWritesExactly(rules, file, c);
    }
  }

  /** No run of commands takes a draft anywhere but through acceptance. */
  lemma {:induction false} DraftsAreAcceptedFirst(rules: Rules, file: string, commands: seq<Command>)
    requires rules.StampsSettle() && InState(rules, file, "draft")
    requires forall i :: 0 <= i < |commands| ==> Timely(rules, commands[i])
    requires Load(rules, AfterAll(rules, file, commands)).Some?
    requires Load(rules, AfterAll(rules, file, commands)).value.state != "draft"
    ensures WasAccepted(rules, file, commands)
    decreases |commands|
  {
    hide Load, After, Timely;
    if commands != [] {
      var n := |commands| - 1;
      var before := AfterAll(rules, file, commands[..n]);
      assert commands[..|commands|] == commands;
      CommandFollowsTable(rules, before, commands[n]);
      if InState(rules, before, "draft") {
        assert InState(rules, AfterAll(rules, file, commands[..|commands|]), "accepted");
      } else {
        DraftsAreAcceptedFirst(rules, file, commands[..n]);
        var k :| 0 <= k <= n && InState(rules, AfterAll(rules, file, commands[..n][..k]), "accepted");
        assert commands[..n][..k] == commands[..k];
      }
    }
  }
}
