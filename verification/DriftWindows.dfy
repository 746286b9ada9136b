/**
  The two verdicts of the drift alarm told from the runs themselves, and how
  long a type counts as new.
 */
module DriftWindows {
  import opened Prelude
  import opened Drift

  ghost predicate Carries(run: Run, kind: string) {
    kind in run && run[kind] > 0
  }

  /** Of the runs from `low` up to `high`, those that carried the type. */
  ghost function Carrying(runs: seq<Run>, kind: string, low: nat, high: nat): set<nat>
    requires low <= high <= |runs|
  {
    set i | low <= i < high && Carries(runs[i], kind)
  }

  lemma {:induction false} CarriedCounts(runs: seq<Run>, kind: string, low: nat, high: nat)
    requires low <= high <= |runs|
    ensures Carried(runs[low..high], kind) == |Carrying(runs, kind, low, high)|
    decreases high - low
  {
    if low < high {
      CarriedCounts(runs, kind, low + 1, high);
      assert runs[low..high][1..] == runs[low + 1..high];
      var more := Carrying(runs, kind, low + 1, high);
      assert Carrying(runs, kind, low, high) == if Carries(runs[low], kind) then more + {low} else more;
    } else {
      assert Carrying(runs, kind, low, high) == {};
    }
  }

  /** The place of the first run of the window: the eight runs before the last two, or as many as there are. */
  function WindowStart(n: nat): nat {
    if n <= 10 then 0 else n - 10
  }

  lemma WindowIs(runs: seq<Run>)
    requires |runs| >= 2
    ensures Window(runs) == runs[WindowStart(|runs|)..|runs| - 2] && Current(runs) == runs[|runs| - 2..]
  {}

  /**
    With fewer than five runs nothing is reported. With more, a type vanished
    exactly when neither of the last two runs carried it and more than half of
    the up to eight before them did; it appeared exactly when one of the last
    two carried it and none of those did.
   */
  lemma VerdictsExactly(runs: seq<Run>, kind: string)
    ensures |runs| < 5 ==> !Armed(runs) && !Vanished(runs, kind) && !Appeared(runs, kind)
    ensures |runs| >= 5 ==>
              var n, low := |runs|, WindowStart(|runs|);
              var now := Carries(runs[n - 2], kind) || Carries(runs[n - 1], kind);
              && Armed(runs)
              && (Vanished(runs, kind) <==> !now && 2 * |Carrying(runs, kind, low, n - 2)| > n - 2 - low)
              && (Appeared(runs, kind) <==> now && Carrying(runs, kind, low, n - 2) == {})
  {
    if |runs| >= 5 {
      var n, low := |runs|, WindowStart(|runs|);
      WindowIs(runs);
      CarriedCounts(runs, kind, low, n - 2);
      PooledZero(Current(runs), kind);
      assert Current(runs)[0] == runs[n - 2] && Current(runs)[1] == runs[n - 1];
      var now := Carries(runs[n - 2], kind) || Carries(runs[n - 1], kind);
      assert (Pooled(Current(runs), kind) > 0) == now;
    }
  }

  /** In none of the runs before the last `present`, and in each of those. */
  ghost predicate StartedFor(runs: seq<Run>, kind: string, present: nat) {
    && present <= |runs|
    && (forall i :: 0 <= i < |runs| - present ==> !Carries(runs[i], kind))
    && (forall i :: |runs| - present <= i < |runs| ==> Carries(runs[i], kind))
  }

  /** A type that starts for good is new for exactly two runs. */
  lemma NewForTwoRuns(runs: seq<Run>, kind: string, present: nat)
    requires |runs| >= 5 && StartedFor(runs, kind, present)
    ensures Appeared(runs, kind) <==> 1 <= present <= 2
  {
    VerdictsExactly(runs, kind);
    var n, low := |runs|, WindowStart(|runs|);
    if present >= 3 {
      assert n - 3 in Carrying(runs, kind, low, n - 2);
    }
  }
}
