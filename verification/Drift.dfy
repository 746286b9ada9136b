/**
  The parser-drift alarm (twill_doctor.py): the newest two runs pooled against
  the lower median of the eight before them.
 */
module Drift {
  import opened Prelude

  const CURRENT_RUNS := 2
  const HISTORY_RUNS := 8
  const MIN_HISTORY_RUNS := 3

  /** One ingest run of a source: how many records of each type it saw. */
  type Run = map<string, nat>

  function Seen(run: Run, kind: string): nat {
    if kind in run then run[kind] else 0
  }

  // ---------------------------------------------------------------------
  // The lower median
  // ---------------------------------------------------------------------

  function Insert(x: nat, s: seq<nat>): seq<nat> {
    if s == [] || x <= s[0] then [x] + s else [s[0]] + Insert(x, s[1..])
  }

  function Sort(s: seq<nat>): seq<nat> {
    if s == [] then [] else Insert(s[0], Sort(s[1..]))
  }

  predicate Ascending(s: seq<nat>) {
    forall i, j :: 0 <= i < j < |s| ==> s[i] <= s[j]
  }

  function Zeros(s: seq<nat>): nat {
    if s == [] then 0 else (if s[0] == 0 then 1 else 0) + Zeros(s[1..])
  }

  lemma {:induction false} InsertContents(x: nat, s: seq<nat>)
    ensures |Insert(x, s)| == |s| + 1 && multiset(Insert(x, s)) == multiset(s) + multiset{x}
    ensures Zeros(Insert(x, s)) == Zeros(s) + if x == 0 then 1 else 0
  {
    if s == [] || x <= s[0] {
      assert ([x] + s)[1..] == s;
    } else {
      InsertContents(x, s[1..]);
      assert s == [s[0]] + s[1..];
      assert ([s[0]] + Insert(x, s[1..]))[1..] == Insert(x, s[1..]);
    }
  }

  lemma InsertUnfolds(x: nat, s: seq<nat>)
    ensures Insert(x, s) == if s == [] || x <= s[0] then [x] + s else [s[0]] + Insert(x, s[1..])
  {}

  lemma {:induction false} InsertAscends(x: nat, s: seq<nat>)
    requires Ascending(s)
    ensures Ascending(Insert(x, s))
  {
    hide Insert;
    InsertUnfolds(x, s);
    if s != [] && x > s[0] {
      var rest := Insert(x, s[1..]);
      InsertAscends(x, s[1..]);
      InsertContents(x, s[1..]);
      forall i | 0 <= i < |rest| ensures s[0] <= rest[i] {
        assert rest[i] in multiset(rest);
        assert rest[i] == x || rest[i] in s[1..];
      }
    }
  }

  lemma {:induction false} SortSorts(s: seq<nat>)
    ensures Ascending(Sort(s)) && |Sort(s)| == |s| && multiset(Sort(s)) == multiset(s) && Zeros(Sort(s)) == Zeros(s)
  {
    hide Insert, Ascending, Zeros;
    if s != [] {
      SortSorts(s[1..]);
      InsertContents(s[0], Sort(s[1..]));
      InsertAscends(s[0], Sort(s[1..]));
      assert s == [s[0]] + s[1..];
      ZerosFirst(s);
    } else {
      NothingSorted();
    }
  }

  lemma NothingSorted()
    ensures Ascending([]) && Sort([]) == []
  {}

  lemma ZerosFirst(s: seq<nat>)
    requires s != []
    ensures Zeros(s) == Zeros(s[1..]) + (if s[0] == 0 then 1 else 0)
  {}

  /** `statistics.median_low`: of an even number of values the smaller of the middle two. */
  function MedianLow(s: seq<nat>): nat
    requires s != []
  {
    SortSorts(s);
    Sort(s)[(|s| - 1) / 2]
  }

  lemma {:induction false} AscendingZeros(s: seq<nat>, m: nat)
    requires Ascending(s) && m < |s|
    ensures s[m] == 0 <==> Zeros(s) > m
  {
    if s[0] == 0 {
      if m > 0 {
        AscendingZeros(s[1..], m - 1);
        assert s[1..][m - 1] == s[m];
      }
    } else {
      NoZeros(s);
    }
  }

  lemma {:induction false} NoZeros(s: seq<nat>)
    requires forall i :: 0 <= i < |s| ==> s[i] > 0
    ensures Zeros(s) == 0
  {
    if s != [] {
      NoZeros(s[1..]);
    }
  }

  /** A positive lower median is a strict majority of positive values. */
  lemma {:induction false} MedianIsMajority(s: seq<nat>)
    requires s != []
    ensures MedianLow(s) > 0 <==> 2 * (|s| - Zeros(s)) > |s|
  {
    SortSorts(s);
    AscendingZeros(Sort(s), (|s| - 1) / 2);
  }

  // ---------------------------------------------------------------------
  // One source
  // ---------------------------------------------------------------------

  function Counts(runs: seq<Run>, kind: string): (s: seq<nat>)
    ensures |s| == |runs| && forall i :: 0 <= i < |s| ==> s[i] == Seen(runs[i], kind)
  {
    seq(|runs|, i requires 0 <= i < |runs| => Seen(runs[i], kind))
  }

  function Pooled(runs: seq<Run>, kind: string): nat {
    if runs == [] then 0 else Pooled(runs[..|runs| - 1], kind) + Seen(runs[|runs| - 1], kind)
  }

  /** How many runs carried the type. */
  function Carried(runs: seq<Run>, kind: string): nat {
    if runs == [] then 0 else (if Seen(runs[0], kind) > 0 then 1 else 0) + Carried(runs[1..], kind)
  }

  /** `ordered_runs[:-2]` and what follows it. */
  function History(runs: seq<Run>): seq<Run> {
    runs[..Max(0, |runs| - CURRENT_RUNS)]
  }

  function Current(runs: seq<Run>): seq<Run> {
    runs[Max(0, |runs| - CURRENT_RUNS)..]
  }

  /** `history[-8:]`. */
  function Window(runs: seq<Run>): (window: seq<Run>)
    ensures window == [] <==> History(runs) == []
    ensures |window| == Min(|History(runs)|, HISTORY_RUNS)
  {
    History(runs)[Max(0, |History(runs)| - HISTORY_RUNS)..]
  }

  predicate Armed(runs: seq<Run>) {
    |History(runs)| >= MIN_HISTORY_RUNS
  }

  /** Gone from the pooled current runs, and carried by a strict majority of the window. */
  predicate Vanished(runs: seq<Run>, kind: string) {
    Armed(runs) && 2 * Carried(Window(runs), kind) > |Window(runs)| && Pooled(Current(runs), kind) == 0
  }

  /** There now, and in no run of the window. */
  predicate Appeared(runs: seq<Run>, kind: string) {
    Armed(runs) && Pooled(Current(runs), kind) > 0 && Carried(Window(runs), kind) == 0
  }

  lemma {:induction false} CarriedIsNotZero(runs: seq<Run>, kind: string)
    ensures Carried(runs, kind) == |runs| - Zeros(Counts(runs, kind))
  {
    if runs != [] {
      CarriedIsNotZero(runs[1..], kind);
      assert Counts(runs, kind)[1..] == Counts(runs[1..], kind);
    }
  }

  function Highest(s: seq<nat>): nat {
    if s == [] then 0 else Max(s[0], Highest(s[1..]))
  }

  lemma {:induction false} HighestZero(runs: seq<Run>, kind: string)
    ensures Highest(Counts(runs, kind)) == 0 <==> Carried(runs, kind) == 0
  {
    if runs != [] {
      HighestZero(runs[1..], kind);
      assert Counts(runs, kind)[1..] == Counts(runs[1..], kind);
    }
  }

  function Kinds(runs: seq<Run>): set<string> {
    if runs == [] then {} else Kinds(runs[..|runs| - 1]) + runs[|runs| - 1].Keys
  }

  lemma {:induction false} UnknownKind(runs: seq<Run>, kind: string)
    requires kind !in Kinds(runs)
    ensures Pooled(runs, kind) == 0 && Carried(runs, kind) == 0
  {
    if runs != [] {
      var last := |runs| - 1;
      UnknownKind(runs[..last], kind);
      CarriedSnoc(runs, kind);
    }
  }

  lemma {:induction false} CarriedSnoc(runs: seq<Run>, kind: string)
    requires runs != []
    ensures Carried(runs, kind) == Carried(runs[..|runs| - 1], kind) + if Seen(runs[|runs| - 1], kind) > 0 then 1 else 0
  {
    if |runs| > 1 {
      CarriedSnoc(runs[1..], kind);
      assert runs[1..][..|runs| - 2] == runs[..|runs| - 1][1..];
    }
  }

  /** A finding: the types that vanished with their medians, and those that appeared with their counts. */
  datatype Finding = Finding(armed: bool, vanished: map<string, nat>, appeared: map<string, nat>)

  method PoolCounts(runs: seq<Run>) returns (pool: Run)
    ensures pool.Keys == Kinds(runs) && forall kind :: Seen(pool, kind) == Pooled(runs, kind)
  {
    pool := map[];
    for i := 0 to |runs|
      invariant pool.Keys == Kinds(runs[..i])
      invariant forall kind :: Seen(pool, kind) == Pooled(runs[..i], kind)
    {
      assert runs[..i + 1][..i] == runs[..i];
      pool := AddRun(pool, runs[i]);
    }
    assert runs[..|runs|] == runs;
  }

  /** `more` is the pool with the counts of the run's types outside `rest`. */
  ghost predicate Added(pool: Run, run: Run, rest: set<string>, more: Run) {
    && more.Keys == pool.Keys + (run.Keys - rest)
    && forall k :: Seen(more, k) == Seen(pool, k) + if k in run && k !in rest then run[k] else 0
  }

  lemma AddOne(pool: Run, run: Run, rest: set<string>, more: Run, kind: string)
    requires Added(pool, run, rest, more) && kind in rest && rest <= run.Keys
    ensures Added(pool, run, rest - {kind}, more[kind := Seen(more, kind) + run[kind]])
  {
    var next := more[kind := Seen(more, kind) + run[kind]];
    assert next.Keys == pool.Keys + (run.Keys - (rest - {kind}));
    forall k ensures Seen(next, k) == Seen(pool, k) + if k in run && k !in rest - {kind} then run[k] else 0 {
      assert Seen(more, k) == Seen(pool, k) + if k in run && k !in rest then run[k] else 0;
    }
  }

  method AddRun(pool: Run, run: Run) returns (more: Run)
    ensures more.Keys == pool.Keys + run.Keys
    ensures forall kind :: Seen(more, kind) == Seen(pool, kind) + Seen(run, kind)
  {
    hide Added, Seen;
    more := pool;
    var rest := run.Keys;
    NoneAdded(pool, run);
    while rest != {}
      invariant rest <= run.Keys && Added(pool, run, rest, more)
      decreases |rest|
    {
      var kind :| kind in rest;
      AddOne(pool, run, rest, more, kind);
      more := more[kind := Seen(more, kind) + run[kind]];
      rest := rest - {kind};
    }
    AllAdded(pool, run, more);
  }

  lemma NoneAdded(pool: Run, run: Run)
    ensures Added(pool, run, run.Keys, pool)
  {
    assert run.Keys - run.Keys == {};
  }

  lemma AllAdded(pool: Run, run: Run, more: Run)
    requires Added(pool, run, {}, more)
    ensures more.Keys == pool.Keys + run.Keys
    ensures forall kind :: Seen(more, kind) == Seen(pool, kind) + Seen(run, kind)
  {}

  /** What the check has found among the types looked at. */
  ghost predicate Found(runs: seq<Run>, looked: set<string>, vanished: map<string, nat>, appeared: map<string, nat>)
    requires Window(runs) != []
  {
    && (forall kind :: kind in vanished <==> kind in looked && Vanished(runs, kind))
    && (forall kind :: kind in appeared <==> kind in looked && Appeared(runs, kind))
    && (forall kind :: kind in vanished ==> vanished[kind] == MedianLow(Counts(Window(runs), kind)))
    && (forall kind :: kind in appeared ==> appeared[kind] == Pooled(Current(runs), kind))
  }

  /** The two tests the loop makes are the two verdicts. */
  lemma TestsAreVerdicts(runs: seq<Run>, kind: string)
    requires Armed(runs)
    ensures Vanished(runs, kind) <==> MedianLow(Counts(Window(runs), kind)) > 0 && Pooled(Current(runs), kind) == 0
    ensures Appeared(runs, kind) <==> Pooled(Current(runs), kind) > 0 && Highest(Counts(Window(runs), kind)) == 0
  {
    MedianIsMajority(Counts(Window(runs), kind));
    CarriedIsNotZero(Window(runs), kind);
    HighestZero(Window(runs), kind);
  }

  lemma OneMoreKind(runs: seq<Run>, looked: set<string>, vanished: map<string, nat>, appeared: map<string, nat>,
                    kind: string)
    requires Armed(runs) && Window(runs) != [] && Found(runs, looked, vanished, appeared) && kind !in looked
    ensures var median, count := MedianLow(Counts(Window(runs), kind)), Pooled(Current(runs), kind);
            Found(runs, looked + {kind},
                  if median > 0 && count == 0 then vanished[kind := median] else vanished,
                  if count > 0 && Highest(Counts(Window(runs), kind)) == 0 then appeared[kind := count] else appeared)
  {
    hide MedianLow, Counts, Highest, Pooled, Vanished, Appeared, Current, Window;
    TestsAreVerdicts(runs, kind);
  }

  lemma NothingFound(runs: seq<Run>)
    requires Window(runs) != []
    ensures Found(runs, {}, map[], map[])
  {}

  /** The types looked at include every type there is to find. */
  lemma AllFound(runs: seq<Run>, vanished: map<string, nat>, appeared: map<string, nat>)
    requires Armed(runs) && Window(runs) != []
    requires Found(runs, Kinds(Window(runs)) + Kinds(Current(runs)), vanished, appeared)
    ensures forall kind :: kind in vanished <==> Vanished(runs, kind)
    ensures forall kind :: kind in appeared <==> Appeared(runs, kind)
  {
    hide MedianLow, Counts, Pooled, Vanished, Appeared, Current, Window, Kinds;
    forall kind | kind !in Kinds(Window(runs)) + Kinds(Current(runs))
      ensures !Vanished(runs, kind) && !Appeared(runs, kind) {
      Unmentioned(runs, kind);
    }
  }

  lemma FoundValues(runs: seq<Run>, looked: set<string>, vanished: map<string, nat>, appeared: map<string, nat>)
    requires Armed(runs) && Window(runs) != [] && Found(runs, looked, vanished, appeared)
    ensures forall kind :: kind in vanished ==> vanished[kind] == MedianLow(Counts(Window(runs), kind))
    ensures forall kind :: kind in appeared ==> appeared[kind] == Pooled(Current(runs), kind)
  {}

  /** The check of one source: exactly the types that vanished or appeared. */
  method CheckSource(runs: seq<Run>) returns (f: Finding)
    ensures f.armed == Armed(runs)
    ensures forall kind :: kind in f.vanished <==> Vanished(runs, kind)
    ensures forall kind :: kind in f.appeared <==> Appeared(runs, kind)
    ensures forall kind ::
              kind in f.vanished ==> Armed(runs) && f.vanished[kind] == MedianLow(Counts(Window(runs), kind))
    ensures forall kind :: kind in f.appeared ==> f.appeared[kind] == Pooled(Current(runs), kind)
  {
    hide MedianLow, Counts, Highest, Pooled, Vanished, Appeared, Current, Window, Found, Kinds, Seen;
    if !Armed(runs) {
      NotArmed(runs);
      return Finding(false, map[], map[]);
    }
    var window := Window(runs);
    var pool := PoolCounts(Current(runs));
    var vanished: map<string, nat>, appeared: map<string, nat> := map[], map[];
    var kinds := Kinds(window) + pool.Keys;
    var rest := kinds;
    NothingFound(runs);
    assert kinds - rest == {};
    while rest != {}
      invariant rest <= kinds && Found(runs, kinds - rest, vanished, appeared)
      decreases |rest|
    {
      var kind :| kind in rest;
      var median := MedianLow(Counts(window, kind));
      var count := Seen(pool, kind);
      OneMoreKind(runs, kinds - rest, vanished, appeared, kind);
      assert kinds - (rest - {kind}) == (kinds - rest) + {kind};
      rest := rest - {kind};
      if median > 0 && count == 0 {
        vanished := vanished[kind := median];
      }
      if count > 0 && Highest(Counts(window, kind)) == 0 {
        appeared := appeared[kind := count];
      }
    }
    assert kinds - {} == kinds;
    AllFound(runs, vanished, appeared);
    FoundValues(runs, kinds, vanished, appeared);
    return Finding(true, vanished, appeared);
  }

  lemma NotArmed(runs: seq<Run>)
    requires !Armed(runs)
    ensures forall kind :: !Vanished(runs, kind) && !Appeared(runs, kind)
  {}

  lemma Unmentioned(runs: seq<Run>, kind: string)
    requires kind !in Kinds(Window(runs)) && kind !in Kinds(Current(runs))
    ensures !Vanished(runs, kind) && !Appeared(runs, kind)
  {
    UnknownKind(Window(runs), kind);
    UnknownKind(Current(runs), kind);
  }

  // ---------------------------------------------------------------------
  // How long the alarm lasts
  // ---------------------------------------------------------------------

  lemma {:induction false} AllCarried(runs: seq<Run>, kind: string, n: nat)
    requires n <= |runs|
    requires forall i :: 0 <= i < n ==> Seen(runs[i], kind) > 0
    requires forall i :: n <= i < |runs| ==> Seen(runs[i], kind) == 0
    ensures Carried(runs, kind) == n
  {
    if runs != [] {
      AllCarried(runs[1..], kind, if n == 0 then 0 else n - 1);
    }
  }

  lemma {:induction false} PooledZero(runs: seq<Run>, kind: string)
    ensures Pooled(runs, kind) == 0 <==> forall i :: 0 <= i < |runs| ==> Seen(runs[i], kind) == 0
  {
    if runs != [] {
      var last := |runs| - 1;
      PooledZero(runs[..last], kind);
      assert forall i :: 0 <= i < last ==> runs[..last][i] == runs[i];
    }
  }

  /** Carried by every run until it stopped, and by none of the last `absent`. */
  ghost predicate StoppedFor(runs: seq<Run>, kind: string, absent: nat) {
    && absent <= |runs|
    && (forall i :: 0 <= i < |runs| - absent ==> Seen(runs[i], kind) > 0)
    && (forall i :: |runs| - absent <= i < |runs| ==> Seen(runs[i], kind) == 0)
  }

  /** A type that stops for good is reported while it is gone two runs or more and still has its majority. */
  lemma StoppedTypeAlarmsExactly(runs: seq<Run>, kind: string, absent: nat)
    requires Armed(runs) && StoppedFor(runs, kind, absent)
    ensures Vanished(runs, kind) <==> absent >= CURRENT_RUNS && 2 * (absent - CURRENT_RUNS) < |Window(runs)|
  {
    var n := |runs|;
    var window, current := Window(runs), Current(runs);
    PooledZero(current, kind);
    assert current == runs[n - 2..];
    assert current[0] == runs[n - 2] && current[1] == runs[n - 1];
    var start := Max(0, n - 2 - HISTORY_RUNS);
    assert forall i :: 0 <= i < |window| ==> window[i] == runs[start + i];
    if absent >= 2 {
      var k := Max(0, Min(|window|, n - absent - start));
      AllCarried(window, kind, k);
    }
  }

  /** With ten runs or more the alarm stands for absences of two to five runs. */
  lemma AlarmLastsTwoToFive(runs: seq<Run>, kind: string, absent: nat)
    requires |runs| >= 10 && StoppedFor(runs, kind, absent)
    ensures Vanished(runs, kind) <==> 2 <= absent <= 5
  {
    StoppedTypeAlarmsExactly(runs, kind, absent);
  }

  lemma {:induction false} CarriedAtMost(runs: seq<Run>, kind: string, n: nat)
    requires n <= |runs| && forall i :: n <= i < |runs| ==> Seen(runs[i], kind) == 0
    ensures Carried(runs, kind) <= n
  {
    if runs != [] {
      CarriedAtMost(runs[1..], kind, if n == 0 then 0 else n - 1);
    }
  }

  /** Six runs without a type and no history, of any length, reports it. */
  lemma SilentFromSix(runs: seq<Run>, kind: string)
    requires |runs| >= 6 && forall i :: |runs| - 6 <= i < |runs| ==> Seen(runs[i], kind) == 0
    ensures !Vanished(runs, kind)
  {
    var n := |runs|;
    var window := Window(runs);
    var start := Max(0, n - 2 - HISTORY_RUNS);
    assert forall i :: 0 <= i < |window| ==> window[i] == runs[start + i];
    CarriedAtMost(window, kind, Max(0, |window| - 4));
  }

  /** No type is reported both ways. */
  lemma NeverBoth(runs: seq<Run>, kind: string)
    ensures !(Vanished(runs, kind) && Appeared(runs, kind))
  {}
}
