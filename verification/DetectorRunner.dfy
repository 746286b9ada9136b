/**
  The runner itself: one transaction a detector, any statement of which may
  fail, and the loop that refuses, skips, runs and reports each detector.
 */
module DetectorRunner {
  import opened Prelude
  import opened Detectors

  datatype Fault = SqlFault | ContractFault | OtherFault

  /** The statements of one detector's transaction. */
  datatype Statement =
    | Begin | RunClusterSql | RunHitsSql | SelectOpen | UpsertCluster(i: nat) | DeleteStale(i: nat)
    | ClearHits | InsertHit(i: nat) | RecordRun | AggregateWeeks | Commit

  /** What the outside brings to one detector's run: its rows, and the statements that fail. */
  datatype Feed = Feed(clusterRows: Answer, hitRows: Answer, faults: Statement -> Option<Fault>, recordFails: bool)
  {
    predicate Shaped() {
      clusterRows.Shaped() && hitRows.Shaped()
    }

    ghost predicate Undisturbed() {
      forall s :: faults(s).None?
    }
  }

  /** The emitted rows meet the contract. */
  ghost predicate Sound(red: Redactor, d: Detector, feed: Feed)
    requires feed.Shaped()
  {
    && Collectable(red, feed.clusterRows)
    && (d.hitsSql.Some? ==> HitsCollectable(red, feed.hitRows, Collected(red, feed.clusterRows)))
  }

  ghost function Pairs(red: Redactor, d: Detector, feed: Feed): set<Pair>
    requires feed.Shaped() && Sound(red, d, feed)
  {
    if d.hitsSql.Some? then CollectedHits(red, feed.hitRows, Collected(red, feed.clusterRows)) else {}
  }

  ghost predicate Committed(red: Redactor, t: Tables, d: Detector, days: int, at: int, feed: Feed, t': Tables)
    requires feed.Shaped()
  {
    Sound(red, d, feed) && Refreshes(t, d, days, Collected(red, feed.clusterRows), Pairs(red, d, feed), at, t')
  }

  /** The row of `k` when only the upserts of `emitted` have run. */
  function ClusterDuring(clusters: map<ClusterKey, Cluster>, id: string, days: int, emitted: seq<Emission>,
                         k: ClusterKey)
    : Option<Cluster>
  {
    if k.0 != id || Lookup(emitted, k.1).None? then Get(clusters, k)
    else Some(Upserted(Get(clusters, k), days, Lookup(emitted, k.1).value))
  }

  ghost predicate During(before: map<ClusterKey, Cluster>, id: string, days: int, emitted: seq<Emission>,
                         clusters: map<ClusterKey, Cluster>) {
    forall k :: Get(clusters, k) == ClusterDuring(before, id, days, emitted, k)
  }

  lemma OneUpsert(before: map<ClusterKey, Cluster>, id: string, days: int, emitted: seq<Emission>, i: nat,
                  clusters: map<ClusterKey, Cluster>)
    requires i < |emitted| && DistinctKeys(emitted) && During(before, id, days, emitted[..i], clusters)
    ensures var k := (id, emitted[i].key);
            During(before, id, days, emitted[..i + 1], clusters[k := Upserted(Get(clusters, k), days, emitted[i])])
  {
    var k := (id, emitted[i].key);
    var after := clusters[k := Upserted(Get(clusters, k), days, emitted[i])];
    assert emitted[..i + 1][..i] == emitted[..i];
    assert Lookup(emitted[..i], emitted[i].key).None?;
    forall q ensures Get(after, q) == ClusterDuring(before, id, days, emitted[..i + 1], q) {
      assert Get(clusters, q) == ClusterDuring(before, id, days, emitted[..i], q);
      if q.1 != emitted[i].key {
        assert Lookup(emitted[..i + 1], q.1) == Lookup(emitted[..i], q.1);
      }
    }
  }

  function OpenKeys(clusters: map<ClusterKey, Cluster>, id: string): set<string> {
    set k | k in clusters.Keys && k.0 == id && clusters[k].state.Open? :: k.1
  }

  ghost predicate StaleGone(middle: map<ClusterKey, Cluster>, id: string, gone: set<string>,
                            clusters: map<ClusterKey, Cluster>) {
    forall k :: Get(clusters, k) == if k.0 == id && k.1 in gone then None else Get(middle, k)
  }

  /** Upserting, then deleting the open keys not emitted, is the refresh. */
  lemma UpsertThenDelete(before: map<ClusterKey, Cluster>, id: string, days: int, emitted: seq<Emission>,
                         middle: map<ClusterKey, Cluster>, after: map<ClusterKey, Cluster>)
    requires During(before, id, days, emitted, middle)
    requires StaleGone(middle, id, OpenKeys(before, id) - (set e | e in emitted :: e.key), after)
    ensures forall k :: Get(after, k) == ClusterAfter(before, id, days, emitted, k)
  {
    var stale := OpenKeys(before, id) - (set e | e in emitted :: e.key);
    forall k ensures Get(after, k) == ClusterAfter(before, id, days, emitted, k) {
      assert Get(middle, k) == ClusterDuring(before, id, days, emitted, k);
      assert Get(after, k) == if k.0 == id && k.1 in stale then None else Get(middle, k);
      if k.0 == id {
        var e := Lookup(emitted, k.1);
        assert e.Some? <==> k.1 in (set e | e in emitted :: e.key);
        assert k.1 in OpenKeys(before, id) <==> k in before && before[k].state.Open? by {
          assert k == (id, k.1);
        }
      }
    }
  }

  class Connection {
    var tables: Tables
    /** The snapshots an open transaction or savepoint would return to. */
    var saved: seq<Tables>

    constructor (tables: Tables)
      ensures this.tables == tables && saved == []
    {
      this.tables := tables;
      saved := [];
    }

    method UpsertAll(id: string, days: int, emitted: seq<Emission>, faults: Statement -> Option<Fault>)
      returns (fault: Option<Fault>)
      requires DistinctKeys(emitted)
      modifies this`tables
      ensures fault.Some? ==> exists s :: faults(s) == fault
      ensures fault.None? ==>
                && During(old(tables).clusters, id, days, emitted, tables.clusters)
                && tables == old(tables).(clusters := tables.clusters)
    {
      ghost var before := tables.clusters;
      for i := 0 to |emitted|
        invariant During(before, id, days, emitted[..i], tables.clusters)
        invariant tables == old(tables).(clusters := tables.clusters)
      {
        if faults(UpsertCluster(i)).Some? {
          return faults(UpsertCluster(i));
        }
        OneUpsert(before, id, days, emitted, i, tables.clusters);
        var k := (id, emitted[i].key);
        tables := tables.(clusters := tables.clusters[k := Upserted(Get(tables.clusters, k), days, emitted[i])]);
      }
      assert emitted[..|emitted|] == emitted;
      return None;
    }

    method DeleteAll(id: string, stale: set<string>, faults: Statement -> Option<Fault>) returns (fault: Option<Fault>)
      modifies this`tables
      ensures fault.Some? ==> exists s :: faults(s) == fault
      ensures fault.None? ==>
                && StaleGone(old(tables).clusters, id, stale, tables.clusters)
                && tables == old(tables).(clusters := tables.clusters)
    {
      var rest := stale;
      var i := 0;
      while rest != {}
        invariant rest <= stale
        invariant StaleGone(old(tables).clusters, id, stale - rest, tables.clusters)
        invariant tables == old(tables).(clusters := tables.clusters)
        decreases |rest|
      {
        if faults(DeleteStale(i)).Some? {
          return faults(DeleteStale(i));
        }
        var key :| key in rest;
        tables := tables.(clusters := tables.clusters - {(id, key)});
        rest := rest - {key};
        i := i + 1;
      }
      assert stale - {} == stale;
      return None;
    }

    method InsertAll(id: string, pairs: set<Pair>, faults: Statement -> Option<Fault>) returns (fault: Option<Fault>)
      modifies this`tables
      ensures fault.Some? ==> exists s :: faults(s) == fault
      ensures fault.None? ==> tables == old(tables).(hits := old(tables).hits + HitRows(id, pairs))
    {
      var rest := pairs;
      var i := 0;
      while rest != {}
        invariant rest <= pairs
        invariant tables == old(tables).(hits := old(tables).hits + HitRows(id, pairs - rest))
        decreases |rest|
      {
        if faults(InsertHit(i)).Some? {
          return faults(InsertHit(i));
        }
        var p :| p in rest;
        OneMoreRow(id, pairs, rest, p);
        tables := tables.(hits := tables.hits + {Hit(id, p.0, p.1)});
        rest := rest - {p};
        i := i + 1;
      }
      assert pairs - {} == pairs;
      return None;
    }

    method ReplaceHits(id: string, pairs: set<Pair>, faults: Statement -> Option<Fault>) returns (fault: Option<Fault>)
      modifies this`tables
      ensures fault.Some? ==> exists s :: faults(s) == fault
      ensures fault.None? ==> tables == old(tables).(hits := HitsAfter(old(tables).hits, id, pairs))
    {
      if faults(ClearHits).Some? {
        return faults(ClearHits);
      }
      tables := tables.(hits := set h | h in tables.hits && h.detector != id);
      fault := InsertAll(id, pairs, faults);
    }

    /** The rows are read, checked and written; the caller commits or rolls back. */
    method Refresh(red: Redactor, d: Detector, days: int, at: int, feed: Feed) returns (r: Result<nat, Fault>)
      requires feed.Shaped()
      modifies this`tables
      ensures r.Success? ==>
                && Committed(red, old(tables), d, days, at, feed, tables)
                && r.value == |Collected(red, feed.clusterRows)|
      ensures r.Failure? ==> !Sound(red, d, feed) || !feed.Undisturbed()
    {
      if feed.faults(RunClusterSql).Some? {
        return Failure(feed.faults(RunClusterSql).value);
      }
      var collected := CollectClusters(red, feed.clusterRows);
      if collected.None? {
        return Failure(ContractFault);
      }
      var emitted := collected.value;
      var pairs: set<Pair> := {};
      if d.hitsSql.Some? {
        if feed.faults(RunHitsSql).Some? {
          return Failure(feed.faults(RunHitsSql).value);
        }
        var hits := CollectSessionHits(red, feed.hitRows, emitted);
        if hits.None? {
          return Failure(ContractFault);
        }
        pairs := hits.value;
      }
      r := Write(d, days, at, emitted, pairs, feed.faults);
    }

    method Write(d: Detector, days: int, at: int, emitted: seq<Emission>, pairs: set<Pair>,
                 faults: Statement -> Option<Fault>)
      returns (r: Result<nat, Fault>)
      requires DistinctKeys(emitted)
      modifies this`tables
      ensures r.Success? ==> Refreshes(old(tables), d, days, emitted, pairs, at, tables) && r.value == |emitted|
      ensures r.Failure? ==> exists s :: faults(s) == Some(r.error)
    {
      if faults(SelectOpen).Some? {
        return Failure(faults(SelectOpen).value);
      }
      var openKeys := OpenKeys(tables.clusters, d.id);
      var fault := UpsertAll(d.id, days, emitted, faults);
      if fault.Some? {
        return Failure(fault.value);
      }
      ghost var middle := tables.clusters;
      fault := DeleteAll(d.id, openKeys - (set e | e in emitted :: e.key), faults);
      if fault.Some? {
        return Failure(fault.value);
      }
      UpsertThenDelete(old(tables).clusters, d.id, days, emitted, middle, tables.clusters);
      fault := ReplaceHits(d.id, pairs, faults);
      if fault.Some? {
        return Failure(fault.value);
      }
      if faults(RecordRun).Some? {
        return Failure(faults(RecordRun).value);
      }
      var k := (d.id, d.version);
      tables := tables.(runs := tables.runs[k := Recorded(Get(tables.runs, k), tables.weeklyColumn, d, at, |emitted|,
                                                          days)]);
      if faults(AggregateWeeks).Some? {
        return Failure(faults(AggregateWeeks).value);
      }
      return Success(|emitted|);
    }

    /** `_run_one`, in its own transaction or in a savepoint of the caller's. */
    method RunOne(red: Redactor, d: Detector, days: int, at: int, feed: Feed) returns (r: Result<nat, Fault>)
      requires feed.Shaped()
      modifies this
      ensures saved == old(saved)
      ensures r.Success? ==>
                && Committed(red, old(tables), d, days, at, feed, tables)
                && r.value == |Collected(red, feed.clusterRows)|
      ensures r.Failure? ==> tables == old(tables)
      ensures r.Failure? ==> !Sound(red, d, feed) || !feed.Undisturbed()
    {
      if feed.faults(Begin).Some? {
        return Failure(feed.faults(Begin).value);
      }
      saved := saved + [tables];
      r := Refresh(red, d, days, at, feed);
      if r.Success? && feed.faults(Commit).Some? {
        r := Failure(feed.faults(Commit).value);
      }
      if r.Failure? {
        tables := saved[|saved| - 1];
      }
      saved := saved[..|saved| - 1];
    }

    /** `_record_failure`: best effort, so a failing update leaves everything as it was. */
    method RecordFailure(d: Detector, at: int, error: string, status: RunStatus, fails: bool)
      modifies this
      ensures saved == old(saved)
      ensures tables == if fails then old(tables) else Noted(old(tables), d, at, error, status)
    {
      saved := saved + [tables];
      tables := Noted(tables, d, at, error, status);
      if fails {
        tables := saved[|saved| - 1];
      }
      saved := saved[..|saved| - 1];
    }
  }

  lemma OneMoreRow(id: string, pairs: set<Pair>, rest: set<Pair>, p: Pair)
    requires p in rest && rest <= pairs
    ensures HitRows(id, pairs - (rest - {p})) == HitRows(id, pairs - rest) + {Hit(id, p.0, p.1)}
  {
    assert pairs - (rest - {p}) == (pairs - rest) + {p};
  }

  // ---------------------------------------------------------------------
  // A run over the registry
  // ---------------------------------------------------------------------

  datatype Outcome = Ran(clusters: nat) | Errored(fault: Fault) | RefusedFor(drift: Drift) | SkippedFor(reason: string)

  /** What a run is given besides the detectors: windows, skips, the clock, and how failures are worded. */
  datatype Setting = Setting(
    red: Redactor,
    windowOf: string -> int,
    skip: map<string, string>,
    now: int,
    driftText: (Detector, Drift) -> string,
    faultText: Fault -> string)

  function NotedUnless(fails: bool, t: Tables, d: Detector, at: int, error: string, status: RunStatus): Tables {
    if fails then t else Noted(t, d, at, error, status)
  }

  /** One detector of a run: skipped, refused, errored or committed. */
  ghost predicate Step(setting: Setting, t: Tables, d: Detector, feed: Feed, outcome: Outcome, t': Tables)
    requires feed.Shaped()
  {
    match outcome
    case SkippedFor(reason) => Get(setting.skip, d.id) == Some(reason) && t' == t
    case RefusedFor(drift) =>
      && d.id !in setting.skip && DriftOf(t, d) == Some(drift)
      && t' == NotedUnless(feed.recordFails, t, d, setting.now, setting.driftText(d, drift), RunRefused)
    case Errored(fault) =>
      && d.id !in setting.skip && DriftOf(t, d).None? && !fault.OtherFault?
      && (!Sound(setting.red, d, feed) || !feed.Undisturbed())
      && t' == NotedUnless(feed.recordFails, t, d, setting.now, setting.faultText(fault), RunError)
    case Ran(n) =>
      && d.id !in setting.skip && DriftOf(t, d).None?
      && Committed(setting.red, t, d, setting.windowOf(d.id), setting.now, feed, t')
      && n == |Collected(setting.red, feed.clusterRows)|
  }

  ghost predicate AllShaped(feeds: string -> Feed) {
    forall id :: feeds(id).Shaped()
  }

  /** The tables before, between and after the detectors of a run. */
  ghost predicate Traced(setting: Setting, ds: seq<Detector>, feeds: string -> Feed, outcomes: seq<Outcome>,
                         trace: seq<Tables>)
    requires AllShaped(feeds)
  {
    && |trace| == |outcomes| + 1 && |outcomes| <= |ds|
    && forall i :: 0 <= i < |outcomes| ==> Step(setting, trace[i], ds[i], feeds(ds[i].id), outcomes[i], trace[i + 1])
  }

  lemma OneMoreStep(setting: Setting, ds: seq<Detector>, feeds: string -> Feed, outcomes: seq<Outcome>,
                    trace: seq<Tables>,
                    outcome: Outcome, t: Tables)
    requires AllShaped(feeds) && Traced(setting, ds, feeds, outcomes, trace) && |outcomes| < |ds|
    requires var d := ds[|outcomes|]; Step(setting, trace[|outcomes|], d, feeds(d.id), outcome, t)
    ensures Traced(setting, ds, feeds, outcomes + [outcome], trace + [t])
  {}

  /** One detector; a failure here is an exception the loop does not isolate. */
  method HandleDetector(c: Connection, setting: Setting, d: Detector, feed: Feed) returns (r: Result<Outcome, Fault>)
    requires feed.Shaped()
    modifies c
    ensures c.saved == old(c.saved)
    ensures r.Success? ==> Step(setting, old(c.tables), d, feed, r.value, c.tables)
    ensures r.Failure? ==> r.error.OtherFault? && c.tables == old(c.tables)
  {
    if d.id in setting.skip {
      return Success(SkippedFor(setting.skip[d.id]));
    }
    var drift := DriftOf(c.tables, d);
    if drift.Some? {
      c.RecordFailure(d, setting.now, setting.driftText(d, drift.value), RunRefused, feed.recordFails);
      return Success(RefusedFor(drift.value));
    }
    var ran := c.RunOne(setting.red, d, setting.windowOf(d.id), setting.now, feed);
    if ran.Success? {
      return Success(Ran(ran.value));
    }
    if ran.error.OtherFault? {
      return Failure(ran.error);
    }
    c.RecordFailure(d, setting.now, setting.faultText(ran.error), RunError, feed.recordFails);
    return Success(Errored(ran.error));
  }

  /** The loop of `run_detectors` over the active detectors. */
  method RunActive(c: Connection, setting: Setting, ds: seq<Detector>, feeds: string -> Feed)
    returns (r: Result<seq<Outcome>, Fault>, ghost done: seq<Outcome>, ghost trace: seq<Tables>)
    requires AllShaped(feeds)
    modifies c
    ensures c.saved == old(c.saved)
    ensures Traced(setting, ds, feeds, done, trace) && trace[0] == old(c.tables) && trace[|done|] == c.tables
    ensures r.Success? ==> r.value == done && |done| == |ds|
    ensures r.Failure? ==> r.error.OtherFault? && |done| < |ds|
  {
    var outcomes: seq<Outcome> := [];
    trace := [c.tables];
    done := outcomes;
    for i := 0 to |ds|
      invariant c.saved == old(c.saved)
      invariant |outcomes| == i && done == outcomes
      invariant Traced(setting, ds, feeds, outcomes, trace) && trace[0] == old(c.tables) && trace[i] == c.tables
    {
      var outcome := HandleDetector(c, setting, ds[i], feeds(ds[i].id));
      if outcome.Failure? {
        return Failure(outcome.error), done, trace;
      }
      OneMoreStep(setting, ds, feeds, outcomes, trace, outcome.value, c.tables);
      outcomes := outcomes + [outcome.value];
      done := outcomes;
      trace := trace + [c.tables];
    }
    return Success(outcomes), done, trace;
  }

  // ---------------------------------------------------------------------
  // Choosing the active detectors
  // ---------------------------------------------------------------------

  function Named(registry: seq<Detector>, name: string): (d: Option<Detector>)
    ensures d.Some? ==> d.value in registry && d.value.id == name
    ensures d.None? ==> forall i :: 0 <= i < |registry| ==> registry[i].id != name
  {
    if registry == [] then None
    else if registry[0].id == name then Some(registry[0])
    else
      var d := Named(registry[1..], name);
      assert forall i :: 0 < i < |registry| ==> registry[i] == registry[1..][i - 1];
      d
  }

  function Ids(ds: seq<Detector>): set<string> {
    set i | 0 <= i < |ds| :: ds[i].id
  }

  lemma IdsSnoc(ds: seq<Detector>, d: Detector)
    ensures Ids(ds + [d]) == Ids(ds) + {d.id}
  {
    var all := ds + [d];
    assert all[|ds|] == d;
    assert forall i :: 0 <= i < |ds| ==> all[i] == ds[i];
  }

  function Elements(names: seq<string>): set<string> {
    set i | 0 <= i < |names| :: names[i]
  }

  lemma ElementsSnoc(names: seq<string>, i: nat)
    requires i < |names|
    ensures Elements(names[..i + 1]) == Elements(names[..i]) + {names[i]}
  {
    assert names[..i + 1][i] == names[i];
    assert forall k :: 0 <= k < i ==> names[..i + 1][k] == names[..i][k];
  }

  /** `select_detectors`: each named detector once, in the order first named; an unknown name is an error. */
  method SelectDetectors(registry: seq<Detector>, names: seq<string>) returns (r: Option<seq<Detector>>)
    ensures r.None? <==> exists i :: 0 <= i < |names| && Named(registry, names[i]).None?
    ensures r.Some? ==> DistinctIds(r.value)
    ensures r.Some? ==> forall d :: d in r.value ==> d in registry
    ensures r.Some? ==> Ids(r.value) == Elements(names)
  {
    var chosen: seq<Detector> := [];
    for i := 0 to |names|
      invariant DistinctIds(chosen) && forall d :: d in chosen ==> d in registry
      invariant forall k :: 0 <= k < i ==> Named(registry, names[k]).Some?
      invariant Ids(chosen) == Elements(names[..i])
    {
      var d := Named(registry, names[i]);
      if d.None? {
        return None;
      }
      ElementsSnoc(names, i);
      if exists k :: 0 <= k < |chosen| && chosen[k].id == names[i] {
        assert names[i] in Ids(chosen);
      } else {
        IdsSnoc(chosen, d.value);
        chosen := chosen + [d.value];
      }
    }
    assert names[..|names|] == names;
    return Some(chosen);
  }

  datatype RunFailure = BadWindow | BadRegistry | UnknownDetector | Aborted(fault: Fault)

  /** `run_detectors`. `wasteFault` is the weekly attribution at the end, which touches none of these tables. */
  method RunDetectors(c: Connection, setting: Setting, windowDays: int, registry: seq<Detector>,
                      acceptable: Detector -> bool,
                      only: seq<string>, feeds: string -> Feed, wasteFault: Option<Fault>)
    returns (r: Result<seq<Outcome>, RunFailure>, ghost active: seq<Detector>, ghost done: seq<Outcome>,
             ghost trace: seq<Tables>)
    requires AllShaped(feeds)
    modifies c
    ensures c.saved == old(c.saved)
    ensures r.Success? ==>
              && DistinctIds(active) && |done| == |active| && r.value == done
              && (if only == [] then active == registry else Ids(active) == Elements(only))
    ensures r.Success? || (r.error.Aborted?) ==>
              DistinctIds(active) && Traced(setting, active, feeds, done, trace)
              && trace[0] == old(c.tables) && trace[|done|] == c.tables
    ensures r.Failure? && !r.error.Aborted? ==> c.tables == old(c.tables)
  {
    active, done, trace := [], [], [c.tables];
    if windowDays < 1 {
      r := Failure(BadWindow);
      return;
    }
    var built := BuildRegistry(registry, acceptable);
    if built.None? {
      r := Failure(BadRegistry);
      return;
    }
    var chosen := built.value;
    if only != [] {
      var selected := SelectDetectors(chosen, only);
      if selected.None? {
        r := Failure(UnknownDetector);
        return;
      }
      chosen := selected.value;
    }
    active := chosen;
    var ran;
    ran, done, trace := RunActive(c, setting, chosen, feeds);
    if ran.Failure? {
      r := Failure(Aborted(ran.error));
    } else if wasteFault.Some? {
      r := Failure(Aborted(wasteFault.value));
    } else {
      r := Success(ran.value);
    }
  }
}
