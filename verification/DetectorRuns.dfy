/**
  What detector runs keep, over one run and over any history of runs and
  reviews: isolation, the open set, review state, session hits, and hashes
  that are written once.
 */
module DetectorRuns {
  import opened Prelude
  import opened Detectors
  import opened DetectorRunner

  // ---------------------------------------------------------------------
  // One detector's part of the tables
  // ---------------------------------------------------------------------

  ghost predicate SameClusters(t: Tables, t': Tables, id: string) {
    forall k: ClusterKey :: k.0 == id ==> Get(t'.clusters, k) == Get(t.clusters, k)
  }

  function HitsOf(t: Tables, id: string): set<Hit> {
    set h | h in t.hits && h.detector == id
  }

  ghost predicate Untouched(t: Tables, t': Tables, id: string) {
    SameClusters(t, t', id) && HitsOf(t', id) == HitsOf(t, id)
  }

  /** A detector that did not commit leaves every cluster and hit, and a commit leaves the other detectors'. */
  lemma StepIsolates(setting: Setting, t: Tables, d: Detector, feed: Feed, outcome: Outcome, t': Tables, id: string)
    requires feed.Shaped() && Step(setting, t, d, feed, outcome, t')
    requires !outcome.Ran? || id != d.id
    ensures Untouched(t, t', id)
  {
    if outcome.Ran? {
      forall k: ClusterKey | k.0 == id ensures Get(t'.clusters, k) == Get(t.clusters, k) {
        assert Get(t'.clusters, k) ==
               ClusterAfter(t.clusters, d.id, setting.windowOf(d.id), Collected(setting.red, feed.clusterRows), k);
      }
      assert forall h ::
          h in HitsAfter(t.hits, d.id, Pairs(setting.red, d, feed)) && h.detector == id <==> h in HitsOf(t, id);
    }
  }

  lemma {:induction false} RunIsolates(setting: Setting, ds: seq<Detector>, feeds: string -> Feed,
                                       outcomes: seq<Outcome>,
                                       trace: seq<Tables>, first: nat, last: nat, id: string)
    requires AllShaped(feeds) && Traced(setting, ds, feeds, outcomes, trace) && first <= last <= |outcomes|
    requires forall i :: first <= i < last ==> !outcomes[i].Ran? || ds[i].id != id
    ensures Untouched(trace[first], trace[last], id)
    decreases last
  {
    if first < last {
      RunIsolates(setting, ds, feeds, outcomes, trace, first, last - 1, id);
      StepIsolates(setting, trace[last - 1], ds[last - 1], feeds(ds[last - 1].id), outcomes[last - 1], trace[last], id);
    }
  }

  /** What the run left for detector `d`: its own refresh, of the tables as the run found them. */
  ghost predicate RefreshedFor(red: Redactor, t: Tables, d: Detector, days: int, feed: Feed, t': Tables)
    requires feed.Shaped()
  {
    && Sound(red, d, feed)
    && (forall k: ClusterKey :: k.0 == d.id ==>
          Get(t'.clusters, k) == ClusterAfter(t.clusters, d.id, days, Collected(red, feed.clusterRows), k))
    && HitsOf(t', d.id) == HitRows(d.id, Pairs(red, d, feed))
  }

  /** Over a whole run each detector's clusters and hits depend on its own outcome alone. */
  lemma EachDetectorStandsAlone(setting: Setting, ds: seq<Detector>, feeds: string -> Feed, outcomes: seq<Outcome>,
                                trace: seq<Tables>, i: nat)
    requires AllShaped(feeds) && DistinctIds(ds) && Traced(setting, ds, feeds, outcomes, trace) && i < |outcomes|
    ensures var d := ds[i];
            if outcomes[i].Ran? then
              RefreshedFor(setting.red, trace[0], d, setting.windowOf(d.id), feeds(d.id), trace[|outcomes|])
            else
              Untouched(trace[0], trace[|outcomes|], d.id)
  {
    var d := ds[i];
    assert forall j :: 0 <= j < |outcomes| && j != i ==> ds[j].id != d.id;
    RunIsolates(setting, ds, feeds, outcomes, trace, 0, i, d.id);
    RunIsolates(setting, ds, feeds, outcomes, trace, i + 1, |outcomes|, d.id);
    if outcomes[i].Ran? {
      RanRefreshes(setting, trace[0], trace[i], d, feeds(d.id), outcomes[i], trace[i + 1], trace[|outcomes|]);
    } else {
      StepIsolates(setting, trace[i], d, feeds(d.id), outcomes[i], trace[i + 1], d.id);
    }
  }

  lemma RanRefreshes(setting: Setting, start: Tables, t: Tables, d: Detector, feed: Feed, outcome: Outcome,
                     t': Tables, end: Tables)
    requires feed.Shaped() && outcome.Ran? && Step(setting, t, d, feed, outcome, t')
    requires Untouched(start, t, d.id) && Untouched(t', end, d.id)
    ensures RefreshedFor(setting.red, start, d, setting.windowOf(d.id), feed, end)
  {
    var days, emitted := setting.windowOf(d.id), Collected(setting.red, feed.clusterRows);
    forall k: ClusterKey | k.0 == d.id
      ensures Get(end.clusters, k) == ClusterAfter(start.clusters, d.id, days, emitted, k)
    {
      assert Get(end.clusters, k) == Get(t'.clusters, k) == ClusterAfter(t.clusters, d.id, days, emitted, k);
    }
    assert HitsOf(t', d.id) == HitRows(d.id, Pairs(setting.red, d, feed));
  }

  // ---------------------------------------------------------------------
  // What a committed refresh means
  // ---------------------------------------------------------------------

  ghost predicate Reviewed(t: Tables, k: ClusterKey) {
    k in t.clusters && !t.clusters[k].state.Open?
  }

  /** The open keys are the emitted keys that nobody had reviewed. */
  lemma OpenKeysAreEmittedOnes(red: Redactor, t: Tables, d: Detector, days: int, feed: Feed, t': Tables, key: string)
    requires feed.Shaped() && RefreshedFor(red, t, d, days, feed, t')
    ensures key in OpenKeys(t'.clusters, d.id)
            <==> Emits(Collected(red, feed.clusterRows), key) && !Reviewed(t, (d.id, key))
  {
    var k := (d.id, key);
    assert Get(t'.clusters, k) == ClusterAfter(t.clusters, d.id, days, Collected(red, feed.clusterRows), k);
    assert key in OpenKeys(t'.clusters, d.id) <==> k in t'.clusters && t'.clusters[k].state.Open? by {
      assert k == (d.id, key);
    }
  }

  /** A row that was there keeps score, cover and review state; it goes only when open and not emitted. */
  lemma ReviewSurvives(red: Redactor, t: Tables, d: Detector, days: int, feed: Feed, t': Tables, key: string)
    requires feed.Shaped() && RefreshedFor(red, t, d, days, feed, t') && (d.id, key) in t.clusters
    ensures var k := (d.id, key);
            && ((d.id, key) in t'.clusters <==> Reviewed(t, k) || Emits(Collected(red, feed.clusterRows), key))
            && (k in t'.clusters ==> SameReview(t.clusters[k], t'.clusters[k]))
  {
    var k := (d.id, key);
    assert Get(t'.clusters, k) == ClusterAfter(t.clusters, d.id, days, Collected(red, feed.clusterRows), k);
  }

  predicate SameReview(c: Cluster, c': Cluster) {
    c'.state == c.state && c'.coveredBy == c.coveredBy && c'.score == c.score
  }

  function HitsOfKey(t: Tables, id: string, key: string): set<Hit> {
    set h | h in t.hits && h.detector == id && h.key == key
  }

  /** An emitted key has the counts that were emitted and, given hit SQL, exactly that many stored sessions. */
  lemma EmittedKeysAreCounted(red: Redactor, t: Tables, d: Detector, days: int, feed: Feed, t': Tables, i: nat)
    requires feed.Shaped() && RefreshedFor(red, t, d, days, feed, t')
    requires i < |Collected(red, feed.clusterRows)|
    ensures var e := Collected(red, feed.clusterRows)[i];
            && (d.id, e.key) in t'.clusters
            && t'.clusters[(d.id, e.key)].sessions == e.sessions
            && t'.clusters[(d.id, e.key)].events == e.events
            && |HitsOfKey(t', d.id, e.key)| == if d.hitsSql.Some? then e.sessions else 0
  {
    var emitted := Collected(red, feed.clusterRows);
    var e := emitted[i];
    var k := (d.id, e.key);
    assert Get(t'.clusters, k) == ClusterAfter(t.clusters, d.id, days, emitted, k);
    LookupFinds(emitted, i);
    var pairs := Pairs(red, d, feed);
    assert HitsOfKey(t', d.id, e.key) == set h | h in HitsOf(t', d.id) && h.key == e.key;
    assert HitsOfKey(t', d.id, e.key) == HitRows(d.id, HitsFor(pairs, e.key));
    SameSize(d.id, HitsFor(pairs, e.key), HitsOfKey(t', d.id, e.key));
    if d.hitsSql.Some? {
      assert HitsFor(pairs, e.key) == HitsFor(HitsIn(red, feed.hitRows, |feed.hitRows.rows|), e.key);
    }
  }

  lemma {:induction false} LookupFinds(emitted: seq<Emission>, i: nat)
    requires DistinctKeys(emitted) && i < |emitted|
    ensures Lookup(emitted, emitted[i].key) == Some(emitted[i])
  {
    var e := Lookup(emitted, emitted[i].key).value;
    var j :| 0 <= j < |emitted| && emitted[j] == e;
  }

  lemma {:induction false} SameSize(id: string, pairs: set<Pair>, hits: set<Hit>)
    requires hits == HitRows(id, pairs)
    ensures |hits| == |pairs|
    decreases pairs
  {
    if pairs != {} {
      var p :| p in pairs;
      SameSize(id, pairs - {p}, hits - {Hit(id, p.0, p.1)});
    }
  }

  // ---------------------------------------------------------------------
  // Any history of runs, reviews and migration
  // ---------------------------------------------------------------------

  datatype Event =
    | Detected(setting: Setting, detector: Detector, feed: Feed, outcome: Outcome)
    | ReviewChanged
    | Migrated

  /** Drafting, covering, scoring and dismissing change review fields and no row's existence. */
  ghost predicate OnlyReview(t: Tables, t': Tables) {
    && t'.clusters.Keys == t.clusters.Keys
    && (forall k :: k in t.clusters ==>
          t'.clusters[k].(state := t.clusters[k].state, coveredBy := t.clusters[k].coveredBy,
                          score := t.clusters[k].score)
          == t.clusters[k])
    && t'.hits == t.hits && t'.runs == t.runs && t'.weeklyColumn == t.weeklyColumn
  }

  ghost predicate Happens(t: Tables, e: Event, t': Tables) {
    match e
    case Detected(setting, d, feed, outcome) => feed.Shaped() && Step(setting, t, d, feed, outcome, t')
    case ReviewChanged => OnlyReview(t, t')
    case Migrated => t' == t.(weeklyColumn := true)
  }

  ghost predicate History(events: seq<Event>, states: seq<Tables>) {
    && |states| == |events| + 1
    && forall i :: 0 <= i < |events| ==> Happens(states[i], events[i], states[i + 1])
  }

  ghost predicate Sticks(a: Option<Digest>, b: Option<Digest>) {
    a.Some? ==> b == a
  }

  ghost predicate RecordKept(r: RunRecord, s: RunRecord) {
    && s.semantics == r.semantics && s.firstRunAt == r.firstRunAt
    && Sticks(r.attribution, s.attribution) && Sticks(r.backtest, s.backtest) && Sticks(r.weekly, s.weekly)
  }

  ghost predicate HashesKept(t: Tables, t': Tables) {
    && (t.weeklyColumn ==> t'.weeklyColumn)
    && forall k :: k in t.runs ==> k in t'.runs && RecordKept(t.runs[k], t'.runs[k])
  }

  lemma EventKeepsHashes(t: Tables, e: Event, t': Tables)
    requires Happens(t, e, t')
    ensures HashesKept(t, t')
  {
    if e.Detected? {
      var k := (e.detector.id, e.detector.version);
      forall q | q in t.runs ensures q in t'.runs && RecordKept(t.runs[q], t'.runs[q]) {
        if q != k {
          assert t'.runs[q] == t.runs[q];
        }
      }
    }
  }

  /** Once stored, the four hashes of a (detector, version) never change. */
  lemma {:induction false} HashesAreWrittenOnce(events: seq<Event>, states: seq<Tables>, i: nat, j: nat)
    requires History(events, states) && i <= j <= |events|
    ensures HashesKept(states[i], states[j])
    decreases j
  {
    if i < j {
      HashesAreWrittenOnce(events, states, i, j - 1);
      EventKeepsHashes(states[j - 1], events[j - 1], states[j]);
    }
  }

  predicate Commits(e: Event) {
    e.Detected? && e.outcome.Ran?
  }

  /** A commit leaves the record stamped with the detector's own hashes. */
  ghost predicate Stamped(r: RunRecord, d: Detector, weeklyColumn: bool) {
    && r.semantics == d.Semantics()
    && (d.hitsSql.Some? ==> r.attribution == d.Attribution())
    && (d.weekSql.Some? ==> r.backtest == d.Backtest())
    && (weeklyColumn && d.weeklySql.Some? ==> r.weekly == d.Weekly())
  }

  lemma CommitIsStamped(t: Tables, e: Event, t': Tables)
    requires Happens(t, e, t') && Commits(e)
    ensures (e.detector.id, e.detector.version) in t'.runs
    ensures Stamped(t'.runs[(e.detector.id, e.detector.version)], e.detector, t.weeklyColumn)
  {}

  /** Clusters change only in a commit, so only under the semantics hash then on record. */
  lemma ClustersNeedTheStoredHash(t: Tables, e: Event, t': Tables)
    requires Happens(t, e, t') && (t'.clusters.Keys != t.clusters.Keys || t'.hits != t.hits)
    ensures Commits(e)
    ensures var k := (e.detector.id, e.detector.version);
            && k in t'.runs && t'.runs[k].semantics == e.detector.Semantics()
            && (k in t.runs ==> t.runs[k].semantics == e.detector.Semantics())
  {}

  /** Two commits of one detector version, however far apart, ran the same SQL. */
  lemma OneVersionOneMeaning(events: seq<Event>, states: seq<Tables>, i: nat, j: nat)
    requires History(events, states) && i < j < |events| && Commits(events[i]) && Commits(events[j])
    requires events[i].detector.id == events[j].detector.id && events[i].detector.version == events[j].detector.version
    ensures var d, e := events[i].detector, events[j].detector;
            && e.clusterSql == d.clusterSql
            && (d.hitsSql.Some? ==> e.hitsSql == d.hitsSql)
            && (d.weekSql.Some? ==> e.weekSql == d.weekSql)
            && (states[i].weeklyColumn && d.weeklySql.Some? ==> e.weeklySql == d.weeklySql)
  {
    var d, e := events[i].detector, events[j].detector;
    var k := (d.id, d.version);
    CommitIsStamped(states[i], events[i], states[i + 1]);
    HashesAreWrittenOnce(events, states, i + 1, j);
    EventKeepsHashes(states[i], events[i], states[i + 1]);
    assert Happens(states[j], events[j], states[j + 1]);
    assert DriftOf(states[j], e).None?;
    var r := states[j].runs[k];
    assert r.semantics == d.Semantics();
  }

  /** A version that has never committed has no record, whatever failures it had. */
  lemma {:induction false} RecordsComeFromCommits(events: seq<Event>, states: seq<Tables>, n: nat, k: RunKey)
    requires History(events, states) && n <= |events| && k in states[n].runs
    ensures k in states[0].runs
            || exists i :: 0 <= i < n && Commits(events[i]) && (events[i].detector.id, events[i].detector.version) == k
    decreases n
  {
    if n > 0 && k in states[n - 1].runs {
      RecordsComeFromCommits(events, states, n - 1, k);
    } else if n > 0 {
      assert Happens(states[n - 1], events[n - 1], states[n]);
      assert Commits(events[n - 1]);
    }
  }

  // ---------------------------------------------------------------------
  // Hits always belong to a cluster
  // ---------------------------------------------------------------------

  ghost predicate HitsHaveClusters(t: Tables) {
    forall h :: h in t.hits ==> (h.detector, h.key) in t.clusters
  }

  lemma EventKeepsHitsWhole(t: Tables, e: Event, t': Tables)
    requires Happens(t, e, t') && HitsHaveClusters(t)
    ensures HitsHaveClusters(t')
  {
    if Commits(e) {
      var d, days := e.detector, e.setting.windowOf(e.detector.id);
      var emitted := Collected(e.setting.red, e.feed.clusterRows);
      forall h | h in t'.hits ensures (h.detector, h.key) in t'.clusters {
        var k := (h.detector, h.key);
        assert Get(t'.clusters, k) == ClusterAfter(t.clusters, d.id, days, emitted, k);
        if h.detector == d.id {
          var p :| p in Pairs(e.setting.red, d, e.feed) && h == Hit(d.id, p.0, p.1);
          assert Emits(emitted, h.key);
        }
      }
    }
  }

  /** No history leaves a session hit without its cluster. */
  lemma {:induction false} HitsAlwaysHaveClusters(events: seq<Event>, states: seq<Tables>, n: nat)
    requires History(events, states) && n <= |events| && HitsHaveClusters(states[0])
    ensures HitsHaveClusters(states[n])
    decreases n
  {
    if n > 0 {
      HitsAlwaysHaveClusters(events, states, n - 1);
      EventKeepsHitsWhole(states[n - 1], events[n - 1], states[n]);
    }
  }

  /** A reviewed row outlives every run that follows, in the state review left it. */
  lemma {:induction false} ReviewOutlivesRuns(events: seq<Event>, states: seq<Tables>, i: nat, j: nat, k: ClusterKey)
    requires History(events, states) && i <= j <= |events| && Reviewed(states[i], k)
    requires forall n :: i <= n < j ==> !events[n].ReviewChanged?
    ensures Reviewed(states[j], k) && SameReview(states[i].clusters[k], states[j].clusters[k])
    decreases j
  {
    if i < j {
      ReviewOutlivesRuns(events, states, i, j - 1, k);
      var t, e, t' := states[j - 1], events[j - 1], states[j];
      assert Happens(t, e, t');
      if Commits(e) {
        assert Get(t'.clusters, k) == ClusterAfter(t.clusters, e.detector.id, e.setting.windowOf(e.detector.id),
                                                   Collected(e.setting.red, e.feed.clusterRows), k);
      }
    }
  }
}
