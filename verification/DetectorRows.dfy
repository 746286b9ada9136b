/**
  What a run leaves in the tables, told from the cells its SQL answered with
  and from the record before it.
 */
module DetectorRows {
  import opened Prelude
  import opened Detectors
  import opened DetectorRunner
  import opened DetectorRuns

  // ---------------------------------------------------------------------
  // Clusters
  // ---------------------------------------------------------------------

  /** The stored cluster has the counts and times in the cells of a row that says its key. */
  ghost predicate StoresRow(red: Redactor, t: Answer, i: nat, key: string, c: Cluster)
    requires t.Shaped() && i < |t.rows|
  {
    RowSays(red, t.columns, t.rows[i], Emission(key, c.sessions, c.events, c.firstSeen, c.lastSeen))
  }

  ghost predicate RowSaysKey(red: Redactor, t: Answer, i: nat, key: string)
    requires t.Shaped() && i < |t.rows|
  {
    forall j: nat :: Names(t.columns, j, "key") ==> SaysKey(red, t.rows[i][j], key)
  }

  /** After a commit every row of the answer is stored under the key it says, its cells in their own columns. */
  lemma RowsAreStored(red: Redactor, t: Tables, d: Detector, days: int, at: int, feed: Feed, t': Tables, i: nat,
                      key: string)
    requires feed.Shaped() && Committed(red, t, d, days, at, feed, t') && i < |feed.clusterRows.rows|
    requires RowSaysKey(red, feed.clusterRows, i, key)
    ensures (d.id, key) in t'.clusters
    ensures StoresRow(red, feed.clusterRows, i, key, t'.clusters[(d.id, key)])
    ensures t'.clusters[(d.id, key)].windowDays == days
    ensures (d.id, key) !in t.clusters ==>
              var c := t'.clusters[(d.id, key)]; c.state.Open? && c.coveredBy.None? && c.score == 0.0
  {
    hide RowSays, RowSaysKey;
    var emitted := Collected(red, feed.clusterRows);
    CollectedExactly(red, feed.clusterRows, emitted);
    KeyOfRow(red, feed.clusterRows, emitted, i, key);
    LookupFinds(emitted, i);
    var k := (d.id, key);
    assert Get(t'.clusters, k) == ClusterAfter(t.clusters, d.id, days, emitted, k);
  }

  lemma KeyOfRow(red: Redactor, t: Answer, emitted: seq<Emission>, i: nat, key: string)
    requires t.Shaped() && AnswerSays(red, t, emitted) && i < |t.rows|
    requires RowSaysKey(red, t, i, key)
    ensures emitted[i].key == key
  {
    hide SaysKey, Names;
    var j := NamedColumn(t.columns, t.rows[i], "key");
    NamedInside(t.columns, j, "key");
    assert RowSays(red, t.columns, t.rows[i], emitted[i]);
    OneKey(red, t.rows[i][j], key, emitted[i].key);
  }

  lemma OneKey(red: Redactor, cell: Cell, a: string, b: string)
    requires SaysKey(red, cell, a) && SaysKey(red, cell, b)
    ensures a == b
  {
    KeyIsSaid(red, cell, a);
    KeyIsSaid(red, cell, b);
  }

  /** What a commit puts in the table, or changes there, is a row of the answer. */
  lemma OnlyRowsAreStored(red: Redactor, t: Tables, d: Detector, days: int, at: int, feed: Feed, t': Tables,
                          k: ClusterKey)
    requires feed.Shaped() && Committed(red, t, d, days, at, feed, t')
    requires k in t'.clusters && Get(t'.clusters, k) != Get(t.clusters, k)
    ensures k.0 == d.id
    ensures exists i :: 0 <= i < |feed.clusterRows.rows| && StoresRow(red, feed.clusterRows, i, k.1, t'.clusters[k])
  {
    hide RowSays;
    var emitted := Collected(red, feed.clusterRows);
    CollectedExactly(red, feed.clusterRows, emitted);
    assert Get(t'.clusters, k) == ClusterAfter(t.clusters, d.id, days, emitted, k);
    var e := Lookup(emitted, k.1);
    assert e.Some?;
    var i :| 0 <= i < |emitted| && emitted[i] == e.value;
    var c := t'.clusters[k];
    assert e.value == Emission(k.1, c.sessions, c.events, c.firstSeen, c.lastSeen);
    assert StoresRow(red, feed.clusterRows, i, k.1, c);
  }

  // ---------------------------------------------------------------------
  // Hits
  // ---------------------------------------------------------------------

  /** The keys emitted are the ones rows say. */
  lemma EmittedIsSaid(red: Redactor, t: Answer, emitted: seq<Emission>, key: string)
    requires t.Shaped() && AnswerSays(red, t, emitted)
    ensures Emits(emitted, key) <==> exists i :: 0 <= i < |t.rows| && RowSaysKey(red, t, i, key)
  {
    hide SaysKey, Names;
    if i :| 0 <= i < |t.rows| && RowSaysKey(red, t, i, key) {
      KeyOfRow(red, t, emitted, i, key);
    }
    if k :| 0 <= k < |emitted| && emitted[k].key == key {
      RowSaysItsKey(red, t, k, emitted[k]);
    }
  }

  lemma RowSaysItsKey(red: Redactor, t: Answer, i: nat, e: Emission)
    requires t.Shaped() && i < |t.rows| && RowSays(red, t.columns, t.rows[i], e)
    ensures RowSaysKey(red, t, i, e.key)
  {
    hide SaysKey;
  }

  /** A hit is stored exactly when hit SQL ran, a row of its answer says it, and a row of the clusters says its key. */
  lemma HitsAreStored(red: Redactor, t: Tables, d: Detector, days: int, at: int, feed: Feed, t': Tables, h: Pair)
    requires feed.Shaped() && Committed(red, t, d, days, at, feed, t')
    ensures Hit(d.id, h.0, h.1) in t'.hits
            <==> && d.hitsSql.Some? && HitSaid(red, feed.hitRows, h)
                 && exists i :: 0 <= i < |feed.clusterRows.rows| && RowSaysKey(red, feed.clusterRows, i, h.0)
  {
    hide HitSaid, AllSayHits, RowSaysKey;
    var emitted := Collected(red, feed.clusterRows);
    CollectedExactly(red, feed.clusterRows, emitted);
    EmittedIsSaid(red, feed.clusterRows, emitted, h.0);
    if d.hitsSql.Some? {
      HitsCollectedExactly(red, feed.hitRows, emitted, CollectedHits(red, feed.hitRows, emitted));
    }
    assert Hit(d.id, h.0, h.1) in t'.hits <==> h in Pairs(red, d, feed) by {
      assert h == (h.0, h.1);
    }
  }

  // ---------------------------------------------------------------------
  // The run record
  // ---------------------------------------------------------------------

  /** A commit records the time, the window, how many rows, that it went well, and when the first one did. */
  lemma CommitIsRecorded(red: Redactor, t: Tables, d: Detector, days: int, at: int, feed: Feed, t': Tables)
    requires feed.Shaped() && Committed(red, t, d, days, at, feed, t')
    ensures var k := (d.id, d.version);
            && t'.runs.Keys == t.runs.Keys + {k}
            && (forall q :: q in t.runs && q != k ==> t'.runs[q] == t.runs[q])
            && t'.runs[k].status.RunOk? && t'.runs[k].error.None?
            && t'.runs[k].clusters == |feed.clusterRows.rows| && t'.runs[k].windowDays == days
            && t'.runs[k].lastRunAt == at
            && t'.runs[k].firstRunAt == (if k in t.runs then t.runs[k].firstRunAt else at)
  {}

  /** A refusal or an error touches no cluster and no hit, and at most marks the record there is. */
  lemma FailureOnlyMarks(setting: Setting, t: Tables, d: Detector, feed: Feed, outcome: Outcome, t': Tables)
    requires feed.Shaped() && Step(setting, t, d, feed, outcome, t') && (outcome.RefusedFor? || outcome.Errored?)
    ensures t'.clusters == t.clusters && t'.hits == t.hits && t'.runs.Keys == t.runs.Keys
    ensures forall q :: q in t.runs && q != (d.id, d.version) ==> t'.runs[q] == t.runs[q]
    ensures var k := (d.id, d.version);
            k in t.runs && !feed.recordFails ==>
              && t'.runs[k].lastRunAt == setting.now
              && t'.runs[k].status == (if outcome.Errored? then RunError else RunRefused)
              && t'.runs[k].error == Some(if outcome.Errored? then setting.faultText(outcome.fault)
                                          else setting.driftText(d, outcome.drift))
              && t'.runs[k].clusters == t.runs[k].clusters && t'.runs[k].semantics == t.runs[k].semantics
    ensures feed.recordFails ==> t' == t
  {}

  /** Which drift refuses a detector: the first of the four fingerprints on record that is not its own. */
  lemma RefusedForTheFirstDrift(setting: Setting, t: Tables, d: Detector, feed: Feed, drift: Drift, t': Tables)
    requires feed.Shaped() && Step(setting, t, d, feed, RefusedFor(drift), t')
    ensures (d.id, d.version) in t.runs
    ensures var r := t.runs[(d.id, d.version)];
            match drift
            case SemanticsDrift => r.semantics != Digest("sql", d.id, d.version, d.clusterSql)
            case AttributionDrift =>
              && r.semantics == Digest("sql", d.id, d.version, d.clusterSql)
              && r.attribution.Some? && r.attribution != d.Stamp("hits_sql", d.hitsSql)
            case BacktestDrift =>
              && r.semantics == Digest("sql", d.id, d.version, d.clusterSql)
              && (r.attribution.Some? ==> r.attribution == d.Stamp("hits_sql", d.hitsSql))
              && r.backtest.Some? && r.backtest != d.Stamp("week_sql", d.weekSql)
            case WeeklyDrift =>
              && r.semantics == Digest("sql", d.id, d.version, d.clusterSql)
              && (r.attribution.Some? ==> r.attribution == d.Stamp("hits_sql", d.hitsSql))
              && (r.backtest.Some? ==> r.backtest == d.Stamp("week_sql", d.weekSql))
              && t.weeklyColumn && r.weekly.Some? && r.weekly != d.Stamp("weekly_sql", d.weeklySql)
  {}

  /** A detector runs, well or badly, only when no fingerprint on record differs from its own. */
  lemma RunsOnlyUndrifted(setting: Setting, t: Tables, d: Detector, feed: Feed, outcome: Outcome, t': Tables)
    requires feed.Shaped() && Step(setting, t, d, feed, outcome, t') && (outcome.Ran? || outcome.Errored?)
    requires (d.id, d.version) in t.runs
    ensures var r := t.runs[(d.id, d.version)];
            && r.semantics == Digest("sql", d.id, d.version, d.clusterSql)
            && (r.attribution.Some? ==> r.attribution == d.Stamp("hits_sql", d.hitsSql))
            && (r.backtest.Some? ==> r.backtest == d.Stamp("week_sql", d.weekSql))
            && (t.weeklyColumn && r.weekly.Some? ==> r.weekly == d.Stamp("weekly_sql", d.weeklySql))
  {}
}
