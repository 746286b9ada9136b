/**
  What a detector run reads and writes (twill_detectors.py): the rows its SQL
  emits, validated and keyed, and the cluster, session-hit and run tables they
  refresh.
 */
module Detectors {
  import opened Prelude

  // ---------------------------------------------------------------------
  // A detector and its fingerprints
  // ---------------------------------------------------------------------

  /** SQL as its words: the fingerprints collapse whitespace. */
  type Sql = seq<string>

  /** SHA-256 of the canonical text, taken to be injective. */
  datatype Digest = Digest(purpose: string, detector: string, version: int, sql: Sql)

  datatype Detector = Detector(
    id: string,
    version: int,
    clusterSql: Sql,
    hitsSql: Option<Sql>,
    weekSql: Option<Sql>,
    weeklySql: Option<Sql>)
  {
    function Semantics(): Digest {
      Digest("sql", id, version, clusterSql)
    }

    function Attribution(): Option<Digest> {
      Stamp("hits_sql", hitsSql)
    }

    function Backtest(): Option<Digest> {
      Stamp("week_sql", weekSql)
    }

    function Weekly(): Option<Digest> {
      Stamp("weekly_sql", weeklySql)
    }

    function Stamp(purpose: string, sql: Option<Sql>): Option<Digest> {
      match sql
      case None => None
      case Some(words) => Some(Digest(purpose, id, version, words))
    }
  }

  ghost predicate DistinctIds(ds: seq<Detector>) {
    forall i, j :: 0 <= i < j < |ds| ==> ds[i].id != ds[j].id
  }

  /** `build_registry`: the set is taken exactly when every entry is acceptable and no id is used twice. */
  method BuildRegistry(ds: seq<Detector>, acceptable: Detector -> bool) returns (r: Option<seq<Detector>>)
    ensures r == if DistinctIds(ds) && (forall i :: 0 <= i < |ds| ==> acceptable(ds[i])) then Some(ds) else None
  {
    var seen: set<string> := {};
    for i := 0 to |ds|
      invariant DistinctIds(ds[..i]) && forall k :: 0 <= k < i ==> acceptable(ds[k])
      invariant forall id :: id in seen <==> exists k :: 0 <= k < i && ds[k].id == id
    {
      if !acceptable(ds[i]) {
        return None;
      }
      if ds[i].id in seen {
        return None;
      }
      seen := seen + {ds[i].id};
    }
    return Some(ds);
  }

  // ---------------------------------------------------------------------
  // Emitted rows
  // ---------------------------------------------------------------------

  datatype Cell = Text(text: string) | Whole(value: int) | OtherCell

  /** A cursor's column names and all its rows. */
  datatype Answer = Answer(columns: seq<string>, rows: seq<seq<Cell>>)
  {
    predicate Shaped() {
      forall i :: 0 <= i < |rows| ==> |rows[i]| == |columns|
    }

    predicate Has(names: seq<string>) {
      forall i :: 0 <= i < |names| ==> names[i] in columns
    }
  }

  /** Redaction, and the test for text that strips to nothing. */
  datatype Redactor = Redactor(redact: string -> string, blank: string -> bool)

  const MAX_KEY_LENGTH := 240
  const CLUSTER_COLUMNS := ["key", "sessions", "events", "first_seen", "last_seen"]
  const SESSION_HIT_COLUMNS := ["key", "session_id"]

  /** `dict(zip(columns, row))[name]`: of two columns with one name the later wins. */
  function Field(columns: seq<string>, row: seq<Cell>, name: string): Cell
    requires name in columns && |row| == |columns|
  {
    var last := |columns| - 1;
    if columns[last] == name then row[last] else Field(columns[..last], row[..last], name)
  }

  function EmittedKey(red: Redactor, cell: Cell): Option<string> {
    if !cell.Text? || red.blank(cell.text) then None
    else
      var redacted := red.redact(cell.text);
      var key := redacted[..Min(|redacted|, MAX_KEY_LENGTH)];
      if red.blank(key) then None else Some(key)
  }

  function EmittedSession(red: Redactor, cell: Cell): Option<string> {
    if !cell.Text? || red.blank(cell.text) then None
    else
      var session := red.redact(cell.text);
      if red.blank(session) then None else Some(session)
  }

  function EmittedCount(cell: Cell): Option<nat> {
    if cell.Whole? && cell.value >= 0 then Some(cell.value) else None
  }

  function EmittedTime(red: Redactor, cell: Cell): Option<string> {
    if cell.Text? && !red.blank(cell.text) then Some(cell.text) else None
  }

  datatype Emission = Emission(key: string, sessions: nat, events: nat, firstSeen: string, lastSeen: string)

  function ReadRow(red: Redactor, columns: seq<string>, row: seq<Cell>): Option<Emission>
    requires |row| == |columns| && forall i :: 0 <= i < |CLUSTER_COLUMNS| ==> CLUSTER_COLUMNS[i] in columns
  {
    ColumnsNamed(columns);
    var key := EmittedKey(red, Field(columns, row, "key"));
    var sessions := EmittedCount(Field(columns, row, "sessions"));
    var events := EmittedCount(Field(columns, row, "events"));
    var firstSeen := EmittedTime(red, Field(columns, row, "first_seen"));
    var lastSeen := EmittedTime(red, Field(columns, row, "last_seen"));
    if key.Some? && sessions.Some? && events.Some? && firstSeen.Some? && lastSeen.Some?
    then Some(Emission(key.value, sessions.value, events.value, firstSeen.value, lastSeen.value))
    else None
  }

  lemma ColumnsNamed(columns: seq<string>)
    requires forall i :: 0 <= i < |CLUSTER_COLUMNS| ==> CLUSTER_COLUMNS[i] in columns
    ensures "key" in columns && "sessions" in columns && "events" in columns
    ensures "first_seen" in columns && "last_seen" in columns
  {
    assert CLUSTER_COLUMNS[0] == "key" && CLUSTER_COLUMNS[1] == "sessions" && CLUSTER_COLUMNS[2] == "events";
    assert CLUSTER_COLUMNS[3] == "first_seen" && CLUSTER_COLUMNS[4] == "last_seen";
  }

  // --- what a row says, cell by cell -------------------------------------

  /** The column a name is read from: of several with that name the last. */
  ghost predicate Names(columns: seq<string>, j: nat, name: string) {
    j < |columns| && columns[j] == name && forall k :: j < k < |columns| ==> columns[k] != name
  }

  /** The cell says the key: text whose redaction, cut at 240, is the key, and neither is blank. */
  ghost predicate SaysKey(red: Redactor, cell: Cell, key: string) {
    && cell.Text? && !red.blank(cell.text) && !red.blank(key)
    && |key| == Min(|red.redact(cell.text)|, 240) && key <= red.redact(cell.text)
  }

  ghost predicate SaysTime(red: Redactor, cell: Cell, time: string) {
    cell == Text(time) && !red.blank(time)
  }

  /** Each cell of the row says what the emission has under the cell's column. */
  ghost predicate RowSays(red: Redactor, columns: seq<string>, row: seq<Cell>, e: Emission)
    requires |row| == |columns|
  {
    forall j :: 0 <= j < |columns| ==>
      && (Names(columns, j, "key") ==> SaysKey(red, row[j], e.key))
      && (Names(columns, j, "sessions") ==> row[j] == Whole(e.sessions))
      && (Names(columns, j, "events") ==> row[j] == Whole(e.events))
      && (Names(columns, j, "first_seen") ==> SaysTime(red, row[j], e.firstSeen))
      && (Names(columns, j, "last_seen") ==> SaysTime(red, row[j], e.lastSeen))
  }

  lemma {:induction false} NamedColumn(columns: seq<string>, row: seq<Cell>, name: string) returns (j: nat)
    requires name in columns && |row| == |columns|
    ensures Names(columns, j, name) && Field(columns, row, name) == row[j]
    ensures forall k :: Names(columns, k, name) ==> k == j
  {
    var last := |columns| - 1;
    if columns[last] == name {
      j := last;
    } else {
      j := NamedColumn(columns[..last], row[..last], name);
      assert forall k :: 0 <= k < last ==> columns[..last][k] == columns[k];
    }
  }

  lemma KeyIsSaid(red: Redactor, cell: Cell, key: string)
    ensures EmittedKey(red, cell) == Some(key) <==> SaysKey(red, cell, key)
  {
    if cell.Text? {
      var redacted := red.redact(cell.text);
      var n := Min(|redacted|, MAX_KEY_LENGTH);
      if SaysKey(red, cell, key) {
        assert redacted[..n] == key;
      }
    }
  }

  /** A row reads as an emission exactly when its cells say so. */
  lemma RowReadsExactly(red: Redactor, columns: seq<string>, row: seq<Cell>, e: Emission)
    requires |row| == |columns| && forall i :: 0 <= i < |CLUSTER_COLUMNS| ==> CLUSTER_COLUMNS[i] in columns
    ensures ReadRow(red, columns, row) == Some(e) <==> RowSays(red, columns, row, e)
  {
    hide EmittedKey, SaysKey, Names, Field, CLUSTER_COLUMNS;
    ColumnsNamed(columns);
    var key := NamedColumn(columns, row, "key");
    var sessions := NamedColumn(columns, row, "sessions");
    var events := NamedColumn(columns, row, "events");
    var first := NamedColumn(columns, row, "first_seen");
    var last := NamedColumn(columns, row, "last_seen");
    KeyIsSaid(red, row[key], e.key);
    NamedInside(columns, key, "key");
    NamedInside(columns, sessions, "sessions");
    NamedInside(columns, events, "events");
    NamedInside(columns, first, "first_seen");
    NamedInside(columns, last, "last_seen");
  }

  lemma NamedInside(columns: seq<string>, j: nat, name: string)
    requires Names(columns, j, name)
    ensures j < |columns|
  {}

  function KeyAt(red: Redactor, t: Answer, i: nat): Option<string>
    requires t.Shaped() && t.Has(CLUSTER_COLUMNS) && i < |t.rows|
  {
    var e := ReadRow(red, t.columns, t.rows[i]);
    if e.Some? then Some(e.value.key) else None
  }

  /** Every row meets the contract and no two normalise to one key. */
  ghost predicate Collectable(red: Redactor, t: Answer)
    requires t.Shaped()
  {
    && t.Has(CLUSTER_COLUMNS)
    && (forall i :: 0 <= i < |t.rows| ==> KeyAt(red, t, i).Some?)
    && (forall i, j :: 0 <= i < j < |t.rows| ==> KeyAt(red, t, i) != KeyAt(red, t, j))
  }

  ghost function Collected(red: Redactor, t: Answer): (emitted: seq<Emission>)
    requires t.Shaped() && Collectable(red, t)
    ensures |emitted| == |t.rows|
    ensures forall i :: 0 <= i < |emitted| ==> Some(emitted[i]) == ReadRow(red, t.columns, t.rows[i])
    ensures DistinctKeys(emitted)
  {
    var emitted := seq(|t.rows|, i requires 0 <= i < |t.rows| =>
      assert KeyAt(red, t, i).Some?; ReadRow(red, t.columns, t.rows[i]).value);
    assert forall i :: 0 <= i < |emitted| ==> Some(emitted[i].key) == KeyAt(red, t, i);
    emitted
  }

  ghost predicate DistinctKeys(emitted: seq<Emission>) {
    forall i, j :: 0 <= i < j < |emitted| ==> emitted[i].key != emitted[j].key
  }

  ghost predicate HasClusterColumns(columns: seq<string>) {
    && "key" in columns && "sessions" in columns && "events" in columns
    && "first_seen" in columns && "last_seen" in columns
  }

  /** The emissions are what the answer says, row by row and cell by cell, with no key twice. */
  ghost predicate AnswerSays(red: Redactor, t: Answer, emitted: seq<Emission>)
    requires t.Shaped()
  {
    && HasClusterColumns(t.columns) && |emitted| == |t.rows| && DistinctKeys(emitted)
    && forall i :: 0 <= i < |emitted| ==> RowSays(red, t.columns, t.rows[i], emitted[i])
  }

  lemma HasTheColumns(t: Answer)
    ensures t.Has(CLUSTER_COLUMNS) <==> HasClusterColumns(t.columns)
  {
    if t.Has(CLUSTER_COLUMNS) {
      ColumnsNamed(t.columns);
    }
  }

  /** The answer is collected as the emissions it says, when it says any. */
  lemma CollectedExactly(red: Redactor, t: Answer, emitted: seq<Emission>)
    requires t.Shaped()
    ensures AnswerSays(red, t, emitted) <==> Collectable(red, t) && Collected(red, t) == emitted
  {
    hide ReadRow, RowSays, HasClusterColumns, CLUSTER_COLUMNS;
    HasTheColumns(t);
    if t.Has(CLUSTER_COLUMNS) && |emitted| == |t.rows| {
      forall i | 0 <= i < |emitted|
        ensures RowSays(red, t.columns, t.rows[i], emitted[i])
                <==> ReadRow(red, t.columns, t.rows[i]) == Some(emitted[i])
      {
        RowReadsExactly(red, t.columns, t.rows[i], emitted[i]);
      }
      if AnswerSays(red, t, emitted) {
        assert forall i :: 0 <= i < |emitted| ==> KeyAt(red, t, i) == Some(emitted[i].key);
        assert Collected(red, t) == emitted;
      }
    }
  }

  /**
    `_collect_clusters`: the emitted dictionary in insertion order, which is
    what the cells say, or a contract error exactly when they say none.
   */
  method CollectClusters(red: Redactor, t: Answer) returns (r: Option<seq<Emission>>)
    requires t.Shaped()
    ensures r == if Collectable(red, t) then Some(Collected(red, t)) else None
    ensures r.Some? ==> AnswerSays(red, t, r.value)
    ensures forall emitted :: AnswerSays(red, t, emitted) ==> r == Some(emitted)
  {
    forall emitted ensures AnswerSays(red, t, emitted) <==> Collectable(red, t) && Collected(red, t) == emitted {
      CollectedExactly(red, t, emitted);
    }
    hide AnswerSays;
    if exists i :: 0 <= i < |CLUSTER_COLUMNS| && CLUSTER_COLUMNS[i] !in t.columns {
      return None;
    }
    var emitted: seq<Emission> := [];
    var keys: set<string> := {};
    for i := 0 to |t.rows|
      invariant |emitted| == i
      invariant forall k :: 0 <= k < i ==> Some(emitted[k]) == ReadRow(red, t.columns, t.rows[k])
      invariant DistinctKeys(emitted)
      invariant forall key :: key in keys <==> exists k :: 0 <= k < i && emitted[k].key == key
    {
      var e := ReadRow(red, t.columns, t.rows[i]);
      if e.None? {
        assert KeyAt(red, t, i).None?;
        return None;
      }
      if e.value.key in keys {
        var k :| 0 <= k < i && emitted[k].key == e.value.key;
        assert KeyAt(red, t, k) == KeyAt(red, t, i);
        return None;
      }
      emitted := emitted + [e.value];
      keys := keys + {e.value.key};
    }
    forall i | 0 <= i < |t.rows| ensures KeyAt(red, t, i) == Some(emitted[i].key) {}
    assert Collectable(red, t);
    assert emitted == Collected(red, t);
    return Some(emitted);
  }

  // ---------------------------------------------------------------------
  // Session hits
  // ---------------------------------------------------------------------

  type Pair = (string, string)

  function ReadHit(red: Redactor, columns: seq<string>, row: seq<Cell>): Option<Pair>
    requires |row| == |columns| && forall i :: 0 <= i < |SESSION_HIT_COLUMNS| ==> SESSION_HIT_COLUMNS[i] in columns
  {
    assert SESSION_HIT_COLUMNS[0] == "key" && SESSION_HIT_COLUMNS[1] == "session_id";
    var key := EmittedKey(red, Field(columns, row, "key"));
    var session := EmittedSession(red, Field(columns, row, "session_id"));
    if key.Some? && session.Some? then Some((key.value, session.value)) else None
  }

  /** The row says the hit: its key cell and its session cell, each of them not blank. */
  ghost predicate RowSaysHit(red: Redactor, columns: seq<string>, row: seq<Cell>, h: Pair)
    requires |row| == |columns|
  {
    forall j :: 0 <= j < |columns| ==>
      && (Names(columns, j, "key") ==> SaysKey(red, row[j], h.0))
      && (Names(columns, j, "session_id") ==>
            row[j].Text? && !red.blank(row[j].text) && !red.blank(h.1) && h.1 == red.redact(row[j].text))
  }

  /** A row reads as a hit exactly when its cells say so. */
  lemma HitReadsExactly(red: Redactor, columns: seq<string>, row: seq<Cell>, h: Pair)
    requires |row| == |columns| && forall i :: 0 <= i < |SESSION_HIT_COLUMNS| ==> SESSION_HIT_COLUMNS[i] in columns
    ensures ReadHit(red, columns, row) == Some(h) <==> RowSaysHit(red, columns, row, h)
  {
    hide EmittedKey, SaysKey, Names, Field;
    assert SESSION_HIT_COLUMNS[0] == "key" && SESSION_HIT_COLUMNS[1] == "session_id";
    var key := NamedColumn(columns, row, "key");
    var session := NamedColumn(columns, row, "session_id");
    KeyIsSaid(red, row[key], h.0);
    NamedInside(columns, key, "key");
    NamedInside(columns, session, "session_id");
  }

  function HitsFor(hits: set<Pair>, key: string): set<Pair> {
    set h | h in hits && h.0 == key
  }

  /** The distinct hits of the first n rows. */
  ghost function HitsIn(red: Redactor, t: Answer, n: nat): set<Pair>
    requires t.Shaped() && t.Has(SESSION_HIT_COLUMNS) && n <= |t.rows|
  {
    set i | 0 <= i < n && ReadHit(red, t.columns, t.rows[i]).Some? :: ReadHit(red, t.columns, t.rows[i]).value
  }

  /** Every row names a key and a session, and each emitted key has the number of sessions it claims. */
  ghost predicate HitsCollectable(red: Redactor, t: Answer, emitted: seq<Emission>)
    requires t.Shaped()
  {
    && t.Has(SESSION_HIT_COLUMNS)
    && (forall i :: 0 <= i < |t.rows| ==> ReadHit(red, t.columns, t.rows[i]).Some?)
    && (forall k :: 0 <= k < |emitted| ==> |HitsFor(HitsIn(red, t, |t.rows|), emitted[k].key)| == emitted[k].sessions)
  }

  predicate Emits(emitted: seq<Emission>, key: string) {
    exists k :: 0 <= k < |emitted| && emitted[k].key == key
  }

  /** The hits of emitted keys; the rest are dropped. */
  ghost function CollectedHits(red: Redactor, t: Answer, emitted: seq<Emission>): set<Pair>
    requires t.Shaped() && t.Has(SESSION_HIT_COLUMNS)
  {
    set h | h in HitsIn(red, t, |t.rows|) && Emits(emitted, h.0)
  }

  /** Some row of the answer says the hit. */
  ghost predicate HitSaid(red: Redactor, t: Answer, h: Pair)
    requires t.Shaped()
  {
    exists i :: 0 <= i < |t.rows| && RowSaysHit(red, t.columns, t.rows[i], h)
  }

  /** The hits are those the answer says, of emitted keys, as many for each key as it has sessions. */
  ghost predicate HitsSaid(red: Redactor, t: Answer, emitted: seq<Emission>, hits: set<Pair>)
    requires t.Shaped()
  {
    && (forall h :: h in hits <==> HitSaid(red, t, h) && Emits(emitted, h.0))
    && (forall k :: 0 <= k < |emitted| ==> |HitsFor(hits, emitted[k].key)| == emitted[k].sessions)
  }

  /** Every row says a hit. */
  ghost predicate AllSayHits(red: Redactor, t: Answer)
    requires t.Shaped()
  {
    && "key" in t.columns && "session_id" in t.columns
    && forall i :: 0 <= i < |t.rows| ==> SaysSomeHit(red, t.columns, t.rows[i])
  }

  ghost predicate SaysSomeHit(red: Redactor, columns: seq<string>, row: seq<Cell>)
    requires |row| == |columns|
  {
    exists h :: RowSaysHit(red, columns, row, h)
  }

  lemma HitColumns(t: Answer)
    ensures t.Has(SESSION_HIT_COLUMNS) <==> "key" in t.columns && "session_id" in t.columns
  {
    assert SESSION_HIT_COLUMNS[0] == "key" && SESSION_HIT_COLUMNS[1] == "session_id";
  }

  lemma AllSayExactly(red: Redactor, t: Answer)
    requires t.Shaped() && t.Has(SESSION_HIT_COLUMNS)
    ensures AllSayHits(red, t) <==> forall i :: 0 <= i < |t.rows| ==> ReadHit(red, t.columns, t.rows[i]).Some?
    ensures AllSayHits(red, t) ==> forall h :: h in HitsIn(red, t, |t.rows|) <==> HitSaid(red, t, h)
  {
    hide ReadHit, SESSION_HIT_COLUMNS, SaysKey, Names;
    HitColumns(t);
    forall i, h | 0 <= i < |t.rows|
      ensures ReadHit(red, t.columns, t.rows[i]) == Some(h) <==> RowSaysHit(red, t.columns, t.rows[i], h)
    {
      HitReadsExactly(red, t.columns, t.rows[i], h);
    }
    forall i | 0 <= i < |t.rows|
      ensures ReadHit(red, t.columns, t.rows[i]).Some? <==> SaysSomeHit(red, t.columns, t.rows[i])
    {
      var r := ReadHit(red, t.columns, t.rows[i]);
      if r.Some? {
        assert RowSaysHit(red, t.columns, t.rows[i], r.value);
      }
      if SaysSomeHit(red, t.columns, t.rows[i]) {
        var h :| RowSaysHit(red, t.columns, t.rows[i], h);
        assert r == Some(h);
      }
    }
    forall h ensures h in HitsIn(red, t, |t.rows|) <==> HitSaid(red, t, h) {
      if HitSaid(red, t, h) {
        var i :| 0 <= i < |t.rows| && RowSaysHit(red, t.columns, t.rows[i], h);
        assert ReadHit(red, t.columns, t.rows[i]) == Some(h);
      }
    }
  }

  lemma SameHitsFor(all: set<Pair>, emitted: seq<Emission>, k: nat)
    requires k < |emitted|
    ensures HitsFor((set h | h in all && Emits(emitted, h.0)), emitted[k].key) == HitsFor(all, emitted[k].key)
  {}

  /** The hits are collected exactly when every row says one and they are as many as the emissions claim. */
  lemma HitsCollectedExactly(red: Redactor, t: Answer, emitted: seq<Emission>, hits: set<Pair>)
    requires t.Shaped()
    ensures AllSayHits(red, t) && HitsSaid(red, t, emitted, hits)
            <==> HitsCollectable(red, t, emitted) && CollectedHits(red, t, emitted) == hits
  {
    hide ReadHit, RowSaysHit, SESSION_HIT_COLUMNS, HitsFor, AllSayHits, HitSaid, HitsIn;
    HitColumns(t);
    if t.Has(SESSION_HIT_COLUMNS) {
      AllSayExactly(red, t);
      var all := HitsIn(red, t, |t.rows|);
      forall k | 0 <= k < |emitted|
        ensures HitsFor((set h | h in all && Emits(emitted, h.0)), emitted[k].key) == HitsFor(all, emitted[k].key)
      {
        SameHitsFor(all, emitted, k);
      }
      if AllSayHits(red, t) && HitsSaid(red, t, emitted, hits) {
        assert hits == set h | h in all && Emits(emitted, h.0);
      }
    } else {
      SayingNeedsColumns(red, t);
    }
  }

  lemma SayingNeedsColumns(red: Redactor, t: Answer)
    requires t.Shaped() && !("key" in t.columns && "session_id" in t.columns)
    ensures !AllSayHits(red, t)
  {}

  lemma OneMoreHit(hits: set<Pair>, h: Pair, key: string)
    requires h !in hits
    ensures |HitsFor(hits + {h}, key)| == |HitsFor(hits, key)| + (if h.0 == key then 1 else 0)
  {
    if h.0 == key {
      assert HitsFor(hits + {h}, key) == HitsFor(hits, key) + {h};
    } else {
      assert HitsFor(hits + {h}, key) == HitsFor(hits, key);
    }
  }

  function CountOf(counts: map<string, nat>, key: string): nat {
    if key in counts then counts[key] else 0
  }

  ghost predicate CountsAre(counts: map<string, nat>, hits: set<Pair>) {
    forall key :: CountOf(counts, key) == |HitsFor(hits, key)|
  }

  /** `_collect_session_hits`: the hits the cells say, or a contract error exactly when they do not add up. */
  method CollectSessionHits(red: Redactor, t: Answer, emitted: seq<Emission>) returns (r: Option<set<Pair>>)
    requires t.Shaped()
    ensures r == if HitsCollectable(red, t, emitted) then Some(CollectedHits(red, t, emitted)) else None
    ensures r.Some? ==> AllSayHits(red, t) && HitsSaid(red, t, emitted, r.value)
    ensures forall hits :: AllSayHits(red, t) && HitsSaid(red, t, emitted, hits) ==> r == Some(hits)
  {
    forall hits
      ensures AllSayHits(red, t) && HitsSaid(red, t, emitted, hits)
              <==> HitsCollectable(red, t, emitted) && CollectedHits(red, t, emitted) == hits
    {
      HitsCollectedExactly(red, t, emitted, hits);
    }
    hide AllSayHits, HitsSaid;
    if exists i :: 0 <= i < |SESSION_HIT_COLUMNS| && SESSION_HIT_COLUMNS[i] !in t.columns {
      return None;
    }
    var hits: set<Pair> := {};
    var counts: map<string, nat> := map[];
    assert forall key :: HitsFor({}, key) == {};
    for i := 0 to |t.rows|
      invariant forall k :: 0 <= k < i ==> ReadHit(red, t.columns, t.rows[k]).Some?
      invariant hits == HitsIn(red, t, i)
      invariant CountsAre(counts, hits)
    {
      var hit := ReadHit(red, t.columns, t.rows[i]);
      if hit.None? {
        return None;
      }
      HitsSnoc(red, t, i);
      if hit.value !in hits {
        counts := AddHit(counts, hits, hit.value);
        hits := hits + {hit.value};
      }
    }
    for k := 0 to |emitted|
      invariant forall j :: 0 <= j < k ==> |HitsFor(hits, emitted[j].key)| == emitted[j].sessions
    {
      if CountOf(counts, emitted[k].key) != emitted[k].sessions {
        return None;
      }
    }
    r := Some(set h | h in hits && Emits(emitted, h.0));
    assert r.value == CollectedHits(red, t, emitted) && HitsCollectable(red, t, emitted);
    HitsCollectedExactly(red, t, emitted, r.value);
  }

  method AddHit(counts: map<string, nat>, hits: set<Pair>, h: Pair) returns (counts': map<string, nat>)
    requires CountsAre(counts, hits) && h !in hits
    ensures CountsAre(counts', hits + {h})
  {
    counts' := counts[h.0 := CountOf(counts, h.0) + 1];
    forall key ensures CountOf(counts', key) == |HitsFor(hits + {h}, key)| {
      OneMoreHit(hits, h, key);
    }
  }

  lemma HitsSnoc(red: Redactor, t: Answer, i: nat)
    requires t.Shaped() && t.Has(SESSION_HIT_COLUMNS) && i < |t.rows|
    requires ReadHit(red, t.columns, t.rows[i]).Some?
    ensures HitsIn(red, t, i + 1) == HitsIn(red, t, i) + {ReadHit(red, t.columns, t.rows[i]).value}
  {}

  // ---------------------------------------------------------------------
  // The tables
  // ---------------------------------------------------------------------

  datatype ReviewState = Open | Drafted | Escalation | Dismissed

  datatype Cluster = Cluster(
    windowDays: int,
    sessions: nat,
    events: nat,
    firstSeen: string,
    lastSeen: string,
    score: real,
    coveredBy: Option<string>,
    state: ReviewState)

  datatype RunStatus = RunOk | RunError | RunRefused

  datatype RunRecord = RunRecord(
    semantics: Digest,
    attribution: Option<Digest>,
    backtest: Option<Digest>,
    weekly: Option<Digest>,
    firstRunAt: int,
    lastRunAt: int,
    status: RunStatus,
    error: Option<string>,
    clusters: nat,
    windowDays: int)

  datatype Hit = Hit(detector: string, key: string, session: string)

  type ClusterKey = (string, string)
  type RunKey = (string, int)

  /** `weeklyColumn` tells a migrated database from a legacy one. */
  datatype Tables = Tables(
    clusters: map<ClusterKey, Cluster>,
    hits: set<Hit>,
    runs: map<RunKey, RunRecord>,
    weeklyColumn: bool)

  function Get<K, V>(m: map<K, V>, k: K): Option<V> {
    if k in m then Some(m[k]) else None
  }

  /** The emission of a key, if it was emitted. */
  function Lookup(emitted: seq<Emission>, key: string): (e: Option<Emission>)
    ensures e.Some? <==> Emits(emitted, key)
    ensures e.Some? ==> e.value in emitted && e.value.key == key
  {
    if emitted == [] then None
    else
      var last := |emitted| - 1;
      if emitted[last].key == key then Some(emitted[last])
      else
        var e := Lookup(emitted[..last], key);
        assert forall k :: 0 <= k < last ==> emitted[..last][k].key == emitted[k].key;
        e
  }

  /** `_CLUSTER_UPSERT`: a new row opens; an old one keeps score, cover and review state. */
  function Upserted(before: Option<Cluster>, days: int, e: Emission): Cluster {
    match before
    case None => Cluster(days, e.sessions, e.events, e.firstSeen, e.lastSeen, 0.0, None, Open)
    case Some(c) =>
      c.(windowDays := days, sessions := e.sessions, events := e.events, firstSeen := e.firstSeen,
         lastSeen := e.lastSeen)
  }

  /** The row of `k` once the run has committed. */
  function ClusterAfter(clusters: map<ClusterKey, Cluster>, id: string, days: int, emitted: seq<Emission>,
                        k: ClusterKey)
    : Option<Cluster>
  {
    var before := Get(clusters, k);
    if k.0 != id then before
    else match Lookup(emitted, k.1)
         case Some(e) => Some(Upserted(before, days, e))
         case None => if before.Some? && before.value.state.Open? then None else before
  }

  function Coalesce(a: Option<Digest>, b: Option<Digest>): Option<Digest> {
    if a.Some? then a else b
  }

  /** `_RUN_RECORD_UPSERT`, and its legacy form without the weekly column. */
  function Recorded(before: Option<RunRecord>, weeklyColumn: bool, d: Detector, at: int, n: nat, days: int): RunRecord {
    var weekly := if weeklyColumn then d.Weekly() else None;
    match before
    case None =>
      RunRecord(d.Semantics(), d.Attribution(), d.Backtest(), weekly, at, at, RunOk, None, n, days)
    case Some(r) =>
      r.(semantics := d.Semantics(), attribution := Coalesce(d.Attribution(), r.attribution),
         backtest := Coalesce(d.Backtest(), r.backtest), weekly := Coalesce(weekly, r.weekly),
         lastRunAt := at, status := RunOk, error := None, clusters := n, windowDays := days)
  }

  ghost function HitRows(id: string, pairs: set<Pair>): set<Hit> {
    set p | p in pairs :: Hit(id, p.0, p.1)
  }

  ghost function HitsAfter(hits: set<Hit>, id: string, pairs: set<Pair>): set<Hit> {
    (set h | h in hits && h.detector != id) + HitRows(id, pairs)
  }

  /** Everything a committed run changes, and nothing else. */
  ghost predicate Refreshes(t: Tables, d: Detector, days: int, emitted: seq<Emission>, pairs: set<Pair>, at: int,
                            t': Tables) {
    && (forall k :: Get(t'.clusters, k) == ClusterAfter(t.clusters, d.id, days, emitted, k))
    && t'.hits == HitsAfter(t.hits, d.id, pairs)
    && t'.runs == t.runs[(d.id, d.version) :=
         Recorded(Get(t.runs, (d.id, d.version)), t.weeklyColumn, d, at, |emitted|, days)]
    && t'.weeklyColumn == t.weeklyColumn
  }

  /** `_record_failure` marks an existing row; it never makes one. */
  function Noted(t: Tables, d: Detector, at: int, error: string, status: RunStatus): Tables {
    var k := (d.id, d.version);
    if k !in t.runs then t
    else t.(runs := t.runs[k := t.runs[k].(lastRunAt := at, status := status, error := Some(error))])
  }

  /** The four same-version checks, in the order they are made. */
  datatype Drift = SemanticsDrift | AttributionDrift | BacktestDrift | WeeklyDrift

  function DriftOf(t: Tables, d: Detector): Option<Drift> {
    match Get(t.runs, (d.id, d.version))
    case None => None
    case Some(r) =>
      if r.semantics != d.Semantics() then Some(SemanticsDrift)
      else if r.attribution.Some? && r.attribution != d.Attribution() then Some(AttributionDrift)
      else if r.backtest.Some? && r.backtest != d.Backtest() then Some(BacktestDrift)
      else if t.weeklyColumn && r.weekly.Some? && r.weekly != d.Weekly() then Some(WeeklyDrift)
      else None
  }
}
