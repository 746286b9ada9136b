/**
  Sharing a session's usage over the clusters it hit (twill_digest.py), over
  the reals: every hit of a session carries an equal share of it.
 */
module Waste {
  import opened Prelude

  // ---------------------------------------------------------------------
  // Sums over sets
  // ---------------------------------------------------------------------

  ghost function Sum<T>(s: set<T>, f: T -> real): real
    decreases |s|
  {
    if s == {} then 0.0
    else
      var x :| x in s;
      f(x) + Sum(s - {x}, f)
  }

  /** Any element can be summed first. */
  lemma {:induction false} SumPick<T>(s: set<T>, f: T -> real, x: T)
    requires x in s
    ensures Sum(s, f) == f(x) + Sum(s - {x}, f)
    decreases |s|
  {
    var y :| y in s && Sum(s, f) == f(y) + Sum(s - {y}, f);
    if y != x {
      SumPick(s - {y}, f, x);
      SumPick(s - {x}, f, y);
      assert s - {y} - {x} == s - {x} - {y};
    }
  }

  lemma {:induction false} SumSame<T>(s: set<T>, f: T -> real, g: T -> real)
    requires forall x :: x in s ==> f(x) == g(x)
    ensures Sum(s, f) == Sum(s, g)
    decreases |s|
  {
    if s != {} {
      var x :| x in s;
      SumPick(s, f, x);
      SumPick(s, g, x);
      SumSame(s - {x}, f, g);
    }
  }

  lemma {:induction false} SumPlus<T>(s: set<T>, f: T -> real, g: T -> real, h: T -> real)
    requires forall x :: x in s ==> h(x) == f(x) + g(x)
    ensures Sum(s, h) == Sum(s, f) + Sum(s, g)
    decreases |s|
  {
    if s != {} {
      var x :| x in s;
      SumPick(s, f, x);
      SumPick(s, g, x);
      SumPick(s, h, x);
      SumPlus(s - {x}, f, g, h);
    }
  }

  lemma {:induction false} SumConstant<T>(s: set<T>, f: T -> real, v: real)
    requires forall x :: x in s ==> f(x) == v
    ensures Sum(s, f) == |s| as real * v
    decreases |s|
  {
    if s != {} {
      var x :| x in s;
      SumPick(s, f, x);
      SumConstant(s - {x}, f, v);
      assert |s| == |s - {x}| + 1;
    }
  }

  ghost function Group<T, K>(s: set<T>, groupOf: T -> K, k: K): set<T> {
    set x | x in s && groupOf(x) == k
  }

  /** Summing group by group is summing all, when every element is in exactly one of the groups. */
  lemma {:induction false} SumByGroup<T, K>(s: set<T>, groups: set<K>, f: T -> real, groupOf: T -> K)
    requires forall x :: x in s ==> groupOf(x) in groups
    ensures Sum(groups, k => Sum(Group(s, groupOf, k), f)) == Sum(s, f)
    decreases |s|
  {
    var perGroup := k => Sum(Group(s, groupOf, k), f);
    if s == {} {
      forall k | k in groups ensures perGroup(k) == 0.0 {
        assert Group(s, groupOf, k) == {};
      }
      SumConstant(groups, perGroup, 0.0);
    } else {
      var x :| x in s;
      var rest := s - {x};
      var without := k => Sum(Group(rest, groupOf, k), f);
      var only := k => if k == groupOf(x) then f(x) else 0.0;
      SumByGroup(rest, groups, f, groupOf);
      forall k | k in groups ensures perGroup(k) == without(k) + only(k) {
        var all, fewer := Group(s, groupOf, k), Group(rest, groupOf, k);
        if k == groupOf(x) {
          SumPick(all, f, x);
          assert all - {x} == fewer;
        } else {
          assert all == fewer;
        }
      }
      SumPlus(groups, without, only, perGroup);
      SumOnly(groups, only, groupOf(x), f(x));
      SumPick(s, f, x);
    }
  }

  lemma {:induction false} SumOnly<K>(groups: set<K>, f: K -> real, k: K, v: real)
    requires k in groups && f(k) == v && forall j :: j in groups && j != k ==> f(j) == 0.0
    ensures Sum(groups, f) == v
  {
    SumPick(groups, f, k);
    SumConstant(groups - {k}, f, 0.0);
  }

  // ---------------------------------------------------------------------
  // Usage and hits
  // ---------------------------------------------------------------------

  datatype Component = InputTokens | OutputTokens | CacheReadTokens | Cost

  const COMPONENTS := {InputTokens, OutputTokens, CacheReadTokens, Cost}

  /** A row of session usage: a number, or None for null and anything that is not a finite number. */
  type Usage = Component -> Option<real>

  datatype Cluster = Cluster(detector: string, key: string)
  datatype Hit = Hit(cluster: Cluster, session: string)

  /** `_known_token`, `_known_cost`: a number that is not negative, of a session that has a row. */
  function Known(usage: map<string, Usage>, session: string, c: Component): Option<real> {
    if session !in usage then None
    else match usage[session](c)
         case None => None
         case Some(x) => if x < 0.0 then None else Some(x)
  }

  ghost function HitsOfSession(hits: set<Hit>, session: string): set<Hit> {
    set h | h in hits && h.session == session
  }

  ghost function HitsOfCluster(hits: set<Hit>, cluster: Cluster): set<Hit> {
    set h | h in hits && h.cluster == cluster
  }

  /** What one hit adds to its cluster: an equal share of its session's usage, if known. */
  ghost function Share(usage: map<string, Usage>, hits: set<Hit>, c: Component, h: Hit): real {
    var n := |HitsOfSession(hits, h.session)|;
    match Known(usage, h.session, c)
    case None => 0.0
    case Some(x) => if n == 0 then 0.0 else x / n as real
  }

  ghost function Attributed(usage: map<string, Usage>, hits: set<Hit>, c: Component, cluster: Cluster): real {
    Sum(HitsOfCluster(hits, cluster), h => Share(usage, hits, c, h))
  }

  function Clusters(hits: set<Hit>): set<Cluster> {
    set h | h in hits :: h.cluster
  }

  function Sessions(hits: set<Hit>): set<string> {
    set h | h in hits :: h.session
  }

  ghost predicate AllKnown(usage: map<string, Usage>, hits: set<Hit>, c: Component) {
    forall h :: h in hits ==> Known(usage, h.session, c).Some?
  }

  // ---------------------------------------------------------------------
  // Conservation
  // ---------------------------------------------------------------------

  /** The shares of one session sum to its known usage. */
  lemma SessionIsShared(usage: map<string, Usage>, hits: set<Hit>, c: Component, session: string)
    requires HitsOfSession(hits, session) != {}
    ensures Sum(HitsOfSession(hits, session), h => Share(usage, hits, c, h))
            == Known(usage, session, c).GetOr(0.0)
  {
    var mine := HitsOfSession(hits, session);
    var n := |mine| as real;
    var share := match Known(usage, session, c) case None => 0.0 case Some(x) => x / n;
    forall h | h in mine ensures Share(usage, hits, c, h) == share {}
    SumConstant(mine, h => Share(usage, hits, c, h), share);
    if Known(usage, session, c).Some? {
      var x := Known(usage, session, c).value;
      assert n * (x / n) == x;
    }
  }

  lemma SharedByCluster(usage: map<string, Usage>, hits: set<Hit>, c: Component)
    ensures Sum(Clusters(hits), k => Attributed(usage, hits, c, k)) == Sum(hits, h => Share(usage, hits, c, h))
  {
    var share := (h: Hit) => Share(usage, hits, c, h);
    var clusterOf := (h: Hit) => h.cluster;
    SumByGroup(hits, Clusters(hits), share, clusterOf);
    forall k | k in Clusters(hits) ensures Sum(Group(hits, clusterOf, k), share) == Attributed(usage, hits, c, k) {
      assert Group(hits, clusterOf, k) == HitsOfCluster(hits, k);
      SumSame(HitsOfCluster(hits, k), share, h => Share(usage, hits, c, h));
    }
    SumSame(Clusters(hits), k => Sum(Group(hits, clusterOf, k), share), k => Attributed(usage, hits, c, k));
    SumSame(hits, share, h => Share(usage, hits, c, h));
  }

  lemma SharedBySession(usage: map<string, Usage>, hits: set<Hit>, c: Component)
    ensures Sum(Sessions(hits), s => Known(usage, s, c).GetOr(0.0)) == Sum(hits, h => Share(usage, hits, c, h))
  {
    var share := (h: Hit) => Share(usage, hits, c, h);
    var sessionOf := (h: Hit) => h.session;
    SumByGroup(hits, Sessions(hits), share, sessionOf);
    forall s | s in Sessions(hits) ensures Sum(Group(hits, sessionOf, s), share) == Known(usage, s, c).GetOr(0.0) {
      assert Group(hits, sessionOf, s) == HitsOfSession(hits, s);
      var h :| h in hits && h.session == s;
      assert h in HitsOfSession(hits, s);
      SessionIsShared(usage, hits, c, s);
      SumSame(HitsOfSession(hits, s), share, h => Share(usage, hits, c, h));
    }
    SumSame(Sessions(hits), s => Sum(Group(hits, sessionOf, s), share), s => Known(usage, s, c).GetOr(0.0));
    SumSame(hits, share, h => Share(usage, hits, c, h));
  }

  /** What all clusters were attributed is what all the sessions that hit them are known to have used. */
  lemma WasteIsConserved(usage: map<string, Usage>, hits: set<Hit>, c: Component)
    ensures Sum(Clusters(hits), k => Attributed(usage, hits, c, k))
            == Sum(Sessions(hits), s => Known(usage, s, c).GetOr(0.0))
  {
    SharedByCluster(usage, hits, c);
    SharedBySession(usage, hits, c);
  }

  // ---------------------------------------------------------------------
  // The estimate
  // ---------------------------------------------------------------------

  /** The components of a cluster's estimate; None where some hit session's usage is not known. */
  type Estimate = map<Component, Option<real>>

  ghost predicate IsEstimate(usage: map<string, Usage>, hits: set<Hit>, cluster: Cluster, e: Estimate) {
    forall c :: c in COMPONENTS ==>
      && c in e
      && (e[c].Some? <==> AllKnown(usage, HitsOfCluster(hits, cluster), c))
      && (e[c].Some? ==> e[c].value == Attributed(usage, hits, c, cluster))
  }

  /** With every hit session known, the estimates of one component sum to the sessions' usage. */
  lemma EstimatesAreConserved(usage: map<string, Usage>, hits: set<Hit>, c: Component,
                              estimates: map<Cluster, Estimate>)
    requires c in COMPONENTS && AllKnown(usage, hits, c)
    requires estimates.Keys == Clusters(hits) && forall k :: k in estimates ==> IsEstimate(usage, hits, k, estimates[k])
    ensures forall k :: k in estimates ==> c in estimates[k] && estimates[k][c].Some?
    ensures Sum(Clusters(hits), k => if k in estimates && c in estimates[k] then estimates[k][c].GetOr(0.0) else 0.0)
            == Sum(Sessions(hits), s => Known(usage, s, c).GetOr(0.0))
  {
    WasteIsConserved(usage, hits, c);
    var shown := k => if k in estimates && c in estimates[k] then estimates[k][c].GetOr(0.0) else 0.0;
    forall k | k in Clusters(hits) ensures shown(k) == Attributed(usage, hits, c, k) {
      assert AllKnown(usage, HitsOfCluster(hits, k), c);
    }
    SumSame(Clusters(hits), shown, k => Attributed(usage, hits, c, k));
  }

  /** The figure of a session's row in the component's own column: a number that is not negative. */
  predicate HasFigure(usage: map<string, Usage>, session: string, c: Component) {
    session in usage && usage[session](c).Some? && usage[session](c).value >= 0.0
  }

  function Figure(usage: map<string, Usage>, session: string, c: Component): real {
    if HasFigure(usage, session, c) then usage[session](c).value else 0.0
  }

  lemma FigureIsKnown(usage: map<string, Usage>, session: string, c: Component)
    ensures HasFigure(usage, session, c) <==> Known(usage, session, c).Some?
    ensures Figure(usage, session, c) == Known(usage, session, c).GetOr(0.0)
  {}

  ghost predicate AllHaveFigures(usage: map<string, Usage>, hits: set<Hit>, c: Component) {
    forall h :: h in hits ==> HasFigure(usage, h.session, c)
  }

  lemma FiguresAreKnown(usage: map<string, Usage>, hits: set<Hit>, c: Component)
    ensures AllHaveFigures(usage, hits, c) <==> AllKnown(usage, hits, c)
  {
    hide Known, HasFigure;
    forall h | h in hits ensures HasFigure(usage, h.session, c) <==> Known(usage, h.session, c).Some? {
      FigureIsKnown(usage, h.session, c);
    }
  }

  /** A cluster's component is there exactly when every session that hit it has the figure in that column. */
  lemma ComponentsNeedTheirColumn(usage: map<string, Usage>, hits: set<Hit>, c: Component,
                                  estimates: map<Cluster, Estimate>, k: Cluster)
    requires c in COMPONENTS && k in estimates && IsEstimate(usage, hits, k, estimates[k])
    ensures c in estimates[k]
    ensures estimates[k][c].Some? <==> AllHaveFigures(usage, HitsOfCluster(hits, k), c)
  {
    hide AllKnown, AllHaveFigures, Attributed;
    FiguresAreKnown(usage, HitsOfCluster(hits, k), c);
  }

  /** An available component is the cluster's hits' equal parts of their sessions' figures in that column. */
  lemma ComponentsAreEqualParts(usage: map<string, Usage>, hits: set<Hit>, c: Component, e: Estimate, k: Cluster)
    requires c in COMPONENTS && IsEstimate(usage, hits, k, e) && c in e && e[c].Some?
    ensures e[c].value == Sum(HitsOfCluster(hits, k), (h: Hit) => Figure(usage, h.session, c) / Parts(hits, h.session))
  {
    hide Known, HasFigure, Figure;
    var mine := HitsOfCluster(hits, k);
    forall h | h in mine ensures Share(usage, hits, c, h) == Figure(usage, h.session, c) / Parts(hits, h.session) {
      assert h in HitsOfSession(hits, h.session);
      FigureIsKnown(usage, h.session, c);
    }
    SumSame(mine, h => Share(usage, hits, c, h), (h: Hit) => Figure(usage, h.session, c) / Parts(hits, h.session));
  }

  /** How many clusters a session is shared between, as a divisor. */
  ghost function Parts(hits: set<Hit>, session: string): (n: real)
    ensures n > 0.0
  {
    var n := |set h | h in hits && h.session == session|;
    if n == 0 then 1.0 else n as real
  }

  /**
    Column by column: when every hit session has the figure, the clusters'
    figures of that column sum to the sessions' figures of the same column.
   */
  lemma EachColumnIsConserved(usage: map<string, Usage>, hits: set<Hit>, c: Component,
                              estimates: map<Cluster, Estimate>)
    requires c in COMPONENTS && AllHaveFigures(usage, hits, c)
    requires estimates.Keys == Clusters(hits) && forall k :: k in estimates ==> IsEstimate(usage, hits, k, estimates[k])
    ensures Sum(Clusters(hits), k => if k in estimates && c in estimates[k] then estimates[k][c].GetOr(0.0) else 0.0)
            == Sum(Sessions(hits), s => Figure(usage, s, c))
  {
    hide IsEstimate, Known, HasFigure, Figure, AllHaveFigures, AllKnown, Clusters;
    FiguresAreKnown(usage, hits, c);
    EstimatesAreConserved(usage, hits, c, estimates);
    forall s | s in Sessions(hits) ensures Known(usage, s, c).GetOr(0.0) == Figure(usage, s, c) {
      FigureIsKnown(usage, s, c);
    }
    SumSame(Sessions(hits), s => Known(usage, s, c).GetOr(0.0), s => Figure(usage, s, c));
  }

  /** How many hits each session has, counted hit by hit. */
  method CountBySession(hits: set<Hit>) returns (counts: map<string, nat>)
    ensures counts.Keys == Sessions(hits) && forall s :: s in counts ==> counts[s] == |HitsOfSession(hits, s)|
  {
    counts := map[];
    var rest := hits;
    while rest != {}
      invariant rest <= hits
      invariant forall s :: (if s in counts then counts[s] else 0) == |HitsOfSession(hits - rest, s)|
      invariant forall s :: s in counts <==> HitsOfSession(hits - rest, s) != {}
      decreases |rest|
    {
      var h :| h in rest;
      OneMoreOfSession(hits - rest, h);
      assert hits - (rest - {h}) == (hits - rest) + {h};
      rest := rest - {h};
      counts := counts[h.session := (if h.session in counts then counts[h.session] else 0) + 1];
    }
    assert hits - {} == hits;
    forall s ensures s in counts <==> s in Sessions(hits) {
      if s in Sessions(hits) {
        var h :| h in hits && h.session == s;
        assert h in HitsOfSession(hits, s);
      }
    }
  }

  lemma OneMoreOfSession(done: set<Hit>, h: Hit)
    requires h !in done
    ensures forall s :: |HitsOfSession(done + {h}, s)| == |HitsOfSession(done, s)| + (if s == h.session then 1 else 0)
    ensures forall s :: HitsOfSession(done + {h}, s) != {} <==> HitsOfSession(done, s) != {} || s == h.session
  {
    forall s
      ensures |HitsOfSession(done + {h}, s)| == |HitsOfSession(done, s)| + (if s == h.session then 1 else 0)
      ensures HitsOfSession(done + {h}, s) != {} <==> HitsOfSession(done, s) != {} || s == h.session
    {
      if s == h.session {
        assert HitsOfSession(done + {h}, s) == HitsOfSession(done, s) + {h};
      } else {
        assert HitsOfSession(done + {h}, s) == HitsOfSession(done, s);
      }
    }
  }

  /** One cluster's running totals for one component: the sum of its shares and how many were known. */
  datatype Tally = Tally(value: real, known: nat)

  ghost function KnownHits(usage: map<string, Usage>, hits: set<Hit>, c: Component): set<Hit> {
    set h | h in hits && Known(usage, h.session, c).Some?
  }

  ghost function TallyOf(usage: map<string, Usage>, hits: set<Hit>, done: set<Hit>, c: Component,
                         cluster: Cluster): Tally {
    Tally(Sum(HitsOfCluster(done, cluster), h => Share(usage, hits, c, h)),
          |KnownHits(usage, HitsOfCluster(done, cluster), c)|)
  }

  /** A tally with one more hit's equal share, if its session's usage is known. */
  function Shared(t: Tally, x: Option<real>, n: nat): Tally {
    if x.None? || n == 0 then t else Tally(t.value + x.value / n as real, t.known + 1)
  }

  lemma SumStep(usage: map<string, Usage>, hits: set<Hit>, done: set<Hit>, h: Hit, c: Component)
    requires h !in done
    ensures Sum(HitsOfCluster(done + {h}, h.cluster), g => Share(usage, hits, c, g))
            == Sum(HitsOfCluster(done, h.cluster), g => Share(usage, hits, c, g)) + Share(usage, hits, c, h)
  {
    var fewer, more := HitsOfCluster(done, h.cluster), HitsOfCluster(done + {h}, h.cluster);
    var share := (g: Hit) => Share(usage, hits, c, g);
    assert more == fewer + {h} && more - {h} == fewer;
    SumPick(more, share, h);
    SumSame(more, share, g => Share(usage, hits, c, g));
    SumSame(fewer, share, g => Share(usage, hits, c, g));
  }

  lemma KnownStep(usage: map<string, Usage>, done: set<Hit>, h: Hit, c: Component)
    requires h !in done
    ensures |KnownHits(usage, HitsOfCluster(done + {h}, h.cluster), c)|
            == |KnownHits(usage, HitsOfCluster(done, h.cluster), c)| + if Known(usage, h.session, c).Some? then 1 else 0
  {
    var fewer := KnownHits(usage, HitsOfCluster(done, h.cluster), c);
    var more := KnownHits(usage, HitsOfCluster(done + {h}, h.cluster), c);
    if Known(usage, h.session, c).Some? {
      assert more == fewer + {h};
    } else {
      assert more == fewer;
    }
  }

  /** One more hit moves its own cluster's tally by its share, and no other. */
  lemma TallyStep(usage: map<string, Usage>, hits: set<Hit>, done: set<Hit>, h: Hit, c: Component, cluster: Cluster)
    requires h in hits && h !in done
    ensures var before, after := TallyOf(usage, hits, done, c, cluster), TallyOf(usage, hits, done + {h}, c, cluster);
            after == if cluster != h.cluster then before
                     else Shared(before, Known(usage, h.session, c), |HitsOfSession(hits, h.session)|)
  {
    hide Sum, Known, KnownHits;
    if cluster == h.cluster {
      assert h in HitsOfSession(hits, h.session);
      SumStep(usage, hits, done, h, c);
      KnownStep(usage, done, h, c);
    } else {
      assert HitsOfCluster(done + {h}, cluster) == HitsOfCluster(done, cluster);
    }
  }

  type Tallies = map<Component, Tally>

  const NO_TALLIES: Tallies := map[InputTokens := Tally(0.0, 0), OutputTokens := Tally(0.0, 0),
                                   CacheReadTokens := Tally(0.0, 0), Cost := Tally(0.0, 0)]

  ghost predicate AreTallies(usage: map<string, Usage>, hits: set<Hit>, done: set<Hit>, cluster: Cluster, t: Tallies) {
    forall c :: c in COMPONENTS ==> c in t && t[c] == TallyOf(usage, hits, done, c, cluster)
  }

  /** The tallies with one more hit of the session. */
  ghost predicate AddsHit(usage: map<string, Usage>, session: string, n: nat, t: Tallies, t': Tallies) {
    forall c :: c in COMPONENTS ==> c in t && c in t' && t'[c] == Shared(t[c], Known(usage, session, c), n)
  }

  /** The inner loop: each component the session is known to have used. */
  method AddHit(usage: map<string, Usage>, session: string, denominator: nat, t: Tallies) returns (t': Tallies)
    requires denominator > 0 && forall c :: c in COMPONENTS ==> c in t
    ensures AddsHit(usage, session, denominator, t, t')
  {
    t' := t;
    var rest := COMPONENTS;
    while rest != {}
      invariant rest <= COMPONENTS
      invariant forall c :: c in COMPONENTS ==> c in t'
      invariant forall c :: c in rest ==> t'[c] == t[c]
      invariant forall c :: c in COMPONENTS - rest ==> t'[c] == Shared(t[c], Known(usage, session, c), denominator)
      decreases |rest|
    {
      var c :| c in rest;
      rest := rest - {c};
      var x := Known(usage, session, c);
      if x.Some? {
        t' := t'[c := Tally(t'[c].value + x.value / denominator as real, t'[c].known + 1)];
      }
    }
  }

  ghost predicate Tallied(usage: map<string, Usage>, hits: set<Hit>, done: set<Hit>, tallies: map<Cluster, Tallies>,
                          hitCounts: map<Cluster, nat>) {
    && tallies.Keys == Clusters(done) && hitCounts.Keys == Clusters(done)
    && (forall k :: k in hitCounts ==> hitCounts[k] == |HitsOfCluster(done, k)|)
    && (forall k :: k in tallies ==> AreTallies(usage, hits, done, k, tallies[k]))
  }

  lemma NoTallies(usage: map<string, Usage>, hits: set<Hit>, done: set<Hit>, cluster: Cluster)
    requires cluster !in Clusters(done)
    ensures AreTallies(usage, hits, done, cluster, NO_TALLIES) && HitsOfCluster(done, cluster) == {}
  {
    forall h | h in done ensures h.cluster != cluster {
      assert h.cluster in Clusters(done);
    }
    assert HitsOfCluster(done, cluster) == {};
    forall c | c in COMPONENTS ensures TallyOf(usage, hits, done, c, cluster) == Tally(0.0, 0) {
      assert KnownHits(usage, {}, c) == {};
    }
  }

  /** The tallies of the hit's cluster after it, from those before it. */
  lemma HitTallied(usage: map<string, Usage>, hits: set<Hit>, done: set<Hit>, h: Hit, t: Tallies, t': Tallies)
    requires h in hits && h !in done && AreTallies(usage, hits, done, h.cluster, t)
    requires AddsHit(usage, h.session, |HitsOfSession(hits, h.session)|, t, t')
    ensures AreTallies(usage, hits, done + {h}, h.cluster, t')
  {
    assert h in HitsOfSession(hits, h.session);
    forall c | c in COMPONENTS ensures t'[c] == TallyOf(usage, hits, done + {h}, c, h.cluster) {
      TallyStep(usage, hits, done, h, c, h.cluster);
    }
  }

  lemma OthersTallied(usage: map<string, Usage>, hits: set<Hit>, done: set<Hit>, h: Hit, k: Cluster, t: Tallies)
    requires h in hits && h !in done && k != h.cluster && AreTallies(usage, hits, done, k, t)
    ensures AreTallies(usage, hits, done + {h}, k, t) && HitsOfCluster(done + {h}, k) == HitsOfCluster(done, k)
  {
    forall c | c in COMPONENTS ensures t[c] == TallyOf(usage, hits, done + {h}, c, k) {
      TallyStep(usage, hits, done, h, c, k);
    }
  }

  lemma StepTallied(usage: map<string, Usage>, hits: set<Hit>, done: set<Hit>, h: Hit, tallies: map<Cluster, Tallies>,
                    hitCounts: map<Cluster, nat>, t': Tallies)
    requires h in hits && h !in done && Tallied(usage, hits, done, tallies, hitCounts)
    requires AreTallies(usage, hits, done + {h}, h.cluster, t')
    ensures Tallied(usage, hits, done + {h}, tallies[h.cluster := t'],
                    hitCounts[h.cluster := (if h.cluster in hitCounts then hitCounts[h.cluster] else 0) + 1])
  {
    hide AreTallies, HitsOfCluster, Clusters;
    ClustersStep(done, h);
    forall k | k in tallies && k != h.cluster
      ensures AreTallies(usage, hits, done + {h}, k, tallies[k])
              && HitsOfCluster(done + {h}, k) == HitsOfCluster(done, k)
    {
      OthersTallied(usage, hits, done, h, k, tallies[k]);
    }
    if h.cluster !in hitCounts {
      NoTallies(usage, hits, done, h.cluster);
    }
  }

  lemma ClustersStep(done: set<Hit>, h: Hit)
    requires h !in done
    ensures Clusters(done + {h}) == Clusters(done) + {h.cluster}
    ensures |HitsOfCluster(done + {h}, h.cluster)| == |HitsOfCluster(done, h.cluster)| + 1
  {
    assert Clusters(done + {h}) == Clusters(done) + {h.cluster};
    assert HitsOfCluster(done + {h}, h.cluster) == HitsOfCluster(done, h.cluster) + {h};
  }

  /** All known is as many known as there are. */
  lemma AvailableWhenAllKnown(usage: map<string, Usage>, hits: set<Hit>, c: Component)
    ensures |KnownHits(usage, hits, c)| == |hits| <==> AllKnown(usage, hits, c)
  {
    var known := KnownHits(usage, hits, c);
    if AllKnown(usage, hits, c) {
      assert known == hits;
    } else {
      var h :| h in hits && Known(usage, h.session, c).None?;
      SmallerSet(known, hits - {h});
    }
  }

  lemma {:induction false} SmallerSet<T>(a: set<T>, b: set<T>)
    requires a <= b
    ensures |a| <= |b|
    decreases |a|
  {
    if a != {} {
      var x :| x in a;
      SmallerSet(a - {x}, b - {x});
    }
  }

  method EstimateOf(t: Tallies, hitCount: nat) returns (e: Estimate)
    requires forall c :: c in COMPONENTS ==> c in t
    ensures forall c :: c in COMPONENTS ==> c in e && e[c] == if t[c].known == hitCount then Some(t[c].value) else None
  {
    e := map c | c in COMPONENTS :: if t[c].known == hitCount then Some(t[c].value) else None;
  }

  lemma EstimateIsRight(usage: map<string, Usage>, hits: set<Hit>, k: Cluster, t: Tallies, e: Estimate)
    requires AreTallies(usage, hits, hits, k, t)
    requires forall c :: c in COMPONENTS ==>
               c in e && e[c] == if t[c].known == |HitsOfCluster(hits, k)| then Some(t[c].value) else None
    ensures IsEstimate(usage, hits, k, e)
  {
    forall c | c in COMPONENTS
      ensures e[c].Some? <==> AllKnown(usage, HitsOfCluster(hits, k), c)
      ensures e[c].Some? ==> e[c].value == Attributed(usage, hits, c, k)
    {
      AvailableWhenAllKnown(usage, HitsOfCluster(hits, k), c);
    }
  }

  /** The loop over the clusters. */
  method EstimateAll(usage: map<string, Usage>, ghost hits: set<Hit>, tallies: map<Cluster, Tallies>,
                     hitCounts: map<Cluster, nat>)
    returns (estimates: map<Cluster, Estimate>)
    requires Tallied(usage, hits, hits, tallies, hitCounts)
    ensures estimates.Keys == Clusters(hits) && forall k :: k in estimates ==> IsEstimate(usage, hits, k, estimates[k])
  {
    hide IsEstimate, AreTallies, HitsOfCluster, Clusters;
    estimates := map[];
    var rest := hitCounts.Keys;
    while rest != {}
      invariant rest <= hitCounts.Keys && estimates.Keys == hitCounts.Keys - rest
      invariant forall k :: k in estimates ==> IsEstimate(usage, hits, k, estimates[k])
      decreases |rest|
    {
      var k :| k in rest;
      rest := rest - {k};
      TalliesHaveAll(usage, hits, k, tallies[k]);
      var e := EstimateOf(tallies[k], hitCounts[k]);
      EstimateIsRight(usage, hits, k, tallies[k], e);
      estimates := estimates[k := e];
    }
  }

  /** `_attribute_waste`. */
  method AttributeWaste(usage: map<string, Usage>, sessionHits: seq<Hit>) returns (estimates: map<Cluster, Estimate>)
    ensures var hits := set h | h in sessionHits;
            && estimates.Keys == Clusters(hits)
            && forall k :: k in estimates ==> IsEstimate(usage, hits, k, estimates[k])
  {
    hide IsEstimate, Tallied, Clusters;
    var hits := set h | h in sessionHits;
    var bySession := CountBySession(hits);
    var tallies, hitCounts := TallyHits(usage, hits, bySession);
    estimates := EstimateAll(usage, hits, tallies, hitCounts);
  }

  lemma TalliesHaveAll(usage: map<string, Usage>, hits: set<Hit>, k: Cluster, t: Tallies)
    requires AreTallies(usage, hits, hits, k, t)
    ensures forall c :: c in COMPONENTS ==> c in t
  {}

  /** The loop over the hits. */
  method TallyHits(usage: map<string, Usage>, hits: set<Hit>, bySession: map<string, nat>)
    returns (tallies: map<Cluster, Tallies>, hitCounts: map<Cluster, nat>)
    requires bySession.Keys == Sessions(hits) && forall s :: s in bySession ==> bySession[s] == |HitsOfSession(hits, s)|
    ensures Tallied(usage, hits, hits, tallies, hitCounts)
  {
    hide AreTallies, HitsOfCluster;
    tallies, hitCounts := map[], map[];
    var rest := hits;
    ghost var done: set<Hit> := {};
    while rest != {}
      invariant rest <= hits && done == hits - rest && Tallied(usage, hits, done, tallies, hitCounts)
      decreases |rest|
    {
      var h :| h in rest;
      var t := NO_TALLIES;
      if h.cluster in tallies {
        t := tallies[h.cluster];
      } else {
        NoTallies(usage, hits, done, h.cluster);
      }
      TallyHasAll(usage, hits, done, h.cluster, t);
      assert h in HitsOfSession(hits, h.session);
      var t' := AddHit(usage, h.session, bySession[h.session], t);
      HitTallied(usage, hits, done, h, t, t');
      StepTallied(usage, hits, done, h, tallies, hitCounts, t');
      tallies := tallies[h.cluster := t'];
      hitCounts := hitCounts[h.cluster := (if h.cluster in hitCounts then hitCounts[h.cluster] else 0) + 1];
      rest := rest - {h};
      done := done + {h};
    }
    assert done == hits;
  }

  lemma TallyHasAll(usage: map<string, Usage>, hits: set<Hit>, done: set<Hit>, k: Cluster, t: Tallies)
    requires AreTallies(usage, hits, done, k, t)
    ensures forall c :: c in COMPONENTS ==> c in t
  {}
}
