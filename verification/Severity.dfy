/** Severity consensus (internal/scintx/aggregator.go: computeSeverity, mergeSchemeObservations). */
module Severity {
  import opened Seqs
  import opened Findings

  datatype Scored = Scored(obs: Observation, weight: real)

  datatype SchemeKey = SchemeKey(scheme: string, version: string)

  function WeightOf(weights: map<string, real>, providerId: string): (w: real) {
    if providerId in weights then weights[providerId] else 1.0
  }

  function Weigh(w: real): Observation -> Scored {
    (o: Observation) => Scored(o, w)
  }

  function EntriesOf(weights: map<string, real>): Source -> seq<Scored> {
    (p: Source) => Map(Weigh(WeightOf(weights, p.result.providerId)), p.finding.severity)
  }

  /** All observations of a group with their provider weights, in source order. */
  function Entries(weights: map<string, real>, pairs: seq<Source>): (r: seq<Scored>) {
    FlatMap(EntriesOf(weights), pairs)
  }

  function KeyOf(e: Scored): (k: SchemeKey) {
    SchemeKey(e.obs.scheme, e.obs.version)
  }

  function OfKey(k: SchemeKey): Scored -> seq<Scored> {
    (e: Scored) => if KeyOf(e) == k then [e] else []
  }

  function EntriesFor(k: SchemeKey, entries: seq<Scored>): (r: seq<Scored>) {
    FlatMap(OfKey(k), entries)
  }

  function SchemeOrder(entries: seq<Scored>): (r: seq<SchemeKey>) {
    FirstSeen(Map(KeyOf, entries))
  }

  function KeepScored(e: Scored): (r: seq<Scored>) {
    if e.obs.score.Some? then [e] else []
  }

  function ScoreOf(e: Scored): (r: seq<real>) {
    if e.obs.score.Some? then [e.obs.score.value] else []
  }

  function WeightedScoreOf(e: Scored): (r: seq<real>) {
    if e.obs.score.Some? then [e.obs.score.value * e.weight] else []
  }

  function WeightIn(e: Scored): (r: seq<real>) {
    if e.obs.score.Some? then [e.weight] else []
  }

  function Highest(scores: seq<real>): (r: real)
    requires scores != []
  {
    if |scores| == 1 then scores[0]
    else
      var rest, last := Highest(scores[..|scores| - 1]), scores[|scores| - 1];
      if last > rest then last else rest
  }

  lemma {:induction false} HighestIsMax(scores: seq<real>)
    requires scores != []
    ensures Highest(scores) in scores
    ensures forall x :: x in scores ==> x <= Highest(scores)
    decreases |scores|
  {
    var m := |scores| - 1;
    assert scores == scores[..m] + [scores[m]];
    if m > 0 { HighestIsMax(scores[..m]); }
  }

  predicate TakesMax(strategy: string) {
    strategy != "mean" && strategy != "trust_weighted"
  }

  /** The consensus score; any strategy name other than "mean" and "trust_weighted" means the
      maximum. Trust weights that do not sum to a positive number give zero. */
  function ConsensusScore(entries: seq<Scored>, strategy: string): (r: Option<real>)
  {
    var scores := FlatMap(ScoreOf, entries);
    if scores == [] then None
    else if TakesMax(strategy) then Some(Highest(scores))
    else if strategy == "mean" then Some(Sum(scores) / |scores| as real)
    else
      var weight := Sum(FlatMap(WeightIn, entries));
      Some(if weight > 0.0 then Sum(FlatMap(WeightedScoreOf, entries)) / weight else 0.0)
  }

  /** The first entry whose score reaches `bound`, or the given observation. */
  function FirstReaching(entries: seq<Scored>, bound: real, otherwise: Observation): (r: Observation) {
    if entries == [] then otherwise
    else if entries[0].obs.score.Some? && entries[0].obs.score.value >= bound then entries[0].obs
    else FirstReaching(entries[1..], bound, otherwise)
  }

  const BLANK := Observation("", "", None, "", "", "", None)

  function Averaged(base: Observation, score: real, strategy: string): (r: Observation) {
    Observation(base.scheme, base.version, Some(score), base.level, "", "aggregated", Some(strategy))
  }

  /** One scheme's merged observation. Without a score the first observation stands as it is;
      under the maximum the first best-scored observation does; otherwise a new one is made. */
  function MergeScheme(entries: seq<Scored>, strategy: string): (r: Observation)
  {
    var scored := FlatMap(KeepScored, entries);
    var score := ConsensusScore(entries, strategy);
    if entries == [] then BLANK
    else if scored == [] || score.None? then entries[0].obs
    else if TakesMax(strategy) then FirstReaching(scored, score.value, BLANK)
    else Averaged(scored[0].obs, score.value, strategy)
  }

  function MergedAt(entries: seq<Scored>, strategy: string): SchemeKey -> Observation {
    (k: SchemeKey) => MergeScheme(EntriesFor(k, entries), strategy).(scheme := k.scheme, version := k.version)
  }

  function Consensus(pairs: seq<Source>, strategy: string, weights: map<string, real>): (r: seq<Observation>) {
    var entries := Entries(weights, pairs);
    Map(MergedAt(entries, strategy), SchemeOrder(entries))
  }

  // ---- the methods ----

  /** Dropping the unscored entries first does not change what a score collector sees. */
  lemma {:induction false} ScoredSuffice(f: Scored -> seq<real>, entries: seq<Scored>)
    requires forall e: Scored :: e.obs.score.None? ==> f(e) == []
    ensures FlatMap(f, FlatMap(KeepScored, entries)) == FlatMap(f, entries)
    decreases |entries|
  {
    if entries != [] {
      var m := |entries| - 1;
      ScoredSuffice(f, entries[..m]);
      FlatMapConcat(f, FlatMap(KeepScored, entries[..m]), KeepScored(entries[m]));
      FlatMapSnoc(f, [], entries[m]);
      assert FlatMap(f, KeepScored(entries[m])) == f(entries[m]);
    }
  }

  ghost predicate AllScored(entries: seq<Scored>) {
    forall e :: e in entries ==> e.obs.score.Some?
  }

  lemma {:induction false} ScoresOfScored(scored: seq<Scored>)
    requires AllScored(scored)
    ensures |FlatMap(ScoreOf, scored)| == |scored|
    decreases |scored|
  {
    if scored != [] {
      assert scored[|scored| - 1] in scored;
      ScoresOfScored(scored[..|scored| - 1]);
    }
  }

  method SelectScored(entries: seq<Scored>) returns (scored: seq<Scored>)
    ensures scored == FlatMap(KeepScored, entries) && AllScored(scored)
  {
    scored := [];
    for i := 0 to |entries|
      invariant scored == FlatMap(KeepScored, entries[..i])
      invariant AllScored(scored)
    {
      assert entries[..i + 1] == entries[..i] + [entries[i]];
      FlatMapSnoc(KeepScored, entries[..i], entries[i]);
      if entries[i].obs.score.Some? {
        scored := scored + [entries[i]];
      }
    }
    assert entries[..|entries|] == entries;
  }

  method HighestScore(scored: seq<Scored>) returns (final: real)
    requires scored != [] && AllScored(scored)
    ensures FlatMap(ScoreOf, scored) != [] && final == Highest(FlatMap(ScoreOf, scored))
  {
    assert forall i :: 0 <= i < |scored| ==> scored[i] in scored;
    final := scored[0].obs.score.value;
    assert FlatMap(ScoreOf, scored[..1]) == [final];
    for i := 1 to |scored|
      invariant FlatMap(ScoreOf, scored[..i]) != []
      invariant final == Highest(FlatMap(ScoreOf, scored[..i]))
    {
      assert scored[..i + 1] == scored[..i] + [scored[i]];
      FlatMapSnoc(ScoreOf, scored[..i], scored[i]);
      HighestSnoc(FlatMap(ScoreOf, scored[..i]), scored[i].obs.score.value);
      if scored[i].obs.score.value > final {
        final := scored[i].obs.score.value;
      }
    }
    assert scored[..|scored|] == scored;
  }

  lemma HighestSnoc(s: seq<real>, x: real)
    requires s != []
    ensures Highest(s + [x]) == if x > Highest(s) then x else Highest(s)
  {
    assert (s + [x])[..|s|] == s;
  }

  method SumOver(f: Scored -> seq<real>, scored: seq<Scored>) returns (sum: real)
    requires forall e :: e in scored ==> |f(e)| == 1
    ensures sum == Sum(FlatMap(f, scored))
  {
    sum := 0.0;
    for i := 0 to |scored|
      invariant sum == Sum(FlatMap(f, scored[..i]))
    {
      assert scored[..i + 1] == scored[..i] + [scored[i]];
      FlatMapSnoc(f, scored[..i], scored[i]);
      var x := f(scored[i])[0];
      assert f(scored[i]) == [x];
      SumConcat(FlatMap(f, scored[..i]), [x]);
      sum := sum + x;
    }
    assert scored[..|scored|] == scored;
  }

  method FindReaching(scored: seq<Scored>, bound: real) returns (r: Observation)
    requires AllScored(scored)
    ensures r == FirstReaching(scored, bound, BLANK)
  {
    for i := 0 to |scored|
      invariant FirstReaching(scored, bound, BLANK) == FirstReaching(scored[i..], bound, BLANK)
    {
      assert scored[i] in scored;
      if scored[i].obs.score.value >= bound {
        return scored[i].obs;
      }
    }
    return BLANK;
  }

  method MergeSchemeObservations(entries: seq<Scored>, strategy: string) returns (r: Observation)
    requires entries != []
    ensures r == MergeScheme(entries, strategy)
  {
    hide FirstReaching, Sum, Highest;
    var scored := SelectScored(entries);
    ScoredSuffice(ScoreOf, entries);
    ScoresOfScored(scored);
    if |scored| == 0 {
      return entries[0].obs;
    }
    if strategy == "mean" {
      var sum := SumOver(ScoreOf, scored);
      return Averaged(scored[0].obs, sum / |scored| as real, strategy);
    }
    if strategy == "trust_weighted" {
      ScoredSuffice(WeightedScoreOf, entries);
      ScoredSuffice(WeightIn, entries);
      var wScore := SumOver(WeightedScoreOf, scored);
      var weightSum := SumOver(WeightIn, scored);
      var final := 0.0;
      if weightSum > 0.0 {
        final := wScore / weightSum;
      }
      return Averaged(scored[0].obs, final, strategy);
    }
    var final := HighestScore(scored);
    r := FindReaching(scored, final);
  }

  /** The grouping state of the loop after the entries `done`. */
  ghost predicate Grouped(byScheme: map<SchemeKey, seq<Scored>>, order: seq<SchemeKey>, done: seq<Scored>) {
    && order == SchemeOrder(done)
    && (forall k :: k in byScheme <==> k in order)
    && (forall k :: k in byScheme ==> byScheme[k] == EntriesFor(k, done) && byScheme[k] != [])
  }

  lemma GroupedSnoc(byScheme: map<SchemeKey, seq<Scored>>, order: seq<SchemeKey>, done: seq<Scored>, e: Scored)
    requires Grouped(byScheme, order, done)
    ensures var k := KeyOf(e);
            Grouped(byScheme[k := (if k in byScheme then byScheme[k] else []) + [e]],
                    if k in byScheme then order else order + [k], done + [e])
  {
    hide KeyOf, FirstSeen, FlatMap;
    var k := KeyOf(e);
    assert Map(KeyOf, done + [e]) == Map(KeyOf, done) + [k];
    FirstSeenSnoc(Map(KeyOf, done), k);
    FirstSeenHas(Map(KeyOf, done), k);
    forall x ensures EntriesFor(x, done + [e]) == EntriesFor(x, done) + (if x == k then [e] else []) {
      FlatMapSnoc(OfKey(x), done, e);
    }
    if k !in byScheme { EntriesIff(k, done); }
  }

  /** A scheme has entries exactly when it is listed. */
  lemma EntriesIff(k: SchemeKey, done: seq<Scored>)
    ensures k in SchemeOrder(done) <==> EntriesFor(k, done) != []
  {
    hide KeyOf, FirstSeen, FlatMap;
    var keys := Map(KeyOf, done);
    FirstSeenHas(keys, k);
    if EntriesFor(k, done) != [] {
      var e := EntriesFor(k, done)[0];
      FlatMapIn(OfKey(k), done, e);
      var i :| 0 <= i < |done| && e in OfKey(k)(done[i]);
      assert keys[i] == k;
    }
    if k in keys {
      var i :| 0 <= i < |keys| && keys[i] == k;
      FlatMapHas(OfKey(k), done, done[i], done[i]);
    }
  }

  method ComputeSeverity(pairs: seq<Source>, strategy: string, weights: map<string, real>)
    returns (out: seq<Observation>)
    ensures out == Consensus(pairs, strategy, weights)
  {
    hide MergeScheme, FlatMap, FirstSeen;
    var byScheme, order := GroupByScheme(pairs, weights);
    ghost var all := Entries(weights, pairs);
    out := [];
    for i := 0 to |order|
      invariant out == Map(MergedAt(all, strategy), order[..i])
    {
      assert order[i] in order;
      var merged := MergeSchemeObservations(byScheme[order[i]], strategy);
      out := out + [merged.(scheme := order[i].scheme, version := order[i].version)];
      assert order[..i + 1] == order[..i] + [order[i]];
    }
    assert order[..|order|] == order;
  }

  method GroupByScheme(pairs: seq<Source>, weights: map<string, real>)
    returns (byScheme: map<SchemeKey, seq<Scored>>, order: seq<SchemeKey>)
    ensures Grouped(byScheme, order, Entries(weights, pairs))
  {
    hide Grouped;
    byScheme, order := map[], [];
    ghost var done: seq<Scored> := [];
    NothingGrouped();
    for i := 0 to |pairs|
      invariant done == Entries(weights, pairs[..i])
      invariant Grouped(byScheme, order, done)
    {
      var w := WeightOf(weights, pairs[i].result.providerId);
      byScheme, order := GroupObservations(pairs[i].finding.severity, w, byScheme, order, done);
      assert pairs[..i + 1] == pairs[..i] + [pairs[i]];
      FlatMapSnoc(EntriesOf(weights), pairs[..i], pairs[i]);
      done := done + Map(Weigh(w), pairs[i].finding.severity);
    }
    assert pairs[..|pairs|] == pairs;
  }

  lemma NothingGrouped()
    ensures Grouped(map[], [], [])
  {
  }

  /** The inner loop over one source's observations. */
  method GroupObservations(sev: seq<Observation>, w: real, byScheme0: map<SchemeKey, seq<Scored>>,
                           order0: seq<SchemeKey>, ghost done0: seq<Scored>)
    returns (byScheme: map<SchemeKey, seq<Scored>>, order: seq<SchemeKey>)
    requires Grouped(byScheme0, order0, done0)
    ensures Grouped(byScheme, order, done0 + Map(Weigh(w), sev))
  {
    hide Grouped;
    byScheme, order := byScheme0, order0;
    ghost var done := done0;
    for j := 0 to |sev|
      invariant done == done0 + Map(Weigh(w), sev[..j])
      invariant Grouped(byScheme, order, done)
    {
      var e := Scored(sev[j], w);
      var key := SchemeKey(sev[j].scheme, sev[j].version);
      GroupedSnoc(byScheme, order, done, e);
      if key !in byScheme {
        order := order + [key];
        byScheme := byScheme[key := [e]];
        assert [] + [e] == [e];
      } else {
        byScheme := byScheme[key := byScheme[key] + [e]];
      }
      done := done + [e];
      assert Map(Weigh(w), sev[..j + 1]) == Map(Weigh(w), sev[..j]) + [e];
    }
    assert sev[..|sev|] == sev;
  }

  // ---- what the consensus keeps ----

  lemma EntriesHas(weights: map<string, real>, pairs: seq<Source>, e: Scored)
    ensures e in Entries(weights, pairs) ==> exists p :: p in pairs && e.obs in p.finding.severity
  {
    hide WeightOf;
    FlatMapIn(EntriesOf(weights), pairs, e);
    if e in Entries(weights, pairs) {
      var p :| p in pairs && e in EntriesOf(weights)(p);
      assert e.obs in p.finding.severity;
    }
  }

  lemma EntriesCover(weights: map<string, real>, pairs: seq<Source>, p: Source, o: Observation)
    requires p in pairs && o in p.finding.severity
    ensures Scored(o, WeightOf(weights, p.result.providerId)) in Entries(weights, pairs)
  {
    var i :| 0 <= i < |p.finding.severity| && p.finding.severity[i] == o;
    var e := EntriesOf(weights)(p)[i];
    FlatMapHas(EntriesOf(weights), pairs, p, e);
  }

  lemma EntriesForHas(k: SchemeKey, entries: seq<Scored>, e: Scored)
    ensures e in EntriesFor(k, entries) <==> e in entries && KeyOf(e) == k
  {
    FlatMapIn(OfKey(k), entries, e);
  }

  /** The merged observation of a scheme carries the consensus score. */
  lemma MergeSchemeScore(entries: seq<Scored>, strategy: string)
    requires entries != []
    ensures MergeScheme(entries, strategy).score == ConsensusScore(entries, strategy)
    ensures TakesMax(strategy) ==> exists e :: e in entries && e.obs == MergeScheme(entries, strategy)
  {
    hide Sum, Highest, FlatMap, FirstReaching;
    assert entries[0] in entries;
    NoScores(entries);
    if FlatMap(ScoreOf, entries) != [] && TakesMax(strategy) { BestScored(entries); }
  }

  lemma NoScores(entries: seq<Scored>)
    requires entries != []
    ensures FlatMap(ScoreOf, entries) == [] <==> FlatMap(KeepScored, entries) == []
    ensures FlatMap(ScoreOf, entries) == [] ==> entries[0].obs.score.None?
  {
    hide FlatMap;
    var e, scores, scored := entries[0], FlatMap(ScoreOf, entries), FlatMap(KeepScored, entries);
    if e.obs.score.Some? { FlatMapHas(ScoreOf, entries, e, e.obs.score.value); }
    if scores != [] {
      FlatMapIn(ScoreOf, entries, scores[0]);
      var x :| x in entries && scores[0] in ScoreOf(x);
      FlatMapHas(KeepScored, entries, x, x);
    }
    if scored != [] {
      FlatMapIn(KeepScored, entries, scored[0]);
      FlatMapHas(ScoreOf, entries, scored[0], scored[0].obs.score.value);
    }
  }

  /** The entry picked under the maximum is one of the entries and has the highest score. */
  lemma BestScored(entries: seq<Scored>)
    requires FlatMap(ScoreOf, entries) != []
    ensures var top := Highest(FlatMap(ScoreOf, entries));
            exists e :: e in entries && e.obs == FirstReaching(FlatMap(KeepScored, entries), top, BLANK)
                        && e.obs.score == Some(top)
  {
    hide Highest, FlatMap, FirstReaching;
    var scores, scored := FlatMap(ScoreOf, entries), FlatMap(KeepScored, entries);
    var top := Highest(scores);
    HighestIsMax(scores);
    FlatMapIn(ScoreOf, entries, top);
    var x :| x in entries && top in ScoreOf(x);
    FlatMapHas(KeepScored, entries, x, x);
    FirstReachingFound(scored, top);
    var e :| e in scored && e.obs == FirstReaching(scored, top, BLANK) && e.obs.score.Some? && e.obs.score.value >= top;
    FlatMapIn(KeepScored, entries, e);
    FlatMapHas(ScoreOf, entries, e, e.obs.score.value);
  }

  lemma {:induction false} FirstReachingFound(scored: seq<Scored>, bound: real)
    requires exists e :: e in scored && e.obs.score.Some? && e.obs.score.value >= bound
    ensures exists e :: e in scored && e.obs == FirstReaching(scored, bound, BLANK)
                        && e.obs.score.Some? && e.obs.score.value >= bound
  {
    if scored[0].obs.score.Some? && scored[0].obs.score.value >= bound {
      assert scored[0] in scored;
    } else {
      var e :| e in scored && e.obs.score.Some? && e.obs.score.value >= bound;
      assert e in scored[1..];
      FirstReachingFound(scored[1..], bound);
      var x :| x in scored[1..] && x.obs == FirstReaching(scored[1..], bound, BLANK)
               && x.obs.score.Some? && x.obs.score.value >= bound;
      assert x in scored;
    }
  }

  /** Each consensus observation belongs to one listed scheme and carries that scheme's score. */
  lemma ConsensusAt(pairs: seq<Source>, strategy: string, weights: map<string, real>, o: Observation)
    requires o in Consensus(pairs, strategy, weights)
    ensures var entries := Entries(weights, pairs); var k := SchemeKey(o.scheme, o.version);
            && EntriesFor(k, entries) != []
            && o == MergeScheme(EntriesFor(k, entries), strategy).(scheme := k.scheme, version := k.version)
            && o.score == ConsensusScore(EntriesFor(k, entries), strategy)
  {
    hide MergeScheme, ConsensusScore, FlatMap, FirstSeen;
    var entries := Entries(weights, pairs);
    var order := SchemeOrder(entries);
    var i :| 0 <= i < |order| && o == MergedAt(entries, strategy)(order[i]);
    assert order[i] in order;
    EntriesIff(order[i], entries);
    MergeSchemeScore(EntriesFor(order[i], entries), strategy);
  }

  lemma ConsensusHas(pairs: seq<Source>, strategy: string, weights: map<string, real>, k: SchemeKey)
    requires EntriesFor(k, Entries(weights, pairs)) != []
    ensures exists o :: o in Consensus(pairs, strategy, weights) && o.scheme == k.scheme && o.version == k.version
                        && o.score == ConsensusScore(EntriesFor(k, Entries(weights, pairs)), strategy)
  {
    hide MergeScheme, ConsensusScore, FlatMap, FirstSeen;
    var entries := Entries(weights, pairs);
    EntriesIff(k, entries);
    var order := SchemeOrder(entries);
    var i :| 0 <= i < |order| && order[i] == k;
    var o := Consensus(pairs, strategy, weights)[i];
    MergeSchemeScore(EntriesFor(k, entries), strategy);
    assert o in Consensus(pairs, strategy, weights);
  }

  /** Under the maximum, every consensus observation is an observation of some source. */
  lemma MaxComesFromSource(pairs: seq<Source>, strategy: string, weights: map<string, real>, o: Observation)
    requires TakesMax(strategy) && o in Consensus(pairs, strategy, weights)
    ensures exists p :: p in pairs && o in p.finding.severity
  {
    hide MergeScheme, ConsensusScore, FlatMap;
    ConsensusAt(pairs, strategy, weights, o);
    var entries, k := Entries(weights, pairs), SchemeKey(o.scheme, o.version);
    MergeSchemeScore(EntriesFor(k, entries), strategy);
    var e :| e in EntriesFor(k, entries) && e.obs == MergeScheme(EntriesFor(k, entries), strategy);
    EntriesForHas(k, entries, e);
    EntriesHas(weights, pairs, e);
  }

  /** Under the maximum, no scored observation of a source exceeds the consensus of its scheme. */
  lemma MaxReachesSource(pairs: seq<Source>, strategy: string, weights: map<string, real>, p: Source, o: Observation)
    requires TakesMax(strategy) && p in pairs && o in p.finding.severity && o.score.Some?
    ensures exists m :: m in Consensus(pairs, strategy, weights) && m.scheme == o.scheme
                        && m.score.Some? && m.score.value >= o.score.value
  {
    hide MergeScheme, Consensus;
    EntriesCover(weights, pairs, p, o);
    var entries, e := Entries(weights, pairs), Scored(o, WeightOf(weights, p.result.providerId));
    var mine := EntriesFor(KeyOf(e), entries);
    EntriesForHas(KeyOf(e), entries, e);
    FlatMapHas(ScoreOf, mine, e, o.score.value);
    HighestIsMax(FlatMap(ScoreOf, mine));
    ConsensusHas(pairs, strategy, weights, KeyOf(e));
  }

  /** The consensus score depends on the entries, not on their order, for all three strategies. */
  lemma ConsensusScoreIgnoresOrder(a: seq<Scored>, b: seq<Scored>, strategy: string)
    requires multiset(a) == multiset(b)
    ensures ConsensusScore(a, strategy) == ConsensusScore(b, strategy)
  {
    hide Sum, Highest, FlatMap;
    FlatMapPerm(ScoreOf, a, b);
    FlatMapPerm(WeightIn, a, b);
    FlatMapPerm(WeightedScoreOf, a, b);
    var x, y := FlatMap(ScoreOf, a), FlatMap(ScoreOf, b);
    PermLength(x, y);
    SumPerm(x, y);
    SumPerm(FlatMap(WeightIn, a), FlatMap(WeightIn, b));
    SumPerm(FlatMap(WeightedScoreOf, a), FlatMap(WeightedScoreOf, b));
    if x != [] {
      HighestIsMax(x);
      HighestIsMax(y);
      PermHas(x, y, Highest(x));
      PermHas(x, y, Highest(y));
    }
  }

  /** A permutation of the sources yields, for each scheme and version, the same consensus score. */
  lemma ConsensusIgnoresOrder(a: seq<Source>, b: seq<Source>, strategy: string, weights: map<string, real>, o: Observation)
    requires multiset(a) == multiset(b) && o in Consensus(a, strategy, weights)
    ensures exists m :: m in Consensus(b, strategy, weights) && m.scheme == o.scheme && m.version == o.version && m.score == o.score
  {
    hide MergeScheme, ConsensusScore, FlatMap, Consensus;
    var k := SchemeKey(o.scheme, o.version);
    ConsensusAt(a, strategy, weights, o);
    FlatMapPerm(EntriesOf(weights), a, b);
    var x, y := EntriesFor(k, Entries(weights, a)), EntriesFor(k, Entries(weights, b));
    FlatMapPerm(OfKey(k), Entries(weights, a), Entries(weights, b));
    PermLength(x, y);
    ConsensusScoreIgnoresOrder(x, y, strategy);
    ConsensusHas(b, strategy, weights, k);
  }
}
