/** What the consensus score of a scheme is, said on the sources' observations themselves. */
module SeverityLaws {
  import opened Seqs
  import opened Findings
  import opened Severity

  // ---- totals over the scored observations of one scheme and version ----

  predicate Counts(o: Observation, k: SchemeKey) {
    o.scheme == k.scheme && o.version == k.version && o.score.Some?
  }

  /** What is added up over the observations: one each, the score, the provider's configured weight (one by
      default), or the score times that weight. */
  datatype Measure =
    | One
    | Score
    | Trust(weights: map<string, real>)
    | Trusted(weights: map<string, real>)

  function Measured(m: Measure, providerId: string, score: real): (r: real) {
    match m
    case One => 1.0
    case Score => score
    case Trust(weights) => if providerId in weights then weights[providerId] else 1.0
    case Trusted(weights) => var w := if providerId in weights then weights[providerId] else 1.0; score * w
  }

  function ObservedTotal(sev: seq<Observation>, k: SchemeKey, providerId: string, m: Measure): (r: real) {
    if sev == [] then 0.0
    else
      var last := sev[|sev| - 1];
      ObservedTotal(sev[..|sev| - 1], k, providerId, m) + if Counts(last, k) then Measured(m, providerId, last.score.value) else 0.0
  }

  /** The sum of the measure over every scored observation of the scheme. */
  function Total(pairs: seq<Source>, k: SchemeKey, m: Measure): (r: real) {
    if pairs == [] then 0.0
    else
      var last := pairs[|pairs| - 1];
      Total(pairs[..|pairs| - 1], k, m) + ObservedTotal(last.finding.severity, k, last.result.providerId, m)
  }

  // ---- the model's collectors compute these totals ----

  ghost predicate Collects(g: Scored -> seq<real>, m: Measure, weights: map<string, real>) {
    forall id, o: Observation :: g(Scored(o, WeightOf(weights, id))) == if o.score.Some? then [Measured(m, id, o.score.value)] else []
  }

  lemma {:induction false} ObservedSum(g: Scored -> seq<real>, m: Measure, weights: map<string, real>,
                                       k: SchemeKey, id: string, sev: seq<Observation>)
    requires Collects(g, m, weights)
    ensures Sum(FlatMap(g, EntriesFor(k, Map(Weigh(WeightOf(weights, id)), sev)))) == ObservedTotal(sev, k, id, m)
    decreases |sev|
  {
    hide Collects, FlatMap, Sum, WeightOf, OfKey, Counts, Measured, EntriesFor, Map;
    if sev == [] {
      NothingCollected(g, k);
    } else {
      var n, w := |sev| - 1, WeightOf(weights, id);
      var e, before := Scored(sev[n], w), Map(Weigh(w), sev[..n]);
      ObservedSum(g, m, weights, k, id, sev[..n]);
      WeighSnoc(w, sev);
      CollectedSnoc(g, k, before, e);
      CollectedOne(g, m, weights, k, id, sev[n]);
    }
  }

  lemma NothingCollected(g: Scored -> seq<real>, k: SchemeKey)
    ensures forall w :: Sum(FlatMap(g, EntriesFor(k, Map(Weigh(w), [])))) == 0.0
  {
    forall w ensures Map(Weigh(w), []) == [] {
    }
  }

  lemma WeighSnoc(w: real, sev: seq<Observation>)
    requires sev != []
    ensures var n := |sev| - 1; Map(Weigh(w), sev) == Map(Weigh(w), sev[..n]) + [Scored(sev[n], w)]
  {
  }

  lemma CollectedSnoc(g: Scored -> seq<real>, k: SchemeKey, before: seq<Scored>, e: Scored)
    ensures Sum(FlatMap(g, EntriesFor(k, before + [e]))) == Sum(FlatMap(g, EntriesFor(k, before))) + Sum(FlatMap(g, OfKey(k)(e)))
  {
    hide FlatMap, Sum, OfKey;
    FlatMapSnoc(OfKey(k), before, e);
    FlatMapConcat(g, EntriesFor(k, before), OfKey(k)(e));
    SumConcat(FlatMap(g, EntriesFor(k, before)), FlatMap(g, OfKey(k)(e)));
  }

  lemma CollectedOne(g: Scored -> seq<real>, m: Measure, weights: map<string, real>,
                     k: SchemeKey, id: string, o: Observation)
    requires Collects(g, m, weights)
    ensures Sum(FlatMap(g, OfKey(k)(Scored(o, WeightOf(weights, id))))) == if Counts(o, k) then Measured(m, id, o.score.value) else 0.0
  {
    hide WeightOf;
    var e := Scored(o, WeightOf(weights, id));
    FlatMapSnoc(g, [], e);
    assert [] + [e] == [e];
    assert g(e) == if o.score.Some? then [Measured(m, id, o.score.value)] else [];
  }

  lemma CollectedConcat(g: Scored -> seq<real>, k: SchemeKey, a: seq<Scored>, b: seq<Scored>)
    ensures Sum(FlatMap(g, EntriesFor(k, a + b))) == Sum(FlatMap(g, EntriesFor(k, a))) + Sum(FlatMap(g, EntriesFor(k, b)))
  {
    hide FlatMap, Sum, OfKey;
    FlatMapConcat(OfKey(k), a, b);
    FlatMapConcat(g, EntriesFor(k, a), EntriesFor(k, b));
    SumConcat(FlatMap(g, EntriesFor(k, a)), FlatMap(g, EntriesFor(k, b)));
  }

  lemma EntriesSnoc(weights: map<string, real>, pairs: seq<Source>)
    requires pairs != []
    ensures var last := pairs[|pairs| - 1];
            Entries(weights, pairs) == Entries(weights, pairs[..|pairs| - 1]) + Map(Weigh(WeightOf(weights, last.result.providerId)), last.finding.severity)
  {
    hide WeightOf, Map, Weigh;
  }

  lemma NoEntries(g: Scored -> seq<real>, k: SchemeKey, weights: map<string, real>)
    ensures Sum(FlatMap(g, EntriesFor(k, Entries(weights, [])))) == 0.0
  {
  }

  lemma {:induction false} TotalSum(g: Scored -> seq<real>, m: Measure, weights: map<string, real>,
                                    k: SchemeKey, pairs: seq<Source>)
    requires Collects(g, m, weights)
    ensures Sum(FlatMap(g, EntriesFor(k, Entries(weights, pairs)))) == Total(pairs, k, m)
    decreases |pairs|
  {
    hide Collects, FlatMap, Sum, WeightOf, Map, Weigh, Entries, EntriesFor, ObservedTotal;
    if pairs == [] {
      NoEntries(g, k, weights);
    } else {
      var n := |pairs| - 1;
      var id, sev := pairs[n].result.providerId, pairs[n].finding.severity;
      TotalSum(g, m, weights, k, pairs[..n]);
      ObservedSum(g, m, weights, k, id, sev);
      EntriesSnoc(weights, pairs);
      CollectedConcat(g, k, Entries(weights, pairs[..n]), Map(Weigh(WeightOf(weights, id)), sev));
    }
  }

  function OneOf(e: Scored): (r: seq<real>) {
    if e.obs.score.Some? then [1.0] else []
  }

  lemma {:induction false} CountIsSum(entries: seq<Scored>)
    ensures |FlatMap(ScoreOf, entries)| as real == Sum(FlatMap(OneOf, entries))
    decreases |entries|
  {
    if entries != [] {
      var n := |entries| - 1;
      CountIsSum(entries[..n]);
      SumConcat(FlatMap(OneOf, entries[..n]), OneOf(entries[n]));
    }
  }

  lemma SameProduct(x: real, a: real, b: real)
    requires a == b
    ensures x * a == x * b
  {
  }

  lemma WeighedOne(weights: map<string, real>, id: string, o: Observation)
    requires o.score.Some?
    ensures WeightedScoreOf(Scored(o, WeightOf(weights, id))) == [Measured(Trusted(weights), id, o.score.value)]
  {
    var s, w := o.score.value, WeightOf(weights, id);
    var r := WeightedScoreOf(Scored(o, w));
    assert |r| == 1 && r[0] == s * w;
    assert Measured(Trusted(weights), id, s) == s * w;
  }

  lemma Collectors(weights: map<string, real>)
    ensures Collects(OneOf, One, weights) && Collects(ScoreOf, Score, weights)
    ensures Collects(WeightIn, Trust(weights), weights) && Collects(WeightedScoreOf, Trusted(weights), weights)
  {
    forall id, o: Observation | o.score.Some?
      ensures WeightedScoreOf(Scored(o, WeightOf(weights, id))) == [Measured(Trusted(weights), id, o.score.value)] {
      WeighedOne(weights, id, o);
    }
  }

  // ---- laws of totals ----

  /** On every scored observation, `a` lies between `lo` times and `hi` times `b`. */
  ghost predicate Bounded(pairs: seq<Source>, k: SchemeKey, a: Measure, b: Measure, lo: real, hi: real) {
    forall p, o :: p in pairs && o in p.finding.severity && Counts(o, k) ==> Between(p.result.providerId, o.score.value, a, b, lo, hi)
  }

  predicate Ratio(x: real, n: real, lo: real, hi: real) {
    lo * n <= x <= hi * n
  }

  predicate Between(id: string, score: real, a: Measure, b: Measure, lo: real, hi: real) {
    Ratio(Measured(a, id, score), Measured(b, id, score), lo, hi)
  }

  lemma RatioAdds(x: real, n: real, y: real, k: real, lo: real, hi: real)
    requires Ratio(x, n, lo, hi) && Ratio(y, k, lo, hi)
    ensures Ratio(x + y, n + k, lo, hi)
  {
    assert lo * (n + k) == lo * n + lo * k;
    assert hi * (n + k) == hi * n + hi * k;
  }

  lemma RatioZero(lo: real, hi: real)
    ensures Ratio(0.0, 0.0, lo, hi)
  {
  }

  lemma {:induction false} ObservedBounded(sev: seq<Observation>, k: SchemeKey, id: string, a: Measure, b: Measure, lo: real, hi: real)
    requires forall o :: o in sev && Counts(o, k) ==> Between(id, o.score.value, a, b, lo, hi)
    ensures Ratio(ObservedTotal(sev, k, id, a), ObservedTotal(sev, k, id, b), lo, hi)
    decreases |sev|
  {
    hide Measured, Ratio;
    RatioZero(lo, hi);
    if sev != [] {
      var last, before := sev[|sev| - 1], sev[..|sev| - 1];
      assert last in sev;
      ObservedBounded(before, k, id, a, b, lo, hi);
      if Counts(last, k) {
        assert Between(id, last.score.value, a, b, lo, hi);
        RatioAdds(ObservedTotal(before, k, id, a), ObservedTotal(before, k, id, b),
                  Measured(a, id, last.score.value), Measured(b, id, last.score.value), lo, hi);
      }
    }
  }

  lemma {:induction false} TotalBounded(pairs: seq<Source>, k: SchemeKey, a: Measure, b: Measure, lo: real, hi: real)
    requires Bounded(pairs, k, a, b, lo, hi)
    ensures Ratio(Total(pairs, k, a), Total(pairs, k, b), lo, hi)
    decreases |pairs|
  {
    hide ObservedTotal, Counts, Between, Ratio;
    RatioZero(lo, hi);
    if pairs != [] {
      var last, before := pairs[|pairs| - 1], pairs[..|pairs| - 1];
      assert last in pairs;
      TotalBounded(before, k, a, b, lo, hi);
      var id, sev := last.result.providerId, last.finding.severity;
      ObservedBounded(sev, k, id, a, b, lo, hi);
      RatioAdds(Total(before, k, a), Total(before, k, b), ObservedTotal(sev, k, id, a), ObservedTotal(sev, k, id, b), lo, hi);
    }
  }

  // ---- the score ----

  /** The consensus score, in the totals: none when nothing is scored; the mean times the number of
      scored observations is their sum; the trust-weighted score times the total weight is the weighted
      sum, or it is zero without a positive total. */
  ghost predicate ScoreFits(pairs: seq<Source>, strategy: string, weights: map<string, real>, k: SchemeKey, score: Option<real>) {
    && (score.Some? <==> Total(pairs, k, One) > 0.0)
    && (score.Some? && strategy == "mean" ==> score.value * Total(pairs, k, One) == Total(pairs, k, Score))
    && (score.Some? && strategy == "trust_weighted" ==>
          if Total(pairs, k, Trust(weights)) > 0.0
          then score.value * Total(pairs, k, Trust(weights)) == Total(pairs, k, Trusted(weights))
          else score.value == 0.0)
  }

  lemma ScoreFitsEntries(pairs: seq<Source>, strategy: string, weights: map<string, real>, k: SchemeKey)
    ensures ScoreFits(pairs, strategy, weights, k, ConsensusScore(EntriesFor(k, Entries(weights, pairs)), strategy))
  {
    hide Sum, FlatMap, Highest, Total, Collects, EntriesFor, Entries;
    var mine := EntriesFor(k, Entries(weights, pairs));
    Collectors(weights);
    TotalSum(OneOf, One, weights, k, pairs);
    TotalSum(ScoreOf, Score, weights, k, pairs);
    TotalSum(WeightIn, Trust(weights), weights, k, pairs);
    TotalSum(WeightedScoreOf, Trusted(weights), weights, k, pairs);
    CountIsSum(mine);
  }

  /** Every consensus observation carries the score that its scheme's observations make. */
  lemma ConsensusFits(pairs: seq<Source>, strategy: string, weights: map<string, real>, o: Observation)
    requires o in Consensus(pairs, strategy, weights)
    ensures ScoreFits(pairs, strategy, weights, SchemeKey(o.scheme, o.version), o.score)
  {
    hide Consensus, ScoreFits, ConsensusScore, MergeScheme;
    ConsensusAt(pairs, strategy, weights, o);
    ScoreFitsEntries(pairs, strategy, weights, SchemeKey(o.scheme, o.version));
  }

  ghost predicate Within(pairs: seq<Source>, k: SchemeKey, lo: real, hi: real) {
    forall p, o :: p in pairs && o in p.finding.severity && Counts(o, k) ==> lo <= o.score.value <= hi
  }

  lemma Quotient(x: real, n: real, sum: real, lo: real, hi: real)
    requires n > 0.0 && x * n == sum && Ratio(sum, n, lo, hi)
    ensures lo <= x <= hi
  {
    assert x < lo ==> (lo - x) * n > 0.0;
    assert x > hi ==> (x - hi) * n > 0.0;
  }

  /** A mean lies between any bounds on the scores. */
  lemma MeanWithin(pairs: seq<Source>, weights: map<string, real>, o: Observation, lo: real, hi: real)
    requires o in Consensus(pairs, "mean", weights) && o.score.Some?
    requires Within(pairs, SchemeKey(o.scheme, o.version), lo, hi)
    ensures lo <= o.score.value <= hi
  {
    hide Consensus, Total;
    var k := SchemeKey(o.scheme, o.version);
    ConsensusFits(pairs, "mean", weights, o);
    TotalBounded(pairs, k, Score, One, lo, hi);
    Quotient(o.score.value, Total(pairs, k, One), Total(pairs, k, Score), lo, hi);
  }

  lemma ScaledBelow(x: real, y: real, w: real)
    requires x <= y && w >= 0.0
    ensures x * w <= y * w
  {
  }

  /** So does a trust-weighted score, when no weight is negative and their total is positive. */
  lemma TrustedWithin(pairs: seq<Source>, weights: map<string, real>, o: Observation, lo: real, hi: real)
    requires o in Consensus(pairs, "trust_weighted", weights) && o.score.Some?
    requires Within(pairs, SchemeKey(o.scheme, o.version), lo, hi)
    requires forall id :: id in weights ==> weights[id] >= 0.0
    requires Total(pairs, SchemeKey(o.scheme, o.version), Trust(weights)) > 0.0
    ensures lo <= o.score.value <= hi
  {
    hide Consensus, Total;
    var k, w := SchemeKey(o.scheme, o.version), Trust(weights);
    ConsensusFits(pairs, "trust_weighted", weights, o);
    forall p, x | p in pairs && x in p.finding.severity && Counts(x, k)
      ensures Between(p.result.providerId, x.score.value, Trusted(weights), w, lo, hi) {
      ScaledBelow(lo, x.score.value, Measured(w, p.result.providerId, x.score.value));
      ScaledBelow(x.score.value, hi, Measured(w, p.result.providerId, x.score.value));
    }
    TotalBounded(pairs, k, Trusted(weights), w, lo, hi);
    Quotient(o.score.value, Total(pairs, k, w), Total(pairs, k, Trusted(weights)), lo, hi);
  }

  ghost predicate SameWeights(pairs: seq<Source>, weights: map<string, real>, c: real) {
    forall p :: p in pairs ==> (if p.result.providerId in weights then weights[p.result.providerId] else 1.0) == c
  }

  lemma SameWeightTotals(pairs: seq<Source>, weights: map<string, real>, k: SchemeKey, c: real)
    requires SameWeights(pairs, weights, c)
    ensures Total(pairs, k, Trust(weights)) == c * Total(pairs, k, One)
    ensures Total(pairs, k, Trusted(weights)) == c * Total(pairs, k, Score)
  {
    hide Total;
    forall p, s | p in pairs
      ensures Between(p.result.providerId, s, Trust(weights), One, c, c)
      ensures Between(p.result.providerId, s, Trusted(weights), Score, c, c) {
      SameProduct(s, c, Measured(Trust(weights), p.result.providerId, s));
    }
    TotalBounded(pairs, k, Trust(weights), One, c, c);
    TotalBounded(pairs, k, Trusted(weights), Score, c, c);
  }

  /** Equal positive weights make the trust-weighted score the mean. */
  lemma EqualWeightsGiveMean(pairs: seq<Source>, weights: map<string, real>, c: real, o: Observation, m: Observation)
    requires c > 0.0 && SameWeights(pairs, weights, c)
    requires o in Consensus(pairs, "trust_weighted", weights) && m in Consensus(pairs, "mean", weights)
    requires o.scheme == m.scheme && o.version == m.version
    ensures o.score == m.score
  {
    hide Consensus, Total;
    var k := SchemeKey(o.scheme, o.version);
    ConsensusFits(pairs, "trust_weighted", weights, o);
    ConsensusFits(pairs, "mean", weights, m);
    SameWeightTotals(pairs, weights, k, c);
    if o.score.Some? {
      var n, s := Total(pairs, k, One), Total(pairs, k, Score);
      SameQuotient(o.score.value, m.score.value, c, n, s);
    }
  }

  lemma SameQuotient(x: real, y: real, c: real, n: real, s: real)
    requires c > 0.0 && n > 0.0 && y * n == s
    requires c * n > 0.0 ==> x * (c * n) == c * s
    ensures x == y
  {
    assert c * n > 0.0;
    assert c * s == y * (c * n);
    assert (x - y) * (c * n) == 0.0;
  }

  // ---- which observations there are, and whose ----

  /** One observation for each scheme and version that some source observes, and no other. */
  lemma ConsensusSchemes(pairs: seq<Source>, strategy: string, weights: map<string, real>)
    ensures var c := Consensus(pairs, strategy, weights);
            && (forall i, j :: 0 <= i < j < |c| ==> SchemeKey(c[i].scheme, c[i].version) != SchemeKey(c[j].scheme, c[j].version))
            && (forall k :: (exists o :: o in c && SchemeKey(o.scheme, o.version) == k) <==> Observed(pairs, k))
  {
    hide MergeScheme, FlatMap, FirstSeen;
    var c, entries := Consensus(pairs, strategy, weights), Entries(weights, pairs);
    FirstSeenDistinct(Map(KeyOf, entries));
    forall k ensures (exists o :: o in c && SchemeKey(o.scheme, o.version) == k) <==> Observed(pairs, k) {
      if o :| o in c && SchemeKey(o.scheme, o.version) == k {
        ConsensusAt(pairs, strategy, weights, o);
        var e := EntriesFor(k, entries)[0];
        EntriesForHas(k, entries, e);
        EntriesHas(weights, pairs, e);
      }
      if p, o :| p in pairs && o in p.finding.severity && SchemeKey(o.scheme, o.version) == k {
        EntriesCover(weights, pairs, p, o);
        EntriesForHas(k, entries, Scored(o, WeightOf(weights, p.result.providerId)));
        ConsensusHas(pairs, strategy, weights, k);
      }
    }
  }

  ghost predicate Observed(pairs: seq<Source>, k: SchemeKey) {
    exists p, o :: p in pairs && o in p.finding.severity && SchemeKey(o.scheme, o.version) == k
  }

  /** The first scored entry. */
  ghost predicate FirstScored(entries: seq<Scored>, i: int) {
    0 <= i < |entries| && entries[i].obs.score.Some? && forall j :: 0 <= j < i ==> entries[j].obs.score.None?
  }

  /** The first entry whose score no other exceeds. */
  ghost predicate FirstHighest(entries: seq<Scored>, i: int) {
    && 0 <= i < |entries| && entries[i].obs.score.Some?
    && (forall j :: 0 <= j < |entries| && entries[j].obs.score.Some? ==> entries[j].obs.score.value <= entries[i].obs.score.value)
    && (forall j :: 0 <= j < i && entries[j].obs.score.Some? ==> entries[j].obs.score.value < entries[i].obs.score.value)
  }

  lemma {:induction false} ScoredHead(entries: seq<Scored>)
    ensures var scored := FlatMap(KeepScored, entries);
            if scored == [] then forall i :: 0 <= i < |entries| ==> entries[i].obs.score.None?
            else exists i :: FirstScored(entries, i) && scored[0] == entries[i]
    decreases |entries|
  {
    if entries != [] {
      var n := |entries| - 1;
      var before := entries[..n];
      ScoredHead(before);
      assert FlatMap(KeepScored, entries) == FlatMap(KeepScored, before) + KeepScored(entries[n]);
      hide FlatMap;
      if FlatMap(KeepScored, before) != [] {
        var i :| FirstScored(before, i) && FlatMap(KeepScored, before)[0] == before[i];
        assert entries[i] == before[i] && FirstScored(entries, i);
      } else if entries[n].obs.score.Some? {
        assert FirstScored(entries, n);
      }
    }
  }

  lemma {:induction false} ReachingSkips(entries: seq<Scored>, bound: real, otherwise: Observation)
    ensures FirstReaching(FlatMap(KeepScored, entries), bound, otherwise) == FirstReaching(entries, bound, otherwise)
  {
    if entries != [] {
      hide FlatMap;
      var e, rest := entries[0], entries[1..];
      assert entries == [e] + rest;
      FlatMapConcat(KeepScored, [e], rest);
      FlatMapSnoc(KeepScored, [], e);
      assert [] + [e] == [e] && FlatMap(KeepScored, []) == [] by { EmptyFlatMap(KeepScored); }
      ReachingSkips(rest, bound, otherwise);
      if e.obs.score.Some? {
        assert ([e] + FlatMap(KeepScored, rest))[1..] == FlatMap(KeepScored, rest);
      } else {
        assert [] + FlatMap(KeepScored, rest) == FlatMap(KeepScored, rest);
      }
    }
  }

  lemma EmptyFlatMap<T, U>(f: T -> seq<U>)
    ensures FlatMap(f, []) == []
  {
  }

  lemma {:induction false} ReachingAt(entries: seq<Scored>, bound: real, otherwise: Observation)
    requires exists e :: e in entries && e.obs.score.Some? && e.obs.score.value >= bound
    ensures exists i :: 0 <= i < |entries| && entries[i].obs == FirstReaching(entries, bound, otherwise)
                        && entries[i].obs.score.Some? && entries[i].obs.score.value >= bound
                        && forall j :: 0 <= j < i && entries[j].obs.score.Some? ==> entries[j].obs.score.value < bound
  {
    if !(entries[0].obs.score.Some? && entries[0].obs.score.value >= bound) {
      var rest := entries[1..];
      var e :| e in entries && e.obs.score.Some? && e.obs.score.value >= bound;
      assert e in rest;
      ReachingAt(rest, bound, otherwise);
      var i :| 0 <= i < |rest| && rest[i].obs == FirstReaching(rest, bound, otherwise)
               && rest[i].obs.score.Some? && rest[i].obs.score.value >= bound
               && forall j :: 0 <= j < i && rest[j].obs.score.Some? ==> rest[j].obs.score.value < bound;
      assert entries[i + 1] == rest[i];
      assert forall j :: 1 <= j < i + 1 ==> entries[j] == rest[j - 1];
    }
  }

  lemma HighestEntry(entries: seq<Scored>)
    requires FlatMap(ScoreOf, entries) != []
    ensures exists i :: FirstHighest(entries, i)
                        && entries[i].obs == FirstReaching(FlatMap(KeepScored, entries), Highest(FlatMap(ScoreOf, entries)), BLANK)
  {
    hide FlatMap, FirstReaching, Highest;
    var scores := FlatMap(ScoreOf, entries);
    var top := Highest(scores);
    HighestIsMax(scores);
    FlatMapIn(ScoreOf, entries, top);
    ReachingSkips(entries, top, BLANK);
    ReachingAt(entries, top, BLANK);
    forall e | e in entries && e.obs.score.Some? ensures e.obs.score.value <= top {
      FlatMapHas(ScoreOf, entries, e, e.obs.score.value);
    }
    var i :| 0 <= i < |entries| && entries[i].obs == FirstReaching(entries, top, BLANK)
             && entries[i].obs.score.Some? && entries[i].obs.score.value >= top
             && forall j :: 0 <= j < i && entries[j].obs.score.Some? ==> entries[j].obs.score.value < top;
    assert FirstHighest(entries, i);
  }

  /** Without scores the first observation stands; under the maximum the first highest does; otherwise the
      new one has the scheme, version and level of the first scored and names the strategy. */
  lemma MergedObservation(entries: seq<Scored>, strategy: string)
    requires entries != []
    ensures var r := MergeScheme(entries, strategy);
            if forall i :: 0 <= i < |entries| ==> entries[i].obs.score.None? then r == entries[0].obs
            else if strategy != "mean" && strategy != "trust_weighted" then exists i :: FirstHighest(entries, i) && r == entries[i].obs
            else exists i :: FirstScored(entries, i) && r.score.Some?
                             && r == Observation(entries[i].obs.scheme, entries[i].obs.version, r.score,
                                                 entries[i].obs.level, "", "aggregated", Some(strategy))
  {
    hide FlatMap, FirstReaching, Highest, Sum, FirstHighest;
    NoScores(entries);
    ScoredHead(entries);
    if FlatMap(ScoreOf, entries) != [] {
      var i :| FirstScored(entries, i) && FlatMap(KeepScored, entries)[0] == entries[i];
      HighestEntry(entries);
    }
  }
}
