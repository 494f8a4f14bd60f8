/** Cross-provider aggregation (internal/scintx/aggregator.go: Aggregate, buildMergedFinding,
    mergeIdentifiers) and the laws of the grouping. */
module Aggregator {
  import opened Seqs
  import opened Strings
  import opened Findings
  import opened Correlation
  import Assessments
  import Severity

  // ---- identifiers ----

  function IdsOf(p: Source): (r: seq<Identifier>) {
    p.finding.identifiers
  }

  function AllIds(pairs: seq<Source>): (r: seq<Identifier>) {
    FlatMap(IdsOf, pairs)
  }

  /** The first identifier whose normal form is `norm`. */
  function FirstWithNorm(ids: seq<Identifier>, norm: string): (r: Identifier) {
    if ids == [] then Identifier("", "")
    else if Norm(ids[0]) == norm then ids[0]
    else FirstWithNorm(ids[1..], norm)
  }

  function PickFrom(ids: seq<Identifier>): string -> Identifier {
    (norm: string) => FirstWithNorm(ids, norm)
  }

  function MergedIdentifiers(pairs: seq<Source>): (r: seq<Identifier>) {
    Map(PickFrom(AllIds(pairs)), CanonicalNorms(AllIds(pairs)))
  }

  lemma {:induction false} FirstWithNormAt(ids: seq<Identifier>, norm: string, i: nat)
    requires i < |ids| && Norm(ids[i]) == norm
    requires forall j :: 0 <= j < i ==> Norm(ids[j]) != norm
    ensures FirstWithNorm(ids, norm) == ids[i]
  {
    hide Norm;
    if i > 0 { FirstWithNormAt(ids[1..], norm, i - 1); }
  }

  lemma {:induction false} FirstWithNormFound(ids: seq<Identifier>, norm: string)
    requires NormOccurs(ids, norm)
    ensures FirstWithNorm(ids, norm) in ids && Norm(FirstWithNorm(ids, norm)) == norm
  {
    hide Norm;
    if Norm(ids[0]) != norm {
      var id :| id in ids && Norm(id) == norm;
      assert id in ids[1..];
      FirstWithNormFound(ids[1..], norm);
    }
  }

  method CollectIdentifiers(pairs: seq<Source>) returns (all: seq<Identifier>)
    ensures all == AllIds(pairs)
  {
    all := [];
    for i := 0 to |pairs|
      invariant all == AllIds(pairs[..i])
    {
      assert pairs[..i + 1] == pairs[..i] + [pairs[i]];
      FlatMapSnoc(IdsOf, pairs[..i], pairs[i]);
      all := all + pairs[i].finding.identifiers;
    }
    assert pairs[..|pairs|] == pairs;
  }

  method IndexByNorm(all: seq<Identifier>) returns (normToId: map<string, Identifier>)
    ensures forall n :: n in normToId ==> normToId[n] == FirstWithNorm(all, n)
    ensures forall i :: 0 <= i < |all| ==> Norm(all[i]) in normToId
  {
    hide Norm, FirstWithNorm;
    normToId := map[];
    for i := 0 to |all|
      invariant forall n :: n in normToId ==> normToId[n] == FirstWithNorm(all, n)
      invariant forall j :: 0 <= j < i ==> Norm(all[j]) in normToId
      invariant forall n :: n in normToId ==> exists j :: 0 <= j < i && Norm(all[j]) == n
    {
      var norm := Norm(all[i]);
      if norm !in normToId {
        FirstWithNormAt(all, norm, i);
        normToId := normToId[norm := all[i]];
      }
    }
  }

  method MergeIdentifiers(pairs: seq<Source>) returns (out: seq<Identifier>)
    ensures out == MergedIdentifiers(pairs)
  {
    hide CanonicalNorms, FirstWithNorm, Norm, FlatMap;
    var all := CollectIdentifiers(pairs);
    var norms := CanonicalIdentifiers(all);
    var normToId := IndexByNorm(all);
    CanonicalNormsLaw(all);
    out := [];
    for i := 0 to |norms|
      invariant out == Map(PickFrom(all), norms[..i])
    {
      assert norms[i] in norms;
      var id :| id in all && Norm(id) == norms[i];
      out := out + [normToId[norms[i]]];
      assert norms[..i + 1] == norms[..i] + [norms[i]];
    }
    assert norms[..|norms|] == norms;
  }

  /** The identifiers of a merged finding: one source identifier per distinct non-blank normal
      form of the group, CVEs first and both parts in normal-form order. */
  lemma MergedIdentifiersLaw(pairs: seq<Source>)
    ensures var ids, norms := MergedIdentifiers(pairs), CanonicalNorms(AllIds(pairs));
            && |ids| == |norms|
            && (forall i :: 0 <= i < |ids| ==> ids[i] in AllIds(pairs) && Norm(ids[i]) == norms[i])
            && Distinct(norms)
            && (forall n :: n in norms <==> NormOccurs(AllIds(pairs), n))
            && (forall i, j :: 0 <= i < j < |norms| && IsCve(norms[j]) ==> IsCve(norms[i]))
            && (forall i, j :: 0 <= i < j < |norms| && IsCve(norms[i]) == IsCve(norms[j]) ==> LexLe(norms[i], norms[j]))
  {
    hide CanonicalNorms, FirstWithNorm, Norm, FlatMap, IsCve, NormOccurs;
    var all := AllIds(pairs);
    var ids, norms := MergedIdentifiers(pairs), CanonicalNorms(all);
    CanonicalNormsLaw(all);
    forall i | 0 <= i < |ids| ensures ids[i] in all && Norm(ids[i]) == norms[i] {
      assert norms[i] in norms;
      FirstWithNormFound(all, norms[i]);
    }
  }

  // ---- one merged finding ----

  function LongestTitle(pairs: seq<Source>): (r: string) {
    if pairs == [] then ""
    else if |pairs| == 1 then pairs[0].finding.title
    else
      var best, last := LongestTitle(pairs[..|pairs| - 1]), pairs[|pairs| - 1].finding.title;
      if |last| > |best| then last else best
  }

  function SourceRef(p: Source): (r: FindingSource) {
    FindingSource(p.result.providerId, p.result.id, p.finding.id)
  }

  function TypeOf(pairs: seq<Source>): (r: string) {
    if pairs == [] then "" else pairs[0].finding.typ
  }

  function BuildMerged(key: string, pairs: seq<Source>, strategy: string, weights: map<string, real>): (r: MergedFinding)
  {
    MergedFinding(key, TypeOf(pairs), LongestTitle(pairs), MergedIdentifiers(pairs), Map(SourceRef, pairs),
                  Severity.Consensus(pairs, strategy, weights), Assessments.Reconciled(pairs),
                  strategy, |pairs|, Assessments.Conflicts(pairs))
  }

  method PickTitle(pairs: seq<Source>) returns (title: string)
    requires pairs != []
    ensures title == LongestTitle(pairs)
  {
    title := pairs[0].finding.title;
    for i := 1 to |pairs|
      invariant title == LongestTitle(pairs[..i])
    {
      assert pairs[..i + 1][..i] == pairs[..i];
      if |pairs[i].finding.title| > |title| {
        title := pairs[i].finding.title;
      }
    }
    assert pairs[..|pairs|] == pairs;
  }

  /** The title is one of the group's and none is longer. */
  lemma {:induction false} LongestTitleLaw(pairs: seq<Source>)
    requires pairs != []
    ensures exists p :: p in pairs && p.finding.title == LongestTitle(pairs)
    ensures forall p :: p in pairs ==> |p.finding.title| <= |LongestTitle(pairs)|
    decreases |pairs|
  {
    var m := |pairs| - 1;
    assert pairs == pairs[..m] + [pairs[m]];
    if m == 0 {
      assert pairs[0] in pairs;
    } else {
      LongestTitleLaw(pairs[..m]);
      var p :| p in pairs[..m] && p.finding.title == LongestTitle(pairs[..m]);
      assert p in pairs && pairs[m] in pairs;
    }
  }

  method BuildMergedFinding(key: string, pairs: seq<Source>, strategy: string, weights: map<string, real>)
    returns (mf: MergedFinding)
    requires pairs != []
    ensures mf == BuildMerged(key, pairs, strategy, weights)
  {
    hide LongestTitle, MergedIdentifiers, Severity.Consensus, Assessments.Reconciled, Assessments.Conflicts;
    var sources: seq<FindingSource> := [];
    for i := 0 to |pairs|
      invariant sources == Map(SourceRef, pairs[..i])
    {
      sources := sources + [SourceRef(pairs[i])];
      assert pairs[..i + 1] == pairs[..i] + [pairs[i]];
    }
    assert pairs[..|pairs|] == pairs;
    var title := PickTitle(pairs);
    var assessment, conflicts := Assessments.ReconcileAssessment(pairs);
    var severity := Severity.ComputeSeverity(pairs, strategy, weights);
    var ids := MergeIdentifiers(pairs);
    mf := MergedFinding(key, pairs[0].finding.typ, title, ids, sources, severity, assessment,
                        strategy, |pairs|, conflicts);
  }

  // ---- grouping ----

  function SourceFrom(r: ProviderResult): Finding -> Source {
    (f: Finding) => Source(r, f)
  }

  function SourcesOf(r: ProviderResult): (s: seq<Source>) {
    if r.status == Completed then Map(SourceFrom(r), r.findings) else []
  }

  /** Every observation of every completed result, in input order. */
  function AllSources(results: seq<ProviderResult>): (s: seq<Source>) {
    FlatMap(SourcesOf, results)
  }

  function KeyFor(hash: string -> string): Source -> string {
    (s: Source) => Key(hash, s)
  }

  function GroupKeys(hash: string -> string, sources: seq<Source>): (r: seq<string>) {
    FirstSeen(Map(KeyFor(hash), sources))
  }

  function WithKey(hash: string -> string, k: string): Source -> seq<Source> {
    (s: Source) => if Key(hash, s) == k then [s] else []
  }

  function Group(hash: string -> string, k: string, sources: seq<Source>): (r: seq<Source>) {
    FlatMap(WithKey(hash, k), sources)
  }

  function MergeGroup(hash: string -> string, sources: seq<Source>, strategy: string, weights: map<string, real>)
    : string -> MergedFinding
  {
    (k: string) => BuildMerged(k, Group(hash, k, sources), strategy, weights)
  }

  function EffectiveStrategy(strategy: string): (r: string) {
    if strategy == "" then "max" else strategy
  }

  /** The merged findings of a result list. */
  function Aggregated(hash: string -> string, results: seq<ProviderResult>, strategy: string, weights: map<string, real>)
    : (r: seq<MergedFinding>)
  {
    var sources := AllSources(results);
    Map(MergeGroup(hash, sources, EffectiveStrategy(strategy), weights), GroupKeys(hash, sources))
  }

  /** A group holds exactly the sources with its key; it is non-empty exactly for the listed keys. */
  lemma GroupHas(hash: string -> string, k: string, sources: seq<Source>)
    ensures forall s :: s in Group(hash, k, sources) <==> s in sources && Key(hash, s) == k
    ensures k in GroupKeys(hash, sources) <==> Group(hash, k, sources) != []
  {
    hide Key, FlatMap, FirstSeen;
    forall s ensures s in Group(hash, k, sources) <==> s in sources && Key(hash, s) == k {
      FlatMapIn(WithKey(hash, k), sources, s);
    }
    KeyListed(hash, k, sources);
    if Group(hash, k, sources) != [] { assert Group(hash, k, sources)[0] in Group(hash, k, sources); }
  }

  lemma KeyListed(hash: string -> string, k: string, sources: seq<Source>)
    ensures k in GroupKeys(hash, sources) <==> exists s :: s in sources && Key(hash, s) == k
  {
    hide Key, FlatMap, FirstSeen;
    var keys := Map(KeyFor(hash), sources);
    FirstSeenHas(keys, k);
    if k in keys {
      var i :| 0 <= i < |keys| && keys[i] == k;
      assert sources[i] in sources && Key(hash, sources[i]) == k;
    }
    if s :| s in sources && Key(hash, s) == k {
      var i :| 0 <= i < |sources| && sources[i] == s;
      assert keys[i] == k;
    }
  }

  /** The grouping state of the loop after the sources `done`. */
  ghost predicate GroupedByKey(hash: string -> string, groups: map<string, seq<Source>>, keyOrder: seq<string>, done: seq<Source>)
  {
    && keyOrder == GroupKeys(hash, done)
    && (forall k :: k in groups <==> k in keyOrder)
    && (forall k :: k in groups ==> groups[k] == Group(hash, k, done) && groups[k] != [])
  }

  lemma GroupedByKeySnoc(hash: string -> string, groups: map<string, seq<Source>>, keyOrder: seq<string>, done: seq<Source>, s: Source)
    requires GroupedByKey(hash, groups, keyOrder, done)
    ensures var k := Key(hash, s);
            GroupedByKey(hash, groups[k := (if k in groups then groups[k] else []) + [s]],
                         if k in groups then keyOrder else keyOrder + [k], done + [s])
  {
    hide Key, FlatMap, FirstSeen;
    var k := Key(hash, s);
    assert Map(KeyFor(hash), done + [s]) == Map(KeyFor(hash), done) + [k];
    FirstSeenSnoc(Map(KeyFor(hash), done), k);
    FirstSeenHas(Map(KeyFor(hash), done), k);
    forall x ensures Group(hash, x, done + [s]) == Group(hash, x, done) + (if x == k then [s] else []) {
      FlatMapSnoc(WithKey(hash, x), done, s);
    }
    if k !in groups { NoGroup(hash, k, done); }
  }

  lemma NoGroup(hash: string -> string, k: string, done: seq<Source>)
    requires k !in GroupKeys(hash, done)
    ensures Group(hash, k, done) == []
  {
    hide Key, FlatMap, FirstSeen, Group, GroupKeys;
    GroupHas(hash, k, done);
  }

  method GroupFindings(hash: string -> string, r: ProviderResult, groups0: map<string, seq<Source>>,
                       keyOrder0: seq<string>, ghost done0: seq<Source>)
    returns (groups: map<string, seq<Source>>, keyOrder: seq<string>)
    requires GroupedByKey(hash, groups0, keyOrder0, done0)
    ensures GroupedByKey(hash, groups, keyOrder, done0 + Map(SourceFrom(r), r.findings))
  {
    hide GroupedByKey, Key;
    groups, keyOrder := groups0, keyOrder0;
    ghost var done := done0;
    for j := 0 to |r.findings|
      invariant done == done0 + Map(SourceFrom(r), r.findings[..j])
      invariant GroupedByKey(hash, groups, keyOrder, done)
    {
      var s := Source(r, r.findings[j]);
      var key := CorrelationKey(hash, r, r.findings[j]);
      GroupedByKeySnoc(hash, groups, keyOrder, done, s);
      if key !in groups {
        keyOrder := keyOrder + [key];
        groups := groups[key := [s]];
        assert [] + [s] == [s];
      } else {
        groups := groups[key := groups[key] + [s]];
      }
      done := done + [s];
      assert Map(SourceFrom(r), r.findings[..j + 1]) == Map(SourceFrom(r), r.findings[..j]) + [s];
    }
    assert r.findings[..|r.findings|] == r.findings;
  }

  method GroupResults(hash: string -> string, results: seq<ProviderResult>)
    returns (groups: map<string, seq<Source>>, keyOrder: seq<string>)
    ensures GroupedByKey(hash, groups, keyOrder, AllSources(results))
  {
    hide GroupedByKey;
    groups, keyOrder := map[], [];
    NothingGrouped(hash);
    ghost var done: seq<Source> := [];
    for i := 0 to |results|
      invariant done == AllSources(results[..i])
      invariant GroupedByKey(hash, groups, keyOrder, done)
    {
      assert results[..i + 1] == results[..i] + [results[i]];
      FlatMapSnoc(SourcesOf, results[..i], results[i]);
      if results[i].status != Completed {
        assert done + [] == done;
        continue;
      }
      groups, keyOrder := GroupFindings(hash, results[i], groups, keyOrder, done);
      done := done + Map(SourceFrom(results[i]), results[i].findings);
    }
    assert results[..|results|] == results;
  }

  lemma NothingGrouped(hash: string -> string)
    ensures GroupedByKey(hash, map[], [], [])
  {
  }

  method Aggregate(hash: string -> string, results: seq<ProviderResult>, strategy: string, weights: map<string, real>)
    returns (merged: seq<MergedFinding>)
    ensures merged == Aggregated(hash, results, strategy, weights)
  {
    hide BuildMerged, Group, FlatMap, FirstSeen;
    var groups, keyOrder := GroupResults(hash, results);
    ghost var all := AllSources(results);
    var effective := strategy;
    if effective == "" {
      effective := "max";
    }
    merged := [];
    for i := 0 to |keyOrder|
      invariant merged == Map(MergeGroup(hash, all, effective, weights), keyOrder[..i])
    {
      assert keyOrder[i] in keyOrder;
      var mf := BuildMergedFinding(keyOrder[i], groups[keyOrder[i]], effective, weights);
      merged := merged + [mf];
      assert keyOrder[..i + 1] == keyOrder[..i] + [keyOrder[i]];
    }
    assert keyOrder[..|keyOrder|] == keyOrder;
  }

  // ---- the partition ----

  /** All sources of the merged findings, group by group. */
  function Regrouped(hash: string -> string, keys: seq<string>, sources: seq<Source>): (r: seq<Source>) {
    FlatMap(GroupAt(hash, sources), keys)
  }

  function GroupAt(hash: string -> string, sources: seq<Source>): string -> seq<Source> {
    (k: string) => Group(hash, k, sources)
  }

  /** With distinct keys, a source lands in the groups as often as it lands in its own. */
  lemma {:induction false} RegroupedCount(hash: string -> string, keys: seq<string>, sources: seq<Source>, s: Source)
    requires Distinct(keys)
    ensures multiset(Regrouped(hash, keys, sources))[s] ==
            if Key(hash, s) in keys then multiset(sources)[s] else 0
    decreases |keys|
  {
    hide Key;
    if keys != [] {
      var m := |keys| - 1;
      RegroupedCount(hash, keys[..m], sources, s);
      GroupCount(hash, keys[m], sources, s);
      assert keys == keys[..m] + [keys[m]];
      if Key(hash, s) == keys[m] { assert keys[m] !in keys[..m]; }
    }
  }

  lemma {:induction false} GroupCount(hash: string -> string, k: string, sources: seq<Source>, s: Source)
    ensures multiset(Group(hash, k, sources))[s] == if Key(hash, s) == k then multiset(sources)[s] else 0
    decreases |sources|
  {
    hide Key;
    if sources != [] {
      var m := |sources| - 1;
      GroupCount(hash, k, sources[..m], s);
      assert sources == sources[..m] + [sources[m]];
    }
  }

  /** The groups of `Aggregate` partition the observations of the completed results: put together
      they hold each observation exactly as often as the input does, a group holds exactly the
      observations with its key, no two groups share a key, and none is empty. */
  lemma AggregateIsPartition(hash: string -> string, results: seq<ProviderResult>)
    ensures var sources := AllSources(results); var keys := GroupKeys(hash, sources);
            && multiset(Regrouped(hash, keys, sources)) == multiset(sources)
            && (forall k, s :: k in keys ==> (s in Group(hash, k, sources) <==> s in sources && Key(hash, s) == k))
            && Distinct(keys)
            && (forall k :: k in keys ==> Group(hash, k, sources) != [])
  {
    hide Key, FlatMap, FirstSeen, Group, Regrouped;
    var sources := AllSources(results);
    var keys := GroupKeys(hash, sources);
    FirstSeenDistinct(Map(KeyFor(hash), sources));
    forall k ensures forall s :: s in Group(hash, k, sources) <==> s in sources && Key(hash, s) == k
             ensures k in keys <==> Group(hash, k, sources) != [] {
      GroupHas(hash, k, sources);
    }
    forall s ensures multiset(Regrouped(hash, keys, sources))[s] == multiset(sources)[s] {
      RegroupedCount(hash, keys, sources, s);
      KeyListed(hash, Key(hash, s), sources);
      assert multiset(sources)[s] > 0 ==> s in sources;
    }
  }

  /** Groups come in the order in which their keys first appear. */
  lemma GroupsInFirstAppearanceOrder(hash: string -> string, sources: seq<Source>, i: nat, j: nat)
    requires i < j < |GroupKeys(hash, sources)|
    ensures var input := Map(KeyFor(hash), sources); var keys := GroupKeys(hash, sources);
            keys[i] in input && keys[j] in input && FirstIndex(input, keys[i]) < FirstIndex(input, keys[j])
  {
    FirstSeenOrdered(Map(KeyFor(hash), sources), i, j);
  }

  function SourcesIn(mf: MergedFinding): (r: seq<FindingSource>) {
    mf.sources
  }

  function CountTotal(merged: seq<MergedFinding>): (n: nat) {
    if merged == [] then 0 else CountTotal(merged[..|merged| - 1]) + merged[|merged| - 1].sourceCount
  }

  /** Attribution is complete: the source references of the merged findings are those of the
      observations, each as often, and the recorded source counts add up to their number. */
  lemma AttributionComplete(hash: string -> string, results: seq<ProviderResult>, strategy: string, weights: map<string, real>)
    ensures var merged := Aggregated(hash, results, strategy, weights); var sources := AllSources(results);
            && multiset(FlatMap(SourcesIn, merged)) == multiset(Map(SourceRef, sources))
            && CountTotal(merged) == |sources|
  {
    hide Key, FlatMap, FirstSeen, Group, BuildMerged;
    var sources := AllSources(results);
    var keys := GroupKeys(hash, sources);
    var f := MergeGroup(hash, sources, EffectiveStrategy(strategy), weights);
    AttributionOf(hash, sources, keys, EffectiveStrategy(strategy), weights);
    AggregateIsPartition(hash, results);
    MapIsFlatMap(Regrouped(hash, keys, sources));
    MapIsFlatMap(sources);
    FlatMapPerm(RefOf, Regrouped(hash, keys, sources), sources);
    PermLength(Regrouped(hash, keys, sources), sources);
  }

  function RefOf(p: Source): (r: seq<FindingSource>) {
    [SourceRef(p)]
  }

  lemma {:induction false} MapIsFlatMap(s: seq<Source>)
    ensures Map(SourceRef, s) == FlatMap(RefOf, s)
    decreases |s|
  {
    if s != [] {
      MapIsFlatMap(s[..|s| - 1]);
      assert Map(SourceRef, s) == Map(SourceRef, s[..|s| - 1]) + [SourceRef(s[|s| - 1])];
    }
  }

  lemma {:induction false} AttributionOf(hash: string -> string, sources: seq<Source>, keys: seq<string>, strategy: string, weights: map<string, real>)
    ensures var merged := Map(MergeGroup(hash, sources, strategy, weights), keys);
            && FlatMap(SourcesIn, merged) == Map(SourceRef, Regrouped(hash, keys, sources))
            && CountTotal(merged) == |Regrouped(hash, keys, sources)|
    decreases |keys|
  {
    hide Key, Group, BuildMerged;
    if keys != [] {
      var m := |keys| - 1;
      var f := MergeGroup(hash, sources, strategy, weights);
      AttributionOf(hash, sources, keys[..m], strategy, weights);
      var group := Group(hash, keys[m], sources);
      MergedSources(keys[m], group, strategy, weights);
      assert Map(f, keys)[..m] == Map(f, keys[..m]);
      assert Regrouped(hash, keys, sources) == Regrouped(hash, keys[..m], sources) + group;
      assert Map(SourceRef, Regrouped(hash, keys[..m], sources) + group)
          == Map(SourceRef, Regrouped(hash, keys[..m], sources)) + Map(SourceRef, group);
    }
  }

  lemma MergedSources(key: string, pairs: seq<Source>, strategy: string, weights: map<string, real>)
    ensures BuildMerged(key, pairs, strategy, weights).sources == Map(SourceRef, pairs)
    ensures BuildMerged(key, pairs, strategy, weights).sourceCount == |pairs|
  {
    hide LongestTitle, MergedIdentifiers, Severity.Consensus, Assessments.Reconciled, Assessments.Conflicts;
  }

  // ---- what a merged finding says ----

  /** The observations are those of the completed results, each with its result. */
  lemma SourcesExactly(results: seq<ProviderResult>, s: Source)
    ensures s in AllSources(results) <==> s.result in results && s.result.status == Completed && s.finding in s.result.findings
  {
    FlatMapIn(SourcesOf, results, s);
    if s in AllSources(results) {
      var r :| r in results && s in SourcesOf(r);
      assert r == s.result;
    }
    if s.result in results && s.result.status == Completed && s.finding in s.result.findings {
      var i :| 0 <= i < |s.result.findings| && s.result.findings[i] == s.finding;
      assert SourcesOf(s.result)[i] == s;
      FlatMapHas(SourcesOf, results, s.result, s);
    }
  }

  /** The first of the longest titles. */
  ghost predicate FirstLongest(pairs: seq<Source>, i: int) {
    && 0 <= i < |pairs|
    && (forall j :: 0 <= j < |pairs| ==> |pairs[j].finding.title| <= |pairs[i].finding.title|)
    && (forall j :: 0 <= j < i ==> |pairs[j].finding.title| < |pairs[i].finding.title|)
  }

  lemma OneMoreTitle(init: seq<Source>, last: Source, i: nat)
    requires i < |init| && FirstLongest(init, i)
    ensures FirstLongest(init + [last], if |last.finding.title| > |init[i].finding.title| then |init| else i)
  {
  }

  lemma {:induction false} TitleAt(pairs: seq<Source>) returns (i: nat)
    requires pairs != []
    ensures i < |pairs| && FirstLongest(pairs, i) && LongestTitle(pairs) == pairs[i].finding.title
    decreases |pairs|
  {
    var m := |pairs| - 1;
    if m == 0 {
      i := 0;
    } else {
      hide FirstLongest;
      var init, last := pairs[..m], pairs[m];
      i := TitleAt(init);
      OneMoreTitle(init, last, i);
      assert pairs == init + [last];
      if |last.finding.title| > |init[i].finding.title| { i := m; }
    }
  }

  /** Every merged finding is made from exactly the observations with its key, in order: the first one's type,
      the first longest title, one source reference each, and their number. */
  lemma MergedSays(hash: string -> string, results: seq<ProviderResult>, strategy: string, weights: map<string, real>, mf: MergedFinding)
    requires mf in Aggregated(hash, results, strategy, weights)
    ensures var group := Group(hash, mf.key, AllSources(results));
            && group != [] && (forall s :: s in group <==> s in AllSources(results) && Key(hash, s) == mf.key)
            && mf.typ == group[0].finding.typ
            && (exists i :: FirstLongest(group, i) && mf.title == group[i].finding.title)
            && mf.sourceCount == |group| == |mf.sources|
            && (forall i :: 0 <= i < |group| ==>
                  mf.sources[i] == FindingSource(group[i].result.providerId, group[i].result.id, group[i].finding.id))
            && mf.strategy == (if strategy == "" then "max" else strategy)
            && mf.severity == Severity.Consensus(group, mf.strategy, weights)
            && mf.assessment == Assessments.Reconciled(group) && mf.conflicts == Assessments.Conflicts(group)
            && mf.identifiers == MergedIdentifiers(group)
  {
    hide Key, FlatMap, FirstSeen, LongestTitle, MergedIdentifiers, Severity.Consensus, Assessments.Reconciled, Assessments.Conflicts;
    var sources := AllSources(results);
    var keys := GroupKeys(hash, sources);
    var i :| 0 <= i < |keys| && mf == MergeGroup(hash, sources, EffectiveStrategy(strategy), weights)(keys[i]);
    var group := Group(hash, mf.key, sources);
    assert keys[i] in keys;
    GroupHas(hash, mf.key, sources);
    KeyListed(hash, mf.key, sources);
    assert group != [];
    var first := TitleAt(group);
  }
}
