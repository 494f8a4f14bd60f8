/** Provider order: the memory store returns results in map order, so what the policy decides should
    not depend on it. It does not exactly as far as the types of the groups do not. */
module ProviderOrder {
  import opened Seqs
  import opened Strings
  import opened Findings
  import opened Correlation
  import opened Policy
  import opened MergePolicy
  import Assessments
  import Severity
  import A = Aggregator

  // ---- the type of a group ----

  /** What one result contributes to the group of a key. */
  function Share(hash: string -> string, k: string, r: ProviderResult): (s: seq<Source>) {
    A.Group(hash, k, A.SourcesOf(r))
  }

  /** The results that contribute to a key agree on the type of their first finding with it. */
  ghost predicate SameFirstTypes(hash: string -> string, results: seq<ProviderResult>) {
    forall p, q, k :: p in results && q in results && Share(hash, k, p) != [] && Share(hash, k, q) != [] ==>
      A.TypeOf(Share(hash, k, p)) == A.TypeOf(Share(hash, k, q))
  }

  lemma GroupConcat(hash: string -> string, k: string, init: seq<ProviderResult>, last: ProviderResult)
    ensures A.Group(hash, k, A.AllSources(init + [last])) == A.Group(hash, k, A.AllSources(init)) + Share(hash, k, last)
  {
    hide Key, FlatMap, A.SourcesOf;
    FlatMapSnoc(A.SourcesOf, init, last);
    FlatMapConcat(A.WithKey(hash, k), A.AllSources(init), A.SourcesOf(last));
  }

  /** The group's type is that of the first contribution. */
  lemma {:induction false} GroupType(hash: string -> string, k: string, results: seq<ProviderResult>) returns (r: ProviderResult)
    requires A.Group(hash, k, A.AllSources(results)) != []
    ensures r in results && Share(hash, k, r) != []
    ensures A.TypeOf(A.Group(hash, k, A.AllSources(results))) == A.TypeOf(Share(hash, k, r))
    ensures results != [] && Share(hash, k, results[0]) != [] ==> r == results[0]
    decreases |results|
  {
    hide Key, A.Group, A.AllSources, Share;
    NothingGrouped(hash, k);
    var m := |results| - 1;
    var init, last := results[..m], results[m];
    assert results == init + [last];
    GroupConcat(hash, k, init, last);
    if A.Group(hash, k, A.AllSources(init)) != [] {
      r := GroupType(hash, k, init);
      if init != [] && Share(hash, k, results[0]) != [] { assert results[0] == init[0]; }
    } else {
      r := last;
      assert [] + Share(hash, k, last) == Share(hash, k, last);
      if m > 0 && Share(hash, k, init[0]) != [] { Contributes(hash, k, init, init[0]); }
    }
  }

  lemma NothingGrouped(hash: string -> string, k: string)
    ensures A.Group(hash, k, A.AllSources([])) == []
  {
  }

  lemma {:induction false} Contributes(hash: string -> string, k: string, results: seq<ProviderResult>, r: ProviderResult)
    requires r in results && Share(hash, k, r) != []
    ensures A.Group(hash, k, A.AllSources(results)) != []
  {
    hide Key, A.Group, A.AllSources, Share;
    var m := |results| - 1;
    var init, last := results[..m], results[m];
    assert results == init + [last];
    GroupConcat(hash, k, init, last);
    if r != last { Contributes(hash, k, init, r); }
  }

  lemma TypePermutes(hash: string -> string, a: seq<ProviderResult>, b: seq<ProviderResult>, k: string)
    requires multiset(a) == multiset(b) && SameFirstTypes(hash, a) && A.Group(hash, k, A.AllSources(a)) != []
    ensures A.TypeOf(A.Group(hash, k, A.AllSources(a))) == A.TypeOf(A.Group(hash, k, A.AllSources(b)))
  {
    hide Key, A.Group, A.AllSources, Share;
    GroupsPermute(hash, a, b, k);
    PermLength(A.Group(hash, k, A.AllSources(a)), A.Group(hash, k, A.AllSources(b)));
    var p := GroupType(hash, k, a);
    var q := GroupType(hash, k, b);
    PermHas(a, b, q);
  }

  lemma SameFirstPermute(hash: string -> string, a: seq<ProviderResult>, b: seq<ProviderResult>)
    requires multiset(a) == multiset(b) && SameFirstTypes(hash, a)
    ensures SameFirstTypes(hash, b)
  {
    hide Share;
    forall r ensures r in a <==> r in b { PermHas(a, b, r); }
  }

  /** Every group has the same type in every order of the results. */
  ghost predicate TypesIgnoreOrder(hash: string -> string, results: seq<ProviderResult>) {
    forall b, k :: multiset(b) == multiset(results) && A.Group(hash, k, A.AllSources(results)) != [] ==>
      A.TypeOf(A.Group(hash, k, A.AllSources(b))) == A.TypeOf(A.Group(hash, k, A.AllSources(results)))
  }

  /** Moving a contributing result to the front makes its first finding give the type. */
  lemma FrontDecides(hash: string -> string, results: seq<ProviderResult>, r: ProviderResult, k: string) returns (b: seq<ProviderResult>)
    requires r in results && Share(hash, k, r) != []
    ensures multiset(b) == multiset(results) && A.Group(hash, k, A.AllSources(results)) != []
    ensures A.TypeOf(A.Group(hash, k, A.AllSources(b))) == A.TypeOf(Share(hash, k, r))
  {
    hide Key, A.Group, A.AllSources, Share;
    Contributes(hash, k, results, r);
    var u, v := SplitAt(results, r);
    b := [r] + (u + v);
    assert b[0] == r;
    Contributes(hash, k, b, r);
    var first := GroupType(hash, k, b);
  }

  /** The groups' types do not depend on the order exactly when, for each key, the results that have
      a finding with it agree on the type of the first one. */
  lemma TypesIgnoreOrderIff(hash: string -> string, results: seq<ProviderResult>)
    ensures TypesIgnoreOrder(hash, results) <==> SameFirstTypes(hash, results)
  {
    hide Key, A.Group, A.AllSources, Share, A.TypeOf;
    if SameFirstTypes(hash, results) {
      forall b, k | multiset(b) == multiset(results) && A.Group(hash, k, A.AllSources(results)) != []
        ensures A.TypeOf(A.Group(hash, k, A.AllSources(b))) == A.TypeOf(A.Group(hash, k, A.AllSources(results)))
      {
        TypePermutes(hash, results, b, k);
      }
    }
    if TypesIgnoreOrder(hash, results) {
      forall p, q, k | p in results && q in results && Share(hash, k, p) != [] && Share(hash, k, q) != []
        ensures A.TypeOf(Share(hash, k, p)) == A.TypeOf(Share(hash, k, q))
      {
        var x := FrontDecides(hash, results, p, k);
        var y := FrontDecides(hash, results, q, k);
      }
    }
  }

  // ---- decisions under permutation ----

  /** Groups built from a permutation of the sources, with the same type, match the same criteria and
      conflict alike. */
  lemma GroupIgnoresOrder(c: Criteria, key: string, a: seq<Source>, b: seq<Source>, strategy: string, weights: map<string, real>)
    requires multiset(a) == multiset(b) && a != [] && A.TypeOf(a) == A.TypeOf(b)
    ensures var x, y := A.BuildMerged(key, a, strategy, weights), A.BuildMerged(key, b, strategy, weights);
            && (Matches(c, Synthetic(x)) ==> Matches(c, Synthetic(y)))
            && (x.conflicts == [] <==> y.conflicts == [])
  {
    hide Severity.Consensus, Matches, A.BuildMerged, Synthetic, A.TypeOf, Assessments.FirstWording, Assessments.JoinLevel, Assessments.Conflicts, SchemeOk;
    SyntheticFields(key, a, strategy, weights);
    SyntheticFields(key, b, strategy, weights);
    MatchesIff(c, Synthetic(A.BuildMerged(key, a, strategy, weights)));
    MatchesIff(c, Synthetic(A.BuildMerged(key, b, strategy, weights)));
    forall p ensures p in a <==> p in b { PermHas(a, b, p); }
    Assessments.ReconciliationIgnoresOrder(a, b);
    var sa, sb := Severity.Consensus(a, strategy, weights), Severity.Consensus(b, strategy, weights);
    if SeverityOk(c, sa) && !(c.scheme == "" && c.minScore.None?) {
      var o :| o in sa && Enough(c, o);
      Severity.ConsensusIgnoresOrder(a, b, strategy, weights, o);
      var m :| m in sb && m.scheme == o.scheme && m.score == o.score;
      assert Enough(c, m);
    }
  }

  lemma {:induction false} SameMatchesSameRule(rules: seq<Rule>, x: Finding, y: Finding)
    requires forall c :: Matches(c, x) <==> Matches(c, y)
    ensures FirstMatch(rules, x) == FirstMatch(rules, y)
  {
    hide Matches;
    if rules != [] { SameMatchesSameRule(rules[1..], x, y); }
  }

  /** The merged finding of the same key in a permutation of the results, with everything the
      policy can see of it unchanged. */
  lemma Counterpart(hash: string -> string, a: seq<ProviderResult>, b: seq<ProviderResult>, strategy: string,
                    weights: map<string, real>, rules: seq<Rule>, mf: MergedFinding) returns (other: MergedFinding)
    requires multiset(a) == multiset(b) && SameFirstTypes(hash, a)
    requires mf in A.Aggregated(hash, a, strategy, weights)
    ensures other in A.Aggregated(hash, b, strategy, weights)
    ensures other.conflicts == [] <==> mf.conflicts == []
    ensures FirstMatch(rules, Synthetic(other)) == FirstMatch(rules, Synthetic(mf))
  {
    hide Key, A.Group, A.AllSources, A.BuildMerged, A.Aggregated, Matches, Synthetic, FirstMatch;
    var sa, sb, effective := A.AllSources(a), A.AllSources(b), A.EffectiveStrategy(strategy);
    var k := GroupOf(hash, a, strategy, weights, mf);
    var ga, gb := A.Group(hash, k, sa), A.Group(hash, k, sb);
    GroupsPermute(hash, a, b, k);
    PermLength(ga, gb);
    A.GroupHas(hash, k, sa);
    A.GroupHas(hash, k, sb);
    other := A.BuildMerged(k, gb, effective, weights);
    assert gb[0] in gb;
    MergedOf(hash, b, strategy, weights, gb[0]);
    TypePermutes(hash, a, b, k);
    forall c ensures Matches(c, Synthetic(mf)) <==> Matches(c, Synthetic(other)) {
      GroupIgnoresOrder(c, k, ga, gb, effective, weights);
      GroupIgnoresOrder(c, k, gb, ga, effective, weights);
    }
    GroupIgnoresOrder(Criteria(None, "", None, ""), k, ga, gb, effective, weights);
    SameMatchesSameRule(rules, Synthetic(mf), Synthetic(other));
  }

  lemma GroupsPermute(hash: string -> string, a: seq<ProviderResult>, b: seq<ProviderResult>, k: string)
    requires multiset(a) == multiset(b)
    ensures multiset(A.AllSources(a)) == multiset(A.AllSources(b))
    ensures multiset(A.Group(hash, k, A.AllSources(a))) == multiset(A.Group(hash, k, A.AllSources(b)))
  {
    hide Key, FlatMap;
    FlatMapPerm(A.SourcesOf, a, b);
    FlatMapPerm(A.WithKey(hash, k), A.AllSources(a), A.AllSources(b));
  }

  lemma PermutedStepsCovered(hash: string -> string, a: seq<ProviderResult>, b: seq<ProviderResult>, strategy: string,
                             weights: map<string, real>, spec: Spec)
    requires multiset(a) == multiset(b) && SameFirstTypes(hash, a)
    ensures Covered(MergedSteps(spec, a, A.Aggregated(hash, a, strategy, weights)),
                    MergedSteps(spec, b, A.Aggregated(hash, b, strategy, weights)))
  {
    hide Key, A.Aggregated, Matches, Synthetic, FirstMatch, FlatMap, SameFirstTypes, OutcomeSteps, VerdictSteps;
    var ma, mb := A.Aggregated(hash, a, strategy, weights), A.Aggregated(hash, b, strategy, weights);
    forall s | s in MergedSteps(spec, a, ma)
      ensures exists t :: t in MergedSteps(spec, b, mb) && Rank(s.decision) <= Rank(t.decision)
    {
      FlatMapPerm(OutcomeSteps(spec), a, b);
      FlatMapPerm(VerdictSteps(spec), a, b);
      PermHas(FlatMap(OutcomeSteps(spec), a), FlatMap(OutcomeSteps(spec), b), s);
      PermHas(FlatMap(VerdictSteps(spec), a), FlatMap(VerdictSteps(spec), b), s);
      if s in FlatMap(OutcomeSteps(spec), a) || s in FlatMap(VerdictSteps(spec), a) {
        assert s in MergedSteps(spec, b, mb);
      } else {
        FlatMapIn(MergedStepsOf(spec), ma, s);
        var mf :| mf in ma && s in MergedStepsOf(spec)(mf);
        var other := Counterpart(hash, a, b, strategy, weights, spec.findings, mf);
        var t :| t in MergedStepsOf(spec)(other) && t.decision == s.decision;
        FlatMapHas(MergedStepsOf(spec), mb, other, t);
      }
    }
  }

  /** When the results agree on the type of each key's first finding, the order in which the store
      returns them does not change the merged decision, for every policy and every strategy. */
  lemma ProviderOrderIrrelevant(hash: string -> string, a: seq<ProviderResult>, b: seq<ProviderResult>, strategy: string,
                                weights: map<string, real>, spec: Spec)
    requires multiset(a) == multiset(b) && SameFirstTypes(hash, a)
    ensures MergedDecision(spec, a, A.Aggregated(hash, a, strategy, weights))
         == MergedDecision(spec, b, A.Aggregated(hash, b, strategy, weights))
  {
    hide Key, A.Aggregated, MergedSteps, Escalated, SameFirstTypes;
    SameFirstPermute(hash, a, b);
    PermutedStepsCovered(hash, a, b, strategy, weights, spec);
    PermutedStepsCovered(hash, b, a, strategy, weights, spec);
    CoveredBoth(MergedSteps(spec, a, A.Aggregated(hash, a, strategy, weights)),
                MergedSteps(spec, b, A.Aggregated(hash, b, strategy, weights)));
  }

  // ---- exactly when two merged views decide alike ----

  /** The two merged views lead to the same decision for every policy with rules severest first. */
  ghost predicate DecideAlike(a: seq<ProviderResult>, b: seq<ProviderResult>, ma: seq<MergedFinding>, mb: seq<MergedFinding>) {
    forall spec: Spec :: SeverestFirst(spec.findings) ==> MergedDecision(spec, a, ma) == MergedDecision(spec, b, mb)
  }

  /** Both views have a conflict or neither has, and their findings answer each other's demands. */
  ghost predicate MutuallyAnswered(ma: seq<MergedFinding>, mb: seq<MergedFinding>) {
    && (NoConflicts(ma) <==> NoConflicts(mb))
    && AllAnswered(MergedFindings(ma), MergedFindings(mb))
    && AllAnswered(MergedFindings(mb), MergedFindings(ma))
  }

  lemma ConflictStepOf(spec: Spec, results: seq<ProviderResult>, merged: seq<MergedFinding>) returns (s: Step)
    requires !NoConflicts(merged)
    ensures s in MergedSteps(spec, results, merged) && s.decision == DecisionOr(spec.mergeConflicts, Review)
  {
    hide FlatMap, OutcomeSteps, VerdictSteps, RuleStep, Synthetic;
    var mf :| mf in merged && mf.conflicts != [];
    s := ConflictSteps(spec, mf)[0];
    assert s in MergedStepsOf(spec)(mf);
    FlatMapHas(MergedStepsOf(spec), merged, mf, s);
  }

  lemma ViewsCovered(spec: Spec, a: seq<ProviderResult>, b: seq<ProviderResult>, ma: seq<MergedFinding>, mb: seq<MergedFinding>)
    requires SeverestFirst(spec.findings) && multiset(a) == multiset(b) && (NoConflicts(mb) ==> NoConflicts(ma))
    requires RulesCarryOver(spec.findings, MergedFindings(ma), MergedFindings(mb))
    ensures Covered(MergedSteps(spec, a, ma), MergedSteps(spec, b, mb))
  {
    hide FirstMatch, FlatMap, OutcomeSteps, VerdictSteps, SeverestFirst, RulesCarryOver, MergedFindings, MergedSteps, NoConflicts;
    forall s | s in MergedSteps(spec, a, ma)
      ensures exists t :: t in MergedSteps(spec, b, mb) && Rank(s.decision) <= Rank(t.decision)
    {
      MergedStepIn(spec, a, ma, s);
      if mf :| mf in ma && s in ConflictSteps(spec, mf) {
        HasConflict(spec, ma, mf, s);
        var t := ConflictStepOf(spec, b, mb);
      } else if y :| y in MergedFindings(ma) && FirstMatch(spec.findings, y).Some?
                     && s.decision == FirstMatch(spec.findings, y).value.decision {
        var x := StepCarriesOver(spec.findings, MergedFindings(ma), MergedFindings(mb), y);
        var t := MergedStepFor(spec, b, mb, x);
      } else {
        BaselinePermutes(spec, a, b, mb, s);
      }
    }
  }

  lemma HasConflict(spec: Spec, merged: seq<MergedFinding>, mf: MergedFinding, s: Step)
    requires mf in merged && s in ConflictSteps(spec, mf)
    ensures !NoConflicts(merged) && s.decision == DecisionOr(spec.mergeConflicts, Review)
  {
  }

  lemma BaselinePermutes(spec: Spec, a: seq<ProviderResult>, b: seq<ProviderResult>, mb: seq<MergedFinding>, s: Step)
    requires multiset(a) == multiset(b) && (s in FlatMap(OutcomeSteps(spec), a) || s in FlatMap(VerdictSteps(spec), a))
    ensures s in MergedSteps(spec, b, mb)
  {
    hide FlatMap, OutcomeSteps, VerdictSteps;
    FlatMapPerm(OutcomeSteps(spec), a, b);
    FlatMapPerm(VerdictSteps(spec), a, b);
    PermHas(FlatMap(OutcomeSteps(spec), a), FlatMap(OutcomeSteps(spec), b), s);
    PermHas(FlatMap(VerdictSteps(spec), a), FlatMap(VerdictSteps(spec), b), s);
  }

  lemma AnsweredDecideAlike(spec: Spec, a: seq<ProviderResult>, b: seq<ProviderResult>, ma: seq<MergedFinding>, mb: seq<MergedFinding>)
    requires multiset(a) == multiset(b) && SeverestFirst(spec.findings) && MutuallyAnswered(ma, mb)
    ensures MergedDecision(spec, a, ma) == MergedDecision(spec, b, mb)
  {
    hide SeverestFirst, AllAnswered, Escalated, MergedSteps, MergedFindings, RulesCarryOver, Covered, NoConflicts;
    AnsweredCarriesOver(spec.findings, MergedFindings(ma), MergedFindings(mb));
    AnsweredCarriesOver(spec.findings, MergedFindings(mb), MergedFindings(ma));
    ViewsCovered(spec, a, b, ma, mb);
    ViewsCovered(spec, b, a, mb, ma);
    CoveredBoth(MergedSteps(spec, a, ma), MergedSteps(spec, b, mb));
  }

  lemma AlikeAnswered(a: seq<ProviderResult>, b: seq<ProviderResult>, ma: seq<MergedFinding>, mb: seq<MergedFinding>)
    requires DecideAlike(a, b, ma, mb)
    ensures AllAnswered(MergedFindings(ma), MergedFindings(mb))
  {
    hide MergedDecision, MergedFindings, Answers, Matches, Probe;
    forall x, o | x in MergedFindings(ma) && Demand(x, o) ensures Answered(x, o, MergedFindings(mb)) {
      var c := DemandCriteria(x, o);
      var rules := [Rule(c, Deny, "probe")];
      ProbeFindings(rules, Allow);
      assert MergedDecision(Probe(rules, Allow), a, ma) == MergedDecision(Probe(rules, Allow), b, mb);
      ProbeMerged(c, a, ma);
      ProbeMerged(c, b, mb);
      SelfAnswers(x, o);
      AnswersIffMatches(x, x, o);
      var y :| y in MergedFindings(mb) && Matches(c, y);
      AnswersIffMatches(y, x, o);
    }
  }

  /** A policy that denies on conflicts and nothing else denies exactly when there is one. */
  lemma ConflictProbe(results: seq<ProviderResult>, merged: seq<MergedFinding>)
    ensures MergedDecision(Probe([], Deny), results, merged) == Deny <==> !NoConflicts(merged)
  {
    hide FlatMap, Escalated, MergedSteps, OutcomeSteps, VerdictSteps, Probe, Synthetic, MergedFindings, NoConflicts;
    var spec := Probe([], Deny);
    ProbeFindings([], Deny);
    EscalatedIsMax(MergedSteps(spec, results, merged));
    if MergedDecision(spec, results, merged) == Deny {
      var s :| s in MergedSteps(spec, results, merged) && s.decision == Deny;
      MergedStepIn(spec, results, merged, s);
      ProbeBaseline([], Deny, results, s);
      var mf :| mf in merged && s in ConflictSteps(spec, mf);
      HasConflict(spec, merged, mf, s);
    }
    if !NoConflicts(merged) {
      var s := ConflictStepOf(spec, results, merged);
      DenyIsTop(Escalated(MergedSteps(spec, results, merged)));
    }
  }

  /** Two merged views over reordered results decide alike for every severest-first policy exactly
      when they answer each other and agree on having conflicts. */
  lemma DecideAlikeIff(a: seq<ProviderResult>, b: seq<ProviderResult>, ma: seq<MergedFinding>, mb: seq<MergedFinding>)
    requires multiset(a) == multiset(b)
    ensures DecideAlike(a, b, ma, mb) <==> MutuallyAnswered(ma, mb)
  {
    hide MergedDecision, AllAnswered, Probe, MergedFindings, NoConflicts;
    if MutuallyAnswered(ma, mb) {
      forall spec: Spec | SeverestFirst(spec.findings) ensures MergedDecision(spec, a, ma) == MergedDecision(spec, b, mb) {
        AnsweredDecideAlike(spec, a, b, ma, mb);
      }
    }
    if DecideAlike(a, b, ma, mb) {
      AlikeAnswered(a, b, ma, mb);
      AlikeAnswered(b, a, mb, ma);
      ProbeFindings([], Deny);
      assert MergedDecision(Probe([], Deny), a, ma) == MergedDecision(Probe([], Deny), b, mb);
      ConflictProbe(a, ma);
      ConflictProbe(b, mb);
    }
  }

  // ---- types that differ ----

  /** A result of provider `who` with one finding of the given type that cites CVE-1. */
  function Typed(who: string, typ: string): (r: ProviderResult) {
    ProviderResult("res_" + who, who, Completed, Some(Warn),
                   [Finding("f_" + who, typ, "", [Identifier("cve", "CVE-1")], [], [], None)])
  }

  lemma PairSources(x: Source, y: Source)
    requires x.result.status == Completed && x.result.findings == [x.finding]
    requires y.result.status == Completed && y.result.findings == [y.finding]
    ensures A.AllSources([x.result, y.result]) == [x, y]
  {
    hide FlatMap;
    FlatMapSnoc(A.SourcesOf, [x.result], y.result);
    FlatMapSnoc(A.SourcesOf, [], x.result);
    FlatMapNilSource();
    assert [x.result] + [y.result] == [x.result, y.result] && [] + [x.result] == [x.result];
    assert A.SourcesOf(x.result) == [x] && A.SourcesOf(y.result) == [y];
  }

  lemma FlatMapNilSource()
    ensures FlatMap(A.SourcesOf, []) == []
  {
  }

  lemma PairGroup(hash: string -> string, x: Source, y: Source)
    requires Key(hash, x) == Key(hash, y)
    ensures A.GroupKeys(hash, [x, y]) == [Key(hash, x)]
    ensures A.Group(hash, Key(hash, x), [x, y]) == [x, y]
  {
    hide Key;
    var k := Key(hash, x);
    FlatMapSnoc(A.WithKey(hash, k), [x], y);
    FlatMapSnoc(A.WithKey(hash, k), [], x);
    assert [x] + [y] == [x, y] && [] + [x] == [x];
    FirstSeenSnoc([k], k);
    FirstSeenSnoc([], k);
    assert Map(A.KeyFor(hash), [x, y]) == [k] + [k] && [] + [k] == [k];
  }

  /** Two such results fall into one group, whose type is the first one's. */
  lemma TypedPair(hash: string -> string, u: string, t: string, v: string, t': string, strategy: string, weights: map<string, real>)
    ensures var merged := A.Aggregated(hash, [Typed(u, t), Typed(v, t')], strategy, weights);
            |merged| == 1 && Synthetic(merged[0]).typ == t
  {
    hide A.BuildMerged, Synthetic, FlatMap, FirstSeen, A.Group, A.GroupKeys, A.AllSources, Anchors;
    var x, y := Typed(u, t), Typed(v, t');
    var p, q := Source(x, x.findings[0]), Source(y, y.findings[0]);
    PairSources(p, q);
    PairGroup(hash, p, q) by { assert CorrelationPayload(p) == CorrelationPayload(q); }
    SyntheticFields(Key(hash, p), [p, q], A.EffectiveStrategy(strategy), weights);
  }

  /** Two providers that cite the same CVE under different types: the order of their results
      decides. */
  lemma MixedTypesDependOnOrder(hash: string -> string, strategy: string, weights: map<string, real>)
    ensures var x, y := Typed("osv", "vulnerability"), Typed("nvd", "advisory"); var a, b := [x, y], [y, x];
            var spec := Probe([Rule(Criteria(None, "", None, "vulnerability"), Deny, "probe")], Allow);
            && x.id != y.id && x.providerId != y.providerId && multiset(a) == multiset(b)
            && MergedDecision(spec, a, A.Aggregated(hash, a, strategy, weights)) == Deny
            && MergedDecision(spec, b, A.Aggregated(hash, b, strategy, weights)) != Deny
  {
    hide A.Aggregated, MergedDecision, Probe, Synthetic, Matches;
    var c := Criteria(None, "", None, "vulnerability");
    var x, y := Typed("osv", "vulnerability"), Typed("nvd", "advisory");
    var ma, mb := A.Aggregated(hash, [x, y], strategy, weights), A.Aggregated(hash, [y, x], strategy, weights);
    assert "osv"[0] != "nvd"[0] && x.id[4] == 'o' && y.id[4] == 'n' && |"vulnerability"| != |"advisory"|;
    TypedPair(hash, "osv", "vulnerability", "nvd", "advisory", strategy, weights);
    TypedPair(hash, "nvd", "advisory", "osv", "vulnerability", strategy, weights);
    ProbeMerged(c, [x, y], ma);
    ProbeMerged(c, [y, x], mb);
    MatchesIff(c, Synthetic(ma[0]));
    MatchesIff(c, Synthetic(mb[0]));
    assert MergedFindings(ma) == [Synthetic(ma[0])] && MergedFindings(mb) == [Synthetic(mb[0])];
    assert Matches(c, Synthetic(ma[0])) && Synthetic(ma[0]) in MergedFindings(ma);
  }
}
