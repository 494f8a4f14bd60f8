/** Identifier normal forms and correlation keys
    (internal/scintx/aggregator.go: anchorIdentifiers, canonicalIdentifiers, correlationKey). */
module Correlation {
  import opened Seqs
  import opened Strings
  import opened Findings

  function Norm(id: Identifier): (r: string) {
    Upper(TrimSpace(id.value))
  }

  function NonBlankNorm(id: Identifier): (r: seq<string>) {
    if Norm(id) == "" then [] else [Norm(id)]
  }

  predicate IsCve(norm: string) {
    "CVE-" <= norm
  }

  function KeepCve(norm: string): (r: seq<string>) {
    if IsCve(norm) then [norm] else []
  }

  function KeepOther(norm: string): (r: seq<string>) {
    if IsCve(norm) then [] else [norm]
  }

  /** The distinct non-blank normal forms in first-appearance order. */
  function Norms(ids: seq<Identifier>): (r: seq<string>) {
    FirstSeen(FlatMap(NonBlankNorm, ids))
  }

  function Cves(ids: seq<Identifier>): (r: seq<string>) {
    FlatMap(KeepCve, Norms(ids))
  }

  function Others(ids: seq<Identifier>): (r: seq<string>) {
    FlatMap(KeepOther, Norms(ids))
  }

  function Anchors(ids: seq<Identifier>): (r: seq<string>) {
    if Cves(ids) != [] then SortStrings(Cves(ids)) else SortStrings(Others(ids))
  }

  function CanonicalNorms(ids: seq<Identifier>): (r: seq<string>) {
    SortStrings(Cves(ids)) + SortStrings(Others(ids))
  }

  lemma NormsSnoc(ids: seq<Identifier>, id: Identifier)
    ensures Norms(ids + [id]) ==
            Norms(ids) + (if Norm(id) == "" || Norm(id) in Norms(ids) then [] else [Norm(id)])
  {
    hide Norm;
    FlatMapSnoc(NonBlankNorm, ids, id);
    if Norm(id) != "" {
      FirstSeenSnoc(FlatMap(NonBlankNorm, ids), Norm(id));
      FirstSeenHas(FlatMap(NonBlankNorm, ids), Norm(id));
    } else {
      assert FlatMap(NonBlankNorm, ids) + [] == FlatMap(NonBlankNorm, ids);
    }
  }

  /** The loop shared by `anchorIdentifiers` and `canonicalIdentifiers`. */
  method PartitionNorms(ids: seq<Identifier>) returns (cves: seq<string>, others: seq<string>)
    ensures cves == Cves(ids)
    ensures others == Others(ids)
  {
    hide Norm, Norms, IsCve;
    var seen: set<string> := {};
    cves, others := [], [];
    ghost var norms: seq<string> := [];
    assert Norms([]) == [] by { NoNorms(); }
    for i := 0 to |ids|
      invariant norms == Norms(ids[..i])
      invariant forall n :: n in seen <==> n in norms
      invariant cves == FlatMap(KeepCve, norms)
      invariant others == FlatMap(KeepOther, norms)
    {
      var norm := Norm(ids[i]);
      assert ids[..i + 1] == ids[..i] + [ids[i]];
      NormsSnoc(ids[..i], ids[i]);
      if norm == "" || norm in seen {
        assert norms + [] == norms;
        continue;
      }
      seen := seen + {norm};
      FlatMapSnoc(KeepCve, norms, norm);
      FlatMapSnoc(KeepOther, norms, norm);
      norms := norms + [norm];
      if IsCve(norm) {
        cves := cves + [norm];
      } else {
        others := others + [norm];
      }
    }
    assert ids[..|ids|] == ids;
  }

  lemma NoNorms()
    ensures Norms([]) == []
  {
  }

  method AnchorIdentifiers(ids: seq<Identifier>) returns (r: seq<string>)
    ensures r == Anchors(ids)
  {
    var cves, others := PartitionNorms(ids);
    if |cves| > 0 {
      return SortStrings(cves);
    }
    return SortStrings(others);
  }

  method CanonicalIdentifiers(ids: seq<Identifier>) returns (r: seq<string>)
    ensures r == CanonicalNorms(ids)
  {
    var cves, others := PartitionNorms(ids);
    r := SortStrings(cves) + SortStrings(others);
  }

  /** `norm` is the normal form of some identifier and is not blank. */
  ghost predicate NormOccurs(ids: seq<Identifier>, norm: string) {
    norm != "" && exists id :: id in ids && Norm(id) == norm
  }

  lemma NormsHas(ids: seq<Identifier>, norm: string)
    ensures norm in Norms(ids) <==> NormOccurs(ids, norm)
  {
    hide Norm;
    FirstSeenHas(FlatMap(NonBlankNorm, ids), norm);
    FlatMapIn(NonBlankNorm, ids, norm);
  }

  lemma CvesHas(ids: seq<Identifier>, norm: string)
    ensures norm in Cves(ids) <==> NormOccurs(ids, norm) && IsCve(norm)
    ensures norm in Others(ids) <==> NormOccurs(ids, norm) && !IsCve(norm)
  {
    hide Norms, IsCve, NormOccurs;
    NormsHas(ids, norm);
    FlatMapIn(KeepCve, Norms(ids), norm);
    FlatMapIn(KeepOther, Norms(ids), norm);
  }

  lemma {:induction false} FilterDistinct(f: string -> seq<string>, s: seq<string>)
    requires forall x :: f(x) == [] || f(x) == [x]
    requires Distinct(s)
    ensures Distinct(FlatMap(f, s))
    decreases |s|
  {
    if s != [] {
      var m := |s| - 1;
      FilterDistinct(f, s[..m]);
      FlatMapIn(f, s[..m], s[m]);
    }
  }

  lemma PartsDistinct(ids: seq<Identifier>)
    ensures Distinct(Cves(ids)) && Distinct(Others(ids))
  {
    hide IsCve, NonBlankNorm;
    FirstSeenDistinct(FlatMap(NonBlankNorm, ids));
    FilterDistinct(KeepCve, Norms(ids));
    FilterDistinct(KeepOther, Norms(ids));
  }

  /** The canonical identifier list: the non-blank normal forms, each once, CVEs before the rest,
      both parts sorted. */
  lemma CanonicalNormsLaw(ids: seq<Identifier>)
    ensures var r, n := CanonicalNorms(ids), |Cves(ids)|;
            && Distinct(r)
            && (forall x :: x in r <==> NormOccurs(ids, x))
            && n <= |r| && LexSorted(r[..n]) && LexSorted(r[n..])
            && (forall i :: 0 <= i < |r| ==> (IsCve(r[i]) <==> i < n))
  {
    hide Cves, Others, IsCve, NormOccurs, SortStrings;
    var a, b := SortStrings(Cves(ids)), SortStrings(Others(ids));
    PermLength(a, Cves(ids));
    assert CanonicalNorms(ids) == a + b;
    assert (a + b)[..|a|] == a && (a + b)[|a|..] == b;
    SortSorted(Cves(ids));
    SortSorted(Others(ids));
    PartsDistinct(ids);
    SortDistinct(Cves(ids));
    SortDistinct(Others(ids));
    forall x ensures x in a <==> NormOccurs(ids, x) && IsCve(x)
             ensures x in b <==> NormOccurs(ids, x) && !IsCve(x) {
      CvesHas(ids, x);
      SortHas(Cves(ids), x);
      SortHas(Others(ids), x);
    }
    forall i | 0 <= i < |a + b| ensures IsCve((a + b)[i]) <==> i < |a| {
      if i < |a| { assert (a + b)[i] in a; } else { assert (a + b)[i] in b; }
    }
  }

  // ---- correlation keys ----

  function FirstSubjectPurl(subjects: seq<Option<string>>): (r: string) {
    if subjects == [] then ""
    else if subjects[0].Some? && subjects[0].value != "" then subjects[0].value
    else FirstSubjectPurl(subjects[1..])
  }

  method FindSubjectPurl(subjects: seq<Option<string>>) returns (r: string)
    ensures r == FirstSubjectPurl(subjects)
  {
    for i := 0 to |subjects|
      invariant FirstSubjectPurl(subjects) == FirstSubjectPurl(subjects[i..])
    {
      if subjects[i].Some? && subjects[i].value != "" {
        return subjects[i].value;
      }
    }
    return "";
  }

  function ScaPayload(purl: string, anchors: seq<string>): (r: string) {
    "sca/v1|" + purl + "|" + Join(anchors, ",")
  }

  function CorrelationPayload(s: Source): (r: string) {
    var purl := FirstSubjectPurl(s.finding.subjects);
    if s.finding.identifiers != [] then ScaPayload(purl, Anchors(s.finding.identifiers))
    else if s.finding.typ == "secret" then "secret/v1|" + s.finding.typ + "|" + purl
    else s.result.providerId + "|" + s.finding.id
  }

  /** `hash` stands for hex(SHA-256). */
  function Key(hash: string -> string, s: Source): (r: string) {
    hash(CorrelationPayload(s))
  }

  method CorrelationKey(hash: string -> string, r: ProviderResult, f: Finding) returns (key: string)
    ensures key == Key(hash, Source(r, f))
  {
    hide Anchors, FirstSubjectPurl, ScaPayload;
    var purl := FindSubjectPurl(f.subjects);
    if |f.identifiers| > 0 {
      var ids := AnchorIdentifiers(f.identifiers);
      return hash(ScaPayload(purl, ids));
    }
    if f.typ == "secret" {
      return hash("secret/v1|" + f.typ + "|" + purl);
    }
    return hash(r.providerId + "|" + f.id);
  }

  ghost predicate Injective(hash: string -> string) {
    forall x, y :: hash(x) == hash(y) ==> x == y
  }

  ghost predicate CommaFree(s: seq<string>) {
    forall x :: x in s ==> ',' !in x
  }

  /** Two findings that cite CVEs and share their subject get the same key exactly when they cite
      the same set of CVEs. */
  lemma SameKeyIffSameCves(hash: string -> string, a: Source, b: Source)
    requires Injective(hash)
    requires FirstSubjectPurl(a.finding.subjects) == FirstSubjectPurl(b.finding.subjects)
    requires Cves(a.finding.identifiers) != [] && Cves(b.finding.identifiers) != []
    requires CommaFree(Cves(a.finding.identifiers)) && CommaFree(Cves(b.finding.identifiers))
    ensures Key(hash, a) == Key(hash, b) <==>
            forall n :: n in Cves(a.finding.identifiers) <==> n in Cves(b.finding.identifiers)
  {
    hide Norms, SortStrings, FirstSubjectPurl, IsCve, Join;
    var x, y := Cves(a.finding.identifiers), Cves(b.finding.identifiers);
    var purl := FirstSubjectPurl(a.finding.subjects);
    HasIdentifiers(a.finding.identifiers);
    HasIdentifiers(b.finding.identifiers);
    PartsDistinct(a.finding.identifiers);
    PartsDistinct(b.finding.identifiers);
    if Key(hash, a) == Key(hash, b) {
      ScaPayloadInjective(purl, SortStrings(x), SortStrings(y)) by {
        PermLength(SortStrings(x), x);
        PermLength(SortStrings(y), y);
        forall n ensures n in SortStrings(x) <==> n in x { SortHas(x, n); }
        forall n ensures n in SortStrings(y) <==> n in y { SortHas(y, n); }
      }
      forall n ensures n in x <==> n in y { SortHas(x, n); SortHas(y, n); }
    }
    if forall n :: n in x <==> n in y {
      SortedSetsAgree(x, y);
    }
  }

  lemma SortedSetsAgree(x: seq<string>, y: seq<string>)
    requires Distinct(x) && Distinct(y)
    requires forall n :: n in x <==> n in y
    ensures SortStrings(x) == SortStrings(y)
  {
    hide SortStrings;
    SortSorted(x);
    SortSorted(y);
    SortDistinct(x);
    SortDistinct(y);
    forall n ensures n in SortStrings(x) <==> n in SortStrings(y) {
      SortHas(x, n);
      SortHas(y, n);
    }
    SortedUnique(SortStrings(x), SortStrings(y));
  }

  lemma ScaPayloadInjective(purl: string, a: seq<string>, b: seq<string>)
    requires a != [] && b != [] && CommaFree(a) && CommaFree(b)
    requires ScaPayload(purl, a) == ScaPayload(purl, b)
    ensures a == b
  {
    hide Join, Split;
    var head := "sca/v1|" + purl + "|";
    assert ScaPayload(purl, a)[|head|..] == Join(a, ",");
    assert ScaPayload(purl, b)[|head|..] == Join(b, ",");
    SplitJoin(a, ',');
    SplitJoin(b, ',');
  }

  lemma HasIdentifiers(ids: seq<Identifier>)
    requires Cves(ids) != []
    ensures ids != []
  {
    if ids == [] { NoNorms(); }
  }

  /** A finding without a subject that cites the given identifiers. */
  function Citing(values: seq<string>): (s: Source) {
    Source(ProviderResult("r", "p", Completed, None, []),
           Finding("f", "vulnerability", "", Map(v => Identifier("cve", v), values), [], [], None))
  }

  lemma NormOfCve(id: Identifier)
    requires |id.value| == 5 && id.value[..4] == "CVE-" && '0' <= id.value[4] <= '9'
    ensures Norm(id) == id.value && IsCve(Norm(id)) && ',' !in Norm(id)
  {
    var v := id.value;
    assert v == "CVE-" + [v[4]];
    assert TrimSpace(v) == v;
    assert forall i :: 0 <= i < 5 ==> Upper(v)[i] == v[i];
  }

  /** Sharing a CVE is not enough: a finding that cites CVE-1 and one that cites CVE-1 and CVE-2
      get different keys although they agree on everything else. */
  lemma SharedCveMayNotCorrelate(hash: string -> string)
    requires Injective(hash)
    ensures var a, b := Citing(["CVE-1"]), Citing(["CVE-1", "CVE-2"]);
            && "CVE-1" in Cves(a.finding.identifiers) && "CVE-1" in Cves(b.finding.identifiers)
            && Key(hash, a) != Key(hash, b)
  {
    var a, b := Citing(["CVE-1"]), Citing(["CVE-1", "CVE-2"]);
    var x, y := a.finding.identifiers, b.finding.identifiers;
    var one, two := Identifier("cve", "CVE-1"), Identifier("cve", "CVE-2");
    assert x == [one] && y == [one, two];
    assert "CVE-1"[4] != "CVE-2"[4];
    SharedCveDiffer(hash, a, b, one, two);
  }

  lemma SharedCveDiffer(hash: string -> string, a: Source, b: Source, one: Identifier, two: Identifier)
    requires Injective(hash)
    requires one.value == "CVE-1" && two.value == "CVE-2" && one.value != two.value
    requires a.finding.identifiers == [one] && b.finding.identifiers == [one, two]
    requires a.finding.subjects == [] && b.finding.subjects == []
    ensures "CVE-1" in Cves(a.finding.identifiers) && "CVE-1" in Cves(b.finding.identifiers)
    ensures Key(hash, a) != Key(hash, b)
  {
    hide Norm, Norms, IsCve, Key;
    NormOfCve(one);
    NormOfCve(two);
    var x, y := a.finding.identifiers, b.finding.identifiers;
    assert two in y && one in y && one in x;
    forall n ensures n in Cves(x) ==> n == "CVE-1"
             ensures n in Cves(y) ==> n == "CVE-1" || n == "CVE-2" {
      CvesHas(x, n);
      CvesHas(y, n);
    }
    CvesHas(x, "CVE-1");
    CvesHas(x, "CVE-2");
    CvesHas(y, "CVE-1");
    CvesHas(y, "CVE-2");
    SameKeyIffSameCves(hash, a, b);
  }

  lemma OneMoreCve(ids: seq<Identifier>, id: Identifier)
    requires Norm(id) == id.value && IsCve(id.value) && id.value !in Norms(ids)
    ensures Norms(ids + [id]) == Norms(ids) + [id.value] && Cves(ids + [id]) == Cves(ids) + [id.value]
  {
    hide Norm, Norms, FlatMap;
    NormsSnoc(ids, id);
    FlatMapSnoc(KeepCve, Norms(ids), id.value);
  }

  lemma CommaNorm()
    ensures Norm(Identifier("cve", "CVE-1,CVE-2")) == "CVE-1,CVE-2" && IsCve("CVE-1,CVE-2")
  {
    var v := "CVE-1,CVE-2";
    assert TrimSpace(v) == v;
    assert forall i :: 0 <= i < |v| ==> Upper(v)[i] == v[i];
    assert v[..4] == "CVE-";
  }

  lemma SortedPair(a: string, b: string)
    requires LexLe(a, b)
    ensures SortStrings([a, b]) == [a, b] && SortStrings([a]) == [a]
  {
    assert [a, b][1..] == [b] && [b][1..] == [] && [a][1..] == [];
    assert SortStrings([b]) == Insert(b, []) == [b];
  }

  lemma CvesInOrder()
    ensures LexLe("CVE-1", "CVE-2")
  {
    assert "CVE-1"[1..] == "VE-1" && "CVE-2"[1..] == "VE-2" && "VE-1"[1..] == "E-1" && "VE-2"[1..] == "E-2";
    assert "E-1"[1..] == "-1" && "E-2"[1..] == "-2" && "-1"[1..] == "1" && "-2"[1..] == "2";
    assert LexLe("1", "2");
    assert LexLe("-1", "-2");
    assert LexLe("E-1", "E-2");
    assert LexLe("VE-1", "VE-2");
  }

  lemma AnchorsOfOne(id: Identifier)
    requires Norm(id) == id.value && IsCve(id.value)
    ensures Norms([id]) == [id.value] && Cves([id]) == [id.value] && Anchors([id]) == [id.value]
  {
    hide Norm, Norms, Cves, SortStrings, IsCve;
    NoNorms();
    NoCves();
    OneMoreCve([], id);
    assert [] + [id] == [id] && [] + [id.value] == [id.value];
    SortedPair(id.value, id.value) by { LexTotal(id.value, id.value); }
  }

  lemma AnchorsOfTwo(one: Identifier, two: Identifier)
    requires Norm(one) == one.value && IsCve(one.value) && Norm(two) == two.value && IsCve(two.value)
    requires one.value != two.value && LexLe(one.value, two.value)
    ensures Cves([one, two]) == [one.value, two.value] && Anchors([one, two]) == [one.value, two.value]
  {
    hide Norm, Norms, Cves, SortStrings, IsCve;
    AnchorsOfOne(one);
    OneMoreCve([one], two);
    assert [one] + [two] == [one, two] && [one.value] + [two.value] == [one.value, two.value];
    SortedPair(one.value, two.value);
  }

  /** A comma inside an id collides: one finding that cites "CVE-1,CVE-2" and one that cites CVE-1 and
      CVE-2 get the same key for their different CVE sets, because the key text joins with commas. */
  lemma CommaInCveCollides(hash: string -> string)
    ensures var a, b := Citing(["CVE-1,CVE-2"]), Citing(["CVE-1", "CVE-2"]);
            && Key(hash, a) == Key(hash, b)
            && "CVE-1" in Cves(b.finding.identifiers) && "CVE-1" !in Cves(a.finding.identifiers)
  {
    hide Norm, Norms, Cves, Anchors, IsCve;
    var a, b := Citing(["CVE-1,CVE-2"]), Citing(["CVE-1", "CVE-2"]);
    var both, one, two := Identifier("cve", "CVE-1,CVE-2"), Identifier("cve", "CVE-1"), Identifier("cve", "CVE-2");
    assert a.finding.identifiers == [both] && b.finding.identifiers == [one, two];
    CommaNorm();
    AnchorsOfOne(both);
    NormOfCve(one);
    NormOfCve(two);
    assert "CVE-1"[4] != "CVE-2"[4] && |"CVE-1"| != |"CVE-1,CVE-2"|;
    CvesInOrder();
    AnchorsOfTwo(one, two);
    SameText(a, b);
  }

  lemma NoCves()
    ensures Cves([]) == []
  {
    NoNorms();
  }

  lemma SameText(a: Source, b: Source)
    requires a.finding.identifiers != [] && b.finding.identifiers != [] && a.finding.subjects == [] && b.finding.subjects == []
    requires Anchors(a.finding.identifiers) == ["CVE-1,CVE-2"] && Anchors(b.finding.identifiers) == ["CVE-1", "CVE-2"]
    ensures CorrelationPayload(a) == CorrelationPayload(b)
  {
    hide Anchors;
    assert ["CVE-1", "CVE-2"][1..] == ["CVE-2"];
    assert Join(["CVE-2"], ",") == "CVE-2";
    assert Join(["CVE-1", "CVE-2"], ",") == "CVE-1" + "," + "CVE-2" == "CVE-1,CVE-2";
    assert Join(["CVE-1,CVE-2"], ",") == "CVE-1,CVE-2";
  }
}
