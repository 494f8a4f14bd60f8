/** Which findings share a correlation key, said on the findings themselves. */
module CorrelationLaws {
  import opened Seqs
  import opened Strings
  import opened Findings
  import opened Correlation

  // ---- what identifies a finding ----

  /** The first subject that carries a non-empty PURL, or empty when none does. */
  ghost predicate SubjectIs(subjects: seq<Option<string>>, purl: string) {
    if purl == "" then forall i :: 0 <= i < |subjects| ==> subjects[i].None? || subjects[i].value == ""
    else exists i :: FirstNamed(subjects, purl, i)
  }

  ghost predicate FirstNamed(subjects: seq<Option<string>>, purl: string, i: int) {
    && 0 <= i < |subjects| && subjects[i] == Some(purl)
    && forall j :: 0 <= j < i ==> subjects[j].None? || subjects[j].value == ""
  }

  lemma {:induction false} SubjectFound(subjects: seq<Option<string>>)
    ensures SubjectIs(subjects, FirstSubjectPurl(subjects))
  {
    if subjects != [] {
      var purl, rest := FirstSubjectPurl(subjects), subjects[1..];
      if subjects[0].Some? && subjects[0].value != "" {
        assert FirstNamed(subjects, purl, 0);
      } else {
        SubjectFound(rest);
        if purl != "" {
          var i :| FirstNamed(rest, purl, i);
          assert FirstNamed(subjects, purl, i + 1);
        } else {
          assert forall i :: 1 <= i < |subjects| ==> subjects[i] == rest[i - 1];
        }
      }
    }
  }

  lemma SubjectIff(subjects: seq<Option<string>>, purl: string)
    ensures SubjectIs(subjects, purl) <==> purl == FirstSubjectPurl(subjects)
  {
    hide FirstSubjectPurl;
    SubjectFound(subjects);
    var found := FirstSubjectPurl(subjects);
    if SubjectIs(subjects, purl) && purl != "" && found != "" {
      var i :| FirstNamed(subjects, purl, i);
      var j :| FirstNamed(subjects, found, j);
      assert i == j;
    }
  }

  /** The normal form of an id: white space around it goes, and small letters become capitals. */
  lemma NormLaw(id: Identifier) returns (pre: string, mid: string, post: string)
    ensures id.value == pre + mid + post && AllSpace(pre) && AllSpace(post)
    ensures mid != "" ==> !IsSpace(mid[0]) && !IsSpace(mid[|mid| - 1])
    ensures |Norm(id)| == |mid|
    ensures forall i :: 0 <= i < |mid| ==> Norm(id)[i] == if 'a' <= mid[i] <= 'z' then ((mid[i] as int) - 32) as char else mid[i]
  {
    hide TrimSpace, AllSpace;
    pre, post := TrimSpaceLaw(id.value);
    mid := TrimSpace(id.value);
  }

  /** The CVE ids that a finding cites or, when it cites none, all its ids; in normal form. */
  ghost predicate AnchoredBy(ids: seq<Identifier>, norm: string) {
    NormOccurs(ids, norm) && ((exists n :: NormOccurs(ids, n) && IsCve(n)) ==> IsCve(norm))
  }

  lemma AnchorsIff(ids: seq<Identifier>, norm: string)
    ensures norm in Anchors(ids) <==> AnchoredBy(ids, norm)
  {
    hide Cves, Others, NormOccurs, IsCve, SortStrings;
    CvesHas(ids, norm);
    SortHas(Cves(ids), norm);
    SortHas(Others(ids), norm);
    if Cves(ids) != [] {
      CvesHas(ids, Cves(ids)[0]);
      assert NormOccurs(ids, Cves(ids)[0]) && IsCve(Cves(ids)[0]);
    }
    forall n | NormOccurs(ids, n) && IsCve(n) ensures Cves(ids) != [] { CvesHas(ids, n); }
  }

  lemma AnchorsOrdered(ids: seq<Identifier>)
    ensures LexSorted(Anchors(ids)) && Distinct(Anchors(ids)) && "" !in Anchors(ids)
  {
    hide Cves, Others, SortStrings, Norm;
    PartsDistinct(ids);
    SortSorted(Cves(ids));
    SortSorted(Others(ids));
    SortDistinct(Cves(ids));
    SortDistinct(Others(ids));
    AnchorsIff(ids, "");
  }

  /** Findings with ids are the same by subject and anchors, secrets without ids by subject, and any other
      finding is the same as itself only. */
  ghost predicate SameIdentity(a: Source, b: Source) {
    if a.finding.identifiers != [] then
      && b.finding.identifiers != []
      && (exists purl :: SubjectIs(a.finding.subjects, purl) && SubjectIs(b.finding.subjects, purl))
      && (forall n :: AnchoredBy(a.finding.identifiers, n) <==> AnchoredBy(b.finding.identifiers, n))
    else if a.finding.typ == "secret" then
      && b.finding.identifiers == [] && b.finding.typ == "secret"
      && (exists purl :: SubjectIs(a.finding.subjects, purl) && SubjectIs(b.finding.subjects, purl))
    else
      && b.finding.identifiers == [] && b.finding.typ != "secret"
      && a.result.providerId == b.result.providerId && a.finding.id == b.finding.id
  }

  /** The separators of the hashed text do not occur in the parts that they follow. */
  ghost predicate Separable(s: Source) {
    if s.finding.identifiers != [] then
      && (forall purl :: SubjectIs(s.finding.subjects, purl) ==> '|' !in purl)
      && (forall n :: AnchoredBy(s.finding.identifiers, n) ==> ',' !in n)
    else
      s.finding.typ != "secret" ==> PlainProvider(s.result.providerId)
  }

  predicate PlainProvider(id: string) {
    '|' !in id && id != "sca/v1" && id != "secret/v1"
  }

  // ---- the hashed text ----

  lemma Piped(a: string, x: string, b: string, y: string)
    requires '|' !in a && '|' !in b
    ensures a + "|" + x == b + "|" + y <==> a == b && x == y
  {
    IndexAfter(a, '|', x);
    IndexAfter(b, '|', y);
  }

  function Head(s: Source): (h: string) {
    if s.finding.identifiers != [] then "sca/v1" else if s.finding.typ == "secret" then "secret/v1" else s.result.providerId
  }

  function Rest(s: Source): (r: string) {
    var purl := FirstSubjectPurl(s.finding.subjects);
    if s.finding.identifiers != [] then purl + "|" + Join(Anchors(s.finding.identifiers), ",")
    else if s.finding.typ == "secret" then "secret" + "|" + purl
    else s.finding.id
  }

  lemma TextParts(s: Source)
    ensures CorrelationPayload(s) == Head(s) + "|" + Rest(s)
  {
    hide Anchors, FirstSubjectPurl, Join;
    var purl := FirstSubjectPurl(s.finding.subjects);
    if s.finding.identifiers != [] {
      ScaParts(purl, Join(Anchors(s.finding.identifiers), ","));
    } else if s.finding.typ == "secret" {
      SecretParts(purl);
    }
  }

  lemma ScaParts(purl: string, ids: string)
    ensures "sca/v1|" + purl + "|" + ids == "sca/v1" + "|" + (purl + "|" + ids)
  {
    assert "sca/v1|" == "sca/v1" + "|";
  }

  lemma SecretParts(purl: string)
    ensures "secret/v1|" + "secret" + "|" + purl == "secret/v1" + "|" + ("secret" + "|" + purl)
  {
    assert "secret/v1|" == "secret/v1" + "|";
  }

  lemma Heads()
    ensures '|' !in "sca/v1" && '|' !in "secret/v1" && '|' !in "secret" && "sca/v1" != "secret/v1"
  {
    assert |"sca/v1"| != |"secret/v1"|;
  }

  /** Joining ordered anchors with commas loses nothing when none holds a comma. */
  lemma JoinedAgree(a: seq<string>, b: seq<string>)
    requires CommaFree(a) && CommaFree(b) && "" !in a && "" !in b
    ensures Join(a, ",") == Join(b, ",") <==> a == b
  {
    hide Join, Split;
    JoinedBlank(a);
    JoinedBlank(b);
    if a != [] && b != [] {
      SplitJoin(a, ',');
      SplitJoin(b, ',');
    }
  }

  lemma JoinedBlank(a: seq<string>)
    requires "" !in a
    ensures Join(a, ",") == "" <==> a == []
  {
    if a != [] { assert a[0] in a; }
  }

  lemma SameAnchors(x: seq<Identifier>, y: seq<Identifier>)
    ensures Anchors(x) == Anchors(y) <==> forall n :: AnchoredBy(x, n) <==> AnchoredBy(y, n)
  {
    hide Anchors, AnchoredBy;
    forall n ensures n in Anchors(x) <==> AnchoredBy(x, n)
             ensures n in Anchors(y) <==> AnchoredBy(y, n) {
      AnchorsIff(x, n);
      AnchorsIff(y, n);
    }
    AnchorsOrdered(x);
    AnchorsOrdered(y);
    if forall n :: AnchoredBy(x, n) <==> AnchoredBy(y, n) { SortedUnique(Anchors(x), Anchors(y)); }
  }

  lemma SameSubject(x: seq<Option<string>>, y: seq<Option<string>>)
    ensures FirstSubjectPurl(x) == FirstSubjectPurl(y) <==> exists purl :: SubjectIs(x, purl) && SubjectIs(y, purl)
  {
    hide FirstSubjectPurl, SubjectIs;
    forall purl ensures SubjectIs(x, purl) <==> purl == FirstSubjectPurl(x)
                ensures SubjectIs(y, purl) <==> purl == FirstSubjectPurl(y) {
      SubjectIff(x, purl);
      SubjectIff(y, purl);
    }
    assert SubjectIs(x, FirstSubjectPurl(x));
  }

  lemma CitedRest(a: Source, b: Source)
    requires a.finding.identifiers != [] && b.finding.identifiers != [] && Separable(a) && Separable(b)
    ensures Rest(a) == Rest(b) <==> SameIdentity(a, b)
  {
    hide Anchors, AnchoredBy, FirstSubjectPurl, SubjectIs, Join;
    var x, y := a.finding.identifiers, b.finding.identifiers;
    var p, q := FirstSubjectPurl(a.finding.subjects), FirstSubjectPurl(b.finding.subjects);
    SubjectIff(a.finding.subjects, p);
    SubjectIff(b.finding.subjects, q);
    SameSubject(a.finding.subjects, b.finding.subjects);
    SameAnchors(x, y);
    AnchorsOrdered(x);
    AnchorsOrdered(y);
    forall n ensures n in Anchors(x) ==> ',' !in n
             ensures n in Anchors(y) ==> ',' !in n {
      AnchorsIff(x, n);
      AnchorsIff(y, n);
    }
    JoinedAgree(Anchors(x), Anchors(y));
    Piped(p, Join(Anchors(x), ","), q, Join(Anchors(y), ","));
  }

  lemma SecretRest(a: Source, b: Source)
    requires a.finding.identifiers == [] && b.finding.identifiers == [] && a.finding.typ == "secret" && b.finding.typ == "secret"
    ensures Rest(a) == Rest(b) <==> SameIdentity(a, b)
  {
    hide FirstSubjectPurl, SubjectIs;
    SameSubject(a.finding.subjects, b.finding.subjects);
    Heads();
    Piped("secret", FirstSubjectPurl(a.finding.subjects), "secret", FirstSubjectPurl(b.finding.subjects));
  }

  lemma HeadsAgree(a: Source, b: Source)
    requires Separable(a) && Separable(b)
    ensures '|' !in Head(a) && '|' !in Head(b)
    ensures SameIdentity(a, b) ==> Head(a) == Head(b)
    ensures Head(a) == Head(b) ==> (a.finding.identifiers != [] <==> b.finding.identifiers != [])
    ensures Head(a) == Head(b) && a.finding.identifiers == [] ==> (a.finding.typ == "secret" <==> b.finding.typ == "secret")
  {
    hide SubjectIs, AnchoredBy;
    Heads();
  }

  /** Under an injective hash, separable findings share a key exactly when they are the same finding. */
  lemma SameKeyIff(hash: string -> string, a: Source, b: Source)
    requires Injective(hash) && Separable(a) && Separable(b)
    ensures Key(hash, a) == Key(hash, b) <==> SameIdentity(a, b)
  {
    hide CorrelationPayload, Head, Rest, SubjectIs, AnchoredBy, Separable;
    TextParts(a);
    TextParts(b);
    HeadsAgree(a, b);
    Piped(Head(a), Rest(a), Head(b), Rest(b));
    if Head(a) == Head(b) {
      if a.finding.identifiers != [] {
        CitedRest(a, b);
      } else if a.finding.typ == "secret" {
        SecretRest(a, b);
      } else {
        assert Rest(a) == a.finding.id && Rest(b) == b.finding.id && Head(a) == a.result.providerId && Head(b) == b.result.providerId by {
          OwnParts(a);
          OwnParts(b);
        }
      }
    }
  }

  lemma OwnParts(s: Source)
    requires s.finding.identifiers == [] && s.finding.typ != "secret"
    ensures Rest(s) == s.finding.id && Head(s) == s.result.providerId
  {
  }

  /** A bar in a subject collides: a subject "p|x" with the anchor y and the subject p with the anchor
      "x|y" get one key. */
  lemma BarInSubjectCollides(hash: string -> string, a: Source, b: Source, p: string, x: string, y: string)
    requires a.finding.identifiers != [] && b.finding.identifiers != []
    requires FirstSubjectPurl(a.finding.subjects) == p + "|" + x && Anchors(a.finding.identifiers) == [y]
    requires FirstSubjectPurl(b.finding.subjects) == p && Anchors(b.finding.identifiers) == [x + "|" + y]
    ensures Key(hash, a) == Key(hash, b)
  {
    hide Anchors, FirstSubjectPurl;
    assert p + "|" + x + "|" + y == p + "|" + (x + "|" + y);
    TextParts(a);
    TextParts(b);
  }

  /** A provider named "sca/v1" collides with the cited findings whose text its finding ids spell. */
  lemma ProviderNameCollides(hash: string -> string, a: Source, b: Source)
    requires a.finding.identifiers != [] && b.finding.identifiers == [] && b.finding.typ != "secret"
    requires b.result.providerId == "sca/v1"
    requires b.finding.id == FirstSubjectPurl(a.finding.subjects) + "|" + Join(Anchors(a.finding.identifiers), ",")
    ensures Key(hash, a) == Key(hash, b)
  {
    hide Anchors, FirstSubjectPurl, Join;
    TextParts(a);
    TextParts(b);
  }
}
