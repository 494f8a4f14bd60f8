/** The second, independent PURL splitter (extensions/providers/osv/vscode.go) and where it agrees
    with the parser of api/purl.go. Query unescaping is a parameter that may fail. */
module VscodePurl {
  import opened Seqs
  import opened Strings
  import opened Purl

  datatype Split = Split(typ: string, namespace: string, name: string, version: string, quals: map<string, string>)

  /** A value that cannot be unescaped is kept as it is. */
  function Decode(unescape: string -> Option<string>, v: string): (r: string) {
    var d := unescape(v);
    if d.Some? then d.value else v
  }

  function AddDecoded(unescape: string -> Option<string>, m: map<string, string>, kv: string): (r: map<string, string>) {
    if IsPair(kv) then m[KeyOf(kv) := Decode(unescape, ValueOf(kv))] else m
  }

  function DecodedQuals(unescape: string -> Option<string>, parts: seq<string>): (m: map<string, string>) {
    if parts == [] then map[] else AddDecoded(unescape, DecodedQuals(unescape, parts[..|parts| - 1]), parts[|parts| - 1])
  }

  /** The version is cut off first, then the namespace. */
  function SplitPath(path: string): (p: Path) {
    var at := Index(path, '@');
    if at >= 0 then SplitFront(path[..at], path[at + 1..]) else SplitFront(path, "")
  }

  function SplitFront(front: string, version: string): (p: Path) {
    var slash := Index(front, '/');
    if slash >= 0 then Path(front[..slash], front[slash + 1..], version) else Path("", front, version)
  }

  function QualBody(tail: string): (r: Option<string>) {
    if tail == "" || tail[0] != '?' then None
    else
      var i := Index(tail[1..], '#');
      Some(if i >= 0 then tail[1..][..i] else tail[1..])
  }

  function TailQuals(unescape: string -> Option<string>, tail: string): (m: map<string, string>) {
    if QualBody(tail).None? then map[] else DecodedQuals(unescape, Strings.Split(QualBody(tail).value, '&'))
  }

  function SplitOf(unescape: string -> Option<string>, purl: string): (r: Option<Split>) {
    if !("pkg:" <= purl) then None
    else
      var body := purl[4..];
      var rest, tail := body[..TailStart(body)], body[TailStart(body)..];
      var slash := Index(rest, '/');
      if slash < 0 then None
      else
        var p := SplitPath(rest[slash + 1..]);
        Some(Split(Lower(rest[..slash]), p.namespace, p.name, p.version, TailQuals(unescape, tail)))
  }

  // ---- the code ----

  method SplitVscodePurl(unescape: string -> Option<string>, purl: string) returns (r: Option<Split>)
    ensures r == SplitOf(unescape, purl)
  {
    hide Index, TailStart, DecodedQuals, Strings.Split, Lower, SplitPath;
    if !("pkg:" <= purl) { return None; }
    var rest, tail := purl[4..], "";
    var i := TailStart(rest);
    if i < |rest| { tail, rest := rest[i..], rest[..i]; }
    assert rest == purl[4..][..TailStart(purl[4..])] && tail == purl[4..][TailStart(purl[4..])..];
    var slash := Index(rest, '/');
    if slash < 0 { return None; }
    var typ := Lower(rest[..slash]);
    var p := ReadPath(rest[slash + 1..]);
    var quals: map<string, string> := map[];
    if |tail| > 0 && tail[0] == '?' {
      var body := tail[1..];
      i := Index(body, '#');
      if i >= 0 { body := body[..i]; }
      quals := ReadQualifiers(unescape, body);
    }
    return Some(Split.Split(typ, p.namespace, p.name, p.version, quals));
  }

  method ReadPath(path0: string) returns (p: Path)
    ensures p == SplitPath(path0)
  {
    hide Index;
    var path := path0;
    var namespace, name, version := "", "", "";
    var at := Index(path, '@');
    if at >= 0 { version, path := path[at + 1..], path[..at]; }
    assert SplitPath(path0) == SplitFront(path, version);
    var slash := Index(path, '/');
    if slash >= 0 { namespace, name := path[..slash], path[slash + 1..]; } else { name := path; }
    p := Path(namespace, name, version);
  }

  method ReadQualifiers(unescape: string -> Option<string>, body: string) returns (m: map<string, string>)
    ensures m == DecodedQuals(unescape, Strings.Split(body, '&'))
  {
    m := map[];
    var parts := Strings.Split(body, '&');
    for i := 0 to |parts|
      invariant m == DecodedQuals(unescape, parts[..i])
    {
      var kv := parts[i];
      assert parts[..i + 1][..i] == parts[..i];
      if kv == "" { continue; }
      var eq := Index(kv, '=');
      if eq < 0 { continue; }
      var d := unescape(kv[eq + 1..]);
      var v := if d.Some? then d.value else kv[eq + 1..];
      m := m[Lower(kv[..eq]) := v];
    }
    assert parts[..|parts|] == parts;
  }

  // ---- agreement ----

  /** Both read the same keys; the values differ by the unescaping. */
  lemma {:induction false} SameQuals(unescape: string -> Option<string>, parts: seq<string>)
    ensures DecodedQuals(unescape, parts).Keys == Quals(parts).Keys
    ensures forall k :: k in Quals(parts) ==> DecodedQuals(unescape, parts)[k] == Decode(unescape, Quals(parts)[k])
  {
    hide IsPair, KeyOf, ValueOf, Decode;
    if parts != [] { SameQuals(unescape, parts[..|parts| - 1]); }
  }

  lemma SameTail(unescape: string -> Option<string>, tail: string)
    requires tail != "" ==> tail[0] == '?' || tail[0] == '#'
    ensures TailQuals(unescape, tail).Keys == ParseTail(tail).quals.Keys
    ensures forall k :: k in ParseTail(tail).quals ==> TailQuals(unescape, tail)[k] == Decode(unescape, ParseTail(tail).quals[k])
  {
    hide Quals, DecodedQuals, Strings.Split, SplitFragment, TrimSlashes, Decode, Index;
    if QualBody(tail).Some? {
      SameQuals(unescape, Strings.Split(QualBody(tail).value, '&'));
    }
  }

  /** The two ways of cutting a path agree exactly when the namespace holds no "@"; otherwise the
      splitter finds no namespace at all. */
  lemma PathAgreement(path: string)
    requires path != "" && path[0] == '/'
    ensures '@' !in ParsePath(path).namespace ==> SplitPath(path[1..]) == ParsePath(path)
    ensures '@' in ParsePath(path).namespace ==> SplitPath(path[1..]).namespace == "" != ParsePath(path).namespace
  {
    var body := path[1..];
    var slash, at := Index(body, '/'), Index(body, '@');
    if slash >= 0 {
      var ns, rest := body[..slash], body[slash + 1..];
      assert body == ns + ['/'] + rest;
      if '@' in ns {
        AtInNamespace(body, ns, rest);
      } else {
        AtAfterNamespace(body, ns, rest);
      }
    } else {
      NoNamespace(body);
    }
  }

  lemma AtInNamespace(body: string, ns: string, rest: string)
    requires body == ns + ['/'] + rest && '/' !in ns && '@' in ns
    ensures SplitPath(body).namespace == ""
  {
    hide Index;
    var at := Index(ns, '@');
    assert body == ns[..at] + ['@'] + (ns[at + 1..] + ['/'] + rest);
    IndexAfter(ns[..at], '@', ns[at + 1..] + ['/'] + rest);
    assert body[..at] == ns[..at];
    assert forall c :: c in ns[..at] ==> c in ns;
  }

  lemma AtAfterNamespace(body: string, ns: string, rest: string)
    requires body == ns + ['/'] + rest && '/' !in ns && '@' !in ns
    ensures SplitPath(body) == SplitName(ns, rest)
  {
    hide Index;
    var at := Index(rest, '@');
    if at >= 0 {
      var front, version := ns + ['/'] + rest[..at], rest[at + 1..];
      assert body == front + ['@'] + version;
      IndexAfter(front, '@', version);
      IndexAfter(ns, '/', rest[..at]);
    } else {
      assert '@' !in body;
      IndexAfter(ns, '/', rest);
    }
  }

  lemma NoNamespace(body: string)
    requires '/' !in body
    ensures SplitPath(body) == SplitName("", body)
  {
    hide Index;
    var at := Index(body, '@');
    if at >= 0 { assert forall c :: c in body[..at] ==> c in body; }
  }

  /** What the splitter makes of a text that the parser matches. */
  lemma SplitOfShape(unescape: string -> Option<string>, purl: string)
    requires ShapeOf(purl).Some?
    ensures var h := ShapeOf(purl).value;
            SplitOf(unescape, purl) ==
            if h.path == "" then None
            else
              var p := SplitPath(h.path[1..]);
              Some(Split(Lower(h.typ), p.namespace, p.name, p.version, TailQuals(unescape, h.tail)))
  {
    hide Index, TailStart, SplitPath, TailQuals, Lower;
    var body := purl[4..];
    var rest := body[..TailStart(body)];
    var slash := Index(rest, '/');
    if slash >= 0 { assert rest[slash..][1..] == rest[slash + 1..]; }
  }

  /** The five fields that both readers produce. */
  predicate Agree(s: Split, p: Parsed) {
    s.typ == p.typ && s.namespace == p.namespace && s.name == p.name && s.version == p.version && s.quals.Keys == p.quals.Keys
  }

  /** On every purl that the parser accepts: the splitter accepts it exactly when it has a path; type
      and qualifier keys then agree, values up to unescaping; and namespace, name and version agree
      exactly when the namespace holds no "@" and, for a case-folded type, is already lower case
      together with the name. */
  lemma ParsersAgree(unescape: string -> Option<string>, purl: string)
    requires Parse(purl).Some?
    ensures SplitOf(unescape, purl).None? <==> ShapeOf(purl).value.path == ""
    ensures SplitOf(unescape, purl).Some? ==>
              var s, p := SplitOf(unescape, purl).value, Parse(purl).value;
              && s.typ == p.typ && s.quals.Keys == p.quals.Keys
              && (forall k :: k in p.quals ==> s.quals[k] == Decode(unescape, p.quals[k]))
              && (Agree(s, p) <==> '@' !in p.namespace && Fold(p.typ, s.namespace) == s.namespace && Fold(p.typ, s.name) == s.name)
  {
    hide ShapeOf, SplitOf, SplitPath, TailQuals, ParsePath, ParseTail, Decode, Lower, Folded;
    var h := ShapeOf(purl).value;
    ShapeParts(purl);
    SplitOfShape(unescape, purl);
    if h.path != "" {
      SameTail(unescape, h.tail);
      PathAgreement(h.path);
      LowerPlain(ParsePath(h.path).namespace);
    }
  }

  lemma SuffixStart(head: string, more: string)
    requires Plain(head)
    ensures TailStart(head + more) >= |head|
  {
    var s, i := head + more, TailStart(head + more);
    assert forall k :: 0 <= k < |head| ==> s[k] == head[k] && head[k] in head;
  }

  /** A canonical text always matches, with its type and a path. */
  lemma CanonicalMatches(p: Parsed)
    requires FieldsOk(p)
    ensures ShapeOf(Print(p)).Some? && ShapeOf(Print(p)).value.path != ""
  {
    hide ShapeOf, PathText, TailText, QualText, TailOk, PathOk, Lower, Folded, TailStart;
    var path, more := PathText(PathOf(p)), TailText(TailOf(p));
    CanonicalFields(p);
    PathTextPlain(PathOf(p));
    NoNewline(TailOf(p));
    SuffixStart(path, more);
    var rest := path + more;
    var i := TailStart(rest);
    assert rest[0] == path[0] && rest[..i][0] == '/';
    assert rest[i..] == more[i - |path|..];
    assert forall c :: c in rest[i..] ==> c in more;
    var h := Shape(p.typ, rest[..i], rest[i..]);
    ShapeBuild(h);
    assert "pkg:" + h.typ + h.path + h.tail == "pkg:" + p.typ + (h.path + h.tail) && h.path + h.tail == rest;
    assert Print(p) == "pkg:" + p.typ + rest;
  }

  lemma NoNewline(t: Tail)
    requires TailOk(t)
    ensures '\n' !in TailText(t)
  {
    hide QualText, QualsOk;
    if |t.quals| == 0 { NoQualText(t.quals); } else { QualTextParses(t.quals); }
  }

  /** On every canonical form both readers succeed, and they agree exactly when the namespace holds no
      "@" and folding changes nothing; unless the purl was ambiguous, folding changes nothing. */
  lemma ParsersAgreeOnCanonical(unescape: string -> Option<string>, purl: string)
    requires Parse(purl).Some?
    ensures var c := Canonical(purl).value;
            && SplitOf(unescape, c).Some? && Parse(c).Some?
            && var s, p := SplitOf(unescape, c).value, Parse(c).value;
               && (Agree(s, p) <==> '@' !in p.namespace && Fold(p.typ, s.namespace) == s.namespace && Fold(p.typ, s.name) == s.name)
               && (!Ambiguous(Parse(purl).value) ==> p == Parse(purl).value && (Agree(s, p) <==> '@' !in p.namespace))
  {
    hide Parse, Print, ShapeOf, SplitOf, FieldsOk, Folded, Lower, Agree, Ambiguous;
    var p := Parse(purl).value;
    ParsedFieldsOk(purl);
    CanonicalMatches(p);
    MatchParses(Print(p));
    ParsersAgree(unescape, Print(p));
    if !Ambiguous(p) { AgreeUnambiguous(unescape, p); }
  }

  lemma MatchParses(text: string)
    requires ShapeOf(text).Some?
    ensures Parse(text).Some?
  {
  }

  lemma AgreeUnambiguous(unescape: string -> Option<string>, p: Parsed)
    requires FieldsOk(p) && !Ambiguous(p)
    ensures Parse(Print(p)) == Some(p) && SplitOf(unescape, Print(p)).Some?
    ensures Agree(SplitOf(unescape, Print(p)).value, p) <==> '@' !in p.namespace
  {
    hide Parse, Print, ShapeOf, SplitOf, PathText, TailText, FieldsOk, Folded, Lower, SplitPath, ParsePath, TailQuals, PathOk;
    UnambiguousRoundTrip(p);
    CanonicalFields(p);
    PrintShape(p);
    ParsersAgree(unescape, Print(p));
    SplitOfShape(unescape, Print(p));
    PathRoundTrip(PathOf(p));
    PathAgreement(PathText(PathOf(p)));
  }

  lemma CanonicalFields(p: Parsed)
    requires FieldsOk(p)
    ensures PathOk(PathOf(p)) && PathText(PathOf(p)) != "" && PathText(PathOf(p))[0] == '/'
    ensures Fold(p.typ, p.namespace) == p.namespace && Fold(p.typ, p.name) == p.name
  {
    hide TailOk, PathOk, PathText;
    PathTextPlain(PathOf(p));
  }
}
