/** Package URLs (api/purl.go): the parser, the canonical printer, and how they undo each other. */
module Purl {
  import opened Seqs
  import opened Strings

  datatype Parsed = Parsed(
    typ: string, namespace: string, name: string, version: string,
    quals: map<string, string>, subpath: string, hash: string)

  /** Types whose namespace and name are folded to lower case. */
  predicate Folded(typ: string) {
    typ == "pypi" || typ == "npm" || typ == "gem" || typ == "composer" || typ == "golang"
  }

  function Fold(typ: string, s: string): (r: string)
    ensures |r| == |s|
  {
    if Folded(typ) then Lower(s) else s
  }

  // ---- the overall shape ----

  /** The first "?" or "#", or the length. */
  function TailStart(s: string): (i: nat)
    ensures i <= |s|
    ensures '?' !in s[..i] && '#' !in s[..i]
    ensures i < |s| ==> s[i] == '?' || s[i] == '#'
  {
    if s == [] then 0
    else if s[0] == '?' || s[0] == '#' then 0
    else
      var j := TailStart(s[1..]);
      assert s[..j + 1] == [s[0]] + s[1..][..j];
      j + 1
  }

  /** The three groups of the pattern: a type without "/", "?" and "#", a path that is empty or
      begins with "/", and a tail that is empty or begins with "?" or "#" and stays on one line. */
  datatype Shape = Shape(typ: string, path: string, tail: string)

  function ShapeOf(purl: string): (r: Option<Shape>) {
    if !("pkg:" <= purl) then None
    else
      var body := purl[4..];
      var head, tail := body[..TailStart(body)], body[TailStart(body)..];
      var (typ, path) := CutHead(head);
      if typ == "" || '\n' in tail then None else Some(Shape(typ, path, tail))
  }

  /** Type and path: the path begins with the first slash. */
  function CutHead(head: string): (r: (string, string))
    ensures r.0 + r.1 == head && '/' !in r.0 && (r.1 != "" ==> r.1[0] == '/')
  {
    var slash := Index(head, '/');
    if slash < 0 then (head, "") else (head[..slash], head[slash..])
  }

  predicate Plain(s: string) {
    '?' !in s && '#' !in s
  }

  predicate ShapeOk(h: Shape) {
    && h.typ != "" && Plain(h.typ) && '/' !in h.typ && Plain(h.path) && (h.path != "" ==> h.path[0] == '/')
    && '\n' !in h.tail && (h.tail != "" ==> h.tail[0] == '?' || h.tail[0] == '#')
  }

  lemma TailStartAt(head: string, tail: string)
    requires Plain(head) && (tail != "" ==> tail[0] == '?' || tail[0] == '#')
    ensures TailStart(head + tail) == |head|
  {
    var s, i := head + tail, TailStart(head + tail);
    assert forall k :: 0 <= k < |head| ==> s[k] == head[k] && head[k] in head;
    assert forall k :: |head| < k <= |s| ==> s[..k][|head|] == tail[0];
  }

  lemma ShapeGroups(purl: string)
    requires ShapeOf(purl).Some?
    ensures ShapeOk(ShapeOf(purl).value)
  {
    hide CutHead, TailStart;
    var body := purl[4..];
    var head, h := body[..TailStart(body)], ShapeOf(purl).value;
    HeadPlain(head, h.typ, h.path);
  }

  lemma ShapeText(purl: string)
    requires ShapeOf(purl).Some?
    ensures var h := ShapeOf(purl).value; purl == "pkg:" + (h.typ + h.path + h.tail)
  {
    hide CutHead, TailStart;
    var body := purl[4..];
    assert purl == "pkg:" + body;
    assert body == body[..TailStart(body)] + body[TailStart(body)..];
  }

  /** The groups of a match make up the text, and any three good groups are matched as they are. */
  lemma ShapeParts(purl: string)
    requires ShapeOf(purl).Some?
    ensures var h := ShapeOf(purl).value; ShapeOk(h) && purl == "pkg:" + h.typ + h.path + h.tail
  {
    hide ShapeOf, ShapeOk;
    ShapeGroups(purl);
    ShapeText(purl);
    var h := ShapeOf(purl).value;
    assert "pkg:" + (h.typ + h.path + h.tail) == "pkg:" + h.typ + h.path + h.tail;
  }

  lemma HeadPlain(head: string, typ: string, path: string)
    requires Plain(head) && head == typ + path
    ensures Plain(typ) && Plain(path)
  {
    assert forall c :: c in typ || c in path ==> c in head;
  }

  lemma ShapeBuild(h: Shape)
    requires ShapeOk(h)
    ensures ShapeOf("pkg:" + h.typ + h.path + h.tail) == Some(h)
  {
    hide Index, TailStart;
    var purl, body, head := "pkg:" + h.typ + h.path + h.tail, h.typ + h.path + h.tail, h.typ + h.path;
    assert purl[4..] == body && "pkg:" <= purl;
    assert body == head + h.tail;
    TailStartAt(head, h.tail);
    assert body[..|head|] == head && body[|head|..] == h.tail;
    if h.path == "" {
      assert head == h.typ;
      assert CutHead(head) == (h.typ, h.path);
    } else {
      assert h.path == ['/'] + h.path[1..];
      assert head == h.typ + ['/'] + h.path[1..];
      IndexAfter(h.typ, '/', h.path[1..]);
    }
  }

  // ---- path ----

  datatype Path = Path(namespace: string, name: string, version: string)

  function ExtractVersion(s: string): (v: Option<string>) {
    var i := Index(s, '@');
    if i < 0 then None else Some(s[i + 1..])
  }

  function StripVersion(s: string): (r: string) {
    var i := Index(s, '@');
    if i < 0 then s else s[..i]
  }

  function SplitName(namespace: string, s: string): (p: Path) {
    Path(namespace, StripVersion(s), if ExtractVersion(s).Some? then ExtractVersion(s).value else "")
  }

  function ParsePath(path: string): (p: Path) {
    if path == "" then Path("", "", "")
    else
      var body := path[1..];
      var slash := Index(body, '/');
      if slash >= 0 then SplitName(body[..slash], body[slash + 1..]) else SplitName("", body)
  }

  function VersionText(version: string): (s: string) {
    if version == "" then "" else "@" + version
  }

  function PathText(p: Path): (s: string) {
    (if p.namespace == "" then "" else "/" + p.namespace) + "/" + p.name + VersionText(p.version)
  }

  /** Fields that the printer separates unambiguously. */
  predicate PathOk(p: Path) {
    '/' !in p.namespace && '@' !in p.name && Plain(p.namespace) && Plain(p.name) && Plain(p.version)
  }

  lemma SplitNameText(namespace: string, name: string, version: string)
    requires '@' !in name
    ensures SplitName(namespace, name + VersionText(version)) == Path(namespace, name, version)
  {
    if version == "" {
      assert name + VersionText(version) == name;
    } else {
      assert name + VersionText(version) == name + ['@'] + version;
      IndexAfter(name, '@', version);
    }
  }

  /** Parsing a printed path gives the fields back, exactly unless the namespace is empty and a
      slash follows. */
  lemma PathRoundTrip(p: Path)
    requires PathOk(p)
    ensures ParsePath(PathText(p)) == p <==> p.namespace != "" || ('/' !in p.name && '/' !in p.version)
    ensures !(p.namespace != "" || ('/' !in p.name && '/' !in p.version)) ==>
              var q := ParsePath(PathText(p));
              |q.namespace| != |p.namespace| || |q.name| != |p.name| || |q.version| != |p.version|
  {
    hide SplitName;
    if p.namespace != "" { NamespacePath(p); } else { NamePath(p); }
  }

  lemma NamespacePath(p: Path)
    requires PathOk(p) && p.namespace != ""
    ensures ParsePath(PathText(p)) == p
  {
    hide SplitName, Index;
    var text := p.name + VersionText(p.version);
    SplitNameText(p.namespace, p.name, p.version);
    assert PathText(p)[1..] == p.namespace + ['/'] + text;
    IndexAfter(p.namespace, '/', text);
  }

  lemma NamePath(p: Path)
    requires PathOk(p) && p.namespace == ""
    ensures '/' !in p.name && '/' !in p.version ==> ParsePath(PathText(p)) == p
    ensures '/' in p.name || '/' in p.version ==>
              var q := ParsePath(PathText(p)); |q.namespace| != 0 || |q.name| != |p.name| || |q.version| != |p.version|
  {
    hide SplitName, Index;
    var text := p.name + VersionText(p.version);
    SplitNameText("", p.name, p.version);
    assert PathText(p) == "/" + text;
    assert PathText(p)[1..] == text;
    SlashInText(p.name, p.version);
    if '/' in text { SlashMoves(text, p.name, p.version); }
  }

  lemma SlashInText(name: string, version: string)
    ensures '/' in name + VersionText(version) <==> '/' in name || '/' in version
  {
    var text := name + VersionText(version);
    if '/' in name { var i :| 0 <= i < |name| && name[i] == '/'; assert text[i] == '/'; }
    if '/' in version { var i :| 0 <= i < |version| && version[i] == '/'; assert text[|name| + 1 + i] == '/'; }
  }

  lemma SlashMoves(text: string, name: string, version: string)
    requires '@' !in name && text == name + VersionText(version) && '/' in text
    ensures var q := ParsePath("/" + text); |q.namespace| != 0 || |q.name| != |name| || |q.version| != |version|
  {
    assert ("/" + text)[1..] == text;
    var rest := text[Index(text, '/') + 1..];
    NameLength("", rest);
  }

  lemma NameLength(namespace: string, s: string)
    ensures var p := SplitName(namespace, s);
            |s| == |p.name| + |p.version| + if '@' in s then 1 else 0
  {
  }

  lemma ParsePathOk(path: string)
    requires Plain(path) && (path != "" ==> path[0] == '/')
    ensures PathOk(ParsePath(path))
  {
    if path != "" {
      var body := path[1..];
      assert forall c :: c in body ==> c in path;
      var slash := Index(body, '/');
      if slash >= 0 {
        assert forall c :: c in body[..slash] || c in body[slash + 1..] ==> c in body;
        SplitNameOk(body[..slash], body[slash + 1..]);
      } else {
        SplitNameOk("", body);
      }
    }
  }

  lemma SplitNameOk(namespace: string, s: string)
    requires '/' !in namespace && Plain(namespace) && Plain(s)
    ensures PathOk(SplitName(namespace, s))
  {
    var i := Index(s, '@');
    if i >= 0 { assert forall c :: c in s[..i] || c in s[i + 1..] ==> c in s; }
  }

  // ---- fragment ----

  function TrimSlashes(s: string): (r: string)
    ensures r <= s
    ensures r != "" ==> r[|r| - 1] != '/'
    ensures (s == "" || s[|s| - 1] != '/') ==> r == s
  {
    if s != "" && s[|s| - 1] == '/' then TrimSlashes(s[..|s| - 1]) else s
  }

  /** Hash and subpath of a fragment; the subpath begins with its slash. */
  function SplitFragment(f: string): (r: (string, string))
    ensures r.0 + r.1 == f && '/' !in r.0 && (r.1 != "" ==> r.1[0] == '/')
  {
    var slash := Index(f, '/');
    if slash >= 0 then (f[..slash], f[slash..]) else (f, "")
  }

  lemma FragmentRoundTrip(hash: string, subpath: string)
    requires '/' !in hash && (subpath != "" ==> subpath[0] == '/')
    ensures SplitFragment(hash + subpath) == (hash, subpath)
  {
    if subpath == "" {
      assert hash + subpath == hash;
    } else {
      assert hash + subpath == hash + ['/'] + subpath[1..];
      IndexAfter(hash, '/', subpath[1..]);
    }
  }

  // ---- qualifiers ----

  predicate IsPair(kv: string) {
    kv != "" && Index(kv, '=') >= 0
  }

  function KeyOf(kv: string): (k: string)
    requires IsPair(kv)
  {
    Lower(kv[..Index(kv, '=')])
  }

  function ValueOf(kv: string): (v: string)
    requires IsPair(kv)
  {
    kv[Index(kv, '=') + 1..]
  }

  function AddQual(m: map<string, string>, kv: string): (r: map<string, string>) {
    if IsPair(kv) then m[KeyOf(kv) := ValueOf(kv)] else m
  }

  /** Later pairs win. */
  function Quals(parts: seq<string>): (m: map<string, string>) {
    if parts == [] then map[] else AddQual(Quals(parts[..|parts| - 1]), parts[|parts| - 1])
  }

  ghost function AnyOrder(s: set<string>): (r: seq<string>)
    ensures forall x :: x in r <==> x in s
    ensures Distinct(r)
    decreases |s|
  {
    if s == {} then []
    else
      var x :| x in s;
      AnyOrder(s - {x}) + [x]
  }

  ghost function SortedKeys(s: set<string>): (r: seq<string>) {
    SortStrings(AnyOrder(s))
  }

  lemma SortedKeysLaw(s: set<string>)
    ensures LexSorted(SortedKeys(s)) && Distinct(SortedKeys(s))
    ensures forall x :: x in SortedKeys(s) <==> x in s
  {
    SortSorted(AnyOrder(s));
    SortDistinct(AnyOrder(s));
    forall x ensures x in SortedKeys(s) <==> x in s { SortHas(AnyOrder(s), x); }
  }

  function PairText(k: string, v: string): (s: string) {
    k + "=" + v
  }

  function Pairs(m: map<string, string>, keys: seq<string>): (r: seq<string>)
    requires forall k :: k in keys ==> k in m
    ensures |r| == |keys|
    ensures forall i :: 0 <= i < |keys| ==> r[i] == PairText(keys[i], m[keys[i]])
  {
    if keys == [] then []
    else
      assert forall k :: k in keys[..|keys| - 1] ==> k in keys;
      Pairs(m, keys[..|keys| - 1]) + [PairText(keys[|keys| - 1], m[keys[|keys| - 1]])]
  }

  ghost function QualText(m: map<string, string>): (s: string) {
    if |m| == 0 then ""
    else
      SortedKeysLaw(m.Keys);
      "?" + Join(Pairs(m, SortedKeys(m.Keys)), "&")
  }

  predicate QualOk(k: string, v: string) {
    Lower(k) == k && '=' !in k && '&' !in k && '#' !in k && '\n' !in k && '&' !in v && '#' !in v && '\n' !in v
  }

  ghost predicate QualsOk(m: map<string, string>) {
    forall k :: k in m ==> QualOk(k, m[k])
  }

  lemma PairParses(k: string, v: string)
    requires QualOk(k, v)
    ensures IsPair(PairText(k, v)) && KeyOf(PairText(k, v)) == k && ValueOf(PairText(k, v)) == v
    ensures '&' !in PairText(k, v) && '#' !in PairText(k, v) && '\n' !in PairText(k, v)
  {
    assert PairText(k, v) == k + ['='] + v;
    IndexAfter(k, '=', v);
  }

  lemma RestrictSnoc(m: map<string, string>, init: seq<string>, last: string)
    requires last in m && forall k :: k in init ==> k in m
    ensures (map k | k in init :: m[k])[last := m[last]] == map k | k in init + [last] :: m[k]
  {
  }

  lemma {:induction false} PairsParse(m: map<string, string>, keys: seq<string>)
    requires QualsOk(m) && (forall k :: k in keys ==> k in m)
    ensures Quals(Pairs(m, keys)) == map k | k in keys :: m[k]
  {
    hide IsPair, KeyOf, ValueOf, QualOk, PairText;
    if keys != [] {
      var n := |keys| - 1;
      var init, last := keys[..n], keys[n];
      assert forall k :: k in init ==> k in keys;
      assert keys == init + [last];
      PairsParse(m, init);
      PairParses(last, m[last]);
      RestrictSnoc(m, init, last);
      assert Quals(Pairs(m, keys)) == AddQual(Quals(Pairs(m, init)), PairText(last, m[last])) by {
        assert Pairs(m, keys)[..n] == Pairs(m, init);
      }
    }
  }

  lemma PairsClean(m: map<string, string>, keys: seq<string>, c: char)
    requires QualsOk(m) && (forall k :: k in keys ==> k in m) && (c == '&' || c == '#' || c == '\n')
    ensures forall p :: p in Pairs(m, keys) ==> c !in p
  {
    forall i | 0 <= i < |keys| ensures c !in Pairs(m, keys)[i] { PairParses(keys[i], m[keys[i]]); }
  }

  /** What follows the question mark of a printed qualifier list parses back to the qualifiers. */
  lemma QualTextParses(m: map<string, string>)
    requires QualsOk(m) && |m| > 0
    ensures var text := QualText(m)[1..];
            QualText(m) == "?" + text && '#' !in text && '\n' !in text && Quals(Split(text, '&')) == m
  {
    hide AnyOrder, SortStrings, SortedKeys, Pairs, Join, Split, Quals, Distinct, LexSorted, QualOk;
    var keys := SortedKeys(m.Keys);
    SortedKeysLaw(m.Keys);
    var pairs := Pairs(m, keys);
    var text := Join(pairs, "&");
    assert QualText(m)[1..] == text;
    NonEmptyKeys(m, keys);
    PairsClean(m, keys, '&');
    PairsClean(m, keys, '#');
    PairsClean(m, keys, '\n');
    JoinHas(pairs, "&", '#');
    JoinHas(pairs, "&", '\n');
    SplitJoin(pairs, '&');
    PairsParse(m, keys);
    assert (map k | k in keys :: m[k]) == m;
  }

  lemma NonEmptyKeys(m: map<string, string>, keys: seq<string>)
    requires |m| > 0 && forall k :: k in keys <==> k in m.Keys
    ensures |keys| >= 1
  {
    assert |m| == |m.Keys|;
    var k :| k in m.Keys;
    assert k in keys;
  }

  lemma {:induction false} ParsedQualsOk(parts: seq<string>)
    requires forall p :: p in parts ==> '&' !in p && '#' !in p && '\n' !in p
    ensures QualsOk(Quals(parts))
  {
    if parts != [] {
      var n := |parts| - 1;
      assert forall p :: p in parts[..n] ==> p in parts;
      ParsedQualsOk(parts[..n]);
      if IsPair(parts[n]) { ParsedPairOk(parts[n]); }
    }
  }

  lemma ParsedPairOk(kv: string)
    requires IsPair(kv) && '&' !in kv && '#' !in kv && '\n' !in kv
    ensures QualOk(KeyOf(kv), ValueOf(kv))
  {
    var i := Index(kv, '=');
    var k := kv[..i];
    assert forall c :: c in k || c in kv[i + 1..] ==> c in kv;
    LowerIdempotent(k);
    LowerKeepsNonLetter(k, '=');
    LowerKeepsNonLetter(k, '&');
    LowerKeepsNonLetter(k, '#');
    LowerKeepsNonLetter(k, '\n');
  }

  // ---- tail ----

  datatype Tail = Tail(quals: map<string, string>, hash: string, subpath: string)

  function WithFragment(quals: map<string, string>, f: string): (t: Tail) {
    Tail(quals, SplitFragment(f).0, TrimSlashes(SplitFragment(f).1))
  }

  function ParseTail(tail: string): (t: Tail) {
    if tail == "" then Tail(map[], "", "")
    else if tail[0] == '?' then
      var body := tail[1..];
      var i := Index(body, '#');
      if i >= 0 then WithFragment(Quals(Split(body[..i], '&')), body[i + 1..])
      else Tail(Quals(Split(body, '&')), "", "")
    else if tail[0] == '#' then WithFragment(map[], tail[1..])
    else Tail(map[], "", "")
  }

  function HashText(hash: string): (s: string) {
    if hash == "" then "" else "#" + hash
  }

  ghost function TailText(t: Tail): (s: string) {
    QualText(t.quals) + HashText(t.hash) + t.subpath
  }

  ghost predicate TailOk(t: Tail) {
    && QualsOk(t.quals) && '/' !in t.hash && '\n' !in t.hash && '\n' !in t.subpath
    && (t.subpath != "" ==> t.subpath[0] == '/' && t.subpath[|t.subpath| - 1] != '/')
  }

  lemma FragmentText(quals: map<string, string>, t: Tail)
    requires TailOk(t) && t.hash != ""
    ensures WithFragment(quals, t.hash + t.subpath) == Tail(quals, t.hash, t.subpath)
  {
    hide SplitFragment, TrimSlashes;
    FragmentRoundTrip(t.hash, t.subpath);
  }

  /** A printed tail with a hash, or without hash and subpath, parses back to its fields. */
  lemma TailRoundTrip(t: Tail)
    requires TailOk(t) && (t.hash != "" || t.subpath == "")
    ensures ParseTail(TailText(t)) == t && '\n' !in TailText(t)
    ensures TailText(t) != "" ==> TailText(t)[0] == '?' || TailText(t)[0] == '#'
  {
    hide QualText, Quals, Split, QualsOk, WithFragment, SplitFragment, TrimSlashes, Index;
    if |t.quals| == 0 {
      NoQualText(t.quals);
      if t.hash == "" {
        assert TailText(t) == "";
      } else {
        assert TailText(t) == "#" + (t.hash + t.subpath);
        assert TailText(t)[1..] == t.hash + t.subpath;
        FragmentText(map[], t);
      }
    } else {
      QualTextParses(t.quals);
      QualTail(t, QualText(t.quals)[1..]);
    }
  }

  lemma NoQualText(m: map<string, string>)
    requires |m| == 0
    ensures m == map[] && QualText(m) == ""
  {
  }

  lemma TextTail(text: string, fragment: string)
    requires '#' !in text && (fragment != "" ==> fragment[0] == '#')
    ensures ParseTail("?" + text + fragment) ==
            if fragment == "" then Tail(Quals(Split(text, '&')), "", "") else WithFragment(Quals(Split(text, '&')), fragment[1..])
  {
    hide Split, Quals, WithFragment, Index;
    var tail := "?" + text + fragment;
    assert tail[1..] == text + fragment;
    if fragment != "" {
      assert text + fragment == text + ['#'] + fragment[1..];
      IndexAfter(text, '#', fragment[1..]);
    } else {
      assert text + fragment == text;
    }
  }

  lemma QualTail(t: Tail, text: string)
    requires TailOk(t) && (t.hash != "" || t.subpath == "")
    requires QualText(t.quals) == "?" + text && '#' !in text && '\n' !in text && Quals(Split(text, '&')) == t.quals
    ensures ParseTail(TailText(t)) == t && '\n' !in TailText(t) && TailText(t) != "" && TailText(t)[0] == '?'
  {
    hide QualText, Quals, Split, QualsOk, WithFragment, ParseTail;
    var fragment := HashText(t.hash) + t.subpath;
    assert TailText(t) == "?" + text + fragment;
    TextTail(text, fragment);
    if t.hash == "" {
      assert fragment == "";
    } else {
      assert fragment[1..] == t.hash + t.subpath;
      FragmentText(t.quals, t);
    }
  }

  lemma FragmentOk(quals: map<string, string>, f: string)
    requires QualsOk(quals) && '\n' !in f
    ensures TailOk(WithFragment(quals, f)) && |WithFragment(quals, f).subpath| <= |f|
  {
    hide QualsOk, SplitFragment, TrimSlashes;
    var (hash, sub) := SplitFragment(f);
    assert f == hash + sub;
    assert forall c :: c in hash || c in sub ==> c in f;
    var trimmed := TrimSlashes(sub);
    assert forall c :: c in trimmed ==> c in sub;
  }

  /** Parsed tails are printable, and the subpath comes from what follows the first "#". */
  lemma ParsedTailOk(tail: string)
    requires '\n' !in tail
    ensures TailOk(ParseTail(tail))
    ensures Index(tail, '#') < 0 ==> ParseTail(tail).subpath == ""
    ensures Index(tail, '#') >= 0 ==> |ParseTail(tail).subpath| < |tail| - Index(tail, '#')
  {
    hide Quals, Split, QualsOk, WithFragment, SplitFragment, TrimSlashes, Index;
    NoQuals();
    if tail != "" && tail[0] == '?' {
      QuestionTailOk(tail);
    } else if tail != "" && tail[0] == '#' {
      assert forall c :: c in tail[1..] ==> c in tail;
      FragmentOk(map[], tail[1..]);
      assert Index(tail, '#') == 0 by { IndexAfter("", '#', tail[1..]); assert tail == "" + ['#'] + tail[1..]; }
    }
  }

  lemma NoQuals()
    ensures QualsOk(map[])
  {
  }

  lemma QuestionTailOk(tail: string)
    requires '\n' !in tail && tail != "" && tail[0] == '?'
    ensures TailOk(ParseTail(tail))
    ensures Index(tail, '#') < 0 ==> ParseTail(tail).subpath == ""
    ensures Index(tail, '#') >= 0 ==> |ParseTail(tail).subpath| < |tail| - Index(tail, '#')
  {
    hide Quals, QualsOk, WithFragment, Index, Split;
    var body := tail[1..];
    assert tail == ['?'] + body;
    assert forall c :: c in body ==> c in tail;
    var i := Index(body, '#');
    if i >= 0 {
      assert tail == (['?'] + body[..i]) + ['#'] + body[i + 1..];
      IndexAfter(['?'] + body[..i], '#', body[i + 1..]);
      assert forall c :: c in body[..i] || c in body[i + 1..] ==> c in body;
      SplitClean(body[..i]);
      FragmentOk(Quals(Split(body[..i], '&')), body[i + 1..]);
    } else {
      SplitClean(body);
    }
  }

  /** Qualifiers read from text without "#" and newline are printable. */
  lemma SplitClean(text: string)
    requires '#' !in text && '\n' !in text
    ensures QualsOk(Quals(Split(text, '&')))
  {
    hide QualsOk, Quals, Split;
    SplitKeepsOut(text, '&', '#');
    SplitKeepsOut(text, '&', '\n');
    ParsedQualsOk(Split(text, '&'));
  }

  lemma {:induction false} SplitKeepsOut(s: string, c: char, d: char)
    requires d !in s
    ensures forall p :: p in Split(s, c) ==> d !in p
    decreases |s|
  {
    var i := Index(s, c);
    if i >= 0 {
      assert forall x :: x in s[..i] || x in s[i + 1..] ==> x in s;
      SplitKeepsOut(s[i + 1..], c, d);
    }
  }

  // ---- parse and print ----

  function Assemble(h: Shape): (p: Parsed) {
    var typ, path, tail := Lower(h.typ), ParsePath(h.path), ParseTail(h.tail);
    Parsed(typ, Fold(typ, path.namespace), Fold(typ, path.name), path.version, tail.quals, tail.subpath, tail.hash)
  }

  function Parse(purl: string): (r: Option<Parsed>) {
    var h := ShapeOf(purl);
    if h.None? then None else Some(Assemble(h.value))
  }

  function PathOf(p: Parsed): (r: Path) {
    Path(p.namespace, p.name, p.version)
  }

  function TailOf(p: Parsed): (r: Tail) {
    Tail(p.quals, p.hash, p.subpath)
  }

  ghost function Print(p: Parsed): (s: string) {
    "pkg:" + p.typ + PathText(PathOf(p)) + TailText(TailOf(p))
  }

  ghost function Canonical(purl: string): (r: Option<string>) {
    if Parse(purl).None? then None else Some(Print(Parse(purl).value))
  }

  ghost predicate FieldsOk(p: Parsed) {
    && p.typ != "" && Plain(p.typ) && '/' !in p.typ && Lower(p.typ) == p.typ
    && PathOk(PathOf(p)) && TailOk(TailOf(p)) && Fold(p.typ, p.namespace) == p.namespace && Fold(p.typ, p.name) == p.name
  }

  lemma LowerPlain(s: string)
    ensures Plain(Lower(s)) <==> Plain(s)
    ensures '/' in Lower(s) <==> '/' in s
    ensures '@' in Lower(s) <==> '@' in s
  {
    LowerKeepsNonLetter(s, '?');
    LowerKeepsNonLetter(s, '#');
    LowerKeepsNonLetter(s, '/');
    LowerKeepsNonLetter(s, '@');
  }

  /** What the parser produces is well formed. */
  lemma ParsedFieldsOk(purl: string)
    requires Parse(purl).Some?
    ensures FieldsOk(Parse(purl).value)
  {
    hide ShapeOf, ParsePath, ParseTail, TailOk, Lower, Folded;
    var h := ShapeOf(purl).value;
    ShapeParts(purl);
    ParsePathOk(h.path);
    ParsedTailOk(h.tail);
    LowerPlain(h.typ);
    LowerIdempotent(h.typ);
    var path := ParsePath(h.path);
    LowerPlain(path.namespace);
    LowerPlain(path.name);
    LowerIdempotent(path.namespace);
    LowerIdempotent(path.name);
  }

  lemma PathTextPlain(p: Path)
    requires PathOk(p)
    ensures Plain(PathText(p)) && PathText(p) != "" && PathText(p)[0] == '/'
  {
  }

  /** The printed text matches again, with the printed pieces as its groups. */
  lemma PrintShape(p: Parsed)
    requires FieldsOk(p) && (p.hash != "" || p.subpath == "")
    ensures ShapeOf(Print(p)) == Some(Shape(p.typ, PathText(PathOf(p)), TailText(TailOf(p))))
  {
    hide ShapeOf, PathText, TailText, TailOk, Lower, PathOk, Folded;
    PathTextPlain(PathOf(p));
    TailRoundTrip(TailOf(p));
    ShapeBuild(Shape(p.typ, PathText(PathOf(p)), TailText(TailOf(p))));
  }

  /** Some field moves when the canonical text is parsed again. */
  predicate Ambiguous(p: Parsed) {
    || (p.namespace == "" && ('/' in p.name || '/' in p.version))
    || (p.hash == "" && p.subpath != "")
  }

  lemma UnambiguousRoundTrip(p: Parsed)
    requires FieldsOk(p) && !Ambiguous(p)
    ensures Parse(Print(p)) == Some(p)
  {
    hide ShapeOf, PathText, TailText, TailOk, Lower, PathOk, Folded, ParsePath, ParseTail, Print;
    PrintShape(p);
    PathRoundTrip(PathOf(p));
    TailRoundTrip(TailOf(p));
  }

  lemma LostSlash(p: Parsed)
    requires FieldsOk(p) && (p.hash != "" || p.subpath == "") && p.namespace == "" && ('/' in p.name || '/' in p.version)
    ensures Parse(Print(p)) != Some(p)
  {
    hide ShapeOf, PathText, TailText, TailOk, Lower, PathOk, Folded, ParsePath, ParseTail, Print;
    PrintShape(p);
    PathRoundTrip(PathOf(p));
  }

  /** Without a hash no "#" is printed, so the subpath cannot come back whole. */
  lemma LostSubpath(p: Parsed)
    requires FieldsOk(p) && p.hash == "" && p.subpath != ""
    ensures Parse(Print(p)) != Some(p)
  {
    hide ShapeOf, PathText, TailOk, Lower, PathOk, Folded, ParsePath, ParseTail, Print, TailText;
    if Parse(Print(p)).Some? {
      var h := ShapeOf(Print(p)).value;
      ShapeParts(Print(p));
      ParsedTailOk(h.tail);
      NoHashBefore(p);
      var front := "pkg:" + p.typ + PathText(PathOf(p)) + QualText(p.quals);
      HashPosition(h, front, p.subpath);
    }
  }

  lemma NoHashBefore(p: Parsed)
    requires FieldsOk(p) && p.hash == ""
    ensures var front := "pkg:" + p.typ + PathText(PathOf(p)) + QualText(p.quals);
            '#' !in front && Print(p) == front + p.subpath
  {
    hide PathText, QualText, QualsOk, Lower, PathOk, Folded;
    PathTextPlain(PathOf(p));
    if |p.quals| == 0 { NoQualText(p.quals); } else { QualTextParses(p.quals); }
  }

  lemma HashPosition(h: Shape, front: string, subpath: string)
    requires ShapeOk(h) && "pkg:" + h.typ + h.path + h.tail == front + subpath && '#' !in front && subpath != ""
    ensures Index(h.tail, '#') >= 0 ==> |h.tail| - Index(h.tail, '#') <= |subpath|
  {
    hide Index;
    var head, i := "pkg:" + h.typ + h.path, Index(h.tail, '#');
    if i >= 0 {
      assert (head + h.tail)[|head| + i] == '#';
      assert forall k :: 0 <= k < |front| ==> (front + subpath)[k] == front[k] && front[k] in front;
    }
  }

  /** Parsing the canonical form gives back the same fields, for every purl, exactly unless the path
      begins with an empty segment that hides a slash or the fragment begins with a slash. */
  lemma RoundTrip(purl: string)
    requires Parse(purl).Some?
    ensures Parse(Canonical(purl).value) == Parse(purl) <==> !Ambiguous(Parse(purl).value)
  {
    hide Parse, Print, FieldsOk;
    var p := Parse(purl).value;
    ParsedFieldsOk(purl);
    if !Ambiguous(p) {
      UnambiguousRoundTrip(p);
    } else if p.hash == "" && p.subpath != "" {
      LostSubpath(p);
    } else {
      LostSlash(p);
    }
  }

  /** The text after the first "#" of a match, if there is one. */
  function FragmentOf(h: Shape): (f: string) {
    var i := Index(h.tail, '#');
    if i < 0 then "" else h.tail[i + 1..]
  }

  /** A path without a leading empty segment and a fragment without a leading slash. */
  predicate Regular(h: Shape) {
    !("//" <= h.path) && !("/" <= FragmentOf(h))
  }

  lemma RegularPath(path: string)
    requires !("//" <= path) && (path != "" ==> path[0] == '/')
    ensures var p := ParsePath(path); p.namespace == "" ==> '/' !in p.name && '/' !in p.version
  {
    if path != "" {
      var body := path[1..];
      var slash := Index(body, '/');
      if slash >= 0 {
        assert |path| >= 2 ==> path[..2] == [path[0], path[1]];
      } else {
        var i := Index(body, '@');
        if i >= 0 { assert forall c :: c in body[..i] || c in body[i + 1..] ==> c in body; }
      }
    }
  }

  lemma RegularTail(h: Shape)
    requires ShapeOk(h) && !("/" <= FragmentOf(h))
    ensures var t := ParseTail(h.tail); t.hash == "" ==> t.subpath == ""
  {
    hide Quals, Split, TrimSlashes, Index, SplitFragment;
    var tail := h.tail;
    if tail != "" && tail[0] == '#' {
      assert tail == "" + ['#'] + tail[1..];
      IndexAfter("", '#', tail[1..]);
      RegularFragment(tail[1..]);
    } else if tail != "" {
      var body := tail[1..];
      var i := Index(body, '#');
      if i >= 0 {
        assert tail == (['?'] + body[..i]) + ['#'] + body[i + 1..];
        IndexAfter(['?'] + body[..i], '#', body[i + 1..]);
        RegularFragment(body[i + 1..]);
      }
    }
  }

  lemma RegularFragment(f: string)
    requires !("/" <= f)
    ensures SplitFragment(f).0 == "" ==> TrimSlashes(SplitFragment(f).1) == ""
  {
    assert f != "" ==> f[..1] == [f[0]];
  }

  /** On regular purls the canonical form is a fixed point and keeps every field. */
  lemma CanonicalIdempotent(purl: string)
    requires ShapeOf(purl).Some? && Regular(ShapeOf(purl).value)
    ensures Canonical(purl).Some? && Parse(Canonical(purl).value) == Parse(purl)
    ensures Canonical(Canonical(purl).value) == Canonical(purl)
  {
    hide ShapeOf, ParsePath, ParseTail, Print, Lower;
    var h := ShapeOf(purl).value;
    ShapeParts(purl);
    RegularPath(h.path);
    RegularTail(h);
    var path := ParsePath(h.path);
    LowerPlain(path.name);
    RoundTrip(purl);
  }

  // ---- exactly when the canonical form is a fixed point ----

  /** The printed path, parsed with case folding and printed again. */
  function Reprinted(typ: string, p: Path): (s: string) {
    var q := ParsePath(PathText(p));
    PathText(Path(Fold(typ, q.namespace), Fold(typ, q.name), q.version))
  }

  predicate PathFolded(typ: string, p: Path) {
    Fold(typ, p.namespace) == p.namespace && Fold(typ, p.name) == p.name
  }

  /** What an empty namespace lets the second reading take for a namespace starts with the name, or is
      folded already together with the name that then remains of the version. */
  predicate StablePath(typ: string, p: Path) {
    || p.namespace != "" || ('/' !in p.name && '/' !in p.version)
    || ('/' in p.name && p.name[0] != '/')
    || ('/' !in p.name && '/' in p.version && StableVersion(typ, p.version))
  }

  predicate StableVersion(typ: string, version: string)
    requires '/' in version
  {
    var i := Index(version, '/');
    var rest := version[i + 1..];
    Fold(typ, version[..i]) == version[..i] && Fold(typ, StripVersion(rest)) == StripVersion(rest) && ExtractVersion(rest) != Some("")
  }

  lemma FoldConcat(typ: string, a: string, b: string)
    ensures Fold(typ, a + b) == a + b <==> Fold(typ, a) == a && Fold(typ, b) == b
  {
    hide Lower, Folded;
    LowerConcat(a, b);
    Halves(Lower(a), a, Lower(b), b);
  }

  lemma Halves(x: string, a: string, y: string, b: string)
    requires |x| == |a|
    ensures x + y == a + b <==> x == a && y == b
  {
    assert (x + y)[..|x|] == x && (a + b)[..|a|] == a;
    assert (x + y)[|x|..] == y && (a + b)[|a|..] == b;
  }

  lemma FoldAt()
    ensures forall typ :: Fold(typ, "@") == "@"
  {
    assert Lower("@") == "@";
  }

  /** A name with a version is printed back by its pieces exactly when folding changes nothing and the
      version is not an empty one after "@". */
  lemma NameReprints(typ: string, namespace: string, rest: string)
    ensures var q := SplitName(namespace, rest);
            Fold(typ, q.name) + VersionText(q.version) == rest <==>
              Fold(typ, StripVersion(rest)) == StripVersion(rest) && ExtractVersion(rest) != Some("")
  {
    hide Folded, Lower;
    var q, at := SplitName(namespace, rest), Index(rest, '@');
    if at >= 0 {
      assert rest == rest[..at] + ("@" + rest[at + 1..]);
      if q.version != "" {
        Cancel(Fold(typ, q.name), q.name, "@" + q.version);
      } else {
        assert |Fold(typ, q.name) + VersionText(q.version)| < |rest|;
      }
    } else {
      assert Fold(typ, q.name) + VersionText(q.version) == Fold(typ, q.name);
    }
  }

  lemma Cancel(a: string, b: string, c: string)
    requires |a| == |b|
    ensures a + c == b + c <==> a == b
  {
    assert (a + c)[..|a|] == a && (b + c)[..|b|] == b;
  }

  lemma CutParses(front: string, rest: string)
    requires '/' !in front
    ensures ParsePath("/" + (front + ['/'] + rest)) == SplitName(front, rest)
  {
    hide SplitName, Index;
    var text := front + ['/'] + rest;
    assert ("/" + text)[1..] == text;
    IndexAfter(front, '/', rest);
  }

  lemma PrintedNamespace(namespace: string, name: string, version: string)
    requires namespace != ""
    ensures PathText(Path(namespace, name, version)) == "/" + namespace + "/" + (name + VersionText(version))
  {
  }

  /** A text that begins with a name, cut at a slash inside. */
  lemma CutText(typ: string, p: Path, front: string, rest: string)
    requires p.namespace == "" && p.name + VersionText(p.version) == front + ['/'] + rest && '/' !in front
    ensures Reprinted(typ, p) == PathText(p) <==>
            front != "" && Fold(typ, front) == front && Fold(typ, StripVersion(rest)) == StripVersion(rest) && ExtractVersion(rest) != Some("")
  {
    hide SplitName, Folded, Lower, ParsePath, PathText, StripVersion, ExtractVersion, Fold;
    var q := SplitName(front, rest);
    assert PathText(p) == "/" + (front + ['/'] + rest) by { NamelessText(p); }
    CutParses(front, rest);
    SplitNamespace(front, rest);
    NameReprints(typ, front, rest);
    var printed := Fold(typ, q.name) + VersionText(q.version);
    if front == "" {
      NameSize("", rest);
      NamelessText(Path("", Fold(typ, q.name), q.version));
      assert Fold(typ, "") == "";
      assert |Reprinted(typ, p)| < |PathText(p)|;
    } else {
      PrintedNamespace(Fold(typ, front), Fold(typ, q.name), q.version);
      assert PathText(p) == "/" + front + "/" + rest;
      SameHalves(Fold(typ, front), front, printed, rest);
    }
  }

  lemma NamelessText(p: Path)
    requires p.namespace == ""
    ensures PathText(p) == "/" + (p.name + VersionText(p.version))
  {
  }

  lemma SplitNamespace(namespace: string, rest: string)
    ensures SplitName(namespace, rest).namespace == namespace
  {
  }

  lemma NameSize(namespace: string, rest: string)
    ensures |SplitName(namespace, rest).name| + |VersionText(SplitName(namespace, rest).version)| <= |rest|
  {
  }

  lemma SameHalves(a: string, b: string, c: string, d: string)
    requires |a| == |b|
    ensures "/" + a + "/" + c == "/" + b + "/" + d <==> a == b && c == d
  {
    var x, y := "/" + a + "/" + c, "/" + b + "/" + d;
    assert x[1..|a| + 1] == a && y[1..|b| + 1] == b;
    assert x[|a| + 2..] == c && y[|b| + 2..] == d;
  }

  /** Reading the printed path again and printing it gives the same path exactly when it is stable. */
  lemma PathStableIff(typ: string, p: Path)
    requires PathOk(p) && PathFolded(typ, p)
    ensures Reprinted(typ, p) == PathText(p) <==> StablePath(typ, p)
  {
    hide Folded, Lower, SplitName;
    PathRoundTrip(p);
    if p.namespace == "" && '/' in p.name {
      SlashInName(typ, p);
    } else if p.namespace == "" && '/' in p.version {
      SlashInVersion(typ, p);
    }
  }

  lemma SlashInName(typ: string, p: Path)
    requires PathOk(p) && PathFolded(typ, p) && p.namespace == "" && '/' in p.name
    ensures Reprinted(typ, p) == PathText(p) <==> p.name[0] != '/'
  {
    hide Folded, Lower, PathText, Reprinted, Index, Fold, StripVersion, ExtractVersion, VersionText;
    var i := Index(p.name, '/');
    var front, tail := p.name[..i], p.name[i + 1..];
    var rest := tail + VersionText(p.version);
    assert p.name == front + (['/'] + tail);
    assert front + ['/'] + rest == front + (['/'] + tail) + VersionText(p.version);
    CutText(typ, p, front, rest);
    FoldConcat(typ, front, ['/'] + tail);
    FoldConcat(typ, ['/'], tail);
    TailLacksAt(p.name, i + 1);
    VersionKept(tail, p.version);
  }

  lemma TailLacksAt(s: string, i: nat)
    requires '@' !in s && i <= |s|
    ensures '@' !in s[i..]
  {
  }

  lemma VersionKept(name: string, version: string)
    requires '@' !in name
    ensures StripVersion(name + VersionText(version)) == name && ExtractVersion(name + VersionText(version)) != Some("")
  {
    if version == "" {
      assert name + VersionText(version) == name;
    } else {
      assert name + VersionText(version) == name + ['@'] + version;
      IndexAfter(name, '@', version);
    }
  }

  lemma SlashInVersion(typ: string, p: Path)
    requires PathOk(p) && PathFolded(typ, p) && p.namespace == "" && '/' !in p.name && '/' in p.version
    ensures Reprinted(typ, p) == PathText(p) <==> StableVersion(typ, p.version)
  {
    hide Folded, Lower, PathText, Reprinted;
    var i := Index(p.version, '/');
    var head, rest := p.version[..i], p.version[i + 1..];
    var front := p.name + "@" + head;
    assert p.version == head + ['/'] + rest;
    assert p.name + VersionText(p.version) == front + ['/'] + rest;
    CutText(typ, p, front, rest);
    FoldAt();
    FoldConcat(typ, p.name + "@", head);
    FoldConcat(typ, p.name, "@");
  }

  lemma SameMiddle(pre: string, a: string, b: string, post: string)
    ensures pre + a + post == pre + b + post <==> a == b
  {
    if pre + a + post == pre + b + post {
      assert |a| == |b|;
      assert (pre + a + post)[|pre|..|pre| + |a|] == a && (pre + b + post)[|pre|..|pre| + |b|] == b;
    }
  }

  /** Over all purls whose fragment does not begin with a slash: the canonical form is a fixed point
      exactly when its path is stable. */
  lemma CanonicalFixedIff(purl: string)
    requires Parse(purl).Some? && (Parse(purl).value.hash != "" || Parse(purl).value.subpath == "")
    ensures Canonical(Canonical(purl).value) == Canonical(purl) <==> StablePath(Parse(purl).value.typ, PathOf(Parse(purl).value))
  {
    hide Parse, StablePath, Print, PathText, TailText, ShapeOf, ParsePath, ParseTail, Lower, Folded, PathOk, TailOk, FieldsOk;
    var p := Parse(purl).value;
    ParsedFieldsOk(purl);
    PrintShape(p);
    ReparsedFields(p);
    PathStableIff(p.typ, PathOf(p));
    SameMiddle("pkg:" + p.typ, Reprinted(p.typ, PathOf(p)), PathText(PathOf(p)), TailText(TailOf(p)));
  }

  lemma ReparsedFields(p: Parsed)
    requires FieldsOk(p) && (p.hash != "" || p.subpath == "")
    requires ShapeOf(Print(p)) == Some(Shape(p.typ, PathText(PathOf(p)), TailText(TailOf(p))))
    ensures Parse(Print(p)).Some? && Print(Parse(Print(p)).value) == "pkg:" + p.typ + Reprinted(p.typ, PathOf(p)) + TailText(TailOf(p))
    ensures Print(p) == "pkg:" + p.typ + PathText(PathOf(p)) + TailText(TailOf(p))
    ensures PathOk(PathOf(p)) && PathFolded(p.typ, PathOf(p))
  {
    hide PathText, TailText, ShapeOf, ParsePath, ParseTail, Lower, Folded, PathOk, TailOk;
    TailRoundTrip(TailOf(p));
  }

  /** A fragment that begins with a slash can move through two more readings: "pkg:x#/a" is printed as
      "pkg:x//a", and that as "pkg:x/a". */
  lemma NotIdempotent()
    ensures Canonical("pkg:x#/a") == Some("pkg:x//a") && Canonical("pkg:x//a") == Some("pkg:x/a")
  {
    hide Canonical;
    FirstReading();
    SecondReading();
  }

  lemma FirstReading()
    ensures Canonical("pkg:x#/a") == Some("pkg:x//a")
  {
    hide Parse, Print, ParsePath, ParseTail;
    SlashFragment();
    PlainReading("", "#/a", Path("", "", ""), Tail(map[], "", "/a"));
    PlainPrint(Parsed("x", "", "", "", map[], "/a", ""));
    assert "pkg:x" + "" + "#/a" == "pkg:x#/a";
    assert "pkg:x/" + "" + "/a" == "pkg:x//a";
  }

  lemma SecondReading()
    ensures Canonical("pkg:x//a") == Some("pkg:x/a")
  {
    hide Parse, Print, ParsePath, ParseTail;
    SlashPath();
    PlainReading("//a", "", Path("", "a", ""), Tail(map[], "", ""));
    PlainPrint(Parsed("x", "", "a", "", map[], "", ""));
    assert "pkg:x" + "//a" + "" == "pkg:x//a";
    assert "pkg:x/" + "a" + "" == "pkg:x/a";
  }

  lemma PlainReading(path: string, tail: string, p: Path, t: Tail)
    requires ShapeOk(Shape("x", path, tail)) && ParsePath(path) == p && ParseTail(tail) == t
    ensures Parse("pkg:x" + path + tail) == Some(Parsed("x", p.namespace, p.name, p.version, t.quals, t.subpath, t.hash))
  {
    hide ParsePath, ParseTail, ShapeOf;
    ShapeBuild(Shape("x", path, tail));
    assert "pkg:" + "x" == "pkg:x";
    assert Lower("x") == "x" && !Folded("x");
  }

  lemma PlainPrint(p: Parsed)
    requires p.typ == "x" && p.namespace == "" && p.version == "" && p.quals == map[] && p.hash == ""
    ensures Print(p) == "pkg:x/" + p.name + p.subpath
  {
    hide QualText;
    NoQualText(p.quals);
  }

  lemma SlashFragment()
    ensures ParseTail("#/a") == Tail(map[], "", "/a") && ParsePath("") == Path("", "", "")
  {
    assert "#/a"[1..] == "/a";
    FragmentRoundTrip("", "/a");
    assert "" + "/a" == "/a";
  }

  lemma SlashPath()
    ensures ParsePath("//a") == Path("", "a", "") && ParseTail("") == Tail(map[], "", "")
  {
    assert "//a"[1..] == "" + ['/'] + "a";
    IndexAfter("", '/', "a");
    SplitNameText("", "a", "");
    assert "a" + VersionText("") == "a";
  }

  // ---- qualifier order ----

  /** No key is given two values. */
  ghost predicate Consistent(parts: seq<string>) {
    forall p, q :: p in parts && q in parts && IsPair(p) && IsPair(q) && KeyOf(p) == KeyOf(q) ==> ValueOf(p) == ValueOf(q)
  }

  lemma {:induction false} QualsHas(parts: seq<string>)
    requires Consistent(parts)
    ensures forall p :: p in parts && IsPair(p) ==> KeyOf(p) in Quals(parts) && Quals(parts)[KeyOf(p)] == ValueOf(p)
    ensures forall k :: k in Quals(parts) ==> exists p :: p in parts && IsPair(p) && KeyOf(p) == k
  {
    hide IsPair, KeyOf, ValueOf;
    if parts != [] {
      var n := |parts| - 1;
      var init, last := parts[..n], parts[n];
      assert forall p :: p in init ==> p in parts;
      QualsHas(init);
      assert parts == init + [last];
      forall p | p in parts && IsPair(p) ensures KeyOf(p) in Quals(parts) && Quals(parts)[KeyOf(p)] == ValueOf(p) {
        assert p in init || p == last;
      }
      forall k | k in Quals(parts) ensures exists p :: p in parts && IsPair(p) && KeyOf(p) == k {
        if k in Quals(init) {
          var p :| p in init && IsPair(p) && KeyOf(p) == k;
          assert p in parts;
        } else {
          assert last in parts;
        }
      }
    }
  }

  lemma QualsSame(a: seq<string>, b: seq<string>)
    requires Consistent(a) && forall p :: p in a <==> p in b
    ensures Quals(a) == Quals(b)
  {
    hide IsPair, KeyOf, ValueOf, Quals;
    assert Consistent(b);
    QualsHas(a);
    QualsHas(b);
    forall k ensures k in Quals(a) <==> k in Quals(b) {
      if k in Quals(a) { var p :| p in a && IsPair(p) && KeyOf(p) == k; assert p in b; }
      if k in Quals(b) { var p :| p in b && IsPair(p) && KeyOf(p) == k; assert p in a; }
    }
    forall k | k in Quals(a) ensures Quals(a)[k] == Quals(b)[k] {
      var p :| p in a && IsPair(p) && KeyOf(p) == k;
      assert p in b;
    }
  }

  lemma ShapeWithTail(base: string, tail: string)
    requires Plain(base) && tail != "" && tail[0] == '?'
    ensures ShapeOf(base + tail) ==
            if "pkg:" <= base && CutHead(base[4..]).0 != "" && '\n' !in tail
            then Some(Shape(CutHead(base[4..]).0, CutHead(base[4..]).1, tail)) else None
  {
    hide CutHead, TailStart;
    var purl := base + tail;
    assert purl[|base|] == '?';
    assert "pkg:" <= purl ==> purl[..4] == "pkg:" && |base| >= 4;
    assert |base| >= 4 ==> base[..4] == purl[..4];
    if "pkg:" <= base {
      assert base[..4] == "pkg:" && purl[..4] == base[..4];
      assert purl[4..] == base[4..] + tail;
      assert forall c :: c in base[4..] ==> c in base;
      TailStartAt(base[4..], tail);
      assert purl[4..][..|base| - 4] == base[4..] && purl[4..][|base| - 4..] == tail;
    }
  }

  ghost predicate CleanParts(parts: seq<string>) {
    forall p :: p in parts ==> '&' !in p && '#' !in p && '\n' !in p
  }

  lemma QualTailParse(parts: seq<string>, fragment: string)
    requires |parts| >= 1 && CleanParts(parts) && (fragment != "" ==> fragment[0] == '#') && '\n' !in fragment
    ensures '\n' !in "?" + Join(parts, "&") + fragment
    ensures ParseTail("?" + Join(parts, "&") + fragment) ==
            if fragment == "" then Tail(Quals(parts), "", "") else WithFragment(Quals(parts), fragment[1..])
  {
    hide Join, Split, Quals, WithFragment, ParseTail, CleanParts;
    CleanText(parts, '#');
    CleanText(parts, '\n');
    assert Split(Join(parts, "&"), '&') == parts by { assert CleanParts(parts); CleanSplit(parts); }
    TextTail(Join(parts, "&"), fragment);
  }

  lemma CleanSplit(parts: seq<string>)
    requires |parts| >= 1 && CleanParts(parts)
    ensures Split(Join(parts, "&"), '&') == parts
  {
    hide Join, Split;
    SplitJoin(parts, '&');
  }

  lemma CleanText(parts: seq<string>, c: char)
    requires CleanParts(parts) && (c == '#' || c == '\n')
    ensures c !in Join(parts, "&")
  {
    hide Join;
    JoinHas(parts, "&", c);
  }

  /** Qualifiers in another order, or repeated, give the same fields and the same canonical form. */
  lemma QualifierOrder(base: string, a: seq<string>, b: seq<string>, fragment: string)
    requires Plain(base) && CleanParts(a) && Consistent(a) && a != [] && (forall p :: p in a <==> p in b)
    requires (fragment != "" ==> fragment[0] == '#') && '\n' !in fragment
    ensures var x, y := base + ("?" + Join(a, "&") + fragment), base + ("?" + Join(b, "&") + fragment);
            Parse(x) == Parse(y) && Canonical(x) == Canonical(y)
  {
    hide Join, Quals, Split, CutHead, ShapeOf, ParseTail, ParsePath, Print, IsPair, KeyOf, ValueOf, WithFragment, Lower, Consistent;
    assert a[0] in b;
    QualTailParse(a, fragment);
    QualTailParse(b, fragment);
    QualsSame(a, b);
    ShapeWithTail(base, "?" + Join(a, "&") + fragment);
    ShapeWithTail(base, "?" + Join(b, "&") + fragment);
  }

  // ---- the code ----

  method ParseQualifiers(body: string) returns (m: map<string, string>)
    ensures m == Quals(Split(body, '&'))
  {
    m := map[];
    var parts := Split(body, '&');
    for i := 0 to |parts|
      invariant m == Quals(parts[..i])
    {
      var kv := parts[i];
      assert parts[..i + 1][..i] == parts[..i];
      if kv == "" { continue; }
      var eq := Index(kv, '=');
      if eq < 0 { continue; }
      m := m[Lower(kv[..eq]) := kv[eq + 1..]];
    }
    assert parts[..|parts|] == parts;
  }

  /** Fills the fields one after the other. */
  method ParsePurl(purl: string) returns (r: Option<Parsed>)
    ensures r == Parse(purl)
  {
    hide Quals, Split, CutHead, TailStart, SplitFragment, TrimSlashes, Index;
    var m := ShapeOf(purl);
    if m.None? { return None; }
    var typ := Lower(m.value.typ);
    var path, tail := m.value.path, m.value.tail;
    var namespace, name, version := "", "", "";
    if |path| > 0 {
      var body := path[1..];
      var slash := Index(body, '/');
      if slash >= 0 {
        namespace, name := body[..slash], body[slash + 1..];
      } else {
        name := body;
      }
    }
    var v := ExtractVersion(name);
    if v.Some? { version := v.value; }
    name := StripVersion(name);
    assert Path(namespace, name, version) == ParsePath(path) by { NoVersion(); }
    var t := ReadTail(tail);
    if Folded(typ) {
      namespace, name := Lower(namespace), Lower(name);
    }
    r := Some(Parsed(typ, namespace, name, version, t.quals, t.subpath, t.hash));
  }

  lemma NoVersion()
    ensures StripVersion("") == "" && ExtractVersion("").None?
  {
    assert Index("", '@') < 0;
  }

  method ReadFragment(f: string) returns (hash: string, subpath: string)
    ensures (hash, subpath) == SplitFragment(f)
  {
    hash, subpath := "", "";
    var slash := Index(f, '/');
    if slash >= 0 { hash, subpath := f[..slash], f[slash..]; } else { hash := f; }
  }

  method ReadTail(tail: string) returns (t: Tail)
    ensures t == ParseTail(tail)
  {
    hide Quals, Split, TrimSlashes, Index, SplitFragment;
    var quals: map<string, string> := map[];
    var hash, subpath := "", "";
    assert TrimSlashes("") == "" && SplitFragment("") == ("", "");
    if |tail| > 0 {
      if tail[0] == '?' {
        var body, hashSub := tail[1..], "";
        var i := Index(body, '#');
        if i >= 0 { hashSub, body := body[i + 1..], body[..i]; }
        quals := ParseQualifiers(body);
        if hashSub != "" { hash, subpath := ReadFragment(hashSub); }
      } else if tail[0] == '#' {
        hash, subpath := ReadFragment(tail[1..]);
      }
    }
    subpath := TrimSlashes(subpath);
    t := Tail(quals, hash, subpath);
  }

  /** The keys in whatever order the map yields them, then sorted. */
  method KeysSorted(m: map<string, string>) returns (keys: seq<string>)
    ensures keys == SortedKeys(m.Keys)
  {
    hide AnyOrder, SortStrings, SortedKeys;
    keys := [];
    var todo := m.Keys;
    while todo != {}
      invariant todo <= m.Keys && Distinct(keys)
      invariant forall k :: k in keys <==> k in m.Keys - todo
      decreases todo
    {
      var k :| k in todo;
      todo := todo - {k};
      assert k !in keys;
      keys := keys + [k];
    }
    SortSorted(keys);
    SortDistinct(keys);
    forall k ensures k in SortStrings(keys) <==> k in m.Keys { SortHas(keys, k); }
    keys := SortStrings(keys);
    SortedKeysLaw(m.Keys);
    SortedUnique(keys, SortedKeys(m.Keys));
  }

  method QualifierText(m: map<string, string>) returns (s: string)
    ensures s == QualText(m)
  {
    hide SortedKeys, Join;
    if |m| == 0 { return ""; }
    SortedKeysLaw(m.Keys);
    var keys := KeysSorted(m);
    var qs: seq<string> := [];
    for i := 0 to |keys|
      invariant forall k :: k in keys ==> k in m
      invariant |qs| == i && forall j :: 0 <= j < i ==> qs[j] == PairText(keys[j], m[keys[j]])
    {
      qs := qs + [keys[i] + "=" + m[keys[i]]];
    }
    assert qs == Pairs(m, keys);
    return "?" + Join(qs, "&");
  }

  method AppendPath(b0: string, p: Path) returns (b: string)
    ensures b == b0 + PathText(p)
  {
    b := b0;
    if p.namespace != "" { b := b + ("/" + p.namespace); }
    b := b + ("/" + p.name);
    if p.version != "" { b := b + ("@" + p.version); }
  }

  /** Appends the pieces to a builder. */
  method CanonicalPurl(purl: string) returns (r: Option<string>)
    ensures r == Canonical(purl)
  {
    hide Parse, QualText, PathText;
    var parsed := ParsePurl(purl);
    if parsed.None? { return None; }
    var p := parsed.value;
    var b := "pkg:" + p.typ;
    b := AppendPath(b, PathOf(p));
    var quals := QualifierText(p.quals);
    b := b + quals;
    if p.hash != "" { b := b + ("#" + p.hash); }
    if p.subpath != "" { b := b + p.subpath; }
    assert b == "pkg:" + p.typ + PathText(PathOf(p)) + (quals + HashText(p.hash) + p.subpath);
    return Some(b);
  }
}
