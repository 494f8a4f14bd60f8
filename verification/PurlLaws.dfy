/** How a package URL is read, said on its spelling. */
module PurlLaws {
  import opened Seqs
  import opened Strings
  import opened Purl

  /** A package URL by its parts as they are written. A subpath is empty or begins with its slash. */
  datatype Spelling = Spelling(
    typ: string, namespace: Option<string>, name: string, version: Option<string>,
    pairs: seq<(string, string)>, fragment: Option<(string, string)>)

  function After(mark: string, part: Option<string>): (s: string) {
    if part.None? then "" else mark + part.value
  }

  function PairTexts(pairs: seq<(string, string)>): (r: seq<string>) {
    seq(|pairs|, i requires 0 <= i < |pairs| => pairs[i].0 + "=" + pairs[i].1)
  }

  function PathSpelled(t: Spelling): (s: string) {
    After("/", t.namespace) + "/" + t.name + After("@", t.version)
  }

  function FragmentSpelled(t: Spelling): (s: string) {
    if t.fragment.None? then "" else "#" + (t.fragment.value.0 + t.fragment.value.1)
  }

  function TailSpelled(t: Spelling): (s: string) {
    (if t.pairs == [] then "" else "?" + Join(PairTexts(t.pairs), "&")) + FragmentSpelled(t)
  }

  function Spelled(t: Spelling): (s: string) {
    "pkg:" + t.typ + PathSpelled(t) + TailSpelled(t)
  }

  predicate Free(s: string, marks: string) {
    forall c :: c in s ==> c !in marks
  }

  /** No part holds a mark that would end it. */
  ghost predicate WellSpelled(t: Spelling) {
    && t.typ != "" && Free(t.typ, "/?#")
    && (t.namespace.Some? ==> Free(t.namespace.value, "/?#"))
    && Free(t.name, "@?#") && (t.version.Some? ==> Free(t.version.value, "?#"))
    && (t.namespace.None? ==> Free(t.name, "/") && (t.version.Some? ==> Free(t.version.value, "/")))
    && (forall i :: 0 <= i < |t.pairs| ==> Free(t.pairs[i].0, "=&#\n") && Free(t.pairs[i].1, "&#\n"))
    && (t.fragment.Some? ==>
          && Free(t.fragment.value.0, "/\n") && Free(t.fragment.value.1, "\n")
          && (t.fragment.value.1 != "" ==> t.fragment.value.1[0] == '/'))
  }

  // ---- the path ----

  lemma NameRead(namespace: string, name: string, version: Option<string>)
    requires '@' !in name
    ensures SplitName(namespace, name + After("@", version)) == Path(namespace, name, if version.Some? then version.value else "")
  {
    if version.Some? {
      assert name + After("@", version) == name + ['@'] + version.value;
      IndexAfter(name, '@', version.value);
    } else {
      assert name + After("@", version) == name;
    }
  }

  lemma PathRead(t: Spelling)
    requires WellSpelled(t)
    ensures ParsePath(PathSpelled(t)) ==
            Path(if t.namespace.Some? then t.namespace.value else "", t.name, if t.version.Some? then t.version.value else "")
  {
    hide SplitName, Index;
    var text := t.name + After("@", t.version);
    assert '@' in "@?#" && '/' in "/" && '/' in "/?#";
    NameRead(if t.namespace.Some? then t.namespace.value else "", t.name, t.version);
    if t.namespace.Some? {
      assert PathSpelled(t)[1..] == t.namespace.value + ['/'] + text;
      IndexAfter(t.namespace.value, '/', text);
    } else {
      assert PathSpelled(t) == "/" + text;
      assert PathSpelled(t)[1..] == text && '/' !in text;
    }
  }

  lemma PathClean(t: Spelling)
    requires WellSpelled(t)
    ensures Plain(PathSpelled(t)) && PathSpelled(t) != "" && PathSpelled(t)[0] == '/'
  {
    assert '?' in "/?#" && '#' in "/?#" && '?' in "@?#" && '#' in "@?#" && '?' in "?#" && '#' in "?#";
  }

  // ---- the qualifiers ----

  lemma PairRead(k: string, v: string)
    requires Free(k, "=&#\n") && Free(v, "&#\n")
    ensures var kv := k + "=" + v; IsPair(kv) && KeyOf(kv) == Lower(k) && ValueOf(kv) == v && '&' !in kv && '#' !in kv && '\n' !in kv
  {
    assert '=' in "=&#\n" && '&' in "=&#\n" && '#' in "=&#\n" && '\n' in "=&#\n" && '&' in "&#\n" && '#' in "&#\n" && '\n' in "&#\n";
    assert k + "=" + v == k + ['='] + v;
    IndexAfter(k, '=', v);
  }

  /** The last pair with the key, up to letter case. */
  ghost predicate LastWith(pairs: seq<(string, string)>, key: string, i: int) {
    0 <= i < |pairs| && Lower(pairs[i].0) == key && forall j :: i < j < |pairs| ==> Lower(pairs[j].0) != key
  }

  /** Each key has the value of its last pair, and nothing else is read. */
  ghost predicate ReadFrom(m: map<string, string>, pairs: seq<(string, string)>) {
    && (forall i :: 0 <= i < |pairs| ==> Lower(pairs[i].0) in m)
    && (forall k :: k in m ==> exists i :: LastWith(pairs, k, i) && m[k] == pairs[i].1)
  }

  ghost predicate CleanPairs(pairs: seq<(string, string)>) {
    forall i :: 0 <= i < |pairs| ==> Free(pairs[i].0, "=&#\n") && Free(pairs[i].1, "&#\n")
  }

  lemma {:induction false} QualsRead(pairs: seq<(string, string)>)
    requires CleanPairs(pairs)
    ensures ReadFrom(Quals(PairTexts(pairs)), pairs)
    decreases |pairs|
  {
    hide PairTexts, Quals, ReadFrom, Lower, Free;
    if pairs == [] {
      NothingRead();
    } else {
      var n := |pairs| - 1;
      QualsRead(pairs[..n]);
      QualsSnoc(pairs[..n], pairs[n]);
      assert pairs == pairs[..n] + [pairs[n]];
      ReadSnoc(Quals(PairTexts(pairs[..n])), pairs[..n], pairs[n]);
    }
  }

  lemma NothingRead()
    ensures ReadFrom(Quals(PairTexts([])), [])
  {
  }

  lemma QualsSnoc(pairs: seq<(string, string)>, last: (string, string))
    requires Free(last.0, "=&#\n") && Free(last.1, "&#\n")
    ensures Quals(PairTexts(pairs + [last])) == Quals(PairTexts(pairs))[Lower(last.0) := last.1]
  {
    hide IsPair, KeyOf, ValueOf, Lower, Free;
    PairRead(last.0, last.1);
    var texts := PairTexts(pairs + [last]);
    assert texts[..|texts| - 1] == PairTexts(pairs);
  }

  lemma ReadSnoc(m: map<string, string>, pairs: seq<(string, string)>, last: (string, string))
    requires ReadFrom(m, pairs)
    ensures ReadFrom(m[Lower(last.0) := last.1], pairs + [last])
  {
    hide Lower;
    var longer, m' := pairs + [last], m[Lower(last.0) := last.1];
    forall k | k in m' ensures exists i :: LastWith(longer, k, i) && m'[k] == longer[i].1 {
      if k == Lower(last.0) {
        assert LastWith(longer, k, |pairs|);
      } else {
        var i :| LastWith(pairs, k, i) && m[k] == pairs[i].1;
        assert LastWith(longer, k, i);
      }
    }
  }

  lemma PairsClean(pairs: seq<(string, string)>)
    requires CleanPairs(pairs)
    ensures CleanParts(PairTexts(pairs))
  {
    forall p | p in PairTexts(pairs) ensures '&' !in p && '#' !in p && '\n' !in p {
      var i :| 0 <= i < |pairs| && p == PairTexts(pairs)[i];
      PairRead(pairs[i].0, pairs[i].1);
    }
  }

  // ---- the tail ----

  /** `r` is `s` without the slashes at its end. */
  ghost predicate Trimmed(s: string, r: string) {
    && r <= s && (forall i :: |r| <= i < |s| ==> s[i] == '/') && (r != "" ==> r[|r| - 1] != '/')
  }

  lemma {:induction false} TrimSlashesLaw(s: string)
    ensures Trimmed(s, TrimSlashes(s))
  {
    if s != "" && s[|s| - 1] == '/' { TrimSlashesLaw(s[..|s| - 1]); }
  }

  lemma FragmentRead(quals: map<string, string>, hash: string, path: string)
    requires '/' !in hash && (path != "" ==> path[0] == '/')
    ensures WithFragment(quals, hash + path) == Tail(quals, hash, TrimSlashes(path))
  {
    hide TrimSlashes, SplitFragment;
    FragmentRoundTrip(hash, path);
  }

  lemma FragmentClean(t: Spelling)
    requires WellSpelled(t)
    ensures '\n' !in FragmentSpelled(t) && (FragmentSpelled(t) != "" ==> FragmentSpelled(t)[0] == '#')
    ensures t.fragment.Some? ==> FragmentSpelled(t)[1..] == t.fragment.value.0 + t.fragment.value.1 && '/' !in t.fragment.value.0
  {
    assert '/' in "/\n" && '\n' in "/\n" && '\n' in "\n";
  }

  lemma TailRead(t: Spelling)
    requires WellSpelled(t)
    ensures var r := ParseTail(TailSpelled(t));
            && ReadFrom(r.quals, t.pairs)
            && r.hash == (if t.fragment.Some? then t.fragment.value.0 else "")
            && r.subpath == (if t.fragment.Some? then TrimSlashes(t.fragment.value.1) else "")
    ensures '\n' !in TailSpelled(t) && (TailSpelled(t) != "" ==> TailSpelled(t)[0] == '?' || TailSpelled(t)[0] == '#')
  {
    hide Quals, WithFragment, TrimSlashes, Join, Index, Split, Lower, Free;
    FragmentClean(t);
    assert CleanPairs(t.pairs);
    QualsRead(t.pairs);
    var f := FragmentSpelled(t);
    if t.fragment.Some? {
      FragmentRead(map[], t.fragment.value.0, t.fragment.value.1);
      FragmentRead(Quals(PairTexts(t.pairs)), t.fragment.value.0, t.fragment.value.1);
    }
    if t.pairs == [] {
      assert TailSpelled(t) == f;
      assert PairTexts(t.pairs) == [];
      NoPairs();
    } else {
      PairsClean(t.pairs);
      QualTailParse(PairTexts(t.pairs), f);
    }
  }

  lemma NoPairs()
    ensures Quals([]) == map[]
  {
  }

  // ---- the whole ----

  /** Every well-spelled package URL is read as its parts: the type in lower case, namespace and name too for
      the five types that demand it, each qualifier with its last value, and the subpath without slashes at
      its end. */
  lemma ReadAsSpelled(t: Spelling)
    requires WellSpelled(t)
    ensures var r := Parse(Spelled(t)); var typ := Lower(t.typ);
            var fold := typ == "pypi" || typ == "npm" || typ == "gem" || typ == "composer" || typ == "golang";
            var namespace := if t.namespace.Some? then t.namespace.value else "";
            && r.Some? && r.value.typ == typ
            && r.value.namespace == (if fold then Lower(namespace) else namespace)
            && r.value.name == (if fold then Lower(t.name) else t.name)
            && r.value.version == (if t.version.Some? then t.version.value else "")
            && ReadFrom(r.value.quals, t.pairs)
            && r.value.hash == (if t.fragment.Some? then t.fragment.value.0 else "")
            && (if t.fragment.Some? then Trimmed(t.fragment.value.1, r.value.subpath) else r.value.subpath == "")
  {
    hide ShapeOf, ParsePath, ParseTail, PathSpelled, TailSpelled, TrimSlashes, Lower, ReadFrom, Trimmed;
    PathRead(t);
    PathClean(t);
    TailRead(t);
    TypeClean(t);
    if t.fragment.Some? { TrimSlashesLaw(t.fragment.value.1); }
    ShapeBuild(Shape(t.typ, PathSpelled(t), TailSpelled(t)));
  }

  lemma TypeClean(t: Spelling)
    requires WellSpelled(t)
    ensures t.typ != "" && Plain(t.typ) && '/' !in t.typ
  {
    assert '/' in "/?#" && '?' in "/?#" && '#' in "/?#";
  }

  /** A text is read at all exactly when it is "pkg:", a type without "/", "?" and "#", a path that is empty or
      begins with "/", and a tail on one line that is empty or begins with "?" or "#". */
  lemma ReadIff(purl: string)
    ensures Parse(purl).Some? <==> exists h :: ShapeOk(h) && purl == "pkg:" + h.typ + h.path + h.tail
  {
    hide ShapeOf, ShapeOk, ParsePath, ParseTail;
    if Parse(purl).Some? { ShapeParts(purl); }
    if h :| ShapeOk(h) && purl == "pkg:" + h.typ + h.path + h.tail { ShapeBuild(h); }
  }
}
