/** The string operations the modelled code takes from Go's `strings` and `sort` packages.
    Case folding is ASCII only. */
module Strings {
  import opened Seqs

  // ---- case and white space ----

  function LowerChar(c: char): (r: char)
    ensures !('A' <= r <= 'Z')
    ensures !('A' <= c <= 'Z') ==> r == c
    ensures 'A' <= c <= 'Z' ==> 'a' <= r <= 'z'
  {
    if 'A' <= c <= 'Z' then ((c as int) + 32) as char else c
  }

  function UpperChar(c: char): (r: char) {
    if 'a' <= c <= 'z' then ((c as int) - 32) as char else c
  }

  function Lower(s: string): (r: string)
    ensures |r| == |s|
    ensures forall i :: 0 <= i < |s| ==> r[i] == LowerChar(s[i])
  {
    Map(LowerChar, s)
  }

  function Upper(s: string): (r: string)
    ensures |r| == |s|
  {
    Map(UpperChar, s)
  }

  predicate EqualFold(a: string, b: string) {
    Lower(a) == Lower(b)
  }

  lemma LowerIdempotent(s: string)
    ensures Lower(Lower(s)) == Lower(s)
  {
    assert forall i :: 0 <= i < |s| ==> Lower(Lower(s))[i] == Lower(s)[i];
  }

  lemma LowerConcat(a: string, b: string)
    ensures Lower(a + b) == Lower(a) + Lower(b)
  {
  }

  /** Folding never introduces or removes a character that is not a letter. */
  lemma LowerKeepsNonLetter(s: string, c: char)
    requires !('A' <= c <= 'Z') && !('a' <= c <= 'z')
    ensures c in Lower(s) <==> c in s
  {
    forall i | 0 <= i < |s| ensures Lower(s)[i] == c <==> s[i] == c { }
    if c in s {
      var i :| 0 <= i < |s| && s[i] == c;
      assert Lower(s)[i] == c;
    }
    if c in Lower(s) {
      var i :| 0 <= i < |s| && Lower(s)[i] == c;
      assert s[i] == c;
    }
  }

  predicate IsSpace(c: char) {
    c == ' ' || c == '\t' || c == '\n' || c == '\r' || c == 11 as char || c == 12 as char
  }

  function TrimLeft(s: string): (r: string)
    ensures r == [] || !IsSpace(r[0])
    ensures (s == [] || !IsSpace(s[0])) ==> r == s
    ensures |r| <= |s|
  {
    if s == [] then [] else if IsSpace(s[0]) then TrimLeft(s[1..]) else s
  }

  function TrimRight(s: string): (r: string)
    ensures r == [] || !IsSpace(r[|r| - 1])
    ensures (s == [] || !IsSpace(s[|s| - 1])) ==> r == s
  {
    if s == [] then [] else if IsSpace(s[|s| - 1]) then TrimRight(s[..|s| - 1]) else s
  }

  function TrimSpace(s: string): (r: string)
    ensures s == [] || (!IsSpace(s[0]) && !IsSpace(s[|s| - 1])) ==> r == s
  {
    TrimRight(TrimLeft(s))
  }

  ghost predicate AllSpace(s: string) {
    forall c :: c in s ==> IsSpace(c)
  }

  lemma {:induction false} TrimLeftLaw(s: string) returns (pre: string)
    ensures s == pre + TrimLeft(s) && AllSpace(pre)
  {
    pre := "";
    if s != [] && IsSpace(s[0]) {
      var rest := TrimLeftLaw(s[1..]);
      pre := [s[0]] + rest;
    }
  }

  lemma {:induction false} TrimRightLaw(s: string) returns (post: string)
    ensures s == TrimRight(s) + post && AllSpace(post)
    ensures TrimRight(s) != [] ==> TrimRight(s)[0] == s[0]
  {
    post := "";
    if s != [] && IsSpace(s[|s| - 1]) {
      var rest := TrimRightLaw(s[..|s| - 1]);
      post := rest + [s[|s| - 1]];
    }
  }

  /** Trimming takes white space off both ends, all of it and nothing else. */
  lemma TrimSpaceLaw(s: string) returns (pre: string, post: string)
    ensures var r := TrimSpace(s);
            && s == pre + r + post && AllSpace(pre) && AllSpace(post)
            && (r != [] ==> !IsSpace(r[0]) && !IsSpace(r[|r| - 1]))
  {
    hide AllSpace;
    pre := TrimLeftLaw(s);
    post := TrimRightLaw(TrimLeft(s));
  }

  // ---- searching, cutting, splitting, joining ----

  /** The first position of `c`, or -1. */
  function Index(s: string, c: char): (i: int)
    ensures -1 <= i < |s|
    ensures i >= 0 ==> s[i] == c && c !in s[..i]
    ensures i < 0 <==> c !in s
  {
    if s == [] then -1
    else if s[0] == c then 0
    else
      var j := Index(s[1..], c);
      assert s == [s[0]] + s[1..];
      if j < 0 then -1 else
        assert s[..j + 1] == [s[0]] + s[1..][..j];
        j + 1
  }

  /** A character found after a part that lacks it. */
  lemma IndexAfter(a: string, c: char, b: string)
    requires c !in a
    ensures Index(a + [c] + b, c) == |a|
    ensures (a + [c] + b)[..|a|] == a && (a + [c] + b)[|a| + 1..] == b
  {
    var s := a + [c] + b;
    var i := Index(s, c);
    assert s[|a|] == c;
    assert forall k :: 0 <= k < |a| ==> s[k] == a[k] && a[k] in a;
    assert forall k :: |a| < k <= |s| ==> s[..k][|a|] == c;
  }

  /** The pieces of `s` between occurrences of `c`; never empty. */
  function Split(s: string, c: char): (r: seq<string>)
    ensures |r| >= 1
    ensures forall p :: p in r ==> c !in p
    decreases |s|
  {
    var i := Index(s, c);
    if i < 0 then [s] else [s[..i]] + Split(s[i + 1..], c)
  }

  function Join(parts: seq<string>, sep: string): (r: string)
  {
    if |parts| == 0 then ""
    else if |parts| == 1 then parts[0]
    else parts[0] + sep + Join(parts[1..], sep)
  }

  lemma SplitStep(a: string, c: char, rest: string)
    requires c !in a
    ensures Split(a + [c] + rest, c) == [a] + Split(rest, c)
  {
    IndexAfter(a, c, rest);
  }

  /** Splitting undoes joining when no piece holds the separator. */
  lemma {:induction false} SplitJoin(parts: seq<string>, c: char)
    requires |parts| >= 1
    requires forall p :: p in parts ==> c !in p
    ensures Split(Join(parts, [c]), c) == parts
    decreases |parts|
  {
    assert c !in parts[0];
    if |parts| == 1 {
      assert Index(parts[0], c) < 0;
    } else {
      var rest := Join(parts[1..], [c]);
      assert forall p :: p in parts[1..] ==> p in parts;
      SplitJoin(parts[1..], c);
      SplitStep(parts[0], c, rest);
      assert parts == [parts[0]] + parts[1..];
    }
  }

  lemma {:induction false} JoinHas(parts: seq<string>, sep: string, c: char)
    ensures c in Join(parts, sep) ==> c in sep || exists p :: p in parts && c in p
    decreases |parts|
  {
    if |parts| >= 2 {
      JoinHas(parts[1..], sep, c);
      if c in Join(parts, sep) && c !in sep && c !in parts[0] {
        var p :| p in parts[1..] && c in p;
        assert p in parts;
      }
    } else if |parts| == 1 {
      assert parts[0] in parts;
    }
  }

  // ---- byte-lexicographic order and sort.Strings ----

  predicate LexLe(a: string, b: string) {
    a == [] || (b != [] && (a[0] < b[0] || (a[0] == b[0] && LexLe(a[1..], b[1..]))))
  }

  lemma {:induction false} LexTotal(a: string, b: string)
    ensures LexLe(a, b) || LexLe(b, a)
  {
    if a != [] && b != [] && a[0] == b[0] { LexTotal(a[1..], b[1..]); }
  }

  lemma {:induction false} LexAntisym(a: string, b: string)
    requires LexLe(a, b) && LexLe(b, a)
    ensures a == b
  {
    if a != [] && b != [] {
      LexAntisym(a[1..], b[1..]);
      assert a == [a[0]] + a[1..] && b == [b[0]] + b[1..];
    }
  }

  lemma {:induction false} LexTrans(a: string, b: string, c: string)
    requires LexLe(a, b) && LexLe(b, c)
    ensures LexLe(a, c)
  {
    if a != [] && a[0] == b[0] && b[0] == c[0] { LexTrans(a[1..], b[1..], c[1..]); }
  }

  ghost predicate LexSorted(s: seq<string>) {
    forall i, j :: 0 <= i < j < |s| ==> LexLe(s[i], s[j])
  }

  function Insert(x: string, s: seq<string>): (r: seq<string>)
    ensures multiset(r) == multiset(s) + multiset{x}
  {
    if s == [] then [x]
    else if LexLe(x, s[0]) then [x] + s
    else
      assert s == [s[0]] + s[1..];
      [s[0]] + Insert(x, s[1..])
  }

  /** `sort.Strings`. */
  function SortStrings(s: seq<string>): (r: seq<string>)
    ensures multiset(r) == multiset(s)
  {
    if s == [] then []
    else
      assert s == [s[0]] + s[1..];
      Insert(s[0], SortStrings(s[1..]))
  }

  lemma {:induction false} InsertSorted(x: string, s: seq<string>)
    requires LexSorted(s)
    ensures LexSorted(Insert(x, s))
  {
    if s == [] {
    } else if LexLe(x, s[0]) {
      forall j | 0 <= j < |s| ensures LexLe(x, s[j]) {
        if j > 0 { LexTrans(x, s[0], s[j]); }
      }
    } else {
      LexTotal(x, s[0]);
      InsertSorted(x, s[1..]);
      var t := Insert(x, s[1..]);
      forall j | 0 <= j < |t| ensures LexLe(s[0], t[j]) {
        assert t[j] in multiset(t);
        if t[j] != x {
          assert t[j] in multiset(s[1..]);
          var i :| 0 <= i < |s[1..]| && s[1..][i] == t[j];
          assert s[i + 1] == t[j];
        }
      }
    }
  }

  lemma {:induction false} SortSorted(s: seq<string>)
    ensures LexSorted(SortStrings(s))
  {
    if s != [] {
      SortSorted(s[1..]);
      InsertSorted(s[0], SortStrings(s[1..]));
    }
  }

  lemma SortHas(s: seq<string>, x: string)
    ensures x in SortStrings(s) <==> x in s
  {
    PermHas(SortStrings(s), s, x);
  }

  /** A sorted sequence without repetitions is fixed by its set of elements. */
  lemma {:induction false} SortedUnique(a: seq<string>, b: seq<string>)
    requires LexSorted(a) && LexSorted(b) && Distinct(a) && Distinct(b)
    requires forall x :: x in a <==> x in b
    ensures a == b
    decreases |a|
  {
    assert b != [] ==> b[0] in b;
    if a != [] {
      assert a[0] in b;
      assert b[0] in a;
      var i :| 0 <= i < |b| && b[i] == a[0];
      var j :| 0 <= j < |a| && a[j] == b[0];
      if i > 0 && j > 0 { LexAntisym(a[0], b[0]); }
      assert a[0] == b[0];
      forall x ensures x in a[1..] <==> x in b[1..] {
        TailHas(a, x);
        TailHas(b, x);
      }
      SortedUnique(a[1..], b[1..]);
      assert a == [a[0]] + a[1..] && b == [b[0]] + b[1..];
    }
  }

  lemma TailHas(a: seq<string>, x: string)
    requires a != [] && Distinct(a)
    ensures x in a[1..] <==> x in a && x != a[0]
  {
    assert a == [a[0]] + a[1..];
    if x in a[1..] {
      var i :| 0 <= i < |a[1..]| && a[1..][i] == x;
      assert a[i + 1] == x;
    }
  }

  lemma SortDistinct(s: seq<string>)
    requires Distinct(s)
    ensures Distinct(SortStrings(s))
  {
    var r := SortStrings(s);
    forall i, j | 0 <= i < j < |r| ensures r[i] != r[j] {
      if r[i] == r[j] {
        TwiceCounts(r, i, j);
        DistinctCounts(s, r[i]);
      }
    }
  }

  lemma {:induction false} DistinctCounts(s: seq<string>, x: string)
    requires Distinct(s)
    ensures multiset(s)[x] <= 1
  {
    if s != [] {
      var m := |s| - 1;
      assert s == s[..m] + [s[m]];
      DistinctCounts(s[..m], x);
      if x == s[m] { assert x !in s[..m]; }
    }
  }

  lemma TwiceCounts(r: seq<string>, i: nat, j: nat)
    requires i < j < |r| && r[i] == r[j]
    ensures multiset(r)[r[i]] >= 2
  {
    assert r == r[..j] + [r[j]] + r[j + 1..];
    assert r[..j][i] == r[i];
    assert r[i] in multiset(r[..j]);
  }
}
