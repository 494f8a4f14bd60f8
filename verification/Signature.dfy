/** HTTP message signatures (internal/auth/sign.go): the signer, the header parsers, the signature
    base of section 2.5 of RFC 9421 and the verifier. Hashing, base64 and the rare escapes of quoted
    strings are parameters. */
module Signature {
  import opened Seqs
  import opened Strings

  type Bytes = seq<bv8>

  /** `escape` is what quoting does to a character that is not printable ASCII. */
  datatype Crypto = Crypto(
    sha256: Bytes -> Bytes, hmac: (Bytes, string) -> Bytes,
    encode: Bytes -> string, decode: string -> Option<Bytes>, escape: char -> string)

  /** Decoding undoes encoding. */
  ghost predicate DecodesItself(c: Crypto) {
    forall b: Bytes :: c.decode(c.encode(b)) == Some(b)
  }

  type Headers = map<string, string>

  datatype Message = Message(httpMethod: string, path: string, headers: Headers)

  function Get(h: Headers, name: string): (v: string) {
    if name in h then h[name] else ""
  }

  // ---- decimal numbers ----

  const MIN_INT64: int := -0x8000_0000_0000_0000
  const MAX_INT64: int := 0x7fff_ffff_ffff_ffff

  predicate Int64(n: int) {
    MIN_INT64 <= n <= MAX_INT64
  }

  predicate IsDigit(c: char) {
    '0' <= c <= '9'
  }

  function Digits(n: nat): (s: string)
    ensures s != "" && forall i :: 0 <= i < |s| ==> IsDigit(s[i])
  {
    var last := [(n % 10 + '0' as int) as char];
    if n < 10 then last else Digits(n / 10) + last
  }

  function FormatInt(n: int): (s: string) {
    if n < 0 then "-" + Digits(-n) else Digits(n)
  }

  function ParseDigits(s: string): (n: Option<nat>) {
    if s == "" then None
    else
      var m := |s| - 1;
      if !IsDigit(s[m]) then None
      else
        var d: nat := s[m] as int - '0' as int;
        if m == 0 then Some(d)
        else
          var front := ParseDigits(s[..m]);
          if front.None? then None else Some(10 * front.value + d)
  }

  /** An optional sign, at least one digit, nothing else, and a value that fits 64 bits. */
  function ParseInt(s: string): (n: Option<int>) {
    var signed := s != "" && (s[0] == '-' || s[0] == '+');
    var d := ParseDigits(if signed then s[1..] else s);
    if d.None? then None
    else
      var v := if signed && s[0] == '-' then -(d.value as int) else d.value as int;
      if Int64(v) then Some(v) else None
  }

  lemma {:induction false} DigitsParse(n: nat)
    ensures ParseDigits(Digits(n)) == Some(n)
  {
    var s, m := Digits(n), |Digits(n)| - 1;
    if n >= 10 {
      DigitsParse(n / 10);
      assert s[..m] == Digits(n / 10);
    }
  }

  lemma IntRoundTrip(n: int)
    requires Int64(n)
    ensures ParseInt(FormatInt(n)) == Some(n)
  {
    if n < 0 {
      DigitsParse(-n);
      assert FormatInt(n)[1..] == Digits(-n);
    } else {
      DigitsParse(n);
      assert IsDigit(Digits(n)[0]);
    }
  }

  // ---- small text functions ----

  function TrimQuotes(s: string): (r: string) {
    TrimQuotesRight(TrimQuotesLeft(s))
  }

  function TrimQuotesLeft(s: string): (r: string) {
    if s != "" && s[0] == '"' then TrimQuotesLeft(s[1..]) else s
  }

  function TrimQuotesRight(s: string): (r: string) {
    if s != "" && s[|s| - 1] == '"' then TrimQuotesRight(s[..|s| - 1]) else s
  }

  function WordEnd(s: string): (n: nat)
    ensures n <= |s| && (s != "" && !IsSpace(s[0]) ==> n > 0)
  {
    if s == "" || IsSpace(s[0]) then 0 else 1 + WordEnd(s[1..])
  }

  /** The words between white space. */
  function Fields(s: string): (r: seq<string>)
    decreases |s|
  {
    if s == "" then []
    else if IsSpace(s[0]) then Fields(s[1..])
    else [s[..WordEnd(s)]] + Fields(s[WordEnd(s)..])
  }

  predicate IsWord(w: string) {
    w != "" && forall i :: 0 <= i < |w| ==> !IsSpace(w[i])
  }

  lemma {:induction false} WordEndAt(w: string, rest: string)
    requires (forall i :: 0 <= i < |w| ==> !IsSpace(w[i])) && (rest != "" ==> IsSpace(rest[0]))
    ensures WordEnd(w + rest) == |w|
  {
    if w == "" {
      assert w + rest == rest;
    } else {
      assert (w + rest)[1..] == w[1..] + rest;
      WordEndAt(w[1..], rest);
    }
  }

  lemma {:induction false} FieldsJoin(words: seq<string>)
    requires forall w :: w in words ==> IsWord(w)
    ensures Fields(Join(words, " ")) == words
  {
    if |words| == 1 {
      var w := words[0];
      assert IsWord(w);
      assert w + "" == w;
      WordEndAt(w, "");
      assert w[..|w|] == w && w[|w|..] == "";
    } else if |words| > 1 {
      var w, rest := words[0], Join(words[1..], " ");
      var text := Join(words, " ");
      assert IsWord(w);
      assert text == w + (" " + rest);
      WordEndAt(w, " " + rest);
      assert text[..|w|] == w && text[|w|..] == " " + rest && (" " + rest)[1..] == rest;
      assert forall x :: x in words[1..] ==> x in words;
      FieldsJoin(words[1..]);
      assert words == [w] + words[1..];
    }
  }

  function Printable(c: char): (b: bool) {
    ' ' <= c <= '~'
  }

  function QuoteChar(escape: char -> string, c: char): (s: string) {
    if c == '"' || c == '\\' then ['\\', c] else if Printable(c) then [c] else escape(c)
  }

  function QuoteInner(escape: char -> string, s: string): (r: string) {
    if s == "" then "" else QuoteInner(escape, s[..|s| - 1]) + QuoteChar(escape, s[|s| - 1])
  }

  /** A Go quoted string. */
  function Quote(escape: char -> string, s: string): (r: string) {
    "\"" + QuoteInner(escape, s) + "\""
  }

  // ---- signing ----

  function ContentDigest(c: Crypto, body: Bytes): (s: string)
    ensures s != ""
  {
    "sha-256=:" + c.encode(c.sha256(body)) + ":"
  }

  function Covered(hasBody: bool, hasType: bool): (r: seq<string>) {
    ["@method", "@path"] + (if hasBody then ["content-digest"] else []) + (if hasType then ["content-type"] else [])
  }

  function QuoteName(name: string): (s: string) {
    "\"" + name + "\""
  }

  function ParamsText(c: Crypto, covered: seq<string>, created: int, keyId: string): (s: string) {
    "(" + Join(Map(QuoteName, covered), " ") + ")" + ParamList(created, Quote(c.escape, keyId))
  }

  const ALG_TEXT := "alg=\"hmac-sha256\""

  function CreatedText(created: int): (s: string) {
    "created=" + FormatInt(created)
  }

  function KeyText(quoted: string): (s: string) {
    "keyid=" + quoted
  }

  function ParamList(created: int, quoted: string): (s: string) {
    ";" + CreatedText(created) + ";" + KeyText(quoted) + ";" + ALG_TEXT
  }

  /** The value of a covered component, if the verifier supports and finds it. */
  function ComponentLine(c: Crypto, m: Message, body: Bytes, name: string): (r: Option<string>) {
    if name == "@method" then Some("\"@method\": " + m.httpMethod)
    else if name == "@path" then Some("\"@path\": " + m.path)
    else if name == "content-digest" then
      var digest := Get(m.headers, "Content-Digest");
      if digest == "" || (|body| > 0 && digest != ContentDigest(c, body)) then None else Some("\"content-digest\": " + digest)
    else if name == "content-type" then
      var ct := Get(m.headers, "Content-Type");
      if ct == "" then None else Some("\"content-type\": " + ct)
    else None
  }

  function ComponentLines(c: Crypto, m: Message, body: Bytes, names: seq<string>): (r: Option<seq<string>>) {
    if names == [] then Some([])
    else
      var front := ComponentLines(c, m, body, names[..|names| - 1]);
      var line := ComponentLine(c, m, body, names[|names| - 1]);
      if front.None? || line.None? then None else Some(front.value + [line.value])
  }

  /** The signature base: one line per covered component, then the parameters as sent. */
  function Base(c: Crypto, m: Message, body: Bytes, names: seq<string>, params: string): (r: Option<string>) {
    var lines := ComponentLines(c, m, body, names);
    if lines.None? then None else Some(Join(lines.value + ["\"@signature-params\": " + params], "\n"))
  }

  /** The headers that the signer leaves behind. */
  function WithDigest(c: Crypto, m: Message, body: Bytes): (r: Message) {
    if |body| > 0 then m.(headers := m.headers["Content-Digest" := ContentDigest(c, body)]) else m
  }

  function SignedParams(c: Crypto, m: Message, keyId: string, body: Bytes, created: int): (s: string) {
    ParamsText(c, Covered(|body| > 0, Get(m.headers, "Content-Type") != ""), created, keyId)
  }

  /** What is signed, written out. */
  function SignedLines(c: Crypto, m: Message, body: Bytes): (r: seq<string>) {
    ["\"@method\": " + m.httpMethod, "\"@path\": " + m.path]
    + (if |body| > 0 then ["\"content-digest\": " + ContentDigest(c, body)] else [])
    + (if Get(m.headers, "Content-Type") != "" then ["\"content-type\": " + Get(m.headers, "Content-Type")] else [])
  }

  function SignedBase(c: Crypto, m: Message, keyId: string, body: Bytes, created: int): (s: string) {
    Join(SignedLines(c, m, body) + ["\"@signature-params\": " + SignedParams(c, m, keyId, body, created)], "\n")
  }

  function Signed(c: Crypto, m: Message, keyId: string, secret: Bytes, body: Bytes, created: int): (r: Message) {
    var sig := c.encode(c.hmac(secret, SignedBase(c, m, keyId, body, created)));
    var d := WithDigest(c, m, body);
    d.(headers := d.headers["Signature-Input" := "sig1=" + SignedParams(c, m, keyId, body, created)]
                           ["Signature" := "sig1=:" + sig + ":"])
  }

  // ---- parsing ----

  datatype Params = Params(names: seq<string>, created: int, expires: int, keyId: string, alg: string, raw: string)

  function Cut(s: string, c: char): (r: Option<(string, string)>) {
    var i := Index(s, c);
    if i < 0 then None else Some((s[..i], s[i + 1..]))
  }

  function ComponentNames(words: seq<string>): (r: seq<string>) {
    if words == [] then []
    else
      var name := TrimQuotes(words[|words| - 1]);
      ComponentNames(words[..|words| - 1]) + if name == "" then [] else [name]
  }

  /** One `key=value` of the parameters; unknown keys and bare words are skipped. */
  function ApplyParam(p: Params, text: string): (r: Option<Params>) {
    var part := TrimSpace(text);
    var kv := Cut(part, '=');
    if part == "" || kv.None? then Some(p)
    else
      var (k, v) := (kv.value.0, TrimQuotes(kv.value.1));
      if k == "created" then
        if ParseInt(v).None? then None else Some(p.(created := ParseInt(v).value))
      else if k == "expires" then
        if ParseInt(v).None? then None else Some(p.(expires := ParseInt(v).value))
      else if k == "keyid" then Some(p.(keyId := v))
      else if k == "alg" then Some(p.(alg := v))
      else Some(p)
  }

  function ApplyParams(p: Params, parts: seq<string>): (r: Option<Params>) {
    if parts == [] then Some(p)
    else
      var front := ApplyParams(p, parts[..|parts| - 1]);
      if front.None? then None else ApplyParam(front.value, parts[|parts| - 1])
  }

  function WithoutSemicolon(s: string): (r: string) {
    if s != "" && s[0] == ';' then s[1..] else s
  }

  /** The part of a header after its label. */
  function AfterLabel(header: string): (r: Option<string>) {
    var kv := Cut(TrimSpace(header), '=');
    if kv.None? then None else Some(TrimSpace(kv.value.1))
  }

  function ParseInput(header: string): (r: Option<Params>) {
    var found := AfterLabel(header);
    if found.None? || found.value == "" || found.value[0] != '(' || Index(found.value, ')') < 0 then None
    else
      var rest := found.value;
      var end := Index(rest, ')');
      var start := Params(ComponentNames(Fields(rest[1..end])), 0, 0, "", "hmac-sha256", rest);
      var p := ApplyParams(start, Split(WithoutSemicolon(rest[end + 1..]), ';'));
      if p.None? || p.value.keyId == "" || p.value.created == 0 || p.value.names == [] then None else p
  }

  /** A lone colon passes both tests of the code, whose slice expression then panics. */
  datatype Value = Value(text: string) | BadValue | SlicePanic

  function ParseValue(header: string): (r: Value) {
    var found := AfterLabel(header);
    if found.None? then BadValue
    else
      var rest := found.value;
      if rest == "" || rest[0] != ':' || rest[|rest| - 1] != ':' then BadValue
      else if |rest| < 2 then SlicePanic
      else Value.Value(rest[1..|rest| - 1])
  }

  // ---- verifying ----

  datatype Config = Config(keys: map<string, Bytes>, maxSkew: int)

  datatype Verdict =
    | Accepted | MissingHeaders | BadInput | UnsupportedAlg | UnknownKey | SkewTooLarge | Expired
    | BadBase | BadSignature | NotBase64 | Mismatch | Panics

  const SECOND: int := 1_000_000_000

  /** `now` in nanoseconds since the epoch. */
  function Verify(c: Crypto, cfg: Config, m: Message, body: Bytes, now: int): (r: Verdict) {
    var input, sig := Get(m.headers, "Signature-Input"), Get(m.headers, "Signature");
    if input == "" || sig == "" then MissingHeaders
    else
      var p := ParseInput(input);
      if p.None? then BadInput
      else if !EqualFold(p.value.alg, "hmac-sha256") then UnsupportedAlg
      else if p.value.keyId !in cfg.keys then UnknownKey
      else
        var skew := now - p.value.created * SECOND;
        if skew > cfg.maxSkew || skew < -cfg.maxSkew then SkewTooLarge
        else if p.value.expires > 0 && now > p.value.expires * SECOND then Expired
        else
          var base := Base(c, m, body, p.value.names, p.value.raw);
          if base.None? then BadBase
          else
            match ParseValue(sig)
            case BadValue => BadSignature
            case SlicePanic => Panics
            case Value(text) =>
              var want := c.decode(text);
              if want.None? then NotBase64
              else if want.value != c.hmac(cfg.keys[p.value.keyId], base.value) then Mismatch
              else Accepted
  }

  // ---- reading back what was printed ----

  lemma NoTrim(s: string)
    requires s != "" && !IsSpace(s[0]) && !IsSpace(s[|s| - 1])
    ensures TrimSpace(s) == s
  {
  }

  lemma CutAt(a: string, c: char, b: string)
    requires c !in a
    ensures Cut(a + [c] + b, c) == Some((a, b))
  {
    IndexAfter(a, c, b);
  }

  /** A quoted name without quotes at its ends loses exactly its quotes. */
  lemma TrimQuoted(name: string)
    requires name != "" && name[0] != '"' && name[|name| - 1] != '"'
    ensures TrimQuotes(QuoteName(name)) == name
  {
    var q := QuoteName(name);
    assert q[1..] == name + "\"";
    assert TrimQuotesLeft(q) == TrimQuotesLeft(name + "\"") == name + "\"";
    assert (name + "\"")[..|name|] == name;
    assert TrimQuotesRight(name + "\"") == TrimQuotesRight(name) == name;
  }

  /** Names the signer covers. */
  predicate IsName(n: string) {
    n == "@method" || n == "@path" || n == "content-digest" || n == "content-type"
  }

  lemma {:induction false} NamesBack(names: seq<string>)
    requires forall n :: n in names ==> IsName(n)
    ensures ComponentNames(Map(QuoteName, names)) == names
  {
    hide TrimQuotes, QuoteName;
    if names != [] {
      var m := |names| - 1;
      var words := Map(QuoteName, names);
      assert words[..m] == Map(QuoteName, names[..m]);
      assert forall n :: n in names[..m] ==> n in names;
      NamesBack(names[..m]);
      assert IsName(names[m]);
      TrimQuoted(names[m]);
      assert names == names[..m] + [names[m]];
    }
  }

  lemma NameWord(n: string)
    requires IsName(n)
    ensures IsWord(QuoteName(n)) && ')' !in QuoteName(n)
  {
  }

  lemma ListBack(names: seq<string>)
    requires forall n :: n in names ==> IsName(n)
    ensures var list := Join(Map(QuoteName, names), " "); ')' !in list && ComponentNames(Fields(list)) == names
  {
    hide ComponentNames, Fields, Join, IsWord;
    var words := Map(QuoteName, names);
    forall w | w in words ensures IsWord(w) && ')' !in w {
      var i :| 0 <= i < |words| && words[i] == w;
      assert names[i] in names;
      NameWord(names[i]);
    }
    JoinHas(words, " ", ')');
    FieldsJoin(words);
    NamesBack(names);
  }

  /** A parameter printed as key and value is cut back into them. */
  lemma ParamText(key: string, value: string)
    requires key != "" && '=' !in key && !IsSpace(key[0]) && value != "" && !IsSpace(value[|value| - 1])
    ensures var text := key + "=" + value; TrimSpace(text) == text && text != "" && Cut(text, '=') == Some((key, value))
  {
    hide TrimSpace, Cut, IsSpace;
    NoTrim(key + "=" + value);
    assert key + "=" + value == key + ['='] + value;
    CutAt(key, '=', value);
  }

  ghost predicate PrintableKey(k: string) {
    k != "" && forall i :: 0 <= i < |k| ==> Printable(k[i])
  }

  lemma NumberText(n: int)
    ensures var s := FormatInt(n);
            && s != "" && s[0] != '"' && s[|s| - 1] != '"' && !IsSpace(s[|s| - 1]) && ';' !in s && TrimQuotes(s) == s
  {
    var s := FormatInt(n);
    assert forall i :: 0 <= i < |s| ==> IsDigit(s[i]) || s[i] == '-';
  }

  lemma {:induction false} QuotedHas(escape: char -> string, k: string, c: char)
    requires (forall i :: 0 <= i < |k| ==> Printable(k[i])) && c != '\\'
    ensures c in QuoteInner(escape, k) <==> c in k
  {
    if k != "" {
      var m := |k| - 1;
      QuotedHas(escape, k[..m], c);
      assert k == k[..m] + [k[m]];
    }
  }

  lemma SpaceFacts()
    ensures !IsSpace('c') && !IsSpace('e') && !IsSpace('k') && !IsSpace('a') && !IsSpace('"') && !IsSpace('(') && !IsSpace('s')
    ensures !IsSpace(':') && !IsSpace(';')
  {
  }

  /** A parameter of a Signature-Input header, by its meaning. */
  datatype Param = CreatedIs(n: int) | ExpiresIs(n: int) | KeyIs(quoted: string) | AlgIs(quoted: string)

  function ParamName(p: Param): (s: string) {
    match p
    case CreatedIs(_) => "created"
    case ExpiresIs(_) => "expires"
    case KeyIs(_) => "keyid"
    case AlgIs(_) => "alg"
  }

  function ParamValue(p: Param): (s: string) {
    match p
    case CreatedIs(n) => FormatInt(n)
    case ExpiresIs(n) => FormatInt(n)
    case KeyIs(q) => q
    case AlgIs(q) => q
  }

  function Written(p: Param): (s: string) {
    ParamName(p) + "=" + ParamValue(p)
  }

  predicate ParamOk(p: Param) {
    match p
    case CreatedIs(n) => Int64(n)
    case ExpiresIs(n) => Int64(n)
    case KeyIs(q) => q != "" && !IsSpace(q[|q| - 1]) && ';' !in q
    case AlgIs(q) => q != "" && !IsSpace(q[|q| - 1]) && ';' !in q
  }

  function SetParam(sp: Params, p: Param): (r: Params) {
    match p
    case CreatedIs(n) => sp.(created := n)
    case ExpiresIs(n) => sp.(expires := n)
    case KeyIs(q) => sp.(keyId := TrimQuotes(q))
    case AlgIs(q) => sp.(alg := TrimQuotes(q))
  }

  /** Later parameters win. */
  function SetParams(sp: Params, ps: seq<Param>): (r: Params) {
    if ps == [] then sp else SetParam(SetParams(sp, ps[..|ps| - 1]), ps[|ps| - 1])
  }

  lemma ParamTextOk(p: Param)
    requires ParamOk(p)
    ensures var name, value := ParamName(p), ParamValue(p);
            && name != "" && '=' !in name && ';' !in name && !IsSpace(name[0])
            && value != "" && !IsSpace(value[|value| - 1]) && ';' !in value
  {
    hide FormatInt, TrimQuotes;
    SpaceFacts();
    if p.CreatedIs? || p.ExpiresIs? { NumberText(p.n); }
  }

  lemma NamesDistinct()
    ensures "created" != "expires" && "created" != "keyid" && "created" != "alg"
    ensures "expires" != "keyid" && "expires" != "alg" && "keyid" != "alg"
  {
    assert "created"[0] != "expires"[0];
    assert |"created"| == 7 && |"expires"| == 7 && |"keyid"| == 5 && |"alg"| == 3;
  }

  lemma ParamReads(sp: Params, p: Param)
    requires ParamOk(p)
    ensures ApplyParam(sp, Written(p)) == Some(SetParam(sp, p)) && ';' !in Written(p)
  {
    hide TrimQuotes, FormatInt, ParseInt, TrimSpace, Cut, IsSpace;
    ParamTextOk(p);
    ParamText(ParamName(p), ParamValue(p));
    NamesDistinct();
    if p.CreatedIs? || p.ExpiresIs? {
      NumberText(p.n);
      IntRoundTrip(p.n);
    }
  }

  lemma {:induction false} ParamsRead(sp: Params, ps: seq<Param>)
    requires forall p :: p in ps ==> ParamOk(p)
    ensures ApplyParams(sp, Map(Written, ps)) == Some(SetParams(sp, ps))
  {
    hide ApplyParam, SetParam, ParamOk, Written;
    if ps != [] {
      var m := |ps| - 1;
      var texts := Map(Written, ps);
      assert texts[..m] == Map(Written, ps[..m]);
      assert forall p :: p in ps[..m] ==> p in ps;
      ParamsRead(sp, ps[..m]);
      ParamReads(SetParams(sp, ps[..m]), ps[m]);
    }
  }

  function ParamTail(ps: seq<Param>): (s: string) {
    ";" + Join(Map(Written, ps), ";")
  }

  lemma ParamTailSplits(ps: seq<Param>)
    requires ps != [] && forall p :: p in ps ==> ParamOk(p)
    ensures Split(WithoutSemicolon(ParamTail(ps)), ';') == Map(Written, ps)
  {
    hide Split, Join, Written, ParamOk;
    var texts := Map(Written, ps);
    forall t | t in texts ensures ';' !in t {
      var i :| 0 <= i < |texts| && texts[i] == t;
      assert ps[i] in ps;
      ParamReads(Params([], 0, 0, "", "", ""), ps[i]);
    }
    assert ParamTail(ps)[1..] == Join(texts, ";");
    SplitJoin(texts, ';');
  }

  lemma {:induction false} ParamTailEnds(ps: seq<Param>)
    requires ps != [] && forall p :: p in ps ==> ParamOk(p)
    ensures var s := Join(Map(Written, ps), ";"); s != "" && !IsSpace(s[|s| - 1])
  {
    hide ParamName, ParamValue, ParamOk, IsSpace;
    var texts := Map(Written, ps);
    assert ps[0] in ps;
    ParamTextOk(ps[0]);
    if |ps| > 1 {
      assert texts[1..] == Map(Written, ps[1..]);
      assert forall p :: p in ps[1..] ==> p in ps;
      ParamTailEnds(ps[1..]);
    }
  }

  /** Label, component list and parameters of a printed header are found again. */
  lemma InputText(list: string, tail: string)
    requires ')' !in list && tail != "" && !IsSpace(tail[|tail| - 1])
    ensures var rest := "(" + list + ")" + tail;
            && AfterLabel("sig1=" + rest) == Some(rest)
            && Index(rest, ')') == |list| + 1 && rest[1..|list| + 1] == list && rest[|list| + 2..] == tail
  {
    hide TrimSpace, Cut, IsSpace, Index;
    var rest := "(" + list + ")" + tail;
    SpaceFacts();
    NoTrim("sig1=" + rest);
    assert "sig1=" + rest == "sig1" + ['='] + rest;
    CutAt("sig1", '=', rest);
    NoTrim(rest);
    assert rest == ("(" + list) + [')'] + tail;
    IndexAfter("(" + list, ')', tail);
  }

  /** Every header written with supported components and any well-formed parameters, in any order and
      with repetitions, is read back: components in order, the last value of each parameter. */
  lemma InputReads(names: seq<string>, ps: seq<Param>)
    requires (forall n :: n in names ==> IsName(n)) && ps != [] && forall p :: p in ps ==> ParamOk(p)
    ensures var rest := "(" + Join(Map(QuoteName, names), " ") + ")" + ParamTail(ps);
            var q := SetParams(Params(names, 0, 0, "", "hmac-sha256", rest), ps);
            ParseInput("sig1=" + rest) == if q.keyId == "" || q.created == 0 || q.names == [] then None else Some(q)
  {
    hide Join, Map, ParamTail, TrimQuotes, AfterLabel, Index, ComponentNames, Fields, Split, WithoutSemicolon, ApplyParams, IsSpace,
      SetParams, ParamOk, IsName, Written;
    var list, tail := Join(Map(QuoteName, names), " "), ParamTail(ps);
    var rest := "(" + list + ")" + tail;
    ListBack(names);
    assert tail != "" && !IsSpace(tail[|tail| - 1]) by { TailEnds(ps); }
    InputText(list, tail);
    ParamTailSplits(ps);
    ParamsRead(Params(names, 0, 0, "", "hmac-sha256", rest), ps);
  }

  lemma TailEnds(ps: seq<Param>)
    requires ps != [] && forall p :: p in ps ==> ParamOk(p)
    ensures ParamTail(ps) != "" && !IsSpace(ParamTail(ps)[|ParamTail(ps)| - 1])
  {
    hide Join, Map, ParamOk, IsSpace, Written;
    ParamTailEnds(ps);
  }

  /** The parsed header of a signature whose quoted key is `quoted`. */
  lemma ParseSigned(names: seq<string>, created: int, quoted: string)
    requires (forall n :: n in names ==> IsName(n)) && names != [] && Int64(created) && created != 0
    requires quoted != "" && !IsSpace(quoted[|quoted| - 1]) && ';' !in quoted
    ensures var rest := "(" + Join(Map(QuoteName, names), " ") + ")" + ParamList(created, quoted);
            ParseInput("sig1=" + rest) ==
            if TrimQuotes(quoted) == "" then None
            else Some(Params(names, created, 0, TrimQuotes(quoted), "hmac-sha256", rest))
  {
    hide ParseInput, Join, Map, ParamList, ParamTail, TrimQuotes, IsSpace, IsName;
    var ps := [CreatedIs(created), KeyIs(quoted), AlgIs("\"hmac-sha256\"")];
    SpaceFacts();
    InputReads(names, ps);
    SignerParams(created, quoted);
    ThreeSet(Params(names, 0, 0, "", "hmac-sha256", "(" + Join(Map(QuoteName, names), " ") + ")" + ParamTail(ps)), created, quoted);
  }

  lemma ThreeSet(sp: Params, created: int, quoted: string)
    ensures SetParams(sp, [CreatedIs(created), KeyIs(quoted), AlgIs("\"hmac-sha256\"")])
            == sp.(created := created, keyId := TrimQuotes(quoted), alg := "hmac-sha256")
  {
    hide TrimQuotes;
    var a, b, c := CreatedIs(created), KeyIs(quoted), AlgIs("\"hmac-sha256\"");
    assert [a, b, c][..2] == [a, b] && [a, b][..1] == [a] && [a][..0] == [];
    assert SetParams(sp, [a]) == sp.(created := created);
    assert SetParams(sp, [a, b]) == sp.(created := created, keyId := TrimQuotes(quoted));
    assert QuoteName("hmac-sha256") == "\"hmac-sha256\"";
    TrimQuoted("hmac-sha256");
  }

  lemma WrittenTexts(created: int, quoted: string)
    ensures Written(CreatedIs(created)) == CreatedText(created) && Written(KeyIs(quoted)) == KeyText(quoted)
    ensures Written(AlgIs("\"hmac-sha256\"")) == ALG_TEXT
  {
    hide FormatInt;
    assert "created" + "=" == "created=" && "keyid" + "=" == "keyid=";
    assert "alg" + "=" + "\"hmac-sha256\"" == ALG_TEXT;
  }

  lemma ThreeTail(x: string, y: string, z: string)
    ensures ";" + x + ";" + y + ";" + z == ";" + (x + ";" + (y + ";" + z))
  {
  }

  /** The signer's text is that of its three parameters. */
  lemma SignerParams(created: int, quoted: string)
    ensures ParamList(created, quoted) == ParamTail([CreatedIs(created), KeyIs(quoted), AlgIs("\"hmac-sha256\"")])
  {
    hide Written, CreatedText, KeyText, Join;
    var a, b, c := CreatedIs(created), KeyIs(quoted), AlgIs("\"hmac-sha256\"");
    WrittenTexts(created, quoted);
    assert Map(Written, [a, b, c]) == [Written(a), Written(b), Written(c)];
    ThreeJoin(Written(a), Written(b), Written(c));
    ThreeTail(Written(a), Written(b), Written(c));
  }

  lemma ThreeJoin(a: string, b: string, c: string)
    ensures Join([a, b, c], ";") == a + ";" + (b + ";" + c)
  {
    assert [a, b, c][1..] == [b, c] && [b, c][1..] == [c];
    assert Join([c], ";") == c;
    assert Join([b, c], ";") == b + ";" + c;
  }

  // ---- key ids ----

  /** No quote, backslash or semicolon. */
  predicate CleanKey(k: string) {
    '"' !in k && '\\' !in k && ';' !in k
  }

  lemma {:induction false} QuotedSame(escape: char -> string, k: string)
    requires forall i :: 0 <= i < |k| ==> Printable(k[i]) && k[i] != '"' && k[i] != '\\'
    ensures QuoteInner(escape, k) == k
  {
    hide Printable;
    if k != "" {
      var m := |k| - 1;
      var init := k[..m];
      assert k == init + [k[m]];
      assert QuoteChar(escape, k[m]) == [k[m]];
      QuotedSame(escape, init);
      assert QuoteInner(escape, k) == QuoteInner(escape, init) + [k[m]];
    }
  }

  lemma {:induction false} QuotedLength(escape: char -> string, k: string)
    requires forall i :: 0 <= i < |k| ==> Printable(k[i])
    ensures |QuoteInner(escape, k)| >= |k|
    ensures '"' in k || '\\' in k ==> |QuoteInner(escape, k)| > |k|
  {
    if k != "" {
      var m := |k| - 1;
      QuotedLength(escape, k[..m]);
      assert k == k[..m] + [k[m]];
    }
  }

  lemma {:induction false} QuotedStart(escape: char -> string, k: string)
    requires k != "" && forall i :: 0 <= i < |k| ==> Printable(k[i])
    ensures QuoteInner(escape, k) != "" && QuoteInner(escape, k)[0] != '"'
  {
    var m := |k| - 1;
    if m > 0 { QuotedStart(escape, k[..m]); }
  }

  /** Quoting and trimming the quotes gives the key back exactly when nothing had to be escaped. */
  lemma QuoteTrimmed(escape: char -> string, k: string)
    requires PrintableKey(k)
    ensures TrimQuotes(Quote(escape, k)) == k <==> '"' !in k && '\\' !in k
  {
    var inner := QuoteInner(escape, k);
    QuotedLength(escape, k);
    QuotedStart(escape, k);
    if '"' !in k && '\\' !in k { QuotedSame(escape, k); }
    var q := Quote(escape, k);
    assert q[1..] == inner + "\"" && (inner + "\"")[..|inner|] == inner;
    assert TrimQuotesLeft(q) == TrimQuotesLeft(inner + "\"") == inner + "\"";
    assert TrimQuotesRight(inner + "\"") == TrimQuotesRight(inner);
    var m := |k| - 1;
    if k[m] == '"' {
      EscapedEnd(escape, k);
    } else {
      assert inner[|inner| - 1] == QuoteChar(escape, k[m])[|QuoteChar(escape, k[m])| - 1];
      assert TrimQuotesRight(inner) == inner;
    }
  }

  lemma EscapedEnd(escape: char -> string, k: string)
    requires PrintableKey(k) && k[|k| - 1] == '"'
    ensures TrimQuotesRight(QuoteInner(escape, k)) != k
  {
    var m := |k| - 1;
    var front := QuoteInner(escape, k[..m]);
    assert QuoteInner(escape, k) == front + ['\\', '"'];
    assert (front + ['\\', '"'])[..|front| + 1] == front + ['\\'];
    assert TrimQuotesRight(front + ['\\', '"']) == TrimQuotesRight(front + ['\\']) == front + ['\\'];
  }

  lemma QuotedSemicolon(escape: char -> string, k: string)
    requires PrintableKey(k)
    ensures ';' in Quote(escape, k) <==> ';' in k
    ensures Quote(escape, k) != "" && !IsSpace(Quote(escape, k)[|Quote(escape, k)| - 1])
  {
    QuotedHas(escape, k, ';');
  }

  lemma TrimQuotesHas(s: string, c: char)
    ensures c in TrimQuotes(s) ==> c in s
  {
    TrimRightHas(TrimQuotesLeft(s), c);
    TrimLeftHas(s, c);
  }

  lemma {:induction false} TrimLeftHas(s: string, c: char)
    ensures c in TrimQuotesLeft(s) ==> c in s
  {
    if s != "" && s[0] == '"' { TrimLeftHas(s[1..], c); }
  }

  lemma {:induction false} TrimRightHas(s: string, c: char)
    ensures c in TrimQuotesRight(s) ==> c in s
  {
    if s != "" && s[|s| - 1] == '"' { TrimRightHas(s[..|s| - 1], c); }
  }

  lemma {:induction false} SpaceLeftHas(s: string, c: char)
    ensures c in TrimLeft(s) ==> c in s
  {
    if s != "" && IsSpace(s[0]) { SpaceLeftHas(s[1..], c); }
  }

  lemma {:induction false} SpaceRightHas(s: string, c: char)
    ensures c in TrimRight(s) ==> c in s
  {
    if s != "" && IsSpace(s[|s| - 1]) { SpaceRightHas(s[..|s| - 1], c); }
  }

  /** A parameter read from text without a semicolon has none. */
  lemma ParamClean(p: Params, text: string)
    requires ';' !in p.keyId && ';' !in text && ApplyParam(p, text).Some?
    ensures ';' !in ApplyParam(p, text).value.keyId
  {
    hide ParseInt, TrimQuotes, TrimLeft, TrimRight;
    var part := TrimSpace(text);
    SpaceLeftHas(text, ';');
    SpaceRightHas(TrimLeft(text), ';');
    var kv := Cut(part, '=');
    if kv.Some? {
      var v := kv.value.1;
      assert forall c :: c in v ==> c in part;
      TrimQuotesHas(v, ';');
    }
  }

  lemma {:induction false} ParamsClean(p: Params, parts: seq<string>)
    requires ';' !in p.keyId && (forall t :: t in parts ==> ';' !in t) && ApplyParams(p, parts).Some?
    ensures ';' !in ApplyParams(p, parts).value.keyId
  {
    hide ApplyParam;
    if parts != [] {
      var m := |parts| - 1;
      assert forall t :: t in parts[..m] ==> t in parts;
      ParamsClean(p, parts[..m]);
      ParamClean(ApplyParams(p, parts[..m]).value, parts[m]);
    }
  }

  /** No parsed key id holds a semicolon. */
  lemma ParsedKeyClean(header: string)
    requires ParseInput(header).Some?
    ensures ';' !in ParseInput(header).value.keyId
  {
    hide AfterLabel, ComponentNames, Fields, ApplyParams, Split;
    var rest := AfterLabel(header).value;
    var end := Index(rest, ')');
    var start := Params(ComponentNames(Fields(rest[1..end])), 0, 0, "", "hmac-sha256", rest);
    ParamsClean(start, Split(WithoutSemicolon(rest[end + 1..]), ';'));
  }

  lemma CoveredNames(hasBody: bool, hasType: bool)
    ensures Covered(hasBody, hasType) != [] && forall n :: n in Covered(hasBody, hasType) ==> IsName(n)
  {
  }

  /** Over all printable ASCII key ids: the key id is read back from the signer's header exactly when
      it holds no quote, backslash or semicolon. */
  lemma KeyRecoveredIff(c: Crypto, m: Message, keyId: string, body: Bytes, created: int)
    requires PrintableKey(keyId) && Int64(created) && created != 0
    ensures var header := "sig1=" + SignedParams(c, m, keyId, body, created);
            ParseInput(header).Some? && ParseInput(header).value.keyId == keyId <==> CleanKey(keyId)
  {
    hide ParseInput, ParamList, Join, Map, Quote, TrimQuotes, IsSpace, Covered, IsName, PrintableKey;
    var header := "sig1=" + SignedParams(c, m, keyId, body, created);
    if ';' in keyId {
      if ParseInput(header).Some? { ParsedKeyClean(header); }
    } else {
      CoveredNames(|body| > 0, Get(m.headers, "Content-Type") != "");
      QuotedSemicolon(c.escape, keyId);
      QuoteTrimmed(c.escape, keyId);
      assert keyId != "" by { KeyNotEmpty(keyId); }
      ParseSigned(Covered(|body| > 0, Get(m.headers, "Content-Type") != ""), created, Quote(c.escape, keyId));
    }
  }

  lemma KeyNotEmpty(k: string)
    requires PrintableKey(k)
    ensures k != ""
  {
  }

  // ---- sign, then verify ----

  lemma ParseSignedParams(c: Crypto, m: Message, keyId: string, body: Bytes, created: int)
    requires PrintableKey(keyId) && CleanKey(keyId) && Int64(created) && created != 0
    ensures var params := SignedParams(c, m, keyId, body, created);
            ParseInput("sig1=" + params) ==
            Some(Params(Covered(|body| > 0, Get(m.headers, "Content-Type") != ""), created, 0, keyId, "hmac-sha256", params))
  {
    hide ParseInput, ParamList, Join, Map, Quote, TrimQuotes, IsSpace, Covered, IsName, PrintableKey;
    CoveredNames(|body| > 0, Get(m.headers, "Content-Type") != "");
    QuotedSemicolon(c.escape, keyId);
    QuoteTrimmed(c.escape, keyId);
    KeyNotEmpty(keyId);
    ParseSigned(Covered(|body| > 0, Get(m.headers, "Content-Type") != ""), created, Quote(c.escape, keyId));
  }

  lemma SignedHeaders(c: Crypto, m: Message, keyId: string, secret: Bytes, body: Bytes, created: int)
    ensures var s := Signed(c, m, keyId, secret, body, created);
            && SameSigned(c, m, s, body)
            && Get(s.headers, "Signature-Input") == "sig1=" + SignedParams(c, m, keyId, body, created)
            && Get(s.headers, "Signature") == "sig1=:" + c.encode(c.hmac(secret, SignedBase(c, m, keyId, body, created))) + ":"
  {
    hide SignedParams, SignedBase, ContentDigest;
    NamesDiffer();
  }

  lemma NamesDiffer()
    ensures "Content-Type" != "Content-Digest" && "Content-Type" != "Signature-Input" && "Content-Type" != "Signature"
    ensures "Content-Digest" != "Signature-Input" && "Content-Digest" != "Signature" && "Signature-Input" != "Signature"
  {
    assert "Content-Type"[0] != "Signature"[0] && "Content-Digest"[0] != "Signature"[0];
    assert "Content-Type"[8] != "Content-Digest"[8];
  }

  lemma LinesSnoc(c: Crypto, m: Message, body: Bytes, names: seq<string>, name: string)
    requires ComponentLines(c, m, body, names).Some? && ComponentLine(c, m, body, name).Some?
    ensures ComponentLines(c, m, body, names + [name]) ==
            Some(ComponentLines(c, m, body, names).value + [ComponentLine(c, m, body, name).value])
  {
    hide ComponentLine;
    assert (names + [name])[..|names|] == names;
  }

  /** The received body passes the digest check of a request signed over `body`: no digest was
      signed, or nothing was received, or the digests are equal. */
  predicate BodyFits(c: Crypto, body: Bytes, received: Bytes) {
    body == [] || received == [] || ContentDigest(c, received) == ContentDigest(c, body)
  }

  /** The message still has what the signer signed over `body`. */
  predicate SameSigned(c: Crypto, m: Message, s: Message, body: Bytes) {
    && s.httpMethod == m.httpMethod && s.path == m.path && Get(s.headers, "Content-Type") == Get(m.headers, "Content-Type")
    && (|body| > 0 ==> Get(s.headers, "Content-Digest") == ContentDigest(c, body))
  }

  /** The verifier rebuilds the lines that were signed, and fails on a body that does not fit. */
  lemma LinesAgain(c: Crypto, m: Message, s: Message, body: Bytes, received: Bytes)
    requires SameSigned(c, m, s, body)
    ensures ComponentLines(c, s, received, Covered(|body| > 0, Get(m.headers, "Content-Type") != "")) ==
            if BodyFits(c, body, received) then Some(SignedLines(c, m, body)) else None
  {
    hide ContentDigest, ComponentLines;
    if !BodyFits(c, body, received) {
      DigestRefused(c, s, body, received, Get(m.headers, "Content-Type") != "");
    } else {
      var names := ["@method", "@path"];
      FirstLines(c, s, received);
      if |body| > 0 {
        LinesSnoc(c, s, received, names, "content-digest");
        names := names + ["content-digest"];
      }
      if Get(m.headers, "Content-Type") != "" {
        LinesSnoc(c, s, received, names, "content-type");
        names := names + ["content-type"];
      }
      assert names == Covered(|body| > 0, Get(m.headers, "Content-Type") != "");
      assert ComponentLines(c, s, received, names).value == SignedLines(c, m, body);
    }
  }

  lemma DigestRefused(c: Crypto, s: Message, body: Bytes, received: Bytes, hasType: bool)
    requires !BodyFits(c, body, received) && Get(s.headers, "Content-Digest") == ContentDigest(c, body)
    ensures ComponentLines(c, s, received, Covered(|body| > 0, hasType)).None?
  {
    hide ContentDigest;
    var names := Covered(true, hasType);
    assert names[..3] == ["@method", "@path", "content-digest"] && names[..3][2] == "content-digest";
    assert |"content-digest"| != |"@method"| && |"content-digest"| != |"@path"|;
    assert ComponentLine(c, s, received, "content-digest").None?;
    NoLine(c, s, received, names, 3);
  }

  lemma FirstLines(c: Crypto, m: Message, body: Bytes)
    ensures ComponentLines(c, m, body, ["@method", "@path"]) == Some(["\"@method\": " + m.httpMethod, "\"@path\": " + m.path])
  {
    hide ComponentLines;
    NoLines(c, m, body);
    var a, b := "\"@method\": " + m.httpMethod, "\"@path\": " + m.path;
    assert |"@method"| != |"@path"|;
    assert ComponentLine(c, m, body, "@method") == Some(a) && ComponentLine(c, m, body, "@path") == Some(b);
    LinesSnoc(c, m, body, [], "@method");
    assert [] + ["@method"] == ["@method"] && [] + [a] == [a];
    LinesSnoc(c, m, body, ["@method"], "@path");
    assert ["@method"] + ["@path"] == ["@method", "@path"] && [a] + [b] == [a, b];
  }

  lemma NoLines(c: Crypto, m: Message, body: Bytes)
    ensures ComponentLines(c, m, body, []) == Some([])
  {
  }

  lemma ValueBack(sig: string)
    ensures ParseValue("sig1=:" + sig + ":") == Value.Value(sig)
  {
    hide TrimSpace, Cut, IsSpace;
    var rest := ":" + sig + ":";
    SpaceFacts();
    assert "sig1=:" + sig + ":" == "sig1" + ['='] + rest;
    NoTrim("sig1=:" + sig + ":");
    CutAt("sig1", '=', rest);
    NoTrim(rest);
    assert rest[1..|rest| - 1] == sig;
  }

  /** Parsing and rebuilding for a message that carries the signer's parameters. */
  lemma RebuiltBase(c: Crypto, m: Message, s: Message, keyId: string, body: Bytes, received: Bytes, created: int)
    requires PrintableKey(keyId) && CleanKey(keyId) && Int64(created) && created != 0 && SameSigned(c, m, s, body)
    requires Get(s.headers, "Signature-Input") == "sig1=" + SignedParams(c, m, keyId, body, created)
    ensures var p := ParseInput(Get(s.headers, "Signature-Input"));
            && p.Some? && p.value.alg == "hmac-sha256" && p.value.keyId == keyId && p.value.created == created && p.value.expires == 0
            && Base(c, s, received, p.value.names, p.value.raw) ==
               if BodyFits(c, body, received) then Some(SignedBase(c, m, keyId, body, created)) else None
  {
    hide ParseInput, SignedParams, ContentDigest, Covered, ComponentLines, SignedLines, PrintableKey, CleanKey, Join, BodyFits;
    ParseSignedParams(c, m, keyId, body, created);
    LinesAgain(c, m, s, body, received);
  }

  /** Over all bodies: a request signed with a known key is accepted with the received body exactly
      when that body fits, whatever its method, path and headers. */
  lemma AcceptedIffBodyFits(c: Crypto, cfg: Config, m: Message, keyId: string, secret: Bytes, body: Bytes, received: Bytes, created: int, now: int)
    requires DecodesItself(c) && PrintableKey(keyId) && CleanKey(keyId) && Int64(created) && created != 0
    requires keyId in cfg.keys && cfg.keys[keyId] == secret
    requires -cfg.maxSkew <= now - created * SECOND <= cfg.maxSkew
    ensures Verify(c, cfg, Signed(c, m, keyId, secret, body, created), received, now) ==
            if BodyFits(c, body, received) then Accepted else BadBase
  {
    hide ParseInput, ParseValue, SignedParams, SignedBase, Base, Signed, PrintableKey, CleanKey, Lower, BodyFits, SameSigned;
    var s := Signed(c, m, keyId, secret, body, created);
    SignedHeaders(c, m, keyId, secret, body, created);
    RebuiltBase(c, m, s, keyId, body, received, created);
    ValueBack(c.encode(c.hmac(secret, SignedBase(c, m, keyId, body, created))));
    assert "sig1=" + SignedParams(c, m, keyId, body, created) != "";
  }

  /** With an injective digest, a body other than the signed one passes exactly when one of the two is
      empty. */
  lemma OtherBodyFitsIff(c: Crypto, body: Bytes, received: Bytes)
    requires forall x, y :: c.encode(c.sha256(x)) == c.encode(c.sha256(y)) ==> x == y
    ensures BodyFits(c, body, received) <==> received == body || body == [] || received == []
  {
    DigestText(c, body);
    DigestText(c, received);
  }

  lemma DigestText(c: Crypto, body: Bytes)
    ensures var d := ContentDigest(c, body); |d| >= 10 && d[9..|d| - 1] == c.encode(c.sha256(body))
  {
  }

  /** A request signed with a known key is accepted, for every method, path, headers and body, and the
      verifier rebuilds the very text that was signed. */
  lemma SignThenVerify(c: Crypto, cfg: Config, m: Message, keyId: string, secret: Bytes, body: Bytes, created: int, now: int)
    requires DecodesItself(c) && PrintableKey(keyId) && CleanKey(keyId) && Int64(created) && created != 0
    requires keyId in cfg.keys && cfg.keys[keyId] == secret
    requires -cfg.maxSkew <= now - created * SECOND <= cfg.maxSkew
    ensures var s := Signed(c, m, keyId, secret, body, created); var p := ParseInput(Get(s.headers, "Signature-Input"));
            && p.Some? && Base(c, s, body, p.value.names, p.value.raw) == Some(SignedBase(c, m, keyId, body, created))
            && Verify(c, cfg, s, body, now) == Accepted
  {
    hide ParseInput, Verify, SignedParams, SignedBase, Base, Signed, PrintableKey, CleanKey, SameSigned, ContentDigest, DecodesItself;
    SignedHeaders(c, m, keyId, secret, body, created);
    RebuiltBase(c, m, Signed(c, m, keyId, secret, body, created), keyId, body, body, created);
    AcceptedIffBodyFits(c, cfg, m, keyId, secret, body, body, created, now);
  }

  // ---- exactly which requests are accepted ----

  /** All checks before the signature value pass. */
  predicate ReachesValue(c: Crypto, cfg: Config, m: Message, body: Bytes, now: int) {
    var input := Get(m.headers, "Signature-Input");
    var p := ParseInput(input);
    && input != "" && p.Some? && EqualFold(p.value.alg, "hmac-sha256") && p.value.keyId in cfg.keys
    && -cfg.maxSkew <= now - p.value.created * SECOND <= cfg.maxSkew
    && (p.value.expires > 0 ==> now <= p.value.expires * SECOND)
    && Base(c, m, body, p.value.names, p.value.raw).Some?
  }

  /** The signature value between its two colons. */
  lemma ValueIff(header: string, text: string)
    ensures ParseValue(header) == Value.Value(text) <==> AfterLabel(header) == Some(":" + text + ":")
  {
    hide TrimSpace, Cut, Index;
    var found := AfterLabel(header);
    if found.Some? {
      var rest := found.value;
      if |rest| >= 2 && rest[0] == ':' && rest[|rest| - 1] == ':' {
        assert rest == ":" + rest[1..|rest| - 1] + ":";
      }
      assert (":" + text + ":")[1..|text| + 1] == text;
    }
  }

  /** The message's signature value decodes to the MAC of the base rebuilt from the message, under the
      configured key that the message names. */
  ghost predicate MacFits(c: Crypto, cfg: Config, m: Message, body: Bytes, text: string)
    requires ParseInput(Get(m.headers, "Signature-Input")).Some?
  {
    var p := ParseInput(Get(m.headers, "Signature-Input")).value;
    var base := Base(c, m, body, p.names, p.raw);
    p.keyId in cfg.keys && base.Some? && c.decode(text) == Some(c.hmac(cfg.keys[p.keyId], base.value))
  }

  /** Over all messages: accepted exactly when every earlier check passes and the signature value,
      between its colons, is the encoding of the right MAC. */
  lemma AcceptedIff(c: Crypto, cfg: Config, m: Message, body: Bytes, now: int)
    ensures Verify(c, cfg, m, body, now) == Accepted <==>
            && ReachesValue(c, cfg, m, body, now)
            && exists text :: AfterLabel(Get(m.headers, "Signature")) == Some(":" + text + ":") && MacFits(c, cfg, m, body, text)
  {
    hide ParseInput, ParseValue, Base, Lower, AfterLabel;
    var sig := Get(m.headers, "Signature");
    NoLabel();
    forall text ensures ParseValue(sig) == Value.Value(text) <==> AfterLabel(sig) == Some(":" + text + ":") { ValueIff(sig, text); }
    if Verify(c, cfg, m, body, now) == Accepted {
      var text := ParseValue(sig).text;
      assert MacFits(c, cfg, m, body, text);
    }
  }

  /** A request signed with one secret and verified under another is accepted exactly when the two
      secrets give the same MAC of the signed text; otherwise the verifier reports a mismatch. */
  lemma OtherSecretIff(c: Crypto, cfg: Config, m: Message, keyId: string, secret: Bytes, body: Bytes, created: int, now: int)
    requires DecodesItself(c) && PrintableKey(keyId) && CleanKey(keyId) && Int64(created) && created != 0 && keyId in cfg.keys
    requires -cfg.maxSkew <= now - created * SECOND <= cfg.maxSkew
    ensures var base := SignedBase(c, m, keyId, body, created);
            Verify(c, cfg, Signed(c, m, keyId, secret, body, created), body, now) ==
            if c.hmac(secret, base) == c.hmac(cfg.keys[keyId], base) then Accepted else Mismatch
  {
    hide ParseInput, ParseValue, SignedParams, SignedBase, Base, Signed, PrintableKey, CleanKey, Lower, SameSigned, ContentDigest;
    var s := Signed(c, m, keyId, secret, body, created);
    SignedHeaders(c, m, keyId, secret, body, created);
    RebuiltBase(c, m, s, keyId, body, body, created);
    ValueBack(c.encode(c.hmac(secret, SignedBase(c, m, keyId, body, created))));
    assert "sig1=" + SignedParams(c, m, keyId, body, created) != "";
  }

  /** A message whose parameters name an expiry in the past, or another algorithm, is never accepted. */
  lemma ParamsRefuse(c: Crypto, cfg: Config, m: Message, body: Bytes, now: int, names: seq<string>, ps: seq<Param>)
    requires (forall n :: n in names ==> IsName(n)) && ps != [] && forall p :: p in ps ==> ParamOk(p)
    requires var rest := "(" + Join(Map(QuoteName, names), " ") + ")" + ParamTail(ps);
             && Get(m.headers, "Signature-Input") == "sig1=" + rest
             && var q := SetParams(Params(names, 0, 0, "", "hmac-sha256", rest), ps);
                (q.expires > 0 && now > q.expires * SECOND) || !EqualFold(q.alg, "hmac-sha256") || q.keyId !in cfg.keys
                || now - q.created * SECOND > cfg.maxSkew || now - q.created * SECOND < -cfg.maxSkew
    ensures Verify(c, cfg, m, body, now) != Accepted
  {
    hide ParseInput, ParseValue, Base, Lower, AfterLabel, Join, Map, ParamTail, SetParams, ParamOk, IsName, Verify;
    InputReads(names, ps);
    AcceptedIff(c, cfg, m, body, now);
  }

  // ---- where the code panics ----

  lemma LoneColonIff(header: string)
    ensures ParseValue(header) == SlicePanic <==> AfterLabel(header) == Some(":")
  {
    hide TrimSpace, Cut, Index;
    var rest := AfterLabel(header);
    assert rest.Some? && |rest.value| == 1 && rest.value[0] == ':' ==> rest.value == ":";
  }

  /** The code panics exactly when the earlier checks pass and the signature header, after its label,
      is a single colon. */
  lemma PanicsIff(c: Crypto, cfg: Config, m: Message, body: Bytes, now: int)
    ensures Verify(c, cfg, m, body, now) == Panics <==>
            ReachesValue(c, cfg, m, body, now) && AfterLabel(Get(m.headers, "Signature")) == Some(":")
  {
    hide ParseInput, ParseValue, Base, Lower, AfterLabel;
    LoneColonIff(Get(m.headers, "Signature"));
    assert AfterLabel("").None? by { NoLabel(); }
  }

  lemma NoLabel()
    ensures AfterLabel("").None?
  {
    assert TrimSpace("") == "" && Index("", '=') < 0;
  }

  /** Every such input is reached: any signed message under a known key id, at any time within the
      skew, whose signature value is cut down to one colon. */
  lemma LoneColonPanics(c: Crypto, cfg: Config, m: Message, keyId: string, secret: Bytes, body: Bytes, created: int, now: int)
    requires PrintableKey(keyId) && CleanKey(keyId) && Int64(created) && created != 0 && keyId in cfg.keys
    requires -cfg.maxSkew <= now - created * SECOND <= cfg.maxSkew
    ensures var s := Signed(c, m, keyId, secret, body, created);
            Verify(c, cfg, s.(headers := s.headers["Signature" := "sig1=:"]), body, now) == Panics
  {
    hide ParseInput, Verify, SignedParams, SignedBase, Base, Signed, PrintableKey, CleanKey, Lower, ContentDigest, AfterLabel;
    var s := Signed(c, m, keyId, secret, body, created);
    var t := s.(headers := s.headers["Signature" := "sig1=:"]);
    SignedHeaders(c, m, keyId, secret, body, created);
    NamesDiffer();
    assert Get(t.headers, "Signature") == "sig1=:";
    assert SameSigned(c, m, t, body) && Get(t.headers, "Signature-Input") == Get(s.headers, "Signature-Input");
    RebuiltBase(c, m, t, keyId, body, body, created);
    LoneColonText();
    assert "sig1=" + SignedParams(c, m, keyId, body, created) != "";
    PanicsIff(c, cfg, t, body, now);
  }

  lemma LoneColonText()
    ensures AfterLabel("sig1=:") == Some(":")
  {
    hide TrimSpace, Cut, IsSpace;
    SpaceFacts();
    NoTrim("sig1=:");
    NoTrim(":");
    assert "sig1=:" == "sig1" + ['='] + ":";
    CutAt("sig1", '=', ":");
  }

  // ---- the code ----

  class HttpRequest {
    const httpMethod: string
    const path: string
    var headers: Headers

    constructor (httpMethod: string, path: string, headers: Headers)
      ensures this.httpMethod == httpMethod && this.path == path && this.headers == headers
    {
      this.httpMethod := httpMethod;
      this.path := path;
      this.headers := headers;
    }

    function Value(): (m: Message)
      reads this
    {
      Message(httpMethod, path, headers)
    }

    /** Sets the digest, the parameters and the signature; refuses an empty key id or secret. */
    method SignRequest(c: Crypto, keyId: string, secret: Bytes, body: Bytes, created: int) returns (ok: bool)
      modifies this
      ensures ok <==> keyId != "" && secret != []
      ensures Value() == if ok then Signed(c, old(Value()), keyId, secret, body, created) else old(Value())
    {
      hide Join, FormatInt, Quote, ContentDigest, ParamList;
      if keyId == "" || |secret| == 0 { return false; }
      ghost var m := Value();
      var components := [QuoteName("@method"), QuoteName("@path")];
      var lines := ["\"@method\": " + httpMethod, "\"@path\": " + path];
      if |body| > 0 {
        var digest := ContentDigest(c, body);
        headers := headers["Content-Digest" := digest];
        components := components + [QuoteName("content-digest")];
        lines := lines + ["\"content-digest\": " + digest];
      }
      assert Value() == WithDigest(c, m, body);
      assert Get(headers, "Content-Type") == Get(m.headers, "Content-Type") by { NamesDiffer(); }
      var ct := Get(headers, "Content-Type");
      if ct != "" {
        components := components + [QuoteName("content-type")];
        lines := lines + ["\"content-type\": " + ct];
      }
      assert components == Map(QuoteName, Covered(|body| > 0, ct != ""));
      assert lines == SignedLines(c, m, body);
      var params := "(" + Join(components, " ") + ")" + ParamList(created, Quote(c.escape, keyId));
      lines := lines + ["\"@signature-params\": " + params];
      var base := Join(lines, "\n");
      var sig := c.encode(c.hmac(secret, base));
      headers := headers["Signature-Input" := "sig1=" + params];
      headers := headers["Signature" := "sig1=:" + sig + ":"];
      return true;
    }
  }

  method ReadNames(list: string) returns (names: seq<string>)
    ensures names == ComponentNames(Fields(list))
  {
    hide Fields, TrimQuotes;
    names := [];
    var words := Fields(list);
    for i := 0 to |words|
      invariant names == ComponentNames(words[..i])
    {
      assert words[..i + 1][..i] == words[..i];
      var part := TrimQuotes(words[i]);
      if part != "" { names := names + [part]; }
    }
    assert words[..|words|] == words;
  }

  method ReadParams(start: Params, tail: string) returns (r: Option<Params>)
    ensures r == ApplyParams(start, Split(tail, ';'))
  {
    hide Split, TrimQuotes, TrimSpace, ParseInt, Cut;
    var p := start;
    var parts := Split(tail, ';');
    for i := 0 to |parts|
      invariant ApplyParams(start, parts[..i]) == Some(p)
    {
      assert parts[..i + 1][..i] == parts[..i];
      assert ApplyParams(start, parts[..i + 1]) == ApplyParam(p, parts[i]);
      var part := TrimSpace(parts[i]);
      if part == "" { continue; }
      var kv := Cut(part, '=');
      if kv.None? { continue; }
      var k, v := kv.value.0, TrimQuotes(kv.value.1);
      if k == "created" {
        var n := ParseInt(v);
        if n.None? {
          FailedParam(start, parts, i + 1);
          return None;
        }
        p := p.(created := n.value);
      } else if k == "expires" {
        var n := ParseInt(v);
        if n.None? {
          FailedParam(start, parts, i + 1);
          return None;
        }
        p := p.(expires := n.value);
      } else if k == "keyid" {
        p := p.(keyId := v);
      } else if k == "alg" {
        p := p.(alg := v);
      }
    }
    assert parts[..|parts|] == parts;
    return Some(p);
  }

  /** The first error decides. */
  lemma {:induction false} FailedParam(p: Params, parts: seq<string>, i: nat)
    requires i <= |parts| && ApplyParams(p, parts[..i]).None?
    ensures ApplyParams(p, parts).None?
    decreases |parts|
  {
    hide ApplyParam;
    if i < |parts| {
      var m := |parts| - 1;
      assert parts[..m][..i] == parts[..i];
      FailedParam(p, parts[..m], i);
    } else {
      assert parts[..i] == parts;
    }
  }

  method ParseSignatureInput(header: string) returns (r: Option<Params>)
    ensures r == ParseInput(header)
  {
    hide TrimSpace, Cut, Index, ApplyParams, ComponentNames, Fields, Split;
    var trimmed := TrimSpace(header);
    var kv := Cut(trimmed, '=');
    if kv.None? { return None; }
    var rest := TrimSpace(kv.value.1);
    if rest == "" || rest[0] != '(' { return None; }
    var end := Index(rest, ')');
    if end < 0 { return None; }
    var names := ReadNames(rest[1..end]);
    var tail := rest[end + 1..];
    if tail != "" && tail[0] == ';' { tail := tail[1..]; }
    r := ReadParams(Params(names, 0, 0, "", "hmac-sha256", rest), tail);
    if r.None? || r.value.keyId == "" || r.value.created == 0 || |r.value.names| == 0 { return None; }
  }

  method BuildSignatureBase(c: Crypto, req: HttpRequest, p: Params, body: Bytes) returns (r: Option<string>)
    ensures r == Base(c, req.Value(), body, p.names, p.raw)
  {
    hide ContentDigest, Join;
    var m := req.Value();
    var lines: seq<string> := [];
    for i := 0 to |p.names|
      invariant ComponentLines(c, m, body, p.names[..i]) == Some(lines)
    {
      assert p.names[..i + 1][..i] == p.names[..i];
      assert ComponentLines(c, m, body, p.names[..i + 1]).None? <==> ComponentLine(c, m, body, p.names[i]).None?;
      var line := ComponentLine(c, m, body, p.names[i]);
      if line.None? {
        NoLine(c, m, body, p.names, i + 1);
        return None;
      }
      lines := lines + [line.value];
    }
    assert p.names[..|p.names|] == p.names;
    lines := lines + ["\"@signature-params\": " + p.raw];
    return Some(Join(lines, "\n"));
  }

  /** One missing or unsupported component is enough to fail. */
  lemma {:induction false} NoLine(c: Crypto, m: Message, body: Bytes, names: seq<string>, i: nat)
    requires i <= |names| && ComponentLines(c, m, body, names[..i]).None?
    ensures ComponentLines(c, m, body, names).None?
    decreases |names|
  {
    hide ComponentLine;
    if i < |names| {
      var k := |names| - 1;
      assert names[..k][..i] == names[..i];
      NoLine(c, m, body, names[..k], i);
    } else {
      assert names[..i] == names;
    }
  }

  /** The checks in the order of the code; the first one that fails is reported. */
  method VerifyHmac(c: Crypto, cfg: Config, req: HttpRequest, body: Bytes, now: int) returns (r: Verdict)
    ensures r == Verify(c, cfg, req.Value(), body, now)
  {
    hide ParseInput, Base, ParseValue, Lower;
    var input, sig := Get(req.headers, "Signature-Input"), Get(req.headers, "Signature");
    if input == "" || sig == "" { return MissingHeaders; }
    var parsed := ParseSignatureInput(input);
    if parsed.None? { return BadInput; }
    var p := parsed.value;
    if !EqualFold(p.alg, "hmac-sha256") { return UnsupportedAlg; }
    if p.keyId !in cfg.keys { return UnknownKey; }
    var skew := now - p.created * SECOND;
    if skew > cfg.maxSkew || skew < -cfg.maxSkew { return SkewTooLarge; }
    if p.expires > 0 && now > p.expires * SECOND { return Expired; }
    var base := BuildSignatureBase(c, req, p, body);
    if base.None? { return BadBase; }
    var value := ParseValue(sig);
    if value.BadValue? { return BadSignature; }
    if value.SlicePanic? { return Panics; }
    var want := c.decode(value.text);
    if want.None? { return NotBase64; }
    if want.value != c.hmac(cfg.keys[p.keyId], base.value) { return Mismatch; }
    return Accepted;
  }
}
