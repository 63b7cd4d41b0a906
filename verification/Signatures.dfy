/**
 * The narrow HTTP message signature profile (RFC 9421): covered components, the signature base of
 * section 2.5, and verification with replay protection. Hashing, lower-casing and the Ed25519
 * check are parameters.
 */
module Signatures {
  import opened Checks
  import opened Numerals

  type Bytes = seq<bv8>

  datatype Message = Message(verb: string, authority: string, path: string, headers: seq<(string, string)>, body: Bytes)

  datatype Parameters = Parameters(created: nat, expires: nat, keyId: string, nonce: string)

  datatype Policy = Policy(
    authority: string, generation: string, keyId: string, publicKey: Bytes, ed25519: bool, enabled: bool,
    notBefore: int, notAfter: int, now: int, usedNonces: set<string>, targets: set<string>)

  datatype Host = Host(lower: string -> string, digest: Bytes -> string, verify: (Bytes, string, string) -> bool)

  type Headers = map<string, string>

  predicate IsLetter(c: char) {
    'A' <= c <= 'Z' || 'a' <= c <= 'z'
  }

  predicate IsTokenChar(c: char) {
    IsLetter(c) || IsDigit(c) || c == '_' || c == '-'
  }

  predicate IsId(s: string) {
    0 < |s| <= 64 && (IsLetter(s[0]) || IsDigit(s[0])) && forall i | 0 <= i < |s| :: IsTokenChar(s[i])
  }

  predicate IsNonce(s: string) {
    22 <= |s| <= 64 && forall i | 0 <= i < |s| :: IsTokenChar(s[i])
  }

  predicate IsSequence(s: string) {
    0 < |s| <= 18 && AllDigits(s) && s[0] != '0'
  }

  predicate IsSpace(c: char) {
    || '\t' <= c <= '\r' || c == ' ' || c == '\U{A0}' || c == '\U{1680}' || '\U{2000}' <= c <= '\U{200A}'
    || c == '\U{2028}' || c == '\U{2029}' || c == '\U{202F}' || c == '\U{205F}' || c == '\U{3000}' || c == '\U{FEFF}'
  }

  predicate NoLine(s: string) {
    forall i | 0 <= i < |s| :: s[i] != '\n'
  }

  predicate HeaderName(s: string) {
    s != "" && forall i | 0 <= i < |s| :: 'a' <= s[i] <= 'z' || s[i] == '-'
  }

  predicate HeaderValue(s: string) {
    && (forall i | 0 <= i < |s| :: s[i] != '\n' && s[i] != '\r')
    && (s != "" ==> !IsSpace(s[0]) && !IsSpace(s[|s| - 1]))
  }

  /** Names are lower-cased and unique, values are one trimmed line. */
  function HeadersOf(host: Host, list: seq<(string, string)>): Result<Headers>
    decreases |list|
  {
    if list == [] then Ok(map[])
    else
      var last := list[|list| - 1];
      var before :- HeadersOf(host, list[..|list| - 1]);
      var name := host.lower(last.0);
      var _ :- Need(HeaderName(name) && name !in before && HeaderValue(last.1), Unauthenticated);
      Ok(before[name := last.1])
  }

  method CollectHeaders(host: Host, list: seq<(string, string)>) returns (r: Result<Headers>)
    ensures r == HeadersOf(host, list)
  {
    var seen: Headers := map[];
    var i := 0;
    while i < |list|
      invariant 0 <= i <= |list|
      invariant HeadersOf(host, list[..i]) == Ok(seen)
    {
      var name := host.lower(list[i].0);
      assert list[..i + 1][..i] == list[..i];
      if !(HeaderName(name) && name !in seen && HeaderValue(list[i].1)) {
        Refused(host, list, i + 1);
        return Rejected(Unauthenticated);
      }
      seen := seen[name := list[i].1];
      i := i + 1;
    }
    assert list[..i] == list;
    return Ok(seen);
  }

  /** A refused prefix refuses the whole. */
  lemma {:induction false} Refused(host: Host, list: seq<(string, string)>, i: nat)
    requires i <= |list| && HeadersOf(host, list[..i]) == Rejected(Unauthenticated)
    ensures HeadersOf(host, list) == Rejected(Unauthenticated)
    decreases |list|
  {
    if i == |list| {
      assert list[..i] == list;
    } else {
      var shorter := list[..|list| - 1];
      assert shorter[..i] == list[..i];
      Refused(host, shorter, i);
    }
  }

  // ----- signature parameters -----

  const OPEN := "sig1=("
  const READ_LIST := "\"@method\" \"@authority\" \"@path\" \"botsquad-generation\""
  const BODY_LIST := " " + "\"content-type\" \"content-digest\" \"idempotency-key\""
  const CREATED := ");created="
  const EXPIRES := ";expires="
  const KEYID := ";keyid=\""
  const NONCE := "\";nonce=\""
  const ALG := "\";alg=\"ed25519\""

  /** The parameters after the component list. */
  function Tail(p: Parameters): string {
    CREATED + (Numeral(p.created) + (EXPIRES + (Numeral(p.expires) + (KEYID + (p.keyId + (NONCE + (p.nonce + ALG)))))))
  }

  function InputText(verb: string, p: Parameters): string {
    OPEN + (READ_LIST + (if verb == "GET" then Tail(p) else BODY_LIST + Tail(p)))
  }

  function SignatureInput(verb: string, p: Parameters): Result<string> {
    var _ :- Need(IsId(p.keyId), InvalidSchema);
    var _ :- Need(p.created < 0x20_0000_0000_0000 && p.expires < 0x20_0000_0000_0000, Unauthenticated);
    var _ :- Need(IsNonce(p.nonce), Unauthenticated);
    Ok(InputText(verb, p))
  }

  /** The length of the longest prefix of token characters. */
  function Span(s: string): (n: nat)
    ensures n <= |s|
  {
    if s == "" || !IsTokenChar(s[0]) then 0 else 1 + Span(s[1..])
  }

  predicate IsSeconds(s: string) {
    IsNumeral(s) && |s| <= 12
  }

  /** One field: a prefix, then token characters. */
  function Field(prefix: string, s: string): Option<(string, string)> {
    if prefix <= s then
      var rest := s[|prefix|..];
      Some((rest[..Span(rest)], rest[Span(rest)..]))
    else None
  }

  /** The parameters a signature-input header spells, if it has exactly the profile's shape. */
  function ParseTail(s: string): Option<Parameters> {
    var a := Field(CREATED, s);
    if a.None? || !IsSeconds(a.value.0) then None else
    var b := Field(EXPIRES, a.value.1);
    if b.None? || !IsSeconds(b.value.0) then None else
    var c := Field(KEYID, b.value.1);
    if c.None? || !IsId(c.value.0) then None else
    var d := Field(NONCE, c.value.1);
    if d.None? || !IsNonce(d.value.0) || d.value.1 != ALG then None
    else Some(Parameters(Value(a.value.0), Value(b.value.0), c.value.0, d.value.0))
  }

  /** A prefix, an optional second part, and the parameters. */
  function ParseAfter(prefix: string, part: string, s: string): Option<Parameters> {
    if !(prefix <= s) then None
    else
      var rest := s[|prefix|..];
      if part <= rest then ParseTail(rest[|part|..]) else ParseTail(rest)
  }

  lemma ParseAfterConcat(prefix: string, part: string, tail: string)
    requires part != "" && tail != "" && part[0] != tail[0]
    ensures ParseAfter(prefix, part, prefix + tail) == ParseTail(tail)
    ensures ParseAfter(prefix, part, prefix + (part + tail)) == ParseTail(tail)
  {
    hide ParseTail;
    assert (prefix + tail)[|prefix|..] == tail;
    assert (prefix + (part + tail))[|prefix|..] == part + tail;
    assert (part + tail)[|part|..] == tail;
  }

  function ParseInput(s: string): Option<Parameters> {
    ParseAfter(OPEN + READ_LIST, BODY_LIST, s)
  }

  lemma {:induction false} SpanOfConcat(token: string, rest: string)
    requires (forall i | 0 <= i < |token| :: IsTokenChar(token[i])) && (rest == "" || !IsTokenChar(rest[0]))
    ensures Span(token + rest) == |token|
  {
    if token == "" {
      assert token + rest == rest;
    } else {
      assert (token + rest)[1..] == token[1..] + rest;
      SpanOfConcat(token[1..], rest);
    }
  }

  lemma FieldOfConcat(prefix: string, token: string, rest: string)
    requires (forall i | 0 <= i < |token| :: IsTokenChar(token[i])) && (rest == "" || !IsTokenChar(rest[0]))
    ensures Field(prefix, prefix + (token + rest)) == Some((token, rest))
  {
    var s := prefix + (token + rest);
    assert s[|prefix|..] == token + rest;
    SpanOfConcat(token, rest);
    assert (token + rest)[..|token|] == token && (token + rest)[|token|..] == rest;
  }

  lemma SecondsOf(n: nat)
    ensures (IsSeconds(Numeral(n)) <==> n < Pow10(12)) && Value(Numeral(n)) == n
    ensures forall i | 0 <= i < |Numeral(n)| :: IsTokenChar(Numeral(n)[i])
  {
    NumeralRoundTrip(n);
    NumeralLength(n, 12);
  }

  predicate ShortTimes(p: Parameters) {
    p.created < Pow10(12) && p.expires < Pow10(12)
  }

  /** Parsing undoes spelling exactly when both times fit in twelve digits. */
  lemma TailRoundTrip(p: Parameters)
    requires IsId(p.keyId) && IsNonce(p.nonce)
    ensures ParseTail(Tail(p)) == if ShortTimes(p) then Some(p) else None
  {
    hide Field, IsSeconds, Numeral, Value, Pow10, IsId, IsNonce, IsTokenChar;
    TailFields(p);
    SecondsOf(p.created);
    SecondsOf(p.expires);
  }

  /** The four fields of a spelled tail, one after the other. */
  lemma TailFields(p: Parameters)
    requires IsId(p.keyId) && IsNonce(p.nonce)
    ensures var d := NONCE + (p.nonce + ALG);
            var c := KEYID + (p.keyId + d);
            var b := EXPIRES + (Numeral(p.expires) + c);
            && Tail(p) == CREATED + (Numeral(p.created) + b)
            && Field(CREATED, Tail(p)) == Some((Numeral(p.created), b)) && Field(EXPIRES, b) == Some((Numeral(p.expires), c))
            && Field(KEYID, c) == Some((p.keyId, d)) && Field(NONCE, d) == Some((p.nonce, ALG))
  {
    hide Numeral, Value, Pow10, IsSeconds, Field, IsTokenChar;
    SecondsOf(p.created);
    SecondsOf(p.expires);
    PlainMarks();
    var d := NONCE + (p.nonce + ALG);
    var c := KEYID + (p.keyId + d);
    var b := EXPIRES + (Numeral(p.expires) + c);
    FieldBefore(NONCE, p.nonce, ALG, "");
    FieldBefore(KEYID, p.keyId, NONCE, p.nonce + ALG);
    FieldBefore(EXPIRES, Numeral(p.expires), KEYID, p.keyId + d);
    FieldBefore(CREATED, Numeral(p.created), EXPIRES, Numeral(p.expires) + c);
    assert ALG + "" == ALG;
  }

  /** A field ends where the mark of the next one begins. */
  lemma FieldBefore(prefix: string, token: string, mark: string, rest: string)
    requires (forall i | 0 <= i < |token| :: IsTokenChar(token[i])) && mark != "" && !IsTokenChar(mark[0])
    ensures Field(prefix, prefix + (token + (mark + rest))) == Some((token, mark + rest))
  {
    hide Field, IsTokenChar;
    assert (mark + rest)[0] == mark[0];
    FieldOfConcat(prefix, token, mark + rest);
  }

  lemma PlainMarks()
    ensures ALG != "" && NONCE != "" && KEYID != "" && EXPIRES != ""
    ensures !IsTokenChar(ALG[0]) && !IsTokenChar(NONCE[0]) && !IsTokenChar(KEYID[0]) && !IsTokenChar(EXPIRES[0])
  {
  }

  lemma InputRoundTrip(verb: string, p: Parameters)
    requires IsId(p.keyId) && IsNonce(p.nonce)
    ensures ParseInput(InputText(verb, p)) == if ShortTimes(p) then Some(p) else None
  {
    hide ParseTail, Tail, ParseAfter;
    TailRoundTrip(p);
    TailStarts(p);
    ParseAfterConcat(OPEN + READ_LIST, BODY_LIST, Tail(p));
    Regroup(OPEN, READ_LIST, if verb == "GET" then Tail(p) else BODY_LIST + Tail(p));
  }

  lemma TailStarts(p: Parameters)
    ensures Tail(p) != "" && Tail(p)[0] == ')' && BODY_LIST[0] == ' '
  {
  }

  lemma Regroup(a: string, b: string, c: string)
    ensures a + (b + c) == (a + b) + c
  {
  }

  // ----- the signature base -----

  /** The covered components, one per line, and the parameters last. */
  function Lines(components: seq<(string, string)>, last: string): string {
    if components == [] then last
    else "\"" + (components[0].0 + ("\": " + (components[0].1 + ("\n" + Lines(components[1..], last)))))
  }

  predicate AuthorityChar(c: char) {
    'a' <= c <= 'z' || IsDigit(c) || c == '.' || c == '-'
  }

  /** A host, optionally with a port of at most five digits. */
  predicate AuthorityOk(s: string) {
    exists n | 0 < n <= |s| ::
      && (forall i | 0 <= i < n :: AuthorityChar(s[i]))
      && (n < |s| ==> s[n] == ':' && 2 <= |s| - n <= 6 && AllDigits(s[n + 1..]))
  }

  predicate PathChar(c: char) {
    IsTokenChar(c) || c == '/'
  }

  predicate Rooted(prefix: string, s: string) {
    prefix < s && forall i | |prefix| <= i < |s| :: PathChar(s[i])
  }

  predicate PathOk(s: string) {
    && (Rooted("/api/experiments/v1/", s) || Rooted("/api/ask/v1/", s))
    && forall i | 0 < i < |s| :: s[i - 1] != '/' || s[i] != '/'
  }

  predicate Verb(s: string) {
    s == "GET" || s == "POST" || s == "PUT"
  }

  function Get(h: Headers, name: string): string {
    if name in h then h[name] else ""
  }

  /** The header values a body-carrying message must cover. */
  function BodyValues(host: Host, h: Headers, body: Bytes): Result<(string, string, string)> {
    var kind, digest, key := Get(h, "content-type"), Get(h, "content-digest"), Get(h, "idempotency-key");
    var _ :- Need(kind != "" && digest != "" && key != "", Unauthenticated);
    var _ :- Need(IsId(key), InvalidSchema);
    var _ :- Need(digest == host.digest(body), Unauthenticated);
    Ok((kind, digest, key))
  }

  predicate Bodiless(h: Headers, body: Bytes) {
    body == [] && "content-type" !in h && "content-digest" !in h && "idempotency-key" !in h
  }

  function ReadValues(m: Message, generation: string): seq<(string, string)> {
    [("@method", m.verb), ("@authority", m.authority), ("@path", m.path), ("botsquad-generation", generation)]
  }

  function BodyLines(v: (string, string, string)): seq<(string, string)> {
    [("content-type", v.0), ("content-digest", v.1), ("idempotency-key", v.2)]
  }

  /** Every covered component with its value. */
  function Covered(host: Host, m: Message): Result<seq<(string, string)>> {
    var _ :- Need(Verb(m.verb) && AuthorityOk(m.authority) && PathOk(m.path), Unauthenticated);
    var h :- HeadersOf(host, m.headers);
    var generation := Get(h, "botsquad-generation");
    var _ :- Need(IsSequence(generation), InvalidSchema);
    if m.verb == "GET" then
      var _ :- Need(Bodiless(h, m.body), Unauthenticated);
      Ok(ReadValues(m, generation))
    else
      var v :- BodyValues(host, h, m.body);
      Ok(ReadValues(m, generation) + BodyLines(v))
  }

  const PARAMS := "\"@signature-params\": "

  function SignatureBase(host: Host, m: Message, input: string): Result<string> {
    var covered :- Covered(host, m);
    Ok(Lines(covered, PARAMS + (if |input| < 5 then "" else input[5..])))
  }

  // ----- the base pins the message -----

  lemma {:induction false} PeelLine(a: string, b: string, x: string, y: string)
    requires NoLine(a) && NoLine(b) && a + ("\n" + x) == b + ("\n" + y)
    ensures a == b && x == y
  {
    var s, t := a + ("\n" + x), b + ("\n" + y);
    assert s[|a|] == '\n' && forall i | 0 <= i < |a| :: s[i] == a[i] != '\n';
    assert t[|b|] == '\n' && forall i | 0 <= i < |b| :: t[i] == b[i] != '\n';
    assert s[..|a|] == a && t[..|b|] == b;
    assert s[|a| + 1..] == x && t[|b| + 1..] == y;
  }

  lemma DropSame(prefix: string, x: string, y: string)
    requires prefix + x == prefix + y
    ensures x == y
  {
    assert (prefix + x)[|prefix|..] == x;
    assert (prefix + y)[|prefix|..] == y;
  }

  /** Lines with the same names and one-line values spell the same text only with the same values. */
  lemma {:induction false} LinesInjective(c: seq<(string, string)>, d: seq<(string, string)>, x: string, y: string)
    requires |c| == |d| && (forall i | 0 <= i < |c| :: c[i].0 == d[i].0 && NoLine(c[i].1) && NoLine(d[i].1))
    requires Lines(c, x) == Lines(d, y)
    ensures c == d && x == y
  {
    if c != [] {
      FirstLine(c, d, x, y);
      LinesInjective(c[1..], d[1..], x, y);
      assert c == [c[0]] + c[1..] && d == [d[0]] + d[1..];
    }
  }

  /** The first value is pinned even when the number of lines is not yet known. */
  lemma FirstLine(c: seq<(string, string)>, d: seq<(string, string)>, x: string, y: string)
    requires c != [] && d != [] && c[0].0 == d[0].0 && NoLine(c[0].1) && NoLine(d[0].1)
    requires Lines(c, x) == Lines(d, y)
    ensures c[0] == d[0] && Lines(c[1..], x) == Lines(d[1..], y)
  {
    var s, t := Lines(c[1..], x), Lines(d[1..], y);
    var v, w := c[0].1 + ("\n" + s), d[0].1 + ("\n" + t);
    DropSame("\"", c[0].0 + ("\": " + v), d[0].0 + ("\": " + w));
    DropSame(c[0].0, "\": " + v, "\": " + w);
    DropSame("\": ", v, w);
    hide Lines, NoLine;
    PeelLine(c[0].1, d[0].1, s, t);
  }

  lemma {:induction false} HeadersAreLines(host: Host, list: seq<(string, string)>)
    requires HeadersOf(host, list).Ok?
    ensures forall name | name in HeadersOf(host, list).value :: NoLine(HeadersOf(host, list).value[name])
    decreases |list|
  {
    if list != [] {
      HeadersAreLines(host, list[..|list| - 1]);
    }
  }

  lemma PlainTextIsOneLine(m: Message)
    requires Verb(m.verb) && AuthorityOk(m.authority) && PathOk(m.path)
    ensures NoLine(m.verb) && NoLine(m.authority) && NoLine(m.path)
  {
    VerbIsOneLine(m.verb);
    AuthorityIsOneLine(m.authority);
    PathIsOneLine(m.path);
  }

  lemma VerbIsOneLine(s: string)
    requires Verb(s)
    ensures NoLine(s)
  {
  }

  lemma AuthorityIsOneLine(s: string)
    requires AuthorityOk(s)
    ensures NoLine(s)
  {
    var n :| 0 < n <= |s| && (forall i | 0 <= i < n :: AuthorityChar(s[i]))
             && (n < |s| ==> s[n] == ':' && 2 <= |s| - n <= 6 && AllDigits(s[n + 1..]));
    forall i | 0 <= i < |s| ensures s[i] != '\n' {
      if i > n {
        assert s[n + 1..][i - n - 1] == s[i] && IsDigit(s[n + 1..][i - n - 1]);
      } else if i < n {
        assert AuthorityChar(s[i]);
      }
    }
  }

  lemma PathIsOneLine(s: string)
    requires PathOk(s)
    ensures NoLine(s)
  {
    RootedIsOneLine("/api/experiments/v1/", s);
    RootedIsOneLine("/api/ask/v1/", s);
  }

  lemma RootedIsOneLine(prefix: string, s: string)
    requires NoLine(prefix)
    ensures Rooted(prefix, s) ==> NoLine(s)
  {
    if Rooted(prefix, s) {
      forall i | 0 <= i < |s| ensures s[i] != '\n' {
        if i < |prefix| {
          assert s[i] == prefix[i];
        } else {
          assert PathChar(s[i]);
        }
      }
    }
  }

  /** The values every covered message spells are single lines. */
  lemma CoveredAreLines(host: Host, m: Message)
    requires Covered(host, m).Ok?
    ensures var c := Covered(host, m).value;
            && |c| == (if m.verb == "GET" then 4 else 7) && c[..4] == ReadValues(m, c[3].1)
            && (m.verb != "GET" ==> c[4].0 == "content-type" && c[5] == ("content-digest", host.digest(m.body))
                                    && c[6].0 == "idempotency-key")
            && (m.verb == "GET" ==> m.body == [])
            && forall i | 0 <= i < |c| :: NoLine(c[i].1)
  {
    hide Verb, AuthorityOk, PathOk, IsSequence, IsId, NoLine;
    PlainTextIsOneLine(m);
    HeadersAreLines(host, m.headers);
    EmptyIsOneLine();
    var h := HeadersOf(host, m.headers).value;
    assert NoLine(Get(h, "botsquad-generation"));
    assert NoLine(Get(h, "content-type")) && NoLine(Get(h, "content-digest")) && NoLine(Get(h, "idempotency-key"));
  }

  lemma EmptyIsOneLine()
    ensures NoLine("")
  {
  }

  lemma SameVerb(host: Host, m: Message, n: Message, i: string, j: string)
    requires SignatureBase(host, m, i).Ok? && SignatureBase(host, m, i) == SignatureBase(host, n, j)
    ensures m.verb == n.verb
  {
    hide Covered, Lines, NoLine;
    CoveredAreLines(host, m);
    CoveredAreLines(host, n);
    var c, d := Covered(host, m).value, Covered(host, n).value;
    assert c[0] == ReadValues(m, c[3].1)[0] && d[0] == ReadValues(n, d[3].1)[0];
    FirstLine(c, d, PARAMS + (if |i| < 5 then "" else i[5..]), PARAMS + (if |j| < 5 then "" else j[5..]));
  }

  /**
   * Two messages with the same signature base agree on every covered component: method,
   * authority, path, generation, the three covered headers and the signature parameters. With a
   * collision-free digest they carry the same body.
   */
  lemma BaseIsInjective(host: Host, m: Message, n: Message, i: string, j: string)
    requires SignatureBase(host, m, i).Ok? && SignatureBase(host, m, i) == SignatureBase(host, n, j)
    requires OPEN <= i && OPEN <= j
    ensures m.verb == n.verb && m.authority == n.authority && m.path == n.path
    ensures Covered(host, m) == Covered(host, n) && i == j
    ensures (forall a, b :: host.digest(a) == host.digest(b) ==> a == b) ==> m.body == n.body
  {
    hide Covered, Lines, NoLine;
    SameVerb(host, m, n, i, j);
    CoveredAreLines(host, m);
    CoveredAreLines(host, n);
    var c, d := Covered(host, m).value, Covered(host, n).value;
    assert c[..4] == ReadValues(m, c[3].1) && d[..4] == ReadValues(n, d[3].1);
    SameNames(m, n, c, d);
    LinesInjective(c, d, PARAMS + i[5..], PARAMS + j[5..]);
    DropSame(PARAMS, i[5..], j[5..]);
    assert i == OPEN[..5] + i[5..] && j == OPEN[..5] + j[5..];
    assert c[1] == c[..4][1] && c[2] == c[..4][2] && d[1] == d[..4][1] && d[2] == d[..4][2];
  }

  lemma SameNames(m: Message, n: Message, c: seq<(string, string)>, d: seq<(string, string)>)
    requires m.verb == n.verb && |c| == |d| == (if m.verb == "GET" then 4 else 7)
    requires c[..4] == ReadValues(m, c[3].1) && d[..4] == ReadValues(n, d[3].1)
    requires m.verb != "GET" ==> c[4].0 == d[4].0 && c[5].0 == d[5].0 && c[6].0 == d[6].0
    ensures forall i | 0 <= i < |c| :: c[i].0 == d[i].0
  {
    forall i | 0 <= i < 4 ensures c[i].0 == d[i].0 {
      assert c[i] == c[..4][i] && d[i] == d[..4][i];
    }
  }

  // ----- verification -----

  predicate Base64Char(c: char) {
    IsLetter(c) || IsDigit(c) || c == '+' || c == '/'
  }

  /** Sixty-four bytes in canonical base64: the last sextet has no stray bits. */
  predicate CanonicalSignature(s: string) {
    |s| == 88 && s[86..] == "==" && (forall i | 0 <= i < 86 :: Base64Char(s[i])) && s[85] in "AQgw"
  }

  function Encoded(header: string): Option<string> {
    if |header| == 95 && header[..6] == "sig1=:" && header[94] == ':' && CanonicalSignature(header[6..94])
    then Some(header[6..94]) else None
  }

  datatype Accepted = Accepted(nonceKey: string, retainUntil: int)

  function NonceKey(p: Parameters): string {
    p.keyId + ":" + p.nonce
  }

  /** Fresh enough: at most five minutes long, with a minute of clock skew either way. */
  predicate Current(p: Parameters, now: int) {
    p.expires > p.created && p.expires - p.created <= 300 && p.created <= now + 60 && now <= p.expires + 60
  }

  function Verify(host: Host, m: Message, policy: Policy): Result<Accepted> {
    var _ :- Need(policy.enabled && policy.notBefore <= policy.now < policy.notAfter, Forbidden);
    var _ :- Need(m.authority == policy.authority && m.verb + " " + m.path in policy.targets, Forbidden);
    var _ :- Need(policy.ed25519, Unauthenticated);
    var h :- HeadersOf(host, m.headers);
    var input, signature := Get(h, "signature-input"), Get(h, "signature");
    var _ :- Need(input != "" && signature != "", Unauthenticated);
    var _ :- Need("botsquad-generation" in h && h["botsquad-generation"] == policy.generation, Conflict);
    var parsed := ParseInput(input);
    var _ :- Need(parsed.Some?, Unauthenticated);
    var p := parsed.value;
    var spelled :- SignatureInput(m.verb, p);
    var _ :- Need(input == spelled, Unauthenticated);
    var _ :- Need(p.keyId == policy.keyId && policy.notBefore <= p.created < policy.notAfter, Forbidden);
    var _ :- Need(Current(p, policy.now), Unauthenticated);
    var _ :- Need(NonceKey(p) !in policy.usedNonces, Replay);
    var encoded := Encoded(signature);
    var _ :- Need(encoded.Some?, Unauthenticated);
    var base :- SignatureBase(host, m, input);
    var _ :- Need(host.verify(policy.publicKey, base, encoded.value), Unauthenticated);
    Ok(Accepted(NonceKey(p), p.expires + 60))
  }

  // ----- replay -----

  /** The parameters an accepted message spells. */
  function Spelled(host: Host, m: Message): Option<Parameters> {
    var h := HeadersOf(host, m.headers);
    if h.Ok? then ParseInput(Get(h.value, "signature-input")) else None
  }

  /** What acceptance depended on. */
  lemma AcceptedFacts(host: Host, m: Message, policy: Policy)
    requires Verify(host, m, policy).Ok?
    ensures Spelled(host, m).Some?
    ensures var p := Spelled(host, m).value;
            && Verify(host, m, policy).value == Accepted(NonceKey(p), p.expires + 60)
            && Current(p, policy.now) && NonceKey(p) !in policy.usedNonces && IsId(p.keyId)
  {
    hide HeadersOf, ParseInput, SignatureBase, Encoded, NonceKey, Current;
  }

  /** An accepted message carries a valid signature over its own base, spelled with its own parameters. */
  lemma AcceptedIsSigned(host: Host, m: Message, policy: Policy)
    requires Verify(host, m, policy).Ok?
    ensures HeadersOf(host, m.headers).Ok? && Spelled(host, m).Some?
    ensures var h, p := HeadersOf(host, m.headers).value, Spelled(host, m).value;
            var input, encoded := Get(h, "signature-input"), Encoded(Get(h, "signature"));
            && input == InputText(m.verb, p) && p.keyId == policy.keyId
            && encoded.Some? && SignatureBase(host, m, input).Ok?
            && host.verify(policy.publicKey, SignatureBase(host, m, input).value, encoded.value)
            && m.authority == policy.authority && m.verb + " " + m.path in policy.targets
  {
    hide HeadersOf, ParseInput, SignatureBase, Encoded, NonceKey, Current, InputText;
  }

  /** What a key holder signed: a message with its signature input. */
  datatype Signing = Signing(m: Message, input: string)

  /** Only what was signed verifies under the key. */
  ghost predicate Unforgeable(host: Host, key: Bytes, signed: set<Signing>) {
    forall base, encoded | host.verify(key, base, encoded) ::
      exists s :: s in signed && OPEN <= s.input && SignatureBase(host, s.m, s.input) == Ok(base)
  }

  /**
   * With a key that cannot be forged and a collision-free digest, an accepted message is one the
   * key holder signed: same method, authority, path, covered headers, parameters and body.
   */
  lemma AcceptedWasSigned(host: Host, m: Message, policy: Policy, signed: set<Signing>) returns (s: Signing)
    requires Verify(host, m, policy).Ok? && Unforgeable(host, policy.publicKey, signed)
    requires forall a, b :: host.digest(a) == host.digest(b) ==> a == b
    ensures s in signed && HeadersOf(host, m.headers).Ok?
    ensures s.m.verb == m.verb && s.m.authority == m.authority && s.m.path == m.path && s.m.body == m.body
    ensures Covered(host, s.m) == Covered(host, m) && s.input == Get(HeadersOf(host, m.headers).value, "signature-input")
  {
    hide Verify, Encoded, Spelled, SignatureBase, Covered, HeadersOf;
    AcceptedIsSigned(host, m, policy);
    var h, p := HeadersOf(host, m.headers).value, Spelled(host, m).value;
    var input, encoded := Get(h, "signature-input"), Encoded(Get(h, "signature")).value;
    OpensInput(m.verb, p);
    s :| s in signed && OPEN <= s.input && SignatureBase(host, s.m, s.input) == SignatureBase(host, m, input);
    BaseIsInjective(host, s.m, m, s.input, input);
  }

  lemma OpensInput(verb: string, p: Parameters)
    ensures OPEN <= InputText(verb, p)
  {
    hide Tail;
  }

  datatype Arrival = Arrival(m: Message, policy: Policy)

  function Outcome(host: Host, a: Arrival): Result<Accepted> {
    Verify(host, a.m, a.policy)
  }

  /** The clock never goes back, and every accepted key is kept through its retention time. */
  ghost predicate KeepsNonces(host: Host, run: seq<Arrival>) {
    forall i, j | 0 <= i < j < |run| ::
      && run[i].policy.now <= run[j].policy.now
      && (Outcome(host, run[i]).Ok? && run[j].policy.now <= Outcome(host, run[i]).value.retainUntil
          ==> Outcome(host, run[i]).value.nonceKey in run[j].policy.usedNonces)
  }

  lemma NonceKeyPins(p: Parameters, q: Parameters)
    requires IsId(p.keyId) && IsId(q.keyId) && NonceKey(p) == NonceKey(q)
    ensures p.keyId == q.keyId && p.nonce == q.nonce
  {
    var s, t := NonceKey(p), NonceKey(q);
    assert s[|p.keyId|] == ':' && forall i | 0 <= i < |p.keyId| :: s[i] == p.keyId[i] && IsTokenChar(p.keyId[i]);
    assert t[|q.keyId|] == ':' && forall i | 0 <= i < |q.keyId| :: t[i] == q.keyId[i] && IsTokenChar(q.keyId[i]);
    assert s[..|p.keyId|] == p.keyId && t[..|q.keyId|] == q.keyId;
    assert s[|p.keyId| + 1..] == p.nonce && t[|q.keyId| + 1..] == q.nonce;
  }

  /** So a set of used keys refuses exactly the key and nonce pairs that were used. */
  lemma UsedKeysRefuseExactly(used: set<Parameters>, p: Parameters)
    requires IsId(p.keyId) && forall q | q in used :: IsId(q.keyId)
    ensures NonceKey(p) in (set q | q in used :: NonceKey(q))
            <==> exists q :: q in used && q.keyId == p.keyId && q.nonce == p.nonce
  {
    hide IsId;
    if q :| q in used && NonceKey(q) == NonceKey(p) {
      NonceKeyPins(p, q);
    }
  }

  /**
   * Over any run that keeps its nonces, a key and nonce are accepted again only once every
   * earlier message that used them has expired past its skew; so no signed message is accepted
   * twice, whatever policies it meets.
   */
  lemma NeverAcceptedTwice(host: Host, run: seq<Arrival>, i: nat, j: nat)
    requires KeepsNonces(host, run) && i < j < |run|
    requires Outcome(host, run[i]).Ok? && Outcome(host, run[j]).Ok?
    ensures Outcome(host, run[i]).value.nonceKey == Outcome(host, run[j]).value.nonceKey
            ==> run[j].policy.now > Outcome(host, run[i]).value.retainUntil
    ensures Spelled(host, run[i].m) != Spelled(host, run[j].m) && run[i].m != run[j].m
  {
    hide Verify, Spelled, NonceKey;
    AcceptedFacts(host, run[i].m, run[i].policy);
    AcceptedFacts(host, run[j].m, run[j].policy);
  }

  /** A kept key lives at most 420 seconds past its acceptance. */
  lemma RetentionIsBounded(host: Host, m: Message, policy: Policy)
    requires Verify(host, m, policy).Ok?
    ensures policy.now <= Verify(host, m, policy).value.retainUntil <= policy.now + 420
  {
    hide Verify, Spelled, NonceKey;
    AcceptedFacts(host, m, policy);
  }

  /** A signature input the profile spells is read back if and only if its times have at most twelve digits. */
  lemma SpelledInputParsesExactly(verb: string, p: Parameters)
    requires SignatureInput(verb, p).Ok?
    ensures ParseInput(SignatureInput(verb, p).value) == Some(p) <==> ShortTimes(p)
    ensures ParseInput(SignatureInput(verb, p).value).Some? <==> ShortTimes(p)
  {
    hide ParseInput, InputText, ShortTimes;
    InputRoundTrip(verb, p);
  }
}
