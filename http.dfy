/**
 * The pieces of the `http`/`hyper` crates the framework uses: request methods,
 * status codes, header names (case-insensitive, stored lower-case) and
 * header values.
 */
module Http {
  import opened Wrappers
  import opened Strings

  /** `hyper::Method`: the standard methods and any extension token. */
  datatype Method = GET | POST | PUT | DELETE | PATCH | HEAD | OPTIONS | CONNECT | TRACE
                  | Extension(token: string)

  /** `Method::as_str`. */
  function MethodName(m: Method): string
  {
    match m
    case GET => "GET"
    case POST => "POST"
    case PUT => "PUT"
    case DELETE => "DELETE"
    case PATCH => "PATCH"
    case HEAD => "HEAD"
    case OPTIONS => "OPTIONS"
    case CONNECT => "CONNECT"
    case TRACE => "TRACE"
    case Extension(t) => t
  }

  /** The five methods the registration API can bind a handler to. */
  predicate IsVerb(m: Method) {
    m.GET? || m.POST? || m.PUT? || m.DELETE? || m.PATCH?
  }

  type U16 = x: int | 0 <= x < 0x1_0000

  type U64 = x: int | 0 <= x < 0x1_0000_0000_0000_0000

  const U64_MAX: U64 := 0xFFFF_FFFF_FFFF_FFFF

  /** `http::StatusCode`: a three-digit code. */
  type StatusCode = x: int | 100 <= x < 1000 witness 200

  /** `StatusCode::from_u16(code).unwrap_or(StatusCode::INTERNAL_SERVER_ERROR)`. */
  function StatusOrInternal(code: U16): StatusCode
  {
    if 100 <= code < 1000 then code else 500
  }

  // ---------------------------------------------------------------------------
  // Header names

  /** A `tchar` of section 5.6.2 of RFC 9110, the characters a header name may hold. */
  predicate IsTokenChar(c: char) {
    ('a' <= c <= 'z') || ('A' <= c <= 'Z') || ('0' <= c <= '9') || c in "!#$%&'*+-.^_`|~"
  }

  function LowerAscii(c: char): char {
    if 'A' <= c <= 'Z' then (c as int + 32) as char else c
  }

  function LowerName(s: string): (r: string)
    ensures |r| == |s|
  {
    if s == [] then [] else [LowerAscii(s[0])] + LowerName(s[1..])
  }

  lemma {:induction false} LowerNameAt(s: string)
    ensures forall i | 0 <= i < |s| :: LowerName(s)[i] == LowerAscii(s[i])
  {
    if s != [] {
      LowerNameAt(s[1..]);
    }
  }

  predicate IsToken(s: string) {
    |s| > 0 && forall i | 0 <= i < |s| :: IsTokenChar(s[i])
  }

  /**
   * `HeaderName::from_bytes`: a non-empty token, stored in lower case
   * (header names are case-insensitive).
   */
  function ParseHeaderName(s: string): Option<string>
  {
    if IsToken(s) then Some(LowerName(s)) else None
  }

  /** Parsing accepts exactly the tokens, and its result is itself a name in canonical form. */
  lemma ParseHeaderNameCanonical(s: string)
    ensures ParseHeaderName(s).Some? <==> IsToken(s)
    ensures ParseHeaderName(s).Some? ==> ParseHeaderName(ParseHeaderName(s).value) == ParseHeaderName(s)
  {
    if IsToken(s) {
      LowerNameAt(s);
      var r := LowerName(s);
      LowerNameAt(r);
      assert IsToken(r);
      assert LowerName(r) == r;
    }
  }

  /** Two spellings that differ only in letter case name the same header. */
  lemma ParseHeaderNameIgnoresCase(a: string, b: string)
    requires |a| == |b| && forall i | 0 <= i < |a| :: LowerAscii(a[i]) == LowerAscii(b[i])
    requires IsToken(a) && IsToken(b)
    ensures ParseHeaderName(a) == ParseHeaderName(b)
  {
    LowerNameAt(a);
    LowerNameAt(b);
    assert LowerName(a) == LowerName(b);
  }

  // ---------------------------------------------------------------------------
  // Header values and the header map

  /** `HeaderValue::from_str`: no control character other than horizontal tab, and no DEL. */
  predicate IsValidHeaderValue(v: string) {
    forall i | 0 <= i < |v| :: v[i] == '\t' || (v[i] >= ' ' && v[i] as int != 0x7F)
  }

  /** `HeaderValue::to_str` succeeds: only visible ASCII, space and tab. */
  predicate IsVisibleAscii(v: string) {
    forall i | 0 <= i < |v| :: v[i] == '\t' || (' ' <= v[i] <= '~')
  }

  /** `HeaderMap` as the framework uses it: one value per (lower-case) name; `insert` replaces. */
  type Headers = map<string, string>

  const CONTENT_TYPE: string := "content-type"

  lemma ContentTypeIsToken()
    ensures IsToken("Content-Type")
  {
    var s := "Content-Type";
    assert forall i | 0 <= i < |s| :: s[i] != '-' ==> ('a' <= s[i] <= 'z') || ('A' <= s[i] <= 'Z');
  }

  /** Lower-casing is determined character by character. */
  lemma LowerNameIs(s: string, t: string)
    requires |s| == |t| && forall i | 0 <= i < |s| :: LowerAscii(s[i]) == t[i]
    ensures LowerName(s) == t
  {
    LowerNameAt(s);
  }

  lemma ContentTypeLower()
    ensures LowerName("Content-Type") == CONTENT_TYPE
  {
    LowerNameIs("Content-Type", CONTENT_TYPE);
  }

  /** The spelling "Content-Type" the framework writes parses to the canonical name. */
  lemma ContentTypeName()
    ensures ParseHeaderName("Content-Type") == Some(CONTENT_TYPE)
  {
    ContentTypeIsToken();
    ContentTypeLower();
  }
}
