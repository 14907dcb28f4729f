/**
 * String helpers the framework relies on through Rust's standard library:
 * decimal formatting (`{}` of an integer), `str::replace`, `str::contains`,
 * `join`, splitting a comma-separated header list, and the UTF-8 encoding
 * that `Bytes::from(String)` performs.
 */
module Strings {

  type Byte = x: int | 0 <= x < 0x100

  // ---------------------------------------------------------------------------
  // Decimal formatting

  predicate IsDigit(c: char) {
    '0' <= c <= '9'
  }

  predicate AllDigits(s: string) {
    forall i | 0 <= i < |s| :: IsDigit(s[i])
  }

  function DigitChar(d: nat): (c: char)
    requires d < 10
    ensures IsDigit(c) && c as int - '0' as int == d
  {
    (('0' as int) + d) as char
  }

  /** The decimal rendering of `n`, as `format!("{}", n)` gives it. */
  function NatToString(n: nat): (s: string)
    ensures |s| >= 1 && AllDigits(s)
    ensures n < 10 <==> |s| == 1
  {
    if n < 10 then [DigitChar(n)] else NatToString(n / 10) + [DigitChar(n % 10)]
  }

  /** Reads a run of decimal digits back as a number. */
  function ParseDecimal(s: string): nat
    requires AllDigits(s)
  {
    if s == [] then 0
    else ParseDecimal(s[..|s| - 1]) * 10 + (s[|s| - 1] as int - '0' as int)
  }

  /** Decimal formatting loses nothing: the digits read back as the number. */
  lemma {:induction false} ParseNatToString(n: nat)
    ensures ParseDecimal(NatToString(n)) == n
  {
    if n >= 10 {
      var s := NatToString(n);
      assert s[..|s| - 1] == NatToString(n / 10);
      ParseNatToString(n / 10);
    }
  }

  // ---------------------------------------------------------------------------
  // str::replace with a char pattern

  /** `s.replace(c, rep)`: every occurrence of `c` replaced by `rep`, left to right. */
  function ReplaceChar(s: string, c: char, rep: string): string
  {
    if s == [] then [] else (if s[0] == c then rep else [s[0]]) + ReplaceChar(s[1..], c, rep)
  }

  lemma {:induction false} ReplaceAppend(a: string, b: string, c: char, rep: string)
    ensures ReplaceChar(a + b, c, rep) == ReplaceChar(a, c, rep) + ReplaceChar(b, c, rep)
  {
    if a == [] {
      assert a + b == b;
    } else {
      assert (a + b)[0] == a[0] && (a + b)[1..] == a[1..] + b;
      ReplaceAppend(a[1..], b, c, rep);
    }
  }

  lemma {:induction false} ReplaceAbsent(s: string, c: char, rep: string)
    requires c !in s
    ensures ReplaceChar(s, c, rep) == s
  {
    if s != [] {
      ReplaceAbsent(s[1..], c, rep);
    }
  }

  // ---------------------------------------------------------------------------
  // str::contains with a string pattern

  predicate StartsWith(s: string, prefix: string) {
    |prefix| <= |s| && s[..|prefix|] == prefix
  }

  /** `s.contains(sub)`, searched from the left. */
  predicate Contains(s: string, sub: string)
    decreases |s|
  {
    StartsWith(s, sub) || (|s| > 0 && Contains(s[1..], sub))
  }

  /** `sub` occurs in `s` starting at position `i`. */
  predicate OccursAt(s: string, sub: string, i: int) {
    0 <= i <= |s| - |sub| && s[i..i + |sub|] == sub
  }

  /** The search finds `sub` exactly when it occurs at some position of `s`. */
  lemma {:induction false} ContainsIffOccurs(s: string, sub: string)
    ensures Contains(s, sub) <==> exists i :: OccursAt(s, sub, i)
    decreases |s|
  {
    if StartsWith(s, sub) {
      assert OccursAt(s, sub, 0);
    } else if |s| > 0 {
      ContainsIffOccurs(s[1..], sub);
      if exists i :: OccursAt(s, sub, i) {
        var i :| OccursAt(s, sub, i);
        assert i != 0;
        assert s[1..][i - 1..i - 1 + |sub|] == s[i..i + |sub|];
        assert OccursAt(s[1..], sub, i - 1);
      }
      if Contains(s[1..], sub) {
        var j :| OccursAt(s[1..], sub, j);
        assert s[1..][j..j + |sub|] == s[j + 1..j + 1 + |sub|];
        assert OccursAt(s, sub, j + 1);
      }
    }
  }

  // ---------------------------------------------------------------------------
  // Vec<String>::join and the comma-separated list of a header value

  /** `xs.join(sep)`. */
  function Join(xs: seq<string>, sep: string): string
  {
    if |xs| == 0 then "" else if |xs| == 1 then xs[0] else xs[0] + sep + Join(xs[1..], sep)
  }

  /** Splits at every `d`; there is always at least one piece. */
  function Split(s: string, d: char): (parts: seq<string>)
    ensures |parts| >= 1
  {
    if s == [] then [""]
    else
      var rest := Split(s[1..], d);
      if s[0] == d then [""] + rest else [[s[0]] + rest[0]] + rest[1..]
  }

  predicate IsOws(c: char) {
    c == ' ' || c == '\t'
  }

  function TrimLeadingOws(s: string): string
  {
    if s != [] && IsOws(s[0]) then TrimLeadingOws(s[1..]) else s
  }

  function TrimAll(xs: seq<string>): (ys: seq<string>)
    ensures |ys| == |xs|
  {
    if xs == [] then [] else [TrimLeadingOws(xs[0])] + TrimAll(xs[1..])
  }

  /** The elements of a comma-separated header list: the pieces between commas, leading whitespace removed. */
  function ListElements(s: string): seq<string>
  {
    TrimAll(Split(s, ','))
  }

  lemma {:induction false} SplitNoDelimiter(a: string, d: char)
    requires d !in a
    ensures Split(a, d) == [a]
  {
    if a != [] {
      SplitNoDelimiter(a[1..], d);
      assert [a[0]] + a[1..] == a;
    }
  }

  lemma {:induction false} SplitAtDelimiter(a: string, d: char, b: string)
    requires d !in a
    ensures Split(a + [d] + b, d) == [a] + Split(b, d)
  {
    if a == [] {
      assert a + [d] + b == [d] + b;
      assert ([d] + b)[1..] == b;
    } else {
      var s := a + [d] + b;
      assert s[1..] == a[1..] + [d] + b;
      SplitAtDelimiter(a[1..], d, b);
      assert [a[0]] + a[1..] == a;
    }
  }

  predicate IsListElement(x: string) {
    ',' !in x && (x == [] || !IsOws(x[0]))
  }

  /** Joining with ", " and reading the list back gives the same elements, in the same order. */
  lemma {:induction false} ListElementsOfJoin(xs: seq<string>)
    requires |xs| >= 1
    requires forall i | 0 <= i < |xs| :: IsListElement(xs[i])
    ensures ListElements(Join(xs, ", ")) == xs
  {
    assert TrimLeadingOws(xs[0]) == xs[0];
    if |xs| == 1 {
      SplitNoDelimiter(xs[0], ',');
    } else {
      var rest := Join(xs[1..], ", ");
      assert Join(xs, ", ") == xs[0] + [','] + (" " + rest);
      SplitAtDelimiter(xs[0], ',', " " + rest);
      ListElementsOfJoin(xs[1..]);
      var tail := Split(" " + rest, ',');
      var inner := Split(rest, ',');
      assert (" " + rest)[1..] == rest;
      assert tail == [" " + inner[0]] + inner[1..];
      assert TrimLeadingOws(" " + inner[0]) == TrimLeadingOws(inner[0]);
      assert TrimAll(tail) == [TrimLeadingOws(inner[0])] + TrimAll(inner[1..]);
      assert TrimAll(inner) == [TrimLeadingOws(inner[0])] + TrimAll(inner[1..]);
      assert TrimAll([xs[0]] + tail) == [xs[0]] + TrimAll(tail);
    }
  }

  // ---------------------------------------------------------------------------
  // UTF-8, the byte form of a Rust `String`

  function Utf8Char(c: char): (b: seq<Byte>)
    ensures 1 <= |b| <= 4
    ensures |b| == 1 <==> c as int < 0x80
  {
    var n := c as int;
    if n < 0x80 then [n]
    else if n < 0x800 then [0xC0 + n / 0x40, 0x80 + n % 0x40]
    else if n < 0x10000 then [0xE0 + n / 0x1000, 0x80 + (n / 0x40) % 0x40, 0x80 + n % 0x40]
    else [0xF0 + n / 0x40000, 0x80 + (n / 0x1000) % 0x40, 0x80 + (n / 0x40) % 0x40, 0x80 + n % 0x40]
  }

  predicate IsAscii(s: string) {
    forall i | 0 <= i < |s| :: s[i] as int < 0x80
  }

  /** The UTF-8 bytes of `s`: never fewer bytes than characters. */
  function Utf8(s: string): (b: seq<Byte>)
    ensures |b| >= |s|
  {
    if s == [] then [] else Utf8Char(s[0]) + Utf8(s[1..])
  }

  /** ASCII text is encoded one byte per character, each byte the character's code. */
  lemma {:induction false} Utf8Ascii(s: string)
    requires IsAscii(s)
    ensures |Utf8(s)| == |s| && forall i | 0 <= i < |s| :: Utf8(s)[i] == s[i] as int
  {
    if s != [] {
      Utf8Ascii(s[1..]);
    }
  }
}
