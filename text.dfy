/**
 * The JavaScript string operations the client relies on: `trim`, the
 * trailing-slash regex `/\/$/`, `startsWith`, decimal text of integers,
 * `parseInt(s, 10)`, `encodeURIComponent` and `localeCompare` (modelled as an
 * ordinal, character-code comparison).
 */
module Text {
  import opened Common

  /** WhiteSpace and LineTerminator code points, the set `String.prototype.trim` removes. */
  predicate IsJsWhitespace(c: char) {
    c == '\U{9}' || c == '\U{A}' || c == '\U{B}' || c == '\U{C}' || c == '\U{D}' || c == ' '
    || c == '\U{A0}' || c == '\U{1680}' || ('\U{2000}' <= c <= '\U{200A}')
    || c == '\U{2028}' || c == '\U{2029}' || c == '\U{202F}' || c == '\U{205F}'
    || c == '\U{3000}' || c == '\U{FEFF}'
  }

  predicate AllWhitespace(s: string) {
    forall k :: 0 <= k < |s| ==> IsJsWhitespace(s[k])
  }

  /** Drops leading whitespace: the result is a suffix of `s` and only whitespace was dropped. */
  function TrimStart(s: string): (r: string)
    ensures |r| <= |s| && r == s[|s| - |r|..]
    ensures r == [] || !IsJsWhitespace(r[0])
    ensures AllWhitespace(s[..|s| - |r|])
  {
    if |s| > 0 && IsJsWhitespace(s[0]) then TrimStart(s[1..]) else s
  }

  /** Drops trailing whitespace: the result is a prefix of `s` and only whitespace was dropped. */
  function TrimEnd(s: string): (r: string)
    ensures |r| <= |s| && r == s[..|r|]
    ensures r == [] || !IsJsWhitespace(r[|r| - 1])
    ensures AllWhitespace(s[|r|..])
  {
    if |s| > 0 && IsJsWhitespace(s[|s| - 1]) then
      var t := s[..|s| - 1];
      var r := TrimEnd(t);
      assert s[|r|..] == t[|r|..] + [s[|s| - 1]];
      r
    else s
  }

  /** `r` is a slice of `s` with only whitespace before it and after it. */
  predicate InnerSliceOf(r: string, s: string) {
    exists i :: 0 <= i && i + |r| <= |s| && r == s[i..i + |r|] && AllWhitespace(s[..i]) && AllWhitespace(s[i + |r|..])
  }

  /**
   * `s.trim()`: the slice of `s` left once the whitespace before and after
   * it is dropped, its own ends being non-whitespace.
   */
  function Trim(s: string): (r: string)
    ensures r == [] || (!IsJsWhitespace(r[0]) && !IsJsWhitespace(r[|r| - 1]))
    ensures |r| <= |s|
    ensures InnerSliceOf(r, s)
  {
    TrimEndOfTrimStart(s);
    TrimEnd(TrimStart(s))
  }

  /** Dropping whitespace from the front and then from the back leaves an inner slice with non-blank ends. */
  lemma TrimEndOfTrimStart(s: string)
    ensures var r := TrimEnd(TrimStart(s));
      && (r == [] || (!IsJsWhitespace(r[0]) && !IsJsWhitespace(r[|r| - 1])))
      && |r| <= |s|
      && InnerSliceOf(r, s)
  {
    var t := TrimStart(s);
    var r := TrimEnd(t);
    assert r == [] || !IsJsWhitespace(r[0]) by {
      if r != [] {
        assert r[0] == t[0];
      }
    }
    assert InnerSliceOf(r, s) by {
      InnerSlice(s, t, r);
    }
  }

  /**
   * Dropping whitespace from the front of `s` to get `t`, then from the
   * back of `t` to get `r`, leaves `r` as a slice of `s` with only
   * whitespace on either side.
   */
  lemma InnerSlice(s: string, t: string, r: string)
    requires |t| <= |s| && t == s[|s| - |t|..] && AllWhitespace(s[..|s| - |t|])
    requires |r| <= |t| && r == t[..|r|] && AllWhitespace(t[|r|..])
    ensures InnerSliceOf(r, s)
  {
    var i := |s| - |t|;
    assert s[i + |r|..] == t[|r|..];
    assert r == s[i..i + |r|];
  }

  lemma {:induction false} TrimStartEmptyIffBlank(s: string)
    ensures TrimStart(s) == [] <==> AllWhitespace(s)
  {
    if s != [] && IsJsWhitespace(s[0]) {
      TrimStartEmptyIffBlank(s[1..]);
      assert AllWhitespace(s) <==> AllWhitespace(s[1..]) by {
        assert forall k :: 0 < k < |s| ==> s[k] == s[1..][k - 1];
      }
    }
  }

  /** A string trims to the empty string exactly when it is blank. */
  lemma TrimEmptyIffBlank(s: string)
    ensures Trim(s) == [] <==> AllWhitespace(s)
  {
    TrimStartEmptyIffBlank(s);
  }

  /** Trimming twice is trimming once. */
  lemma TrimIdempotent(s: string)
    ensures Trim(Trim(s)) == Trim(s)
  {
    var r := Trim(s);
    assert TrimStart(r) == r;
    assert TrimEnd(r) == r;
  }

  /** `s.replace(/\/$/, '')`: drops one final '/', if there is one. */
  function StripTrailingSlash(s: string): (r: string)
    ensures s == r + "/" || r == s
    ensures r == s <==> (s == [] || s[|s| - 1] != '/')
  {
    if |s| > 0 && s[|s| - 1] == '/' then s[..|s| - 1] else s
  }

  /** Stripping changes nothing but the last character and never removes more than one. */
  lemma StripRemovesAtMostOneSlash(s: string)
    ensures |s| - 1 <= |StripTrailingSlash(s)| <= |s|
    ensures StripTrailingSlash(s) == s[..|StripTrailingSlash(s)|]
    ensures |s| >= 2 && s[|s| - 2..] == "//" ==> StripTrailingSlash(s) != StripTrailingSlash(StripTrailingSlash(s))
  {
    var r := StripTrailingSlash(s);
    if |s| >= 2 && s[|s| - 2..] == "//" {
      assert s[|s| - 1] == '/' && s[|s| - 2] == '/';
      assert r == s[..|s| - 1] && r[|r| - 1] == '/';
    }
  }

  /** A string whose last character is not '/' is left alone by a second strip. */
  lemma StripIdempotentWithoutDoubleSlash(s: string)
    requires |s| < 2 || s[|s| - 2..] != "//"
    ensures StripTrailingSlash(StripTrailingSlash(s)) == StripTrailingSlash(s)
  {
    var r := StripTrailingSlash(s);
    if r != s && |r| > 0 {
      assert s[|s| - 2..] == [r[|r| - 1], '/'];
    }
  }

  predicate StartsWith(s: string, prefix: string) {
    prefix <= s
  }

  // ---------------------------------------------------------------------------
  // Decimal text of integers and parseInt(s, 10)

  predicate IsDigit(c: char) { '0' <= c <= '9' }

  function DigitChar(d: nat): (c: char)
    requires d < 10
    ensures IsDigit(c) && (c as int) - ('0' as int) == d
  {
    ['0', '1', '2', '3', '4', '5', '6', '7', '8', '9'][d]
  }

  /** The decimal text of `n`, without leading zeros (`String(n)` for a non-negative integer). */
  function NatToString(n: nat): (s: string)
    ensures |s| > 0 && forall k :: 0 <= k < |s| ==> IsDigit(s[k])
    ensures s[0] == '0' ==> n == 0 && s == "0"
  {
    if n < 10 then [DigitChar(n)] else NatToString(n / 10) + [DigitChar(n % 10)]
  }

  /** `String(i)` for an integer. */
  function IntToString(i: int): (s: string)
    ensures |s| > 0
    ensures i >= 0 ==> s == NatToString(i)
    ensures i < 0 ==> s == "-" + NatToString(-i)
  {
    if i >= 0 then NatToString(i) else "-" + NatToString(-i)
  }

  /** Value of a string of decimal digits, most significant first. */
  function DigitsValue(ds: string): nat
    requires forall k :: 0 <= k < |ds| ==> IsDigit(ds[k])
  {
    if ds == [] then 0
    else
      var last := ds[|ds| - 1];
      assert IsDigit(last);
      DigitsValue(ds[..|ds| - 1]) * 10 + ((last as int) - ('0' as int))
  }

  /** The longest prefix of `s` made of decimal digits. */
  function LeadingDigits(s: string): (ds: string)
    ensures ds <= s
    ensures forall k :: 0 <= k < |ds| ==> IsDigit(s[k])
    ensures |ds| == |s| || !IsDigit(s[|ds|])
  {
    if s != [] && IsDigit(s[0]) then [s[0]] + LeadingDigits(s[1..]) else []
  }

  /**
   * `parseInt(s, 10)`: skips leading whitespace, reads an optional sign and
   * then as many decimal digits as there are; `None` stands for NaN (no digit).
   */
  function ParseInt(s: string): (r: Option<int>)
    ensures r.None? <==> LeadingDigits(UnsignedPart(TrimStart(s))) == []
  {
    var t := TrimStart(s);
    var ds := LeadingDigits(UnsignedPart(t));
    if ds == [] then None
    else if t != [] && t[0] == '-' then Some(0 - DigitsValue(ds) as int)
    else Some(DigitsValue(ds))
  }

  function UnsignedPart(t: string): string {
    if t != [] && (t[0] == '-' || t[0] == '+') then t[1..] else t
  }

  /** Reading back the decimal text of a natural number yields that number. */
  lemma {:induction false} DigitsValueOfNatToString(n: nat)
    ensures DigitsValue(NatToString(n)) == n
  {
    var s := NatToString(n);
    if n >= 10 {
      assert s[..|s| - 1] == NatToString(n / 10);
      DigitsValueOfNatToString(n / 10);
    }
  }

  lemma {:induction false} LeadingDigitsOfDigits(ds: string)
    requires forall k :: 0 <= k < |ds| ==> IsDigit(ds[k])
    ensures LeadingDigits(ds) == ds
  {
    if ds != [] {
      LeadingDigitsOfDigits(ds[1..]);
    }
  }

  /** `parseInt(String(i), 10) == i`: the integer parser inverts the integer printer. */
  lemma ParseIntOfIntToString(i: int)
    ensures ParseInt(IntToString(i)) == Some(i)
  {
    var s := IntToString(i);
    var digits := if i >= 0 then NatToString(i) else NatToString(-i);
    assert TrimStart(s) == s by {
      assert !IsJsWhitespace(s[0]);
    }
    assert UnsignedPart(s) == digits;
    LeadingDigitsOfDigits(digits);
    DigitsValueOfNatToString(if i >= 0 then i else -i);
  }

  // ---------------------------------------------------------------------------
  // encodeURIComponent

  /** The characters encodeURIComponent leaves as they are. */
  predicate IsUnreserved(c: char) {
    ('A' <= c <= 'Z') || ('a' <= c <= 'z') || IsDigit(c)
    || c == '-' || c == '_' || c == '.' || c == '!' || c == '~' || c == '*' || c == '\'' || c == '(' || c == ')'
  }

  predicate IsUpperHex(c: char) { IsDigit(c) || ('A' <= c <= 'F') }

  /** Characters that may appear in the output of encodeURIComponent. */
  predicate IsEncodedChar(c: char) { IsUnreserved(c) || c == '%' }

  function HexDigit(d: nat): (c: char)
    requires d < 16
    ensures IsUpperHex(c)
  {
    ['0', '1', '2', '3', '4', '5', '6', '7', '8', '9', 'A', 'B', 'C', 'D', 'E', 'F'][d]
  }

  /** The UTF-8 encoding of one code point. */
  function Utf8(cp: nat): (bytes: seq<nat>)
    requires cp < 0x110000
    ensures 1 <= |bytes| <= 4
    ensures forall k :: 0 <= k < |bytes| ==> bytes[k] < 256
  {
    if cp < 0x80 then [cp]
    else if cp < 0x800 then [0xC0 + cp / 64, 0x80 + cp % 64]
    else if cp < 0x10000 then [0xE0 + cp / 4096, 0x80 + (cp / 64) % 64, 0x80 + cp % 64]
    else [0xF0 + cp / 262144, 0x80 + (cp / 4096) % 64, 0x80 + (cp / 64) % 64, 0x80 + cp % 64]
  }

  /** `%XY` for every byte. */
  function PercentBytes(bytes: seq<nat>): (r: string)
    requires forall k :: 0 <= k < |bytes| ==> bytes[k] < 256
    ensures |r| == 3 * |bytes|
    ensures forall k :: 0 <= k < |r| ==> r[k] == '%' || IsUpperHex(r[k])
  {
    if bytes == [] then []
    else ['%', HexDigit(bytes[0] / 16), HexDigit(bytes[0] % 16)] + PercentBytes(bytes[1..])
  }

  /**
   * `encodeURIComponent(s)`: unreserved characters are kept and every other
   * character becomes the percent-escapes of its UTF-8 bytes. The result can
   * never contain a character with meaning in a URL (`/`, `?`, `&`, `=`, `#`, ...).
   */
  function EncodeUriComponent(s: string): (r: string)
    ensures forall k :: 0 <= k < |r| ==> IsEncodedChar(r[k])
    ensures |r| >= |s|
  {
    if s == [] then []
    else
      var head := if IsUnreserved(s[0]) then [s[0]] else PercentBytes(Utf8(s[0] as int));
      head + EncodeUriComponent(s[1..])
  }

  /** Unreserved text passes through encodeURIComponent unchanged. */
  lemma {:induction false} EncodeUnreservedIsIdentity(s: string)
    requires forall k :: 0 <= k < |s| ==> IsUnreserved(s[k])
    ensures EncodeUriComponent(s) == s
  {
    if s != [] {
      EncodeUnreservedIsIdentity(s[1..]);
    }
  }

  /**
   * An encoded component between two fixed pieces of a URL: everything
   * between them is encoded text, and unreserved text stands as it is.
   */
  lemma EncodedBetween(head: string, s: string, tail: string)
    ensures var u := head + EncodeUriComponent(s) + tail;
      head <= u && |head| + |tail| <= |u| && u[|u| - |tail|..] == tail
      && forall k :: |head| <= k < |u| - |tail| ==> IsEncodedChar(u[k])
    ensures (forall k :: 0 <= k < |s| ==> IsUnreserved(s[k])) ==> head + EncodeUriComponent(s) + tail == head + s + tail
  {
    var enc := EncodeUriComponent(s);
    var u := head + enc + tail;
    assert forall k :: |head| <= k < |u| - |tail| ==> u[k] == enc[k - |head|];
    assert u[|u| - |tail|..] == tail;
    if forall k :: 0 <= k < |s| ==> IsUnreserved(s[k]) {
      EncodeUnreservedIsIdentity(s);
    }
  }

  // ---------------------------------------------------------------------------
  // localeCompare, modelled as ordinal comparison of character codes

  /** `a.localeCompare(b)` as -1, 0 or 1, comparing character codes lexicographically. */
  function LocaleCompare(a: string, b: string): (r: int)
    ensures -1 <= r <= 1
    ensures r == 0 <==> a == b
  {
    if a == [] then (if b == [] then 0 else -1)
    else if b == [] then 1
    else if a[0] < b[0] then -1
    else if a[0] > b[0] then 1
    else
      var r := LocaleCompare(a[1..], b[1..]);
      assert r == 0 ==> a == [a[0]] + a[1..] == [b[0]] + b[1..] == b;
      r
  }

  /** Swapping the operands negates the comparison. */
  lemma {:induction false} LocaleCompareAntisymmetric(a: string, b: string)
    ensures LocaleCompare(b, a) == -LocaleCompare(a, b)
  {
    if a != [] && b != [] && a[0] == b[0] {
      LocaleCompareAntisymmetric(a[1..], b[1..]);
    }
  }

  /** The comparison is transitive, so it orders strings totally. */
  lemma {:induction false} LocaleCompareTransitive(a: string, b: string, c: string)
    requires LocaleCompare(a, b) <= 0 && LocaleCompare(b, c) <= 0
    ensures LocaleCompare(a, c) <= 0
  {
    if a != [] && b != [] && c != [] && a[0] == b[0] && b[0] == c[0] {
      LocaleCompareTransitive(a[1..], b[1..], c[1..]);
    }
  }
}
