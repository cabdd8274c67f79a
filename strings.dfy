/** The string primitives the services and the screens rely on: ASCII case mapping (Java's
    `toUpperCase`/`equalsIgnoreCase` on the role and status names), decimal rendering
    (`String.valueOf`, `%d`, the badge count), JavaScript's `trim` and `parseInt`. */
module Strings {
  import opened Wrappers

  // ---------------------------------------------------------------------------
  // Case mapping
  // ---------------------------------------------------------------------------

  predicate IsAsciiLower(c: char) {
    'a' <= c <= 'z'
  }

  function UpperChar(c: char): char {
    if IsAsciiLower(c) then (c as int - 32) as char else c
  }

  /** `s.toUpperCase()` restricted to ASCII letters. */
  function ToUpper(s: string): (r: string)
    ensures |r| == |s|
    ensures forall i :: 0 <= i < |s| ==> r[i] == UpperChar(s[i])
  {
    seq(|s|, i requires 0 <= i < |s| => UpperChar(s[i]))
  }

  /** A string with no lower-case ASCII letter, such as the name of an enum constant. */
  predicate IsUpperCase(s: string) {
    forall i :: 0 <= i < |s| ==> !IsAsciiLower(s[i])
  }

  /** `a.equalsIgnoreCase(b)` for non-null `a` and `b`. */
  predicate EqualsIgnoreCase(a: string, b: string) {
    ToUpper(a) == ToUpper(b)
  }

  /** `literal.equalsIgnoreCase(s)`: false when `s` is null. */
  predicate LiteralEqualsIgnoreCase(literal: string, s: Option<string>) {
    s.Some? && EqualsIgnoreCase(literal, s.value)
  }

  /** Upper-casing leaves an upper-case string as it is. */
  lemma {:induction false} ToUpperOfUpperCase(s: string)
    requires IsUpperCase(s)
    ensures ToUpper(s) == s
  {
    assert forall i :: 0 <= i < |s| ==> ToUpper(s)[i] == s[i];
  }

  /** Matching the upper-cased input against an upper-case name is matching it ignoring case. */
  lemma {:induction false} UpperMatchIsCaseInsensitive(s: string, name: string)
    requires IsUpperCase(name)
    ensures ToUpper(s) == name <==> EqualsIgnoreCase(s, name)
  {
    ToUpperOfUpperCase(name);
  }

  // ---------------------------------------------------------------------------
  // Decimal digits
  // ---------------------------------------------------------------------------

  predicate IsDigit(c: char) {
    '0' <= c <= '9'
  }

  predicate AllDigits(s: string) {
    forall i :: 0 <= i < |s| ==> IsDigit(s[i])
  }

  function DigitChar(d: nat): (c: char)
    requires d < 10
    ensures IsDigit(c)
  {
    ('0' as int + d) as char
  }

  function DigitValue(c: char): nat
    requires IsDigit(c)
  {
    c as int - '0' as int
  }

  /** The number a string of decimal digits denotes (most significant digit first). */
  function DecValue(s: string): nat
    requires AllDigits(s)
  {
    if s == [] then 0 else DecValue(s[..|s| - 1]) * 10 + DigitValue(s[|s| - 1])
  }

  /** `String.valueOf(n)` for a non-negative `n`: at least one character, all of them digits. */
  function NatToString(n: nat): (s: string)
    ensures |s| >= 1 && AllDigits(s)
  {
    if n < 10 then [DigitChar(n)] else NatToString(n / 10) + [DigitChar(n % 10)]
  }

  /** `String.valueOf(i)` / `%d` for any integer. */
  function IntToString(i: int): (s: string)
    ensures i >= 0 ==> AllDigits(s)
    ensures i < 0 ==> |s| >= 2 && s[0] == '-' && AllDigits(s[1..])
  {
    if i < 0 then "-" + NatToString(-i) else NatToString(i)
  }

  /** Reading back what NatToString wrote gives the number again. */
  lemma {:induction false} DecValueOfNatToString(n: nat)
    ensures DecValue(NatToString(n)) == n
  {
    if n >= 10 {
      var s := NatToString(n / 10);
      var t := NatToString(n);
      assert t == s + [DigitChar(n % 10)];
      assert t[..|t| - 1] == s;
      DecValueOfNatToString(n / 10);
    }
  }

  function Pow10(k: nat): (p: nat)
    ensures p >= 1
  {
    if k == 0 then 1 else 10 * Pow10(k - 1)
  }

  /** A number in [10^k, 10^(k+1)) is written with exactly k + 1 digits. */
  lemma {:induction false} NatToStringLength(n: nat, k: nat)
    requires Pow10(k) <= n < Pow10(k + 1)
    ensures |NatToString(n)| == k + 1
  {
    if k > 0 {
      assert Pow10(k) == 10 * Pow10(k - 1);
      assert Pow10(k + 1) == 10 * Pow10(k);
      assert Pow10(k - 1) <= n / 10 < Pow10(k);
      NatToStringLength(n / 10, k - 1);
    }
  }

  // ---------------------------------------------------------------------------
  // JavaScript String.prototype.trim
  // ---------------------------------------------------------------------------

  /** ECMAScript WhiteSpace and LineTerminator code points (what `trim` and `parseInt` skip). */
  predicate IsJsSpace(c: char) {
    || c == ' ' || c == '\t' || c == '\n' || c == '\r'
    || c == '\U{B}' || c == '\U{C}' || c == '\U{A0}' || c == '\U{1680}'
    || ('\U{2000}' <= c <= '\U{200A}')
    || c == '\U{2028}' || c == '\U{2029}' || c == '\U{202F}' || c == '\U{205F}'
    || c == '\U{3000}' || c == '\U{FEFF}'
  }

  /** Removes the maximal run of leading white space: what is dropped is all white space
      and what is kept does not start with white space. */
  function TrimStart(s: string): (r: string)
    ensures |r| <= |s| && r == s[|s| - |r|..]
    ensures forall i :: 0 <= i < |s| - |r| ==> IsJsSpace(s[i])
    ensures r == [] || !IsJsSpace(r[0])
  {
    if s != [] && IsJsSpace(s[0]) then TrimStart(s[1..]) else s
  }

  /** Removes the maximal run of trailing white space. */
  function TrimEnd(s: string): (r: string)
    ensures |r| <= |s| && r == s[..|r|]
    ensures forall i :: |r| <= i < |s| ==> IsJsSpace(s[i])
    ensures r == [] || !IsJsSpace(r[|r| - 1])
  {
    if s != [] && IsJsSpace(s[|s| - 1]) then TrimEnd(s[..|s| - 1]) else s
  }

  /** `s.trim()`. */
  function Trim(s: string): string {
    TrimEnd(TrimStart(s))
  }

  /** A trimmed string neither starts nor ends with white space, and trimming it again changes nothing. */
  lemma {:induction false} TrimIsNormal(s: string)
    ensures var t := Trim(s); t == [] || (!IsJsSpace(t[0]) && !IsJsSpace(t[|t| - 1]))
    ensures Trim(Trim(s)) == Trim(s)
  {
    var a := TrimStart(s);
    var t := TrimEnd(a);
    if t != [] {
      assert t[0] == a[0];
    }
    assert TrimStart(t) == t;
    assert TrimEnd(t) == t;
  }

  // ---------------------------------------------------------------------------
  // JavaScript parseInt(text) with the default radix
  // ---------------------------------------------------------------------------

  /** The length of the run of decimal digits that starts `s`. */
  function LeadingDigits(s: string): (k: nat)
    ensures k <= |s| && AllDigits(s[..k])
    ensures k < |s| ==> !IsDigit(s[k])
  {
    if s != [] && IsDigit(s[0]) then 1 + LeadingDigits(s[1..]) else 0
  }

  /** `parseInt(s)`: skip leading white space, read an optional sign and the longest run of
      decimal digits; no digit at all gives NaN, modelled as None. */
  function ParseInt(s: string): Option<int> {
    var t := TrimStart(s);
    var signed := |t| > 0 && (t[0] == '-' || t[0] == '+');
    var body := if signed then t[1..] else t;
    var k := LeadingDigits(body);
    var magnitude: int := if k == 0 then 0 else DecValue(body[..k]);
    if k == 0 then None
    else if signed && t[0] == '-' then Some(-magnitude)
    else Some(magnitude)
  }

  /** `parseInt(s) || 0`: NaN (and zero) become 0, so the result is always a number. */
  function ParseIntOrZero(s: string): int {
    ParseInt(s).GetOr(0)
  }

  predicate AllJsSpace(s: string) {
    forall i :: 0 <= i < |s| ==> IsJsSpace(s[i])
  }

  /** Leading white space is skipped up to the first other character. */
  lemma {:induction false} TrimStartSkips(ws: string, t: string)
    requires AllJsSpace(ws)
    requires t == [] || !IsJsSpace(t[0])
    ensures TrimStart(ws + t) == t
    decreases |ws|
  {
    if ws == [] {
      assert ws + t == t;
    } else {
      assert (ws + t)[1..] == ws[1..] + t;
      TrimStartSkips(ws[1..], t);
    }
  }

  /** The digit run at the front of `ds + rest` is `ds` when `rest` does not go on with a digit. */
  lemma {:induction false} LeadingDigitsOf(ds: string, rest: string)
    requires AllDigits(ds)
    requires rest == [] || !IsDigit(rest[0])
    ensures LeadingDigits(ds + rest) == |ds|
    decreases |ds|
  {
    if ds == [] {
      assert ds + rest == rest;
    } else {
      assert (ds + rest)[1..] == ds[1..] + rest;
      LeadingDigitsOf(ds[1..], rest);
    }
  }

  /** `n` with the sign parseInt read in front of its digits. */
  function Signed(sign: string, n: nat): int {
    if sign == "-" then -(n as int) else n
  }

  /** parseInt skips leading white space, reads an optional sign and the digits after it, and
      ignores whatever follows them: "  12 slots" is 12, "-3" is -3. */
  lemma {:induction false} ParseIntReadsNumber(ws: string, sign: string, ds: string, rest: string)
    requires AllJsSpace(ws)
    requires sign == "" || sign == "-" || sign == "+"
    requires |ds| > 0 && AllDigits(ds)
    requires rest == [] || !IsDigit(rest[0])
    ensures ParseInt(ws + sign + ds + rest) == Some(Signed(sign, DecValue(ds)))
    ensures ParseIntOrZero(ws + sign + ds + rest) == Signed(sign, DecValue(ds))
  {
    var t := sign + (ds + rest);
    assert ws + sign + ds + rest == ws + t;
    assert t[0] == (if sign == "" then ds[0] else sign[0]);
    assert IsDigit(ds[0]);
    TrimStartSkips(ws, t);
    LeadingDigitsOf(ds, rest);
    assert (ds + rest)[..|ds|] == ds;
    ParseIntFromTrimmed(ws + t, sign, ds + rest, |ds|);
  }

  /** parseInt once the white space is gone: the sign, then the `k` leading digits. */
  lemma {:induction false} ParseIntFromTrimmed(s: string, sign: string, body: string, k: nat)
    requires sign == "" || sign == "-" || sign == "+"
    requires TrimStart(s) == sign + body
    requires 0 < k <= |body| && LeadingDigits(body) == k
    ensures ParseInt(s) == Some(Signed(sign, DecValue(body[..k])))
  {
    assert IsDigit(body[0]) by {
      assert body[..k][0] == body[0];
    }
    SignedBody(sign + body, sign, body);
  }

  /** What parseInt reads from the text left after white space: the optional sign, then the
      leading digits of what follows it. */
  lemma {:induction false} SignedBody(t: string, sign: string, body: string)
    requires t == sign + body
    requires sign == "" || sign == "-" || sign == "+"
    requires body != [] && IsDigit(body[0])
    ensures var signed := |t| > 0 && (t[0] == '-' || t[0] == '+');
            && signed == (sign != "")
            && (if signed then t[1..] else t) == body
            && (signed && t[0] == '-' <==> sign == "-")
  {
    if sign != "" {
      assert t[0] == sign[0] && t[1..] == body;
    }
  }

  /** Without a digit after the white space and the optional sign, parseInt is NaN and
      `parseInt(s) || 0` is 0: "abc", "", "  " and "-x" all give 0. */
  lemma {:induction false} ParseIntWithoutDigits(ws: string, sign: string, rest: string)
    requires AllJsSpace(ws)
    requires sign == "" || sign == "-" || sign == "+"
    requires rest == [] || !IsDigit(rest[0])
    requires sign == "" && rest != [] ==> !IsJsSpace(rest[0]) && rest[0] != '-' && rest[0] != '+'
    ensures ParseInt(ws + sign + rest) == None
    ensures ParseIntOrZero(ws + sign + rest) == 0
  {
    var t := sign + rest;
    assert ws + sign + rest == ws + t;
    TrimStartSkips(ws, t);
    assert (if sign == "" then t else t[1..]) == rest;
  }

  /** parseInt of a non-empty string of decimal digits is the number they denote. */
  lemma {:induction false} ParseIntOfDigits(s: string)
    requires |s| > 0 && AllDigits(s)
    ensures ParseInt(s) == Some(DecValue(s))
    ensures ParseIntOrZero(s) == DecValue(s)
  {
    assert IsDigit(s[0]);
    assert !IsJsSpace(s[0]) && s[0] != '-' && s[0] != '+';
    assert TrimStart(s) == s;
    AllDigitsLeading(s);
    assert s[..|s|] == s;
  }

  /** parseInt reads back any number written by NatToString. */
  lemma {:induction false} ParseIntOfNatToString(n: nat)
    ensures ParseInt(NatToString(n)) == Some(n)
    ensures ParseIntOrZero(NatToString(n)) == n
  {
    ParseIntOfDigits(NatToString(n));
    DecValueOfNatToString(n);
  }

  lemma {:induction false} AllDigitsLeading(s: string)
    requires AllDigits(s)
    ensures LeadingDigits(s) == |s|
  {
    if s != [] {
      AllDigitsLeading(s[1..]);
    }
  }
}
