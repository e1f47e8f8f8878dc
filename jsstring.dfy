/**
 * The few JavaScript string built-ins the storefront relies on:
 * `toUpperCase`, `trim`, `Number.prototype.toString(radix)` and the
 * digit reading needed to show that those renderings can be read back.
 */
module JsString {

  /** Characters `String.prototype.trim` removes: WhiteSpace and LineTerminator. */
  predicate IsWhiteSpace(c: char) {
    c == '\t' || c == '\n' || c == '\U{000B}' || c == '\U{000C}' || c == '\r' ||
    c == ' ' || c == '\U{00A0}' || c == '\U{1680}' ||
    ('\U{2000}' <= c <= '\U{200A}') ||
    c == '\U{2028}' || c == '\U{2029}' || c == '\U{202F}' || c == '\U{205F}' ||
    c == '\U{3000}' || c == '\U{FEFF}'
  }

  predicate IsLowerAscii(c: char) { 'a' <= c <= 'z' }

  /** Upper-casing of one character, for the Basic Latin letters. */
  function UpperChar(c: char): (u: char)
    ensures IsLowerAscii(c) ==> 'A' <= u <= 'Z' && u as int == c as int - 32
    ensures !IsLowerAscii(c) ==> u == c
  {
    if IsLowerAscii(c) then (c as int - 32) as char else c
  }

  /** `s.toUpperCase()` */
  function ToUpper(s: string): (r: string)
    ensures |r| == |s|
    ensures forall i :: 0 <= i < |s| ==> r[i] == UpperChar(s[i])
  {
    seq(|s|, i requires 0 <= i < |s| => UpperChar(s[i]))
  }

  lemma ToUpperIdempotent(s: string)
    ensures ToUpper(ToUpper(s)) == ToUpper(s)
  {
  }

  lemma ToUpperConcat(a: string, b: string)
    ensures ToUpper(a + b) == ToUpper(a) + ToUpper(b)
  {
  }

  function TrimStart(s: string): (r: string)
    ensures |r| <= |s| && r == s[|s| - |r|..]
    ensures r != [] ==> !IsWhiteSpace(r[0])
    ensures forall i :: 0 <= i < |s| - |r| ==> IsWhiteSpace(s[i])
  {
    if |s| > 0 && IsWhiteSpace(s[0]) then TrimStart(s[1..]) else s
  }

  function TrimEnd(s: string): (r: string)
    ensures |r| <= |s| && r == s[..|r|]
    ensures r != [] ==> !IsWhiteSpace(r[|r| - 1])
    ensures forall i :: |r| <= i < |s| ==> IsWhiteSpace(s[i])
  {
    if |s| > 0 && IsWhiteSpace(s[|s| - 1]) then TrimEnd(s[..|s| - 1]) else s
  }

  /**
   * `s.trim()`: the result is a contiguous slice of `s` that neither
   * starts nor ends with white space, and everything cut off is white space.
   */
  function Trim(s: string): (r: string)
    ensures exists i, j :: 0 <= i <= j <= |s| && r == s[i..j] &&
                      (forall k :: 0 <= k < i ==> IsWhiteSpace(s[k])) &&
                      (forall k :: j <= k < |s| ==> IsWhiteSpace(s[k]))
    ensures r != [] ==> !IsWhiteSpace(r[0]) && !IsWhiteSpace(r[|r| - 1])
  {
    var t := TrimStart(s);
    var r := TrimEnd(t);
    assert r == s[|s| - |t|..|s| - |t| + |r|];
    r
  }

  /** A string that is only white space trims to the empty string, and only such a string does. */
  lemma TrimEmpty(s: string)
    ensures Trim(s) == [] <==> forall k :: 0 <= k < |s| ==> IsWhiteSpace(s[k])
  {
    if forall k :: 0 <= k < |s| ==> IsWhiteSpace(s[k]) {
      AllWhiteTrimStart(s);
    }
  }

  lemma {:induction false} AllWhiteTrimStart(s: string)
    requires forall k :: 0 <= k < |s| ==> IsWhiteSpace(s[k])
    ensures TrimStart(s) == []
  {
    if |s| > 0 {
      AllWhiteTrimStart(s[1..]);
    }
  }

  lemma {:induction false} TrimStartFixed(s: string)
    requires s != [] ==> !IsWhiteSpace(s[0])
    ensures TrimStart(s) == s
  {
  }

  lemma {:induction false} TrimEndFixed(s: string)
    requires s != [] ==> !IsWhiteSpace(s[|s| - 1])
    ensures TrimEnd(s) == s
  {
  }

  /** Trimming twice is trimming once. */
  lemma TrimIdempotent(s: string)
    ensures Trim(Trim(s)) == Trim(s)
  {
    var r := Trim(s);
    TrimStartFixed(r);
    TrimEndFixed(r);
  }

  // ---- digits ---------------------------------------------------------

  predicate IsDecimalDigit(c: char) { '0' <= c <= '9' }

  /** The digit character that `toString(radix)` writes for `d`: "0" to "9", then "a" to "z". */
  function DigitChar(d: nat): (c: char)
    requires d < 36
    ensures d < 10 ==> IsDecimalDigit(c)
    ensures d >= 10 ==> IsLowerAscii(c)
    ensures d > 0 ==> c != '0'
  {
    if d < 10 then ('0' as int + d) as char else ('a' as int + d - 10) as char
  }

  /** The value of a digit character in any radix up to 36; 0 for anything else. */
  function DigitValue(c: char): (v: nat)
    ensures v < 36
  {
    if '0' <= c <= '9' then c as int - '0' as int
    else if 'a' <= c <= 'z' then c as int - 'a' as int + 10
    else if 'A' <= c <= 'Z' then c as int - 'A' as int + 10
    else 0
  }

  lemma DigitCharValue(d: nat)
    requires d < 36
    ensures DigitValue(DigitChar(d)) == d
    ensures DigitValue(UpperChar(DigitChar(d))) == d
    ensures DigitChar(d) != '.' && DigitChar(d) != '-'
  {
  }

  /** `n.toString(radix)` for a non-negative integer: most significant digit first, no leading zeros. */
  function NatToString(n: nat, radix: nat): (s: string)
    requires 2 <= radix <= 36
    ensures |s| > 0
    ensures forall i :: 0 <= i < |s| ==> IsDecimalDigit(s[i]) || IsLowerAscii(s[i])
    ensures forall i :: 0 <= i < |s| ==> DigitValue(s[i]) < radix
    ensures |s| == 1 <==> n < radix
    ensures |s| > 1 ==> s[0] != '0'
    decreases n
  {
    if n < radix then
      DigitCharValue(n);
      [DigitChar(n)]
    else
      DivMod(n, radix);
      DigitCharValue(n % radix);
      NatToString(n / radix, radix) + [DigitChar(n % radix)]
  }

  /** Reads a string of digits in the given radix, most significant first. */
  function RadixValue(s: string, radix: nat): nat
  {
    if s == [] then 0
    else RadixValue(s[..|s| - 1], radix) * radix + DigitValue(s[|s| - 1])
  }

  lemma RadixValueSnoc(p: string, c: char, radix: nat)
    ensures RadixValue(p + [c], radix) == RadixValue(p, radix) * radix + DigitValue(c)
  {
    assert (p + [c])[..|p + [c]| - 1] == p;
  }

  lemma DivMod(n: nat, radix: nat)
    requires 2 <= radix
    ensures (n / radix) * radix + n % radix == n
    ensures n % radix < radix
    ensures n >= radix ==> n / radix < n
  {
  }

  /** Reading back what `toString(radix)` wrote gives the number. */
  lemma {:induction false} NatToStringRoundTrip(n: nat, radix: nat)
    requires 2 <= radix <= 36
    ensures RadixValue(NatToString(n, radix), radix) == n
    decreases n
  {
    if n < radix {
      DigitCharValue(n);
      RadixValueSnoc([], DigitChar(n), radix);
      assert [] + [DigitChar(n)] == [DigitChar(n)];
    } else {
      var q, d := n / radix, n % radix;
      DivMod(n, radix);
      assert NatToString(n, radix) == NatToString(q, radix) + [DigitChar(d)];
      NatToStringRoundTrip(q, radix);
      DigitCharValue(d);
      RadixValueSnoc(NatToString(q, radix), DigitChar(d), radix);
    }
  }

  /** Upper-casing does not change the value of a digit string. */
  lemma {:induction false} RadixValueUpper(s: string, radix: nat)
    ensures RadixValue(ToUpper(s), radix) == RadixValue(s, radix)
    decreases |s|
  {
    if s != [] {
      var u := ToUpper(s);
      assert u[..|u| - 1] == ToUpper(s[..|s| - 1]);
      RadixValueUpper(s[..|s| - 1], radix);
    }
  }
}
