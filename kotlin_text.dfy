/**
 * The pieces of the Kotlin/JVM runtime the providers lean on: 64-bit and
 * 32-bit wrap-around, `Char.isWhitespace`, `trim`, `isBlank`, `lineSequence`,
 * `substringAfter`, `Long.toString` and `String.toLong`.
 * Strings are sequences of Unicode scalar values.
 */
module KotlinText {
  import opened Wrappers

  const LONG_MIN: int := -0x8000_0000_0000_0000
  const LONG_MAX: int := 0x7FFF_FFFF_FFFF_FFFF
  const INT_MIN: int := -0x8000_0000
  const INT_MAX: int := 0x7FFF_FFFF

  predicate IsLong(x: int) { LONG_MIN <= x <= LONG_MAX }
  predicate IsInt(x: int) { INT_MIN <= x <= INT_MAX }

  /** Two's-complement reduction of an integer into the range of `Long`. */
  function WrapLong(x: int): (r: int)
    ensures IsLong(r)
    ensures (r - x) % 0x1_0000_0000_0000_0000 == 0
    ensures IsLong(x) ==> r == x
  {
    (x - LONG_MIN) % 0x1_0000_0000_0000_0000 + LONG_MIN
  }

  /** Two's-complement reduction of an integer into the range of `Int`. */
  function WrapInt(x: int): (r: int)
    ensures IsInt(r)
    ensures (r - x) % 0x1_0000_0000 == 0
    ensures IsInt(x) ==> r == x
  {
    (x - INT_MIN) % 0x1_0000_0000 + INT_MIN
  }

  /** `a + b` on `Long` operands. */
  function AddLong(a: int, b: int): int { WrapLong(a + b) }

  /** `a - b` on `Long` operands. */
  function SubLong(a: int, b: int): int { WrapLong(a - b) }

  lemma {:induction false} AddLongNoOverflow(a: int, b: int)
    requires IsLong(a) && IsLong(b) && IsLong(a + b)
    ensures AddLong(a, b) == a + b && SubLong(a + b, a) == b
  {
  }

  // ---------------------------------------------------------------------
  // Characters

  /** Kotlin's `Char.isWhitespace()`: Java's `Character.isWhitespace` or `Character.isSpaceChar`. */
  predicate IsWhitespace(c: char) {
    c == ' ' || ('\t' <= c <= '\r') || ('\U{1C}' <= c <= '\U{1F}') ||
    c == '\U{A0}' || c == '\U{1680}' || ('\U{2000}' <= c <= '\U{200A}') ||
    c == '\U{2028}' || c == '\U{2029}' || c == '\U{202F}' || c == '\U{205F}' || c == '\U{3000}'
  }

  /** Java's regular-expression class `\d` (ASCII digits only). */
  predicate IsDigit(c: char) { '0' <= c <= '9' }

  function DigitValue(c: char): (d: nat)
    requires IsDigit(c)
    ensures d < 10
  {
    (c as int) - ('0' as int)
  }

  function DigitChar(d: nat): (c: char)
    requires d < 10
    ensures IsDigit(c) && DigitValue(c) == d
  {
    (('0' as int) + d) as char
  }

  predicate AllDigits(s: string) { forall i :: 0 <= i < |s| ==> IsDigit(s[i]) }

  // ---------------------------------------------------------------------
  // isBlank, trim

  /** `isBlank()`: empty or only whitespace. */
  predicate IsBlank(s: string) { forall i :: 0 <= i < |s| ==> IsWhitespace(s[i]) }

  function TrimStart(s: string): (r: string)
    ensures |r| <= |s| && r == s[|s| - |r|..]
    ensures r == [] || !IsWhitespace(r[0])
    ensures forall i :: 0 <= i < |s| - |r| ==> IsWhitespace(s[i])
  {
    if s != [] && IsWhitespace(s[0]) then TrimStart(s[1..]) else s
  }

  function TrimEnd(s: string): (r: string)
    ensures |r| <= |s| && r == s[..|r|]
    ensures r == [] || !IsWhitespace(r[|r| - 1])
    ensures forall i :: |r| <= i < |s| ==> IsWhitespace(s[i])
  {
    if s != [] && IsWhitespace(s[|s| - 1]) then TrimEnd(s[..|s| - 1]) else s
  }

  /** `trim()`: drops leading and trailing whitespace. */
  function Trim(s: string): (r: string)
    ensures r == [] || (!IsWhitespace(r[0]) && !IsWhitespace(r[|r| - 1]))
    ensures exists a: nat :: WhitespaceAround(s, a, r)
  {
    var t := TrimStart(s);
    var r := TrimEnd(t);
    assert WhitespaceAround(s, |s| - |t|, r);
    r
  }

  /** `s` is `r` at offset `a`, with only whitespace before and after it. */
  predicate WhitespaceAround(s: string, a: nat, r: string) {
    && a + |r| <= |s| && s[a..a + |r|] == r
    && (forall i :: 0 <= i < a ==> IsWhitespace(s[i]))
    && (forall i :: a + |r| <= i < |s| ==> IsWhitespace(s[i]))
  }

  /** `isBlank()` holds exactly when `trim()` leaves nothing. */
  lemma BlankIffTrimEmpty(s: string)
    ensures IsBlank(s) <==> Trim(s) == []
  {
    var t := TrimStart(s);
    if IsBlank(s) {
      BlankTrimStart(s);
    } else {
      var i :| 0 <= i < |s| && !IsWhitespace(s[i]);
      assert |t| > 0;
      assert !IsWhitespace(t[0]);
      assert |TrimEnd(t)| > 0;
    }
  }

  lemma {:induction false} BlankTrimStart(s: string)
    requires IsBlank(s)
    ensures TrimStart(s) == []
  {
    if s != [] {
      BlankTrimStart(s[1..]);
    }
  }

  // ---------------------------------------------------------------------
  // lineSequence

  predicate IsBreak(c: char) { c == '\n' || c == '\r' }

  /** Index of the first `\n` or `\r` at or after `i`, or `|s|`. */
  function BreakIndex(s: string, i: nat): (j: nat)
    requires i <= |s|
    ensures i <= j <= |s|
    ensures forall k :: i <= k < j ==> !IsBreak(s[k])
    ensures j < |s| ==> IsBreak(s[j])
    decreases |s| - i
  {
    if i == |s| || IsBreak(s[i]) then i else BreakIndex(s, i + 1)
  }

  /**
   * `lineSequence()`: splits at "\r\n", "\n" and "\r", trying "\r\n" first at
   * each position; a trailing break yields a trailing empty line.
   */
  function Lines(s: string): (r: seq<string>)
    ensures |r| >= 1
    ensures forall k :: 0 <= k < |r| ==> forall c :: c in r[k] ==> !IsBreak(c)
    decreases |s|
  {
    var i := BreakIndex(s, 0);
    if i == |s| then [s]
    else if s[i] == '\r' && i + 1 < |s| && s[i + 1] == '\n' then [s[..i]] + Lines(s[i + 2..])
    else [s[..i]] + Lines(s[i + 1..])
  }

  function JoinLines(ls: seq<string>): string
    requires |ls| >= 1
  {
    if |ls| == 1 then ls[0] else ls[0] + "\n" + JoinLines(ls[1..])
  }

  /** For text with no carriage return, joining the lines with "\n" gives the text back. */
  lemma {:induction false} LinesJoin(s: string)
    requires forall i :: 0 <= i < |s| ==> s[i] != '\r'
    ensures JoinLines(Lines(s)) == s
    decreases |s|
  {
    var i := BreakIndex(s, 0);
    if i < |s| {
      LinesJoin(s[i + 1..]);
      assert s == s[..i] + "\n" + s[i + 1..];
    }
  }

  // ---------------------------------------------------------------------
  // substringAfter

  /** `startsWith(prefix)` */
  predicate StartsWith(s: string, prefix: string) {
    |prefix| <= |s| && s[..|prefix|] == prefix
  }

  /** `d` occurs in `s` starting at index `k`. */
  predicate OccursAt(s: string, d: string, k: nat) {
    k + |d| <= |s| && s[k..k + |d|] == d
  }

  /** Index of the first occurrence of `d` in `s` at or after `from`. */
  function IndexOf(s: string, d: string, from: nat): (r: Option<nat>)
    requires from <= |s|
    ensures r.Some? ==> from <= r.value && OccursAt(s, d, r.value)
    ensures r.Some? ==> forall k :: from <= k < r.value ==> !OccursAt(s, d, k)
    ensures r.None? ==> forall k :: from <= k ==> !OccursAt(s, d, k)
    decreases |s| - from
  {
    if from + |d| > |s| then None
    else if s[from..from + |d|] == d then Some(from)
    else if from == |s| then None
    else IndexOf(s, d, from + 1)
  }

  /** `substringAfter(delimiter, missing)`: the text after the first occurrence of the delimiter. */
  function SubstringAfter(s: string, delimiter: string, missing: string): (r: string)
    ensures (exists k: nat :: OccursAt(s, delimiter, k)) ==> |r| <= |s| && r == s[|s| - |r|..]
    ensures IndexOf(s, delimiter, 0).Some? ==> r == s[IndexOf(s, delimiter, 0).value + |delimiter|..]
    ensures (forall k: nat :: !OccursAt(s, delimiter, k)) ==> r == missing
  {
    match IndexOf(s, delimiter, 0)
    case Some(k) => s[k + |delimiter|..]
    case None => missing
  }

  // ---------------------------------------------------------------------
  // Decimal numbers

  /** The value of a string of decimal digits. */
  function DecimalValue(d: string): (v: nat)
    requires AllDigits(d)
  {
    if d == [] then 0 else DecimalValue(d[..|d| - 1]) * 10 + DigitValue(d[|d| - 1])
  }

  function Pow10(n: nat): (p: nat)
    ensures p >= 1
  {
    if n == 0 then 1 else 10 * Pow10(n - 1)
  }

  /** A run of `n` digits is worth less than 10^n. */
  lemma {:induction false} DecimalValueBound(d: string)
    requires AllDigits(d)
    ensures DecimalValue(d) < Pow10(|d|)
  {
    if d != [] {
      DecimalValueBound(d[..|d| - 1]);
    }
  }

  /** Decimal digits of a natural number, without leading zeros. */
  function NatToDecimal(n: nat): (d: string)
    ensures |d| >= 1 && AllDigits(d)
  {
    if n < 10 then [DigitChar(n)] else NatToDecimal(n / 10) + [DigitChar(n % 10)]
  }

  lemma {:induction false} DecimalOfNat(n: nat)
    ensures DecimalValue(NatToDecimal(n)) == n
  {
    if n >= 10 {
      DecimalOfNat(n / 10);
      var d := NatToDecimal(n);
      assert d[..|d| - 1] == NatToDecimal(n / 10);
    }
  }

  /** `Long.toString()`: a minus sign for negatives, then the decimal digits. */
  function LongToString(n: int): (s: string)
    ensures |s| >= 1
  {
    if n < 0 then "-" + NatToDecimal(-n) else NatToDecimal(n)
  }

  /**
   * `String.toLong()` (`java.lang.Long.parseLong`): an optional sign, at least
   * one digit, and a value inside the `Long` range; anything else fails.
   */
  function ParseLong(s: string): (r: Option<int>)
    ensures r.Some? ==> IsLong(r.value)
    ensures r.Some? <==> Unsigned(s) != [] && AllDigits(Unsigned(s)) && IsLong(SignedValue(s))
    ensures r.Some? ==> r.value == SignedValue(s)
  {
    if s == [] then None
    else
      var negative := s[0] == '-';
      var digits := if s[0] == '-' || s[0] == '+' then s[1..] else s;
      if digits == [] || !AllDigits(digits) then None
      else
        var magnitude: int := DecimalValue(digits);
        var v := if negative then -magnitude else magnitude;
        if IsLong(v) then Some(v) else None
  }

  /** The text after an optional leading `-` or `+`. */
  function Unsigned(s: string): (d: string)
    ensures |d| <= |s| && d == s[|s| - |d|..]
  {
    if s != [] && (s[0] == '-' || s[0] == '+') then s[1..] else s
  }

  /** The value of an optionally signed run of decimal digits, without a range limit. */
  function SignedValue(s: string): int
    requires AllDigits(Unsigned(s))
  {
    var magnitude: int := DecimalValue(Unsigned(s));
    if s != [] && s[0] == '-' then -magnitude else magnitude
  }

  /** Parsing an optional minus sign followed by a run of digits. */
  lemma ParseSignedDigits(d: string, negative: bool)
    requires d != [] && AllDigits(d)
    ensures var m: int := DecimalValue(d); var v := if negative then -m else m;
            ParseLong((if negative then "-" else "") + d) == if IsLong(v) then Some(v) else None
  {
    var s := (if negative then "-" else "") + d;
    if negative {
      assert s[0] == '-' && s[1..] == d;
    } else {
      assert s == d && IsDigit(d[0]);
    }
  }

  /** Printing a `Long` and parsing it back gives the same number. */
  lemma {:induction false} ParseLongToString(n: int)
    requires IsLong(n)
    ensures ParseLong(LongToString(n)) == Some(n)
  {
    if n < 0 {
      DecimalOfNat(-n);
      ParseSignedDigits(NatToDecimal(-n), true);
    } else {
      DecimalOfNat(n);
      ParseSignedDigits(NatToDecimal(n), false);
      assert "" + NatToDecimal(n) == NatToDecimal(n);
    }
  }

  /** Distinct `Long`s print differently. */
  lemma LongToStringInjective(a: int, b: int)
    requires IsLong(a) && IsLong(b) && LongToString(a) == LongToString(b)
    ensures a == b
  {
    ParseLongToString(a);
    ParseLongToString(b);
  }

  /** `toLongOrNull() ?: 0L` applied to a run of digits. */
  function DigitsToLongOrZero(d: string): (v: int)
    requires AllDigits(d)
    ensures IsLong(v) && v >= 0
    ensures v == (if d != [] && DecimalValue(d) <= LONG_MAX then DecimalValue(d) else 0)
  {
    match ParseLong(d)
    case Some(v) => v
    case None => 0
  }
}
