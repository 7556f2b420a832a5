/**
 * The three regular expressions of the NetEase Cloud Music lyric parser,
 * written out as scanners with the semantics of `java.util.regex.Matcher.find`:
 *
 *   LRC time tag     \[(\d{1,2}):(\d{1,2})([.:](\d{1,3}))?]
 *   YRC line header  \[(\d+),(\d+)]
 *   YRC syllable     \((\d+),(\d+),\d+\)([^(]*)
 *
 * `\d` is an ASCII digit. A bounded `\d{1,n}` followed by a non-digit
 * literal can only match a maximal digit run of length 1..n (backtracking
 * into a shorter run leaves a digit where the literal must be). `find`
 * returns the match at the lowest position at or after its start, and the
 * next `find` starts where the previous match ended.
 */
module CloudLyricScan {
  import opened Wrappers
  import opened KotlinText

  /** End of the run of digits that starts at `i`. */
  function DigitRunEnd(s: string, i: nat): (j: nat)
    requires i <= |s|
    ensures i <= j <= |s|
    ensures AllDigits(s[i..j])
    ensures j < |s| ==> !IsDigit(s[j])
    decreases |s| - i
  {
    if i < |s| && IsDigit(s[i]) then
      var j := DigitRunEnd(s, i + 1);
      assert s[i..j] == [s[i]] + s[i + 1..j];
      j
    else i
  }

  // ---------------------------------------------------------------------
  // LRC time tags

  /** The largest time an LRC tag can denote: [99:99.999]. */
  const LRC_MAX_TIME: int := 99 * 60000 + 99 * 1000 + 999

  /** `padEnd(n, c)` */
  function PadEnd(s: string, n: nat, c: char): (r: string)
    ensures |r| == if |s| >= n then |s| else n
    ensures r[..|s|] == s
    ensures forall k :: |s| <= k < |r| ==> r[k] == c
    decreases n - |s|
  {
    if |s| >= n then s else PadEnd(s + [c], n, c)
  }

  /** `take(n)` */
  function Take(s: string, n: nat): (r: string)
    ensures |r| == if |s| <= n then |s| else n
    ensures r == s[..|r|]
  {
    if |s| <= n then s else s[..n]
  }

  /** `msStr.padEnd(3, '0').take(3).toLong()` for a fraction of digits. */
  function FractionMillis(f: string): (ms: nat)
    requires AllDigits(f)
    ensures ms < 1000
  {
    var t := Take(PadEnd(f, 3, '0'), 3);
    assert AllDigits(t) by {
      var p := PadEnd(f, 3, '0');
      forall k | 0 <= k < |t| ensures IsDigit(t[k]) {
        if k < |f| { assert p[..|f|][k] == f[k]; }
      }
    }
    DecimalValueBound(t);
    assert Pow10(3) == 1000;
    DecimalValue(t)
  }

  /** The fraction is right-padded to three digits: "5" is 500 ms, "05" is 50 ms, "123" is 123 ms. */
  lemma FractionMillisValue(f: string)
    requires AllDigits(f) && 1 <= |f| <= 3
    ensures FractionMillis(f) == DecimalValue(f) * Pow10(3 - |f|)
    ensures FractionMillis(f) <= 999
  {
    var t := Take(PadEnd(f, 3, '0'), 3);
    PaddedFraction(f);
    assert FractionMillis(f) == DecimalValue(t);
    assert Pow10(0) == 1 && Pow10(1) == 10 && Pow10(2) == 100;
    if |f| == 1 {
      AppendZero(f);
      AppendZero(f + "0");
    } else if |f| == 2 {
      AppendZero(f);
    }
    DecimalValueBound(f);
  }

  /** `padEnd(3, '0').take(3)` of one to three characters appends the missing zeros. */
  lemma PaddedFraction(f: string)
    requires 1 <= |f| <= 3
    ensures Take(PadEnd(f, 3, '0'), 3) == if |f| == 1 then f + "0" + "0" else if |f| == 2 then f + "0" else f
  {
    if |f| == 1 {
      assert PadEnd(f, 3, '0') == PadEnd(f + "0", 3, '0') == f + "0" + "0";
    } else if |f| == 2 {
      assert PadEnd(f, 3, '0') == f + "0";
    }
  }

  /** Appending a zero digit multiplies the value by ten. */
  lemma AppendZero(f: string)
    requires AllDigits(f)
    ensures AllDigits(f + "0") && DecimalValue(f + "0") == DecimalValue(f) * 10
  {
    assert (f + "0")[..|f|] == f;
  }

  /**
   * One match of the LRC tag regex: where it starts, its groups 1 and 2
   * (minutes, seconds), `group(4) ?: "0"` (the fraction), and where it ends.
   */
  datatype LrcTag = LrcTag(pos: nat, minutes: string, seconds: string, fraction: string, end: nat) {

    predicate Valid() {
      AllDigits(minutes) && |minutes| <= 2 && AllDigits(seconds) && |seconds| <= 2 && AllDigits(fraction)
    }

    /** `min * 60000 + sec * 1000 + ms`; minutes and seconds have at most two digits, so it is at most [99:99.999]. */
    function Time(): (t: int)
      requires Valid()
      ensures 0 <= t <= LRC_MAX_TIME
    {
      DecimalValueBound(minutes);
      DecimalValueBound(seconds);
      assert Pow10(2) == 100;
      DecimalValue(minutes) * 60000 + DecimalValue(seconds) * 1000 + FractionMillis(fraction)
    }
  }

  /**
   * `\[(\d{1,2}):(\d{1,2})` at `p`: the end of the minutes run and the end
   * of the seconds run.
   */
  function LrcTagHead(s: string, p: nat): (r: Option<(nat, nat)>)
    ensures r.Some? ==> p + 2 <= r.value.0 && r.value.0 + 2 <= r.value.1 < |s|
    ensures r.Some? ==> AllDigits(s[p + 1..r.value.0]) && r.value.0 - p <= 3
    ensures r.Some? ==> AllDigits(s[r.value.0 + 1..r.value.1]) && r.value.1 - r.value.0 <= 3
  {
    if p >= |s| || s[p] != '[' then None
    else
      var m1 := DigitRunEnd(s, p + 1);
      if !(1 <= m1 - (p + 1) <= 2) || m1 == |s| || s[m1] != ':' then None
      else
        var s1 := DigitRunEnd(s, m1 + 1);
        if !(1 <= s1 - (m1 + 1) <= 2) || s1 == |s| then None
        else Some((m1, s1))
  }

  /**
   * What follows the seconds at `s1`: `]`, or `[.:]` and a fraction of one to
   * three digits and `]`. Gives `group(4) ?: "0"` and the end of the match.
   */
  function LrcTagTail(s: string, s1: nat): (r: Option<(string, nat)>)
    requires s1 < |s|
    ensures r.Some? ==> AllDigits(r.value.0) && s1 < r.value.1 <= |s|
  {
    if s[s1] == ']' then Some(("0", s1 + 1))
    else if s[s1] == '.' || s[s1] == ':' then
      var f1 := DigitRunEnd(s, s1 + 1);
      if 1 <= f1 - (s1 + 1) <= 3 && f1 < |s| && s[f1] == ']' then Some((s[s1 + 1..f1], f1 + 1))
      else None
    else None
  }

  /** The LRC tag regex matched at exactly position `p`. */
  function LrcTagAt(s: string, p: nat): (r: Option<LrcTag>)
    ensures r.Some? ==> r.value.pos == p && p < r.value.end <= |s| && r.value.Valid()
    ensures p >= |s| ==> r.None?
  {
    match LrcTagHead(s, p)
    case None => None
    case Some((m1, s1)) =>
      match LrcTagTail(s, s1)
      case None => None
      case Some((fraction, end)) => Some(LrcTag(p, s[p + 1..m1], s[m1 + 1..s1], fraction, end))
  }

  /** `find()` from `from`: the LRC tag at the lowest position at or after `from`. */
  function FindLrcTag(s: string, from: nat): (r: Option<LrcTag>)
    requires from <= |s|
    ensures r.Some? ==> from <= r.value.pos && LrcTagAt(s, r.value.pos) == r
    ensures r.Some? ==> forall q :: from <= q < r.value.pos ==> LrcTagAt(s, q).None?
    ensures r.None? ==> forall q :: from <= q <= |s| ==> LrcTagAt(s, q).None?
    decreases |s| - from
  {
    if from == |s| then None
    else
      var m := LrcTagAt(s, from);
      if m.Some? then m else FindLrcTag(s, from + 1)
  }

  /**
   * A tag `[mm:ss.fff]` or `[mm:ss:fff]` at `p` (the separators at `a` and
   * `b`, the bracket at `c`) denotes mm·60000 + ss·1000 + the fraction padded
   * to three digits, and the scan resumes after the bracket.
   */
  lemma LrcTagValue(s: string, p: nat, a: nat, b: nat, c: nat)
    requires p < a < b < c < |s|
    requires s[p] == '[' && s[a] == ':' && (s[b] == '.' || s[b] == ':') && s[c] == ']'
    requires 1 <= a - p - 1 <= 2 && 1 <= b - a - 1 <= 2 && 1 <= c - b - 1 <= 3
    requires AllDigits(s[p + 1..a]) && AllDigits(s[a + 1..b]) && AllDigits(s[b + 1..c])
    ensures LrcTagAt(s, p).Some?
    ensures LrcTagAt(s, p).value.end == c + 1
    ensures LrcTagAt(s, p).value.Time()
         == DecimalValue(s[p + 1..a]) * 60000 + DecimalValue(s[a + 1..b]) * 1000
            + DecimalValue(s[b + 1..c]) * Pow10(3 - (c - b - 1))
  {
    var tag := LrcTag(p, s[p + 1..a], s[a + 1..b], s[b + 1..c], c + 1);
    LrcTagWithFraction(s, p, a, b, c);
    FractionMillisValue(tag.fraction);
  }

  /** The groups of a tag with a fraction are the three digit runs between its separators. */
  lemma LrcTagWithFraction(s: string, p: nat, a: nat, b: nat, c: nat)
    requires p < a < b < c < |s|
    requires s[p] == '[' && s[a] == ':' && (s[b] == '.' || s[b] == ':') && s[c] == ']'
    requires 1 <= a - p - 1 <= 2 && 1 <= b - a - 1 <= 2 && 1 <= c - b - 1 <= 3
    requires AllDigits(s[p + 1..a]) && AllDigits(s[a + 1..b]) && AllDigits(s[b + 1..c])
    ensures LrcTagAt(s, p) == Some(LrcTag(p, s[p + 1..a], s[a + 1..b], s[b + 1..c], c + 1))
  {
    LrcTagHeadAt(s, p, a, b);
    DigitRunOver(s, b + 1, c);
    assert LrcTagTail(s, b) == Some((s[b + 1..c], c + 1));
  }

  /** A tag `[mm:ss]` without a fraction denotes mm·60000 + ss·1000. */
  lemma LrcTagValueNoFraction(s: string, p: nat, a: nat, b: nat)
    requires p < a < b < |s|
    requires s[p] == '[' && s[a] == ':' && s[b] == ']'
    requires 1 <= a - p - 1 <= 2 && 1 <= b - a - 1 <= 2
    requires AllDigits(s[p + 1..a]) && AllDigits(s[a + 1..b])
    ensures LrcTagAt(s, p).Some?
    ensures LrcTagAt(s, p).value.end == b + 1
    ensures LrcTagAt(s, p).value.Time() == DecimalValue(s[p + 1..a]) * 60000 + DecimalValue(s[a + 1..b]) * 1000
  {
    LrcTagHeadAt(s, p, a, b);
    assert LrcTagTail(s, b) == Some(("0", b + 1));
    FractionMillisValue("0");
  }

  lemma LrcTagHeadAt(s: string, p: nat, a: nat, b: nat)
    requires p < a < b < |s|
    requires s[p] == '[' && s[a] == ':' && !IsDigit(s[b])
    requires 1 <= a - p - 1 <= 2 && 1 <= b - a - 1 <= 2
    requires AllDigits(s[p + 1..a]) && AllDigits(s[a + 1..b])
    ensures LrcTagHead(s, p) == Some((a, b))
  {
    DigitRunOver(s, p + 1, a);
    DigitRunOver(s, a + 1, b);
  }

  /** A digit run that stops at a non-digit ends exactly there. */
  lemma {:induction false} DigitRunOver(s: string, i: nat, j: nat)
    requires i <= j < |s| && AllDigits(s[i..j]) && !IsDigit(s[j])
    ensures DigitRunEnd(s, i) == j
    decreases j - i
  {
    if i < j {
      assert s[i..j][0] == s[i];
      assert s[i + 1..j] == s[i..j][1..];
      DigitRunOver(s, i + 1, j);
    }
  }

  // ---------------------------------------------------------------------
  // YRC line headers

  /** Groups 1 and 2 of a YRC match, the start and duration digit runs. */
  datatype TimingGroups = TimingGroups(startDigits: string, durationDigits: string) {

    predicate Valid() { AllDigits(startDigits) && AllDigits(durationDigits) }

    /** `group(1)?.toLongOrNull() ?: 0L` */
    function Start(): (v: int)
      requires Valid()
      ensures IsLong(v) && v >= 0
    {
      DigitsToLongOrZero(startDigits)
    }

    /** `group(2)?.toLongOrNull() ?: 0L` */
    function Duration(): (v: int)
      requires Valid()
      ensures IsLong(v) && v >= 0
    {
      DigitsToLongOrZero(durationDigits)
    }
  }

  /** One match of the YRC header regex: where it starts, groups 1 and 2, and where it ends. */
  datatype YrcHeader = YrcHeader(pos: nat, groups: TimingGroups, end: nat) {
    predicate Valid() { groups.Valid() }
  }

  function YrcHeaderAt(s: string, p: nat): (r: Option<YrcHeader>)
    ensures p >= |s| ==> r.None?
    ensures r.Some? ==> r.value.pos == p && p < r.value.end <= |s|
    ensures r.Some? ==> r.value.Valid()
  {
    if p >= |s| || s[p] != '[' then None
    else
      var a := DigitRunEnd(s, p + 1);
      if a == p + 1 || a == |s| || s[a] != ',' then None
      else
        var b := DigitRunEnd(s, a + 1);
        if b == a + 1 || b == |s| || s[b] != ']' then None
        else
          Some(YrcHeader(p, TimingGroups(s[p + 1..a], s[a + 1..b]), b + 1))
  }

  function FindYrcHeader(s: string, from: nat): (r: Option<YrcHeader>)
    requires from <= |s|
    ensures r.Some? ==> from <= r.value.pos && YrcHeaderAt(s, r.value.pos) == r
    ensures r.Some? ==> forall q :: from <= q < r.value.pos ==> YrcHeaderAt(s, q).None?
    ensures r.None? ==> forall q :: from <= q <= |s| ==> YrcHeaderAt(s, q).None?
    decreases |s| - from
  {
    if from == |s| then None
    else
      var m := YrcHeaderAt(s, from);
      if m.Some? then m else FindYrcHeader(s, from + 1)
  }

  // ---------------------------------------------------------------------
  // YRC syllables

  /** Index of the first '(' at or after `i`, or `|s|`. */
  function OpenParenFrom(s: string, i: nat): (j: nat)
    requires i <= |s|
    ensures i <= j <= |s|
    ensures forall k :: i <= k < j ==> s[k] != '('
    ensures j < |s| ==> s[j] == '('
    decreases |s| - i
  {
    if i == |s| || s[i] == '(' then i else OpenParenFrom(s, i + 1)
  }

  /** One match of the syllable regex: where it starts, groups 1 and 2, the text `([^(]*)`, and where the match ends. */
  datatype SyllableMatch = SyllableMatch(pos: nat, groups: TimingGroups, text: string, end: nat) {
    predicate Valid() { groups.Valid() }
  }

  /** The `((\d+),(\d+),\d+)` prefix at `p`: the ends of the three digit runs. */
  function SyllableHead(s: string, p: nat): (r: Option<(nat, nat, nat)>)
    ensures r.Some? ==> p + 1 < r.value.0 < r.value.1 < r.value.2 < |s|
  {
    if p >= |s| || s[p] != '(' then None
    else
      var a := DigitRunEnd(s, p + 1);
      if a == p + 1 || a == |s| || s[a] != ',' then None
      else
        var b := DigitRunEnd(s, a + 1);
        if b == a + 1 || b == |s| || s[b] != ',' then None
        else
          var c := DigitRunEnd(s, b + 1);
          if c == b + 1 || c == |s| || s[c] != ')' then None
          else Some((a, b, c))
  }

  function SyllableAt(s: string, p: nat): (r: Option<SyllableMatch>)
    ensures p >= |s| ==> r.None?
    ensures r.Some? ==> r.value.pos == p && p < r.value.end <= |s|
    ensures r.Some? ==> forall c :: c in r.value.text ==> c != '('
    ensures r.Some? ==> r.value.Valid()
  {
    match SyllableHead(s, p)
    case None => None
    case Some((a, b, c)) =>
      var e := OpenParenFrom(s, c + 1);
      Some(SyllableMatch(p, TimingGroups(s[p + 1..a], s[a + 1..b]), s[c + 1..e], e))
  }

  function FindSyllable(s: string, from: nat): (r: Option<SyllableMatch>)
    requires from <= |s|
    ensures r.Some? ==> from <= r.value.pos && SyllableAt(s, r.value.pos) == r
    ensures r.Some? ==> forall q :: from <= q < r.value.pos ==> SyllableAt(s, q).None?
    ensures r.None? ==> forall q :: from <= q <= |s| ==> SyllableAt(s, q).None?
    decreases |s| - from
  {
    if from == |s| then None
    else
      var m := SyllableAt(s, from);
      if m.Some? then m else FindSyllable(s, from + 1)
  }
}
