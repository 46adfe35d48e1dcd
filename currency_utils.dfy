/**
 * `convert_currency_string`: the market-cap text of a competitor row
 * (for example "$3.16T") read as a currency prefix and an exact amount.
 *
 * The text is stripped of surrounding whitespace and matched from its first
 * character against `([^\d]*)([\d.]+)([TMBK]?)`; the amount is the decimal
 * read from the second group times the power of ten the third group names.
 * The model keeps the amount exact, as the `Decimal` product is, and leaves
 * out the final conversion to a binary float.
 */
module CurrencyUtils {
  import opened Wrappers
  import Dates

  // ---------------------------------------------------------------------
  // Characters

  /** Python's `str.isspace` (the characters `str.strip()` removes). */
  predicate IsSpace(c: char) {
    var n := c as int;
    || n == 0x20 || 0x09 <= n <= 0x0D || 0x1C <= n <= 0x1F || n == 0x85 || n == 0xA0
    || n == 0x1680 || 0x2000 <= n <= 0x200A || n == 0x2028 || n == 0x2029
    || n == 0x202F || n == 0x205F || n == 0x3000
  }

  /** The regex class `\d` (decimal digits). */
  predicate IsDigit(c: char) {
    '0' <= c <= '9'
  }

  /** The regex class `[\d.]`. */
  predicate IsValueChar(c: char) {
    IsDigit(c) || c == '.'
  }

  /** The regex class `[TMBK]`. */
  predicate IsSuffixChar(c: char) {
    c == 'T' || c == 'M' || c == 'B' || c == 'K'
  }

  predicate HasDigit(s: string) {
    exists i :: 0 <= i < |s| && IsDigit(s[i])
  }

  predicate HasDot(s: string) {
    exists i :: 0 <= i < |s| && s[i] == '.'
  }

  // ---------------------------------------------------------------------
  // str.strip()

  /** How many whitespace characters `s` starts with. */
  function LeadLen(s: string): (n: nat)
    ensures n <= |s| && (n < |s| ==> !IsSpace(s[n]))
  {
    if |s| > 0 && IsSpace(s[0]) then 1 + LeadLen(s[1..]) else 0
  }

  /** Where the whitespace `s` ends with begins. */
  function TrailStart(s: string): (n: nat)
    ensures n <= |s| && (n > 0 ==> !IsSpace(s[n - 1]))
  {
    if |s| > 0 && IsSpace(s[|s| - 1]) then TrailStart(s[..|s| - 1]) else |s|
  }

  /** Everything before `LeadLen(s)` is whitespace. */
  lemma {:induction false} LeadingSpaces(s: string)
    ensures forall k :: 0 <= k < LeadLen(s) ==> IsSpace(s[k])
  {
    if |s| > 0 && IsSpace(s[0]) {
      LeadingSpaces(s[1..]);
      forall k | 0 < k < LeadLen(s) ensures IsSpace(s[k]) {
        assert s[k] == s[1..][k - 1];
      }
    }
  }

  /** Everything from `TrailStart(s)` on is whitespace. */
  lemma {:induction false} TrailingSpaces(s: string)
    ensures forall k :: TrailStart(s) <= k < |s| ==> IsSpace(s[k])
  {
    if |s| > 0 && IsSpace(s[|s| - 1]) {
      TrailingSpaces(s[..|s| - 1]);
      forall k | TrailStart(s) <= k < |s| - 1 ensures IsSpace(s[k]) {
        assert s[k] == s[..|s| - 1][k];
      }
    }
  }

  /** A text with a non-space has its trailing whitespace after its leading whitespace. */
  lemma LeadBeforeTrail(s: string)
    requires LeadLen(s) < |s|
    ensures LeadLen(s) < TrailStart(s)
  {
    TrailingSpaces(s);
  }

  /**
   * `s.strip()`: the slice of `s` left once every leading and trailing
   * whitespace character is removed.
   */
  function Strip(s: string): (r: string)
    ensures r == [] || (!IsSpace(r[0]) && !IsSpace(r[|r| - 1]))
  {
    var i := LeadLen(s);
    if i == |s| then []
    else
      LeadBeforeTrail(s);
      s[i..TrailStart(s)]
  }

  /** What `strip` keeps is a slice of the text with only whitespace around it. */
  lemma StripIsSlice(s: string)
    ensures exists i, j :: 0 <= i <= j <= |s| && Strip(s) == s[i..j]
                        && (forall k :: 0 <= k < i ==> IsSpace(s[k]))
                        && (forall k :: j <= k < |s| ==> IsSpace(s[k]))
  {
    LeadingSpaces(s);
    if LeadLen(s) == |s| {
      assert Strip(s) == s[|s|..|s|];
    } else {
      TrailingSpaces(s);
      LeadBeforeTrail(s);
      assert Strip(s) == s[LeadLen(s)..TrailStart(s)];
    }
  }

  predicate AllSpace(w: string) {
    forall i :: 0 <= i < |w| ==> IsSpace(w[i])
  }

  /** The leading whitespace is the only prefix of spaces followed by a non-space or the end. */
  lemma LeadLenIs(s: string, n: nat)
    requires n <= |s| && (forall k :: 0 <= k < n ==> IsSpace(s[k])) && (n < |s| ==> !IsSpace(s[n]))
    ensures LeadLen(s) == n
  {
    LeadingSpaces(s);
  }

  /** Likewise the trailing whitespace is the only such suffix. */
  lemma TrailStartIs(s: string, n: nat)
    requires n <= |s| && (forall k :: n <= k < |s| ==> IsSpace(s[k])) && (n > 0 ==> !IsSpace(s[n - 1]))
    ensures TrailStart(s) == n
  {
    TrailingSpaces(s);
  }

  /** Whitespace added on either side is removed again by `strip`. */
  lemma StripRemovesPadding(w1: string, s: string, w2: string)
    requires AllSpace(w1) && AllSpace(w2)
    ensures Strip(w1 + s + w2) == Strip(s)
  {
    PaddingEmbeds(w1, s, w2);
    EmbeddedStrip(w1 + s + w2, s, |w1|);
  }

  /** `u` holds `s` at offset `d` with nothing but whitespace around it. */
  ghost predicate Embeds(u: string, s: string, d: nat) {
    && d + |s| <= |u|
    && (forall k :: 0 <= k < |s| ==> u[d + k] == s[k])
    && (forall k :: 0 <= k < d ==> IsSpace(u[k]))
    && (forall k :: d + |s| <= k < |u| ==> IsSpace(u[k]))
  }

  lemma PaddingEmbeds(w1: string, s: string, w2: string)
    requires AllSpace(w1) && AllSpace(w2)
    ensures Embeds(w1 + s + w2, s, |w1|)
  {
    var u := w1 + s + w2;
    forall k | 0 <= k < |w1| ensures IsSpace(u[k]) {
      assert u[k] == w1[k];
    }
    forall k | |w1| + |s| <= k < |u| ensures IsSpace(u[k]) {
      assert u[k] == w2[k - |w1| - |s|];
    }
  }

  /** A text embedded in whitespace strips like the embedded text. */
  lemma EmbeddedStrip(u: string, s: string, d: nat)
    requires Embeds(u, s, d)
    ensures Strip(u) == Strip(s)
  {
    if LeadLen(s) == |s| {
      EmbeddedBlank(u, s, d);
    } else {
      EmbeddedLead(u, s, d);
      EmbeddedTrail(u, s, d);
      LeadBeforeTrail(s);
      EmbeddedSlice(u, s, d, LeadLen(s), TrailStart(s));
      StripBetween(s);
      StripBetween(u);
    }
  }

  /** A text with a non-space strips to what lies between its leading and trailing whitespace. */
  lemma StripBetween(s: string)
    requires LeadLen(s) < |s|
    ensures LeadLen(s) < TrailStart(s) && Strip(s) == s[LeadLen(s)..TrailStart(s)]
  {
    LeadBeforeTrail(s);
  }

  lemma EmbeddedBlank(u: string, s: string, d: nat)
    requires Embeds(u, s, d) && LeadLen(s) == |s|
    ensures LeadLen(u) == |u|
  {
    LeadingSpaces(s);
    forall k | d <= k < d + |s| ensures IsSpace(u[k]) {
      assert u[d + (k - d)] == s[k - d];
    }
    LeadLenIs(u, |u|);
  }

  lemma EmbeddedSlice(u: string, s: string, d: nat, a: nat, b: nat)
    requires Embeds(u, s, d) && a <= b <= |s|
    ensures u[d + a..d + b] == s[a..b]
  {
    forall k | 0 <= k < b - a ensures u[d + a..d + b][k] == s[a..b][k] {
      assert u[d + (a + k)] == s[a + k];
    }
  }

  lemma EmbeddedLead(u: string, s: string, d: nat)
    requires Embeds(u, s, d) && LeadLen(s) < |s|
    ensures LeadLen(u) == d + LeadLen(s)
  {
    var a := LeadLen(s);
    LeadingSpaces(s);
    forall k | d <= k < d + a ensures IsSpace(u[k]) {
      assert u[d + (k - d)] == s[k - d];
    }
    assert u[d + a] == s[a];
    LeadLenIs(u, d + a);
  }

  lemma EmbeddedTrail(u: string, s: string, d: nat)
    requires Embeds(u, s, d) && LeadLen(s) < |s|
    ensures TrailStart(u) == d + TrailStart(s)
  {
    var b := TrailStart(s);
    LeadBeforeTrail(s);
    TrailingSpaces(s);
    forall k | d + b <= k < d + |s| ensures IsSpace(u[k]) {
      assert u[d + (k - d)] == s[k - d];
    }
    assert u[d + (b - 1)] == s[b - 1];
    TrailStartIs(u, d + b);
  }

  /** A text with no whitespace at either end is left as it is by `strip`. */
  lemma StripKeepsTrimmed(s: string)
    requires s == [] || (!IsSpace(s[0]) && !IsSpace(s[|s| - 1]))
    ensures Strip(s) == s
  {
    if s != [] {
      LeadLenIs(s, 0);
      TrailStartIs(s, |s|);
    }
  }
  // ---------------------------------------------------------------------
  // re.match(r"([^\d]*)([\d.]+)([TMBK]?)", s)

  /** The three captured groups of a successful match. */
  datatype Groups = Groups(currency: string, valueStr: string, suffix: string)

  /** Length of the longest prefix of `s` without a digit: how far `[^\d]*` first reaches. */
  function NonDigitPrefixLen(s: string): (k: nat)
    ensures k <= |s|
    ensures forall i :: 0 <= i < k ==> !IsDigit(s[i])
    ensures k < |s| ==> IsDigit(s[k])
  {
    if |s| == 0 || IsDigit(s[0]) then 0 else 1 + NonDigitPrefixLen(s[1..])
  }

  /** Length of the run of `[\d.]` characters starting at `j`: what greedy `[\d.]+` takes. */
  function ValueRunLen(s: string, j: nat): (n: nat)
    requires j <= |s|
    ensures j + n <= |s|
    ensures forall i :: j <= i < j + n ==> IsValueChar(s[i])
    ensures j + n < |s| ==> !IsValueChar(s[j + n])
    decreases |s| - j
  {
    if j < |s| && IsValueChar(s[j]) then 1 + ValueRunLen(s, j + 1) else 0
  }

  /** What `[TMBK]?` captures at position `j`. */
  function SuffixAt(s: string, j: nat): (r: string)
    ensures r == [] || (|r| == 1 && IsSuffixChar(r[0]))
  {
    if j < |s| && IsSuffixChar(s[j]) then [s[j]] else ""
  }

  /**
   * The backtracking search of the regex engine with group one of length
   * `j` tried first and then shorter ones. Group two takes its greedy run
   * and group three, being optional, can never make the attempt fail, so an
   * attempt succeeds exactly when group two finds one character.
   */
  function MatchFrom(s: string, j: nat): (r: Option<Groups>)
    requires j <= |s|
    ensures r.Some? ==> |r.value.currency| <= j && |r.value.valueStr| > 0
                        && r.value.currency + r.value.valueStr + r.value.suffix <= s
    decreases j
  {
    var n := ValueRunLen(s, j);
    if n > 0 then
      assert s[..j] + s[j..j + n] + SuffixAt(s, j + n) <= s by {
        assert s[..j] + s[j..j + n] == s[..j + n];
      }
      Some(Groups(s[..j], s[j..j + n], SuffixAt(s, j + n)))
    else if j == 0 then None
    else MatchFrom(s, j - 1)
  }

  /** Index of the last `.` of `s`. */
  function LastDot(s: string): (k: nat)
    requires HasDot(s)
    ensures k < |s| && s[k] == '.'
    ensures forall i :: k < i < |s| ==> s[i] != '.'
  {
    if s[|s| - 1] == '.' then |s| - 1
    else
      assert HasDot(s[..|s| - 1]) by {
        var i :| 0 <= i < |s| && s[i] == '.';
        assert s[..|s| - 1][i] == '.';
      }
      LastDot(s[..|s| - 1])
  }

  /** When no position below `j + 1` holds a value character, backtracking to the start fails. */
  lemma {:induction false} MatchFromNone(s: string, j: nat)
    requires j <= |s|
    requires forall i :: 0 <= i <= j && i < |s| ==> !IsValueChar(s[i])
    ensures MatchFrom(s, j) == None
  {
    if j > 0 {
      MatchFromNone(s, j - 1);
    }
  }

  /** Without digits, backtracking stops at the last `.` below `j + 1`. */
  lemma {:induction false} MatchFromLastDot(s: string, j: nat, k: nat)
    requires k <= j <= |s| && k < |s| && s[k] == '.'
    requires !HasDigit(s)
    requires forall i :: k < i < |s| ==> s[i] != '.'
    ensures MatchFrom(s, j) == Some(Groups(s[..k], ".", SuffixAt(s, k + 1)))
  {
    if j > k {
      assert j < |s| ==> !IsValueChar(s[j]);
      MatchFromLastDot(s, j - 1, k);
    } else {
      assert ValueRunLen(s, k) == 1 by {
        assert k + 1 < |s| ==> !IsValueChar(s[k + 1]);
      }
      assert s[k..k + 1] == ".";
    }
  }

  /** The groups fixed by the first digit of `s`. */
  function DigitGroups(s: string): (g: Groups)
    requires HasDigit(s)
    ensures |g.valueStr| > 0 && IsDigit(g.valueStr[0])
    ensures forall i :: 0 <= i < |g.valueStr| ==> IsValueChar(g.valueStr[i])
  {
    var k := NonDigitPrefixLen(s);
    var n := ValueRunLen(s, k);
    var run := s[k..k + n];
    assert forall i :: 0 <= i < |run| ==> run[i] == s[k + i];
    Groups(s[..k], run, SuffixAt(s, k + n))
  }

  /**
   * `re.match` of the pattern at the start of `s`. When `s` holds a digit,
   * the groups are fixed by the first digit: everything before it, the run of
   * digits and dots from it, and the next character when it is T, M, B or K.
   * Without a digit the engine backtracks to the last `.`; with neither the
   * match fails.
   */
  function Match(s: string): (r: Option<Groups>)
    ensures r.None? <==> !HasDigit(s) && !HasDot(s)
    ensures HasDigit(s) ==> r == Some(DigitGroups(s))
    ensures !HasDigit(s) && HasDot(s) ==>
      r == Some(Groups(s[..LastDot(s)], ".", SuffixAt(s, LastDot(s) + 1)))
  {
    var k := NonDigitPrefixLen(s);
    if HasDigit(s) then
      assert k < |s|;
      MatchFrom(s, k)
    else
      assert k == |s|;
      if HasDot(s) then
        MatchFromLastDot(s, k, LastDot(s));
        MatchFrom(s, k)
      else
        MatchFromNone(s, k);
        MatchFrom(s, k)
  }

  // ---------------------------------------------------------------------
  // Decimal(value_str) * Decimal(multiplier)

  function CountChar(s: string, c: char): (n: nat)
    ensures n <= |s|
  {
    if s == [] then 0 else CountChar(s[1..], c) + (if s[0] == c then 1 else 0)
  }

  /** Index of the first `.` of `s`, or `|s|` when there is none. */
  function DotIndex(s: string): (k: nat)
    ensures k <= |s|
    ensures forall i :: 0 <= i < k ==> s[i] != '.'
    ensures k < |s| ==> s[k] == '.'
  {
    if s == [] || s[0] == '.' then 0 else 1 + DotIndex(s[1..])
  }

  predicate AllDigits(s: string) {
    forall i :: 0 <= i < |s| ==> IsDigit(s[i])
  }

  /**
   * A non-negative `decimal.Decimal`: the number `coefficient * 10^exponent`,
   * with the coefficient and exponent Python keeps (so "3.10" and "3.1"
   * differ as values of this type and agree in `Amount`).
   */
  datatype Decimal = Decimal(coefficient: nat, exponent: int)

  /** The number a `Decimal` denotes. */
  function Amount(d: Decimal): real {
    if d.exponent >= 0 then (d.coefficient * Dates.Pow10(d.exponent)) as real
    else d.coefficient as real / Dates.Pow10(-d.exponent) as real
  }

  /** `Decimal(a) * Decimal(b)`: coefficients multiply and exponents add. */
  function Times(a: Decimal, b: Decimal): (r: Decimal)
    ensures r.exponent == a.exponent + b.exponent
  {
    Decimal(a.coefficient * b.coefficient, a.exponent + b.exponent)
  }

  /**
   * `Decimal(v)` for a run `v` of digits and dots: defined when `v` holds at
   * least one digit and at most one dot; the coefficient is the number the
   * digits spell with the dot removed and the exponent minus the count of
   * digits after the dot. A lone `.` or a second dot is a conversion error.
   */
  function DecimalOf(v: string): (r: Option<Decimal>)
    requires forall i :: 0 <= i < |v| ==> IsValueChar(v[i])
    ensures r.Some? <==> HasDigit(v) && CountChar(v, '.') <= 1
    ensures r.Some? && DotIndex(v) == |v| ==> r.value.exponent == 0
    ensures r.Some? && DotIndex(v) < |v| ==> r.value.exponent == -(|v| - DotIndex(v) - 1)
  {
    var k := DotIndex(v);
    var intPart := v[..k];
    var frac := if k < |v| then v[k + 1..] else "";
    if !HasDigit(v) || (k < |v| && HasDot(frac)) then
      NoDotAfterMeansOne(v, k);
      None
    else
      NoDotAfterMeansOne(v, k);
      assert AllDigits(intPart + frac) by {
        forall i | 0 <= i < |intPart + frac| ensures IsDigit((intPart + frac)[i]) {
          if i < |intPart| {
            assert (intPart + frac)[i] == v[i] && IsValueChar(v[i]);
          } else {
            assert (intPart + frac)[i] == v[i + 1] && IsValueChar(v[i + 1]);
            assert frac[i - |intPart|] != '.';
          }
        }
      }
      Some(Decimal(Dates.DigitsValue(intPart + frac), -|frac|))
  }

  /**
   * The value `Decimal(v)` denotes: the digits before the dot spell the
   * whole part, those after it the fraction, and the coefficient is the
   * digit string read with the dot removed.
   */
  lemma DecimalOfValue(v: string)
    requires forall i :: 0 <= i < |v| ==> IsValueChar(v[i])
    requires DecimalOf(v).Some?
    ensures var k := DotIndex(v);
            var frac := if k < |v| then v[k + 1..] else "";
            && AllDigits(v[..k]) && AllDigits(frac)
            && DecimalOf(v).value.coefficient
               == Dates.DigitsValue(v[..k]) * Dates.Pow10(|frac|) + Dates.DigitsValue(frac)
  {
    var k := DotIndex(v);
    var intPart, frac := v[..k], if k < |v| then v[k + 1..] else "";
    NoDotAfterMeansOne(v, k);
    assert AllDigits(frac) by {
      forall i | 0 <= i < |frac| ensures IsDigit(frac[i]) {
        assert frac[i] == v[k + 1 + i] && IsValueChar(v[k + 1 + i]);
        assert frac[i] != '.';
      }
    }
    assert DecimalOf(v) == Some(Decimal(Dates.DigitsValue(intPart + frac), -|frac|));
    Dates.DigitsValueAppend(intPart, frac);
  }

  /** Counting dots: none before the first, so at most one dot iff none after it. */
  lemma {:induction false} NoDotAfterMeansOne(v: string, k: nat)
    requires k == DotIndex(v)
    ensures k == |v| ==> CountChar(v, '.') == 0
    ensures k < |v| ==> (CountChar(v, '.') <= 1 <==> !HasDot(v[k + 1..]))
  {
    if v != [] {
      if v[0] == '.' {
        CountZeroIffNoDot(v[1..]);
      } else {
        NoDotAfterMeansOne(v[1..], k - 1);
        if k < |v| {
          assert v[1..][k - 1 + 1..] == v[k + 1..];
        }
      }
    }
  }

  lemma {:induction false} CountZeroIffNoDot(s: string)
    ensures CountChar(s, '.') == 0 <==> !HasDot(s)
  {
    if s != [] {
      CountZeroIffNoDot(s[1..]);
      assert HasDot(s) <==> s[0] == '.' || HasDot(s[1..]) by {
        if HasDot(s) && s[0] != '.' {
          var i :| 0 <= i < |s| && s[i] == '.';
          assert s[1..][i - 1] == '.';
        }
        if HasDot(s[1..]) {
          var i :| 0 <= i < |s[1..]| && s[1..][i] == '.';
          assert s[i + 1] == '.';
        }
      }
    }
  }

  /** `suffix.upper()`, on the ASCII letters. */
  function Upper(s: string): (r: string)
    ensures |r| == |s|
  {
    if s == [] then []
    else [if 'a' <= s[0] <= 'z' then (s[0] as int - 32) as char else s[0]] + Upper(s[1..])
  }

  /** `multipliers.get(key, 1)`. */
  function Multiplier(key: string): (m: nat)
    ensures key == "T" ==> m == 1_000_000_000_000
    ensures key == "B" ==> m == 1_000_000_000
    ensures key == "M" ==> m == 1_000_000
    ensures key == "K" ==> m == 1_000
    ensures key !in {"T", "B", "M", "K"} ==> m == 1
  {
    if key == "T" then 1_000_000_000_000
    else if key == "B" then 1_000_000_000
    else if key == "M" then 1_000_000
    else if key == "K" then 1_000
    else 1
  }

  // ---------------------------------------------------------------------
  // convert_currency_string

  /** The `{"currency": ..., "value": ...}` dictionary; it has exactly these two keys. */
  datatype MarketCap = MarketCap(currency: string, value: Decimal)

  datatype CurrencyError =
    | InvalidCurrencyFormat   // ValueError("Invalid currency format"): the pattern does not match
    | DecimalConversion       // decimal.InvalidOperation: the captured run is not a decimal

  /** The stripped text from which the groups are captured. */
  function ConvertGroups(g: Groups): (r: Result<MarketCap, CurrencyError>)
    requires forall i :: 0 <= i < |g.valueStr| ==> IsValueChar(g.valueStr[i])
    ensures r.Err? ==> r.error == DecimalConversion
  {
    match DecimalOf(g.valueStr)
    case None => Err(DecimalConversion)
    case Some(d) => Ok(MarketCap(g.currency, Times(d, Decimal(Multiplier(Upper(g.suffix)), 0))))
  }

  function ConvertCurrencyString(currencyStr: string): (r: Result<MarketCap, CurrencyError>)
    ensures r == Err(InvalidCurrencyFormat) <==> !HasDigit(Strip(currencyStr)) && !HasDot(Strip(currencyStr))
    ensures r.Ok? ==> HasDigit(Strip(currencyStr))
  {
    var s := Strip(currencyStr);
    match Match(s)
    case None => Err(InvalidCurrencyFormat)
    case Some(g) =>
      ValueRunIsValueChars(s);
      ValueRunHasDigit(s);
      ConvertGroups(g)
  }

  /** A digit in the captured run is a digit of the text: without one, the run is a lone dot. */
  lemma ValueRunHasDigit(s: string)
    requires Match(s).Some?
    ensures HasDigit(Match(s).value.valueStr) ==> HasDigit(s)
  {
    if !HasDigit(s) {
      var v := Match(s).value.valueStr;
      assert v == ".";
      assert |v| == 1 && !IsDigit(v[0]);
    }
  }

  /** The second captured group only holds digits and dots. */
  lemma ValueRunIsValueChars(s: string)
    requires Match(s).Some?
    ensures forall i :: 0 <= i < |Match(s).value.valueStr| ==> IsValueChar(Match(s).value.valueStr[i])
  {
    if HasDigit(s) {
      var k := NonDigitPrefixLen(s);
      var n := ValueRunLen(s, k);
      var run := s[k..k + n];
      forall i | 0 <= i < |run| ensures IsValueChar(run[i]) {
        assert run[i] == s[k + i];
      }
    }
  }

  // ---------------------------------------------------------------------
  // Properties

  /**
   * Whitespace around the text never reaches the match: padding the input
   * with whitespace on either side leaves the result unchanged.
   */
  lemma StripPaddingIgnored(w1: string, s: string, w2: string)
    requires AllSpace(w1) && AllSpace(w2)
    ensures ConvertCurrencyString(w1 + s + w2) == ConvertCurrencyString(s)
  {
    StripRemovesPadding(w1, s, w2);
  }

  /**
   * How the groups split a text built as a digit-free prefix, a digit-led run
   * of digits and dots, and a rest that does not continue the run: the
   * prefix is the currency, the run the value, and the suffix the rest's first
   * character when it is one of T, M, B, K. Nothing after that is looked at.
   */
  lemma MatchOfParts(p: string, v: string, rest: string)
    requires forall i :: 0 <= i < |p| ==> !IsDigit(p[i])
    requires |v| > 0 && IsDigit(v[0]) && forall i :: 0 <= i < |v| ==> IsValueChar(v[i])
    requires rest == [] || !IsValueChar(rest[0])
    ensures Match(p + v + rest) == Some(Groups(p, v, SuffixAt(rest, 0)))
  {
    var s := p + v + rest;
    assert s[|p|] == v[0];
    assert HasDigit(s);
    assert forall i :: 0 <= i < |p| ==> s[i] == p[i];
    var k := NonDigitPrefixLen(s);
    assert k == |p|;
    assert forall i :: 0 <= i < |v| ==> s[k + i] == v[i];
    assert rest != [] ==> s[k + |v|] == rest[0];
    var n := ValueRunLen(s, k);
    assert n == |v|;
    assert s[..k] == p && s[k..k + n] == v;
  }

  /** Characters after the magnitude suffix are ignored rather than rejected. */
  lemma TrailingTextIgnored(p: string, v: string, suffix: char, t: string)
    requires forall i :: 0 <= i < |p| ==> !IsDigit(p[i])
    requires |v| > 0 && IsDigit(v[0]) && forall i :: 0 <= i < |v| ==> IsValueChar(v[i])
    requires IsSuffixChar(suffix)
    requires p == [] || !IsSpace(p[0])
    requires t == [] || !IsSpace(t[|t| - 1])
    ensures ConvertCurrencyString(p + v + [suffix] + t) == ConvertCurrencyString(p + v + [suffix])
  {
    var full, short := p + v + [suffix] + t, p + v + [suffix];
    assert full == p + v + ([suffix] + t) && short == p + v + [suffix];
    assert full[0] == short[0] by {
      if p == [] { assert full[0] == v[0] && short[0] == v[0]; }
    }
    StripKeepsTrimmed(full);
    StripKeepsTrimmed(short);
    MatchOfParts(p, v, [suffix] + t);
    MatchOfParts(p, v, [suffix]);
  }

  /** The captured suffix is never changed by `.upper()`. */
  lemma SuffixUpperIsIdentity(s: string)
    requires Match(s).Some?
    ensures Upper(Match(s).value.suffix) == Match(s).value.suffix
  {
    var sfx := Match(s).value.suffix;
    if sfx != [] {
      assert Upper(sfx) == [sfx[0]] + Upper([]);
    }
  }

  /**
   * The suffix class is upper case only: a lower-case letter after the
   * digits ends the match with no suffix, so the multiplier is 1.
   */
  lemma LowercaseSuffixIgnored(p: string, v: string, c: char, t: string)
    requires forall i :: 0 <= i < |p| ==> !IsDigit(p[i])
    requires |v| > 0 && IsDigit(v[0]) && forall i :: 0 <= i < |v| ==> IsValueChar(v[i])
    requires 'a' <= c <= 'z'
    ensures Match(p + v + [c] + t) == Some(Groups(p, v, ""))
  {
    assert p + v + [c] + t == p + v + ([c] + t);
    MatchOfParts(p, v, [c] + t);
  }

  /**
   * With a digit present the outcome is fixed: the text before the first
   * digit is the currency, and the amount is the run's decimal value times
   * the suffix's multiplier; the run fails the conversion exactly when it
   * holds more than one dot.
   */
  lemma ConvertWithDigit(currencyStr: string)
    requires HasDigit(Strip(currencyStr))
    ensures var g := DigitGroups(Strip(currencyStr));
            var r := ConvertCurrencyString(currencyStr);
            && (r.Ok? <==> CountChar(g.valueStr, '.') <= 1)
            && (r.Err? ==> r.error == DecimalConversion)
            && (r.Ok? ==> r.value == MarketCap(g.currency, Times(DecimalOf(g.valueStr).value, Decimal(Multiplier(g.suffix), 0))))
  {
    var s := Strip(currencyStr);
    var g := DigitGroups(s);
    assert HasDigit(g.valueStr);
    SuffixUpperIsIdentity(s);
    assert ConvertCurrencyString(currencyStr) == ConvertGroups(g);
  }

  /**
   * Without a digit but with a dot the pattern still matches (on the last
   * dot), and the failure comes from the decimal conversion instead.
   */
  lemma DotWithoutDigitFailsConversion(currencyStr: string)
    requires !HasDigit(Strip(currencyStr)) && HasDot(Strip(currencyStr))
    ensures ConvertCurrencyString(currencyStr) == Err(DecimalConversion)
  {
    var s := Strip(currencyStr);
    assert Match(s).value.valueStr == ".";
    assert !HasDigit(".");
  }

  /** The conversion only depends on the groups the match captures. */
  lemma ConvertFollowsMatch(currencyStr: string, g: Groups)
    requires Match(Strip(currencyStr)) == Some(g)
    ensures forall i :: 0 <= i < |g.valueStr| ==> IsValueChar(g.valueStr[i])
    ensures ConvertCurrencyString(currencyStr) == ConvertGroups(g)
  {
    ValueRunIsValueChars(Strip(currencyStr));
  }

  /** "$3.16T", the third cell of a competitor row, is 3.16 trillion dollars. */
  lemma ExampleTrillion(cell: string)
    requires cell == "$3.16T"
    ensures ConvertCurrencyString(cell) == Ok(MarketCap("$", Decimal(316_000_000_000_000, -2)))
    ensures Amount(ConvertCurrencyString(cell).value.value) == 3160000000000.0
  {
    assert cell == "$" + "3.16" + ['T'];
    SuffixedCellMatch(cell, "$", "3.16", 'T');
    TrillionGroups();
    ConvertFollowsMatch(cell, Groups("$", "3.16", "T"));
    TrillionAmount();
  }

  lemma TrillionAmount()
    ensures Amount(Decimal(316_000_000_000_000, -2)) == 3160000000000.0
  {
    assert Dates.Pow10(2) == 100;
  }

  /** A trimmed cell of a currency, a value run and a magnitude letter matches as those three groups. */
  lemma SuffixedCellMatch(cell: string, p: string, v: string, c: char)
    requires cell == p + v + [c]
    requires forall i :: 0 <= i < |p| ==> !IsDigit(p[i])
    requires |v| > 0 && IsDigit(v[0]) && forall i :: 0 <= i < |v| ==> IsValueChar(v[i])
    requires c in "TMBK" && !IsSpace(cell[0])
    ensures Match(Strip(cell)) == Some(Groups(p, v, [c]))
  {
    StripKeepsTrimmed(cell);
    MatchOfParts(p, v, [c]);
  }

  lemma TrillionGroups()
    ensures ConvertGroups(Groups("$", "3.16", "T")) == Ok(MarketCap("$", Decimal(316_000_000_000_000, -2)))
  {
    assert DotIndex("3.16") == 1;
    assert "3.16"[..1] + "3.16"[2..] == "316";
    assert "316"[..2] == "31" && "31"[..1] == "3" && "3"[..0] == "";
    assert Dates.DigitsValue("316") == 316;
    assert Upper("T") == "T";
  }

  /** "$123.4M" is 123.4 million dollars. */
  lemma ExampleMillion(cell: string)
    requires cell == "$123.4M"
    ensures ConvertCurrencyString(cell) == Ok(MarketCap("$", Decimal(1_234_000_000, -1)))
    ensures Amount(ConvertCurrencyString(cell).value.value) == 123400000.0
  {
    assert cell == "$" + "123.4" + ['M'];
    SuffixedCellMatch(cell, "$", "123.4", 'M');
    MillionGroups();
    ConvertFollowsMatch(cell, Groups("$", "123.4", "M"));
    MillionAmount();
  }

  lemma MillionGroups()
    ensures ConvertGroups(Groups("$", "123.4", "M")) == Ok(MarketCap("$", Decimal(1_234_000_000, -1)))
  {
    MillionDecimal();
    assert Upper("M") == "M";
  }

  lemma MillionDecimal()
    ensures DecimalOf("123.4") == Some(Decimal(1234, -1))
  {
    assert DotIndex("123.4") == 3;
    assert "123.4"[..3] + "123.4"[4..] == "1234";
    assert "1234"[..3] == "123" && "123"[..2] == "12" && "12"[..1] == "1" && "1"[..0] == "";
    assert Dates.DigitsValue("1234") == 1234;
  }

  lemma MillionAmount()
    ensures Amount(Decimal(1_234_000_000, -1)) == 123400000.0
  {
    assert Dates.Pow10(1) == 10;
  }

  /** A lower-case "k" is not a suffix: "2k" is 2, with no currency. */
  lemma ExampleLowercase(cell: string)
    requires cell == "2k"
    ensures ConvertCurrencyString(cell) == Ok(MarketCap("", Decimal(2, 0)))
  {
    LowercaseMatch(cell);
    LowercaseGroups();
    ConvertFollowsMatch(cell, Groups("", "2", ""));
  }

  lemma LowercaseMatch(cell: string)
    requires cell == "2k"
    ensures Match(Strip(cell)) == Some(Groups("", "2", ""))
  {
    StripKeepsTrimmed(cell);
    assert cell == "" + "2" + ['k'] + "";
    LowercaseSuffixIgnored("", "2", 'k', "");
  }

  lemma LowercaseGroups()
    ensures ConvertGroups(Groups("", "2", "")) == Ok(MarketCap("", Decimal(2, 0)))
  {
    assert DotIndex("2") == 1;
    assert "2"[..1] + "" == "2";
  }

  /** A lone dot passes the pattern and then fails as a decimal. */
  lemma ExampleLoneDot(cell: string)
    requires |cell| == 1 && cell[0] == '.'
    ensures ConvertCurrencyString(cell) == Err(DecimalConversion)
  {
    StripKeepsTrimmed(cell);
    LoneDotMatch(cell);
    LoneDotGroups();
    ConvertFollowsMatch(cell, Groups("", ".", ""));
  }

  lemma LoneDotGroups()
    ensures ConvertGroups(Groups("", ".", "")) == Err(DecimalConversion)
  {
    assert !HasDigit(".");
  }

  lemma LoneDotMatch(cell: string)
    requires |cell| == 1 && cell[0] == '.'
    ensures Match(cell) == Some(Groups("", ".", ""))
  {
    assert HasDot(cell);
    assert !HasDigit(cell);
    assert LastDot(cell) == 0;
    assert cell[..0] == "";
    assert SuffixAt(cell, 1) == "";
  }

  /** Text with neither digit nor dot, such as " N/A ", is an invalid currency format. */
  lemma ExampleNoDigits(cell: string)
    requires |cell| == 5 && cell[0] == ' ' && cell[1] == 'N' && cell[2] == '/' && cell[3] == 'A' && cell[4] == ' '
    ensures ConvertCurrencyString(cell) == Err(InvalidCurrencyFormat)
  {
    NoDigitsStrip(cell);
    NoDigitsText(cell[1..4]);
  }

  lemma NoDigitsStrip(cell: string)
    requires |cell| == 5 && cell[0] == ' ' && cell[1] == 'N' && cell[4] == ' ' && cell[3] == 'A'
    ensures Strip(cell) == Strip(cell[1..4])
  {
    var t := cell[1..4];
    assert cell == cell[..1] + t + cell[4..];
    assert AllSpace(cell[..1]) && AllSpace(cell[4..]);
    StripRemovesPadding(cell[..1], t, cell[4..]);
  }

  lemma NoDigitsText(t: string)
    requires |t| == 3 && t[0] == 'N' && t[1] == '/' && t[2] == 'A'
    ensures Strip(t) == t && !HasDigit(t) && !HasDot(t)
  {
    assert !IsSpace(t[0]) && !IsSpace(t[2]);
    StripKeepsTrimmed(t);
    forall i | 0 <= i < |t| ensures !IsDigit(t[i]) && t[i] != '.' {
      assert i == 0 || i == 1 || i == 2;
    }
  }
}
