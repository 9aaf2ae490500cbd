/**
 * String operations the source performs through JavaScript built-ins:
 * `Array.prototype.join`, `Number.prototype.toString`, `String.prototype.replace`
 * with a string pattern, `String.prototype.toLowerCase` and the `\s` class of
 * JavaScript regular expressions.
 */
module Text {

  // ---------------------------------------------------------------------------
  // join
  // ---------------------------------------------------------------------------

  /** `xs.join(sep)`. */
  function Join(xs: seq<string>, sep: string): string
  {
    if xs == [] then ""
    else if |xs| == 1 then xs[0]
    else xs[0] + sep + Join(xs[1..], sep)
  }

  /**
   * With a non-empty separator, a join is empty exactly when there is nothing
   * to join or a single empty item: this is what makes `list.join(', ') || d`
   * fall back to `d`.
   */
  lemma {:induction false} JoinEmptyIff(xs: seq<string>, sep: string)
    requires sep != ""
    ensures Join(xs, sep) == "" <==> (xs == [] || xs == [""])
  {
    if |xs| > 1 {
      assert |xs[0] + sep + Join(xs[1..], sep)| >= |sep| > 0;
    }
  }

  // ---------------------------------------------------------------------------
  // decimal rendering of naturals
  // ---------------------------------------------------------------------------

  predicate IsDigit(c: char) {
    '0' <= c <= '9'
  }

  function DigitChar(d: nat): (c: char)
    requires d < 10
    ensures IsDigit(c)
  {
    "0123456789"[d]
  }

  function DigitValue(c: char): (d: nat)
    requires IsDigit(c)
    ensures d < 10
  {
    (c as int - '0' as int) as nat
  }

  lemma DigitRoundTrip(d: nat)
    requires d < 10
    ensures DigitValue(DigitChar(d)) == d
  {
    var s := "0123456789";
    assert s[d] as int - '0' as int == d by {
      assert s[0] == '0' && s[1] == '1' && s[2] == '2' && s[3] == '3' && s[4] == '4';
      assert s[5] == '5' && s[6] == '6' && s[7] == '7' && s[8] == '8' && s[9] == '9';
    }
  }

  /** `n.toString()` for a non-negative integer: no sign, no leading zero. */
  function DecimalString(n: nat): (r: string)
    decreases n
    ensures |r| >= 1
    ensures forall i :: 0 <= i < |r| ==> IsDigit(r[i])
    ensures n > 0 ==> r[0] != '0'
  {
    if n < 10 then [DigitChar(n)] else DecimalString(n / 10) + [DigitChar(n % 10)]
  }

  /** Reads a string of decimal digits back into a number. */
  function ParseDecimal(s: string): nat
    requires forall i :: 0 <= i < |s| ==> IsDigit(s[i])
    decreases |s|
  {
    if s == [] then 0 else ParseDecimal(s[..|s| - 1]) * 10 + DigitValue(s[|s| - 1])
  }

  /** Rendering a natural in decimal loses nothing. */
  lemma {:induction false} DecimalRoundTrip(n: nat)
    ensures ParseDecimal(DecimalString(n)) == n
    decreases n
  {
    var r := DecimalString(n);
    if n < 10 {
      DigitRoundTrip(n);
      assert r[..|r| - 1] == [];
    } else {
      var p := DecimalString(n / 10);
      assert r == p + [DigitChar(n % 10)];
      assert r[..|r| - 1] == p;
      DigitRoundTrip(n % 10);
      DecimalRoundTrip(n / 10);
    }
  }

  function Pow10(k: nat): (p: nat)
    ensures p >= 1
  {
    if k == 0 then 1 else 10 * Pow10(k - 1)
  }

  /** A number with k digits (no leading zero) renders to exactly k characters. */
  lemma {:induction false} DecimalLength(n: nat, k: nat)
    requires k >= 1
    requires (if k == 1 then 0 else Pow10(k - 1)) <= n < Pow10(k)
    ensures |DecimalString(n)| == k
    decreases k
  {
    if k == 1 {
      assert n < 10;
    } else {
      assert Pow10(k) == 10 * Pow10(k - 1);
      assert n >= 10 by {
        assert Pow10(k - 1) >= 10 by { Pow10AtLeastTen(k - 1); }
      }
      DivBounds(n, k);
      DecimalLength(n / 10, k - 1);
    }
  }

  lemma {:induction false} Pow10AtLeastTen(k: nat)
    requires k >= 1
    ensures Pow10(k) >= 10
  {
    if k > 1 {
      Pow10AtLeastTen(k - 1);
    }
  }

  lemma DivBounds(n: nat, k: nat)
    requires k >= 2
    requires Pow10(k - 1) <= n < Pow10(k)
    ensures (if k - 1 == 1 then 0 else Pow10(k - 2)) <= n / 10 < Pow10(k - 1)
  {
    assert Pow10(k) == 10 * Pow10(k - 1);
    assert Pow10(k - 1) == 10 * Pow10(k - 2);
  }

  // ---------------------------------------------------------------------------
  // replace (first occurrence of a string pattern)
  // ---------------------------------------------------------------------------

  /** `pat` occurs in `s` starting at index `j`. */
  predicate OccursAt(s: string, pat: string, j: int) {
    0 <= j && j + |pat| <= |s| && s[j..j + |pat|] == pat
  }

  /** Index of the first occurrence of `pat` in `s` at or after `from`, or -1. */
  function IndexOf(s: string, pat: string, from: nat): (r: int)
    requires pat != ""
    decreases |s| - from
    ensures r == -1 || (from <= r && OccursAt(s, pat, r))
    ensures r != -1 ==> forall j :: from <= j < r ==> !OccursAt(s, pat, j)
    ensures r == -1 ==> forall j :: from <= j ==> !OccursAt(s, pat, j)
  {
    if from + |pat| > |s| then -1
    else if s[from..from + |pat|] == pat then from
    else IndexOf(s, pat, from + 1)
  }

  /** `s.replace(pat, rep)` with a string pattern: only the first occurrence is replaced. */
  function ReplaceFirst(s: string, pat: string, rep: string): string
    requires pat != ""
  {
    var i := IndexOf(s, pat, 0);
    if i == -1 then s else s[..i] + rep + s[i + |pat|..]
  }

  /** Removing a prefix the string starts with leaves the rest. */
  lemma ReplaceFirstOfPrefixed(pat: string, t: string)
    requires pat != ""
    ensures ReplaceFirst(pat + t, pat, "") == t
  {
    var s := pat + t;
    assert s[0..|pat|] == pat;
    assert IndexOf(s, pat, 0) == 0;
    assert s[|pat|..] == t;
  }

  /** A string in which the pattern does not occur is left as it is. */
  lemma ReplaceFirstAbsent(s: string, pat: string, rep: string)
    requires pat != ""
    requires forall j :: !OccursAt(s, pat, j)
    ensures ReplaceFirst(s, pat, rep) == s
  {
  }

  // ---------------------------------------------------------------------------
  // character classes and case
  // ---------------------------------------------------------------------------

  /** Membership in the `\s` class of JavaScript regular expressions. */
  predicate IsJsWhitespace(c: char) {
    c == ' ' || c == '\t' || c == '\n' || c == '\r' || c == '\U{000B}' || c == '\U{000C}'
    || c == '\U{00A0}' || c == '\U{1680}' || ('\U{2000}' <= c <= '\U{200A}')
    || c == '\U{2028}' || c == '\U{2029}' || c == '\U{202F}' || c == '\U{205F}'
    || c == '\U{3000}' || c == '\U{FEFF}'
  }

  function LowerChar(c: char): (d: char)
    ensures 'A' <= c <= 'Z' ==> d as int == c as int + 32
    ensures !('A' <= c <= 'Z') ==> d == c
  {
    if 'A' <= c <= 'Z' then (c as int + 32) as char else c
  }

  /** `s.toLowerCase()`, restricted to the ASCII letters. */
  function ToLower(s: string): (r: string)
    ensures |r| == |s|
    ensures forall i :: 0 <= i < |s| ==> r[i] == LowerChar(s[i])
  {
    seq(|s|, i requires 0 <= i < |s| => LowerChar(s[i]))
  }

  /** Lowercasing twice is lowercasing once. */
  lemma ToLowerIdempotent(s: string)
    ensures ToLower(ToLower(s)) == ToLower(s)
  {
  }
}
