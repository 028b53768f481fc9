/** String helpers shared by the model: the .NET notions of white space,
    ordinal case-insensitive comparison, ordinal prefix tests, invariant
    decimal rendering of integers and case-insensitive substring replacement. */
module Text {
  import opened Wrappers

  /** `char.IsWhiteSpace`: the Unicode space separators plus the control
      characters U+0009..U+000D and U+0085. */
  predicate IsWhiteSpace(c: char) {
    var n := c as int;
    (9 <= n <= 13) || n == 0x20 || n == 0x85 || n == 0xA0 || n == 0x1680
    || (0x2000 <= n <= 0x200A) || n == 0x2028 || n == 0x2029 || n == 0x202F
    || n == 0x205F || n == 0x3000
  }

  /** A string made only of white space (the empty string included). */
  predicate IsBlank(s: string) {
    forall i :: 0 <= i < |s| ==> IsWhiteSpace(s[i])
  }

  /** `string.IsNullOrWhiteSpace`. */
  predicate IsNullOrWhiteSpace(s: Option<string>) {
    s.None? || IsBlank(s.value)
  }

  /** Case folding used by ordinal case-insensitive comparison and by
      `ToLowerInvariant`, restricted to the ASCII letters. */
  function FoldChar(c: char): char {
    if 'A' <= c <= 'Z' then (c as int + 32) as char else c
  }

  /** `ToLowerInvariant` (ASCII letters only). */
  function ToLower(s: string): (r: string)
    ensures |r| == |s|
    ensures forall i :: 0 <= i < |s| ==> r[i] == FoldChar(s[i])
  {
    if s == [] then [] else [FoldChar(s[0])] + ToLower(s[1..])
  }

  /** `string.Equals(a, b, StringComparison.OrdinalIgnoreCase)`. */
  predicate EqualsIgnoreCase(a: string, b: string) {
    |a| == |b| && forall i :: 0 <= i < |a| ==> FoldChar(a[i]) == FoldChar(b[i])
  }

  /** `s.StartsWith(p, StringComparison.Ordinal)`. */
  predicate StartsWith(s: string, p: string) {
    |p| <= |s| && s[..|p|] == p
  }

  /** The pattern occurs at index `i` of `s`, ignoring case. */
  predicate MatchesAt(s: string, pat: string, i: int) {
    0 <= i && i + |pat| <= |s| && EqualsIgnoreCase(s[i..i + |pat|], pat)
  }

  /** Some index at which the pattern occurs, ignoring case. */
  predicate ContainsIgnoreCase(s: string, pat: string) {
    exists i | 0 <= i <= |s| :: MatchesAt(s, pat, i)
  }

  /** `s.Replace(pat, rep, StringComparison.OrdinalIgnoreCase)`: scans from
      the left and replaces every non-overlapping occurrence of `pat`. */
  function ReplaceIgnoreCase(s: string, pat: string, rep: string): string
    requires |pat| > 0
    decreases |s|
  {
    if |s| < |pat| then s
    else if EqualsIgnoreCase(s[..|pat|], pat) then rep + ReplaceIgnoreCase(s[|pat|..], pat, rep)
    else [s[0]] + ReplaceIgnoreCase(s[1..], pat, rep)
  }

  /** Dropping the first character shifts every occurrence one place left. */
  lemma MatchesAtTail(s: string, pat: string, j: int)
    requires |s| > 0 && j >= 0
    ensures MatchesAt(s[1..], pat, j) <==> MatchesAt(s, pat, j + 1)
  {
    if 0 <= j && j + |pat| <= |s| - 1 {
      assert s[1..][j..j + |pat|] == s[j + 1..j + 1 + |pat|];
    }
  }

  /** A string without the placeholder comes out of the replacement unchanged. */
  lemma {:induction false} ReplaceWithoutOccurrence(s: string, pat: string, rep: string)
    requires |pat| > 0
    requires !ContainsIgnoreCase(s, pat)
    ensures ReplaceIgnoreCase(s, pat, rep) == s
    decreases |s|
  {
    if |s| >= |pat| {
      assert !MatchesAt(s, pat, 0);
      assert s[0..|pat|] == s[..|pat|];
      var t := s[1..];
      assert !ContainsIgnoreCase(t, pat) by {
        forall j | 0 <= j <= |t| ensures !MatchesAt(t, pat, j) {
          MatchesAtTail(s, pat, j);
        }
      }
      ReplaceWithoutOccurrence(t, pat, rep);
      assert s == [s[0]] + t;
    }
  }

  /** A prefix none of whose characters folds to the pattern's first
      character is copied unchanged, and the scan goes on after it. */
  lemma {:induction false} ReplaceSkipsPrefix(p: string, rest: string, pat: string, rep: string)
    requires |pat| > 0
    requires forall j :: 0 <= j < |p| ==> FoldChar(p[j]) != FoldChar(pat[0])
    ensures ReplaceIgnoreCase(p + rest, pat, rep) == p + ReplaceIgnoreCase(rest, pat, rep)
    decreases |p|
  {
    if p == [] {
      assert p + rest == rest;
    } else {
      var s := p + rest;
      if |s| < |pat| {
        ReplaceShortText(rest, pat, rep);
      } else {
        assert s[..|pat|][0] == p[0];
        assert !EqualsIgnoreCase(s[..|pat|], pat);
        assert s[1..] == p[1..] + rest;
        ReplaceSkipsPrefix(p[1..], rest, pat, rep);
      }
    }
  }

  /** A text shorter than the pattern is left as it is. */
  lemma ReplaceShortText(s: string, pat: string, rep: string)
    requires |pat| > 0 && |s| < |pat|
    ensures ReplaceIgnoreCase(s, pat, rep) == s
  {
  }

  /** An occurrence at the very start, in any case, becomes `rep`, and the
      scan resumes right after it. */
  lemma ReplaceAtStart(occurrence: string, rest: string, pat: string, rep: string)
    requires |pat| > 0 && EqualsIgnoreCase(occurrence, pat)
    ensures ReplaceIgnoreCase(occurrence + rest, pat, rep) == rep + ReplaceIgnoreCase(rest, pat, rep)
  {
    var s := occurrence + rest;
    assert s[..|pat|] == occurrence;
    assert s[|pat|..] == rest;
  }

  /** The digit character for 0..9. */
  function DigitChar(d: nat): char
    requires d < 10
  {
    "0123456789"[d]
  }

  /** The value of a digit character, if it is one. */
  function DigitValue(c: char): Option<nat> {
    if '0' <= c <= '9' then Some(c as int - '0' as int) else None
  }

  /** Decimal digits of a natural number, most significant first, no leading zeros. */
  function NatDigits(n: nat): string
    decreases n
  {
    if n < 10 then [DigitChar(n)] else NatDigits(n / 10) + [DigitChar(n % 10)]
  }

  /** `n.ToString(CultureInfo.InvariantCulture)` for an integer. */
  function DecimalString(n: int): string {
    if n < 0 then "-" + NatDigits(-n) else NatDigits(n)
  }

  /** A string of decimal digits only. */
  predicate AllDigits(s: string) {
    forall i :: 0 <= i < |s| ==> '0' <= s[i] <= '9'
  }

  /** The canonical form of a natural number: digits with no leading zero,
      "0" itself excepted. */
  predicate CanonicalNat(s: string) {
    |s| > 0 && AllDigits(s) && (s[0] == '0' ==> |s| == 1)
  }

  /** The canonical form of an integer: a canonical natural, or a minus sign
      before a canonical natural other than "0". */
  predicate CanonicalDecimal(s: string) {
    CanonicalNat(s) || (|s| > 1 && s[0] == '-' && CanonicalNat(s[1..]) && s[1] != '0')
  }

  lemma {:induction false} NatDigitsCanonical(n: nat)
    ensures CanonicalNat(NatDigits(n))
    ensures n > 0 ==> NatDigits(n)[0] != '0'
    decreases n
  {
    if n < 10 {
      assert "0123456789"[n] == ['0', '1', '2', '3', '4', '5', '6', '7', '8', '9'][n];
    } else {
      NatDigitsCanonical(n / 10);
      var d := n % 10;
      assert '0' <= DigitChar(d) <= '9' by {
        assert "0123456789"[d] == ['0', '1', '2', '3', '4', '5', '6', '7', '8', '9'][d];
      }
    }
  }

  /** `DecimalString` writes every integer in canonical form, so no padded or
      signed-zero spelling is ever produced. */
  lemma DecimalStringCanonical(n: int)
    ensures CanonicalDecimal(DecimalString(n))
  {
    if n < 0 {
      NatDigitsCanonical(-n);
      var s := "-" + NatDigits(-n);
      assert s[1..] == NatDigits(-n);
    } else {
      NatDigitsCanonical(n);
    }
  }

  /** Reads a non-empty string of decimal digits. */
  function ParseDigits(s: string): Option<nat>
    decreases |s|
  {
    if s == [] then None
    else
      var d := DigitValue(s[|s| - 1]);
      if d.None? then None
      else if |s| == 1 then Some(d.value)
      else
        var head := ParseDigits(s[..|s| - 1]);
        if head.None? then None else Some(head.value * 10 + d.value)
  }

  /** Reads an optionally negative decimal integer: the partner of `DecimalString`. */
  function ParseDecimal(s: string): Option<int> {
    if |s| > 0 && s[0] == '-' then
      var m := ParseDigits(s[1..]);
      if m.None? then None else var v: int := m.value; Some(-v)
    else ParseDigits(s)
  }

  lemma {:induction false} ParseNatDigits(n: nat)
    ensures |NatDigits(n)| > 0 && NatDigits(n)[0] != '-'
    ensures ParseDigits(NatDigits(n)) == Some(n)
    decreases n
  {
    if n >= 10 {
      ParseNatDigits(n / 10);
      var s := NatDigits(n);
      assert s[..|s| - 1] == NatDigits(n / 10);
    }
  }

  /** Rendering an integer in decimal and reading it back gives the integer. */
  lemma DecimalRoundTrip(n: int)
    ensures ParseDecimal(DecimalString(n)) == Some(n)
  {
    if n < 0 {
      var digits := NatDigits(-n);
      ParseNatDigits(-n);
      var s := "-" + digits;
      assert s[1..] == digits;
      assert ParseDecimal(s) == Some(n);
    } else {
      ParseNatDigits(n);
      var digits := NatDigits(n);
      assert digits[0] != '-';
    }
  }

  function Pow10(k: nat): nat {
    if k == 0 then 1 else 10 * Pow10(k - 1)
  }

  lemma {:induction false} NatDigitsLength(n: nat, k: nat)
    requires 0 < k && n < Pow10(k)
    ensures |NatDigits(n)| <= k
    decreases k
  {
    if n >= 10 {
      assert k > 1;
      NatDigitsLength(n / 10, k - 1);
    }
  }

  /** A 32-bit integer needs at most eleven characters, sign included. */
  lemma Int32DecimalLength(n: int)
    requires -0x8000_0000 <= n < 0x8000_0000
    ensures |DecimalString(n)| <= 11
  {
    assert Pow10(10) == 10_000_000_000;
    if n < 0 { NatDigitsLength(-n, 10); } else { NatDigitsLength(n, 10); }
  }
}
