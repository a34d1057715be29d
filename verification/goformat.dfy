/** The three pieces of Go's standard library the provisioner relies on to
    build names and addresses: `fmt.Sprintf("%d", n)`,
    `fmt.Sprintf("%.02d", n)` and `strings.Replace(s, old, new, 1)`. */
module GoFormat {

  predicate IsDigit(c: char) {
    '0' <= c <= '9'
  }

  function DigitChar(d: nat): (c: char)
    requires d < 10
    ensures IsDigit(c)
  {
    "0123456789"[d]
  }

  function DigitValue(c: char): nat {
    if IsDigit(c) then (c as int) - ('0' as int) else 0
  }

  lemma DigitValueOfDigitChar(d: nat)
    requires d < 10
    ensures DigitValue(DigitChar(d)) == d
  {
  }

  /** Decimal digits of `n` without leading zeros ("0" for zero). */
  function Digits(n: nat): (s: string)
    ensures |s| >= 1
    ensures forall k :: 0 <= k < |s| ==> IsDigit(s[k])
  {
    if n < 10 then [DigitChar(n)] else Digits(n / 10) + [DigitChar(n % 10)]
  }

  /** Value of a string of decimal digits, most significant first. */
  function ParseDigits(s: string): nat {
    if |s| == 0 then 0 else ParseDigits(s[..|s| - 1]) * 10 + DigitValue(s[|s| - 1])
  }

  lemma {:induction false} ParseDigitsInvertsDigits(n: nat)
    ensures ParseDigits(Digits(n)) == n
  {
    DigitValueOfDigitChar(n % 10);
    if n >= 10 {
      var s := Digits(n);
      assert s[..|s| - 1] == Digits(n / 10);
      ParseDigitsInvertsDigits(n / 10);
    }
  }

  /** A leading zero does not change the parsed value. */
  lemma {:induction false} LeadingZeroIgnored(s: string)
    ensures ParseDigits("0" + s) == ParseDigits(s)
  {
    if |s| > 0 {
      var t := "0" + s;
      assert t[..|t| - 1] == "0" + s[..|s| - 1];
      LeadingZeroIgnored(s[..|s| - 1]);
    } else {
      assert ("0" + s)[..0] == [];
    }
  }

  /** Go's `%.2d` on a non-negative value: at least two digits, zero-padded. */
  function ZeroPad2(n: nat): string {
    var d := Digits(n);
    if |d| < 2 then "0" + d else d
  }

  /** Go's `fmt.Sprintf("%.02d", n)`: the precision is a minimum digit count,
      and the sign of a negative value goes in front of the padded digits. */
  function FormatPrecision2(n: int): string {
    if n < 0 then "-" + ZeroPad2(-n) else ZeroPad2(n)
  }

  /** Go's `fmt.Sprintf("%d", n)`. */
  function FormatDecimal(n: int): string {
    if n < 0 then "-" + Digits(-n) else Digits(n)
  }

  /** Reads back an optionally signed decimal; the inverse of both formats. */
  function ParseSigned(s: string): int {
    if |s| > 0 && s[0] == '-' then -(ParseDigits(s[1..]) as int) else ParseDigits(s)
  }

  lemma ParseSignedUnsigned(s: string)
    requires |s| > 0 ==> s[0] != '-'
    ensures ParseSigned(s) == ParseDigits(s)
  {
  }

  lemma ParseSignedNegative(t: string)
    ensures ParseSigned("-" + t) == -(ParseDigits(t) as int)
  {
    assert ("-" + t)[1..] == t;
  }

  lemma ZeroPad2RoundTrip(n: nat)
    ensures ParseDigits(ZeroPad2(n)) == n
    ensures |ZeroPad2(n)| >= 2 && ZeroPad2(n)[0] != '-'
  {
    ParseDigitsInvertsDigits(n);
    LeadingZeroIgnored(Digits(n));
  }

  lemma FormatPrecision2RoundTrip(n: int)
    ensures ParseSigned(FormatPrecision2(n)) == n
  {
    if n < 0 {
      ZeroPad2RoundTrip(-n);
      ParseSignedNegative(ZeroPad2(-n));
    } else {
      ZeroPad2RoundTrip(n);
      ParseSignedUnsigned(ZeroPad2(n));
    }
  }

  lemma FormatDecimalRoundTrip(n: int)
    ensures ParseSigned(FormatDecimal(n)) == n
  {
    if n < 0 {
      ParseDigitsInvertsDigits(-n);
      ParseSignedNegative(Digits(-n));
    } else {
      var d := Digits(n);
      ParseDigitsInvertsDigits(n);
      assert IsDigit(d[0]);
      ParseSignedUnsigned(d);
    }
  }

  /** Distinct numbers never format to the same padded text. */
  lemma FormatPrecision2Injective(a: int, b: int)
    ensures FormatPrecision2(a) == FormatPrecision2(b) <==> a == b
  {
    FormatPrecision2RoundTrip(a);
    FormatPrecision2RoundTrip(b);
  }

  lemma FormatDecimalInjective(a: int, b: int)
    ensures FormatDecimal(a) == FormatDecimal(b) <==> a == b
  {
    FormatDecimalRoundTrip(a);
    FormatDecimalRoundTrip(b);
  }

  /** `%.02d` pads one-digit values to two characters and leaves wider ones alone. */
  lemma FormatPrecision2Width(n: nat)
    ensures n < 10 ==> FormatPrecision2(n) == ['0', DigitChar(n)]
    ensures n >= 10 ==> FormatPrecision2(n) == FormatDecimal(n)
    ensures n < 100 <==> |FormatPrecision2(n)| == 2
  {
    if n >= 10 {
      DigitsLength(n / 10);
      if n >= 100 {
        DigitsLength(n / 10);
        assert n / 10 >= 10;
        DigitsAtLeastTwo(n / 10);
      }
    }
  }

  lemma DigitsLength(n: nat)
    ensures n < 10 <==> |Digits(n)| == 1
  {
  }

  lemma DigitsAtLeastTwo(n: nat)
    requires n >= 10
    ensures |Digits(n)| >= 2
  {
  }

  /** Occurrence of `pat` in `s` starting at position `p`. */
  predicate OccursAt(s: string, pat: string, p: int) {
    0 <= p && p + |pat| <= |s| && s[p..p + |pat|] == pat
  }

  predicate Contains(s: string, pat: string) {
    exists p :: 0 <= p <= |s| && OccursAt(s, pat, p)
  }

  /** `strings.Replace(s, pat, rep, 1)` with a non-empty pattern. */
  function ReplaceFirst(s: string, pat: string, rep: string): string
    requires |pat| > 0
    decreases |s|
  {
    if |s| < |pat| then s
    else if s[..|pat|] == pat then rep + s[|pat|..]
    else [s[0]] + ReplaceFirst(s[1..], pat, rep)
  }

  /** The first occurrence of `pat`, if any, is replaced by `rep`; every
      other character stays where it was. */
  lemma {:induction false} ReplaceFirstSpec(s: string, pat: string, rep: string)
    requires |pat| > 0
    ensures !Contains(s, pat) ==> ReplaceFirst(s, pat, rep) == s
    ensures Contains(s, pat) ==> ReplacedAtFirst(s, pat, rep, ReplaceFirst(s, pat, rep))
    decreases |s|
  {
    if |s| < |pat| {
    } else if s[..|pat|] == pat {
      assert OccursAt(s, pat, 0);
    } else {
      ReplaceFirstSpec(s[1..], pat, rep);
      ReplaceFirstSkip(s, pat, rep, ReplaceFirst(s[1..], pat, rep));
    }
  }

  /** `r` is `s` with its first occurrence of `pat` replaced by `rep`. */
  ghost predicate ReplacedAtFirst(s: string, pat: string, rep: string, r: string) {
    exists p :: OccursAt(s, pat, p)
      && (forall q :: 0 <= q < p ==> !OccursAt(s, pat, q))
      && r == s[..p] + rep + s[p + |pat|..]
  }

  /** When `s` does not start with `pat`, replacing in `s` is replacing in `s[1..]`. */
  lemma ReplaceFirstSkip(s: string, pat: string, rep: string, tail: string)
    requires |pat| > 0 && |s| >= |pat| && s[..|pat|] != pat
    requires !Contains(s[1..], pat) ==> tail == s[1..]
    requires Contains(s[1..], pat) ==> ReplacedAtFirst(s[1..], pat, rep, tail)
    ensures !Contains(s, pat) ==> [s[0]] + tail == s
    ensures Contains(s, pat) ==> ReplacedAtFirst(s, pat, rep, [s[0]] + tail)
  {
    ShiftOccurrence(s, pat);
    if Contains(s, pat) {
      var p :| 0 <= p <= |s| && OccursAt(s, pat, p);
      assert p != 0;
      assert OccursAt(s[1..], pat, p - 1);
      ReplaceFirstSkipFound(s, pat, rep, tail);
    } else {
      forall p1 | 0 <= p1 <= |s| - 1
        ensures !OccursAt(s[1..], pat, p1)
      {
        assert !OccursAt(s, pat, p1 + 1);
      }
      assert [s[0]] + s[1..] == s;
    }
  }

  lemma ReplaceFirstSkipFound(s: string, pat: string, rep: string, tail: string)
    requires |pat| > 0 && |s| >= |pat| && s[..|pat|] != pat
    requires ReplacedAtFirst(s[1..], pat, rep, tail)
    ensures ReplacedAtFirst(s, pat, rep, [s[0]] + tail)
  {
    ShiftOccurrence(s, pat);
    var p1 :| OccursAt(s[1..], pat, p1)
      && (forall q :: 0 <= q < p1 ==> !OccursAt(s[1..], pat, q))
      && tail == s[1..][..p1] + rep + s[1..][p1 + |pat|..];
    assert OccursAt(s, pat, p1 + 1);
    forall q | 0 <= q < p1 + 1
      ensures !OccursAt(s, pat, q)
    {
      if q > 0 {
        assert !OccursAt(s[1..], pat, q - 1);
      }
    }
    assert [s[0]] + tail == s[..p1 + 1] + rep + s[p1 + 1 + |pat|..];
  }

  /** Occurrences in `s[1..]` are the occurrences in `s` past position 0. */
  lemma ShiftOccurrence(s: string, pat: string)
    requires |s| > 0
    ensures forall p :: 0 <= p ==> (OccursAt(s[1..], pat, p) <==> OccursAt(s, pat, p + 1))
  {
    forall p | 0 <= p
      ensures OccursAt(s[1..], pat, p) <==> OccursAt(s, pat, p + 1)
    {
      if p + |pat| <= |s| - 1 {
        assert s[1..][p..p + |pat|] == s[p + 1..p + 1 + |pat|];
      }
    }
  }

  /** The first occurrence is unique, so `ReplaceFirst` is pinned down by it. */
  lemma ReplaceFirstAt(s: string, pat: string, rep: string, p: int)
    requires |pat| > 0
    requires OccursAt(s, pat, p)
    requires forall q :: 0 <= q < p ==> !OccursAt(s, pat, q)
    ensures ReplaceFirst(s, pat, rep) == s[..p] + rep + s[p + |pat|..]
  {
    ReplaceFirstSpec(s, pat, rep);
    assert Contains(s, pat);
    var p0 :| OccursAt(s, pat, p0)
      && (forall q :: 0 <= q < p0 ==> !OccursAt(s, pat, q))
      && ReplaceFirst(s, pat, rep) == s[..p0] + rep + s[p0 + |pat|..];
    assert !(p0 < p);
    assert !(p < p0);
  }

  /** A string with no '@' cannot contain a pattern that starts with '@'. */
  lemma NoAtSignNoOccurrence(s: string, pat: string)
    requires |pat| > 0 && pat[0] == '@'
    requires forall k :: 0 <= k < |s| ==> s[k] != '@'
    ensures !Contains(s, pat)
  {
    forall p | 0 <= p <= |s|
      ensures !OccursAt(s, pat, p)
    {
      if p + |pat| <= |s| {
        assert s[p..p + |pat|][0] == s[p];
      }
    }
  }
}
