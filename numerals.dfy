/** Decimal numerals as the scanner reads them (digits, optionally a dot and
    more digits), their value, and the shortest text with the same value,
    which is how a number literal is printed back. */
module Numerals {
  import opened Lexing

  predicate AllDigits(t: string) { |t| > 0 && forall i :: 0 <= i < |t| ==> IsDigit(t[i]) }

  /** Index of the first `.` in t, or |t| when there is none. */
  function DotIndex(t: string): (k: nat)
    ensures k <= |t|
    ensures k < |t| ==> t[k] == '.'
  {
    if |t| == 0 || t[0] == '.' then 0 else 1 + DotIndex(t[1..])
  }

  /** A numeral: digits, then optionally a dot and at least one more digit. */
  predicate IsNumeral(t: string)
  {
    var k := DotIndex(t);
    AllDigits(t[..k]) && (k == |t| || AllDigits(t[k + 1..]))
  }

  function DigitValue(c: char): nat
    requires IsDigit(c)
  {
    (c as int - '0' as int) as nat
  }

  /** The value of a run of digits read as a whole number. */
  function DigitsValue(s: string): nat
    requires forall i :: 0 <= i < |s| ==> IsDigit(s[i])
  {
    if |s| == 0 then 0 else 10 * DigitsValue(s[..|s| - 1]) + DigitValue(s[|s| - 1])
  }

  function Pow10(n: nat): (p: nat)
    ensures p >= 1
  {
    if n == 0 then 1 else 10 * Pow10(n - 1)
  }

  /** The value of the digits after a decimal point. */
  function FractionValue(f: string): real
    requires forall i :: 0 <= i < |f| ==> IsDigit(f[i])
  {
    DigitsValue(f) as real / Pow10(|f|) as real
  }

  /** The exact value a numeral denotes. */
  function NumeralValue(t: string): real
    requires IsNumeral(t)
  {
    var k := DotIndex(t);
    var whole := DigitsValue(t[..k]) as real;
    if k == |t| then whole else whole + FractionValue(t[k + 1..])
  }

  /** Drops leading zeros, keeping at least one digit. */
  function StripLeadingZeros(s: string): (r: string)
    ensures |r| <= |s|
    ensures |s| > 0 ==> |r| > 0
    ensures r == s[|s| - |r|..]
    ensures |r| > 1 ==> r[0] != '0'
  {
    if |s| > 1 && s[0] == '0' then StripLeadingZeros(s[1..]) else s
  }

  /** Drops trailing zeros. */
  function StripTrailingZeros(s: string): (r: string)
    ensures |r| <= |s| && r == s[..|r|]
    ensures |r| > 0 ==> r[|r| - 1] != '0'
  {
    if |s| > 0 && s[|s| - 1] == '0' then StripTrailingZeros(s[..|s| - 1]) else s
  }

  /** The printed form of a number literal: no leading zeros in the whole
      part, no trailing zeros in the fraction, and no dot when the fraction
      is all zeros. */
  function NumberText(t: string): string
  {
    var k := DotIndex(t);
    var whole := StripLeadingZeros(t[..k]);
    var fraction := if k < |t| then StripTrailingZeros(t[k + 1..]) else "";
    if fraction == "" then whole else whole + "." + fraction
  }

  /** A numeral in shortest form: a lone zero or no leading zero, and a
      fraction, if any, that does not end in zero. */
  predicate Canonical(t: string)
    requires IsNumeral(t)
  {
    var k := DotIndex(t);
    (k > 1 ==> t[0] != '0') && (k < |t| ==> t[|t| - 1] != '0')
  }

  lemma {:induction false} LeadingZerosValue(s: string)
    requires AllDigits(s)
    ensures AllDigits(StripLeadingZeros(s))
    ensures DigitsValue(StripLeadingZeros(s)) == DigitsValue(s)
    decreases |s|
  {
    if |s| > 1 && s[0] == '0' {
      var t := s[1..];
      assert s == "0" + t;
      ZeroPrefix(t);
      LeadingZerosValue(t);
    }
  }

  /** A leading zero does not change the value of a run of digits. */
  lemma {:induction false} ZeroPrefix(s: string)
    requires forall i :: 0 <= i < |s| ==> IsDigit(s[i])
    ensures DigitsValue("0" + s) == DigitsValue(s)
    decreases |s|
  {
    if |s| > 0 {
      var z := "0" + s;
      assert z[..|z| - 1] == "0" + s[..|s| - 1];
      ZeroPrefix(s[..|s| - 1]);
    }
  }

  /** A trailing zero in a fraction does not change its value. */
  lemma {:induction false} TrailingZerosValue(s: string)
    requires AllDigits(s)
    ensures var r := StripTrailingZeros(s);
      (forall i :: 0 <= i < |r| ==> IsDigit(r[i])) && FractionValue(r) == FractionValue(s)
    decreases |s|
  {
    if |s| > 0 && s[|s| - 1] == '0' {
      var t := s[..|s| - 1];
      assert DigitsValue(s) == 10 * DigitsValue(t);
      assert Pow10(|s|) == 10 * Pow10(|t|);
      assert FractionValue(s) == FractionValue(t);
      if |t| > 0 {
        TrailingZerosValue(t);
      }
    }
  }

  /** Printing a numeral keeps its value, gives a numeral in shortest form,
      and leaves a numeral already in shortest form as it is. */
  lemma NumberTextFacts(t: string)
    requires IsNumeral(t)
    ensures IsNumeral(NumberText(t))
    ensures NumeralValue(NumberText(t)) == NumeralValue(t)
    ensures Canonical(NumberText(t))
    ensures Canonical(t) ==> NumberText(t) == t
  {
    var k := DotIndex(t);
    if Canonical(t) {
      CanonicalText(t);
    }
    if k == |t| {
      WholeText(t);
    } else if StripTrailingZeros(t[k + 1..]) == "" {
      ZeroFractionText(t, k);
    } else {
      FractionText(t, k);
    }
  }

  lemma WholeText(t: string)
    requires IsNumeral(t) && DotIndex(t) == |t|
    ensures IsNumeral(NumberText(t)) && Canonical(NumberText(t))
    ensures NumeralValue(NumberText(t)) == NumeralValue(t)
  {
    var whole := StripLeadingZeros(t);
    assert t[..|t|] == t;
    assert NumberText(t) == whole;
    LeadingZerosValue(t);
    WholeNumeral(whole);
    WholeNumeral(t);
  }

  lemma ZeroFractionText(t: string, k: nat)
    requires IsNumeral(t) && k == DotIndex(t) < |t| && StripTrailingZeros(t[k + 1..]) == ""
    ensures IsNumeral(NumberText(t)) && Canonical(NumberText(t))
    ensures NumeralValue(NumberText(t)) == NumeralValue(t)
  {
    var whole := StripLeadingZeros(t[..k]);
    assert NumberText(t) == whole;
    LeadingZerosValue(t[..k]);
    WholeNumeral(whole);
    ZeroFraction(t[k + 1..]);
  }

  lemma FractionText(t: string, k: nat)
    requires IsNumeral(t) && k == DotIndex(t) < |t|
    requires StripTrailingZeros(t[k + 1..]) != ""
    ensures IsNumeral(NumberText(t)) && Canonical(NumberText(t))
    ensures NumeralValue(NumberText(t)) == NumeralValue(t)
  {
    var whole := StripLeadingZeros(t[..k]);
    var fraction := StripTrailingZeros(t[k + 1..]);
    var r := NumberText(t);
    assert r == whole + "." + fraction;
    LeadingZerosValue(t[..k]);
    TrailingZerosValue(t[k + 1..]);
    FractionNumeral(r, whole, fraction);
  }

  /** A numeral in shortest form prints as itself. */
  lemma CanonicalText(t: string)
    requires IsNumeral(t) && Canonical(t)
    ensures NumberText(t) == t
  {
    var k := DotIndex(t);
    assert t[..k] == StripLeadingZeros(t[..k]);
    if k < |t| {
      var f := t[k + 1..];
      assert f[|f| - 1] == t[|t| - 1];
      assert StripTrailingZeros(f) == f;
      assert t == t[..k] + "." + f;
    } else {
      assert t[..k] == t;
    }
  }

  /** The first dot of w + rest is in rest when w has none. */
  lemma {:induction false} DotIndexConcat(w: string, rest: string)
    requires forall i :: 0 <= i < |w| ==> w[i] != '.'
    ensures DotIndex(w + rest) == |w| + DotIndex(rest)
    decreases |w|
  {
    if |w| > 0 {
      assert (w + rest)[1..] == w[1..] + rest;
      DotIndexConcat(w[1..], rest);
    } else {
      assert w + rest == rest;
    }
  }

  /** A run of digits on its own is a numeral worth its digits. */
  lemma WholeNumeral(w: string)
    requires AllDigits(w)
    ensures DotIndex(w) == |w| && IsNumeral(w)
    ensures NumeralValue(w) == DigitsValue(w) as real
  {
    DotIndexConcat(w, "");
    assert w + "" == w;
    assert w[..|w|] == w;
  }

  /** Digits, a dot and digits form a numeral worth the whole part plus the
      fraction. */
  lemma FractionNumeral(t: string, w: string, f: string)
    requires AllDigits(w) && AllDigits(f) && t == w + "." + f
    ensures DotIndex(t) == |w| && IsNumeral(t)
    ensures NumeralValue(t) == DigitsValue(w) as real + FractionValue(f)
  {
    assert DotIndex(t) == |w| by {
      DotIndexConcat(w, "." + f);
      assert w + ("." + f) == t;
    }
    assert t[..|w|] == w && t[|w| + 1..] == f;
    FractionParts(t, |w|, w, f);
  }

  lemma FractionParts(t: string, k: nat, w: string, f: string)
    requires k < |t| && DotIndex(t) == k && t[..k] == w && t[k + 1..] == f
    requires AllDigits(w) && AllDigits(f)
    ensures IsNumeral(t)
    ensures NumeralValue(t) == DigitsValue(w) as real + FractionValue(f)
  {
  }

  /** A fraction that strips to nothing is all zeros and worth nothing. */
  lemma {:induction false} ZeroFraction(f: string)
    requires forall i :: 0 <= i < |f| ==> IsDigit(f[i])
    requires StripTrailingZeros(f) == ""
    ensures DigitsValue(f) == 0 && FractionValue(f) == 0.0
    decreases |f|
  {
    if |f| > 0 {
      ZeroFraction(f[..|f| - 1]);
    }
  }
}
