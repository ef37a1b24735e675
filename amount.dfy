/**
 * The amount field of the converter: the keystroke filter `^\d*\.?\d*$` and
 * `parseFloat` on the strings that filter admits. Numbers are exact reals;
 * `NaN` is kept as its own value because `parseFloat(".")` produces it.
 */
module Amount {
  import opened Text

  /** A JavaScript number as the converter uses it: a finite value or NaN. */
  datatype Number = Finite(value: real) | NaN

  /** The regular expression `^\d*\.?\d*$`: digits, an optional single '.', digits. Only digits and '.' get through. */
  predicate MatchesAmountPattern(s: string)
    ensures MatchesAmountPattern(s) ==> forall i :: 0 <= i < |s| ==> IsDigit(s[i]) || s[i] == '.'
  {
    AllDigits(s) || exists k :: 0 <= k < |s| && s[k] == '.' && AllDigits(s[..k]) && AllDigits(s[k + 1..])
  }

  /**
   * The test `value === '' || /^\d*\.?\d*$/.test(value)` that decides whether a
   * keystroke is kept. The empty-string test is redundant: the pattern accepts "".
   */
  predicate AcceptsAmount(value: string)
    ensures AcceptsAmount(value) <==> MatchesAmountPattern(value)
  {
    value == "" || MatchesAmountPattern(value)
  }

  /** The number of '.' characters in a string. */
  function DotCount(s: string): nat
  {
    if s == [] then 0 else (if s[0] == '.' then 1 else 0) + DotCount(s[1..])
  }

  lemma {:induction false} DotCountZero(s: string)
    ensures DotCount(s) == 0 <==> forall i :: 0 <= i < |s| ==> s[i] != '.'
  {
    if s != [] {
      DotCountZero(s[1..]);
      assert forall i :: 1 <= i < |s| ==> s[i] == s[1..][i - 1];
    }
  }

  lemma {:induction false} DotCountConcat(a: string, b: string)
    ensures DotCount(a + b) == DotCount(a) + DotCount(b)
  {
    if a == [] {
      assert a + b == b;
    } else {
      assert (a + b)[1..] == a[1..] + b;
      DotCountConcat(a[1..], b);
    }
  }

  /** The position of the first '.', or the length when there is none. */
  function DotIndex(s: string): (k: nat)
    ensures k <= |s|
    ensures forall i :: 0 <= i < k ==> s[i] != '.'
    ensures k < |s| ==> s[k] == '.'
  {
    if s == [] then 0 else if s[0] == '.' then 0 else 1 + DotIndex(s[1..])
  }

  /** The characters before the first '.'. */
  function IntegerPart(s: string): string
  {
    s[..DotIndex(s)]
  }

  /** The characters after the first '.' ("" when there is no point). */
  function FractionPart(s: string): string
  {
    var k := DotIndex(s);
    if k < |s| then s[k + 1..] else []
  }

  /** Every string is its integer part, then the point and the fraction part if it has a point. */
  lemma SplitAtDot(s: string)
    ensures DotIndex(s) < |s| ==> s == IntegerPart(s) + ['.'] + FractionPart(s)
    ensures DotIndex(s) == |s| ==> s == IntegerPart(s)
  {
    var k := DotIndex(s);
    if k < |s| {
      SplitAround(s, k);
    }
  }

  lemma SplitAround(s: string, k: nat)
    requires k < |s|
    ensures s == s[..k] + [s[k]] + s[k + 1..]
  {
  }

  /** A digit string holds no '.'. */
  lemma DigitsHaveNoDot(s: string)
    requires AllDigits(s)
    ensures DotCount(s) == 0
  {
    DotCountZero(s);
  }

  /** The pattern holds exactly when both parts around the first '.' are digit strings. */
  lemma PatternIffParts(s: string)
    ensures MatchesAmountPattern(s) <==> AllDigits(IntegerPart(s)) && AllDigits(FractionPart(s))
  {
    if MatchesAmountPattern(s) {
      PatternGivesParts(s);
    }
    var k := DotIndex(s);
    if AllDigits(IntegerPart(s)) && AllDigits(FractionPart(s)) {
      if k < |s| {
        assert s[..k] == IntegerPart(s) && s[k + 1..] == FractionPart(s);
      } else {
        assert s == IntegerPart(s);
      }
    }
  }

  /** An admitted string splits at its first '.' into two digit strings. */
  lemma PatternGivesParts(s: string)
    requires MatchesAmountPattern(s)
    ensures AllDigits(IntegerPart(s)) && AllDigits(FractionPart(s))
  {
    var k := DotIndex(s);
    if AllDigits(s) {
      assert forall i :: 0 <= i < |s| ==> s[i] != '.';
      assert k == |s|;
    } else {
      var j :| 0 <= j < |s| && s[j] == '.' && AllDigits(s[..j]) && AllDigits(s[j + 1..]);
      assert forall i :: 0 <= i < j ==> s[i] == s[..j][i] && s[i] != '.';
      assert k == j;
    }
  }

  /**
   * The pattern is the set of strings made only of digits and '.', with at
   * most one '.': the accepted inputs are exactly the "digits with at most
   * one decimal point" strings.
   */
  lemma AmountPatternCharacterisation(s: string)
    ensures MatchesAmountPattern(s) <==>
      (forall i :: 0 <= i < |s| ==> IsDigit(s[i]) || s[i] == '.') && DotCount(s) <= 1
  {
    var ip, fp, k := IntegerPart(s), FractionPart(s), DotIndex(s);
    PatternIffParts(s);
    SplitAtDot(s);
    if k < |s| {
      DotCountConcat(ip + ['.'], fp);
      DotCountConcat(ip, ['.']);
      assert DotCount(['.']) == 1;
    }
    assert DotCount(ip) == 0 by { DotCountZero(ip); }
    if MatchesAmountPattern(s) {
      DigitsHaveNoDot(fp);
      forall i | 0 <= i < |s| ensures IsDigit(s[i]) || s[i] == '.' {
        if i < k { assert s[i] == ip[i]; }
        else if i > k { assert s[i] == fp[i - k - 1]; }
      }
    }
    if (forall i :: 0 <= i < |s| ==> IsDigit(s[i]) || s[i] == '.') && DotCount(s) <= 1 {
      assert AllDigits(ip) by {
        forall i | 0 <= i < |ip| ensures IsDigit(ip[i]) { assert ip[i] == s[i]; }
      }
      if k < |s| {
        DotCountZero(fp);
        forall i | 0 <= i < |fp| ensures IsDigit(fp[i]) { assert fp[i] == s[k + 1 + i]; }
      }
    }
  }

  /** The value of the digits after a decimal point: ".d1d2..." read as a fraction. */
  function FractionValue(s: string): real
    requires AllDigits(s)
  {
    if s == [] then 0.0 else (DigitValue(s[0]) as real + FractionValue(s[1..])) / 10.0
  }

  /** A fraction lies in [0, 1) and is positive exactly when one of its digits is not '0'. */
  lemma {:induction false} FractionValueBounds(s: string)
    requires AllDigits(s)
    ensures 0.0 <= FractionValue(s) < 1.0
    ensures FractionValue(s) > 0.0 <==> HasNonzeroDigit(s)
  {
    if s != [] {
      FractionValueBounds(s[1..]);
      assert s == [s[0]] + s[1..];
      HasNonzeroDigitConcat([s[0]], s[1..]);
      assert HasNonzeroDigit([s[0]]) <==> '1' <= s[0] <= '9' by {
        if '1' <= s[0] <= '9' { assert [s[0]][0] == s[0]; }
      }
    }
  }

  /**
   * `parseFloat` of a string the amount filter admits: NaN when there is no
   * digit at all ("" and "."), otherwise the exact decimal value.
   */
  function ParseAmount(s: string): (r: Number)
    requires MatchesAmountPattern(s)
    ensures r.Finite? ==> 0.0 <= r.value && r.value.Floor == DigitsValue(IntegerPart(s))
  {
    PatternIffParts(s);
    var ip, fp := IntegerPart(s), FractionPart(s);
    FractionValueBounds(fp);
    if ip == [] && fp == [] then NaN
    else Finite(DigitsValue(ip) as real + FractionValue(fp))
  }

  /** `parseFloat` gives NaN on an admitted string exactly when it holds no digit: "" or ".". */
  lemma ParseAmountNaN(s: string)
    requires MatchesAmountPattern(s)
    ensures ParseAmount(s) == NaN <==> s == "" || s == "."
  {
    SplitAtDot(s);
    if s == "." { assert DotIndex(s) == 0; }
  }

  /** On an admitted string, `parseFloat` is a positive number exactly when some digit is not '0'. */
  lemma ParseAmountPositive(s: string)
    requires MatchesAmountPattern(s)
    ensures (ParseAmount(s).Finite? && ParseAmount(s).value > 0.0) <==> HasNonzeroDigit(s)
  {
    PatternIffParts(s);
    var ip, fp := IntegerPart(s), FractionPart(s);
    SplitAtDot(s);
    DigitsValuePositive(ip);
    FractionValueBounds(fp);
    if DotIndex(s) < |s| {
      HasNonzeroDigitConcat(ip + ['.'], fp);
      HasNonzeroDigitConcat(ip, ['.']);
      assert !HasNonzeroDigit(['.']);
    }
    if ip == [] && fp == [] {
      assert !HasNonzeroDigit(ip) && !HasNonzeroDigit(fp);
    }
  }

  /** The guard `parseFloat(amount) <= 0`; NaN compares false. */
  predicate AtMostZero(n: Number)
    ensures n.NaN? ==> !AtMostZero(n)
    ensures AtMostZero(n) ==> n.value <= 0.0
  {
    n.Finite? && n.value <= 0.0
  }
}
