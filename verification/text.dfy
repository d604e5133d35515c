/**
 * The few operations of java.lang.String and java.lang.Double that the
 * plot view relies on: `indexOf` of a character, `contains`, and
 * `Double.parseDouble` restricted to plain decimal notation.
 */
module Text {
  import opened Wrappers

  predicate IsDigit(c: char) {
    '0' <= c <= '9'
  }

  predicate AllDigits(s: string) {
    forall i :: 0 <= i < |s| ==> IsDigit(s[i])
  }

  /** `s.indexOf(c)`: the first position of `c` in `s`, or -1 when there is none. */
  function IndexOf(s: string, c: char): (r: int)
    ensures -1 <= r < |s|
    ensures r >= 0 ==> s[r] == c
    ensures r >= 0 ==> forall j :: 0 <= j < r ==> s[j] != c
    ensures r < 0 ==> forall j :: 0 <= j < |s| ==> s[j] != c
  {
    if |s| == 0 then -1
    else if s[0] == c then 0
    else
      var k := IndexOf(s[1..], c);
      if k < 0 then -1 else k + 1
  }

  /** `s.contains(t)`: `t` occurs somewhere in `s` as a contiguous piece. */
  predicate Contains(s: string, t: string) {
    exists i :: 0 <= i <= |s| - |t| && OccursAt(s, t, i)
  }

  predicate OccursAt(s: string, t: string, i: int) {
    0 <= i <= |s| - |t| && s[i..i + |t|] == t
  }

  lemma InfixOccurs(x: string, y: string, z: string)
    ensures OccursAt(x + y + z, y, |x|) && Contains(x + y + z, y)
  {
    var s := x + y + z;
    assert s[|x|..|x| + |y|] == y;
    assert OccursAt(s, y, |x|);
  }

  /** The natural number a string of decimal digits denotes. */
  function DigitsValue(s: string): nat
    requires AllDigits(s)
  {
    if |s| == 0 then 0
    else 10 * DigitsValue(s[..|s| - 1]) + DigitValue(s[|s| - 1])
  }

  /** Appending a digit multiplies the value by ten and adds the digit. */
  lemma DigitsValueAppend(s: string, c: char)
    requires AllDigits(s) && IsDigit(c)
    ensures AllDigits(s + [c])
    ensures DigitsValue(s + [c]) == 10 * DigitsValue(s) + DigitValue(c)
  {
    assert (s + [c])[..|s|] == s;
  }

  function DigitValue(c: char): int {
    c as int - '0' as int
  }

  lemma OneDigit(a: char)
    requires IsDigit(a)
    ensures AllDigits([a]) && DigitsValue([a]) == DigitValue(a)
  {
    DigitsValueAppend([], a);
    assert [] + [a] == [a];
  }

  lemma TwoDigits(a: char, b: char)
    requires IsDigit(a) && IsDigit(b)
    ensures AllDigits([a, b]) && DigitsValue([a, b]) == 10 * DigitValue(a) + DigitValue(b)
  {
    DigitsValueAppend([], a);
    assert [] + [a] == [a];
    DigitsValueAppend([a], b);
    assert [a] + [b] == [a, b];
  }

  lemma ThreeDigits(a: char, b: char, c: char)
    requires IsDigit(a) && IsDigit(b) && IsDigit(c)
    ensures AllDigits([a, b, c])
    ensures DigitsValue([a, b, c]) == 100 * DigitValue(a) + 10 * DigitValue(b) + DigitValue(c)
  {
    TwoDigits(a, b);
    DigitsValueAppend([a, b], c);
    assert [a, b] + [c] == [a, b, c];
  }

  function Pow10(n: nat): (p: nat)
    ensures p >= 1
  {
    if n == 0 then 1 else 10 * Pow10(n - 1)
  }

  /**
   * An unsigned decimal number: digits, optionally a point and more digits,
   * at least one digit in all ("48", "07.038", ".5", "5.").
   */
  function ParseUnsigned(s: string): (r: Option<real>)
    ensures r.Some? ==> r.value >= 0.0
  {
    var k := IndexOf(s, '.');
    if k < 0 then PointedValue(s, "") else PointedValue(s[..k], s[k + 1..])
  }

  /** The number `whole.frac`, when both parts are digits and not both empty. */
  function PointedValue(whole: string, frac: string): (r: Option<real>)
    ensures r.Some? ==> r.value >= 0.0
  {
    if AllDigits(whole) && AllDigits(frac) && |whole| + |frac| > 0 then
      Some(DigitsValue(whole) as real + DigitsValue(frac) as real / Pow10(|frac|) as real)
    else
      None
  }

  /**
   * `Double.parseDouble(s)` for plain decimal notation with an optional
   * sign; `None` stands for the NumberFormatException Java throws.
   */
  function ParseDecimal(s: string): (r: Option<real>)
  {
    if |s| > 0 && s[0] == '-' then
      match ParseUnsigned(s[1..])
      case Some(v) => Some(-v)
      case None => None
    else if |s| > 0 && s[0] == '+' then ParseUnsigned(s[1..])
    else ParseUnsigned(s)
  }

  /** A number written without a minus sign never parses to a negative value. */
  lemma ParseDecimalNonNegative(s: string)
    requires |s| == 0 || s[0] != '-'
    requires ParseDecimal(s).Some?
    ensures ParseDecimal(s).value >= 0.0
  {
  }

  /** A leading minus sign negates the value and nothing else. */
  lemma ParseDecimalMinus(s: string)
    requires |s| == 0 || (s[0] != '-' && s[0] != '+')
    ensures ParseDecimal("-" + s).Some? <==> ParseDecimal(s).Some?
    ensures ParseDecimal(s).Some? ==> ParseDecimal("-" + s).value == -ParseDecimal(s).value
  {
    assert ("-" + s)[1..] == s;
  }

  lemma {:induction false} IndexOfAbsent(a: string, b: string, c: char)
    requires forall i :: 0 <= i < |a| ==> a[i] != c
    ensures IndexOf(a + [c] + b, c) == |a|
  {
    if |a| > 0 {
      assert (a + [c] + b)[1..] == a[1..] + [c] + b;
      IndexOfAbsent(a[1..], b, c);
    }
  }

  lemma PointedValueOfDigits(whole: string, frac: string)
    requires AllDigits(whole) && AllDigits(frac)
    requires |whole| + |frac| > 0
    ensures PointedValue(whole, frac)
         == Some(DigitsValue(whole) as real + DigitsValue(frac) as real / Pow10(|frac|) as real)
  {
  }

  /** A field of digits alone reads as the number they denote. */
  lemma ParseWhole(digits: string)
    requires AllDigits(digits) && |digits| > 0
    ensures ParseDecimal(digits) == Some(DigitsValue(digits) as real)
  {
    PointedValueOfDigits(digits, "");
    assert forall j :: 0 <= j < |digits| ==> digits[j] != '.' by {
      forall j | 0 <= j < |digits| ensures digits[j] != '.' { assert IsDigit(digits[j]); }
    }
    var k := IndexOf(digits, '.');
    assert k < 0;
    assert IsDigit(digits[0]);
    assert ParseDecimal(digits) == ParseUnsigned(digits);
    assert ParseUnsigned(digits) == PointedValue(digits, "");
  }

  /**
   * The reading of a field of the form `digits.digits`: the whole part plus
   * the fraction scaled by its number of digits.
   */
  lemma ParsePointed(whole: string, frac: string)
    requires AllDigits(whole) && AllDigits(frac)
    requires |whole| + |frac| > 0
    ensures ParseDecimal(whole + "." + frac)
         == Some(DigitsValue(whole) as real + DigitsValue(frac) as real / Pow10(|frac|) as real)
  {
    PointedValueOfDigits(whole, frac);
    var s := whole + "." + frac;
    assert forall i :: 0 <= i < |whole| ==> whole[i] != '.' by {
      forall i | 0 <= i < |whole| ensures whole[i] != '.' { assert IsDigit(whole[i]); }
    }
    IndexOfAbsent(whole, frac, '.');
    var k := IndexOf(s, '.');
    assert k == |whole|;
    assert s[..k] == whole;
    assert s[k + 1..] == frac;
    assert s[0] != '-' && s[0] != '+' by {
      if |whole| > 0 { assert s[0] == whole[0]; } else { assert s[0] == '.'; }
    }
    assert ParseDecimal(s) == ParseUnsigned(s);
    assert ParseUnsigned(s) == PointedValue(s[..k], s[k + 1..]);
  }
}
