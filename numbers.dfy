/**
 * JavaScript numbers as the calculator uses them: parsing operand text
 * (`parseFloat`), the four operations, and the policy that turns a result
 * back into display text.
 *
 * Numbers are exact reals; IEEE-754 rounding is not modelled. The host's
 * text conversions that cannot be stated on reals (`Number.prototype.toString`,
 * `toExponential(6)`, and `parseFloat` on text that is not a plain decimal
 * entry) are parameters, bundled in a `NumberLib`.
 */
module Numbers {
  import opened Strings

  /** A JavaScript number: an exact finite value, or NaN. */
  datatype Num = Finite(value: real) | NaN

  /** The host conversions the model takes as given. */
  datatype NumberLib = NumberLib(
    parseOther: string -> Num,       // parseFloat on text that is not a decimal entry
    show: real -> string,            // Number.prototype.toString
    showExponential: real -> string) // Number.prototype.toExponential(6)

  /** A result whose plain text is longer than this is reformatted. */
  const MaxPlainLength := 12
  /** Long results above this are shown in exponential notation. */
  const ExponentialAbove: real := 999999999.0
  /** Long non-zero results below this are shown in exponential notation. */
  const ExponentialBelow: real := 0.000001
  /** 10^10: `toFixed(10)` keeps ten digits after the point. */
  const FixedScale: real := 10000000000.0

  predicate IsDigit(c: char) {
    '0' <= c <= '9'
  }

  predicate AllDigits(s: string) {
    forall i :: 0 <= i < |s| ==> IsDigit(s[i])
  }

  /** The text without its leading minus sign, if it has one. */
  function Unsigned(t: string): string {
    if |t| > 0 && t[0] == '-' then t[1..] else t
  }

  /** An optional `-`, then digits with at most one `.` among them. */
  predicate IsDecimalText(t: string) {
    var b := Unsigned(t);
    && (forall i :: 0 <= i < |b| ==> IsDigit(b[i]) || b[i] == '.')
    && (forall i, j :: 0 <= i < j < |b| && b[i] == '.' ==> b[j] != '.')
  }

  function Pow10(n: nat): (p: nat)
    ensures p >= 1
  {
    if n == 0 then 1 else 10 * Pow10(n - 1)
  }

  /** The value of a string of decimal digits. */
  function DigitsValue(ds: string): (v: nat)
    requires AllDigits(ds)
    ensures v < Pow10(|ds|)
    ensures v == 0 <==> forall i :: 0 <= i < |ds| ==> ds[i] == '0'
  {
    if ds == [] then 0
    else
      var init := ds[..|ds| - 1];
      assert forall i :: 0 <= i < |init| ==> init[i] == ds[i];
      10 * DigitsValue(init) + (ds[|ds| - 1] as int - '0' as int)
  }

  /** Digits before the point of an unsigned decimal text. */
  function WholeDigits(b: string): string {
    b[..IndexOf(b, '.')]
  }

  /** Digits after the point of an unsigned decimal text (empty without a point). */
  function FractionDigits(b: string): string {
    var k := IndexOf(b, '.');
    if k < |b| then b[k + 1..] else ""
  }

  /** `parseFloat` on a decimal text: NaN when it has no digit at all
      (`""`, `"-"`, `"."`, `"-."`), its exact decimal value otherwise. */
  function ParseDecimal(t: string): (r: Num)
    requires IsDecimalText(t)
    ensures r.NaN? <==> Unsigned(t) == "" || Unsigned(t) == "."
    ensures r.Finite? && Unsigned(t) == t ==> r.value >= 0.0
    ensures r.Finite? && Unsigned(t) != t ==> r.value <= 0.0
    ensures AllDigits(t) && t != "" ==> r == Finite(DigitsValue(t) as real)
  {
    var b := Unsigned(t);
    var whole, fraction := WholeDigits(b), FractionDigits(b);
    assert AllDigits(whole) && AllDigits(fraction) by {
      var k := IndexOf(b, '.');
      assert forall i :: 0 <= i < |fraction| ==> fraction[i] == b[k + 1 + i];
    }
    if whole == "" && fraction == "" then NaN
    else
      var w, f, p := DigitsValue(whole) as real, DigitsValue(fraction) as real, Pow10(|fraction|) as real;
      FractionSign(f, p);
      assert AllDigits(t) ==> b == t && whole == t && fraction == "" by {
        if AllDigits(t) && t != "" {
          assert !IsDigit('-') && !IsDigit('.');
          assert IndexOf(b, '.') == |b|;
        }
      }
      var v := w + f / p;
      Finite(if b == t then v else -v)
  }

  /** `parseFloat`: exact on decimal entry text, the host's on anything else
      (formatted results, `"Error"`, `"NaN"`). */
  function ParseFloat(lib: NumberLib, t: string): (r: Num)
    ensures IsDecimalText(t) ==> (r == Finite(0.0) <==> HasDigit(t) && OnlyZeroDigits(t))
    ensures AllDigits(t) && t != "" ==> r == Finite(DigitsValue(t) as real)
    ensures !IsDecimalText(t) ==> r == lib.parseOther(t)
  {
    if IsDecimalText(t) then
      ParseDecimalIsZero(t);
      ParseDecimal(t)
    else lib.parseOther(t)
  }

  /** Rounds a non-negative value to the nearest multiple of 10^-10, ties upward. */
  function RoundHalfUp(x: real): (r: real)
    requires x >= 0.0
    ensures r - x <= 0.5 / FixedScale && x - r < 0.5 / FixedScale
    ensures (r * FixedScale).Floor as real == r * FixedScale
    ensures r >= 0.0
  {
    var n := (x * FixedScale + 0.5).Floor;
    assert n as real <= x * FixedScale + 0.5 < n as real + 1.0;
    var r := n as real / FixedScale;
    assert r * FixedScale == n as real;
    r
  }

  /** `parseFloat(x.toFixed(10))`: `toFixed` rounds the magnitude to ten
      decimal places, ties away from zero, and keeps the sign. */
  function RoundTo10(x: real): (r: real)
    ensures r - x <= 0.5 / FixedScale && x - r <= 0.5 / FixedScale
    ensures x >= 0.0 ==> x - r < 0.5 / FixedScale
    ensures x <= 0.0 ==> r - x < 0.5 / FixedScale
    ensures (r * FixedScale).Floor as real == r * FixedScale
    ensures x >= 0.0 ==> r >= 0.0
    ensures x <= 0.0 ==> r <= 0.0
  {
    if x < 0.0 then
      var m := RoundHalfUp(-x);
      var n := (m * FixedScale).Floor;
      assert -m * FixedScale == (-n) as real;
      assert (-m * FixedScale).Floor == -n;
      -m
    else RoundHalfUp(x)
  }

  /** The text shown for a numeric result: its own text while that has at
      most 12 characters; a longer one in exponential notation when the value
      is above 999999999, negative (the test compares the signed value with
      0.000001) or a positive value below 0.000001; otherwise the text of the
      value rounded to ten decimal places. */
  function Format(lib: NumberLib, x: real): (r: string)
    ensures |lib.show(x)| <= MaxPlainLength ==> r == lib.show(x)
    ensures |lib.show(x)| > MaxPlainLength && x > ExponentialAbove ==> r == lib.showExponential(x)
    ensures |lib.show(x)| > MaxPlainLength && x < 0.0 ==> r == lib.showExponential(x)
    ensures |lib.show(x)| > MaxPlainLength && 0.0 < x < ExponentialBelow ==> r == lib.showExponential(x)
    ensures |lib.show(x)| > MaxPlainLength && 0.0 <= x <= ExponentialAbove && (x == 0.0 || x >= ExponentialBelow) ==>
              exists y :: r == lib.show(y) && y - x <= 0.5 / FixedScale && x - y <= 0.5 / FixedScale
                       && (y * FixedScale).Floor as real == y * FixedScale
  {
    var plain := lib.show(x);
    if |plain| > MaxPlainLength then
      if x > ExponentialAbove || (x < ExponentialBelow && x != 0.0) then lib.showExponential(x)
      else lib.show(RoundTo10(x))
    else plain
  }

  /** The text of any number result; NaN prints as `"NaN"`. */
  function NumText(lib: NumberLib, n: Num): string {
    match n
    case NaN => "NaN"
    case Finite(x) => Format(lib, x)
  }

  /** An unsigned decimal text is its whole digits, then optionally a point
      and the fraction digits. */
  lemma DecimalParts(b: string)
    requires IsDecimalText(b) && Unsigned(b) == b
    ensures b == WholeDigits(b) + FractionDigits(b) || b == WholeDigits(b) + "." + FractionDigits(b)
    ensures AllDigits(WholeDigits(b)) && AllDigits(FractionDigits(b))
  {
  }

  predicate HasDigit(t: string) {
    exists c :: c in t && IsDigit(c)
  }

  predicate OnlyZeroDigits(t: string) {
    forall c :: c in t && IsDigit(c) ==> c == '0'
  }

  /** The digits of a decimal text are those of its whole and fraction parts. */
  lemma DigitsOfDecimal(t: string)
    requires IsDecimalText(t)
    ensures var b := Unsigned(t);
      && AllDigits(WholeDigits(b) + FractionDigits(b))
      && (forall c :: c in t && IsDigit(c) <==> c in WholeDigits(b) + FractionDigits(b))
  {
  }

  lemma FractionSign(f: real, p: real)
    requires f >= 0.0 && p >= 1.0
    ensures f / p >= 0.0
    ensures f / p == 0.0 <==> f == 0.0
  {
  }

  /** The concrete zero test of the division: a decimal text parses to zero
      exactly when it has a digit and every digit is `0` (`"0"`, `"-0"`, `"0."`, `"00.000"`). */
  lemma ParseDecimalIsZero(t: string)
    requires IsDecimalText(t)
    ensures ParseDecimal(t) == Finite(0.0) <==> HasDigit(t) && OnlyZeroDigits(t)
  {
    var b := Unsigned(t);
    DigitsOfDecimal(t);
    var whole, fraction := WholeDigits(b), FractionDigits(b);
    assert AllDigits(whole) && AllDigits(fraction) by {
      assert forall i :: 0 <= i < |whole| ==> whole[i] == (whole + fraction)[i];
      assert forall i :: 0 <= i < |fraction| ==> fraction[i] == (whole + fraction)[|whole| + i];
    }
    assert HasDigit(t) <==> whole + fraction != "" by {
      if whole + fraction != "" {
        assert (whole + fraction)[0] in whole + fraction;
      }
    }
    assert OnlyZeroDigits(t) <==> (forall c :: c in whole ==> c == '0') && (forall c :: c in fraction ==> c == '0');
    if whole != "" || fraction != "" {
      var w, f, p := DigitsValue(whole) as real, DigitsValue(fraction) as real, Pow10(|fraction|) as real;
      FractionSign(f, p);
    }
  }
}
