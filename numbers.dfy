/*
 * Numeric vocabulary shared by the analysis and the parsers.
 *
 * JavaScript numbers are modelled as mathematical reals: every `real` is a
 * finite number, so `Number.isFinite` holds of every value in the model and
 * NaN/Infinity appear only as the failure of a conversion. Conversions
 * between text and numbers are not modelled concretely: a parser is an
 * arbitrary function from text to an optional finite number and a formatter
 * an arbitrary function from numbers to text. Lemmas that need the two to
 * agree say so in their `requires`.
 */
module Numbers {
  import opened Results

  /** `Number(text)` restricted to its finite outcomes. */
  type NumberParser = string -> Option<real>

  /** `String(x)` / `formatNumber(x)` for a finite number. */
  type NumberFormatter = real -> string

  /** `Math.PI` as the decimal that JavaScript prints for it. */
  const PI: real := 3.141592653589793

  /** Standard gravity in cm/s^2 (src/core/analysis/types.ts). */
  const STANDARD_GRAVITY_CM: real := 980.665

  function Abs(x: real): (r: real)
    ensures r >= 0.0 && (r == x || r == -x)
  {
    if x < 0.0 then -x else x
  }

  function Max(a: real, b: real): (r: real)
    ensures r >= a && r >= b && (r == a || r == b)
  {
    if a >= b then a else b
  }

  function Min(a: nat, b: nat): (r: nat)
    ensures r <= a && r <= b && (r == a || r == b)
  {
    if a <= b then a else b
  }

  /** `Number.isInteger(x)`. */
  predicate IsInteger(x: real)
  {
    x.Floor as real == x
  }

  /** `Math.trunc(x)`: rounding toward zero. */
  function Trunc(x: real): (r: int)
    ensures Abs(r as real) <= Abs(x) < Abs(r as real) + 1.0
    ensures (r >= 0) == (x > -1.0)
  {
    if x >= 0.0 then x.Floor else -((-x).Floor)
  }

  /** `sqrt` is the non-negative square root on non-negative arguments. */
  ghost predicate IsSqrt(sqrt: real -> real)
  {
    forall x :: x >= 0.0 ==> sqrt(x) >= 0.0 && sqrt(x) * sqrt(x) == x
  }

  /** Squaring is strictly monotone on the non-negative reals. */
  lemma SquareStrict(a: real, b: real)
    requires 0.0 <= a < b
    ensures a * a < b * b
  {
    var p, q, r := a * a, a * b, b * b;
    assert p <= q by { assert a * (b - a) >= 0.0; }
    assert q < r by { assert (b - a) * b > 0.0; }
  }

  /** Two non-negative reals with the same square are equal. */
  lemma SquareInjective(a: real, b: real)
    requires a >= 0.0 && b >= 0.0 && a * a == b * b
    ensures a == b
  {
    if a < b { SquareStrict(a, b); }
    if b < a { SquareStrict(b, a); }
  }

  /** A square root is monotone. */
  lemma SqrtMonotone(sqrt: real -> real, x: real, y: real)
    requires IsSqrt(sqrt)
    requires 0.0 <= x <= y
    ensures sqrt(x) <= sqrt(y)
  {
    var a, b := sqrt(x), sqrt(y);
    assert a >= 0.0 && a * a == x;
    assert b >= 0.0 && b * b == y;
    if b < a { SquareStrict(b, a); }
  }

  /** `Math.hypot(x, y)` on the reals: the non-negative square root of x² + y². */
  ghost predicate IsHypot(hypot: (real, real) -> real)
  {
    forall x, y :: hypot(x, y) >= 0.0 && hypot(x, y) * hypot(x, y) == x * x + y * y
  }

  // ---- written numbers ----------------------------------------------------------

  /** A character of a written number. */
  predicate NumeralChar(c: char)
  {
    '0' <= c <= '9' || c == '.' || c == '-' || c == '+' || c == 'e' || c == 'E'
  }

  /** A non-empty text made of numeral characters. */
  predicate IsNumeral(s: string)
  {
    |s| >= 1 && forall i :: 0 <= i < |s| ==> NumeralChar(s[i])
  }

  /** The formatter writes numerals only. */
  ghost predicate WritesNumerals(fmt: NumberFormatter)
  {
    forall x :: IsNumeral(fmt(x))
  }

  /** The parser reads every formatted number back to itself. */
  ghost predicate ReadsBack(fmt: NumberFormatter, parse: NumberParser)
  {
    forall x :: parse(fmt(x)) == Some(x)
  }

  /** The one number the parser gives for a formatted number. */
  lemma ReadBack(fmt: NumberFormatter, parse: NumberParser, x: real)
    requires ReadsBack(fmt, parse)
    ensures parse(fmt(x)) == Some(x)
  {
  }
}
