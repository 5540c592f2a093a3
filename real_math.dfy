/**
 * Numeric helpers shared by the whole model.
 *
 * Single- and double-precision floats are modelled as mathematical reals. The
 * transcendental library functions the C++ code calls (std::pow(2, x),
 * std::log2, std::log, std::exp, std::cos, std::sqrt) are uninterpreted
 * constants of arrow type; the only facts the proofs use about them are the
 * ones collected in Laws(), which every lemma that needs them requires.
 * Rounding and the integer conversions of C++ are defined exactly.
 */
module RealMath {

  /** std::pow(2.0f, x) */
  const Pow2: real -> real
  /** std::log2 */
  const Log2: real -> real
  /** std::log (natural logarithm) */
  const Log: real -> real
  /** std::exp */
  const Exp: real -> real
  /** std::cos */
  const Cos: real -> real
  /** std::sqrt */
  const Sqrt: real -> real

  /** M_PI as written in BasePitchCurve.h */
  const PI: real := 3.14159265358979323846

  /** The mathematical facts about the library functions that the proofs rely on. */
  ghost predicate Laws()
  {
    && Pow2(0.0) == 1.0
    && (forall x {:trigger Pow2(x)} :: Pow2(x) > 0.0)
    && (forall x, y {:trigger Pow2(x), Pow2(y)} :: x + y == 0.0 ==> Pow2(x) * Pow2(y) == 1.0)
    && (forall x {:trigger Log2(Pow2(x))} :: Log2(Pow2(x)) == x)
    && (forall y {:trigger Pow2(Log2(y))} :: y > 0.0 ==> Pow2(Log2(y)) == y)
    && (forall x {:trigger Exp(x)} :: Exp(x) > 0.0)
    && (forall y {:trigger Exp(Log(y))} :: y > 0.0 ==> Exp(Log(y)) == y)
    && (forall x {:trigger Sqrt(x)} :: x >= 0.0 ==> Sqrt(x) >= 0.0)
    && Sqrt(0.0) == 0.0
    && (forall x {:trigger Cos(x)} :: -1.57 <= x <= 1.57 ==> Cos(x) > 0.0)
  }

  /** Exp and Log are increasing; kept apart from Laws() because few proofs need them. */
  ghost predicate MonotoneLaws()
  {
    && (forall x, y {:trigger Exp(x), Exp(y)} :: x <= y ==> Exp(x) <= Exp(y))
    && (forall x, y {:trigger Log(x), Log(y)} :: 0.0 < x <= y ==> Log(x) <= Log(y))
  }

  /** static_cast<int> of a real: truncation toward zero. */
  function Trunc(x: real): (r: int)
    ensures x >= 0.0 ==> r as real <= x < r as real + 1.0
    ensures x < 0.0 ==> r as real - 1.0 < x <= r as real
  {
    if x >= 0.0 then x.Floor else -((-x).Floor)
  }

  /** std::round: nearest integer, halfway cases away from zero. */
  function Round(x: real): (r: int)
    ensures x >= 0.0 ==> r as real - 0.5 <= x < r as real + 0.5
    ensures x < 0.0 ==> r as real - 0.5 < x <= r as real + 0.5
  {
    if x >= 0.0 then (x + 0.5).Floor else -((-x + 0.5).Floor)
  }

  /** C++ integer division of a by a positive divisor: the quotient is truncated toward zero. */
  function CDiv(a: int, b: int): (q: int)
    requires b > 0
    ensures a >= 0 ==> q * b <= a < q * b + b
    ensures a < 0 ==> q * b - b < a <= q * b
  {
    if a >= 0 then a / b else -((-a) / b)
  }

  function Min(a: int, b: int): int { if a < b then a else b }
  function Max(a: int, b: int): int { if a < b then b else a }

  /** std::clamp(v, lo, hi) */
  function Clamp(v: int, lo: int, hi: int): (r: int)
    requires lo <= hi
    ensures lo <= r <= hi
    ensures lo <= v <= hi ==> r == v
  {
    if v < lo then lo else if hi < v then hi else v
  }

  function AbsR(x: real): real { if x < 0.0 then -x else x }
  function MinR(a: real, b: real): real { if a <= b then a else b }
  function MaxR(a: real, b: real): real { if a <= b then b else a }

  /** Sum of a sequence of reals, from the left. */
  function Sum(s: seq<real>): real
  {
    if s == [] then 0.0 else Sum(s[..|s| - 1]) + s[|s| - 1]
  }

  lemma {:induction false} SumScaled(s: seq<real>, c: real)
    requires c != 0.0
    ensures Sum(seq(|s|, i requires 0 <= i < |s| => s[i] / c)) == Sum(s) / c
  {
    if s != [] {
      var t := seq(|s|, i requires 0 <= i < |s| => s[i] / c);
      var p := s[..|s| - 1];
      assert t[..|t| - 1] == seq(|p|, i requires 0 <= i < |p| => p[i] / c);
      SumScaled(p, c);
    }
  }

  lemma {:induction false} SumZero(s: seq<real>)
    requires forall i :: 0 <= i < |s| ==> s[i] == 0.0
    ensures Sum(s) == 0.0
  {
    if s != [] { SumZero(s[..|s| - 1]); }
  }

  lemma {:induction false} SumPositive(s: seq<real>)
    requires s != []
    requires forall i :: 0 <= i < |s| ==> s[i] > 0.0
    ensures Sum(s) > 0.0
  {
    if |s| > 1 { SumPositive(s[..|s| - 1]); }
  }

  lemma {:induction false} SumNonNegative(s: seq<real>)
    requires forall i :: 0 <= i < |s| ==> s[i] >= 0.0
    ensures Sum(s) >= 0.0
  {
    if s != [] { SumNonNegative(s[..|s| - 1]); }
  }

  /** A point of the segment from a to b lies between its endpoints. */
  lemma LerpBetween(a: real, b: real, t: real)
    requires 0.0 <= t <= 1.0
    ensures MinR(a, b) <= a + t * (b - a) <= MaxR(a, b)
  {
    var d := b - a;
    var u := 1.0 - t;
    MulNonNegative(t, if d >= 0.0 then d else -d);
    MulNonNegative(u, if d >= 0.0 then d else -d);
    assert t * d + u * d == d;
  }

  lemma MulNonNegative(x: real, y: real)
    requires x >= 0.0 && y >= 0.0
    ensures x * y >= 0.0
  {
  }

  lemma FractionInUnit(a: int, d: int)
    requires 0 <= a <= d && d > 0
    ensures 0.0 <= a as real / d as real <= 1.0
  {
    var q := a as real / d as real;
    assert q * d as real == a as real;
  }

  lemma DivNonNegative(a: real, b: real)
    requires a >= 0.0 && b > 0.0
    ensures a / b >= 0.0
  {
  }

  /** Multiplying by a non-negative factor keeps the order of two integers. */
  lemma MulMonotone(a: int, b: int, c: int)
    requires a <= b && c >= 0
    ensures a * c <= b * c
  {
  }

  lemma MulNonNegativeInt(a: int, b: int)
    requires a >= 0 && b >= 0
    ensures a * b >= 0
  {
  }
}
