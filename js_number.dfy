// The IEEE double values that JavaScript and Swift code can produce from a
// division: a finite value (kept exact as a real), the two infinities and NaN.
// Comparisons follow IEEE: every comparison with NaN is false.

module JsNumber {
  datatype Num = Fin(v: real) | PosInf | NegInf | NaN
  {
    predicate Lt(b: real)
    {
      match this
      case Fin(v) => v < b
      case NegInf => true
      case _ => false
    }

    predicate Le(b: real)
    {
      match this
      case Fin(v) => v <= b
      case NegInf => true
      case _ => false
    }

    predicate Gt(b: real)
    {
      match this
      case Fin(v) => v > b
      case PosInf => true
      case _ => false
    }

    predicate Ge(b: real)
    {
      match this
      case Fin(v) => v >= b
      case PosInf => true
      case _ => false
    }

    /** Strict equality `===` with a finite number. */
    predicate Is(b: real)
    {
      this == Fin(b)
    }

    predicate IsNaN()
    {
      this == NaN
    }
  }

  /** a / b for finite operands. */
  function Div(a: real, b: real): (r: Num)
    ensures b != 0.0 ==> r == Fin(a / b)
    ensures b == 0.0 ==> (r == NaN <==> a == 0.0)
  {
    if b != 0.0 then Fin(a / b)
    else if a > 0.0 then PosInf
    else if a < 0.0 then NegInf
    else NaN
  }

  /** x * k for a finite k. */
  function Mul(x: Num, k: real): Num
  {
    match x
    case Fin(v) => Fin(v * k)
    case NaN => NaN
    case PosInf => if k > 0.0 then PosInf else if k < 0.0 then NegInf else NaN
    case NegInf => if k > 0.0 then NegInf else if k < 0.0 then PosInf else NaN
  }

  /** x + k for a finite k. */
  function Add(x: Num, k: real): Num
  {
    match x
    case Fin(v) => Fin(v + k)
    case other => other
  }

  /** Math.min(hi, x): NaN when x is NaN. */
  function MinWith(hi: real, x: Num): Num
  {
    match x
    case Fin(v) => Fin(if v < hi then v else hi)
    case PosInf => Fin(hi)
    case NegInf => NegInf
    case NaN => NaN
  }

  /** Math.max(lo, x): NaN when x is NaN. */
  function MaxWith(lo: real, x: Num): Num
  {
    match x
    case Fin(v) => Fin(if v > lo then v else lo)
    case PosInf => PosInf
    case NegInf => Fin(lo)
    case NaN => NaN
  }

  /** Math.max(lo, Math.min(hi, x)), the clamp the calculators use. */
  function Clamp(lo: real, hi: real, x: Num): (r: Num)
    requires lo <= hi
    ensures r == NaN <==> x == NaN
    ensures r != NaN ==> r.Fin? && lo <= r.v <= hi
    ensures x.Fin? && lo <= x.v <= hi ==> r == x
  {
    MaxWith(lo, MinWith(hi, x))
  }

  /** Math.max(lo, Math.min(hi, x)) on a finite value. */
  function ClampReal(lo: real, hi: real, x: real): (r: real)
    requires lo <= hi
    ensures lo <= r <= hi
    ensures lo <= x <= hi ==> r == x
    ensures x < lo ==> r == lo
    ensures x > hi ==> r == hi
  {
    if x > hi then hi else if x < lo then lo else x
  }

  lemma ClampRealMonotone(lo: real, hi: real, x: real, y: real)
    requires lo <= hi && x <= y
    ensures ClampReal(lo, hi, x) <= ClampReal(lo, hi, y)
  {
  }

  /** Math.round: the nearest integer, halves rounded up. */
  function Round(x: real): (r: int)
    ensures x - 0.5 < r as real <= x + 0.5
  {
    (x + 0.5).Floor
  }

  /** base^n for a natural exponent (Math.pow with an integer exponent). */
  function Pow(base: real, n: nat): real
  {
    if n == 0 then 1.0 else base * Pow(base, n - 1)
  }

  lemma ScaleDown(a: real, b: real)
    requires 0.0 <= a <= 1.0 && 0.0 <= b
    ensures 0.0 <= a * b <= b
  {
    assert (1.0 - a) * b >= 0.0;
  }

  lemma {:induction false} PowBounds(base: real, n: nat)
    requires 0.0 <= base <= 1.0
    ensures 0.0 <= Pow(base, n) <= 1.0
  {
    if n > 0 {
      PowBounds(base, n - 1);
      ScaleDown(base, Pow(base, n - 1));
    }
  }

  lemma {:induction false} PowDecreasing(base: real, m: nat, n: nat)
    requires 0.0 <= base <= 1.0 && m <= n
    ensures Pow(base, n) <= Pow(base, m)
  {
    if m < n {
      var prev := Pow(base, n - 1);
      PowDecreasing(base, m, n - 1);
      PowBounds(base, n - 1);
      ScaleDown(base, prev);
    }
  }
}
