/**
 * JavaScript `Number` values as the dashboard uses them. Finite numbers are
 * idealised as exact rationals (`real`): rounding of binary floating point is
 * not modelled. The special values matter because the cost-basis fold can
 * divide by zero, so NaN and the two infinities are kept, with the arithmetic
 * rules of IEEE 754 for them.
 */
module JsNumber {
  import opened Wrappers

  /** A JavaScript number: a finite value, NaN, or an infinity with its sign. */
  datatype Num = Fin(value: real) | NaN | Inf(positive: bool)

  function Neg(a: Num): Num
  {
    match a
    case Fin(x) => Fin(-x)
    case NaN => NaN
    case Inf(s) => Inf(!s)
  }

  /** `a + b` */
  function Add(a: Num, b: Num): (r: Num)
    ensures a.Fin? && b.Fin? ==> r == Fin(a.value + b.value)
    ensures !a.Fin? || !b.Fin? ==> !r.Fin?
  {
    match (a, b)
    case (NaN, _) => NaN
    case (_, NaN) => NaN
    case (Fin(x), Fin(y)) => Fin(x + y)
    case (Inf(s), Fin(_)) => Inf(s)
    case (Fin(_), Inf(t)) => Inf(t)
    case (Inf(s), Inf(t)) => if s == t then Inf(s) else NaN
  }

  /** `a - b` */
  function Sub(a: Num, b: Num): (r: Num)
    ensures a.Fin? && b.Fin? ==> r == Fin(a.value - b.value)
    ensures !a.Fin? || !b.Fin? ==> !r.Fin?
  {
    Add(a, Neg(b))
  }

  /** `a * b`; an infinity times zero is NaN. */
  function Mul(a: Num, b: Num): (r: Num)
    ensures a.Fin? && b.Fin? ==> r == Fin(a.value * b.value)
    ensures !a.Fin? || !b.Fin? ==> !r.Fin?
  {
    match a
    case NaN => NaN
    case Fin(x) =>
      (match b
       case NaN => NaN
       case Fin(_) => Fin(a.value * b.value)
       case Inf(t) => if x == 0.0 then NaN else Inf(t == (x > 0.0)))
    case Inf(s) =>
      (match b
       case NaN => NaN
       case Fin(y) => if y == 0.0 then NaN else Inf(s == (y > 0.0))
       case Inf(t) => Inf(s == t))
  }

  /**
   * `a / b`. A zero divisor is taken to be +0: in this model zeros only arise
   * from adding and subtracting finite values that start at +0, which never
   * yields -0. Then x / 0 is NaN for x = 0 and an infinity with the sign of x
   * otherwise.
   */
  function Div(a: Num, b: Num): (r: Num)
    ensures a.Fin? && b.Fin? && b.value != 0.0 ==> r == Fin(a.value / b.value)
    ensures b == Fin(0.0) ==> !r.Fin?
    ensures !a.Fin? ==> !r.Fin?
  {
    match (a, b)
    case (NaN, _) => NaN
    case (_, NaN) => NaN
    case (Fin(x), Fin(y)) =>
      if y != 0.0 then Fin(x / y) else if x == 0.0 then NaN else Inf(x > 0.0)
    case (Fin(_), Inf(_)) => Fin(0.0)
    case (Inf(s), Fin(y)) => if y == 0.0 then Inf(s) else Inf(s == (y > 0.0))
    case (Inf(_), Inf(_)) => NaN
  }

  /**
   * The number denoted by `x.toFixed(2)` for a finite x: the nearest multiple
   * of 1/100, ties away from zero (the sign is split off first and the
   * magnitude rounded with ties up).
   */
  function Round2(x: real): (r: real)
    ensures -0.005 <= r - x <= 0.005
    ensures x == 0.0 ==> r == 0.0
    ensures x >= 0.0 ==> r >= 0.0
    ensures x <= 0.0 ==> r <= 0.0
  {
    if x >= 0.0 then RoundMagnitude2(x) else -RoundMagnitude2(-x)
  }

  /** Rounds a non-negative x to the nearest multiple of 1/100, ties up. */
  function RoundMagnitude2(x: real): (r: real)
    requires x >= 0.0
    ensures 0.0 <= r && -0.005 <= r - x <= 0.005
    ensures x == 0.0 ==> r == 0.0
  {
    var k := (x * 100.0 + 0.5).Floor;
    assert x * 100.0 - 0.5 < k as real <= x * 100.0 + 0.5;
    k as real / 100.0
  }

  /** `n.toFixed(2)` read back as a number; NaN and the infinities print as themselves. */
  function ToFixed2(n: Num): (r: Num)
    ensures r.Fin? == n.Fin?
    ensures n.Fin? ==> -0.005 <= r.value - n.value <= 0.005
    ensures !n.Fin? ==> r == n
  {
    match n
    case Fin(x) => Fin(Round2(x))
    case _ => n
  }

  /** `Math.round(x)`: the nearest integer, ties towards +Infinity. */
  function MathRound(x: real): (r: int)
    ensures x - 0.5 < r as real <= x + 0.5
  {
    (x + 0.5).Floor
  }

  /** `!!v` for a `number | null`: false for null and for 0. */
  predicate Truthy(v: Option<real>)
  {
    v.Some? && v.value != 0.0
  }

  /** `v || 0` for a value that is either null or a number. */
  function OrZero(v: Option<real>): real
  {
    match v
    case Some(x) => x
    case None => 0.0
  }

  /** Math.round is monotone: larger inputs never round to smaller integers. */
  lemma MathRoundMonotone(x: real, y: real)
    requires x <= y
    ensures MathRound(x) <= MathRound(y)
  {
  }
}
