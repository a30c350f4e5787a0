// Floating-point values as the Python (numpy) and TypeScript sources see them.
// On the numpy and pandas paths and in JavaScript, division by zero yields
// an infinity or NaN rather than an error, and every comparison that involves
// NaN is false; where a plain Python float raises instead, the model says so. The model keeps the
// magnitudes exact (no rounding, no overflow, no signed zero); see README.

module Numbers {

  datatype Option<T> = None | Some(value: T)

  datatype Result<T> = Ok(value: T) | Raised

  /** A double: a finite value, NaN, or one of the two infinities. */
  datatype Num = Fin(v: real) | NaN | PosInf | NegInf

  const Zero: Num := Fin(0.0)
  const Hundred: Num := Fin(100.0)

  /** IEEE `x > y`: false as soon as NaN takes part. */
  predicate Gt(x: Num, y: Num)
  {
    match (x, y)
    case (NaN, _) => false
    case (_, NaN) => false
    case (PosInf, PosInf) => false
    case (PosInf, _) => true
    case (NegInf, _) => false
    case (Fin(_), PosInf) => false
    case (Fin(_), NegInf) => true
    case (Fin(a), Fin(b)) => a > b
  }

  /** IEEE `x < y`. */
  predicate Lt(x: Num, y: Num) { Gt(y, x) }

  /** IEEE `x === y` / `x == y`: NaN equals nothing, not even itself. */
  predicate NumEq(x: Num, y: Num) { !x.NaN? && x == y }

  /** `x > 0`, the guard the sources write before dividing. */
  predicate Positive(x: Num) { Gt(x, Zero) }

  /** `rates[key] && rates[key] > 0` for a rate that may be missing. */
  predicate PositiveIn(rates: map<string, Num>, key: string)
  {
    key in rates && Positive(rates[key])
  }

  /** Python truthiness of a float: only 0.0 is falsy; NaN is truthy. */
  predicate PyTruthy(x: Num) { x != Zero }

  /** JavaScript truthiness of a number: 0 and NaN are falsy. */
  predicate JsTruthy(x: Num) { !x.NaN? && x != Zero }

  /** JavaScript truthiness of a value that may be null or undefined. */
  predicate JsTruthyOpt(x: Option<Num>) { x.Some? && JsTruthy(x.value) }

  /** JavaScript `x || d` for a number that may be null or undefined. */
  function OrJs(x: Option<Num>, d: Num): (r: Num)
    ensures JsTruthyOpt(x) ==> r == x.value
    ensures !JsTruthyOpt(x) ==> r == d
  {
    if JsTruthyOpt(x) then x.value else d
  }

  function Sign(x: Num): int
  {
    match x
    case Fin(a) => if a > 0.0 then 1 else if a < 0.0 then -1 else 0
    case PosInf => 1
    case NegInf => -1
    case NaN => 0
  }

  function InfOfSign(s: int): Num
  {
    if s > 0 then PosInf else NegInf
  }

  /** IEEE subtraction (exact on finite values). */
  function Sub(x: Num, y: Num): (r: Num)
    ensures x.Fin? && y.Fin? ==> r == Fin(x.v - y.v)
    ensures x.NaN? || y.NaN? ==> r.NaN?
  {
    match (x, y)
    case (Fin(a), Fin(b)) => Fin(a - b)
    case (NaN, _) => NaN
    case (_, NaN) => NaN
    case (PosInf, NegInf) => PosInf
    case (NegInf, PosInf) => NegInf
    case (PosInf, PosInf) => NaN
    case (NegInf, NegInf) => NaN
    case (Fin(_), _) => if y.PosInf? then NegInf else PosInf
    case (_, Fin(_)) => x
  }

  /** IEEE multiplication (exact on finite values). */
  function Mul(x: Num, y: Num): (r: Num)
    ensures x.Fin? && y.Fin? ==> r == Fin(x.v * y.v)
    ensures x.NaN? || y.NaN? ==> r.NaN?
  {
    if x.NaN? || y.NaN? then NaN
    else if x.Fin? && y.Fin? then Fin(x.v * y.v)
    else if Sign(x) == 0 || Sign(y) == 0 then NaN
    else InfOfSign(Sign(x) * Sign(y))
  }

  /** IEEE division (exact on finite values; a zero divisor counts as +0). */
  function Div(x: Num, y: Num): (r: Num)
    ensures x.Fin? && y.Fin? && y.v != 0.0 ==> r == Fin(x.v / y.v)
    ensures x.NaN? || y.NaN? ==> r.NaN?
  {
    match (x, y)
    case (NaN, _) => NaN
    case (_, NaN) => NaN
    case (Fin(a), Fin(b)) =>
      if b != 0.0 then Fin(a / b)
      else if a == 0.0 then NaN
      else InfOfSign(Sign(x))
    case (Fin(_), _) => Zero
    case (_, Fin(b)) =>
      if b == 0.0 then x else InfOfSign(Sign(x) * Sign(y))
    case _ => NaN
  }

  /** The quotient of a positive value by a positive value that is not +infinity is positive. */
  lemma DivPositive(x: Num, y: Num)
    requires Positive(x) && Positive(y) && !y.PosInf?
    ensures Positive(Div(x, y))
    ensures x.Fin? ==> Div(x, y).Fin?
  {
  }

  /** A positive value divided by +infinity gives zero, which is not positive:
      the one way a guarded quotient of positive operands fails to be positive. */
  lemma DivByPosInfIsZero(x: Num)
    requires x.Fin?
    ensures Div(x, PosInf) == Zero
  {
  }
}
