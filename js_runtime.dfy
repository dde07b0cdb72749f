/** The parts of the JavaScript runtime that the location code relies on: `Math.PI`, the
    transcendental `Math` functions (left uninterpreted), the `%` operator on numbers,
    `Number.prototype.toFixed`, `Math.round` and the rendering of numbers inside template
    strings. Numbers are modelled as exact reals. */
module JsRuntime {

  /** `Math.PI`, written as the decimal literal the engine prints for it. */
  const PI: real := 3.141592653589793

  /** `Math.sin`, `Math.cos`, `Math.atan2` and `Math.sqrt`, as parameters without a definition.
      The predicates below state the few facts that individual properties need. */
  datatype MathLib = MathLib(
    sin: real -> real,
    cos: real -> real,
    atan2: (real, real) -> real,
    sqrt: real -> real)

  /** `sin(-x) = -sin(x)`. */
  ghost predicate SinIsOdd(m: MathLib) {
    forall x :: m.sin(-x) == -m.sin(x)
  }

  /** `sin(0) = 0` and `cos(0) = 1`. */
  ghost predicate TrigAtZero(m: MathLib) {
    m.sin(0.0) == 0.0 && m.cos(0.0) == 1.0
  }

  /** On non-negative arguments `sqrt` is the non-negative square root. */
  ghost predicate SqrtIsRoot(m: MathLib) {
    forall v :: v >= 0.0 ==> m.sqrt(v) >= 0.0 && m.sqrt(v) * m.sqrt(v) == v
  }

  /** `atan2(0, 1) = 0` and `atan2(0, 0) = 0`. */
  ghost predicate Atan2AtZero(m: MathLib) {
    m.atan2(0.0, 1.0) == 0.0 && m.atan2(0.0, 0.0) == 0.0
  }

  /** `atan2` returns an angle in [-PI, PI]. */
  ghost predicate Atan2InRange(m: MathLib) {
    forall y, x :: -PI <= m.atan2(y, x) <= PI
  }

  /** Truncation toward zero: the integer part that the `%` operator divides out. */
  function Trunc(q: real): (n: int)
    ensures q >= 0.0 ==> 0 <= n && n as real <= q < n as real + 1.0
    ensures q < 0.0 ==> n <= 0 && n as real - 1.0 < q <= n as real
  {
    if q >= 0.0 then q.Floor else -((-q).Floor)
  }

  /** The `%` operator on numbers with the divisor 360, the only divisor the location code
      uses: `n - 360 * trunc(n / 360)`, so the remainder takes the sign of the dividend (this
      is not Dafny's Euclidean `%`). */
  function Remainder360(n: real): (r: real)
    ensures n >= 0.0 ==> 0.0 <= r < 360.0
    ensures n <= 0.0 ==> -360.0 < r <= 0.0
  {
    n - 360.0 * (Trunc(n / 360.0) as real)
  }

  /** The exception `toFixed` raises. */
  datatype Exception = RangeError

  /** A value, or the exception that was thrown instead. */
  datatype Result<T> = Ok(value: T) | Throw(error: Exception) {
    predicate IsFailure() {
      Throw?
    }

    function PropagateFailure<U>(): Result<U>
      requires Throw?
    {
      Throw(error)
    }

    function Extract(): T
      requires Ok?
    {
      value
    }
  }

  /** The number-to-string conversions, left uninterpreted: `toFixed(x, digits)` is
      `x.toFixed(digits)` for digits in range, `round` is `Math.round` and `show` renders a
      number inside a template string. */
  datatype NumberFormat = NumberFormat(
    toFixed: (real, int) -> string,
    round: real -> real,
    show: real -> string)

  /** `x.toFixed(digits)`: the digit count is first truncated toward zero (ToIntegerOrInfinity)
      and a truncated count outside [0, 100] raises a RangeError, so every count strictly
      between -1 and 101 is accepted. */
  function ToFixed(nf: NumberFormat, x: real, digits: real): (r: Result<string>)
    ensures r.Ok? <==> -1.0 < digits < 101.0
    ensures r.Ok? ==> r.value == nf.toFixed(x, Trunc(digits))
  {
    var f := Trunc(digits);
    if 0 <= f <= 100 then Ok(nf.toFixed(x, f)) else Throw(RangeError)
  }

  /** `Math.abs`. */
  function Abs(x: real): (r: real)
    ensures r >= 0.0 && (r == x || r == -x)
  {
    if x < 0.0 then -x else x
  }

  /** The decimal digits of a non-negative integer, as `${n}` renders it (used for `Date.now()`). */
  function NatToDecimal(n: nat): (s: string)
    ensures |s| >= 1
    ensures forall i :: 0 <= i < |s| ==> '0' <= s[i] <= '9'
    ensures s[0] == '0' ==> n == 0
    ensures DecimalValue(s) == n
  {
    var digit := ['0' + (n % 10) as char];
    if n < 10 then digit else NatToDecimal(n / 10) + digit
  }

  /** The number a string of decimal digits denotes (the inverse of NatToDecimal). */
  function DecimalValue(s: string): int
  {
    if s == [] then 0 else DecimalValue(s[..|s| - 1]) * 10 + (s[|s| - 1] as int - '0' as int)
  }
}
