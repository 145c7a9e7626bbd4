/**
 * The operator visitors of the evaluator once their operands have been
 * evaluated: each checks the operands' kinds, raises on a mismatch, and
 * otherwise builds a fresh primitive. Integer arithmetic is Ruby's
 * arbitrary-precision arithmetic; Float arithmetic is idealised as exact
 * arithmetic on reals.
 */
module Operators {
  import opened Wrappers
  import opened Values

  // ---------------------------------------------------------------- integers

  function Abs(x: int): nat {
    if x < 0 then -x else x
  }

  /** `x ** n` on Integers with a non-negative exponent. */
  function Pow(x: int, n: nat): int {
    if n == 0 then 1 else x * Pow(x, n - 1)
  }

  /** `x ** n` on a Float with a non-negative Integer exponent. */
  function RealPow(x: real, n: nat): real {
    if n == 0 then 1.0 else x * RealPow(x, n - 1)
  }

  function Pow2(n: nat): (p: int)
    ensures p >= 1
  {
    if n == 0 then 1 else 2 * Pow2(n - 1)
  }

  /** Integer powers agree with the powers of the same number as a real. */
  lemma {:induction false} PowAsReal(x: int, n: nat)
    ensures Pow(x, n) as real == RealPow(x as real, n)
  {
    if n > 0 {
      PowAsReal(x, n - 1);
    }
  }

  lemma {:induction false} Pow2IsPow(n: nat)
    ensures Pow2(n) == Pow(2, n)
  {
    if n > 0 {
      Pow2IsPow(n - 1);
    }
  }

  /** Ruby's Integer division: the quotient rounded towards negative infinity. */
  function FloorDiv(a: int, b: int): int
    requires b != 0
  {
    if b > 0 then a / b else (-a) / (-b)
  }

  /**
   * Ruby's Integer `%`: the remainder of the floored division, which takes
   * the sign of the divisor (Dafny's own `%` is never negative).
   */
  function FloorMod(a: int, b: int): (m: int)
    requires b != 0
    ensures a == FloorDiv(a, b) * b + m
    ensures b > 0 ==> 0 <= m < b
    ensures b < 0 ==> b < m <= 0
  {
    if b > 0 then a % b
    else
      var q := (-a) / (-b);
      assert -a == q * (-b) + (-a) % (-b);
      -((-a) % (-b))
  }

  /** `Float#to_i`: the integer part, rounding towards zero. */
  function Truncate(x: real): (n: int)
    ensures x >= 0.0 ==> n as real <= x < n as real + 1.0
    ensures x < 0.0 ==> n as real - 1.0 < x <= n as real
  {
    if x >= 0.0 then x.Floor else -((-x).Floor)
  }

  // ---------------------------------------------------------- bitwise on int

  /** The three two-operand bitwise operators. */
  datatype BitOp = AndBits | OrBits | XorBits

  function Combine(op: BitOp, a: bool, b: bool): bool {
    match op
    case AndBits => a && b
    case OrBits => a || b
    case XorBits => a != b
  }

  /** Halving an integer (rounding down) moves it towards 0 or -1 and stops there. */
  lemma Halves(x: int)
    ensures Abs(x / 2) <= Abs(x)
    ensures x != 0 && x != -1 ==> Abs(x / 2) < Abs(x)
  {
  }

  /**
   * `x & y`, `x | y` and `x ^ y` on Ruby's unbounded two's-complement
   * Integers: bit by bit from the lowest, until both numbers are all zeros
   * (0) or all ones (-1).
   */
  function Bitwise(op: BitOp, x: int, y: int): int
    decreases Abs(x) + Abs(y)
  {
    if (x == 0 || x == -1) && (y == 0 || y == -1) then
      (if Combine(op, x == -1, y == -1) then -1 else 0)
    else
      Halves(x);
      Halves(y);
      2 * Bitwise(op, x / 2, y / 2) + (if Combine(op, x % 2 == 1, y % 2 == 1) then 1 else 0)
  }

  /** Bitwise complement is `x ^ -1`: `~x` flips every bit. */
  lemma {:induction false} XorAllOnes(x: int)
    ensures Bitwise(XorBits, x, -1) == -x - 1
    decreases Abs(x)
  {
    if x != 0 && x != -1 {
      Halves(x);
      XorAllOnes(x / 2);
    }
  }

  /** Every bit set in both or in either: `(x & y) + (x | y) == x + y`. */
  lemma {:induction false} AndPlusOr(x: int, y: int)
    ensures Bitwise(AndBits, x, y) + Bitwise(OrBits, x, y) == x + y
    decreases Abs(x) + Abs(y)
  {
    if !((x == 0 || x == -1) && (y == 0 || y == -1)) {
      Halves(x);
      Halves(y);
      AndPlusOr(x / 2, y / 2);
    }
  }

  /** Bits set in exactly one: `(x ^ y) + 2 * (x & y) == x + y`. */
  lemma {:induction false} XorPlusAnd(x: int, y: int)
    ensures Bitwise(XorBits, x, y) + 2 * Bitwise(AndBits, x, y) == x + y
    decreases Abs(x) + Abs(y)
  {
    if !((x == 0 || x == -1) && (y == 0 || y == -1)) {
      Halves(x);
      Halves(y);
      XorPlusAnd(x / 2, y / 2);
    }
  }

  /** `x << n`: a negative count shifts the other way. */
  function ShiftLeft(x: int, n: int): int {
    if n >= 0 then x * Pow2(n) else x / Pow2(-n)
  }

  /** `x >> n`: rounds towards negative infinity; a negative count shifts the other way. */
  function ShiftRight(x: int, n: int): int {
    if n >= 0 then x / Pow2(n) else x * Pow2(-n)
  }

  /** A non-zero multiple of a positive number is at least that number in size. */
  lemma MultipleBounds(k: int, p: int)
    requires p > 0
    ensures k >= 1 ==> k * p >= p
    ensures k <= -1 ==> k * p <= -p
  {
    if k >= 1 {
      assert k * p == (k - 1) * p + p;
    } else if k <= -1 {
      assert k * p == (k + 1) * p - p;
    }
  }

  /** Multiplying by a positive number and dividing by it gives the number back. */
  lemma MultiplyThenDivide(x: int, p: int)
    requires p > 0
    ensures (x * p) / p == x
  {
    var q, m := (x * p) / p, (x * p) % p;
    assert (x - q) * p == m by {
      assert x * p == q * p + m;
    }
    MultipleBounds(x - q, p);
  }

  /** Shifting back right undoes a left shift: no bits are lost on the way up. */
  lemma ShiftRoundTrip(x: int, n: nat)
    ensures ShiftRight(ShiftLeft(x, n), n) == x
  {
    MultiplyThenDivide(x, Pow2(n));
  }

  // ------------------------------------------------------ operator visitors

  /** Ruby's `Integer + Integer` stays an Integer; a Float on either side makes a Float. */
  function Promote(l: Value, r: Value, i: int, x: real): Value
    requires (l.Int? || l.Flt?) && (r.Int? || r.Flt?)
  {
    if l.Int? && r.Int? then Int(i) else Flt(x)
  }

  /** `visit_addition`. */
  function Add(l: Option<Value>, r: Option<Value>): (res: Result<Value, EvalError>)
    ensures res.Ok? <==> IsNumeric(l) && IsNumeric(r)
    ensures res.Err? ==> res.error == TypeMismatch
    ensures res.Ok? ==> (res.value.Int? <==> l.value.Int? && r.value.Int?) && (res.value.Int? || res.value.Flt?)
    ensures res.Ok? ==> RealOf(res.value) == RealOf(l.value) + RealOf(r.value)
  {
    if !IsNumeric(l) || !IsNumeric(r) then Err(TypeMismatch)
    else
      var a, b := l.value, r.value;
      Ok(Promote(a, b, if a.Int? && b.Int? then a.i + b.i else 0, RealOf(a) + RealOf(b)))
  }

  /** `visit_subtraction`. */
  function Subtract(l: Option<Value>, r: Option<Value>): (res: Result<Value, EvalError>)
    ensures res.Ok? <==> IsNumeric(l) && IsNumeric(r)
    ensures res.Err? ==> res.error == TypeMismatch
    ensures res.Ok? ==> (res.value.Int? <==> l.value.Int? && r.value.Int?) && (res.value.Int? || res.value.Flt?)
    ensures res.Ok? ==> RealOf(res.value) == RealOf(l.value) - RealOf(r.value)
  {
    if !IsNumeric(l) || !IsNumeric(r) then Err(TypeMismatch)
    else
      var a, b := l.value, r.value;
      Ok(Promote(a, b, if a.Int? && b.Int? then a.i - b.i else 0, RealOf(a) - RealOf(b)))
  }

  /** `visit_multiplication`. */
  function Multiply(l: Option<Value>, r: Option<Value>): (res: Result<Value, EvalError>)
    ensures res.Ok? <==> IsNumeric(l) && IsNumeric(r)
    ensures res.Err? ==> res.error == TypeMismatch
    ensures res.Ok? ==> (res.value.Int? <==> l.value.Int? && r.value.Int?) && (res.value.Int? || res.value.Flt?)
    ensures res.Ok? ==> RealOf(res.value) == RealOf(l.value) * RealOf(r.value)
  {
    if !IsNumeric(l) || !IsNumeric(r) then Err(TypeMismatch)
    else
      var a, b := l.value, r.value;
      Ok(Promote(a, b, if a.Int? && b.Int? then a.i * b.i else 0, RealOf(a) * RealOf(b)))
  }

  /**
   * `visit_division`: both operands are converted to Float first, so the
   * quotient is always a Float. Dividing by zero gives Infinity or NaN.
   */
  function Divide(l: Option<Value>, r: Option<Value>): (res: Result<Value, EvalError>)
    ensures !IsNumeric(l) || !IsNumeric(r) <==> res == Err(TypeMismatch)
    ensures res.Ok? <==> IsNumeric(l) && IsNumeric(r) && RealOf(r.value) != 0.0
    ensures res.Ok? ==> res.value.Flt? && res.value.f * RealOf(r.value) == RealOf(l.value)
  {
    if !IsNumeric(l) || !IsNumeric(r) then Err(TypeMismatch)
    else if RealOf(r.value) == 0.0 then Err(Unmodelled)
    else Ok(Flt(RealOf(l.value) / RealOf(r.value)))
  }

  /**
   * `visit_modulo`: the result is wrapped as an IntegerPrimitive whatever it
   * is. Integer `%` floors; `% 0` raises ZeroDivisionError; with a Float
   * operand Ruby computes a Float, which the wrapper then misrepresents.
   */
  function Modulo(l: Option<Value>, r: Option<Value>): (res: Result<Value, EvalError>)
    ensures !IsNumeric(l) || !IsNumeric(r) <==> res == Err(TypeMismatch)
    ensures res.Ok? <==> l.Some? && l.value.Int? && r.Some? && r.value.Int? && r.value.i != 0
    ensures res == Err(ZeroDivision) <==> l.Some? && l.value.Int? && r == Some(Int(0))
    ensures res.Ok? ==> (res.value.Int? &&
      l.value.i == FloorDiv(l.value.i, r.value.i) * r.value.i + res.value.i &&
      (r.value.i > 0 ==> 0 <= res.value.i < r.value.i) &&
      (r.value.i < 0 ==> r.value.i < res.value.i <= 0))
  {
    if !IsNumeric(l) || !IsNumeric(r) then Err(TypeMismatch)
    else if l.value.Flt? || r.value.Flt? then Err(Unmodelled)
    else if r.value.i == 0 then Err(ZeroDivision)
    else Ok(Int(FloorMod(l.value.i, r.value.i)))
  }

  /** A non-zero base has non-zero powers. */
  lemma {:induction false} RealPowNonZero(x: real, n: nat)
    requires x != 0.0
    ensures RealPow(x, n) != 0.0
  {
    if n > 0 {
      RealPowNonZero(x, n - 1);
    }
  }

  /**
   * `visit_exponentiation`: Integer ** non-negative Integer is an Integer and
   * Float ** Integer a Float. Integer 0 to a negative power raises
   * ZeroDivisionError. Any other Integer ** negative Integer is a Rational,
   * a Float exponent may give an irrational Float or a Complex, and 0.0 to
   * a negative power is Infinity.
   */
  function Power(l: Option<Value>, r: Option<Value>): (res: Result<Value, EvalError>)
    ensures !IsNumeric(l) || !IsNumeric(r) <==> res == Err(TypeMismatch)
    ensures res.Ok? <==> (IsNumeric(l) && r.Some? && r.value.Int? &&
      (r.value.i >= 0 || (l.value.Flt? && l.value.f != 0.0)))
    ensures res.Ok? ==> (res.value.Int? <==> l.value.Int?) && (res.value.Int? || res.value.Flt?)
    ensures res.Ok? && r.value.i >= 0 ==> RealOf(res.value) == RealPow(RealOf(l.value), r.value.i)
    ensures res.Ok? && r.value.i < 0 ==> RealOf(res.value) * RealPow(RealOf(l.value), -r.value.i) == 1.0
    ensures res == Err(ZeroDivision) <==> l == Some(Int(0)) && r.Some? && r.value.Int? && r.value.i < 0
  {
    if !IsNumeric(l) || !IsNumeric(r) then Err(TypeMismatch)
    else if r.value.Flt? then Err(Unmodelled)
    else if r.value.i >= 0 then
      if l.value.Int? then
        PowAsReal(l.value.i, r.value.i);
        Ok(Int(Pow(l.value.i, r.value.i)))
      else Ok(Flt(RealPow(l.value.f, r.value.i)))
    else if l.value.Flt? && l.value.f != 0.0 then
      RealPowNonZero(l.value.f, -r.value.i);
      Ok(Flt(1.0 / RealPow(l.value.f, -r.value.i)))
    else if l.value == Int(0) then Err(ZeroDivision)
    else Err(Unmodelled)
  }

  /** `visit_negation`: `value * -1`, which keeps the operand's kind. */
  function Negate(v: Option<Value>): (res: Result<Value, EvalError>)
    ensures res.Ok? <==> IsNumeric(v)
    ensures res.Err? ==> res.error == TypeMismatch
    ensures res.Ok? ==> (res.value.Int? <==> v.value.Int?) && (res.value.Int? || res.value.Flt?)
    ensures res.Ok? ==> RealOf(res.value) == -RealOf(v.value)
  {
    if !IsNumeric(v) then Err(TypeMismatch)
    else if v.value.Int? then Ok(Int(v.value.i * -1))
    else Ok(Flt(v.value.f * -1.0))
  }

  /**
   * `visit_equals`: the classes must agree; then `.value` is compared, which
   * nil and cell addresses do not have.
   */
  function Equals(l: Option<Value>, r: Option<Value>): (res: Result<Value, EvalError>)
    ensures res == Err(TypeMismatch) <==> ClassOf(l) != ClassOf(r)
    ensures res.Ok? <==> ClassOf(l) == ClassOf(r) && ClassOf(l) != NilClass && ClassOf(l) != AddressClass
    ensures res.Ok? ==> res.value == Bool(l == r)
  {
    if ClassOf(l) != ClassOf(r) then Err(TypeMismatch)
    else if l.None? || l.value.Addr? || l.value.GridAddr? then Err(HostError)
    else Ok(Bool(l.value == r.value))
  }

  /** `visit_notequals`: the same checks as `==`, then the opposite answer. */
  function NotEquals(l: Option<Value>, r: Option<Value>): (res: Result<Value, EvalError>)
    ensures res == Err(TypeMismatch) <==> ClassOf(l) != ClassOf(r)
    ensures res.Ok? <==> ClassOf(l) == ClassOf(r) && ClassOf(l) != NilClass && ClassOf(l) != AddressClass
    ensures res.Ok? ==> res.value == Bool(l != r)
  {
    if ClassOf(l) != ClassOf(r) then Err(TypeMismatch)
    else if l.None? || l.value.Addr? || l.value.GridAddr? then Err(HostError)
    else Ok(Bool(l.value != r.value))
  }

  /** The four comparisons. */
  datatype Comparison = Less | LessOrEqual | More | MoreOrEqual

  function Holds(c: Comparison, x: real, y: real): bool {
    match c
    case Less => x < y
    case LessOrEqual => x <= y
    case More => x > y
    case MoreOrEqual => x >= y
  }

  /** `visit_lessthan`, `visit_lessthanorequal`, `visit_morethan`, `visit_morethanorequal`. */
  function Compare(c: Comparison, l: Option<Value>, r: Option<Value>): (res: Result<Value, EvalError>)
    ensures res.Ok? <==> IsNumeric(l) && IsNumeric(r)
    ensures res.Err? ==> res.error == TypeMismatch
    ensures res.Ok? ==> res.value.Bool?
    ensures res.Ok? && c == Less ==> (res.value.b <==> RealOf(l.value) < RealOf(r.value))
    ensures res.Ok? && c == LessOrEqual ==> (res.value.b <==> RealOf(l.value) <= RealOf(r.value))
    ensures res.Ok? && c == More ==> (res.value.b <==> RealOf(l.value) > RealOf(r.value))
    ensures res.Ok? && c == MoreOrEqual ==> (res.value.b <==> RealOf(l.value) >= RealOf(r.value))
  {
    if !IsNumeric(l) || !IsNumeric(r) then Err(TypeMismatch)
    else Ok(Bool(Holds(c, RealOf(l.value), RealOf(r.value))))
  }

  /**
   * Integers and Floats compare by the numbers they stand for (`1 < 1.5`,
   * `2.0 <= 2`), and the relational operators give false, true, false, true
   * for `10 == 5`, `10 != 5`, `10 < 5` and `10 > 5`.
   */
  lemma CompareExamples()
    ensures Compare(Less, Some(Int(1)), Some(Flt(1.5))) == Ok(Bool(true))
    ensures Compare(LessOrEqual, Some(Flt(2.0)), Some(Int(2))) == Ok(Bool(true))
    ensures Compare(More, Some(Flt(2.0)), Some(Int(2))) == Ok(Bool(false))
    ensures Equals(Some(Int(10)), Some(Int(5))) == Ok(Bool(false))
    ensures NotEquals(Some(Int(10)), Some(Int(5))) == Ok(Bool(true))
    ensures Compare(Less, Some(Int(10)), Some(Int(5))) == Ok(Bool(false))
    ensures Compare(More, Some(Int(10)), Some(Int(5))) == Ok(Bool(true))
  {
  }

  /** `a > b` is `b < a`, `a >= b` is `b <= a`, and `a <= b` is the negation of `a > b`. */
  lemma ComparisonDuals(l: Option<Value>, r: Option<Value>)
    ensures Compare(More, l, r) == Compare(Less, r, l)
    ensures Compare(MoreOrEqual, l, r) == Compare(LessOrEqual, r, l)
    ensures Compare(LessOrEqual, l, r).Ok? ==>
      Compare(LessOrEqual, l, r).value.b == !Compare(More, l, r).value.b
  {
  }

  /** The sign of `x op y` is `op` applied to the signs: the infinite run of sign bits combines like any other bit. */
  lemma {:induction false} BitwiseSign(op: BitOp, x: int, y: int)
    ensures Bitwise(op, x, y) < 0 <==> Combine(op, x < 0, y < 0)
    decreases Abs(x) + Abs(y)
  {
    if !((x == 0 || x == -1) && (y == 0 || y == -1)) {
      Halves(x);
      Halves(y);
      BitwiseSign(op, x / 2, y / 2);
    }
  }

  /** `visit_bitwiseand`, `visit_bitwiseor`, `visit_bitwisexor`: Integers only. */
  function BitwiseOp(op: BitOp, l: Option<Value>, r: Option<Value>): (res: Result<Value, EvalError>)
    ensures res.Ok? <==> l.Some? && l.value.Int? && r.Some? && r.value.Int?
    ensures res.Err? ==> res.error == TypeMismatch
    ensures res.Ok? ==> res.value == Int(Bitwise(op, l.value.i, r.value.i))
    ensures res.Ok? ==> res.value.i % 2 == (if Combine(op, l.value.i % 2 == 1, r.value.i % 2 == 1) then 1 else 0)
    ensures res.Ok? ==> (res.value.i < 0 <==> Combine(op, l.value.i < 0, r.value.i < 0))
  {
    if l.Some? && l.value.Int? && r.Some? && r.value.Int? then
      BitwiseSign(op, l.value.i, r.value.i);
      Ok(Int(Bitwise(op, l.value.i, r.value.i)))
    else Err(TypeMismatch)
  }

  /** `visit_bitwisenot`: `~x`, which is `-x - 1` on two's-complement Integers. */
  function Complement(v: Option<Value>): (res: Result<Value, EvalError>)
    ensures res.Ok? <==> v.Some? && v.value.Int?
    ensures res.Err? ==> res.error == TypeMismatch
    ensures res.Ok? ==> res.value == Int(Bitwise(XorBits, v.value.i, -1))
  {
    if v.Some? && v.value.Int? then
      XorAllOnes(v.value.i);
      Ok(Int(-v.value.i - 1))
    else Err(TypeMismatch)
  }

  /** `visit_bitwiseleftshift` and `visit_bitwiserightshift`: Integers only. */
  function Shift(left: bool, l: Option<Value>, r: Option<Value>): (res: Result<Value, EvalError>)
    ensures res.Ok? <==> l.Some? && l.value.Int? && r.Some? && r.value.Int?
    ensures res.Err? ==> res.error == TypeMismatch
    ensures res.Ok? ==> res.value == Int(if left then ShiftLeft(l.value.i, r.value.i) else ShiftRight(l.value.i, r.value.i))
    ensures res.Ok? && (left == (r.value.i >= 0) || r.value.i == 0) ==>
      res.value.i == l.value.i * Pow2(Abs(r.value.i))
    ensures res.Ok? && left != (r.value.i >= 0) ==>
      Pow2(Abs(r.value.i)) * res.value.i <= l.value.i < Pow2(Abs(r.value.i)) * (res.value.i + 1)
  {
    if l.Some? && l.value.Int? && r.Some? && r.value.Int? then
      Ok(Int(if left then ShiftLeft(l.value.i, r.value.i) else ShiftRight(l.value.i, r.value.i)))
    else Err(TypeMismatch)
  }

  /** A left shift by n is a right shift by -n, and the other way round. */
  lemma ShiftDirections(x: Option<Value>, n: int)
    ensures Shift(true, x, Some(Int(n))) == Shift(false, x, Some(Int(-n)))
    ensures Shift(false, x, Some(Int(n))) == Shift(true, x, Some(Int(-n)))
  {
  }

  /** The bitwise values the tests expect: 10&4 = 0, 10|4 = 14, 10^4 = 14, 8<<2 = 32, 8>>2 = 2. */
  lemma BitwiseExamples()
    ensures BitwiseOp(AndBits, Some(Int(10)), Some(Int(4))) == Ok(Int(0))
    ensures BitwiseOp(OrBits, Some(Int(10)), Some(Int(4))) == Ok(Int(14))
    ensures BitwiseOp(XorBits, Some(Int(10)), Some(Int(4))) == Ok(Int(14))
    ensures Shift(true, Some(Int(8)), Some(Int(2))) == Ok(Int(32))
    ensures Shift(false, Some(Int(8)), Some(Int(2))) == Ok(Int(2))
  {
    assert Bitwise(AndBits, 1, 0) == 0;
    assert Bitwise(AndBits, 2, 1) == 0;
    assert Bitwise(AndBits, 5, 2) == 0;
    assert Bitwise(OrBits, 1, 0) == 1;
    assert Bitwise(OrBits, 2, 1) == 3;
    assert Bitwise(OrBits, 5, 2) == 7;
    assert Bitwise(XorBits, 1, 0) == 1;
    assert Bitwise(XorBits, 2, 1) == 3;
    assert Bitwise(XorBits, 5, 2) == 7;
    assert Pow2(2) == 4;
  }

  /** `visit_floattoint`: a Float only, truncated towards zero. */
  function FloatToInt(v: Option<Value>): (res: Result<Value, EvalError>)
    ensures res.Ok? <==> v.Some? && v.value.Flt?
    ensures res.Err? ==> res.error == TypeMismatch
    ensures res.Ok? ==> res.value.Int? && Abs(res.value.i) as real <= (if v.value.f < 0.0 then -v.value.f else v.value.f)
    ensures res.Ok? ==> (v.value.f >= 0.0 ==> res.value.i >= 0) && (v.value.f <= 0.0 ==> res.value.i <= 0)
    ensures res.Ok? ==> (if v.value.f < 0.0 then -v.value.f else v.value.f) < Abs(res.value.i) as real + 1.0
  {
    if v.Some? && v.value.Flt? then Ok(Int(Truncate(v.value.f))) else Err(TypeMismatch)
  }

  /** `visit_inttofloat`: an Integer only, converted exactly. */
  function IntToFloat(v: Option<Value>): (res: Result<Value, EvalError>)
    ensures res.Ok? <==> v.Some? && v.value.Int?
    ensures res.Err? ==> res.error == TypeMismatch
    ensures res.Ok? ==> res.value.Flt? && res.value.f == v.value.i as real
  {
    if v.Some? && v.value.Int? then Ok(Flt(v.value.i as real)) else Err(TypeMismatch)
  }

  /** `int(float(n))` gives back n. */
  lemma CastRoundTrip(n: int)
    ensures IntToFloat(Some(Int(n))).Ok?
    ensures FloatToInt(Some(IntToFloat(Some(Int(n))).value)) == Ok(Int(n))
  {
    var x := n as real;
    assert Truncate(x) == n;
  }

  /** `visit_not`: a Boolean only. */
  function Not(v: Option<Value>): (res: Result<Value, EvalError>)
    ensures res.Ok? <==> v.Some? && v.value.Bool?
    ensures res.Err? ==> res.error == TypeMismatch
    ensures res.Ok? ==> res.value == Bool(!v.value.b)
  {
    if v.Some? && v.value.Bool? then Ok(Bool(!v.value.b)) else Err(TypeMismatch)
  }
}
