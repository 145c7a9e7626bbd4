/**
 * What formulas evaluate to. The evaluator hands back primitive nodes; a
 * value here is the primitive without its span, and Ruby's `nil` (an empty
 * cell, an empty block, a false condition without an else) is `None`.
 */
module Values {
  import opened Wrappers

  /**
   * A primitive value. `Flt` idealises a Ruby Float as an exact real.
   * `Addr` is a cell address whose coordinates are IntegerPrimitive nodes:
   * the result of an `[r, c]` L-value or of a cell-address literal. The
   * addresses `setup_grid` stores hold raw Integers instead; they belong to
   * the same Ruby class but the aggregates cannot read them back, so they
   * are the separate constructor `GridAddr`.
   */
  datatype Value =
    | Int(i: int)
    | Flt(f: real)
    | Bool(b: bool)
    | Str(s: string)
    | Addr(row: int, col: int)
    | GridAddr(gridRow: int, gridCol: int)

  /** The Ruby class of a result, as `left_value.class` sees it. */
  datatype RubyClass = IntegerClass | FloatClass | BooleanClass | StringClass | AddressClass | NilClass

  function ClassOf(v: Option<Value>): RubyClass {
    match v
    case None => NilClass
    case Some(Int(_)) => IntegerClass
    case Some(Flt(_)) => FloatClass
    case Some(Bool(_)) => BooleanClass
    case Some(Str(_)) => StringClass
    case Some(Addr(_, _)) => AddressClass
    case Some(GridAddr(_, _)) => AddressClass
  }

  /**
   * Why an evaluation stopped. Every `raise` of the evaluator's own checks is
   * `TypeMismatch`, except the two with their own meaning; `HostError` is an
   * exception Ruby itself raises (a method called on nil or on an address, an
   * array indexed with nil); `Unmodelled` is a result Ruby produces that
   * exact arithmetic does not have (Infinity, NaN, a Rational, a Complex).
   */
  datatype EvalError =
    | TypeMismatch
    | NoNumericCells
    | Unbound(name: string)
    | ZeroDivision
    | HostError
    | Unmodelled

  /** `is_a?(IntegerPrimitive) || is_a?(FloatPrimitive)`. */
  predicate IsNumeric(v: Option<Value>) {
    v.Some? && (v.value.Int? || v.value.Flt?)
  }

  /** The number a numeric value stands for. */
  function RealOf(v: Value): real
    requires v.Int? || v.Flt?
  {
    if v.Int? then v.i as real else v.f
  }
}
