/**
 * What evaluating a syntax tree does, as functions: the value a node
 * evaluates to, or the error it raises, together with the variable
 * bindings as they stand afterwards. Bindings made before an error stay
 * made, as they do in the runtime's hash. The grid is only read.
 */
module Semantics {
  import opened Wrappers
  import opened Values
  import opened Ast
  import opened Decimal
  import opened Grids
  import Op = Operators

  type Env = map<string, Option<Value>>

  /** The result of a traversal and the variables afterwards. */
  datatype Outcome = Outcome(result: Result<Option<Value>, EvalError>, vars: Env)

  /** A number collected from a cell by the statistics functions. */
  type Num = v: Value | v.Int? || v.Flt? witness Int(0)

  function Done(v: Option<Value>, env: Env): Outcome {
    Outcome(Ok(v), env)
  }

  function Raise(e: EvalError, env: Env): Outcome {
    Outcome(Err(e), env)
  }

  /** A visitor's own result: a fresh primitive or a raise. */
  function Lift(r: Result<Value, EvalError>, env: Env): Outcome {
    match r
    case Ok(v) => Done(Some(v), env)
    case Err(e) => Raise(e, env)
  }

  predicate IsBool(v: Option<Value>) {
    v.Some? && v.value.Bool?
  }

  // ------------------------------------------------------------ operators

  /** The unary visitors once the operand is evaluated. */
  function ApplyUnary(op: UnaryClass, v: Option<Value>): Result<Value, EvalError> {
    match op
    case NegationOperation => Op.Negate(v)
    case NotOperation => Op.Not(v)
    case FloatToInt => Op.FloatToInt(v)
    case IntToFloat => Op.IntToFloat(v)
    case BitwiseNot => Op.Complement(v)
  }

  /** The binary visitors that evaluate both operands, left first, before looking at either. */
  predicate Eager(op: BinaryClass) {
    !(op.AndOperation? || op.OrOperation? || op.RValue? ||
      op.MaxOperation? || op.MinOperation? || op.MeanOperation? || op.SumOperation?)
  }

  /** `visit_lvalue` once both coordinates are evaluated: an address of two Integers. */
  function MakeAddress(l: Option<Value>, r: Option<Value>): (res: Result<Value, EvalError>)
    ensures res.Ok? <==> l.Some? && l.value.Int? && r.Some? && r.value.Int?
    ensures res.Ok? ==> res.value == Addr(l.value.i, r.value.i)
    ensures res.Err? ==> res.error == TypeMismatch
  {
    if l.Some? && l.value.Int? && r.Some? && r.value.Int? then Ok(Addr(l.value.i, r.value.i))
    else Err(TypeMismatch)
  }

  /** The eager binary visitors once both operands are evaluated. */
  function ApplyBinary(op: BinaryClass, l: Option<Value>, r: Option<Value>): Result<Value, EvalError>
    requires Eager(op)
  {
    match op
    case AdditionOperation => Op.Add(l, r)
    case SubtractionOperation => Op.Subtract(l, r)
    case MultiplicationOperation => Op.Multiply(l, r)
    case DivisionOperation => Op.Divide(l, r)
    case ModuloOperation => Op.Modulo(l, r)
    case ExponentiationOperation => Op.Power(l, r)
    case EqualsOperation => Op.Equals(l, r)
    case NotEqualsOperation => Op.NotEquals(l, r)
    case LessThanOperation => Op.Compare(Op.Less, l, r)
    case LessThanOrEqualOperation => Op.Compare(Op.LessOrEqual, l, r)
    case MoreThanOperation => Op.Compare(Op.More, l, r)
    case MoreThanOrEqualOperation => Op.Compare(Op.MoreOrEqual, l, r)
    case BitwiseAnd => Op.BitwiseOp(Op.AndBits, l, r)
    case BitwiseOr => Op.BitwiseOp(Op.OrBits, l, r)
    case BitwiseXor => Op.BitwiseOp(Op.XorBits, l, r)
    case BitwiseLeftShift => Op.Shift(true, l, r)
    case BitwiseRightShift => Op.Shift(false, l, r)
    case LValue => MakeAddress(l, r)
  }

  /**
   * `.value` on an evaluated operand: the primitive's payload. nil and cell
   * addresses have no such method.
   */
  function Payload(v: Option<Value>): (r: Result<Value, EvalError>)
    ensures r.Ok? <==> v.Some? && !v.value.Addr? && !v.value.GridAddr?
    ensures r.Ok? ==> r.value == v.value
    ensures r.Err? ==> r.error == HostError
  {
    if v.None? || v.value.Addr? || v.value.GridAddr? then Err(HostError) else Ok(v.value)
  }

  /** An R-value's cell must hold a number. */
  function NumericCell(cell: Result<Option<Value>, EvalError>): (r: Result<Value, EvalError>)
    ensures r.Ok? <==> cell.Ok? && IsNumeric(cell.value)
    ensures r.Ok? ==> Some(r.value) == cell.value
    ensures cell.Err? ==> r == Err(cell.error)
  {
    match cell
    case Err(e) => Err(e)
    case Ok(v) => if IsNumeric(v) then Ok(v.value) else Err(TypeMismatch)
  }

  // ------------------------------------------------------------ statistics

  /** `.left.value` and `.right.value` of an evaluated corner: only an L-value address has them. */
  function Corner(v: Option<Value>): (r: Result<(int, int), EvalError>)
    ensures r.Ok? <==> v.Some? && v.value.Addr?
    ensures r.Ok? ==> r.value == (v.value.row, v.value.col)
    ensures r.Err? ==> r.error == HostError
  {
    if v.Some? && v.value.Addr? then Ok((v.value.row, v.value.col)) else Err(HostError)
  }

  /**
   * What `.value` answers on a node read straight from the tree, unevaluated:
   * a literal's payload, or the operand node of a unary operator.
   */
  datatype Raw = RawLiteral(v: Value) | RawNode(node: Node)

  /** `.value` on a tree node: only the unary operators and the literals have it. */
  function RawValue(n: Node): (r: Option<Raw>)
    ensures r.Some? <==> n.Unary? || n.IntegerPrimitive? || n.FloatPrimitive? || n.BooleanPrimitive? || n.StringPrimitive?
    ensures n.IntegerPrimitive? ==> r == Some(RawLiteral(Int(n.intValue)))
    ensures n.Unary? ==> r == Some(RawNode(n.operand))
  {
    match n
    case IntegerPrimitive(v, _) => Some(RawLiteral(Int(v)))
    case FloatPrimitive(v, _) => Some(RawLiteral(Flt(v)))
    case BooleanPrimitive(v, _) => Some(RawLiteral(Bool(v)))
    case StringPrimitive(v, _) => Some(RawLiteral(Str(v)))
    case Unary(_, operand, _) => Some(RawNode(operand))
    case _ => None
  }

  /**
   * `visit_sum` reads the corners straight from the tree, unevaluated:
   * `.left.value` and `.right.value` of a corner. Only the binary operator
   * classes have `.left` and `.right`, and an address literal holds two
   * integer literals.
   */
  function SumCorner(n: Node): (r: Result<(Raw, Raw), EvalError>)
    ensures r.Ok? <==> n.CellAddressPrimitive? || (n.Binary? && RawValue(n.left).Some? && RawValue(n.right).Some?)
    ensures n.CellAddressPrimitive? ==> r == Ok((RawLiteral(Int(n.row)), RawLiteral(Int(n.col))))
    ensures r.Ok? && n.Binary? ==> Some(r.value.0) == RawValue(n.left) && Some(r.value.1) == RawValue(n.right)
    ensures r.Err? ==> r.error == HostError
  {
    match n
    case CellAddressPrimitive(row, col) => Ok((RawLiteral(Int(row)), RawLiteral(Int(col))))
    case Binary(_, left, right, _) =>
      (match (RawValue(left), RawValue(right))
       case (Some(a), Some(b)) => Ok((a, b))
       case _ => Err(HostError))
    case _ => Err(HostError)
  }

  /**
   * The integers `for x in lo..hi` walks in `visit_sum`, as the closed
   * range `(first, last)`. An Integer start steps by one while it is not
   * above the end, which may be an Integer or a Float. Two Strings step by
   * `String#succ`, which is not modelled. Any other pair either cannot form
   * a Range (`<=>` answers nil) or cannot be iterated (a Float, Boolean or
   * node start), and raises even when the range would be empty.
   */
  function SumRange(lo: Raw, hi: Raw): (r: Result<(int, int), EvalError>)
    ensures r.Ok? <==> lo.RawLiteral? && lo.v.Int? && hi.RawLiteral? && (hi.v.Int? || hi.v.Flt?)
    ensures r.Ok? ==> r.value.0 == lo.v.i
    ensures r.Ok? && hi.v.Int? ==> r.value.1 == hi.v.i
    ensures r.Ok? && hi.v.Flt? ==> r.value.1 as real <= hi.v.f < r.value.1 as real + 1.0
    ensures r.Err? ==> r.error == (if lo.RawLiteral? && lo.v.Str? && hi.RawLiteral? && hi.v.Str? then Unmodelled else HostError)
  {
    match (lo, hi)
    case (RawLiteral(Int(a)), RawLiteral(Int(b))) => Ok((a, b))
    case (RawLiteral(Int(a)), RawLiteral(Flt(b))) => Ok((a, b.Floor))
    case (RawLiteral(Str(_)), RawLiteral(Str(_))) => Err(Unmodelled)
    case _ => Err(HostError)
  }

  /**
   * The numbers `visit_sum` collects between the raw corners `s` and `t`.
   * The column range is built inside the row loop, so it is never built,
   * and cannot raise, when there is no row to walk.
   */
  function SumNumbers(g: Cells, s: (Raw, Raw), t: (Raw, Raw)): (r: Result<seq<Num>, EvalError>)
    ensures SumRange(s.0, t.0).Ok? && SumRange(s.0, t.0).value.1 < SumRange(s.0, t.0).value.0 ==> r == Ok([])
    ensures SumRange(s.0, t.0).Err? ==> r == Err(SumRange(s.0, t.0).error)
    ensures r.Ok? && |r.value| > 0 ==> SumRange(s.0, t.0).Ok? && SumRange(s.1, t.1).Ok?
  {
    match SumRange(s.0, t.0)
    case Err(e) => Err(e)
    case Ok(rows) =>
      if rows.1 < rows.0 then Ok([])
      else
        match SumRange(s.1, t.1)
        case Err(e) => Err(e)
        case Ok(cols) => RectNumbers(g, rows.0, rows.1, cols.0, cols.1)
  }

  /** The numbers a statistics function keeps from one cell: numbers only. */
  function Kept(cell: Option<Value>): (r: seq<Num>)
    ensures IsNumeric(cell) ==> r == [cell.value]
    ensures !IsNumeric(cell) ==> r == []
  {
    if IsNumeric(cell) then [cell.value] else []
  }

  /** The numbers of row `row`, columns `c0..c1`, in column order; no cell is read when the range is empty. */
  function RowNumbers(g: Cells, row: int, c0: int, c1: int): (r: Result<seq<Num>, EvalError>)
    ensures r.Ok? ==> |r.value| <= (if c1 < c0 then 0 else c1 - c0 + 1)
    ensures r.Err? ==> r.error == HostError && c0 <= c1
    decreases c1 - c0
  {
    if c1 < c0 then Ok([])
    else
      match RowNumbers(g, row, c0, c1 - 1)
      case Err(e) => Err(e)
      case Ok(vs) =>
        match CellAt(g, row, c1)
        case Err(e) => Err(e)
        case Ok(cell) => Ok(vs + Kept(cell))
  }

  /** The numbers of rows `r0..r1`, each row's columns `c0..c1`, row by row. */
  function RectNumbers(g: Cells, r0: int, r1: int, c0: int, c1: int): (r: Result<seq<Num>, EvalError>)
    ensures r.Ok? ==> |r.value| <= (if r1 < r0 || c1 < c0 then 0 else (r1 - r0 + 1) * (c1 - c0 + 1))
    ensures r.Err? ==> r.error == HostError && r0 <= r1 && c0 <= c1
    decreases r1 - r0
  {
    if r1 < r0 then Ok([])
    else
      match RectNumbers(g, r0, r1 - 1, c0, c1)
      case Err(e) => Err(e)
      case Ok(vs) =>
        match RowNumbers(g, r1, c0, c1)
        case Err(e) => Err(e)
        case Ok(ws) =>
          assert c0 <= c1 ==> (r1 - r0 + 1) * (c1 - c0 + 1) == (r1 - r0) * (c1 - c0 + 1) + (c1 - c0 + 1);
          Ok(vs + ws)
  }

  /** The position of the first greatest number: `Array#max` keeps the first of equals. */
  function MaxIndex(vs: seq<Num>): (k: nat)
    requires |vs| > 0
    ensures k < |vs|
    ensures forall i :: 0 <= i < |vs| ==> RealOf(vs[i]) <= RealOf(vs[k])
    ensures forall i :: 0 <= i < k ==> RealOf(vs[i]) < RealOf(vs[k])
  {
    if |vs| == 1 then 0
    else
      var k := MaxIndex(vs[..|vs| - 1]);
      if RealOf(vs[|vs| - 1]) > RealOf(vs[k]) then |vs| - 1 else k
  }

  /** The position of the first least number: `Array#min` keeps the first of equals. */
  function MinIndex(vs: seq<Num>): (k: nat)
    requires |vs| > 0
    ensures k < |vs|
    ensures forall i :: 0 <= i < |vs| ==> RealOf(vs[k]) <= RealOf(vs[i])
    ensures forall i :: 0 <= i < k ==> RealOf(vs[k]) < RealOf(vs[i])
  {
    if |vs| == 1 then 0
    else
      var k := MinIndex(vs[..|vs| - 1]);
      if RealOf(vs[|vs| - 1]) < RealOf(vs[k]) then |vs| - 1 else k
  }

  /** The plain sum of the numbers. */
  function Total(vs: seq<Num>): real {
    if |vs| == 0 then 0.0 else Total(vs[..|vs| - 1]) + RealOf(vs[|vs| - 1])
  }

  /**
   * `Array#sum`: starting from the Integer 0, each number added with `+`.
   * The sum is the total, and it stays an Integer exactly when every number is one.
   */
  function Sum(vs: seq<Num>): (s: Num)
    ensures RealOf(s) == Total(vs)
    ensures s.Int? <==> forall i :: 0 <= i < |vs| ==> vs[i].Int?
  {
    if |vs| == 0 then Int(0)
    else
      var prefix := Sum(vs[..|vs| - 1]);
      assert forall i :: 0 <= i < |vs| - 1 ==> vs[..|vs| - 1][i] == vs[i];
      Op.Add(Some(prefix), Some(vs[|vs| - 1])).value
  }

  /**
   * The statistics functions once the numbers are collected: `max`, `min`
   * and `sum` raise on an empty range, `mean` answers 0.0.
   */
  function Aggregate(op: BinaryClass, vs: seq<Num>): (r: Result<Value, EvalError>)
    requires op.MaxOperation? || op.MinOperation? || op.MeanOperation? || op.SumOperation?
    ensures |vs| == 0 ==> r == (if op.MeanOperation? then Ok(Flt(0.0)) else Err(NoNumericCells))
    ensures |vs| > 0 ==> r.Ok?
  {
    if |vs| == 0 then (if op.MeanOperation? then Ok(Flt(0.0)) else Err(NoNumericCells))
    else
      match op
      case MaxOperation => Ok(vs[MaxIndex(vs)])
      case MinOperation => Ok(vs[MinIndex(vs)])
      case MeanOperation => Ok(Flt(Total(vs) / (|vs| as real)))
      case SumOperation => Ok(Sum(vs))
  }

  // ------------------------------------------------------------ for loops

  /** A decimal numeral without leading zeros. */
  predicate Canonical(s: string) {
    |s| >= 1 && (forall i :: 0 <= i < |s| ==> IsDigit(s[i])) && (|s| == 1 || s[0] != '0')
  }

  /**
   * The numbers a string range `start..end` steps through, for the ranges
   * modelled. When both ends are all digits Ruby counts up from the start
   * value, writing each number with the start's width, and `Integer(...)`
   * reads it back. With no leading zeros on the start every written number
   * is a plain decimal numeral, so the numbers are exactly `start..end`.
   * A start with leading zeros writes padded numbers that `Integer(...)`
   * reads as octal or rejects, and other string ranges step by
   * `String#succ`: both give None.
   */
  function LoopRange(start: string, end: string): (r: Option<(nat, nat)>)
    ensures r.Some? <==> Canonical(start) && |end| >= 1 && forall i :: 0 <= i < |end| ==> IsDigit(end[i])
    ensures r.Some? ==> r.value == (NumeralValue(start), NumeralValue(end))
  {
    if Canonical(start) && |end| >= 1 && (forall i :: 0 <= i < |end| ==> IsDigit(end[i])) then
      Some((NumeralValue(start), NumeralValue(end)))
    else None
  }

  // ------------------------------------------------------------ evaluation

  /** `traverse`: dispatches on the node, as the visitor name built from its class does. */
  function Eval(n: Node, g: Cells, env: Env): (o: Outcome)
    ensures n.Reference? ==> o.vars == env && (o.result.Ok? <==> n.name in env)
    ensures n.Reference? && n.name in env ==> o.result.value == env[n.name]
    decreases n, 3
  {
    match n
    case IntegerPrimitive(v, _) => Done(Some(Int(v)), env)
    case FloatPrimitive(v, _) => Done(Some(Flt(v)), env)
    case BooleanPrimitive(v, _) => Done(Some(Bool(v)), env)
    case StringPrimitive(v, _) => Done(Some(Str(v)), env)
    case CellAddressPrimitive(row, col) => Done(Some(Addr(row, col)), env)
    case Unary(_, _, _) => EvalUnary(n, g, env)
    case Binary(_, _, _, _) => EvalBinary(n, g, env)
    case Block(_) => EvalStatements(n, 0, g, env, None)
    case Assignment(_, _) => EvalAssignment(n, g, env)
    case Reference(name, _) => if name in env then Done(env[name], env) else Raise(Unbound(name), env)
    case Conditional(_, _, _) => EvalConditional(n, g, env)
    case ForLoop(_, _, _, _, _, _) => EvalForLoop(n, g, env)
  }

  /** The unary visitors: the operand first, then the operator's checks. */
  function EvalUnary(n: Node, g: Cells, env: Env): (o: Outcome)
    requires n.Unary?
    ensures o.vars == Eval(n.operand, g, env).vars
    ensures Eval(n.operand, g, env).result.Err? ==> o == Eval(n.operand, g, env)
    decreases n, 2
  {
    var o := Eval(n.operand, g, env);
    if o.result.Err? then o else Lift(ApplyUnary(n.uop, o.result.value), o.vars)
  }

  function EvalBinary(n: Node, g: Cells, env: Env): Outcome
    requires n.Binary?
    decreases n, 2
  {
    if Eager(n.op) then EvalOperands(n, g, env)
    else if n.op.AndOperation? || n.op.OrOperation? then EvalLogic(n, g, env)
    else if n.op.RValue? then EvalRValue(n, g, env)
    else if n.op.SumOperation? then EvalSum(n, g, env)
    else EvalStatistic(n, g, env)
  }

  /** An eager binary visitor: left, then right, then the operator. */
  function EvalOperands(n: Node, g: Cells, env: Env): (o: Outcome)
    requires n.Binary? && Eager(n.op)
    ensures Eval(n.left, g, env).result.Err? ==> o == Eval(n.left, g, env)
    decreases n, 1
  {
    var lo := Eval(n.left, g, env);
    if lo.result.Err? then lo
    else
      var ro := Eval(n.right, g, lo.vars);
      if ro.result.Err? then ro
      else Lift(ApplyBinary(n.op, lo.result.value, ro.result.value), ro.vars)
  }

  /**
   * `visit_and` and `visit_or`: the left operand must be a Boolean and,
   * when it decides the answer, the right one is never evaluated.
   */
  function EvalLogic(n: Node, g: Cells, env: Env): (o: Outcome)
    requires n.Binary? && (n.op.AndOperation? || n.op.OrOperation?)
    ensures o.result.Ok? ==> IsBool(o.result.value)
    decreases n, 1
  {
    var lo := Eval(n.left, g, env);
    if lo.result.Err? then lo
    else if !IsBool(lo.result.value) then Raise(TypeMismatch, lo.vars)
    else if lo.result.value.value.b == n.op.OrOperation? then Done(lo.result.value, lo.vars)
    else
      var ro := Eval(n.right, g, lo.vars);
      if ro.result.Err? then ro
      else if !IsBool(ro.result.value) then Raise(TypeMismatch, ro.vars)
      else Done(ro.result.value, ro.vars)
  }

  /**
   * `visit_rvalue`: the payloads of both coordinates must be Integers, and
   * the cell they name must hold a number.
   */
  function EvalRValue(n: Node, g: Cells, env: Env): (o: Outcome)
    requires n.Binary? && n.op.RValue?
    ensures o.result.Ok? ==> IsNumeric(o.result.value)
    decreases n, 1
  {
    var lo := Eval(n.left, g, env);
    if lo.result.Err? then lo
    else
      match Payload(lo.result.value)
      case Err(e) => Raise(e, lo.vars)
      case Ok(row) =>
        var ro := Eval(n.right, g, lo.vars);
        if ro.result.Err? then ro
        else
          match Payload(ro.result.value)
          case Err(e) => Raise(e, ro.vars)
          case Ok(col) =>
            if !(row.Int? && col.Int?) then Raise(TypeMismatch, ro.vars)
            else Lift(NumericCell(CellAt(g, row.i, col.i)), ro.vars)
  }

  /** `visit_max`, `visit_min`, `visit_mean`: both corners evaluated, then the rectangle scanned. */
  function EvalStatistic(n: Node, g: Cells, env: Env): (o: Outcome)
    requires n.Binary? && (n.op.MaxOperation? || n.op.MinOperation? || n.op.MeanOperation?)
    ensures o.result.Ok? ==> IsNumeric(o.result.value)
    ensures o.result.Ok? && n.op.MeanOperation? ==> o.result.value.value.Flt?
    decreases n, 1
  {
    var lo := Eval(n.left, g, env);
    if lo.result.Err? then lo
    else
      var ro := Eval(n.right, g, lo.vars);
      if ro.result.Err? then ro
      else
        match Corner(lo.result.value)
        case Err(e) => Raise(e, ro.vars)
        case Ok(s) =>
          match Corner(ro.result.value)
          case Err(e) => Raise(e, ro.vars)
          case Ok(t) =>
            match RectNumbers(g, s.0, t.0, s.1, t.1)
            case Err(e) => Raise(e, ro.vars)
            case Ok(vs) => Lift(Aggregate(n.op, vs), ro.vars)
  }

  /** `visit_sum`: the corners are read from the tree, nothing is evaluated. */
  function EvalSum(n: Node, g: Cells, env: Env): (o: Outcome)
    requires n.Binary? && n.op.SumOperation?
    ensures o.vars == env
    ensures o.result.Ok? ==> IsNumeric(o.result.value)
    ensures SumCorner(n.left).Err? || SumCorner(n.right).Err? ==> o == Raise(HostError, env)
    ensures SumCorner(n.left).Ok? && SumCorner(n.right).Ok? && SumNumbers(g, SumCorner(n.left).value, SumCorner(n.right).value) == Ok([]) ==>
      o == Raise(NoNumericCells, env)
  {
    match SumCorner(n.left)
    case Err(e) => Raise(e, env)
    case Ok(s) =>
      match SumCorner(n.right)
      case Err(e) => Raise(e, env)
      case Ok(t) =>
        match SumNumbers(g, s, t)
        case Err(e) => Raise(e, env)
        case Ok(vs) => Lift(Aggregate(n.op, vs), env)
  }

  /** `visit_block`: the statements in order; the value of the last, nil for none. */
  function EvalStatements(n: Node, i: nat, g: Cells, env: Env, last: Option<Value>): Outcome
    requires n.Block? && i <= |n.statements|
    decreases n, 1, |n.statements| - i
  {
    if i == |n.statements| then Done(last, env)
    else
      var o := Eval(n.statements[i], g, env);
      if o.result.Err? then o else EvalStatements(n, i + 1, g, o.vars, o.result.value)
  }

  /** `visit_assignment`: binds the variable to the statement's value, which is also the result. */
  function EvalAssignment(n: Node, g: Cells, env: Env): (o: Outcome)
    requires n.Assignment?
    ensures o.result == Eval(n.statement, g, env).result
    decreases n, 2
  {
    var o := Eval(n.statement, g, env);
    if o.result.Err? then o else Outcome(o.result, o.vars[n.variable.text := o.result.value])
  }

  /** `visit_conditional`: the condition must be a Boolean; a false one without an else block gives nil. */
  function EvalConditional(n: Node, g: Cells, env: Env): (o: Outcome)
    requires n.Conditional?
    ensures Eval(n.condition, g, env).result.Ok? && !IsBool(Eval(n.condition, g, env).result.value) ==>
      o == Raise(TypeMismatch, Eval(n.condition, g, env).vars)
    decreases n, 2
  {
    var c := Eval(n.condition, g, env);
    if c.result.Err? then c
    else if !IsBool(c.result.value) then Raise(TypeMismatch, c.vars)
    else if c.result.value.value.b then Eval(n.ifBlock, g, c.vars)
    else if n.elseBlock.Some? then Eval(n.elseBlock.value, g, c.vars)
    else Done(None, c.vars)
  }

  /**
   * `visit_for_loop`: rows outermost, columns innermost; each step binds
   * the loop variable to the cell and evaluates the body. The result is the
   * body's last value, nil when the body never ran.
   */
  function EvalForLoop(n: Node, g: Cells, env: Env): (o: Outcome)
    requires n.ForLoop?
    ensures LoopRange(n.startRow.text, n.endRow.text).None? ==> o == Raise(Unmodelled, env)
    ensures var rows := LoopRange(n.startRow.text, n.endRow.text);
      var cols := LoopRange(n.startCol.text, n.endCol.text);
      rows.Some? && (rows.value.0 > rows.value.1 || (cols.Some? && cols.value.0 > cols.value.1)) ==> o == Done(None, env)
    decreases n, 2
  {
    match LoopRange(n.startRow.text, n.endRow.text)
    case None => Raise(Unmodelled, env)
    case Some(rows) =>
      if rows.0 > rows.1 then Done(None, env)
      else
        match LoopRange(n.startCol.text, n.endCol.text)
        case None => Raise(Unmodelled, env)
        case Some(cols) => ForRows(n, g, rows.0, rows.1, cols.0, cols.1, env, None)
  }

  /** The outer loop, from row `row` to `r1`. */
  function ForRows(n: Node, g: Cells, row: int, r1: int, c0: int, c1: int, env: Env, last: Option<Value>): (o: Outcome)
    requires n.ForLoop?
    ensures c1 < c0 ==> o == Done(last, env)
    decreases n, 1, r1 + 1 - row
  {
    if row > r1 then Done(last, env)
    else
      var o := ForCols(n, g, row, c0, c1, env, last);
      if o.result.Err? then o else ForRows(n, g, row + 1, r1, c0, c1, o.vars, o.result.value)
  }

  /** The inner loop over the columns of one row, from `col` to `c1`. */
  function ForCols(n: Node, g: Cells, row: int, col: int, c1: int, env: Env, last: Option<Value>): (o: Outcome)
    requires n.ForLoop?
    ensures col <= c1 && CellAt(g, row, col).Err? ==> o == Raise(HostError, env)
    decreases n, 0, c1 + 1 - col
  {
    if col > c1 then Done(last, env)
    else
      match CellAt(g, row, col)
      case Err(e) => Raise(e, env)
      case Ok(cell) =>
        var o := Eval(n.body, g, env[n.loopVariable.text := cell]);
        if o.result.Err? then o else ForCols(n, g, row, col + 1, c1, o.vars, o.result.value)
  }
}
