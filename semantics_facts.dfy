/**
 * Properties of the evaluation functions: how the statistics scan stops on
 * a bad row, what the statistics return, how the logic operators
 * short-circuit, and which constructs leave the variables alone.
 */
module SemanticsFacts {
  import opened Wrappers
  import opened Values
  import opened Ast
  import opened Grids
  import opened Semantics

  // ------------------------------------------------------------ the scan

  /** Once reading a row fails, reading more of its columns fails the same way. */
  lemma {:induction false} RowErrorPersists(g: Cells, row: int, c0: int, col: int, c1: int)
    requires col <= c1 && RowNumbers(g, row, c0, col).Err?
    ensures RowNumbers(g, row, c0, c1) == RowNumbers(g, row, c0, col)
    decreases c1 - col
  {
    if col < c1 {
      RowErrorPersists(g, row, c0, col, c1 - 1);
    }
  }

  /** Once the scan of a rectangle fails, scanning more rows fails the same way. */
  lemma {:induction false} RectErrorPersists(g: Cells, r0: int, row: int, r1: int, c0: int, c1: int)
    requires row <= r1 && RectNumbers(g, r0, row, c0, c1).Err?
    ensures RectNumbers(g, r0, r1, c0, c1) == RectNumbers(g, r0, row, c0, c1)
    decreases r1 - row
  {
    if row < r1 {
      RectErrorPersists(g, r0, row, r1 - 1, c0, c1);
    }
  }

  /** A row inside the grid is read without error, and keeps exactly its numeric cells. */
  lemma {:induction false} RowInsideGrid(g: Cells, row: int, c0: int, c1: int)
    requires 0 <= row < |g|
    requires 0 <= c0 && c1 < |g[row]|
    ensures RowNumbers(g, row, c0, c1).Ok?
    ensures c0 <= c1 + 1 ==> |RowNumbers(g, row, c0, c1).value| <= c1 + 1 - c0
    ensures forall v :: v in RowNumbers(g, row, c0, c1).value ==>
      exists c :: c0 <= c <= c1 && g[row][c] == Some(v)
    decreases c1 - c0
  {
    if c0 <= c1 {
      RowInsideGrid(g, row, c0, c1 - 1);
    }
  }

  /** A row outside the wrap-around range fails the scan as soon as one of its columns is read. */
  lemma RowOutsideGrid(g: Cells, row: int, c0: int, c1: int)
    requires !(-|g| <= row < |g|) && c0 <= c1
    ensures RowNumbers(g, row, c0, c1) == Err(HostError)
  {
    if c0 < c1 {
      RowErrorPersists(g, row, c0, c0, c1);
    }
  }

  // ------------------------------------------------------------ statistics

  /** `max` is the first of the greatest numbers and `min` the first of the least. */
  lemma MaxMinAreFirstExtremes(vs: seq<Num>)
    requires |vs| > 0
    ensures Aggregate(MaxOperation, vs).Ok?
    ensures exists k :: (0 <= k < |vs| && Aggregate(MaxOperation, vs).value == vs[k] &&
      (forall i :: 0 <= i < |vs| ==> RealOf(vs[i]) <= RealOf(vs[k])) &&
      (forall i :: 0 <= i < k ==> RealOf(vs[i]) < RealOf(vs[k])))
    ensures exists k :: (0 <= k < |vs| && Aggregate(MinOperation, vs).value == vs[k] &&
      (forall i :: 0 <= i < |vs| ==> RealOf(vs[k]) <= RealOf(vs[i])) &&
      (forall i :: 0 <= i < k ==> RealOf(vs[k]) < RealOf(vs[i])))
  {
    var k := MaxIndex(vs);
    var m := MinIndex(vs);
    assert Aggregate(MaxOperation, vs).value == vs[k];
    assert Aggregate(MinOperation, vs).value == vs[m];
  }

  /** The total lies between the count times the least and the count times the greatest number. */
  lemma {:induction false} TotalBounds(vs: seq<Num>, lo: real, hi: real)
    requires forall i :: 0 <= i < |vs| ==> lo <= RealOf(vs[i]) <= hi
    ensures (|vs| as real) * lo <= Total(vs) <= (|vs| as real) * hi
  {
    if |vs| > 0 {
      var prefix := vs[..|vs| - 1];
      assert forall i :: 0 <= i < |prefix| ==> prefix[i] == vs[i];
      TotalBounds(prefix, lo, hi);
      var n := |prefix| as real;
      assert Total(vs) == Total(prefix) + RealOf(vs[|vs| - 1]);
      assert (|vs| as real) * lo == n * lo + lo;
      assert (|vs| as real) * hi == n * hi + hi;
    }
  }

  /** Scaling by a positive factor keeps strict order. */
  lemma ScaleKeepsOrder(a: real, b: real, n: real)
    requires n > 0.0
    ensures a < b ==> a * n < b * n
  {
  }

  /** Dividing by a positive count keeps a bound on the count's multiples. */
  lemma DivideBounds(t: real, n: real, lo: real, hi: real)
    requires n > 0.0 && n * lo <= t <= n * hi
    ensures lo <= t / n <= hi
  {
    var q := t / n;
    assert q * n == t;
    ScaleKeepsOrder(q, lo, n);
    ScaleKeepsOrder(hi, q, n);
  }

  /** `mean` lies between `min` and `max`. */
  lemma MeanBetweenMinAndMax(vs: seq<Num>)
    requires |vs| > 0
    ensures var mean := Aggregate(MeanOperation, vs).value;
      mean.Flt? &&
      RealOf(Aggregate(MinOperation, vs).value) <= mean.f <= RealOf(Aggregate(MaxOperation, vs).value)
  {
    var lo, hi := RealOf(vs[MinIndex(vs)]), RealOf(vs[MaxIndex(vs)]);
    TotalBounds(vs, lo, hi);
    DivideBounds(Total(vs), |vs| as real, lo, hi);
  }

  /** `sum` stays an Integer exactly when every collected number is one, and adds them all up. */
  lemma SumKinds(vs: seq<Num>)
    requires |vs| > 0
    ensures Aggregate(SumOperation, vs).Ok?
    ensures RealOf(Aggregate(SumOperation, vs).value) == Total(vs)
    ensures Aggregate(SumOperation, vs).value.Int? <==> forall i :: 0 <= i < |vs| ==> vs[i].Int?
  {
  }

  // ------------------------------------------------------------ evaluation

  /** `a and b` with a false `a` never evaluates `b`. */
  lemma AndShortCircuits(l: Node, r: Node, span: Span, g: Cells, env: Env)
    requires Eval(l, g, env).result == Ok(Some(Bool(false)))
    ensures Eval(Binary(AndOperation, l, r, span), g, env) == Done(Some(Bool(false)), Eval(l, g, env).vars)
  {
    assert Eval(Binary(AndOperation, l, r, span), g, env) == EvalLogic(Binary(AndOperation, l, r, span), g, env);
  }

  /** `a or b` with a true `a` never evaluates `b`. */
  lemma OrShortCircuits(l: Node, r: Node, span: Span, g: Cells, env: Env)
    requires Eval(l, g, env).result == Ok(Some(Bool(true)))
    ensures Eval(Binary(OrOperation, l, r, span), g, env) == Done(Some(Bool(true)), Eval(l, g, env).vars)
  {
    assert Eval(Binary(OrOperation, l, r, span), g, env) == EvalLogic(Binary(OrOperation, l, r, span), g, env);
  }

  /** Otherwise `and` and `or` answer with the right operand, which must be a Boolean too. */
  lemma LogicAnswersWithRight(op: BinaryClass, l: Node, r: Node, span: Span, g: Cells, env: Env)
    requires op.AndOperation? || op.OrOperation?
    requires Eval(l, g, env).result == Ok(Some(Bool(op.AndOperation?)))
    ensures var o := Eval(r, g, Eval(l, g, env).vars);
      Eval(Binary(op, l, r, span), g, env) ==
        if o.result.Err? then o
        else if IsBool(o.result.value) then o
        else Raise(TypeMismatch, o.vars)
  {
    assert Eval(Binary(op, l, r, span), g, env) == EvalLogic(Binary(op, l, r, span), g, env);
  }

  /** A false condition without an else block gives nil and binds nothing more. */
  lemma FalseConditionWithoutElse(c: Node, ifBlock: Node, g: Cells, env: Env)
    requires Eval(c, g, env).result == Ok(Some(Bool(false)))
    ensures Eval(NewConditional(c, ifBlock), g, env) == Done(None, Eval(c, g, env).vars)
  {
    assert Eval(NewConditional(c, ifBlock), g, env) == EvalConditional(NewConditional(c, ifBlock), g, env);
  }

  /** A block without statements evaluates to nil. */
  lemma EmptyBlockIsNil(g: Cells, env: Env)
    ensures Eval(Block([]), g, env) == Done(None, env)
  {
    assert Eval(Block([]), g, env) == EvalStatements(Block([]), 0, g, env, None);
  }

  /**
   * An assignment binds its variable to the value it answers, and binds nothing else;
   * a statement that raises leaves the assignment's outcome as it is.
   */
  lemma AssignmentBinds(v: Tokens.Token, s: Node, g: Cells, env: Env)
    ensures var o := Eval(s, g, env);
      var a := Eval(Assignment(v, s), g, env);
      (o.result.Err? ==> a == o) &&
      (o.result.Ok? ==> a.result == o.result && a.vars == o.vars[v.text := o.result.value])
  {
    var n := Assignment(v, s);
    var o := Eval(s, g, env);
    var a := EvalAssignment(n, g, env);
    assert a == if o.result.Err? then o else Outcome(o.result, o.vars[v.text := o.result.value]);
    assert Eval(n, g, env) == a;
  }

  /** A for-loop whose rows run backwards never runs its body: nil, and nothing bound. */
  lemma BackwardLoopIsNil(n: Node, g: Cells, env: Env)
    requires n.ForLoop?
    requires LoopRange(n.startRow.text, n.endRow.text).Some?
    requires LoopRange(n.startRow.text, n.endRow.text).value.0 > LoopRange(n.startRow.text, n.endRow.text).value.1
    ensures Eval(n, g, env) == Done(None, env)
  {
    assert Eval(n, g, env) == EvalForLoop(n, g, env);
  }

  // ------------------------------------------------------------ sum

  /** A literal's `.value`, read from the tree by `sum`, is what evaluating the literal gives. */
  lemma RawLiteralIsItsValue(n: Node, g: Cells, env: Env)
    requires RawValue(n).Some? && RawValue(n).value.RawLiteral?
    ensures Eval(n, g, env) == Done(Some(RawValue(n).value.v), env)
  {
    match n
    case IntegerPrimitive(_, _) =>
    case FloatPrimitive(_, _) =>
    case BooleanPrimitive(_, _) =>
    case StringPrimitive(_, _) =>
  }

  /** `sum([a, b], [c, d])` as the parser builds it, corners as L-value nodes. */
  function SumNode(a: Node, b: Node, c: Node, d: Node): Node {
    Binary(SumOperation, Binary(LValue, a, b, NoSpan), Binary(LValue, c, d, NoSpan), NoSpan)
  }

  /**
   * `sum` over two corners with Integer literal coordinates scans the
   * rectangle they span, as the statistics functions do.
   */
  lemma SumOfIntegerCorners(r0: int, c0: int, r1: int, c1: int, s0: Span, s1: Span, s2: Span, s3: Span,
                            g: Cells, env: Env)
    ensures RectNumbers(g, r0, r1, c0, c1).Err? ==>
      Eval(SumNode(IntegerPrimitive(r0, s0), IntegerPrimitive(c0, s1), IntegerPrimitive(r1, s2), IntegerPrimitive(c1, s3)), g, env)
      == Raise(RectNumbers(g, r0, r1, c0, c1).error, env)
    ensures RectNumbers(g, r0, r1, c0, c1).Ok? ==>
      Eval(SumNode(IntegerPrimitive(r0, s0), IntegerPrimitive(c0, s1), IntegerPrimitive(r1, s2), IntegerPrimitive(c1, s3)), g, env)
      == Lift(Aggregate(SumOperation, RectNumbers(g, r0, r1, c0, c1).value), env)
  {
    var n := SumNode(IntegerPrimitive(r0, s0), IntegerPrimitive(c0, s1), IntegerPrimitive(r1, s2), IntegerPrimitive(c1, s3));
    assert Eval(n, g, env) == EvalSum(n, g, env);
    if r1 < r0 {
      assert RectNumbers(g, r0, r1, c0, c1) == Ok([]);
    }
  }

  /**
   * `sum` builds its column range inside the row loop: when the rows run
   * backwards no column range is built, so any column corners that have a
   * `.value` give "No numeric values" rather than a failure.
   */
  lemma SumWithEmptyRowsIgnoresColumns(r0: int, r1: int, c0: Node, c1: Node, s0: Span, s1: Span, g: Cells, env: Env)
    requires r1 < r0 && RawValue(c0).Some? && RawValue(c1).Some?
    ensures Eval(SumNode(IntegerPrimitive(r0, s0), c0, IntegerPrimitive(r1, s1), c1), g, env) == Raise(NoNumericCells, env)
  {
    var n := SumNode(IntegerPrimitive(r0, s0), c0, IntegerPrimitive(r1, s1), c1);
    assert Eval(n, g, env) == EvalSum(n, g, env);
  }

  /** `sum([2, -1], [1, 3])`: the negated column is never iterated, since rows 2..1 are empty. */
  lemma SumNegatedColumnExample(g: Cells, env: Env)
    ensures Eval(SumNode(IntegerPrimitive(2, NoSpan), Unary(NegationOperation, IntegerPrimitive(1, NoSpan), NoSpan),
                         IntegerPrimitive(1, NoSpan), IntegerPrimitive(3, NoSpan)), g, env)
            == Raise(NoNumericCells, env)
  {
    SumWithEmptyRowsIgnoresColumns(2, 1, Unary(NegationOperation, IntegerPrimitive(1, NoSpan), NoSpan), IntegerPrimitive(3, NoSpan),
                                   NoSpan, NoSpan, g, env);
  }

  /** Once rows are walked, a column corner that is not an Integer fails `sum`, unless both are Strings. */
  lemma SumWithRowsNeedsIntegerColumns(r0: int, r1: int, c0: Node, c1: Node, s0: Span, s1: Span, g: Cells, env: Env)
    requires r0 <= r1 && RawValue(c0).Some? && RawValue(c1).Some? && !c0.IntegerPrimitive?
    requires !(c0.StringPrimitive? && c1.StringPrimitive?)
    ensures Eval(SumNode(IntegerPrimitive(r0, s0), c0, IntegerPrimitive(r1, s1), c1), g, env) == Raise(HostError, env)
  {
    var n := SumNode(IntegerPrimitive(r0, s0), c0, IntegerPrimitive(r1, s1), c1);
    assert Eval(n, g, env) == EvalSum(n, g, env);
  }

  /** Nodes that bind nothing: no assignment and no for-loop anywhere inside. */
  predicate BindsNothing(n: Node) {
    match n
    case Binary(_, l, r, _) => BindsNothing(l) && BindsNothing(r)
    case Unary(_, x, _) => BindsNothing(x)
    case Block(ss) => forall i :: 0 <= i < |ss| ==> BindsNothing(ss[i])
    case Assignment(_, _) => false
    case Conditional(c, ib, eb) => BindsNothing(c) && BindsNothing(ib) && (eb.Some? ==> BindsNothing(eb.value))
    case ForLoop(_, _, _, _, _, _) => false
    case _ => true
  }

  /** Evaluating a node that binds nothing leaves the variables exactly as they were. */
  lemma {:induction false} PureNodeKeepsVariables(n: Node, g: Cells, env: Env)
    requires BindsNothing(n)
    ensures Eval(n, g, env).vars == env
    decreases n, 1
  {
    match n
    case Binary(op, l, r, _) =>
      PureNodeKeepsVariables(l, g, env);
      PureNodeKeepsVariables(r, g, env);
      OperandsKeepVariables(n, g, env);
    case Unary(_, x, _) =>
      PureNodeKeepsVariables(x, g, env);
      assert Eval(n, g, env) == EvalUnary(n, g, env);
    case Block(ss) =>
      PureStatementsKeepVariables(n, 0, g, env, None);
    case Conditional(c, ib, eb) =>
      PureNodeKeepsVariables(c, g, env);
      PureNodeKeepsVariables(ib, g, env);
      if eb.Some? {
        PureNodeKeepsVariables(eb.value, g, env);
      }
      assert Eval(n, g, env) == EvalConditional(n, g, env);
    case _ =>
  }

  /** A binary node whose operands keep the variables keeps them too. */
  lemma OperandsKeepVariables(n: Node, g: Cells, env: Env)
    requires n.Binary? && Eval(n.left, g, env).vars == env && Eval(n.right, g, env).vars == env
    ensures Eval(n, g, env).vars == env
  {
    assert Eval(n, g, env) == EvalBinary(n, g, env);
    if Eager(n.op) {
      assert EvalBinary(n, g, env) == EvalOperands(n, g, env);
    } else if n.op.AndOperation? || n.op.OrOperation? {
      assert EvalBinary(n, g, env) == EvalLogic(n, g, env);
    } else if n.op.RValue? {
      assert EvalBinary(n, g, env) == EvalRValue(n, g, env);
    } else if n.op.SumOperation? {
      assert EvalBinary(n, g, env) == EvalSum(n, g, env);
    } else {
      assert EvalBinary(n, g, env) == EvalStatistic(n, g, env);
    }
  }

  lemma {:induction false} PureStatementsKeepVariables(n: Node, i: nat, g: Cells, env: Env, last: Option<Value>)
    requires n.Block? && i <= |n.statements| && BindsNothing(n)
    ensures EvalStatements(n, i, g, env, last).vars == env
    decreases n, 0, |n.statements| - i
  {
    if i < |n.statements| {
      PureNodeKeepsVariables(n.statements[i], g, env);
      var o := Eval(n.statements[i], g, env);
      if o.result.Ok? {
        PureStatementsKeepVariables(n, i + 1, g, env, o.result.value);
      }
    }
  }
}
