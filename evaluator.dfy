/**
 * The tree-walking evaluator: one visitor per node class. Each visitor
 * evaluates the node against the runtime, binding variables in the
 * runtime's hash as it goes, and answers what the evaluation functions of
 * `Semantics` say it does.
 */
module Evaluation {
  import opened Wrappers
  import opened Values
  import opened Ast
  import opened Grids
  import opened Runtimes
  import opened Semantics
  import opened SemanticsFacts

  class Evaluator {
    const grid: Grid

    /** `Evaluator.new(grid)`. The visitors read cells through the runtime, not this grid. */
    constructor (grid: Grid)
      ensures this.grid == grid
    {
      this.grid := grid;
    }

    /** `traverse`: the visitor the node's class names. */
    method Traverse(n: Node, runtime: Runtime) returns (r: Result<Option<Value>, EvalError>)
      requires runtime.grid.Valid()
      modifies runtime
      ensures Outcome(r, runtime.variables) == Eval(n, runtime.grid.Cells(), old(runtime.variables))
      decreases n, 3
    {
      match n
      case IntegerPrimitive(v, _) => r := Ok(Some(Int(v)));
      case FloatPrimitive(v, _) => r := Ok(Some(Flt(v)));
      case BooleanPrimitive(v, _) => r := Ok(Some(Bool(v)));
      case StringPrimitive(v, _) => r := Ok(Some(Str(v)));
      case CellAddressPrimitive(row, col) => r := Ok(Some(Addr(row, col)));
      case Unary(_, _, _) => r := VisitUnary(n, runtime);
      case Binary(_, _, _, _) => r := VisitBinary(n, runtime);
      case Block(_) => r := VisitBlock(n, runtime);
      case Assignment(_, _) => r := VisitAssignment(n, runtime);
      case Reference(name, _) =>
        if name in runtime.variables {
          r := Ok(runtime.variables[name]);
        } else {
          r := Err(Unbound(name));
        }
      case Conditional(_, _, _) => r := VisitConditional(n, runtime);
      case ForLoop(_, _, _, _, _, _) => r := VisitForLoop(n, runtime);
    }

    /** The unary visitors: evaluate the operand, then check and compute. */
    method VisitUnary(n: Node, runtime: Runtime) returns (r: Result<Option<Value>, EvalError>)
      requires n.Unary? && runtime.grid.Valid()
      modifies runtime
      ensures Outcome(r, runtime.variables) == EvalUnary(n, runtime.grid.Cells(), old(runtime.variables))
      decreases n, 2
    {
      var v := Traverse(n.operand, runtime);
      if v.Err? {
        return v;
      }
      r := Lift(ApplyUnary(n.uop, v.value), runtime.variables).result;
    }

    method VisitBinary(n: Node, runtime: Runtime) returns (r: Result<Option<Value>, EvalError>)
      requires n.Binary? && runtime.grid.Valid()
      modifies runtime
      ensures Outcome(r, runtime.variables) == EvalBinary(n, runtime.grid.Cells(), old(runtime.variables))
      decreases n, 2
    {
      if Eager(n.op) {
        r := VisitOperands(n, runtime);
      } else if n.op.AndOperation? || n.op.OrOperation? {
        r := VisitLogic(n, runtime);
      } else if n.op.RValue? {
        r := VisitRValue(n, runtime);
      } else if n.op.SumOperation? {
        r := VisitSum(n, runtime);
      } else {
        r := VisitStatistic(n, runtime);
      }
    }

    /** The arithmetic, relational, bitwise and L-value visitors: left, right, then the operator. */
    method VisitOperands(n: Node, runtime: Runtime) returns (r: Result<Option<Value>, EvalError>)
      requires n.Binary? && Eager(n.op) && runtime.grid.Valid()
      modifies runtime
      ensures Outcome(r, runtime.variables) == EvalOperands(n, runtime.grid.Cells(), old(runtime.variables))
      decreases n, 1
    {
      var left := Traverse(n.left, runtime);
      if left.Err? {
        return left;
      }
      var right := Traverse(n.right, runtime);
      if right.Err? {
        return right;
      }
      r := Lift(ApplyBinary(n.op, left.value, right.value), runtime.variables).result;
    }

    /** `visit_and` and `visit_or`. */
    method VisitLogic(n: Node, runtime: Runtime) returns (r: Result<Option<Value>, EvalError>)
      requires n.Binary? && (n.op.AndOperation? || n.op.OrOperation?) && runtime.grid.Valid()
      modifies runtime
      ensures Outcome(r, runtime.variables) == EvalLogic(n, runtime.grid.Cells(), old(runtime.variables))
      decreases n, 1
    {
      var left := Traverse(n.left, runtime);
      if left.Err? {
        return left;
      }
      if !IsBool(left.value) {
        return Err(TypeMismatch);
      }
      if left.value.value.b == n.op.OrOperation? {
        return left;
      }
      var right := Traverse(n.right, runtime);
      if right.Err? {
        return right;
      }
      if !IsBool(right.value) {
        return Err(TypeMismatch);
      }
      r := right;
    }

    /** `visit_rvalue`: the cell at the evaluated coordinates, which must hold a number. */
    method VisitRValue(n: Node, runtime: Runtime) returns (r: Result<Option<Value>, EvalError>)
      requires n.Binary? && n.op.RValue? && runtime.grid.Valid()
      modifies runtime
      ensures Outcome(r, runtime.variables) == EvalRValue(n, runtime.grid.Cells(), old(runtime.variables))
      decreases n, 1
    {
      var left := Traverse(n.left, runtime);
      if left.Err? {
        return left;
      }
      var row := Payload(left.value);
      if row.Err? {
        return Err(row.error);
      }
      var right := Traverse(n.right, runtime);
      if right.Err? {
        return right;
      }
      var col := Payload(right.value);
      if col.Err? {
        return Err(col.error);
      }
      if !(row.value.Int? && col.value.Int?) {
        return Err(TypeMismatch);
      }
      var cell := runtime.GetCellValue(row.value.i, col.value.i);
      r := Lift(NumericCell(cell), runtime.variables).result;
    }

    /** `visit_max`, `visit_min`, `visit_mean`: both corners evaluated, then the scan. */
    method VisitStatistic(n: Node, runtime: Runtime) returns (r: Result<Option<Value>, EvalError>)
      requires n.Binary? && (n.op.MaxOperation? || n.op.MinOperation? || n.op.MeanOperation?)
      requires runtime.grid.Valid()
      modifies runtime
      ensures Outcome(r, runtime.variables) == EvalStatistic(n, runtime.grid.Cells(), old(runtime.variables))
      decreases n, 1
    {
      var startCell := Traverse(n.left, runtime);
      if startCell.Err? {
        return startCell;
      }
      var endCell := Traverse(n.right, runtime);
      if endCell.Err? {
        return endCell;
      }
      var s := Corner(startCell.value);
      if s.Err? {
        return Err(s.error);
      }
      var t := Corner(endCell.value);
      if t.Err? {
        return Err(t.error);
      }
      var values := CollectNumbers(runtime, s.value.0, t.value.0, s.value.1, t.value.1);
      if values.Err? {
        return Err(values.error);
      }
      r := Lift(Aggregate(n.op, values.value), runtime.variables).result;
    }

    /** `visit_sum`: the corners come from the tree itself; nothing is evaluated. */
    method VisitSum(n: Node, runtime: Runtime) returns (r: Result<Option<Value>, EvalError>)
      requires n.Binary? && n.op.SumOperation? && runtime.grid.Valid()
      ensures Outcome(r, runtime.variables) == EvalSum(n, runtime.grid.Cells(), runtime.variables)
    {
      var s := SumCorner(n.left);
      if s.Err? {
        return Err(s.error);
      }
      var t := SumCorner(n.right);
      if t.Err? {
        return Err(t.error);
      }
      var rows := SumRange(s.value.0, t.value.0);
      if rows.Err? {
        return Err(rows.error);
      }
      var values: seq<Num> := [];
      if rows.value.0 <= rows.value.1 {
        var cols := SumRange(s.value.1, t.value.1);
        if cols.Err? {
          return Err(cols.error);
        }
        var collected := CollectNumbers(runtime, rows.value.0, rows.value.1, cols.value.0, cols.value.1);
        if collected.Err? {
          return Err(collected.error);
        }
        values := collected.value;
      }
      r := Lift(Aggregate(n.op, values), runtime.variables).result;
    }

    /**
     * The scan the statistics functions share: rows `r0..r1`, in each the
     * columns `c0..c1`, keeping the numeric cells in that order.
     */
    method CollectNumbers(runtime: Runtime, r0: int, r1: int, c0: int, c1: int)
      returns (result: Result<seq<Num>, EvalError>)
      requires runtime.grid.Valid()
      ensures result == RectNumbers(runtime.grid.Cells(), r0, r1, c0, c1)
    {
      ghost var g := runtime.grid.Cells();
      var values: seq<Num> := [];
      var row := r0;
      while row <= r1
        invariant row == r0 || r0 <= row <= r1 + 1
        invariant RectNumbers(g, r0, row - 1, c0, c1) == Ok(values)
        decreases r1 - row
      {
        var kept := CollectRow(runtime, row, c0, c1);
        if kept.Err? {
          RectErrorPersists(g, r0, row, r1, c0, c1);
          return Err(kept.error);
        }
        values := values + kept.value;
        row := row + 1;
      }
      result := Ok(values);
    }

    /** The inner loop of the scan: the columns `c0..c1` of one row. */
    method CollectRow(runtime: Runtime, row: int, c0: int, c1: int) returns (result: Result<seq<Num>, EvalError>)
      requires runtime.grid.Valid()
      ensures result == RowNumbers(runtime.grid.Cells(), row, c0, c1)
    {
      ghost var g := runtime.grid.Cells();
      var values: seq<Num> := [];
      var col := c0;
      while col <= c1
        invariant col == c0 || c0 <= col <= c1 + 1
        invariant RowNumbers(g, row, c0, col - 1) == Ok(values)
        decreases c1 - col
      {
        var cell := runtime.GetCellValue(row, col);
        if cell.Err? {
          RowErrorPersists(g, row, c0, col, c1);
          return Err(cell.error);
        }
        values := values + Kept(cell.value);
        col := col + 1;
      }
      result := Ok(values);
    }

    /** `visit_block`: every statement in order; the last value, or nil. */
    method VisitBlock(n: Node, runtime: Runtime) returns (r: Result<Option<Value>, EvalError>)
      requires n.Block? && runtime.grid.Valid()
      modifies runtime
      ensures Outcome(r, runtime.variables) == EvalStatements(n, 0, runtime.grid.Cells(), old(runtime.variables), None)
      decreases n, 2
    {
      ghost var g := runtime.grid.Cells();
      var output: Option<Value> := None;
      var i := 0;
      while i < |n.statements|
        invariant 0 <= i <= |n.statements|
        invariant runtime.grid.Cells() == g
        invariant EvalStatements(n, i, g, runtime.variables, output) == EvalStatements(n, 0, g, old(runtime.variables), None)
      {
        var v := Traverse(n.statements[i], runtime);
        if v.Err? {
          return v;
        }
        output := v.value;
        i := i + 1;
      }
      r := Ok(output);
    }

    /** `visit_assignment`: evaluate, bind, answer the value. */
    method VisitAssignment(n: Node, runtime: Runtime) returns (r: Result<Option<Value>, EvalError>)
      requires n.Assignment? && runtime.grid.Valid()
      modifies runtime
      ensures Outcome(r, runtime.variables) == EvalAssignment(n, runtime.grid.Cells(), old(runtime.variables))
      decreases n, 2
    {
      var v := Traverse(n.statement, runtime);
      if v.Err? {
        return v;
      }
      runtime.Add(n.variable.text, v.value);
      r := v;
    }

    /** `visit_conditional`. */
    method VisitConditional(n: Node, runtime: Runtime) returns (r: Result<Option<Value>, EvalError>)
      requires n.Conditional? && runtime.grid.Valid()
      modifies runtime
      ensures Outcome(r, runtime.variables) == EvalConditional(n, runtime.grid.Cells(), old(runtime.variables))
      decreases n, 2
    {
      var condition := Traverse(n.condition, runtime);
      if condition.Err? {
        return condition;
      }
      if !IsBool(condition.value) {
        return Err(TypeMismatch);
      }
      if condition.value.value.b {
        r := Traverse(n.ifBlock, runtime);
      } else if n.elseBlock.Some? {
        r := Traverse(n.elseBlock.value, runtime);
      } else {
        r := Ok(None);
      }
    }

    /**
     * `visit_for_loop`: for each row and, inside it, each column of the
     * range, bind the loop variable to the cell there and run the body.
     */
    method VisitForLoop(n: Node, runtime: Runtime) returns (r: Result<Option<Value>, EvalError>)
      requires n.ForLoop? && runtime.grid.Valid()
      modifies runtime
      ensures Outcome(r, runtime.variables) == EvalForLoop(n, runtime.grid.Cells(), old(runtime.variables))
      decreases n, 2
    {
      ghost var g := runtime.grid.Cells();
      var rows := LoopRange(n.startRow.text, n.endRow.text);
      if rows.None? {
        return Err(Unmodelled);
      }
      var r0, r1 := rows.value.0, rows.value.1;
      if r0 > r1 {
        return Ok(None);
      }
      var cols := LoopRange(n.startCol.text, n.endCol.text);
      if cols.None? {
        return Err(Unmodelled);
      }
      var c0, c1 := cols.value.0, cols.value.1;
      ghost var target := ForRows(n, g, r0, r1, c0, c1, old(runtime.variables), None);
      var result: Option<Value> := None;
      var row: int := r0;
      while row <= r1
        invariant r0 <= row <= r1 + 1
        invariant runtime.grid.Cells() == g
        invariant ForRows(n, g, row, r1, c0, c1, runtime.variables, result) == target
        decreases r1 - row
      {
        var v := RunRow(n, runtime, row, c0, c1, result);
        if v.Err? {
          return v;
        }
        result := v.value;
        row := row + 1;
      }
      r := Ok(result);
    }

    /** The inner loop of `visit_for_loop`: the columns `c0..c1` of one row. */
    method RunRow(n: Node, runtime: Runtime, row: int, c0: int, c1: int, last: Option<Value>)
      returns (r: Result<Option<Value>, EvalError>)
      requires n.ForLoop? && runtime.grid.Valid()
      modifies runtime
      ensures Outcome(r, runtime.variables) == ForCols(n, runtime.grid.Cells(), row, c0, c1, old(runtime.variables), last)
      decreases n, 1
    {
      ghost var g := runtime.grid.Cells();
      ghost var target := ForCols(n, g, row, c0, c1, old(runtime.variables), last);
      var result := last;
      var col := c0;
      while col <= c1
        invariant col == c0 || c0 <= col <= c1 + 1
        invariant runtime.grid.Cells() == g
        invariant ForCols(n, g, row, col, c1, runtime.variables, result) == target
        decreases c1 - col
      {
        var cell := runtime.GetCellValue(row, col);
        if cell.Err? {
          return Err(cell.error);
        }
        runtime.Add(n.loopVariable.text, cell.value);
        var v := Traverse(n.body, runtime);
        if v.Err? {
          return v;
        }
        result := v.value;
        col := col + 1;
      }
      r := Ok(result);
    }
  }
}
