/**
 * `visit_for_loop` as a fold: the nested row and column loops visit the
 * cells of the rectangle in row-major order and, at each, bind the loop
 * variable to the cell and evaluate the body, stopping at the first raise.
 */
module LoopFacts {
  import opened Wrappers
  import opened Values
  import opened Ast
  import opened Grids
  import opened Semantics
  import opened Decimal
  import K = Tokens
  import Op = Operators

  /** The coordinates of one row, from column `col` to `c1`. */
  function RowCoords(row: int, col: int, c1: int): (cs: seq<(int, int)>)
    ensures |cs| == if col > c1 then 0 else c1 + 1 - col
    ensures forall k :: 0 <= k < |cs| ==> cs[k] == (row, col + k)
    decreases c1 + 1 - col
  {
    if col > c1 then [] else [(row, col)] + RowCoords(row, col + 1, c1)
  }

  /** The coordinates of rows `row` to `r1`, each from column `c0` to `c1`: row-major order. */
  function Coords(row: int, r1: int, c0: int, c1: int): seq<(int, int)>
    decreases r1 + 1 - row
  {
    if row > r1 then [] else RowCoords(row, c0, c1) + Coords(row + 1, r1, c0, c1)
  }

  /** One loop step per coordinate: read the cell, bind the variable, evaluate the body. */
  function Steps(n: Node, g: Cells, cs: seq<(int, int)>, env: Env, last: Option<Value>): Outcome
    requires n.ForLoop?
    decreases |cs|
  {
    if |cs| == 0 then Done(last, env)
    else
      match CellAt(g, cs[0].0, cs[0].1)
      case Err(e) => Raise(e, env)
      case Ok(cell) =>
        var o := Eval(n.body, g, env[n.loopVariable.text := cell]);
        if o.result.Err? then o else Steps(n, g, cs[1..], o.vars, o.result.value)
  }

  /** The `k`-th coordinate of a `w`-column rectangle is row `k / w`, column `k % w` from its corner. */
  lemma {:induction false} CoordsRowMajor(r0: int, r1: int, c0: int, c1: int)
    requires r0 <= r1 + 1 && c0 <= c1
    ensures |Coords(r0, r1, c0, c1)| == (r1 + 1 - r0) * (c1 + 1 - c0)
    ensures forall k :: 0 <= k < |Coords(r0, r1, c0, c1)| ==>
      Coords(r0, r1, c0, c1)[k] == (r0 + k / (c1 + 1 - c0), c0 + k % (c1 + 1 - c0))
    decreases r1 + 1 - r0
  {
    var w := c1 + 1 - c0;
    if r0 <= r1 {
      CoordsRowMajor(r0 + 1, r1, c0, c1);
      var head := RowCoords(r0, c0, c1);
      var rest := Coords(r0 + 1, r1, c0, c1);
      assert Coords(r0, r1, c0, c1) == head + rest;
      assert |head| == w;
      assert |rest| == (r1 - r0) * w;
      assert (r1 + 1 - r0) * w == w + (r1 - r0) * w;
      forall k | 0 <= k < |head + rest|
        ensures (head + rest)[k] == (r0 + k / w, c0 + k % w)
      {
        if k < w {
          assert k / w == 0 && k % w == k;
        } else {
          RowStep(k, w);
          assert (head + rest)[k] == rest[k - w];
        }
      }
    }
  }

  /** Skipping one row of `w` cells adds one to the row and leaves the column. */
  lemma RowStep(k: int, w: int)
    requires 0 < w <= k
    ensures (k - w) / w + 1 == k / w && (k - w) % w == k % w
  {
    var q := (k - w) / w;
    var m := (k - w) % w;
    assert k == (q + 1) * w + m by {
      assert k - w == q * w + m;
      assert (q + 1) * w == q * w + w;
    }
    DivisionIsUnique(k, w, q + 1, m);
  }

  /** A quotient and remainder with `0 <= m < w` are the ones `/` and `%` give. */
  lemma DivisionIsUnique(k: int, w: int, q: int, m: int)
    requires 0 < w && 0 <= m < w && k == q * w + m
    ensures k / w == q && k % w == m
  {
    var q' := k / w;
    var m' := k % w;
    assert k == q' * w + m';
    if q' > q {
      assert (q' - q) * w == q' * w - q * w;
      Grows(q' - q, w);
      assert false;
    } else if q' < q {
      assert (q - q') * w == q * w - q' * w;
      Grows(q - q', w);
      assert false;
    }
  }

  lemma Grows(a: int, w: int)
    requires a >= 1 && w > 0
    ensures a * w >= w
  {
    assert a * w == (a - 1) * w + w;
  }

  /** Running two lists of steps is running the first and then, unless it raised, the second. */
  lemma {:induction false} StepsAppend(n: Node, g: Cells, a: seq<(int, int)>, b: seq<(int, int)>, env: Env, last: Option<Value>)
    requires n.ForLoop?
    ensures Steps(n, g, a + b, env, last) ==
      (var o := Steps(n, g, a, env, last);
       if o.result.Err? then o else Steps(n, g, b, o.vars, o.result.value))
    decreases |a|
  {
    if |a| == 0 {
      assert a + b == b;
    } else {
      assert (a + b)[0] == a[0];
      assert (a + b)[1..] == a[1..] + b;
      match CellAt(g, a[0].0, a[0].1)
      case Err(e) =>
      case Ok(cell) =>
        var o := Eval(n.body, g, env[n.loopVariable.text := cell]);
        if o.result.Ok? {
          StepsAppend(n, g, a[1..], b, o.vars, o.result.value);
        }
    }
  }

  /** The inner loop is the fold over one row's coordinates. */
  lemma {:induction false} ColumnsAreSteps(n: Node, g: Cells, row: int, col: int, c1: int, env: Env, last: Option<Value>)
    requires n.ForLoop?
    ensures ForCols(n, g, row, col, c1, env, last) == Steps(n, g, RowCoords(row, col, c1), env, last)
    decreases c1 + 1 - col
  {
    if col <= c1 {
      var cs := RowCoords(row, col, c1);
      assert cs[0] == (row, col) && cs[1..] == RowCoords(row, col + 1, c1);
      match CellAt(g, row, col)
      case Err(e) =>
      case Ok(cell) =>
        var o := Eval(n.body, g, env[n.loopVariable.text := cell]);
        if o.result.Ok? {
          ColumnsAreSteps(n, g, row, col + 1, c1, o.vars, o.result.value);
        }
    }
  }

  /** The outer loop is the fold over the rectangle's coordinates in row-major order. */
  lemma {:induction false} RowsAreSteps(n: Node, g: Cells, row: int, r1: int, c0: int, c1: int, env: Env, last: Option<Value>)
    requires n.ForLoop?
    ensures ForRows(n, g, row, r1, c0, c1, env, last) == Steps(n, g, Coords(row, r1, c0, c1), env, last)
    decreases r1 + 1 - row
  {
    if row <= r1 {
      ColumnsAreSteps(n, g, row, c0, c1, env, last);
      StepsAppend(n, g, RowCoords(row, c0, c1), Coords(row + 1, r1, c0, c1), env, last);
      var o := ForCols(n, g, row, c0, c1, env, last);
      if o.result.Ok? {
        RowsAreSteps(n, g, row + 1, r1, c0, c1, o.vars, o.result.value);
      }
    }
  }

  /**
   * A for-loop over two numeral ranges is the row-major fold over its
   * rectangle starting from nil; a backward row range gives the empty fold.
   */
  lemma ForLoopIsFold(n: Node, g: Cells, env: Env)
    requires n.ForLoop?
    requires LoopRange(n.startRow.text, n.endRow.text).Some?
    requires LoopRange(n.startCol.text, n.endCol.text).Some?
    ensures Eval(n, g, env) ==
      Steps(n, g, Coords(NumeralValue(n.startRow.text), NumeralValue(n.endRow.text),
                         NumeralValue(n.startCol.text), NumeralValue(n.endCol.text)), env, None)
  {
    var rows := LoopRange(n.startRow.text, n.endRow.text).value;
    var cols := LoopRange(n.startCol.text, n.endCol.text).value;
    assert Eval(n, g, env) == EvalForLoop(n, g, env);
    RowsAreSteps(n, g, rows.0, rows.1, cols.0, cols.1, env, None);
  }

  /** A one-cell loop runs the body once, with the variable bound to that cell. */
  lemma OneCellLoop(n: Node, g: Cells, env: Env, row: nat, col: nat)
    requires n.ForLoop?
    requires LoopRange(n.startRow.text, n.endRow.text) == Some((row, row))
    requires LoopRange(n.startCol.text, n.endCol.text) == Some((col, col))
    requires row < |g| && col < |g[row]|
    ensures Eval(n, g, env) == Eval(n.body, g, env[n.loopVariable.text := g[row][col]])
  {
    ForLoopIsFold(n, g, env);
    var cs := Coords(row, row, col, col);
    assert cs == [(row, col)];
    assert cs[1..] == [];
  }

  function Tok(kind: K.Kind, text: string): K.Token {
    K.Token(kind, text, 0, 0)
  }

  /** The body `count -> count + value`. */
  function CountBody(): Node {
    Block([Assignment(Tok(K.Identifier, "count"),
      Binary(AdditionOperation, Reference("count", NoSpan), Reference("value", NoSpan), NoSpan))])
  }

  /** One run of the body adds the cell to `count`. */
  lemma CountStep(g: Cells, env: Env, a: int, b: int)
    requires "count" in env && env["count"] == Some(Int(a))
    requires "value" in env && env["value"] == Some(Int(b))
    ensures Eval(CountBody(), g, env) == Done(Some(Int(a + b)), env["count" := Some(Int(a + b))])
  {
    var sum := Binary(AdditionOperation, Reference("count", NoSpan), Reference("value", NoSpan), NoSpan);
    var assign := Assignment(Tok(K.Identifier, "count"), sum);
    assert Eval(sum, g, env) == EvalOperands(sum, g, env);
    assert Op.Add(Some(Int(a)), Some(Int(b))) == Ok(Int(a + b));
    assert Eval(sum, g, env) == Done(Some(Int(a + b)), env);
    assert Eval(assign, g, env) == EvalAssignment(assign, g, env);
    assert Eval(CountBody(), g, env) == EvalStatements(CountBody(), 0, g, env, None);
    assert EvalStatements(CountBody(), 1, g, env["count" := Some(Int(a + b))], Some(Int(a + b)))
      == Done(Some(Int(a + b)), env["count" := Some(Int(a + b))]);
  }

  /** `for value in [0, 0]..[0, 2] do count -> count + value end`. */
  function CountLoop(): Node {
    ForLoop(Tok(K.Identifier, "value"), Tok(K.Number, "0"), Tok(K.Number, "0"),
            Tok(K.Number, "0"), Tok(K.Number, "2"), CountBody())
  }

  /** The body run on a binding of `value` to `b`, from `count` bound to an Integer, adds `b` to it. */
  ghost predicate AddsToCount(body: Node, g: Cells) {
    forall e: Env, b: int {:trigger e["value" := Some(Int(b))]} ::
      "count" in e && e["count"].Some? && e["count"].value.Int? ==>
        Eval(body, g, e["value" := Some(Int(b))]) ==
          Done(Some(Int(e["count"].value.i + b)), e["value" := Some(Int(b))]["count" := Some(Int(e["count"].value.i + b))])
  }

  /** `count -> count + value` adds the cell to `count`, whatever else is bound. */
  lemma CountBodyAdds(g: Cells)
    ensures AddsToCount(CountBody(), g)
  {
    forall e: Env, b: int | "count" in e && e["count"].Some? && e["count"].value.Int?
      ensures Eval(CountBody(), g, e["value" := Some(Int(b))]) ==
                Done(Some(Int(e["count"].value.i + b)), e["value" := Some(Int(b))]["count" := Some(Int(e["count"].value.i + b))])
    {
      CountStep(g, e["value" := Some(Int(b))], e["count"].value.i, b);
    }
  }

  /** A loop pass whose body answers: the rest of the loop starts from the body's bindings and value. */
  lemma StepsCons(n: Node, g: Cells, cs: seq<(int, int)>, env: Env, last: Option<Value>, cell: Option<Value>)
    requires n.ForLoop? && |cs| > 0 && CellAt(g, cs[0].0, cs[0].1) == Ok(cell)
    requires Eval(n.body, g, env[n.loopVariable.text := cell]).result.Ok?
    ensures var o := Eval(n.body, g, env[n.loopVariable.text := cell]);
      Steps(n, g, cs, env, last) == Steps(n, g, cs[1..], o.vars, o.result.value)
  {
  }

  /** Over three cells holding `x`, `y` and `z`, the passes add them to `count` and answer the new count. */
  lemma CountStepsAdd(loop: Node, g: Cells, cs: seq<(int, int)>, env: Env, a: int, x: int, y: int, z: int)
    requires loop.ForLoop? && loop.loopVariable.text == "value" && AddsToCount(loop.body, g) && |cs| == 3
    requires CellAt(g, cs[0].0, cs[0].1) == Ok(Some(Int(x)))
    requires CellAt(g, cs[1].0, cs[1].1) == Ok(Some(Int(y)))
    requires CellAt(g, cs[2].0, cs[2].1) == Ok(Some(Int(z)))
    requires "count" in env && env["count"] == Some(Int(a))
    ensures var o := Steps(loop, g, cs, env, None);
      o.result == Ok(Some(Int(a + x + y + z))) && "count" in o.vars && o.vars["count"] == Some(Int(a + x + y + z))
  {
    var env1 := env["value" := Some(Int(x))];
    var env2 := env1["count" := Some(Int(a + x))];
    var env3 := env2["value" := Some(Int(y))]["count" := Some(Int(a + x + y))];
    var env4 := env3["value" := Some(Int(z))]["count" := Some(Int(a + x + y + z))];
    assert Eval(loop.body, g, env1) == Done(Some(Int(a + x)), env2);
    StepsCons(loop, g, cs, env, None, Some(Int(x)));
    assert Eval(loop.body, g, env2["value" := Some(Int(y))]) == Done(Some(Int(a + x + y)), env3);
    StepsCons(loop, g, cs[1..], env2, Some(Int(a + x)), Some(Int(y)));
    assert Eval(loop.body, g, env3["value" := Some(Int(z))]) == Done(Some(Int(a + x + y + z)), env4);
    StepsCons(loop, g, cs[2..], env3, Some(Int(a + x + y)), Some(Int(z)));
    assert cs[1..][1..] == cs[2..] && |cs[2..][1..]| == 0;
  }

  /** A loop over `[0, 0]..[0, 2]` walks the cells `[0, 0]`, `[0, 1]`, `[0, 2]` in that order. */
  lemma FirstThreeCells(n: Node, g: Cells, env: Env)
    requires n.ForLoop? && n.startRow.text == "0" && n.endRow.text == "0"
    requires n.startCol.text == "0" && n.endCol.text == "2"
    ensures Eval(n, g, env) == Steps(n, g, [(0, 0), (0, 1), (0, 2)], env, None)
  {
    assert LoopRange("0", "0") == Some((0, 0));
    assert LoopRange("0", "2") == Some((0, 2));
    ForLoopIsFold(n, g, env);
    assert Coords(0, 0, 0, 2) == [(0, 0), (0, 1), (0, 2)];
  }

  /** The loop alone, from `count` bound to `a`, adds 1, 2 and 2 to it. */
  lemma CountLoopAdds(env: Env, a: int)
    requires "count" in env && env["count"] == Some(Int(a))
    ensures
      var o := Eval(CountLoop(), [[Some(Int(1)), Some(Int(2)), Some(Int(2))]], env);
      o.result == Ok(Some(Int(a + 5))) && "count" in o.vars && o.vars["count"] == Some(Int(a + 5))
  {
    var g: Cells := [[Some(Int(1)), Some(Int(2)), Some(Int(2))]];
    FirstThreeCells(CountLoop(), g, env);
    CountBodyAdds(g);
    assert CellAt(g, 0, 0) == Ok(Some(Int(1)));
    assert CellAt(g, 0, 1) == Ok(Some(Int(2)));
    assert CellAt(g, 0, 2) == Ok(Some(Int(2)));
    CountStepsAdd(CountLoop(), g, [(0, 0), (0, 1), (0, 2)], env, a, 1, 2, 2);
  }

  /**
   * `count -> 0` then `for value in [0, 0]..[0, 2] do count -> count + value end`
   * over a row holding 1, 2 and 2 gives 5, and leaves `count` bound to 5.
   */
  lemma CountingLoop()
    ensures
      var program := Block([Assignment(Tok(K.Identifier, "count"), IntegerPrimitive(0, NoSpan)), CountLoop()]);
      var o := Eval(program, [[Some(Int(1)), Some(Int(2)), Some(Int(2))]], map[]);
      o.result == Ok(Some(Int(5))) && "count" in o.vars && o.vars["count"] == Some(Int(5))
  {
    var init := Assignment(Tok(K.Identifier, "count"), IntegerPrimitive(0, NoSpan));
    var program := Block([init, CountLoop()]);
    var g: Cells := [[Some(Int(1)), Some(Int(2)), Some(Int(2))]];
    var env0: Env := map[];
    var env1 := env0["count" := Some(Int(0))];
    assert Eval(init, g, env0) == EvalAssignment(init, g, env0);
    assert Eval(init, g, env0) == Done(Some(Int(0)), env1);
    CountLoopAdds(env1, 0);
    var o := Eval(CountLoop(), g, env1);
    assert Eval(program, g, env0) == EvalStatements(program, 0, g, env0, None);
    assert EvalStatements(program, 1, g, env1, Some(Int(0))) == EvalStatements(program, 2, g, o.vars, o.result.value);
  }
}
