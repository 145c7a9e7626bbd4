/**
 * The evaluation context: the grid and the variables that formulas bind,
 * a hash from variable names to values.
 */
module Runtimes {
  import opened Wrappers
  import opened Values
  import opened Grids

  class Runtime {
    const grid: Grid
    var variables: map<string, Option<Value>>

    /** `Runtime.new(grid)`: no variables bound yet. */
    constructor (grid: Grid)
      ensures this.grid == grid && variables == map[]
    {
      this.grid := grid;
      variables := map[];
    }

    /** `get_cell_value`: the cell at `[row][column]`, read with Ruby's index rules. */
    method GetCellValue(row: int, col: int) returns (r: Result<Option<Value>, EvalError>)
      requires grid.Valid()
      ensures r == CellAt(grid.Cells(), row, col)
    {
      var n := grid.size + 1;
      var i: int;
      if 0 <= row < n {
        i := row;
      } else if -n <= row < 0 {
        i := row + n;
      } else {
        return Err(HostError);
      }
      if 0 <= col < n {
        r := Ok(grid.box[i, col]);
      } else if -n <= col < 0 {
        r := Ok(grid.box[i, col + n]);
      } else if FitsLong(col) {
        r := Ok(None);
      } else {
        r := Err(HostError);
      }
    }

    /** `add`: binds the name, replacing an earlier binding; no other binding changes. */
    method Add(name: string, value: Option<Value>)
      modifies this
      ensures variables == old(variables)[name := value]
    {
      variables := variables[name := value];
    }

    /** After `add`, the name is bound to the value and every other name to what it was. */
    static lemma AddBinds(vars: map<string, Option<Value>>, name: string, value: Option<Value>, other: string)
      ensures name in vars[name := value] && vars[name := value][name] == value
      ensures other != name ==>
        (other in vars[name := value] <==> other in vars) &&
        (other in vars ==> vars[name := value][other] == vars[other])
    {
    }
  }
}
