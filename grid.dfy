/**
 * The spreadsheet's cells: a square of `size + 1` rows and columns (indices
 * `0..size` on both axes), every cell empty (`nil`) until something is
 * stored in it.
 */
module Grids {
  import opened Wrappers
  import opened Values

  /** A snapshot of the cells, row by row. */
  type Cells = seq<seq<Option<Value>>>

  /**
   * Ruby's `Array#[]` on an index into an array of the given length: a
   * negative index counts back from the end, anything else out of range
   * finds nothing.
   */
  function Wrap(i: int, length: nat): (k: Option<nat>)
    ensures k.Some? <==> -(length as int) <= i < length
    ensures k.Some? && i >= 0 ==> k.value == i
    ensures k.Some? && i < 0 ==> k.value == i + length
  {
    if 0 <= i < length then Some(i)
    else if -(length as int) <= i < 0 then Some(i + length)
    else None
  }

  /**
   * `Array#[]` converts its index to a machine long first; an Integer
   * outside `-2**63 .. 2**63 - 1` raises RangeError instead of indexing.
   */
  predicate FitsLong(i: int) {
    -0x8000_0000_0000_0000 <= i < 0x8000_0000_0000_0000
  }

  /**
   * `box[row][column]`, as the runtime reads a cell: a row out of range
   * yields nil, and indexing nil raises; a column that is no machine long
   * raises; any other column out of range reads nil.
   */
  function CellAt(g: Cells, row: int, col: int): (r: Result<Option<Value>, EvalError>)
    ensures r.Ok? <==> (-|g| <= row < |g| &&
      (FitsLong(col) || -|g[Wrap(row, |g|).value]| <= col < |g[Wrap(row, |g|).value]|))
    ensures r.Err? ==> r.error == HostError
    ensures 0 <= row < |g| && 0 <= col < |g[row]| ==> r == Ok(g[row][col])
    ensures 0 <= row < |g| && FitsLong(col) && !(-|g[row]| <= col < |g[row]|) ==> r == Ok(None)
  {
    match Wrap(row, |g|)
    case None => Err(HostError)
    case Some(i) =>
      match Wrap(col, |g[i]|)
      case None => if FitsLong(col) then Ok(None) else Err(HostError)
      case Some(j) => Ok(g[i][j])
  }

  /** Negative coordinates count back from the last row and the last column. */
  lemma NegativeIndicesWrap(g: Cells, row: int, col: int)
    requires -|g| <= row < 0
    requires -|g[row + |g|]| <= col < 0
    ensures CellAt(g, row, col) == Ok(g[row + |g|][col + |g[row + |g|]|])
  {
  }

  /** What `update_cell` leaves: the one cell replaced when both indices are in `0..size`. */
  function Updated(g: Cells, row: int, col: int, v: Option<Value>): (u: Cells)
    ensures |u| == |g| && forall i :: 0 <= i < |g| ==> |u[i]| == |g[i]|
  {
    if 0 <= row < |g| && 0 <= col < |g[row]| then g[row := g[row][col := v]] else g
  }

  /** Reading a cell that was just updated gives the value stored. */
  lemma ReadAfterUpdate(g: Cells, row: int, col: int, v: Option<Value>)
    requires 0 <= row < |g| && 0 <= col < |g[row]|
    ensures CellAt(Updated(g, row, col, v), row, col) == Ok(v)
  {
  }

  /**
   * An update changes no other cell. "Other" is about the cell reached, not
   * the coordinates: `[-1, -1]` reaches the same cell as `[size, size]`.
   */
  lemma {:induction false} ReadOtherAfterUpdate(g: Cells, row: int, col: int, v: Option<Value>, row': int, col': int)
    requires 0 <= row < |g| && 0 <= col < |g[row]|
    requires Wrap(row', |g|) != Some(row) || Wrap(col', |g[row]|) != Some(col)
    ensures CellAt(Updated(g, row, col, v), row', col') == CellAt(g, row', col')
  {
    var u := Updated(g, row, col, v);
    match Wrap(row', |g|)
    case None =>
    case Some(i) =>
      assert |u[i]| == |g[i]|;
      match Wrap(col', |g[i]|)
      case None =>
      case Some(j) =>
        assert u[i][j] == g[i][j];
  }

  /** An update out of range changes nothing. */
  lemma UpdateOutOfRange(g: Cells, row: int, col: int, v: Option<Value>)
    requires !(0 <= row < |g| && 0 <= col < |g[row]|)
    ensures Updated(g, row, col, v) == g
  {
  }

  /** The cells after `setup_grid`: every cell holds its own address. */
  function Addresses(size: nat): (g: Cells)
    ensures |g| == size + 1
    ensures forall i :: 0 <= i < |g| ==> |g[i]| == size + 1
  {
    seq(size + 1, i => seq(size + 1, j => Some(GridAddr(i, j))))
  }

  /** After `setup_grid` the cell at `[i, j]` holds the address `(i, j)`. */
  lemma AddressesReadBack(size: nat, row: int, col: int)
    requires 0 <= row <= size && 0 <= col <= size
    ensures CellAt(Addresses(size), row, col) == Ok(Some(GridAddr(row, col)))
  {
  }

  /**
   * `Grid`: the size and the two-dimensional box of cells. The box itself is
   * never replaced; its cells are updated in place.
   */
  class Grid {
    const size: nat
    const box: array2<Option<Value>>

    predicate Valid() {
      box.Length0 == size + 1 && box.Length1 == size + 1
    }

    /** The contents of the box, row by row. */
    function Cells(): (g: Cells)
      requires Valid()
      reads box
      ensures |g| == size + 1
      ensures forall i :: 0 <= i <= size ==> |g[i]| == size + 1
      ensures forall i, j :: 0 <= i <= size && 0 <= j <= size ==> g[i][j] == box[i, j]
    {
      seq(size + 1, i requires 0 <= i <= size reads box =>
        seq(size + 1, j requires 0 <= j <= size reads box => box[i, j]))
    }

    /** `Grid.new(size)`: a box of `size + 1` by `size + 1` empty cells. */
    constructor (size: nat)
      ensures Valid() && this.size == size && fresh(box)
      ensures forall i, j :: 0 <= i <= size && 0 <= j <= size ==> box[i, j] == None
    {
      this.size := size;
      box := new Option<Value>[size + 1, size + 1]((i, j) => None);
    }

    /** `setup_grid`: row by row, every cell is set to its own address. */
    method SetupGrid()
      requires Valid()
      modifies box
      ensures Cells() == Addresses(size)
    {
      for i := 0 to size + 1
        invariant forall r, c :: 0 <= r < i && 0 <= c <= size ==> box[r, c] == Some(GridAddr(r, c))
      {
        for j := 0 to size + 1
          invariant forall r, c :: 0 <= r < i && 0 <= c <= size ==> box[r, c] == Some(GridAddr(r, c))
          invariant forall c :: 0 <= c < j ==> box[i, c] == Some(GridAddr(i, c))
        {
          box[i, j] := Some(GridAddr(i, j));
        }
      }
      forall r | 0 <= r <= size
        ensures Cells()[r] == Addresses(size)[r]
      {
        assert forall c :: 0 <= c <= size ==> Cells()[r][c] == Addresses(size)[r][c];
      }
    }

    /**
     * `update_cell`: stores the value when both indices lie in `0..size`;
     * otherwise reports the error on the console and leaves the box alone.
     */
    method UpdateCell(row: int, col: int, value: Option<Value>)
      requires Valid()
      modifies box
      ensures Cells() == Updated(old(Cells()), row, col, value)
    {
      ghost var before := Cells();
      if 0 <= row <= size && 0 <= col <= size {
        box[row, col] := value;
        forall r | 0 <= r <= size
          ensures Cells()[r] == Updated(before, row, col, value)[r]
        {
          assert forall c :: 0 <= c <= size ==> Cells()[r][c] == Updated(before, row, col, value)[r][c];
        }
      }
    }
  }
}
