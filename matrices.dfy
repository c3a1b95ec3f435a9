/** What the compute ops share (include/engine/compute/Matrix.hpp,
    src/Matrix.cpp): a matrix is known to the host only by its row and
    column counts; a Kompute workgroup is three counts; a shader invocation
    writes at most one float; a storage buffer carries an access qualifier.
    Matrix elements are stored row-major: element `(row, col)` of a matrix
    with `cols` columns is at `row * cols + col`. */
module Matrices {
  import opened Wrappers
  import opened MachineInts
  import TexelOffsets

  datatype Matrix = Matrix(rowCount: nat, colCount: nat)

  /** `IsColVector`: exactly one column. */
  predicate IsColVector(m: Matrix)
  {
    m.colCount == 1
  }

  datatype Workgroup = Workgroup(x: nat, y: nat, z: nat)

  /** One store to a buffer element. */
  datatype Write = Write(index: nat, value: real)

  /** GLSL memory qualifiers of a storage buffer (section 4.10 of the GLSL
      4.50 specification): `readonly` forbids stores, `writeonly` forbids
      loads, no qualifier allows both. */
  datatype Access = ReadOnly | WriteOnly | ReadWrite

  predicate Readable(a: Access)
  {
    a != WriteOnly
  }

  predicate Writable(a: Access)
  {
    a != ReadOnly
  }

  /** The row-major index of element `(row, col)`. */
  function RowMajor(row: nat, col: nat, cols: nat): nat
  {
    row * cols + col
  }

  /** In-range elements have in-range indices. */
  lemma RowMajorBound(row: nat, col: nat, rows: nat, cols: nat)
    requires row < rows && col < cols
    ensures RowMajor(row, col, cols) < rows * cols
  {
    TexelOffsets.DigitBound(cols, rows, col, row);
  }

  /** Distinct in-range elements have distinct indices. */
  lemma RowMajorInjective(row: nat, col: nat, row': nat, col': nat, cols: nat)
    requires col < cols && col' < cols
    requires RowMajor(row, col, cols) == RowMajor(row', col', cols)
    ensures row == row' && col == col'
  {
    TexelOffsets.DigitUnique(cols, col, row, col', row');
  }

  /** Every index below `rows * cols` is some element's. */
  lemma RowMajorOnto(index: nat, rows: nat, cols: nat) returns (row: nat, col: nat)
    requires index < rows * cols
    ensures row < rows && col < cols && RowMajor(row, col, cols) == index
  {
    assert index < cols * rows;
    col, row := TexelOffsets.DigitSplit(cols, rows, index);
  }

  /** A `size_t` count stored into a `uint32_t` field. */
  function ToUint32(count: nat): (r: nat)
    ensures r < TWO_TO_THE_32
    ensures count < TWO_TO_THE_32 ==> r == count
  {
    Wrap32(count)
  }

  /** The validation shared by the element-wise ops with one input and one
      output (`ReluForwardOp` and `SigmoidForwardOp`): both must be column
      vectors, which is checked first, and their row counts must be equal,
      which is checked second; the workgroup has one invocation per input
      row. */
  function ElementwiseWorkgroup(input: Matrix, output: Matrix, notColumns: string, sizeMismatch: string)
    : (r: Outcome<Workgroup>)
    ensures r.Ok? <==> IsColVector(input) && IsColVector(output) && input.rowCount == output.rowCount
    ensures !(IsColVector(input) && IsColVector(output)) ==> r == Err(notColumns)
    ensures IsColVector(input) && IsColVector(output) && input.rowCount != output.rowCount ==> r == Err(sizeMismatch)
    ensures r.Ok? ==> r.value == Workgroup(ToUint32(input.rowCount), 1, 1)
  {
    if !IsColVector(input) || !IsColVector(output) then Err(notColumns)
    else if input.rowCount != output.rowCount then Err(sizeMismatch)
    else Ok(Workgroup(ToUint32(input.rowCount), 1, 1))
  }
}
