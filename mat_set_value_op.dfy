/** Filling a matrix with one value on the GPU (src/MatSetValueOp.cpp): the
    unchecked push constants, the workgroup, and one invocation of the
    compute shader, which stores the value into the matrix buffer in place
    without a bounds check. */
module MatSetValueOps {
  import opened Matrices

  datatype Config = Config(rowCount: nat, colCount: nat, value: real)

  /** `GetConfig`: the counts and the value are copied without any
      validation. */
  function GetConfig(mat: Matrix, value: real): (config: Config)
    ensures config.rowCount == ToUint32(mat.rowCount) && config.colCount == ToUint32(mat.colCount)
    ensures config.value == value
  {
    Config(ToUint32(mat.rowCount), ToUint32(mat.colCount), value)
  }

  /** `GetWorkgroup`: one invocation per element. */
  function GetWorkgroup(config: Config): (w: Workgroup)
    ensures w.x == config.rowCount && w.y == config.colCount && w.z == 1
  {
    Workgroup(config.rowCount, config.colCount, 1)
  }

  /** The qualifier binding 0 (`Mat`) is declared with. */
  const MAT_ACCESS: Access := ReadOnly
  /** The qualifier a buffer the shader stores into needs. */
  const MAT_ACCESS_INTENDED: Access := WriteOnly

  /** The shader's only statement with an effect stores into binding 0, so
      it is accepted only if that binding is writable. */
  predicate ShaderCompiles(matAccess: Access)
  {
    Writable(matAccess)
  }

  /** As declared, binding 0 is `readonly`, yet the shader stores into it;
      a GLSL compiler rejects the store. */
  lemma DeclaredReadonlyButStored()
    ensures !ShaderCompiles(MAT_ACCESS)
  {
  }

  /** Declared `writeonly`, the same shader is accepted. */
  lemma WriteonlyAccepted()
    ensures ShaderCompiles(MAT_ACCESS_INTENDED) && !Readable(MAT_ACCESS_INTENDED)
  {
  }

  /** One invocation at `(row, col)`: the value is stored at the row-major
      index with no check of `row` or `col` against the counts. */
  method Invocation(mat: array<real>, config: Config, row: nat, col: nat)
    requires RowMajor(row, col, config.colCount) < mat.Length
    modifies mat
    ensures mat[..] == old(mat[..])[RowMajor(row, col, config.colCount) := config.value]
  {
    var linearIndex := row * config.colCount + col;
    mat[linearIndex] := config.value;
  }

  /** Over the workgroup every element of the matrix is the target of
      exactly one invocation, so afterwards every index below `rows * cols`
      holds the value. */
  lemma WorkgroupFillsMatrix(config: Config, index: nat)
    requires index < config.rowCount * config.colCount
    ensures exists row: nat, col: nat ::
      row < GetWorkgroup(config).x && col < GetWorkgroup(config).y && RowMajor(row, col, config.colCount) == index
    ensures forall row: nat, col: nat, row': nat, col': nat ::
      (col < config.colCount && col' < config.colCount
       && RowMajor(row, col, config.colCount) == index && RowMajor(row', col', config.colCount) == index)
      ==> row == row' && col == col'
  {
    var row, col := RowMajorOnto(index, config.rowCount, config.colCount);
    forall row: nat, col: nat, row': nat, col': nat |
      col < config.colCount && col' < config.colCount
      && RowMajor(row, col, config.colCount) == index && RowMajor(row', col', config.colCount) == index
      ensures row == row' && col == col'
    {
      RowMajorInjective(row, col, row', col', config.colCount);
    }
  }

  /** Without a bounds check, an invocation one column past the end stores
      into the first element of the next row. */
  lemma NoBoundsCheck(config: Config, row: nat)
    requires config.colCount > 0
    ensures RowMajor(row, config.colCount, config.colCount) == RowMajor(row + 1, 0, config.colCount)
  {
  }
}
