/** Matrix addition on the GPU (src/MataddOp.cpp): the host-side shape
    check, push constants and workgroup, and one invocation of the compute
    shader, which adds one pair of elements. */
module MataddOps {
  import opened Wrappers
  import opened Matrices

  const SHAPE_MISMATCH := "Left and right matrix must be equally sized for matrix addition"

  datatype Config = Config(rowCount: nat, colCount: nat)

  /** `GetConfig`: both operands must have the same row and column counts;
      the config takes the left operand's counts as `uint32_t`. */
  function GetConfig(matLeft: Matrix, matRight: Matrix): (r: Outcome<Config>)
    ensures r.Err? <==> matLeft != matRight
    ensures r.Err? ==> r.msg == SHAPE_MISMATCH
    ensures r.Ok? ==> r.value == Config(ToUint32(matLeft.rowCount), ToUint32(matLeft.colCount))
  {
    if matLeft.rowCount != matRight.rowCount || matLeft.colCount != matRight.colCount then
      Err(SHAPE_MISMATCH)
    else
      Ok(Config(ToUint32(matLeft.rowCount), ToUint32(matLeft.colCount)))
  }

  /** `GetWorkgroup`: one invocation per element. */
  function GetWorkgroup(config: Config): (w: Workgroup)
    ensures w.x == config.rowCount && w.y == config.colCount && w.z == 1
  {
    Workgroup(config.rowCount, config.colCount, 1)
  }

  /** One invocation of the shader at `(row, col)`: outside the matrix it
      writes nothing; inside it stores the sum of the two operands' elements
      at the same row-major index. */
  function Invocation(config: Config, matLeft: seq<real>, matRight: seq<real>, row: nat, col: nat): (write: Option<Write>)
    requires |matLeft| >= config.rowCount * config.colCount && |matRight| >= config.rowCount * config.colCount
    ensures write.None? <==> row >= config.rowCount || col >= config.colCount
    ensures write.Some? ==>
      var index := RowMajor(row, col, config.colCount);
      index < config.rowCount * config.colCount
      && write.value == Write(index, matLeft[index] + matRight[index])
  {
    if row >= config.rowCount || col >= config.colCount then None
    else
      RowMajorBound(row, col, config.rowCount, config.colCount);
      var index := RowMajor(row, col, config.colCount);
      Some(Write(index, matLeft[index] + matRight[index]))
  }

  /** The element-wise sum of the operands' first `n` elements. */
  function Sum(matLeft: seq<real>, matRight: seq<real>, n: nat): (s: seq<real>)
    requires |matLeft| >= n && |matRight| >= n
    ensures |s| == n && forall k :: 0 <= k < n ==> s[k] == matLeft[k] + matRight[k]
  {
    seq(n, k requires 0 <= k < n => matLeft[k] + matRight[k])
  }

  /** After the whole workgroup has run, the result holds the element-wise
      sum: every element is stored by exactly one invocation, with the sum
      of the operands at that index. */
  lemma WorkgroupComputesSum(config: Config, matLeft: seq<real>, matRight: seq<real>, index: nat)
    requires |matLeft| >= config.rowCount * config.colCount && |matRight| >= config.rowCount * config.colCount
    requires index < config.rowCount * config.colCount
    ensures exists row: nat, col: nat ::
      (row < GetWorkgroup(config).x && col < GetWorkgroup(config).y
       && Invocation(config, matLeft, matRight, row, col)
          == Some(Write(index, Sum(matLeft, matRight, config.rowCount * config.colCount)[index])))
    ensures forall row: nat, col: nat, row': nat, col': nat ::
      (row < config.rowCount && col < config.colCount && row' < config.rowCount && col' < config.colCount
       && Invocation(config, matLeft, matRight, row, col).value.index
          == Invocation(config, matLeft, matRight, row', col').value.index)
      ==> row == row' && col == col'
  {
    forall row: nat, col: nat, row': nat, col': nat |
      row < config.rowCount && col < config.colCount && row' < config.rowCount && col' < config.colCount
      && Invocation(config, matLeft, matRight, row, col).value.index
         == Invocation(config, matLeft, matRight, row', col').value.index
      ensures row == row' && col == col'
    {
      RowMajorInjective(row, col, row', col', config.colCount);
    }
    var row, col := RowMajorOnto(index, config.rowCount, config.colCount);
    assert Invocation(config, matLeft, matRight, row, col)
      == Some(Write(index, Sum(matLeft, matRight, config.rowCount * config.colCount)[index]));
  }
}
