/** Matrix multiplication on the GPU (src/MatmulOp.cpp): the host-side
    shape check and push constants, the workgroup, and one invocation of the
    compute shader, which computes one element of `left * right`. Buffers
    are sequences of reals. */
module MatmulOps {
  import opened Wrappers
  import opened Matrices

  const SHAPE_MISMATCH := "Left matrix columns do not match right matrix rows -> cant multiply"

  datatype Config = Config(leftRowCount: nat, leftColCount: nat, rightRowCount: nat, rightColCount: nat)

  /** `GetConfig`: the left column count must equal the right row count;
      the four counts are copied into `uint32_t` fields. */
  function GetConfig(matLeft: Matrix, matRight: Matrix): (r: Outcome<Config>)
    ensures r.Err? <==> matLeft.colCount != matRight.rowCount
    ensures r.Err? ==> r.msg == SHAPE_MISMATCH
    ensures r.Ok? ==>
      r.value == Config(ToUint32(matLeft.rowCount), ToUint32(matLeft.colCount),
                        ToUint32(matRight.rowCount), ToUint32(matRight.colCount))
      && r.value.leftColCount == r.value.rightRowCount
  {
    if matLeft.colCount != matRight.rowCount then Err(SHAPE_MISMATCH)
    else Ok(Config(ToUint32(matLeft.rowCount), ToUint32(matLeft.colCount),
                   ToUint32(matRight.rowCount), ToUint32(matRight.colCount)))
  }

  /** `GetWorkgroup`: one invocation per element of the product. */
  function GetWorkgroup(config: Config): (w: Workgroup)
    ensures w.x == config.leftRowCount && w.y == config.rightColCount && w.z == 1
  {
    Workgroup(config.leftRowCount, config.rightColCount, 1)
  }

  /** The buffers hold the two operands in full. */
  predicate OperandsFit(config: Config, matLeft: seq<real>, matRight: seq<real>)
  {
    config.leftColCount == config.rightRowCount
    && |matLeft| >= config.leftRowCount * config.leftColCount
    && |matRight| >= config.rightRowCount * config.rightColCount
  }

  /** The sum of the first `n` products of row `row` of the left operand
      with column `col` of the right operand. */
  function PartialDot(config: Config, matLeft: seq<real>, matRight: seq<real>, row: nat, col: nat, n: nat): real
    requires OperandsFit(config, matLeft, matRight)
    requires row < config.leftRowCount && col < config.rightColCount && n <= config.rightRowCount
  {
    if n == 0 then 0.0
    else
      RowMajorBound(row, n - 1, config.leftRowCount, config.leftColCount);
      RowMajorBound(n - 1, col, config.rightRowCount, config.rightColCount);
      PartialDot(config, matLeft, matRight, row, col, n - 1)
      + matLeft[RowMajor(row, n - 1, config.leftColCount)] * matRight[RowMajor(n - 1, col, config.rightColCount)]
  }

  /** Element `(row, col)` of the product `left * right`. */
  function ProductElement(config: Config, matLeft: seq<real>, matRight: seq<real>, row: nat, col: nat): real
    requires OperandsFit(config, matLeft, matRight)
    requires row < config.leftRowCount && col < config.rightColCount
  {
    PartialDot(config, matLeft, matRight, row, col, config.rightRowCount)
  }

  /** One invocation of the shader's `main` at `(row, col)`: outside the
      product it writes nothing; inside it accumulates the dot product in a
      loop and stores it at the row-major index of `(row, col)`. */
  method Invocation(config: Config, matLeft: seq<real>, matRight: seq<real>, row: nat, col: nat)
    returns (write: Option<Write>)
    requires OperandsFit(config, matLeft, matRight)
    ensures write.None? <==> row >= config.leftRowCount || col >= config.rightColCount
    ensures write.Some? ==>
      write.value.index == RowMajor(row, col, config.rightColCount)
      && write.value.index < config.leftRowCount * config.rightColCount
      && write.value.value == ProductElement(config, matLeft, matRight, row, col)
  {
    if row >= config.leftRowCount || col >= config.rightColCount {
      return None;
    }
    var dotProduct := 0.0;
    for i := 0 to config.rightRowCount
      invariant dotProduct == PartialDot(config, matLeft, matRight, row, col, i)
    {
      RowMajorBound(row, i, config.leftRowCount, config.leftColCount);
      RowMajorBound(i, col, config.rightRowCount, config.rightColCount);
      var leftVal := matLeft[RowMajor(row, i, config.leftColCount)];
      var rightVal := matRight[RowMajor(i, col, config.rightColCount)];
      dotProduct := dotProduct + leftVal * rightVal;
    }
    RowMajorBound(row, col, config.leftRowCount, config.rightColCount);
    return Some(Write(RowMajor(row, col, config.rightColCount), dotProduct));
  }

  /** Over the workgroup, distinct invocations store to distinct elements,
      and every element of the result is stored by the invocation at its
      own row and column. */
  lemma WorkgroupCoversResult(config: Config, index: nat)
    requires index < config.leftRowCount * config.rightColCount
    ensures forall row: nat, col: nat, row': nat, col': nat ::
      col < config.rightColCount && col' < config.rightColCount
      && RowMajor(row, col, config.rightColCount) == RowMajor(row', col', config.rightColCount)
      ==> row == row' && col == col'
    ensures exists row: nat, col: nat ::
      row < GetWorkgroup(config).x && col < GetWorkgroup(config).y
      && RowMajor(row, col, config.rightColCount) == index
  {
    forall row: nat, col: nat, row': nat, col': nat |
      col < config.rightColCount && col' < config.rightColCount
      && RowMajor(row, col, config.rightColCount) == RowMajor(row', col', config.rightColCount)
      ensures row == row' && col == col'
    {
      RowMajorInjective(row, col, row', col', config.rightColCount);
    }
    var row, col := RowMajorOnto(index, config.leftRowCount, config.rightColCount);
  }
}
