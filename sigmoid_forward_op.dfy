/** The sigmoid forward op's host-side validation
    (src/SigmoidForwardOp.cpp). */
module SigmoidForwardOps {
  import opened Wrappers
  import opened Matrices

  const NOT_COLUMN_VECTORS := "Matrix needs to be column vector for sigmoid forwars"
  const SIZE_MISMATCH := "Sigmoid forward requires equal size of input and output"

  /** `GetWorkgroup`: input and output must be column vectors of equal
      length; one invocation per input row. */
  function GetWorkgroup(input: Matrix, output: Matrix): (r: Outcome<Workgroup>)
    ensures r.Ok? <==> IsColVector(input) && IsColVector(output) && input.rowCount == output.rowCount
    ensures r.Ok? ==> r.value == Workgroup(ToUint32(input.rowCount), 1, 1)
  {
    ElementwiseWorkgroup(input, output, NOT_COLUMN_VECTORS, SIZE_MISMATCH)
  }

  /** The column check comes first: a pair that fails both checks reports
      the column error, and the size error is reported only for column
      vectors. */
  lemma ColumnCheckFirst(input: Matrix, output: Matrix)
    ensures !(IsColVector(input) && IsColVector(output)) ==> GetWorkgroup(input, output) == Err(NOT_COLUMN_VECTORS)
    ensures GetWorkgroup(input, output) == Err(SIZE_MISMATCH) <==>
      IsColVector(input) && IsColVector(output) && input.rowCount != output.rowCount
  {
  }
}
