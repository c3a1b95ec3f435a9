/** The forward pass of a linear layer on the GPU
    (src/LinearLayerForwardOp.cpp): the host-side shape checks, push
    constants and workgroup, and one invocation of the compute shader, which
    computes one output element as a row of the weights times the input,
    plus a bias. The weight matrix has `outSize` rows and `inSize` columns
    (the checks make its column count the input's row count). */
module LinearLayerForwardOps {
  import opened Wrappers
  import opened Matrices

  const NOT_COLUMN_VECTORS := "Input, output and biases need to be column vectors"
  const INPUT_WEIGHTS_MISMATCH := "Input row count needs to equal weights col count"
  const WEIGHTS_OUTPUT_MISMATCH := "Weights row count needs to equal output row count"
  const OUTPUT_BIASES_MISMATCH := "Output row count needs to equal biases row count"

  datatype Config = Config(inSize: nat, outSize: nat)

  /** `GetConfig`: the four checks in the order the source makes them. */
  function GetConfig(input: Matrix, weights: Matrix, biases: Matrix, output: Matrix): (r: Outcome<Config>)
    ensures r.Ok? <==>
      IsColVector(input) && IsColVector(output) && IsColVector(biases)
      && input.rowCount == weights.colCount && weights.rowCount == output.rowCount
      && output.rowCount == biases.rowCount
    ensures !(IsColVector(input) && IsColVector(output) && IsColVector(biases)) ==> r == Err(NOT_COLUMN_VECTORS)
    ensures r.Ok? ==> r.value == Config(ToUint32(input.rowCount), ToUint32(output.rowCount))
  {
    if !IsColVector(input) || !IsColVector(output) || !IsColVector(biases) then Err(NOT_COLUMN_VECTORS)
    else if input.rowCount != weights.colCount then Err(INPUT_WEIGHTS_MISMATCH)
    else if weights.rowCount != output.rowCount then Err(WEIGHTS_OUTPUT_MISMATCH)
    else if output.rowCount != biases.rowCount then Err(OUTPUT_BIASES_MISMATCH)
    else Ok(Config(ToUint32(input.rowCount), ToUint32(output.rowCount)))
  }

  /** Each shape check is reached only when the earlier ones passed. */
  lemma ChecksInOrder(input: Matrix, weights: Matrix, biases: Matrix, output: Matrix)
    ensures GetConfig(input, weights, biases, output) == Err(INPUT_WEIGHTS_MISMATCH) <==>
      IsColVector(input) && IsColVector(output) && IsColVector(biases) && input.rowCount != weights.colCount
    ensures GetConfig(input, weights, biases, output) == Err(WEIGHTS_OUTPUT_MISMATCH) <==>
      IsColVector(input) && IsColVector(output) && IsColVector(biases) && input.rowCount == weights.colCount
      && weights.rowCount != output.rowCount
    ensures GetConfig(input, weights, biases, output) == Err(OUTPUT_BIASES_MISMATCH) <==>
      IsColVector(input) && IsColVector(output) && IsColVector(biases) && input.rowCount == weights.colCount
      && weights.rowCount == output.rowCount && output.rowCount != biases.rowCount
  {
  }

  /** `GetWorkgroup`: one invocation per output element. */
  function GetWorkgroup(config: Config): (w: Workgroup)
    ensures w.x == config.outSize && w.y == 1 && w.z == 1
  {
    Workgroup(config.outSize, 1, 1)
  }

  /** The first `n` products of weight row `row`, read with row stride
      `stride`, with the input. */
  function RowDot(weights: seq<real>, input: seq<real>, row: nat, stride: nat, n: nat): real
    requires row * stride + n <= |weights| && n <= |input|
  {
    if n == 0 then 0.0
    else RowDot(weights, input, row, stride, n - 1) + weights[row * stride + n - 1] * input[n - 1]
  }

  /** Row `row` of the `outSize` x `inSize` weight matrix times the input:
      the stride of a row is its length, `inSize`. */
  function WeightedSum(config: Config, weights: seq<real>, input: seq<real>, row: nat): real
    requires row < config.outSize && |weights| >= config.outSize * config.inSize && |input| >= config.inSize
  {
    assert row * config.inSize + config.inSize <= config.outSize * config.inSize by {
      if config.inSize > 0 {
        RowMajorBound(row, config.inSize - 1, config.outSize, config.inSize);
      }
    }
    RowDot(weights, input, row, config.inSize, config.inSize)
  }

  /** The shader's `MatmulWeights` with weight row stride `stride`: an
      index past the output writes nothing; otherwise the dot product of
      weight row `index` with the input is accumulated in a loop and stored
      at output element `index`. */
  method MatmulWeights(config: Config, weights: seq<real>, input: seq<real>, output: array<real>, index: nat, stride: nat)
    requires index < config.outSize ==>
      index < output.Length && index * stride + config.inSize <= |weights| && config.inSize <= |input|
    modifies output
    ensures index >= config.outSize ==> output[..] == old(output[..])
    ensures index < config.outSize ==>
      output[..] == old(output[..])[index := RowDot(weights, input, index, stride, config.inSize)]
  {
    if index >= config.outSize {
      return;
    }
    var dotProduct := 0.0;
    for i := 0 to config.inSize
      invariant dotProduct == RowDot(weights, input, index, stride, i)
    {
      var leftVal := weights[index * stride + i];
      var rightVal := input[i];
      dotProduct := dotProduct + leftVal * rightVal;
    }
    output[index] := dotProduct;
  }

  /** The shader's `AddBiases`: the bias is added to output element
      `index` with no bounds check. */
  method AddBiases(biases: seq<real>, output: array<real>, index: nat)
    requires index < output.Length && index < |biases|
    modifies output
    ensures output[..] == old(output[..])[index := old(output[index]) + biases[index]]
  {
    output[index] := output[index] + biases[index];
  }

  /** One invocation of `main` as written: the weight row stride is
      `outSize` (the shader names it `leftColCount`). Outside the output
      only the bias is added. */
  method Invocation(config: Config, input: seq<real>, weights: seq<real>, biases: seq<real>,
                    output: array<real>, index: nat)
    requires index < output.Length && index < |biases|
    requires index < config.outSize ==>
      index * config.outSize + config.inSize <= |weights| && config.inSize <= |input|
    modifies output
    ensures index < config.outSize ==>
      output[..] == old(output[..])[index := RowDot(weights, input, index, config.outSize, config.inSize) + biases[index]]
    ensures index >= config.outSize ==>
      output[..] == old(output[..])[index := old(output[index]) + biases[index]]
  {
    MatmulWeights(config, weights, input, output, index, config.outSize);
    AddBiases(biases, output, index);
  }

  /** One invocation of `main` with the stride of the weight matrix's
      rows, `inSize`: output element `index` becomes weight row `index`
      times the input, plus bias `index`. */
  method InvocationIntended(config: Config, input: seq<real>, weights: seq<real>, biases: seq<real>,
                            output: array<real>, index: nat)
    requires index < output.Length && index < |biases|
    requires |weights| >= config.outSize * config.inSize && |input| >= config.inSize
    modifies output
    ensures index < config.outSize ==>
      output[..] == old(output[..])[index := WeightedSum(config, weights, input, index) + biases[index]]
    ensures index >= config.outSize ==>
      output[..] == old(output[..])[index := old(output[index]) + biases[index]]
  {
    if index < config.outSize {
      assert index * config.inSize + config.inSize <= config.outSize * config.inSize by {
        if config.inSize > 0 {
          RowMajorBound(index, config.inSize - 1, config.outSize, config.inSize);
        }
      }
    }
    MatmulWeights(config, weights, input, output, index, config.inSize);
    AddBiases(biases, output, index);
  }

  /** For a square layer the two strides coincide. */
  lemma StrideAgreesWhenSquare(config: Config, weights: seq<real>, input: seq<real>, row: nat)
    requires config.inSize == config.outSize
    requires row < config.outSize && |weights| >= config.outSize * config.inSize && |input| >= config.inSize
    ensures row * config.outSize + config.inSize <= |weights|
    ensures RowDot(weights, input, row, config.outSize, config.inSize) == WeightedSum(config, weights, input, row)
  {
    if config.inSize > 0 {
      RowMajorBound(row, config.inSize - 1, config.outSize, config.inSize);
    }
  }

  /** For a widening layer, `outSize > inSize`, the last output row read
      with stride `outSize` ends past the `outSize * inSize` weights: the
      requires of `Invocation` fails there, and the shader reads out of
      bounds. */
  lemma WideningReadsPastWeights(config: Config)
    requires config.outSize > config.inSize >= 1
    ensures (config.outSize - 1) * config.outSize + config.inSize > config.outSize * config.inSize
  {
    var o, i := config.outSize, config.inSize;
    var slack := o - 1 - i;
    assert (o - 1) * o + i - o * i == o * slack + i;
    assert o * slack >= 0;
  }

  /** `GetConfig` accepts a layer of 2 inputs and 3 outputs, whose weights
      hold 6 floats; output row 2 reads floats 6 and 7. */
  lemma WideningExample()
    ensures GetConfig(Matrix(2, 1), Matrix(3, 2), Matrix(3, 1), Matrix(3, 1)) == Ok(Config(2, 3))
    ensures 2 * 3 + 2 > 3 * 2
  {
  }

  /** With 3 inputs and 2 outputs, weights `[[1, 2, 3], [4, 5, 6]]` and
      input `[1, 1, 1]`, output row 1 should be 4 + 5 + 6 = 15; with stride
      `outSize` the shader reads elements 2, 3 and 4 and computes 12. */
  lemma StrideCounterexample()
    ensures RowDot([1.0, 2.0, 3.0, 4.0, 5.0, 6.0], [1.0, 1.0, 1.0], 1, 2, 3) == 12.0
    ensures WeightedSum(Config(3, 2), [1.0, 2.0, 3.0, 4.0, 5.0, 6.0], [1.0, 1.0, 1.0], 1) == 15.0
  {
    var w := [1.0, 2.0, 3.0, 4.0, 5.0, 6.0];
    var x := [1.0, 1.0, 1.0];
    assert RowDot(w, x, 1, 2, 1) == 3.0;
    assert RowDot(w, x, 1, 2, 2) == 7.0;
    assert RowDot(w, x, 1, 3, 1) == 4.0;
    assert RowDot(w, x, 1, 3, 2) == 9.0;
  }

  /** The qualifier binding 3 (`MatOutput`) is declared with. */
  const OUTPUT_ACCESS: Access := WriteOnly
  /** The qualifier a buffer that `AddBiases` both loads and stores needs. */
  const OUTPUT_ACCESS_INTENDED: Access := ReadWrite

  /** `AddBiases` loads and stores the output element, so the shader is
      accepted only if the output binding is readable and writable. */
  predicate ShaderCompiles(outputAccess: Access)
  {
    Readable(outputAccess) && Writable(outputAccess)
  }

  /** As declared, the output is `writeonly`, yet `AddBiases` loads it; a
      GLSL compiler rejects the load. */
  lemma OutputDeclaredWriteonlyButRead()
    ensures !ShaderCompiles(OUTPUT_ACCESS)
  {
  }

  /** Without a qualifier the same shader is accepted. */
  lemma ReadWriteAccepted()
    ensures ShaderCompiles(OUTPUT_ACCESS_INTENDED)
  {
  }
}
