/** The weight update of a linear layer's backward pass on the GPU
    (src/LinearLayerBackpropOp.cpp): the host-side checks, push constants
    and workgroup, and the shader's `LearnWeights` step of one invocation.
    Weights and weight deltas are floats that may be NaN or infinite; the
    layer's input, error and learning rate are finite and modelled as
    reals. */
module LinearLayerBackpropOps {
  import opened Wrappers
  import opened Matrices

  const NOT_COLUMN_VECTORS := "Linear layer backprop requires 3 col vectors"

  /** A float: finite (a real), NaN, or an infinity. */
  datatype Float = Finite(r: real) | NaN | Infinity(negative: bool)

  /** The shader's `isNaN(x) || isInf(x)` test. */
  predicate IsNaNOrInf(x: Float)
  {
    !x.Finite?
  }

  datatype Config = Config(inputSize: nat, outputSize: nat, learningRate: real)

  /** `GetConfig`: the old input, previous error and local error must be
      column vectors; weights and biases are not checked. */
  function GetConfig(oldInput: Matrix, prevError: Matrix, localError: Matrix, weights: Matrix, biases: Matrix,
                     deltaWeights: Matrix, learningRate: real): (r: Outcome<Config>)
    ensures r.Err? <==> !(IsColVector(oldInput) && IsColVector(prevError) && IsColVector(localError))
    ensures r.Err? ==> r.msg == NOT_COLUMN_VECTORS
    ensures r.Ok? ==>
      r.value == Config(ToUint32(oldInput.rowCount), ToUint32(prevError.rowCount), learningRate)
  {
    if !IsColVector(oldInput) || !IsColVector(prevError) || !IsColVector(localError) then
      Err(NOT_COLUMN_VECTORS)
    else
      Ok(Config(ToUint32(oldInput.rowCount), ToUint32(prevError.rowCount), learningRate))
  }

  /** The configuration does not depend on the weight, bias or delta
      shapes. */
  lemma ConfigIgnoresWeightShapes(oldInput: Matrix, prevError: Matrix, localError: Matrix,
                                  weights: Matrix, biases: Matrix, deltaWeights: Matrix,
                                  weights': Matrix, biases': Matrix, deltaWeights': Matrix, learningRate: real)
    ensures GetConfig(oldInput, prevError, localError, weights, biases, deltaWeights, learningRate)
         == GetConfig(oldInput, prevError, localError, weights', biases', deltaWeights', learningRate)
  {
  }

  /** `GetWorkgroup`: one invocation per weight, rows first. */
  function GetWorkgroup(config: Config): (w: Workgroup)
    ensures w.x == config.outputSize && w.y == config.inputSize && w.z == 1
  {
    Workgroup(config.outputSize, config.inputSize, 1)
  }

  /** `beta * old + (1 - beta) * new` with `beta = 0`: the new delta, except
      that zero times a NaN or an infinity is NaN. */
  function BlendDelta(oldDelta: Float, newDelta: real): (d: Float)
    ensures oldDelta.Finite? ==> d == Finite(newDelta)
    ensures !oldDelta.Finite? ==> d == NaN
  {
    if oldDelta.Finite? then Finite(newDelta) else NaN
  }

  /** The shader's `LearnWeights` at `(outRow, outCol)`: the delta becomes
      `-oldInput[outCol] * prevError[outRow] * learningRate`; a NaN or
      infinite weight resets the weight and its delta to 0. Nothing else
      changes. */
  method LearnWeights(config: Config, oldInput: seq<real>, prevError: seq<real>,
                      weights: array<Float>, deltaWeights: array<Float>, outRow: nat, outCol: nat)
    requires outCol < |oldInput| && outRow < |prevError|
    requires RowMajor(outRow, outCol, config.inputSize) < weights.Length
    requires RowMajor(outRow, outCol, config.inputSize) < deltaWeights.Length
    requires weights != deltaWeights
    modifies weights, deltaWeights
    ensures var i := RowMajor(outRow, outCol, config.inputSize);
      var newDelta := -oldInput[outCol] * prevError[outRow] * config.learningRate;
      if IsNaNOrInf(old(weights[i])) then
        weights[..] == old(weights[..])[i := Finite(0.0)]
        && deltaWeights[..] == old(deltaWeights[..])[i := Finite(0.0)]
      else
        weights[..] == old(weights[..])
        && deltaWeights[..] == old(deltaWeights[..])[i := BlendDelta(old(deltaWeights[i]), newDelta)]
  {
    var linearIndex := outRow * config.inputSize + outCol;
    var oldDeltaWeight := deltaWeights[linearIndex];
    var newDeltaWeight := -oldInput[outCol] * prevError[outRow] * config.learningRate;
    deltaWeights[linearIndex] := BlendDelta(oldDeltaWeight, newDeltaWeight);
    var weight := weights[linearIndex];
    if IsNaNOrInf(weight) {
      weights[linearIndex] := Finite(0.0);
      deltaWeights[linearIndex] := Finite(0.0);
    }
  }

  /** The shader's `main` at `(outRow, outCol)` without the atomic
      local-error accumulation: `LearnWeights` only. The call to
      `LearnBiases` is commented out, so the biases never change. */
  method Invocation(config: Config, oldInput: seq<real>, prevError: seq<real>,
                    weights: array<Float>, biases: array<Float>, deltaWeights: array<Float>, outRow: nat, outCol: nat)
    requires outCol < |oldInput| && outRow < |prevError|
    requires RowMajor(outRow, outCol, config.inputSize) < weights.Length
    requires RowMajor(outRow, outCol, config.inputSize) < deltaWeights.Length
    requires weights != deltaWeights && biases != weights && biases != deltaWeights
    modifies weights, deltaWeights
    ensures biases[..] == old(biases[..])
    ensures var i := RowMajor(outRow, outCol, config.inputSize);
      var newDelta := -oldInput[outCol] * prevError[outRow] * config.learningRate;
      if IsNaNOrInf(old(weights[i])) then
        weights[..] == old(weights[..])[i := Finite(0.0)]
        && deltaWeights[..] == old(deltaWeights[..])[i := Finite(0.0)]
      else
        weights[..] == old(weights[..])
        && deltaWeights[..] == old(deltaWeights[..])[i := BlendDelta(old(deltaWeights[i]), newDelta)]
  {
    LearnWeights(config, oldInput, prevError, weights, deltaWeights, outRow, outCol);
  }
}
