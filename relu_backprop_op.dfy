/** The ReLU backward op (src/ReluBackpropOp.cpp): the host-side checks and
    workgroup, and the local error one shader invocation stores. The
    derivative used is that of a leaky rectifier with slope 0.01 below 0,
    which is not the derivative of the forward shader. */
module ReluBackpropOps {
  import opened Wrappers
  import opened Matrices
  import ReluForwardOps

  const NOT_COLUMN_VECTORS := "Relu backprop requires 3 col vectors"
  const SIZE_MISMATCH := "Relu backprop requires 3 vectors of equal size"

  /** The slope the shader uses for inputs that are not positive. */
  const LEAK: real := 0.01

  /** `GetWorkgroup`: all three operands must be column vectors, then all
      three must have equal row counts; one invocation per element. */
  function GetWorkgroup(oldInput: Matrix, prevError: Matrix, localError: Matrix): (r: Outcome<Workgroup>)
    ensures r.Ok? <==>
      IsColVector(oldInput) && IsColVector(prevError) && IsColVector(localError)
      && oldInput.rowCount == prevError.rowCount && prevError.rowCount == localError.rowCount
    ensures !(IsColVector(oldInput) && IsColVector(prevError) && IsColVector(localError)) ==>
      r == Err(NOT_COLUMN_VECTORS)
    ensures r.Err? && IsColVector(oldInput) && IsColVector(prevError) && IsColVector(localError) ==>
      r == Err(SIZE_MISMATCH)
    ensures r.Ok? ==> r.value == Workgroup(ToUint32(oldInput.rowCount), 1, 1)
  {
    if !IsColVector(oldInput) || !IsColVector(prevError) || !IsColVector(localError) then
      Err(NOT_COLUMN_VECTORS)
    else if oldInput.rowCount != prevError.rowCount || prevError.rowCount != localError.rowCount then
      Err(SIZE_MISMATCH)
    else
      Ok(Workgroup(ToUint32(oldInput.rowCount), 1, 1))
  }

  /** `reluDeriv`: 1 for a positive input, the leak otherwise. */
  function ReluDeriv(oldInput: real): (d: real)
    ensures 0.0 < d <= 1.0
    ensures d == 1.0 <==> oldInput > 0.0
  {
    if oldInput > 0.0 then 1.0 else LEAK
  }

  /** The leaky rectifier whose slope `ReluDeriv` is. */
  function LeakyRelu(x: real): real
  {
    if x > 0.0 then x else LEAK * x
  }

  /** `ReluDeriv(x)` is the slope of `LeakyRelu` on the side of 0 that `x`
      lies on. */
  lemma DerivIsLeakyReluSlope(x: real, y: real)
    requires (x > 0.0 && y > 0.0) || (x <= 0.0 && y <= 0.0)
    ensures LeakyRelu(y) - LeakyRelu(x) == ReluDeriv(x) * (y - x)
  {
  }

  /** Below the forward shader's threshold its output is the same constant
      for every input, yet the derivative used here is never 0. */
  lemma DerivDisagreesWithForward(x: real, y: real)
    requires x < ReluForwardOps.THRESHOLD && y < ReluForwardOps.THRESHOLD
    ensures ReluForwardOps.Activate(x) == ReluForwardOps.Activate(y)
    ensures ReluDeriv(x) > 0.0
  {
  }

  /** One invocation at `index`: the previous error scaled by the
      derivative at the old input is stored as the local error. */
  function Invocation(oldInput: seq<real>, prevError: seq<real>, localError: seq<real>, index: nat): (localError': seq<real>)
    requires index < |oldInput| && index < |prevError| && index < |localError|
    ensures |localError'| == |localError|
    ensures oldInput[index] > 0.0 ==> localError'[index] == prevError[index]
    ensures oldInput[index] <= 0.0 ==> localError'[index] == LEAK * prevError[index]
    ensures forall k :: 0 <= k < |localError| && k != index ==> localError'[k] == localError[k]
  {
    localError[index := ReluDeriv(oldInput[index]) * prevError[index]]
  }
}
