/** The ReLU forward op (src/ReluForwardOp.cpp): the host-side checks and
    workgroup, and the value one shader invocation stores. Despite its name
    the shader is not a ReLU: it passes inputs above 20 through, maps inputs
    below 20 to 0, and applies `log(1 + exp(x))` at exactly 20. */
module ReluForwardOps {
  import opened Wrappers
  import opened Matrices

  const NOT_COLUMN_VECTORS := "Matrix needs to be column vector for relu forward"
  const SIZE_MISMATCH := "relu forward requires equal size of input and output"

  /** The constant the shader compares every input with. */
  const THRESHOLD: real := 20.0

  /** `GetWorkgroup`: input and output must be column vectors of equal
      length; one invocation per input row. */
  function GetWorkgroup(input: Matrix, output: Matrix): (r: Outcome<Workgroup>)
    ensures r.Ok? <==> IsColVector(input) && IsColVector(output) && input.rowCount == output.rowCount
    ensures !(IsColVector(input) && IsColVector(output)) ==> r == Err(NOT_COLUMN_VECTORS)
    ensures r.Ok? ==> r.value.x == ToUint32(input.rowCount) && r.value.y == 1 && r.value.z == 1
  {
    ElementwiseWorkgroup(input, output, NOT_COLUMN_VECTORS, SIZE_MISMATCH)
  }

  /** A stored value: a real, or `log(1 + exp(x))`, which is kept symbolic. */
  datatype Activation = Value(r: real) | Softplus(x: real)

  /** The shader's three-way case split on the input. */
  function Activate(inVal: real): (out: Activation)
    ensures out.Softplus? <==> inVal == THRESHOLD
    ensures out.Value? ==> out.r == 0.0 || out.r == inVal
  {
    if inVal > THRESHOLD then Value(inVal)
    else if inVal < THRESHOLD then Value(0.0)
    else Softplus(inVal)
  }

  /** The rectifier `max(0, x)` the op is named after. */
  function Relu(x: real): (y: real)
    ensures y >= 0.0 && y >= x
  {
    if x > 0.0 then x else 0.0
  }

  /** The shader agrees with the rectifier exactly on the inputs that are
      not positive and on those above 20; on `(0, 20]` it does not. */
  lemma AgreesWithReluIff(x: real)
    ensures Activate(x) == Value(Relu(x)) <==> x <= 0.0 || x > THRESHOLD
  {
  }

  /** Away from the threshold the stored value never decreases as the input
      grows. */
  lemma ActivateMonotone(x: real, y: real)
    requires x <= y && x != THRESHOLD && y != THRESHOLD
    ensures Activate(x).r <= Activate(y).r
  {
  }

  /** One invocation at `index`: the activation of input element `index` is
      stored at output element `index`. */
  function Invocation(input: seq<real>, output: seq<Activation>, index: nat): (output': seq<Activation>)
    requires index < |input| && index < |output|
    ensures |output'| == |output|
    ensures output'[index] == Activate(input[index])
    ensures forall k :: 0 <= k < |output| && k != index ==> output'[k] == output[k]
  {
    output[index := Activate(input[index])]
  }
}
