/** The host-side dataset of the compute module (src/Dataset.cpp): MNIST
    samples turned into column vectors of normalised pixels and one-hot
    targets, the checked constructor, and bounds-checked lookups. A matrix
    is represented by the column of its values. */
module Datasets {
  import opened Wrappers
  import opened MachineInts

  const INPUTS_LABELS_MISMATCH := "Mnist inputs and labels size not equal"
  const MNIST_INPUT_SIZE: nat := 784
  const INPUT_SIZE_MISMATCH := "Mnist inputs needs size of 784"
  const CLASS_COUNT: nat := 10
  const INPUTS_TARGETS_MISMATCH := "inputs and targets size not equal"
  const INPUT_OUT_OF_BOUNDS := "Requested input is out of bounds"
  const TARGET_OUT_OF_BOUNDS := "Requested target is out of bounds"

  /** A column vector, by its values. */
  type Column = seq<real>

  /** Inputs and targets, paired by position. */
  datatype Dataset = Dataset(inputs: seq<Column>, targets: seq<Column>)

  /** Pixel bytes scaled into `[0, 1]`. */
  function Normalize(pixels: seq<byte>): (c: Column)
    ensures |c| == |pixels|
    ensures forall p :: 0 <= p < |c| ==> 0.0 <= c[p] <= 1.0
  {
    seq(|pixels|, p requires 0 <= p < |pixels| => pixels[p] as real / 255.0)
  }

  /** The one-hot target of a digit: 1 at position `digit`, 0 elsewhere. */
  function OneHot(digit: byte): (c: Column)
    ensures |c| == CLASS_COUNT
  {
    seq(CLASS_COUNT, n requires 0 <= n < CLASS_COUNT => if n == digit as int then 1.0 else 0.0)
  }

  /** The sum of a column's values. */
  function Total(c: Column): real
  {
    if |c| == 0 then 0.0 else Total(c[..|c| - 1]) + c[|c| - 1]
  }

  /** A column whose values are all 0, except possibly 1 at `at`, sums to
      the value at `at` (0 when `at` is past its end). */
  lemma {:induction false} TotalOfIndicator(c: Column, at: nat)
    requires forall n :: 0 <= n < |c| ==> c[n] == (if n == at then 1.0 else 0.0)
    ensures Total(c) == (if at < |c| then 1.0 else 0.0)
  {
    if |c| > 0 {
      TotalOfIndicator(c[..|c| - 1], at);
    }
  }

  /** A digit below 10 marks exactly its own class; every other digit
      gives an all-zero target. */
  lemma OneHotMarksLabel(digit: byte)
    ensures digit as int < CLASS_COUNT ==> OneHot(digit)[digit] == 1.0 && Total(OneHot(digit)) == 1.0
    ensures forall n :: 0 <= n < CLASS_COUNT && n != digit as int ==> OneHot(digit)[n] == 0.0
    ensures digit as int >= CLASS_COUNT ==> Total(OneHot(digit)) == 0.0
  {
    TotalOfIndicator(OneHot(digit), digit as nat);
  }

  /** `Dataset(inputs, targets)`: the two lists must have equal length. */
  function NewDataset(inputs: seq<Column>, targets: seq<Column>): (r: Outcome<Dataset>)
    ensures r.Ok? <==> |inputs| == |targets|
    ensures r.Err? ==> r.msg == INPUTS_TARGETS_MISMATCH
    ensures r.Ok? ==> r.value.inputs == inputs && r.value.targets == targets
  {
    if |inputs| != |targets| then Err(INPUTS_TARGETS_MISMATCH)
    else Ok(Dataset(inputs, targets))
  }

  /** Every dataset the constructor accepts pairs each input with a
      target. */
  predicate Valid(d: Dataset)
  {
    |d.inputs| == |d.targets|
  }

  /** `GetSize`: the number of inputs. */
  function GetSize(d: Dataset): (n: nat)
    ensures n == |d.inputs|
    ensures Valid(d) ==> n == |d.targets|
  {
    |d.inputs|
  }

  /** `GetInput`: input `index`, or an error past the end. */
  function GetInput(d: Dataset, index: nat): (r: Outcome<Column>)
    ensures r.Ok? <==> index < GetSize(d)
    ensures r.Ok? ==> r.value == d.inputs[index]
    ensures r.Err? ==> r.msg == INPUT_OUT_OF_BOUNDS
  {
    if index >= |d.inputs| then Err(INPUT_OUT_OF_BOUNDS) else Ok(d.inputs[index])
  }

  /** `GetTarget`: target `index`, or an error past the end. */
  function GetTarget(d: Dataset, index: nat): (r: Outcome<Column>)
    ensures r.Ok? <==> index < |d.targets|
    ensures r.Ok? ==> r.value == d.targets[index]
    ensures r.Err? ==> r.msg == TARGET_OUT_OF_BOUNDS
  {
    if index >= |d.targets| then Err(TARGET_OUT_OF_BOUNDS) else Ok(d.targets[index])
  }

  /** In a constructed dataset, an input and a target can be looked up at
      exactly the same indices: those below the size. */
  lemma LookupsAgree(inputs: seq<Column>, targets: seq<Column>, index: nat)
    requires NewDataset(inputs, targets).Ok?
    ensures GetInput(NewDataset(inputs, targets).value, index).Ok?
        <==> GetTarget(NewDataset(inputs, targets).value, index).Ok?
    ensures GetTarget(NewDataset(inputs, targets).value, index).Ok? <==> index < |inputs|
  {
  }

  /** Every MNIST input has 784 pixels. */
  predicate AllInputsSized(inputs: seq<seq<byte>>)
  {
    forall i :: 0 <= i < |inputs| ==> |inputs[i]| == MNIST_INPUT_SIZE
  }

  /** `FromMnist`: with as many inputs as labels and 784 pixels in every
      input, sample `i` pairs the normalised pixels of input `i` with the
      one-hot target of digit `i`. A count mismatch is reported first; an
      input of the wrong size is reported when the loop reaches it. */
  method FromMnist(inputs: seq<seq<byte>>, labels: seq<byte>) returns (r: Outcome<Dataset>)
    ensures r.Ok? <==> |inputs| == |labels| && AllInputsSized(inputs)
    ensures |inputs| != |labels| ==> r == Err(INPUTS_LABELS_MISMATCH)
    ensures |inputs| == |labels| && !AllInputsSized(inputs) ==> r == Err(INPUT_SIZE_MISMATCH)
    ensures r.Ok? ==> Valid(r.value) && GetSize(r.value) == |inputs|
    ensures r.Ok? ==> forall i :: 0 <= i < |inputs| ==>
      r.value.inputs[i] == Normalize(inputs[i]) && r.value.targets[i] == OneHot(labels[i])
  {
    if |inputs| != |labels| {
      return Err(INPUTS_LABELS_MISMATCH);
    }
    var datasetInputs := new Column[|inputs|];
    var datasetTargets := new Column[|labels|];
    for i := 0 to |inputs|
      invariant AllInputsSized(inputs[..i])
      invariant forall k :: 0 <= k < i ==>
        datasetInputs[k] == Normalize(inputs[k]) && datasetTargets[k] == OneHot(labels[k])
    {
      if |inputs[i]| != MNIST_INPUT_SIZE {
        assert !AllInputsSized(inputs);
        return Err(INPUT_SIZE_MISMATCH);
      }
      var inputMatData := new real[MNIST_INPUT_SIZE];
      for pixel := 0 to MNIST_INPUT_SIZE
        modifies inputMatData
        invariant forall p :: 0 <= p < pixel ==> inputMatData[p] == inputs[i][p] as real / 255.0
      {
        inputMatData[pixel] := inputs[i][pixel] as real / 255.0;
      }
      assert inputMatData[..] == Normalize(inputs[i]);
      datasetInputs[i] := inputMatData[..];
      var targetMatData := new real[CLASS_COUNT];
      for number := 0 to CLASS_COUNT
        modifies targetMatData
        invariant forall n :: 0 <= n < number ==> targetMatData[n] == (if n == labels[i] as int then 1.0 else 0.0)
      {
        targetMatData[number] := if number == labels[i] as int then 1.0 else 0.0;
      }
      assert targetMatData[..] == OneHot(labels[i]);
      datasetTargets[i] := targetMatData[..];
      assert inputs[..i + 1] == inputs[..i] + [inputs[i]];
    }
    assert inputs[..|inputs|] == inputs;
    r := NewDataset(datasetInputs[..], datasetTargets[..]);
  }
}
