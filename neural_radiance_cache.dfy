/** The neural radiance cache's host-side set-up (src/NeuralRadianceCache.cpp):
    its encoding parameters, the sizes of its weight and bias buffers, and the
    initial contents written into them.  Device buffers are modelled by their
    size and, once filled, their float contents; the random draws of the
    weight initialisation are a parameter. */
module NeuralRadianceCaches {
  import opened Wrappers
  import MachineInts

  const FLOAT_SIZE: nat := 4
  /** The network's output layer has three neurons (a colour). */
  const OUTPUT_WIDTH: nat := 3

  /** The position encodings the source distinguishes; only `Mrhe` changes
      what `Init` does. */
  datatype PosEncoding = PosDirect | PosFrequency | Mrhe
  datatype DirEncoding = DirDirect | DirFrequency | OneBlob

  datatype UniformData = UniformData(
    posFreqCount: nat,
    posMinFreq: nat,
    posMaxFreq: nat,
    posLevelCount: nat,
    posFeatureCount: nat,
    dirFreqCount: nat,
    dirFeatureCount: nat)

  const ZERO_UNIFORM: UniformData := UniformData(0, 0, 0, 0, 0, 0, 0)

  /** A device buffer: its size in bytes and, once something was copied into
      it, its contents as floats. */
  datatype DeviceBuffer = DeviceBuffer(size: nat, contents: Option<seq<real>>)

  // ---------------------------------------------------------------------------
  // Buffer sizes
  // ---------------------------------------------------------------------------

  /** Weight buffer bytes, computed in `size_t`: four bytes for each of
      `in*W + W*W*(L-1) + 3*W` weights. */
  function WeightsBufferSize(inputs: nat, width: nat, layers: nat): (r: nat)
    ensures r < MachineInts.TWO_TO_THE_64
  {
    var count := MachineInts.Wrap64(
      MachineInts.Wrap64(inputs * width) +
      MachineInts.Wrap64(width * width * MachineInts.Wrap64(layers - 1)) +
      MachineInts.Wrap64(width * OUTPUT_WIDTH));
    MachineInts.Wrap64(count * FLOAT_SIZE)
  }

  /** The weight count the size formula stands for, for at least one hidden
      layer. */
  function WeightsFormula(inputs: nat, width: nat, layers: nat): nat
    requires layers >= 1
  {
    inputs * width + width * width * (layers - 1) + width * OUTPUT_WIDTH
  }

  /** When the formula fits in `size_t`, no step of the computation wraps. */
  lemma {:induction false} WeightsBufferSizeExact(inputs: nat, width: nat, layers: nat)
    requires layers >= 1
    requires FLOAT_SIZE * WeightsFormula(inputs, width, layers) < MachineInts.TWO_TO_THE_64
    ensures WeightsBufferSize(inputs, width, layers) == FLOAT_SIZE * WeightsFormula(inputs, width, layers)
  {
    var a: nat := inputs * width;
    var b: nat := width * width * (layers - 1);
    var c: nat := width * OUTPUT_WIDTH;
    assert WeightsFormula(inputs, width, layers) == a + b + c;
    if width > 0 {
      MulGrows(width * width, layers - 1);
      assert MachineInts.Wrap64(layers - 1) == layers - 1;
    }
    assert MachineInts.Wrap64(a + b + c) == a + b + c;
  }

  /** Bias buffer bytes: four bytes for each of `L*W + 3` biases. */
  function BiasesBufferSize(width: nat, layers: nat): (r: nat)
    ensures r < MachineInts.TWO_TO_THE_64
    ensures FLOAT_SIZE * (layers * width + OUTPUT_WIDTH) < MachineInts.TWO_TO_THE_64 ==>
      r == FLOAT_SIZE * (layers * width + OUTPUT_WIDTH)
  {
    MachineInts.Wrap64(MachineInts.Wrap64(layers * width + OUTPUT_WIDTH) * FLOAT_SIZE)
  }

  lemma MulGrows(x: nat, y: nat)
    requires x >= 1
    ensures y <= x * y
  {
  }

  /** The neuron counts of the network, input first: the input features,
      `layers` hidden layers of `width` neurons, and the output layer. */
  function Widths(inputs: nat, width: nat, layers: nat): (r: seq<nat>)
    ensures |r| == layers + 2
  {
    [inputs] + seq(layers, _ => width) + [OUTPUT_WIDTH]
  }

  /** Weights of a fully connected network: one per pair of neurons in
      adjacent layers. */
  function WeightCount(widths: seq<nat>): nat
  {
    if |widths| < 2 then 0 else widths[0] * widths[1] + WeightCount(widths[1..])
  }

  /** Biases of a fully connected network: one per neuron after the input. */
  function BiasCount(widths: seq<nat>): nat
  {
    if |widths| < 2 then 0 else widths[1] + BiasCount(widths[1..])
  }

  lemma {:induction false} HiddenCounts(width: nat, n: nat)
    ensures WeightCount(seq(n, _ => width) + [OUTPUT_WIDTH]) == (if n == 0 then 0 else width * width * (n - 1) + width * OUTPUT_WIDTH)
    ensures BiasCount(seq(n, _ => width) + [OUTPUT_WIDTH]) == (if n == 0 then 0 else width * (n - 1) + OUTPUT_WIDTH)
  {
    var s := seq(n, _ => width) + [OUTPUT_WIDTH];
    if n == 1 {
      assert s == [width, OUTPUT_WIDTH];
      assert s[1..] == [OUTPUT_WIDTH];
    } else if n >= 2 {
      assert s[1..] == seq(n - 1, _ => width) + [OUTPUT_WIDTH];
      assert s[0] == width && s[1] == width;
      HiddenCounts(width, n - 1);
      MulStep(width * width, n - 1);
      MulStep(width, n - 1);
    }
  }

  lemma MulStep(c: nat, m: nat)
    requires m >= 1
    ensures c * m == c + c * (m - 1)
  {
  }

  /** The buffer formulas are the weight and bias counts of the network the
      cache describes (for at least one hidden layer). */
  lemma {:induction false} SizesMatchNetwork(inputs: nat, width: nat, layers: nat)
    requires layers >= 1
    ensures WeightCount(Widths(inputs, width, layers)) == WeightsFormula(inputs, width, layers)
    ensures BiasCount(Widths(inputs, width, layers)) == layers * width + OUTPUT_WIDTH
  {
    var w := Widths(inputs, width, layers);
    assert w[1..] == seq(layers, _ => width) + [OUTPUT_WIDTH];
    assert w[1] == width;
    HiddenCounts(width, layers);
  }

  /** With no hidden layer `L - 1` wraps around in `size_t`; the weight
      size then comes out as `4*(in*W - W*W + 3*W)` modulo 2^64, which is not
      the `in*3` weights of a network joining the inputs straight to the
      outputs. */
  lemma ZeroLayersWrap()
    ensures WeightsBufferSize(2, 1, 0) == 16
    ensures FLOAT_SIZE * WeightCount(Widths(2, 1, 0)) == 24
  {
    assert Widths(2, 1, 0) == [2, OUTPUT_WIDTH];
  }

  // ---------------------------------------------------------------------------
  // The cache
  // ---------------------------------------------------------------------------

  function Draws(draw: nat -> real, n: nat): (r: seq<real>)
    ensures |r| == n
  {
    seq(n, i requires 0 <= i => draw(i))
  }

  function Zeros(n: nat): (r: seq<real>)
    ensures |r| == n
  {
    seq(n, _ => 0.0)
  }

  class NeuralRadianceCache {
    const posEncoding: PosEncoding
    const dirEncoding: DirEncoding
    const layerCount: nat
    const layerWidth: nat
    var uniformData: UniformData
    /** Read by `InitNn` but assigned nowhere in the source: its value is
        whatever the object happens to hold. */
    var inputFeatureCount: nat
    var weights: Option<DeviceBuffer>
    var deltaWeights: Option<DeviceBuffer>
    var momentumWeights: Option<DeviceBuffer>
    var biases: Option<DeviceBuffer>
    var deltaBiases: Option<DeviceBuffer>
    var momentumBiases: Option<DeviceBuffer>

    /** Stores the encodings and the layer shape, zeroes every encoding
        parameter, and creates no buffer yet. */
    constructor(posEncoding: PosEncoding, dirEncoding: DirEncoding, layerCount: nat, layerWidth: nat)
      ensures this.posEncoding == posEncoding && this.dirEncoding == dirEncoding
      ensures this.layerCount == layerCount && this.layerWidth == layerWidth
      ensures uniformData == ZERO_UNIFORM
      ensures weights.None? && deltaWeights.None? && momentumWeights.None?
      ensures biases.None? && deltaBiases.None? && momentumBiases.None?
    {
      this.posEncoding := posEncoding;
      this.dirEncoding := dirEncoding;
      this.layerCount := layerCount;
      this.layerWidth := layerWidth;
      uniformData := ZERO_UNIFORM;
      weights := None;
      deltaWeights := None;
      momentumWeights := None;
      biases := None;
      deltaBiases := None;
      momentumBiases := None;
    }

    method SetPosFrequencyEncoding(freqCount: nat)
      modifies this`uniformData
      ensures uniformData == old(uniformData).(posFreqCount := freqCount)
    {
      uniformData := uniformData.(posFreqCount := freqCount);
    }

    method SetPosMrheEncoding(minFreq: nat, maxFreq: nat, levelCount: nat, featureCount: nat)
      modifies this`uniformData
      ensures uniformData == old(uniformData).(posMinFreq := minFreq, posMaxFreq := maxFreq,
                                                posLevelCount := levelCount, posFeatureCount := featureCount)
    {
      uniformData := uniformData.(posMinFreq := minFreq);
      uniformData := uniformData.(posMaxFreq := maxFreq);
      uniformData := uniformData.(posLevelCount := levelCount);
      uniformData := uniformData.(posFeatureCount := featureCount);
    }

    method SetDirFrequencyEncoding(freqCount: nat)
      modifies this`uniformData
      ensures uniformData == old(uniformData).(dirFreqCount := freqCount)
    {
      uniformData := uniformData.(dirFreqCount := freqCount);
    }

    method SetDirOneBlobEncoding(featureCount: nat)
      modifies this`uniformData
      ensures uniformData == old(uniformData).(dirFeatureCount := featureCount)
    {
      uniformData := uniformData.(dirFeatureCount := featureCount);
    }

    /** Sets up the network buffers, then the hash-grid encoding only when the
        position encoding is MRHE. */
    method Init(draw: nat -> real)
      modifies this`weights, this`deltaWeights, this`momentumWeights
      modifies this`biases, this`deltaBiases, this`momentumBiases
      ensures NnInitialised(draw)
    {
      InitNn(draw);
      if posEncoding == Mrhe {
        InitMrhe();
      }
    }

    /** The state `InitNn` leaves: six buffers of the formula sizes; the
        weights hold the first draws, the delta and momentum weights hold
        zeros, and no bias buffer has been written. */
    ghost predicate NnInitialised(draw: nat -> real)
      reads this
    {
      var wSize := WeightsBufferSize(inputFeatureCount, layerWidth, layerCount);
      var bSize := BiasesBufferSize(layerWidth, layerCount);
      var count := wSize / FLOAT_SIZE;
      weights == Some(DeviceBuffer(wSize, Some(Draws(draw, count)))) &&
      deltaWeights == Some(DeviceBuffer(wSize, Some(Zeros(count)))) &&
      momentumWeights == Some(DeviceBuffer(wSize, Some(Zeros(count)))) &&
      biases == Some(DeviceBuffer(bSize, None)) &&
      deltaBiases == Some(DeviceBuffer(bSize, None)) &&
      momentumBiases == Some(DeviceBuffer(bSize, None))
    }

    method InitNn(draw: nat -> real)
      modifies this`weights, this`deltaWeights, this`momentumWeights
      modifies this`biases, this`deltaBiases, this`momentumBiases
      ensures NnInitialised(draw)
    {
      var weightsBufferSize := MachineInts.Wrap64(
        MachineInts.Wrap64(inputFeatureCount * layerWidth) +
        MachineInts.Wrap64(layerWidth * layerWidth * MachineInts.Wrap64(layerCount - 1)) +
        MachineInts.Wrap64(layerWidth * OUTPUT_WIDTH));
      weightsBufferSize := MachineInts.Wrap64(weightsBufferSize * FLOAT_SIZE);

      var biasesBufferSize := MachineInts.Wrap64(layerCount * layerWidth + OUTPUT_WIDTH);
      biasesBufferSize := MachineInts.Wrap64(biasesBufferSize * FLOAT_SIZE);

      CreateNnBuffers(weightsBufferSize, biasesBufferSize);
      FillNnBuffers(weightsBufferSize, biasesBufferSize, draw);
    }

    /** Six device buffers of the given sizes, none written yet. */
    method CreateNnBuffers(weightsBufferSize: nat, biasesBufferSize: nat)
      modifies this`weights, this`deltaWeights, this`momentumWeights
      modifies this`biases, this`deltaBiases, this`momentumBiases
      ensures weights == Some(DeviceBuffer(weightsBufferSize, None))
      ensures deltaWeights == Some(DeviceBuffer(weightsBufferSize, None))
      ensures momentumWeights == Some(DeviceBuffer(weightsBufferSize, None))
      ensures biases == Some(DeviceBuffer(biasesBufferSize, None))
      ensures deltaBiases == Some(DeviceBuffer(biasesBufferSize, None))
      ensures momentumBiases == Some(DeviceBuffer(biasesBufferSize, None))
    {
      weights := Some(DeviceBuffer(weightsBufferSize, None));
      deltaWeights := Some(DeviceBuffer(weightsBufferSize, None));
      momentumWeights := Some(DeviceBuffer(weightsBufferSize, None));
      biases := Some(DeviceBuffer(biasesBufferSize, None));
      deltaBiases := Some(DeviceBuffer(biasesBufferSize, None));
      momentumBiases := Some(DeviceBuffer(biasesBufferSize, None));
    }

    /** Writes one draw per weight into the weight buffer, then zeros into the
        delta and momentum weight buffers; the bias buffers are left alone. */
    method FillNnBuffers(weightsBufferSize: nat, biasesBufferSize: nat, draw: nat -> real)
      requires weights.Some? && deltaWeights.Some? && momentumWeights.Some?
      modifies this`weights, this`deltaWeights, this`momentumWeights
      ensures weights == Some(old(weights.value).(contents := Some(Draws(draw, weightsBufferSize / FLOAT_SIZE))))
      ensures deltaWeights == Some(old(deltaWeights.value).(contents := Some(Zeros(weightsBufferSize / FLOAT_SIZE))))
      ensures momentumWeights == Some(old(momentumWeights.value).(contents := Some(Zeros(weightsBufferSize / FLOAT_SIZE))))
    {
      var weightsCount := weightsBufferSize / FLOAT_SIZE;
      var weightsData := new real[weightsCount];

      for i := 0 to weightsCount
        invariant weights == old(weights) && deltaWeights == old(deltaWeights)
        invariant momentumWeights == old(momentumWeights)
        invariant forall k :: 0 <= k < i ==> weightsData[k] == draw(k)
      {
        weightsData[i] := draw(i);
      }
      assert weightsData[..] == Draws(draw, weightsCount);
      weights := Some(weights.value.(contents := Some(weightsData[..])));

      for i := 0 to weightsCount
        invariant weights == old(weights).(value := old(weights.value).(contents := Some(Draws(draw, weightsCount))))
        invariant deltaWeights == old(deltaWeights) && momentumWeights == old(momentumWeights)
        invariant forall k :: 0 <= k < i ==> weightsData[k] == 0.0
      {
        weightsData[i] := 0.0;
      }
      assert weightsData[..] == Zeros(weightsCount);
      deltaWeights := Some(deltaWeights.value.(contents := Some(weightsData[..])));
      momentumWeights := Some(momentumWeights.value.(contents := Some(weightsData[..])));
    }

    /** The hash-grid encoding set-up has an empty body in the source. */
    method InitMrhe()
      ensures unchanged(this)
    {
    }
  }

  /** For a cache with at least one hidden layer and sizes within `size_t`,
      initialisation gives every weight of the network a draw and a zero
      delta and momentum, and sizes the bias buffers to the network's biases. */
  lemma InitialisedNetwork(c: NeuralRadianceCache, draw: nat -> real)
    requires c.NnInitialised(draw)
    requires c.layerCount >= 1
    requires FLOAT_SIZE * WeightsFormula(c.inputFeatureCount, c.layerWidth, c.layerCount) < MachineInts.TWO_TO_THE_64
    requires FLOAT_SIZE * (c.layerCount * c.layerWidth + OUTPUT_WIDTH) < MachineInts.TWO_TO_THE_64
    ensures var n := WeightCount(Widths(c.inputFeatureCount, c.layerWidth, c.layerCount));
      c.weights.value.contents == Some(Draws(draw, n)) &&
      c.deltaWeights.value.contents == Some(Zeros(n)) &&
      c.momentumWeights.value.contents == Some(Zeros(n))
    ensures c.biases.value.size == FLOAT_SIZE * BiasCount(Widths(c.inputFeatureCount, c.layerWidth, c.layerCount))
  {
    SizesMatchNetwork(c.inputFeatureCount, c.layerWidth, c.layerCount);
    WeightsBufferSizeExact(c.inputFeatureCount, c.layerWidth, c.layerCount);
  }
}
