/** The host-side logic of the neural-radiance-cache renderer
    (src/NrcHpmRenderer.cpp): the eight storage buffers that hold the
    network's weights and biases, their sizes and descriptor bindings, the
    upload of a network's linear layers into them, the frame size and the
    command buffer rebuilt on resize. A layer's weights and biases are the
    bytes of their float vectors. */
module NrcHpmRenderers {
  import opened MachineInts
  import opened Buffers
  import opened CommandPools

  const FLOAT_SIZE: nat := 4

  /** The network the buffers are sized for: 5 inputs, three hidden layers
      of 64 and 4 outputs. */
  const LAYER_WIDTHS: seq<nat> := [5, 64, 64, 64, 4]

  /** Slots for the weights and for the biases of this many linear layers. */
  const LINEAR_SLOTS: nat := 4

  /** The byte sizes of the eight buffers: four weight matrices, then four
      bias vectors. */
  const BUFFER_SIZES: seq<nat> := [
    FLOAT_SIZE * 5 * 64, FLOAT_SIZE * 64 * 64, FLOAT_SIZE * 64 * 64, FLOAT_SIZE * 64 * 4,
    FLOAT_SIZE * 64, FLOAT_SIZE * 64, FLOAT_SIZE * 64, FLOAT_SIZE * 4]

  /** Buffer `k` holds the weights between layer widths `k` and `k + 1`;
      buffer `k + 4` holds the biases of layer width `k + 1`. */
  lemma BufferSizesFollowNetwork(k: nat)
    requires k < LINEAR_SLOTS
    ensures |BUFFER_SIZES| == 2 * LINEAR_SLOTS
    ensures BUFFER_SIZES[k] == FLOAT_SIZE * LAYER_WIDTHS[k] * LAYER_WIDTHS[k + 1]
    ensures BUFFER_SIZES[k + LINEAR_SLOTS] == FLOAT_SIZE * LAYER_WIDTHS[k + 1]
  {
  }

  /** What a binding of the network's descriptor set layout holds. */
  datatype Role = Weights(layer: nat) | Biases(layer: nat)

  /** The network descriptor set layout of `Init`, binding by binding. */
  const NN_LAYOUT: seq<Role> := [Weights(0), Weights(1), Weights(2), Weights(3), Biases(0), Biases(1), Biases(2), Biases(3)]

  datatype BufferInfo = BufferInfo(buffer: nat, offset: nat, range: nat)
  datatype DescriptorWrite = DescriptorWrite(dstBinding: nat, info: BufferInfo)

  /** The descriptor writes of `CreateNrcForwardResources`: a buffer info
      per buffer covering it whole, and a write per binding. */
  method DescriptorWrites() returns (writes: seq<DescriptorWrite>)
    ensures |writes| == |BUFFER_SIZES|
    ensures forall i :: 0 <= i < |writes| ==>
      writes[i].dstBinding == i && writes[i].info == BufferInfo(i, 0, BUFFER_SIZES[i])
  {
    var bufferInfos: seq<BufferInfo> := [];
    for i := 0 to |BUFFER_SIZES|
      invariant |bufferInfos| == i
      invariant forall j :: 0 <= j < i ==> bufferInfos[j] == BufferInfo(j, 0, BUFFER_SIZES[j])
    {
      bufferInfos := bufferInfos + [BufferInfo(i, 0, BUFFER_SIZES[i])];
    }
    writes := [];
    for i := 0 to |bufferInfos|
      invariant |writes| == i
      invariant forall j :: 0 <= j < i ==> writes[j] == DescriptorWrite(j, bufferInfos[j])
    {
      writes := writes + [DescriptorWrite(i, bufferInfos[i])];
    }
  }

  /** The buffer `UpdateNnData` fills with a role: weights of the `k`-th
      linear layer go to buffer `k`, its biases to buffer `k + 4`. */
  function UploadTarget(role: Role): nat
  {
    match role
    case Weights(k) => k
    case Biases(k) => k + LINEAR_SLOTS
  }

  /** Each buffer is filled with what the layout declares at the binding
      that refers to it. */
  lemma UploadTargetsMatchLayout(writes: seq<DescriptorWrite>, b: nat)
    requires |writes| == |BUFFER_SIZES|
    requires forall i :: 0 <= i < |writes| ==> writes[i].dstBinding == i && writes[i].info.buffer == i
    requires b < |writes|
    ensures UploadTarget(NN_LAYOUT[writes[b].dstBinding]) == writes[b].info.buffer
  {
  }

  /** A layer of the network: a linear layer with the bytes of its weights
      and biases, or any other kind. */
  datatype Layer = Linear(weights: seq<byte>, biases: seq<byte>) | Other

  /** The linear layers, in order. */
  function Linears(layers: seq<Layer>): (lin: seq<Layer>)
    ensures |lin| <= |layers|
    ensures forall k :: 0 <= k < |lin| ==> lin[k].Linear?
  {
    if |layers| == 0 then []
    else Linears(layers[..|layers| - 1]) + (if layers[|layers| - 1].Linear? then [layers[|layers| - 1]] else [])
  }

  lemma {:induction false} LinearsAppend(a: seq<Layer>, b: seq<Layer>)
    ensures Linears(a + b) == Linears(a) + Linears(b)
    decreases |b|
  {
    if |b| == 0 {
      assert a + b == a;
    } else {
      assert (a + b)[..|a + b| - 1] == a + b[..|b| - 1];
      LinearsAppend(a, b[..|b| - 1]);
    }
  }

  /** At most the first four linear layers. */
  function FirstSlots(lin: seq<Layer>): (r: seq<Layer>)
    ensures |r| <= LINEAR_SLOTS && |r| <= |lin|
    ensures r == lin[..|r|]
    ensures |r| == |lin| || |r| == LINEAR_SLOTS
  {
    if |lin| <= LINEAR_SLOTS then lin else lin[..LINEAR_SLOTS]
  }

  /** How many bytes an upload copies from a float vector's bytes: the
      element count as the source passes it, or the byte count. */
  datatype CopyCount = ElementCount | ByteCount

  function CopySize(data: seq<byte>, count: CopyCount): (size: nat)
    ensures size <= |data|
    ensures count == ByteCount ==> size == |data|
  {
    if count == ElementCount then |data| / FLOAT_SIZE else |data|
  }

  function Memories(buffers: seq<Buffer>): (ms: seq<seq<byte>>)
    reads buffers
    ensures |ms| == |buffers| && forall k :: 0 <= k < |buffers| ==> ms[k] == buffers[k].memory
  {
    seq(|buffers|, k reads buffers requires 0 <= k < |buffers| => buffers[k].memory)
  }

  /** Every upload of the first linear layers fits its buffer. */
  predicate Fits(before: seq<seq<byte>>, lin: seq<Layer>, count: CopyCount)
  {
    |before| == 2 * LINEAR_SLOTS && |lin| <= LINEAR_SLOTS
    && forall k :: 0 <= k < |lin| ==>
      lin[k].Linear?
      && CopySize(lin[k].weights, count) <= |before[k]|
      && CopySize(lin[k].biases, count) <= |before[k + LINEAR_SLOTS]|
  }

  /** Slot `k` after uploading `lin`: for a present layer, buffer `k`
      holds its copied weights and buffer `k + 4` its copied biases; the
      buffers of an absent layer are untouched. */
  predicate SlotUploaded(after: seq<seq<byte>>, before: seq<seq<byte>>, lin: seq<Layer>, count: CopyCount, k: nat)
    requires Fits(before, lin, count) && |after| == 2 * LINEAR_SLOTS && k < LINEAR_SLOTS
  {
    if k < |lin| then
      after[k] == Written(before[k], 0, lin[k].weights, CopySize(lin[k].weights, count))
      && after[k + LINEAR_SLOTS] == Written(before[k + LINEAR_SLOTS], 0, lin[k].biases, CopySize(lin[k].biases, count))
    else
      after[k] == before[k] && after[k + LINEAR_SLOTS] == before[k + LINEAR_SLOTS]
  }

  /** Memories after uploading `lin`, slot by slot. */
  predicate Uploaded(after: seq<seq<byte>>, before: seq<seq<byte>>, lin: seq<Layer>, count: CopyCount)
    requires Fits(before, lin, count)
  {
    |after| == 2 * LINEAR_SLOTS
    && forall k :: 0 <= k < LINEAR_SLOTS ==> SlotUploaded(after, before, lin, count, k)
  }

  /** Distinct buffer objects in every slot. */
  predicate Distinct(buffers: seq<Buffer>)
  {
    forall i, j :: 0 <= i < |buffers| && 0 <= j < |buffers| && i != j ==> buffers[i] != buffers[j]
  }

  /** The loop of `UpdateNnData`: layers in order, non-linear ones skipped,
      until four linear layers have been uploaded. */
  method UploadLinearLayers(buffers: seq<Buffer>, layers: seq<Layer>, count: CopyCount)
    requires |buffers| == 2 * LINEAR_SLOTS && Distinct(buffers)
    requires Fits(Memories(buffers), FirstSlots(Linears(layers)), count)
    modifies buffers
    ensures Uploaded(Memories(buffers), old(Memories(buffers)), FirstSlots(Linears(layers)), count)
  {
    ghost var before := Memories(buffers);
    ghost var lin: seq<Layer> := [];
    var linearLayerIndex := 0;
    var i := 0;
    while i < |layers| && linearLayerIndex < LINEAR_SLOTS
      invariant i <= |layers|
      invariant lin == Linears(layers[..i])
      invariant linearLayerIndex == |lin| <= LINEAR_SLOTS
      invariant Fits(before, lin, count)
      invariant Uploaded(Memories(buffers), before, lin, count)
    {
      linearLayerIndex, lin := VisitLayer(buffers, layers, i, linearLayerIndex, count, before, lin);
      i := i + 1;
    }
    LoopExit(layers, i, lin);
  }

  /** The loop stops at the end of the layers or after four linear ones;
      either way it has visited the first linear layers, at most four. */
  lemma LoopExit(layers: seq<Layer>, i: nat, lin: seq<Layer>)
    requires i <= |layers| && lin == Linears(layers[..i]) && |lin| <= LINEAR_SLOTS
    requires i == |layers| || |lin| == LINEAR_SLOTS
    ensures lin == FirstSlots(Linears(layers))
  {
    LinearsPrefix(layers, i);
    if i == |layers| {
      assert layers[..i] == layers;
    }
  }

  /** The loop body for layer `i`: a linear layer is uploaded into the
      next free slots; any other layer is skipped. */
  method VisitLayer(buffers: seq<Buffer>, layers: seq<Layer>, i: nat, linearLayerIndex: nat, count: CopyCount,
                    ghost before: seq<seq<byte>>, ghost lin: seq<Layer>)
    returns (linearLayerIndex': nat, ghost lin': seq<Layer>)
    requires |buffers| == 2 * LINEAR_SLOTS && Distinct(buffers)
    requires i < |layers| && lin == Linears(layers[..i]) && linearLayerIndex == |lin| < LINEAR_SLOTS
    requires Fits(before, FirstSlots(Linears(layers)), count)
    requires Fits(before, lin, count) && Uploaded(Memories(buffers), before, lin, count)
    modifies buffers
    ensures lin' == Linears(layers[..i + 1]) && linearLayerIndex' == |lin'| <= LINEAR_SLOTS
    ensures Fits(before, lin', count) && Uploaded(Memories(buffers), before, lin', count)
  {
    NextLayer(layers, i, before, lin, count);
    linearLayerIndex' := linearLayerIndex;
    lin' := lin;
    if layers[i].Linear? {
      var weights := layers[i].weights;
      var biases := layers[i].biases;
      UploadSlots(buffers, linearLayerIndex, weights, biases, count, before, lin);
      lin' := lin + [Linear(weights, biases)];
      linearLayerIndex' := linearLayerIndex + 1;
    }
  }

  /** Moving past layer `i` extends the linear layers by it if it is
      linear, and the extended list still fits. */
  lemma NextLayer(layers: seq<Layer>, i: nat, before: seq<seq<byte>>, lin: seq<Layer>, count: CopyCount)
    requires i < |layers| && lin == Linears(layers[..i]) && |lin| < LINEAR_SLOTS
    requires Fits(before, FirstSlots(Linears(layers)), count)
    ensures layers[i].Linear? ==>
      Linears(layers[..i + 1]) == lin + [layers[i]] && Fits(before, lin + [layers[i]], count)
    ensures !layers[i].Linear? ==> Linears(layers[..i + 1]) == lin
  {
    LinearsStep(layers, i);
    if layers[i].Linear? {
      ExtendedStillFits(layers, i, before, lin, count);
    }
  }

  lemma ExtendedStillFits(layers: seq<Layer>, i: nat, before: seq<seq<byte>>, lin: seq<Layer>, count: CopyCount)
    requires i < |layers| && layers[i].Linear? && |lin| < LINEAR_SLOTS
    requires Linears(layers[..i + 1]) == lin + [layers[i]]
    requires Fits(before, FirstSlots(Linears(layers)), count)
    ensures Fits(before, lin + [layers[i]], count)
  {
    var all, ext := Linears(layers), lin + [layers[i]];
    LinearsPrefix(layers, i + 1);
    assert ext == all[..|ext|];
    var first := FirstSlots(all);
    assert first[..|ext|] == ext;
    FitsPrefix(before, first, |ext|, count);
  }

  /** One more layer extends the linear layers by it if it is linear. */
  lemma LinearsStep(layers: seq<Layer>, i: nat)
    requires i < |layers|
    ensures Linears(layers[..i + 1]) == Linears(layers[..i]) + (if layers[i].Linear? then [layers[i]] else [])
  {
    assert layers[..i + 1][..i] == layers[..i];
  }

  /** The linear layers of a prefix are a prefix of the linear layers. */
  lemma LinearsPrefix(layers: seq<Layer>, i: nat)
    requires i <= |layers|
    ensures |Linears(layers[..i])| <= |Linears(layers)|
    ensures Linears(layers[..i]) == Linears(layers)[..|Linears(layers[..i])|]
  {
    assert layers == layers[..i] + layers[i..];
    LinearsAppend(layers[..i], layers[i..]);
  }

  lemma FitsPrefix(before: seq<seq<byte>>, lin: seq<Layer>, n: nat, count: CopyCount)
    requires Fits(before, lin, count) && n <= |lin|
    ensures Fits(before, lin[..n], count)
  {
  }

  /** The body of the loop for the `k`-th linear layer: its weights go to
      buffer `k`, its biases to buffer `k + 4`. */
  method UploadSlots(buffers: seq<Buffer>, k: nat, weights: seq<byte>, biases: seq<byte>, count: CopyCount,
                     ghost before: seq<seq<byte>>, ghost lin: seq<Layer>)
    requires |buffers| == 2 * LINEAR_SLOTS && Distinct(buffers)
    requires k == |lin| < LINEAR_SLOTS
    requires Fits(before, lin + [Linear(weights, biases)], count)
    requires Fits(before, lin, count) && Uploaded(Memories(buffers), before, lin, count)
    modifies buffers
    ensures Uploaded(Memories(buffers), before, lin + [Linear(weights, biases)], count)
  {
    ghost var mid := Memories(buffers);
    var lin' := lin + [Linear(weights, biases)];
    assert SlotUploaded(mid, before, lin, count, k);
    buffers[k].SetData(CopySize(weights, count), weights, 0);
    buffers[k + LINEAR_SLOTS].SetData(CopySize(biases, count), biases, 0);
    forall j | 0 <= j < LINEAR_SLOTS
      ensures SlotUploaded(Memories(buffers), before, lin', count, j)
    {
      assert SlotUploaded(mid, before, lin, count, j);
      if j < k {
        assert lin'[j] == lin[j];
      }
    }
  }

  /** The as-written upload passes the element count where `SetData` wants
      a byte count: a weight vector of `n` floats (`4n` bytes) loses all
      but its first `n` bytes, the first quarter. */
  lemma QuarterWritten(memory: seq<byte>, data: seq<byte>)
    requires |data| % FLOAT_SIZE == 0 && |data| <= |memory|
    ensures var after := Written(memory, 0, data, CopySize(data, ElementCount));
      after[..|data| / FLOAT_SIZE] == data[..|data| / FLOAT_SIZE]
      && after[|data| / FLOAT_SIZE..|data|] == memory[|data| / FLOAT_SIZE..|data|]
  {
  }

  /** A zeroed 8-byte buffer and two floats' worth of ones: only the first
      two bytes arrive. */
  lemma QuarterWrittenExample()
    ensures Written([0, 0, 0, 0, 0, 0, 0, 0], 0, [1, 1, 1, 1, 1, 1, 1, 1], CopySize([1, 1, 1, 1, 1, 1, 1, 1], ElementCount))
      == [1, 1, 0, 0, 0, 0, 0, 0]
  {
    var after := Written([0, 0, 0, 0, 0, 0, 0, 0], 0, [1, 1, 1, 1, 1, 1, 1, 1], 2);
    assert after == [1, 1, 0, 0, 0, 0, 0, 0];
  }

  /** With the byte count, an uploaded vector arrives whole. */
  lemma WholeWritten(memory: seq<byte>, data: seq<byte>)
    requires |data| <= |memory|
    ensures Written(memory, 0, data, CopySize(data, ByteCount))[..|data|] == data
  {
    ReadAfterWrite(memory, 0, data, |data|);
  }

  /** After an upload with byte counts, every buffer of a present layer
      starts with that layer's bytes in full. */
  lemma UploadedWhole(after: seq<seq<byte>>, before: seq<seq<byte>>, lin: seq<Layer>, k: nat)
    requires Fits(before, lin, ByteCount) && Uploaded(after, before, lin, ByteCount)
    requires k < |lin|
    ensures |lin[k].weights| <= |after[k]| && after[k][..|lin[k].weights|] == lin[k].weights
    ensures |lin[k].biases| <= |after[k + LINEAR_SLOTS]| && after[k + LINEAR_SLOTS][..|lin[k].biases|] == lin[k].biases
  {
    assert SlotUploaded(after, before, lin, ByteCount, k);
    WholeWritten(before[k], lin[k].weights);
    WholeWritten(before[k + LINEAR_SLOTS], lin[k].biases);
  }

  class NrcHpmRenderer {
    var frameWidth: nat
    var frameHeight: nat
    const nnBuffers: seq<Buffer>
    const writes: seq<DescriptorWrite>
    const pool: CommandPool
    var commandBuffer: CommandBuffer

    predicate Valid()
      reads this, pool
    {
      |nnBuffers| == 2 * LINEAR_SLOTS && Distinct(nnBuffers)
      && pool.buffers == [commandBuffer]
      && frameWidth < TWO_TO_THE_32 && frameHeight < TWO_TO_THE_32
    }

    /** The constructor's bookkeeping: the frame size, the eight network
        buffers of `BUFFER_SIZES` bytes (zeroed here; their initial bytes
        are unspecified) with their descriptor writes, and one command
        buffer. */
    constructor(width: nat, height: nat, handle: CommandBuffer)
      requires width < TWO_TO_THE_32 && height < TWO_TO_THE_32
      ensures frameWidth == width && frameHeight == height
      ensures |nnBuffers| == |BUFFER_SIZES|
      ensures forall i :: 0 <= i < |nnBuffers| ==> fresh(nnBuffers[i]) && |nnBuffers[i].memory| == BUFFER_SIZES[i]
      ensures |writes| == |nnBuffers| && forall i :: 0 <= i < |writes| ==> writes[i].dstBinding == i
      ensures forall i :: 0 <= i < |writes| ==> writes[i].info.range == |nnBuffers[i].memory|
      ensures commandBuffer == handle && Valid()
    {
      frameWidth := width;
      frameHeight := height;
      var buffers: seq<Buffer> := [];
      for i := 0 to |BUFFER_SIZES|
        invariant |buffers| == i && Distinct(buffers)
        invariant forall j :: 0 <= j < i ==> fresh(buffers[j]) && |buffers[j].memory| == BUFFER_SIZES[j]
      {
        var b := new Buffer(BUFFER_SIZES[i], [], seq(BUFFER_SIZES[i], _ => 0));
        buffers := buffers + [b];
      }
      nnBuffers := buffers;
      var descriptorWrites := DescriptorWrites();
      writes := descriptorWrites;
      pool := new CommandPool();
      new;
      pool.AllocateBuffers(1, [handle]);
      commandBuffer := pool.GetBuffer(0);
    }

    /** `ResizeFrame`: stores the new size and allocates a fresh command
        buffer. */
    method ResizeFrame(width: nat, height: nat, handle: CommandBuffer)
      requires Valid() && width < TWO_TO_THE_32 && height < TWO_TO_THE_32
      modifies this, pool
      ensures frameWidth == width && frameHeight == height
      ensures commandBuffer == handle && Valid()
    {
      frameWidth := width;
      frameHeight := height;
      var _ := pool.FreeBuffers();
      pool.AllocateBuffers(1, [handle]);
      commandBuffer := pool.GetBuffer(0);
    }

    /** `GetImageDataSize`: four bytes per pixel, computed in `uint32_t`
        arithmetic. */
    function GetImageDataSize(): (size: nat)
      reads this
      ensures size < TWO_TO_THE_32
      ensures FLOAT_SIZE * frameWidth * frameHeight < TWO_TO_THE_32 ==> size == 4 * frameWidth * frameHeight
    {
      Wrap32(Wrap32(frameWidth * frameHeight) * 4)
    }

    /** `UpdateNnData` as written: the element count of each vector is
        passed as the byte count, so only its first quarter arrives. */
    method UpdateNnData(layers: seq<Layer>)
      requires Valid()
      requires Fits(Memories(nnBuffers), FirstSlots(Linears(layers)), ElementCount)
      modifies nnBuffers
      ensures Uploaded(Memories(nnBuffers), old(Memories(nnBuffers)), FirstSlots(Linears(layers)), ElementCount)
    {
      UploadLinearLayers(nnBuffers, layers, ElementCount);
    }

    /** `UpdateNnData` with the byte count `sizeof(float) * size()`: every
        uploaded vector arrives whole. */
    method UpdateNnDataIntended(layers: seq<Layer>)
      requires Valid()
      requires Fits(Memories(nnBuffers), FirstSlots(Linears(layers)), ByteCount)
      modifies nnBuffers
      ensures Uploaded(Memories(nnBuffers), old(Memories(nnBuffers)), FirstSlots(Linears(layers)), ByteCount)
    {
      UploadLinearLayers(nnBuffers, layers, ByteCount);
    }
  }

  /** With 32768 x 32768 pixels the size is 4 * 2^30 = 2^32, which wraps
      to 0 in `uint32_t`. */
  lemma ImageDataSizeWraps(r: NrcHpmRenderer)
    requires r.frameWidth == 32768 && r.frameHeight == 32768
    ensures r.GetImageDataSize() == 0
  {
  }
}
