/** A dense host-side tensor (src/Tensor.cpp): its shape, element count,
    byte size and host data, element-wise addition, and linear indexing.
    Floats are modelled as reals; the device buffer is not modelled. */
module Tensors {
  import opened Wrappers
  import opened MachineInts
  import TexelOffsets

  const EMPTY_SHAPE := "Tensor should have at least 1 dimension"
  const ZERO_SIZE := "Tensor memory size should not be 0"
  const SHAPE_MISMATCH := "Tensor addition requires equal shape"
  const TOO_MANY_INDICES := "Too many indices for linear index"
  const TOO_FEW_INDICES := "Cant handle this index input yet"

  /** The product of all dimensions, with unbounded integers. */
  function Product(shape: seq<nat>): nat
    decreases |shape|
  {
    if |shape| == 0 then 1 else Product(shape[..|shape| - 1]) * shape[|shape| - 1]
  }

  /** The element count as the constructor's `size_t` loop computes it. */
  function ElementCount(shape: seq<nat>): (count: nat)
    ensures count < TWO_TO_THE_64
    ensures Product(shape) < TWO_TO_THE_64 ==> count == Product(shape)
  {
    Wrap64(Product(shape))
  }

  /** The byte size: the element count times `sizeof(float)`, in `size_t`. */
  function MemorySize(shape: seq<nat>): (size: nat)
    ensures size < TWO_TO_THE_64
    ensures Product(shape) * 4 < TWO_TO_THE_64 ==> size == 4 * Product(shape)
  {
    Wrap64(ElementCount(shape) * 4)
  }

  /** A shape the constructor accepts. */
  predicate ValidShape(shape: seq<nat>)
  {
    |shape| > 0 && MemorySize(shape) != 0
  }

  /** Multiplying by a multiple of the modulus does not change a residue. */
  lemma {:induction false} ModAddMultiple(x: nat, y: nat)
    ensures (x * TWO_TO_THE_64 + y) % TWO_TO_THE_64 == y % TWO_TO_THE_64
  {
    if x > 0 {
      ModAddMultiple(x - 1, y);
      assert x * TWO_TO_THE_64 + y == ((x - 1) * TWO_TO_THE_64 + y) + TWO_TO_THE_64;
    }
  }

  /** Reducing a factor before multiplying gives the same `size_t` product. */
  lemma WrapMul(a: nat, b: nat)
    ensures Wrap64(Wrap64(a) * b) == Wrap64(a * b)
  {
    var q, r := a / TWO_TO_THE_64, a % TWO_TO_THE_64;
    assert a * b == (q * b) * TWO_TO_THE_64 + r * b;
    ModAddMultiple(q * b, r * b);
  }

  /** The product of the dimensions is zero exactly when some dimension is. */
  lemma {:induction false} ProductZeroIff(shape: seq<nat>)
    ensures Product(shape) == 0 <==> exists d :: 0 <= d < |shape| && shape[d] == 0
    decreases |shape|
  {
    if |shape| > 0 {
      var init, last := shape[..|shape| - 1], shape[|shape| - 1];
      ProductZeroIff(init);
      MulZeroIff(Product(init), last);
      if exists d :: 0 <= d < |init| && init[d] == 0 {
        var d :| 0 <= d < |init| && init[d] == 0;
        assert shape[d] == 0;
      }
      if exists d :: 0 <= d < |shape| && shape[d] == 0 {
        var d :| 0 <= d < |shape| && shape[d] == 0;
        assert d < |init| ==> init[d] == 0;
      }
    }
  }

  lemma MulZeroIff(x: nat, y: nat)
    ensures x * y == 0 <==> x == 0 || y == 0
  {
    if x > 0 && y > 0 {
      assert x * y >= y;
    }
  }

  /** Without overflow the byte size is zero exactly when some dimension
      is. */
  lemma ZeroSizeIffZeroDim(shape: seq<nat>)
    requires Product(shape) * 4 < TWO_TO_THE_64
    ensures MemorySize(shape) == 0 <==> exists d :: 0 <= d < |shape| && shape[d] == 0
  {
    ProductZeroIff(shape);
  }

  /** The row-major linear index `sum of indices[i] * (product of the
      dimensions after i)`. */
  function LinearIndex(indices: seq<nat>, shape: seq<nat>): nat
    requires |indices| == |shape|
    decreases |shape|
  {
    if |shape| == 0 then 0
    else indices[0] * Product(shape[1..]) + LinearIndex(indices[1..], shape[1..])
  }

  lemma {:induction false} ProductCons(shape: seq<nat>)
    requires |shape| > 0
    ensures Product(shape) == shape[0] * Product(shape[1..])
    decreases |shape|
  {
    if |shape| > 1 {
      var init := shape[..|shape| - 1];
      ProductCons(init);
      assert init[1..] == shape[1..][..|shape[1..]| - 1];
      assert init[0] == shape[0];
    } else {
      assert shape[..0] == [] && shape[1..] == [];
    }
  }

  /** In-range indices address an element inside the tensor. */
  lemma {:induction false} LinearIndexInRange(indices: seq<nat>, shape: seq<nat>)
    requires |indices| == |shape|
    requires forall i :: 0 <= i < |shape| ==> indices[i] < shape[i]
    ensures LinearIndex(indices, shape) < Product(shape)
    decreases |shape|
  {
    if |shape| > 0 {
      var rest := Product(shape[1..]);
      TailInRange(indices, shape);
      var low := LinearIndex(indices[1..], shape[1..]);
      LinearIndexInRange(indices[1..], shape[1..]);
      ProductCons(shape);
      LeadingDigitBound(indices[0], rest, low, shape[0]);
    }
  }

  /** Distinct in-range index tuples address distinct elements. */
  lemma {:induction false} LinearIndexInjective(a: seq<nat>, b: seq<nat>, shape: seq<nat>)
    requires |a| == |shape| && |b| == |shape|
    requires forall i :: 0 <= i < |shape| ==> a[i] < shape[i] && b[i] < shape[i]
    requires LinearIndex(a, shape) == LinearIndex(b, shape)
    ensures a == b
    decreases |shape|
  {
    if |shape| > 0 {
      var rest := Product(shape[1..]);
      TailInRange(a, shape);
      TailInRange(b, shape);
      var lowA, lowB := LinearIndex(a[1..], shape[1..]), LinearIndex(b[1..], shape[1..]);
      LinearIndexInRange(a[1..], shape[1..]);
      LinearIndexInRange(b[1..], shape[1..]);
      LeadingDigitUnique(a[0], b[0], rest, lowA, lowB);
      LinearIndexInjective(a[1..], b[1..], shape[1..]);
      assert a == [a[0]] + a[1..] && b == [b[0]] + b[1..];
    }
  }

  lemma LeadingDigitBound(x: nat, rest: nat, low: nat, dim: nat)
    requires x < dim && low < rest
    ensures x * rest + low < dim * rest
  {
    TexelOffsets.DigitBound(rest, dim, low, x);
  }

  lemma LeadingDigitUnique(x: nat, y: nat, rest: nat, low: nat, low': nat)
    requires low < rest && low' < rest && x * rest + low == y * rest + low'
    ensures x == y && low == low'
  {
    TexelOffsets.DigitUnique(rest, low, x, low', y);
  }

  lemma TailInRange(indices: seq<nat>, shape: seq<nat>)
    requires |indices| == |shape| > 0
    requires forall i :: 0 <= i < |shape| ==> indices[i] < shape[i]
    ensures forall i :: 0 <= i < |shape[1..]| ==> indices[1..][i] < shape[1..][i]
  {
    forall i | 0 <= i < |shape[1..]| ensures indices[1..][i] < shape[1..][i] {
      assert indices[1..][i] == indices[i + 1] && shape[1..][i] == shape[i + 1];
    }
  }

  /** The element count loop of the constructor. */
  method CountElements(shape: seq<nat>) returns (floatCount: nat)
    ensures floatCount == ElementCount(shape)
  {
    floatCount := 1;
    for k := 0 to |shape|
      invariant floatCount == ElementCount(shape[..k])
    {
      WrapMul(Product(shape[..k]), shape[k]);
      assert shape[..k + 1][..k] == shape[..k];
      floatCount := Wrap64(floatCount * shape[k]);
    }
    assert shape[..|shape|] == shape;
  }

  class Tensor {
    var shape: seq<nat>
    var floatCount: nat
    var memorySize: nat
    var hostData: array<real>

    predicate Valid()
      reads this
    {
      ValidShape(shape) && floatCount == ElementCount(shape) && memorySize == MemorySize(shape)
      && hostData.Length == floatCount
    }

    /** The constructor once its checks passed: every element holds
        `defaultVal`. */
    constructor Filled(shape: seq<nat>, floatCount: nat, defaultVal: real)
      requires ValidShape(shape) && floatCount == ElementCount(shape)
      ensures Valid() && this.shape == shape && fresh(hostData)
      ensures forall i :: 0 <= i < hostData.Length ==> hostData[i] == defaultVal
    {
      this.shape := shape;
      this.floatCount := floatCount;
      memorySize := Wrap64(floatCount * 4);
      var data := new real[floatCount];
      for i := 0 to floatCount
        invariant forall i' :: 0 <= i' < i ==> data[i'] == defaultVal
      {
        data[i] := defaultVal;
      }
      hostData := data;
    }

    /** `GetValue`: an unchecked read of the host data. */
    function GetValue(linearIndex: nat): (v: real)
      reads this, hostData
      requires linearIndex < hostData.Length
      ensures v == hostData[..][linearIndex]
    {
      hostData[linearIndex]
    }

    /** `SetValue`: an in-range index changes that element only; an index
        past the end changes nothing. */
    method SetValue(linearIndex: nat, value: real)
      requires Valid()
      modifies hostData
      ensures linearIndex < floatCount ==> hostData[..] == old(hostData[..])[linearIndex := value]
      ensures linearIndex < floatCount ==> GetValue(linearIndex) == value
      ensures linearIndex >= floatCount ==> hostData[..] == old(hostData[..])
    {
      if linearIndex < floatCount {
        hostData[linearIndex] := value;
      }
    }

    /** `operator+`: tensors of different shapes are an error; otherwise a
        new tensor of the same shape holding the element-wise sums. */
    method Add(other: Tensor) returns (r: Outcome<Tensor>)
      requires Valid() && other.Valid()
      ensures r.Err? <==> shape != other.shape
      ensures r.Err? ==> r.msg == SHAPE_MISMATCH
      ensures r.Ok? ==>
        fresh(r.value) && fresh(r.value.hostData) && r.value.Valid() && r.value.shape == shape
        && forall i :: 0 <= i < floatCount ==> r.value.hostData[i] == hostData[i] + other.hostData[i]
    {
      if shape != other.shape {
        return Err(SHAPE_MISMATCH);
      }
      var result := new Tensor.Filled(shape, floatCount, 0.0);
      for i := 0 to floatCount
        invariant result.Valid() && result.shape == shape && fresh(result.hostData)
        invariant forall i' :: 0 <= i' < i ==> result.hostData[i'] == hostData[i'] + other.hostData[i']
      {
        result.SetValue(i, GetValue(i) + other.GetValue(i));
      }
      return Ok(result);
    }

    /** `GetLinearIndex` with the index-count checks and the loop as it is
        evidently intended: from the last dimension to the first, adding
        each index times the product of the dimensions after it. */
    method GetLinearIndex(indices: seq<nat>) returns (r: Outcome<nat>)
      requires Valid()
      ensures r.Err? <==> |indices| != |shape|
      ensures |indices| > |shape| ==> r == Err(TOO_MANY_INDICES)
      ensures |indices| < |shape| ==> r == Err(TOO_FEW_INDICES)
      ensures r.Ok? ==> r.value == LinearIndex(indices, shape)
    {
      if |indices| > |shape| {
        return Err(TOO_MANY_INDICES);
      } else if |indices| < |shape| {
        return Err(TOO_FEW_INDICES);
      }
      var index := 0;
      var dimProduct := 1;
      var i := |shape|;
      while i > 0
        invariant 0 <= i <= |shape|
        invariant index == LinearIndex(indices[i..], shape[i..])
        invariant dimProduct == Product(shape[i..])
      {
        i := i - 1;
        assert indices[i..][1..] == indices[i + 1..] && shape[i..][1..] == shape[i + 1..];
        ProductCons(shape[i..]);
        index := index + indices[i] * dimProduct;
        dimProduct := dimProduct * shape[i];
      }
      assert indices[0..] == indices && shape[0..] == shape;
      return Ok(index);
    }
  }

  /** The constructor: an empty shape and a zero byte size are errors;
      otherwise a tensor of that shape filled with `defaultVal`. */
  method NewTensor(shape: seq<nat>, defaultVal: real) returns (r: Outcome<Tensor>)
    ensures r.Err? <==> !ValidShape(shape)
    ensures |shape| == 0 ==> r == Err(EMPTY_SHAPE)
    ensures |shape| > 0 && r.Err? ==> r.msg == ZERO_SIZE
    ensures r.Ok? ==>
      fresh(r.value) && r.value.Valid() && r.value.shape == shape
      && r.value.hostData.Length == ElementCount(shape)
      && forall i :: 0 <= i < r.value.hostData.Length ==> r.value.hostData[i] == defaultVal
  {
    if |shape| == 0 {
      return Err(EMPTY_SHAPE);
    }
    var floatCount := CountElements(shape);
    var memorySize := Wrap64(floatCount * 4);
    if memorySize == 0 {
      return Err(ZERO_SIZE);
    }
    var t := new Tensor.Filled(shape, floatCount, defaultVal);
    return Ok(t);
  }

  // ---------------------------------------------------------------------------
  // The loop of GetLinearIndex as written
  // ---------------------------------------------------------------------------

  /** The loop condition `i >= 0` on the `size_t` counter. */
  predicate LoopContinues(i: nat)
  {
    i >= 0
  }

  /** `i--` on a `size_t`. */
  function Decrement(i: nat): (next: nat)
    requires i < TWO_TO_THE_64
    ensures next < TWO_TO_THE_64
    ensures i > 0 ==> next == i - 1
  {
    Wrap64(i - 1)
  }

  /** The counter after `steps` executions of `i--` from `start`. */
  function CounterAfter(start: nat, steps: nat): (i: nat)
    requires start < TWO_TO_THE_64
    ensures i < TWO_TO_THE_64
  {
    if steps == 0 then start else Decrement(CounterAfter(start, steps - 1))
  }

  lemma {:induction false} CounterCountsDown(start: nat, steps: nat)
    requires start < TWO_TO_THE_64 && steps <= start
    ensures CounterAfter(start, steps) == start - steps
  {
    if steps > 0 {
      CounterCountsDown(start, steps - 1);
    }
  }

  /** As written, the loop starts at `indices.size() - 1` on a `size_t` and
      counts down through every index of the vector, but the condition
      `i >= 0` still holds after the step at `i = 0`: the counter wraps to
      `SIZE_MAX`, and that next iteration indexes past the end of the index
      vector. An empty vector starts there at once. */
  lemma LinearIndexLoopNeverExits(indices: seq<nat>)
    requires |indices| < TWO_TO_THE_64
    ensures forall k: nat :: k < |indices| ==> CounterAfter(Decrement(|indices|), k) == |indices| - 1 - k
    ensures var last := CounterAfter(Decrement(|indices|), |indices|);
      LoopContinues(last) && last == TWO_TO_THE_64 - 1 && last >= |indices|
  {
    var n := |indices|;
    var start := Decrement(n);
    forall k: nat | k < n
      ensures CounterAfter(start, k) == n - 1 - k
    {
      CounterCountsDown(start, k);
    }
    if n > 0 {
      CounterCountsDown(start, n - 1);
      assert CounterAfter(start, n) == Decrement(0);
    }
  }
}
