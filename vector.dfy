/** A host-side vector of floats (src/Vector.cpp): bounds-checked element
    access, element-wise addition (new and in place) and the dot product.
    Floats are modelled as reals, so the sums and products are exact. */
module Vectors {
  import opened Wrappers
  import opened MachineInts

  const DIMENSION_MISMATCH := "Vector addition requires equal dimension"
  const DOT_DIMENSION_MISMATCH := "Vector dot product requires equal dimension"
  const INDEX_OUT_OF_RANGE := "Index must be lower than vector dimension"

  /** Element-wise sum of two sequences of equal length. */
  function Sum(a: seq<real>, b: seq<real>): (s: seq<real>)
    requires |a| == |b|
    ensures |s| == |a|
    ensures forall i :: 0 <= i < |a| ==> s[i] == a[i] + b[i]
  {
    seq(|a|, i requires 0 <= i < |a| => a[i] + b[i])
  }

  /** The dot product, accumulated from the first element to the last. */
  function Dot(a: seq<real>, b: seq<real>): real
    requires |a| == |b|
    decreases |a|
  {
    if |a| == 0 then 0.0 else Dot(a[..|a| - 1], b[..|b| - 1]) + a[|a| - 1] * b[|b| - 1]
  }

  /** The dot product does not depend on the order of its operands. */
  lemma {:induction false} DotSymmetric(a: seq<real>, b: seq<real>)
    requires |a| == |b|
    ensures Dot(a, b) == Dot(b, a)
    decreases |a|
  {
    if |a| > 0 {
      DotSymmetric(a[..|a| - 1], b[..|b| - 1]);
    }
  }

  /** The dot product distributes over the element-wise sum. */
  lemma {:induction false} DotDistributes(a: seq<real>, b: seq<real>, c: seq<real>)
    requires |a| == |b| == |c|
    ensures Dot(Sum(a, b), c) == Dot(a, c) + Dot(b, c)
    decreases |a|
  {
    if |a| > 0 {
      var n := |a| - 1;
      assert Sum(a, b)[..n] == Sum(a[..n], b[..n]);
      DotDistributes(a[..n], b[..n], c[..n]);
    }
  }

  class Vector {
    var dimension: nat
    var memorySize: nat
    var hostMemory: array<real>

    predicate Valid()
      reads this
    {
      hostMemory.Length == dimension && memorySize == Wrap64(dimension * 4)
    }

    /** The constructor: the byte size is `dimension * sizeof(float)` in
        `size_t`. The host array's initial contents are unspecified; here
        they are zero. */
    constructor(dimension: nat)
      ensures Valid() && this.dimension == dimension && fresh(hostMemory)
    {
      this.dimension := dimension;
      memorySize := Wrap64(dimension * 4);
      hostMemory := new real[dimension];
    }

    function GetDimension(): (d: nat)
      reads this
      ensures d == dimension
    {
      dimension
    }

    /** `GetMemorySize`: four bytes per element, as a `size_t`. */
    function GetMemorySize(): (size: nat)
      reads this
      requires Valid()
      ensures size < TWO_TO_THE_64
      ensures dimension * 4 < TWO_TO_THE_64 ==> size == 4 * dimension
    {
      memorySize
    }

    /** `GetValue`: an index at or past the dimension is an error. */
    function GetValue(index: nat): (r: Outcome<real>)
      reads this, hostMemory
      requires Valid()
      ensures r.Err? <==> index >= dimension
      ensures r.Err? ==> r.msg == INDEX_OUT_OF_RANGE
      ensures r.Ok? ==> r.value == hostMemory[index]
    {
      if index >= dimension then Err(INDEX_OUT_OF_RANGE) else Ok(hostMemory[index])
    }

    /** `SetValue`: an index at or past the dimension is an error; otherwise
        only that element changes. */
    method SetValue(index: nat, value: real) returns (r: Outcome<()>)
      requires Valid()
      modifies hostMemory
      ensures r.Err? <==> index >= dimension
      ensures r.Err? ==> r.msg == INDEX_OUT_OF_RANGE && hostMemory[..] == old(hostMemory[..])
      ensures r.Ok? ==> hostMemory[..] == old(hostMemory[..])[index := value]
    {
      if index >= dimension {
        return Err(INDEX_OUT_OF_RANGE);
      }
      hostMemory[index] := value;
      r := Ok(());
    }

    /** `operator+`: vectors of different dimensions are an error; otherwise
        a new vector holding the element-wise sum. */
    method Add(other: Vector) returns (r: Outcome<Vector>)
      requires Valid() && other.Valid()
      ensures r.Err? <==> dimension != other.dimension
      ensures r.Err? ==> r.msg == DIMENSION_MISMATCH
      ensures r.Ok? ==>
        fresh(r.value) && fresh(r.value.hostMemory) && r.value.Valid()
        && r.value.dimension == dimension
        && r.value.hostMemory[..] == Sum(hostMemory[..], other.hostMemory[..])
    {
      if dimension != other.dimension {
        return Err(DIMENSION_MISMATCH);
      }
      var sum := new Vector(dimension);
      for i := 0 to dimension
        invariant sum.Valid() && sum.dimension == dimension && fresh(sum.hostMemory)
        invariant forall i' :: 0 <= i' < i ==> sum.hostMemory[i'] == hostMemory[i'] + other.hostMemory[i']
      {
        var written := sum.SetValue(i, GetValue(i).value + other.GetValue(i).value);
      }
      return Ok(sum);
    }

    /** `operator+=`: vectors of different dimensions are an error;
        otherwise each element becomes its sum with the other vector's, and
        the dimension stays. Adding a vector to itself doubles it. */
    method AddInPlace(other: Vector) returns (r: Outcome<()>)
      requires Valid() && other.Valid()
      modifies hostMemory
      ensures r.Err? <==> dimension != other.dimension
      ensures r.Err? ==> r.msg == DIMENSION_MISMATCH && hostMemory[..] == old(hostMemory[..])
      ensures r.Ok? ==> hostMemory[..] == Sum(old(hostMemory[..]), old(other.hostMemory[..]))
    {
      if dimension != other.dimension {
        return Err(DIMENSION_MISMATCH);
      }
      for i := 0 to dimension
        invariant forall i' :: 0 <= i' < i ==> hostMemory[i'] == old(hostMemory[i']) + old(other.hostMemory[i'])
        invariant forall i' :: i <= i' < dimension ==> hostMemory[i'] == old(hostMemory[i'])
        invariant forall i' :: i <= i' < dimension ==> other.hostMemory[i'] == old(other.hostMemory[i'])
      {
        var written := SetValue(i, GetValue(i).value + other.GetValue(i).value);
      }
      r := Ok(());
    }

    /** `operator*`: vectors of different dimensions are an error; otherwise
        the dot product. */
    method DotProduct(other: Vector) returns (r: Outcome<real>)
      requires Valid() && other.Valid()
      ensures r.Err? <==> dimension != other.dimension
      ensures r.Err? ==> r.msg == DOT_DIMENSION_MISMATCH
      ensures r.Ok? ==> r.value == Dot(hostMemory[..], other.hostMemory[..])
    {
      if dimension != other.dimension {
        return Err(DOT_DIMENSION_MISMATCH);
      }
      var dotProduct := 0.0;
      for i := 0 to dimension
        invariant dotProduct == Dot(hostMemory[..i], other.hostMemory[..i])
      {
        assert hostMemory[..i + 1][..i] == hostMemory[..i];
        assert other.hostMemory[..i + 1][..i] == other.hostMemory[..i];
        dotProduct := dotProduct + GetValue(i).value * other.GetValue(i).value;
      }
      assert hostMemory[..dimension] == hostMemory[..];
      assert other.hostMemory[..dimension] == other.hostMemory[..];
      return Ok(dotProduct);
    }
  }
}
