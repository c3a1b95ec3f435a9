/** A sampled 3D texture (src/Texture3D.cpp): dimensions, the staging bytes
    of both array constructors, and the upload layout sequence. Reading VDB
    files, image creation and the float-to-byte conversion are not modelled
    (voxel values arrive as bytes). */
module Textures3D {
  import opened Wrappers
  import opened MachineInts
  import opened ImageLayouts
  import opened TexelOffsets

  /** A `width` x `height` x `depth` grid indexed `[i][j][k]`. */
  predicate IsGrid(grid: seq<seq<seq<byte>>>, width: nat, height: nat, depth: nat)
  {
    |grid| == width
    && forall i :: 0 <= i < width ==>
         |grid[i]| == height && forall j :: 0 <= j < height ==> |grid[i][j]| == depth
  }

  /** Four equally sized channel grids, indexed `[c][i][j][k]`. */
  predicate IsChannelGrids(data: seq<seq<seq<seq<byte>>>>, width: nat, height: nat, depth: nat)
  {
    |data| == CHANNELS && forall c :: 0 <= c < CHANNELS ==> IsGrid(data[c], width, height, depth)
  }

  /** The four channel grids the scalar constructor writes: the value in
      the three colour channels and an alpha of 1. */
  function ScalarChannels(grid: seq<seq<seq<byte>>>, width: nat, height: nat, depth: nat): (data: seq<seq<seq<seq<byte>>>>)
    requires IsGrid(grid, width, height, depth)
    ensures IsChannelGrids(data, width, height, depth)
    ensures forall c, i, j, k :: 0 <= c < CHANNELS && 0 <= i < width && 0 <= j < height && 0 <= k < depth ==>
      data[c][i][j][k] == if c < 3 then grid[i][j][k] else 1
  {
    var ones := Ones(width, height, depth);
    [grid, grid, grid, ones]
  }

  /** The alpha grid of the scalar constructor: 1 everywhere. */
  function Ones(width: nat, height: nat, depth: nat): (grid: seq<seq<seq<byte>>>)
    ensures IsGrid(grid, width, height, depth)
    ensures forall i, j, k :: 0 <= i < width && 0 <= j < height && 0 <= k < depth ==> grid[i][j][k] == 1
  {
    seq(width, i => seq(height, j => seq(depth, k => 1 as byte)))
  }

  /** Byte `Offset3(c, i, j, k)` of `a` holds `value`. */
  predicate StoredAt(a: seq<byte>, c: nat, i: nat, j: nat, k: nat, width: nat, height: nat, value: byte)
  {
    Offset3(c, i, j, k, width, height) < |a| && a[Offset3(c, i, j, k, width, height)] == value
  }

  /** All four channels of voxel `(i, j, k)` are in place in `a`. */
  predicate VoxelStored(a: seq<byte>, data: seq<seq<seq<seq<byte>>>>, width: nat, height: nat, depth: nat,
                        i: nat, j: nat, k: nat)
    requires IsChannelGrids(data, width, height, depth) && i < width && j < height && k < depth
  {
    forall c :: 0 <= c < CHANNELS ==> StoredAt(a, c, i, j, k, width, height, data[c][i][j][k])
  }

  /** `a'` differs from `a` at most in the four bytes of voxel `(i, j, k)`. */
  predicate OnlyVoxelChanged(a: seq<byte>, a': seq<byte>, i: nat, j: nat, k: nat, width: nat, height: nat)
  {
    var index := Offset3(0, i, j, k, width, height);
    |a'| == |a| && forall x :: 0 <= x < |a| && !(index <= x < index + CHANNELS) ==> a'[x] == a[x]
  }

  /** Writing one voxel keeps every other voxel that was in place. */
  lemma OtherVoxelsKept(a: seq<byte>, a': seq<byte>, data: seq<seq<seq<seq<byte>>>>, width: nat, height: nat, depth: nat,
                        i: nat, j: nat, k: nat)
    requires IsChannelGrids(data, width, height, depth) && i < width && j < height && k < depth
    requires OnlyVoxelChanged(a, a', i, j, k, width, height)
    ensures forall i', j', k' ::
      (0 <= i' < width && 0 <= j' < height && 0 <= k' < depth && (i', j', k') != (i, j, k)
       && VoxelStored(a, data, width, height, depth, i', j', k'))
      ==> VoxelStored(a', data, width, height, depth, i', j', k')
  {
    forall i', j', k' | 0 <= i' < width && 0 <= j' < height && 0 <= k' < depth && (i', j', k') != (i, j, k)
      && VoxelStored(a, data, width, height, depth, i', j', k')
      ensures VoxelStored(a', data, width, height, depth, i', j', k')
    {
      forall c | 0 <= c < CHANNELS
        ensures StoredAt(a', c, i', j', k', width, height, data[c][i'][j'][k'])
      {
        assert StoredAt(a, c, i', j', k', width, height, data[c][i'][j'][k']);
        var o := Offset3(c, i', j', k', width, height);
        var index := Offset3(0, i, j, k, width, height);
        if index <= o < index + CHANNELS {
          Offset3Channel(o - index, i, j, k, width, height);
          Offset3Injective(c, i', j', k', o - index, i, j, k, width, height);
        }
      }
    }
  }

  /** Every byte of a `width * height * depth * 4` staging array belongs to
      exactly one voxel channel. */
  lemma EveryByteWrittenOnce(x: nat, width: nat, height: nat, depth: nat) returns (c: nat, i: nat, j: nat, k: nat)
    requires x < width * height * depth * CHANNELS
    ensures c < CHANNELS && i < width && j < height && k < depth
    ensures Offset3(c, i, j, k, width, height) == x
    ensures forall c': nat, i': nat, j': nat, k': nat ::
      c' < CHANNELS && i' < width && j' < height && Offset3(c', i', j', k', width, height) == x ==>
      c' == c && i' == i && j' == j && k' == k
  {
    c, i, j, k := Offset3Onto(x, width, height, depth);
    forall c': nat, i': nat, j': nat, k': nat |
      c' < CHANNELS && i' < width && j' < height && Offset3(c', i', j', k', width, height) == x
      ensures c' == c && i' == i && j' == j && k' == k
    {
      Offset3Injective(c', i', j', k', c, i, j, k, width, height);
    }
  }

  /** The four bytes of voxel `(i, j, k)` lie inside the staging array. */
  lemma VoxelInRange(i: nat, j: nat, k: nat, width: nat, height: nat, depth: nat)
    requires i < width && j < height && k < depth
    ensures forall c :: 0 <= c < CHANNELS ==>
      Offset3(c, i, j, k, width, height) == Offset3(0, i, j, k, width, height) + c < width * height * depth * CHANNELS
  {
    forall c | 0 <= c < CHANNELS
      ensures Offset3(c, i, j, k, width, height) == Offset3(0, i, j, k, width, height) + c < width * height * depth * CHANNELS
    {
      Offset3Channel(c, i, j, k, width, height);
      Offset3Bound(c, i, j, k, width, height, depth);
    }
  }

  // ---------------------------------------------------------------------------
  // Scalar constructor
  // ---------------------------------------------------------------------------

  /** The scalar constructor's copy loops: voxel `(i, j, k)` occupies the four
      bytes from `4 i + 4 width j + 4 width height k`, holding the value three
      times and then 1. */
  method LinearizeScalar(grid: seq<seq<seq<byte>>>, width: nat, height: nat, depth: nat)
    returns (dataArray: array<byte>)
    requires IsGrid(grid, width, height, depth)
    ensures dataArray.Length == width * height * depth * CHANNELS
    ensures forall i, j, k :: 0 <= i < width && 0 <= j < height && 0 <= k < depth ==>
      VoxelStored(dataArray[..], ScalarChannels(grid, width, height, depth), width, height, depth, i, j, k)
  {
    ghost var data := ScalarChannels(grid, width, height, depth);
    dataArray := new byte[width * height * depth * CHANNELS];
    for i := 0 to width
      invariant dataArray.Length == width * height * depth * CHANNELS
      invariant forall i', j', k' :: 0 <= i' < i && 0 <= j' < height && 0 <= k' < depth ==>
        VoxelStored(dataArray[..], data, width, height, depth, i', j', k')
    {
      for j := 0 to height
        invariant dataArray.Length == width * height * depth * CHANNELS
        invariant forall i', j', k' :: 0 <= i' < i && 0 <= j' < height && 0 <= k' < depth ==>
          VoxelStored(dataArray[..], data, width, height, depth, i', j', k')
        invariant forall j', k' :: 0 <= j' < j && 0 <= k' < depth ==>
          VoxelStored(dataArray[..], data, width, height, depth, i, j', k')
      {
        WriteScalarColumn(dataArray, grid, width, height, depth, i, j);
      }
    }
  }

  /** The innermost loop of the scalar constructor: the voxels `(i, j, k)` for
      every `k`, leaving every other voxel that was in place. */
  method WriteScalarColumn(dataArray: array<byte>, grid: seq<seq<seq<byte>>>, width: nat, height: nat, depth: nat,
                           i: nat, j: nat)
    requires IsGrid(grid, width, height, depth) && i < width && j < height
    requires dataArray.Length == width * height * depth * CHANNELS
    modifies dataArray
    ensures forall k :: 0 <= k < depth ==>
      VoxelStored(dataArray[..], ScalarChannels(grid, width, height, depth), width, height, depth, i, j, k)
    ensures forall i', j', k' ::
              0 <= i' < width && 0 <= j' < height && 0 <= k' < depth && (i' != i || j' != j)
              && VoxelStored(old(dataArray[..]), ScalarChannels(grid, width, height, depth), width, height, depth, i', j', k')
              ==> VoxelStored(dataArray[..], ScalarChannels(grid, width, height, depth), width, height, depth, i', j', k')
  {
    ghost var data := ScalarChannels(grid, width, height, depth);
    ghost var start := dataArray[..];
    for k := 0 to depth
      invariant forall i', j', k' ::
                  0 <= i' < width && 0 <= j' < height && 0 <= k' < depth && (i' != i || j' != j)
                  && VoxelStored(start, data, width, height, depth, i', j', k')
                  ==> VoxelStored(dataArray[..], data, width, height, depth, i', j', k')
      invariant forall k' :: 0 <= k' < k ==>
        VoxelStored(dataArray[..], data, width, height, depth, i, j, k')
    {
      ghost var before := dataArray[..];
      WriteScalarVoxel(dataArray, grid, width, height, depth, i, j, k);
      OtherVoxelsKept(before, dataArray[..], data, width, height, depth, i, j, k);
    }
  }

  /** The body of the innermost loop: four bytes for voxel `(i, j, k)`. */
  method WriteScalarVoxel(dataArray: array<byte>, grid: seq<seq<seq<byte>>>, width: nat, height: nat, depth: nat,
                          i: nat, j: nat, k: nat)
    requires IsGrid(grid, width, height, depth) && i < width && j < height && k < depth
    requires dataArray.Length == width * height * depth * CHANNELS
    modifies dataArray
    ensures VoxelStored(dataArray[..], ScalarChannels(grid, width, height, depth), width, height, depth, i, j, k)
    ensures OnlyVoxelChanged(old(dataArray[..]), dataArray[..], i, j, k, width, height)
  {
    var value := grid[i][j][k];
    var index := Offset3(0, i, j, k, width, height);
    VoxelInRange(i, j, k, width, height, depth);
    assert index + 3 < dataArray.Length by {
      assert Offset3(3, i, j, k, width, height) == index + 3 < width * height * depth * CHANNELS;
    }
    dataArray[index + 0] := value;
    dataArray[index + 1] := value;
    dataArray[index + 2] := value;
    dataArray[index + 3] := 1;
  }

  // ---------------------------------------------------------------------------
  // Four-channel constructor
  // ---------------------------------------------------------------------------

  /** The four-channel constructor's copy loops: channel `c` of voxel
      `(i, j, k)` goes to byte `c + 4 i + 4 width j + 4 width height k`. */
  method LinearizeChannels(data: seq<seq<seq<seq<byte>>>>, width: nat, height: nat, depth: nat)
    returns (dataArray: array<byte>)
    requires IsChannelGrids(data, width, height, depth)
    ensures dataArray.Length == width * height * depth * CHANNELS
    ensures forall i, j, k :: 0 <= i < width && 0 <= j < height && 0 <= k < depth ==>
      VoxelStored(dataArray[..], data, width, height, depth, i, j, k)
  {
    dataArray := new byte[width * height * depth * CHANNELS];
    for i := 0 to width
      invariant dataArray.Length == width * height * depth * CHANNELS
      invariant forall i', j', k' :: 0 <= i' < i && 0 <= j' < height && 0 <= k' < depth ==>
        VoxelStored(dataArray[..], data, width, height, depth, i', j', k')
    {
      WriteSlice(dataArray, data, width, height, depth, i);
    }
  }

  /** The loops over `j` and `k` for one value of `i`; voxels of other
      slices stay in place. */
  method WriteSlice(dataArray: array<byte>, data: seq<seq<seq<seq<byte>>>>, width: nat, height: nat, depth: nat, i: nat)
    requires IsChannelGrids(data, width, height, depth) && i < width
    requires dataArray.Length == width * height * depth * CHANNELS
    modifies dataArray
    ensures forall j', k' :: 0 <= j' < height && 0 <= k' < depth ==>
      VoxelStored(dataArray[..], data, width, height, depth, i, j', k')
    ensures forall i', j', k' ::
      (0 <= i' < width && 0 <= j' < height && 0 <= k' < depth && i' != i
       && VoxelStored(old(dataArray[..]), data, width, height, depth, i', j', k'))
      ==> VoxelStored(dataArray[..], data, width, height, depth, i', j', k')
  {
    for j := 0 to height
      invariant forall i', j', k' ::
        (0 <= i' < width && 0 <= j' < height && 0 <= k' < depth && i' != i
         && VoxelStored(old(dataArray[..]), data, width, height, depth, i', j', k'))
        ==> VoxelStored(dataArray[..], data, width, height, depth, i', j', k')
      invariant forall j', k' :: 0 <= j' < j && 0 <= k' < depth ==>
        VoxelStored(dataArray[..], data, width, height, depth, i, j', k')
    {
      for k := 0 to depth
        invariant forall i', j', k' ::
          (0 <= i' < width && 0 <= j' < height && 0 <= k' < depth && i' != i
           && VoxelStored(old(dataArray[..]), data, width, height, depth, i', j', k'))
          ==> VoxelStored(dataArray[..], data, width, height, depth, i', j', k')
        invariant forall j', k' :: 0 <= j' < j && 0 <= k' < depth ==>
          VoxelStored(dataArray[..], data, width, height, depth, i, j', k')
        invariant forall k' :: 0 <= k' < k ==>
          VoxelStored(dataArray[..], data, width, height, depth, i, j, k')
      {
        ghost var before := dataArray[..];
        WriteVoxelChannels(dataArray, data, width, height, depth, i, j, k);
        OtherVoxelsKept(before, dataArray[..], data, width, height, depth, i, j, k);
      }
    }
  }

  /** The innermost channel loop for voxel `(i, j, k)`. */
  method WriteVoxelChannels(dataArray: array<byte>, data: seq<seq<seq<seq<byte>>>>, width: nat, height: nat, depth: nat,
                            i: nat, j: nat, k: nat)
    requires IsChannelGrids(data, width, height, depth) && i < width && j < height && k < depth
    requires dataArray.Length == width * height * depth * CHANNELS
    modifies dataArray
    ensures VoxelStored(dataArray[..], data, width, height, depth, i, j, k)
    ensures OnlyVoxelChanged(old(dataArray[..]), dataArray[..], i, j, k, width, height)
  {
    VoxelInRange(i, j, k, width, height, depth);
    var base := Offset3(0, i, j, k, width, height);
    for c := 0 to CHANNELS
      invariant forall c' :: 0 <= c' < c ==> StoredAt(dataArray[..], c', i, j, k, width, height, data[c'][i][j][k])
      invariant OnlyVoxelChanged(old(dataArray[..]), dataArray[..], i, j, k, width, height)
    {
      var index := Offset3(c, i, j, k, width, height);
      dataArray[index] := data[c][i][j][k];
    }
  }

  // ---------------------------------------------------------------------------
  // The texture
  // ---------------------------------------------------------------------------

  class Texture3D {
    var width: nat
    var height: nat
    var depth: nat
    var realChannelCount: nat
    var imageLayout: ImageLayout
    var staging: seq<byte>

    /** The scalar constructor: width, height and depth are the sizes of
        `data`, `data[0]` and `data[0][0]`. */
    constructor FromScalars(grid: seq<seq<seq<byte>>>)
      requires |grid| > 0 && |grid[0]| > 0
      requires IsGrid(grid, |grid|, |grid[0]|, |grid[0][0]|)
      requires |grid| * |grid[0]| * |grid[0][0]| * CHANNELS < TWO_TO_THE_32
      ensures width == |grid| && height == |grid[0]| && depth == |grid[0][0]| && realChannelCount == 4
      ensures |staging| == width * height * depth * CHANNELS == GetRealSizeInBytes()
      ensures forall i, j, k :: 0 <= i < width && 0 <= j < height && 0 <= k < depth ==>
        VoxelStored(staging, ScalarChannels(grid, width, height, depth), width, height, depth, i, j, k)
      ensures imageLayout == ShaderReadOnlyOptimal
    {
      width, height, depth := |grid|, |grid[0]|, |grid[0][0]|;
      realChannelCount := 4;
      imageLayout := Preinitialized;
      var dataArray := LinearizeScalar(grid, |grid|, |grid[0]|, |grid[0][0]|);
      staging := dataArray[..];
      new;
      var loaded := LoadToDevice();
    }

    /** The four-channel constructor: width, height and depth are the sizes of
        `data[0]`, `data[0][0]` and `data[0][0][0]`. */
    constructor FromChannels(data: seq<seq<seq<seq<byte>>>>)
      requires |data| == CHANNELS && |data[0]| > 0 && |data[0][0]| > 0
      requires IsChannelGrids(data, |data[0]|, |data[0][0]|, |data[0][0][0]|)
      requires |data[0]| * |data[0][0]| * |data[0][0][0]| * CHANNELS < TWO_TO_THE_32
      ensures width == |data[0]| && height == |data[0][0]| && depth == |data[0][0][0]| && realChannelCount == 4
      ensures |staging| == width * height * depth * CHANNELS == GetRealSizeInBytes()
      ensures forall i, j, k :: 0 <= i < width && 0 <= j < height && 0 <= k < depth ==>
        VoxelStored(staging, data, width, height, depth, i, j, k)
      ensures imageLayout == ShaderReadOnlyOptimal
    {
      width, height, depth := |data[0]|, |data[0][0]|, |data[0][0][0]|;
      realChannelCount := 4;
      imageLayout := Preinitialized;
      var dataArray := LinearizeChannels(data, |data[0]|, |data[0][0]|, |data[0][0][0]|);
      staging := dataArray[..];
      new;
      var loaded := LoadToDevice();
    }

    /** `ChangeLayout`: the shared two-step rule; the layout changes only
        after an accepted transition. */
    method ChangeLayout(layout: ImageLayout) returns (r: Outcome<Barrier>)
      modifies this
      ensures r == Transition(old(imageLayout), layout)
      ensures imageLayout == (if r.Ok? then layout else old(imageLayout))
      ensures width == old(width) && height == old(height) && depth == old(depth)
      ensures staging == old(staging) && realChannelCount == old(realChannelCount)
    {
      r := Transition(imageLayout, layout);
      if r.Err? {
        return;
      }
      imageLayout := layout;
    }

    /** The layout sequence of `LoadToDevice`. */
    method LoadToDevice() returns (r: Outcome<()>)
      modifies this
      ensures r.Ok? <==> old(imageLayout) == Preinitialized
      ensures r.Ok? ==> imageLayout == ShaderReadOnlyOptimal
      ensures r.Err? ==> r.msg == UNKNOWN_TRANSITION && imageLayout == old(imageLayout)
      ensures width == old(width) && height == old(height) && depth == old(depth)
      ensures staging == old(staging) && realChannelCount == old(realChannelCount)
    {
      var toTransfer := ChangeLayout(TransferDstOptimal);
      if toTransfer.Err? {
        return Err(toTransfer.msg);
      }
      var toShader := ChangeLayout(ShaderReadOnlyOptimal);
      r := Ok(());
    }

    /** `GetRealSizeInBytes`: width x height x depth x channels in `uint32_t`
        arithmetic. */
    function GetRealSizeInBytes(): (size: nat)
      reads this
      ensures size < TWO_TO_THE_32
      ensures width * height * depth * realChannelCount < TWO_TO_THE_32 ==>
        size == width * height * depth * realChannelCount
    {
      Wrap32(width * height * depth * realChannelCount)
    }
  }
}
