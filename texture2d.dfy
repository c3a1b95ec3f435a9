/** A sampled 2D texture (src/Texture2D.cpp): its dimensions, the staging
    bytes the constructors prepare, and the image layout it is moved through
    on upload. Image, memory and sampler creation are not modelled; the
    conversion of float channels to bytes is taken as given (the channel data
    arrive as bytes). */
module Textures2D {
  import opened Wrappers
  import opened MachineInts
  import opened ImageLayouts
  import opened TexelOffsets

  /** A decoded image file: 4 bytes per pixel after the RGBA conversion,
      and the channel count the file itself had. */
  datatype Image = Image(width: nat, height: nat, channelCount: nat, pixels: seq<byte>)

  /** Four channel planes of equal `width` x `height` size, indexed
      `[channel][i][j]`. */
  predicate WellShaped(data: seq<seq<seq<byte>>>, width: nat, height: nat)
  {
    |data| == CHANNELS
    && forall c :: 0 <= c < CHANNELS ==>
         |data[c]| == width && forall i :: 0 <= i < width ==> |data[c][i]| == height
  }

  /** The bytes of texel channel `(c, i, j)` are in place in `a`. */
  predicate Stored(a: seq<byte>, data: seq<seq<seq<byte>>>, width: nat, height: nat, c: nat, i: nat, j: nat)
    requires WellShaped(data, width, height) && c < CHANNELS && i < width && j < height
  {
    Offset2(c, i, j, width) < |a| && a[Offset2(c, i, j, width)] == data[c][i][j]
  }

  /** The array constructor's copy loop: channel `c` of texel `(i, j)` goes
      to byte `c + 4 i + 4 width j` of a zero-initialised array. */
  method Linearize(data: seq<seq<seq<byte>>>, width: nat, height: nat) returns (dataArray: array<byte>)
    requires WellShaped(data, width, height)
    ensures dataArray.Length == width * height * CHANNELS
    ensures forall c, i, j :: 0 <= c < CHANNELS && 0 <= i < width && 0 <= j < height ==>
      Stored(dataArray[..], data, width, height, c, i, j)
  {
    dataArray := new byte[width * height * CHANNELS];
    for i := 0 to width
      invariant dataArray.Length == width * height * CHANNELS
      invariant forall c, i', j' :: 0 <= c < CHANNELS && 0 <= i' < i && 0 <= j' < height ==>
        Stored(dataArray[..], data, width, height, c, i', j')
    {
      WriteColumn(dataArray, data, width, height, i);
    }
  }

  /** The inner loop: every texel `(i, j)` of column `i`. Texels of other
      columns keep their bytes. */
  method WriteColumn(dataArray: array<byte>, data: seq<seq<seq<byte>>>, width: nat, height: nat, i: nat)
    requires WellShaped(data, width, height) && i < width
    requires dataArray.Length == width * height * CHANNELS
    modifies dataArray
    ensures forall c, j :: 0 <= c < CHANNELS && 0 <= j < height ==> Stored(dataArray[..], data, width, height, c, i, j)
    ensures forall c, i', j' ::
      (0 <= c < CHANNELS && 0 <= i' < width && 0 <= j' < height && i' != i
       && Stored(old(dataArray[..]), data, width, height, c, i', j'))
      ==> Stored(dataArray[..], data, width, height, c, i', j')
  {
    for j := 0 to height
      invariant forall c, i', j' ::
        (0 <= c < CHANNELS && 0 <= i' < width && 0 <= j' < height && i' != i
         && Stored(old(dataArray[..]), data, width, height, c, i', j'))
        ==> Stored(dataArray[..], data, width, height, c, i', j')
      invariant forall c, j' :: 0 <= c < CHANNELS && 0 <= j' < j ==>
        Stored(dataArray[..], data, width, height, c, i, j')
    {
      WriteTexel(dataArray, data, width, height, i, j);
    }
  }

  /** The innermost loop: the four channels of texel `(i, j)`. No other
      texel's bytes change. */
  method WriteTexel(dataArray: array<byte>, data: seq<seq<seq<byte>>>, width: nat, height: nat, i: nat, j: nat)
    requires WellShaped(data, width, height) && i < width && j < height
    requires dataArray.Length == width * height * CHANNELS
    modifies dataArray
    ensures forall c :: 0 <= c < CHANNELS ==> Stored(dataArray[..], data, width, height, c, i, j)
    ensures forall c, i', j' ::
      (0 <= c < CHANNELS && 0 <= i' < width && 0 <= j' < height && (i', j') != (i, j)
       && Stored(old(dataArray[..]), data, width, height, c, i', j'))
      ==> Stored(dataArray[..], data, width, height, c, i', j')
  {
    for c := 0 to CHANNELS
      invariant forall c' :: 0 <= c' < c ==> Stored(dataArray[..], data, width, height, c', i, j)
      invariant forall c', i', j' ::
        (0 <= c' < CHANNELS && 0 <= i' < width && 0 <= j' < height && (i', j') != (i, j)
         && Stored(old(dataArray[..]), data, width, height, c', i', j'))
        ==> Stored(dataArray[..], data, width, height, c', i', j')
    {
      var index := Offset2(c, i, j, width);
      Offset2Bound(c, i, j, width, height);
      OthersUntouched(c, i, j, width);
      ghost var before := dataArray[..];
      assert forall c' :: 0 <= c' < c ==> Offset2(c', i, j, width) != index;
      dataArray[index] := data[c][i][j];
      assert dataArray[..] == before[index := data[c][i][j]];
      forall c' | 0 <= c' < c + 1
        ensures Stored(dataArray[..], data, width, height, c', i, j)
      {
        if c' < c {
          assert Stored(before, data, width, height, c', i, j);
        }
      }
    }
  }

  /** Writing texel channel `(c, i, j)` leaves every other channel's byte
      alone. */
  lemma OthersUntouched(c: nat, i: nat, j: nat, width: nat)
    requires c < CHANNELS && i < width
    ensures forall c': nat, i': nat, j': nat :: c' < CHANNELS && i' < width && (c', i', j') != (c, i, j) ==>
      Offset2(c', i', j', width) != Offset2(c, i, j, width)
  {
    forall c': nat, i': nat, j': nat | c' < CHANNELS && i' < width && (c', i', j') != (c, i, j)
      ensures Offset2(c', i', j', width) != Offset2(c, i, j, width)
    {
      if Offset2(c', i', j', width) == Offset2(c, i, j, width) {
        Offset2Injective(c', i', j', c, i, j, width);
      }
    }
  }

  /** Every byte of the staging array holds exactly one texel channel: the one
      the layout maps there. */
  lemma EveryByteWrittenOnce(x: nat, width: nat, height: nat) returns (c: nat, i: nat, j: nat)
    requires x < width * height * CHANNELS
    ensures c < CHANNELS && i < width && j < height && Offset2(c, i, j, width) == x
    ensures forall c': nat, i': nat, j': nat :: c' < CHANNELS && i' < width && Offset2(c', i', j', width) == x ==>
      c' == c && i' == i && j' == j
  {
    c, i, j := Offset2Onto(x, width, height);
    forall c': nat, i': nat, j': nat | c' < CHANNELS && i' < width && Offset2(c', i', j', width) == x
      ensures c' == c && i' == i && j' == j
    {
      Offset2Injective(c', i', j', c, i, j, width);
    }
  }

  class Texture2D {
    var width: nat
    var height: nat
    var sourceChannelCount: nat
    var realChannelCount: nat
    var imageLayout: ImageLayout
    var staging: seq<byte>

    /** The constructor from four channel planes: width and height come from
        the first plane, both channel counts are 4, and the staging bytes are
        the linearised planes; the texture ends ready for sampling. */
    constructor FromChannels(data: seq<seq<seq<byte>>>)
      requires |data| == CHANNELS && |data[0]| > 0
      requires WellShaped(data, |data[0]|, |data[0][0]|)
      requires |data[0]| * |data[0][0]| * CHANNELS < TWO_TO_THE_32
      ensures width == |data[0]| && height == |data[0][0]|
      ensures sourceChannelCount == 4 && realChannelCount == 4
      ensures |staging| == width * height * CHANNELS
      ensures forall c, i, j :: 0 <= c < CHANNELS && 0 <= i < width && 0 <= j < height ==>
        Stored(staging, data, width, height, c, i, j)
      ensures imageLayout == ShaderReadOnlyOptimal
      ensures GetSizeInBytes() == |staging|
    {
      width := |data[0]|;
      height := |data[0][0]|;
      sourceChannelCount := 4;
      realChannelCount := 4;
      imageLayout := Preinitialized;
      var dataArray := Linearize(data, |data[0]|, |data[0][0]|);
      staging := dataArray[..];
      new;
      var loaded := LoadToDevice();
    }

    /** The constructor from a file once the image decoded: width, height
        and the file's own channel count are recorded, and there are 4 real
        channels. */
    constructor FromImage(image: Image)
      requires |image.pixels| == image.width * image.height * CHANNELS
      ensures width == image.width && height == image.height
      ensures sourceChannelCount == image.channelCount && realChannelCount == 4
      ensures staging == image.pixels
      ensures imageLayout == ShaderReadOnlyOptimal
    {
      width := image.width;
      height := image.height;
      sourceChannelCount := image.channelCount;
      realChannelCount := 4;
      imageLayout := Preinitialized;
      staging := image.pixels;
      new;
      var loaded := LoadToDevice();
    }

    /** `ChangeLayout`: only the two upload steps are accepted, and the layout
        changes only when one is. */
    method ChangeLayout(layout: ImageLayout) returns (r: Outcome<Barrier>)
      modifies this
      ensures r == Transition(old(imageLayout), layout)
      ensures imageLayout == (if r.Ok? then layout else old(imageLayout))
      ensures width == old(width) && height == old(height) && staging == old(staging)
      ensures sourceChannelCount == old(sourceChannelCount) && realChannelCount == old(realChannelCount)
    {
      r := Transition(imageLayout, layout);
      if r.Err? {
        return;
      }
      imageLayout := layout;
    }

    /** The layout sequence of `LoadToDevice`: to TRANSFER_DST_OPTIMAL for the
        copy, then to SHADER_READ_ONLY_OPTIMAL. It succeeds exactly when the
        texture is still PREINITIALIZED. */
    method LoadToDevice() returns (r: Outcome<()>)
      modifies this
      ensures r.Ok? <==> old(imageLayout) == Preinitialized
      ensures r.Ok? ==> imageLayout == ShaderReadOnlyOptimal
      ensures r.Err? ==> r.msg == UNKNOWN_TRANSITION && imageLayout == old(imageLayout)
      ensures width == old(width) && height == old(height) && staging == old(staging)
      ensures sourceChannelCount == old(sourceChannelCount) && realChannelCount == old(realChannelCount)
    {
      var toTransfer := ChangeLayout(TransferDstOptimal);
      if toTransfer.Err? {
        return Err(toTransfer.msg);
      }
      var toShader := ChangeLayout(ShaderReadOnlyOptimal);
      r := Ok(());
    }

    /** `GetSizeInBytes`: width x height x channels in `uint32_t` arithmetic. */
    function GetSizeInBytes(): (size: nat)
      reads this
      ensures size < TWO_TO_THE_32
      ensures width * height * realChannelCount < TWO_TO_THE_32 ==> size == width * height * realChannelCount
    {
      Wrap32(width * height * realChannelCount)
    }
  }

  /** The constructor from a file: a file that does not decode is an
      error. */
  method FromFile(fileName: string, decoded: Option<Image>) returns (r: Outcome<Texture2D>)
    requires decoded.Some? ==> |decoded.value.pixels| == decoded.value.width * decoded.value.height * CHANNELS
    ensures r.Err? <==> decoded.None?
    ensures r.Err? ==> r.msg == "Failed to load Texture2D " + fileName
    ensures r.Ok? ==>
      fresh(r.value) && r.value.width == decoded.value.width && r.value.height == decoded.value.height
      && r.value.imageLayout == ShaderReadOnlyOptimal
  {
    if decoded.None? {
      return Err("Failed to load Texture2D " + fileName);
    }
    var texture := new Texture2D.FromImage(decoded.value);
    return Ok(texture);
  }
}
