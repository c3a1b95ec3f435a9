/** The HDR environment map (src/HdrEnvMap.cpp): the raw byte sizes of its
    three images, the layout sequence of the colour image, and the strength
    clamps of its settings panel. Image, sampler and descriptor creation are
    Vulkan calls and are not modelled; the layout the descriptor records is
    kept as a field. Float strengths are modelled as reals. */
module HdrEnvMaps {
  import opened Wrappers
  import opened MachineInts
  import opened ImageLayouts

  const FLOAT_SIZE: nat := 4

  /** `width * height * 4 * sizeof(float)`: the first two products are
      `uint32_t`, the last one is `size_t`. */
  function RawColorSize(width: nat, height: nat): (size: nat)
    requires width < TWO_TO_THE_32 && height < TWO_TO_THE_32
    ensures size < TWO_TO_THE_64
    ensures width * height * 4 < TWO_TO_THE_32 ==> size == 16 * width * height
  {
    Wrap64(Wrap32(Wrap32(width * height) * 4) * FLOAT_SIZE)
  }

  /** `width * height * sizeof(float)`: a `uint32_t` product widened to `size_t`. */
  function RawCdfXSize(width: nat, height: nat): (size: nat)
    requires width < TWO_TO_THE_32 && height < TWO_TO_THE_32
    ensures size < TWO_TO_THE_64
    ensures width * height < TWO_TO_THE_32 ==> size == 4 * width * height
  {
    var cells := width * height;
    assert 4 * width * height == 4 * cells;
    Wrap64(Wrap32(cells) * FLOAT_SIZE)
  }

  /** `height * sizeof(float)` in `size_t`. */
  function RawCdfYSize(height: nat): (size: nat)
    requires height < TWO_TO_THE_32
    ensures size == 4 * height
  {
    Wrap64(height * FLOAT_SIZE)
  }

  /** The colour image is four floats per texel and the x marginal one float
      per texel, so (without overflow) the colour size is four times the
      x-marginal size, which in turn is `width` times the y-marginal size. */
  lemma RawSizesRelated(width: nat, height: nat)
    requires width < TWO_TO_THE_32 && height < TWO_TO_THE_32
    requires width * height * 4 < TWO_TO_THE_32
    ensures RawColorSize(width, height) == 4 * RawCdfXSize(width, height)
    ensures RawCdfXSize(width, height) == width * RawCdfYSize(height)
  {
  }

  /** A strength after the clamp of `RenderImGui`. */
  function ClampStrength(x: real): (r: real)
    ensures r >= 0.0
    ensures x >= 0.0 ==> r == x
    ensures x < 0.0 ==> r == 0.0
  {
    if x < 0.0 then 0.0 else x
  }

  /** Clamping twice is clamping once. */
  lemma ClampIdempotent(x: real)
    ensures ClampStrength(ClampStrength(x)) == ClampStrength(x)
  {
  }

  class HdrEnvMap {
    var width: nat
    var height: nat
    var rawColorSize: nat
    var rawCdfXSize: nat
    var rawCdfYSize: nat
    var colorImageLayout: ImageLayout
    var descriptorLayout: ImageLayout
    var directStrength: real
    var hpmStrength: real

    /** The constructor: the raw sizes, then the colour image upload, then
        the descriptor write, which records the colour image's layout. */
    constructor(directStrength: real, hpmStrength: real, width: nat, height: nat)
      requires width < TWO_TO_THE_32 && height < TWO_TO_THE_32
      ensures this.width == width && this.height == height
      ensures rawColorSize == RawColorSize(width, height)
      ensures rawCdfXSize == RawCdfXSize(width, height)
      ensures rawCdfYSize == RawCdfYSize(height)
      ensures this.directStrength == directStrength && this.hpmStrength == hpmStrength
      ensures colorImageLayout == ShaderReadOnlyOptimal
      ensures descriptorLayout == colorImageLayout
    {
      this.width := width;
      this.height := height;
      rawColorSize := RawColorSize(width, height);
      rawCdfXSize := RawCdfXSize(width, height);
      rawCdfYSize := RawCdfYSize(height);
      colorImageLayout := Preinitialized;
      descriptorLayout := Undefined;
      this.directStrength := directStrength;
      this.hpmStrength := hpmStrength;
      new;
      var created := CreateColorImage();
      descriptorLayout := colorImageLayout;
    }

    /** `ChangeColorImageLayout`: the shared two-step rule; the layout field
        changes only after an accepted transition. */
    method ChangeColorImageLayout(layout: ImageLayout) returns (r: Outcome<Barrier>)
      modifies this
      ensures r == Transition(old(colorImageLayout), layout)
      ensures colorImageLayout == (if r.Ok? then layout else old(colorImageLayout))
      ensures width == old(width) && height == old(height) && descriptorLayout == old(descriptorLayout)
      ensures rawColorSize == old(rawColorSize) && rawCdfXSize == old(rawCdfXSize) && rawCdfYSize == old(rawCdfYSize)
      ensures directStrength == old(directStrength) && hpmStrength == old(hpmStrength)
    {
      r := Transition(colorImageLayout, layout);
      if r.Err? {
        return;
      }
      colorImageLayout := layout;
    }

    /** The layout sequence of `CreateColorImage`: to TRANSFER_DST_OPTIMAL
        for the copy from the staging buffer, then to
        SHADER_READ_ONLY_OPTIMAL. It succeeds exactly from PREINITIALIZED. */
    method CreateColorImage() returns (r: Outcome<()>)
      modifies this
      ensures r.Ok? <==> old(colorImageLayout) == Preinitialized
      ensures r.Ok? ==> colorImageLayout == ShaderReadOnlyOptimal
      ensures r.Err? ==> r.msg == UNKNOWN_TRANSITION && colorImageLayout == old(colorImageLayout)
      ensures width == old(width) && height == old(height) && descriptorLayout == old(descriptorLayout)
      ensures rawColorSize == old(rawColorSize) && rawCdfXSize == old(rawCdfXSize) && rawCdfYSize == old(rawCdfYSize)
      ensures directStrength == old(directStrength) && hpmStrength == old(hpmStrength)
    {
      var toTransfer := ChangeColorImageLayout(TransferDstOptimal);
      if toTransfer.Err? {
        return Err(toTransfer.msg);
      }
      var toShader := ChangeColorImageLayout(ShaderReadOnlyOptimal);
      r := Ok(());
    }

    /** `RenderImGui`: the drag widgets deliver new strengths (parameters
        here), and each is clamped to be non-negative in place. */
    method RenderImGui(draggedDirect: real, draggedHpm: real)
      modifies this
      ensures directStrength >= 0.0 && hpmStrength >= 0.0
      ensures directStrength == ClampStrength(draggedDirect) && hpmStrength == ClampStrength(draggedHpm)
      ensures width == old(width) && height == old(height) && colorImageLayout == old(colorImageLayout)
      ensures descriptorLayout == old(descriptorLayout)
      ensures rawColorSize == old(rawColorSize) && rawCdfXSize == old(rawCdfXSize) && rawCdfYSize == old(rawCdfYSize)
    {
      directStrength := draggedDirect;
      hpmStrength := draggedHpm;
      if directStrength < 0.0 {
        directStrength := 0.0;
      }
      if hpmStrength < 0.0 {
        hpmStrength := 0.0;
      }
    }
  }

  /** A second upload of a constructed map is rejected: the colour image is
      already past PREINITIALIZED, and the failed attempt leaves it ready for
      sampling. */
  method UploadTwice(map_: HdrEnvMap) returns (r: Outcome<()>)
    requires map_.colorImageLayout == ShaderReadOnlyOptimal
    modifies map_
    ensures r.Err? && map_.colorImageLayout == ShaderReadOnlyOptimal
  {
    r := map_.CreateColorImage();
  }
}
