/** A surface material (src/Material.cpp): a diffuse colour, an optional
    diffuse texture, the `useDiffuseTex` flag in its uniform data, the
    uniform buffer contents and the image its descriptor set binds. Textures
    are identified by number; a null texture is `None`. */
module Materials {
  import opened Wrappers

  type TextureId = nat

  datatype Vec4 = Vec4(x: real, y: real, z: real, w: real)

  /** The uniform block: the colour and the texture flag. */
  datatype UniformData = UniformData(diffuseColor: Vec4, useDiffuseTex: bool)

  /** The image bound at descriptor binding 1. `NullTexture` is a sampler and
      view read through a null texture. */
  datatype DescriptorImage = Texture(id: TextureId) | DummyTexture | NullTexture

  /** The image the descriptor should bind for a flag and a texture: the
      texture when the flag is set, the shared dummy texture otherwise. */
  function DescriptorFor(useDiffuseTex: bool, diffuseTex: Option<TextureId>): (image: DescriptorImage)
    ensures image == DummyTexture <==> !useDiffuseTex
    ensures image == NullTexture <==> useDiffuseTex && diffuseTex.None?
    ensures useDiffuseTex && diffuseTex.Some? ==> image == Texture(diffuseTex.value)
  {
    if useDiffuseTex then
      if diffuseTex.Some? then Texture(diffuseTex.value) else NullTexture
    else
      DummyTexture
  }

  class Material {
    var diffuseColor: Vec4
    var useDiffuseTex: bool
    var diffuseTex: Option<TextureId>
    /** What the uniform buffer on the device holds. */
    var uniform: UniformData
    /** How many times the uniform buffer was written. */
    var uploads: nat
    var boundImage: DescriptorImage

    /** The flag matches the texture, the descriptor binds what the flag
        says, and the device holds the current uniform data. */
    predicate Consistent()
      reads this
    {
      useDiffuseTex == diffuseTex.Some?
      && boundImage == DescriptorFor(useDiffuseTex, diffuseTex)
      && uniform == UniformData(diffuseColor, useDiffuseTex)
    }

    /** The constructor: the flag is `diffuseTex != nullptr`, the uniform
        data are uploaded once, and the real texture is bound iff the flag is
        set, the dummy texture otherwise. */
    constructor(diffuseColor: Vec4, diffuseTex: Option<TextureId>)
      ensures Consistent()
      ensures this.diffuseColor == diffuseColor && this.diffuseTex == diffuseTex
      ensures useDiffuseTex <==> diffuseTex.Some?
      ensures diffuseTex.Some? ==> boundImage == Texture(diffuseTex.value)
      ensures diffuseTex.None? ==> boundImage == DummyTexture
      ensures uploads == 1
    {
      this.diffuseColor := diffuseColor;
      useDiffuseTex := diffuseTex.Some?;
      this.diffuseTex := diffuseTex;
      uniform := UniformData(diffuseColor, diffuseTex.Some?);
      uploads := 1;
      boundImage := DescriptorFor(diffuseTex.Some?, diffuseTex);
    }

    function GetDiffuseColor(): (color: Vec4)
      reads this
      ensures color == diffuseColor
    {
      diffuseColor
    }

    function GetDiffuseTex(): (tex: Option<TextureId>)
      reads this
      ensures tex == diffuseTex
    {
      diffuseTex
    }

    /** `SetDiffuseColor`: only the colour changes, and it is uploaded. */
    method SetDiffuseColor(color: Vec4)
      modifies this
      ensures diffuseColor == color && uniform == UniformData(color, useDiffuseTex)
      ensures uploads == old(uploads) + 1
      ensures useDiffuseTex == old(useDiffuseTex) && diffuseTex == old(diffuseTex) && boundImage == old(boundImage)
      ensures old(Consistent()) ==> Consistent()
    {
      diffuseColor := color;
      uniform := UniformData(diffuseColor, useDiffuseTex);
      uploads := uploads + 1;
    }

    /** `SetDiffuseTex` as written: the texture is stored, but the image
        written to the descriptor is chosen from the flag as it was BEFORE
        the call; only then is the flag updated (and uploaded if it
        changed). */
    method SetDiffuseTex(tex: Option<TextureId>)
      modifies this
      ensures diffuseTex == tex && (useDiffuseTex <==> tex.Some?)
      ensures boundImage == DescriptorFor(old(useDiffuseTex), tex)
      ensures uploads == old(uploads) + (if old(useDiffuseTex) != tex.Some? then 1 else 0)
      ensures diffuseColor == old(diffuseColor)
      ensures old(uniform) == UniformData(old(diffuseColor), old(useDiffuseTex)) ==>
        uniform == UniformData(diffuseColor, useDiffuseTex)
    {
      diffuseTex := tex;
      boundImage := DescriptorFor(useDiffuseTex, diffuseTex);
      var use := tex.Some?;
      if use != useDiffuseTex {
        useDiffuseTex := use;
        uniform := UniformData(diffuseColor, useDiffuseTex);
        uploads := uploads + 1;
      }
    }

    /** `SetDiffuseTex` as evidently intended: the flag is updated first, so
        the descriptor binds the new texture, or the dummy when it is
        cleared. */
    method SetDiffuseTexIntended(tex: Option<TextureId>)
      modifies this
      ensures diffuseTex == tex && (useDiffuseTex <==> tex.Some?)
      ensures tex.Some? ==> boundImage == Texture(tex.value)
      ensures tex.None? ==> boundImage == DummyTexture
      ensures uploads == old(uploads) + (if old(useDiffuseTex) != tex.Some? then 1 else 0)
      ensures diffuseColor == old(diffuseColor)
      ensures old(Consistent()) ==> Consistent()
    {
      diffuseTex := tex;
      var use := tex.Some?;
      if use != useDiffuseTex {
        useDiffuseTex := use;
        uniform := UniformData(diffuseColor, useDiffuseTex);
        uploads := uploads + 1;
      }
      boundImage := DescriptorFor(useDiffuseTex, diffuseTex);
    }
  }

  /** Adding a texture to an untextured material with the as-written setter
      leaves the dummy texture bound while the shader is told to sample the
      texture. */
  method AddTextureBindsDummy(color: Vec4, tex: TextureId) returns (m: Material)
    ensures m.useDiffuseTex && m.diffuseTex == Some(tex)
    ensures m.boundImage == DummyTexture && !m.Consistent()
  {
    m := new Material(color, None);
    m.SetDiffuseTex(Some(tex));
  }

  /** Clearing the texture of a textured material with the as-written setter
      reads the sampler of a null texture. */
  method ClearTextureReadsNull(color: Vec4, tex: TextureId) returns (m: Material)
    ensures !m.useDiffuseTex && m.boundImage == NullTexture && !m.Consistent()
  {
    m := new Material(color, Some(tex));
    m.SetDiffuseTex(None);
  }
}
