/** src/texture/sampler.rs: how a texture is filtered and wrapped. */
module Samplers {

  datatype WrapMode = ClampToBorder | ClampToEdge | MirrorRepeat | Repeat

  datatype FilterMode = Linear | Nearest

  /** The caller-facing description, all six fields public. */
  datatype SamplerDescriptor = SamplerDescriptor(
    magFilter: FilterMode,
    minFilter: FilterMode,
    mipmapFilter: FilterMode,
    wrapU: WrapMode,
    wrapV: WrapMode,
    wrapW: WrapMode)

  /** The sampler itself; its fields are private in the source and only read
      through one getter each, so the getters are the field selectors. */
  datatype Sampler = Sampler(
    magFilter: FilterMode,
    minFilter: FilterMode,
    mipmapFilter: FilterMode,
    wrapU: WrapMode,
    wrapV: WrapMode,
    wrapW: WrapMode)

  /** `Default for SamplerDescriptor`: linear filtering everywhere and
      clamping to the edge on all three axes. */
  function DefaultDescriptor(): (d: SamplerDescriptor)
    ensures d.magFilter == Linear && d.minFilter == Linear && d.mipmapFilter == Linear
    ensures d.wrapU == ClampToEdge && d.wrapV == ClampToEdge && d.wrapW == ClampToEdge
  {
    SamplerDescriptor(Linear, Linear, Linear, ClampToEdge, ClampToEdge, ClampToEdge)
  }

  /** `Sampler::new`: takes every field from the descriptor as it is. */
  function NewSampler(desc: SamplerDescriptor): (s: Sampler)
    ensures s.magFilter == desc.magFilter && s.minFilter == desc.minFilter
    ensures s.mipmapFilter == desc.mipmapFilter
    ensures s.wrapU == desc.wrapU && s.wrapV == desc.wrapV && s.wrapW == desc.wrapW
  {
    Sampler(desc.magFilter, desc.minFilter, desc.mipmapFilter, desc.wrapU, desc.wrapV, desc.wrapW)
  }

  /** The sampler a descriptor builds back into: the two records carry the
      same six fields. */
  function Describe(s: Sampler): SamplerDescriptor
  {
    SamplerDescriptor(s.magFilter, s.minFilter, s.mipmapFilter, s.wrapU, s.wrapV, s.wrapW)
  }

  /** `Sampler::new` loses nothing: the descriptor can be read back from the
      sampler through its getters, and distinct descriptors give distinct
      samplers. */
  lemma NewSamplerInjective(d1: SamplerDescriptor, d2: SamplerDescriptor)
    ensures Describe(NewSampler(d1)) == d1
    ensures NewSampler(d1) == NewSampler(d2) ==> d1 == d2
  {
  }
}

/** src/texture/texture.rs: an image stored as raw texel bytes. */
module Textures {
  import opened Numeric

  datatype TextureFormat = Float | Uint8 | Uint8Srgb

  /** `Texture::new` stores its four arguments; the getters read them. */
  datatype Texture = Texture(format: TextureFormat, height: nat, texels: seq<u8>, width: nat)
}

/** src/material/material.rs: a material with a flat RGB colour. */
module Materials {

  datatype Material = Material(color: seq<real>)

  /** `Material::new`: the colour starts as `Color::create()`, black. */
  function NewMaterial(): (m: Material)
    ensures m.color == [0.0, 0.0, 0.0]
  {
    Material([0.0, 0.0, 0.0])
  }
}

/** src/scene/mesh.rs: a geometry paired with a material, both owned. */
module Meshes {
  import Materials
  import Attributes
  import GeometryIndices
  import Geometries

  datatype Mesh = Mesh(
    geometry: Geometries.Geometry<Attributes.Attribute, GeometryIndices.Index>,
    material: Materials.Material)
}

/** src/scene/camera.rs: a perspective camera. Only the four scalars passed
    to `PerspectiveCamera::new` are kept; its two projection matrices come
    from trigonometry and matrix inversion, which are not part of this
    model. */
module Cameras {

  datatype PerspectiveCamera = PerspectiveCamera(aspect: real, far: real, fovy: real, near: real)
}
