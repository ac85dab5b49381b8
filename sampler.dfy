// Sampler properties and their `vk::SamplerCreateInfo` encoding
// (bort-vk/src/sampler.rs; src/sampler.rs has the same properties, defaults
// and encoder, but no decoder).
module Sampler {
  import opened Wrappers
  import opened VkTypes

  type Filter = int
  type MipmapMode = int
  type AddressMode = int
  type BorderColor = int

  const FILTER_NEAREST: Filter := 0
  const MIPMAP_MODE_NEAREST: MipmapMode := 0
  const ADDRESS_MODE_CLAMP_TO_EDGE: AddressMode := 2
  const BORDER_COLOR_FLOAT_TRANSPARENT_BLACK: BorderColor := 0

  /** `[vk::SamplerAddressMode; 3]`: the u, v and w modes. */
  type AddressModes = s: seq<AddressMode> | |s| == 3 witness [0, 0, 0]

  /** `SamplerProperties` */
  datatype SamplerProperties = SamplerProperties(
    flags: Flags,
    magFilter: Filter,
    minFilter: Filter,
    mipmapMode: MipmapMode,
    addressMode: AddressModes,
    mipLodBias: F32,
    maxAnisotropy: Option<F32>,
    compareOp: Option<CompareOp>,
    minLod: F32,
    maxLod: F32,
    borderColor: BorderColor,
    unnormalizedCoordinates: bool)

  /** `vk::SamplerCreateInfo` */
  datatype SamplerCreateInfo = SamplerCreateInfo(
    flags: Flags,
    magFilter: Filter,
    minFilter: Filter,
    mipmapMode: MipmapMode,
    addressModeU: AddressMode,
    addressModeV: AddressMode,
    addressModeW: AddressMode,
    mipLodBias: F32,
    anisotropyEnable: Bool32,
    maxAnisotropy: F32,
    compareEnable: Bool32,
    compareOp: CompareOp,
    minLod: F32,
    maxLod: F32,
    borderColor: BorderColor,
    unnormalizedCoordinates: Bool32)

  /**
   * `SamplerProperties::default()` (both crates): nearest filtering, clamped
   * to the edge on all three axes, no anisotropy or compare, an unclamped
   * maximum LOD, a transparent black border and normalized coordinates.
   */
  function DefaultProperties(): (r: SamplerProperties)
    ensures r.magFilter == FILTER_NEAREST && r.minFilter == FILTER_NEAREST && r.mipmapMode == MIPMAP_MODE_NEAREST
    ensures forall i :: 0 <= i < 3 ==> r.addressMode[i] == ADDRESS_MODE_CLAMP_TO_EDGE
    ensures r.maxAnisotropy.None? && r.compareOp.None? && r.maxLod == LOD_CLAMP_NONE
    ensures r.mipLodBias == F32_ZERO && r.minLod == F32_ZERO
    ensures r.borderColor == BORDER_COLOR_FLOAT_TRANSPARENT_BLACK && !r.unnormalizedCoordinates && r.flags == 0
  {
    SamplerProperties(0, FILTER_NEAREST, FILTER_NEAREST, MIPMAP_MODE_NEAREST,
                      [ADDRESS_MODE_CLAMP_TO_EDGE, ADDRESS_MODE_CLAMP_TO_EDGE, ADDRESS_MODE_CLAMP_TO_EDGE],
                      F32_ZERO, None, None, F32_ZERO, LOD_CLAMP_NONE, BORDER_COLOR_FLOAT_TRANSPARENT_BLACK, false)
  }

  /**
   * `write_create_info_builder` (bort-vk) and `create_info_builder` (src):
   * the address modes in u, v, w order; each `Option` as an enable flag and
   * its value, or 0 / `NEVER` in its absence.
   */
  function CreateInfoBuilder(p: SamplerProperties): (r: SamplerCreateInfo)
    ensures r.addressModeU == p.addressMode[0] && r.addressModeV == p.addressMode[1] &&
            r.addressModeW == p.addressMode[2]
    ensures FromBool32(r.anisotropyEnable) <==> p.maxAnisotropy.Some?
    ensures r.maxAnisotropy == p.maxAnisotropy.UnwrapOr(F32_ZERO)
    ensures FromBool32(r.compareEnable) <==> p.compareOp.Some?
    ensures r.compareOp == p.compareOp.UnwrapOr(COMPARE_NEVER)
  {
    SamplerCreateInfo(p.flags, p.magFilter, p.minFilter, p.mipmapMode,
                      p.addressMode[0], p.addressMode[1], p.addressMode[2], p.mipLodBias,
                      ToBool32(p.maxAnisotropy.Some?), p.maxAnisotropy.UnwrapOr(F32_ZERO),
                      ToBool32(p.compareOp.Some?), p.compareOp.UnwrapOr(COMPARE_NEVER),
                      p.minLod, p.maxLod, p.borderColor, ToBool32(p.unnormalizedCoordinates))
  }

  /** `from_create_info_builder`: a disabled option reads as `None`, whatever value sits beside it. */
  function FromCreateInfoBuilder(ci: SamplerCreateInfo): (r: SamplerProperties)
    ensures r.maxAnisotropy.Some? <==> ci.anisotropyEnable != 0
    ensures r.compareOp.Some? <==> ci.compareEnable != 0
  {
    SamplerProperties(ci.flags, ci.magFilter, ci.minFilter, ci.mipmapMode,
                      [ci.addressModeU, ci.addressModeV, ci.addressModeW], ci.mipLodBias,
                      if ci.anisotropyEnable != 0 then Some(ci.maxAnisotropy) else None,
                      if ci.compareEnable != 0 then Some(ci.compareOp) else None,
                      ci.minLod, ci.maxLod, ci.borderColor, ci.unnormalizedCoordinates != 0)
  }

  /** Every set of sampler properties survives its create info. */
  lemma RoundTrip(p: SamplerProperties)
    ensures FromCreateInfoBuilder(CreateInfoBuilder(p)) == p
  {
    assert [p.addressMode[0], p.addressMode[1], p.addressMode[2]] == p.addressMode;
  }

  /** A create info as the encoder writes it: booleans 0 or 1, and 0 / `NEVER` beside a disabled option. */
  predicate Canonical(ci: SamplerCreateInfo) {
    ci.anisotropyEnable <= 1 && ci.compareEnable <= 1 && ci.unnormalizedCoordinates <= 1 &&
    (ci.anisotropyEnable == 0 ==> ci.maxAnisotropy == F32_ZERO) &&
    (ci.compareEnable == 0 ==> ci.compareOp == COMPARE_NEVER)
  }

  /** Decoding then encoding restores a create info exactly when it is canonical. */
  lemma CreateInfoRoundTrip(ci: SamplerCreateInfo)
    ensures CreateInfoBuilder(FromCreateInfoBuilder(ci)) == ci <==> Canonical(ci)
  {
    if CreateInfoBuilder(FromCreateInfoBuilder(ci)) == ci {
      assert ci.anisotropyEnable == ToBool32(ci.anisotropyEnable != 0);
      assert ci.compareEnable == ToBool32(ci.compareEnable != 0);
      assert ci.unnormalizedCoordinates == ToBool32(ci.unnormalizedCoordinates != 0);
    }
  }

  /** `Sampler`: its handle, its properties and its device. */
  datatype SamplerObject = SamplerObject(handle: Handle, properties: SamplerProperties, device: Handle)

  /** `Sampler::new` (both crates): the encoded properties go to the driver, and the sampler keeps them. */
  function New(device: Handle, p: SamplerProperties, created: Result<Handle, VkError>): (r: (Result<SamplerObject, VkError>, SamplerCreateInfo))
    ensures r.1 == CreateInfoBuilder(p)
    ensures created.Err? ==> r.0 == Err(created.error)
    ensures created.Ok? ==> r.0 == Ok(SamplerObject(created.value, p, device))
  {
    match created
    case Err(e) => (Err(e), CreateInfoBuilder(p))
    case Ok(h) => (Ok(SamplerObject(h, p, device)), CreateInfoBuilder(p))
  }

  /** `Sampler::new_from_create_info`: the caller's create info is sent and its decoding kept. */
  function NewFromCreateInfo(device: Handle, ci: SamplerCreateInfo, created: Result<Handle, VkError>): (r: Result<SamplerObject, VkError>)
    ensures created.Err? ==> r == Err(created.error)
    ensures created.Ok? ==> r.Ok? && r.value.handle == created.value && r.value.properties == FromCreateInfoBuilder(ci)
  {
    match created
    case Err(e) => Err(e)
    case Ok(h) => Ok(SamplerObject(h, FromCreateInfoBuilder(ci), device))
  }

  /** Creating from the encoding of some properties stores those same properties. */
  lemma NewFromCreateInfoAgreesWithNew(device: Handle, p: SamplerProperties, created: Result<Handle, VkError>)
    ensures NewFromCreateInfo(device, CreateInfoBuilder(p), created) == New(device, p, created).0
  {
    RoundTrip(p);
  }
}
