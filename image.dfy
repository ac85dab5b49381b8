// Image properties and their `vk::ImageCreateInfo` encoding, the transient
// image preset, the aspect mask of a format and the guaranteed depth formats
// (bort-vk/src/image.rs; the older src/image.rs and src/image_properties.rs
// hold the same struct, named `create_flags` there, with different defaults).
module Image {
  import opened Wrappers
  import opened VkTypes
  import opened Dimensions
  import opened MemoryAllocation

  /** `ImageProperties` */
  datatype ImageProperties = ImageProperties(
    flags: Flags,
    format: Format,
    dimensions: ImageDimensions,
    mipLevels: u32,
    samples: Flags,
    tiling: ImageTiling,
    usage: Flags,
    sharingMode: SharingMode,
    queueFamilyIndices: seq<u32>,
    initialLayout: ImageLayout)

  /** `vk::ImageCreateInfo` */
  datatype ImageCreateInfo = ImageCreateInfo(
    flags: Flags,
    imageType: ImageType,
    format: Format,
    extent: Extent3D,
    mipLevels: u32,
    arrayLayers: u32,
    samples: Flags,
    tiling: ImageTiling,
    usage: Flags,
    sharingMode: SharingMode,
    queueFamilyIndexCount: u32,
    pQueueFamilyIndices: Ptr<u32>,
    initialLayout: ImageLayout)

  /** `vk::ImageSubresourceRange` */
  datatype SubresourceRange = SubresourceRange(
    aspectMask: Flags, baseMipLevel: u32, levelCount: u32, baseArrayLayer: u32, layerCount: u32)

  /**
   * `ImageProperties::default()` (bort-vk): one mip level, one sample,
   * optimal tiling, exclusive, no queue families, undefined layout, no flags;
   * format, dimensions and usage are placeholders.
   */
  function DefaultProperties(): (r: ImageProperties)
    ensures r.flags == 0 && r.format == FORMAT_UNDEFINED && r.dimensions == DefaultDimensions()
    ensures r.mipLevels == 1 && r.samples == SAMPLE_COUNT_1 && r.tiling == TILING_OPTIMAL && r.usage == 0
    ensures r.sharingMode == SHARING_EXCLUSIVE && r.queueFamilyIndices == [] && r.initialLayout == LAYOUT_UNDEFINED
  {
    ImageProperties(0, FORMAT_UNDEFINED, DefaultDimensions(), 1, SAMPLE_COUNT_1, TILING_OPTIMAL,
                    0, SHARING_EXCLUSIVE, [], LAYOUT_UNDEFINED)
  }

  /** The src/image_properties.rs `Default`: the same values but the `GENERAL` layout. */
  function LegacyGeneralDefaultProperties(): (r: ImageProperties)
    ensures r == DefaultProperties().(initialLayout := LAYOUT_GENERAL)
  {
    ImageProperties(0, FORMAT_UNDEFINED, DefaultDimensions(), 1, SAMPLE_COUNT_1, TILING_OPTIMAL,
                    0, SHARING_EXCLUSIVE, [], LAYOUT_GENERAL)
  }

  /** The fields a `Default` fixes; what the three defaults hold in common besides their layout. */
  predicate HasDefaultSettings(p: ImageProperties) {
    p.flags == 0 && p.mipLevels == 1 && p.samples == SAMPLE_COUNT_1 && p.tiling == TILING_OPTIMAL &&
    p.sharingMode == SHARING_EXCLUSIVE && p.queueFamilyIndices == []
  }

  /** `new_default` (bort-vk): the default with only format, dimensions and usage replaced. */
  function NewDefault(format: Format, dimensions: ImageDimensions, usage: Flags): (r: ImageProperties)
    ensures r.format == format && r.dimensions == dimensions && r.usage == usage
    ensures HasDefaultSettings(r) && r.initialLayout == LAYOUT_UNDEFINED
  {
    DefaultProperties().(format := format, dimensions := dimensions, usage := usage)
  }

  /**
   * `new_default` (src/image.rs): four fields replaced, the rest from that
   * file's `Default`, which has the same values as bort-vk's.
   */
  function LegacyNewDefault(format: Format, dimensions: ImageDimensions, usage: Flags, initialLayout: ImageLayout): (r: ImageProperties)
    ensures r.format == format && r.dimensions == dimensions && r.usage == usage
    ensures r.initialLayout == initialLayout && HasDefaultSettings(r)
  {
    DefaultProperties().(format := format, dimensions := dimensions, usage := usage, initialLayout := initialLayout)
  }

  /** `new_default` (src/image_properties.rs): four fields replaced, the rest from its `Default`. */
  function LegacyGeneralNewDefault(format: Format, dimensions: ImageDimensions, usage: Flags, initialLayout: ImageLayout): (r: ImageProperties)
    ensures r.format == format && r.dimensions == dimensions && r.usage == usage
    ensures r.initialLayout == initialLayout && HasDefaultSettings(r)
  {
    LegacyGeneralDefaultProperties().(format := format, dimensions := dimensions, usage := usage, initialLayout := initialLayout)
  }

  // ---- aspect mask ----

  /** The seven formats the aspect mask treats as depth and/or stencil. */
  predicate IsDepthOrStencil(f: Format) {
    f in {FORMAT_D16_UNORM, FORMAT_X8_D24_UNORM_PACK32, FORMAT_D32_SFLOAT, FORMAT_S8_UINT,
          FORMAT_D16_UNORM_S8_UINT, FORMAT_D24_UNORM_S8_UINT, FORMAT_D32_SFLOAT_S8_UINT}
  }

  /** The six formats with a depth component. */
  predicate HasDepth(f: Format) {
    f in {FORMAT_D16_UNORM, FORMAT_X8_D24_UNORM_PACK32, FORMAT_D32_SFLOAT,
          FORMAT_D16_UNORM_S8_UINT, FORMAT_D24_UNORM_S8_UINT, FORMAT_D32_SFLOAT_S8_UINT}
  }

  /** The four formats with a stencil component. */
  predicate HasStencil(f: Format) {
    f in {FORMAT_S8_UINT, FORMAT_D16_UNORM_S8_UINT, FORMAT_D24_UNORM_S8_UINT, FORMAT_D32_SFLOAT_S8_UINT}
  }

  predicate HasBit(flags: Flags, bit: Flags) {
    flags & bit != 0
  }

  /**
   * `aspect_mask_from_format`: starting from no aspect, add `COLOR` unless
   * the format is one of the seven depth/stencil formats, then `DEPTH` for
   * the depth formats, then `STENCIL` for the stencil formats.
   */
  function AspectMaskFromFormat(format: Format): (r: Flags)
    ensures HasBit(r, ASPECT_COLOR) <==> !IsDepthOrStencil(format)
    ensures HasBit(r, ASPECT_DEPTH) <==> HasDepth(format)
    ensures HasBit(r, ASPECT_STENCIL) <==> HasStencil(format)
    ensures r & !(ASPECT_COLOR | ASPECT_DEPTH | ASPECT_STENCIL) == 0
  {
    var aspect0: Flags := 0;
    var aspect1 := if !IsDepthOrStencil(format) then aspect0 | ASPECT_COLOR else aspect0;
    var aspect2 := if HasDepth(format) then aspect1 | ASPECT_DEPTH else aspect1;
    var aspect3 := if HasStencil(format) then aspect2 | ASPECT_STENCIL else aspect2;
    aspect3
  }

  /** Every format has colour or depth/stencil aspects, never both. */
  lemma ColorExcludesDepthStencil(format: Format)
    ensures var m := AspectMaskFromFormat(format);
      (HasBit(m, ASPECT_COLOR) <==> !(HasBit(m, ASPECT_DEPTH) || HasBit(m, ASPECT_STENCIL)))
  {
  }

  /** `S8_UINT` yields the stencil aspect alone; combined formats yield both depth and stencil. */
  lemma StencilOnlyFormat()
    ensures AspectMaskFromFormat(FORMAT_S8_UINT) == ASPECT_STENCIL
    ensures AspectMaskFromFormat(FORMAT_D24_UNORM_S8_UINT) == ASPECT_DEPTH | ASPECT_STENCIL
    ensures AspectMaskFromFormat(FORMAT_D32_SFLOAT) == ASPECT_DEPTH
  {
  }

  /**
   * `subresource_range`: every mip level and every layer of the image, with
   * the aspect of its format.
   */
  function SubresourceRangeOf(p: ImageProperties): (r: SubresourceRange)
    ensures r.baseMipLevel == 0 && r.levelCount == p.mipLevels
    ensures r.baseArrayLayer == 0 && r.layerCount == p.dimensions.ArrayLayers()
    ensures r.aspectMask == AspectMaskFromFormat(p.format)
  {
    SubresourceRange(AspectMaskFromFormat(p.format), 0, p.mipLevels, 0, p.dimensions.ArrayLayers())
  }

  // ---- create info ----

  /** `create_info_builder`: image type, extent and layer count from the dimensions. */
  function CreateInfoBuilder(p: ImageProperties): (r: ImageCreateInfo)
    ensures r.imageType == p.dimensions.ImageType()
    ensures r.extent == p.dimensions.Extent() && r.arrayLayers == p.dimensions.ArrayLayers()
    ensures r.queueFamilyIndexCount == SliceCount(p.queueFamilyIndices)
    ensures r.pQueueFamilyIndices == Points(p.queueFamilyIndices)
  {
    ImageCreateInfo(p.flags, p.dimensions.ImageType(), p.format, p.dimensions.Extent(), p.mipLevels,
                    p.dimensions.ArrayLayers(), p.samples, p.tiling, p.usage, p.sharingMode,
                    SliceCount(p.queueFamilyIndices), Points(p.queueFamilyIndices), p.initialLayout)
  }

  /**
   * What `from_create_info_builder` (and the older `From<&ImageCreateInfo>`)
   * builds: dimensions classified from extent and layer count, and the
   * counted queue family indices, read without a null test.
   */
  function PropertiesFromCreateInfo(ci: ImageCreateInfo): ImageProperties
    requires ReadableUnchecked(ci.queueFamilyIndexCount, ci.pQueueFamilyIndices)
  {
    ImageProperties(ci.flags, ci.format, NewFromExtentAndLayers(ci.extent, ci.arrayLayers), ci.mipLevels,
                    ci.samples, ci.tiling, ci.usage, ci.sharingMode,
                    ReadUnchecked(ci.queueFamilyIndexCount, ci.pQueueFamilyIndices), ci.initialLayout)
  }

  /** `from_create_info_builder`, with its push loop over the queue family indices. */
  method FromCreateInfoBuilder(ci: ImageCreateInfo) returns (p: ImageProperties)
    requires ReadableUnchecked(ci.queueFamilyIndexCount, ci.pQueueFamilyIndices)
    ensures p == PropertiesFromCreateInfo(ci)
  {
    var dimensions := NewFromExtentAndLayers(ci.extent, ci.arrayLayers);
    var queueFamilyIndices := CopyArray(ci.queueFamilyIndexCount, ci.pQueueFamilyIndices);
    p := ImageProperties(ci.flags, ci.format, dimensions, ci.mipLevels, ci.samples, ci.tiling,
                         ci.usage, ci.sharingMode, queueFamilyIndices, ci.initialLayout);
  }

  /**
   * Encoding then decoding gives the properties back exactly when the
   * dimensions are canonical (and the index list fits its `u32` count).
   */
  lemma RoundTrip(p: ImageProperties)
    requires |p.queueFamilyIndices| < U32_LIMIT
    ensures ReadableUnchecked(CreateInfoBuilder(p).queueFamilyIndexCount, CreateInfoBuilder(p).pQueueFamilyIndices)
    ensures PropertiesFromCreateInfo(CreateInfoBuilder(p)) == p <==> p.dimensions.Canonical()
  {
    SliceRoundTrip(p.queueFamilyIndices);
    Dimensions.RoundTrip(p.dimensions);
  }

  /** `Image`: its handle, its properties and the allocation backing it. */
  datatype ImageObject = ImageObject(handle: Handle, properties: ImageProperties, allocation: Handle)

  /**
   * `Image::new`: the allocator creates the image and its memory from the
   * encoded properties (the allocator's answer, an image and an allocation,
   * is the parameter `created`), or fails; on success the image keeps the
   * properties. The create info handed to the allocator is returned with
   * the result.
   */
  function NewImage(p: ImageProperties, created: Result<(Handle, Handle), VkError>)
    : (r: (Result<ImageObject, VkError>, ImageCreateInfo))
    ensures r.1 == CreateInfoBuilder(p)
    ensures created.Err? ==> r.0 == Err(created.error)
    ensures created.Ok? ==> r.0 == Ok(ImageObject(created.value.0, p, created.value.1))
  {
    match created
    case Err(e) => (Err(e), CreateInfoBuilder(p))
    case Ok((h, a)) => (Ok(ImageObject(h, p, a)), CreateInfoBuilder(p))
  }

  /**
   * `Image::new_from_create_info`: the caller's create info goes to the
   * allocator unchanged, and the stored properties are decoded from it.
   */
  method NewImageFromCreateInfo(ci: ImageCreateInfo, created: Result<(Handle, Handle), VkError>)
    returns (r: Result<ImageObject, VkError>)
    requires ReadableUnchecked(ci.queueFamilyIndexCount, ci.pQueueFamilyIndices)
    ensures created.Err? ==> r == Err(created.error)
    ensures created.Ok? ==> r == Ok(ImageObject(created.value.0, PropertiesFromCreateInfo(ci), created.value.1))
  {
    var p := FromCreateInfoBuilder(ci);
    match created {
      case Err(e) => r := Err(e);
      case Ok((h, a)) => r := Ok(ImageObject(h, p, a));
    }
  }

  /**
   * Creating from the create info `new` sends stores the same image as `new`
   * exactly when the dimensions are canonical; otherwise the decoded
   * dimensions are the canonical ones of the same extent and layer count.
   */
  lemma NewFromCreateInfoAgreesWithNew(p: ImageProperties, created: Result<(Handle, Handle), VkError>)
    requires |p.queueFamilyIndices| < U32_LIMIT
    ensures ReadableUnchecked(NewImage(p, created).1.queueFamilyIndexCount, NewImage(p, created).1.pQueueFamilyIndices)
    ensures created.Ok? ==>
      ((Ok(ImageObject(created.value.0, PropertiesFromCreateInfo(NewImage(p, created).1), created.value.1))
          == NewImage(p, created).0) <==> p.dimensions.Canonical())
  {
    RoundTrip(p);
  }

  // ---- presets ----

  /**
   * `transient_image_info` (bort-vk and src/image.rs): transient-attachment
   * usage added to the requested usage, device-local memory required and
   * lazily allocated memory preferred.
   */
  function TransientImageInfo(dimensions: ImageDimensions, format: Format, additionalUsage: Flags)
    : (r: (ImageProperties, AllocationCreateInfo))
    ensures r.0 == NewDefault(format, dimensions, IMAGE_USAGE_TRANSIENT_ATTACHMENT | additionalUsage)
    ensures r.1 == AllocationInfoFromFlags(MEMORY_PROPERTY_DEVICE_LOCAL, MEMORY_PROPERTY_LAZILY_ALLOCATED)
  {
    var properties := NewDefault(format, dimensions, IMAGE_USAGE_TRANSIENT_ATTACHMENT | additionalUsage);
    var allocationInfo := DefaultAllocationCreateInfo().(
      requiredFlags := MEMORY_PROPERTY_DEVICE_LOCAL,
      preferredFlags := MEMORY_PROPERTY_LAZILY_ALLOCATED);
    (properties, allocationInfo)
  }

  /**
   * src/image_properties.rs `transient_image_info`: lazily allocated and
   * device-local memory both required, nothing preferred, and the `GENERAL`
   * default layout.
   */
  function LegacyGeneralTransientImageInfo(dimensions: ImageDimensions, format: Format, additionalUsage: Flags)
    : (r: (ImageProperties, AllocationCreateInfo))
    ensures r.0 == LegacyGeneralNewDefault(format, dimensions, IMAGE_USAGE_TRANSIENT_ATTACHMENT | additionalUsage, LAYOUT_GENERAL)
    ensures r.1 == AllocationInfoFromFlags(MEMORY_PROPERTY_LAZILY_ALLOCATED | MEMORY_PROPERTY_DEVICE_LOCAL, 0)
  {
    var properties := LegacyGeneralDefaultProperties().(
      dimensions := dimensions, format := format, usage := IMAGE_USAGE_TRANSIENT_ATTACHMENT | additionalUsage);
    var allocationInfo := DefaultAllocationCreateInfo().(
      requiredFlags := MEMORY_PROPERTY_LAZILY_ALLOCATED | MEMORY_PROPERTY_DEVICE_LOCAL);
    (properties, allocationInfo)
  }

  /** The transient usage is always among the usage flags, whatever else is asked for. */
  lemma TransientUsageAlwaysSet(dimensions: ImageDimensions, format: Format, additionalUsage: Flags)
    ensures Contains(TransientImageInfo(dimensions, format, additionalUsage).0.usage, IMAGE_USAGE_TRANSIENT_ATTACHMENT)
    ensures Contains(TransientImageInfo(dimensions, format, additionalUsage).0.usage, additionalUsage)
    ensures Contains(LegacyGeneralTransientImageInfo(dimensions, format, additionalUsage).0.usage, IMAGE_USAGE_TRANSIENT_ATTACHMENT)
  {
  }

  /**
   * `guaranteed_depth_stencil_format`: `D24_UNORM_S8_UINT` when its optimal
   * tiling features (queried from the device, here a parameter) allow a
   * depth-stencil attachment, otherwise `D32_SFLOAT_S8_UINT`, which Vulkan
   * then guarantees.
   */
  function GuaranteedDepthStencilFormat(d24S8OptimalTilingFeatures: Flags): (r: Format)
    ensures r == FORMAT_D24_UNORM_S8_UINT <==> Contains(d24S8OptimalTilingFeatures, FORMAT_FEATURE_DEPTH_STENCIL_ATTACHMENT)
    ensures HasDepth(r) && HasStencil(r)
  {
    if Contains(d24S8OptimalTilingFeatures, FORMAT_FEATURE_DEPTH_STENCIL_ATTACHMENT) then FORMAT_D24_UNORM_S8_UINT
    else FORMAT_D32_SFLOAT_S8_UINT
  }

  /**
   * `guaranteed_pure_depth_format`: `D32_SFLOAT` when it supports a
   * depth-stencil attachment, otherwise `X8_D24_UNORM_PACK32`.
   */
  function GuaranteedPureDepthFormat(d32OptimalTilingFeatures: Flags): (r: Format)
    ensures r == FORMAT_D32_SFLOAT <==> Contains(d32OptimalTilingFeatures, FORMAT_FEATURE_DEPTH_STENCIL_ATTACHMENT)
    ensures HasDepth(r) && !HasStencil(r)
  {
    if Contains(d32OptimalTilingFeatures, FORMAT_FEATURE_DEPTH_STENCIL_ATTACHMENT) then FORMAT_D32_SFLOAT
    else FORMAT_X8_D24_UNORM_PACK32
  }

  /** `extent_2d_from_width_height` */
  function Extent2dFromWidthHeight(dimensions: seq<u32>): (r: Extent2D)
    requires |dimensions| == 2
    ensures [r.width, r.height] == dimensions
  {
    Extent2D(dimensions[0], dimensions[1])
  }
}
