// Image view properties and their `vk::ImageViewCreateInfo` encoding
// (bort-vk/src/image_view.rs; src/image_view.rs is the same struct with the
// flags field named `create_flags`).
module ImageView {
  import opened Wrappers
  import opened VkTypes
  import opened Dimensions
  import opened Image

  /** `vk::ComponentMapping` */
  datatype ComponentMapping = ComponentMapping(r: ComponentSwizzle, g: ComponentSwizzle, b: ComponentSwizzle, a: ComponentSwizzle)

  /** `vk::ImageSubresourceLayers` */
  datatype SubresourceLayers = SubresourceLayers(aspectMask: Flags, mipLevel: u32, baseArrayLayer: u32, layerCount: u32)

  /** `ImageViewProperties` */
  datatype ImageViewProperties = ImageViewProperties(
    flags: Flags,
    viewType: ImageViewType,
    componentMapping: ComponentMapping,
    format: Format,
    subresourceRange: SubresourceRange)

  /** `vk::ImageViewCreateInfo` */
  datatype ImageViewCreateInfo = ImageViewCreateInfo(
    flags: Flags,
    image: Handle,
    viewType: ImageViewType,
    format: Format,
    components: ComponentMapping,
    subresourceRange: SubresourceRange)

  /** `default_component_mapping`: each channel reads its own component. */
  function DefaultComponentMapping(): ComponentMapping {
    ComponentMapping(SWIZZLE_R, SWIZZLE_G, SWIZZLE_B, SWIZZLE_A)
  }

  /** `default_subresource_range`: the first mip level and the first layer only. */
  function DefaultSubresourceRange(aspectMask: Flags): (r: SubresourceRange)
    ensures r.aspectMask == aspectMask
    ensures r.baseMipLevel == 0 && r.levelCount == 1 && r.baseArrayLayer == 0 && r.layerCount == 1
  {
    SubresourceRange(aspectMask, 0, 1, 0, 1)
  }

  /** `default_subresource_layers`: mip level 0, the first layer only. */
  function DefaultSubresourceLayers(aspectMask: Flags): (r: SubresourceLayers)
    ensures r.aspectMask == aspectMask && r.mipLevel == 0 && r.baseArrayLayer == 0 && r.layerCount == 1
  {
    SubresourceLayers(aspectMask, 0, 0, 1)
  }

  /** `ImageViewProperties::default()`: identity mapping, no flags, one colour subresource. */
  function DefaultProperties(): (r: ImageViewProperties)
    ensures r.componentMapping == DefaultComponentMapping() && r.flags == 0
    ensures r.subresourceRange == DefaultSubresourceRange(ASPECT_COLOR)
  {
    ImageViewProperties(0, VIEW_TYPE_1D, DefaultComponentMapping(), FORMAT_UNDEFINED,
                        DefaultSubresourceRange(ASPECT_COLOR))
  }

  /**
   * `from_image_properties_default` (both crates): a view of the whole image,
   * with the image's format and default view type.
   */
  function FromImagePropertiesDefault(p: ImageProperties): (r: ImageViewProperties)
    ensures r.format == p.format && r.viewType == p.dimensions.DefaultImageViewType()
    ensures r.subresourceRange == SubresourceRangeOf(p)
    ensures r.flags == 0 && r.componentMapping == DefaultComponentMapping()
  {
    DefaultProperties().(format := p.format, subresourceRange := SubresourceRangeOf(p),
                         viewType := p.dimensions.DefaultImageViewType())
  }

  /** The view covers every layer of the image, as an array view exactly when there are several. */
  lemma FromImageCoversAllLayers(p: ImageProperties)
    requires p.dimensions.Dim2d?
    ensures var v := FromImagePropertiesDefault(p);
      v.subresourceRange.layerCount == p.dimensions.arrayLayers &&
      (v.viewType == VIEW_TYPE_2D_ARRAY <==> p.dimensions.arrayLayers != 1)
  {
  }

  /** `create_info_builder(image_handle)` (both crates) */
  function CreateInfoBuilder(p: ImageViewProperties, imageHandle: Handle): (r: ImageViewCreateInfo)
    ensures r.image == imageHandle
  {
    ImageViewCreateInfo(p.flags, imageHandle, p.viewType, p.format, p.componentMapping, p.subresourceRange)
  }

  /** `from_create_info_builder`: every field but the image handle. */
  function FromCreateInfoBuilder(ci: ImageViewCreateInfo): (r: ImageViewProperties)
    ensures CreateInfoBuilder(r, ci.image) == ci
  {
    ImageViewProperties(ci.flags, ci.viewType, ci.components, ci.format, ci.subresourceRange)
  }

  /** Every set of view properties survives the create info, whatever the image. */
  lemma RoundTrip(p: ImageViewProperties, imageHandle: Handle)
    ensures FromCreateInfoBuilder(CreateInfoBuilder(p, imageHandle)) == p
  {
  }

  /** Decoding loses only the image handle: writing back with the same handle restores the create info. */
  lemma CreateInfoRoundTrip(ci: ImageViewCreateInfo)
    ensures CreateInfoBuilder(FromCreateInfoBuilder(ci), ci.image) == ci
  {
  }

  /** `ImageView`: its handle, its properties and the image it views. */
  datatype ImageViewObject = ImageViewObject(handle: Handle, properties: ImageViewProperties, image: Handle)

  /**
   * `ImageView::new`: the properties are encoded for the image's handle and
   * sent to the driver; the view keeps the properties and its image, or the
   * driver's error is returned. The create info sent is returned with the result.
   */
  function NewImageView(image: Handle, p: ImageViewProperties, created: Result<Handle, VkError>)
    : (r: (Result<ImageViewObject, VkError>, ImageViewCreateInfo))
    ensures r.1 == CreateInfoBuilder(p, image)
    ensures created.Err? ==> r.0 == Err(created.error)
    ensures created.Ok? ==> r.0 == Ok(ImageViewObject(created.value, p, image))
  {
    match created
    case Err(e) => (Err(e), CreateInfoBuilder(p, image))
    case Ok(h) => (Ok(ImageViewObject(h, p, image)), CreateInfoBuilder(p, image))
  }

  /**
   * `ImageView::new_from_create_info`: the caller's create info is sent
   * unchanged and the view keeps the properties decoded from it.
   */
  function NewImageViewFromCreateInfo(image: Handle, ci: ImageViewCreateInfo, created: Result<Handle, VkError>)
    : (r: Result<ImageViewObject, VkError>)
    ensures created.Err? ==> r == Err(created.error)
    ensures created.Ok? ==> r == Ok(ImageViewObject(created.value, FromCreateInfoBuilder(ci), image))
  {
    match created
    case Err(e) => Err(e)
    case Ok(h) => Ok(ImageViewObject(h, FromCreateInfoBuilder(ci), image))
  }

  /** A view made from the create info `new` sends is the view `new` makes. */
  lemma NewFromCreateInfoAgrees(image: Handle, p: ImageViewProperties, created: Result<Handle, VkError>)
    ensures NewImageViewFromCreateInfo(image, NewImageView(image, p, created).1, created) == NewImageView(image, p, created).0
  {
    RoundTrip(p, image);
  }
}
