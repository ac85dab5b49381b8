// Swapchain properties, their selection from the surface capabilities, their
// `vk::SwapchainCreateInfoKHR` encoding, and the swapchain object with its
// images (bort-vk/src/swapchain.rs; the older src/swapchain.rs and
// src/swapchain_image.rs as the `Legacy` members).
module Swapchain {
  import opened Wrappers
  import opened VkTypes
  import opened Dimensions
  import opened Common
  import Image
  import ImageView
  import opened Surface

  /** `vk::SurfaceTransformFlagsKHR::IDENTITY` */
  const TRANSFORM_IDENTITY: Flags := 0x1

  /** `vk::CompositeAlphaFlagsKHR` bits. */
  const COMPOSITE_ALPHA_OPAQUE: Flags := 0x1
  const COMPOSITE_ALPHA_PRE_MULTIPLIED: Flags := 0x2
  const COMPOSITE_ALPHA_POST_MULTIPLIED: Flags := 0x4
  const COMPOSITE_ALPHA_INHERIT: Flags := 0x8

  /** The order in which `choose_composite_alpha` tries the composite alpha modes. */
  const COMPOSITE_ALPHA_PREFERENCE: seq<Flags> :=
    [COMPOSITE_ALPHA_POST_MULTIPLIED, COMPOSITE_ALPHA_OPAQUE, COMPOSITE_ALPHA_PRE_MULTIPLIED, COMPOSITE_ALPHA_INHERIT]

  /** `u32::MAX`: a `current_extent.width` that leaves the extent to the swapchain. */
  const EXTENT_UNDEFINED: u32 := 0xFFFF_FFFF

  /** `vk::SurfaceCapabilitiesKHR`, reduced to the fields the selection reads. */
  datatype SurfaceCapabilities = SurfaceCapabilities(
    minImageCount: u32,
    maxImageCount: u32,
    currentExtent: Extent2D,
    currentTransform: Flags,
    supportedTransforms: Flags,
    supportedCompositeAlpha: Flags)

  /** `SwapchainProperties` (both crates; the flags field is `create_flags` in src/swapchain.rs). */
  datatype SwapchainProperties = SwapchainProperties(
    flags: Flags,
    imageCount: u32,
    preTransform: Flags,
    compositeAlpha: Flags,
    presentMode: PresentMode,
    clippingEnabled: bool,
    surfaceFormat: SurfaceFormat,
    widthHeight: (u32, u32),
    arrayLayers: u32,
    imageUsage: Flags,
    sharingMode: SharingMode,
    queueFamilyIndices: seq<u32>)

  /** `SwapchainError`; src/swapchain.rs has every variant but `GetSwapchainImages`. */
  datatype SwapchainError =
    | GetPhysicalDeviceSurfaceCapabilities(result: VkError)
    | GetPhysicalDeviceSurfacePresentModes(result: VkError)
    | Creation(result: VkError)
    | GetSwapchainImages(result: VkError)

  /** `vk::SwapchainCreateInfoKHR` */
  datatype SwapchainCreateInfo = SwapchainCreateInfo(
    flags: Flags,
    surface: Handle,
    minImageCount: u32,
    imageFormat: Format,
    imageColorSpace: ColorSpace,
    imageExtent: Extent2D,
    imageArrayLayers: u32,
    imageUsage: Flags,
    imageSharingMode: SharingMode,
    preTransform: Flags,
    compositeAlpha: Flags,
    presentMode: PresentMode,
    clipped: Bool32,
    oldSwapchain: Handle,
    queueFamilyIndexCount: u32,
    pQueueFamilyIndices: Ptr<u32>)

  /**
   * `SwapchainProperties::default()`: one image, one layer, exclusive sharing,
   * clipping on, mailbox presentation and no flags; the surface format,
   * size, usage, pre-transform and composite alpha are placeholders.
   */
  function DefaultProperties(): (r: SwapchainProperties)
    ensures r.imageCount == 1 && r.arrayLayers == 1 && r.sharingMode == SHARING_EXCLUSIVE
    ensures r.queueFamilyIndices == [] && r.clippingEnabled && r.presentMode == PRESENT_MODE_MAILBOX && r.flags == 0
    ensures r.surfaceFormat == SurfaceFormat(FORMAT_UNDEFINED, 0) && r.widthHeight == (1, 1)
    ensures r.imageUsage == 0 && r.preTransform == 0 && r.compositeAlpha == 0
  {
    SwapchainProperties(0, 1, 0, 0, PRESENT_MODE_MAILBOX, true, SurfaceFormat(FORMAT_UNDEFINED, 0),
                        (1, 1), 1, 0, SHARING_EXCLUSIVE, [])
  }

  function Max(a: u32, b: u32): u32 { if a < b then b else a }
  function Min(a: u32, b: u32): u32 { if a < b then a else b }

  /**
   * The image count of `new_default`: the preferred count when the surface
   * has no maximum (`max_image_count == 0`), otherwise the preferred count
   * clamped to `[min_image_count, max_image_count]`, the minimum winning
   * over an inconsistent maximum.
   */
  function ImageCount(preferred: u32, caps: SurfaceCapabilities): (r: u32)
    ensures caps.maxImageCount == 0 ==> r == preferred
    ensures caps.maxImageCount != 0 ==> caps.minImageCount <= r
    ensures caps.maxImageCount != 0 && caps.minImageCount <= caps.maxImageCount ==> r <= caps.maxImageCount
    ensures caps.maxImageCount != 0 && caps.minImageCount <= preferred <= caps.maxImageCount ==> r == preferred
    ensures caps.maxImageCount != 0 && preferred < caps.minImageCount ==> r == caps.minImageCount
    ensures caps.maxImageCount != 0 && caps.minImageCount <= caps.maxImageCount < preferred ==> r == caps.maxImageCount
  {
    var imageCount := preferred;
    if caps.maxImageCount != 0 then Max(Min(imageCount, caps.maxImageCount), caps.minImageCount)
    else imageCount
  }

  /** Asking again for the count the clamp chose gives the same count. */
  lemma ImageCountIdempotent(preferred: u32, caps: SurfaceCapabilities)
    ensures ImageCount(ImageCount(preferred, caps), caps) == ImageCount(preferred, caps)
  {
  }

  /**
   * The image count of src/swapchain.rs `Swapchain::new` as written: the
   * clamp is applied even when `max_image_count == 0`, which means the
   * surface has no maximum.
   */
  function LegacyImageCountAsWritten(preferred: u32, caps: SurfaceCapabilities): (r: u32)
    ensures caps.minImageCount <= r
    ensures r == preferred || r == caps.minImageCount || r == caps.maxImageCount
  {
    Max(Min(preferred, caps.maxImageCount), caps.minImageCount)
  }

  /** On a surface without a maximum the legacy count ignores the preference and takes the minimum. */
  lemma LegacyImageCountIgnoresPreferenceWhenUnbounded(preferred: u32, caps: SurfaceCapabilities)
    requires caps.maxImageCount == 0
    ensures LegacyImageCountAsWritten(preferred, caps) == caps.minImageCount
    ensures preferred != caps.minImageCount ==> LegacyImageCountAsWritten(preferred, caps) != ImageCount(preferred, caps)
  {
  }

  /** Where the surface does have a maximum, the legacy count and the corrected one agree. */
  lemma LegacyImageCountAgreesWhenBounded(preferred: u32, caps: SurfaceCapabilities)
    requires caps.maxImageCount != 0
    ensures LegacyImageCountAsWritten(preferred, caps) == ImageCount(preferred, caps)
  {
  }

  /** A surface with at least two images and no maximum: a preference for three yields two. */
  lemma LegacyImageCountCounterexample()
    ensures var caps := SurfaceCapabilities(2, 0, Extent2D(800, 600), TRANSFORM_IDENTITY, TRANSFORM_IDENTITY, COMPOSITE_ALPHA_OPAQUE);
      LegacyImageCountAsWritten(3, caps) == 2 && ImageCount(3, caps) == 3
  {
  }

  /** The extent of `new_default`: the window size exactly when the surface leaves the extent open. */
  function ChooseExtent(caps: SurfaceCapabilities, windowDimensions: (u32, u32)): (r: Extent2D)
    ensures caps.currentExtent.width == EXTENT_UNDEFINED ==> r.width == windowDimensions.0 && r.height == windowDimensions.1
    ensures caps.currentExtent.width != EXTENT_UNDEFINED ==> r == caps.currentExtent
  {
    match caps.currentExtent.width
    case 0xFFFF_FFFF => Extent2D(windowDimensions.0, windowDimensions.1)
    case _ => caps.currentExtent
  }

  /** The present mode of `new_default`: `MAILBOX` when the surface offers it, `FIFO` otherwise. */
  function ChoosePresentMode(presentModes: seq<PresentMode>): (r: PresentMode)
    ensures r == PRESENT_MODE_MAILBOX <==> PRESENT_MODE_MAILBOX in presentModes
    ensures r != PRESENT_MODE_MAILBOX ==> r == PRESENT_MODE_FIFO
  {
    if PRESENT_MODE_MAILBOX in presentModes then PRESENT_MODE_MAILBOX else PRESENT_MODE_FIFO
  }

  /** Every surface offers `FIFO`, so the chosen mode is always one the surface offers. */
  lemma ChosenPresentModeIsOffered(presentModes: seq<PresentMode>)
    requires PRESENT_MODE_FIFO in presentModes
    ensures ChoosePresentMode(presentModes) in presentModes
  {
  }

  /** The pre-transform of `new_default`: `IDENTITY` when supported, the current transform otherwise. */
  function ChoosePreTransform(caps: SurfaceCapabilities): (r: Flags)
    ensures Contains(caps.supportedTransforms, TRANSFORM_IDENTITY) ==> r == TRANSFORM_IDENTITY
    ensures !Contains(caps.supportedTransforms, TRANSFORM_IDENTITY) ==> r == caps.currentTransform
  {
    if Contains(caps.supportedTransforms, TRANSFORM_IDENTITY) then TRANSFORM_IDENTITY else caps.currentTransform
  }

  /** The chosen pre-transform is supported whenever the current one is. */
  lemma ChosenPreTransformSupported(caps: SurfaceCapabilities)
    requires Contains(caps.supportedTransforms, caps.currentTransform)
    ensures Contains(caps.supportedTransforms, ChoosePreTransform(caps))
  {
  }

  /** The `find` over a preference list: its first entry that `supported` contains. */
  function FirstSupported(preference: seq<Flags>, supported: Flags): (r: Option<Flags>)
    ensures r.Some? ==> (Contains(supported, r.value) &&
      exists i :: (0 <= i < |preference| && preference[i] == r.value &&
                   forall j :: 0 <= j < i ==> !Contains(supported, preference[j])))
    ensures r.None? <==> forall i :: 0 <= i < |preference| ==> !Contains(supported, preference[i])
  {
    if |preference| == 0 then None
    else if Contains(supported, preference[0]) then
      assert preference[0] == preference[0];
      Some(preference[0])
    else
      var rest := FirstSupported(preference[1..], supported);
      if rest.Some? then
        var i :| 0 <= i < |preference[1..]| && preference[1..][i] == rest.value &&
          forall j :: 0 <= j < i ==> !Contains(supported, preference[1..][j]);
        assert preference[i + 1] == rest.value;
        assert forall j :: 0 <= j < i + 1 ==> !Contains(supported, preference[j]) by {
          forall j | 0 <= j < i + 1 ensures !Contains(supported, preference[j]) {
            if j > 0 { assert preference[j] == preference[1..][j - 1]; }
          }
        }
        rest
      else
        assert forall i :: 1 <= i < |preference| ==> preference[i] == preference[1..][i - 1];
        rest
  }

  /** The surface supports at least one of the four composite alpha modes (else `choose_composite_alpha` panics). */
  predicate SupportsSomeCompositeAlpha(caps: SurfaceCapabilities) {
    exists i :: 0 <= i < |COMPOSITE_ALPHA_PREFERENCE| && Contains(caps.supportedCompositeAlpha, COMPOSITE_ALPHA_PREFERENCE[i])
  }

  /**
   * `choose_composite_alpha` (both crates): the first supported mode in the
   * order post-multiplied, opaque, pre-multiplied, inherit.
   */
  function ChooseCompositeAlpha(caps: SurfaceCapabilities): (r: Flags)
    requires SupportsSomeCompositeAlpha(caps)
    ensures Contains(caps.supportedCompositeAlpha, r) && r in COMPOSITE_ALPHA_PREFERENCE
    ensures Contains(caps.supportedCompositeAlpha, COMPOSITE_ALPHA_POST_MULTIPLIED) ==> r == COMPOSITE_ALPHA_POST_MULTIPLIED
    ensures (!Contains(caps.supportedCompositeAlpha, COMPOSITE_ALPHA_POST_MULTIPLIED) &&
             Contains(caps.supportedCompositeAlpha, COMPOSITE_ALPHA_OPAQUE)) ==> r == COMPOSITE_ALPHA_OPAQUE
    ensures r == COMPOSITE_ALPHA_INHERIT ==> (
      forall j :: 0 <= j < 3 ==> !Contains(caps.supportedCompositeAlpha, COMPOSITE_ALPHA_PREFERENCE[j]))
  {
    var found := FirstSupported(COMPOSITE_ALPHA_PREFERENCE, caps.supportedCompositeAlpha);
    var i :| 0 <= i < |COMPOSITE_ALPHA_PREFERENCE| && COMPOSITE_ALPHA_PREFERENCE[i] == found.value &&
      forall j :: 0 <= j < i ==> !Contains(caps.supportedCompositeAlpha, COMPOSITE_ALPHA_PREFERENCE[j]);
    assert Contains(caps.supportedCompositeAlpha, COMPOSITE_ALPHA_PREFERENCE[0]) ==> i == 0;
    assert Contains(caps.supportedCompositeAlpha, COMPOSITE_ALPHA_PREFERENCE[1]) ==> i <= 1;
    assert found.value == COMPOSITE_ALPHA_INHERIT ==> i == 3;
    found.value
  }

  /**
   * `new_default`: queries the capabilities, then the present modes (both
   * driver answers are parameters), and picks the image count, extent,
   * present mode and pre-transform; the caller's surface format, composite
   * alpha and usage are taken unchecked; everything else is the default.
   */
  function NewDefault(preferredImageCount: u32, surfaceFormat: SurfaceFormat, compositeAlpha: Flags,
                      imageUsage: Flags, windowDimensions: (u32, u32),
                      capabilities: Result<SurfaceCapabilities, VkError>,
                      presentModes: Result<seq<PresentMode>, VkError>): (r: Result<SwapchainProperties, SwapchainError>)
    ensures capabilities.Err? ==> r == Err(GetPhysicalDeviceSurfaceCapabilities(capabilities.error))
    ensures capabilities.Ok? && presentModes.Err? ==> r == Err(GetPhysicalDeviceSurfacePresentModes(presentModes.error))
    ensures r.Ok? <==> capabilities.Ok? && presentModes.Ok?
    ensures r.Ok? ==> (
      var caps := capabilities.value;
      var p := r.value;
      var extent := ChooseExtent(caps, windowDimensions);
      p.imageCount == ImageCount(preferredImageCount, caps) &&
      p.widthHeight == (extent.width, extent.height) &&
      p.presentMode == ChoosePresentMode(presentModes.value) &&
      p.preTransform == ChoosePreTransform(caps) &&
      p.surfaceFormat == surfaceFormat && p.compositeAlpha == compositeAlpha && p.imageUsage == imageUsage &&
      p.sharingMode == SHARING_EXCLUSIVE && p.clippingEnabled && p.arrayLayers == 1 &&
      p.flags == 0 && p.queueFamilyIndices == [])
  {
    match capabilities
    case Err(e) => Err(GetPhysicalDeviceSurfaceCapabilities(e))
    case Ok(caps) =>
      var imageCount := ImageCount(preferredImageCount, caps);
      var extent := ChooseExtent(caps, windowDimensions);
      match presentModes
      case Err(e) => Err(GetPhysicalDeviceSurfacePresentModes(e))
      case Ok(modes) =>
        Ok(DefaultProperties().(imageCount := imageCount, surfaceFormat := surfaceFormat,
                                widthHeight := (extent.width, extent.height), imageUsage := imageUsage,
                                sharingMode := SHARING_EXCLUSIVE, preTransform := ChoosePreTransform(caps),
                                compositeAlpha := compositeAlpha, presentMode := ChoosePresentMode(modes),
                                clippingEnabled := true))
  }

  /**
   * `create_info_builder(surface, old_swapchain)` (both crates): every
   * property in its create-info field, the size as `image_extent`, the
   * queue families as a slice.
   */
  function CreateInfoBuilder(p: SwapchainProperties, surface: Handle, oldSwapchain: Handle): (r: SwapchainCreateInfo)
    ensures r.surface == surface && r.oldSwapchain == oldSwapchain
    ensures r.minImageCount == p.imageCount && r.imageArrayLayers == p.arrayLayers
    ensures r.imageExtent == Extent2D(p.widthHeight.0, p.widthHeight.1)
    ensures r.imageFormat == p.surfaceFormat.format && r.imageColorSpace == p.surfaceFormat.colorSpace
    ensures FromBool32(r.clipped) == p.clippingEnabled
    ensures r.queueFamilyIndexCount == SliceCount(p.queueFamilyIndices) && r.pQueueFamilyIndices == Points(p.queueFamilyIndices)
  {
    BoolRoundTrip(p.clippingEnabled);
    SwapchainCreateInfo(p.flags, surface, p.imageCount, p.surfaceFormat.format, p.surfaceFormat.colorSpace,
                        Image.Extent2dFromWidthHeight([p.widthHeight.0, p.widthHeight.1]), p.arrayLayers,
                        p.imageUsage, p.sharingMode, p.preTransform, p.compositeAlpha, p.presentMode,
                        ToBool32(p.clippingEnabled), oldSwapchain,
                        SliceCount(p.queueFamilyIndices), Points(p.queueFamilyIndices))
  }

  /** Reads the properties back out of a create info whose queue-family pointer is readable. */
  function PropertiesFromCreateInfo(ci: SwapchainCreateInfo): (r: SwapchainProperties)
    requires ReadableUnchecked(ci.queueFamilyIndexCount, ci.pQueueFamilyIndices)
    ensures |r.queueFamilyIndices| == ci.queueFamilyIndexCount
    ensures CreateInfoBuilder(r, ci.surface, ci.oldSwapchain) == ci <==>
      ci.clipped <= 1 && ci.pQueueFamilyIndices == Points(r.queueFamilyIndices)
  {
    SwapchainProperties(ci.flags, ci.minImageCount, ci.preTransform, ci.compositeAlpha, ci.presentMode,
                        FromBool32(ci.clipped), SurfaceFormat(ci.imageFormat, ci.imageColorSpace),
                        (ci.imageExtent.width, ci.imageExtent.height), ci.imageArrayLayers, ci.imageUsage,
                        ci.imageSharingMode, ReadUnchecked(ci.queueFamilyIndexCount, ci.pQueueFamilyIndices))
  }

  /** The create info loses nothing: any properties with fewer than 2^32 queue families read back unchanged. */
  lemma CreateInfoRoundTrip(p: SwapchainProperties, surface: Handle, oldSwapchain: Handle)
    requires |p.queueFamilyIndices| < U32_LIMIT
    ensures var ci := CreateInfoBuilder(p, surface, oldSwapchain);
      ReadableUnchecked(ci.queueFamilyIndexCount, ci.pQueueFamilyIndices) && PropertiesFromCreateInfo(ci) == p
  {
    SliceRoundTrip(p.queueFamilyIndices);
  }

  /** `dimensions()` (both crates): a single-layer 2D image of `width_height`, whatever `array_layers` says. */
  function DimensionsOf(p: SwapchainProperties): (r: ImageDimensions)
    ensures r.Dim2d? && r.WidthHeight() == [p.widthHeight.0, p.widthHeight.1] && r.ArrayLayers() == 1
  {
    Dim2d(p.widthHeight.0, p.widthHeight.1, 1)
  }

  /** The image dimensions reported are exactly the extent the swapchain was created with. */
  lemma DimensionsMatchCreateInfo(p: SwapchainProperties, surface: Handle, oldSwapchain: Handle)
    ensures var ci := CreateInfoBuilder(p, surface, oldSwapchain);
      DimensionsOf(p).Extent() == Extent3D(ci.imageExtent.width, ci.imageExtent.height, 1)
  {
  }

  /**
   * `image_view_properties` (bort-vk `Swapchain`, and src/swapchain_image.rs
   * on the image's swapchain): a colour view of the surface format covering
   * `array_layers` layers, as a 2D array view exactly when there are several.
   */
  function ImageViewPropertiesFor(p: SwapchainProperties): (r: ImageView.ImageViewProperties)
    ensures r.format == p.surfaceFormat.format
    ensures r.viewType == VIEW_TYPE_2D_ARRAY <==> p.arrayLayers > 1
    ensures r.viewType == VIEW_TYPE_2D || r.viewType == VIEW_TYPE_2D_ARRAY
    ensures r.subresourceRange == ImageView.DefaultSubresourceRange(ASPECT_COLOR).(layerCount := p.arrayLayers)
    ensures r.componentMapping == ImageView.DefaultComponentMapping() && r.flags == 0
  {
    var layerCount := p.arrayLayers;
    var viewType := if layerCount > 1 then VIEW_TYPE_2D_ARRAY else VIEW_TYPE_2D;
    ImageView.DefaultProperties().(format := p.surfaceFormat.format, viewType := viewType,
                                   componentMapping := ImageView.DefaultComponentMapping(),
                                   subresourceRange := ImageView.DefaultSubresourceRange(ASPECT_COLOR).(layerCount := layerCount))
  }

  /** The view of a swapchain image spans exactly the layers and the format the swapchain was created with. */
  lemma ImageViewMatchesCreateInfo(p: SwapchainProperties, surface: Handle, oldSwapchain: Handle)
    ensures var ci := CreateInfoBuilder(p, surface, oldSwapchain);
      var v := ImageViewPropertiesFor(p);
      v.subresourceRange.layerCount == ci.imageArrayLayers && v.format == ci.imageFormat &&
      v.subresourceRange.baseArrayLayer == 0 && v.subresourceRange.aspectMask == ASPECT_COLOR
  {
  }

  /** `SwapchainImage`: an image handle owned by the swapchain, with the swapchain's dimensions. */
  datatype SwapchainImage = SwapchainImage(handle: Handle, dimensions: ImageDimensions)

  /** `SwapchainImage::from_image_handle` mapped over the handles the driver returned. */
  function ImagesFromHandles(handles: seq<Handle>, p: SwapchainProperties): (r: seq<SwapchainImage>)
    ensures |r| == |handles|
    ensures forall i :: 0 <= i < |r| ==> r[i].handle == handles[i] && r[i].dimensions == DimensionsOf(p)
  {
    seq(|handles|, i requires 0 <= i < |handles| => SwapchainImage(handles[i], DimensionsOf(p)))
  }

  /** The swapchain driver calls a `Swapchain` issues, in order. */
  datatype SwapchainCall =
    | CreateSwapchain(createInfo: SwapchainCreateInfo)
    | GetImages(swapchain: Handle)
    | DestroySwapchain(swapchain: Handle)

  /** `Swapchain` (bort-vk): the handle, the properties it was made with, its images and the surface. */
  class Swapchain {
    var handle: Handle
    var properties: SwapchainProperties
    var images: seq<SwapchainImage>
    const surface: Handle
    /** The driver calls made on behalf of this object. */
    var calls: seq<SwapchainCall>

    /** Every image carries the dimensions of the current properties. */
    predicate ImagesMatch()
      reads this
    {
      forall i :: 0 <= i < |images| ==> images[i].dimensions == DimensionsOf(properties)
    }

    constructor Init(handle: Handle, properties: SwapchainProperties, images: seq<SwapchainImage>,
                     surface: Handle, calls: seq<SwapchainCall>)
      ensures this.handle == handle && this.properties == properties && this.images == images
      ensures this.surface == surface && this.calls == calls
    {
      this.handle := handle;
      this.properties := properties;
      this.images := images;
      this.surface := surface;
      this.calls := calls;
    }

    /**
     * `Swapchain::new`: creates the swapchain with no old swapchain, then
     * asks for its images; the driver's two answers are parameters.
     */
    static method New(surface: Handle, properties: SwapchainProperties,
                      created: Result<Handle, VkError>, imageHandles: Result<seq<Handle>, VkError>)
      returns (r: Result<Swapchain, SwapchainError>)
      ensures created.Err? ==> r == Err(Creation(created.error))
      ensures created.Ok? && imageHandles.Err? ==> r == Err(GetSwapchainImages(imageHandles.error))
      ensures r.Ok? <==> created.Ok? && imageHandles.Ok?
      ensures r.Ok? ==> (fresh(r.value) && r.value.handle == created.value && r.value.surface == surface &&
        r.value.properties == properties && r.value.images == ImagesFromHandles(imageHandles.value, properties) &&
        r.value.calls == [CreateSwapchain(CreateInfoBuilder(properties, surface, NULL_HANDLE)), GetImages(created.value)] &&
        r.value.ImagesMatch())
    {
      if created.Err? {
        return Err(Creation(created.error));
      }
      if imageHandles.Err? {
        return Err(GetSwapchainImages(imageHandles.error));
      }
      var calls := [CreateSwapchain(CreateInfoBuilder(properties, surface, NULL_HANDLE)), GetImages(created.value)];
      var s := new Swapchain.Init(created.value, properties, ImagesFromHandles(imageHandles.value, properties), surface, calls);
      return Ok(s);
    }

    /**
     * `recreate_common`: creates a swapchain for `properties` that replaces
     * this one (`old_swapchain` is the current handle) and collects its images.
     */
    method RecreateCommon(properties: SwapchainProperties, created: Result<Handle, VkError>,
                          imageHandles: Result<seq<Handle>, VkError>)
      returns (r: Result<(Handle, seq<SwapchainImage>), SwapchainError>, issued: seq<SwapchainCall>)
      ensures created.Err? ==> (r == Err(Creation(created.error)) &&
        issued == [CreateSwapchain(CreateInfoBuilder(properties, surface, handle))])
      ensures created.Ok? && imageHandles.Err? ==> (r == Err(GetSwapchainImages(imageHandles.error)) &&
        issued == [CreateSwapchain(CreateInfoBuilder(properties, surface, handle)), GetImages(created.value)])
      ensures created.Ok? && imageHandles.Ok? ==> (
        r == Ok((created.value, ImagesFromHandles(imageHandles.value, properties))) &&
        issued == [CreateSwapchain(CreateInfoBuilder(properties, surface, handle)), GetImages(created.value)])
    {
      var createInfo := CreateInfoBuilder(properties, surface, handle);
      issued := [CreateSwapchain(createInfo)];
      if created.Err? {
        return Err(Creation(created.error)), issued;
      }
      issued := issued + [GetImages(created.value)];
      if imageHandles.Err? {
        return Err(GetSwapchainImages(imageHandles.error)), issued;
      }
      r := Ok((created.value, ImagesFromHandles(imageHandles.value, properties)));
    }

    /**
     * `recreate`: on failure the handle, properties and images are as
     * before; on success the old swapchain is destroyed and all three are
     * replaced, the images again matching the properties.
     */
    method Recreate(properties: SwapchainProperties, created: Result<Handle, VkError>,
                    imageHandles: Result<seq<Handle>, VkError>) returns (r: Result<(), SwapchainError>)
      modifies this
      ensures r.Ok? <==> created.Ok? && imageHandles.Ok?
      ensures created.Err? ==> r == Err(Creation(created.error))
      ensures created.Ok? && imageHandles.Err? ==> r == Err(GetSwapchainImages(imageHandles.error))
      ensures r.Err? ==> handle == old(handle) && this.properties == old(this.properties) && images == old(images)
      ensures created.Err? ==> calls == old(calls) + [CreateSwapchain(CreateInfoBuilder(properties, surface, old(handle)))]
      ensures created.Ok? && imageHandles.Err? ==>
        calls == old(calls) + [CreateSwapchain(CreateInfoBuilder(properties, surface, old(handle))), GetImages(created.value)]
      ensures r.Ok? ==> (handle == created.value && this.properties == properties &&
        images == ImagesFromHandles(imageHandles.value, properties) &&
        calls == old(calls) + [CreateSwapchain(CreateInfoBuilder(properties, surface, old(handle))),
                               GetImages(created.value), DestroySwapchain(old(handle))])
      ensures r.Ok? ==> ImagesMatch()
      ensures old(ImagesMatch()) ==> ImagesMatch()
    {
      var common, issued := RecreateCommon(properties, created, imageHandles);
      calls := calls + issued;
      if common.Err? {
        return Err(common.error);
      }
      calls := calls + [DestroySwapchain(handle)];
      handle := common.value.0;
      this.properties := properties;
      images := common.value.1;
      return Ok(());
    }

    /**
     * `recreate_replace`: the same creation, but this swapchain is left as
     * it is and a new one on the same surface is returned.
     */
    method RecreateReplace(properties: SwapchainProperties, created: Result<Handle, VkError>,
                           imageHandles: Result<seq<Handle>, VkError>) returns (r: Result<Swapchain, SwapchainError>)
      ensures r.Ok? <==> created.Ok? && imageHandles.Ok?
      ensures created.Err? ==> r == Err(Creation(created.error))
      ensures created.Ok? && imageHandles.Err? ==> r == Err(GetSwapchainImages(imageHandles.error))
      ensures r.Ok? ==> (fresh(r.value) && r.value.surface == surface && r.value.handle == created.value &&
        r.value.properties == properties && r.value.images == ImagesFromHandles(imageHandles.value, properties) &&
        r.value.calls == [CreateSwapchain(CreateInfoBuilder(properties, surface, handle)), GetImages(created.value)] &&
        r.value.ImagesMatch())
    {
      var common, issued := RecreateCommon(properties, created, imageHandles);
      if common.Err? {
        return Err(common.error);
      }
      var s := new Swapchain.Init(common.value.0, properties, common.value.1, surface, issued);
      return Ok(s);
    }

    /** `Drop`: destroys the current swapchain handle. */
    method Drop()
      modifies this
      ensures calls == old(calls) + [DestroySwapchain(old(handle))]
      ensures handle == old(handle) && properties == old(properties) && images == old(images)
    {
      calls := calls + [DestroySwapchain(handle)];
    }
  }

  /** src/swapchain.rs `Swapchain`: a handle, the properties and the surface; it has no recreate. */
  datatype LegacySwapchain = LegacySwapchain(handle: Handle, properties: SwapchainProperties, surface: Handle)

  /**
   * src/swapchain.rs `Swapchain::new`: the selection of `new_default`, but
   * with the image count as written (`LegacyImageCountAsWritten`), followed
   * by creation with no old swapchain.
   */
  function LegacySwapchainNew(surface: Handle, preferredImageCount: u32, surfaceFormat: SurfaceFormat,
                              compositeAlpha: Flags, imageUsage: Flags, windowDimensions: (u32, u32),
                              capabilities: Result<SurfaceCapabilities, VkError>,
                              presentModes: Result<seq<PresentMode>, VkError>,
                              created: Result<Handle, VkError>): (r: Result<LegacySwapchain, SwapchainError>)
    ensures r.Err? ==> !r.error.GetSwapchainImages?
    ensures capabilities.Err? ==> r == Err(GetPhysicalDeviceSurfaceCapabilities(capabilities.error))
    ensures capabilities.Ok? && presentModes.Err? ==> r == Err(GetPhysicalDeviceSurfacePresentModes(presentModes.error))
    ensures capabilities.Ok? && presentModes.Ok? && created.Err? ==> r == Err(Creation(created.error))
    ensures r.Ok? <==> capabilities.Ok? && presentModes.Ok? && created.Ok?
    ensures r.Ok? ==> (r.value.handle == created.value && r.value.surface == surface &&
      r.value.properties.imageCount == LegacyImageCountAsWritten(preferredImageCount, capabilities.value) &&
      Ok(r.value.properties.(imageCount := ImageCount(preferredImageCount, capabilities.value))) ==
        NewDefault(preferredImageCount, surfaceFormat, compositeAlpha, imageUsage,
                   windowDimensions, capabilities, presentModes))
  {
    match NewDefault(preferredImageCount, surfaceFormat, compositeAlpha, imageUsage, windowDimensions,
                     capabilities, presentModes)
    case Err(e) => Err(e)
    case Ok(properties) =>
      match created
      case Err(e) => Err(Creation(e))
      case Ok(h) =>
        Ok(LegacySwapchain(h, properties.(imageCount := LegacyImageCountAsWritten(preferredImageCount, capabilities.value)),
                           surface))
  }

  /**
   * On a surface with a maximum image count the older `Swapchain::new`
   * chooses exactly the properties of `new_default`; on one without, it
   * differs from them whenever the preference is not the minimum.
   */
  lemma LegacySwapchainNewMatchesNewDefault(surface: Handle, preferredImageCount: u32, surfaceFormat: SurfaceFormat,
                                            compositeAlpha: Flags, imageUsage: Flags, windowDimensions: (u32, u32),
                                            caps: SurfaceCapabilities, presentModes: seq<PresentMode>, created: Handle)
    ensures var r := LegacySwapchainNew(surface, preferredImageCount, surfaceFormat, compositeAlpha, imageUsage,
                                        windowDimensions, Ok(caps), Ok(presentModes), Ok(created));
      var d := NewDefault(preferredImageCount, surfaceFormat, compositeAlpha, imageUsage, windowDimensions,
                          Ok(caps), Ok(presentModes));
      r.Ok? && d.Ok? &&
      (caps.maxImageCount != 0 ==> r.value.properties == d.value) &&
      (caps.maxImageCount == 0 && preferredImageCount != caps.minImageCount ==> r.value.properties != d.value)
  {
    if caps.maxImageCount != 0 {
      LegacyImageCountAgreesWhenBounded(preferredImageCount, caps);
    } else {
      LegacyImageCountIgnoresPreferenceWhenUnbounded(preferredImageCount, caps);
    }
  }

  /** src/swapchain.rs `get_first_srgb_surface_format`: the first sRGB entry, else the first entry. */
  function LegacyGetFirstSrgbSurfaceFormat(surfaceFormats: seq<SurfaceFormat>): (r: SurfaceFormat)
    requires |surfaceFormats| > 0
    ensures r in surfaceFormats
    ensures (exists i :: 0 <= i < |surfaceFormats| && IsFormatSrgb(surfaceFormats[i].format)) ==> IsFormatSrgb(r.format)
    ensures (forall i :: 0 <= i < |surfaceFormats| ==> !IsFormatSrgb(surfaceFormats[i].format)) ==> r == surfaceFormats[0]
    ensures IsFormatSrgb(surfaceFormats[0].format) ==> r == surfaceFormats[0]
    ensures IsFormatSrgb(r.format) ==> exists i :: (0 <= i < |surfaceFormats| && surfaceFormats[i] == r &&
                                                    forall j :: 0 <= j < i ==> !IsFormatSrgb(surfaceFormats[j].format))
  {
    GetFirstSrgbSurfaceFormat(surfaceFormats).UnwrapOr(surfaceFormats[0])
  }

  /** src/swapchain_image.rs `SwapchainImageError` */
  datatype SwapchainImageError = GetSwapchainImagesFailed(result: VkError)

  /** src/swapchain_image.rs `SwapchainImage`: a swapchain image that keeps its swapchain. */
  datatype LegacySwapchainImage = LegacySwapchainImage(handle: Handle, dimensions: ImageDimensions, swapchain: LegacySwapchain)

  /**
   * src/swapchain_image.rs `from_swapchain`: one image per handle the
   * driver returned for the swapchain, in order, with the swapchain's dimensions.
   */
  function LegacyFromSwapchain(swapchain: LegacySwapchain, imageHandles: Result<seq<Handle>, VkError>)
    : (r: Result<seq<LegacySwapchainImage>, SwapchainImageError>)
    ensures imageHandles.Err? ==> r == Err(GetSwapchainImagesFailed(imageHandles.error))
    ensures imageHandles.Ok? ==> (r.Ok? && |r.value| == |imageHandles.value| &&
      forall i :: 0 <= i < |r.value| ==> (r.value[i].handle == imageHandles.value[i] &&
        r.value[i].dimensions == DimensionsOf(swapchain.properties) && r.value[i].swapchain == swapchain))
  {
    match imageHandles
    case Err(e) => Err(GetSwapchainImagesFailed(e))
    case Ok(hs) => Ok(seq(|hs|, i requires 0 <= i < |hs| => LegacySwapchainImage(hs[i], DimensionsOf(swapchain.properties), swapchain)))
  }

  /** The legacy images are the bort-vk images of the same handles, each tied to its swapchain. */
  lemma LegacyImagesAgree(swapchain: LegacySwapchain, hs: seq<Handle>)
    ensures var r := LegacyFromSwapchain(swapchain, Ok(hs));
      var images := ImagesFromHandles(hs, swapchain.properties);
      r.Ok? && |r.value| == |images| &&
      forall i :: 0 <= i < |images| ==> SwapchainImage(r.value[i].handle, r.value[i].dimensions) == images[i]
  {
  }
}
