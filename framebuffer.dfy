// Framebuffer properties and their `vk::FramebufferCreateInfo` encoding
// (bort-vk/src/framebuffer.rs). The create info carries only the attachments'
// view handles and a width/height/layers triple, so decoding cannot restore
// the attachments or a 1-D or 3-D dimension.
module Framebuffer {
  import opened Wrappers
  import opened VkTypes
  import opened Dimensions
  import ImageView
  import RenderPass
  import PipelineStates

  /** `FramebufferProperties`; its derived `Default` has no flags and no attachments. */
  datatype FramebufferProperties = FramebufferProperties(
    flags: Flags,
    attachments: seq<ImageView.ImageViewObject>,
    dimensions: ImageDimensions)

  /** `vk::FramebufferCreateInfo` */
  datatype FramebufferCreateInfo = FramebufferCreateInfo(
    flags: Flags,
    renderPass: Handle,
    attachmentCount: u32,
    pAttachments: Ptr<Handle>,
    width: u32,
    height: u32,
    layers: u32)

  /** `FramebufferProperties::new_default`: these attachments and dimensions, empty flags. */
  function NewDefault(attachments: seq<ImageView.ImageViewObject>, dimensions: ImageDimensions): (r: FramebufferProperties)
    ensures r.flags == 0 && r.attachments == attachments && r.dimensions == dimensions
  {
    FramebufferProperties(0, attachments, dimensions)
  }

  /** `vk_attachment_image_view_handles`: each attachment's view handle, in order. */
  function VkAttachmentImageViewHandles(p: FramebufferProperties): (r: seq<Handle>)
    ensures |r| == |p.attachments|
    ensures forall i :: 0 <= i < |r| ==> r[i] == p.attachments[i].handle
  {
    seq(|p.attachments|, i requires 0 <= i < |p.attachments| => p.attachments[i].handle)
  }

  /**
   * `write_create_info`: the flags, the given view handles, the render pass's
   * handle, and the dimensions' width, height and layer count.
   */
  function WriteCreateInfo(p: FramebufferProperties, viewHandles: seq<Handle>, renderPass: RenderPass.RenderPassObject)
    : (r: FramebufferCreateInfo)
    ensures r.flags == p.flags && r.renderPass == renderPass.handle
    ensures r.attachmentCount == SliceCount(viewHandles) && r.pAttachments == Points(viewHandles)
    ensures r.width == p.dimensions.width && r.height == p.dimensions.Height()
    ensures r.layers == p.dimensions.ArrayLayers()
  {
    FramebufferCreateInfo(p.flags, renderPass.handle, SliceCount(viewHandles), Points(viewHandles),
                          p.dimensions.width, p.dimensions.Height(), p.dimensions.ArrayLayers())
  }

  /** `from_create_info`: a 2-D array of the given size, and no attachments. */
  function FromCreateInfo(ci: FramebufferCreateInfo): (r: FramebufferProperties)
    ensures r.flags == ci.flags && r.attachments == []
    ensures r.dimensions.Dim2d?
    ensures r.dimensions.width == ci.width && r.dimensions.Height() == ci.height
    ensures r.dimensions.ArrayLayers() == ci.layers
  {
    FramebufferProperties(ci.flags, [], New2dArray(ci.width, ci.height, ci.layers))
  }

  /**
   * Properties survive their create info exactly when they have no
   * attachments and 2-D dimensions.
   */
  lemma RoundTrip(p: FramebufferProperties, renderPass: RenderPass.RenderPassObject)
    ensures FromCreateInfo(WriteCreateInfo(p, VkAttachmentImageViewHandles(p), renderPass)) == p <==>
      p.attachments == [] && p.dimensions.Dim2d?
  {
  }

  /** What does survive for every framebuffer: the flags, width, height and layer count. */
  lemma RoundTripKeepsExtent(p: FramebufferProperties, viewHandles: seq<Handle>, renderPass: RenderPass.RenderPassObject)
    ensures var q := FromCreateInfo(WriteCreateInfo(p, viewHandles, renderPass));
      q.flags == p.flags && q.dimensions.width == p.dimensions.width &&
      q.dimensions.Height() == p.dimensions.Height() && q.dimensions.ArrayLayers() == p.dimensions.ArrayLayers()
  {
  }

  /** A 3-D framebuffer comes back as a 2-D one and loses its depth. */
  lemma ThreeDimensionalDoesNotRoundTrip(renderPass: RenderPass.RenderPassObject)
    ensures var p := NewDefault([], Dim3d(4, 4, 4));
      FromCreateInfo(WriteCreateInfo(p, [], renderPass)).dimensions == Dim2d(4, 4, 1)
  {
  }

  /**
   * A create info with no attachments is rebuilt from its decoding, for
   * its own render pass; any attachment handles are lost.
   */
  lemma CreateInfoRoundTrip(ci: FramebufferCreateInfo, renderPass: RenderPass.RenderPassObject)
    requires renderPass.handle == ci.renderPass
    ensures var q := FromCreateInfo(ci);
      WriteCreateInfo(q, VkAttachmentImageViewHandles(q), renderPass) == ci <==>
      ci.attachmentCount == 0 && ci.pAttachments == Points([])
  {
    var q := FromCreateInfo(ci);
    assert VkAttachmentImageViewHandles(q) == [];
  }

  /** `Framebuffer`: its handle, its properties and the render pass it was created for. */
  datatype FramebufferObject = FramebufferObject(handle: Handle, properties: FramebufferProperties,
                                                 renderPass: RenderPass.RenderPassObject)
  {
    /** `device()`: the render pass's device. */
    function Device(): Handle {
      renderPass.device
    }
  }

  /**
   * `Framebuffer::new`: the create info holds the attachments' handles and
   * the render pass's handle; the framebuffer keeps the properties given.
   */
  function New(renderPass: RenderPass.RenderPassObject, p: FramebufferProperties, created: Result<Handle, VkError>)
    : (r: (Result<FramebufferObject, VkError>, FramebufferCreateInfo))
    ensures r.1 == WriteCreateInfo(p, VkAttachmentImageViewHandles(p), renderPass)
    ensures created.Err? ==> r.0 == Err(created.error)
    ensures created.Ok? ==> r.0 == Ok(FramebufferObject(created.value, p, renderPass))
  {
    var ci := WriteCreateInfo(p, VkAttachmentImageViewHandles(p), renderPass);
    match created
    case Err(e) => (Err(e), ci)
    case Ok(h) => (Ok(FramebufferObject(h, p, renderPass)), ci)
  }

  /**
   * `Framebuffer::new_from_create_info`: the framebuffer keeps the decoded
   * properties; the create info's render pass handle is not compared with
   * the render pass it is given.
   */
  function NewFromCreateInfo(renderPass: RenderPass.RenderPassObject, ci: FramebufferCreateInfo, created: Result<Handle, VkError>)
    : (r: Result<FramebufferObject, VkError>)
    ensures created.Err? ==> r == Err(created.error)
    ensures created.Ok? ==> r.Ok? && r.value.handle == created.value && r.value.renderPass == renderPass
    ensures created.Ok? ==> r.value.properties == FromCreateInfo(ci) && r.value.properties.attachments == []
  {
    match created
    case Err(e) => Err(e)
    case Ok(h) => Ok(FramebufferObject(h, FromCreateInfo(ci), renderPass))
  }

  /** `whole_rect`: offset (0, 0) and the framebuffer's width and height. */
  function WholeRect(fb: FramebufferObject): (r: PipelineStates.Rect2D)
    ensures r.offset == PipelineStates.Offset2D(0, 0)
    ensures r.extent == Extent2D(fb.properties.dimensions.width, fb.properties.dimensions.Height())
  {
    PipelineStates.Rect2D(PipelineStates.Offset2D(0, 0),
                          Extent2D(fb.properties.dimensions.width, fb.properties.dimensions.Height()))
  }

  /** The whole rect covers exactly the width and height the create info was given. */
  lemma WholeRectMatchesCreateInfo(renderPass: RenderPass.RenderPassObject, p: FramebufferProperties, h: Handle)
    ensures var (r, ci) := New(renderPass, p, Ok(h));
      r.Ok? && WholeRect(r.value).extent == Extent2D(ci.width, ci.height)
  {
  }
}
