// Render passes and their subpasses (bort-vk/src/render_pass.rs; the older
// src/render_pass.rs has the same `Subpass`, the same conditional
// subpass-description builder and the same `RenderPass::new`, but no decoders).
module RenderPass {
  import opened Wrappers
  import opened VkTypes

  /** `vk::AttachmentReference` */
  datatype AttachmentReference = AttachmentReference(attachment: u32, layout: ImageLayout)

  /** `vk::AttachmentDescription`, copied whole. */
  datatype AttachmentDescription = AttachmentDescription(
    flags: Flags, format: Format, samples: Flags, loadOp: int, storeOp: int,
    stencilLoadOp: int, stencilStoreOp: int, initialLayout: ImageLayout, finalLayout: ImageLayout)

  /** `vk::SubpassDependency`, copied whole. */
  datatype SubpassDependency = SubpassDependency(
    srcSubpass: u32, dstSubpass: u32, srcStageMask: Flags, dstStageMask: Flags,
    srcAccessMask: Flags, dstAccessMask: Flags, dependencyFlags: Flags)

  /** `Subpass` */
  datatype Subpass = Subpass(
    colorAttachments: seq<AttachmentReference>,
    depthAttachment: Option<AttachmentReference>,
    inputAttachments: seq<AttachmentReference>)

  /** `vk::SubpassDescription`; a null depth-stencil pointer is `None`. */
  datatype SubpassDescription = SubpassDescription(
    flags: Flags,
    pipelineBindPoint: PipelineBindPoint,
    inputAttachmentCount: u32,
    pInputAttachments: Ptr<AttachmentReference>,
    colorAttachmentCount: u32,
    pColorAttachments: Ptr<AttachmentReference>,
    pDepthStencilAttachment: Option<AttachmentReference>)

  /** `vk::SubpassDescription::default()`: no attachments, null pointers. */
  const DEFAULT_SUBPASS_DESCRIPTION := SubpassDescription(0, BIND_POINT_GRAPHICS, 0, Null, 0, Null, None)

  /** `Subpass::new` (both crates): the slices and the depth attachment, copied. */
  function NewSubpass(colorAttachments: seq<AttachmentReference>, depthAttachment: Option<AttachmentReference>,
                      inputAttachments: seq<AttachmentReference>): (r: Subpass)
    ensures r.colorAttachments == colorAttachments && r.depthAttachment == depthAttachment
    ensures r.inputAttachments == inputAttachments
  {
    Subpass(colorAttachments, depthAttachment, inputAttachments)
  }

  /**
   * What `subpass_description` (bort-vk) and `subpass_description_builder`
   * (src) build: always the graphics bind point; a colour or input list is
   * attached only when non-empty, and the depth-stencil attachment only when
   * there is one.
   */
  function SubpassDescriptionOf(s: Subpass): (r: SubpassDescription)
    ensures r.pipelineBindPoint == BIND_POINT_GRAPHICS && r.flags == 0
    ensures r.pColorAttachments.Null? <==> s.colorAttachments == []
    ensures r.pColorAttachments.Points? ==> r.pColorAttachments.elems == s.colorAttachments &&
                                            r.colorAttachmentCount == SliceCount(s.colorAttachments)
    ensures r.pColorAttachments.Null? ==> r.colorAttachmentCount == 0
    ensures r.pInputAttachments.Null? <==> s.inputAttachments == []
    ensures r.pInputAttachments.Points? ==> r.pInputAttachments.elems == s.inputAttachments &&
                                            r.inputAttachmentCount == SliceCount(s.inputAttachments)
    ensures r.pInputAttachments.Null? ==> r.inputAttachmentCount == 0
    ensures r.pDepthStencilAttachment == s.depthAttachment
  {
    SubpassDescription(
      0, BIND_POINT_GRAPHICS,
      if |s.inputAttachments| > 0 then SliceCount(s.inputAttachments) else 0,
      if |s.inputAttachments| > 0 then Points(s.inputAttachments) else Null,
      if |s.colorAttachments| > 0 then SliceCount(s.colorAttachments) else 0,
      if |s.colorAttachments| > 0 then Points(s.colorAttachments) else Null,
      s.depthAttachment)
  }

  /** `subpass_description` as written: the default description, reassigned under each condition. */
  method SubpassDescriptionBuild(s: Subpass) returns (d: SubpassDescription)
    ensures d == SubpassDescriptionOf(s)
  {
    d := DEFAULT_SUBPASS_DESCRIPTION.(pipelineBindPoint := BIND_POINT_GRAPHICS);
    if |s.colorAttachments| > 0 {
      d := d.(colorAttachmentCount := SliceCount(s.colorAttachments), pColorAttachments := Points(s.colorAttachments));
    }
    if |s.inputAttachments| > 0 {
      d := d.(inputAttachmentCount := SliceCount(s.inputAttachments), pInputAttachments := Points(s.inputAttachments));
    }
    if s.depthAttachment.Some? {
      d := d.(pDepthStencilAttachment := s.depthAttachment);
    }
  }

  /** The caller obligation of `from_subpass_description`: each non-null array holds its count. */
  predicate SubpassReadable(d: SubpassDescription) {
    (d.pColorAttachments.Points? ==> d.colorAttachmentCount <= |d.pColorAttachments.elems|) &&
    (d.pInputAttachments.Points? ==> d.inputAttachmentCount <= |d.pInputAttachments.elems|)
  }

  /** What `from_subpass_description` builds: a null array is empty, else `count` elements in order. */
  function SubpassOf(d: SubpassDescription): Subpass
    requires SubpassReadable(d)
  {
    Subpass(ReadIfNonNull(d.colorAttachmentCount, d.pColorAttachments), d.pDepthStencilAttachment,
            ReadIfNonNull(d.inputAttachmentCount, d.pInputAttachments))
  }

  /** `Subpass::from_subpass_description`, with its two guarded push loops. */
  method FromSubpassDescription(d: SubpassDescription) returns (s: Subpass)
    requires SubpassReadable(d)
    ensures s == SubpassOf(d)
  {
    var colorAttachments := CopyArrayIfNonNull(d.colorAttachmentCount, d.pColorAttachments);
    var depthAttachment := d.pDepthStencilAttachment;
    var inputAttachments := CopyArrayIfNonNull(d.inputAttachmentCount, d.pInputAttachments);
    s := Subpass(colorAttachments, depthAttachment, inputAttachments);
  }

  /** Every subpass whose lists fit a 32-bit count survives its description. */
  lemma SubpassRoundTrip(s: Subpass)
    requires |s.colorAttachments| < U32_LIMIT && |s.inputAttachments| < U32_LIMIT
    ensures SubpassReadable(SubpassDescriptionOf(s)) && SubpassOf(SubpassDescriptionOf(s)) == s
  {
    if s.colorAttachments != [] { SliceRoundTrip(s.colorAttachments); }
    if s.inputAttachments != [] { SliceRoundTrip(s.inputAttachments); }
  }

  /** `RenderPassProperties`; its `Default` is three empty lists. */
  datatype RenderPassProperties = RenderPassProperties(
    attachmentDescriptions: seq<AttachmentDescription>,
    subpasses: seq<Subpass>,
    subpassDependencies: seq<SubpassDependency>)

  /** `vk::RenderPassCreateInfo` */
  datatype RenderPassCreateInfo = RenderPassCreateInfo(
    attachmentCount: u32,
    pAttachments: Ptr<AttachmentDescription>,
    subpassCount: u32,
    pSubpasses: Ptr<SubpassDescription>,
    dependencyCount: u32,
    pDependencies: Ptr<SubpassDependency>)

  /** The caller obligations of `RenderPassProperties::from_create_info`. */
  predicate CreateInfoReadable(ci: RenderPassCreateInfo) {
    (ci.pAttachments.Points? ==> ci.attachmentCount <= |ci.pAttachments.elems|) &&
    (ci.pSubpasses.Points? ==> (ci.subpassCount <= |ci.pSubpasses.elems| &&
       forall i :: 0 <= i < ci.subpassCount ==> SubpassReadable(ci.pSubpasses.elems[i]))) &&
    (ci.pDependencies.Points? ==> ci.dependencyCount <= |ci.pDependencies.elems|)
  }

  /** Each subpass description decoded, in order. */
  function SubpassesOf(ds: seq<SubpassDescription>): (r: seq<Subpass>)
    requires forall i :: 0 <= i < |ds| ==> SubpassReadable(ds[i])
    ensures |r| == |ds| && forall i :: 0 <= i < |ds| ==> r[i] == SubpassOf(ds[i])
  {
    seq(|ds|, i requires 0 <= i < |ds| && SubpassReadable(ds[i]) => SubpassOf(ds[i]))
  }

  /**
   * What `RenderPassProperties::from_create_info` builds: the attachments,
   * the decoded subpasses and the dependencies, each empty for a null
   * pointer and otherwise `count` entries in order.
   */
  function PropertiesOf(ci: RenderPassCreateInfo): (r: RenderPassProperties)
    requires CreateInfoReadable(ci)
    ensures r.attachmentDescriptions == ReadIfNonNull(ci.attachmentCount, ci.pAttachments)
    ensures r.subpassDependencies == ReadIfNonNull(ci.dependencyCount, ci.pDependencies)
    ensures ci.pSubpasses.Null? ==> r.subpasses == []
    ensures ci.pSubpasses.Points? ==> (|r.subpasses| == ci.subpassCount &&
      forall i :: 0 <= i < ci.subpassCount ==> r.subpasses[i] == SubpassOf(ci.pSubpasses.elems[i]))
  {
    RenderPassProperties(ReadIfNonNull(ci.attachmentCount, ci.pAttachments),
                         SubpassesOf(ReadIfNonNull(ci.subpassCount, ci.pSubpasses)),
                         ReadIfNonNull(ci.dependencyCount, ci.pDependencies))
  }

  /** `RenderPassProperties::from_create_info`, with its three guarded loops. */
  method FromCreateInfo(ci: RenderPassCreateInfo) returns (p: RenderPassProperties)
    requires CreateInfoReadable(ci)
    ensures p == PropertiesOf(ci)
  {
    var attachmentDescriptions := CopyArrayIfNonNull(ci.attachmentCount, ci.pAttachments);
    var subpasses: seq<Subpass> := [];
    if ci.pSubpasses.Points? {
      var i: int := 0;
      while i < ci.subpassCount
        invariant 0 <= i <= ci.subpassCount && |subpasses| == i
        invariant forall k :: 0 <= k < i ==> subpasses[k] == SubpassOf(ci.pSubpasses.elems[k])
      {
        var subpass := FromSubpassDescription(ci.pSubpasses.elems[i]);
        subpasses := subpasses + [subpass];
        i := i + 1;
      }
    }
    var subpassDependencies := CopyArrayIfNonNull(ci.dependencyCount, ci.pDependencies);
    p := RenderPassProperties(attachmentDescriptions, subpasses, subpassDependencies);
  }

  /** Every subpass's description, in order. */
  function SubpassDescriptions(subpasses: seq<Subpass>): (r: seq<SubpassDescription>)
    ensures |r| == |subpasses| && forall i :: 0 <= i < |subpasses| ==> r[i] == SubpassDescriptionOf(subpasses[i])
  {
    seq(|subpasses|, i requires 0 <= i < |subpasses| => SubpassDescriptionOf(subpasses[i]))
  }

  /** The create info `RenderPass::new` sends: the three lists set with ash's slice setters. */
  function NewCreateInfo(p: RenderPassProperties): (r: RenderPassCreateInfo)
    ensures r.pAttachments == Points(p.attachmentDescriptions) && r.pDependencies == Points(p.subpassDependencies)
    ensures r.pSubpasses == Points(SubpassDescriptions(p.subpasses)) && r.subpassCount == SliceCount(p.subpasses)
  {
    var descriptions := SubpassDescriptions(p.subpasses);
    RenderPassCreateInfo(SliceCount(p.attachmentDescriptions), Points(p.attachmentDescriptions),
                         SliceCount(descriptions), Points(descriptions),
                         SliceCount(p.subpassDependencies), Points(p.subpassDependencies))
  }

  /** The lists of a render pass that fit 32-bit counts. */
  predicate Encodable(p: RenderPassProperties) {
    |p.attachmentDescriptions| < U32_LIMIT && |p.subpasses| < U32_LIMIT && |p.subpassDependencies| < U32_LIMIT &&
    forall i :: 0 <= i < |p.subpasses| ==>
      |p.subpasses[i].colorAttachments| < U32_LIMIT && |p.subpasses[i].inputAttachments| < U32_LIMIT
  }

  /** The create info `RenderPass::new` sends decodes to exactly the properties it stores. */
  lemma NewCreateInfoRoundTrip(p: RenderPassProperties)
    requires Encodable(p)
    ensures CreateInfoReadable(NewCreateInfo(p)) && PropertiesOf(NewCreateInfo(p)) == p
  {
    var ci := NewCreateInfo(p);
    SliceRoundTrip(p.attachmentDescriptions);
    SliceRoundTrip(p.subpassDependencies);
    forall i | 0 <= i < |p.subpasses|
      ensures SubpassReadable(SubpassDescriptionOf(p.subpasses[i]))
      ensures SubpassOf(SubpassDescriptionOf(p.subpasses[i])) == p.subpasses[i]
    {
      SubpassRoundTrip(p.subpasses[i]);
    }
    assert CreateInfoReadable(ci);
    assert PropertiesOf(ci).subpasses == p.subpasses;
  }

  /** `RenderPass`: its handle, its properties and its device. */
  datatype RenderPassObject = RenderPassObject(handle: Handle, properties: RenderPassProperties, device: Handle)

  /**
   * `RenderPass::new` (both crates): one description per subpass goes to the
   * driver, and the render pass stores exactly the lists it was given.
   */
  function New(device: Handle, attachmentDescriptions: seq<AttachmentDescription>, subpasses: seq<Subpass>,
               subpassDependencies: seq<SubpassDependency>, created: Result<Handle, VkError>)
    : (r: (Result<RenderPassObject, VkError>, RenderPassCreateInfo))
    ensures r.1 == NewCreateInfo(RenderPassProperties(attachmentDescriptions, subpasses, subpassDependencies))
    ensures |r.1.pSubpasses.elems| == |subpasses|
    ensures created.Err? ==> r.0 == Err(created.error)
    ensures created.Ok? ==> (r.0.Ok? && r.0.value.handle == created.value &&
      r.0.value.properties == RenderPassProperties(attachmentDescriptions, subpasses, subpassDependencies))
  {
    var p := RenderPassProperties(attachmentDescriptions, subpasses, subpassDependencies);
    match created
    case Err(e) => (Err(e), NewCreateInfo(p))
    case Ok(h) => (Ok(RenderPassObject(h, p, device)), NewCreateInfo(p))
  }

  /** `RenderPass::new_from_create_info`: the caller's create info is sent and its decoding stored. */
  method NewFromCreateInfo(device: Handle, ci: RenderPassCreateInfo, created: Result<Handle, VkError>)
    returns (r: Result<RenderPassObject, VkError>)
    requires CreateInfoReadable(ci)
    ensures created.Err? ==> r == Err(created.error)
    ensures created.Ok? ==> r == Ok(RenderPassObject(created.value, PropertiesOf(ci), device))
  {
    var properties := FromCreateInfo(ci);
    match created {
      case Err(e) => r := Err(e);
      case Ok(h) => r := Ok(RenderPassObject(h, properties, device));
    }
  }
}
