// Graphics pipelines: the properties that describe one, their encoding as a
// `vk::GraphicsPipelineCreateInfo` with its nine sub-create-infos, the
// decoder back, and single and batch creation
// (bort-vk/src/pipeline_graphics.rs:11-389, 962-1002; src/pipeline_graphics.rs:11-251).
// The driver's `vkCreateGraphicsPipelines` is a parameter: its result is
// passed in, and the call the wrapper issues is returned.
module PipelineGraphics {
  import opened Wrappers
  import opened VkTypes
  import opened PipelineStates
  import ShaderModule

  /** `GraphicsPipelineProperties`: everything but the stages, render pass, layout and cache. */
  datatype GraphicsPipelineProperties = GraphicsPipelineProperties(
    flags: Flags,
    subpassIndex: u32,
    vertexInputState: VertexInputState,
    inputAssemblyState: InputAssemblyState,
    tessellationState: TessellationState,
    viewportState: ViewportState,
    rasterizationState: RasterizationState,
    multisampleState: MultisampleState,
    depthStencilState: DepthStencilState,
    colorBlendState: ColorBlendState,
    dynamicState: DynamicState)

  /** The derived `Default`: no flags, subpass 0, every sub-state at its own default. */
  function DefaultProperties(): (r: GraphicsPipelineProperties)
    ensures r.flags == 0 && r.subpassIndex == 0
    ensures r.inputAssemblyState.topology == TOPOLOGY_TRIANGLE_LIST
    ensures r.rasterizationState.cullMode == CULL_MODE_NONE
    ensures r.multisampleState.rasterizationSamples == SAMPLE_COUNT_1
    ensures r.depthStencilState.depthCompareOp == COMPARE_ALWAYS
  {
    GraphicsPipelineProperties(0, 0, DefaultVertexInputState(), DefaultInputAssemblyState(),
                               DefaultTessellationState(), DefaultViewportState(), DefaultRasterizationState(),
                               DefaultMultisampleState(), DefaultDepthStencilState(), DefaultColorBlendState(),
                               DefaultDynamicState())
  }

  /** `GraphicsPipelinePropertiesCreateInfosVk` */
  datatype PropertiesCreateInfos = PropertiesCreateInfos(
    vertexInput: VertexInputCreateInfo,
    inputAssembly: InputAssemblyCreateInfo,
    tessellation: TessellationCreateInfo,
    viewport: ViewportCreateInfo,
    rasterization: RasterizationCreateInfo,
    multisample: MultisampleCreateInfo,
    depthStencil: DepthStencilCreateInfo,
    colorBlend: ColorBlendCreateInfo,
    dynamic: DynamicCreateInfo)

  /** `GraphicsPipelinePropertiesCreateInfosVk::default()`: every sub-create-info zeroed, every pointer null. */
  const DEFAULT_CREATE_INFOS := PropertiesCreateInfos(
    VertexInputCreateInfo(0, 0, Null, 0, Null),
    InputAssemblyCreateInfo(0, 0, 0),
    TessellationCreateInfo(0, 0),
    ViewportCreateInfo(0, 0, Null, 0, Null),
    RasterizationCreateInfo(0, 0, 0, 0, 0, 0, 0, F32_ZERO, F32_ZERO, F32_ZERO, F32_ZERO),
    MultisampleCreateInfo(0, 0, 0, F32_ZERO, Null, 0, 0),
    DepthStencilCreateInfo(0, 0, 0, COMPARE_NEVER, 0, 0, DEFAULT_STENCIL_OP_STATE, DEFAULT_STENCIL_OP_STATE,
                           F32_ZERO, F32_ZERO),
    ColorBlendCreateInfo(0, 0, LOGIC_OP_CLEAR, 0, Null, BlendConstants(F32_ZERO, F32_ZERO, F32_ZERO, F32_ZERO)),
    DynamicCreateInfo(0, 0, Null))

  /**
   * `vk_create_infos`: each sub-state's own create info. The depth-stencil
   * one comes from the writer as it stands, `DepthStencilWriteAsWritten`,
   * which sets the stencil test from the depth-bounds flag.
   */
  function VkCreateInfos(p: GraphicsPipelineProperties): (r: PropertiesCreateInfos)
    ensures r.depthStencil == DepthStencilWriteAsWritten(p.depthStencilState)
    ensures r.multisample == MultisampleWrite(p.multisampleState)
    ensures r.colorBlend == ColorBlendWrite(p.colorBlendState)
  {
    PropertiesCreateInfos(VertexInputWrite(p.vertexInputState), InputAssemblyWrite(p.inputAssemblyState),
                          TessellationWrite(p.tessellationState), ViewportWrite(p.viewportState),
                          RasterizationWrite(p.rasterizationState), MultisampleWrite(p.multisampleState),
                          DepthStencilWriteAsWritten(p.depthStencilState), ColorBlendWrite(p.colorBlendState),
                          DynamicWrite(p.dynamicState))
  }

  /** The sub-create-infos with the corrected depth-stencil writer; every other one as `VkCreateInfos` builds it. */
  function VkCreateInfosCorrected(p: GraphicsPipelineProperties): (r: PropertiesCreateInfos)
    ensures r.depthStencil == DepthStencilWrite(p.depthStencilState)
    ensures r.(depthStencil := VkCreateInfos(p).depthStencil) == VkCreateInfos(p)
  {
    VkCreateInfos(p).(depthStencil := DepthStencilWrite(p.depthStencilState))
  }

  /** The older `vk_create_infos`: a default set overwritten member by member, ending where `VkCreateInfos` does. */
  method LegacyVkCreateInfos(p: GraphicsPipelineProperties) returns (r: PropertiesCreateInfos)
    ensures r == VkCreateInfos(p)
  {
    r := DEFAULT_CREATE_INFOS;
    r := r.(vertexInput := VertexInputWrite(p.vertexInputState));
    r := r.(inputAssembly := InputAssemblyWrite(p.inputAssemblyState));
    r := r.(tessellation := TessellationWrite(p.tessellationState));
    r := r.(viewport := ViewportWrite(p.viewportState));
    r := r.(rasterization := RasterizationWrite(p.rasterizationState));
    r := r.(multisample := MultisampleWrite(p.multisampleState));
    r := r.(depthStencil := DepthStencilWriteAsWritten(p.depthStencilState));
    r := r.(colorBlend := ColorBlendWrite(p.colorBlendState));
    r := r.(dynamic := DynamicWrite(p.dynamicState));
  }

  /** `vk::GraphicsPipelineCreateInfo`; a null sub-state pointer is `None`. */
  datatype GraphicsPipelineCreateInfo = GraphicsPipelineCreateInfo(
    flags: Flags,
    stages: seq<ShaderModule.PipelineShaderStageCreateInfo>,
    pVertexInputState: Option<VertexInputCreateInfo>,
    pInputAssemblyState: Option<InputAssemblyCreateInfo>,
    pTessellationState: Option<TessellationCreateInfo>,
    pViewportState: Option<ViewportCreateInfo>,
    pRasterizationState: Option<RasterizationCreateInfo>,
    pMultisampleState: Option<MultisampleCreateInfo>,
    pDepthStencilState: Option<DepthStencilCreateInfo>,
    pColorBlendState: Option<ColorBlendCreateInfo>,
    pDynamicState: Option<DynamicCreateInfo>,
    layout: Handle,
    renderPass: Handle,
    subpass: u32,
    basePipelineHandle: Handle,
    basePipelineIndex: int)

  /** `vk::GraphicsPipelineCreateInfo::default()`: no stages, null pointers and handles, base index 0. */
  const DEFAULT_PIPELINE_CREATE_INFO := GraphicsPipelineCreateInfo(
    0, [], None, None, None, None, None, None, None, None, None, NULL_HANDLE, NULL_HANDLE, 0, NULL_HANDLE, 0)

  /**
   * `write_create_info` (bort-vk) and `write_create_info_builder` (src):
   * flags, subpass and the nine sub-state pointers; the stages, layout,
   * render pass and base pipeline are left as they were.
   */
  function WriteCreateInfo(p: GraphicsPipelineProperties, createInfo: GraphicsPipelineCreateInfo,
                           infos: PropertiesCreateInfos): (r: GraphicsPipelineCreateInfo)
    ensures r.flags == p.flags && r.subpass == p.subpassIndex
    ensures r.pVertexInputState == Some(infos.vertexInput) && r.pDepthStencilState == Some(infos.depthStencil)
    ensures r.stages == createInfo.stages && r.layout == createInfo.layout && r.renderPass == createInfo.renderPass
    ensures r.basePipelineHandle == createInfo.basePipelineHandle && r.basePipelineIndex == createInfo.basePipelineIndex
  {
    createInfo.(flags := p.flags, subpass := p.subpassIndex,
                pVertexInputState := Some(infos.vertexInput), pInputAssemblyState := Some(infos.inputAssembly),
                pTessellationState := Some(infos.tessellation), pViewportState := Some(infos.viewport),
                pRasterizationState := Some(infos.rasterization), pMultisampleState := Some(infos.multisample),
                pDepthStencilState := Some(infos.depthStencil), pColorBlendState := Some(infos.colorBlend),
                pDynamicState := Some(infos.dynamic))
  }

  /** `from_create_info_ptr`: the decoded state behind a pointer, or the default for a null one. */
  function FromCreateInfoPtr<C, P>(ptr: Option<C>, from: C -> P, default: P): (r: P)
    ensures ptr.None? ==> r == default
    ensures ptr.Some? ==> r == from(ptr.value)
  {
    match ptr
    case None => default
    case Some(ci) => from(ci)
  }

  /** The caller obligations of `from_create_info`: every non-null array it copies is long enough. */
  predicate CreateInfoReadable(ci: GraphicsPipelineCreateInfo) {
    (ci.pVertexInputState.Some? ==> VertexInputReadable(ci.pVertexInputState.value)) &&
    (ci.pViewportState.Some? ==> ViewportReadable(ci.pViewportState.value)) &&
    (ci.pMultisampleState.Some? ==> MaskReadable(ci.pMultisampleState.value)) &&
    (ci.pColorBlendState.Some? ==> ReadableUnchecked(ci.pColorBlendState.value.attachmentCount,
                                                     ci.pColorBlendState.value.pAttachments)) &&
    (ci.pDynamicState.Some? ==> ReadableUnchecked(ci.pDynamicState.value.dynamicStateCount,
                                                  ci.pDynamicState.value.pDynamicStates))
  }

  /** What `GraphicsPipelineProperties::from_create_info` builds: each present sub-state decoded, the rest default. */
  function PropertiesOf(ci: GraphicsPipelineCreateInfo): GraphicsPipelineProperties
    requires CreateInfoReadable(ci)
  {
    GraphicsPipelineProperties(
      ci.flags, ci.subpass,
      if ci.pVertexInputState.Some? then VertexInputOf(ci.pVertexInputState.value) else DefaultVertexInputState(),
      FromCreateInfoPtr(ci.pInputAssemblyState, InputAssemblyOf, DefaultInputAssemblyState()),
      FromCreateInfoPtr(ci.pTessellationState, TessellationOf, DefaultTessellationState()),
      if ci.pViewportState.Some? then ViewportOf(ci.pViewportState.value) else DefaultViewportState(),
      FromCreateInfoPtr(ci.pRasterizationState, RasterizationOf, DefaultRasterizationState()),
      if ci.pMultisampleState.Some? then MultisampleOf(ci.pMultisampleState.value) else DefaultMultisampleState(),
      FromCreateInfoPtr(ci.pDepthStencilState, DepthStencilOf, DefaultDepthStencilState()),
      if ci.pColorBlendState.Some? then ColorBlendOf(ci.pColorBlendState.value) else DefaultColorBlendState(),
      if ci.pDynamicState.Some? then DynamicOf(ci.pDynamicState.value) else DefaultDynamicState())
  }

  /** `GraphicsPipelineProperties::from_create_info`, running each sub-state's copying decoder. */
  method FromCreateInfo(ci: GraphicsPipelineCreateInfo) returns (p: GraphicsPipelineProperties)
    requires CreateInfoReadable(ci)
    ensures p == PropertiesOf(ci)
  {
    var vertexInput := DefaultVertexInputState();
    if ci.pVertexInputState.Some? {
      vertexInput := VertexInputFromCreateInfo(ci.pVertexInputState.value);
    }
    var viewport := DefaultViewportState();
    if ci.pViewportState.Some? {
      viewport := ViewportFromCreateInfo(ci.pViewportState.value);
    }
    var multisample := DefaultMultisampleState();
    if ci.pMultisampleState.Some? {
      multisample := MultisampleOf(ci.pMultisampleState.value);
    }
    var colorBlend := DefaultColorBlendState();
    if ci.pColorBlendState.Some? {
      colorBlend := ColorBlendFromCreateInfo(ci.pColorBlendState.value);
    }
    var dynamic := DefaultDynamicState();
    if ci.pDynamicState.Some? {
      dynamic := DynamicFromCreateInfo(ci.pDynamicState.value);
    }
    p := GraphicsPipelineProperties(
      ci.flags, ci.subpass, vertexInput,
      FromCreateInfoPtr(ci.pInputAssemblyState, InputAssemblyOf, DefaultInputAssemblyState()),
      FromCreateInfoPtr(ci.pTessellationState, TessellationOf, DefaultTessellationState()),
      viewport,
      FromCreateInfoPtr(ci.pRasterizationState, RasterizationOf, DefaultRasterizationState()),
      multisample,
      FromCreateInfoPtr(ci.pDepthStencilState, DepthStencilOf, DefaultDepthStencilState()),
      colorBlend, dynamic);
  }

  /** A create info with every sub-state pointer null decodes to the default properties. */
  lemma NullStatesDecodeToDefault(ci: GraphicsPipelineCreateInfo)
    requires ci.flags == 0 && ci.subpass == 0
    requires ci.pVertexInputState.None? && ci.pInputAssemblyState.None? && ci.pTessellationState.None?
    requires ci.pViewportState.None? && ci.pRasterizationState.None? && ci.pMultisampleState.None?
    requires ci.pDepthStencilState.None? && ci.pColorBlendState.None? && ci.pDynamicState.None?
    ensures CreateInfoReadable(ci) && PropertiesOf(ci) == DefaultProperties()
  {
  }

  /** The properties whose arrays fit the 32-bit counts and whose sample mask is empty or as long as the sample count implies. */
  predicate Encodable(p: GraphicsPipelineProperties) {
    |p.vertexInputState.vertexBindingDescriptions| < U32_LIMIT &&
    |p.vertexInputState.vertexAttributeDescriptions| < U32_LIMIT &&
    |p.viewportState.viewports| < U32_LIMIT && |p.viewportState.scissors| < U32_LIMIT &&
    (p.multisampleState.sampleMask == [] ||
     |p.multisampleState.sampleMask| == MaskWords(p.multisampleState.rasterizationSamples)) &&
    |p.colorBlendState.attachments| < U32_LIMIT &&
    |p.dynamicState.dynamicStates| < U32_LIMIT
  }

  /** The properties with the depth-stencil state's stencil test replaced by its depth-bounds test. */
  function StencilFromDepthBounds(p: GraphicsPipelineProperties): (r: GraphicsPipelineProperties)
    ensures r.depthStencilState.stencilTestEnable == p.depthStencilState.depthBoundsTestEnable
    ensures r == p <==> p.depthStencilState.stencilTestEnable == p.depthStencilState.depthBoundsTestEnable
  {
    p.(depthStencilState := p.depthStencilState.(stencilTestEnable := p.depthStencilState.depthBoundsTestEnable))
  }

  /**
   * Writing properties into any create info and decoding that create info
   * gives the properties back with the stencil test replaced by the
   * depth-bounds test, whatever else the create info holds; so they come
   * back unchanged exactly when those two flags agree.
   */
  lemma PropertiesRoundTrip(p: GraphicsPipelineProperties, createInfo: GraphicsPipelineCreateInfo)
    requires Encodable(p)
    ensures CreateInfoReadable(WriteCreateInfo(p, createInfo, VkCreateInfos(p)))
    ensures PropertiesOf(WriteCreateInfo(p, createInfo, VkCreateInfos(p))) == StencilFromDepthBounds(p)
    ensures PropertiesOf(WriteCreateInfo(p, createInfo, VkCreateInfos(p))) == p <==>
      p.depthStencilState.stencilTestEnable == p.depthStencilState.depthBoundsTestEnable
  {
    VertexInputRoundTrip(p.vertexInputState);
    InputAssemblyRoundTrip(p.inputAssemblyState);
    TessellationRoundTrip(p.tessellationState);
    ViewportRoundTrip(p.viewportState);
    RasterizationRoundTrip(p.rasterizationState);
    MultisampleRoundTrip(p.multisampleState);
    DepthStencilAsWrittenLosesStencilTest(p.depthStencilState);
    ColorBlendRoundTrip(p.colorBlendState);
    DynamicRoundTrip(p.dynamicState);
  }

  /** With the corrected depth-stencil writer every encodable set of properties survives its create info. */
  lemma CorrectedPropertiesRoundTrip(p: GraphicsPipelineProperties, createInfo: GraphicsPipelineCreateInfo)
    requires Encodable(p)
    ensures CreateInfoReadable(WriteCreateInfo(p, createInfo, VkCreateInfosCorrected(p)))
    ensures PropertiesOf(WriteCreateInfo(p, createInfo, VkCreateInfosCorrected(p))) == p
  {
    VertexInputRoundTrip(p.vertexInputState);
    InputAssemblyRoundTrip(p.inputAssemblyState);
    TessellationRoundTrip(p.tessellationState);
    ViewportRoundTrip(p.viewportState);
    RasterizationRoundTrip(p.rasterizationState);
    MultisampleRoundTrip(p.multisampleState);
    DepthStencilRoundTrip(p.depthStencilState);
    ColorBlendRoundTrip(p.colorBlendState);
    DynamicRoundTrip(p.dynamicState);
  }

  /** `GraphicsPipeline`: its handle, its properties and the layout it was made with. */
  datatype GraphicsPipelineObject = GraphicsPipelineObject(handle: Handle, properties: GraphicsPipelineProperties,
                                                           pipelineLayout: Handle)
  {
    /** `PipelineAccess::bind_point` */
    function BindPoint(): (r: PipelineBindPoint)
      ensures r == BIND_POINT_GRAPHICS
    {
      BIND_POINT_GRAPHICS
    }
  }

  /** One `vkCreateGraphicsPipelines` call: the cache handle and the create infos, in order. */
  datatype CreatePipelinesCall = CreatePipelinesCall(pipelineCache: Handle, createInfos: seq<GraphicsPipelineCreateInfo>)

  /** The cache handle passed to the driver: the cache's, or null without one. */
  function CacheHandle(pipelineCache: Option<Handle>): (r: Handle)
    ensures pipelineCache.None? ==> r == NULL_HANDLE
    ensures pipelineCache.Some? ==> r == pipelineCache.value
  {
    pipelineCache.UnwrapOr(NULL_HANDLE)
  }

  /** Every stage's create info, in order. */
  function StageCreateInfos(stages: seq<ShaderModule.ShaderStage>): (r: seq<ShaderModule.PipelineShaderStageCreateInfo>)
    ensures |r| == |stages| && forall i :: 0 <= i < |stages| ==> r[i] == ShaderModule.WriteCreateInfo(stages[i])
  {
    seq(|stages|, i requires 0 <= i < |stages| => ShaderModule.WriteCreateInfo(stages[i]))
  }

  /** The create info `new` builds: the properties written into a default one, then stages, render pass and layout. */
  function PipelineCreateInfo(pipelineLayout: Handle, p: GraphicsPipelineProperties,
                              stages: seq<ShaderModule.ShaderStage>, renderPass: Handle): (r: GraphicsPipelineCreateInfo)
    ensures r.stages == StageCreateInfos(stages) && r.renderPass == renderPass && r.layout == pipelineLayout
    ensures r.basePipelineHandle == NULL_HANDLE && r.basePipelineIndex == 0
  {
    AssembleCreateInfo(pipelineLayout, p, VkCreateInfos(p), StageCreateInfos(stages), renderPass)
  }

  /** The properties written into a default create info with these sub-create-infos, then stages, render pass and layout. */
  function AssembleCreateInfo(pipelineLayout: Handle, p: GraphicsPipelineProperties, infos: PropertiesCreateInfos,
                              stages: seq<ShaderModule.PipelineShaderStageCreateInfo>, renderPass: Handle)
    : GraphicsPipelineCreateInfo
  {
    WriteCreateInfo(p, DEFAULT_PIPELINE_CREATE_INFO, infos).(stages := stages, renderPass := renderPass,
                                                             layout := pipelineLayout)
  }

  /**
   * The create info `new` sends decodes to the properties it was built
   * from, except that the stencil test reads back as the depth-bounds test.
   */
  lemma PipelineCreateInfoDecodes(pipelineLayout: Handle, p: GraphicsPipelineProperties,
                                  stages: seq<ShaderModule.ShaderStage>, renderPass: Handle)
    requires Encodable(p)
    ensures CreateInfoReadable(PipelineCreateInfo(pipelineLayout, p, stages, renderPass))
    ensures PropertiesOf(PipelineCreateInfo(pipelineLayout, p, stages, renderPass)) == StencilFromDepthBounds(p)
    ensures PropertiesOf(PipelineCreateInfo(pipelineLayout, p, stages, renderPass)) == p <==>
      p.depthStencilState.stencilTestEnable == p.depthStencilState.depthBoundsTestEnable
  {
    PropertiesRoundTrip(p, DEFAULT_PIPELINE_CREATE_INFO);
  }

  /**
   * `GraphicsPipeline::new` (both crates): one create info is sent; the
   * driver's first handle becomes the pipeline, which keeps the properties
   * it was given, or the driver's error is returned.
   */
  function New(pipelineLayout: Handle, p: GraphicsPipelineProperties, stages: seq<ShaderModule.ShaderStage>,
               renderPass: Handle, pipelineCache: Option<Handle>,
               created: Result<Handle, VkError>): (r: (Result<GraphicsPipelineObject, VkError>, CreatePipelinesCall))
    ensures r.1 == CreatePipelinesCall(CacheHandle(pipelineCache), [PipelineCreateInfo(pipelineLayout, p, stages, renderPass)])
    ensures created.Err? ==> r.0 == Err(created.error)
    ensures created.Ok? ==> r.0 == Ok(GraphicsPipelineObject(created.value, p, pipelineLayout))
  {
    var call := CreatePipelinesCall(CacheHandle(pipelineCache), [PipelineCreateInfo(pipelineLayout, p, stages, renderPass)]);
    match created
    case Err(e) => (Err(e), call)
    case Ok(h) => (Ok(GraphicsPipelineObject(h, p, pipelineLayout)), call)
  }

  /**
   * `GraphicsPipeline::new_from_create_info`: the caller's create info is
   * sent unchanged and the pipeline keeps the properties decoded from it.
   */
  method NewFromCreateInfo(pipelineLayout: Handle, createInfo: GraphicsPipelineCreateInfo, pipelineCache: Option<Handle>,
                           created: Result<Handle, VkError>)
    returns (r: Result<GraphicsPipelineObject, VkError>, call: CreatePipelinesCall)
    requires CreateInfoReadable(createInfo)
    ensures call == CreatePipelinesCall(CacheHandle(pipelineCache), [createInfo])
    ensures created.Err? ==> r == Err(created.error)
    ensures created.Ok? ==> r == Ok(GraphicsPipelineObject(created.value, PropertiesOf(createInfo), pipelineLayout))
  {
    var properties := FromCreateInfo(createInfo);
    call := CreatePipelinesCall(CacheHandle(pipelineCache), [createInfo]);
    match created {
      case Err(e) => r := Err(e);
      case Ok(h) => r := Ok(GraphicsPipelineObject(h, properties, pipelineLayout));
    }
  }

  /** `PerPipelineCreationParams` */
  datatype PerPipelineCreationParams = PerPipelineCreationParams(
    pipelineLayout: Handle,
    properties: GraphicsPipelineProperties,
    shaderStages: seq<ShaderModule.ShaderStage>,
    renderPass: Handle)

  /** The first loop of `new_batch_create`: each entry's sub-state create infos, in order. */
  method BatchPropertiesVk(params: seq<PerPipelineCreationParams>) returns (propertiesVk: seq<PropertiesCreateInfos>)
    ensures |propertiesVk| == |params|
    ensures forall j :: 0 <= j < |params| ==> propertiesVk[j] == VkCreateInfos(params[j].properties)
  {
    propertiesVk := [];
    var i := 0;
    while i < |params|
      invariant 0 <= i <= |params| && |propertiesVk| == i
      invariant forall j :: 0 <= j < i ==> propertiesVk[j] == VkCreateInfos(params[j].properties)
    {
      propertiesVk := propertiesVk + [VkCreateInfos(params[i].properties)];
      i := i + 1;
    }
  }

  /** The second loop: each entry's shader stage create infos, in order. */
  method BatchStageInfos(params: seq<PerPipelineCreationParams>)
    returns (stageInfos: seq<seq<ShaderModule.PipelineShaderStageCreateInfo>>)
    ensures |stageInfos| == |params|
    ensures forall j :: 0 <= j < |params| ==> stageInfos[j] == StageCreateInfos(params[j].shaderStages)
  {
    stageInfos := [];
    var i := 0;
    while i < |params|
      invariant 0 <= i <= |params| && |stageInfos| == i
      invariant forall j :: 0 <= j < i ==> stageInfos[j] == StageCreateInfos(params[j].shaderStages)
    {
      stageInfos := stageInfos + [StageCreateInfos(params[i].shaderStages)];
      i := i + 1;
    }
  }

  /** The third loop: entry `i`'s create info assembled from the two lists built before. */
  method BatchCreateInfos(params: seq<PerPipelineCreationParams>, propertiesVk: seq<PropertiesCreateInfos>,
                          stageInfos: seq<seq<ShaderModule.PipelineShaderStageCreateInfo>>)
    returns (createInfos: seq<GraphicsPipelineCreateInfo>)
    requires |propertiesVk| == |params| && |stageInfos| == |params|
    ensures |createInfos| == |params|
    ensures forall j :: 0 <= j < |params| ==>
      createInfos[j] == AssembleCreateInfo(params[j].pipelineLayout, params[j].properties, propertiesVk[j],
                                           stageInfos[j], params[j].renderPass)
  {
    createInfos := [];
    var i := 0;
    while i < |params|
      invariant 0 <= i <= |params| && |createInfos| == i
      invariant forall j :: 0 <= j < i ==>
        createInfos[j] == AssembleCreateInfo(params[j].pipelineLayout, params[j].properties, propertiesVk[j],
                                             stageInfos[j], params[j].renderPass)
    {
      var createInfo := AssembleCreateInfo(params[i].pipelineLayout, params[i].properties, propertiesVk[i],
                                           stageInfos[i], params[i].renderPass);
      createInfos := createInfos + [createInfo];
      i := i + 1;
    }
  }

  /** The last loop: pipeline `i` wraps handle `i` with entry `i`'s properties and layout. */
  method BatchPipelines(params: seq<PerPipelineCreationParams>, handles: seq<Handle>)
    returns (pipelines: seq<GraphicsPipelineObject>)
    requires |handles| == |params|
    ensures |pipelines| == |params|
    ensures forall j :: 0 <= j < |params| ==>
      pipelines[j] == GraphicsPipelineObject(handles[j], params[j].properties, params[j].pipelineLayout)
  {
    pipelines := [];
    var i := 0;
    while i < |params|
      invariant 0 <= i <= |params| && |pipelines| == i
      invariant forall j :: 0 <= j < i ==>
        pipelines[j] == GraphicsPipelineObject(handles[j], params[j].properties, params[j].pipelineLayout)
    {
      pipelines := pipelines + [GraphicsPipelineObject(handles[i], params[i].properties, params[i].pipelineLayout)];
      i := i + 1;
    }
  }

  /**
   * What `new_batch_create` sends and returns: one create info per params
   * entry in one call, then one pipeline per returned handle, or the
   * driver's error.
   */
  function BatchCreate(params: seq<PerPipelineCreationParams>, pipelineCache: Option<Handle>,
                       created: Result<seq<Handle>, VkError>)
    : (r: (Result<seq<GraphicsPipelineObject>, VkError>, CreatePipelinesCall))
    requires created.Ok? ==> |created.value| == |params|
    ensures r.1.pipelineCache == CacheHandle(pipelineCache) && |r.1.createInfos| == |params|
    ensures created.Err? <==> r.0.Err?
    ensures r.0.Ok? ==> |r.0.value| == |params|
  {
    var call := CreatePipelinesCall(CacheHandle(pipelineCache),
      seq(|params|, i requires 0 <= i < |params| =>
        PipelineCreateInfo(params[i].pipelineLayout, params[i].properties, params[i].shaderStages, params[i].renderPass)));
    match created
    case Err(e) => (Err(e), call)
    case Ok(handles) =>
      (Ok(seq(|params|, i requires 0 <= i < |params| =>
         GraphicsPipelineObject(handles[i], params[i].properties, params[i].pipelineLayout))), call)
  }

  /**
   * `GraphicsPipeline::new_batch_create` (both crates): its loops build
   * the sub-create-infos, the stage lists and the create infos, one of each
   * per params entry, and one call creates them all. The driver returns one
   * handle per create info; pipeline `i` takes handle `i` with the
   * properties and layout of entry `i`.
   */
  method NewBatchCreate(params: seq<PerPipelineCreationParams>, pipelineCache: Option<Handle>,
                        created: Result<seq<Handle>, VkError>)
    returns (r: Result<seq<GraphicsPipelineObject>, VkError>, call: CreatePipelinesCall)
    requires created.Ok? ==> |created.value| == |params|
    ensures call.pipelineCache == CacheHandle(pipelineCache) && |call.createInfos| == |params|
    ensures forall i :: 0 <= i < |params| ==>
      call.createInfos[i] == PipelineCreateInfo(params[i].pipelineLayout, params[i].properties,
                                                params[i].shaderStages, params[i].renderPass)
    ensures created.Err? ==> r == Err(created.error)
    ensures created.Ok? ==> r.Ok? && |r.value| == |params|
    ensures created.Ok? ==> forall i :: 0 <= i < |params| ==>
      r.value[i] == GraphicsPipelineObject(created.value[i], params[i].properties, params[i].pipelineLayout)
    ensures (r, call) == BatchCreate(params, pipelineCache, created)
  {
    var propertiesVk := BatchPropertiesVk(params);
    var stageInfos := BatchStageInfos(params);
    var createInfos := BatchCreateInfos(params, propertiesVk, stageInfos);
    call := CreatePipelinesCall(CacheHandle(pipelineCache), createInfos);
    assert call.createInfos == BatchCreate(params, pipelineCache, created).1.createInfos;
    match created {
      case Err(e) => r := Err(e);
      case Ok(handles) =>
        var pipelines := BatchPipelines(params, handles);
        assert pipelines == BatchCreate(params, pipelineCache, created).0.value;
        r := Ok(pipelines);
    }
  }

  /**
   * A batch of one makes the same call as `new` and, given the same answer
   * from the driver, the same pipeline or the same error.
   */
  lemma BatchOfOneIsNew(params: PerPipelineCreationParams, pipelineCache: Option<Handle>, created: Result<Handle, VkError>)
    ensures var single :=
      New(params.pipelineLayout, params.properties, params.shaderStages, params.renderPass, pipelineCache, created);
      var batch := BatchCreate([params], pipelineCache, if created.Ok? then Ok([created.value]) else Err(created.error));
      batch.1 == single.1 &&
      (created.Ok? ==> single.0.Ok? && batch.0 == Ok([single.0.value])) &&
      (created.Err? ==> batch.0 == Err(created.error) && single.0 == Err(created.error))
  {
    var single :=
      New(params.pipelineLayout, params.properties, params.shaderStages, params.renderPass, pipelineCache, created);
    var batch := BatchCreate([params], pipelineCache, if created.Ok? then Ok([created.value]) else Err(created.error));
    assert batch.1.createInfos == single.1.createInfos;
    if created.Ok? {
      assert batch.0.value == [single.0.value];
    }
  }
}
