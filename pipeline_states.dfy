// The nine sub-states of a graphics pipeline and their create-info
// encodings (bort-vk/src/pipeline_graphics.rs:392-959; the older
// src/pipeline_graphics.rs:254-652 has the same states and writers but no
// decoders). Floats are carried as bit patterns and only copied; the
// colour-blend presets are given a meaning by the blend equations of the
// Vulkan specification, over real numbers.
module PipelineStates {
  import opened Wrappers
  import opened VkTypes

  type LogicOp = int
  type BlendFactor = int
  type BlendOp = int
  type DynamicStateKind = int
  type PrimitiveTopology = int
  type PolygonMode = int
  type FrontFace = int
  type VertexInputRate = int
  type StencilOp = int

  const LOGIC_OP_CLEAR: LogicOp := 0

  const BLEND_FACTOR_ZERO: BlendFactor := 0
  const BLEND_FACTOR_ONE: BlendFactor := 1
  const BLEND_FACTOR_SRC_COLOR: BlendFactor := 2
  const BLEND_FACTOR_ONE_MINUS_SRC_COLOR: BlendFactor := 3
  const BLEND_FACTOR_DST_COLOR: BlendFactor := 4
  const BLEND_FACTOR_ONE_MINUS_DST_COLOR: BlendFactor := 5
  const BLEND_FACTOR_SRC_ALPHA: BlendFactor := 6
  const BLEND_FACTOR_ONE_MINUS_SRC_ALPHA: BlendFactor := 7
  const BLEND_FACTOR_DST_ALPHA: BlendFactor := 8
  const BLEND_FACTOR_ONE_MINUS_DST_ALPHA: BlendFactor := 9

  const BLEND_OP_ADD: BlendOp := 0
  const BLEND_OP_SUBTRACT: BlendOp := 1
  const BLEND_OP_REVERSE_SUBTRACT: BlendOp := 2
  const BLEND_OP_MIN: BlendOp := 3
  const BLEND_OP_MAX: BlendOp := 4

  const COLOR_COMPONENT_R: Flags := 0x1
  const COLOR_COMPONENT_G: Flags := 0x2
  const COLOR_COMPONENT_B: Flags := 0x4
  const COLOR_COMPONENT_A: Flags := 0x8
  const COLOR_COMPONENT_RGBA: Flags := 0xF

  const TOPOLOGY_TRIANGLE_LIST: PrimitiveTopology := 3
  const POLYGON_MODE_FILL: PolygonMode := 0
  const CULL_MODE_NONE: Flags := 0
  const FRONT_FACE_COUNTER_CLOCKWISE: FrontFace := 0

  // ---- colour blend ----

  /** `vk::PipelineColorBlendAttachmentState`; its `Default` is all zeros. */
  datatype ColorBlendAttachmentState = ColorBlendAttachmentState(
    blendEnable: Bool32,
    srcColorBlendFactor: BlendFactor,
    dstColorBlendFactor: BlendFactor,
    colorBlendOp: BlendOp,
    srcAlphaBlendFactor: BlendFactor,
    dstAlphaBlendFactor: BlendFactor,
    alphaBlendOp: BlendOp,
    colorWriteMask: Flags)

  const DEFAULT_ATTACHMENT_STATE := ColorBlendAttachmentState(0, 0, 0, 0, 0, 0, 0, 0)

  /** `[f32; 4]` */
  datatype BlendConstants = BlendConstants(r: F32, g: F32, b: F32, a: F32)

  /** `ColorBlendState` */
  datatype ColorBlendState = ColorBlendState(
    flags: Flags,
    logicOp: Option<LogicOp>,
    attachments: seq<ColorBlendAttachmentState>,
    blendConstants: BlendConstants)

  /** `vk::PipelineColorBlendStateCreateInfo` */
  datatype ColorBlendCreateInfo = ColorBlendCreateInfo(
    flags: Flags,
    logicOpEnable: Bool32,
    logicOp: LogicOp,
    attachmentCount: u32,
    pAttachments: Ptr<ColorBlendAttachmentState>,
    blendConstants: BlendConstants)

  /** `ColorBlendState::default()`: no logic op, no attachments. */
  function DefaultColorBlendState(): (r: ColorBlendState)
    ensures r.flags == 0 && r.logicOp.None? && r.attachments == []
  {
    ColorBlendState(0, None, [], BlendConstants(F32_ZERO, F32_ZERO, F32_ZERO, F32_ZERO))
  }

  /** `ColorBlendState::new_default` (bort-vk) and `ColorBlendState::new` (src): the default with these attachments. */
  function ColorBlendNewDefault(attachments: seq<ColorBlendAttachmentState>): (r: ColorBlendState)
    ensures r.attachments == attachments && r == DefaultColorBlendState().(attachments := attachments)
  {
    DefaultColorBlendState().(attachments := attachments)
  }

  /** `write_create_info`: a logic op is enabled exactly when one is set, and `CLEAR` stands in otherwise. */
  function ColorBlendWrite(s: ColorBlendState): (r: ColorBlendCreateInfo)
    ensures FromBool32(r.logicOpEnable) <==> s.logicOp.Some?
    ensures r.logicOp == s.logicOp.UnwrapOr(LOGIC_OP_CLEAR)
    ensures r.attachmentCount == SliceCount(s.attachments) && r.pAttachments == Points(s.attachments)
  {
    ColorBlendCreateInfo(s.flags, ToBool32(s.logicOp.Some?), s.logicOp.UnwrapOr(LOGIC_OP_CLEAR),
                         SliceCount(s.attachments), Points(s.attachments), s.blendConstants)
  }

  /** What `from_create_info` builds: `attachment_count` attachments, and a logic op only when enabled. */
  function ColorBlendOf(ci: ColorBlendCreateInfo): ColorBlendState
    requires ReadableUnchecked(ci.attachmentCount, ci.pAttachments)
  {
    ColorBlendState(ci.flags, if ci.logicOpEnable == 0 then None else Some(ci.logicOp),
                    ReadUnchecked(ci.attachmentCount, ci.pAttachments), ci.blendConstants)
  }

  /** `ColorBlendState::from_create_info`, with its push loop over the attachments. */
  method ColorBlendFromCreateInfo(ci: ColorBlendCreateInfo) returns (s: ColorBlendState)
    requires ReadableUnchecked(ci.attachmentCount, ci.pAttachments)
    ensures s == ColorBlendOf(ci)
  {
    var attachments := CopyArray(ci.attachmentCount, ci.pAttachments);
    var logicOp := if ci.logicOpEnable == 0 then None else Some(ci.logicOp);
    s := ColorBlendState(ci.flags, logicOp, attachments, ci.blendConstants);
  }

  /** Every colour-blend state survives its create info, the logic op included. */
  lemma ColorBlendRoundTrip(s: ColorBlendState)
    requires |s.attachments| < U32_LIMIT
    ensures ReadableUnchecked(ColorBlendWrite(s).attachmentCount, ColorBlendWrite(s).pAttachments)
    ensures ColorBlendOf(ColorBlendWrite(s)) == s
  {
    SliceRoundTrip(s.attachments);
  }

  // ---- colour-blend presets and the blend equations ----

  /** A colour as the blend unit sees it, one real per channel. */
  datatype Rgba = Rgba(r: real, g: real, b: real, a: real)

  function Channel(c: Rgba, k: nat): real
    requires k < 4
  {
    if k == 0 then c.r else if k == 1 then c.g else if k == 2 then c.b else c.a
  }

  /** The factors and operations the equations below cover (no constant-colour or dual-source factors). */
  predicate Modelled(att: ColorBlendAttachmentState) {
    0 <= att.srcColorBlendFactor <= 9 && 0 <= att.dstColorBlendFactor <= 9 &&
    0 <= att.srcAlphaBlendFactor <= 9 && 0 <= att.dstAlphaBlendFactor <= 9 &&
    0 <= att.colorBlendOp <= 4 && 0 <= att.alphaBlendOp <= 4
  }

  /** The value of a blend factor for channel `k` (3 is alpha). */
  function FactorValue(f: BlendFactor, src: Rgba, dst: Rgba, k: nat): real
    requires 0 <= f <= 9 && k < 4
  {
    if f == BLEND_FACTOR_ZERO then 0.0
    else if f == BLEND_FACTOR_ONE then 1.0
    else if f == BLEND_FACTOR_SRC_COLOR then Channel(src, k)
    else if f == BLEND_FACTOR_ONE_MINUS_SRC_COLOR then 1.0 - Channel(src, k)
    else if f == BLEND_FACTOR_DST_COLOR then Channel(dst, k)
    else if f == BLEND_FACTOR_ONE_MINUS_DST_COLOR then 1.0 - Channel(dst, k)
    else if f == BLEND_FACTOR_SRC_ALPHA then src.a
    else if f == BLEND_FACTOR_ONE_MINUS_SRC_ALPHA then 1.0 - src.a
    else if f == BLEND_FACTOR_DST_ALPHA then dst.a
    else 1.0 - dst.a
  }

  /** One blend equation: `s * sf op d * df`, with `MIN`/`MAX` ignoring the factors. */
  function Combine(op: BlendOp, s: real, sf: real, d: real, df: real): real
    requires 0 <= op <= 4
  {
    if op == BLEND_OP_ADD then s * sf + d * df
    else if op == BLEND_OP_SUBTRACT then s * sf - d * df
    else if op == BLEND_OP_REVERSE_SUBTRACT then d * df - s * sf
    else if op == BLEND_OP_MIN then (if s < d then s else d)
    else (if s < d then d else s)
  }

  /** Channel `k` after blending and the colour write mask: an unwritten channel keeps the destination. */
  function BlendChannel(att: ColorBlendAttachmentState, src: Rgba, dst: Rgba, k: nat): real
    requires Modelled(att) && k < 4
  {
    var mask := if k == 0 then COLOR_COMPONENT_R else if k == 1 then COLOR_COMPONENT_G
                else if k == 2 then COLOR_COMPONENT_B else COLOR_COMPONENT_A;
    var blended :=
      if att.blendEnable == 0 then Channel(src, k)
      else if k < 3 then
        Combine(att.colorBlendOp, Channel(src, k), FactorValue(att.srcColorBlendFactor, src, dst, k),
                Channel(dst, k), FactorValue(att.dstColorBlendFactor, src, dst, k))
      else
        Combine(att.alphaBlendOp, src.a, FactorValue(att.srcAlphaBlendFactor, src, dst, k),
                dst.a, FactorValue(att.dstAlphaBlendFactor, src, dst, k));
    if Contains(att.colorWriteMask, mask) then blended else Channel(dst, k)
  }

  /** The colour an attachment holds after a fragment `src` lands on `dst`. */
  function Blend(att: ColorBlendAttachmentState, src: Rgba, dst: Rgba): Rgba
    requires Modelled(att)
  {
    Rgba(BlendChannel(att, src, dst, 0), BlendChannel(att, src, dst, 1),
         BlendChannel(att, src, dst, 2), BlendChannel(att, src, dst, 3))
  }

  /** `blend_state_disabled` (both crates): the default state, writing all four channels. */
  function BlendStateDisabled(): (r: ColorBlendAttachmentState)
    ensures Modelled(r) && r.blendEnable == 0 && r.colorWriteMask == COLOR_COMPONENT_RGBA
  {
    DEFAULT_ATTACHMENT_STATE.(colorWriteMask := COLOR_COMPONENT_RGBA)
  }

  /** With blending disabled the fragment's colour is written as it is. */
  lemma BlendStateDisabledWritesSource(src: Rgba, dst: Rgba)
    ensures Modelled(BlendStateDisabled()) && Blend(BlendStateDisabled(), src, dst) == src
  {
  }

  /** `blend_state_additive` (both crates) */
  function BlendStateAdditive(): (r: ColorBlendAttachmentState)
    ensures Modelled(r) && r.blendEnable == 1 && r.colorWriteMask == COLOR_COMPONENT_RGBA
  {
    ColorBlendAttachmentState(1, BLEND_FACTOR_ONE, BLEND_FACTOR_ONE, BLEND_OP_ADD,
                              BLEND_FACTOR_ONE, BLEND_FACTOR_ONE, BLEND_OP_MAX, COLOR_COMPONENT_RGBA)
  }

  /** As documented: the colours are added and the alpha is the larger of the two. */
  lemma BlendStateAdditiveAddsColours(src: Rgba, dst: Rgba)
    ensures Modelled(BlendStateAdditive())
    ensures var out := Blend(BlendStateAdditive(), src, dst);
      out.r == src.r + dst.r && out.g == src.g + dst.g && out.b == src.b + dst.b &&
      out.a == (if src.a < dst.a then dst.a else src.a)
  {
  }

  /**
   * `blend_state_ignore_source` (both crates) as written: source and
   * destination colour factors are both `ZERO`.
   */
  function BlendStateIgnoreSourceAsWritten(): (r: ColorBlendAttachmentState)
    ensures Modelled(r) && r.blendEnable == 1 && r.colorWriteMask == COLOR_COMPONENT_RGBA
    ensures r.dstColorBlendFactor == BLEND_FACTOR_ZERO
  {
    ColorBlendAttachmentState(1, BLEND_FACTOR_ZERO, BLEND_FACTOR_ZERO, BLEND_OP_ADD,
                              BLEND_FACTOR_DST_COLOR, BLEND_FACTOR_DST_COLOR, BLEND_OP_ADD, COLOR_COMPONENT_RGBA)
  }

  /**
   * The preset promises that the destination is untouched, but it clears
   * the colour channels to zero: a white destination turns black.
   */
  lemma IgnoreSourceAsWrittenClearsDestination(src: Rgba, dst: Rgba)
    ensures Modelled(BlendStateIgnoreSourceAsWritten())
    ensures var out := Blend(BlendStateIgnoreSourceAsWritten(), src, dst);
      out.r == 0.0 && out.g == 0.0 && out.b == 0.0
    ensures Blend(BlendStateIgnoreSourceAsWritten(), Rgba(0.5, 0.5, 0.5, 1.0), Rgba(1.0, 1.0, 1.0, 1.0)) !=
            Rgba(1.0, 1.0, 1.0, 1.0)
  {
  }

  /** The preset as documented: the source counts for nothing and the destination in full. */
  function BlendStateIgnoreSource(): (r: ColorBlendAttachmentState)
    ensures Modelled(r) && r.blendEnable == 1 && r.colorWriteMask == COLOR_COMPONENT_RGBA
    ensures r.(dstColorBlendFactor := BLEND_FACTOR_ZERO, srcAlphaBlendFactor := BLEND_FACTOR_DST_COLOR,
               dstAlphaBlendFactor := BLEND_FACTOR_DST_COLOR) == BlendStateIgnoreSourceAsWritten()
  {
    ColorBlendAttachmentState(1, BLEND_FACTOR_ZERO, BLEND_FACTOR_ONE, BLEND_OP_ADD,
                              BLEND_FACTOR_ZERO, BLEND_FACTOR_ONE, BLEND_OP_ADD, COLOR_COMPONENT_RGBA)
  }

  /** With the corrected factors every fragment leaves the destination exactly as it was. */
  lemma IgnoreSourceKeepsDestination(src: Rgba, dst: Rgba)
    ensures Modelled(BlendStateIgnoreSource()) && Blend(BlendStateIgnoreSource(), src, dst) == dst
  {
  }

  /**
   * The older `blend_state_alpha` as written: the destination colour is
   * weighted by the source alpha instead of one minus it.
   */
  function LegacyBlendStateAlphaAsWritten(): (r: ColorBlendAttachmentState)
    ensures Modelled(r) && r.blendEnable == 1 && r.colorWriteMask == COLOR_COMPONENT_RGBA
    ensures r.dstColorBlendFactor == r.srcColorBlendFactor
  {
    ColorBlendAttachmentState(1, BLEND_FACTOR_SRC_ALPHA, BLEND_FACTOR_SRC_ALPHA, BLEND_OP_ADD,
                              BLEND_FACTOR_ONE_MINUS_SRC_ALPHA, BLEND_FACTOR_ONE_MINUS_SRC_ALPHA, BLEND_OP_ADD,
                              COLOR_COMPONENT_RGBA)
  }

  /** An opaque red fragment over green gives yellow rather than red. */
  lemma LegacyAlphaAsWrittenAddsDestination()
    ensures Modelled(LegacyBlendStateAlphaAsWritten())
    ensures var out := Blend(LegacyBlendStateAlphaAsWritten(), Rgba(1.0, 0.0, 0.0, 1.0), Rgba(0.0, 1.0, 0.0, 1.0));
      out.r == 1.0 && out.g == 1.0 && out.b == 0.0
  {
  }

  /**
   * The older `blend_state_alpha` with its two crossed factors swapped back:
   * colour `SRC_ALPHA` / `ONE_MINUS_SRC_ALPHA`, and the same for alpha.
   */
  function LegacyBlendStateAlpha(): (r: ColorBlendAttachmentState)
    ensures Modelled(r) && r.blendEnable == 1 && r.colorWriteMask == COLOR_COMPONENT_RGBA
    ensures r.(dstColorBlendFactor := BLEND_FACTOR_SRC_ALPHA, srcAlphaBlendFactor := BLEND_FACTOR_ONE_MINUS_SRC_ALPHA)
            == LegacyBlendStateAlphaAsWritten()
  {
    ColorBlendAttachmentState(1, BLEND_FACTOR_SRC_ALPHA, BLEND_FACTOR_ONE_MINUS_SRC_ALPHA, BLEND_OP_ADD,
                              BLEND_FACTOR_SRC_ALPHA, BLEND_FACTOR_ONE_MINUS_SRC_ALPHA, BLEND_OP_ADD,
                              COLOR_COMPONENT_RGBA)
  }

  /**
   * As documented, the output is merged with the existing value by the
   * source alpha: each colour channel is `a * src + (1 - a) * dst`, so an
   * opaque fragment replaces the colour and a transparent one keeps it.
   */
  lemma LegacyAlphaMergesBySourceAlpha(src: Rgba, dst: Rgba)
    ensures Modelled(LegacyBlendStateAlpha())
    ensures var out := Blend(LegacyBlendStateAlpha(), src, dst);
      out.r == src.a * src.r + (1.0 - src.a) * dst.r &&
      out.g == src.a * src.g + (1.0 - src.a) * dst.g &&
      out.b == src.a * src.b + (1.0 - src.a) * dst.b
    ensures src.a == 1.0 ==> (var out := Blend(LegacyBlendStateAlpha(), src, dst);
      out.r == src.r && out.g == src.g && out.b == src.b)
    ensures src.a == 0.0 ==> (var out := Blend(LegacyBlendStateAlpha(), src, dst);
      out.r == dst.r && out.g == dst.g && out.b == dst.b)
  {
  }

  // ---- depth / stencil ----

  /** `vk::StencilOpState`; its `Default` is all zeros. */
  datatype StencilOpState = StencilOpState(failOp: StencilOp, passOp: StencilOp, depthFailOp: StencilOp,
                                           compareOp: CompareOp, compareMask: u32, writeMask: u32, reference: u32)

  const DEFAULT_STENCIL_OP_STATE := StencilOpState(0, 0, 0, COMPARE_NEVER, 0, 0, 0)

  /** `DepthStencilState` */
  datatype DepthStencilState = DepthStencilState(
    flags: Flags,
    depthTestEnable: bool,
    depthWriteEnable: bool,
    depthCompareOp: CompareOp,
    depthBoundsTestEnable: bool,
    stencilTestEnable: bool,
    front: StencilOpState,
    back: StencilOpState,
    minDepthBounds: F32,
    maxDepthBounds: F32)

  /** `vk::PipelineDepthStencilStateCreateInfo` */
  datatype DepthStencilCreateInfo = DepthStencilCreateInfo(
    flags: Flags,
    depthTestEnable: Bool32,
    depthWriteEnable: Bool32,
    depthCompareOp: CompareOp,
    depthBoundsTestEnable: Bool32,
    stencilTestEnable: Bool32,
    front: StencilOpState,
    back: StencilOpState,
    minDepthBounds: F32,
    maxDepthBounds: F32)

  /** `DepthStencilState::default()`: every test off, compare `ALWAYS`. */
  function DefaultDepthStencilState(): (r: DepthStencilState)
    ensures !r.depthTestEnable && !r.depthWriteEnable && !r.depthBoundsTestEnable && !r.stencilTestEnable
    ensures r.depthCompareOp == COMPARE_ALWAYS && r.flags == 0
  {
    DepthStencilState(0, false, false, COMPARE_ALWAYS, false, false,
                      DEFAULT_STENCIL_OP_STATE, DEFAULT_STENCIL_OP_STATE, F32_ZERO, F32_ZERO)
  }

  /**
   * `write_create_info` (bort-vk) and `write_create_info_builder` (src) as
   * written: `stencil_test_enable` is set from `depth_bounds_test_enable`.
   */
  function DepthStencilWriteAsWritten(s: DepthStencilState): (r: DepthStencilCreateInfo)
    ensures r.stencilTestEnable == ToBool32(s.depthBoundsTestEnable)
  {
    DepthStencilCreateInfo(s.flags, ToBool32(s.depthTestEnable), ToBool32(s.depthWriteEnable), s.depthCompareOp,
                           ToBool32(s.depthBoundsTestEnable), ToBool32(s.depthBoundsTestEnable),
                           s.front, s.back, s.minDepthBounds, s.maxDepthBounds)
  }

  /** `FromCreateInfo for DepthStencilState`: every flag read back as nonzero. */
  function DepthStencilOf(ci: DepthStencilCreateInfo): (r: DepthStencilState)
    ensures DepthStencilWrite(r) == ci <==>
      ci.depthTestEnable <= 1 && ci.depthWriteEnable <= 1 && ci.depthBoundsTestEnable <= 1 && ci.stencilTestEnable <= 1
    ensures DepthStencilWriteAsWritten(r) == ci <==>
      ci.depthTestEnable <= 1 && ci.depthWriteEnable <= 1 && ci.depthBoundsTestEnable <= 1 &&
      ci.stencilTestEnable == ci.depthBoundsTestEnable
  {
    DepthStencilState(ci.flags, FromBool32(ci.depthTestEnable), FromBool32(ci.depthWriteEnable), ci.depthCompareOp,
                      FromBool32(ci.depthBoundsTestEnable), FromBool32(ci.stencilTestEnable),
                      ci.front, ci.back, ci.minDepthBounds, ci.maxDepthBounds)
  }

  /**
   * As written, the decoded stencil test is the depth-bounds test, so a
   * state survives its create info exactly when the two flags agree; the
   * default with only the stencil test on is the smallest state that does not.
   */
  lemma DepthStencilAsWrittenLosesStencilTest(s: DepthStencilState)
    ensures DepthStencilOf(DepthStencilWriteAsWritten(s)).stencilTestEnable == s.depthBoundsTestEnable
    ensures DepthStencilOf(DepthStencilWriteAsWritten(s)) == s <==> s.stencilTestEnable == s.depthBoundsTestEnable
    ensures var t := DefaultDepthStencilState().(stencilTestEnable := true);
      !DepthStencilOf(DepthStencilWriteAsWritten(t)).stencilTestEnable
  {
  }

  /** The writer as intended: each flag from its own field. */
  function DepthStencilWrite(s: DepthStencilState): (r: DepthStencilCreateInfo)
    ensures FromBool32(r.stencilTestEnable) == s.stencilTestEnable
    ensures FromBool32(r.depthBoundsTestEnable) == s.depthBoundsTestEnable
  {
    DepthStencilCreateInfo(s.flags, ToBool32(s.depthTestEnable), ToBool32(s.depthWriteEnable), s.depthCompareOp,
                           ToBool32(s.depthBoundsTestEnable), ToBool32(s.stencilTestEnable),
                           s.front, s.back, s.minDepthBounds, s.maxDepthBounds)
  }

  /** With the corrected writer every depth-stencil state survives its create info. */
  lemma DepthStencilRoundTrip(s: DepthStencilState)
    ensures DepthStencilOf(DepthStencilWrite(s)) == s
  {
  }

  // ---- dynamic state ----

  /** `DynamicState` */
  datatype DynamicState = DynamicState(flags: Flags, dynamicStates: seq<DynamicStateKind>)

  /** `vk::PipelineDynamicStateCreateInfo` */
  datatype DynamicCreateInfo = DynamicCreateInfo(flags: Flags, dynamicStateCount: u32, pDynamicStates: Ptr<DynamicStateKind>)

  /** `DynamicState::default()`: nothing dynamic. */
  function DefaultDynamicState(): (r: DynamicState)
    ensures r.flags == 0 && r.dynamicStates == []
  {
    DynamicState(0, [])
  }

  /** `DynamicState::new_default` */
  function DynamicNewDefault(dynamicStates: seq<DynamicStateKind>): (r: DynamicState)
    ensures r.flags == 0 && r.dynamicStates == dynamicStates
  {
    DefaultDynamicState().(dynamicStates := dynamicStates)
  }

  /** `DynamicState::write_create_info` */
  function DynamicWrite(s: DynamicState): (r: DynamicCreateInfo)
    ensures r.dynamicStateCount == SliceCount(s.dynamicStates) && r.pDynamicStates == Points(s.dynamicStates)
  {
    DynamicCreateInfo(s.flags, SliceCount(s.dynamicStates), Points(s.dynamicStates))
  }

  /** What `DynamicState::from_create_info` builds. */
  function DynamicOf(ci: DynamicCreateInfo): DynamicState
    requires ReadableUnchecked(ci.dynamicStateCount, ci.pDynamicStates)
  {
    DynamicState(ci.flags, ReadUnchecked(ci.dynamicStateCount, ci.pDynamicStates))
  }

  /** `DynamicState::from_create_info`, with its push loop. */
  method DynamicFromCreateInfo(ci: DynamicCreateInfo) returns (s: DynamicState)
    requires ReadableUnchecked(ci.dynamicStateCount, ci.pDynamicStates)
    ensures s == DynamicOf(ci)
  {
    var dynamicStates := CopyArray(ci.dynamicStateCount, ci.pDynamicStates);
    s := DynamicState(ci.flags, dynamicStates);
  }

  lemma DynamicRoundTrip(s: DynamicState)
    requires |s.dynamicStates| < U32_LIMIT
    ensures ReadableUnchecked(DynamicWrite(s).dynamicStateCount, DynamicWrite(s).pDynamicStates)
    ensures DynamicOf(DynamicWrite(s)) == s
  {
    SliceRoundTrip(s.dynamicStates);
  }

  // ---- input assembly ----

  /** `InputAssemblyState` */
  datatype InputAssemblyState = InputAssemblyState(flags: Flags, topology: PrimitiveTopology, primitiveRestartEnable: bool)

  /** `vk::PipelineInputAssemblyStateCreateInfo` */
  datatype InputAssemblyCreateInfo = InputAssemblyCreateInfo(flags: Flags, topology: PrimitiveTopology,
                                                             primitiveRestartEnable: Bool32)

  /** `InputAssemblyState::default()`: a triangle list without restart. */
  function DefaultInputAssemblyState(): (r: InputAssemblyState)
    ensures r.topology == TOPOLOGY_TRIANGLE_LIST && !r.primitiveRestartEnable && r.flags == 0
  {
    InputAssemblyState(0, TOPOLOGY_TRIANGLE_LIST, false)
  }

  function InputAssemblyWrite(s: InputAssemblyState): (r: InputAssemblyCreateInfo)
    ensures r.flags == s.flags && r.topology == s.topology
    ensures r.primitiveRestartEnable == ToBool32(s.primitiveRestartEnable)
  {
    InputAssemblyCreateInfo(s.flags, s.topology, ToBool32(s.primitiveRestartEnable))
  }

  function InputAssemblyOf(ci: InputAssemblyCreateInfo): (r: InputAssemblyState)
    ensures InputAssemblyWrite(r) == ci <==> ci.primitiveRestartEnable <= 1
  {
    InputAssemblyState(ci.flags, ci.topology, FromBool32(ci.primitiveRestartEnable))
  }

  lemma InputAssemblyRoundTrip(s: InputAssemblyState)
    ensures InputAssemblyOf(InputAssemblyWrite(s)) == s
  {
  }

  // ---- multisample ----

  /** `MultisampleState` */
  datatype MultisampleState = MultisampleState(
    flags: Flags,
    rasterizationSamples: Flags,
    sampleShadingEnable: bool,
    minSampleShading: F32,
    sampleMask: seq<u32>,
    alphaToCoverageEnable: bool,
    alphaToOneEnable: bool)

  /** `vk::PipelineMultisampleStateCreateInfo`; the mask's length is implied by the sample count. */
  datatype MultisampleCreateInfo = MultisampleCreateInfo(
    flags: Flags,
    rasterizationSamples: Flags,
    sampleShadingEnable: Bool32,
    minSampleShading: F32,
    pSampleMask: Ptr<u32>,
    alphaToCoverageEnable: Bool32,
    alphaToOneEnable: Bool32)

  /** `MultisampleState::default()`: one sample, no mask. */
  function DefaultMultisampleState(): (r: MultisampleState)
    ensures r.rasterizationSamples == SAMPLE_COUNT_1 && r.sampleMask == [] && !r.sampleShadingEnable
    ensures !r.alphaToCoverageEnable && !r.alphaToOneEnable && r.minSampleShading == F32_ONE
  {
    MultisampleState(0, SAMPLE_COUNT_1, false, F32_ONE, [], false, false)
  }

  /** `MultisampleState::write_create_info`: ash stores a null mask pointer for an empty mask. */
  function MultisampleWrite(s: MultisampleState): (r: MultisampleCreateInfo)
    ensures r.pSampleMask.Null? <==> s.sampleMask == []
    ensures r.pSampleMask.Points? ==> r.pSampleMask.elems == s.sampleMask
  {
    MultisampleCreateInfo(s.flags, s.rasterizationSamples, ToBool32(s.sampleShadingEnable), s.minSampleShading,
                          if s.sampleMask == [] then Null else Points(s.sampleMask),
                          ToBool32(s.alphaToCoverageEnable), ToBool32(s.alphaToOneEnable))
  }

  /** The mask words the decoder reads: two for 64 samples, one otherwise. */
  function MaskWords(rasterizationSamples: Flags): nat {
    if rasterizationSamples == SAMPLE_COUNT_64 then 2 else 1
  }

  /** The caller obligation of `MultisampleState::from_create_info`. */
  predicate MaskReadable(ci: MultisampleCreateInfo) {
    ci.pSampleMask.Points? ==> |ci.pSampleMask.elems| >= MaskWords(ci.rasterizationSamples)
  }

  /** What `from_create_info` builds: no mask for a null pointer, else one word, and a second for 64 samples. */
  function MultisampleOf(ci: MultisampleCreateInfo): (r: MultisampleState)
    requires MaskReadable(ci)
    ensures ci.pSampleMask.Null? ==> r.sampleMask == []
    ensures ci.pSampleMask.Points? ==> r.sampleMask == ci.pSampleMask.elems[..MaskWords(ci.rasterizationSamples)]
  {
    var mask :=
      if ci.pSampleMask.Null? then []
      else [ci.pSampleMask.elems[0]] +
           (if ci.rasterizationSamples == SAMPLE_COUNT_64 then [ci.pSampleMask.elems[1]] else []);
    assert ci.pSampleMask.Points? ==> mask == ci.pSampleMask.elems[..MaskWords(ci.rasterizationSamples)];
    MultisampleState(ci.flags, ci.rasterizationSamples, FromBool32(ci.sampleShadingEnable), ci.minSampleShading,
                     mask, FromBool32(ci.alphaToCoverageEnable), FromBool32(ci.alphaToOneEnable))
  }

  /**
   * A state whose mask is empty or at least as long as its sample count
   * needs can be decoded again, and it comes back unchanged exactly when the
   * mask is empty or exactly that long; a longer mask is cut.
   */
  lemma MultisampleRoundTrip(s: MultisampleState)
    requires s.sampleMask == [] || |s.sampleMask| >= MaskWords(s.rasterizationSamples)
    ensures MaskReadable(MultisampleWrite(s))
    ensures MultisampleOf(MultisampleWrite(s)) == s <==>
      (s.sampleMask == [] || |s.sampleMask| == MaskWords(s.rasterizationSamples))
  {
    if s.sampleMask != [] && MultisampleOf(MultisampleWrite(s)) == s {
      assert |MultisampleOf(MultisampleWrite(s)).sampleMask| == MaskWords(s.rasterizationSamples);
    }
  }

  // ---- rasterization ----

  /** `RasterizationState` */
  datatype RasterizationState = RasterizationState(
    flags: Flags,
    depthClampEnable: bool,
    rasterizerDiscardEnable: bool,
    polygonMode: PolygonMode,
    cullMode: Flags,
    frontFace: FrontFace,
    depthBiasEnable: bool,
    depthBiasConstantFactor: F32,
    depthBiasClamp: F32,
    depthBiasSlopeFactor: F32,
    lineWidth: F32)

  /** `vk::PipelineRasterizationStateCreateInfo` */
  datatype RasterizationCreateInfo = RasterizationCreateInfo(
    flags: Flags,
    depthClampEnable: Bool32,
    rasterizerDiscardEnable: Bool32,
    polygonMode: PolygonMode,
    cullMode: Flags,
    frontFace: FrontFace,
    depthBiasEnable: Bool32,
    depthBiasConstantFactor: F32,
    depthBiasClamp: F32,
    depthBiasSlopeFactor: F32,
    lineWidth: F32)

  /** `RasterizationState::default()`: filled, no culling, counter-clockwise front faces, lines one wide. */
  function DefaultRasterizationState(): (r: RasterizationState)
    ensures r.polygonMode == POLYGON_MODE_FILL && r.cullMode == CULL_MODE_NONE
    ensures r.frontFace == FRONT_FACE_COUNTER_CLOCKWISE && r.lineWidth == F32_ONE
    ensures !r.depthClampEnable && !r.rasterizerDiscardEnable && !r.depthBiasEnable
  {
    RasterizationState(0, false, false, POLYGON_MODE_FILL, CULL_MODE_NONE, FRONT_FACE_COUNTER_CLOCKWISE,
                       false, F32_ONE, F32_ZERO, F32_ONE, F32_ONE)
  }

  function RasterizationWrite(s: RasterizationState): (r: RasterizationCreateInfo)
    ensures r.depthClampEnable == ToBool32(s.depthClampEnable)
    ensures r.rasterizerDiscardEnable == ToBool32(s.rasterizerDiscardEnable)
    ensures r.depthBiasEnable == ToBool32(s.depthBiasEnable)
  {
    RasterizationCreateInfo(s.flags, ToBool32(s.depthClampEnable), ToBool32(s.rasterizerDiscardEnable),
                            s.polygonMode, s.cullMode, s.frontFace, ToBool32(s.depthBiasEnable),
                            s.depthBiasConstantFactor, s.depthBiasClamp, s.depthBiasSlopeFactor, s.lineWidth)
  }

  function RasterizationOf(ci: RasterizationCreateInfo): (r: RasterizationState)
    ensures RasterizationWrite(r) == ci <==>
      ci.depthClampEnable <= 1 && ci.rasterizerDiscardEnable <= 1 && ci.depthBiasEnable <= 1
  {
    RasterizationState(ci.flags, FromBool32(ci.depthClampEnable), FromBool32(ci.rasterizerDiscardEnable),
                       ci.polygonMode, ci.cullMode, ci.frontFace, FromBool32(ci.depthBiasEnable),
                       ci.depthBiasConstantFactor, ci.depthBiasClamp, ci.depthBiasSlopeFactor, ci.lineWidth)
  }

  lemma RasterizationRoundTrip(s: RasterizationState)
    ensures RasterizationOf(RasterizationWrite(s)) == s
  {
  }

  // ---- tessellation ----

  /** `TessellationState` */
  datatype TessellationState = TessellationState(flags: Flags, patchControlPoints: u32)

  /** `vk::PipelineTessellationStateCreateInfo` */
  datatype TessellationCreateInfo = TessellationCreateInfo(flags: Flags, patchControlPoints: u32)

  function DefaultTessellationState(): (r: TessellationState)
    ensures r.flags == 0 && r.patchControlPoints == 0
  {
    TessellationState(0, 0)
  }

  function TessellationWrite(s: TessellationState): (r: TessellationCreateInfo)
    ensures r.patchControlPoints == s.patchControlPoints
  {
    TessellationCreateInfo(s.flags, s.patchControlPoints)
  }

  function TessellationOf(ci: TessellationCreateInfo): (r: TessellationState)
    ensures TessellationWrite(r) == ci
  {
    TessellationState(ci.flags, ci.patchControlPoints)
  }

  lemma TessellationRoundTrip(s: TessellationState)
    ensures TessellationOf(TessellationWrite(s)) == s
  {
  }

  // ---- vertex input ----

  /** `vk::VertexInputBindingDescription` */
  datatype VertexInputBindingDescription = VertexInputBindingDescription(binding: u32, stride: u32, inputRate: VertexInputRate)

  /** `vk::VertexInputAttributeDescription` */
  datatype VertexInputAttributeDescription = VertexInputAttributeDescription(location: u32, binding: u32,
                                                                             format: Format, offset: u32)

  /** `VertexInputState` */
  datatype VertexInputState = VertexInputState(
    flags: Flags,
    vertexBindingDescriptions: seq<VertexInputBindingDescription>,
    vertexAttributeDescriptions: seq<VertexInputAttributeDescription>)

  /** `vk::PipelineVertexInputStateCreateInfo` */
  datatype VertexInputCreateInfo = VertexInputCreateInfo(
    flags: Flags,
    vertexBindingDescriptionCount: u32,
    pVertexBindingDescriptions: Ptr<VertexInputBindingDescription>,
    vertexAttributeDescriptionCount: u32,
    pVertexAttributeDescriptions: Ptr<VertexInputAttributeDescription>)

  function DefaultVertexInputState(): (r: VertexInputState)
    ensures r.flags == 0 && r.vertexBindingDescriptions == [] && r.vertexAttributeDescriptions == []
  {
    VertexInputState(0, [], [])
  }

  function VertexInputWrite(s: VertexInputState): (r: VertexInputCreateInfo)
    ensures r.vertexBindingDescriptionCount == SliceCount(s.vertexBindingDescriptions)
    ensures r.vertexAttributeDescriptionCount == SliceCount(s.vertexAttributeDescriptions)
  {
    VertexInputCreateInfo(s.flags, SliceCount(s.vertexBindingDescriptions), Points(s.vertexBindingDescriptions),
                          SliceCount(s.vertexAttributeDescriptions), Points(s.vertexAttributeDescriptions))
  }

  predicate VertexInputReadable(ci: VertexInputCreateInfo) {
    ReadableUnchecked(ci.vertexBindingDescriptionCount, ci.pVertexBindingDescriptions) &&
    ReadableUnchecked(ci.vertexAttributeDescriptionCount, ci.pVertexAttributeDescriptions)
  }

  /** What `VertexInputState::from_create_info` builds: both counted arrays, in order. */
  function VertexInputOf(ci: VertexInputCreateInfo): VertexInputState
    requires VertexInputReadable(ci)
  {
    VertexInputState(ci.flags,
                     ReadUnchecked(ci.vertexBindingDescriptionCount, ci.pVertexBindingDescriptions),
                     ReadUnchecked(ci.vertexAttributeDescriptionCount, ci.pVertexAttributeDescriptions))
  }

  /** `VertexInputState::from_create_info`, with its two push loops. */
  method VertexInputFromCreateInfo(ci: VertexInputCreateInfo) returns (s: VertexInputState)
    requires VertexInputReadable(ci)
    ensures s == VertexInputOf(ci)
  {
    var bindings := CopyArray(ci.vertexBindingDescriptionCount, ci.pVertexBindingDescriptions);
    var attributes := CopyArray(ci.vertexAttributeDescriptionCount, ci.pVertexAttributeDescriptions);
    s := VertexInputState(ci.flags, bindings, attributes);
  }

  lemma VertexInputRoundTrip(s: VertexInputState)
    requires |s.vertexBindingDescriptions| < U32_LIMIT && |s.vertexAttributeDescriptions| < U32_LIMIT
    ensures VertexInputReadable(VertexInputWrite(s))
    ensures VertexInputOf(VertexInputWrite(s)) == s
  {
    SliceRoundTrip(s.vertexBindingDescriptions);
    SliceRoundTrip(s.vertexAttributeDescriptions);
  }

  // ---- viewport ----

  /** `vk::Viewport`; its `Default` is all zeros. */
  datatype Viewport = Viewport(x: F32, y: F32, width: F32, height: F32, minDepth: F32, maxDepth: F32)

  /** `vk::Offset2D` (signed 32-bit coordinates) */
  datatype Offset2D = Offset2D(x: int, y: int)

  /** `vk::Rect2D`; its `Default` is all zeros. */
  datatype Rect2D = Rect2D(offset: Offset2D, extent: Extent2D)

  const DEFAULT_VIEWPORT := Viewport(F32_ZERO, F32_ZERO, F32_ZERO, F32_ZERO, F32_ZERO, F32_ZERO)
  const DEFAULT_RECT_2D := Rect2D(Offset2D(0, 0), Extent2D(0, 0))

  /** `ViewportState` */
  datatype ViewportState = ViewportState(flags: Flags, viewports: seq<Viewport>, scissors: seq<Rect2D>)

  /** `vk::PipelineViewportStateCreateInfo` */
  datatype ViewportCreateInfo = ViewportCreateInfo(
    flags: Flags,
    viewportCount: u32,
    pViewports: Ptr<Viewport>,
    scissorCount: u32,
    pScissors: Ptr<Rect2D>)

  function DefaultViewportState(): (r: ViewportState)
    ensures r.flags == 0 && r.viewports == [] && r.scissors == []
  {
    ViewportState(0, [], [])
  }

  /**
   * `ViewportState::new_dynamic`: placeholder viewports and scissors, as
   * many as requested, for states set when recording.
   */
  function ViewportNewDynamic(viewportCount: nat, scissorCount: nat): (r: ViewportState)
    ensures r.flags == 0 && |r.viewports| == viewportCount && |r.scissors| == scissorCount
    ensures forall i :: 0 <= i < viewportCount ==> r.viewports[i] == DEFAULT_VIEWPORT
    ensures forall i :: 0 <= i < scissorCount ==> r.scissors[i] == DEFAULT_RECT_2D
  {
    DefaultViewportState().(viewports := seq(viewportCount, _ => DEFAULT_VIEWPORT),
                            scissors := seq(scissorCount, _ => DEFAULT_RECT_2D))
  }

  function ViewportWrite(s: ViewportState): (r: ViewportCreateInfo)
    ensures r.viewportCount == SliceCount(s.viewports) && r.scissorCount == SliceCount(s.scissors)
  {
    ViewportCreateInfo(s.flags, SliceCount(s.viewports), Points(s.viewports), SliceCount(s.scissors), Points(s.scissors))
  }

  predicate ViewportReadable(ci: ViewportCreateInfo) {
    ReadableUnchecked(ci.viewportCount, ci.pViewports) && ReadableUnchecked(ci.scissorCount, ci.pScissors)
  }

  /** What `ViewportState::from_create_info` builds: both counted arrays, in order. */
  function ViewportOf(ci: ViewportCreateInfo): ViewportState
    requires ViewportReadable(ci)
  {
    ViewportState(ci.flags, ReadUnchecked(ci.viewportCount, ci.pViewports), ReadUnchecked(ci.scissorCount, ci.pScissors))
  }

  /** `ViewportState::from_create_info`, with its two push loops. */
  method ViewportFromCreateInfo(ci: ViewportCreateInfo) returns (s: ViewportState)
    requires ViewportReadable(ci)
    ensures s == ViewportOf(ci)
  {
    var viewports := CopyArray(ci.viewportCount, ci.pViewports);
    var scissors := CopyArray(ci.scissorCount, ci.pScissors);
    s := ViewportState(ci.flags, viewports, scissors);
  }

  lemma ViewportRoundTrip(s: ViewportState)
    requires |s.viewports| < U32_LIMIT && |s.scissors| < U32_LIMIT
    ensures ViewportReadable(ViewportWrite(s))
    ensures ViewportOf(ViewportWrite(s)) == s
  {
    SliceRoundTrip(s.viewports);
    SliceRoundTrip(s.scissors);
  }
}
