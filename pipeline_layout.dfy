// Pipeline layout properties (bort-vk/src/pipeline_layout.rs; src/pipeline_layout.rs
// is the same code with the flags field named `create_flags`). The properties
// own the handle array the create info points at, so building the create
// info rewrites that array in place.
module PipelineLayout {
  import opened Wrappers
  import opened VkTypes
  import DescriptorLayout

  /** `vk::PushConstantRange` */
  datatype PushConstantRange = PushConstantRange(stageFlags: Flags, offset: u32, size: u32)

  /** `vk::PipelineLayoutCreateInfo` */
  datatype PipelineLayoutCreateInfo = PipelineLayoutCreateInfo(
    flags: Flags,
    setLayoutCount: u32,
    pSetLayouts: Ptr<Handle>,
    pushConstantRangeCount: u32,
    pPushConstantRanges: Ptr<PushConstantRange>)

  /** The `set_layouts.iter().map(|layout| layout.handle()).collect()` of `create_info_builder`. */
  function SetLayoutHandles(setLayouts: seq<DescriptorLayout.DescriptorSetLayoutObject>): (r: seq<Handle>)
    ensures |r| == |setLayouts|
    ensures forall i :: 0 <= i < |r| ==> r[i] == setLayouts[i].handle
  {
    seq(|setLayouts|, i requires 0 <= i < |setLayouts| => setLayouts[i].handle)
  }

  /** `PipelineLayoutProperties` (both crates) */
  class PipelineLayoutProperties {
    var flags: Flags
    var setLayouts: seq<DescriptorLayout.DescriptorSetLayoutObject>
    var pushConstantRanges: seq<PushConstantRange>
    var setLayoutsVk: seq<Handle>

    /** `PipelineLayoutProperties::new`: empty flags, no handles collected yet. */
    constructor New(setLayouts: seq<DescriptorLayout.DescriptorSetLayoutObject>, pushConstantRanges: seq<PushConstantRange>)
      ensures flags == 0 && this.setLayouts == setLayouts && this.pushConstantRanges == pushConstantRanges
      ensures setLayoutsVk == []
    {
      flags := 0;
      this.setLayouts := setLayouts;
      this.pushConstantRanges := pushConstantRanges;
      setLayoutsVk := [];
    }

    /**
     * `create_info_builder(&mut self)`: `set_layouts_vk` becomes the set
     * layouts' handles in order, and the create info points at it and at
     * the push-constant ranges.
     */
    method CreateInfoBuilder() returns (ci: PipelineLayoutCreateInfo)
      modifies this
      ensures flags == old(flags) && setLayouts == old(setLayouts) && pushConstantRanges == old(pushConstantRanges)
      ensures setLayoutsVk == SetLayoutHandles(setLayouts)
      ensures ci == PipelineLayoutCreateInfo(flags, SliceCount(setLayoutsVk), Points(setLayoutsVk),
                                             SliceCount(pushConstantRanges), Points(pushConstantRanges))
    {
      setLayoutsVk := SetLayoutHandles(setLayouts);
      ci := PipelineLayoutCreateInfo(flags, SliceCount(setLayoutsVk), Points(setLayoutsVk),
                                     SliceCount(pushConstantRanges), Points(pushConstantRanges));
    }
  }

  /** What a reader of the create info finds: the set layouts' handles and the ranges, in order. */
  lemma CreateInfoReadsBack(flags: Flags, setLayouts: seq<DescriptorLayout.DescriptorSetLayoutObject>,
                            pushConstantRanges: seq<PushConstantRange>)
    requires |setLayouts| < U32_LIMIT && |pushConstantRanges| < U32_LIMIT
    ensures var hs := SetLayoutHandles(setLayouts);
      var ci := PipelineLayoutCreateInfo(flags, SliceCount(hs), Points(hs),
                                         SliceCount(pushConstantRanges), Points(pushConstantRanges));
      ci.setLayoutCount == |setLayouts| && ci.pushConstantRangeCount == |pushConstantRanges| &&
      ReadUnchecked(ci.setLayoutCount, ci.pSetLayouts) == hs &&
      ReadUnchecked(ci.pushConstantRangeCount, ci.pPushConstantRanges) == pushConstantRanges &&
      forall i :: 0 <= i < |setLayouts| ==> ReadUnchecked(ci.setLayoutCount, ci.pSetLayouts)[i] == setLayouts[i].handle
  {
    SliceRoundTrip(SetLayoutHandles(setLayouts));
    SliceRoundTrip(pushConstantRanges);
  }

  /** The handle array depends only on the set layouts: rebuilding it changes nothing. */
  lemma SetLayoutHandlesDeterminedBySetLayouts(a: seq<DescriptorLayout.DescriptorSetLayoutObject>,
                                               b: seq<DescriptorLayout.DescriptorSetLayoutObject>)
    requires |a| == |b| && forall i :: 0 <= i < |a| ==> a[i].handle == b[i].handle
    ensures SetLayoutHandles(a) == SetLayoutHandles(b)
  {
  }

  /** `PipelineLayout`: its handle, the properties it was built from and its device. */
  datatype PipelineLayoutObject = PipelineLayoutObject(handle: Handle, properties: PipelineLayoutProperties, device: Handle)

  /**
   * `PipelineLayout::new` (both crates): the properties collect their
   * handles for the create info and are then kept by the layout; a
   * creation failure is returned and builds no layout.
   */
  method New(device: Handle, properties: PipelineLayoutProperties, created: Result<Handle, VkError>)
    returns (r: Result<PipelineLayoutObject, VkError>, ci: PipelineLayoutCreateInfo)
    modifies properties
    ensures properties.flags == old(properties.flags) && properties.setLayouts == old(properties.setLayouts)
    ensures properties.pushConstantRanges == old(properties.pushConstantRanges)
    ensures properties.setLayoutsVk == SetLayoutHandles(properties.setLayouts)
    ensures ci == PipelineLayoutCreateInfo(properties.flags, SliceCount(properties.setLayoutsVk),
                                           Points(properties.setLayoutsVk), SliceCount(properties.pushConstantRanges),
                                           Points(properties.pushConstantRanges))
    ensures created.Err? ==> r == Err(created.error)
    ensures created.Ok? ==> r == Ok(PipelineLayoutObject(created.value, properties, device))
  {
    ci := properties.CreateInfoBuilder();
    match created {
      case Err(e) => r := Err(e);
      case Ok(h) => r := Ok(PipelineLayoutObject(h, properties, device));
    }
  }
}
