// Descriptor-set layouts and their bindings (bort-vk/src/descriptor_layout.rs,
// and the older src/descriptor_layout.rs, whose properties object keeps the
// encoded bindings in a private field and has no immutable samplers).
module DescriptorLayout {
  import opened Wrappers
  import opened VkTypes
  import Sampler

  type DescriptorType = int

  /** `DescriptorSetLayoutBinding`: the binding, with the samplers it holds. */
  datatype DescriptorSetLayoutBinding = DescriptorSetLayoutBinding(
    binding: u32,
    descriptorType: DescriptorType,
    descriptorCount: u32,
    stageFlags: Flags,
    immutableSamplers: seq<Sampler.SamplerObject>)

  /** `vk::DescriptorSetLayoutBinding` */
  datatype VkLayoutBinding = VkLayoutBinding(
    binding: u32,
    descriptorType: DescriptorType,
    descriptorCount: u32,
    stageFlags: Flags,
    pImmutableSamplers: Ptr<Handle>)

  const DEFAULT_VK_LAYOUT_BINDING := VkLayoutBinding(0, 0, 0, 0, Null)

  /** `vk_immutable_samplers`: the held samplers' handles, in order. */
  function VkImmutableSamplers(b: DescriptorSetLayoutBinding): (r: seq<Handle>)
    ensures |r| == |b.immutableSamplers| && forall i :: 0 <= i < |r| ==> r[i] == b.immutableSamplers[i].handle
  {
    seq(|b.immutableSamplers|, i requires 0 <= i < |b.immutableSamplers| => b.immutableSamplers[i].handle)
  }

  /** The sampler handles a binding hands to the driver: none for a null pointer. */
  function SamplersAttached(vb: VkLayoutBinding): seq<Handle> {
    if vb.pImmutableSamplers.Null? then [] else vb.pImmutableSamplers.elems
  }

  /**
   * `write_vk_binding_builder` as written: the samplers are attached only
   * when the slice is empty (ash's setter also sets the count, which the
   * later `descriptor_count` call overwrites).
   */
  function WriteVkBindingBuilderAsWritten(b: DescriptorSetLayoutBinding, samplers: seq<Handle>): (r: VkLayoutBinding)
    ensures r.binding == b.binding && r.descriptorType == b.descriptorType
    ensures r.descriptorCount == b.descriptorCount && r.stageFlags == b.stageFlags
  {
    var builder := if samplers == [] then DEFAULT_VK_LAYOUT_BINDING.(descriptorCount := SliceCount(samplers),
                                                                    pImmutableSamplers := Points(samplers))
                   else DEFAULT_VK_LAYOUT_BINDING;
    builder.(binding := b.binding, descriptorType := b.descriptorType, descriptorCount := b.descriptorCount,
             stageFlags := b.stageFlags)
  }

  /** As written, no sampler ever reaches the driver: one held sampler is dropped. */
  lemma WriteAsWrittenDropsSamplers(b: DescriptorSetLayoutBinding, samplers: seq<Handle>)
    ensures SamplersAttached(WriteVkBindingBuilderAsWritten(b, samplers)) == []
    ensures SamplersAttached(WriteVkBindingBuilderAsWritten(b, [7])) != [7]
  {
  }

  /** The writer as intended: the samplers are attached when there are any. */
  function WriteVkBindingBuilder(b: DescriptorSetLayoutBinding, samplers: seq<Handle>): (r: VkLayoutBinding)
    ensures r.binding == b.binding && r.descriptorType == b.descriptorType
    ensures r.descriptorCount == b.descriptorCount && r.stageFlags == b.stageFlags
    ensures r.pImmutableSamplers.Null? <==> samplers == []
  {
    var builder := if samplers != [] then DEFAULT_VK_LAYOUT_BINDING.(descriptorCount := SliceCount(samplers),
                                                                    pImmutableSamplers := Points(samplers))
                   else DEFAULT_VK_LAYOUT_BINDING;
    builder.(binding := b.binding, descriptorType := b.descriptorType, descriptorCount := b.descriptorCount,
             stageFlags := b.stageFlags)
  }

  /** With the corrected writer the driver is handed exactly the samplers given. */
  lemma WriteAttachesSamplers(b: DescriptorSetLayoutBinding, samplers: seq<Handle>)
    ensures SamplersAttached(WriteVkBindingBuilder(b, samplers)) == samplers
  {
  }

  /** `from_vk_binding` / `from_vk_binding_builder`: four fields copied, no samplers. */
  function FromVkBinding(vb: VkLayoutBinding): (r: DescriptorSetLayoutBinding)
    ensures r.immutableSamplers == []
  {
    DescriptorSetLayoutBinding(vb.binding, vb.descriptorType, vb.descriptorCount, vb.stageFlags, [])
  }

  /**
   * A binding survives its encoding exactly when it holds no samplers, the
   * only part the decoder cannot rebuild, whichever writer encodes it.
   */
  lemma BindingRoundTrip(b: DescriptorSetLayoutBinding)
    ensures FromVkBinding(WriteVkBindingBuilderAsWritten(b, VkImmutableSamplers(b))) == b <==> b.immutableSamplers == []
    ensures FromVkBinding(WriteVkBindingBuilder(b, VkImmutableSamplers(b))) == b <==> b.immutableSamplers == []
  {
  }

  /** `DescriptorSetLayoutProperties`; its `Default` has no flags and no bindings. */
  datatype DescriptorSetLayoutProperties = DescriptorSetLayoutProperties(flags: Flags, bindings: seq<DescriptorSetLayoutBinding>)

  /** `DescriptorSetLayoutProperties::new_default`: empty flags and these bindings. */
  function NewDefault(bindings: seq<DescriptorSetLayoutBinding>): (r: DescriptorSetLayoutProperties)
    ensures r.flags == 0 && r.bindings == bindings
  {
    DescriptorSetLayoutProperties(0, bindings)
  }

  /**
   * The encoded bindings `vk_layout_bindings` returns: binding `i` written,
   * by the writer as it stands, from the handles of its own samplers.
   */
  function LayoutBindingsOf(p: DescriptorSetLayoutProperties): (r: seq<VkLayoutBinding>)
    ensures |r| == |p.bindings|
    ensures forall i :: 0 <= i < |r| ==>
      r[i] == WriteVkBindingBuilderAsWritten(p.bindings[i], VkImmutableSamplers(p.bindings[i]))
  {
    seq(|p.bindings|, i requires 0 <= i < |p.bindings| =>
      WriteVkBindingBuilderAsWritten(p.bindings[i], VkImmutableSamplers(p.bindings[i])))
  }

  /** As built, no encoded binding of a layout hands any sampler to the driver. */
  lemma LayoutBindingsAttachNoSamplers(p: DescriptorSetLayoutProperties)
    ensures forall i :: 0 <= i < |p.bindings| ==> SamplersAttached(LayoutBindingsOf(p)[i]) == []
  {
    forall i | 0 <= i < |p.bindings|
      ensures SamplersAttached(LayoutBindingsOf(p)[i]) == []
    {
      WriteAsWrittenDropsSamplers(p.bindings[i], VkImmutableSamplers(p.bindings[i]));
    }
  }

  /** The encoded bindings with the corrected writer. */
  function LayoutBindingsOfCorrected(p: DescriptorSetLayoutProperties): (r: seq<VkLayoutBinding>)
    ensures |r| == |p.bindings|
    ensures forall i :: 0 <= i < |r| ==> FromVkBinding(r[i]) == FromVkBinding(LayoutBindingsOf(p)[i])
  {
    seq(|p.bindings|, i requires 0 <= i < |p.bindings| =>
      WriteVkBindingBuilder(p.bindings[i], VkImmutableSamplers(p.bindings[i])))
  }

  /** With the corrected writer, binding `i` hands the driver exactly the handles of its own samplers. */
  lemma CorrectedLayoutBindingsAttachSamplers(p: DescriptorSetLayoutProperties)
    ensures forall i :: 0 <= i < |p.bindings| ==>
      SamplersAttached(LayoutBindingsOfCorrected(p)[i]) == VkImmutableSamplers(p.bindings[i])
  {
    forall i | 0 <= i < |p.bindings|
      ensures SamplersAttached(LayoutBindingsOfCorrected(p)[i]) == VkImmutableSamplers(p.bindings[i])
    {
      WriteAttachesSamplers(p.bindings[i], VkImmutableSamplers(p.bindings[i]));
    }
  }

  /**
   * `vk_layout_bindings`: the caller's sampler vector is cleared and refilled
   * with one handle list per binding, then one encoded binding per binding
   * is built from list `i`.
   */
  method VkLayoutBindings(p: DescriptorSetLayoutProperties)
    returns (vkImmutableSamplers: seq<seq<Handle>>, vkLayoutBindings: seq<VkLayoutBinding>)
    ensures |vkImmutableSamplers| == |p.bindings|
    ensures forall i :: 0 <= i < |p.bindings| ==> vkImmutableSamplers[i] == VkImmutableSamplers(p.bindings[i])
    ensures vkLayoutBindings == LayoutBindingsOf(p)
  {
    vkImmutableSamplers := [];
    vkLayoutBindings := [];
    var i := 0;
    while i < |p.bindings|
      invariant 0 <= i <= |p.bindings| && |vkImmutableSamplers| == i
      invariant forall k :: 0 <= k < i ==> vkImmutableSamplers[k] == VkImmutableSamplers(p.bindings[k])
    {
      vkImmutableSamplers := vkImmutableSamplers + [VkImmutableSamplers(p.bindings[i])];
      i := i + 1;
    }
    i := 0;
    while i < |p.bindings|
      invariant 0 <= i <= |p.bindings| && |vkLayoutBindings| == i
      invariant forall k :: 0 <= k < i ==> vkLayoutBindings[k] == LayoutBindingsOf(p)[k]
    {
      vkLayoutBindings := vkLayoutBindings + [WriteVkBindingBuilderAsWritten(p.bindings[i], vkImmutableSamplers[i])];
      i := i + 1;
    }
  }

  /** `vk::DescriptorSetLayoutCreateInfo` */
  datatype DescriptorSetLayoutCreateInfo = DescriptorSetLayoutCreateInfo(flags: Flags, bindingCount: u32,
                                                                         pBindings: Ptr<VkLayoutBinding>)

  /** `write_create_info_builder`: the flags and the given encoded bindings. */
  function WriteCreateInfoBuilder(p: DescriptorSetLayoutProperties, vkLayoutBindings: seq<VkLayoutBinding>)
    : (r: DescriptorSetLayoutCreateInfo)
    ensures r.flags == p.flags && r.bindingCount == SliceCount(vkLayoutBindings) && r.pBindings == Points(vkLayoutBindings)
  {
    DescriptorSetLayoutCreateInfo(p.flags, SliceCount(vkLayoutBindings), Points(vkLayoutBindings))
  }

  /** Each encoded binding decoded, in order. */
  function BindingsOf(vbs: seq<VkLayoutBinding>): (r: seq<DescriptorSetLayoutBinding>)
    ensures |r| == |vbs| && forall i :: 0 <= i < |vbs| ==> r[i] == FromVkBinding(vbs[i])
  {
    seq(|vbs|, i requires 0 <= i < |vbs| => FromVkBinding(vbs[i]))
  }

  /** What `from_create_info_builder` builds: `binding_count` decoded bindings, in order, and the flags. */
  function PropertiesOf(ci: DescriptorSetLayoutCreateInfo): DescriptorSetLayoutProperties
    requires ReadableUnchecked(ci.bindingCount, ci.pBindings)
  {
    DescriptorSetLayoutProperties(ci.flags, BindingsOf(ReadUnchecked(ci.bindingCount, ci.pBindings)))
  }

  /** `from_create_info_builder`, with its push loop. */
  method FromCreateInfoBuilder(ci: DescriptorSetLayoutCreateInfo) returns (p: DescriptorSetLayoutProperties)
    requires ReadableUnchecked(ci.bindingCount, ci.pBindings)
    ensures p == PropertiesOf(ci)
  {
    var bindings: seq<DescriptorSetLayoutBinding> := [];
    var i: int := 0;
    while i < ci.bindingCount
      invariant 0 <= i <= ci.bindingCount && |bindings| == i
      invariant forall k :: 0 <= k < i ==> bindings[k] == FromVkBinding(ci.pBindings.elems[k])
    {
      bindings := bindings + [FromVkBinding(ci.pBindings.elems[i])];
      i := i + 1;
    }
    p := DescriptorSetLayoutProperties(ci.flags, bindings);
  }

  /**
   * Layout properties survive the create info `new` builds exactly when no
   * binding holds a sampler.
   */
  lemma PropertiesRoundTrip(p: DescriptorSetLayoutProperties)
    requires |p.bindings| < U32_LIMIT
    ensures ReadableUnchecked(WriteCreateInfoBuilder(p, LayoutBindingsOf(p)).bindingCount,
                              WriteCreateInfoBuilder(p, LayoutBindingsOf(p)).pBindings)
    ensures PropertiesOf(WriteCreateInfoBuilder(p, LayoutBindingsOf(p))) == p <==>
      forall i :: 0 <= i < |p.bindings| ==> p.bindings[i].immutableSamplers == []
  {
    var vbs := LayoutBindingsOf(p);
    SliceRoundTrip(vbs);
    var q := PropertiesOf(WriteCreateInfoBuilder(p, vbs));
    assert |q.bindings| == |p.bindings|;
    forall i | 0 <= i < |p.bindings|
      ensures q.bindings[i] == p.bindings[i] <==> p.bindings[i].immutableSamplers == []
    {
      BindingRoundTrip(p.bindings[i]);
    }
    if forall i :: 0 <= i < |p.bindings| ==> p.bindings[i].immutableSamplers == [] {
      assert q.bindings == p.bindings;
    }
  }

  /** `DescriptorSetLayout`: its handle, its properties and its device. */
  datatype DescriptorSetLayoutObject = DescriptorSetLayoutObject(handle: Handle, properties: DescriptorSetLayoutProperties,
                                                                 device: Handle)

  /** `DescriptorSetLayout::new`: the encoded bindings go to the driver, and the layout keeps its properties. */
  method New(device: Handle, p: DescriptorSetLayoutProperties, created: Result<Handle, VkError>)
    returns (r: Result<DescriptorSetLayoutObject, VkError>, createInfo: DescriptorSetLayoutCreateInfo)
    ensures createInfo == WriteCreateInfoBuilder(p, LayoutBindingsOf(p))
    ensures created.Err? ==> r == Err(created.error)
    ensures created.Ok? ==> r == Ok(DescriptorSetLayoutObject(created.value, p, device))
  {
    var _, vkLayoutBindings := VkLayoutBindings(p);
    createInfo := WriteCreateInfoBuilder(p, vkLayoutBindings);
    match created {
      case Err(e) => r := Err(e);
      case Ok(h) => r := Ok(DescriptorSetLayoutObject(h, p, device));
    }
  }

  /** `DescriptorSetLayout::new_from_create_info`: the layout keeps the decoded properties. */
  method NewFromCreateInfo(device: Handle, ci: DescriptorSetLayoutCreateInfo, created: Result<Handle, VkError>)
    returns (r: Result<DescriptorSetLayoutObject, VkError>)
    requires ReadableUnchecked(ci.bindingCount, ci.pBindings)
    ensures created.Err? ==> r == Err(created.error)
    ensures created.Ok? ==> r == Ok(DescriptorSetLayoutObject(created.value, PropertiesOf(ci), device))
  {
    var p := FromCreateInfoBuilder(ci);
    match created {
      case Err(e) => r := Err(e);
      case Ok(h) => r := Ok(DescriptorSetLayoutObject(h, p, device));
    }
  }

  // ---- the older crate ----

  /** The older `DescriptorSetLayoutBinding`, without samplers. */
  datatype LegacyLayoutBinding = LegacyLayoutBinding(binding: u32, descriptorType: DescriptorType,
                                                     descriptorCount: u32, stageFlags: Flags)

  /** The older `DescriptorSetLayoutBinding::builder`: the four fields, no samplers. */
  function LegacyBindingBuilder(b: LegacyLayoutBinding): (r: VkLayoutBinding)
    ensures r.pImmutableSamplers.Null? && FromVkBinding(r).immutableSamplers == []
    ensures FromVkBinding(r) == DescriptorSetLayoutBinding(b.binding, b.descriptorType, b.descriptorCount, b.stageFlags, [])
  {
    VkLayoutBinding(b.binding, b.descriptorType, b.descriptorCount, b.stageFlags, Null)
  }

  /** The encoded form of each older binding, in order. */
  function LegacyBindingsVk(bindings: seq<LegacyLayoutBinding>): (r: seq<VkLayoutBinding>)
    ensures |r| == |bindings| && forall i :: 0 <= i < |bindings| ==> r[i] == LegacyBindingBuilder(bindings[i])
  {
    seq(|bindings|, i requires 0 <= i < |bindings| => LegacyBindingBuilder(bindings[i]))
  }

  /**
   * The older `DescriptorSetLayoutProperties`: the encoded bindings live in
   * a private field that `create_info_builder` overwrites.
   */
  class LegacyLayoutProperties {
    var createFlags: Flags
    var bindings: seq<LegacyLayoutBinding>
    var bindingsVk: seq<VkLayoutBinding>

    /** `DescriptorSetLayoutProperties::new`: empty flags, nothing encoded yet. */
    constructor New(bindings: seq<LegacyLayoutBinding>)
      ensures this.createFlags == 0 && this.bindings == bindings && this.bindingsVk == []
    {
      this.createFlags := 0;
      this.bindings := bindings;
      this.bindingsVk := [];
    }

    /**
     * `create_info_builder(&mut self)`: re-encodes every binding into
     * `bindings_vk` and points the create info at it.
     */
    method CreateInfoBuilder() returns (ci: DescriptorSetLayoutCreateInfo)
      modifies this
      ensures createFlags == old(createFlags) && bindings == old(bindings)
      ensures bindingsVk == LegacyBindingsVk(bindings)
      ensures ci == DescriptorSetLayoutCreateInfo(createFlags, SliceCount(bindingsVk), Points(bindingsVk))
    {
      bindingsVk := LegacyBindingsVk(bindings);
      ci := DescriptorSetLayoutCreateInfo(createFlags, SliceCount(bindingsVk), Points(bindingsVk));
    }
  }

  /** The older create info, read by the newer decoder, gives back every older binding's four fields in order. */
  lemma LegacyCreateInfoDecodes(flags: Flags, bindings: seq<LegacyLayoutBinding>)
    requires |bindings| < U32_LIMIT
    ensures var vbs := LegacyBindingsVk(bindings);
      ReadableUnchecked(SliceCount(vbs), Points(vbs)) &&
      var q := PropertiesOf(DescriptorSetLayoutCreateInfo(flags, SliceCount(vbs), Points(vbs)));
      q.flags == flags && |q.bindings| == |bindings| &&
      forall i :: 0 <= i < |bindings| ==>
        q.bindings[i] == DescriptorSetLayoutBinding(bindings[i].binding, bindings[i].descriptorType,
                                                    bindings[i].descriptorCount, bindings[i].stageFlags, [])
  {
    SliceRoundTrip(LegacyBindingsVk(bindings));
  }

  /** The older `DescriptorSetLayout::new`: the properties are encoded in place, then kept. */
  method LegacyNew(device: Handle, properties: LegacyLayoutProperties, created: Result<Handle, VkError>)
    returns (r: Result<Handle, VkError>, ci: DescriptorSetLayoutCreateInfo)
    modifies properties
    ensures properties.bindings == old(properties.bindings) && properties.createFlags == old(properties.createFlags)
    ensures properties.bindingsVk == LegacyBindingsVk(properties.bindings)
    ensures ci == DescriptorSetLayoutCreateInfo(properties.createFlags, SliceCount(properties.bindingsVk),
                                                Points(properties.bindingsVk))
    ensures r == created
  {
    ci := properties.CreateInfoBuilder();
    r := created;
  }
}
