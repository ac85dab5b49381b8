// Descriptor pools and the descriptor sets allocation from them
// (bort-vk/src/descriptor_pool.rs). The driver's allocation result is a
// parameter; a set holds its layout and its pool.
module DescriptorPool {
  import opened Wrappers
  import opened VkTypes

  /** `vk::DescriptorPoolSize` */
  datatype DescriptorPoolSize = DescriptorPoolSize(descriptorType: int, descriptorCount: u32)

  /** `DescriptorPoolProperties`; its `Default` is empty flags, no sets, no sizes. */
  datatype DescriptorPoolProperties = DescriptorPoolProperties(flags: Flags, maxSets: u32, poolSizes: seq<DescriptorPoolSize>)

  /** `vk::DescriptorPoolCreateInfo` */
  datatype DescriptorPoolCreateInfo = DescriptorPoolCreateInfo(flags: Flags, maxSets: u32, poolSizeCount: u32,
                                                               pPoolSizes: Ptr<DescriptorPoolSize>)

  /** `DescriptorPoolProperties::new_default`: these limits, empty flags. */
  function NewDefault(maxSets: u32, poolSizes: seq<DescriptorPoolSize>): (r: DescriptorPoolProperties)
    ensures r.flags == 0 && r.maxSets == maxSets && r.poolSizes == poolSizes
  {
    DescriptorPoolProperties(0, maxSets, poolSizes)
  }

  /** `write_create_info` / `create_info` */
  function CreateInfo(p: DescriptorPoolProperties): (r: DescriptorPoolCreateInfo)
    ensures r.flags == p.flags && r.maxSets == p.maxSets
    ensures r.poolSizeCount == SliceCount(p.poolSizes) && r.pPoolSizes == Points(p.poolSizes)
  {
    DescriptorPoolCreateInfo(p.flags, p.maxSets, SliceCount(p.poolSizes), Points(p.poolSizes))
  }

  /** What `from_create_info` builds: `pool_size_count` sizes, in order. */
  function PropertiesOf(ci: DescriptorPoolCreateInfo): DescriptorPoolProperties
    requires ReadableUnchecked(ci.poolSizeCount, ci.pPoolSizes)
  {
    DescriptorPoolProperties(ci.flags, ci.maxSets, ReadUnchecked(ci.poolSizeCount, ci.pPoolSizes))
  }

  /** `DescriptorPoolProperties::from_create_info`, with its push loop. */
  method FromCreateInfo(ci: DescriptorPoolCreateInfo) returns (p: DescriptorPoolProperties)
    requires ReadableUnchecked(ci.poolSizeCount, ci.pPoolSizes)
    ensures p == PropertiesOf(ci)
  {
    var poolSizes := CopyArray(ci.poolSizeCount, ci.pPoolSizes);
    p := DescriptorPoolProperties(ci.flags, ci.maxSets, poolSizes);
  }

  /** Every set of pool properties survives its create info. */
  lemma RoundTrip(p: DescriptorPoolProperties)
    requires |p.poolSizes| < U32_LIMIT
    ensures ReadableUnchecked(CreateInfo(p).poolSizeCount, CreateInfo(p).pPoolSizes)
    ensures PropertiesOf(CreateInfo(p)) == p
  {
    SliceRoundTrip(p.poolSizes);
  }

  /** `DescriptorPool`: its handle, its properties and its device. */
  datatype DescriptorPoolObject = DescriptorPoolObject(handle: Handle, properties: DescriptorPoolProperties, device: Handle)

  /** `DescriptorPool::new`: the pool keeps the properties it was created from. */
  function New(device: Handle, p: DescriptorPoolProperties, created: Result<Handle, VkError>)
    : (r: (Result<DescriptorPoolObject, VkError>, DescriptorPoolCreateInfo))
    ensures r.1 == CreateInfo(p)
    ensures created.Err? ==> r.0 == Err(created.error)
    ensures created.Ok? ==> r.0 == Ok(DescriptorPoolObject(created.value, p, device))
  {
    match created
    case Err(e) => (Err(e), CreateInfo(p))
    case Ok(h) => (Ok(DescriptorPoolObject(h, p, device)), CreateInfo(p))
  }

  /** `DescriptorPool::new_from_create_info`: the pool keeps the decoded properties. */
  method NewFromCreateInfo(device: Handle, ci: DescriptorPoolCreateInfo, created: Result<Handle, VkError>)
    returns (r: Result<DescriptorPoolObject, VkError>)
    requires ReadableUnchecked(ci.poolSizeCount, ci.pPoolSizes)
    ensures created.Err? ==> r == Err(created.error)
    ensures created.Ok? ==> r == Ok(DescriptorPoolObject(created.value, PropertiesOf(ci), device))
  {
    var p := FromCreateInfo(ci);
    match created {
      case Err(e) => r := Err(e);
      case Ok(h) => r := Ok(DescriptorPoolObject(h, p, device));
    }
  }

  /** `vk::DescriptorSetAllocateInfo` */
  datatype DescriptorSetAllocateInfo = DescriptorSetAllocateInfo(descriptorPool: Handle, descriptorSetCount: u32,
                                                                 pSetLayouts: Ptr<Handle>)

  /** `DescriptorSet::from_handle`: a set, the layout it was allocation with, and the pool it came from. */
  datatype DescriptorSet = DescriptorSet(handle: Handle, layout: Handle, pool: Handle)

  /** The allocate info both allocators send: this pool and the layouts' handles. */
  function AllocateInfo(pool: DescriptorPoolObject, layouts: seq<Handle>): (r: DescriptorSetAllocateInfo)
    ensures r.descriptorPool == pool.handle && r.pSetLayouts == Points(layouts)
    ensures |layouts| < U32_LIMIT ==> r.descriptorSetCount == |layouts|
  {
    DescriptorSetAllocateInfo(pool.handle, SliceCount(layouts), Points(layouts))
  }

  /**
   * `allocate_descriptor_set`: one set is requested for the one layout, and
   * the first handle is wrapped with that layout and this pool; an
   * allocation failure builds nothing.
   */
  function AllocateDescriptorSet(pool: DescriptorPoolObject, layout: Handle, allocation: Result<Handle, VkError>)
    : (r: (Result<DescriptorSet, VkError>, DescriptorSetAllocateInfo))
    ensures r.1 == AllocateInfo(pool, [layout]) && r.1.descriptorSetCount == 1
    ensures allocation.Err? ==> r.0 == Err(allocation.error)
    ensures allocation.Ok? ==> r.0 == Ok(DescriptorSet(allocation.value, layout, pool.handle))
  {
    match allocation
    case Err(e) => (Err(e), AllocateInfo(pool, [layout]))
    case Ok(h) => (Ok(DescriptorSet(h, layout, pool.handle)), AllocateInfo(pool, [layout]))
  }

  /**
   * `allocate_descriptor_sets`: the driver returns one handle per layout;
   * set `i` takes handle `i` and layout `i` and holds this pool.
   */
  method AllocateDescriptorSets(pool: DescriptorPoolObject, layouts: seq<Handle>, allocation: Result<seq<Handle>, VkError>)
    returns (r: Result<seq<DescriptorSet>, VkError>, allocateInfo: DescriptorSetAllocateInfo)
    requires allocation.Ok? ==> |allocation.value| == |layouts|
    ensures allocateInfo == AllocateInfo(pool, layouts)
    ensures allocation.Err? ==> r == Err(allocation.error)
    ensures allocation.Ok? ==> r.Ok? && |r.value| == |layouts|
    ensures allocation.Ok? ==> forall i :: 0 <= i < |layouts| ==>
      r.value[i] == DescriptorSet(allocation.value[i], layouts[i], pool.handle)
  {
    allocateInfo := AllocateInfo(pool, layouts);
    if allocation.Err? {
      return Err(allocation.error), allocateInfo;
    }
    var handles := allocation.value;
    var sets: seq<DescriptorSet> := [];
    var i := 0;
    while i < |layouts|
      invariant 0 <= i <= |layouts| && |sets| == i
      invariant forall k :: 0 <= k < i ==> sets[k] == DescriptorSet(handles[k], layouts[k], pool.handle)
    {
      sets := sets + [DescriptorSet(handles[i], layouts[i], pool.handle)];
      i := i + 1;
    }
    r := Ok(sets);
  }

  /** Allocating one set through the batch call gives the same set and request as the single allocator. */
  method AllocateOneAgrees(pool: DescriptorPoolObject, layout: Handle, h: Handle)
    returns (batch: Result<seq<DescriptorSet>, VkError>)
    ensures batch.Ok? && |batch.value| == 1
    ensures Ok(batch.value[0]) == AllocateDescriptorSet(pool, layout, Ok(h)).0
  {
    var info;
    batch, info := AllocateDescriptorSets(pool, [layout], Ok([h]));
  }
}
