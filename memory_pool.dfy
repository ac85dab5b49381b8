// Custom allocator pool properties and their `VmaPoolCreateInfo` encoding
// (bort-vk/src/memory_pool.rs). `vmaCreatePool` is a foreign call: its
// outcome is a parameter.
module MemoryPool {
  import opened Wrappers
  import opened VkTypes

  /** `MemoryPoolPropeties` (the source's spelling of the type is kept out of the model's names). */
  datatype MemoryPoolProperties = MemoryPoolProperties(
    flags: Flags,
    memoryTypeIndex: u32,
    blockSize: DeviceSize,
    minBlockCount: DeviceSize,
    maxBlockCount: DeviceSize,
    priority: F32,
    minAllocationAlignment: DeviceSize)

  /** `ffi::VmaPoolCreateInfo`; `pMemoryAllocateNext` is the address of a `vk::MemoryAllocateInfo`, or null. */
  datatype PoolCreateInfo = PoolCreateInfo(
    flags: Flags,
    memoryTypeIndex: u32,
    blockSize: DeviceSize,
    minBlockCount: DeviceSize,
    maxBlockCount: DeviceSize,
    priority: F32,
    minAllocationAlignment: DeviceSize,
    pMemoryAllocateNext: Option<Handle>)

  /** `MemoryPoolPropeties::default()`: every field zero or empty. */
  function DefaultProperties(): (r: MemoryPoolProperties)
    ensures r.flags == 0 && r.memoryTypeIndex == 0 && r.blockSize == 0
    ensures r.minBlockCount == 0 && r.maxBlockCount == 0
    ensures r.priority == F32_ZERO && r.minAllocationAlignment == 0
  {
    MemoryPoolProperties(0, 0, 0, 0, 0, F32_ZERO, 0)
  }

  /** `create_info`: every field copied, the flags as their bits, and no allocate-info chain. */
  function CreateInfo(p: MemoryPoolProperties): (r: PoolCreateInfo)
    ensures r.pMemoryAllocateNext.None?
    ensures r.flags == p.flags && r.memoryTypeIndex == p.memoryTypeIndex && r.blockSize == p.blockSize
    ensures r.minBlockCount == p.minBlockCount && r.maxBlockCount == p.maxBlockCount
    ensures r.priority == p.priority && r.minAllocationAlignment == p.minAllocationAlignment
  {
    PoolCreateInfo(p.flags, p.memoryTypeIndex, p.blockSize, p.minBlockCount, p.maxBlockCount,
                   p.priority, p.minAllocationAlignment, None)
  }

  /** `from_create_info`: every field back, the flags with `from_bits_retain`, which keeps unknown bits. */
  function FromCreateInfo(ci: PoolCreateInfo): (r: MemoryPoolProperties)
    ensures CreateInfo(r) == ci.(pMemoryAllocateNext := None)
  {
    MemoryPoolProperties(ci.flags, ci.memoryTypeIndex, ci.blockSize, ci.minBlockCount, ci.maxBlockCount,
                         ci.priority, ci.minAllocationAlignment)
  }

  /** Every set of pool properties survives its create info. */
  lemma RoundTrip(p: MemoryPoolProperties)
    ensures FromCreateInfo(CreateInfo(p)) == p
  {
  }

  /** A create info is rebuilt from its decoding exactly when it has no allocate-info chain. */
  lemma CreateInfoRoundTrip(ci: PoolCreateInfo)
    ensures CreateInfo(FromCreateInfo(ci)) == ci <==> ci.pMemoryAllocateNext.None?
  {
  }

  /** `MemoryPool`: the allocator's pool handle, its properties and its allocator. */
  datatype MemoryPoolObject = MemoryPoolObject(pool: Handle, properties: MemoryPoolProperties, allocator: Handle)

  /** The create info `new_with_pnext_chain` sends: `create_info()` with the chain attached when one is given. */
  function ChainedCreateInfo(p: MemoryPoolProperties, memoryAllocateNext: Option<Handle>): (r: PoolCreateInfo)
    ensures r.pMemoryAllocateNext == memoryAllocateNext
    ensures r.(pMemoryAllocateNext := None) == CreateInfo(p)
  {
    var ci := CreateInfo(p);
    if memoryAllocateNext.Some? then ci.(pMemoryAllocateNext := memoryAllocateNext) else ci
  }

  /**
   * `new_with_pnext_chain`: the pool is created from the chained create
   * info and keeps the properties given; a failure of `vmaCreatePool`
   * is returned and builds no pool.
   */
  function NewWithPnextChain(allocator: Handle, p: MemoryPoolProperties, memoryAllocateNext: Option<Handle>,
                             created: Result<Handle, VkError>)
    : (r: (Result<MemoryPoolObject, VkError>, PoolCreateInfo))
    ensures r.1 == ChainedCreateInfo(p, memoryAllocateNext)
    ensures created.Err? ==> r.0 == Err(created.error)
    ensures created.Ok? ==> r.0 == Ok(MemoryPoolObject(created.value, p, allocator))
  {
    var ci := ChainedCreateInfo(p, memoryAllocateNext);
    match created
    case Err(e) => (Err(e), ci)
    case Ok(h) => (Ok(MemoryPoolObject(h, p, allocator)), ci)
  }

  /** `MemoryPool::new`: no chain. */
  function New(allocator: Handle, p: MemoryPoolProperties, created: Result<Handle, VkError>)
    : (r: (Result<MemoryPoolObject, VkError>, PoolCreateInfo))
    ensures r.1 == CreateInfo(p)
    ensures r.0 == NewWithPnextChain(allocator, p, None, created).0
  {
    NewWithPnextChain(allocator, p, None, created)
  }

  /** The properties a pool holds are exactly those its create info decodes to, chained or not. */
  lemma StoredPropertiesDecode(allocator: Handle, p: MemoryPoolProperties, memoryAllocateNext: Option<Handle>, h: Handle)
    ensures var (r, ci) := NewWithPnextChain(allocator, p, memoryAllocateNext, Ok(h));
      r.Ok? && r.value.properties == FromCreateInfo(ci)
  {
  }
}
