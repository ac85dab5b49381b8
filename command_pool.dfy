// Command pools and the command buffers allocated from them
// (bort-vk/src/command_pool.rs). The driver's allocation result is a
// parameter; every buffer holds the pool it came from.
module CommandPool {
  import opened Wrappers
  import opened VkTypes

  /** `CommandPoolProperties`; its `Default` is empty flags and queue family 0. */
  datatype CommandPoolProperties = CommandPoolProperties(flags: Flags, queueFamilyIndex: u32)

  /** `vk::CommandPoolCreateInfo` */
  datatype CommandPoolCreateInfo = CommandPoolCreateInfo(flags: Flags, queueFamilyIndex: u32)

  /** `CommandPoolProperties::new_default`: only the queue family is set. */
  function NewDefault(queueFamilyIndex: u32): (r: CommandPoolProperties)
    ensures r.flags == 0 && r.queueFamilyIndex == queueFamilyIndex
  {
    CommandPoolProperties(0, queueFamilyIndex)
  }

  /** `write_create_info` / `create_info` */
  function CreateInfo(p: CommandPoolProperties): (r: CommandPoolCreateInfo)
    ensures r.flags == p.flags && r.queueFamilyIndex == p.queueFamilyIndex
  {
    CommandPoolCreateInfo(p.flags, p.queueFamilyIndex)
  }

  /** `from_create_info` */
  function FromCreateInfo(ci: CommandPoolCreateInfo): (r: CommandPoolProperties)
    ensures r.flags == ci.flags && r.queueFamilyIndex == ci.queueFamilyIndex
  {
    CommandPoolProperties(ci.flags, ci.queueFamilyIndex)
  }

  /** The two encodings are inverse to each other, in both directions. */
  lemma RoundTrip(p: CommandPoolProperties, ci: CommandPoolCreateInfo)
    ensures FromCreateInfo(CreateInfo(p)) == p
    ensures CreateInfo(FromCreateInfo(ci)) == ci
  {
  }

  /** `CommandPool`: its handle, its properties and its device. */
  datatype CommandPoolObject = CommandPoolObject(handle: Handle, properties: CommandPoolProperties, device: Handle)

  /** `CommandPool::new`: the pool keeps the properties it was created from. */
  function New(device: Handle, p: CommandPoolProperties, created: Result<Handle, VkError>)
    : (r: (Result<CommandPoolObject, VkError>, CommandPoolCreateInfo))
    ensures r.1 == CreateInfo(p)
    ensures created.Err? ==> r.0 == Err(created.error)
    ensures created.Ok? ==> r.0 == Ok(CommandPoolObject(created.value, p, device))
  {
    match created
    case Err(e) => (Err(e), CreateInfo(p))
    case Ok(h) => (Ok(CommandPoolObject(h, p, device)), CreateInfo(p))
  }

  /** `CommandPool::new_from_create_info`: the pool keeps the decoded properties. */
  function NewFromCreateInfo(device: Handle, ci: CommandPoolCreateInfo, created: Result<Handle, VkError>)
    : (r: Result<CommandPoolObject, VkError>)
    ensures created.Err? ==> r == Err(created.error)
    ensures created.Ok? ==> r == Ok(CommandPoolObject(created.value, FromCreateInfo(ci), device))
  {
    match created
    case Err(e) => Err(e)
    case Ok(h) => Ok(CommandPoolObject(h, FromCreateInfo(ci), device))
  }

  /** `CommandBuffer` as `CommandBuffer::from_handle` builds it: a handle, its level and the pool it holds. */
  datatype CommandBufferObject = CommandBufferObject(handle: Handle, level: CommandBufferLevel, commandPool: CommandPoolObject)

  /** `vk::CommandBufferAllocateInfo` */
  datatype CommandBufferAllocateInfo = CommandBufferAllocateInfo(commandPool: Handle, level: CommandBufferLevel,
                                                                 commandBufferCount: u32)

  /**
   * `allocate_command_buffers_from_allocate_info`: every returned handle
   * becomes a buffer of the requested level holding this pool, in order; an
   * allocation failure builds nothing.
   */
  function AllocateFromAllocateInfo(pool: CommandPoolObject, allocateInfo: CommandBufferAllocateInfo,
                                    allocation: Result<seq<Handle>, VkError>)
    : (r: Result<seq<CommandBufferObject>, VkError>)
    ensures allocation.Err? ==> r == Err(allocation.error)
    ensures allocation.Ok? ==> (r.Ok? && |r.value| == |allocation.value| &&
      forall i :: 0 <= i < |r.value| ==>
        r.value[i] == CommandBufferObject(allocation.value[i], allocateInfo.level, pool))
  {
    match allocation
    case Err(e) => Err(e)
    case Ok(handles) =>
      Ok(seq(|handles|, i requires 0 <= i < |handles| => CommandBufferObject(handles[i], allocateInfo.level, pool)))
  }

  /** The allocate info `allocate_command_buffers` sends: this level, this count, this pool. */
  function AllocateInfo(pool: CommandPoolObject, level: CommandBufferLevel, count: u32): (r: CommandBufferAllocateInfo)
    ensures r.commandPool == pool.handle && r.level == level && r.commandBufferCount == count
  {
    CommandBufferAllocateInfo(pool.handle, level, count)
  }

  /** `allocate_command_buffers` */
  function AllocateCommandBuffers(pool: CommandPoolObject, level: CommandBufferLevel, count: u32,
                                  allocation: Result<seq<Handle>, VkError>)
    : (r: (Result<seq<CommandBufferObject>, VkError>, CommandBufferAllocateInfo))
    ensures r.1 == AllocateInfo(pool, level, count)
    ensures allocation.Ok? ==> (r.0.Ok? && |r.0.value| == |allocation.value| &&
      forall i :: 0 <= i < |r.0.value| ==> r.0.value[i] == CommandBufferObject(allocation.value[i], level, pool))
    ensures allocation.Err? ==> r.0 == Err(allocation.error)
  {
    var info := AllocateInfo(pool, level, count);
    (AllocateFromAllocateInfo(pool, info, allocation), info)
  }

  /**
   * `allocate_command_buffer`: a count-1 allocation, whose one element is
   * returned (the driver returns one handle per requested buffer).
   */
  function AllocateCommandBuffer(pool: CommandPoolObject, level: CommandBufferLevel,
                                 allocation: Result<seq<Handle>, VkError>)
    : (r: (Result<CommandBufferObject, VkError>, CommandBufferAllocateInfo))
    requires allocation.Ok? ==> |allocation.value| == 1
    ensures r.1 == AllocateInfo(pool, level, 1)
    ensures allocation.Err? ==> r.0 == Err(allocation.error)
    ensures allocation.Ok? ==> r.0 == Ok(CommandBufferObject(allocation.value[0], level, pool))
  {
    var (buffers, info) := AllocateCommandBuffers(pool, level, 1, allocation);
    match buffers
    case Err(e) => (Err(e), info)
    case Ok(v) => (Ok(v[0]), info)
  }
}
