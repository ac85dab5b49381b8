// Buffer properties, their `vk::BufferCreateInfo` encoding, and buffer
// creation through the allocator (bort-vk/src/buffer.rs; src/buffer.rs has
// the same struct with the flags field named `create_flags`, the same
// `Default`, and a `From<&vk::BufferCreateInfo>` that decodes the same way).
// The allocator's `create_buffer` is a foreign call: its outcome is a
// parameter.
module Buffer {
  import opened Wrappers
  import opened VkTypes

  /** `BufferProperties` */
  datatype BufferProperties = BufferProperties(
    flags: Flags,
    size: DeviceSize,
    usage: Flags,
    sharingMode: SharingMode,
    queueFamilyIndices: seq<u32>)

  /** `vk::BufferCreateInfo` */
  datatype BufferCreateInfo = BufferCreateInfo(
    flags: Flags,
    size: DeviceSize,
    usage: Flags,
    sharingMode: SharingMode,
    queueFamilyIndexCount: u32,
    pQueueFamilyIndices: Ptr<u32>)

  /** `BufferProperties::default()` (both crates): nothing set, exclusive sharing. */
  function DefaultProperties(): (r: BufferProperties)
    ensures r.flags == 0 && r.size == 0 && r.usage == 0
    ensures r.sharingMode == SHARING_EXCLUSIVE && r.queueFamilyIndices == []
  {
    BufferProperties(0, 0, 0, SHARING_EXCLUSIVE, [])
  }

  /** `new_default`: the default with only the size and the usage replaced. */
  function NewDefault(size: DeviceSize, usage: Flags): (r: BufferProperties)
    ensures r.size == size && r.usage == usage
    ensures r.(size := 0, usage := 0) == DefaultProperties()
  {
    DefaultProperties().(size := size, usage := usage)
  }

  /** `write_create_info_builder` / `create_info_builder` (both crates) */
  function CreateInfoBuilder(p: BufferProperties): (r: BufferCreateInfo)
    ensures r.flags == p.flags && r.size == p.size && r.usage == p.usage && r.sharingMode == p.sharingMode
    ensures r.queueFamilyIndexCount == SliceCount(p.queueFamilyIndices)
    ensures r.pQueueFamilyIndices == Points(p.queueFamilyIndices)
  {
    BufferCreateInfo(p.flags, p.size, p.usage, p.sharingMode,
                     SliceCount(p.queueFamilyIndices), Points(p.queueFamilyIndices))
  }

  /** What `from_create_info_builder` (and the older `From`) builds: `queue_family_index_count` indices, in order. */
  function PropertiesOf(ci: BufferCreateInfo): BufferProperties
    requires ReadableUnchecked(ci.queueFamilyIndexCount, ci.pQueueFamilyIndices)
  {
    BufferProperties(ci.flags, ci.size, ci.usage, ci.sharingMode,
                     ReadUnchecked(ci.queueFamilyIndexCount, ci.pQueueFamilyIndices))
  }

  /** `from_create_info_builder` / `From<&vk::BufferCreateInfo>`, with the push loop. */
  method FromCreateInfoBuilder(ci: BufferCreateInfo) returns (p: BufferProperties)
    requires ReadableUnchecked(ci.queueFamilyIndexCount, ci.pQueueFamilyIndices)
    ensures p == PropertiesOf(ci)
    ensures |p.queueFamilyIndices| == ci.queueFamilyIndexCount
    ensures forall i :: 0 <= i < |p.queueFamilyIndices| ==> p.queueFamilyIndices[i] == ci.pQueueFamilyIndices.elems[i]
  {
    var indices := CopyArray(ci.queueFamilyIndexCount, ci.pQueueFamilyIndices);
    p := BufferProperties(ci.flags, ci.size, ci.usage, ci.sharingMode, indices);
  }

  /** Every set of buffer properties with a u32-countable family list survives its create info. */
  lemma RoundTrip(p: BufferProperties)
    requires |p.queueFamilyIndices| < U32_LIMIT
    ensures ReadableUnchecked(CreateInfoBuilder(p).queueFamilyIndexCount, CreateInfoBuilder(p).pQueueFamilyIndices)
    ensures PropertiesOf(CreateInfoBuilder(p)) == p
  {
    SliceRoundTrip(p.queueFamilyIndices);
  }

  /**
   * A create info is rebuilt from its decoding exactly when its pointer
   * holds exactly the counted indices (a null or longer array is not
   * what the builder writes).
   */
  lemma CreateInfoRoundTrip(ci: BufferCreateInfo)
    requires ReadableUnchecked(ci.queueFamilyIndexCount, ci.pQueueFamilyIndices)
    ensures CreateInfoBuilder(PropertiesOf(ci)) == ci <==>
      ci.pQueueFamilyIndices == Points(ReadUnchecked(ci.queueFamilyIndexCount, ci.pQueueFamilyIndices))
  {
    var s := ReadUnchecked(ci.queueFamilyIndexCount, ci.pQueueFamilyIndices);
    assert SliceCount(s) == ci.queueFamilyIndexCount;
  }

  /** `Buffer`: its handle, its properties and its allocator allocation. */
  datatype BufferObject = BufferObject(handle: Handle, properties: BufferProperties, allocation: Handle)

  /**
   * `Buffer::new` (both crates): the allocator is asked for a buffer with
   * the encoded properties; its `(buffer, allocation)` pair becomes the
   * buffer, and its error is returned with no buffer built.
   */
  function New(p: BufferProperties, created: Result<(Handle, Handle), VkError>)
    : (r: (Result<BufferObject, VkError>, BufferCreateInfo))
    ensures r.1 == CreateInfoBuilder(p)
    ensures created.Err? ==> r.0 == Err(created.error)
    ensures created.Ok? ==> r.0 == Ok(BufferObject(created.value.0, p, created.value.1))
  {
    match created
    case Err(e) => (Err(e), CreateInfoBuilder(p))
    case Ok((h, a)) => (Ok(BufferObject(h, p, a)), CreateInfoBuilder(p))
  }

  /**
   * `Buffer::new_from_create_info_builder` (the older `new_from_create_info`):
   * the buffer keeps the decoded properties.
   */
  method NewFromCreateInfoBuilder(ci: BufferCreateInfo, created: Result<(Handle, Handle), VkError>)
    returns (r: Result<BufferObject, VkError>)
    requires ReadableUnchecked(ci.queueFamilyIndexCount, ci.pQueueFamilyIndices)
    ensures created.Err? ==> r == Err(created.error)
    ensures created.Ok? ==> r == Ok(BufferObject(created.value.0, PropertiesOf(ci), created.value.1))
  {
    var p := FromCreateInfoBuilder(ci);
    match created {
      case Err(e) => r := Err(e);
      case Ok((h, a)) => r := Ok(BufferObject(h, p, a));
    }
  }

  /** Creating from the create info of some properties builds the same buffer as creating from the properties. */
  lemma NewFromCreateInfoAgreesWithNew(p: BufferProperties, created: Result<(Handle, Handle), VkError>)
    requires |p.queueFamilyIndices| < U32_LIMIT
    ensures ReadableUnchecked(CreateInfoBuilder(p).queueFamilyIndexCount, CreateInfoBuilder(p).pQueueFamilyIndices)
    ensures created.Ok? ==> New(p, created).0 == Ok(BufferObject(created.value.0, PropertiesOf(CreateInfoBuilder(p)), created.value.1))
  {
    RoundTrip(p);
  }
}
