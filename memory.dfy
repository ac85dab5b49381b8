// `find_memorytype_index` (src/memory.rs): the first memory type that the
// resource may live in and that has all the requested property flags.
module Memory {
  import opened Wrappers
  import opened VkTypes

  /** `VK_MAX_MEMORY_TYPES`, the length of `memory_types` in `vk::PhysicalDeviceMemoryProperties`. */
  const MAX_MEMORY_TYPES: nat := 32

  /** `vk::PhysicalDeviceMemoryProperties`, reduced to the memory types' property flags. */
  datatype MemoryProperties = MemoryProperties(memoryTypeCount: u32, memoryTypes: seq<Flags>)
  {
    /** The fixed-size array, and the slice `memory_types[..memory_type_count]` that does not panic. */
    predicate WellFormed() {
      |memoryTypes| == MAX_MEMORY_TYPES && memoryTypeCount <= MAX_MEMORY_TYPES
    }
  }

  /** Bit `index` of `memory_type_bits` is set: `(1 << index) & memory_type_bits != 0`. */
  predicate Allowed(memoryTypeBits: bv32, index: nat)
    requires index < 32
  {
    (1 as bv32 << index) & memoryTypeBits != 0
  }

  /** Memory type `index` can hold the resource and has every flag in `flags`. */
  predicate Qualifies(memoryTypeBits: bv32, props: MemoryProperties, flags: Flags, index: nat)
    requires props.WellFormed()
  {
    index < props.memoryTypeCount &&
    Allowed(memoryTypeBits, index) && Contains(props.memoryTypes[index], flags)
  }

  /** The `find` over `enumerate()`, from position `from` onwards. */
  function FindFrom(memoryTypeBits: bv32, props: MemoryProperties, flags: Flags, from: nat): (r: Option<u32>)
    requires props.WellFormed()
    requires from <= props.memoryTypeCount
    ensures r.Some? ==> from <= r.value && Qualifies(memoryTypeBits, props, flags, r.value)
    ensures r.Some? ==> forall j :: from <= j < r.value ==> !Qualifies(memoryTypeBits, props, flags, j)
    ensures r.None? <==> forall j :: from <= j < props.memoryTypeCount ==> !Qualifies(memoryTypeBits, props, flags, j)
    decreases props.memoryTypeCount - from
  {
    if from == props.memoryTypeCount then None
    else if Allowed(memoryTypeBits, from) && Contains(props.memoryTypes[from], flags) then
      assert Qualifies(memoryTypeBits, props, flags, from);
      Some(from)
    else FindFrom(memoryTypeBits, props, flags, from + 1)
  }

  /**
   * `find_memorytype_index`: the smallest index below `memory_type_count`
   * allowed by `memory_type_bits` whose property flags contain `flags`, and
   * `None` exactly when there is no such index.
   */
  function FindMemorytypeIndex(memoryTypeBits: bv32, props: MemoryProperties, flags: Flags): (r: Option<u32>)
    requires props.WellFormed()
    ensures r.Some? ==> Qualifies(memoryTypeBits, props, flags, r.value)
    ensures r.Some? ==> forall j :: 0 <= j < r.value ==> !Qualifies(memoryTypeBits, props, flags, j)
    ensures r.None? <==> forall j :: 0 <= j < props.memoryTypeCount ==> !Qualifies(memoryTypeBits, props, flags, j)
  {
    FindFrom(memoryTypeBits, props, flags, 0)
  }

  /**
   * With no required flags the answer depends only on `memory_type_bits`:
   * its lowest set bit below `memory_type_count`.
   */
  lemma EmptyFlagsPicksLowestAllowedBit(memoryTypeBits: bv32, props: MemoryProperties)
    requires props.WellFormed()
    ensures var r := FindMemorytypeIndex(memoryTypeBits, props, 0);
      (r.Some? ==> Allowed(memoryTypeBits, r.value) &&
                   forall j :: 0 <= j < r.value ==> !Allowed(memoryTypeBits, j)) &&
      (r.None? <==> forall j :: 0 <= j < props.memoryTypeCount ==> !Allowed(memoryTypeBits, j))
  {
    var r := FindMemorytypeIndex(memoryTypeBits, props, 0);
    assert forall j :: 0 <= j < props.memoryTypeCount ==>
      (Qualifies(memoryTypeBits, props, 0, j) <==> Allowed(memoryTypeBits, j));
  }

  lemma MaskSubset(x: Flags, flags: Flags, fewer: Flags)
    requires Contains(flags, fewer)
    requires Contains(x, flags)
    ensures Contains(x, fewer)
  {
  }

  /** The search agrees with the required flags: asking for fewer flags never finds a later type. */
  lemma {:induction false} FewerFlagsFindNoLater(memoryTypeBits: bv32, props: MemoryProperties, flags: Flags, fewer: Flags)
    requires props.WellFormed()
    requires Contains(flags, fewer)
    ensures var r := FindMemorytypeIndex(memoryTypeBits, props, flags);
      var s := FindMemorytypeIndex(memoryTypeBits, props, fewer);
      r.Some? ==> s.Some? && s.value <= r.value
  {
    var r := FindMemorytypeIndex(memoryTypeBits, props, flags);
    if r.Some? {
      var i := r.value;
      MaskSubset(props.memoryTypes[i], flags, fewer);
      assert Qualifies(memoryTypeBits, props, fewer, i);
      var s := FindMemorytypeIndex(memoryTypeBits, props, fewer);
      assert s.Some? && s.value <= i;
    }
  }
}
