// Host access to a memory allocation (bort-vk/src/memory_allocation.rs and the
// older src/memory_allocation.rs): each access checks its bounds, maps the
// memory, copies bytes, flushes and unmaps. The allocator's map and flush are
// foreign calls; their outcomes are parameters, and every call made is logged.
module MemoryAllocation {
  import opened Wrappers
  import opened VkTypes

  /** The part of `bort_vma::AllocationCreateInfo` the library sets. */
  datatype AllocationCreateInfo = AllocationCreateInfo(
    flags: Flags,
    usage: int,
    requiredFlags: Flags,
    preferredFlags: Flags,
    memoryTypeBits: u32,
    priority: F32)

  /** `AllocationCreateInfo::default()`: no flags, unknown usage, any memory type. */
  function DefaultAllocationCreateInfo(): AllocationCreateInfo {
    AllocationCreateInfo(0, 0, 0, 0, 0, F32_ZERO)
  }

  /** `allocation_info_from_flags`: the default with only the two flag sets replaced. */
  function AllocationInfoFromFlags(requiredFlags: Flags, preferredFlags: Flags): (r: AllocationCreateInfo)
    ensures r.requiredFlags == requiredFlags && r.preferredFlags == preferredFlags
    ensures r.(requiredFlags := 0, preferredFlags := 0) == DefaultAllocationCreateInfo()
  {
    DefaultAllocationCreateInfo().(requiredFlags := requiredFlags, preferredFlags := preferredFlags)
  }

  /** `allocation_info_cpu_accessible`: host visible required, host coherent preferred. */
  function AllocationInfoCpuAccessible(): (r: AllocationCreateInfo)
    ensures r.requiredFlags == MEMORY_PROPERTY_HOST_VISIBLE
    ensures r.preferredFlags == MEMORY_PROPERTY_HOST_COHERENT
    ensures r.(requiredFlags := 0, preferredFlags := 0) == DefaultAllocationCreateInfo()
  {
    AllocationInfoFromFlags(MEMORY_PROPERTY_HOST_VISIBLE, MEMORY_PROPERTY_HOST_COHERENT)
  }

  /**
   * `MemoryError` of both crates: bort-vk reports a bad range as
   * `AccessDataSize`, the older crate as `WriteDataSize`, with the same fields.
   */
  datatype MemoryError =
    | Mapping(result: VkError)
    | AccessDataSize(dataSize: nat, allocationSize: nat, offset: nat)
    | WriteDataSize(dataSize: nat, allocationSize: nat, writeOffset: nat)
    | Flushing(result: VkError)

  /** A call into the allocator, as recorded in an allocation's call log. */
  datatype AllocatorCall = MapMemory | UnmapMemory | FlushAllocation(offset: nat, size: nat)

  /** `bytes` with `data` written over it from `offset` on. */
  function Overwrite(bytes: seq<bv8>, offset: nat, data: seq<bv8>): (r: seq<bv8>)
    requires offset + |data| <= |bytes|
    ensures |r| == |bytes|
    ensures forall j :: 0 <= j < |bytes| ==>
      r[j] == if offset <= j < offset + |data| then data[j - offset] else bytes[j]
  {
    bytes[..offset] + data + bytes[offset + |data|..]
  }

  /** Every item is `itemSize` bytes long (`size_of::<T>()`). */
  predicate Uniform(items: seq<seq<bv8>>, itemSize: nat) {
    forall k :: 0 <= k < |items| ==> |items[k]| == itemSize
  }

  /** The items' bytes one after another, as `write_iter` lays them out. */
  function Concat(items: seq<seq<bv8>>, itemSize: nat): (r: seq<bv8>)
    requires Uniform(items, itemSize)
    ensures |r| == |items| * itemSize
  {
    if |items| == 0 then []
    else
      assert Uniform(items[1..], itemSize);
      assert |items| * itemSize == itemSize + (|items| - 1) * itemSize;
      items[0] + Concat(items[1..], itemSize)
  }

  lemma {:induction false} ConcatSnoc(items: seq<seq<bv8>>, x: seq<bv8>, itemSize: nat)
    requires Uniform(items, itemSize) && |x| == itemSize
    ensures Uniform(items + [x], itemSize)
    ensures Concat(items + [x], itemSize) == Concat(items, itemSize) + x
  {
    assert Uniform(items + [x], itemSize);
    if |items| != 0 {
      assert (items + [x])[1..] == items[1..] + [x];
      assert Uniform(items[1..], itemSize);
      ConcatSnoc(items[1..], x, itemSize);
    }
  }

  /** Element k of `write_iter`'s data starts `k * itemSize` bytes in. */
  lemma {:induction false} ConcatLayout(items: seq<seq<bv8>>, itemSize: nat, k: nat, b: nat)
    requires Uniform(items, itemSize)
    requires k < |items| && b < itemSize
    ensures k * itemSize + b < |items| * itemSize
    ensures Concat(items, itemSize)[k * itemSize + b] == items[k][b]
  {
    assert Uniform(items[1..], itemSize);
    if k > 0 {
      assert k * itemSize + b == itemSize + ((k - 1) * itemSize + b);
      assert items[1..][k - 1] == items[k];
      ConcatLayout(items[1..], itemSize, k - 1, b);
    }
  }

  /** Writing `a` and then `b` right after it is writing `a + b`. */
  lemma OverwriteTwice(bytes: seq<bv8>, offset: nat, a: seq<bv8>, b: seq<bv8>)
    requires offset + |a| + |b| <= |bytes|
    ensures Overwrite(Overwrite(bytes, offset, a), offset + |a|, b) == Overwrite(bytes, offset, a + b)
  {
  }

  /**
   * A host-accessible allocation: its bytes, its size, the property flags of
   * its memory type, and the log of allocator calls made on it.
   */
  class Allocation {
    const memory: array<bv8>
    const propertyFlags: Flags
    var calls: seq<AllocatorCall>

    constructor (size: nat, propertyFlags: Flags)
      ensures memory.Length == size && fresh(memory)
      ensures this.propertyFlags == propertyFlags
      ensures calls == []
    {
      memory := new bv8[size](_ => 0);
      this.propertyFlags := propertyFlags;
      calls := [];
    }

    /** The `ptr::write` (or one step of the write loop) into the mapped memory. */
    method CopyIn(offset: nat, data: seq<bv8>)
      requires offset + |data| <= memory.Length
      modifies memory
      ensures memory[..] == Overwrite(old(memory[..]), offset, data)
    {
      var i := 0;
      while i < |data|
        invariant 0 <= i <= |data|
        invariant forall j :: 0 <= j < memory.Length ==>
          memory[j] == if offset <= j < offset + i then data[j - offset] else old(memory[j])
      {
        memory[offset + i] := data[i];
        i := i + 1;
      }
    }

    /**
     * `write_struct` (bort-vk): `data` is the value's bytes. A range that does
     * not fit gives `AccessDataSize` and touches nothing; a failed map gives
     * `Mapping` with nothing written; otherwise the bytes are written, the
     * range flushed, the memory unmapped, and the flush result returned.
     */
    method WriteStruct(data: seq<bv8>, writeOffset: nat, mapOutcome: Result<(), VkError>, flushOutcome: Result<(), VkError>)
      returns (r: Result<(), MemoryError>)
      requires writeOffset <= memory.Length
      modifies this, memory
      ensures |data| > memory.Length - writeOffset ==>
        r == Err(AccessDataSize(|data|, memory.Length, writeOffset)) &&
        memory[..] == old(memory[..]) && calls == old(calls)
      ensures |data| <= memory.Length - writeOffset && mapOutcome.Err? ==>
        r == Err(Mapping(mapOutcome.error)) &&
        memory[..] == old(memory[..]) && calls == old(calls) + [MapMemory]
      ensures |data| <= memory.Length - writeOffset && mapOutcome.Ok? ==>
        memory[..] == Overwrite(old(memory[..]), writeOffset, data) &&
        calls == old(calls) + [MapMemory, FlushAllocation(writeOffset, |data|), UnmapMemory] &&
        r == if flushOutcome.Ok? then Ok(()) else Err(Flushing(flushOutcome.error))
    {
      if |data| > memory.Length - writeOffset {
        return Err(AccessDataSize(|data|, memory.Length, writeOffset));
      }
      calls := calls + [MapMemory];
      if mapOutcome.Err? {
        return Err(Mapping(mapOutcome.error));
      }
      CopyIn(writeOffset, data);
      r := FlushBortVk(writeOffset, |data|, flushOutcome);
      calls := calls + [UnmapMemory];
    }

    /**
     * `write_iter` (bort-vk): `items` are the elements' bytes, each
     * `itemSize` long, written one after another from the offset.
     */
    method WriteIter(items: seq<seq<bv8>>, itemSize: nat, writeOffset: nat,
                     mapOutcome: Result<(), VkError>, flushOutcome: Result<(), VkError>)
      returns (r: Result<(), MemoryError>)
      requires Uniform(items, itemSize)
      requires writeOffset <= memory.Length
      modifies this, memory
      ensures |items| * itemSize > memory.Length - writeOffset ==>
        r == Err(AccessDataSize(|items| * itemSize, memory.Length, writeOffset)) &&
        memory[..] == old(memory[..]) && calls == old(calls)
      ensures |items| * itemSize <= memory.Length - writeOffset && mapOutcome.Err? ==>
        r == Err(Mapping(mapOutcome.error)) &&
        memory[..] == old(memory[..]) && calls == old(calls) + [MapMemory]
      ensures |items| * itemSize <= memory.Length - writeOffset && mapOutcome.Ok? ==>
        memory[..] == Overwrite(old(memory[..]), writeOffset, Concat(items, itemSize)) &&
        calls == old(calls) + [MapMemory, FlushAllocation(writeOffset, |items| * itemSize), UnmapMemory] &&
        r == if flushOutcome.Ok? then Ok(()) else Err(Flushing(flushOutcome.error))
    {
      var dataSize := |items| * itemSize;
      if dataSize > memory.Length - writeOffset {
        return Err(AccessDataSize(dataSize, memory.Length, writeOffset));
      }
      calls := calls + [MapMemory];
      if mapOutcome.Err? {
        return Err(Mapping(mapOutcome.error));
      }
      WriteItems(items, itemSize, writeOffset);
      r := FlushBortVk(writeOffset, dataSize, flushOutcome);
      calls := calls + [UnmapMemory];
    }

    /** The loop of `write_iter`: element k goes to `offset + k * itemSize`. */
    method WriteItems(items: seq<seq<bv8>>, itemSize: nat, offset: nat)
      requires Uniform(items, itemSize)
      requires offset + |items| * itemSize <= memory.Length
      modifies memory
      ensures memory[..] == Overwrite(old(memory[..]), offset, Concat(items, itemSize))
    {
      var k := 0;
      assert items[..0] == [];
      while k < |items|
        invariant 0 <= k <= |items|
        invariant Uniform(items[..k], itemSize)
        invariant offset + k * itemSize <= memory.Length
        invariant memory[..] == Overwrite(old(memory[..]), offset, Concat(items[..k], itemSize))
      {
        MulMonotone(k + 1, |items|, itemSize);
        assert (k + 1) * itemSize == k * itemSize + itemSize;
        CopyIn(offset + k * itemSize, items[k]);
        OverwriteTwice(old(memory[..]), offset, Concat(items[..k], itemSize), items[k]);
        assert items[..k + 1] == items[..k] + [items[k]];
        ConcatSnoc(items[..k], items[k], itemSize);
        k := k + 1;
      }
      assert items[..|items|] == items;
    }

    /**
     * `read_struct` (bort-vk): the `size` bytes at the offset, read between a
     * map and an unmap; memory contents are untouched.
     */
    method ReadStruct(size: nat, readOffset: nat, mapOutcome: Result<(), VkError>)
      returns (r: Result<seq<bv8>, MemoryError>)
      requires readOffset <= memory.Length
      modifies this
      ensures size > memory.Length - readOffset ==>
        r == Err(AccessDataSize(size, memory.Length, readOffset)) && calls == old(calls)
      ensures size <= memory.Length - readOffset && mapOutcome.Err? ==>
        r == Err(Mapping(mapOutcome.error)) && calls == old(calls) + [MapMemory]
      ensures size <= memory.Length - readOffset && mapOutcome.Ok? ==>
        r == Ok(memory[readOffset..readOffset + size]) &&
        calls == old(calls) + [MapMemory, UnmapMemory]
    {
      if size > memory.Length - readOffset {
        return Err(AccessDataSize(size, memory.Length, readOffset));
      }
      calls := calls + [MapMemory];
      if mapOutcome.Err? {
        return Err(Mapping(mapOutcome.error));
      }
      var bytes := memory[readOffset..readOffset + size];
      calls := calls + [UnmapMemory];
      return Ok(bytes);
    }

    /** `flush_allocation` (bort-vk): always asks the allocator, which skips coherent memory itself. */
    method FlushBortVk(offset: nat, size: nat, flushOutcome: Result<(), VkError>) returns (r: Result<(), MemoryError>)
      modifies this
      ensures calls == old(calls) + [FlushAllocation(offset, size)]
      ensures r == if flushOutcome.Ok? then Ok(()) else Err(Flushing(flushOutcome.error))
    {
      calls := calls + [FlushAllocation(offset, size)];
      r := if flushOutcome.Ok? then Ok(()) else Err(Flushing(flushOutcome.error));
    }

    /**
     * `flush_allocation` (older crate): host-coherent memory needs no flush,
     * so no call is made and the result is `Ok`.
     */
    method LegacyFlush(offset: nat, size: nat, flushOutcome: Result<(), VkError>) returns (r: Result<(), MemoryError>)
      modifies this
      ensures Contains(propertyFlags, MEMORY_PROPERTY_HOST_COHERENT) ==> calls == old(calls) && r == Ok(())
      ensures !Contains(propertyFlags, MEMORY_PROPERTY_HOST_COHERENT) ==>
        calls == old(calls) + [FlushAllocation(offset, size)] &&
        r == if flushOutcome.Ok? then Ok(()) else Err(Flushing(flushOutcome.error))
    {
      if !Contains(propertyFlags, MEMORY_PROPERTY_HOST_COHERENT) {
        calls := calls + [FlushAllocation(offset, size)];
        if flushOutcome.Err? {
          return Err(Flushing(flushOutcome.error));
        }
      }
      return Ok(());
    }

    /** The calls a successful map leads to in the older crate: flush if needed, then unmap. */
    function LegacyAfterMap(offset: nat, size: nat): seq<AllocatorCall>
      reads this
    {
      if Contains(propertyFlags, MEMORY_PROPERTY_HOST_COHERENT) then [MapMemory, UnmapMemory]
      else [MapMemory, FlushAllocation(offset, size), UnmapMemory]
    }

    /**
     * `write_struct` (older crate): as in bort-vk but with `WriteDataSize`,
     * the coherent-aware flush, and an unmap on the flush-error path too.
     */
    method LegacyWriteStruct(data: seq<bv8>, writeOffset: nat, mapOutcome: Result<(), VkError>, flushOutcome: Result<(), VkError>)
      returns (r: Result<(), MemoryError>)
      requires writeOffset <= memory.Length
      modifies this, memory
      ensures |data| > memory.Length - writeOffset ==>
        r == Err(WriteDataSize(|data|, memory.Length, writeOffset)) &&
        memory[..] == old(memory[..]) && calls == old(calls)
      ensures |data| <= memory.Length - writeOffset && mapOutcome.Err? ==>
        r == Err(Mapping(mapOutcome.error)) &&
        memory[..] == old(memory[..]) && calls == old(calls) + [MapMemory]
      ensures |data| <= memory.Length - writeOffset && mapOutcome.Ok? ==>
        memory[..] == Overwrite(old(memory[..]), writeOffset, data) &&
        calls == old(calls) + LegacyAfterMap(writeOffset, |data|) &&
        r == if Contains(propertyFlags, MEMORY_PROPERTY_HOST_COHERENT) || flushOutcome.Ok? then Ok(())
             else Err(Flushing(flushOutcome.error))
    {
      if |data| > memory.Length - writeOffset {
        return Err(WriteDataSize(|data|, memory.Length, writeOffset));
      }
      calls := calls + [MapMemory];
      if mapOutcome.Err? {
        return Err(Mapping(mapOutcome.error));
      }
      CopyIn(writeOffset, data);
      var flushRes := LegacyFlush(writeOffset, |data|, flushOutcome);
      if flushRes.Err? {
        calls := calls + [UnmapMemory];
        return flushRes;
      }
      calls := calls + [UnmapMemory];
      return Ok(());
    }

    /** `write_iter` (older crate): consecutive items, coherent-aware flush. */
    method LegacyWriteIter(items: seq<seq<bv8>>, itemSize: nat, writeOffset: nat,
                           mapOutcome: Result<(), VkError>, flushOutcome: Result<(), VkError>)
      returns (r: Result<(), MemoryError>)
      requires Uniform(items, itemSize)
      requires writeOffset <= memory.Length
      modifies this, memory
      ensures |items| * itemSize > memory.Length - writeOffset ==>
        r == Err(WriteDataSize(|items| * itemSize, memory.Length, writeOffset)) &&
        memory[..] == old(memory[..]) && calls == old(calls)
      ensures |items| * itemSize <= memory.Length - writeOffset && mapOutcome.Err? ==>
        r == Err(Mapping(mapOutcome.error)) &&
        memory[..] == old(memory[..]) && calls == old(calls) + [MapMemory]
      ensures |items| * itemSize <= memory.Length - writeOffset && mapOutcome.Ok? ==>
        memory[..] == Overwrite(old(memory[..]), writeOffset, Concat(items, itemSize)) &&
        calls == old(calls) + LegacyAfterMap(writeOffset, |items| * itemSize) &&
        r == if Contains(propertyFlags, MEMORY_PROPERTY_HOST_COHERENT) || flushOutcome.Ok? then Ok(())
             else Err(Flushing(flushOutcome.error))
    {
      var dataSize := |items| * itemSize;
      if dataSize > memory.Length - writeOffset {
        return Err(WriteDataSize(dataSize, memory.Length, writeOffset));
      }
      calls := calls + [MapMemory];
      if mapOutcome.Err? {
        return Err(Mapping(mapOutcome.error));
      }
      WriteItems(items, itemSize, writeOffset);
      var flushRes := LegacyFlush(writeOffset, dataSize, flushOutcome);
      if flushRes.Err? {
        calls := calls + [UnmapMemory];
        return flushRes;
      }
      calls := calls + [UnmapMemory];
      return Ok(());
    }
  }

  lemma MulMonotone(a: nat, b: nat, c: nat)
    requires a <= b
    ensures a * c <= b * c
  {
  }

  /**
   * After `write_iter`, element k occupies the `itemSize` bytes from
   * `offset + k * itemSize`.
   */
  lemma WriteIterLayout(bytes: seq<bv8>, items: seq<seq<bv8>>, itemSize: nat, offset: nat, k: nat, b: nat)
    requires Uniform(items, itemSize)
    requires offset + |items| * itemSize <= |bytes|
    requires k < |items| && b < itemSize
    ensures offset + k * itemSize + b < |bytes|
    ensures Overwrite(bytes, offset, Concat(items, itemSize))[offset + k * itemSize + b] == items[k][b]
  {
    ConcatLayout(items, itemSize, k, b);
  }
}
