// The command-buffer operations with a rule of their own
// (bort-vk/src/command_buffer.rs): allocation of a single buffer, the
// primary-level check of `execute_commands`, the bind point of
// `bind_pipeline`, and what `Drop` frees. Every `vkCmd*` call is returned
// as a value, never executed.
module CommandBuffer {
  import opened Wrappers
  import opened VkTypes
  import opened CommandPool
  import PipelineGraphics

  /** `CommandError` */
  datatype CommandError = CantExecutePrimaryCommandBuffer

  /** The commands and frees the model records. */
  datatype Recorded =
    | ExecuteCommands(commandBuffer: Handle, secondaries: seq<Handle>)
    | BindPipeline(commandBuffer: Handle, bindPoint: PipelineBindPoint, pipeline: Handle)
    | FreeCommandBuffers(commandPool: Handle, commandBuffers: seq<Handle>)

  /** `CommandBuffer::new`: one buffer of the requested level from this pool. */
  function New(pool: CommandPoolObject, level: CommandBufferLevel, allocation: Result<seq<Handle>, VkError>)
    : (r: (Result<CommandBufferObject, VkError>, CommandBufferAllocateInfo))
    requires allocation.Ok? ==> |allocation.value| == 1
    ensures r.1.commandBufferCount == 1 && r.1.level == level && r.1.commandPool == pool.handle
    ensures allocation.Ok? ==> (r.0.Ok? && r.0.value.level == level && r.0.value.commandPool == pool &&
                                 r.0.value.handle == allocation.value[0])
    ensures allocation.Err? ==> r.0 == Err(allocation.error)
  {
    AllocateCommandBuffer(pool, level, allocation)
  }

  /** Whether any of the buffers is primary. */
  predicate AnyPrimary(buffers: seq<CommandBufferObject>) {
    exists i :: 0 <= i < |buffers| && buffers[i].level == LEVEL_PRIMARY
  }

  /** The handles of the buffers, in order. */
  function Handles(buffers: seq<CommandBufferObject>): (r: seq<Handle>)
    ensures |r| == |buffers| && forall i :: 0 <= i < |buffers| ==> r[i] == buffers[i].handle
  {
    seq(|buffers|, i requires 0 <= i < |buffers| => buffers[i].handle)
  }

  /**
   * `execute_commands`: any primary buffer among the arguments is an error
   * and nothing is recorded; otherwise the arguments' handles are recorded
   * in the order given.
   */
  function ExecuteCommandsOn(cb: CommandBufferObject, secondaries: seq<CommandBufferObject>)
    : (r: (Result<(), CommandError>, Option<Recorded>))
    ensures r.0.Err? <==> AnyPrimary(secondaries)
    ensures r.0.Err? ==> r.0.error == CantExecutePrimaryCommandBuffer && r.1.None?
    ensures r.0.Ok? ==> r.1 == Some(ExecuteCommands(cb.handle, Handles(secondaries)))
  {
    if AnyPrimary(secondaries) then (Err(CantExecutePrimaryCommandBuffer), None)
    else (Ok(()), Some(ExecuteCommands(cb.handle, Handles(secondaries))))
  }

  /** Only all-secondary argument lists get through, and then every handle reaches the driver. */
  lemma ExecuteCommandsAcceptsOnlySecondaries(cb: CommandBufferObject, secondaries: seq<CommandBufferObject>)
    requires forall i :: 0 <= i < |secondaries| ==> secondaries[i].level == LEVEL_SECONDARY
    ensures ExecuteCommandsOn(cb, secondaries).0.Ok?
    ensures ExecuteCommandsOn(cb, secondaries).1.value.secondaries == Handles(secondaries)
  {
  }

  /** `bind_pipeline`: the pipeline is bound at its own bind point. */
  function BindPipelineOn(cb: CommandBufferObject, pipelineHandle: Handle, bindPoint: PipelineBindPoint): (r: Recorded)
    ensures r.BindPipeline? && r.commandBuffer == cb.handle && r.pipeline == pipelineHandle && r.bindPoint == bindPoint
  {
    BindPipeline(cb.handle, bindPoint, pipelineHandle)
  }

  /** Binding a graphics pipeline records the graphics bind point. */
  lemma BindGraphicsPipeline(cb: CommandBufferObject, pipeline: PipelineGraphics.GraphicsPipelineObject)
    ensures BindPipelineOn(cb, pipeline.handle, pipeline.BindPoint()).bindPoint == BIND_POINT_GRAPHICS
  {
  }

  /** `Drop for CommandBuffer`: the buffer is freed back to the pool it holds. */
  function Drop(cb: CommandBufferObject): (r: Recorded)
    ensures r == FreeCommandBuffers(cb.commandPool.handle, [cb.handle])
  {
    FreeCommandBuffers(cb.commandPool.handle, [cb.handle])
  }

  /** `DeviceOwned::device`: the device of the pool the buffer holds. */
  function Device(cb: CommandBufferObject): (r: Handle)
    ensures r == cb.commandPool.device
  {
    cb.commandPool.device
  }

  /** A buffer is freed to the pool it was allocated from, and belongs to that pool's device. */
  lemma AllocatedBufferReturnsToItsPool(pool: CommandPoolObject, level: CommandBufferLevel, h: Handle)
    ensures var cb := New(pool, level, Ok([h])).0.value;
      Drop(cb) == FreeCommandBuffers(pool.handle, [h]) && Device(cb) == pool.device
  {
  }
}
