# bort, modelled in Dafny

bort is a thin Rust layer over the Vulkan API (through `ash`) and the Vulkan
Memory Allocator. Its objects (instance, physical device, device, surface,
swapchain, images and views, buffers, memory allocations and pools, samplers,
descriptor layouts and pools, command pools and buffers, render passes,
framebuffers, pipeline layouts and graphics pipelines, shader modules, debug
messengers) each hold a handle and a set of *properties*. The properties are
encoded into the Vulkan `*CreateInfo` structure that creates the object, and
most of them can be decoded again from such a create info. This project
models that core in both of its crates. `bort-vk/src/*` is the current crate.
`src/*` is the older one, and its members are prefixed `Legacy` where they
differ.

How the model is set up:

- Every call into the driver, the loader or the allocator is a parameter.
  Examples are `vkCreate*`, `vkAllocate*`, the `vkEnumerate*` queries,
  `vmaCreate*` and the mapping of memory. A creation function takes the
  driver's answer as `created: Result<Handle, VkError>`, or a handle pair
  for what the allocator creates, and returns the object it builds.
- The `new` of most objects also returns the create info it sends, and
  the properties of that create info are then proved. A
  `new_from_create_info` takes the caller's create info as an argument.
- The exceptions are these. `Instance.New` and
  `Swapchain.LegacySwapchainNew` return only the object; the create infos
  they send are `Instance.CreateInfoFor` and `Swapchain.CreateInfoBuilder`.
  `Device.Device`, `Device.LegacyNew` and `Swapchain.Swapchain` record
  their create infos in a log of driver calls (`calls`). A physical device
  is enumerated, not created.
- A pointer with a count is `Ptr<T>`: either `Null` or the elements it
  points at. ash's slice setters write `SliceCount(s) = |s| % 2^32`, which
  is `len() as u32`. The copying loops of the decoders are the methods
  `VkTypes.CopyArray` and `VkTypes.CopyArrayIfNonNull`.
- `pNext` chain members, function pointers and window handles are opaque
  handles.
- Floating-point fields are 32-bit patterns that are copied and never
  computed.
- Objects whose fields the source updates in place are classes. These are
  `Device.Device`, `Swapchain.Swapchain`,
  `MemoryAllocation.Allocation`, `PipelineLayout.PipelineLayoutProperties`
  and `DescriptorLayout.LegacyLayoutProperties`.
- Every other object is a datatype holding its handle, its properties and
  the handles of what it depends on.

Each module is one source file, or a pair of files that are the same in
both crates. `Dimensions` is image_dimensions.rs. `PipelineStates` holds the
sub-states of pipeline_graphics.rs, and `PipelineGraphics` holds the rest of
that file. `Wrappers` and `VkTypes` are shared definitions.

The memory_pool.rs source does not compile as written. The `pool`
binding is declared at bort-vk/src/memory_pool.rs:42, inside an `unsafe`
block that ends at :43. The struct literal after that block uses `pool` at
:47, outside its scope, and names an `allocator` at :46 that is never
defined. The model follows the evident intent: `vmaCreatePool` runs on the
given allocator with the chained create info.

## Model

| member | source | states |
|---|---|---|
| `Buffer.DefaultProperties` | bort-vk/src/buffer.rs:145-157 | The default buffer has no flags, size 0, no usage, exclusive sharing and no queue families (the same `Default` is in src/buffer.rs). |
| `Buffer.NewDefault` | bort-vk/src/buffer.rs:160-166 | Only size and usage differ from the default properties. |
| `Buffer.CreateInfoBuilder` | bort-vk/src/buffer.rs:168-182 | Every scalar property lands in its create-info field; the family list is attached with ash's truncating slice count. |
| `Buffer.FromCreateInfoBuilder` | bort-vk/src/buffer.rs:184-198 | The push loop yields exactly `queue_family_index_count` indices, element `i` being the pointer's element `i`. |
| `Buffer.RoundTrip` | bort-vk/src/buffer.rs:168-198 | Any properties with fewer than 2^32 queue families decode back from their create info unchanged. |
| `Buffer.CreateInfoRoundTrip` | bort-vk/src/buffer.rs:168-198 | A create info is rebuilt by decoding then encoding exactly when its pointer holds exactly the counted indices. |
| `Buffer.New` | bort-vk/src/buffer.rs:16-35 | The allocator receives the encoded properties; its buffer/allocation pair plus the given properties become the buffer, and its error is returned with no buffer. |
| `Buffer.NewFromCreateInfoBuilder` | bort-vk/src/buffer.rs:37-56 | The buffer keeps the decoded create info; an allocator error is passed through. |
| `Buffer.NewFromCreateInfoAgreesWithNew` | bort-vk/src/buffer.rs:16-56 | Creating from the create info of some properties stores those same properties. |
| `CommandBuffer.New` | bort-vk/src/command_buffer.rs:21-24 | The allocate info asks for one buffer of the given level from this pool; the buffer holds the returned handle and the pool. |
| `CommandBuffer.Handles` | bort-vk/src/command_buffer.rs:270-273 | The handles passed on are those of the given buffers, one for one and in order. |
| `CommandBuffer.ExecuteCommandsOn` | bort-vk/src/command_buffer.rs:259-282 | When any argument is a primary buffer the call fails and nothing is recorded; otherwise exactly the buffers' handles are recorded in order. |
| `CommandBuffer.ExecuteCommandsAcceptsOnlySecondaries` | bort-vk/src/command_buffer.rs:259-268 | When every argument is secondary the call succeeds and records every handle. |
| `CommandBuffer.BindPipelineOn` | bort-vk/src/command_buffer.rs:110-118 | The pipeline's handle is recorded at the pipeline's own bind point. |
| `CommandBuffer.BindGraphicsPipeline` | bort-vk/src/command_buffer.rs:110-118 | Binding a graphics pipeline records the graphics bind point and that pipeline's handle. |
| `CommandBuffer.Drop` | bort-vk/src/command_buffer.rs:340-348 | The buffer is freed back to its own pool on that pool's device. |
| `CommandBuffer.Device` | bort-vk/src/command_buffer.rs:350-354 | A command buffer's device is the device of its pool. |
| `CommandBuffer.AllocatedBufferReturnsToItsPool` | bort-vk/src/command_buffer.rs:21-24 | Every buffer `CommandBuffer::new` builds is freed to the pool it came from and belongs to that pool's device. |
| `CommandPool.NewDefault` | bort-vk/src/command_pool.rs:148-153 | The default pool properties have no flags and only the queue family set. |
| `CommandPool.CreateInfo` | bort-vk/src/command_pool.rs:155-166 | The create info carries the flags and the queue family index. |
| `CommandPool.FromCreateInfo` | bort-vk/src/command_pool.rs:168-175 | Decoding reads back the flags and the queue family index. |
| `CommandPool.RoundTrip` | bort-vk/src/command_pool.rs:155-175 | Encoding and decoding are inverse in both directions. |
| `CommandPool.New` | bort-vk/src/command_pool.rs:17-31 | The pool is created from the encoded properties and keeps them; a driver error builds no pool. |
| `CommandPool.NewFromCreateInfo` | bort-vk/src/command_pool.rs:35-52 | The pool keeps the decoded create info; a driver error builds no pool. |
| `CommandPool.AllocateFromAllocateInfo` | bort-vk/src/command_pool.rs:78-95 | Returned handle `i` becomes buffer `i` at the requested level, tied to this pool; a driver error yields no buffers. |
| `CommandPool.AllocateInfo` | bort-vk/src/command_pool.rs:54-65 | The allocate info names this pool, the given level and the given count. |
| `CommandPool.AllocateCommandBuffers` | bort-vk/src/command_pool.rs:54-65 | The batch allocation sends this pool's allocate info and wraps every returned handle, in order, at the given level and with this pool. |
| `CommandPool.AllocateCommandBuffer` | bort-vk/src/command_pool.rs:67-74 | A single allocation asks for a count of one and returns the buffer for the first handle. |
| `Common.LinearIsNotSrgb` | bort-vk/src/common.rs:26-33 | Every format is either sRGB or linear, never both. |
| `Common.SubstringOccurs` | bort-vk/src/common.rs:26-29 | `contains` holds exactly when the needle occurs at some index of the text. |
| `Common.IsFormatSrgbOccurs` | bort-vk/src/common.rs:26-29 | A format is sRGB exactly when `SRGB` starts at some index of its debug name. |
| `Common.FirstNul` | bort-vk/src/common.rs:8-18 | The position returned is the first NUL in the string; none is returned exactly when there is no NUL. |
| `Common.CStringNew` | bort-vk/src/common.rs:8-18 | Conversion succeeds exactly when the string holds no NUL and then keeps the characters; an error's position is a NUL with no NUL before it. |
| `Common.FirstWithNul` | bort-vk/src/common.rs:8-18 | The index returned is the first name that holds a NUL, and every earlier name holds none. |
| `Common.StringToCStringVec` | bort-vk/src/common.rs:8-18 | A successful conversion has one C string per name. |
| `Common.StringToCStringVecSpec` | bort-vk/src/common.rs:8-18 | The conversion succeeds exactly when no name holds a NUL, and then returns every name in order; otherwise it returns the first failing name's error. |
| `DebugCallback.DefaultProperties` | bort-vk/src/debug_callback.rs:89-101 | The defaults report every severity (error, warning, info, verbose) and the general, validation and performance types. |
| `DebugCallback.WriteCreateInfo` | bort-vk/src/debug_callback.rs:104-111 | Only the two flag sets are written; flags, callback and user data stay as given. |
| `DebugCallback.CreateInfo` | bort-vk/src/debug_callback.rs:113-120 | The create info carries the callback, no flags and no user data. |
| `DebugCallback.FromCreateInfo` | bort-vk/src/debug_callback.rs:122-127 | Writing the decoded flags back into the same create info gives that create info. |
| `DebugCallback.RoundTrip` | bort-vk/src/debug_callback.rs:113-127 | Any properties decode back from their create info unchanged, whatever the callback. |
| `DebugCallback.WriteOfDecodedIsIdentity` | bort-vk/src/debug_callback.rs:104-127 | Writing the decoded properties into the same create info changes nothing. |
| `DebugCallback.New` | bort-vk/src/debug_callback.rs:15-32 | The messenger is created from the callback's create info and keeps the properties given; a driver error builds none. |
| `DebugCallback.NewFromCreateInfo` | bort-vk/src/debug_callback.rs:36-52 | The messenger keeps the create info's severity and type flags. |
| `DebugCallback.NewFromCreateInfoAgreesWithNew` | bort-vk/src/debug_callback.rs:15-52 | Creating from the create info `new` builds gives the same messenger. |
| `DescriptorLayout.VkImmutableSamplers` | bort-vk/src/descriptor_layout.rs:179-184 | The handles are those of the binding's samplers, one for one and in order. |
| `DescriptorLayout.WriteVkBindingBuilderAsWritten` | bort-vk/src/descriptor_layout.rs:197-210 | As written, binding, type, count and stages are copied into the Vulkan binding. |
| `DescriptorLayout.WriteAsWrittenDropsSamplers` | bort-vk/src/descriptor_layout.rs:202 | As written, no sampler is ever attached: a binding holding the sampler `[7]` reaches the driver with a null sampler pointer. |
| `DescriptorLayout.WriteVkBindingBuilder` | bort-vk/src/descriptor_layout.rs:197-210 | Corrected: the sampler pointer is null exactly when there are no samplers, and otherwise holds the given handles. |
| `DescriptorLayout.WriteAttachesSamplers` | bort-vk/src/descriptor_layout.rs:197-210 | With the corrected writer the driver reads back exactly the handles given. |
| `DescriptorLayout.FromVkBinding` | bort-vk/src/descriptor_layout.rs:187-195 | Decoding copies binding, type, count and stages and yields no samplers. |
| `DescriptorLayout.BindingRoundTrip` | bort-vk/src/descriptor_layout.rs:187-210 | With the written encoder and with the corrected one alike, a binding survives encoding and decoding exactly when it holds no samplers. |
| `DescriptorLayout.NewDefault` | bort-vk/src/descriptor_layout.rs:110-115 | The default layout has empty flags and the given bindings. |
| `DescriptorLayout.LayoutBindingsOf` | bort-vk/src/descriptor_layout.rs:129-149 | Encoded binding `i` is binding `i` given to the encoder as written, with the handles of its own samplers. |
| `DescriptorLayout.LayoutBindingsAttachNoSamplers` | bort-vk/src/descriptor_layout.rs:129-149 | As written, no encoded binding of a layout attaches a sampler, whatever its samplers. |
| `DescriptorLayout.LayoutBindingsOfCorrected` | bort-vk/src/descriptor_layout.rs:129-149 | Corrected: the same bindings with the corrected encoder; they decode to what the written ones decode to. |
| `DescriptorLayout.CorrectedLayoutBindingsAttachSamplers` | bort-vk/src/descriptor_layout.rs:129-149 | Corrected: encoded binding `i` attaches exactly the handles of binding `i`'s samplers. |
| `DescriptorLayout.VkLayoutBindings` | bort-vk/src/descriptor_layout.rs:129-149 | The caller's sampler vector ends up holding one handle list per binding in order, and the two loops return `LayoutBindingsOf`. |
| `DescriptorLayout.WriteCreateInfoBuilder` | bort-vk/src/descriptor_layout.rs:117-123 | The create info keeps the flags and the given encoded bindings, counted with ash's slice count. |
| `DescriptorLayout.BindingsOf` | bort-vk/src/descriptor_layout.rs:151-163 | Decoded binding `i` is the decoding of encoded binding `i`. |
| `DescriptorLayout.FromCreateInfoBuilder` | bort-vk/src/descriptor_layout.rs:151-163 | The push loop decodes exactly the counted bindings, in order, and keeps the flags. |
| `DescriptorLayout.PropertiesRoundTrip` | bort-vk/src/descriptor_layout.rs:117-163 | Layout properties survive their create info exactly when no binding holds a sampler. |
| `DescriptorLayout.New` | bort-vk/src/descriptor_layout.rs:17-41 | The create info holds `LayoutBindingsOf` the properties, so no sampler reaches the driver; the layout keeps its properties; a driver error builds no layout. |
| `DescriptorLayout.NewFromCreateInfo` | bort-vk/src/descriptor_layout.rs:45-63 | The layout keeps the decoding of the create info. |
| `DescriptorLayout.LegacyBindingBuilder` | src/descriptor_layout.rs:108-114 | The older binding encoder copies the four fields and attaches no samplers. |
| `DescriptorLayout.LegacyBindingsVk` | src/descriptor_layout.rs:86-96 | Encoded older binding `i` is the encoding of binding `i`. |
| `DescriptorLayout.LegacyLayoutProperties.New` | src/descriptor_layout.rs:78-84 | New older properties have empty flags, the given bindings and nothing encoded yet. |
| `DescriptorLayout.LegacyLayoutProperties.CreateInfoBuilder` | src/descriptor_layout.rs:86-96 | `bindings_vk` is rewritten with every binding's encoding, and the create info points at it; nothing else changes. |
| `DescriptorLayout.LegacyCreateInfoDecodes` | src/descriptor_layout.rs:86-114 | The newer decoder reads back each older binding's four fields in order from the older create info. |
| `DescriptorLayout.LegacyNew` | src/descriptor_layout.rs:18-34 | The older `new` encodes the properties in place, then sends a create info holding their flags and the counted encoded bindings; a driver error is passed through. |
| `DescriptorPool.NewDefault` | bort-vk/src/descriptor_pool.rs:141-147 | The default pool has empty flags, the given pool sizes and the given set limit. |
| `DescriptorPool.CreateInfo` | bort-vk/src/descriptor_pool.rs:149-161 | The create info carries flags, max sets and the pool sizes. |
| `DescriptorPool.FromCreateInfo` | bort-vk/src/descriptor_pool.rs:163-175 | The push loop reads back flags, max sets and exactly the counted pool sizes, in order. |
| `DescriptorPool.RoundTrip` | bort-vk/src/descriptor_pool.rs:149-175 | Any pool properties with fewer than 2^32 sizes decode back from their create info unchanged. |
| `DescriptorPool.New` | bort-vk/src/descriptor_pool.rs:17-31 | The pool keeps the properties it was created from; a driver error builds no pool. |
| `DescriptorPool.NewFromCreateInfo` | bort-vk/src/descriptor_pool.rs:35-52 | The pool keeps the decoding of the create info. |
| `DescriptorPool.AllocateInfo` | bort-vk/src/descriptor_pool.rs:54-95 | The allocate info names this pool and the layouts' handles in order. |
| `DescriptorPool.AllocateDescriptorSet` | bort-vk/src/descriptor_pool.rs:54-67 | A single allocation requests one set for the one layout and wraps the driver's first handle. |
| `DescriptorPool.AllocateDescriptorSets` | bort-vk/src/descriptor_pool.rs:69-95 | The index loop pairs handle `i` with layout `i`, every set tied to this pool; a driver error yields no sets. |
| `DescriptorPool.AllocateOneAgrees` | bort-vk/src/descriptor_pool.rs:54-95 | Allocating one set through the batch call gives the same set as the single allocator. |
| `Device.PushNext` | bort-vk/src/device.rs:121-123 | ash's `push_next` puts the new struct right after the root, ahead of everything chained before. |
| `Device.FeatureChain` | bort-vk/src/device.rs:104-119 | At most four structs, the last being `features2` with the 1.0 features; for the older crate no 1.3 struct; never a caller struct. |
| `Device.FeatureChainGates` | bort-vk/src/device.rs:104-119 | The feature chain is empty exactly at 1.0 or below and starts with `features2` exactly above it; the 1.1 and 1.2 structs follow the version, and the 1.3 struct needs both the caller's request and version 1.3; no caller struct is in it. |
| `Device.CallerChain` | bort-vk/src/device.rs:121-123 | After the loop, the driver walks the caller's structs in reverse order of the list. |
| `Device.ChainFeatures` | bort-vk/src/device.rs:104-119 | `enabled_features` is set to the 1.0 features exactly at 1.0 or below; the feature chain is put ahead of the existing chain, and queues and names stay as given. |
| `Device.BuildCreateInfo` | bort-vk/src/device.rs:70-132 | The driver walks the caller's structs in reverse order and then the version-gated feature chain; `enabled_features` is set only at 1.0 or below, and queues and names are as given. |
| `Device.CallerStructsChainedOnceAfterFeatures` | bort-vk/src/device.rs:121-123 | Each caller struct appears in the chain exactly as often as it appears in the caller's list. |
| `Device.Device.NewFromCreateInfo` | bort-vk/src/device.rs:136-159 | The create info is sent once; a driver failure becomes `Creation` and success keeps the handle, the physical device and the debug callback. |
| `Device.Device.NewWithPNextChain` | bort-vk/src/device.rs:70-132 | The device is created from `BuildCreateInfo` of its arguments. |
| `Device.Device.New` | bort-vk/src/device.rs:35-58 | `new` is the chained constructor with no caller structs: it keeps the physical device, the names and the debug callback, and sends the queues, the names, the 1.0 features up to Vulkan 1.0 and otherwise the version-gated feature chain. |
| `Device.Device.SetDebugCallbackRef` | bort-vk/src/device.rs:164-166 | Only the held debug callback changes. |
| `Device.Device.WaitIdle` | bort-vk/src/device.rs:169-172 | One wait is issued; its failure is mapped to `WaitIdle` and the state is unchanged. |
| `Device.Device.Drop` | bort-vk/src/device.rs:246-253 | Drop panics exactly when the wait fails; otherwise the device is destroyed, and only after the wait. |
| `Device.LegacyNew` | src/device.rs:19-69 | Extension-name conversion errors come first, then layer-name errors, then `Creation`; the 1.3 feature struct is never chained. |
| `Framebuffer.NewDefault` | bort-vk/src/framebuffer.rs:125-134 | Default properties have empty flags and the given attachments and dimensions. |
| `Framebuffer.VkAttachmentImageViewHandles` | bort-vk/src/framebuffer.rs:151-156 | Handle `i` is attachment `i`'s view handle. |
| `Framebuffer.WriteCreateInfo` | bort-vk/src/framebuffer.rs:136-149 | The create info holds the flags, the render pass handle, the given view handles, and the dimensions' width, height and layer count. |
| `Framebuffer.FromCreateInfo` | bort-vk/src/framebuffer.rs:159-166 | Decoding yields a 2-D array of the stored size and no attachments. |
| `Framebuffer.RoundTrip` | bort-vk/src/framebuffer.rs:136-166 | Properties survive their create info exactly when they have no attachments and 2-D dimensions. |
| `Framebuffer.RoundTripKeepsExtent` | bort-vk/src/framebuffer.rs:136-166 | Flags, width, height and layer count always survive. |
| `Framebuffer.ThreeDimensionalDoesNotRoundTrip` | bort-vk/src/framebuffer.rs:159-166 | A 4x4x4 framebuffer decodes as 4x4 with one layer. |
| `Framebuffer.CreateInfoRoundTrip` | bort-vk/src/framebuffer.rs:136-166 | For its own render pass, a create info is rebuilt exactly when it has no attachments. |
| `Framebuffer.New` | bort-vk/src/framebuffer.rs:20-40 | The create info holds the attachments' handles; the framebuffer keeps the given properties; a driver error builds none. |
| `Framebuffer.NewFromCreateInfo` | bort-vk/src/framebuffer.rs:47-65 | The framebuffer keeps the decoded properties, without attachments, and the given render pass. |
| `Framebuffer.WholeRect` | bort-vk/src/framebuffer.rs:67-75 | The rectangle starts at (0, 0) and spans the framebuffer's width and height. |
| `Framebuffer.WholeRectMatchesCreateInfo` | bort-vk/src/framebuffer.rs:20-75 | The whole rect's extent is the width and height the create info was given. |
| `Image.NewDefault` | bort-vk/src/image.rs:225-236 | Only format, dimensions and usage differ from the default image properties, whose initial layout is `UNDEFINED`. |
| `Image.DefaultProperties` | bort-vk/src/image.rs:193-210 | One mip level, one sample, optimal tiling, exclusive sharing, no queue families, undefined layout, no flags, and placeholder format, dimensions and usage. |
| `Image.LegacyGeneralDefaultProperties` | src/image_properties.rs:46-63 | The same values as bort-vk's default except the `GENERAL` initial layout. |
| `Image.LegacyNewDefault` | src/image.rs:203-216 | The older default takes the given format, dimensions, usage and initial layout, and every other setting is the default. |
| `Image.LegacyGeneralNewDefault` | src/image_properties.rs:66-79 | The image_properties.rs default takes the given format, dimensions, usage and initial layout, and every other setting is the default. |
| `Image.AspectMaskFromFormat` | bort-vk/src/image.rs:510-549 | `COLOR` is set exactly for non-depth/stencil formats; `DEPTH` and `STENCIL` are set exactly for the formats with those components. |
| `Image.ColorExcludesDepthStencil` | bort-vk/src/image.rs:510-549 | No format gets both a colour and a depth or stencil aspect, and every format gets one of them. |
| `Image.StencilOnlyFormat` | bort-vk/src/image.rs:510-549 | `S8_UINT` yields only the stencil aspect, `D32_SFLOAT` only the depth aspect, and the combined formats both. |
| `Image.SubresourceRangeOf` | bort-vk/src/image.rs:213-222 | The range covers every mip level and every layer, with the format's aspect mask. |
| `Image.CreateInfoBuilder` | bort-vk/src/image.rs:238-252 | Image type, extent and layer count come from the dimensions, and the queue families are attached with ash's slice count. |
| `Image.FromCreateInfoBuilder` | bort-vk/src/image.rs:254-276 | The push loop reads back exactly the counted queue family indices; the dimensions come from type, extent and layers. |
| `Image.RoundTrip` | bort-vk/src/image.rs:238-276 | Properties with fewer than 2^32 families survive their create info exactly when their dimensions are canonical. |
| `Image.NewImage` | bort-vk/src/image.rs:24-42 | The allocator receives `create_info_builder` of the properties; the image keeps the given properties and the allocation; an allocator error builds none. |
| `Image.NewImageFromCreateInfo` | bort-vk/src/image.rs:44-65 | The image keeps the decoding of the create info and the allocation; an allocator error builds none. |
| `Image.NewFromCreateInfoAgreesWithNew` | bort-vk/src/image.rs:24-65 | Creating from the create info `new` sends stores the same image exactly when the dimensions are canonical. |
| `Image.TransientImageInfo` | bort-vk/src/image.rs:155-174 | The usage is transient attachment together with the extra usage; device-local memory is required and lazily allocated memory is preferred. |
| `Image.LegacyGeneralTransientImageInfo` | src/image_properties.rs:7-27 | The older variant requires both lazily allocated and device-local memory. |
| `Image.TransientUsageAlwaysSet` | bort-vk/src/image.rs:155-174 | The transient-attachment usage is always set, and the requested usage bits are all kept. |
| `Image.GuaranteedDepthStencilFormat` | bort-vk/src/image.rs:456-475 | `D24_UNORM_S8_UINT` is chosen exactly when its features support a depth-stencil attachment; the format chosen always has both depth and stencil. |
| `Image.GuaranteedPureDepthFormat` | bort-vk/src/image.rs:484-500 | `D32_SFLOAT` is chosen exactly when it supports a depth-stencil attachment; the format chosen always has depth and no stencil. |
| `Image.Extent2dFromWidthHeight` | bort-vk/src/image.rs:502-507 | The extent has the pair's width and height. |
| `Dimensions.ImageDimensions.NumTexels` | bort-vk/src/image_dimensions.rs:122-124 | Texel count is width x height x depth x layers for each kind, when that product fits in a u32. |
| `Dimensions.ImageDimensions.ImageType` | bort-vk/src/image_dimensions.rs:126-132 | The image type is 1-D, 2-D or 3-D exactly for that kind of dimensions. |
| `Dimensions.ImageDimensions.DefaultImageViewType` | bort-vk/src/image_dimensions.rs:134-146 | The view type is the array kind exactly when there is more than one layer, and 3-D for 3-D. |
| `Dimensions.DefaultDimensions` | bort-vk/src/image_dimensions.rs:160-167 | The default is a 1-D image of extent 1x1x1 with one layer. |
| `Dimensions.New1d` | bort-vk/src/image_dimensions.rs:40-45 | A 1-D image of the given width, with height and depth 1 and one layer. |
| `Dimensions.New1dArray` | bort-vk/src/image_dimensions.rs:47-52 | A 1-D image of the given width and layer count. |
| `Dimensions.New2d` | bort-vk/src/image_dimensions.rs:54-60 | A 2-D image of the given width and height, depth 1 and one layer. |
| `Dimensions.New2dArray` | bort-vk/src/image_dimensions.rs:62-68 | A 2-D image of the given width, height and layer count. |
| `Dimensions.New3d` | bort-vk/src/image_dimensions.rs:70-76 | A 3-D image of the given extent with one layer. |
| `Dimensions.NewFromExtentAndLayers` | bort-vk/src/image_dimensions.rs:22-38 | Several layers give a 1-D or 2-D array and drop the depth; one layer gives 1-D, 2-D or 3-D by which extents exceed 1. |
| `Dimensions.RoundTrip` | bort-vk/src/image_dimensions.rs:22-120 | Rebuilding dimensions from their extent and layer count gives them back exactly when they are canonical. |
| `Dimensions.NewFromExtentIsCanonical` | bort-vk/src/image_dimensions.rs:22-38 | Whatever extent and layer count go in, the dimensions that come out are canonical. |
| `ImageView.DefaultSubresourceRange` | bort-vk/src/image_view.rs:183-191 | The default range is mip level 0 and layer 0 only, with the given aspect. |
| `ImageView.DefaultSubresourceLayers` | bort-vk/src/image_view.rs:193-200 | The default layers are mip level 0 and the first layer only. |
| `ImageView.DefaultProperties` | bort-vk/src/image_view.rs:115-127 | The default view has identity mapping, no flags and a single colour subresource. |
| `ImageView.FromImagePropertiesDefault` | bort-vk/src/image_view.rs:130-141 | A view of an image has the image's format, its default view type and all its layers. |
| `ImageView.FromImageCoversAllLayers` | bort-vk/src/image_view.rs:130-141 | For a 2-D image, the view covers every layer, and is an array view exactly when there are several. |
| `ImageView.CreateInfoBuilder` | bort-vk/src/image_view.rs:143-159 | The create info names the given image; the round-trip lemmas below carry the other fields. |
| `ImageView.FromCreateInfoBuilder` | bort-vk/src/image_view.rs:161-169 | Writing the decoded properties back with the create info's image gives that create info. |
| `ImageView.RoundTrip` | bort-vk/src/image_view.rs:143-169 | Any view properties survive their create info, whatever the image. |
| `ImageView.CreateInfoRoundTrip` | bort-vk/src/image_view.rs:143-169 | Decoding loses only the image handle: writing back with that handle restores the create info. |
| `ImageView.NewImageView` | bort-vk/src/image_view.rs:23-38 | The create info sent is `create_info_builder` for this image; the view keeps the given properties and image; a driver error builds none. |
| `ImageView.NewImageViewFromCreateInfo` | bort-vk/src/image_view.rs:42-60 | The view keeps the decoding of the caller's create info and the given image; a driver error builds none. |
| `ImageView.NewFromCreateInfoAgrees` | bort-vk/src/image_view.rs:23-60 | Creating from the create info `new` sends gives the view `new` gives. |
| `Instance.LessIsStrictTotalOrder` | bort-vk/src/instance.rs:21-27 | The derived version order compares major then minor, and is total, asymmetric and transitive. |
| `Instance.ApiVersionOrdering` | bort-vk/src/instance.rs:404-407 | Version 1.1 comes before 1.2, as the crate's test asserts. |
| `Instance.ApiVersionMajor` | bort-vk/src/instance.rs:129-137 | The major number decoded from a packed version is below 128. |
| `Instance.ApiVersionMinor` | bort-vk/src/instance.rs:129-137 | The minor number decoded from a packed version is below 1024. |
| `Instance.AsVkUint` | bort-vk/src/instance.rs:35-37 | A version whose major is below 128 and minor below 1024 is packed as major x 2^22 + minor x 2^12, with variant and patch 0. |
| `Instance.AsVkUintRoundTrip` | bort-vk/src/instance.rs:35-37 | Decoding a packed version gives it back for every version the fields can hold. |
| `Instance.AsVkUintMonotone` | bort-vk/src/instance.rs:35-37 | Packing keeps the version order, so the driver's integer comparison agrees with the crate's. |
| `Instance.AsVkUintTruncatesMajor` | bort-vk/src/instance.rs:35-37 | A major number of 128 or more is cut off: 128.0 reads back as 0.0. |
| `Instance.AsVkUintMinorOverflowMeetsMajor` | bort-vk/src/instance.rs:35-37 | A minor number of 1024 is ORed into the major field: 1.1024 packs to the same word as 1.0. |
| `Instance.MakeApiVersionPacks` | bort-vk/src/instance.rs:35-37 | `make_api_version` ORs the shifted fields; with variant and patch 0 and fields that fit, the bits do not meet, so the word is major x 2^22 + minor x 2^12. |
| `Instance.ExtensionNameIsInPropertiesList` | bort-vk/src/instance.rs:192-201 | This is true exactly when some property entry has this name. |
| `Instance.Unsupported` | bort-vk/src/instance.rs:162-176 | Every name returned is requested and missing from the list, every missing requested name is returned, and no more names come back than were requested. |
| `Instance.UnsupportedAppend` | bort-vk/src/instance.rs:162-176 | Filtering distributes over concatenation, so order is kept. |
| `Instance.UnsupportedKeepsExactlyTheMissing` | bort-vk/src/instance.rs:162-176 | When every name is listed nothing is returned, and when none is listed every requested name is. |
| `Instance.AnyUnsupportedExtensions` | bort-vk/src/instance.rs:162-176 | A failed enumeration is returned as is; otherwise a name is returned exactly when it is requested and the loader lacks it. |
| `Instance.InstanceSupportsExtension` | bort-vk/src/instance.rs:179-189 | An extension is supported exactly when the enumeration succeeds and lists it. |
| `Instance.FeaturesIfSupported` | bort-vk/src/instance.rs:234-288 | A feature set is the driver's answer when the instance version reaches its version, and none otherwise. |
| `Instance.PhysicalDeviceFeaturesFor` | bort-vk/src/instance.rs:204-220 | Each gated feature set is populated exactly when its gate is open, and left at its default otherwise. |
| `Instance.FeatureGatesNest` | bort-vk/src/instance.rs:204-288 | A newer feature set is only populated when every older one is. |
| `Instance.RequiredSurfaceExtensions` | bort-vk/src/instance.rs:304-317 | An unsupported window system gives `UnsupportedRawDisplayHandle`; otherwise the list has two names, `VK_KHR_surface` first, with the Metal extension for AppKit and UiKit. |
| `Instance.CreateInfoFor` | bort-vk/src/instance.rs:85-115 | The application info carries the packed version, and the layer and extension names are as given. |
| `Instance.New` | bort-vk/src/instance.rs:85-115 | No support check is made; success keeps the version and both name lists as passed, and a driver error becomes `Creation`. |
| `Instance.DecodeMaxApiVersion` | bort-vk/src/instance.rs:129-137 | The version is decoded from the application info, and is 0.0 when there is none. |
| `Instance.NewFromCreateInfo` | bort-vk/src/instance.rs:119-146 | The instance keeps the version and names read from the caller's create info. |
| `Instance.NewFromCreateInfoAgreesWithNew` | bort-vk/src/instance.rs:85-146 | For every packable version, creating from `new`'s create info gives the same instance. |
| `Instance.NewWithDisplayExtensions` | bort-vk/src/instance.rs:56-82 | An unsupported display is an error and a failed enumeration is `Creation`; missing names give `ExtensionsNotPresent` before any creation; otherwise it is `new` with the caller's extensions followed by the display's. |
| `Instance.LegacyInstanceNew` | src/instance.rs:36-92 | Name errors come in order: application name, then layer names, then extension names, before any call; the layers get the validation layer and the extensions get the display's names and then debug utils when validation is on; the version is packed and a driver error is `LegacyCreation`. |
| `Instance.LegacyValidationLayerIffEnabled` | src/instance.rs:71-78 | When the caller did not name the validation layer, it is requested exactly when validation is on. |
| `Memory.FindFrom` | src/memory.rs:44-57 | The index found is the first at or after `from` that is allowed and has the flags; none exactly when there is no such index. |
| `Memory.FindMemorytypeIndex` | src/memory.rs:44-57 | The result is the smallest index below `memory_type_count` that `memory_type_bits` allows and whose flags contain the requested ones. |
| `Memory.EmptyFlagsPicksLowestAllowedBit` | src/memory.rs:44-57 | With no required flags the answer is the lowest set bit of `memory_type_bits` below the count. |
| `Memory.FewerFlagsFindNoLater` | src/memory.rs:44-57 | Asking for a subset of the flags never finds a later type. |
| `MemoryAllocation.AllocationInfoFromFlags` | bort-vk/src/memory_allocation.rs:216-225 | Only the required and preferred flags differ from the default allocation info. |
| `MemoryAllocation.AllocationInfoCpuAccessible` | bort-vk/src/memory_allocation.rs:229-235 | Host-visible memory is required and host-coherent memory is preferred. |
| `MemoryAllocation.Overwrite` | bort-vk/src/memory_allocation.rs:71 | The bytes before the offset and after the data are kept, and the data lies in between. |
| `MemoryAllocation.Concat` | bort-vk/src/memory_allocation.rs:93-95 | The length is the total of the items' lengths. |
| `MemoryAllocation.ConcatLayout` | bort-vk/src/memory_allocation.rs:106-115 | Element `k` starts `k * itemSize` bytes in. |
| `MemoryAllocation.OverwriteTwice` | bort-vk/src/memory_allocation.rs:109-114 | Writing `a` and then `b` right after it is the same as writing `a + b`. |
| `MemoryAllocation.Allocation.CopyIn` | bort-vk/src/memory_allocation.rs:71 | The mapped bytes are overwritten at the offset and nothing else changes. |
| `MemoryAllocation.Allocation.WriteStruct` | bort-vk/src/memory_allocation.rs:52-78 | A range past the end gives `AccessDataSize` and changes nothing; a map error gives `Mapping` with only the map call made; otherwise the bytes are overwritten, then mapped, flushed over the written range and unmapped, and the flush result is returned. |
| `MemoryAllocation.Allocation.WriteIter` | bort-vk/src/memory_allocation.rs:84-122 | Consecutive items land at consecutive offsets under the same size, map, flush and unmap rules. |
| `MemoryAllocation.Allocation.WriteItems` | bort-vk/src/memory_allocation.rs:109-114 | The loop leaves the memory equal to the items' concatenation written at the offset. |
| `MemoryAllocation.Allocation.ReadStruct` | bort-vk/src/memory_allocation.rs:128-148 | The value read is the `size` bytes at the offset; memory contents are unchanged and the mapping is released. |
| `MemoryAllocation.Allocation.FlushBortVk` | bort-vk/src/memory_allocation.rs:166-175 | The allocator is always asked to flush, whatever the memory type. |
| `MemoryAllocation.Allocation.LegacyFlush` | src/memory_allocation.rs:131-148 | Host-coherent memory makes no call and succeeds; other memory is flushed over the whole size. |
| `MemoryAllocation.Allocation.LegacyWriteStruct` | src/memory_allocation.rs:49-75 | The older write gives `WriteDataSize` on overflow and otherwise writes in the same way as bort-vk; host-coherent memory succeeds whatever a flush would return. |
| `MemoryAllocation.Allocation.LegacyWriteIter` | src/memory_allocation.rs:78-116 | The older iterator write lays items out consecutively under the same rules, with the coherent-aware flush. |
| `MemoryAllocation.WriteIterLayout` | bort-vk/src/memory_allocation.rs:106-115 | After the write, element `k` occupies the `itemSize` bytes from `offset + k * itemSize`. |
| `MemoryPool.DefaultProperties` | bort-vk/src/memory_pool.rs:128-140 | Every default pool field is zero. |
| `MemoryPool.CreateInfo` | bort-vk/src/memory_pool.rs:143-154 | Every field is copied and no allocate-info chain is attached. |
| `MemoryPool.FromCreateInfo` | bort-vk/src/memory_pool.rs:156-166 | Re-encoding the decoded properties gives the create info without its allocate-info chain. |
| `MemoryPool.RoundTrip` | bort-vk/src/memory_pool.rs:143-166 | Any pool properties survive their create info. |
| `MemoryPool.CreateInfoRoundTrip` | bort-vk/src/memory_pool.rs:143-166 | A create info is rebuilt from its decoding exactly when it has no chain. |
| `MemoryPool.ChainedCreateInfo` | bort-vk/src/memory_pool.rs:30-34 | The chain is attached when given, and the create info is otherwise `create_info()`. |
| `MemoryPool.NewWithPnextChain` | bort-vk/src/memory_pool.rs:25-51 | The pool is created from the chained create info and keeps the given properties; an allocator error builds none. |
| `MemoryPool.New` | bort-vk/src/memory_pool.rs:16-21 | `new` is the chained constructor with no chain. |
| `MemoryPool.StoredPropertiesDecode` | bort-vk/src/memory_pool.rs:16-51 | A pool's properties are what its create info decodes to, chained or not. |
| `PhysicalDevice.New` | bort-vk/src/physical_device.rs:26-69 | The device name is converted first, then the extensions are enumerated; each error is mapped and stops construction. |
| `PhysicalDevice.LegacyExtensionPropertiesNew` | src/physical_device.rs:139-145 | The older extension entry converts its name and maps a failure to the device error. |
| `PhysicalDevice.LegacyNew` | src/physical_device.rs:23-69 | The older constructor also converts every extension name and fails on the first one that fails. |
| `PhysicalDevice.DeviceVersion` | bort-vk/src/physical_device.rs:71-81 | The reported version is packable and has the major and minor numbers of the packed properties field. |
| `PhysicalDevice.SupportsMinApiVerAsWritten` | bort-vk/src/physical_device.rs:71-81 | As written, a device passes exactly when its major and its minor are each at least the requested ones. |
| `PhysicalDevice.SupportsMinApiVerCounterexample` | bort-vk/src/physical_device.rs:71-81 | As written, a 2.0 device fails a 1.3 request. |
| `PhysicalDevice.SupportsMinApiVer` | bort-vk/src/physical_device.rs:71-81 | Corrected: a device passes exactly when its version is not before the requested one. |
| `PhysicalDevice.AsWrittenIsStricter` | bort-vk/src/physical_device.rs:71-81 | The written test accepts no device the corrected one rejects, and the two disagree only when the device's major is above the requested one and its minor below. |
| `PhysicalDevice.SupportsMinApiVerComparesPacked` | bort-vk/src/physical_device.rs:71-81 | For packed versions, the corrected test is the driver's integer comparison. |
| `PhysicalDevice.SupportsExtension` | bort-vk/src/physical_device.rs:89-93 | This is true exactly when some device extension has this name. |
| `PhysicalDevice.AnyUnsupportedExtensions` | bort-vk/src/physical_device.rs:84-87 | A name is returned exactly when it is requested and the device lacks it. |
| `PhysicalDevice.LegacySupportsExtensions` | src/physical_device.rs:83-92 | This is true exactly when every requested name is supported, so an empty request is. |
| `PhysicalDevice.SupportsExtensionsIffNoneUnsupported` | bort-vk/src/physical_device.rs:84-93 | All names are supported exactly when none is unsupported. |
| `PipelineGraphics.DefaultProperties` | bort-vk/src/pipeline_graphics.rs:258-275 | Default properties have no flags, subpass 0, a triangle list, no culling, one sample and depth compare `ALWAYS`. |
| `PipelineGraphics.VkCreateInfos` | bort-vk/src/pipeline_graphics.rs:308-321 | Each sub-state create info is that state's own encoding; the depth-stencil one is written as in the source, its stencil flag taken from depth bounds. |
| `PipelineGraphics.VkCreateInfosCorrected` | bort-vk/src/pipeline_graphics.rs:308-321 | Corrected: only the depth-stencil create info differs, written by the corrected writer. |
| `PipelineGraphics.LegacyVkCreateInfos` | src/pipeline_graphics.rs:238-251 | Overwriting a default set member by member ends at the same create infos as bort-vk's. |
| `PipelineGraphics.WriteCreateInfo` | bort-vk/src/pipeline_graphics.rs:286-304 | Flags, subpass and the nine sub-state pointers are written; stages, layout, render pass and base pipeline stay as given. |
| `PipelineGraphics.FromCreateInfoPtr` | bort-vk/src/pipeline_graphics.rs:244-257 | A null pointer gives the default state, and otherwise the state is decoded from the pointer. |
| `PipelineGraphics.FromCreateInfo` | bort-vk/src/pipeline_graphics.rs:340-389 | Each sub-state is decoded by its own copying decoder, and flags and subpass are read back. |
| `PipelineGraphics.NullStatesDecodeToDefault` | bort-vk/src/pipeline_graphics.rs:340-389 | A create info with every sub-state pointer null decodes to the default properties. |
| `PipelineGraphics.PropertiesRoundTrip` | bort-vk/src/pipeline_graphics.rs:286-389 | For lists under 2^32 and decodable sample masks, properties written into any create info decode back with the stencil-test flag replaced by the depth-bounds flag, so unchanged exactly when the two agree. |
| `PipelineGraphics.StencilFromDepthBounds` | bort-vk/src/pipeline_graphics.rs:540 | Only the stencil-test flag changes, to the depth-bounds flag; nothing changes exactly when the two already agree. |
| `PipelineGraphics.CorrectedPropertiesRoundTrip` | bort-vk/src/pipeline_graphics.rs:286-389 | Corrected: with the corrected depth-stencil writer such properties decode back unchanged. |
| `PipelineGraphics.GraphicsPipelineObject.BindPoint` | bort-vk/src/pipeline_graphics.rs:205-207 | A graphics pipeline binds at the graphics bind point. |
| `PipelineGraphics.CacheHandle` | bort-vk/src/pipeline_graphics.rs:45-49 | The cache handle is the cache's when one is given, and null otherwise. |
| `PipelineGraphics.StageCreateInfos` | bort-vk/src/pipeline_graphics.rs:29-32 | Stage create info `i` is stage `i`'s. |
| `PipelineGraphics.PipelineCreateInfo` | bort-vk/src/pipeline_graphics.rs:34-43 | The properties are written into a default create info, followed by the stages, the render pass and the layout. |
| `PipelineGraphics.PipelineCreateInfoDecodes` | bort-vk/src/pipeline_graphics.rs:21-66 | The create info `new` sends decodes to its properties with the stencil-test flag taken from depth bounds, so to those very properties exactly when the two flags agree. |
| `PipelineGraphics.New` | bort-vk/src/pipeline_graphics.rs:21-66 | One create info is sent; the first handle returned becomes the pipeline, and the driver's error code is passed through. |
| `PipelineGraphics.NewFromCreateInfo` | bort-vk/src/pipeline_graphics.rs:75-103 | The caller's create info is sent unchanged and the pipeline keeps its decoding. |
| `PipelineGraphics.BatchPropertiesVk` | bort-vk/src/pipeline_graphics.rs:114-120 | Entry `i` is pipeline `i`'s sub-state create infos. |
| `PipelineGraphics.BatchStageInfos` | bort-vk/src/pipeline_graphics.rs:123-132 | Entry `i` is pipeline `i`'s stage create infos. |
| `PipelineGraphics.BatchCreateInfos` | bort-vk/src/pipeline_graphics.rs:135-150 | Create info `i` is assembled from entry `i`'s layout, properties and render pass and entry `i` of the two earlier lists. |
| `PipelineGraphics.BatchPipelines` | bort-vk/src/pipeline_graphics.rs:172-180 | Pipeline `i` wraps handle `i` with entry `i`'s properties and layout. |
| `PipelineGraphics.BatchCreate` | bort-vk/src/pipeline_graphics.rs:106-183 | The batch call names the cache and one create info per entry; it fails exactly when the driver does, and otherwise yields one pipeline per entry. |
| `PipelineGraphics.NewBatchCreate` | bort-vk/src/pipeline_graphics.rs:106-183 | The driver receives one create info per entry, in order, and pipeline `i` pairs handle `i` with entry `i`; an error builds none; result and call are `BatchCreate` of the arguments. |
| `PipelineGraphics.BatchOfOneIsNew` | bort-vk/src/pipeline_graphics.rs:21-183 | A batch of one sends exactly the call `new` sends, and yields the one pipeline `new` yields or the same driver error. |
| `PipelineLayout.SetLayoutHandles` | bort-vk/src/pipeline_layout.rs:86-91 | Handle `i` is set layout `i`'s handle. |
| `PipelineLayout.PipelineLayoutProperties.New` | bort-vk/src/pipeline_layout.rs:74-84 | New properties have empty flags, the given layouts and ranges, and no handles collected yet. |
| `PipelineLayout.PipelineLayoutProperties.CreateInfoBuilder` | bort-vk/src/pipeline_layout.rs:86-97 | `set_layouts_vk` becomes the layouts' handles, the create info points at it and at the ranges, and nothing else changes. |
| `PipelineLayout.CreateInfoReadsBack` | bort-vk/src/pipeline_layout.rs:86-97 | Reading the create info back gives the layouts' handles and the push-constant ranges in order. |
| `PipelineLayout.SetLayoutHandlesDeterminedBySetLayouts` | bort-vk/src/pipeline_layout.rs:86-91 | Two layout lists with equal handles give the same handle array. |
| `PipelineLayout.New` | bort-vk/src/pipeline_layout.rs:17-29 | The properties collect their handles; the create info holds the flags, the counted handles and the counted push-constant ranges; the layout keeps the properties; a driver error builds none. |
| `PipelineStates.DefaultColorBlendState` | bort-vk/src/pipeline_graphics.rs:402-411 | The default colour blend has no logic op and no attachments. |
| `PipelineStates.ColorBlendNewDefault` | bort-vk/src/pipeline_graphics.rs:413-418 | Only the attachments differ from the default. |
| `PipelineStates.ColorBlendWrite` | bort-vk/src/pipeline_graphics.rs:420-430 | A logic op is enabled exactly when one is set, with `CLEAR` stored otherwise; the attachments are counted with ash's slice count. |
| `PipelineStates.ColorBlendFromCreateInfo` | bort-vk/src/pipeline_graphics.rs:477-496 | The push loop returns the decoding `ColorBlendOf` of the create info: exactly the counted attachments, and the logic op only when enabled. |
| `PipelineStates.ColorBlendRoundTrip` | bort-vk/src/pipeline_graphics.rs:420-496 | Any colour-blend state with fewer than 2^32 attachments survives its create info, the logic op included. |
| `PipelineStates.BlendStateDisabled` | bort-vk/src/pipeline_graphics.rs:438-443 | Blending is off and all four channels are written. |
| `PipelineStates.BlendStateIgnoreSourceAsWritten` | bort-vk/src/pipeline_graphics.rs:447-458 | As written, blending is on, all channels are written and the destination colour factor is `ZERO`. |
| `PipelineStates.BlendStateIgnoreSource` | bort-vk/src/pipeline_graphics.rs:447-458 | Corrected: the preset differs from the written one only in the destination colour factor and the two alpha factors. |
| `PipelineStates.BlendStateAdditive` | bort-vk/src/pipeline_graphics.rs:462-473 | Blending is on and all four channels are written. |
| `PipelineStates.LegacyBlendStateAlphaAsWritten` | src/pipeline_graphics.rs:324-336 | As written, blending is on and the destination colour factor equals the source one. |
| `PipelineStates.LegacyBlendStateAlpha` | src/pipeline_graphics.rs:324-336 | Corrected: the preset differs from the written one only in the destination colour factor and the source alpha factor. |
| `PipelineStates.BlendStateDisabledWritesSource` | bort-vk/src/pipeline_graphics.rs:438-443 | With blending disabled the fragment colour is written as it is. |
| `PipelineStates.BlendStateAdditiveAddsColours` | bort-vk/src/pipeline_graphics.rs:462-473 | The colours are added and the alpha is the larger of the two. |
| `PipelineStates.IgnoreSourceAsWrittenClearsDestination` | bort-vk/src/pipeline_graphics.rs:447-458 | As written, the preset sets the colour channels to zero rather than keeping the destination. |
| `PipelineStates.IgnoreSourceKeepsDestination` | bort-vk/src/pipeline_graphics.rs:447-458 | Corrected: every fragment leaves the destination exactly as it was. |
| `PipelineStates.LegacyAlphaAsWrittenAddsDestination` | src/pipeline_graphics.rs:324-336 | As written, an opaque red fragment over green gives yellow. |
| `PipelineStates.LegacyAlphaMergesBySourceAlpha` | src/pipeline_graphics.rs:324-336 | Corrected: each colour channel is mixed by the source alpha, so an opaque fragment replaces the destination. |
| `PipelineStates.DefaultDepthStencilState` | bort-vk/src/pipeline_graphics.rs:513-528 | By default every test is off and the compare op is `ALWAYS`. |
| `PipelineStates.DepthStencilWriteAsWritten` | bort-vk/src/pipeline_graphics.rs:530-545 | As written, the stencil-test flag is taken from `depth_bounds_test_enable`. |
| `PipelineStates.DepthStencilAsWrittenLosesStencilTest` | bort-vk/src/pipeline_graphics.rs:530-566 | As written, a state survives its create info exactly when its stencil and depth-bounds flags agree. |
| `PipelineStates.DepthStencilWrite` | bort-vk/src/pipeline_graphics.rs:530-545 | Corrected: the stencil-test flag comes from its own field, and so does the depth-bounds flag. |
| `PipelineStates.DepthStencilOf` | bort-vk/src/pipeline_graphics.rs:547-566 | Re-encoding the decoding restores the create info exactly when its four flags are proper `Bool32`s; with the written encoder, exactly when its stencil flag also equals its depth-bounds flag. |
| `PipelineStates.DepthStencilRoundTrip` | bort-vk/src/pipeline_graphics.rs:530-566 | With the corrected writer, every depth-stencil state survives its create info. |
| `PipelineStates.DefaultDynamicState` | bort-vk/src/pipeline_graphics.rs:574-581 | By default nothing is dynamic. |
| `PipelineStates.DynamicNewDefault` | bort-vk/src/pipeline_graphics.rs:583-588 | Default flags with the given dynamic states. |
| `PipelineStates.DynamicWrite` | bort-vk/src/pipeline_graphics.rs:590-597 | The dynamic states are attached with ash's slice count. |
| `PipelineStates.DynamicFromCreateInfo` | bort-vk/src/pipeline_graphics.rs:605-616 | The push loop reads back exactly the counted dynamic states. |
| `PipelineStates.DynamicRoundTrip` | bort-vk/src/pipeline_graphics.rs:590-616 | Any dynamic state with fewer than 2^32 entries survives its create info. |
| `PipelineStates.DefaultInputAssemblyState` | bort-vk/src/pipeline_graphics.rs:626-634 | The default is a triangle list without primitive restart. |
| `PipelineStates.InputAssemblyWrite` | bort-vk/src/pipeline_graphics.rs:636-644 | Flags and topology are copied and the restart flag becomes a `Bool32`. |
| `PipelineStates.InputAssemblyOf` | bort-vk/src/pipeline_graphics.rs:646-658 | Re-encoding the decoding restores the create info exactly when its restart flag is a proper `Bool32`. |
| `PipelineStates.InputAssemblyRoundTrip` | bort-vk/src/pipeline_graphics.rs:636-658 | Every input-assembly state survives its create info. |
| `PipelineStates.DefaultMultisampleState` | bort-vk/src/pipeline_graphics.rs:671-683 | The default uses one sample and no sample mask. |
| `PipelineStates.MultisampleWrite` | bort-vk/src/pipeline_graphics.rs:685-697 | An empty sample mask becomes a null pointer; a non-empty one is attached as it is. |
| `PipelineStates.MultisampleOf` | bort-vk/src/pipeline_graphics.rs:707-728 | A null mask decodes as empty; otherwise one word is read, and a second for 64 samples. |
| `PipelineStates.MultisampleRoundTrip` | bort-vk/src/pipeline_graphics.rs:685-728 | For a mask that is empty or at least as long as the sample count needs, the state survives its create info exactly when the mask is empty or exactly that long. |
| `PipelineStates.DefaultRasterizationState` | bort-vk/src/pipeline_graphics.rs:746-762 | By default polygons are filled, with no culling, counter-clockwise front faces and one-wide lines. |
| `PipelineStates.RasterizationWrite` | bort-vk/src/pipeline_graphics.rs:764-780 | The depth-clamp, discard and depth-bias enable flags become the matching `Bool32` values. |
| `PipelineStates.RasterizationOf` | bort-vk/src/pipeline_graphics.rs:782-802 | Re-encoding the decoding restores the create info exactly when its three enable flags are proper `Bool32`s. |
| `PipelineStates.RasterizationRoundTrip` | bort-vk/src/pipeline_graphics.rs:764-802 | Every rasterization state survives its create info. |
| `PipelineStates.DefaultTessellationState` | bort-vk/src/pipeline_graphics.rs:810-817 | By default there are no flags and no patch control points. |
| `PipelineStates.TessellationWrite` | bort-vk/src/pipeline_graphics.rs:819-826 | The patch control points are copied. |
| `PipelineStates.TessellationOf` | bort-vk/src/pipeline_graphics.rs:828-839 | Re-encoding the decoding restores every create info. |
| `PipelineStates.TessellationRoundTrip` | bort-vk/src/pipeline_graphics.rs:819-839 | Every tessellation state survives its create info. |
| `PipelineStates.DefaultVertexInputState` | bort-vk/src/pipeline_graphics.rs:848-856 | By default there are no flags, bindings or attributes. |
| `PipelineStates.VertexInputWrite` | bort-vk/src/pipeline_graphics.rs:858-866 | Both description lists are attached with ash's slice counts. |
| `PipelineStates.VertexInputFromCreateInfo` | bort-vk/src/pipeline_graphics.rs:875-895 | Two push loops read back exactly the counted bindings and attributes. |
| `PipelineStates.VertexInputRoundTrip` | bort-vk/src/pipeline_graphics.rs:858-895 | Any vertex-input state with lists under 2^32 survives its create info. |
| `PipelineStates.DefaultViewportState` | bort-vk/src/pipeline_graphics.rs:905-913 | By default there are no flags, viewports or scissors. |
| `PipelineStates.ViewportNewDynamic` | bort-vk/src/pipeline_graphics.rs:915-921 | The requested number of placeholder viewports and scissors, for states set dynamically. |
| `PipelineStates.ViewportWrite` | bort-vk/src/pipeline_graphics.rs:923-931 | Viewports and scissors are attached with ash's slice counts. |
| `PipelineStates.ViewportFromCreateInfo` | bort-vk/src/pipeline_graphics.rs:940-958 | Two push loops read back exactly the counted viewports and scissors. |
| `PipelineStates.ViewportRoundTrip` | bort-vk/src/pipeline_graphics.rs:923-958 | Any viewport state with lists under 2^32 survives its create info. |
| `RenderPass.NewSubpass` | bort-vk/src/render_pass.rs:168-178 | The subpass holds the given attachment lists and depth attachment. |
| `RenderPass.SubpassDescriptionOf` | bort-vk/src/render_pass.rs:220-235 | The description is always graphics; each non-empty list is attached, and the depth attachment when present (src/render_pass.rs:117-135 builds the same). |
| `RenderPass.SubpassDescriptionBuild` | bort-vk/src/render_pass.rs:220-235 | The conditional reassignments end in `SubpassDescriptionOf`. |
| `RenderPass.FromSubpassDescription` | bort-vk/src/render_pass.rs:186-218 | The guarded push loops read each non-null list with its count, and an empty list for a null pointer. |
| `RenderPass.SubpassRoundTrip` | bort-vk/src/render_pass.rs:186-235 | Every subpass whose lists fit a 32-bit count survives its description. |
| `RenderPass.SubpassesOf` | bort-vk/src/render_pass.rs:126-157 | Decoded subpass `i` comes from description `i`. |
| `RenderPass.PropertiesOf` | bort-vk/src/render_pass.rs:126-157 | The decoded properties hold the attachments, the decoded subpasses and the dependencies. |
| `RenderPass.FromCreateInfo` | bort-vk/src/render_pass.rs:126-157 | The three guarded loops build `PropertiesOf` of the create info. |
| `RenderPass.SubpassDescriptions` | bort-vk/src/render_pass.rs:18-48 | Description `i` is subpass `i`'s. |
| `RenderPass.NewCreateInfo` | bort-vk/src/render_pass.rs:18-48 | The attachments, descriptions and dependencies are attached with ash's slice counts. |
| `RenderPass.NewCreateInfoRoundTrip` | bort-vk/src/render_pass.rs:18-157 | The create info `new` sends decodes to exactly the properties it stores. |
| `RenderPass.New` | bort-vk/src/render_pass.rs:18-48 | One description per subpass goes to the driver, and the render pass keeps its properties; a driver error builds none. |
| `RenderPass.NewFromCreateInfo` | bort-vk/src/render_pass.rs:57-74 | The caller's create info is sent and its decoding is stored. |
| `Sampler.DefaultProperties` | bort-vk/src/sampler.rs:102-119 | The default uses nearest filtering and clamps to the edge on all three axes, with anisotropy and compare off and zero LOD bias and minimum LOD. |
| `Sampler.CreateInfoBuilder` | bort-vk/src/sampler.rs:122-143 | Every property lands in its field; the optional anisotropy and compare op set their enable flags. |
| `Sampler.FromCreateInfoBuilder` | bort-vk/src/sampler.rs:149-176 | A disabled option reads as none, whatever value sits beside it. |
| `Sampler.RoundTrip` | bort-vk/src/sampler.rs:122-176 | Any sampler properties survive their create info. |
| `Sampler.CreateInfoRoundTrip` | bort-vk/src/sampler.rs:122-176 | A create info is restored by decoding then encoding exactly when it is canonical, that is, its disabled options hold the default values. |
| `Sampler.New` | bort-vk/src/sampler.rs:18-30 | The encoded properties go to the driver and the sampler keeps them; a driver error builds none. |
| `Sampler.NewFromCreateInfo` | bort-vk/src/sampler.rs:32-49 | The caller's create info is sent and its decoding kept. |
| `Sampler.NewFromCreateInfoAgreesWithNew` | bort-vk/src/sampler.rs:18-49 | Creating from the encoding of some properties stores those same properties. |
| `ShaderModule.NewShaderStage` | bort-vk/src/shader_module.rs:103-117 | There are no flags, and the specialization info is written exactly when one is given. |
| `ShaderModule.WriteCreateInfo` | bort-vk/src/shader_module.rs:119-133 | Stage, module and entry point are written, and the specialization info only when flagged. |
| `ShaderModule.NewThenWrite` | bort-vk/src/shader_module.rs:103-133 | The optional specialization info given to `new` comes back from the create info as it was. |
| `ShaderModule.NewFromSpirv` | bort-vk/src/shader_module.rs:32-40 | A decode failure is `SpirVDecode` and nothing is created; otherwise the code is sent and a driver failure is `Creation`. |
| `ShaderModule.NewFromCreateInfo` | bort-vk/src/shader_module.rs:44-56 | A driver failure becomes `Creation`, and success keeps the handle and the device. |
| `Surface.GetFirstSrgbSurfaceFormat` | bort-vk/src/surface.rs:302-310 | The result is the first entry with an sRGB format, and none exactly when there is none (src/surface.rs has the same function). |
| `Surface.GetFirstLinearSurfaceFormat` | bort-vk/src/surface.rs:313-321 | The result is the first entry with a linear format, and none exactly when there is none. |
| `Surface.SrgbOrLinearFound` | bort-vk/src/surface.rs:302-321 | A non-empty list always yields one or the other, and the first entry is one of the two answers. |
| `Surface.FromVkResult` | bort-vk/src/surface.rs:363-367 | A driver result becomes the `VkResult` surface error carrying it. |
| `Surface.CreateVkSurface` | bort-vk/src/surface.rs:134-290 | A display and window of different systems, or an unsupported system, give `UnsupportedDisplaySystem`; a missing platform pointer gives its own error; otherwise the driver's answer is returned as a `VkResult` error or its surface. |
| `Swapchain.DefaultProperties` | bort-vk/src/swapchain.rs:267-286 | The default has one image, one layer, exclusive sharing, clipping on and mailbox presentation. |
| `Swapchain.ImageCount` | bort-vk/src/swapchain.rs:311-319 | The count is the preference clamped below by the surface minimum, and above by the maximum only when there is one. |
| `Swapchain.ImageCountIdempotent` | bort-vk/src/swapchain.rs:311-319 | Asking again for the count the clamp chose gives the same count. |
| `Swapchain.LegacyImageCountAsWritten` | src/swapchain.rs:53-56 | As written, the count is at least the minimum and is the preference, the minimum or the maximum. |
| `Swapchain.LegacyImageCountIgnoresPreferenceWhenUnbounded` | src/swapchain.rs:53-56 | Without a maximum, the legacy count is the minimum whatever is preferred. |
| `Swapchain.LegacyImageCountAgreesWhenBounded` | src/swapchain.rs:53-56 | With a maximum, the legacy and corrected counts agree. |
| `Swapchain.LegacyImageCountCounterexample` | src/swapchain.rs:53-56 | For minimum 2, no maximum and preference 3, the legacy count is 2 and the corrected count is 3. |
| `Swapchain.ChooseExtent` | bort-vk/src/swapchain.rs:321-327 | The window size is used exactly when the surface leaves the extent open. |
| `Swapchain.ChoosePresentMode` | bort-vk/src/swapchain.rs:329-337 | `MAILBOX` is chosen when offered, and `FIFO` otherwise. |
| `Swapchain.ChosenPresentModeIsOffered` | bort-vk/src/swapchain.rs:329-337 | The chosen mode is always offered, since every surface offers `FIFO`. |
| `Swapchain.ChoosePreTransform` | bort-vk/src/swapchain.rs:338-345 | `IDENTITY` is chosen when supported, and the current transform otherwise. |
| `Swapchain.ChosenPreTransformSupported` | bort-vk/src/swapchain.rs:338-345 | The chosen transform is supported whenever the current one is. |
| `Swapchain.FirstSupported` | bort-vk/src/swapchain.rs:456-470 | The result is the first preference the supported set contains, and none exactly when it contains none. |
| `Swapchain.ChooseCompositeAlpha` | bort-vk/src/swapchain.rs:456-470 | For a surface supporting one of the four modes, the first supported one in the order post-multiplied, opaque, pre-multiplied, inherit is chosen. |
| `Swapchain.NewDefault` | bort-vk/src/swapchain.rs:298-359 | The capability and present-mode queries feed the choices above; a query error is returned. |
| `Swapchain.CreateInfoBuilder` | bort-vk/src/swapchain.rs:361-382 | Image count, layers, extent, format, colour space, clipping and queue families land in their fields, with the surface and the old swapchain. |
| `Swapchain.PropertiesFromCreateInfo` | bort-vk/src/swapchain.rs:361-382 | The counted queue families are read back; re-encoding restores the create info exactly when clipping is a proper `Bool32` and the pointer holds exactly those families. |
| `Swapchain.CreateInfoRoundTrip` | bort-vk/src/swapchain.rs:361-382 | Any properties with fewer than 2^32 queue families read back unchanged. |
| `Swapchain.DimensionsOf` | bort-vk/src/swapchain.rs:384-390 | The images are single-layer 2-D images of the swapchain's extent. |
| `Swapchain.DimensionsMatchCreateInfo` | bort-vk/src/swapchain.rs:384-390 | The reported dimensions are exactly the extent of the create info. |
| `Swapchain.ImageViewPropertiesFor` | bort-vk/src/swapchain.rs:168-190 | The view of a swapchain image has its format and spans all of its layers. |
| `Swapchain.ImageViewMatchesCreateInfo` | bort-vk/src/swapchain.rs:168-190 | The view spans exactly the layers and the format of the create info. |
| `Swapchain.ImagesFromHandles` | bort-vk/src/swapchain.rs:405-415 | Image `i` wraps handle `i`. |
| `Swapchain.Swapchain.New` | bort-vk/src/swapchain.rs:31-69 | Creation uses no old swapchain and then asks for the images; either driver error is returned. |
| `Swapchain.Swapchain.RecreateCommon` | bort-vk/src/swapchain.rs:138-166 | A swapchain for the new properties is created with this one as its old swapchain, and its images are fetched. |
| `Swapchain.Swapchain.Recreate` | bort-vk/src/swapchain.rs:101-155 | On failure the handle, properties and images stay as before: a creation failure logs only the create call, and an image failure logs the create call and the image query and destroys nothing. On success all three are replaced and the old handle is destroyed after the query. |
| `Swapchain.Swapchain.RecreateReplace` | bort-vk/src/swapchain.rs:122-136 | The same creation, but this swapchain is left as it is and a new one is returned. |
| `Swapchain.Swapchain.Drop` | bort-vk/src/swapchain.rs:232-245 | The current handle is destroyed. |
| `Swapchain.LegacySwapchainNew` | src/swapchain.rs:37-113 | The capability query, the present-mode query and creation fail in that order; on success the image count is the written legacy count, and every other property is the one `NewDefault` selects. |
| `Swapchain.LegacySwapchainNewMatchesNewDefault` | src/swapchain.rs:37-113 | With a maximum image count the older swapchain gets `NewDefault`'s properties; without one, and a preference other than the minimum, it does not. |
| `Swapchain.LegacyGetFirstSrgbSurfaceFormat` | src/swapchain.rs:256-266 | The chosen entry is sRGB exactly when some entry is, and then no earlier entry is sRGB; otherwise it is the first entry. |
| `Swapchain.LegacyFromSwapchain` | src/swapchain_image.rs:20-27 | There is one image per handle the driver returned, each tied to its swapchain. |
| `Swapchain.LegacyImagesAgree` | src/swapchain_image.rs:20-27 | The legacy images are the bort-vk images of the same handles. |
| `VkTypes.SliceCount` | bort-vk/src/buffer.rs:177 | Below 2^32 elements, the stored count is the slice length. |
| `VkTypes.ReadIfNonNull` | bort-vk/src/render_pass.rs:186-218 | A null pointer reads as empty; otherwise exactly `count` elements are read. |
| `VkTypes.ReadUnchecked` | bort-vk/src/buffer.rs:184-198 | Exactly `count` elements are read from the pointer. |
| `VkTypes.CopyArray` | bort-vk/src/buffer.rs:184-198 | The push loop returns `ReadUnchecked` of count and pointer. |
| `VkTypes.CopyArrayIfNonNull` | bort-vk/src/render_pass.rs:186-218 | The guarded push loop returns `ReadIfNonNull` of count and pointer. |
| `VkTypes.SliceRoundTrip` | bort-vk/src/buffer.rs:168-198 | A slice under 2^32 elements written by ash's setter reads back unchanged. |

## Left out

- Every driver, loader and allocator call is a parameter of the member that makes it. The model states what is sent and what is done with the answer, not what the driver does.
- `Drop` for objects whose teardown is a single destroy call is not modelled: pipelines, layouts, pools, views, samplers, render passes, framebuffers, shader modules, surfaces and debug messengers. `Device`, `Swapchain` and `CommandBuffer` keep their `Drop` because it has rules.
- Plain getters (`handle`, `properties`, `device`, `inner`, loaders and the like) return stored fields and have no members of their own.
- Reference counting (`Arc`), `Send`/`Sync` and concurrency: a held dependency is its handle.
- Raw pointer validity: a pointer with a count is `Ptr<T>`, and decoders require that the pointer holds the counted elements, which the Rust code takes on trust in its `unsafe` blocks.
- `usize` to `u32` truncation in ash's slice setters is `SliceCount`; the round-trip lemmas are stated for lists below 2^32 elements.
- Floating-point values (viewports, blend constants, LOD, priorities, depth bias, line width) are 32-bit patterns that are copied. `whole_viewport` (bort-vk/src/image.rs:426-435) and the float conversion in bort-vk/src/image_dimensions.rs:148-157 compute with floats and are not modelled.
- Blend equations are over reals, without clamping, blend constants or dual-source factors; only the factors the presets use are given a meaning (`Modelled`).
- Feature structs are opaque sets of enabled feature names; the individual Vulkan feature flags are not modelled.
- `Instance.MakeApiVersion` is ash's `make_api_version`, written as ORs of shifted fields; its packing facts are the lemmas `MakeApiVersionPacks` and `AsVkUintMinorOverflowMeetsMajor`.
- Device.LegacyNew and Instance.LegacyInstanceNew: src/common.rs:13 returns `CString::new(name)?.as_ptr()` for a `CString` that is dropped at the end of the closure, so the name pointers that src/device.rs:30-32 and src/instance.rs:59-61 pass to the driver dangle. The model assumes the names arrive intact; it does not model the freed memory.
- `layer_avilable`, `enumerate_physical_devices`, `queue_wait_idle`, `update_descriptor_sets` and `wait_for_fences` forward one driver call and return its answer; they are not modelled.
- The surface queries `get_physical_device_surface_*` and `Surface::new` forward driver calls; their answers are parameters of `Swapchain.NewDefault`. The window-system glue of `create_vk_surface` (bort-vk/src/surface.rs:134-290) is reduced to which system is used and whether its platform pointer is present.
- `Swapchain::aquire_next_image` forwards one driver call and is not modelled.
- `Image::new_tranient`, and the `write_struct`, `write_iter` and `read_struct_at_offset` of `Buffer` and `Image`, hand over to `Image.TransientImageInfo`, `Image.NewImage` and the `MemoryAllocation.Allocation` methods, which are modelled.
- `vkCmd*` recording in bort-vk/src/command_buffer.rs is left out, except the argument check of `execute_commands` and the bind point of `bind_pipeline`.
- Loading shader code from a file and decoding SPIR-V (bort-vk/src/shader_module.rs:22-30) are parameters: `ShaderModule.NewFromSpirv` takes the decode result.
- UTF-8 validation of names read back from the driver is a parameter (`Result<string, Utf8Error>`) of `PhysicalDevice.New` and `PhysicalDevice.LegacyNew`.
- Common.CStringNew: the NUL position counts characters of the model's string, whereas `NulError::nul_position` counts UTF-8 bytes; the two agree on ASCII text.
- Swapchain.LegacyGetFirstSrgbSurfaceFormat: requires a non-empty list; src/swapchain.rs:265 indexes the first entry and panics on an empty list.
- `Swapchain.ChooseCompositeAlpha` requires that the surface supports one of the four modes; the source panics through `expect` otherwise.
- `CommandBuffer.New`, `CommandPool.AllocateCommandBuffer`, `DescriptorPool.AllocateDescriptorSets` and `PipelineGraphics.NewBatchCreate` require that the driver returns one handle per requested object, as Vulkan promises; the source indexes into the returned vector.
- `MemoryAllocation.Allocation.WriteStruct` requires the offset to lie within the allocation, as do `WriteIter`, `ReadStruct`, `LegacyWriteStruct` and `LegacyWriteIter`: past the end, the source's `allocation_size - write_offset` on `usize` underflows (bort-vk/src/memory_allocation.rs:60, 98 and 132; src/memory_allocation.rs:53), which panics in debug builds and wraps in release builds.
- `MemoryAllocation.AllocationInfoFromFlags` works on a reduced allocation info: flags, usage, required and preferred memory flags, memory type bits and priority. The pool and user-data fields are not modelled.
- `DescriptorLayout.LegacyNew` returns the driver's answer and the create info it sent, not the older layout object, which holds only that handle and the properties.
- The allocator crate bort-vma (allocator, allocation, pool, bindings and build script): foreign code.
- Thin wrappers with no rules of their own: memory_access.rs, memory_allocator.rs (both crates), memory_defragmentation.rs, queue.rs, fence.rs, semaphore.rs (both crates), descriptor_set.rs (both crates), pipeline_compute.rs (both crates), src/pipeline_cache.rs, src/pipeline.rs, src/command_buffer.rs, image_access.rs and pipeline_access.rs (both crates) and src/image_base.rs.
- src/command_pool.rs and src/descriptor_pool.rs have only a one-way encoding, the same as the bort-vk encoders that are modelled.
- src/framebuffer.rs depends on an `image_view_handle` accessor and on anyhow errors that are not part of this model.
- src/memory_pool.rs relies on getters that are not part of this model.
- src/debug_callback.rs holds constants only, and src/common.rs returns pointers into temporaries that do not outlive the call.
- src/shader_module.rs and src/shader.rs load files; src/shader.rs is incomplete.
- Tests, the triangle example and lib.rs are not part of this model; the one version-order test is `Instance.ApiVersionOrdering`.

## Findings

| source | as written | input that shows it | evidently intended | confidence | as-written member | corrected member |
|---|---|---|---|---|---|---|
| src/swapchain.rs:53-56 | The preferred count is clamped by `min` with `max_image_count` even when it is 0, which means no maximum. | minimum 2, maximum 0, preferred 3 gives 2 | Clamp by the maximum only when it is not 0, as bort-vk/src/swapchain.rs:311-319 does, giving 3. | not executed | `Swapchain.LegacyImageCountCounterexample` | `Swapchain.ImageCount` |
| bort-vk/src/physical_device.rs:71-81 | The major and the minor are compared separately, so a newer major with a lower minor fails. | a 2.0 device asked for 1.3 is rejected | Compare versions in order, major first, as `ApiVersion`'s derived order does. | not executed | `PhysicalDevice.SupportsMinApiVerCounterexample` | `PhysicalDevice.SupportsMinApiVer` |
| bort-vk/src/pipeline_graphics.rs:540 | `stencil_test_enable` is set from `depth_bounds_test_enable` (also src/pipeline_graphics.rs:394). | stencil test on, depth bounds test off reaches the driver with the stencil test off | Set `stencil_test_enable` from its own field. | not executed | `PipelineStates.DepthStencilAsWrittenLosesStencilTest` | `PipelineStates.DepthStencilRoundTrip` |
| bort-vk/src/descriptor_layout.rs:202 | The immutable samplers are attached only when the sampler list is empty. | a binding with sampler `[7]` reaches the driver with a null sampler pointer | Attach the samplers when the list is not empty. | not executed | `DescriptorLayout.WriteAsWrittenDropsSamplers` | `DescriptorLayout.WriteAttachesSamplers` |
| bort-vk/src/pipeline_graphics.rs:447-458 | The "destination is untouched" preset uses colour factors `ZERO`/`ZERO` and alpha factors `DST_COLOR` (also src/pipeline_graphics.rs:308-320). | a grey fragment over a white destination gives black colour channels | Source factor `ZERO` and destination factor `ONE` for colour and alpha. | not executed | `PipelineStates.IgnoreSourceAsWrittenClearsDestination` | `PipelineStates.IgnoreSourceKeepsDestination` |
| src/pipeline_graphics.rs:324-336 | The alpha-merge preset uses `SRC_ALPHA` as the destination colour factor and `ONE_MINUS_SRC_ALPHA` as the source alpha factor. | opaque red over green gives yellow | Colour and alpha factors `SRC_ALPHA` for the source and `ONE_MINUS_SRC_ALPHA` for the destination. | not executed | `PipelineStates.LegacyAlphaAsWrittenAddsDestination` | `PipelineStates.LegacyAlphaMergesBySourceAlpha` |

The composite members follow the code as written: `PipelineGraphics.VkCreateInfos`, `DescriptorLayout.LayoutBindingsOf` and `Swapchain.LegacySwapchainNew` call the written helpers. The corrected versions stand beside them as `PipelineGraphics.VkCreateInfosCorrected` with `PipelineGraphics.CorrectedPropertiesRoundTrip`, `DescriptorLayout.LayoutBindingsOfCorrected` with `DescriptorLayout.CorrectedLayoutBindingsAttachSamplers`, and `Swapchain.ImageCount`.
