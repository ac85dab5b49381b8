// The Vulkan vocabulary shared by every module: fixed-width integers, handles,
// flag sets, enumerant codes, formats, and the (count, pointer) arrays of the
// C create-info structs together with how the library reads them back.
module VkTypes {
  import opened Wrappers

  const U32_LIMIT: int := 0x1_0000_0000
  const U64_LIMIT: int := 0x1_0000_0000_0000_0000

  type u32 = x: int | 0 <= x < 0x1_0000_0000
  type u64 = x: int | 0 <= x < 0x1_0000_0000_0000_0000
  /** `vk::DeviceSize` and, on the 64-bit targets modelled here, `usize`. */
  type DeviceSize = u64

  /** A Vulkan object handle; 0 is `VK_NULL_HANDLE`. */
  type Handle = u64
  const NULL_HANDLE: Handle := 0

  /** A `vk::Result` error code returned by a failing driver call. */
  type VkError = int

  /** `VkFlags`: every `*Flags` type is a 32-bit mask. */
  type Flags = bv32

  predicate Contains(flags: Flags, required: Flags) {
    flags & required == required
  }

  /** `VkBool32` as written by ash's `bool` setters and read back with `!= 0`. */
  type Bool32 = u32

  function ToBool32(b: bool): (r: Bool32)
    ensures r == 0 || r == 1
  {
    if b then 1 else 0
  }

  function FromBool32(x: Bool32): bool {
    x != 0
  }

  lemma BoolRoundTrip(b: bool)
    ensures FromBool32(ToBool32(b)) == b
  {
  }

  /**
   * A 32-bit float, carried as its bit pattern. The library never computes
   * with floats; it only copies them between its structs and the create infos.
   */
  type F32 = bv32
  const F32_ZERO: F32 := 0x0000_0000
  const F32_ONE: F32 := 0x3F80_0000
  /** `vk::LOD_CLAMP_NONE` = 1000.0 */
  const LOD_CLAMP_NONE: F32 := 0x447A_0000

  // Enumerants are their numeric codes (`vk::PresentModeKHR(1)` is MAILBOX).
  type PresentMode = int
  const PRESENT_MODE_IMMEDIATE: PresentMode := 0
  const PRESENT_MODE_MAILBOX: PresentMode := 1
  const PRESENT_MODE_FIFO: PresentMode := 2

  type ImageType = int
  const IMAGE_TYPE_1D: ImageType := 0
  const IMAGE_TYPE_2D: ImageType := 1
  const IMAGE_TYPE_3D: ImageType := 2

  type ImageViewType = int
  const VIEW_TYPE_1D: ImageViewType := 0
  const VIEW_TYPE_2D: ImageViewType := 1
  const VIEW_TYPE_3D: ImageViewType := 2
  const VIEW_TYPE_1D_ARRAY: ImageViewType := 4
  const VIEW_TYPE_2D_ARRAY: ImageViewType := 5

  type ImageTiling = int
  const TILING_OPTIMAL: ImageTiling := 0

  type SharingMode = int
  const SHARING_EXCLUSIVE: SharingMode := 0

  type ImageLayout = int
  const LAYOUT_UNDEFINED: ImageLayout := 0
  const LAYOUT_GENERAL: ImageLayout := 1

  type CompareOp = int
  const COMPARE_NEVER: CompareOp := 0
  const COMPARE_ALWAYS: CompareOp := 7

  type CommandBufferLevel = int
  const LEVEL_PRIMARY: CommandBufferLevel := 0
  const LEVEL_SECONDARY: CommandBufferLevel := 1

  type PipelineBindPoint = int
  const BIND_POINT_GRAPHICS: PipelineBindPoint := 0
  const BIND_POINT_COMPUTE: PipelineBindPoint := 1

  type ComponentSwizzle = int
  const SWIZZLE_R: ComponentSwizzle := 3
  const SWIZZLE_G: ComponentSwizzle := 4
  const SWIZZLE_B: ComponentSwizzle := 5
  const SWIZZLE_A: ComponentSwizzle := 6

  type ColorSpace = int

  // Flag bits used by the selection rules.
  const IMAGE_USAGE_TRANSIENT_ATTACHMENT: Flags := 0x40
  const MEMORY_PROPERTY_DEVICE_LOCAL: Flags := 0x1
  const MEMORY_PROPERTY_HOST_VISIBLE: Flags := 0x2
  const MEMORY_PROPERTY_HOST_COHERENT: Flags := 0x4
  const MEMORY_PROPERTY_LAZILY_ALLOCATED: Flags := 0x10
  const ASPECT_COLOR: Flags := 0x1
  const ASPECT_DEPTH: Flags := 0x2
  const ASPECT_STENCIL: Flags := 0x4
  const SAMPLE_COUNT_1: Flags := 0x1
  const SAMPLE_COUNT_64: Flags := 0x40
  const FORMAT_FEATURE_DEPTH_STENCIL_ATTACHMENT: Flags := 0x200

  /**
   * A `vk::Format`, identified by the name its `Debug` implementation prints
   * (which is what `is_format_srgb` inspects).
   */
  datatype Format = Format(name: string)

  const FORMAT_UNDEFINED := Format("UNDEFINED")
  const FORMAT_S8_UINT := Format("S8_UINT")
  const FORMAT_D16_UNORM := Format("D16_UNORM")
  const FORMAT_X8_D24_UNORM_PACK32 := Format("X8_D24_UNORM_PACK32")
  const FORMAT_D32_SFLOAT := Format("D32_SFLOAT")
  const FORMAT_D16_UNORM_S8_UINT := Format("D16_UNORM_S8_UINT")
  const FORMAT_D24_UNORM_S8_UINT := Format("D24_UNORM_S8_UINT")
  const FORMAT_D32_SFLOAT_S8_UINT := Format("D32_SFLOAT_S8_UINT")

  /** `vk::SurfaceFormatKHR` */
  datatype SurfaceFormat = SurfaceFormat(format: Format, colorSpace: ColorSpace)

  /** A 2-D extent `(width, height)`, as `vk::Extent2D`. */
  datatype Extent2D = Extent2D(width: u32, height: u32)
  /** `vk::Extent3D` */
  datatype Extent3D = Extent3D(width: u32, height: u32, depth: u32)

  // ---- (count, pointer) arrays of the C structs ----

  /**
   * The pointer half of a `(count, pointer)` pair: null, or pointing at the
   * elements of a live array.
   */
  datatype Ptr<T> = Null | Points(elems: seq<T>)

  /**
   * The count ash's slice setters store: `slice.len() as u32`, which truncates.
   */
  function SliceCount<T>(s: seq<T>): (r: u32)
    ensures |s| < U32_LIMIT ==> r == |s|
  {
    |s| % U32_LIMIT
  }

  /**
   * What a decoder that tests the pointer for null first reads:
   * nothing for null, otherwise `count` elements in order.
   */
  function ReadIfNonNull<T>(count: u32, p: Ptr<T>): (r: seq<T>)
    requires p.Points? ==> count <= |p.elems|
    ensures p.Null? ==> r == []
    ensures p.Points? ==> |r| == count && forall i :: 0 <= i < count ==> r[i] == p.elems[i]
  {
    if p.Null? then [] else p.elems[..count]
  }

  /** The caller obligation of a decoder that dereferences without a null test. */
  predicate ReadableUnchecked<T>(count: u32, p: Ptr<T>) {
    count == 0 || (p.Points? && count <= |p.elems|)
  }

  /** What a decoder that reads `count` elements without a null test reads. */
  function ReadUnchecked<T>(count: u32, p: Ptr<T>): (r: seq<T>)
    requires ReadableUnchecked(count, p)
    ensures |r| == count
    ensures forall i :: 0 <= i < count ==> r[i] == p.elems[i]
  {
    if count == 0 then [] else p.elems[..count]
  }

  /**
   * The `for i in 0..count { v.push(*ptr.offset(i)) }` loop the decoders
   * share, which never tests the pointer for null.
   */
  method CopyArray<T>(count: u32, p: Ptr<T>) returns (r: seq<T>)
    requires ReadableUnchecked(count, p)
    ensures r == ReadUnchecked(count, p)
  {
    r := [];
    var i: int := 0;
    while i < count
      invariant 0 <= i <= count
      invariant |r| == i
      invariant forall k :: 0 <= k < i ==> r[k] == p.elems[k]
    {
      r := r + [p.elems[i]];
      i := i + 1;
    }
  }

  /** The same loop guarded by `if !ptr.is_null()`. */
  method CopyArrayIfNonNull<T>(count: u32, p: Ptr<T>) returns (r: seq<T>)
    requires p.Points? ==> count <= |p.elems|
    ensures r == ReadIfNonNull(count, p)
  {
    r := [];
    if p.Points? {
      r := CopyArray(count, p);
    }
  }

  /** A slice written with ash's setter reads back unchanged. */
  lemma SliceRoundTrip<T>(s: seq<T>)
    requires |s| < U32_LIMIT
    ensures ReadIfNonNull(SliceCount(s), Points(s)) == s
    ensures ReadableUnchecked(SliceCount(s), Points(s))
    ensures ReadUnchecked(SliceCount(s), Points(s)) == s
  {
  }
}
