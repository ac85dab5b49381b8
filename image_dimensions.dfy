// `ImageDimensions`: the extent and layer count of an image, classified into
// its 1-D, 2-D or 3-D variant (bort-vk/src/image_dimensions.rs; the identical
// copies in src/image.rs and src/image_properties.rs are this same module).
module Dimensions {
  import opened VkTypes

  datatype ImageDimensions =
    | Dim1d(width: u32, arrayLayers: u32)
    | Dim2d(width: u32, height: u32, arrayLayers: u32)
    | Dim3d(width: u32, height: u32, depth: u32)
  {
    /** Height, which a 1-D image does not store: 1. */
    function Height(): u32 {
      match this
      case Dim1d(_, _) => 1
      case Dim2d(_, h, _) => h
      case Dim3d(_, h, _) => h
    }

    /** Depth, which 1-D and 2-D images do not store: 1. */
    function Depth(): u32 {
      match this
      case Dim3d(_, _, d) => d
      case _ => 1
    }

    /** Array layers, which a 3-D image does not store: 1. */
    function ArrayLayers(): u32 {
      match this
      case Dim1d(_, l) => l
      case Dim2d(_, _, l) => l
      case Dim3d(_, _, _) => 1
    }

    function WidthHeight(): seq<u32> {
      [width, Height()]
    }

    function Extent(): Extent3D {
      Extent3D(width, Height(), Depth())
    }

    /** True when `num_texels` does not overflow its `u32` product. */
    predicate TexelCountFits() {
      width * Height() * Depth() * ArrayLayers() < U32_LIMIT
    }

    /**
     * `num_texels`: one texel per (x, y, z, layer). The Rust `u32` product
     * overflows for larger images, so callers must keep it in range.
     */
    function NumTexels(): (r: u32)
      requires TexelCountFits()
      ensures r == Extent().width * Extent().height * Extent().depth * ArrayLayers()
      ensures r == 0 <==> width == 0 || Height() == 0 || Depth() == 0 || ArrayLayers() == 0
    {
      var wh := width * Height();
      ProductIsZero(width, Height());
      ProductIsZero(wh, Depth());
      ProductIsZero(wh * Depth(), ArrayLayers());
      wh * Depth() * ArrayLayers()
    }

    function ImageType(): (r: ImageType)
      ensures r == IMAGE_TYPE_1D <==> Dim1d?
      ensures r == IMAGE_TYPE_2D <==> Dim2d?
      ensures r == IMAGE_TYPE_3D <==> Dim3d?
    {
      match this
      case Dim1d(_, _) => IMAGE_TYPE_1D
      case Dim2d(_, _, _) => IMAGE_TYPE_2D
      case Dim3d(_, _, _) => IMAGE_TYPE_3D
    }

    /** `default_image_view_type`: the array kind exactly when there is more than one layer. */
    function DefaultImageViewType(): (r: ImageViewType)
      ensures Dim1d? ==> r == (if ArrayLayers() == 1 then VIEW_TYPE_1D else VIEW_TYPE_1D_ARRAY)
      ensures Dim2d? ==> r == (if ArrayLayers() == 1 then VIEW_TYPE_2D else VIEW_TYPE_2D_ARRAY)
      ensures r == VIEW_TYPE_3D <==> Dim3d?
    {
      match this
      case Dim1d(_, 1) => VIEW_TYPE_1D
      case Dim1d(_, _) => VIEW_TYPE_1D_ARRAY
      case Dim2d(_, _, 1) => VIEW_TYPE_2D
      case Dim2d(_, _, _) => VIEW_TYPE_2D_ARRAY
      case Dim3d(_, _, _) => VIEW_TYPE_3D
    }

    /**
     * The dimensions that `new_from_extent_and_layers` reproduces from their
     * own extent and layer count.
     */
    predicate Canonical() {
      match this
      case Dim1d(_, l) => l >= 1
      case Dim2d(_, h, l) => h > 1 && l >= 1
      case Dim3d(_, _, d) => d > 1
    }
  }

  lemma ProductIsZero(a: nat, b: nat)
    ensures a * b == 0 <==> a == 0 || b == 0
  {
  }

  /** `new_1d`: a one-layer 1D image `width` texels long. */
  function New1d(width: u32): (r: ImageDimensions)
    ensures r.ImageType() == IMAGE_TYPE_1D && r.Extent() == Extent3D(width, 1, 1) && r.ArrayLayers() == 1
  {
    Dim1d(width, 1)
  }

  /** `new_1d_array`: a 1D image with `array_layers` layers. */
  function New1dArray(width: u32, arrayLayers: u32): (r: ImageDimensions)
    ensures r.ImageType() == IMAGE_TYPE_1D && r.Extent() == Extent3D(width, 1, 1) && r.ArrayLayers() == arrayLayers
  {
    Dim1d(width, arrayLayers)
  }

  /** `new_2d`: a one-layer 2D image. */
  function New2d(width: u32, height: u32): (r: ImageDimensions)
    ensures r.ImageType() == IMAGE_TYPE_2D && r.Extent() == Extent3D(width, height, 1) && r.ArrayLayers() == 1
  {
    Dim2d(width, height, 1)
  }

  /** `new_2d_array`: a 2D image with `array_layers` layers. */
  function New2dArray(width: u32, height: u32, arrayLayers: u32): (r: ImageDimensions)
    ensures r.ImageType() == IMAGE_TYPE_2D && r.Extent() == Extent3D(width, height, 1) && r.ArrayLayers() == arrayLayers
  {
    Dim2d(width, height, arrayLayers)
  }

  /** `new_3d`: a one-layer 3D image. */
  function New3d(width: u32, height: u32, depth: u32): (r: ImageDimensions)
    ensures r.ImageType() == IMAGE_TYPE_3D && r.Extent() == Extent3D(width, height, depth) && r.ArrayLayers() == 1
  {
    Dim3d(width, height, depth)
  }

  /** `ImageDimensions::default()` */
  function DefaultDimensions(): (r: ImageDimensions)
    ensures r.ImageType() == IMAGE_TYPE_1D
    ensures r.Extent() == Extent3D(1, 1, 1) && r.ArrayLayers() == 1
  {
    Dim1d(1, 1)
  }

  /**
   * `new_from_extent_and_layers`: several layers give a 1-D or 2-D array and
   * drop the depth; a single layer (or none) gives the highest-dimensional
   * variant the extent calls for, with one layer.
   */
  function NewFromExtentAndLayers(extent: Extent3D, arrayLayers: u32): (r: ImageDimensions)
    ensures r.width == extent.width
    ensures arrayLayers > 1 ==> r.ArrayLayers() == arrayLayers && r.Depth() == 1
    ensures arrayLayers > 1 ==> (r.Dim2d? <==> extent.height > 1)
    ensures arrayLayers > 1 && extent.height > 1 ==> r.Height() == extent.height
    ensures arrayLayers > 1 ==> !r.Dim3d?
    ensures arrayLayers <= 1 ==> r.ArrayLayers() == 1
    ensures arrayLayers <= 1 ==> (r.Dim3d? <==> extent.depth > 1)
    ensures arrayLayers <= 1 ==> (r.Dim2d? <==> extent.depth <= 1 && extent.height > 1)
    ensures arrayLayers <= 1 && (r.Dim2d? || r.Dim3d?) ==> r.Height() == extent.height
    ensures arrayLayers <= 1 && r.Dim3d? ==> r.Depth() == extent.depth
  {
    if arrayLayers > 1 then
      if extent.height > 1 then New2dArray(extent.width, extent.height, arrayLayers)
      else New1dArray(extent.width, arrayLayers)
    else if extent.depth > 1 then New3d(extent.width, extent.height, extent.depth)
    else if extent.height > 1 then New2d(extent.width, extent.height)
    else New1d(extent.width)
  }

  /**
   * The round trip through `extent_3d()` and `array_layers()` returns the same
   * dimensions exactly for the canonical ones.
   */
  lemma RoundTrip(d: ImageDimensions)
    ensures NewFromExtentAndLayers(d.Extent(), d.ArrayLayers()) == d <==> d.Canonical()
  {
  }

  /** Whatever goes in, what comes out is canonical. */
  lemma NewFromExtentIsCanonical(extent: Extent3D, arrayLayers: u32)
    ensures var r := NewFromExtentAndLayers(extent, arrayLayers);
      r.Canonical() && NewFromExtentAndLayers(r.Extent(), r.ArrayLayers()) == r
  {
  }
}
