// Surface-format selection and the surface creation error
// (bort-vk/src/surface.rs, src/surface.rs). Creating the platform surface is
// window-system glue and is not part of this model.
module Surface {
  import opened Wrappers
  import opened VkTypes
  import opened Common

  /** `get_first_srgb_surface_format` (both crates): the first entry with an sRGB format. */
  function GetFirstSrgbSurfaceFormat(surfaceFormats: seq<SurfaceFormat>): (r: Option<SurfaceFormat>)
    ensures r.Some? ==> r.value in surfaceFormats && IsFormatSrgb(r.value.format)
    ensures r.Some? ==> exists i :: (0 <= i < |surfaceFormats| && surfaceFormats[i] == r.value &&
                                     forall j :: 0 <= j < i ==> !IsFormatSrgb(surfaceFormats[j].format))
    ensures r.None? <==> forall i :: 0 <= i < |surfaceFormats| ==> !IsFormatSrgb(surfaceFormats[i].format)
  {
    if |surfaceFormats| == 0 then None
    else if IsFormatSrgb(surfaceFormats[0].format) then
      assert surfaceFormats[0] == surfaceFormats[0];
      Some(surfaceFormats[0])
    else
      var rest := GetFirstSrgbSurfaceFormat(surfaceFormats[1..]);
      if rest.Some? then
        var i :| 0 <= i < |surfaceFormats[1..]| && surfaceFormats[1..][i] == rest.value &&
          forall j :: 0 <= j < i ==> !IsFormatSrgb(surfaceFormats[1..][j].format);
        assert surfaceFormats[i + 1] == rest.value;
        assert forall j :: 0 <= j < i + 1 ==> !IsFormatSrgb(surfaceFormats[j].format) by {
          forall j | 0 <= j < i + 1 ensures !IsFormatSrgb(surfaceFormats[j].format) {
            if j > 0 { assert surfaceFormats[j] == surfaceFormats[1..][j - 1]; }
          }
        }
        rest
      else
        assert forall i :: 1 <= i < |surfaceFormats| ==> surfaceFormats[i] == surfaceFormats[1..][i - 1];
        rest
  }

  /** `get_first_linear_surface_format` (both crates): the first entry with a linear format. */
  function GetFirstLinearSurfaceFormat(surfaceFormats: seq<SurfaceFormat>): (r: Option<SurfaceFormat>)
    ensures r.Some? ==> r.value in surfaceFormats && IsFormatLinear(r.value.format)
    ensures r.Some? ==> exists i :: (0 <= i < |surfaceFormats| && surfaceFormats[i] == r.value &&
                                     forall j :: 0 <= j < i ==> !IsFormatLinear(surfaceFormats[j].format))
    ensures r.None? <==> forall i :: 0 <= i < |surfaceFormats| ==> !IsFormatLinear(surfaceFormats[i].format)
  {
    if |surfaceFormats| == 0 then None
    else if IsFormatLinear(surfaceFormats[0].format) then
      assert surfaceFormats[0] == surfaceFormats[0];
      Some(surfaceFormats[0])
    else
      var rest := GetFirstLinearSurfaceFormat(surfaceFormats[1..]);
      if rest.Some? then
        var i :| 0 <= i < |surfaceFormats[1..]| && surfaceFormats[1..][i] == rest.value &&
          forall j :: 0 <= j < i ==> !IsFormatLinear(surfaceFormats[1..][j].format);
        assert surfaceFormats[i + 1] == rest.value;
        assert forall j :: 0 <= j < i + 1 ==> !IsFormatLinear(surfaceFormats[j].format) by {
          forall j | 0 <= j < i + 1 ensures !IsFormatLinear(surfaceFormats[j].format) {
            if j > 0 { assert surfaceFormats[j] == surfaceFormats[1..][j - 1]; }
          }
        }
        rest
      else
        assert forall i :: 1 <= i < |surfaceFormats| ==> surfaceFormats[i] == surfaceFormats[1..][i - 1];
        rest
  }

  /** Since linear means not sRGB, a non-empty list always yields one or the other, and the first entry is one of the two answers. */
  lemma SrgbOrLinearFound(surfaceFormats: seq<SurfaceFormat>)
    requires |surfaceFormats| > 0
    ensures GetFirstSrgbSurfaceFormat(surfaceFormats).Some? || GetFirstLinearSurfaceFormat(surfaceFormats).Some?
    ensures GetFirstSrgbSurfaceFormat(surfaceFormats) == Some(surfaceFormats[0]) ||
            GetFirstLinearSurfaceFormat(surfaceFormats) == Some(surfaceFormats[0])
  {
    LinearIsNotSrgb(surfaceFormats[0].format);
  }

  /** `SurfaceCreationError` */
  datatype SurfaceCreationError =
    | VkResult(result: VkError)
    | NoXcbConnectionPointer
    | NoXlibDisplayPointer
    | NoWin32Hinstance
    | UnsupportedDisplaySystem

  /** `From<vk::Result> for SurfaceCreationError` */
  function FromVkResult(e: VkError): (r: SurfaceCreationError)
    ensures r.VkResult? && r.result == e
  {
    VkResult(e)
  }

  /** The display and window systems `create_vk_surface` distinguishes. */
  datatype WindowSystem = Windows | Wayland | Xlib | Xcb | Android | AppKit | UiKit | Other

  /** The error for a handle that lacks the platform pointer its surface kind needs. */
  function MissingPointerError(system: WindowSystem): Option<SurfaceCreationError> {
    match system
    case Windows => Some(NoWin32Hinstance)
    case Xlib => Some(NoXlibDisplayPointer)
    case Xcb => Some(NoXcbConnectionPointer)
    case _ => None
  }

  /**
   * `create_vk_surface` reduced to its dispatch: a display/window pair of
   * the same supported system yields the driver's result for that surface
   * kind (a parameter), converted with `From<vk::Result>`, unless the handle
   * lacks the pointer Win32, Xlib or Xcb need; any other pair gives
   * `UnsupportedDisplaySystem`.
   */
  function CreateVkSurface(display: WindowSystem, window: WindowSystem, hasPlatformPointer: bool,
                           created: Result<Handle, VkError>): (r: Result<Handle, SurfaceCreationError>)
    ensures display != window || display == Other ==> r == Err(UnsupportedDisplaySystem)
    ensures r.Ok? ==> created.Ok? && r.value == created.value
    ensures display == window && display != Other && created.Err? && r.Err? ==>
      r.error == VkResult(created.error) || Some(r.error) == MissingPointerError(display)
    ensures display == window && (hasPlatformPointer || MissingPointerError(display).None?) ==>
      r == if display == Other then Err(UnsupportedDisplaySystem)
           else if created.Ok? then Ok(created.value) else Err(VkResult(created.error))
  {
    if display != window || display == Other then Err(UnsupportedDisplaySystem)
    else if !hasPlatformPointer && MissingPointerError(display).Some? then Err(MissingPointerError(display).value)
    else match created
      case Ok(h) => Ok(h)
      case Err(e) => Err(FromVkResult(e))
  }
}
