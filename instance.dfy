// API versions, extension support and instance creation
// (bort-vk/src/instance.rs; the older src/instance.rs as the `Legacy` members).
module Instance {
  import opened Wrappers
  import opened VkTypes
  import opened Common
  import Surface

  /** `ApiVersion`: a Vulkan version, major then minor. */
  datatype ApiVersion = ApiVersion(major: u32, minor: u32)

  const V1_0 := ApiVersion(1, 0)
  const V1_1 := ApiVersion(1, 1)
  const V1_2 := ApiVersion(1, 2)
  const V1_3 := ApiVersion(1, 3)
  const V1_4 := ApiVersion(1, 4)

  /** The derived `Ord`: lexicographic, the major number first. */
  predicate Less(a: ApiVersion, b: ApiVersion) {
    a.major < b.major || (a.major == b.major && a.minor < b.minor)
  }

  predicate LessEq(a: ApiVersion, b: ApiVersion) {
    Less(a, b) || a == b
  }

  /** The order is total, asymmetric and transitive, as a derived `Ord` must be. */
  lemma LessIsStrictTotalOrder(a: ApiVersion, b: ApiVersion, c: ApiVersion)
    ensures Less(a, b) || a == b || Less(b, a)
    ensures Less(a, b) ==> !Less(b, a)
    ensures Less(a, b) && Less(b, c) ==> Less(a, c)
  {
  }

  /** The crate's test: 1.1 comes before 1.2 (bort-vk and src). */
  lemma ApiVersionOrdering()
    ensures Less(V1_1, V1_2) && Less(V1_0, V1_1) && Less(V1_2, V1_3) && Less(V1_3, V1_4)
  {
  }

  const SHIFT_29: nat := 0x2000_0000
  const SHIFT_22: nat := 0x40_0000
  const SHIFT_12: nat := 0x1000

  /** `2^k`. */
  function Pow2(k: nat): (r: nat)
    ensures r > 0
  {
    if k == 0 then 1 else 2 * Pow2(k - 1)
  }

  lemma Pow2Values()
    ensures Pow2(12) == SHIFT_12 && Pow2(22) == SHIFT_22 && Pow2(32) == U32_LIMIT
  {
    assert Pow2(12) == SHIFT_12;
    assert Pow2(22) == SHIFT_22;
  }

  /** Bitwise OR of two naturals, one bit at a time from the lowest. */
  function BitOr(a: nat, b: nat): nat
    decreases a + b
  {
    if a == 0 then b
    else if b == 0 then a
    else 2 * BitOr(a / 2, b / 2) + (if a % 2 == 1 || b % 2 == 1 then 1 else 0)
  }

  /** OR sets no bit above the operands' width. */
  lemma {:induction false} BitOrBound(a: nat, b: nat, n: nat)
    requires a < Pow2(n) && b < Pow2(n)
    ensures BitOr(a, b) < Pow2(n)
    decreases n
  {
    if a != 0 && b != 0 {
      BitOrBound(a / 2, b / 2, n - 1);
    }
  }

  /** OR is idempotent. */
  lemma {:induction false} BitOrSelf(a: nat)
    ensures BitOr(a, a) == a
    decreases a
  {
    if a != 0 {
      BitOrSelf(a / 2);
    }
  }

  /** OR of a value shifted left by `k` with one below `2^k` is their sum: the bits do not meet. */
  lemma {:induction false} BitOrDisjoint(x: nat, y: nat, k: nat)
    requires y < Pow2(k)
    ensures BitOr(x * Pow2(k), y) == x * Pow2(k) + y
    decreases k
  {
    if x != 0 && y != 0 {
      var a := x * Pow2(k);
      assert a == 2 * (x * Pow2(k - 1));
      assert a / 2 == x * Pow2(k - 1) && a % 2 == 0;
      BitOrDisjoint(x, y / 2, k - 1);
    }
  }

  lemma BitOrFitsU32(a: u32, b: u32)
    ensures BitOr(a, b) < U32_LIMIT
  {
    Pow2Values();
    BitOrBound(a, b, 32);
  }

  /** `|` on `u32`. */
  function Or32(a: u32, b: u32): u32 {
    BitOrFitsU32(a, b);
    BitOr(a, b)
  }

  /**
   * `vk::make_api_version`: `(variant << 29) | (major << 22) | (minor << 12) | patch`
   * (section "Version Numbers" of the Vulkan specification), each shift
   * dropping the bits above 32.
   */
  function MakeApiVersion(variant: u32, major: u32, minor: u32, patch: u32): u32 {
    Or32(Or32(Or32((variant * SHIFT_29) % U32_LIMIT, (major * SHIFT_22) % U32_LIMIT), (minor * SHIFT_12) % U32_LIMIT), patch)
  }

  /** With variant and patch 0 and fields that fit, the word is the sum of the shifted fields. */
  lemma MakeApiVersionPacks(major: u32, minor: u32)
    requires major < 0x80 && minor < 0x400
    ensures MakeApiVersion(0, major, minor, 0) == major * SHIFT_22 + minor * SHIFT_12
  {
    Pow2Values();
    assert major * SHIFT_22 < 0x80 * SHIFT_22;
    assert minor * SHIFT_12 < 0x400 * SHIFT_12;
    assert Or32(0, (major * SHIFT_22) % U32_LIMIT) == major * SHIFT_22;
    BitOrDisjoint(major, minor * SHIFT_12, 22);
    assert Or32(major * SHIFT_22, minor * SHIFT_12) == major * SHIFT_22 + minor * SHIFT_12;
  }

  /** `vk::api_version_major`: `(version >> 22) & 0x7F`. */
  function ApiVersionMajor(version: u32): (r: u32)
    ensures r < 0x80
  {
    (version / SHIFT_22) % 0x80
  }

  /** `vk::api_version_minor`: `(version >> 12) & 0x3FF`. */
  function ApiVersionMinor(version: u32): (r: u32)
    ensures r < 0x400
  {
    (version / SHIFT_12) % 0x400
  }

  /**
   * `ApiVersion::as_vk_uint`: variant 0, patch 0; a version the fields can
   * hold is packed without wrapping, the major above bit 22 and the minor
   * above bit 12.
   */
  function AsVkUint(v: ApiVersion): (r: u32)
    ensures v.major < 0x80 && v.minor < 0x400 ==> r == v.major * SHIFT_22 + v.minor * SHIFT_12
  {
    if v.major < 0x80 && v.minor < 0x400 then
      MakeApiVersionPacks(v.major, v.minor);
      MakeApiVersion(0, v.major, v.minor, 0)
    else
      MakeApiVersion(0, v.major, v.minor, 0)
  }

  /** The version fits the packed fields: major below 128, minor below 1024. */
  predicate Packable(v: ApiVersion) {
    v.major < 0x80 && v.minor < 0x400
  }

  /** Decoding a packed version gives it back, for every version the fields can hold. */
  lemma AsVkUintRoundTrip(v: ApiVersion)
    requires Packable(v)
    ensures ApiVersionMajor(AsVkUint(v)) == v.major && ApiVersionMinor(AsVkUint(v)) == v.minor
  {
    var low := v.minor * SHIFT_12;
    assert 0 <= low < SHIFT_22;
    var w := v.major * SHIFT_22 + low;
    assert w < U32_LIMIT;
    assert AsVkUint(v) == w;
    assert w / SHIFT_22 == v.major;
    assert w / SHIFT_12 == v.major * 0x400 + v.minor;
  }

  /** Packing preserves the order of packable versions, so the driver compares them as the crate does. */
  lemma AsVkUintMonotone(a: ApiVersion, b: ApiVersion)
    requires Packable(a) && Packable(b)
    ensures Less(a, b) <==> AsVkUint(a) < AsVkUint(b)
  {
    assert a.minor * SHIFT_12 < SHIFT_22 && b.minor * SHIFT_12 < SHIFT_22;
    assert a.major * SHIFT_22 + a.minor * SHIFT_12 < U32_LIMIT;
    assert b.major * SHIFT_22 + b.minor * SHIFT_12 < U32_LIMIT;
    if a.major < b.major {
      assert a.major * SHIFT_22 + SHIFT_22 <= b.major * SHIFT_22;
    } else if b.major < a.major {
      assert b.major * SHIFT_22 + SHIFT_22 <= a.major * SHIFT_22;
    }
  }

  /** A major number of 128 or more is cut off: version 128.0 reads back as 0.0. */
  lemma AsVkUintTruncatesMajor()
    ensures ApiVersionMajor(AsVkUint(ApiVersion(0x80, 0))) == 0
  {
  }

  /**
   * A minor number of 1024 or more is ORed into the major field: version
   * 1.1024 packs to the same word as 1.0.
   */
  lemma AsVkUintMinorOverflowMeetsMajor(major: u32, minor: u32)
    requires major == 1 && minor == 0x400
    ensures AsVkUint(ApiVersion(major, minor)) == AsVkUint(V1_0) == SHIFT_22
  {
    MakeApiVersionPacks(1, 0);
    assert Or32(0, (major * SHIFT_22) % U32_LIMIT) == SHIFT_22;
    assert (minor * SHIFT_12) % U32_LIMIT == SHIFT_22;
    BitOrSelf(SHIFT_22);
  }

  /** `vk::ExtensionProperties` / `ExtensionProperties`: a name and a spec version. */
  datatype ExtensionProperties = ExtensionProperties(extensionName: string, specVersion: u32)

  /** `extension_name_is_in_properties_list`: some entry has exactly this name. */
  function ExtensionNameIsInPropertiesList(extensionProperties: seq<ExtensionProperties>, extensionName: string): (r: bool)
    ensures r <==> exists i :: 0 <= i < |extensionProperties| && extensionProperties[i].extensionName == extensionName
  {
    if |extensionProperties| == 0 then false
    else if extensionProperties[0].extensionName == extensionName then true
    else
      var rest := ExtensionNameIsInPropertiesList(extensionProperties[1..], extensionName);
      assert forall i :: 1 <= i < |extensionProperties| ==> extensionProperties[i] == extensionProperties[1..][i - 1];
      rest
  }

  /** The `retain` of `any_unsupported_extensions`: the requested names absent from the list, in order. */
  function Unsupported(extensionProperties: seq<ExtensionProperties>, extensionNames: seq<string>): (r: seq<string>)
    ensures |r| <= |extensionNames|
    ensures forall n :: n in r <==> n in extensionNames && !ExtensionNameIsInPropertiesList(extensionProperties, n)
  {
    if |extensionNames| == 0 then []
    else
      var rest := Unsupported(extensionProperties, extensionNames[1..]);
      assert forall n :: n in extensionNames <==> n == extensionNames[0] || n in extensionNames[1..];
      if ExtensionNameIsInPropertiesList(extensionProperties, extensionNames[0]) then rest
      else [extensionNames[0]] + rest
  }

  /** Filtering distributes over concatenation, which is what keeping the order means. */
  lemma {:induction false} UnsupportedAppend(extensionProperties: seq<ExtensionProperties>, a: seq<string>, b: seq<string>)
    ensures Unsupported(extensionProperties, a + b) == Unsupported(extensionProperties, a) + Unsupported(extensionProperties, b)
    decreases |a|
  {
    if |a| == 0 {
      assert a + b == b;
    } else {
      assert (a + b)[1..] == a[1..] + b;
      UnsupportedAppend(extensionProperties, a[1..], b);
    }
  }

  /** Supported names are all dropped and unsupported ones all kept. */
  lemma {:induction false} UnsupportedKeepsExactlyTheMissing(extensionProperties: seq<ExtensionProperties>, extensionNames: seq<string>)
    ensures (forall i :: 0 <= i < |extensionNames| ==> ExtensionNameIsInPropertiesList(extensionProperties, extensionNames[i]))
            ==> Unsupported(extensionProperties, extensionNames) == []
    ensures (forall i :: 0 <= i < |extensionNames| ==> !ExtensionNameIsInPropertiesList(extensionProperties, extensionNames[i]))
            ==> Unsupported(extensionProperties, extensionNames) == extensionNames
    decreases |extensionNames|
  {
    if |extensionNames| != 0 {
      UnsupportedKeepsExactlyTheMissing(extensionProperties, extensionNames[1..]);
      assert forall i :: 1 <= i < |extensionNames| ==> extensionNames[i] == extensionNames[1..][i - 1];
      assert [extensionNames[0]] + extensionNames[1..] == extensionNames;
    }
  }

  /**
   * `Instance::any_unsupported_extensions`: the enumeration of the loader's
   * extensions (a parameter) either fails, or yields the requested names it lacks.
   */
  function AnyUnsupportedExtensions(enumerated: Result<seq<ExtensionProperties>, VkError>, extensionNames: seq<string>)
    : (r: Result<seq<string>, VkError>)
    ensures enumerated.Err? ==> r == Err(enumerated.error)
    ensures enumerated.Ok? ==> r.Ok? && forall n :: n in r.value <==>
      n in extensionNames && !ExtensionNameIsInPropertiesList(enumerated.value, n)
  {
    match enumerated
    case Err(e) => Err(e)
    case Ok(props) => Ok(Unsupported(props, extensionNames))
  }

  /** `Instance::supports_extension` */
  function InstanceSupportsExtension(enumerated: Result<seq<ExtensionProperties>, VkError>, extensionName: string)
    : (r: Result<bool, VkError>)
    ensures enumerated.Err? ==> r == Err(enumerated.error)
    ensures enumerated.Ok? ==> r.Ok? && (r.value <==> Unsupported(enumerated.value, [extensionName]) == [])
  {
    match enumerated
    case Err(e) => Err(e)
    case Ok(props) => Ok(ExtensionNameIsInPropertiesList(props, extensionName))
  }

  /** A set of enabled Vulkan features, by name; `Default` enables none. */
  datatype Features = Features(enabled: set<string>)

  const DEFAULT_FEATURES := Features({})

  /**
   * The version gate of `physical_device_features_1_1/1_2/1_3` (both
   * crates): the driver's answer when the instance's version reaches
   * `required`, `None` below it.
   */
  function FeaturesIfSupported(maxApiVersion: ApiVersion, required: ApiVersion, queried: Features): (r: Option<Features>)
    ensures r.None? <==> Less(maxApiVersion, required)
    ensures r.Some? ==> r.value == queried
  {
    if Less(maxApiVersion, required) then None else Some(queried)
  }

  /** `PhysicalDeviceFeatures` */
  datatype PhysicalDeviceFeatures = PhysicalDeviceFeatures(
    features10: Features, features11: Features, features12: Features, features13: Features)

  /** `physical_device_features`: each gated set, or the default when the gate is closed. */
  function PhysicalDeviceFeaturesFor(maxApiVersion: ApiVersion, queried10: Features, queried11: Features,
                                     queried12: Features, queried13: Features): (r: PhysicalDeviceFeatures)
    ensures r.features10 == queried10
    ensures r.features11 == if Less(maxApiVersion, V1_1) then DEFAULT_FEATURES else queried11
    ensures r.features12 == if Less(maxApiVersion, V1_2) then DEFAULT_FEATURES else queried12
    ensures r.features13 == if Less(maxApiVersion, V1_3) then DEFAULT_FEATURES else queried13
  {
    PhysicalDeviceFeatures(queried10,
                           FeaturesIfSupported(maxApiVersion, V1_1, queried11).UnwrapOr(DEFAULT_FEATURES),
                           FeaturesIfSupported(maxApiVersion, V1_2, queried12).UnwrapOr(DEFAULT_FEATURES),
                           FeaturesIfSupported(maxApiVersion, V1_3, queried13).UnwrapOr(DEFAULT_FEATURES))
  }

  /** The gates are nested: a newer feature set is only populated when every older one is. */
  lemma FeatureGatesNest(maxApiVersion: ApiVersion, q: Features)
    ensures FeaturesIfSupported(maxApiVersion, V1_3, q).Some? ==> FeaturesIfSupported(maxApiVersion, V1_2, q).Some?
    ensures FeaturesIfSupported(maxApiVersion, V1_2, q).Some? ==> FeaturesIfSupported(maxApiVersion, V1_1, q).Some?
  {
  }

  /** `InstanceError` */
  datatype InstanceError =
    | UnsupportedRawDisplayHandle
    | ExtensionsNotPresent(extensionNames: seq<string>)
    | Creation(result: VkError)

  const SURFACE_EXTENSION := "VK_KHR_surface"
  const WIN32_SURFACE_EXTENSION := "VK_KHR_win32_surface"
  const WAYLAND_SURFACE_EXTENSION := "VK_KHR_wayland_surface"
  const XLIB_SURFACE_EXTENSION := "VK_KHR_xlib_surface"
  const XCB_SURFACE_EXTENSION := "VK_KHR_xcb_surface"
  const ANDROID_SURFACE_EXTENSION := "VK_KHR_android_surface"
  const METAL_SURFACE_EXTENSION := "VK_EXT_metal_surface"

  /**
   * `required_surface_extensions`: `VK_KHR_surface` and the platform's
   * surface extension for each supported display system (Metal for both
   * AppKit and UiKit); any other display is unsupported.
   */
  function RequiredSurfaceExtensions(display: Surface.WindowSystem): (r: Result<seq<string>, InstanceError>)
    ensures display.Other? <==> r == Err(UnsupportedRawDisplayHandle)
    ensures r.Ok? ==> |r.value| == 2 && r.value[0] == SURFACE_EXTENSION
    ensures r.Ok? && (display.AppKit? || display.UiKit?) ==> r.value[1] == METAL_SURFACE_EXTENSION
    ensures r.Err? ==> display.Other?
  {
    match display
    case Windows => Ok([SURFACE_EXTENSION, WIN32_SURFACE_EXTENSION])
    case Wayland => Ok([SURFACE_EXTENSION, WAYLAND_SURFACE_EXTENSION])
    case Xlib => Ok([SURFACE_EXTENSION, XLIB_SURFACE_EXTENSION])
    case Xcb => Ok([SURFACE_EXTENSION, XCB_SURFACE_EXTENSION])
    case Android => Ok([SURFACE_EXTENSION, ANDROID_SURFACE_EXTENSION])
    case AppKit => Ok([SURFACE_EXTENSION, METAL_SURFACE_EXTENSION])
    case UiKit => Ok([SURFACE_EXTENSION, METAL_SURFACE_EXTENSION])
    case Other => Err(UnsupportedRawDisplayHandle)
  }

  /** `vk::InstanceCreateInfo`, reduced to the application's API version (`None`: a null `p_application_info`) and the name lists. */
  datatype InstanceCreateInfo = InstanceCreateInfo(
    applicationApiVersion: Option<u32>,
    enabledLayerNames: seq<string>,
    enabledExtensionNames: seq<string>)

  /** `Instance`: the created handle, the version it was made for and the names it enabled. */
  datatype InstanceObject = InstanceObject(
    handle: Handle,
    maxApiVersion: ApiVersion,
    enabledExtensions: seq<string>,
    enabledLayers: seq<string>)

  /** The create info of `Instance::new`: the packed version in the application info, the names as given. */
  function CreateInfoFor(maxApiVersion: ApiVersion, layerNames: seq<string>, extensionNames: seq<string>): (r: InstanceCreateInfo)
    ensures r.applicationApiVersion == Some(AsVkUint(maxApiVersion))
    ensures r.enabledLayerNames == layerNames && r.enabledExtensionNames == extensionNames
  {
    InstanceCreateInfo(Some(AsVkUint(maxApiVersion)), layerNames, extensionNames)
  }

  /** `Instance::new`: no support check; on success the version and both name lists are kept as passed. */
  function New(maxApiVersion: ApiVersion, layerNames: seq<string>, extensionNames: seq<string>,
               created: Result<Handle, VkError>): (r: Result<InstanceObject, InstanceError>)
    ensures created.Err? ==> r == Err(Creation(created.error))
    ensures created.Ok? ==> (r.Ok? && r.value.handle == created.value && r.value.maxApiVersion == maxApiVersion &&
      r.value.enabledExtensions == extensionNames && r.value.enabledLayers == layerNames)
  {
    match created
    case Err(e) => Err(Creation(e))
    case Ok(h) => Ok(InstanceObject(h, maxApiVersion, extensionNames, layerNames))
  }

  /** The version `new_from_create_info` reads: decoded from the application info, 0.0 without one. */
  function DecodeMaxApiVersion(applicationApiVersion: Option<u32>): (r: ApiVersion)
    ensures applicationApiVersion.None? ==> r == ApiVersion(0, 0)
    ensures applicationApiVersion.Some? ==>
      r == ApiVersion(ApiVersionMajor(applicationApiVersion.value), ApiVersionMinor(applicationApiVersion.value))
  {
    match applicationApiVersion
    case Some(v) => ApiVersion(ApiVersionMajor(v), ApiVersionMinor(v))
    case None => ApiVersion(0, 0)
  }

  /** `Instance::new_from_create_info`: creation from a caller's create info, which only yields the version. */
  function NewFromCreateInfo(createInfo: InstanceCreateInfo, enabledExtensions: seq<string>, enabledLayers: seq<string>,
                             created: Result<Handle, VkError>): (r: Result<InstanceObject, InstanceError>)
    ensures created.Err? ==> r == Err(Creation(created.error))
    ensures created.Ok? ==> (r.Ok? && r.value.handle == created.value &&
      r.value.maxApiVersion == DecodeMaxApiVersion(createInfo.applicationApiVersion) &&
      r.value.enabledExtensions == enabledExtensions && r.value.enabledLayers == enabledLayers)
  {
    match created
    case Err(e) => Err(Creation(e))
    case Ok(h) => Ok(InstanceObject(h, DecodeMaxApiVersion(createInfo.applicationApiVersion), enabledExtensions, enabledLayers))
  }

  /** Creating from the create info `new` would build gives the same instance, for every packable version. */
  lemma NewFromCreateInfoAgreesWithNew(maxApiVersion: ApiVersion, layerNames: seq<string>, extensionNames: seq<string>,
                                       created: Result<Handle, VkError>)
    requires Packable(maxApiVersion)
    ensures NewFromCreateInfo(CreateInfoFor(maxApiVersion, layerNames, extensionNames), extensionNames, layerNames, created)
            == New(maxApiVersion, layerNames, extensionNames, created)
  {
    AsVkUintRoundTrip(maxApiVersion);
  }

  /**
   * `new_with_display_extensions`: the caller's extensions followed by the
   * display's; if the loader lacks any of them they are reported and no
   * instance is created, otherwise `new` with the combined list.
   */
  function NewWithDisplayExtensions(maxApiVersion: ApiVersion, display: Surface.WindowSystem, layerNames: seq<string>,
                                    otherExtensionNames: seq<string>,
                                    enumerated: Result<seq<ExtensionProperties>, VkError>,
                                    created: Result<Handle, VkError>): (r: Result<InstanceObject, InstanceError>)
    ensures display.Other? ==> r == Err(UnsupportedRawDisplayHandle)
    ensures !display.Other? && enumerated.Err? ==> r == Err(Creation(enumerated.error))
    ensures !display.Other? && enumerated.Ok? ==>
      var names := otherExtensionNames + RequiredSurfaceExtensions(display).value;
      var missing := Unsupported(enumerated.value, names);
      (missing != [] ==> r == Err(ExtensionsNotPresent(missing))) &&
      (missing == [] ==> r == New(maxApiVersion, layerNames, names, created))
    ensures r.Ok? ==> (r.value.enabledExtensions[..|otherExtensionNames|] == otherExtensionNames &&
      forall n :: n in r.value.enabledExtensions ==> enumerated.Ok? && ExtensionNameIsInPropertiesList(enumerated.value, n))
  {
    match RequiredSurfaceExtensions(display)
    case Err(e) => Err(e)
    case Ok(displayExtensionNames) =>
      var extensionNames := otherExtensionNames + displayExtensionNames;
      match AnyUnsupportedExtensions(enumerated, extensionNames).MapErr(e => Creation(e))
      case Err(e) => Err(e)
      case Ok(unsupported) =>
        if unsupported != [] then Err(ExtensionsNotPresent(unsupported))
        else
          assert extensionNames[..|otherExtensionNames|] == otherExtensionNames;
          New(maxApiVersion, layerNames, extensionNames, created)
  }

  // The older crate (src/instance.rs).

  const VALIDATION_LAYER_NAME := "VK_LAYER_KHRONOS_validation"
  const DEBUG_UTILS_EXTENSION_NAME := "VK_EXT_debug_utils"

  /** src/instance.rs `InstanceError` */
  datatype LegacyInstanceError =
    | AppNameStringConversion(nul: NulError)
    | ExtensionStringConversion(nul: NulError)
    | LayerStringConversion(nul: NulError)
    | LegacyCreation(result: VkError)

  /** What src/instance.rs `Instance::new` passes to `vkCreateInstance`. */
  datatype LegacyInstanceCreateInfo = LegacyInstanceCreateInfo(
    applicationName: string,
    engineName: string,
    apiVersion: u32,
    enabledLayerNames: seq<string>,
    enabledExtensionNames: seq<string>)

  /** src/instance.rs `Instance`: the handle and the requested version. */
  datatype LegacyInstance = LegacyInstance(handle: Handle, apiVersion: ApiVersion)

  /**
   * src/instance.rs `Instance::new`: converts the application name, the
   * layer names and the extension names, in that order, to C strings; appends
   * the display's extensions (none when their enumeration fails); appends the
   * validation layer and the debug-utils extension when validation is on;
   * then creates the instance. `requested` is what was passed to the
   * driver, `None` when a conversion failed first.
   */
  method LegacyInstanceNew(apiVersion: ApiVersion, appName: string, displayExtensionNames: Result<seq<string>, VkError>,
                           enableDebugValidation: bool, additionalLayerNames: seq<string>,
                           additionalExtensionNames: seq<string>, created: Result<Handle, VkError>)
    returns (r: Result<LegacyInstance, LegacyInstanceError>, requested: Option<LegacyInstanceCreateInfo>)
    ensures '\0' in appName ==> r == Err(AppNameStringConversion(CStringNew(appName).error)) && requested.None?
    ensures '\0' !in appName && FirstWithNul(additionalLayerNames).Some? ==>
      r == Err(LayerStringConversion(CStringNew(additionalLayerNames[FirstWithNul(additionalLayerNames).value]).error)) &&
      requested.None?
    ensures '\0' !in appName && FirstWithNul(additionalLayerNames).None? && FirstWithNul(additionalExtensionNames).Some? ==>
      r == Err(ExtensionStringConversion(CStringNew(additionalExtensionNames[FirstWithNul(additionalExtensionNames).value]).error)) &&
      requested.None?
    ensures requested.Some? <==>
      '\0' !in appName && FirstWithNul(additionalLayerNames).None? && FirstWithNul(additionalExtensionNames).None?
    ensures requested.Some? ==>
      requested.value.applicationName == appName && requested.value.engineName == appName &&
      requested.value.apiVersion == AsVkUint(apiVersion) &&
      requested.value.enabledLayerNames == additionalLayerNames + (if enableDebugValidation then [VALIDATION_LAYER_NAME] else []) &&
      requested.value.enabledExtensionNames ==
        additionalExtensionNames + (if displayExtensionNames.Ok? then displayExtensionNames.value else []) +
        (if enableDebugValidation then [DEBUG_UTILS_EXTENSION_NAME] else [])
    ensures requested.Some? ==>
      (created.Err? ==> r == Err(LegacyCreation(created.error))) &&
      (created.Ok? ==> r == Ok(LegacyInstance(created.value, apiVersion)))
  {
    var appNameC := CStringNew(appName);
    if appNameC.Err? {
      return Err(AppNameStringConversion(appNameC.error)), None;
    }
    StringToCStringVecSpec(additionalLayerNames);
    StringToCStringVecSpec(additionalExtensionNames);
    var layerNamesRaw := StringToCStringVec(additionalLayerNames);
    if layerNamesRaw.Err? {
      return Err(LayerStringConversion(layerNamesRaw.error)), None;
    }
    var extensionNamesRaw := StringToCStringVec(additionalExtensionNames);
    if extensionNamesRaw.Err? {
      return Err(ExtensionStringConversion(extensionNamesRaw.error)), None;
    }
    var layerNames := layerNamesRaw.value;
    var extensionNames := extensionNamesRaw.value;
    if displayExtensionNames.Ok? {
      extensionNames := extensionNames + displayExtensionNames.value;
    }
    if enableDebugValidation {
      layerNames := layerNames + [VALIDATION_LAYER_NAME];
    }
    if enableDebugValidation {
      extensionNames := extensionNames + [DEBUG_UTILS_EXTENSION_NAME];
    }
    requested := Some(LegacyInstanceCreateInfo(appNameC.value, appNameC.value,
                                               MakeApiVersion(0, apiVersion.major, apiVersion.minor, 0),
                                               layerNames, extensionNames));
    match created {
      case Err(e) => r := Err(LegacyCreation(e));
      case Ok(h) => r := Ok(LegacyInstance(h, apiVersion));
    }
  }

  /** The validation layer is requested exactly when validation is on, unless the caller named it already. */
  lemma LegacyValidationLayerIffEnabled(additionalLayerNames: seq<string>, enableDebugValidation: bool)
    requires VALIDATION_LAYER_NAME !in additionalLayerNames
    ensures var layers := additionalLayerNames + (if enableDebugValidation then [VALIDATION_LAYER_NAME] else []);
      VALIDATION_LAYER_NAME in layers <==> enableDebugValidation
  {
  }
}
