// A physical device and what it supports (bort-vk/src/physical_device.rs;
// the older src/physical_device.rs as the `Legacy` members). The driver
// queries are parameters: the properties, the decoded device name and the
// enumerated extensions.
module PhysicalDevice {
  import opened Wrappers
  import opened VkTypes
  import opened Common
  import Memory
  import Instance

  /** `vk::QueueFamilyProperties`, reduced to the fields the crate reads. */
  datatype QueueFamilyProperties = QueueFamilyProperties(queueFlags: Flags, queueCount: u32)

  /** `PhysicalDevice`: the handle, the packed API version from its properties, and the queried tables. */
  datatype PhysicalDeviceObject = PhysicalDeviceObject(
    handle: Handle,
    apiVersion: u32,
    name: string,
    queueFamilyProperties: seq<QueueFamilyProperties>,
    memoryProperties: Memory.MemoryProperties,
    extensionProperties: seq<Instance.ExtensionProperties>,
    instance: Handle)

  /** `PhysicalDeviceError` (bort-vk); the older crate adds `ExtensionNameStringConversion`. */
  datatype PhysicalDeviceError =
    | NameStringConversion(nameError: Utf8Error)
    | ExtensionNameStringConversion(extensionError: Utf8Error)
    | EnumerateExtensionProperties(result: VkError)

  /**
   * `PhysicalDevice::new`: the device name is converted first, then the
   * extensions are enumerated; each failure is reported with its own variant.
   */
  function New(instance: Handle, handle: Handle, apiVersion: u32, deviceName: Result<string, Utf8Error>,
               queueFamilies: seq<QueueFamilyProperties>, memoryProperties: Memory.MemoryProperties,
               enumerated: Result<seq<Instance.ExtensionProperties>, VkError>): (r: Result<PhysicalDeviceObject, PhysicalDeviceError>)
    ensures deviceName.Err? ==> r == Err(NameStringConversion(deviceName.error))
    ensures deviceName.Ok? && enumerated.Err? ==> r == Err(EnumerateExtensionProperties(enumerated.error))
    ensures r.Ok? <==> deviceName.Ok? && enumerated.Ok?
    ensures r.Ok? ==> r.value.name == deviceName.value && r.value.extensionProperties == enumerated.value
    ensures r.Ok? ==> r.value.handle == handle && r.value.instance == instance && r.value.apiVersion == apiVersion
    ensures r.Ok? ==> r.value.queueFamilyProperties == queueFamilies && r.value.memoryProperties == memoryProperties
  {
    match deviceName
    case Err(e) => Err(NameStringConversion(e))
    case Ok(name) =>
      match enumerated
      case Err(e) => Err(EnumerateExtensionProperties(e))
      case Ok(props) => Ok(PhysicalDeviceObject(handle, apiVersion, name, queueFamilies, memoryProperties, props, instance))
  }

  /** A `vk::ExtensionProperties` entry of the older crate: its name's UTF-8 conversion and its spec version. */
  datatype RawExtensionProperties = RawExtensionProperties(extensionName: Result<string, Utf8Error>, specVersion: u32)

  /** The older `ExtensionProperties::new`, with the error mapped as `PhysicalDevice::new` maps it. */
  function LegacyExtensionPropertiesNew(raw: RawExtensionProperties): (r: Result<Instance.ExtensionProperties, PhysicalDeviceError>)
    ensures raw.extensionName.Ok? <==> r.Ok?
    ensures r.Ok? ==> r.value == Instance.ExtensionProperties(raw.extensionName.value, raw.specVersion)
    ensures r.Err? ==> r.error == ExtensionNameStringConversion(raw.extensionName.error)
  {
    match raw.extensionName
    case Ok(n) => Ok(Instance.ExtensionProperties(n, raw.specVersion))
    case Err(e) => Err(ExtensionNameStringConversion(e))
  }

  /**
   * The older `PhysicalDevice::new`: as the newer one, but every extension
   * name is converted too (`collect::<Result<Vec<_>, _>>`), and the first
   * name that fails decides the error.
   */
  function LegacyNew(instance: Handle, handle: Handle, apiVersion: u32, deviceName: Result<string, Utf8Error>,
                     queueFamilies: seq<QueueFamilyProperties>, memoryProperties: Memory.MemoryProperties,
                     enumerated: Result<seq<RawExtensionProperties>, VkError>): (r: Result<PhysicalDeviceObject, PhysicalDeviceError>)
    ensures deviceName.Err? ==> r == Err(NameStringConversion(deviceName.error))
    ensures deviceName.Ok? && enumerated.Err? ==> r == Err(EnumerateExtensionProperties(enumerated.error))
    ensures r.Ok? <==> (deviceName.Ok? && enumerated.Ok? &&
                        forall i :: 0 <= i < |enumerated.value| ==> enumerated.value[i].extensionName.Ok?)
    ensures r.Ok? ==> (|r.value.extensionProperties| == |enumerated.value| &&
                       forall i :: 0 <= i < |enumerated.value| ==>
                         r.value.extensionProperties[i] ==
                           Instance.ExtensionProperties(enumerated.value[i].extensionName.value, enumerated.value[i].specVersion))
    ensures r.Ok? ==> r.value.name == deviceName.value && r.value.handle == handle && r.value.apiVersion == apiVersion
    ensures (deviceName.Ok? && enumerated.Ok? && r.Err?) ==>
      (exists k :: 0 <= k < |enumerated.value| && enumerated.value[k].extensionName.Err? &&
                   (forall j :: 0 <= j < k ==> enumerated.value[j].extensionName.Ok?) &&
                   r.error == ExtensionNameStringConversion(enumerated.value[k].extensionName.error))
  {
    match deviceName
    case Err(e) => Err(NameStringConversion(e))
    case Ok(name) =>
      match enumerated
      case Err(e) => Err(EnumerateExtensionProperties(e))
      case Ok(raws) =>
        var converted := seq(|raws|, i requires 0 <= i < |raws| => LegacyExtensionPropertiesNew(raws[i]));
        CollectOk(converted);
        CollectErr(converted);
        match Collect(converted)
        case Err(e) =>
          var k := FirstErrIndex(converted).value;
          assert forall j :: 0 <= j < k ==> raws[j].extensionName.Ok? by {
            forall j | 0 <= j < k ensures raws[j].extensionName.Ok? { assert converted[j].Ok?; }
          }
          Err(e)
        case Ok(props) =>
          assert forall i :: 0 <= i < |raws| ==> raws[i].extensionName.Ok? by {
            forall i | 0 <= i < |raws| ensures raws[i].extensionName.Ok? { assert converted[i].Ok?; }
          }
          Ok(PhysicalDeviceObject(handle, apiVersion, name, queueFamilies, memoryProperties, props, instance))
  }

  /**
   * `supports_min_api_ver` (bort-vk) and `supports_api_ver` (src) as
   * written: the major and the minor number are each compared on their own.
   */
  function SupportsMinApiVerAsWritten(deviceApiVersion: u32, apiVersion: Instance.ApiVersion): (r: bool)
    ensures r <==> DeviceVersion(deviceApiVersion).major >= apiVersion.major &&
                   DeviceVersion(deviceApiVersion).minor >= apiVersion.minor
  {
    if Instance.ApiVersionMajor(deviceApiVersion) < apiVersion.major then false
    else if Instance.ApiVersionMinor(deviceApiVersion) < apiVersion.minor then false
    else true
  }

  /** The version a device reports, decoded from its packed properties field. */
  function DeviceVersion(deviceApiVersion: u32): (r: Instance.ApiVersion)
    ensures Instance.Packable(r)
    ensures r.major == Instance.ApiVersionMajor(deviceApiVersion) && r.minor == Instance.ApiVersionMinor(deviceApiVersion)
  {
    Instance.ApiVersion(Instance.ApiVersionMajor(deviceApiVersion), Instance.ApiVersionMinor(deviceApiVersion))
  }

  /** A device at 2.0 fails the component-wise test for 1.3 although 2.0 comes after 1.3. */
  lemma SupportsMinApiVerCounterexample()
    ensures var device := Instance.AsVkUint(Instance.ApiVersion(2, 0));
      !SupportsMinApiVerAsWritten(device, Instance.V1_3) && Instance.Less(Instance.V1_3, DeviceVersion(device))
  {
    Instance.AsVkUintRoundTrip(Instance.ApiVersion(2, 0));
  }

  /** The corrected test: the device's version is at least the requested one in the version order. */
  function SupportsMinApiVer(deviceApiVersion: u32, apiVersion: Instance.ApiVersion): (r: bool)
    ensures r <==> Instance.LessEq(apiVersion, DeviceVersion(deviceApiVersion))
  {
    !Instance.Less(DeviceVersion(deviceApiVersion), apiVersion)
  }

  /**
   * The written test never accepts a device the corrected one rejects, and
   * the two agree whenever the majors are equal; only a newer major with a
   * smaller minor tells them apart.
   */
  lemma AsWrittenIsStricter(deviceApiVersion: u32, apiVersion: Instance.ApiVersion)
    ensures SupportsMinApiVerAsWritten(deviceApiVersion, apiVersion) ==> SupportsMinApiVer(deviceApiVersion, apiVersion)
    ensures DeviceVersion(deviceApiVersion).major == apiVersion.major ==>
      (SupportsMinApiVerAsWritten(deviceApiVersion, apiVersion) <==> SupportsMinApiVer(deviceApiVersion, apiVersion))
    ensures SupportsMinApiVer(deviceApiVersion, apiVersion) && !SupportsMinApiVerAsWritten(deviceApiVersion, apiVersion) ==>
      DeviceVersion(deviceApiVersion).major > apiVersion.major && DeviceVersion(deviceApiVersion).minor < apiVersion.minor
  {
  }

  /** For a device version packed by `as_vk_uint`, the corrected test is the driver's integer comparison. */
  lemma SupportsMinApiVerComparesPacked(device: Instance.ApiVersion, apiVersion: Instance.ApiVersion)
    requires Instance.Packable(device) && Instance.Packable(apiVersion)
    ensures SupportsMinApiVer(Instance.AsVkUint(device), apiVersion) <==> Instance.AsVkUint(apiVersion) <= Instance.AsVkUint(device)
  {
    Instance.AsVkUintRoundTrip(device);
    assert DeviceVersion(Instance.AsVkUint(device)) == device;
    Instance.AsVkUintMonotone(device, apiVersion);
  }

  /** `supports_extension` (both crates): some extension of the device has this name. */
  function SupportsExtension(device: PhysicalDeviceObject, extensionName: string): (r: bool)
    ensures r <==> exists i :: 0 <= i < |device.extensionProperties| && device.extensionProperties[i].extensionName == extensionName
  {
    Instance.ExtensionNameIsInPropertiesList(device.extensionProperties, extensionName)
  }

  /** `any_unsupported_extensions`: the requested names the device lacks, in their order. */
  function AnyUnsupportedExtensions(device: PhysicalDeviceObject, extensionNames: seq<string>): (r: seq<string>)
    ensures forall n :: n in r <==> n in extensionNames && !SupportsExtension(device, n)
    ensures (forall i :: 0 <= i < |extensionNames| ==> SupportsExtension(device, extensionNames[i])) ==> r == []
  {
    Instance.UnsupportedKeepsExactlyTheMissing(device.extensionProperties, extensionNames);
    Instance.Unsupported(device.extensionProperties, extensionNames)
  }

  /** The older `supports_extensions`: every requested name is supported (so an empty request is). */
  function LegacySupportsExtensions(device: PhysicalDeviceObject, extensionNames: seq<string>): (r: bool)
    ensures r <==> forall i :: 0 <= i < |extensionNames| ==> SupportsExtension(device, extensionNames[i])
  {
    if |extensionNames| == 0 then true
    else
      var rest := LegacySupportsExtensions(device, extensionNames[1..]);
      assert forall i :: 1 <= i < |extensionNames| ==> extensionNames[i] == extensionNames[1..][i - 1];
      SupportsExtension(device, extensionNames[0]) && rest
  }

  /** The two crates' extension checks agree: all supported exactly when none is unsupported. */
  lemma SupportsExtensionsIffNoneUnsupported(device: PhysicalDeviceObject, extensionNames: seq<string>)
    ensures LegacySupportsExtensions(device, extensionNames) <==> AnyUnsupportedExtensions(device, extensionNames) == []
  {
    var u := AnyUnsupportedExtensions(device, extensionNames);
    if !LegacySupportsExtensions(device, extensionNames) {
      var i :| 0 <= i < |extensionNames| && !SupportsExtension(device, extensionNames[i]);
      assert extensionNames[i] in u;
    }
  }
}
