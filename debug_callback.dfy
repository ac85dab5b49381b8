// Debug-utils messenger properties and their
// `vk::DebugUtilsMessengerCreateInfoEXT` encoding (bort-vk/src/debug_callback.rs).
// The callback is a function pointer, modelled as an opaque address.
module DebugCallback {
  import opened Wrappers
  import opened VkTypes

  const SEVERITY_VERBOSE: Flags := 0x0000_0001
  const SEVERITY_INFO: Flags := 0x0000_0010
  const SEVERITY_WARNING: Flags := 0x0000_0100
  const SEVERITY_ERROR: Flags := 0x0000_1000

  const TYPE_GENERAL: Flags := 0x1
  const TYPE_VALIDATION: Flags := 0x2
  const TYPE_PERFORMANCE: Flags := 0x4

  /** `DebugCallbackProperties` */
  datatype DebugCallbackProperties = DebugCallbackProperties(messageSeverity: Flags, messageType: Flags)

  /** `vk::DebugUtilsMessengerCreateInfoEXT` */
  datatype MessengerCreateInfo = MessengerCreateInfo(
    flags: Flags,
    messageSeverity: Flags,
    messageType: Flags,
    pfnUserCallback: Option<Handle>,
    pUserData: Option<Handle>)

  /** `vk::DebugUtilsMessengerCreateInfoEXT::default()`: all zero and null. */
  const DEFAULT_MESSENGER_CREATE_INFO := MessengerCreateInfo(0, 0, 0, None, None)

  /** `DebugCallbackProperties::default()`: every severity and the general, validation and performance types. */
  function DefaultProperties(): (r: DebugCallbackProperties)
    ensures Contains(r.messageSeverity, SEVERITY_ERROR) && Contains(r.messageSeverity, SEVERITY_WARNING)
    ensures Contains(r.messageSeverity, SEVERITY_INFO) && Contains(r.messageSeverity, SEVERITY_VERBOSE)
    ensures Contains(r.messageType, TYPE_GENERAL) && Contains(r.messageType, TYPE_VALIDATION)
    ensures Contains(r.messageType, TYPE_PERFORMANCE)
    ensures r.messageSeverity == SEVERITY_ERROR | SEVERITY_WARNING | SEVERITY_INFO | SEVERITY_VERBOSE
    ensures r.messageType == TYPE_GENERAL | TYPE_VALIDATION | TYPE_PERFORMANCE
  {
    DebugCallbackProperties(SEVERITY_ERROR | SEVERITY_WARNING | SEVERITY_INFO | SEVERITY_VERBOSE,
                            TYPE_GENERAL | TYPE_VALIDATION | TYPE_PERFORMANCE)
  }

  /** `write_create_info`: the two flag sets, and nothing else of the given create info. */
  function WriteCreateInfo(p: DebugCallbackProperties, ci: MessengerCreateInfo): (r: MessengerCreateInfo)
    ensures r.messageSeverity == p.messageSeverity && r.messageType == p.messageType
    ensures r.flags == ci.flags && r.pfnUserCallback == ci.pfnUserCallback && r.pUserData == ci.pUserData
  {
    ci.(messageSeverity := p.messageSeverity, messageType := p.messageType)
  }

  /** `create_info(debug_callback)`: the default create info with the callback attached, then written. */
  function CreateInfo(p: DebugCallbackProperties, debugCallback: Option<Handle>): (r: MessengerCreateInfo)
    ensures r == WriteCreateInfo(p, DEFAULT_MESSENGER_CREATE_INFO.(pfnUserCallback := debugCallback))
    ensures r.pfnUserCallback == debugCallback && r.flags == 0 && r.pUserData.None?
  {
    WriteCreateInfo(p, DEFAULT_MESSENGER_CREATE_INFO.(pfnUserCallback := debugCallback))
  }

  /** `from_create_info`: the two flag sets. */
  function FromCreateInfo(ci: MessengerCreateInfo): (r: DebugCallbackProperties)
    ensures WriteCreateInfo(r, ci) == ci
  {
    DebugCallbackProperties(ci.messageSeverity, ci.messageType)
  }

  /** Every set of properties survives its create info, whatever the callback. */
  lemma RoundTrip(p: DebugCallbackProperties, debugCallback: Option<Handle>)
    ensures FromCreateInfo(CreateInfo(p, debugCallback)) == p
  {
  }

  /** Decoding then writing into a create info gives it back unchanged. */
  lemma WriteOfDecodedIsIdentity(ci: MessengerCreateInfo)
    ensures WriteCreateInfo(FromCreateInfo(ci), ci) == ci
  {
  }

  /** `DebugCallback`: its messenger handle, its properties and its instance. */
  datatype DebugCallbackObject = DebugCallbackObject(handle: Handle, properties: DebugCallbackProperties, instance: Handle)

  /** `DebugCallback::new`: created from `create_info(debug_callback)`; keeps the properties given. */
  function New(instance: Handle, debugCallback: Option<Handle>, p: DebugCallbackProperties, created: Result<Handle, VkError>)
    : (r: (Result<DebugCallbackObject, VkError>, MessengerCreateInfo))
    ensures r.1 == CreateInfo(p, debugCallback)
    ensures created.Err? ==> r.0 == Err(created.error)
    ensures created.Ok? ==> r.0 == Ok(DebugCallbackObject(created.value, p, instance))
  {
    match created
    case Err(e) => (Err(e), CreateInfo(p, debugCallback))
    case Ok(h) => (Ok(DebugCallbackObject(h, p, instance)), CreateInfo(p, debugCallback))
  }

  /** `DebugCallback::new_from_create_info`: keeps the decoded properties. */
  function NewFromCreateInfo(instance: Handle, ci: MessengerCreateInfo, created: Result<Handle, VkError>)
    : (r: Result<DebugCallbackObject, VkError>)
    ensures created.Err? ==> r == Err(created.error)
    ensures created.Ok? ==> r.Ok? && r.value.handle == created.value && r.value.instance == instance
    ensures created.Ok? ==> r.value.properties.messageSeverity == ci.messageSeverity
    ensures created.Ok? ==> r.value.properties.messageType == ci.messageType
  {
    match created
    case Err(e) => Err(e)
    case Ok(h) => Ok(DebugCallbackObject(h, FromCreateInfo(ci), instance))
  }

  /** Creating from the create info of some properties keeps the same properties as creating from them. */
  lemma NewFromCreateInfoAgreesWithNew(instance: Handle, debugCallback: Option<Handle>, p: DebugCallbackProperties,
                                       created: Result<Handle, VkError>)
    ensures NewFromCreateInfo(instance, CreateInfo(p, debugCallback), created) == New(instance, debugCallback, p, created).0
  {
  }
}
