// Logical device creation: the feature structs chained onto
// `vk::DeviceCreateInfo` according to the instance's API version, the
// device object and its teardown (bort-vk/src/device.rs; the older
// src/device.rs as the `Legacy` members). `vkCreateDevice`,
// `vkDeviceWaitIdle` and `vkDestroyDevice` are recorded in a call log, and
// their results are parameters.
module Device {
  import opened Wrappers
  import opened VkTypes
  import opened Common
  import Instance

  /** `vk::DeviceQueueCreateInfo` */
  datatype QueueCreateInfo = QueueCreateInfo(flags: Flags, queueFamilyIndex: u32, queuePriorities: seq<F32>)

  /** A caller-supplied `ExtendsDeviceCreateInfo` struct, known only by its identity. */
  type PNextStruct = nat

  /** An entry of the `p_next` chain of a `vk::DeviceCreateInfo`. */
  datatype ChainEntry =
    | Features2(features10: Instance.Features)
    | Vulkan11Features(features11: Instance.Features)
    | Vulkan12Features(features12: Instance.Features)
    | Vulkan13Features(features13: Instance.Features)
    | CallerStruct(s: PNextStruct)

  /** `vk::DeviceCreateInfo`; `pNext` lists the chain in the order the driver walks it. */
  datatype DeviceCreateInfo = DeviceCreateInfo(
    queueCreateInfos: seq<QueueCreateInfo>,
    enabledExtensionNames: seq<string>,
    enabledLayerNames: seq<string>,
    enabledFeatures: Option<Instance.Features>,
    pNext: seq<ChainEntry>)

  /** ash's `push_next`: the struct goes in right after the root, ahead of what was chained before. */
  function PushNext(ci: DeviceCreateInfo, e: ChainEntry): (r: DeviceCreateInfo)
    ensures |r.pNext| == |ci.pNext| + 1 && r.pNext[0] == e && r.pNext[1..] == ci.pNext
    ensures r.(pNext := ci.pNext) == ci
  {
    ci.(pNext := [e] + ci.pNext)
  }

  /** The one-entry chain segment `[e]` when `included`, else nothing. */
  function Gate(included: bool, e: ChainEntry): seq<ChainEntry> {
    if included then [e] else []
  }

  /**
   * The feature part of the chain, as the driver walks it: nothing up to
   * Vulkan 1.0; above it the newest gated struct first and the
   * `PhysicalDeviceFeatures2` holding the 1.0 features last.
   * `withVulkan13` is false for the older crate, which has no 1.3 features.
   */
  function FeatureChain(maxApiVersion: Instance.ApiVersion, features: Instance.PhysicalDeviceFeatures,
                        withVulkan13: bool): (r: seq<ChainEntry>)
    ensures |r| <= 4
    ensures r != [] ==> r[|r| - 1] == Features2(features.features10)
    ensures !withVulkan13 ==> Vulkan13Features(features.features13) !in r
    ensures forall i :: 0 <= i < |r| ==> !r[i].CallerStruct?
  {
    if Instance.LessEq(maxApiVersion, Instance.V1_0) then []
    else
      Gate(withVulkan13 && !Instance.Less(maxApiVersion, Instance.V1_3), Vulkan13Features(features.features13)) +
      Gate(!Instance.Less(maxApiVersion, Instance.V1_2), Vulkan12Features(features.features12)) +
      Gate(!Instance.Less(maxApiVersion, Instance.V1_1), Vulkan11Features(features.features11)) +
      [Features2(features.features10)]
  }

  /**
   * Each feature struct is chained exactly when the instance version
   * reaches it, and the 1.0 features travel in `PhysicalDeviceFeatures2`
   * exactly when the version is above 1.0.
   */
  lemma FeatureChainGates(maxApiVersion: Instance.ApiVersion, f: Instance.PhysicalDeviceFeatures, withVulkan13: bool)
    ensures FeatureChain(maxApiVersion, f, withVulkan13) == [] <==> Instance.LessEq(maxApiVersion, Instance.V1_0)
    ensures Features2(f.features10) in FeatureChain(maxApiVersion, f, withVulkan13) <==> !Instance.LessEq(maxApiVersion, Instance.V1_0)
    ensures Vulkan11Features(f.features11) in FeatureChain(maxApiVersion, f, withVulkan13) <==> !Instance.Less(maxApiVersion, Instance.V1_1)
    ensures Vulkan12Features(f.features12) in FeatureChain(maxApiVersion, f, withVulkan13) <==> !Instance.Less(maxApiVersion, Instance.V1_2)
    ensures Vulkan13Features(f.features13) in FeatureChain(maxApiVersion, f, withVulkan13) <==>
      withVulkan13 && !Instance.Less(maxApiVersion, Instance.V1_3)
    ensures forall e :: e in FeatureChain(maxApiVersion, f, withVulkan13) ==> !e.CallerStruct?
  {
    var c := FeatureChain(maxApiVersion, f, withVulkan13);
    if !Instance.LessEq(maxApiVersion, Instance.V1_0) {
      assert c[|c| - 1] == Features2(f.features10);
    }
  }

  /**
   * The caller's structs, as the driver walks them after the loop has
   * pushed each one in turn: every one exactly once, the last pushed first.
   */
  function CallerChain(pNextStructs: seq<PNextStruct>): (r: seq<ChainEntry>)
    ensures |r| == |pNextStructs|
    ensures forall i :: 0 <= i < |r| ==> r[i] == CallerStruct(pNextStructs[|pNextStructs| - 1 - i])
  {
    if |pNextStructs| == 0 then []
    else [CallerStruct(pNextStructs[|pNextStructs| - 1])] + CallerChain(pNextStructs[..|pNextStructs| - 1])
  }

  /**
   * The version-dependent part of `new_with_p_next_chain` (bort-vk) and
   * `Device::new` (src): either `enabled_features`, or the feature structs
   * pushed one after another.
   */
  method ChainFeatures(ci: DeviceCreateInfo, maxApiVersion: Instance.ApiVersion,
                       features: Instance.PhysicalDeviceFeatures, withVulkan13: bool)
    returns (r: DeviceCreateInfo)
    ensures r.enabledFeatures == if Instance.LessEq(maxApiVersion, Instance.V1_0) then Some(features.features10) else ci.enabledFeatures
    ensures r.pNext == FeatureChain(maxApiVersion, features, withVulkan13) + ci.pNext
    ensures r.queueCreateInfos == ci.queueCreateInfos
    ensures r.enabledExtensionNames == ci.enabledExtensionNames && r.enabledLayerNames == ci.enabledLayerNames
  {
    r := ci;
    if Instance.LessEq(maxApiVersion, Instance.V1_0) {
      r := r.(enabledFeatures := Some(features.features10));
    } else {
      var g11 := !Instance.Less(maxApiVersion, Instance.V1_1);
      var g12 := !Instance.Less(maxApiVersion, Instance.V1_2);
      var g13 := withVulkan13 && !Instance.Less(maxApiVersion, Instance.V1_3);
      var base := [Features2(features.features10)] + ci.pNext;
      r := PushNext(r, Features2(features.features10));
      if g11 {
        r := PushNext(r, Vulkan11Features(features.features11));
      }
      assert r.pNext == Gate(g11, Vulkan11Features(features.features11)) + base;
      if g12 {
        r := PushNext(r, Vulkan12Features(features.features12));
      }
      assert r.pNext == Gate(g12, Vulkan12Features(features.features12)) + Gate(g11, Vulkan11Features(features.features11)) + base;
      if g13 {
        r := PushNext(r, Vulkan13Features(features.features13));
      }
      assert r.pNext == Gate(g13, Vulkan13Features(features.features13)) + Gate(g12, Vulkan12Features(features.features12)) +
                        Gate(g11, Vulkan11Features(features.features11)) + base;
    }
  }

  /**
   * The create info of `new_with_p_next_chain`: the queues and the names
   * as given, the feature structs, and then the caller's structs pushed in
   * order.
   */
  method BuildCreateInfo(maxApiVersion: Instance.ApiVersion, queueCreateInfos: seq<QueueCreateInfo>,
                         features: Instance.PhysicalDeviceFeatures, extensionNames: seq<string>,
                         layerNames: seq<string>, pNextStructs: seq<PNextStruct>)
    returns (ci: DeviceCreateInfo)
    ensures ci.queueCreateInfos == queueCreateInfos
    ensures ci.enabledExtensionNames == extensionNames && ci.enabledLayerNames == layerNames
    ensures ci.enabledFeatures == if Instance.LessEq(maxApiVersion, Instance.V1_0) then Some(features.features10) else None
    ensures ci.pNext == CallerChain(pNextStructs) + FeatureChain(maxApiVersion, features, true)
  {
    ci := DeviceCreateInfo(queueCreateInfos, extensionNames, layerNames, None, []);
    ci := ChainFeatures(ci, maxApiVersion, features, true);
    var i := 0;
    while i < |pNextStructs|
      invariant 0 <= i <= |pNextStructs|
      invariant ci.queueCreateInfos == queueCreateInfos
      invariant ci.enabledExtensionNames == extensionNames && ci.enabledLayerNames == layerNames
      invariant ci.enabledFeatures == if Instance.LessEq(maxApiVersion, Instance.V1_0) then Some(features.features10) else None
      invariant ci.pNext == CallerChain(pNextStructs[..i]) + FeatureChain(maxApiVersion, features, true)
    {
      assert pNextStructs[..i + 1][..i] == pNextStructs[..i];
      ci := PushNext(ci, CallerStruct(pNextStructs[i]));
      i := i + 1;
    }
    assert pNextStructs[..i] == pNextStructs;
  }

  /** Every caller struct is in the chain exactly once, after all the feature structs. */
  lemma CallerStructsChainedOnceAfterFeatures(maxApiVersion: Instance.ApiVersion, f: Instance.PhysicalDeviceFeatures,
                                              pNextStructs: seq<PNextStruct>)
    ensures var chain := CallerChain(pNextStructs) + FeatureChain(maxApiVersion, f, true);
      forall p :: multiset(chain)[CallerStruct(p)] == multiset(pNextStructs)[p]
  {
    FeatureChainGates(maxApiVersion, f, true);
    forall p ensures multiset(CallerChain(pNextStructs))[CallerStruct(p)] == multiset(pNextStructs)[p] {
      CallerChainCount(pNextStructs, p);
    }
  }

  lemma {:induction false} CallerChainCount(pNextStructs: seq<PNextStruct>, p: PNextStruct)
    ensures multiset(CallerChain(pNextStructs))[CallerStruct(p)] == multiset(pNextStructs)[p]
    decreases |pNextStructs|
  {
    if |pNextStructs| != 0 {
      var n := |pNextStructs| - 1;
      CallerChainCount(pNextStructs[..n], p);
      assert pNextStructs == pNextStructs[..n] + [pNextStructs[n]];
      assert CallerChain(pNextStructs) == [CallerStruct(pNextStructs[n])] + CallerChain(pNextStructs[..n]);
    }
  }

  /** `DeviceError` (both crates) */
  datatype DeviceError =
    | ExtensionStringConversion(extensionError: NulError)
    | LayerStringConversion(layerError: NulError)
    | Creation(result: VkError)
    | WaitIdle(waitResult: VkError)

  /** The driver calls a device makes. */
  datatype DeviceCall =
    | CreateDevice(physicalDevice: Handle, createInfo: DeviceCreateInfo)
    | DeviceWaitIdle
    | DestroyDevice

  /** `Device`: the driver's device, the callback it keeps alive, and the names it was created with. */
  class Device {
    var handle: Handle
    var debugCallbackRef: Option<Handle>
    const enabledExtensions: seq<string>
    const enabledLayers: seq<string>
    const physicalDevice: Handle
    /** The driver calls made on behalf of this object. */
    var calls: seq<DeviceCall>

    constructor Init(handle: Handle, debugCallbackRef: Option<Handle>, enabledExtensions: seq<string>,
                     enabledLayers: seq<string>, physicalDevice: Handle, calls: seq<DeviceCall>)
      ensures this.handle == handle && this.debugCallbackRef == debugCallbackRef
      ensures this.enabledExtensions == enabledExtensions && this.enabledLayers == enabledLayers
      ensures this.physicalDevice == physicalDevice && this.calls == calls
    {
      this.handle := handle;
      this.debugCallbackRef := debugCallbackRef;
      this.enabledExtensions := enabledExtensions;
      this.enabledLayers := enabledLayers;
      this.physicalDevice := physicalDevice;
      this.calls := calls;
    }

    /**
     * `new_from_create_info`: one `vkCreateDevice` with the given create
     * info; a failure becomes `Creation` and builds no device, a success
     * keeps the callback, extensions and layers exactly as given.
     */
    static method NewFromCreateInfo(physicalDevice: Handle, createInfo: DeviceCreateInfo, debugCallbackRef: Option<Handle>,
                                    enabledExtensions: seq<string>, enabledLayers: seq<string>,
                                    created: Result<Handle, VkError>)
      returns (r: Result<Device, DeviceError>)
      ensures created.Err? ==> r == Err(Creation(created.error))
      ensures created.Ok? ==> (r.Ok? && fresh(r.value) && r.value.handle == created.value &&
        r.value.debugCallbackRef == debugCallbackRef && r.value.enabledExtensions == enabledExtensions &&
        r.value.enabledLayers == enabledLayers && r.value.physicalDevice == physicalDevice &&
        r.value.calls == [CreateDevice(physicalDevice, createInfo)])
    {
      if created.Err? {
        return Err(Creation(created.error));
      }
      var d := new Device.Init(created.value, debugCallbackRef, enabledExtensions, enabledLayers, physicalDevice,
                               [CreateDevice(physicalDevice, createInfo)]);
      return Ok(d);
    }

    /** `new_with_p_next_chain`: builds the create info, then creates the device from it. */
    static method NewWithPNextChain(physicalDevice: Handle, maxApiVersion: Instance.ApiVersion,
                                    queueCreateInfos: seq<QueueCreateInfo>, features: Instance.PhysicalDeviceFeatures,
                                    extensionNames: seq<string>, layerNames: seq<string>,
                                    debugCallbackRef: Option<Handle>, pNextStructs: seq<PNextStruct>,
                                    created: Result<Handle, VkError>)
      returns (r: Result<Device, DeviceError>)
      ensures created.Err? ==> r == Err(Creation(created.error))
      ensures created.Ok? ==> (r.Ok? && fresh(r.value) && r.value.handle == created.value &&
        r.value.debugCallbackRef == debugCallbackRef && r.value.enabledExtensions == extensionNames &&
        r.value.enabledLayers == layerNames && r.value.physicalDevice == physicalDevice &&
        |r.value.calls| == 1 && r.value.calls[0].CreateDevice? && r.value.calls[0].physicalDevice == physicalDevice)
      ensures created.Ok? ==> (var ci := r.value.calls[0].createInfo;
        ci.queueCreateInfos == queueCreateInfos &&
        ci.enabledExtensionNames == extensionNames && ci.enabledLayerNames == layerNames &&
        ci.enabledFeatures == (if Instance.LessEq(maxApiVersion, Instance.V1_0) then Some(features.features10) else None) &&
        ci.pNext == CallerChain(pNextStructs) + FeatureChain(maxApiVersion, features, true))
    {
      var ci := BuildCreateInfo(maxApiVersion, queueCreateInfos, features, extensionNames, layerNames, pNextStructs);
      r := NewFromCreateInfo(physicalDevice, ci, debugCallbackRef, extensionNames, layerNames, created);
    }

    /** `Device::new`: `new_with_p_next_chain` with no caller structs. */
    static method New(physicalDevice: Handle, maxApiVersion: Instance.ApiVersion,
                      queueCreateInfos: seq<QueueCreateInfo>, features: Instance.PhysicalDeviceFeatures,
                      extensionNames: seq<string>, layerNames: seq<string>,
                      debugCallbackRef: Option<Handle>, created: Result<Handle, VkError>)
      returns (r: Result<Device, DeviceError>)
      ensures created.Err? ==> r == Err(Creation(created.error))
      ensures created.Ok? ==> (r.Ok? && fresh(r.value) && r.value.handle == created.value &&
        r.value.debugCallbackRef == debugCallbackRef && r.value.enabledExtensions == extensionNames &&
        r.value.enabledLayers == layerNames && r.value.physicalDevice == physicalDevice &&
        |r.value.calls| == 1 && r.value.calls[0].CreateDevice? && r.value.calls[0].physicalDevice == physicalDevice)
      ensures created.Ok? ==> (var ci := r.value.calls[0].createInfo;
        ci.queueCreateInfos == queueCreateInfos &&
        ci.enabledExtensionNames == extensionNames && ci.enabledLayerNames == layerNames &&
        ci.enabledFeatures == (if Instance.LessEq(maxApiVersion, Instance.V1_0) then Some(features.features10) else None) &&
        ci.pNext == FeatureChain(maxApiVersion, features, true))
    {
      r := NewWithPNextChain(physicalDevice, maxApiVersion, queueCreateInfos, features, extensionNames, layerNames,
                             debugCallbackRef, [], created);
    }

    /** `set_debug_callback_ref`: replaces the held callback and nothing else. */
    method SetDebugCallbackRef(debugCallbackRef: Option<Handle>)
      modifies this
      ensures this.debugCallbackRef == debugCallbackRef
      ensures handle == old(handle) && calls == old(calls)
    {
      this.debugCallbackRef := debugCallbackRef;
    }

    /** `wait_idle`: one `vkDeviceWaitIdle`, its failure mapped to `WaitIdle`. */
    method WaitIdle(result: Result<(), VkError>) returns (r: Result<(), DeviceError>)
      modifies this
      ensures r == if result.Ok? then Ok(()) else Err(DeviceError.WaitIdle(result.error))
      ensures calls == old(calls) + [DeviceWaitIdle]
      ensures handle == old(handle) && debugCallbackRef == old(debugCallbackRef)
    {
      calls := calls + [DeviceWaitIdle];
      r := if result.Ok? then Ok(()) else Err(DeviceError.WaitIdle(result.error));
    }

    /**
     * `Drop`: waits for the device to go idle and only then destroys it;
     * a failed wait panics (`expect`), and the device is not destroyed.
     */
    method Drop(waitIdle: Result<(), VkError>) returns (panicked: bool)
      modifies this
      ensures panicked <==> waitIdle.Err?
      ensures calls == old(calls) + [DeviceWaitIdle] + (if panicked then [] else [DestroyDevice])
      ensures handle == old(handle)
    {
      var w := WaitIdle(waitIdle);
      panicked := w.Err?;
      if !panicked {
        calls := calls + [DestroyDevice];
      }
    }
  }

  /**
   * The older `Device::new`: the extension names, then the layer names, are
   * converted to C strings, the first failure reported with its own variant;
   * the create info chains the 1.0, 1.1 and 1.2 features by the same rule;
   * then the device is created. The older device keeps no callback and
   * no name lists: the model gives it `None` and the converted names.
   */
  method LegacyNew(physicalDevice: Handle, apiVersion: Instance.ApiVersion, queueCreateInfos: seq<QueueCreateInfo>,
                   features10: Instance.Features, features11: Instance.Features, features12: Instance.Features,
                   extensionNames: seq<string>, layerNames: seq<string>, created: Result<Handle, VkError>)
    returns (r: Result<Device, DeviceError>)
    ensures StringToCStringVec(extensionNames).Err? ==>
      r == Err(ExtensionStringConversion(StringToCStringVec(extensionNames).error))
    ensures StringToCStringVec(extensionNames).Ok? && StringToCStringVec(layerNames).Err? ==>
      r == Err(LayerStringConversion(StringToCStringVec(layerNames).error))
    ensures StringToCStringVec(extensionNames).Ok? && StringToCStringVec(layerNames).Ok? && created.Err? ==>
      r == Err(Creation(created.error))
    ensures r.Ok? <==> FirstWithNul(extensionNames).None? && FirstWithNul(layerNames).None? && created.Ok?
    ensures r.Ok? ==> (fresh(r.value) && r.value.handle == created.value && r.value.debugCallbackRef == None &&
      |r.value.calls| == 1 && r.value.calls[0] == CreateDevice(physicalDevice, DeviceCreateInfo(
        queueCreateInfos, extensionNames, layerNames,
        if Instance.LessEq(apiVersion, Instance.V1_0) then Some(features10) else None,
        FeatureChain(apiVersion, Instance.PhysicalDeviceFeatures(features10, features11, features12, Instance.DEFAULT_FEATURES), false))))
  {
    StringToCStringVecSpec(extensionNames);
    StringToCStringVecSpec(layerNames);
    var extensionNamesRaw := StringToCStringVec(extensionNames);
    if extensionNamesRaw.Err? {
      return Err(ExtensionStringConversion(extensionNamesRaw.error));
    }
    var layerNamesRaw := StringToCStringVec(layerNames);
    if layerNamesRaw.Err? {
      return Err(LayerStringConversion(layerNamesRaw.error));
    }
    var ci := DeviceCreateInfo(queueCreateInfos, extensionNamesRaw.value, layerNamesRaw.value, None, []);
    var features := Instance.PhysicalDeviceFeatures(features10, features11, features12, Instance.DEFAULT_FEATURES);
    ci := ChainFeatures(ci, apiVersion, features, false);
    r := Device.NewFromCreateInfo(physicalDevice, ci, None, extensionNamesRaw.value, layerNamesRaw.value, created);
  }
}
