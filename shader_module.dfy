// Shader modules and the shader stages of a pipeline
// (bort-vk/src/shader_module.rs). Reading the file and decoding SPIR-V are
// library code; their outcomes are parameters.
module ShaderModule {
  import opened Wrappers
  import opened VkTypes

  /** `vk::SpecializationMapEntry` */
  datatype SpecializationMapEntry = SpecializationMapEntry(constantId: u32, offset: u32, size: nat)

  /** `vk::SpecializationInfo`; `Default` has no entries and no data. */
  datatype SpecializationInfo = SpecializationInfo(mapEntries: seq<SpecializationMapEntry>, data: seq<bv8>)

  const DEFAULT_SPECIALIZATION_INFO := SpecializationInfo([], [])

  /** `ShaderStage`: the stage, its module's handle, the entry point and optional specialization constants. */
  datatype ShaderStage = ShaderStage(
    flags: Flags,
    stage: Flags,
    shaderModule: Handle,
    entryPoint: string,
    writeSpecializationInfo: bool,
    specializationInfo: SpecializationInfo)

  /** `vk::PipelineShaderStageCreateInfo`; a null `p_specialization_info` is `None`. */
  datatype PipelineShaderStageCreateInfo = PipelineShaderStageCreateInfo(
    flags: Flags,
    stage: Flags,
    shaderModule: Handle,
    name: string,
    pSpecializationInfo: Option<SpecializationInfo>)

  /**
   * `ShaderStage::new`: no flags; the specialization info is written exactly
   * when one is given, and a `None` leaves the default in its place.
   */
  function NewShaderStage(stage: Flags, shaderModule: Handle, entryPoint: string,
                          specializationInfo: Option<SpecializationInfo>): (r: ShaderStage)
    ensures r.flags == 0 && r.stage == stage && r.shaderModule == shaderModule && r.entryPoint == entryPoint
    ensures r.writeSpecializationInfo <==> specializationInfo.Some?
    ensures specializationInfo.Some? ==> r.specializationInfo == specializationInfo.value
    ensures specializationInfo.None? ==> r.specializationInfo == DEFAULT_SPECIALIZATION_INFO
  {
    ShaderStage(0, stage, shaderModule, entryPoint, specializationInfo.Some?,
                specializationInfo.UnwrapOr(DEFAULT_SPECIALIZATION_INFO))
  }

  /** `write_create_info` / `create_info`: the specialization info is attached only when flagged. */
  function WriteCreateInfo(s: ShaderStage): (r: PipelineShaderStageCreateInfo)
    ensures r.flags == s.flags && r.shaderModule == s.shaderModule && r.stage == s.stage && r.name == s.entryPoint
    ensures r.pSpecializationInfo.Some? <==> s.writeSpecializationInfo
    ensures r.pSpecializationInfo.Some? ==> r.pSpecializationInfo.value == s.specializationInfo
  {
    PipelineShaderStageCreateInfo(s.flags, s.stage, s.shaderModule, s.entryPoint,
                                  if s.writeSpecializationInfo then Some(s.specializationInfo) else None)
  }

  /** What `new` was given survives into the create info: the optional info comes back as it was. */
  lemma NewThenWrite(stage: Flags, shaderModule: Handle, entryPoint: string, specializationInfo: Option<SpecializationInfo>)
    ensures WriteCreateInfo(NewShaderStage(stage, shaderModule, entryPoint, specializationInfo)) ==
      PipelineShaderStageCreateInfo(0, stage, shaderModule, entryPoint, specializationInfo)
  {
  }

  /** `std::io::Error`, by its kind. */
  datatype IoError = IoError(kind: int)

  /** `ShaderError` */
  datatype ShaderError =
    | FileRead(e: IoError, path: string)
    | SpirVDecode(decodeError: IoError)
    | Creation(result: VkError)

  /** `vk::ShaderModuleCreateInfo`: the SPIR-V words. */
  datatype ShaderModuleCreateInfo = ShaderModuleCreateInfo(code: seq<u32>)

  /** `ShaderModule`: its handle and its device. */
  datatype ShaderModuleObject = ShaderModuleObject(handle: Handle, device: Handle)

  /**
   * `new_from_spirv`: a decode failure is `SpirVDecode` and no module is
   * requested; otherwise one `vkCreateShaderModule` with the decoded words,
   * whose failure is `Creation`. `issued` lists the create infos sent.
   */
  function NewFromSpirv(device: Handle, decoded: Result<seq<u32>, IoError>, created: Result<Handle, VkError>)
    : (r: (Result<ShaderModuleObject, ShaderError>, seq<ShaderModuleCreateInfo>))
    ensures decoded.Err? ==> r.0 == Err(SpirVDecode(decoded.error)) && r.1 == []
    ensures decoded.Ok? ==> r.1 == [ShaderModuleCreateInfo(decoded.value)]
    ensures decoded.Ok? && created.Err? ==> r.0 == Err(Creation(created.error))
    ensures r.0.Ok? <==> decoded.Ok? && created.Ok?
    ensures r.0.Ok? ==> r.0.value == ShaderModuleObject(created.value, device)
  {
    match decoded
    case Err(e) => (Err(SpirVDecode(e)), [])
    case Ok(code) => (NewFromCreateInfo(device, ShaderModuleCreateInfo(code), created), [ShaderModuleCreateInfo(code)])
  }

  /** `new_from_create_info`: the driver's failure becomes `Creation`. */
  function NewFromCreateInfo(device: Handle, createInfo: ShaderModuleCreateInfo, created: Result<Handle, VkError>)
    : (r: Result<ShaderModuleObject, ShaderError>)
    ensures created.Err? ==> r == Err(Creation(created.error))
    ensures created.Ok? ==> r == Ok(ShaderModuleObject(created.value, device))
  {
    match created
    case Err(e) => Err(Creation(e))
    case Ok(h) => Ok(ShaderModuleObject(h, device))
  }
}
